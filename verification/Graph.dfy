/** The two traversals of the outbound graph in apps/web/src/server/subscription/template.ts,
    the cycle check `visit` and the memoised `managedLeaves`, against paths. */
module Graph {

  type Tag = string

  /** Every tag's targets, in order. */
  type Edges = map<Tag, seq<Tag>>

  // ---------------------------------------------------------------- paths

  /** A walk along edges; its last tag need not exist. */
  ghost predicate Path(g: Edges, p: seq<Tag>) {
    p != [] && forall i :: 0 <= i < |p| - 1 ==> p[i] in g && p[i + 1] in g[p[i]]
  }

  ghost predicate From(g: Edges, a: Tag, b: Tag, p: seq<Tag>) {
    Path(g, p) && p[0] == a && p[|p| - 1] == b
  }

  ghost predicate Reaches(g: Edges, a: Tag, b: Tag) { exists p :: From(g, a, b, p) }

  ghost predicate Cyclic(g: Edges) { exists a, p :: From(g, a, a, p) && |p| >= 2 }

  /** Every target exists. */
  ghost predicate Closed(g: Edges) {
    forall a, b :: a in g && b in g[a] ==> b in g
  }

  /** The platform reserves this prefix for the outbounds it generates. */
  predicate Reserved(tag: Tag) { |tag| >= 4 && tag[..4] == "bfc_" }

  /** The reserved tags reachable from a tag. */
  ghost function Leaves(g: Edges, a: Tag): set<Tag> {
    set b | b in g && Reserved(b) && Reaches(g, a, b)
  }

  lemma ReachesSelf(g: Edges, a: Tag)
    ensures Reaches(g, a, a)
  {
    assert From(g, a, a, [a]);
  }

  lemma Prepend(g: Edges, a: Tag, b: Tag, c: Tag)
    requires a in g && b in g[a] && Reaches(g, b, c)
    ensures Reaches(g, a, c)
  {
    var p :| From(g, b, c, p);
    assert From(g, a, c, [a] + p);
  }

  lemma FirstStep(g: Edges, a: Tag, c: Tag) returns (b: Tag)
    requires Reaches(g, a, c) && a != c
    ensures a in g && b in g[a] && Reaches(g, b, c)
  {
    var p :| From(g, a, c, p);
    b := p[1];
    assert From(g, b, c, p[1..]);
  }

  // ---------------------------------------------------------------- topological orders

  function Elements(s: seq<Tag>): set<Tag> { set x | x in s }

  /** Every tag comes after all its targets. */
  ghost predicate Sorted(g: Edges, order: seq<Tag>) {
    && (forall i, j :: 0 <= i < j < |order| ==> order[i] != order[j])
    && (forall i :: 0 <= i < |order| ==> order[i] in g)
    && (forall i, b :: 0 <= i < |order| && b in g[order[i]] ==> b in order[..i])
  }

  lemma {:induction false} PathFalls(g: Edges, order: seq<Tag>, p: seq<Tag>, i: nat) returns (j: nat)
    requires Sorted(g, order) && Path(g, p) && i < |order| && order[i] == p[0]
    ensures j <= i && order[j] == p[|p| - 1] && (|p| >= 2 ==> j < i)
    decreases |p|
  {
    if |p| == 1 {
      j := i;
    } else {
      assert p[1] in g[order[i]];
      var k :| 0 <= k < i && order[k] == p[1];
      j := PathFalls(g, order, p[1..], k);
    }
  }

  lemma SortedAcyclic(g: Edges, order: seq<Tag>)
    requires Sorted(g, order) && Elements(order) == g.Keys
    ensures Closed(g) && !Cyclic(g)
  {
    if Cyclic(g) {
      var a, p :| From(g, a, a, p) && |p| >= 2;
      assert p[0] in g && a in Elements(order);
      var i :| 0 <= i < |order| && order[i] == a;
      var j := PathFalls(g, order, p, i);
      assert false;
    }
    forall a, b | a in g && b in g[a] ensures b in g {
      assert a in Elements(order);
      var i :| 0 <= i < |order| && order[i] == a;
      assert b in Elements(order);
    }
  }

  lemma SortedExtends(g: Edges, order: seq<Tag>, tag: Tag)
    requires Sorted(g, order) && tag in g && tag !in order
    requires forall b :: b in g[tag] ==> b in Elements(order)
    ensures Sorted(g, order + [tag]) && Elements(order + [tag]) == Elements(order) + {tag}
  {
    var more := order + [tag];
    forall i, b | 0 <= i < |more| && b in g[more[i]] ensures b in more[..i] {
      if i < |order| { assert more[..i] == order[..i] && b in order[..i]; } else { assert more[..i] == order; }
    }
  }

  // ---------------------------------------------------------------- the cycle check

  datatype Outcome = Done | Cycle | Missing

  /** The check's variables; `stack` and `order` are the same sets as paths. */
  class CycleCheck {
    const edges: Edges
    var visiting: set<Tag>
    var visited: set<Tag>
    ghost var stack: seq<Tag>
    ghost var order: seq<Tag>

    constructor (edges: Edges)
      ensures Valid() && this.edges == edges && stack == [] && visited == {}
    {
      this.edges := edges;
      visiting, visited, stack, order := {}, {}, [], [];
    }

    ghost predicate Valid()
      reads this
    {
      && visiting == Elements(stack) && visiting <= edges.Keys && visiting !! visited
      && (stack != [] ==> Path(edges, stack))
      && visited == Elements(order) && Sorted(edges, order)
    }

    /** `tag` is a root or a target of the innermost tag being visited. */
    method Visit(tag: Tag) returns (outcome: Outcome)
      requires Valid() && (stack != [] ==> tag in edges[stack[|stack| - 1]])
      modifies this
      ensures outcome.Done? ==> Valid() && stack == old(stack) && old(visited) + {tag} <= visited
      ensures outcome.Cycle? ==> Cyclic(edges)
      ensures outcome.Missing? ==> tag !in edges || !Closed(edges)
      decreases edges.Keys - visiting, 1
    {
      if tag in visiting {
        CycleFound(tag);
        return Cycle;
      }
      if tag in visited { return Done; }
      if tag !in edges { return Missing; }
      ghost var outer, seen := stack, visited;
      visiting := visiting + {tag};
      stack := stack + [tag];
      outcome := VisitTargets(tag);
      if !outcome.Done? { return; }
      SortedExtends(edges, order, tag);
      visiting := visiting - {tag};
      visited := visited + {tag};
      stack, order := outer, order + [tag];
    }

    method VisitTargets(tag: Tag) returns (outcome: Outcome)
      requires Valid() && stack != [] && stack[|stack| - 1] == tag
      modifies this
      ensures outcome.Done? ==>
        Valid() && stack == old(stack) && old(visited) <= visited && forall b :: b in edges[tag] ==> b in visited
      ensures outcome.Cycle? ==> Cyclic(edges)
      ensures outcome.Missing? ==> !Closed(edges)
      decreases edges.Keys - visiting, 2
    {
      var next := edges[tag];
      for i := 0 to |next|
        invariant Valid() && stack == old(stack) && old(visited) <= visited
        invariant forall j :: 0 <= j < i ==> next[j] in visited
      {
        outcome := Visit(next[i]);
        if !outcome.Done? { return; }
      }
      outcome := Done;
    }

    lemma CycleFound(tag: Tag)
      requires Valid() && tag in visiting && tag in edges[stack[|stack| - 1]]
      ensures Cyclic(edges)
    {
      var i :| 0 <= i < |stack| && stack[i] == tag;
      assert From(edges, tag, tag, stack[i..] + [tag]);
    }
  }

  /** The whole check, over the tags in any order: it passes exactly the closed acyclic
      graphs, and on a closed graph it reports a cycle if and only if there is one. */
  method CheckCycles(edges: Edges, tags: seq<Tag>) returns (outcome: Outcome, ghost order: seq<Tag>)
    requires Elements(tags) == edges.Keys
    ensures outcome.Done? <==> Closed(edges) && !Cyclic(edges)
    ensures outcome.Cycle? ==> Cyclic(edges)
    ensures Closed(edges) ==> (outcome.Cycle? <==> Cyclic(edges))
    ensures outcome.Missing? ==> !Closed(edges)
    ensures outcome.Done? ==> Sorted(edges, order) && Elements(order) == edges.Keys
  {
    var check := new CycleCheck(edges);
    order := [];
    for i := 0 to |tags|
      invariant check.Valid() && check.stack == [] && check.edges == edges
      invariant forall j :: 0 <= j < i ==> tags[j] in check.visited
      invariant fresh(check)
    {
      assert tags[i] in Elements(tags);
      outcome := check.Visit(tags[i]);
      if !outcome.Done? { return; }
    }
    order := check.order;
    assert forall t :: t in edges ==> t in Elements(tags);
    SortedAcyclic(edges, order);
    outcome := Done;
  }

  // ---------------------------------------------------------------- the memoised leaves

  lemma LeavesUnfold(g: Edges, a: Tag)
    requires Closed(g) && a in g
    ensures forall c :: c in Leaves(g, a) <==>
      (Reserved(a) && c == a) || exists i :: 0 <= i < |g[a]| && c in Leaves(g, g[a][i])
  {
    forall c | c in Leaves(g, a) && c != a ensures exists i :: 0 <= i < |g[a]| && c in Leaves(g, g[a][i]) {
      var b := FirstStep(g, a, c);
      var i :| 0 <= i < |g[a]| && g[a][i] == b;
      assert c in Leaves(g, g[a][i]);
    }
    ReachesSelf(g, a);
    forall c, i | 0 <= i < |g[a]| && c in Leaves(g, g[a][i]) ensures c in Leaves(g, a) {
      Prepend(g, a, g[a][i], c);
    }
  }

  class LeafFinder {
    const edges: Edges
    var leaves: map<Tag, set<Tag>>

    constructor (edges: Edges)
      ensures this.edges == edges && Valid()
    {
      this.edges := edges;
      leaves := map[];
    }

    ghost predicate Valid()
      reads this
    {
      forall t :: t in leaves ==> t in edges && leaves[t] == Leaves(edges, t)
    }

    /** The cache changes nothing: the result is the reachable reserved tags. */
    method ManagedLeaves(tag: Tag, ghost order: seq<Tag>) returns (found: set<Tag>)
      requires Valid() && Sorted(edges, order) && Elements(order) <= edges.Keys && tag in order && Closed(edges)
      modifies this
      ensures Valid() && found == Leaves(edges, tag)
      decreases |order|
    {
      if tag in leaves { return leaves[tag]; }
      ghost var at :| 0 <= at < |order| && order[at] == tag;
      found := if Reserved(tag) then {tag} else {};
      var next := edges[tag];
      LeavesUnfold(edges, tag);
      for i := 0 to |next|
        invariant Valid()
        invariant forall c :: c in found <==>
          (Reserved(tag) && c == tag) || exists j :: 0 <= j < i && c in Leaves(edges, next[j])
      {
        var more := ManagedLeaves(next[i], order[..at]);
        found := found + more;
      }
      leaves := leaves[tag := found];
    }
  }
}
