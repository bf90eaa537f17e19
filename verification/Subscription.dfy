/** Compiling a subscription (renderSubscription in
    apps/web/src/server/subscription/template.ts): bound groups are filled, references
    checked, cycles refused, and what a group reaches is compared with its filter. */
module Subscription {
  import opened Wrappers
  import opened Authorization
  import opened Graph

  type Fields = map<string, Json>

  datatype Node = Node(id: string, available: bool, region: string, tags: seq<string>)

  datatype Snapshot = Snapshot(blocked: bool, nodes: seq<Node>)

  datatype Binding = Binding(groupTag: Tag, regions: seq<string>, tags: seq<string>, protocols: seq<string>,
                             machineIds: seq<string>, excludeMachineIds: seq<string>, staticMembers: seq<Tag>)

  /** A draft; a template that is no JSON has no value. */
  datatype Draft = Draft(template: Option<Json>, bindings: seq<Binding>)

  /** An outbound made for one node. */
  datatype Generated = Generated(node: Node, protocol: string, fields: Fields)

  datatype Error = Blocked | BadTemplate | NoNodes | BadTag | BoundTwice | NotAGroup | NoMatch
                 | BadGroup | UnknownOutbound | BadRoute | CyclicOutbounds | Thrown | OutsideFilter

  type Result<T> = Fallible<T, Error>

  // ---------------------------------------------------------------- values

  /** String(value) of a parsed JSON value; a parsed number is held by the text this gives it. */
  function ToString(value: Json): string {
    match value
    case Null => "null"
    case Bool(b) => if b then "true" else "false"
    case Num(text) => text
    case Str(s) => s
    case Arr(items) => Joined(items)
    case Obj(_) => "[object Object]"
  }

  function Joined(items: seq<Json>): string {
    if items == [] then ""
    else
      var last := items[|items| - 1];
      var text := if last.Null? then "" else ToString(last);
      if |items| == 1 then text else Joined(items[..|items| - 1]) + "," + text
  }

  function TypeText(outbound: Fields): string {
    if "type" in outbound then ToString(outbound["type"]) else "undefined"
  }

  predicate IsGroup(outbound: Fields) { TypeText(outbound) in ["selector", "urltest"] }

  function Strings(tags: seq<Tag>): seq<Json> { seq(|tags|, i requires 0 <= i < |tags| => Str(tags[i])) }

  /** The distinct elements in order of first occurrence. */
  function Distinct(tags: seq<Tag>): seq<Tag> {
    if tags == [] then []
    else
      var init, last := tags[..|tags| - 1], tags[|tags| - 1];
      if last in init then Distinct(init) else Distinct(init) + [last]
  }

  lemma {:induction false} DistinctElements(tags: seq<Tag>)
    ensures Elements(Distinct(tags)) == Elements(tags)
  {
    if tags != [] {
      var init, last := tags[..|tags| - 1], tags[|tags| - 1];
      DistinctElements(init);
      assert tags == init + [last];
      assert Elements(tags) == Elements(init) + {last};
      assert last in init <==> last in Elements(init);
      assert Elements(Distinct(init) + [last]) == Elements(Distinct(init)) + {last};
    }
  }

  // ---------------------------------------------------------------- generated outbounds

  function GeneratedTag(x: Generated): Tag { "bfc_" + x.node.id + "_" + x.protocol }

  function Available(nodes: seq<Node>): seq<Node> {
    if nodes == [] then []
    else Available(nodes[..|nodes| - 1]) + if nodes[|nodes| - 1].available then [nodes[|nodes| - 1]] else []
  }

  /** The trojan and hysteria2 outbounds rendered for one node. */
  function ForNode(node: Node, rendered: seq<Fields>): seq<Generated> {
    if rendered == [] then []
    else
      var last := rendered[|rendered| - 1];
      ForNode(node, rendered[..|rendered| - 1])
      + if TypeText(last) in ["trojan", "hysteria2"]
        then [Generated(node, TypeText(last), last["tag" := Str("bfc_" + node.id + "_" + TypeText(last))])] else []
  }

  function GeneratedFor(nodes: seq<Node>, render: Node -> seq<Fields>): seq<Generated> {
    if nodes == [] then []
    else GeneratedFor(nodes[..|nodes| - 1], render) + ForNode(nodes[|nodes| - 1], render(nodes[|nodes| - 1]))
  }

  /** A binding's filter. */
  predicate Matches(b: Binding, x: Generated) {
    && (b.regions == [] || x.node.region in b.regions)
    && (forall i :: 0 <= i < |b.tags| ==> b.tags[i] in x.node.tags)
    && (b.protocols == [] || x.protocol in b.protocols)
    && (b.machineIds == [] || x.node.id in b.machineIds)
    && x.node.id !in b.excludeMachineIds
  }

  function Members(b: Binding, generated: seq<Generated>): seq<Tag> {
    if generated == [] then []
    else Members(b, generated[..|generated| - 1])
         + if Matches(b, generated[|generated| - 1]) then [GeneratedTag(generated[|generated| - 1])] else []
  }

  /** The tags a filter selects. */
  ghost function Selected(b: Binding, generated: seq<Generated>): set<Tag> {
    set i | 0 <= i < |generated| && Matches(b, generated[i]) :: GeneratedTag(generated[i])
  }

  lemma {:induction false} MembersSelected(b: Binding, generated: seq<Generated>)
    ensures Elements(Members(b, generated)) == Selected(b, generated)
  {
    if generated != [] {
      var n := |generated| - 1;
      var init := generated[..n];
      MembersSelected(b, init);
      forall t | t in Selected(b, init) ensures t in Selected(b, generated) {
        var i :| 0 <= i < n && Matches(b, init[i]) && GeneratedTag(init[i]) == t;
        assert Matches(b, generated[i]) && GeneratedTag(generated[i]) == t;
      }
      forall t | t in Selected(b, generated) ensures t in Elements(Members(b, generated)) {
        var i :| 0 <= i <= n && Matches(b, generated[i]) && GeneratedTag(generated[i]) == t;
        if i < n { assert Matches(b, init[i]) && t in Selected(b, init); }
      }
    }
  }

  // ---------------------------------------------------------------- the tag table

  function UserTags(outbounds: seq<Fields>): seq<Tag> {
    seq(|outbounds|, i requires 0 <= i < |outbounds| => Authorization.Tag(outbounds[i]))
  }

  function GeneratedTags(generated: seq<Generated>): seq<Tag> {
    seq(|generated|, i requires 0 <= i < |generated| => GeneratedTag(generated[i]))
  }

  ghost predicate TagsOk(outbounds: seq<Fields>) {
    var tags := UserTags(outbounds);
    && (forall i :: 0 <= i < |tags| ==> tags[i] != "" && !Reserved(tags[i]))
    && (forall i, j :: 0 <= i < j < |tags| ==> tags[i] != tags[j])
  }

  /** The table after later entries have replaced earlier ones. */
  ghost function Table(tags: seq<Tag>, entries: seq<Fields>): map<Tag, Fields>
    requires |tags| == |entries|
  {
    if tags == [] then map[]
    else
      var n := |tags| - 1;
      Table(tags[..n], entries[..n])[tags[n] := entries[n]]
  }

  function GeneratedEntries(generated: seq<Generated>): seq<Fields> {
    seq(|generated|, i requires 0 <= i < |generated| => generated[i].fields)
  }

  ghost function Entries(outbounds: seq<Fields>, generated: seq<Generated>): map<Tag, Fields> {
    Table(UserTags(outbounds) + GeneratedTags(generated), outbounds + GeneratedEntries(generated))
  }

  lemma {:induction false} TableKeys(tags: seq<Tag>, entries: seq<Fields>)
    requires |tags| == |entries|
    ensures Table(tags, entries).Keys == Elements(tags)
  {
    if tags != [] {
      var n := |tags| - 1;
      TableKeys(tags[..n], entries[..n]);
      assert tags == tags[..n] + [tags[n]];
    }
  }

  /** An entry of the table is the last one listed for its tag. */
  lemma {:induction false} TableAt(tags: seq<Tag>, entries: seq<Fields>, tag: Tag) returns (i: nat)
    requires |tags| == |entries| && tag in Table(tags, entries)
    ensures i < |tags| && tags[i] == tag && entries[i] == Table(tags, entries)[tag]
    ensures forall j :: i < j < |tags| ==> tags[j] != tag
  {
    var n := |tags| - 1;
    if tag == tags[n] { i := n; } else { i := TableAt(tags[..n], entries[..n], tag); }
  }

  lemma TableExtends(tags: seq<Tag>, entries: seq<Fields>, i: nat)
    requires |tags| == |entries| && i < |tags|
    ensures Table(tags[..i + 1], entries[..i + 1]) == Table(tags[..i], entries[..i])[tags[i] := entries[i]]
    ensures Table(tags[..i], entries[..i]).Keys == Elements(tags[..i])
  {
    assert tags[..i + 1][..i] == tags[..i] && entries[..i + 1][..i] == entries[..i];
    TableKeys(tags[..i], entries[..i]);
  }

  /** Builds the table, refusing unnamed, reserved and repeated tags. */
  method CollectTags(outbounds: seq<Fields>) returns (r: Result<map<Tag, Fields>>)
    ensures r.Ok? <==> TagsOk(outbounds)
    ensures r.Ok? ==> r.value == Table(UserTags(outbounds), outbounds)
    ensures r.Err? ==> r.error == BadTag
  {
    hide Authorization.Tag;
    hide Reserved;
    var byTag: map<Tag, Fields> := map[];
    var tags := UserTags(outbounds);
    for i := 0 to |outbounds|
      invariant byTag == Table(tags[..i], outbounds[..i])
      invariant forall j :: 0 <= j < i ==> tags[j] != "" && !Reserved(tags[j])
      invariant forall j, k :: 0 <= j < k < i ==> tags[j] != tags[k]
    {
      var tag := tags[i];
      TableExtends(tags, outbounds, i);
      if tag == "" || Reserved(tag) || tag in byTag { return Err(BadTag); }
      byTag := byTag[tag := outbounds[i]];
    }
    assert tags[..|tags|] == tags && outbounds[..|tags|] == outbounds;
    r := Ok(byTag);
  }

  /** Adds the generated outbounds to the table. */
  method AddGenerated(table: map<Tag, Fields>, outbounds: seq<Fields>, generated: seq<Generated>)
    returns (byTag: map<Tag, Fields>)
    requires table == Table(UserTags(outbounds), outbounds)
    ensures byTag == Entries(outbounds, generated)
  {
    hide Table;
    hide GeneratedTag;
    byTag := table;
    var tags, entries := UserTags(outbounds) + GeneratedTags(generated), outbounds + GeneratedEntries(generated);
    var n := |outbounds|;
    assert tags[..n] == UserTags(outbounds) && entries[..n] == outbounds;
    for i := 0 to |generated|
      invariant byTag == Table(tags[..n + i], entries[..n + i])
    {
      TableExtends(tags, entries, n + i);
      assert tags[n + i] == GeneratedTag(generated[i]) && entries[n + i] == generated[i].fields;
      byTag := byTag[GeneratedTag(generated[i]) := generated[i].fields];
    }
    assert tags[..n + |generated|] == tags && entries[..n + |generated|] == entries;
  }

  // ---------------------------------------------------------------- bindings

  /** The binding names a group, and its filter selects something. */
  ghost predicate Bindable(table: map<Tag, Fields>, b: Binding, generated: seq<Generated>) {
    b.groupTag in table && IsGroup(table[b.groupTag]) && Selected(b, generated) != {}
  }

  ghost predicate BindingsOk(table: map<Tag, Fields>, bindings: seq<Binding>, generated: seq<Generated>) {
    && (forall k :: 0 <= k < |bindings| ==> Bindable(table, bindings[k], generated))
    && (forall j, k :: 0 <= j < k < |bindings| ==> bindings[j].groupTag != bindings[k].groupTag)
  }

  function MemberList(b: Binding, generated: seq<Generated>): Json {
    Arr(Strings(Distinct(b.staticMembers + Members(b, generated))))
  }

  /** The table after every bound group got its members. */
  ghost function Filled(table: map<Tag, Fields>, bindings: seq<Binding>, generated: seq<Generated>): map<Tag, Fields> {
    map t | t in table ::
      if exists k :: 0 <= k < |bindings| && bindings[k].groupTag == t then
        var k :| 0 <= k < |bindings| && bindings[k].groupTag == t;
        table[t]["outbounds" := MemberList(bindings[k], generated)]
      else table[t]
  }

  method FillBindings(table: map<Tag, Fields>, bindings: seq<Binding>, generated: seq<Generated>)
    returns (r: Result<map<Tag, Fields>>, selected: map<Tag, set<Tag>>)
    ensures r.Ok? <==> BindingsOk(table, bindings, generated)
    ensures r.Ok? ==> r.value == Filled(table, bindings, generated)
    ensures r.Err? ==> r.error in {BoundTwice, NotAGroup, NoMatch}
    ensures r.Ok? ==> forall k :: 0 <= k < |bindings| ==>
      var tag := bindings[k].groupTag;
      tag in r.value && tag in selected && selected[tag] == Selected(bindings[k], generated)
  {
    hide MemberList;
    hide IsGroup;
    hide Filled;
    hide Selected;
    hide Members;
    var byTag := table;
    NothingFilled(table, generated);
    var boundTags: set<Tag> := {};
    selected := map[];
    for i := 0 to |bindings|
      invariant BindingsOk(table, bindings[..i], generated)
      invariant byTag.Keys == table.Keys && byTag == Filled(table, bindings[..i], generated)
      invariant forall t :: t in boundTags <==> exists k :: 0 <= k < i && bindings[k].groupTag == t
      invariant forall k :: 0 <= k < i ==>
        bindings[k].groupTag in selected && selected[bindings[k].groupTag] == Selected(bindings[k], generated)
    {
      var binding := bindings[i];
      if binding.groupTag in boundTags { return Err(BoundTwice), selected; }
      boundTags := boundTags + {binding.groupTag};
      FilledUnbound(table, bindings[..i], generated, binding.groupTag);
      if binding.groupTag !in byTag || !IsGroup(byTag[binding.groupTag]) {
        assert !Bindable(table, binding, generated);
        return Err(NotAGroup), selected;
      }
      var members := Members(binding, generated);
      MembersSelected(binding, generated);
      selected := selected[binding.groupTag := Elements(members)];
      if members == [] {
        assert !Bindable(table, binding, generated);
        return Err(NoMatch), selected;
      }
      assert members[0] in Elements(members);
      byTag := byTag[binding.groupTag := byTag[binding.groupTag]["outbounds" := MemberList(binding, generated)]];
      FilledExtends(table, bindings, generated, i);
    }
    assert bindings[..|bindings|] == bindings;
    forall k | 0 <= k < |bindings|
      ensures bindings[k].groupTag in byTag
    {
      assert Bindable(table, bindings[k], generated);
    }
    r := Ok(byTag);
  }

  lemma NothingFilled(table: map<Tag, Fields>, generated: seq<Generated>)
    ensures Filled(table, [], generated) == table
  {}

  lemma FilledUnbound(table: map<Tag, Fields>, bindings: seq<Binding>, generated: seq<Generated>, tag: Tag)
    requires forall k :: 0 <= k < |bindings| ==> bindings[k].groupTag != tag
    ensures Filled(table, bindings, generated).Keys == table.Keys
    ensures tag in table ==> Filled(table, bindings, generated)[tag] == table[tag]
  {}

  lemma FilledAt(table: map<Tag, Fields>, bindings: seq<Binding>, generated: seq<Generated>, k: nat)
    requires k < |bindings| && bindings[k].groupTag in table
    requires forall j :: 0 <= j < |bindings| && bindings[j].groupTag == bindings[k].groupTag ==> j == k
    ensures Filled(table, bindings, generated)[bindings[k].groupTag]
            == table[bindings[k].groupTag]["outbounds" := MemberList(bindings[k], generated)]
  {
    hide MemberList;
  }

  lemma FilledExtends(table: map<Tag, Fields>, bindings: seq<Binding>, generated: seq<Generated>, i: nat)
    requires i < |bindings| && BindingsOk(table, bindings[..i], generated)
    requires Bindable(table, bindings[i], generated)
    requires forall k :: 0 <= k < i ==> bindings[k].groupTag != bindings[i].groupTag
    ensures BindingsOk(table, bindings[..i + 1], generated)
    ensures var before := Filled(table, bindings[..i], generated);
            var group := bindings[i].groupTag;
            Filled(table, bindings[..i + 1], generated)
            == before[group := before[group]["outbounds" := MemberList(bindings[i], generated)]]
  {
    hide MemberList;
    hide Filled;
    var few, more := bindings[..i], bindings[..i + 1];
    var group := bindings[i].groupTag;
    assert forall k :: 0 <= k < i ==> more[k] == few[k] == bindings[k];
    assert more[i] == bindings[i];
    FilledKeys(table, few, generated);
    FilledKeys(table, more, generated);
    hide Selected;
    FilledAt(table, more, generated, i);
    FilledUnbound(table, few, generated, group);
    forall t | t in table && t != group
      ensures Filled(table, more, generated)[t] == Filled(table, few, generated)[t]
    {
      if k :| 0 <= k < i && few[k].groupTag == t {
        FilledAt(table, few, generated, k);
        FilledAt(table, more, generated, k);
      } else {
        FilledUnbound(table, few, generated, t);
        FilledUnbound(table, more, generated, t);
      }
    }
  }

  lemma FilledKeys(table: map<Tag, Fields>, bindings: seq<Binding>, generated: seq<Generated>)
    ensures Filled(table, bindings, generated).Keys == table.Keys
  {
    hide MemberList;
  }

  // ---------------------------------------------------------------- references

  const REFERENCES := ["outbound", "detour", "download_detour", "external_ui_download_detour"]

  predicate Resolves(value: Json, tags: set<Tag>) { value.Str? && value.s in tags }

  predicate GroupOk(outbound: Fields, tags: set<Tag>) {
    IsGroup(outbound) ==>
      && Field(outbound, "outbounds").Arr? && outbound["outbounds"].items != []
      && (forall i :: 0 <= i < |outbound["outbounds"].items| ==> Resolves(outbound["outbounds"].items[i], tags))
      && ("default" in outbound ==> outbound["default"] in outbound["outbounds"].items)
  }

  /** Every reference in the document names an outbound. */
  predicate Walk(value: Json, tags: set<Tag>) {
    match value
    case Arr(items) => forall i :: 0 <= i < |items| ==> Walk(items[i], tags)
    case Obj(fields) =>
      forall key :: key in fields ==> (key in REFERENCES ==> Resolves(fields[key], tags)) && Walk(fields[key], tags)
    case _ => true
  }

  predicate RouteOk(document: Fields, tags: set<Tag>) {
    "route" in document ==>
      && document["route"].Obj?
      && ("final" in document["route"].fields ==> Resolves(document["route"].fields["final"], tags))
  }

  ghost predicate Inside(inner: Json, outer: Json) {
    || inner == outer
    || (outer.Arr? && exists i :: (0 <= i < |outer.items| && Inside(inner, outer.items[i])))
    || (outer.Obj? && exists key :: (key in outer.fields && Inside(inner, outer.fields[key])))
  }

  ghost predicate ReferencesResolve(value: Json, tags: set<Tag>) {
    forall fields, key :: Inside(Obj(fields), value) && key in fields && key in REFERENCES ==>
      Resolves(fields[key], tags)
  }

  /** The walk finds the references at every depth. */
  lemma {:induction false} WalkMeans(value: Json, tags: set<Tag>)
    ensures Walk(value, tags) <==> ReferencesResolve(value, tags)
  {
    match value
    case Arr(items) =>
      forall i | 0 <= i < |items|
        ensures Walk(items[i], tags) <==> ReferencesResolve(items[i], tags)
      {
        WalkMeans(items[i], tags);
      }
      if ReferencesResolve(value, tags) {
        forall i | 0 <= i < |items| ensures ReferencesResolve(items[i], tags) {}
      }
    case Obj(fields) =>
      forall key | key in fields
        ensures Walk(fields[key], tags) <==> ReferencesResolve(fields[key], tags)
      {
        WalkMeans(fields[key], tags);
      }
      if ReferencesResolve(value, tags) {
        assert Inside(Obj(fields), value);
        forall key | key in fields ensures ReferencesResolve(fields[key], tags) {}
      }
    case _ =>
  }

  // ---------------------------------------------------------------- the graph

  function Texts(items: seq<Json>): seq<Tag> { seq(|items|, i requires 0 <= i < |items| => ToString(items[i])) }

  function Targets(outbound: Fields): seq<Tag> {
    (if Field(outbound, "outbounds").Arr? then Texts(outbound["outbounds"].items) else [])
    + (if Field(outbound, "detour").Str? then [outbound["detour"].s] else [])
  }

  function EdgesOf(table: map<Tag, Fields>): Edges { map t | t in table :: Targets(table[t]) }

  // ---------------------------------------------------------------- the whole compilation

  predicate WellFormed(template: Option<Json>) {
    && template.Some? && template.value.Obj? && Field(template.value.fields, "outbounds").Arr?
    && var items := template.value.fields["outbounds"].items; forall i :: 0 <= i < |items| ==> items[i].Obj?
  }

  function Outbounds(draft: Draft): seq<Fields> {
    if !WellFormed(draft.template) then []
    else
      var items := draft.template.value.fields["outbounds"].items;
      seq(|items|, i requires 0 <= i < |items| => items[i].fields)
  }

  function AllGenerated(snapshot: Snapshot, render: Node -> seq<Fields>): seq<Generated> {
    GeneratedFor(Available(snapshot.nodes), render)
  }

  /** The tag table once all bindings are filled. */
  ghost function FullTable(draft: Draft, generated: seq<Generated>): map<Tag, Fields> {
    Filled(Entries(Outbounds(draft), generated), draft.bindings, generated)
  }

  /** The user's outbounds as the table holds them, then the generated ones. */
  function OutboundList(tags: seq<Tag>, table: map<Tag, Fields>, generated: seq<Generated>): seq<Json> {
    seq(|tags|, i requires 0 <= i < |tags| => Obj(if tags[i] in table then table[tags[i]] else map[]))
    + seq(|generated|, i requires 0 <= i < |generated| => Obj(generated[i].fields))
  }

  function Document(draft: Draft, table: map<Tag, Fields>, generated: seq<Generated>): Fields {
    (if WellFormed(draft.template) then draft.template.value.fields else map[])
      ["outbounds" := Arr(OutboundList(UserTags(Outbounds(draft)), table, generated))]
  }

  /** Everything that is checked before the graph is traversed. */
  ghost predicate Prepared(draft: Draft, snapshot: Snapshot, generated: seq<Generated>) {
    var table := FullTable(draft, generated);
    var document := Document(draft, table, generated);
    && !snapshot.blocked && WellFormed(draft.template) && Available(snapshot.nodes) != []
    && TagsOk(Outbounds(draft)) && BindingsOk(Entries(Outbounds(draft), generated), draft.bindings, generated)
    && (forall t :: t in table ==> GroupOk(table[t], table.Keys))
    && Walk(Obj(document), table.Keys) && RouteOk(document, table.Keys)
  }

  ghost predicate WithinFilters(draft: Draft, generated: seq<Generated>) {
    forall k :: 0 <= k < |draft.bindings| ==>
      Leaves(EdgesOf(FullTable(draft, generated)), draft.bindings[k].groupTag) <= Selected(draft.bindings[k], generated)
  }

  /** The drafts that compile. */
  ghost predicate Acceptable(draft: Draft, snapshot: Snapshot, generated: seq<Generated>) {
    var edges := EdgesOf(FullTable(draft, generated));
    Prepared(draft, snapshot, generated) && Closed(edges) && !Cyclic(edges) && WithinFilters(draft, generated)
  }

  /** Compiles exactly the acceptable drafts. On a closed graph a cycle is reported if and
      only if there is one; a dangling target of the graph is the only other way to fail
      once the references are checked, and it surfaces as a thrown TypeError. */
  method RenderSubscription(draft: Draft, snapshot: Snapshot, render: Node -> seq<Fields>) returns (r: Result<Json>)
    ensures var generated := AllGenerated(snapshot, render);
            var edges := EdgesOf(FullTable(draft, generated));
            && (r.Ok? <==> Acceptable(draft, snapshot, generated))
            && (r.Ok? ==> r.value == Obj(Document(draft, FullTable(draft, generated), generated)))
            && (Prepared(draft, snapshot, generated) && Closed(edges) ==>
                  (r == Err(CyclicOutbounds) <==> Cyclic(edges)))
            && (r == Err(Thrown) ==> Prepared(draft, snapshot, generated) && !Closed(edges))
            && (Prepared(draft, snapshot, generated) && !Closed(edges) ==>
                  r == Err(Thrown) || r == Err(CyclicOutbounds))
            && (Prepared(draft, snapshot, generated) && !Closed(edges) && !Cyclic(edges) ==> r == Err(Thrown))
            && (r == Err(OutsideFilter) <==>
                  && Prepared(draft, snapshot, generated) && Closed(edges) && !Cyclic(edges)
                  && !WithinFilters(draft, generated))
  {
    hide TagsOk;
    hide BindingsOk;
    hide Entries;
    hide Filled;
    hide GroupOk;
    hide Walk;
    hide RouteOk;
    hide Closed;
    hide Cyclic;
    hide Leaves;
    hide Selected;
    hide EdgesOf;
    hide OutboundList;
    hide GeneratedFor;
    hide Available;
    if snapshot.blocked { return Err(Blocked); }
    if !WellFormed(draft.template) { return Err(BadTemplate); }
    var outbounds := Outbounds(draft);
    if Available(snapshot.nodes) == [] { return Err(NoNodes); }
    var generated := AllGenerated(snapshot, render);
    var own := CollectTags(outbounds);
    if own.Err? { return Err(own.error); }
    var byTag := AddGenerated(own.value, outbounds, generated);
    var filled, selected := FillBindings(byTag, draft.bindings, generated);
    if filled.Err? { return Err(filled.error); }
    byTag := filled.value;
    var document := Document(draft, byTag, generated);
    var tags := UserTags(outbounds) + GeneratedTags(generated);
    AllTags(draft, generated);
    var checked := CheckReferences(byTag, tags, document);
    if checked.Err? { return Err(checked.error); }
    var outcome, order := CheckCycles(EdgesOf(byTag), tags) by { EdgeKeys(byTag); }
    if outcome.Cycle? { return Err(CyclicOutbounds); }
    if outcome.Missing? { return Err(Thrown); }
    var within := CheckLeaves(byTag, draft.bindings, generated, selected, order);
    if !within { return Err(OutsideFilter); }
    r := Ok(Obj(document));
  }

  lemma EdgeKeys(table: map<Tag, Fields>)
    ensures EdgesOf(table).Keys == table.Keys
  {}

  lemma AllTags(draft: Draft, generated: seq<Generated>)
    ensures Elements(UserTags(Outbounds(draft)) + GeneratedTags(generated)) == FullTable(draft, generated).Keys
  {
    var outbounds := Outbounds(draft);
    TableKeys(UserTags(outbounds) + GeneratedTags(generated), outbounds + GeneratedEntries(generated));
  }

  method CheckReferences(table: map<Tag, Fields>, tags: seq<Tag>, document: Fields) returns (r: Result<()>)
    requires Elements(tags) == table.Keys
    ensures r.Ok? <==>
      && (forall t :: t in table ==> GroupOk(table[t], table.Keys))
      && Walk(Obj(document), table.Keys) && RouteOk(document, table.Keys)
    ensures r.Err? ==> r.error in {BadGroup, UnknownOutbound, BadRoute}
  {
    hide GroupOk;
    hide Walk;
    hide RouteOk;
    for i := 0 to |tags|
      invariant forall j :: 0 <= j < i ==> tags[j] in table && GroupOk(table[tags[j]], table.Keys)
    {
      assert tags[i] in Elements(tags);
      if !GroupOk(table[tags[i]], table.Keys) { return Err(BadGroup); }
    }
    assert forall t :: t in table ==> t in Elements(tags);
    if !Walk(Obj(document), table.Keys) { return Err(UnknownOutbound); }
    if !RouteOk(document, table.Keys) { return Err(BadRoute); }
    r := Ok(());
  }

  method CheckLeaves(table: map<Tag, Fields>, bindings: seq<Binding>, generated: seq<Generated>,
                     selected: map<Tag, set<Tag>>, ghost order: seq<Tag>) returns (within: bool)
    requires Sorted(EdgesOf(table), order) && Elements(order) == EdgesOf(table).Keys && Closed(EdgesOf(table))
    requires forall k :: 0 <= k < |bindings| ==>
      var tag := bindings[k].groupTag;
      tag in table && tag in selected && selected[tag] == Selected(bindings[k], generated)
    ensures within <==>
      forall k :: 0 <= k < |bindings| ==>
        Leaves(EdgesOf(table), bindings[k].groupTag) <= Selected(bindings[k], generated)
  {
    hide Leaves;
    hide Selected;
    hide Sorted;
    hide Closed;
    hide Targets;
    var finder := new LeafFinder(EdgesOf(table));
    for i := 0 to |bindings|
      invariant finder.Valid() && finder.edges == EdgesOf(table) && fresh(finder)
      invariant forall k :: 0 <= k < i ==>
        Leaves(EdgesOf(table), bindings[k].groupTag) <= Selected(bindings[k], generated)
    {
      assert bindings[i].groupTag in Elements(order);
      var leaves := finder.ManagedLeaves(bindings[i].groupTag, order);
      if !(leaves <= selected[bindings[i].groupTag]) { return false; }
    }
    within := true;
  }

  // ---------------------------------------------------------------- what a compiled subscription is

  lemma FilledGroup(table: map<Tag, Fields>, bindings: seq<Binding>, generated: seq<Generated>, k: nat)
    requires BindingsOk(table, bindings, generated) && k < |bindings|
    ensures var group := bindings[k].groupTag;
            && group in table
            && Filled(table, bindings, generated)[group]
               == table[group]["outbounds" := MemberList(bindings[k], generated)]
  {
    assert Bindable(table, bindings[k], generated);
  }

  lemma MemberTargets(b: Binding, generated: seq<Generated>, outbound: Fields, tag: Tag)
    requires Field(outbound, "outbounds") == MemberList(b, generated) && tag in Selected(b, generated)
    ensures tag in Targets(outbound)
  {
    MembersSelected(b, generated);
    DistinctElements(b.staticMembers + Members(b, generated));
    var list := Distinct(b.staticMembers + Members(b, generated));
    assert tag in Elements(Members(b, generated));
    assert tag in Elements(list);
    var i :| 0 <= i < |list| && list[i] == tag;
    assert Texts(Strings(list))[i] == tag;
  }

  /** Every bound group of a compiled subscription reaches exactly the generated outbounds
      its filter selects: none is missing, and none comes in through other members. */
  lemma Exactness(draft: Draft, snapshot: Snapshot, generated: seq<Generated>, k: nat)
    requires Acceptable(draft, snapshot, generated) && k < |draft.bindings|
    ensures Leaves(EdgesOf(FullTable(draft, generated)), draft.bindings[k].groupTag)
            == Selected(draft.bindings[k], generated)
  {
    hide TagsOk;
    hide GroupOk;
    hide Walk;
    hide RouteOk;
    hide Cyclic;
    hide Targets;
    hide Closed;
    var b := draft.bindings[k];
    var table := Entries(Outbounds(draft), generated);
    var full := FullTable(draft, generated);
    var edges := EdgesOf(full);
    FilledGroup(table, draft.bindings, generated, k);
    forall tag | tag in Selected(b, generated) ensures tag in Leaves(edges, b.groupTag) {
      MemberTargets(b, generated, full[b.groupTag], tag);
      SelectedExists(draft, generated, b, tag);
      ReachesSelf(edges, tag);
      Prepend(edges, b.groupTag, tag, tag);
    }
  }

  lemma SelectedExists(draft: Draft, generated: seq<Generated>, b: Binding, tag: Tag)
    requires tag in Selected(b, generated)
    ensures tag in FullTable(draft, generated) && Reserved(tag)
  {
    AllTags(draft, generated);
    var i :| 0 <= i < |generated| && Matches(b, generated[i]) && GeneratedTag(generated[i]) == tag;
    var tags := UserTags(Outbounds(draft)) + GeneratedTags(generated);
    assert tags[|Outbounds(draft)| + i] == tag;
    assert tag in Elements(tags);
  }

  /** The reserved tags are exactly those of the generated outbounds. */
  lemma ReservedAreGenerated(draft: Draft, generated: seq<Generated>, tag: Tag)
    requires TagsOk(Outbounds(draft)) && tag in FullTable(draft, generated)
    ensures Reserved(tag) <==> tag in Elements(GeneratedTags(generated))
  {
    AllTags(draft, generated);
    var own, made := UserTags(Outbounds(draft)), GeneratedTags(generated);
    var i :| 0 <= i < |own + made| && (own + made)[i] == tag;
    if tag in Elements(made) {
      var j :| 0 <= j < |made| && made[j] == tag;
      assert made[j][..4] == "bfc_";
    } else {
      assert i < |own| && own[i] == tag;
    }
  }

  // ---------------------------------------------------------------- where the graph can dangle

  lemma {:induction false} NodeKinds(node: Node, rendered: seq<Fields>)
    ensures forall x :: x in ForNode(node, rendered) ==> !IsGroup(x.fields)
  {
    if rendered != [] { NodeKinds(node, rendered[..|rendered| - 1]); }
  }

  lemma {:induction false} GeneratedKinds(nodes: seq<Node>, render: Node -> seq<Fields>)
    ensures forall x :: x in GeneratedFor(nodes, render) ==> !IsGroup(x.fields)
  {
    if nodes != [] {
      GeneratedKinds(nodes[..|nodes| - 1], render);
      NodeKinds(nodes[|nodes| - 1], render(nodes[|nodes| - 1]));
    }
  }

  /** Where the last entry for a tag comes from. */
  lemma EntrySource(outbounds: seq<Fields>, generated: seq<Generated>, tag: Tag) returns (i: nat)
    requires tag in Entries(outbounds, generated)
    ensures i < |outbounds| ==> UserTags(outbounds)[i] == tag
    ensures i < |outbounds| + |generated|
    ensures |outbounds| <= i ==> Entries(outbounds, generated)[tag] == generated[i - |outbounds|].fields
  {
    hide GeneratedTag;
    hide Table;
    hide Authorization.Tag;
    var tags, entries := UserTags(outbounds) + GeneratedTags(generated), outbounds + GeneratedEntries(generated);
    i := TableAt(tags, entries, tag);
    assert |outbounds| <= i ==> entries[i] == GeneratedEntries(generated)[i - |outbounds|];
  }

  /** Every entry of the table stands in the document. */
  lemma EntryInDocument(draft: Draft, generated: seq<Generated>, tag: Tag)
    requires BindingsOk(Entries(Outbounds(draft), generated), draft.bindings, generated)
    requires forall x :: x in generated ==> !IsGroup(x.fields)
    requires tag in FullTable(draft, generated)
    ensures var full := FullTable(draft, generated);
            Obj(full[tag]) in OutboundList(UserTags(Outbounds(draft)), full, generated)
  {
    hide IsGroup;
    hide Entries;
    hide Filled;
    hide BindingsOk;
    hide UserTags;
    var outbounds := Outbounds(draft);
    var full, table := FullTable(draft, generated), Entries(outbounds, generated);
    FilledKeys(table, draft.bindings, generated);
    var i := EntrySource(outbounds, generated, tag);
    if |outbounds| <= i {
      assert generated[i - |outbounds|] in generated;
      NotBound(table, draft.bindings, generated, tag);
    }
    ListAt(outbounds, full, generated, i);
  }

  lemma ListAt(outbounds: seq<Fields>, table: map<Tag, Fields>, generated: seq<Generated>, i: nat)
    requires i < |outbounds| + |generated|
    ensures var list := OutboundList(UserTags(outbounds), table, generated);
            && (|outbounds| <= i ==> Obj(generated[i - |outbounds|].fields) in list)
            && (i < |outbounds| && UserTags(outbounds)[i] in table ==> Obj(table[UserTags(outbounds)[i]]) in list)
  {
    var list := OutboundList(UserTags(outbounds), table, generated);
    assert list[i] in list;
  }

  lemma NotBound(table: map<Tag, Fields>, bindings: seq<Binding>, generated: seq<Generated>, tag: Tag)
    requires BindingsOk(table, bindings, generated) && tag in table && !IsGroup(table[tag])
    ensures Filled(table, bindings, generated)[tag] == table[tag]
  {
    forall k | 0 <= k < |bindings|
      ensures bindings[k].groupTag != tag
    {
      assert Bindable(table, bindings[k], generated);
    }
    FilledUnbound(table, bindings, generated, tag);
  }

  /** The entries other than groups whose own member lists resolve: nothing checks these. */
  ghost predicate LooseMembersResolve(table: map<Tag, Fields>) {
    forall t :: t in table && !IsGroup(table[t]) && Field(table[t], "outbounds").Arr? ==>
      forall i :: 0 <= i < |table[t]["outbounds"].items| ==> ToString(table[t]["outbounds"].items[i]) in table
  }

  lemma DetourResolves(draft: Draft, snapshot: Snapshot, generated: seq<Generated>, tag: Tag)
    requires Prepared(draft, snapshot, generated) && tag in FullTable(draft, generated)
    requires forall x :: x in generated ==> !IsGroup(x.fields)
    ensures var full := FullTable(draft, generated);
            "detour" in full[tag] ==> Resolves(full[tag]["detour"], full.Keys)
  {
    hide GroupOk;
    hide RouteOk;
    hide BindingsOk;
    hide TagsOk;
    hide OutboundList;
    var full := FullTable(draft, generated);
    hide FullTable;
    EntryInDocument(draft, generated, tag);
    var document := Document(draft, full, generated);
    var list := OutboundList(UserTags(Outbounds(draft)), full, generated);
    assert document["outbounds"] == Arr(list);
    assert Walk(Arr(list), full.Keys);
    var i :| 0 <= i < |list| && list[i] == Obj(full[tag]);
    assert Walk(list[i], full.Keys);
  }

  /** Once the references are checked, the graph is closed, and so no TypeError is thrown, if
      and only if every `outbounds` array of an entry that is no group resolves. */
  lemma ClosedUnlessLoose(draft: Draft, snapshot: Snapshot, render: Node -> seq<Fields>)
    requires Prepared(draft, snapshot, AllGenerated(snapshot, render))
    ensures var full := FullTable(draft, AllGenerated(snapshot, render));
            Closed(EdgesOf(full)) <==> LooseMembersResolve(full)
  {
    hide IsGroup;
    hide Walk;
    hide RouteOk;
    hide BindingsOk;
    hide TagsOk;
    hide ToString;
    hide GeneratedFor;
    var generated := AllGenerated(snapshot, render);
    GeneratedKinds(Available(snapshot.nodes), render);
    var full := FullTable(draft, generated);
    hide FullTable;
    forall t | t in full ensures "detour" in full[t] ==> Resolves(full[t]["detour"], full.Keys) {
      DetourResolves(draft, snapshot, generated, t);
    }
    ClosedTable(full);
  }

  lemma TextOfString(value: Json)
    requires value.Str?
    ensures ToString(value) == value.s
  {}

  lemma MemberIsTarget(outbound: Fields, i: nat)
    requires Field(outbound, "outbounds").Arr? && i < |outbound["outbounds"].items|
    ensures ToString(outbound["outbounds"].items[i]) in Targets(outbound)
  {
    assert Texts(outbound["outbounds"].items)[i] in Targets(outbound);
  }

  lemma ClosedAt(g: Edges, a: Tag, b: Tag)
    requires Closed(g) && a in g && b in g[a]
    ensures b in g
  {}

  lemma ClosedTable(full: map<Tag, Fields>)
    requires forall t :: t in full ==> GroupOk(full[t], full.Keys)
    requires forall t :: t in full ==> "detour" in full[t] ==> Resolves(full[t]["detour"], full.Keys)
    ensures Closed(EdgesOf(full)) <==> LooseMembersResolve(full)
  {
    hide IsGroup;
    hide ToString;
    var g := EdgesOf(full);
    if LooseMembersResolve(full) {
      forall a, b | a in g && b in g[a] ensures b in g {
        if Field(full[a], "outbounds").Arr? && b in Texts(full[a]["outbounds"].items) {
          var items := full[a]["outbounds"].items;
          var i :| 0 <= i < |items| && ToString(items[i]) == b;
          if IsGroup(full[a]) {
            assert Resolves(items[i], full.Keys);
            TextOfString(items[i]);
          }
        }
      }
    }
    if Closed(g) {
      forall t, i | t in full && !IsGroup(full[t]) && Field(full[t], "outbounds").Arr?
                    && 0 <= i < |full[t]["outbounds"].items|
        ensures ToString(full[t]["outbounds"].items[i]) in full
      {
        MemberIsTarget(full[t], i);
        ClosedAt(g, t, ToString(full[t]["outbounds"].items[i]));
      }
    }
  }

  const LooseOutbound: Fields := map["tag" := Str("a"), "type" := Str("direct"), "outbounds" := Arr([Str("nowhere")])]

  /** One outbound of type direct whose `outbounds` array names nothing. */
  const LooseDraft := Draft(Some(Obj(map["outbounds" := Arr([Obj(LooseOutbound)])])), [])

  /** An outbound that refers to no other, at any depth. */
  ghost predicate Inert(outbound: Fields) { Targets(outbound) == [] && Walk(Obj(outbound), {}) }

  /** With whatever nodes and whatever inert outbounds rendered for them, this draft passes
      every check before the traversal and still leaves the graph open and without a cycle,
      so compiling it throws. */
  lemma LooseMembersEscape(snapshot: Snapshot, render: Node -> seq<Fields>)
    requires !snapshot.blocked && Available(snapshot.nodes) != []
    requires forall x :: x in AllGenerated(snapshot, render) ==> Inert(x.fields)
    ensures var generated := AllGenerated(snapshot, render);
            var edges := EdgesOf(FullTable(LooseDraft, generated));
            Prepared(LooseDraft, snapshot, generated) && !Closed(edges) && !Cyclic(edges)
  {
    hide FullTable;
    hide Document;
    hide Walk;
    hide GroupOk;
    hide RouteOk;
    hide BindingsOk;
    hide TagsOk;
    hide Outbounds;
    hide EdgesOf;
    hide Available;
    hide Entries;
    hide Closed;
    hide Cyclic;
    hide AllGenerated;
    hide Inert;
    var generated := AllGenerated(snapshot, render);
    var table := FullTable(LooseDraft, generated);
    GeneratedKinds(Available(snapshot.nodes), render) by { GeneratedIs(snapshot, render); }
    GeneratedIs(snapshot, render);
    LooseOutbounds();
    LooseTable(generated);
    NoBindings(Entries(Outbounds(LooseDraft), generated));
    LooseGroups(generated);
    LooseWalk(generated);
    LooseOpen(table);
  }

  lemma GeneratedIs(snapshot: Snapshot, render: Node -> seq<Fields>)
    ensures AllGenerated(snapshot, render) == GeneratedFor(Available(snapshot.nodes), render)
  {}

  lemma NoBindings(table: map<Tag, Fields>)
    ensures LooseDraft.bindings == [] && forall generated :: BindingsOk(table, [], generated)
  {}

  lemma LooseOutbounds()
    ensures Outbounds(LooseDraft) == [LooseOutbound] && UserTags([LooseOutbound]) == ["a"]
    ensures TagsOk(Outbounds(LooseDraft)) && WellFormed(LooseDraft.template)
  {
    assert Outbounds(LooseDraft) == [LooseOutbound];
    assert UserTags([LooseOutbound]) == ["a"];
  }

  /** The table holds the outbound and, under other tags, generated ones only. */
  lemma LooseTable(generated: seq<Generated>)
    ensures var table := FullTable(LooseDraft, generated);
            && "a" in table && table["a"] == LooseOutbound && "nowhere" !in table
            && forall t :: t in table && t != "a" ==> exists x :: x in generated && table[t] == x.fields
  {
    hide Entries;
    LooseOutbounds();
    var table := Entries([LooseOutbound], generated);
    NothingFilled(table, generated);
    EntryKeys(generated);
    forall t | t in table ensures t == "a" ==> table[t] == LooseOutbound
                          ensures t != "a" ==> exists x :: x in generated && table[t] == x.fields
    {
      LooseEntry(generated, t);
    }
  }

  lemma EntryKeys(generated: seq<Generated>)
    ensures var table := Entries([LooseOutbound], generated);
            "a" in table && "nowhere" !in table
  {
    hide Table;
    LooseOutbounds();
    var tags := ["a"] + GeneratedTags(generated);
    TableKeys(tags, [LooseOutbound] + GeneratedEntries(generated));
    assert tags[0] == "a";
    if "nowhere" in Elements(tags) {
      var i :| 0 <= i < |tags| && tags[i] == "nowhere";
      TagReserved(generated[i - 1]);
      assert false;
    }
  }

  lemma TagReserved(x: Generated)
    ensures Reserved(GeneratedTag(x)) && !Reserved("nowhere") && !Reserved("a")
  {
    assert GeneratedTag(x)[..4] == "bfc_";
    assert "nowhere"[0] != "bfc_"[0];
  }

  lemma LooseEntry(generated: seq<Generated>, tag: Tag)
    requires tag in Entries([LooseOutbound], generated)
    ensures var table := Entries([LooseOutbound], generated);
            && (tag == "a" ==> table[tag] == LooseOutbound)
            && (tag != "a" ==> exists x :: x in generated && table[tag] == x.fields)
  {
    hide Table;
    LooseOutbounds();
    var tags, entries := ["a"] + GeneratedTags(generated), [LooseOutbound] + GeneratedEntries(generated);
    var i := TableAt(tags, entries, tag);
    if i > 0 {
      TagReserved(generated[i - 1]);
      assert entries[i] == generated[i - 1].fields && generated[i - 1] in generated;
    }
  }

  lemma LooseGroups(generated: seq<Generated>)
    requires forall x :: x in generated ==> !IsGroup(x.fields)
    ensures var table := FullTable(LooseDraft, generated);
            && (forall t :: t in table ==> GroupOk(table[t], table.Keys))
            && RouteOk(Document(LooseDraft, table, generated), table.Keys)
  {
    hide FullTable;
    hide IsGroup;
    LooseTable(generated);
    assert !IsGroup(LooseOutbound) by { LooseIsDirect(); }
    LooseDocument(generated);
  }

  lemma LooseIsDirect()
    ensures !IsGroup(LooseOutbound)
  {
    assert TypeText(LooseOutbound) == "direct";
  }

  lemma LooseDocument(generated: seq<Generated>)
    ensures var table := FullTable(LooseDraft, generated);
            Document(LooseDraft, table, generated)
            == map["outbounds" := Arr([Obj(LooseOutbound)] + Inner(generated))]
  {
    hide FullTable;
    LooseTable(generated);
    LooseOutbounds();
    var table := FullTable(LooseDraft, generated);
    assert OutboundList(["a"], table, generated) == [Obj(LooseOutbound)] + Inner(generated);
  }

  function Inner(generated: seq<Generated>): seq<Json> {
    seq(|generated|, i requires 0 <= i < |generated| => Obj(generated[i].fields))
  }

  /** What refers to nothing refers to nothing outside any set of tags. */
  lemma {:induction false} WalkGrows(value: Json, tags: set<Tag>)
    requires Walk(value, {})
    ensures Walk(value, tags)
  {
    match value
    case Arr(items) => forall i | 0 <= i < |items| ensures Walk(items[i], tags) { WalkGrows(items[i], tags); }
    case Obj(fields) => forall key | key in fields ensures Walk(fields[key], tags) { WalkGrows(fields[key], tags); }
    case _ =>
  }

  lemma LooseWalk(generated: seq<Generated>)
    requires forall x :: x in generated ==> Inert(x.fields)
    ensures var table := FullTable(LooseDraft, generated);
            Walk(Obj(Document(LooseDraft, table, generated)), table.Keys)
  {
    hide FullTable;
    var tags := FullTable(LooseDraft, generated).Keys;
    LooseDocument(generated);
    var list := [Obj(LooseOutbound)] + Inner(generated);
    forall i | 0 <= i < |list| ensures Walk(list[i], tags) {
      if i == 0 {
        LooseInert(tags);
      } else {
        assert generated[i - 1] in generated;
        WalkGrows(list[i], tags);
      }
    }
    assert Walk(Arr(list), tags);
  }

  lemma LooseInert(tags: set<Tag>)
    ensures Walk(Obj(LooseOutbound), tags)
  {
    assert Walk(LooseOutbound["tag"], tags) && Walk(LooseOutbound["type"], tags);
    assert Walk(Str("nowhere"), tags) && Walk(LooseOutbound["outbounds"], tags);
  }

  lemma LoosePath(table: map<Tag, Fields>, p: seq<Tag>)
    requires "a" in table && table["a"] == LooseOutbound && "nowhere" !in table
    requires forall t :: t in table && t != "a" ==> Targets(table[t]) == []
    requires Path(EdgesOf(table), p) && |p| >= 2
    ensures p == ["a", "nowhere"]
  {
    assert Targets(LooseOutbound) == ["nowhere"];
    assert p[0] == "a" && p[1] == "nowhere";
  }

  lemma LooseOpen(table: map<Tag, Fields>)
    requires "a" in table && table["a"] == LooseOutbound && "nowhere" !in table
    requires forall t :: t in table && t != "a" ==> Inert(table[t])
    ensures !Closed(EdgesOf(table)) && !Cyclic(EdgesOf(table))
  {
    var edges := EdgesOf(table);
    MemberIsTarget(LooseOutbound, 0);
    if Closed(edges) { ClosedAt(edges, "a", "nowhere"); }
    if Cyclic(edges) {
      var a, p :| From(edges, a, a, p) && |p| >= 2;
      LoosePath(table, p);
      assert false;
    }
  }

  /** What renderClient makes of a node for one protocol, from the node's server and settings
      (apps/web/src/server/adapters/sing-box/index.ts). */
  datatype Client = Client(server: string, port: string, password: string, serverName: string, certificate: seq<string>)

  function OutboundTls(c: Client): Json {
    var tls := map["enabled" := Bool(true), "server_name" := Str(c.serverName)];
    Obj(if c.certificate == [] then tls else tls["certificate" := Arr(Strings(c.certificate))])
  }

  function ClientOutbound(protocol: string, name: string, c: Client): Fields {
    map["type" := Str(protocol), "tag" := Str(name), "server" := Str(c.server), "server_port" := Num(c.port),
        "password" := Str(c.password), "tls" := OutboundTls(c)]
  }

  function ClientOutbounds(node: Node, trojan: Node -> Client, hysteria2: Node -> Client): seq<Fields> {
    [ClientOutbound("trojan", node.id, trojan(node)), ClientOutbound("hysteria2", node.id, hysteria2(node))]
  }

  lemma ClientInert(protocol: string, name: string, c: Client, tag: Tag)
    ensures Inert(ClientOutbound(protocol, name, c)["tag" := Str(tag)])
  {
    hide OutboundTls;
    hide ToString;
    var outbound := ClientOutbound(protocol, name, c)["tag" := Str(tag)];
    TlsInert(c);
    forall key | key in outbound ensures Walk(outbound[key], {}) && key !in REFERENCES {}
  }

  lemma TlsInert(c: Client)
    ensures Walk(OutboundTls(c), {})
  {
    var tls := OutboundTls(c).fields;
    if c.certificate != [] { CertificateInert(c.certificate); }
    forall key | key in tls ensures Walk(tls[key], {}) && key !in REFERENCES {}
  }

  lemma CertificateInert(lines: seq<string>)
    ensures Walk(Arr(Strings(lines)), {})
  {
    forall i | 0 <= i < |lines| ensures Walk(Strings(lines)[i], {}) {}
  }

  lemma {:induction false} NodeInert(node: Node, rendered: seq<Fields>)
    requires forall f, tag :: f in rendered ==> Inert(f["tag" := Str(tag)])
    ensures forall x :: x in ForNode(node, rendered) ==> Inert(x.fields)
  {
    hide Inert;
    if rendered != [] {
      var init, last := rendered[..|rendered| - 1], rendered[|rendered| - 1];
      forall f, tag | f in init ensures Inert(f["tag" := Str(tag)]) { assert f in rendered; }
      NodeInert(node, init);
      assert last in rendered;
    }
  }

  lemma {:induction false} GeneratedInert(nodes: seq<Node>, render: Node -> seq<Fields>)
    requires forall node, f, tag :: f in render(node) ==> Inert(f["tag" := Str(tag)])
    ensures forall x :: x in GeneratedFor(nodes, render) ==> Inert(x.fields)
  {
    hide Inert;
    if nodes != [] {
      GeneratedInert(nodes[..|nodes| - 1], render);
      NodeInert(nodes[|nodes| - 1], render(nodes[|nodes| - 1]));
    }
  }

  /** So it is with what the client renderer yields: a trojan and a hysteria2 outbound for
      every available node. */
  lemma LooseWithClients(snapshot: Snapshot, trojan: Node -> Client, hysteria2: Node -> Client)
    requires !snapshot.blocked && Available(snapshot.nodes) != []
    ensures var generated := AllGenerated(snapshot, node => ClientOutbounds(node, trojan, hysteria2));
            var edges := EdgesOf(FullTable(LooseDraft, generated));
            Prepared(LooseDraft, snapshot, generated) && !Closed(edges) && !Cyclic(edges)
  {
    hide Prepared;
    hide Closed;
    hide Cyclic;
    hide FullTable;
    hide EdgesOf;
    var render := node => ClientOutbounds(node, trojan, hysteria2);
    forall node, f, tag | f in render(node) ensures Inert(f["tag" := Str(tag)]) {
      if f == ClientOutbound("trojan", node.id, trojan(node)) {
        ClientInert("trojan", node.id, trojan(node), tag);
      } else {
        ClientInert("hysteria2", node.id, hysteria2(node), tag);
      }
    }
    GeneratedInert(Available(snapshot.nodes), render);
    LooseMembersEscape(snapshot, render);
  }
}
