/** batchDeltas of services/daemon/internal/state/usage.go: cutting deltas into daily slices
    and packing the slices into batches the panel is bound to accept. */
module Batching {
  import opened Arithmetic
  import opened UsageTypes
  import opened Calendar

  const MAX_DELTAS := 256
  const MAX_COST := 8000

  /** scaledBytes: the part of `total` that belongs to the first `offset` of `duration`. */
  function Scaled(total: int, offset: int, duration: int): int
    requires 0 < duration
  {
    total * offset / duration
  }

  /** The projected number of panel buckets of an interval. */
  function Cost(d: Delta): int { (d.end - d.start) / 60_000 + 6 }

  /** The slice [from, to) of a delta, its bytes taken as a difference of scaled totals. */
  function Slice(d: Delta, from: int, to: int): Delta
    requires d.start < d.end
  {
    var duration := d.end - d.start;
    Delta(d.user, from, to,
          Scaled(d.upload, to - d.start, duration) - Scaled(d.upload, from - d.start, duration),
          Scaled(d.download, to - d.start, duration) - Scaled(d.download, from - d.start, duration),
          d.incomplete, d.estimated || duration > DAY_MS)
  }

  function SliceEnd(d: Delta, from: int): int {
    if d.end < from + DAY_MS then d.end else from + DAY_MS
  }

  ghost function Slices(d: Delta, from: int): seq<Delta>
    requires d.start < d.end
    decreases d.end - from
  {
    if from >= d.end then []
    else [Slice(d, from, SliceEnd(d, from))] + Slices(d, SliceEnd(d, from))
  }

  ghost predicate Ordered(deltas: seq<Delta>) {
    forall i :: 0 <= i < |deltas| ==> deltas[i].start < deltas[i].end
  }

  ghost function AllSlices(deltas: seq<Delta>): seq<Delta>
    requires Ordered(deltas)
  {
    if deltas == [] then []
    else
      var last := deltas[|deltas| - 1];
      AllSlices(deltas[..|deltas| - 1]) + Slices(last, last.start)
  }

  /** The packing loop's variables: flushed batches, the open message, its projected cost. */
  datatype Packing = Packing(flushed: seq<UsageBatch>, open: seq<Delta>, cost: int)

  function Flush(p: Packing, runtime: Runtime): Packing {
    if p.open == [] then p else Packing(p.flushed + [UsageBatch(runtime, p.open)], [], 0)
  }

  function Put(p: Packing, runtime: Runtime, slice: Delta): Packing {
    var room := if |p.open| >= MAX_DELTAS || p.cost + Cost(slice) > MAX_COST then Flush(p, runtime) else p;
    Packing(room.flushed, room.open + [slice], room.cost + Cost(slice))
  }

  ghost function PutAll(p: Packing, runtime: Runtime, slices: seq<Delta>): Packing {
    if slices == [] then p
    else Put(PutAll(p, runtime, slices[..|slices| - 1]), runtime, slices[|slices| - 1])
  }

  ghost function BatchesOf(runtime: Runtime, deltas: seq<Delta>): seq<UsageBatch>
    requires Ordered(deltas)
  {
    Flush(PutAll(Packing([], [], 0), runtime, AllSlices(deltas)), runtime).flushed
  }

  // ---------------------------------------------------------------- the loops

  method BatchDeltas(runtime: Runtime, deltas: seq<Delta>) returns (result: seq<UsageBatch>)
    requires Ordered(deltas)
    ensures result == BatchesOf(runtime, deltas)
  {
    hide Slice;
    hide Cost;
    var p := Packing([], [], 0);
    ghost var done: seq<Delta> := [];
    for i := 0 to |deltas|
      invariant done == AllSlices(deltas[..i])
      invariant p == PutAll(Packing([], [], 0), runtime, done)
    {
      var delta := deltas[i];
      var start := delta.start;
      ghost var before := done;
      while start < delta.end
        invariant done + Slices(delta, start) == before + Slices(delta, delta.start)
        invariant p == PutAll(Packing([], [], 0), runtime, done)
        decreases delta.end - start
      {
        var end := SliceEnd(delta, start);
        var slice := Slice(delta, start, end);
        assert done + Slices(delta, start) == done + [slice] + Slices(delta, end);
        assert (done + [slice])[..|done|] == done;
        p := Put(p, runtime, slice);
        done := done + [slice];
        start := end;
      }
      assert done == before + Slices(delta, delta.start);
      assert deltas[..i + 1][..i] == deltas[..i];
    }
    assert deltas[..|deltas|] == deltas;
    result := Flush(p, runtime).flushed;
  }

  // ---------------------------------------------------------------- slicing

  lemma ScaledMonotone(total: int, a: int, b: int, duration: int)
    requires 0 <= total && 0 <= a <= b <= duration && 0 < duration
    ensures 0 <= Scaled(total, a, duration) <= Scaled(total, b, duration) <= total
  {
    ProductMonotone(total, 0, a);
    ProductMonotone(total, a, b);
    ProductMonotone(total, b, duration);
    DivisionMonotone(0, total * a, duration);
    DivisionMonotone(total * a, total * b, duration);
    DivisionMonotone(total * b, total * duration, duration);
    ScaledWhole(total, duration);
  }

  /** A slice never carries a negative count, nor more than its source. */
  lemma SliceBounds(d: Delta, from: int, to: int)
    requires d.start <= from <= to <= d.end && d.start < d.end && 0 <= d.upload && 0 <= d.download
    ensures var s := Slice(d, from, to);
            0 <= s.upload <= d.upload && 0 <= s.download <= d.download
  {
    ScaledMonotone(d.upload, from - d.start, to - d.start, d.end - d.start);
    ScaledMonotone(d.download, from - d.start, to - d.start, d.end - d.start);
  }

  /** The slices of a delta are consecutive, at most a day long, non-negative, and cover
      exactly the rest of its interval. */
  lemma {:induction false} SlicesTile(d: Delta, from: int)
    requires d.start <= from < d.end && 0 <= d.upload && 0 <= d.download
    ensures var s := Slices(d, from);
            && |s| > 0 && s[0].start == from && s[|s| - 1].end == d.end
            && (forall i :: 0 < i < |s| ==> s[i].start == s[i - 1].end)
            && (forall i :: 0 <= i < |s| ==>
                  && from <= s[i].start < s[i].end <= d.end && s[i].end - s[i].start <= DAY_MS
                  && s[i].user == d.user
                  && 0 <= s[i].upload <= d.upload && 0 <= s[i].download <= d.download)
    decreases d.end - from
  {
    hide Slice;
    SliceBounds(d, from, SliceEnd(d, from));
    SliceFields(d, from, SliceEnd(d, from));
    if SliceEnd(d, from) < d.end { SlicesTile(d, SliceEnd(d, from)); }
  }

  lemma SliceFields(d: Delta, from: int, to: int)
    requires d.start < d.end
    ensures var s := Slice(d, from, to); s.user == d.user && s.start == from && s.end == to
    ensures forall dir :: Bytes(Slice(d, from, to), dir) ==
              Scaled(Bytes(d, dir), to - d.start, d.end - d.start)
              - Scaled(Bytes(d, dir), from - d.start, d.end - d.start)
  {}

  /** The differences telescope: slicing loses and invents no byte. */
  lemma {:induction false} SlicesTelescope(d: Delta, from: int, user: User, dir: Direction)
    requires d.start <= from <= d.end && d.start < d.end
    ensures UserBytes(Slices(d, from), user, dir)
            == if user == d.user then Bytes(d, dir) - Scaled(Bytes(d, dir), from - d.start, d.end - d.start) else 0
    decreases d.end - from
  {
    hide Slice;
    hide Scaled;
    if from < d.end {
      var to := SliceEnd(d, from);
      SlicesTelescope(d, to, user, dir);
      SliceFields(d, from, to);
      var head := [Slice(d, from, to)];
      assert head[..0] == [];
      assert UserBytes(head, user, dir) == if user == d.user then Bytes(head[0], dir) else 0;
      UserBytesConcat(head, Slices(d, to), user, dir);
    } else {
      ScaledWhole(Bytes(d, dir), d.end - d.start);
    }
  }

  lemma ScaledWhole(total: int, duration: int)
    requires 0 < duration
    ensures Scaled(total, duration, duration) == total && Scaled(total, 0, duration) == 0
  {
    ExactQuotient(total, duration);
    ExactQuotient(0, duration);
  }

  /** What the receiving panel requires of a delta before it looks at users and clocks. */
  ghost predicate Sliced(d: Delta) {
    && 0 <= d.start < d.end <= MAX_SAFE_INTEGER && d.end - d.start <= DAY_MS
    && 0 <= d.upload && 0 <= d.download && d.upload + d.download <= MAX_INT64
  }

  /** What RecordSample hands to batchDeltas. */
  ghost predicate Emitted(d: Delta) {
    && 0 <= d.start < d.end <= MAX_SAFE_INTEGER
    && 0 <= d.upload && 0 <= d.download && d.upload + d.download <= MAX_INT64
  }

  ghost predicate AllEmitted(deltas: seq<Delta>)
    ensures AllEmitted(deltas) ==> Ordered(deltas)
  {
    forall i :: 0 <= i < |deltas| ==> Emitted(deltas[i])
  }

  lemma {:induction false} AllSlicesExact(deltas: seq<Delta>, user: User, dir: Direction)
    requires AllEmitted(deltas)
    ensures UserBytes(AllSlices(deltas), user, dir) == UserBytes(deltas, user, dir)
    ensures forall i :: 0 <= i < |AllSlices(deltas)| ==> Sliced(AllSlices(deltas)[i])
  {
    hide Slice;
    hide Scaled;
    if deltas != [] {
      var init, last := deltas[..|deltas| - 1], deltas[|deltas| - 1];
      AllSlicesExact(init, user, dir);
      SlicesTile(last, last.start);
      SlicesTelescope(last, last.start, user, dir);
      ScaledWhole(Bytes(last, dir), last.end - last.start);
      UserBytesConcat(AllSlices(init), Slices(last, last.start), user, dir);
    }
  }

  // ---------------------------------------------------------------- packing

  ghost function TotalCost(deltas: seq<Delta>): int {
    if deltas == [] then 0 else TotalCost(deltas[..|deltas| - 1]) + Cost(deltas[|deltas| - 1])
  }

  /** A batch within both budgets. */
  ghost predicate Fits(b: UsageBatch) {
    0 < |b.deltas| <= MAX_DELTAS && TotalCost(b.deltas) <= MAX_COST
  }

  ghost predicate PackingOk(p: Packing, runtime: Runtime, slices: seq<Delta>) {
    && Flatten(p.flushed) + p.open == slices
    && (forall i :: 0 <= i < |p.flushed| ==> Fits(p.flushed[i]) && p.flushed[i].runtime == runtime)
    && |p.open| <= MAX_DELTAS && p.cost == TotalCost(p.open) <= MAX_COST
  }

  lemma FlushOk(p: Packing, runtime: Runtime, slices: seq<Delta>)
    requires PackingOk(p, runtime, slices)
    ensures PackingOk(Flush(p, runtime), runtime, slices) && Flush(p, runtime).open == []
  {
    if p.open != [] {
      var f := Flush(p, runtime).flushed;
      assert f[..|f| - 1] == p.flushed;
    }
  }

  lemma CostSmall(slice: Delta)
    requires Sliced(slice)
    ensures Cost(slice) <= MAX_COST
  {}

  /** One more slice where there is room for it. */
  lemma AddOk(p: Packing, runtime: Runtime, slices: seq<Delta>, slice: Delta)
    requires PackingOk(p, runtime, slices) && |p.open| < MAX_DELTAS && p.cost + Cost(slice) <= MAX_COST
    ensures PackingOk(Packing(p.flushed, p.open + [slice], p.cost + Cost(slice)), runtime, slices + [slice])
  {
    hide Cost;
    hide Flatten;
    hide Fits;
    assert (p.open + [slice])[..|p.open|] == p.open;
    assert Flatten(p.flushed) + (p.open + [slice]) == slices + [slice];
  }

  lemma PutOk(p: Packing, runtime: Runtime, slices: seq<Delta>, slice: Delta)
    requires PackingOk(p, runtime, slices) && Sliced(slice)
    ensures PackingOk(Put(p, runtime, slice), runtime, slices + [slice])
  {
    hide PackingOk;
    hide Cost;
    hide Sliced;
    hide Flush;
    CostSmall(slice);
    if |p.open| >= MAX_DELTAS || p.cost + Cost(slice) > MAX_COST {
      FlushOk(p, runtime, slices);
      Flushed(p, runtime) by { NothingOpen(p, runtime, slices); }
      AddOk(Flush(p, runtime), runtime, slices, slice);
    } else {
      AddOk(p, runtime, slices, slice);
    }
  }

  lemma NothingOpen(p: Packing, runtime: Runtime, slices: seq<Delta>)
    requires PackingOk(p, runtime, slices)
    ensures p.open == [] ==> p.cost == 0
  {}

  lemma Flushed(p: Packing, runtime: Runtime)
    requires p.open == [] ==> p.cost == 0
    ensures Flush(p, runtime).open == [] && Flush(p, runtime).cost == 0
  {}

  lemma {:induction false} PutAllOk(runtime: Runtime, slices: seq<Delta>)
    requires forall i :: 0 <= i < |slices| ==> Sliced(slices[i])
    ensures PackingOk(PutAll(Packing([], [], 0), runtime, slices), runtime, slices)
  {
    if slices != [] {
      var init, last := slices[..|slices| - 1], slices[|slices| - 1];
      PutAllOk(runtime, init);
      PutOk(PutAll(Packing([], [], 0), runtime, init), runtime, init, last);
      assert init + [last] == slices;
    }
  }

  /** Batching conserves and fits: the batches carry exactly the bytes of the deltas for
      every user in both directions, every batch holds 1 to 256 well-formed daily slices
      within the cost budget, and no batch is produced for nothing. */
  lemma BatchesExact(runtime: Runtime, deltas: seq<Delta>, user: User, dir: Direction)
    requires AllEmitted(deltas)
    ensures var batches := BatchesOf(runtime, deltas);
            && UserBytes(Flatten(batches), user, dir) == UserBytes(deltas, user, dir)
            && (forall i :: 0 <= i < |batches| ==> Fits(batches[i]) && batches[i].runtime == runtime)
            && (forall i, j :: 0 <= i < |batches| && 0 <= j < |batches[i].deltas| ==> Sliced(batches[i].deltas[j]))
  {
    var slices, batches := AllSlices(deltas), BatchesOf(runtime, deltas);
    AllSlicesExact(deltas, user, dir);
    PutAllOk(runtime, slices);
    FlushOk(PutAll(Packing([], [], 0), runtime, slices), runtime, slices);
    assert Flatten(batches) == slices;
    forall i, j | 0 <= i < |batches| && 0 <= j < |batches[i].deltas|
      ensures Sliced(batches[i].deltas[j])
    {
      InFlatten(batches, i, j);
    }
  }

  lemma {:induction false} InFlatten(batches: seq<UsageBatch>, i: nat, j: nat)
    requires i < |batches| && j < |batches[i].deltas|
    ensures batches[i].deltas[j] in Flatten(batches)
  {
    if i < |batches| - 1 {
      InFlatten(batches[..|batches| - 1], i, j);
    }
  }
}
