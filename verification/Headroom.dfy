/** When the ledger has room: a batch whose bytes fit on top of every bucket of its machine
    never overflows one (the range check of reportUsage in apps/web/src/server/usage/store.ts). */
module Headroom {
  import opened Wrappers
  import opened Calendar
  import opened Splitting
  import opened UsageTypes
  import opened Ledger
  import opened LedgerProofs

  /** Bytes of one bucket in both directions. */
  ghost function Load(buckets: Buckets, k: Key): int {
    if k in buckets then buckets[k].upload + buckets[k].download else 0
  }

  /** Bytes of a list of deltas in both directions. */
  ghost function Weight(deltas: seq<Delta>): int {
    if deltas == [] then 0
    else Weight(deltas[..|deltas| - 1]) + deltas[|deltas| - 1].upload + deltas[|deltas| - 1].download
  }

  /** Every bucket of the machine, present or not, can take so many bytes more. */
  ghost predicate Roomy(buckets: Buckets, machine: Machine, bytes: int) {
    forall k: Key :: k.machine == machine ==> Load(buckets, k) + bytes <= MAX_INT64
  }

  /** No bucket grew by more than so many bytes. */
  ghost predicate Within(before: Buckets, after: Buckets, bytes: int) {
    forall k: Key :: Load(after, k) <= Load(before, k) + bytes
  }

  /** Only buckets of one grain grew, and by so many bytes at most. */
  ghost predicate Grew(before: Buckets, after: Buckets, grain: Grain, bytes: int) {
    forall k: Key :: Load(after, k) <= Load(before, k) + if k.grain == grain then bytes else 0
  }

  // ---------------------------------------------------------------- one grain

  lemma {:induction false} AttributedNonNegative(parts: seq<Part>, grain: Grain, at: int)
    requires forall i :: 0 <= i < |parts| ==> 0 <= parts[i].bytes
    ensures 0 <= Attributed(parts, grain, at)
  {
    hide BucketStart;
    if parts != [] { AttributedNonNegative(parts[..|parts| - 1], grain, at); }
  }

  lemma {:induction false} LiveAtMostAll(parts: seq<Part>, k: nat, now: int)
    requires k <= |parts| && forall i :: 0 <= i < |parts| ==> 0 <= parts[i].bytes
    ensures Gathered(parts, k, Any, Minute, now) <= Gathered(parts, k, Any, Month, now)
  {
    if k > 0 { LiveAtMostAll(parts, k - 1, now); }
  }

  /** The parts of a grain are non-negative, and those written carry at most the delta's bytes. */
  lemma GrainTotal(d: Delta, grain: Grain, now: int, dir: Direction)
    requires Acceptable(d)
    ensures var parts := RollUp(MinuteParts(d, dir), grain);
            && (forall i :: 0 <= i < |parts| ==> 0 <= parts[i].bytes)
            && Gathered(parts, |parts|, Any, grain, now) <= Bytes(d, dir)
  {
    hide BucketStart;
    hide Split;
    hide FirstStarts;
    hide Attributed;
    var minutes := MinuteParts(d, dir);
    ModernSince1970(d.start);
    SplitExact(d.start, d.end, Bytes(d, dir), Minute);
    GatheredAll(minutes, |minutes|, Month, now);
    assert minutes[..|minutes|] == minutes;
    if grain == Minute {
      LiveAtMostAll(minutes, |minutes|, now);
    } else {
      RollUpPreserves(minutes, grain, Any, Any, now);
      forall i | 0 <= i < |RollUp(minutes, grain)| ensures 0 <= RollUp(minutes, grain)[i].bytes {
        AttributedNonNegative(minutes, grain, FirstStarts(minutes, grain)[i]);
      }
    }
  }

  lemma {:induction false} GatheredGrows(parts: seq<Part>, k: nat, grain: Grain, now: int)
    requires k <= |parts| && forall i :: 0 <= i < |parts| ==> 0 <= parts[i].bytes
    ensures Gathered(parts, k, Any, grain, now) <= Gathered(parts, |parts|, Any, grain, now)
    decreases |parts| - k
  {
    if k < |parts| { GatheredGrows(parts, k + 1, grain, now); }
  }

  lemma {:induction false} PartsFit(buckets: Buckets, now: int, machine: Machine, d: Delta, grain: Grain,
                                    up: seq<Part>, down: seq<Part>, k: nat)
    requires k <= |up| == |down| && forall i :: 0 <= i < |up| ==> up[i].start == down[i].start
    requires forall i :: 0 <= i < |up| ==> 0 <= up[i].bytes && 0 <= down[i].bytes
    requires Gathered(up, |up|, Any, grain, now) <= d.upload && Gathered(down, |down|, Any, grain, now) <= d.download
    requires forall j: Key :: j.grain == grain && j.machine == machine ==>
      Load(buckets, j) + d.upload + d.download <= MAX_INT64
    ensures var r := PostParts(buckets, now, machine, d, grain, up, down, k);
            && r.Ok?
            && Grew(buckets, r.value, grain, Gathered(up, k, Any, grain, now) + Gathered(down, k, Any, grain, now))
  {
    hide Load;
    hide PostPart;
    if k > 0 {
      PartsFit(buckets, now, machine, d, grain, up, down, k - 1);
      GatheredGrows(up, k, grain, now);
      GatheredGrows(down, k, grain, now);
      var before := PostParts(buckets, now, machine, d, grain, up, down, k - 1).value;
      assert up[k - 1].start == down[k - 1].start;
      PartFits(before, now, machine, d, grain, up, down, k - 1);
    }
  }

  /** One upsert: it is refused only for a full bucket, and only its bucket grows. */
  lemma PartFits(buckets: Buckets, now: int, machine: Machine, d: Delta, grain: Grain, up: seq<Part>, down: seq<Part>,
                 i: nat)
    requires i < |up| == |down| && 0 <= up[i].bytes && 0 <= down[i].bytes
    ensures var r := PostPart(buckets, now, machine, d, grain, up, down, i);
            var key := Key(grain, up[i].start, d.user, machine);
            var more := if Expired(grain, up[i].start, now) then 0 else up[i].bytes + down[i].bytes;
            && (Load(buckets, key) + more <= MAX_INT64 || Expired(grain, up[i].start, now) ==> r.Ok?)
            && (r.Ok? ==> forall j: Key :: Load(r.value, j) == Load(buckets, j) + if j == key then more else 0)
  {}

  lemma GrainFits(p: Posting, now: int, machine: Machine, d: Delta, grain: Grain)
    requires Acceptable(d)
    requires forall j: Key :: j.grain == grain && j.machine == machine ==>
      Load(p.buckets, j) + d.upload + d.download <= MAX_INT64
    ensures var r := PostGrain(p, now, machine, d, grain);
            && (r.Err? ==> r.error == TooManyBuckets)
            && (r.Ok? ==> Grew(p.buckets, r.value.buckets, grain, d.upload + d.download))
  {
    hide RollUp;
    hide MinuteParts;
    PairedRollUps(d, grain);
    GrainTotal(d, grain, now, Up);
    GrainTotal(d, grain, now, Down);
    var up, down := RollUp(MinuteParts(d, Up), grain), RollUp(MinuteParts(d, Down), grain);
    PartsFit(p.buckets, now, machine, d, grain, up, down, |up|);
  }

  // ---------------------------------------------------------------- deltas

  lemma DeltaFits(p: Posting, history: set<(Machine, User)>, now: int, machine: Machine, d: Delta)
    requires Roomy(p.buckets, machine, d.upload + d.download)
    ensures var r := PostDelta(p, history, now, machine, d);
            && (r.Err? ==> r.error != BucketOverflow)
            && (r.Ok? ==> Within(p.buckets, r.value.buckets, d.upload + d.download))
  {
    hide PostGrain;
    hide Load;
    if Inspect(history, machine, now, d).Ok? {
      GrainFits(p, now, machine, d, Minute);
      var minutes := PostGrain(p, now, machine, d, Minute);
      if minutes.Ok? {
        GrainFits(minutes.value, now, machine, d, Day);
        var days := PostGrain(minutes.value, now, machine, d, Day);
        if days.Ok? { GrainFits(days.value, now, machine, d, Month); }
      }
    }
  }

  /** A batch that fits on top of every bucket of its machine is never refused for a full one. */
  lemma {:induction false} DeltasFit(p: Posting, history: set<(Machine, User)>, now: int, machine: Machine,
                                     deltas: seq<Delta>)
    requires forall i :: 0 <= i < |deltas| ==> 0 <= deltas[i].upload && 0 <= deltas[i].download
    requires Roomy(p.buckets, machine, Weight(deltas))
    ensures var r := PostDeltas(p, history, now, machine, deltas);
            && (r.Err? ==> r.error != BucketOverflow)
            && (r.Ok? ==> Within(p.buckets, r.value.buckets, Weight(deltas)))
  {
    hide PostDelta;
    hide Load;
    if deltas != [] {
      var n := |deltas| - 1;
      DeltasFit(p, history, now, machine, deltas[..n]);
      var init := PostDeltas(p, history, now, machine, deltas[..n]);
      if init.Ok? { DeltaFits(init.value, history, now, machine, deltas[n]); }
    }
  }
}
