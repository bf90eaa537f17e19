/** Sender and receiver agree: the cost budget of batchDeltas (usage.go) bounds the buckets
    reportUsage (store.ts) projects, so a daemon's batch never fails a structural check. */
module Receiver {
  import opened Wrappers
  import opened Calendar
  import opened Splitting
  import opened UsageTypes
  import opened Ledger
  import Batching
  import LedgerProofs
  import Headroom

  lemma {:induction false} MinuteCount(current: int, end: int)
    requires BucketAt(current, Minute) && current < end
    ensures (|Starts(current, end, Minute)| - 1) * MINUTE_MS < end - current
    decreases end - current
  {
    hide Modern;
    hide BucketStart;
    ModernSuccessor(current, Minute);
    if current + MINUTE_MS < end { MinuteCount(current + MINUTE_MS, end); }
  }

  /** An interval meets at most one minute more than its length in minutes, rounded up. */
  lemma MinutesBounded(d: Delta, dir: Direction)
    requires Acceptable(d)
    ensures |MinuteParts(d, dir)| <= (d.end - d.start) / MINUTE_MS + 2
  {
    hide Modern;
    hide BucketStart;
    ModernSince1970(d.start);
    ModernTiling(d.start, Minute);
    var first := BucketStart(d.start, Minute);
    MinuteCount(first, d.end);
    CountFromLength(|MinuteParts(d, dir)|, d.end - d.start, d.start - first);
  }

  lemma CountFromLength(n: int, length: int, lead: int)
    requires (n - 1) * MINUTE_MS < length + lead && 0 <= lead < MINUTE_MS
    ensures n <= length / MINUTE_MS + 2
  {}

  lemma {:induction false} LiveAtMost(parts: seq<Part>, grain: Grain, now: int)
    ensures LiveCount(parts, grain, now) <= |parts|
  {
    if parts != [] { LiveAtMost(parts[..|parts| - 1], grain, now); }
  }

  lemma ThirdValue(s: seq<int>, a: int, b: int)
    requires LedgerProofs.Unrepeated(s) && |s| > 2
    ensures exists i :: 0 <= i < |s| && s[i] != a && s[i] != b
  {
    var x, y, z := s[0], s[1], s[2];
    assert x != y && y != z && x != z;
  }

  /** An interval of at most a day meets at most two buckets of the day and month grains. */
  lemma CoarseBounded(d: Delta, dir: Direction, grain: Grain)
    requires Acceptable(d) && d.end - d.start <= DAY_MS && grain != Minute
    ensures |RollUp(MinuteParts(d, dir), grain)| <= 2
  {
    hide Modern;
    hide BucketStart;
    hide NextBucket;
    hide Split;
    var parts := MinuteParts(d, dir);
    LedgerProofs.FirstStartsShape(parts, grain);
    ModernSince1970(d.start);
    SplitTiles(d.start, d.end, Bytes(d, dir), Minute);
    ModernTiling(d.start, grain);
    var a := BucketStart(d.start, grain);
    var b := NextBucket(a, grain);
    var firsts := FirstStarts(parts, grain);
    forall j | 0 <= j < |firsts| ensures firsts[j] == a || firsts[j] == b {
      assert firsts[j] in firsts;
      var i :| 0 <= i < |parts| && BucketStart(parts[i].start, grain) == firsts[j];
      PartNearby(d, parts[i].start, grain);
    }
    if |firsts| > 2 { ThirdValue(firsts, a, b); }
  }

  lemma PartNearby(d: Delta, at: int, grain: Grain)
    requires Acceptable(d) && d.end - d.start <= DAY_MS && grain != Minute
    requires BucketAt(at, Minute) && at < d.end && d.start < NextBucket(at, Minute)
    ensures var a := BucketStart(d.start, grain);
            BucketStart(at, grain) == a || BucketStart(at, grain) == NextBucket(a, grain)
  {
    hide Modern;
    hide BucketStart;
    hide NextBucket;
    ModernSince1970(d.start);
    ModernTiling(d.start, grain);
    var a := BucketStart(d.start, grain);
    ModernSuccessor(a, grain);
    DayLong(NextBucket(a, grain), grain);
    if at < d.start {
      ModernUnique(d.start, at, Minute);
      Refines(d.start);
    } else if at < NextBucket(a, grain) {
      ModernUnique(at, a, grain);
    } else {
      ModernUnique(at, NextBucket(a, grain), grain);
    }
  }

  lemma DayLong(start: int, grain: Grain)
    requires BucketAt(start, grain) && grain != Minute
    ensures start + DAY_MS <= NextBucket(start, grain)
  {
    hide Modern;
    hide MonthStart;
    if grain == Month { MonthHoldsADay(start); }
  }

  lemma GrainCost(p: Posting, now: int, machine: Machine, d: Delta, grain: Grain, bound: nat)
    requires Acceptable(d) && |RollUp(MinuteParts(d, Up), grain)| <= bound && p.projected + bound <= MAX_PROJECTIONS
    ensures var r := PostGrain(p, now, machine, d, grain);
            (r.Ok? ==> r.value.projected <= p.projected + bound) && (r.Err? ==> r.error == BucketOverflow)
  {
    hide RollUp;
    hide MinuteParts;
    PairedRollUps(d, grain);
    var up, down := RollUp(MinuteParts(d, Up), grain), RollUp(MinuteParts(d, Down), grain);
    LiveAtMost(up, grain, now);
    PartErrors(p.buckets, now, machine, d, grain, up, down, |up|);
  }

  /** Posting one daily slice costs the panel no more buckets than the daemon projected. */
  lemma DeltaCost(p: Posting, history: set<(Machine, User)>, now: int, machine: Machine, d: Delta)
    requires Batching.Sliced(d) && p.projected + Batching.Cost(d) <= MAX_PROJECTIONS
    ensures var r := PostDelta(p, history, now, machine, d);
            && (r.Ok? ==> r.value.projected <= p.projected + Batching.Cost(d))
            && (r.Err? ==> r.error in {UnknownUser, OutsideBounds, BucketOverflow})
            && (r == Err(UnknownUser) <==> (machine, d.user) !in history)
            && (r == Err(OutsideBounds) <==> (machine, d.user) in history && d.end > now + 5 * MINUTE_MS)
  {
    hide PostGrain;
    hide RollUp;
    hide MinuteParts;
    if Inspect(history, machine, now, d).Ok? {
      MinuteBound(d);
      CoarseBounded(d, Up, Day);
      CoarseBounded(d, Up, Month);
      var minutes := (d.end - d.start) / MINUTE_MS + 2;
      GrainCost(p, now, machine, d, Minute, minutes);
      var q := PostGrain(p, now, machine, d, Minute);
      if q.Ok? {
        GrainCost(q.value, now, machine, d, Day, 2);
        var days := PostGrain(q.value, now, machine, d, Day);
        if days.Ok? { GrainCost(days.value, now, machine, d, Month, 2); }
      }
    }
  }

  lemma MinuteBound(d: Delta)
    requires Acceptable(d)
    ensures |RollUp(MinuteParts(d, Up), Minute)| <= (d.end - d.start) / MINUTE_MS + 2
  {
    MinutesBounded(d, Up);
  }

  /** The delta's user is known to the panel and its interval is not ahead of the clock. */
  ghost predicate Welcome(history: set<(Machine, User)>, now: int, machine: Machine, d: Delta) {
    (machine, d.user) in history && d.end <= now + 5 * MINUTE_MS
  }

  lemma {:induction false} DeltasCost(p: Posting, history: set<(Machine, User)>, now: int, machine: Machine,
                                      deltas: seq<Delta>)
    requires forall i :: 0 <= i < |deltas| ==> Batching.Sliced(deltas[i])
    requires p.projected + Batching.TotalCost(deltas) <= MAX_PROJECTIONS
    ensures var r := PostDeltas(p, history, now, machine, deltas);
            && (r.Ok? ==> r.value.projected <= p.projected + Batching.TotalCost(deltas))
            && (r.Err? ==> r.error in {UnknownUser, OutsideBounds, BucketOverflow})
            && (r.Err? && r.error != BucketOverflow ==>
                  exists i :: 0 <= i < |deltas| && !Welcome(history, now, machine, deltas[i]))
            && (r.Ok? ==> forall i :: 0 <= i < |deltas| ==> Welcome(history, now, machine, deltas[i]))
  {
    hide PostDelta;
    hide Batching.Cost;
    if deltas != [] {
      var n := |deltas| - 1;
      CostPositive(deltas[n]);
      DeltasCost(p, history, now, machine, deltas[..n]);
      var init := PostDeltas(p, history, now, machine, deltas[..n]);
      if init.Ok? {
        DeltaCost(init.value, history, now, machine, deltas[n]);
        forall i | 0 <= i < n ensures Welcome(history, now, machine, deltas[i]) {
          assert Welcome(history, now, machine, deltas[..n][i]);
        }
        if !Welcome(history, now, machine, deltas[n]) { assert PostDeltas(p, history, now, machine, deltas).Err?; }
      } else if init.error != BucketOverflow {
        var i :| 0 <= i < n && !Welcome(history, now, machine, deltas[..n][i]);
        assert !Welcome(history, now, machine, deltas[i]);
      }
    }
  }

  lemma CostPositive(d: Delta)
    requires Batching.Sliced(d)
    ensures Batching.Cost(d) > 0
  {}

  /** Known users, clocks in step, and room in every bucket of the machine for all its bytes. */
  ghost predicate Hospitable(p: Panel, now: int, machine: Machine, deltas: seq<Delta>) {
    && (forall i :: 0 <= i < |deltas| ==> Welcome(p.history, now, machine, deltas[i]))
    && Headroom.Roomy(p.buckets, machine, Headroom.Weight(deltas))
  }

  /** A well-formed batch, in sequence and intact, is refused only for an unknown user, a
      clock more than five minutes behind, a full bucket, or a failed quota refresh; where
      none of these is the case it is accepted. */
  lemma DaemonBatchAccepted(p: Panel, machine: Machine, r: Request, setting: Setting)
    requires r.payload.Encoded? && Batching.Fits(r.payload.batch)
    requires forall i :: 0 <= i < |r.payload.batch.deltas| ==> Batching.Sliced(r.payload.batch.deltas[i])
    requires 0 < |r.payload.batch.runtime| <= 256
    requires Screen(r, setting).Ok?
    requires r.sequence == Committed(p.streams, StreamKey(machine, r.installation, r.stream)) + 1
    ensures var reply := Reported(p, machine, r, setting).1;
            var deltas := r.payload.batch.deltas;
            && (reply.Err? ==> reply.error in {UnknownUser, OutsideBounds, BucketOverflow, RefreshFailed})
            && (reply.Err? && reply.error in {UnknownUser, OutsideBounds}
                ==> exists i :: 0 <= i < |deltas| && !Welcome(p.history, setting.now, machine, deltas[i]))
            && (reply.Ok? ==> forall i :: 0 <= i < |deltas| ==> Welcome(p.history, setting.now, machine, deltas[i]))
            && (setting.refreshed && Hospitable(p, setting.now, machine, deltas) ==> reply.Ok?)
  {
    hide PostDeltas;
    hide Headroom.Roomy;
    hide Headroom.Weight;
    if Hospitable(p, setting.now, machine, r.payload.batch.deltas) {
      Headroom.DeltasFit(Posting(p.buckets, 0), p.history, setting.now, machine, r.payload.batch.deltas);
    }
    DeltasCost(Posting(p.buckets, 0), p.history, setting.now, machine, r.payload.batch.deltas);
  }
}
