/** What a committed report adds to the ledger, and the coherence of the three grains. */
module LedgerProofs {
  import opened Wrappers
  import opened Calendar
  import opened Splitting
  import opened UsageTypes
  import opened Collections
  import opened Ledger

  // ---------------------------------------------------------------- sums over stored buckets

  /** Bucket starts of one grain: all of them, a single one, or those inside a coarser bucket. */
  datatype Span = Any | Exactly(at: int) | In(coarse: Grain, at: int)

  predicate Covers(span: Span, start: int) {
    match span
    case Any => true
    case Exactly(at) => start == at
    case In(coarse, at) => BucketStart(start, coarse) == at
  }

  datatype Filter = Filter(grain: Grain, user: User, machine: Machine, span: Span)

  predicate Selects(f: Filter, k: Key) {
    k.grain == f.grain && k.user == f.user && k.machine == f.machine && Covers(f.span, k.start)
  }

  function Amount(b: Bucket, dir: Direction): int {
    if dir == Up then b.upload else b.download
  }

  ghost function Amounts(buckets: Buckets, f: Filter, dir: Direction): map<Key, int> {
    map k | k in buckets && Selects(f, k) :: Amount(buckets[k], dir)
  }

  /** Bytes in all buckets a filter selects. */
  ghost function Stored(buckets: Buckets, f: Filter, dir: Direction): int {
    Sum(Amounts(buckets, f, dir))
  }

  /** Bytes in one bucket, zero when there is none. */
  ghost function Entry(buckets: Buckets, k: Key, dir: Direction): int {
    if k in buckets then Amount(buckets[k], dir) else 0
  }

  lemma StoredUpdate(buckets: Buckets, k: Key, b: Bucket, f: Filter, dir: Direction)
    ensures Stored(buckets[k := b], f, dir)
            == Stored(buckets, f, dir) + if Selects(f, k) then Amount(b, dir) - Entry(buckets, k, dir) else 0
  {
    hide BucketStart;
    var m := Amounts(buckets, f, dir);
    if Selects(f, k) {
      assert Amounts(buckets[k := b], f, dir) == m[k := Amount(b, dir)];
      SumUpdate(m, k, Amount(b, dir));
    } else {
      assert Amounts(buckets[k := b], f, dir) == m;
    }
  }

  lemma StoredEntry(buckets: Buckets, k: Key, dir: Direction)
    ensures Stored(buckets, Filter(k.grain, k.user, k.machine, Exactly(k.start)), dir) == Entry(buckets, k, dir)
  {
    hide BucketStart;
    var f := Filter(k.grain, k.user, k.machine, Exactly(k.start));
    var m := Amounts(buckets, f, dir);
    forall j | j in m ensures j == k {}
    if k in buckets {
      SumRemove(m, k);
      assert m - {k} == map[];
    } else {
      assert m == map[];
    }
  }

  // ---------------------------------------------------------------- posting adds its parts

  /** Bytes of the parts a span covers, leaving out minutes past retention. */
  ghost function Gathered(parts: seq<Part>, k: nat, span: Span, grain: Grain, now: int): int
    requires k <= |parts|
  {
    if k == 0 then 0
    else Gathered(parts, k - 1, span, grain, now)
         + if Covers(span, parts[k - 1].start) && !Expired(grain, parts[k - 1].start, now)
           then parts[k - 1].bytes else 0
  }

  ghost function Concerns(f: Filter, machine: Machine, d: Delta, grain: Grain): bool {
    f.grain == grain && f.user == d.user && f.machine == machine
  }

  lemma {:induction false} PostPartsAdds(buckets: Buckets, now: int, machine: Machine, d: Delta, grain: Grain,
                                         up: seq<Part>, down: seq<Part>, k: nat, f: Filter, dir: Direction)
    requires k <= |up| == |down| && PostParts(buckets, now, machine, d, grain, up, down, k).Ok?
    requires forall i :: 0 <= i < |up| ==> up[i].start == down[i].start
    ensures Stored(PostParts(buckets, now, machine, d, grain, up, down, k).value, f, dir)
            == Stored(buckets, f, dir)
               + if Concerns(f, machine, d, grain)
                 then Gathered(if dir == Up then up else down, k, f.span, grain, now) else 0
  {
    hide Stored;
    hide BucketStart;
    if k > 0 {
      PostPartsAdds(buckets, now, machine, d, grain, up, down, k - 1, f, dir);
      var b := PostParts(buckets, now, machine, d, grain, up, down, k - 1).value;
      if !Expired(grain, up[k - 1].start, now) {
        var key := Key(grain, up[k - 1].start, d.user, machine);
        var after := PostPart(b, now, machine, d, grain, up, down, k - 1).value;
        StoredUpdate(b, key, after[key], f, dir);
      }
    }
  }

  lemma PostGrainAdds(p: Posting, now: int, machine: Machine, d: Delta, grain: Grain, f: Filter, dir: Direction)
    requires Acceptable(d) && PostGrain(p, now, machine, d, grain).Ok?
    ensures var parts := RollUp(MinuteParts(d, dir), grain);
            Stored(PostGrain(p, now, machine, d, grain).value.buckets, f, dir)
            == Stored(p.buckets, f, dir)
               + if Concerns(f, machine, d, grain) then Gathered(parts, |parts|, f.span, grain, now) else 0
  {
    hide Stored;
    hide BucketStart;
    hide MinuteParts;
    hide RollUp;
    PairedRollUps(d, grain);
    var up, down := RollUp(MinuteParts(d, Up), grain), RollUp(MinuteParts(d, Down), grain);
    PostPartsAdds(p.buckets, now, machine, d, grain, up, down, |up|, f, dir);
  }

  /** What a delta adds to the buckets a filter selects. */
  ghost function Added(d: Delta, now: int, machine: Machine, f: Filter, dir: Direction): int
    requires Acceptable(d)
  {
    if f.user == d.user && f.machine == machine then
      var parts := RollUp(MinuteParts(d, dir), f.grain);
      Gathered(parts, |parts|, f.span, f.grain, now)
    else 0
  }

  lemma PostDeltaAdds(p: Posting, history: set<(Machine, User)>, now: int, machine: Machine, d: Delta, f: Filter,
                      dir: Direction)
    requires PostDelta(p, history, now, machine, d).Ok?
    ensures Acceptable(d)
    ensures Stored(PostDelta(p, history, now, machine, d).value.buckets, f, dir)
            == Stored(p.buckets, f, dir) + Added(d, now, machine, f, dir)
  {
    hide Stored;
    hide BucketStart;
    hide MinuteParts;
    hide RollUp;
    hide PostGrain;
    var minutes := PostGrain(p, now, machine, d, Minute).value;
    var days := PostGrain(minutes, now, machine, d, Day).value;
    PostGrainAdds(p, now, machine, d, Minute, f, dir);
    PostGrainAdds(minutes, now, machine, d, Day, f, dir);
    PostGrainAdds(days, now, machine, d, Month, f, dir);
  }

  // ---------------------------------------------------------------- roll-up preserves bytes

  /** The minute parts that end up in the buckets a span covers after rolling up. */
  ghost predicate Pulls(span: Span, minutes: Span, parts: seq<Part>, grain: Grain) {
    forall i :: 0 <= i < |parts| ==>
      (Covers(span, BucketStart(parts[i].start, grain)) <==> Covers(minutes, parts[i].start))
  }

  ghost predicate Unrepeated(s: seq<int>) {
    forall i, j :: 0 <= i < j < |s| ==> s[i] != s[j]
  }

  lemma {:induction false} FirstStartsShape(parts: seq<Part>, grain: Grain)
    ensures Unrepeated(FirstStarts(parts, grain))
    ensures forall i :: 0 <= i < |parts| ==> BucketStart(parts[i].start, grain) in FirstStarts(parts, grain)
    ensures forall at :: at in FirstStarts(parts, grain) ==>
      exists i :: 0 <= i < |parts| && BucketStart(parts[i].start, grain) == at
  {
    hide BucketStart;
    if parts != [] {
      var n := |parts| - 1;
      FirstStartsShape(parts[..n], grain);
      forall i | 0 <= i < n ensures BucketStart(parts[i].start, grain) in FirstStarts(parts, grain) {
        assert BucketStart(parts[..n][i].start, grain) in FirstStarts(parts[..n], grain);
      }
      forall at | at in FirstStarts(parts, grain)
        ensures exists i :: 0 <= i < |parts| && BucketStart(parts[i].start, grain) == at
      {
        if at in FirstStarts(parts[..n], grain) {
          var i :| 0 <= i < n && BucketStart(parts[..n][i].start, grain) == at;
          assert BucketStart(parts[i].start, grain) == at;
        } else {
          assert BucketStart(parts[n].start, grain) == at;
        }
      }
    }
  }

  /** Attributed bytes of the first `k` listed buckets that a span covers. */
  ghost function Grouped(starts: seq<int>, k: nat, parts: seq<Part>, grain: Grain, span: Span): int
    requires k <= |starts|
  {
    if k == 0 then 0
    else Grouped(starts, k - 1, parts, grain, span)
         + if Covers(span, starts[k - 1]) then Attributed(parts, grain, starts[k - 1]) else 0
  }

  /** One more part adds its bytes to the one listed bucket it belongs to. */
  lemma {:induction false} GroupedExtend(starts: seq<int>, k: nat, parts: seq<Part>, grain: Grain, span: Span)
    requires k <= |starts| && Unrepeated(starts) && parts != []
    ensures var n := |parts| - 1;
            var at := BucketStart(parts[n].start, grain);
            Grouped(starts, k, parts, grain, span)
            == Grouped(starts, k, parts[..n], grain, span)
               + if Covers(span, at) && at in starts[..k] then parts[n].bytes else 0
  {
    hide BucketStart;
    hide Covers;
    if k > 0 {
      GroupedExtend(starts, k - 1, parts, grain, span);
      assert starts[..k] == starts[..k - 1] + [starts[k - 1]];
    }
  }

  lemma {:induction false} GroupedIsGathered(starts: seq<int>, parts: seq<Part>, k: nat, grain: Grain, span: Span,
                                             minutes: Span, now: int)
    requires k <= |parts| && Unrepeated(starts) && Pulls(span, minutes, parts, grain)
    requires forall i :: 0 <= i < |parts| ==> BucketStart(parts[i].start, grain) in starts
    ensures Grouped(starts, |starts|, parts[..k], grain, span) == Gathered(parts, k, minutes, Month, now)
  {
    hide BucketStart;
    hide Covers;
    if k == 0 {
      GroupedNothing(starts, |starts|, grain, span);
      assert parts[..k] == [];
    } else {
      GroupedIsGathered(starts, parts, k - 1, grain, span, minutes, now);
      GroupedExtend(starts, |starts|, parts[..k], grain, span);
      assert parts[..k][..k - 1] == parts[..k - 1] && starts[..|starts|] == starts;
    }
  }

  lemma {:induction false} GroupedNothing(starts: seq<int>, k: nat, grain: Grain, span: Span)
    requires k <= |starts|
    ensures Grouped(starts, k, [], grain, span) == 0
  {
    hide BucketStart;
    hide Covers;
    if k > 0 { GroupedNothing(starts, k - 1, grain, span); }
  }

  lemma {:induction false} RollUpIsGrouped(parts: seq<Part>, k: nat, grain: Grain, span: Span, now: int)
    requires grain != Minute && k <= |RollUp(parts, grain)|
    ensures Gathered(RollUp(parts, grain), k, span, grain, now)
            == Grouped(FirstStarts(parts, grain), k, parts, grain, span)
  {
    hide BucketStart;
    hide Covers;
    if k > 0 { RollUpIsGrouped(parts, k - 1, grain, span, now); }
  }

  /** Rolling up preserves bytes: the rolled buckets a span covers hold what the minute
      parts behind them hold. */
  lemma RollUpPreserves(parts: seq<Part>, grain: Grain, span: Span, minutes: Span, now: int)
    requires grain != Minute && Pulls(span, minutes, parts, grain)
    ensures var rolled := RollUp(parts, grain);
            Gathered(rolled, |rolled|, span, grain, now) == Gathered(parts, |parts|, minutes, Month, now)
  {
    hide BucketStart;
    hide Covers;
    var starts := FirstStarts(parts, grain);
    FirstStartsShape(parts, grain);
    RollUpIsGrouped(parts, |starts|, grain, span, now);
    GroupedIsGathered(starts, parts, |parts|, grain, span, minutes, now);
    assert parts[..|parts|] == parts;
  }

  lemma {:induction false} GatheredAll(parts: seq<Part>, k: nat, grain: Grain, now: int)
    requires grain != Minute && k <= |parts|
    ensures Gathered(parts, k, Any, grain, now) == Total(parts[..k])
  {
    if k > 0 {
      GatheredAll(parts, k - 1, grain, now);
      assert parts[..k][..k - 1] == parts[..k - 1];
    }
  }

  /** Every accepted delta adds exactly its bytes to the month grain of its user. */
  lemma MonthAddsAll(d: Delta, now: int, machine: Machine, user: User, m: Machine, dir: Direction)
    requires Acceptable(d)
    ensures Added(d, now, machine, Filter(Month, user, m, Any), dir)
            == if user == d.user && m == machine then Bytes(d, dir) else 0
  {
    hide BucketStart;
    hide Split;
    hide RollUp;
    var parts := MinuteParts(d, dir);
    ModernSince1970(d.start);
    SplitExact(d.start, d.end, Bytes(d, dir), Minute);
    RollUpPreserves(parts, Month, Any, Any, now);
    GatheredAll(parts, |parts|, Month, now);
    assert parts[..|parts|] == parts;
  }

  /** A month bucket and the days inside it receive the same bytes. */
  lemma MonthMatchesDays(d: Delta, now: int, machine: Machine, user: User, m: Machine, at: int, dir: Direction)
    requires Acceptable(d)
    ensures Added(d, now, machine, Filter(Month, user, m, Exactly(at)), dir)
            == Added(d, now, machine, Filter(Day, user, m, In(Month, at)), dir)
  {
    hide BucketStart;
    hide MinuteParts;
    hide RollUp;
    var parts := MinuteParts(d, dir);
    forall i | 0 <= i < |parts|
      ensures BucketStart(BucketStart(parts[i].start, Day), Month) == BucketStart(parts[i].start, Month)
    {
      Refines(parts[i].start);
    }
    RollUpPreserves(parts, Month, Exactly(at), In(Month, at), now);
    RollUpPreserves(parts, Day, In(Month, at), In(Month, at), now);
  }

  lemma {:induction false} LiveGathered(parts: seq<Part>, k: nat, at: int, now: int)
    requires k <= |parts| && forall i :: 0 <= i < |parts| ==> 0 <= parts[i].bytes
    ensures 0 <= Gathered(parts, k, In(Day, at), Minute, now) <= Gathered(parts, k, In(Day, at), Month, now)
    ensures at >= now - RETENTION
            && (forall i :: 0 <= i < |parts| ==> BucketStart(parts[i].start, Day) <= parts[i].start)
            ==> Gathered(parts, k, In(Day, at), Minute, now) == Gathered(parts, k, In(Day, at), Month, now)
  {
    hide BucketStart;
    if k > 0 { LiveGathered(parts, k - 1, at, now); }
  }

  /** A day bucket receives at least the bytes of its stored minutes, and exactly those
      when the day begins within retention. */
  lemma DayMatchesMinutes(d: Delta, now: int, machine: Machine, user: User, m: Machine, at: int, dir: Direction)
    requires Acceptable(d)
    ensures var minutes := Added(d, now, machine, Filter(Minute, user, m, In(Day, at)), dir);
            var day := Added(d, now, machine, Filter(Day, user, m, Exactly(at)), dir);
            0 <= minutes <= day && (at >= now - RETENTION ==> minutes == day)
  {
    hide BucketStart;
    hide FloorShare;
    hide NextBucket;
    hide FirstStarts;
    hide Attributed;
    hide Split;
    hide MinuteParts;
    var parts := MinuteParts(d, dir);
    MinutesOfDays(d, dir);
    RollUpPreserves(parts, Day, Exactly(at), In(Day, at), now);
    LiveGathered(parts, |parts|, at, now);
  }

  /** Minute parts are non-negative, and no minute begins before its day. */
  lemma MinutesOfDays(d: Delta, dir: Direction)
    requires Acceptable(d)
    ensures var parts := MinuteParts(d, dir);
            forall i :: 0 <= i < |parts| ==> 0 <= parts[i].bytes && BucketStart(parts[i].start, Day) <= parts[i].start
  {
    hide BucketStart;
    hide FloorShare;
    hide NextBucket;
    hide Split;
    var parts := MinuteParts(d, dir);
    ModernSince1970(d.start);
    SplitExact(d.start, d.end, Bytes(d, dir), Minute);
    SplitTiles(d.start, d.end, Bytes(d, dir), Minute);
    forall i | 0 <= i < |parts| ensures BucketStart(parts[i].start, Day) <= parts[i].start {
      assert BucketAt(parts[i].start, Minute);
      ModernTiling(parts[i].start, Day);
    }
  }

  // ---------------------------------------------------------------- coherence

  ghost predicate MonthCoherent(buckets: Buckets, user: User, m: Machine, at: int, dir: Direction) {
    Entry(buckets, Key(Month, at, user, m), dir) == Stored(buckets, Filter(Day, user, m, In(Month, at)), dir)
  }

  ghost predicate DayCoherent(buckets: Buckets, clock: int, user: User, m: Machine, at: int, dir: Direction) {
    var minutes := Stored(buckets, Filter(Minute, user, m, In(Day, at)), dir);
    var day := Entry(buckets, Key(Day, at, user, m), dir);
    0 <= minutes <= day && (at >= clock - RETENTION ==> minutes == day)
  }

  /** Per user and machine every month bucket is the sum of its days, and every day bucket
      is at least the sum of its minutes, with equality while the day is within retention. */
  ghost predicate Coherent(buckets: Buckets, clock: int) {
    && (forall user, m, at, dir :: MonthCoherent(buckets, user, m, at, dir))
    && (forall user, m, at, dir :: DayCoherent(buckets, clock, user, m, at, dir))
    && (forall k, dir :: k in buckets ==> 0 <= Amount(buckets[k], dir))
  }

  lemma EmptyCoherent(clock: int)
    ensures Coherent(map[], clock)
  {
    forall f: Filter, dir ensures Stored(map[], f, dir) == 0 {
      assert Amounts(map[], f, dir) == map[];
    }
  }

  lemma AddsNonNegative(d: Delta, now: int, machine: Machine, k: Key, dir: Direction)
    requires Acceptable(d)
    ensures 0 <= Added(d, now, machine, Filter(k.grain, k.user, k.machine, Exactly(k.start)), dir)
  {
    hide BucketStart;
    hide Split;
    var parts := MinuteParts(d, dir);
    ModernSince1970(d.start);
    SplitExact(d.start, d.end, Bytes(d, dir), Minute);
    GatheredNonNegative(parts, |parts|, Exactly(k.start), k.grain, now);
    if k.grain != Minute {
      RollUpPreserves(parts, k.grain, Exactly(k.start), In(k.grain, k.start), now);
      GatheredNonNegative(parts, |parts|, In(k.grain, k.start), Month, now);
    }
  }

  lemma {:induction false} GatheredNonNegative(parts: seq<Part>, k: nat, span: Span, grain: Grain, now: int)
    requires k <= |parts| && forall i :: 0 <= i < |parts| ==> 0 <= parts[i].bytes
    ensures 0 <= Gathered(parts, k, span, grain, now)
  {
    hide Covers;
    if k > 0 { GatheredNonNegative(parts, k - 1, span, grain, now); }
  }

  /** Posting a delta at a time no earlier than the clock keeps the ledger coherent. */
  lemma PostDeltaCoherent(p: Posting, history: set<(Machine, User)>, clock: int, now: int, machine: Machine, d: Delta)
    requires Coherent(p.buckets, clock) && clock <= now && PostDelta(p, history, now, machine, d).Ok?
    ensures Coherent(PostDelta(p, history, now, machine, d).value.buckets, now)
  {
    hide Stored;
    hide BucketStart;
    hide PostDelta;
    hide Added;
    var after := PostDelta(p, history, now, machine, d).value.buckets;
    PostDeltaAdds(p, history, now, machine, d, Filter(Minute, "", "", Any), Up);
    forall f: Filter, dir ensures Stored(after, f, dir) == Stored(p.buckets, f, dir) + Added(d, now, machine, f, dir) {
      PostDeltaAdds(p, history, now, machine, d, f, dir);
    }
    forall user, m, at, dir ensures MonthCoherent(after, user, m, at, dir) {
      assert MonthCoherent(p.buckets, user, m, at, dir);
      MonthMatchesDays(d, now, machine, user, m, at, dir);
      StoredEntry(p.buckets, Key(Month, at, user, m), dir);
      StoredEntry(after, Key(Month, at, user, m), dir);
    }
    forall user, m, at, dir ensures DayCoherent(after, now, user, m, at, dir) {
      assert DayCoherent(p.buckets, clock, user, m, at, dir);
      DayMatchesMinutes(d, now, machine, user, m, at, dir);
      StoredEntry(p.buckets, Key(Day, at, user, m), dir);
      StoredEntry(after, Key(Day, at, user, m), dir);
    }
    forall k, dir | k in after ensures 0 <= Amount(after[k], dir) {
      AddsNonNegative(d, now, machine, k, dir);
      StoredEntry(p.buckets, k, dir);
      StoredEntry(after, k, dir);
    }
  }

  lemma CoherentLater(buckets: Buckets, clock: int, now: int)
    requires Coherent(buckets, clock) && clock <= now
    ensures Coherent(buckets, now)
  {
    hide Stored;
    hide BucketStart;
    forall user, m, at, dir ensures DayCoherent(buckets, now, user, m, at, dir) {
      assert DayCoherent(buckets, clock, user, m, at, dir);
    }
  }

  lemma {:induction false} PostDeltasCoherent(p: Posting, history: set<(Machine, User)>, clock: int, now: int,
                                              machine: Machine, deltas: seq<Delta>)
    requires Coherent(p.buckets, clock) && clock <= now && PostDeltas(p, history, now, machine, deltas).Ok?
    ensures Coherent(PostDeltas(p, history, now, machine, deltas).value.buckets, now)
  {
    hide Coherent;
    hide PostDelta;
    if deltas == [] {
      CoherentLater(p.buckets, clock, now);
    } else {
      var n := |deltas| - 1;
      PostDeltasCoherent(p, history, clock, now, machine, deltas[..n]);
      PostDeltaCoherent(PostDeltas(p, history, now, machine, deltas[..n]).value, history, now, now, machine, deltas[n]);
    }
  }

  /** Ledger coherence: whatever request arrives, in whatever state of the streams, and
      whether it is accepted, a duplicate or refused, the grains stay coherent. */
  lemma ReportedCoherent(p: Panel, clock: int, machine: Machine, r: Request, setting: Setting)
    requires Coherent(p.buckets, clock) && clock <= setting.now
    ensures Coherent(Reported(p, machine, r, setting).0.buckets, setting.now)
  {
    hide Coherent;
    hide PostDeltas;
    CoherentLater(p.buckets, clock, setting.now);
    var batch := Metadata(r.payload);
    if batch.Ok? && PostDeltas(Posting(p.buckets, 0), p.history, setting.now, machine, batch.value.deltas).Ok? {
      PostDeltasCoherent(Posting(p.buckets, 0), p.history, clock, setting.now, machine, batch.value.deltas);
    }
  }

  lemma {:induction false} SumSubset<K>(small: map<K, int>, big: map<K, int>)
    requires small.Keys <= big.Keys && forall k :: k in small ==> small[k] == big[k]
    requires forall k :: k in big ==> 0 <= big[k]
    ensures 0 <= Sum(small) <= Sum(big)
    decreases |big|
  {
    SumNonNegative(small);
    SumNonNegative(big);
    if small.Keys != {} {
      var k := Witness(small.Keys);
      SumRemove(small, k);
      SumRemove(big, k);
      SumSubset(small - {k}, big - {k});
    } else {
      assert small == map[];
    }
  }

  /** Coarse buckets, and the minutes of a day within retention, are not deleted. */
  ghost predicate Lasting(f: Filter, now: int) {
    f.grain != Minute || (f.span.In? && f.span.coarse == Day && f.span.at >= now - RETENTION)
  }

  lemma CleanedKeeps(before: Buckets, after: Buckets, now: int, f: Filter, k: Key)
    requires Cleaned(before, after, now) && Lasting(f, now) && k in before && Selects(f, k)
    ensures k in after
  {
    hide BucketStart;
    if f.grain == Minute { DayStartsBefore(k.start); }
  }

  lemma CleanedValues(before: Buckets, after: Buckets, now: int)
    requires Cleaned(before, after, now)
    ensures forall k :: k in after ==> k in before && after[k] == before[k]
  {}

  /** Deleting minutes touches no coarser bucket, takes nothing below zero, and leaves the
      minutes of a retained day alone. */
  lemma CleanedStored(before: Buckets, after: Buckets, now: int, f: Filter, dir: Direction)
    requires Cleaned(before, after, now)
    requires forall k :: k in before ==> 0 <= Amount(before[k], dir)
    ensures 0 <= Stored(after, f, dir) <= Stored(before, f, dir)
    ensures Lasting(f, now) ==> Stored(after, f, dir) == Stored(before, f, dir)
  {
    hide Cleaned;
    hide Selects;
    hide Lasting;
    hide Sum;
    CleanedValues(before, after, now);
    var m, n := Amounts(before, f, dir), Amounts(after, f, dir);
    SumSubset(n, m);
    if Lasting(f, now) {
      forall k | k in m ensures k in n { CleanedKeeps(before, after, now, f, k); }
      assert m == n;
    }
  }

  lemma DayStartsBefore(time: int)
    ensures BucketStart(time, Day) <= time
  {
    Rounding(time + OFFSET, DAY_MS);
  }

  lemma CleanedMonth(before: Buckets, after: Buckets, now: int, user: User, m: Machine, at: int, dir: Direction)
    requires MonthCoherent(before, user, m, at, dir) && Cleaned(before, after, now)
    requires forall k :: k in before ==> 0 <= Amount(before[k], dir)
    ensures MonthCoherent(after, user, m, at, dir)
  {
    hide BucketStart;
    hide Stored;
    hide Cleaned;
    hide Entry;
    var month, days := Filter(Month, user, m, Exactly(at)), Filter(Day, user, m, In(Month, at));
    CleanedStored(before, after, now, month, dir);
    CleanedStored(before, after, now, days, dir);
    StoredEntry(before, Key(Month, at, user, m), dir);
    StoredEntry(after, Key(Month, at, user, m), dir);
  }

  lemma CleanedDay(before: Buckets, after: Buckets, clock: int, now: int, user: User, m: Machine, at: int,
                   dir: Direction)
    requires DayCoherent(before, clock, user, m, at, dir) && Cleaned(before, after, now) && clock <= now
    requires forall k :: k in before ==> 0 <= Amount(before[k], dir)
    ensures DayCoherent(after, now, user, m, at, dir)
  {
    hide BucketStart;
    hide Stored;
    hide Cleaned;
    hide Entry;
    CleanedStored(before, after, now, Filter(Minute, user, m, In(Day, at)), dir);
    CleanedStored(before, after, now, Filter(Day, user, m, Exactly(at)), dir);
    StoredEntry(before, Key(Day, at, user, m), dir);
    StoredEntry(after, Key(Day, at, user, m), dir);
  }

  /** cleanMinutes keeps the grains coherent: no day or month total changes, and the days
      whose minutes it deletes are past retention. */
  lemma CleanedCoherent(before: Buckets, after: Buckets, clock: int, now: int)
    requires Coherent(before, clock) && clock <= now && Cleaned(before, after, now)
    ensures Coherent(after, now)
    ensures forall f: Filter, dir :: f.grain != Minute ==> Stored(after, f, dir) == Stored(before, f, dir)
  {
    hide Stored;
    hide Cleaned;
    hide MonthCoherent;
    hide DayCoherent;
    forall f: Filter, dir | f.grain != Minute ensures Stored(after, f, dir) == Stored(before, f, dir) {
      CleanedStored(before, after, now, f, dir);
    }
    forall user, m, at, dir ensures MonthCoherent(after, user, m, at, dir) {
      CleanedMonth(before, after, now, user, m, at, dir);
    }
    forall user, m, at, dir ensures DayCoherent(after, now, user, m, at, dir) {
      CleanedDay(before, after, clock, now, user, m, at, dir);
    }
    CleanedValues(before, after, now);
  }

  // ---------------------------------------------------------------- month totals

  /** All bytes ever charged to a user on a machine: the sum of the month buckets. */
  ghost function MonthTotal(buckets: Buckets, user: User, m: Machine, dir: Direction): int {
    Stored(buckets, Filter(Month, user, m, Any), dir)
  }

  lemma {:induction false} PostDeltasCharge(p: Posting, history: set<(Machine, User)>, now: int, machine: Machine,
                                            deltas: seq<Delta>,
                                            user: User, m: Machine, dir: Direction)
    requires PostDeltas(p, history, now, machine, deltas).Ok?
    ensures MonthTotal(PostDeltas(p, history, now, machine, deltas).value.buckets, user, m, dir)
            == MonthTotal(p.buckets, user, m, dir) + if m == machine then UserBytes(deltas, user, dir) else 0
  {
    hide Stored;
    hide Added;
    hide PostDelta;
    if deltas != [] {
      var n := |deltas| - 1;
      var init := PostDeltas(p, history, now, machine, deltas[..n]).value;
      PostDeltasCharge(p, history, now, machine, deltas[..n], user, m, dir);
      PostDeltaAdds(init, history, now, machine, deltas[n], Filter(Month, user, m, Any), dir);
      MonthAddsAll(deltas[n], now, machine, user, m, dir);
    }
  }

  /** A reply that advances the stream charges exactly the batch's bytes, to its users on
      its machine; every other outcome charges nothing. */
  lemma ReportedCharges(p: Panel, machine: Machine, r: Request, setting: Setting, user: User, m: Machine,
                        dir: Direction)
    ensures var (q, reply) := Reported(p, machine, r, setting);
            var key := StreamKey(machine, r.installation, r.stream);
            var advanced := Committed(q.streams, key) != Committed(p.streams, key);
            && (advanced ==>
                  r.payload.Encoded? && r.sequence == Committed(q.streams, key) == Committed(p.streams, key) + 1)
            && (!advanced ==> q == p)
            && MonthTotal(q.buckets, user, m, dir)
               == MonthTotal(p.buckets, user, m, dir)
                  + if advanced && m == machine then UserBytes(r.payload.batch.deltas, user, dir) else 0
  {
    hide MonthTotal;
    hide PostDeltas;
    var batch := Metadata(r.payload);
    if batch.Ok? && PostDeltas(Posting(p.buckets, 0), p.history, setting.now, machine, batch.value.deltas).Ok? {
      PostDeltasCharge(Posting(p.buckets, 0), p.history, setting.now, machine, batch.value.deltas, user, m, dir);
    }
  }
}
