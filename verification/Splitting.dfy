/** splitBytes of apps/web/src/server/usage/time.ts: an exact division of a byte count
    over the calendar buckets of an interval. */
module Splitting {
  import opened Arithmetic
  import opened Calendar

  datatype Part = Part(start: int, bytes: int)

  function Min(a: int, b: int): int { if a < b then a else b }
  function Max(a: int, b: int): int { if a < b then b else a }

  ghost predicate BucketAt(time: int, grain: Grain) {
    Modern(time) && BucketStart(time, grain) == time
  }

  /** The bucket starts from `current` up to `end`, in calendar order. */
  ghost function Starts(current: int, end: int, grain: Grain): (s: seq<int>)
    requires BucketAt(current, grain)
    ensures current < end ==> |s| > 0
    decreases end - current
  {
    hide Modern;
    hide BucketStart;
    hide NextBucket;
    if current >= end then []
    else
      ModernSuccessor(current, grain);
      [current] + Starts(NextBucket(current, grain), end, grain)
  }

  lemma {:induction false} StartsShape(current: int, end: int, grain: Grain)
    requires BucketAt(current, grain) && current < end
    ensures var s := Starts(current, end, grain);
            && s[0] == current && end <= NextBucket(s[|s| - 1], grain)
            && (forall i :: 0 <= i < |s| ==> BucketAt(s[i], grain) && current <= s[i] < end)
            && (forall i :: 0 < i < |s| ==> s[i] == NextBucket(s[i - 1], grain))
            && (forall i :: 0 < i < |s| ==> NextBucket(current, grain) <= s[i])
    decreases end - current
  {
    hide Modern;
    hide BucketStart;
    hide NextBucket;
    ModernSuccessor(current, grain);
    var next := NextBucket(current, grain);
    if next < end { StartsShape(next, end, grain); }
  }

  /** How much of [start, end) lies in the bucket that begins at `at`. */
  function Overlap(at: int, start: int, end: int, grain: Grain): int {
    Min(end, NextBucket(at, grain)) - Max(start, at)
  }

  /** The bucket's proportional share, rounded down. */
  function FloorShare(at: int, start: int, end: int, bytes: int, grain: Grain): int
    requires start < end
  {
    bytes * Overlap(at, start, end, grain) / (end - start)
  }

  ghost function Overlaps(starts: seq<int>, start: int, end: int, grain: Grain): int {
    if starts == [] then 0
    else Overlaps(starts[..|starts| - 1], start, end, grain) + Overlap(starts[|starts| - 1], start, end, grain)
  }

  ghost function FloorShares(starts: seq<int>, start: int, end: int, bytes: int, grain: Grain): int
    requires start < end
  {
    if starts == [] then 0
    else FloorShares(starts[..|starts| - 1], start, end, bytes, grain)
         + FloorShare(starts[|starts| - 1], start, end, bytes, grain)
  }

  ghost function Total(parts: seq<Part>): int {
    if parts == [] then 0 else Total(parts[..|parts| - 1]) + parts[|parts| - 1].bytes
  }

  ghost function BucketStarts(start: int, end: int, grain: Grain): (s: seq<int>)
    requires Modern(start) && start < end
    ensures |s| > 0
  {
    ModernTiling(start, grain);
    Starts(BucketStart(start, grain), end, grain)
  }

  /** Bytes that rounding down leaves over. */
  ghost function Leftover(start: int, end: int, bytes: int, grain: Grain): int
    requires Modern(start) && start < end
  {
    bytes - FloorShares(BucketStarts(start, end, grain), start, end, bytes, grain)
  }

  /** The reference division: floor shares, the first buckets taking one byte more. */
  ghost function Split(start: int, end: int, bytes: int, grain: Grain): (parts: seq<Part>)
    requires Modern(start) && start < end
    ensures |parts| == |BucketStarts(start, end, grain)|
  {
    var starts := BucketStarts(start, end, grain);
    seq(|starts|, i requires 0 <= i < |starts| =>
      Part(starts[i], FloorShare(starts[i], start, end, bytes, grain)
                      + if i < Leftover(start, end, bytes, grain) then 1 else 0))
  }

  // ---------------------------------------------------------------- the loops

  method SplitBytes(start: int, end: int, bytes: int, grain: Grain) returns (buckets: seq<Part>)
    requires Modern(start) && start < end && 0 <= bytes
    ensures buckets == Split(start, end, bytes, grain)
  {
    hide Modern;
    hide BucketStart;
    hide NextBucket;
    hide FloorShare;
    hide FloorShares;
    var floors, handedOut := FloorParts(start, end, bytes, grain);
    LeftoverSmall(start, end, bytes, grain);
    buckets := HandOut(floors, bytes - handedOut);
  }

  /** The first loop of splitBytes: every bucket's share rounded down, and their sum. */
  method FloorParts(start: int, end: int, bytes: int, grain: Grain) returns (buckets: seq<Part>, handedOut: int)
    requires Modern(start) && start < end
    ensures |buckets| == |BucketStarts(start, end, grain)|
    ensures forall i :: 0 <= i < |buckets| ==>
      var at := BucketStarts(start, end, grain)[i];
      buckets[i] == Part(at, FloorShare(at, start, end, bytes, grain))
    ensures handedOut == FloorShares(BucketStarts(start, end, grain), start, end, bytes, grain)
  {
    hide Modern;
    hide BucketStart;
    hide NextBucket;
    hide FloorShare;
    buckets := [];
    handedOut := 0;
    ModernTiling(start, grain);
    ghost var starts := BucketStarts(start, end, grain);
    var current := BucketStart(start, grain);
    while current < end
      invariant BucketAt(current, grain)
      invariant |buckets| <= |starts| && starts[|buckets|..] == Starts(current, end, grain)
      invariant forall i :: 0 <= i < |buckets| ==>
        buckets[i] == Part(starts[i], FloorShare(starts[i], start, end, bytes, grain))
      invariant handedOut == FloorShares(starts[..|buckets|], start, end, bytes, grain)
      decreases end - current
    {
      ModernSuccessor(current, grain);
      ghost var k := |buckets|;
      assert starts[k..][0] == current && starts[k..][1..] == starts[k + 1..];
      assert starts[..k + 1][..k] == starts[..k];
      var part := FloorShare(current, start, end, bytes, grain);
      buckets := buckets + [Part(current, part)];
      handedOut := handedOut + part;
      current := NextBucket(current, grain);
    }
    assert starts[..|buckets|] == starts;
  }

  /** The second loop of splitBytes: the first `leftover` buckets take one byte more. */
  method HandOut(floors: seq<Part>, leftover: int) returns (buckets: seq<Part>)
    requires 0 <= leftover <= |floors|
    ensures buckets == seq(|floors|, i requires 0 <= i < |floors| =>
      Part(floors[i].start, floors[i].bytes + if i < leftover then 1 else 0))
  {
    buckets := floors;
    var remainder := leftover;
    var i := 0;
    while i < |buckets|
      invariant 0 <= i <= |buckets| == |floors|
      invariant remainder == Max(0, leftover - i)
      invariant forall j :: 0 <= j < |floors| ==>
        buckets[j] == if j < i then Part(floors[j].start, floors[j].bytes + if j < leftover then 1 else 0)
                      else floors[j]
    {
      if remainder == 0 { break; }
      buckets := buckets[i := Part(buckets[i].start, buckets[i].bytes + 1)];
      remainder := remainder - 1;
      i := i + 1;
    }
  }

  // ---------------------------------------------------------------- exactness

  /** The buckets' overlaps add up to the whole interval. */
  lemma {:induction false} OverlapsTile(current: int, start: int, end: int, grain: Grain, k: nat)
    requires BucketAt(current, grain) && current <= start < NextBucket(current, grain) && start < end
    requires k <= |Starts(current, end, grain)|
    ensures var s := Starts(current, end, grain);
            Overlaps(s[..k], start, end, grain)
            == if k == 0 then 0 else Min(end, NextBucket(s[k - 1], grain)) - start
  {
    hide Modern;
    hide BucketStart;
    hide NextBucket;
    var s := Starts(current, end, grain);
    StartsShape(current, end, grain);
    if k > 0 {
      OverlapsTile(current, start, end, grain, k - 1);
      assert s[..k][..k - 1] == s[..k - 1];
    }
  }

  lemma {:induction false} FloorSharesBound(starts: seq<int>, start: int, end: int, bytes: int, grain: Grain)
    requires start < end && 0 <= bytes
    ensures (end - start) * FloorShares(starts, start, end, bytes, grain) <= bytes * Overlaps(starts, start, end, grain)
    ensures bytes * Overlaps(starts, start, end, grain)
            <= (end - start) * FloorShares(starts, start, end, bytes, grain) + |starts| * (end - start - 1)
  {
    hide Overlap;
    if starts != [] {
      var n := |starts| - 1;
      FloorSharesBound(starts[..n], start, end, bytes, grain);
      BoundStep(end - start, bytes, Overlap(starts[n], start, end, grain), n,
                FloorShares(starts[..n], start, end, bytes, grain), Overlaps(starts[..n], start, end, grain));
    }
  }

  lemma BoundStep(d: int, bytes: int, o: int, n: int, floors: int, overlaps: int)
    requires 0 < d && d * floors <= bytes * overlaps <= d * floors + n * (d - 1)
    ensures var f := bytes * o / d;
            d * (floors + f) <= bytes * (overlaps + o) <= d * (floors + f) + (n + 1) * (d - 1)
  {
    var f := bytes * o / d;
    FloorDivision(bytes * o, d);
    assert d * (floors + f) == d * floors + d * f;
    assert bytes * (overlaps + o) == bytes * overlaps + bytes * o;
    assert (n + 1) * (d - 1) == n * (d - 1) + (d - 1);
  }

  /** The remainder is never negative and strictly smaller than the number of buckets. */
  lemma LeftoverSmall(start: int, end: int, bytes: int, grain: Grain)
    requires Modern(start) && start < end && 0 <= bytes
    ensures 0 <= Leftover(start, end, bytes, grain) < |BucketStarts(start, end, grain)|
  {
    hide Modern;
    hide BucketStart;
    hide NextBucket;
    hide FloorShares;
    hide Overlaps;
    ModernTiling(start, grain);
    var s := BucketStarts(start, end, grain);
    StartsShape(BucketStart(start, grain), end, grain);
    OverlapsTile(BucketStart(start, grain), start, end, grain, |s|);
    assert s[..|s|] == s;
    assert Overlaps(s, start, end, grain) == end - start;
    FloorSharesBound(s, start, end, bytes, grain);
    CancelFactor(end - start, FloorShares(s, start, end, bytes, grain), bytes, |s|);
  }

  lemma CancelFactor(d: int, f: int, bytes: int, n: int)
    requires 0 < d && 0 < n && d * f <= bytes * d <= d * f + n * (d - 1)
    ensures f <= bytes < f + n
  {
    assert d * (bytes - f) <= n * (d - 1) < n * d;
    assert 0 <= d * (bytes - f);
  }

  lemma {:induction false} TotalOfPrefix(start: int, end: int, bytes: int, grain: Grain, k: nat)
    requires Modern(start) && start < end && 0 <= bytes
    requires k <= |BucketStarts(start, end, grain)|
    ensures Total(Split(start, end, bytes, grain)[..k])
            == FloorShares(BucketStarts(start, end, grain)[..k], start, end, bytes, grain)
               + Min(k, Leftover(start, end, bytes, grain))
  {
    hide Modern;
    hide BucketStart;
    hide NextBucket;
    LeftoverSmall(start, end, bytes, grain);
    var s, p := BucketStarts(start, end, grain), Split(start, end, bytes, grain);
    if k > 0 {
      TotalOfPrefix(start, end, bytes, grain, k - 1);
      assert s[..k][..k - 1] == s[..k - 1] && p[..k][..k - 1] == p[..k - 1];
    }
  }

  /** Consecutive buckets, each meeting the interval, that cover it from end to end. */
  lemma SplitTiles(start: int, end: int, bytes: int, grain: Grain)
    requires Modern(start) && start < end
    ensures var p := Split(start, end, bytes, grain);
            && p[0].start <= start && end <= NextBucket(p[|p| - 1].start, grain)
            && (forall i :: 0 < i < |p| ==> p[i].start == NextBucket(p[i - 1].start, grain))
            && (forall i :: 0 <= i < |p| ==> BucketAt(p[i].start, grain))
            && (forall i :: 0 <= i < |p| ==> p[i].start < end && start < NextBucket(p[i].start, grain))
  {
    hide Modern;
    hide BucketStart;
    hide NextBucket;
    hide FloorShare;
    var s, p := BucketStarts(start, end, grain), Split(start, end, bytes, grain);
    ModernTiling(start, grain);
    StartsShape(BucketStart(start, grain), end, grain);
    forall i | 0 <= i < |p|
      ensures start < NextBucket(p[i].start, grain)
    {
      ModernSuccessor(s[i], grain);
    }
  }

  lemma FloorShareNonNegative(at: int, start: int, end: int, bytes: int, grain: Grain)
    requires start < end && 0 <= bytes && at < end && start < NextBucket(at, grain) && at < NextBucket(at, grain)
    ensures 0 <= FloorShare(at, start, end, bytes, grain)
  {
    hide NextBucket;
    assert 0 <= bytes * Overlap(at, start, end, grain);
  }

  /** splitBytes is an exact fair division: no byte is lost or invented, and every bucket
      gets its proportional share rounded down or one byte more. */
  lemma SplitExact(start: int, end: int, bytes: int, grain: Grain)
    requires Modern(start) && start < end && 0 <= bytes
    ensures var p := Split(start, end, bytes, grain);
            && Total(p) == bytes
            && (forall i :: 0 <= i < |p| ==>
                  0 <= p[i].bytes && var f := FloorShare(p[i].start, start, end, bytes, grain);
                  p[i].bytes == f || p[i].bytes == f + 1)
  {
    hide Modern;
    hide BucketStart;
    hide NextBucket;
    hide FloorShare;
    var s, p := BucketStarts(start, end, grain), Split(start, end, bytes, grain);
    TotalOfPrefix(start, end, bytes, grain, |s|);
    LeftoverSmall(start, end, bytes, grain);
    assert p[..|s|] == p && s[..|s|] == s;
    SplitTiles(start, end, bytes, grain);
    forall i | 0 <= i < |p|
      ensures 0 <= p[i].bytes
    {
      ModernSuccessor(p[i].start, grain);
      FloorShareNonNegative(p[i].start, start, end, bytes, grain);
    }
  }

  /** Splits of two byte counts over one interval use the same bucket starts, so the
      panel may pair upload and download parts by index. */
  lemma SplitsPair(start: int, end: int, a: int, b: int, grain: Grain)
    requires Modern(start) && start < end
    ensures |Split(start, end, a, grain)| == |Split(start, end, b, grain)|
    ensures forall i :: 0 <= i < |Split(start, end, a, grain)| ==>
      Split(start, end, a, grain)[i].start == Split(start, end, b, grain)[i].start
  {}
}
