/** The panel's usage ledger (apps/web/src/server/usage/store.ts): reportUsage commits a
    numbered batch once, spreading every delta over minute, day and month buckets. */
module Ledger {
  import opened Wrappers
  import opened Calendar
  import opened Splitting
  import opened UsageTypes
  import opened Collections

  const RETENTION := 30 * DAY_MS
  const MAX_PROJECTIONS := 20_000

  type Machine = string

  datatype Key = Key(grain: Grain, start: int, user: User, machine: Machine)

  datatype Bucket = Bucket(upload: int, download: int, estimated: bool, incomplete: bool)

  type Buckets = map<Key, Bucket>

  /** Request bytes: a decodable batch, or bytes that are none. Distinct payloads have
      distinct digests, so a payload stands for its own SHA-256. */
  datatype Payload = Encoded(batch: UsageBatch) | Garbage(id: nat)

  datatype StreamKey = StreamKey(machine: Machine, installation: string, stream: string)

  datatype Stream = Stream(committed: int, last: Payload)

  datatype Request = Request(installation: string, stream: string, wellNamed: bool, sequence: int,
                             payload: Payload, size: nat, digest: Payload)

  /** What the transaction depends on besides its request: the installation check, the
      clock, and whether the quota refresh succeeds. */
  datatype Setting = Setting(installed: bool, now: int, refreshed: bool)

  datatype Error =
    | NotInstalled | BadName | BadSequence | TooLarge | HashMismatch | PayloadConflict
    | Undecodable | BadMetadata | UnknownUser | BadInterval | OutsideBounds | BadBytes
    | TooManyBuckets | BucketOverflow | RefreshFailed

  type Result<T> = Fallible<T, Error>

  datatype Panel = Panel(buckets: Buckets, streams: map<StreamKey, Stream>, history: set<(Machine, User)>)

  // ---------------------------------------------------------------- roll-up

  /** Bytes of the parts that fall into the coarser bucket at `at`. */
  ghost function Attributed(parts: seq<Part>, grain: Grain, at: int): int {
    if parts == [] then 0
    else
      var last := parts[|parts| - 1];
      Attributed(parts[..|parts| - 1], grain, at) + if BucketStart(last.start, grain) == at then last.bytes else 0
  }

  /** The bucket starts of the parts, each once, in order of first occurrence. */
  ghost function FirstStarts(parts: seq<Part>, grain: Grain): seq<int> {
    if parts == [] then []
    else
      var init := FirstStarts(parts[..|parts| - 1], grain);
      var at := BucketStart(parts[|parts| - 1].start, grain);
      if at in init then init else init + [at]
  }

  ghost function RollUp(parts: seq<Part>, grain: Grain): seq<Part> {
    if grain == Minute then parts
    else
      var starts := FirstStarts(parts, grain);
      seq(|starts|, i requires 0 <= i < |starts| => Part(starts[i], Attributed(parts, grain, starts[i])))
  }

  /** rollupMinutes: totals per bucket in an insertion-ordered map. */
  method RollupMinutes(minutes: seq<Part>, grain: Grain) returns (rolled: seq<Part>)
    ensures rolled == RollUp(minutes, grain)
  {
    hide BucketStart;
    if grain == Minute { return minutes; }
    var order: seq<int> := [];
    var totals: map<int, int> := map[];
    for i := 0 to |minutes|
      invariant order == FirstStarts(minutes[..i], grain)
      invariant forall j :: 0 <= j < |order| ==> order[j] in totals
      invariant forall at :: at in totals ==> at in order
      invariant forall at :: at in totals ==> totals[at] == Attributed(minutes[..i], grain, at)
      invariant forall at :: at !in totals ==> Attributed(minutes[..i], grain, at) == 0
    {
      assert minutes[..i + 1][..i] == minutes[..i];
      var start := BucketStart(minutes[i].start, grain);
      if start !in totals { order := order + [start]; }
      totals := totals[start := (if start in totals then totals[start] else 0) + minutes[i].bytes];
    }
    assert minutes[..|minutes|] == minutes;
    rolled := seq(|order|, i requires 0 <= i < |order| && order[i] in totals => Part(order[i], totals[order[i]]));
  }

  // ---------------------------------------------------------------- posting one delta

  predicate Expired(grain: Grain, start: int, now: int) {
    grain == Minute && start < now - RETENTION
  }

  /** One bucket upsert. */
  function Upsert(buckets: Buckets, key: Key, up: int, down: int, estimated: bool, incomplete: bool): Result<Buckets> {
    var p := if key in buckets then buckets[key] else Bucket(0, 0, false, false);
    if p.upload + up + (p.download + down) > MAX_INT64 then Err(BucketOverflow)
    else
      var bucket := Bucket(p.upload + up, p.download + down, p.estimated || estimated, p.incomplete || incomplete);
      Ok(buckets[key := bucket])
  }

  function PostPart(buckets: Buckets, now: int, machine: Machine, d: Delta, grain: Grain,
                    up: seq<Part>, down: seq<Part>, i: nat): Result<Buckets>
    requires i < |up| == |down|
  {
    if Expired(grain, up[i].start, now) then Ok(buckets)
    else Upsert(buckets, Key(grain, up[i].start, d.user, machine), up[i].bytes, down[i].bytes,
                d.estimated || |up| > 1, d.incomplete)
  }

  ghost function PostParts(buckets: Buckets, now: int, machine: Machine, d: Delta, grain: Grain,
                           up: seq<Part>, down: seq<Part>, k: nat): Result<Buckets>
    requires k <= |up| == |down|
  {
    if k == 0 then Ok(buckets)
    else
      var init := PostParts(buckets, now, machine, d, grain, up, down, k - 1);
      if init.Err? then init else PostPart(init.value, now, machine, d, grain, up, down, k - 1)
  }

  /** The projected bucket count of one grain: minutes past retention are not written. */
  ghost function LiveCount(parts: seq<Part>, grain: Grain, now: int): nat {
    if parts == [] then 0
    else LiveCount(parts[..|parts| - 1], grain, now) + if Expired(grain, parts[|parts| - 1].start, now) then 0 else 1
  }

  /** The ledger inside the transaction and the buckets counted so far. */
  datatype Posting = Posting(buckets: Buckets, projected: nat)

  ghost function PostGrain(p: Posting, now: int, machine: Machine, d: Delta, grain: Grain): Result<Posting>
    requires Acceptable(d)
  {
    var up := RollUp(MinuteParts(d, Up), grain);
    var down := RollUp(MinuteParts(d, Down), grain);
    PairedRollUps(d, grain);
    var projected := p.projected + LiveCount(up, grain, now);
    if projected > MAX_PROJECTIONS then Err(TooManyBuckets)
    else
      var posted := PostParts(p.buckets, now, machine, d, grain, up, down, |up|);
      if posted.Err? then Err(posted.error) else Ok(Posting(posted.value, projected))
  }

  /** The interval checks that make a delta's split well-defined. */
  ghost predicate Acceptable(d: Delta) {
    0 <= d.start < d.end && 0 <= d.upload && 0 <= d.download
  }

  ghost function MinuteParts(d: Delta, dir: Direction): seq<Part>
    requires Acceptable(d)
  {
    ModernSince1970(d.start);
    Split(d.start, d.end, Bytes(d, dir), Minute)
  }

  function Inspect(history: set<(Machine, User)>, machine: Machine, now: int, d: Delta): (e: Result<()>)
    ensures e.Ok? ==> 0 <= d.start < d.end && 0 <= d.upload && 0 <= d.download
  {
    if (machine, d.user) !in history then Err(UnknownUser)
    else if d.start < 0 || d.end > MAX_SAFE_INTEGER || d.end <= d.start then Err(BadInterval)
    else if d.end > now + 5 * MINUTE_MS || d.end - d.start > DAY_MS then Err(OutsideBounds)
    else if d.upload < 0 || d.download < 0 || d.upload + d.download > MAX_INT64 then Err(BadBytes)
    else Ok(())
  }

  ghost function PostDelta(p: Posting, history: set<(Machine, User)>, now: int, machine: Machine, d: Delta)
    : Result<Posting>
  {
    if Inspect(history, machine, now, d).Err? then Err(Inspect(history, machine, now, d).error)
    else
      var minutes := PostGrain(p, now, machine, d, Minute);
      if minutes.Err? then minutes else
      var days := PostGrain(minutes.value, now, machine, d, Day);
      if days.Err? then days else
      PostGrain(days.value, now, machine, d, Month)
  }

  ghost function PostDeltas(p: Posting, history: set<(Machine, User)>, now: int, machine: Machine, deltas: seq<Delta>)
    : Result<Posting>
  {
    if deltas == [] then Ok(p)
    else
      var init := PostDeltas(p, history, now, machine, deltas[..|deltas| - 1]);
      if init.Err? then init else PostDelta(init.value, history, now, machine, deltas[|deltas| - 1])
  }

  // ---------------------------------------------------------------- the transaction

  datatype Reply = Reply(committed: int, expected: int)

  function Committed(streams: map<StreamKey, Stream>, key: StreamKey): int {
    if key in streams then streams[key].committed else 0
  }

  /** The checks before the transaction opens. */
  function Screen(r: Request, setting: Setting): Result<()> {
    if !setting.installed then Err(NotInstalled)
    else if !r.wellNamed then Err(BadName)
    else if r.sequence <= 0 || r.sequence > MAX_INT64 then Err(BadSequence)
    else if r.size > 1024 * 1024 then Err(TooLarge)
    else if r.digest != r.payload then Err(HashMismatch)
    else Ok(())
  }

  function Metadata(payload: Payload): Result<UsageBatch> {
    match payload
    case Garbage(_) => Err(Undecodable)
    case Encoded(b) =>
      if b.runtime == "" || |b.runtime| > 256 || |b.deltas| == 0 || |b.deltas| > 256 then Err(BadMetadata) else Ok(b)
  }

  /** reportUsage as a function of the database: the new content and the reply. */
  ghost function Reported(p: Panel, machine: Machine, r: Request, setting: Setting): (Panel, Result<Reply>) {
    var key := StreamKey(machine, r.installation, r.stream);
    var committed := Committed(p.streams, key);
    if Screen(r, setting).Err? then (p, Err(Screen(r, setting).error))
    else if r.sequence <= committed then
      if r.sequence == committed && key in p.streams && p.streams[key].last != r.digest then (p, Err(PayloadConflict))
      else (p, Ok(Reply(committed, committed + 1)))
    else if r.sequence != committed + 1 then (p, Ok(Reply(committed, committed + 1)))
    else
      var batch := Metadata(r.payload);
      if batch.Err? then (p, Err(batch.error)) else
      var posted := PostDeltas(Posting(p.buckets, 0), p.history, setting.now, machine, batch.value.deltas);
      if posted.Err? then (p, Err(posted.error))
      else if !setting.refreshed then (p, Err(RefreshFailed))
      else (Panel(posted.value.buckets, p.streams[key := Stream(r.sequence, r.digest)], p.history),
            Ok(Reply(r.sequence, r.sequence + 1)))
  }

  class UsageLedger {
    var buckets: Buckets
    var streams: map<StreamKey, Stream>
    var history: set<(Machine, User)>

    ghost function View(): Panel
      reads this
    {
      Panel(buckets, streams, history)
    }

    constructor ()
      ensures View() == Panel(map[], map[], {})
    {
      buckets, streams, history := map[], map[], {};
    }

    method ReportUsage(machine: Machine, r: Request, setting: Setting) returns (reply: Result<Reply>)
      modifies this
      ensures (View(), reply) == Reported(old(View()), machine, r, setting)
    {
      var screened := Screen(r, setting);
      if screened.Err? { return Err(screened.error); }
      var key := StreamKey(machine, r.installation, r.stream);
      var committed := Committed(streams, key);
      if r.sequence <= committed {
        if r.sequence == committed && key in streams && streams[key].last != r.digest { return Err(PayloadConflict); }
        return Ok(Reply(committed, committed + 1));
      }
      if r.sequence != committed + 1 { return Ok(Reply(committed, committed + 1)); }
      var batch := Metadata(r.payload);
      if batch.Err? { return Err(batch.error); }
      var posting := Posting(buckets, 0);
      for i := 0 to |batch.value.deltas|
        invariant View() == old(View())
        invariant PostDeltas(Posting(buckets, 0), history, setting.now, machine, batch.value.deltas[..i]) == Ok(posting)
      {
        assert batch.value.deltas[..i + 1][..i] == batch.value.deltas[..i];
        var next := ProjectDelta(posting, history, setting.now, machine, batch.value.deltas[i]);
        if next.Err? {
          PrefixRefusal(Posting(buckets, 0), history, setting.now, machine, batch.value.deltas, i + 1);
          return Err(next.error);
        }
        posting := next.value;
      }
      assert batch.value.deltas[..|batch.value.deltas|] == batch.value.deltas;
      if !setting.refreshed { return Err(RefreshFailed); }
      buckets := posting.buckets;
      streams := streams[key := Stream(r.sequence, r.digest)];
      reply := Ok(Reply(r.sequence, r.sequence + 1));
    }

    /** cleanMinutes: the thousand oldest minutes past retention at most. */
    method CleanMinutes(now: int) returns (changes: nat)
      modifies this`buckets
      ensures Cleaned(old(buckets), buckets, now)
      ensures changes == |old(buckets).Keys - buckets.Keys|
    {
      var expired := set k | k in buckets && Expired(k.grain, k.start, now);
      var removed := OldestThousand(expired);
      ghost var before := buckets;
      buckets := buckets - removed;
      changes := |removed|;
      assert before.Keys - buckets.Keys == removed;
    }
  }

  /** The thousand keys with the earliest starts, or all there are. */
  method OldestThousand(keys: set<Key>) returns (oldest: set<Key>)
    ensures oldest <= keys && |oldest| <= 1000 && (|oldest| < 1000 ==> oldest == keys)
    ensures forall k, j :: k in oldest && j in keys - oldest ==> k.start <= j.start
  {
    var left := keys;
    oldest := {};
    while left != {} && |oldest| < 1000
      invariant left + oldest == keys && left !! oldest && |oldest| <= 1000
      invariant forall k, j :: k in oldest && j in left ==> k.start <= j.start
      decreases left
    {
      var next := Oldest(left);
      left, oldest := left - {next}, oldest + {next};
    }
  }

  method Oldest(keys: set<Key>) returns (oldest: Key)
    requires keys != {}
    ensures oldest in keys && forall k :: k in keys ==> oldest.start <= k.start
  {
    oldest := Pick(keys);
    var left := keys - {oldest};
    while left != {}
      invariant oldest in keys && left <= keys
      invariant forall k :: k in keys && k !in left ==> oldest.start <= k.start
      decreases left
    {
      var k := Pick(left);
      if k.start < oldest.start { oldest := k; }
      left := left - {k};
    }
  }

  /** Only minutes past retention are deleted, oldest first, a thousand at a time. */
  ghost predicate Cleaned(before: Buckets, after: Buckets, now: int) {
    var removed := before.Keys - after.Keys;
    && after == before - removed
    && |removed| <= 1000
    && (forall k :: k in removed ==> Expired(k.grain, k.start, now))
    && (forall k, j :: k in removed && j in after && Expired(j.grain, j.start, now) ==> k.start <= j.start)
    && (|removed| < 1000 ==> forall j :: j in after ==> !Expired(j.grain, j.start, now))
  }

  method ProjectDelta(p: Posting, history: set<(Machine, User)>, now: int, machine: Machine, d: Delta)
    returns (r: Result<Posting>)
    ensures r == PostDelta(p, history, now, machine, d)
  {
    var inspected := Inspect(history, machine, now, d);
    if inspected.Err? { return Err(inspected.error); }
    ModernSince1970(d.start);
    var minuteUpload := SplitBytes(d.start, d.end, d.upload, Minute);
    var minuteDownload := SplitBytes(d.start, d.end, d.download, Minute);
    r := ProjectGrain(p, now, machine, d, Minute, minuteUpload, minuteDownload);
    if r.Err? { return; }
    r := ProjectGrain(r.value, now, machine, d, Day, minuteUpload, minuteDownload);
    if r.Err? { return; }
    r := ProjectGrain(r.value, now, machine, d, Month, minuteUpload, minuteDownload);
  }

  method ProjectGrain(p: Posting, now: int, machine: Machine, d: Delta, grain: Grain,
                      minuteUpload: seq<Part>, minuteDownload: seq<Part>) returns (r: Result<Posting>)
    requires Acceptable(d) && minuteUpload == MinuteParts(d, Up) && minuteDownload == MinuteParts(d, Down)
    ensures r == PostGrain(p, now, machine, d, grain)
  {
    hide BucketStart;
    hide MinuteParts;
    hide RollUp;
    hide PostPart;
    hide LiveCount;
    var upload := RollupMinutes(minuteUpload, grain);
    var download := RollupMinutes(minuteDownload, grain);
    PairedRollUps(d, grain);
    var live := CountLive(upload, grain, now);
    if p.projected + live > MAX_PROJECTIONS { return Err(TooManyBuckets); }
    var buckets := p.buckets;
    for i := 0 to |upload|
      invariant PostParts(p.buckets, now, machine, d, grain, upload, download, i) == Ok(buckets)
    {
      var next := PostPart(buckets, now, machine, d, grain, upload, download, i);
      if next.Err? {
        PartRefusal(p.buckets, now, machine, d, grain, upload, download, i + 1);
        return Err(next.error);
      }
      buckets := next.value;
    }
    r := Ok(Posting(buckets, p.projected + live));
  }

  /** The filter that counts a grain's projected buckets. */
  method CountLive(parts: seq<Part>, grain: Grain, now: int) returns (live: nat)
    ensures live == LiveCount(parts, grain, now)
  {
    hide Expired;
    live := 0;
    for i := 0 to |parts|
      invariant live == LiveCount(parts[..i], grain, now)
    {
      assert parts[..i + 1][..i] == parts[..i];
      if !Expired(grain, parts[i].start, now) { live := live + 1; }
    }
    assert parts[..|parts|] == parts;
  }

  // ---------------------------------------------------------------- refusals reach the caller

  lemma {:induction false} PrefixRefusal(p: Posting, history: set<(Machine, User)>, now: int, machine: Machine,
                                         deltas: seq<Delta>, k: nat)
    requires k <= |deltas| && PostDeltas(p, history, now, machine, deltas[..k]).Err?
    ensures PostDeltas(p, history, now, machine, deltas) == PostDeltas(p, history, now, machine, deltas[..k])
    decreases |deltas| - k
  {
    if k == |deltas| {
      assert deltas[..k] == deltas;
    } else {
      assert deltas[..k + 1][..k] == deltas[..k];
      PrefixRefusal(p, history, now, machine, deltas, k + 1);
    }
  }

  lemma {:induction false} PartRefusal(buckets: Buckets, now: int, machine: Machine, d: Delta, grain: Grain,
                                       up: seq<Part>, down: seq<Part>, k: nat)
    requires k <= |up| == |down| && PostParts(buckets, now, machine, d, grain, up, down, k).Err?
    ensures PostParts(buckets, now, machine, d, grain, up, down, |up|)
            == PostParts(buckets, now, machine, d, grain, up, down, k)
    decreases |up| - k
  {
    if k < |up| { PartRefusal(buckets, now, machine, d, grain, up, down, k + 1); }
  }

  ghost predicate PostingError(e: Error) {
    e in {UnknownUser, BadInterval, OutsideBounds, BadBytes, TooManyBuckets, BucketOverflow}
  }

  lemma {:induction false} PartErrors(buckets: Buckets, now: int, machine: Machine, d: Delta, grain: Grain,
                                      up: seq<Part>, down: seq<Part>, k: nat)
    requires k <= |up| == |down|
    ensures var r := PostParts(buckets, now, machine, d, grain, up, down, k); r.Err? ==> r.error == BucketOverflow
  {
    if k > 0 { PartErrors(buckets, now, machine, d, grain, up, down, k - 1); }
  }

  lemma GrainErrors(p: Posting, now: int, machine: Machine, d: Delta, grain: Grain)
    requires Acceptable(d)
    ensures var r := PostGrain(p, now, machine, d, grain); r.Err? ==> PostingError(r.error)
  {
    hide RollUp;
    hide MinuteParts;
    PairedRollUps(d, grain);
    var up, down := RollUp(MinuteParts(d, Up), grain), RollUp(MinuteParts(d, Down), grain);
    PartErrors(p.buckets, now, machine, d, grain, up, down, |up|);
  }

  lemma {:induction false} DeltaErrors(p: Posting, history: set<(Machine, User)>, now: int, machine: Machine,
                                       deltas: seq<Delta>)
    ensures var r := PostDeltas(p, history, now, machine, deltas); r.Err? ==> PostingError(r.error)
  {
    hide PostGrain;
    if deltas != [] {
      var n := |deltas| - 1;
      var d := deltas[n];
      DeltaErrors(p, history, now, machine, deltas[..n]);
      var init := PostDeltas(p, history, now, machine, deltas[..n]);
      if init.Ok? && Inspect(history, machine, now, d).Ok? {
        GrainErrors(init.value, now, machine, d, Minute);
        var minutes := PostGrain(init.value, now, machine, d, Minute);
        if minutes.Ok? {
          GrainErrors(minutes.value, now, machine, d, Day);
          var days := PostGrain(minutes.value, now, machine, d, Day);
          if days.Ok? { GrainErrors(days.value, now, machine, d, Month); }
        }
      }
    }
  }

  /** Posting the deltas of a batch can fail, but never as a payload conflict. */
  lemma PostingErrors(p: Panel, machine: Machine, r: Request, setting: Setting)
    ensures var batch := Metadata(r.payload);
            batch.Ok? ==>
              var posted := PostDeltas(Posting(p.buckets, 0), p.history, setting.now, machine, batch.value.deltas);
              posted.Err? ==> PostingError(posted.error)
  {
    if Metadata(r.payload).Ok? {
      DeltaErrors(Posting(p.buckets, 0), p.history, setting.now, machine, Metadata(r.payload).value.deltas);
    }
  }

  lemma {:induction false} SameStartsRollUp(a: seq<Part>, b: seq<Part>, grain: Grain)
    requires |a| == |b| && forall i :: 0 <= i < |a| ==> a[i].start == b[i].start
    ensures FirstStarts(a, grain) == FirstStarts(b, grain)
  {
    hide BucketStart;
    if a != [] { SameStartsRollUp(a[..|a| - 1], b[..|b| - 1], grain); }
  }

  /** Upload and download roll up over the same buckets in the same order, so pairing
      them by index is sound. */
  lemma PairedRollUps(d: Delta, grain: Grain)
    requires Acceptable(d)
    ensures var up, down := RollUp(MinuteParts(d, Up), grain), RollUp(MinuteParts(d, Down), grain);
            |up| == |down| && forall i :: 0 <= i < |up| ==> up[i].start == down[i].start
  {
    hide BucketStart;
    hide Split;
    ModernSince1970(d.start);
    SplitsPair(d.start, d.end, d.upload, d.download, Minute);
    SameStartsRollUp(MinuteParts(d, Up), MinuteParts(d, Down), grain);
  }
}
