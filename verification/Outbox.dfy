/** The daemon's usage store (services/daemon/internal/state/usage.go): cursors over runtime
    counters and a bounded outbox of immutable, numbered batches. One stream is modelled. */
module Outbox {
  import opened Wrappers
  import opened UsageTypes
  import opened Batching
  import opened Collections

  const OUTBOX_BUDGET := 64 * 1024 * 1024
  const MAX_PAYLOAD := 1024 * 1024

  /** One user's cumulative counters as one runtime reports them. */
  datatype Counter = Counter(user: User, runtime: Runtime, upload: int, download: int,
                             observedAt: int, startedAt: int, final: bool)

  datatype Cursor = Cursor(runtime: Runtime, upload: int, download: int, observedAt: int, closed: bool)

  /** A stored batch; its payload hash identifies the batch and is not kept apart. */
  datatype Row = Row(batch: UsageBatch, size: nat)

  datatype Error = CounterRegression | Sequence | OutboxFull | NoStream

  type Result<T> = Fallible<T, Error>

  /** The committed content of the database for one stream. */
  datatype Store = Store(cursors: map<User, Cursor>, known: bool, nextSeq: int, committedSeq: int,
                         pendingBytes: int, recoveryIssue: string, rows: map<int, Row>)

  // ---------------------------------------------------------------- one counter

  /** managedInitialDelta: a managed runtime counts from zero at `startedAt`. */
  function ManagedInitialDelta(c: Counter, incomplete: bool): Result<seq<Delta>> {
    if c.startedAt == 0 || (c.upload == 0 && c.download == 0) then Ok([])
    else if c.startedAt >= c.observedAt || c.upload > MAX_INT64 - c.download then Err(CounterRegression)
    else Ok([Delta(c.user, c.startedAt, c.observedAt, c.upload, c.download, incomplete, true)])
  }

  function CursorOf(c: Counter): Cursor {
    Cursor(c.runtime, c.upload, c.download, c.observedAt, c.final)
  }

  datatype Step = Keep | Move(deltas: seq<Delta>) | Refuse

  /** What one counter does to its user's cursor: nothing, a move that emits deltas, or a
      refusal of the whole sample. */
  function Account(prior: Option<Cursor>, c: Counter): Step {
    match prior
    case None =>
      var first := ManagedInitialDelta(c, false);
      if first.Err? then Refuse else Move(first.value)
    case Some(o) =>
      if o.closed && o.runtime == c.runtime && !c.final then
        if c.observedAt <= o.observedAt && c.upload <= o.upload && c.download <= o.download then Keep else Refuse
      else if c.observedAt < o.observedAt then Refuse
      else if o.runtime == c.runtime then
        if c.upload < o.upload || c.download < o.download then Refuse
        else
          var upload, download := c.upload - o.upload, c.download - o.download;
          if (c.observedAt == o.observedAt && (upload != 0 || download != 0)) || upload > MAX_INT64 - download
          then Refuse
          else if upload != 0 || download != 0 then
            var estimated := c.observedAt - o.observedAt > 10_000;
            Move([Delta(c.user, o.observedAt, c.observedAt, upload, download, false, estimated)])
          else Move([])
      else
        var gapEnd := if c.startedAt > 0 then c.startedAt else c.observedAt;
        var gap := if !o.closed && gapEnd > o.observedAt
                   then [Delta(c.user, o.observedAt, gapEnd, 0, 0, true, true)] else [];
        var first := ManagedInitialDelta(c, !o.closed && c.startedAt > 0 && c.startedAt <= o.observedAt);
        if first.Err? then Refuse else Move(gap + first.value)
  }

  // ---------------------------------------------------------------- a whole sample

  /** The sampling loop's variables. */
  datatype Sampling = Sampling(cursors: map<User, Cursor>, deltas: seq<Delta>, seen: set<User>, runtime: Runtime)

  predicate Malformed(c: Counter, runtime: Runtime, seen: set<User>) {
    || c.runtime != runtime
    || c.user == "" || c.runtime == "" || c.upload < 0 || c.download < 0
    || c.observedAt < 0 || c.observedAt > MAX_SAFE_INTEGER
    || c.startedAt < 0 || c.startedAt > c.observedAt || c.user in seen
  }

  function Lookup(cursors: map<User, Cursor>, user: User): Option<Cursor> {
    if user in cursors then Some(cursors[user]) else None
  }

  function Sample(s: Sampling, c: Counter): Result<Sampling> {
    var runtime := if s.runtime == "" then c.runtime else s.runtime;
    if Malformed(c, runtime, s.seen) then Err(CounterRegression)
    else
      match Account(Lookup(s.cursors, c.user), c)
      case Refuse => Err(CounterRegression)
      case Keep => Ok(Sampling(s.cursors, s.deltas, s.seen + {c.user}, runtime))
      case Move(deltas) => Ok(Sampling(s.cursors[c.user := CursorOf(c)], s.deltas + deltas, s.seen + {c.user}, runtime))
  }

  ghost function SampleAll(cursors: map<User, Cursor>, counters: seq<Counter>): Result<Sampling> {
    if counters == [] then Ok(Sampling(cursors, [], {}, ""))
    else
      var init := SampleAll(cursors, counters[..|counters| - 1]);
      if init.Err? then init else Sample(init.value, counters[|counters| - 1])
  }

  /** The outbox while new batches are appended. */
  datatype Queue = Queue(rows: map<int, Row>, pendingBytes: int)

  function Enqueue(q: Queue, first: int, i: nat, batch: UsageBatch, size: nat): Result<Queue> {
    if i >= MAX_INT64 - first then Err(Sequence)
    else if size > MAX_PAYLOAD || q.pendingBytes > OUTBOX_BUDGET - size then Err(OutboxFull)
    else Ok(Queue(q.rows[first + i := Row(batch, size)], q.pendingBytes + size))
  }

  ghost function EnqueueAll(q: Queue, first: int, batches: seq<UsageBatch>, size: UsageBatch -> nat): Result<Queue> {
    if batches == [] then Ok(q)
    else
      var n := |batches| - 1;
      var init := EnqueueAll(q, first, batches[..n], size);
      if init.Err? then init else Enqueue(init.value, first, n, batches[n], size(batches[n]))
  }

  /** RecordSample as a function of the committed store: a new store, or a refusal that
      leaves the prior one. */
  ghost function Recorded(s: Store, counters: seq<Counter>, size: UsageBatch -> nat): Result<Store>
    requires CursorsOk(s.cursors)
  {
    var sampled := SampleAll(s.cursors, counters);
    if sampled.Err? then Err(sampled.error)
    else
      SampleEmits(s.cursors, counters);
      var batches := BatchesOf(sampled.value.runtime, sampled.value.deltas);
      var queued := EnqueueAll(Queue(s.rows, s.pendingBytes), s.nextSeq, batches, size);
      if queued.Err? then Err(queued.error)
      else Ok(Store(sampled.value.cursors, true, s.nextSeq + |batches|, s.committedSeq,
                    queued.value.pendingBytes, s.recoveryIssue, queued.value.rows))
  }

  function SizeOf(rows: map<int, Row>): map<int, int> {
    map k | k in rows :: rows[k].size
  }

  function UpTo(rows: map<int, Row>, n: int): map<int, Row> {
    map k | k in rows && k <= n :: rows[k]
  }

  function Beyond(rows: map<int, Row>, n: int): map<int, Row> {
    map k | k in rows && k > n :: rows[k]
  }

  /** AcknowledgeUsage as a function of the committed store. */
  ghost function Acknowledged(s: Store, upTo: int): Result<Store> {
    if !s.known then Err(NoStream)
    else if upTo < s.committedSeq || upTo >= s.nextSeq then Err(Sequence)
    else
      var size := Sum(SizeOf(UpTo(s.rows, upTo)));
      Ok(s.(rows := Beyond(s.rows, upTo), committedSeq := upTo,
            pendingBytes := if s.pendingBytes - size > 0 then s.pendingBytes - size else 0))
  }

  // ---------------------------------------------------------------- the store object

  class UsageStore {
    const size: UsageBatch -> nat
    var cursors: map<User, Cursor>
    var known: bool
    var nextSeq: int
    var committedSeq: int
    var pendingBytes: int
    var recoveryIssue: string
    var rows: map<int, Row>

    ghost function View(): Store
      reads this
    {
      Store(cursors, known, nextSeq, committedSeq, pendingBytes, recoveryIssue, rows)
    }

    constructor (size: UsageBatch -> nat)
      ensures this.size == size && View() == Empty() && Integrity(View())
    {
      this.size := size;
      cursors, known, nextSeq, committedSeq, pendingBytes, recoveryIssue, rows := map[], false, 1, 0, 0, "", map[];
    }

    /** The sampling loop: it reads the cursors and works on a tentative copy. */
    method Collect(counters: seq<Counter>) returns (result: Result<Sampling>)
      ensures result == SampleAll(cursors, counters)
    {
      var s := Sampling(cursors, [], {}, "");
      for i := 0 to |counters|
        invariant SampleAll(cursors, counters[..i]) == Ok(s)
      {
        assert counters[..i + 1][..i] == counters[..i];
        var next := Sample(s, counters[i]);
        if next.Err? {
          PrefixRefusal(cursors, counters, i + 1);
          return next;
        }
        s := next.value;
      }
      assert counters[..|counters|] == counters;
      result := Ok(s);
    }

    /** The numbering loop: it appends batches to a tentative copy of the outbox. */
    method Append(messages: seq<UsageBatch>) returns (result: Result<Queue>)
      ensures result == EnqueueAll(Queue(rows, pendingBytes), nextSeq, messages, size)
    {
      var q := Queue(rows, pendingBytes);
      for i := 0 to |messages|
        invariant EnqueueAll(Queue(rows, pendingBytes), nextSeq, messages[..i], size) == Ok(q)
      {
        assert messages[..i + 1][..i] == messages[..i];
        var next := Enqueue(q, nextSeq, i, messages[i], size(messages[i]));
        if next.Err? {
          PrefixOverflow(Queue(rows, pendingBytes), nextSeq, messages, size, i + 1);
          return next;
        }
        q := next.value;
      }
      assert messages[..|messages|] == messages;
      result := Ok(q);
    }

    /** One transaction: on any refusal the tentative cursors and rows are discarded. */
    method RecordSample(counters: seq<Counter>) returns (result: Result<nat>)
      requires CursorsOk(cursors)
      modifies this
      ensures result.Ok? ==> Recorded(old(View()), counters, size) == Ok(View())
      ensures result.Err? ==> Recorded(old(View()), counters, size) == Err(result.error) && View() == old(View())
    {
      hide SampleAll;
      hide EnqueueAll;
      hide BatchesOf;
      hide CursorsOk;
      var s := Collect(counters);
      if s.Err? { return Err(s.error); }
      SampleEmits(cursors, counters);
      var messages := BatchDeltas(s.value.runtime, s.value.deltas);
      var q := Append(messages);
      if q.Err? { return Err(q.error); }
      cursors, known := s.value.cursors, true;
      rows, pendingBytes, nextSeq := q.value.rows, q.value.pendingBytes, nextSeq + |messages|;
      result := Ok(|messages|);
    }

    /** The stored batch with the lowest number. */
    method NextBatch() returns (head: Option<(int, Row)>)
      ensures head.None? <==> rows == map[]
      ensures head.Some? ==> head.value.0 in rows && rows[head.value.0] == head.value.1
      ensures head.Some? ==> forall k :: k in rows ==> head.value.0 <= k
    {
      if rows == map[] { return None; }
      assert rows.Keys != {};
      var first := Pick(rows.Keys);
      var left := rows.Keys - {first};
      while left != {}
        invariant first in rows && left <= rows.Keys
        invariant forall k :: k in rows && k !in left ==> first <= k
        decreases left
      {
        var k := Pick(left);
        if k < first { first := k; }
        left := left - {k};
      }
      head := Some((first, rows[first]));
    }

    method AcknowledgeUsage(upTo: int) returns (result: Result<()>)
      modifies this
      ensures result.Ok? ==> Acknowledged(old(View()), upTo) == Ok(View())
      ensures result.Err? ==> Acknowledged(old(View()), upTo) == Err(result.error) && View() == old(View())
    {
      if !known { return Err(NoStream); }
      if upTo < committedSeq || upTo >= nextSeq { return Err(Sequence); }
      var size := TotalSize(UpTo(rows, upTo));
      rows := Beyond(rows, upTo);
      committedSeq := upTo;
      pendingBytes := if pendingBytes - size > 0 then pendingBytes - size else 0;
      result := Ok(());
    }

    method RequireUsageRecovery(message: string)
      modifies this`recoveryIssue
      ensures recoveryIssue == message
    {
      recoveryIssue := message;
    }
  }

  method TotalSize(rows: map<int, Row>) returns (total: int)
    ensures total == Sum(SizeOf(rows))
  {
    total := 0;
    var left := rows.Keys;
    assert (map k | k in left :: rows[k]) == rows;
    while left != {}
      invariant left <= rows.Keys
      invariant total + Sum(SizeOf(map k | k in left :: rows[k])) == Sum(SizeOf(rows))
      decreases left
    {
      var k := Pick(left);
      SumRemove(SizeOf(map j | j in left :: rows[j]), k);
      assert SizeOf(map j | j in left - {k} :: rows[j]) == SizeOf(map j | j in left :: rows[j]) - {k};
      total := total + rows[k].size;
      left := left - {k};
    }
    assert SizeOf(map k | k in left :: rows[k]) == map[];
  }

  function Empty(): Store { Store(map[], false, 1, 0, 0, "", map[]) }

  lemma {:induction false} PrefixRefusal(cursors: map<User, Cursor>, counters: seq<Counter>, k: nat)
    requires k <= |counters| && SampleAll(cursors, counters[..k]).Err?
    ensures SampleAll(cursors, counters) == SampleAll(cursors, counters[..k])
    decreases |counters| - k
  {
    if k == |counters| {
      assert counters[..k] == counters;
    } else {
      assert counters[..k + 1][..k] == counters[..k];
      PrefixRefusal(cursors, counters, k + 1);
    }
  }

  lemma {:induction false} PrefixOverflow(q: Queue, first: int, batches: seq<UsageBatch>, size: UsageBatch -> nat,
                                          k: nat)
    requires k <= |batches| && EnqueueAll(q, first, batches[..k], size).Err?
    ensures EnqueueAll(q, first, batches, size) == EnqueueAll(q, first, batches[..k], size)
    decreases |batches| - k
  {
    if k == |batches| {
      assert batches[..k] == batches;
    } else {
      assert batches[..k + 1][..k] == batches[..k];
      PrefixOverflow(q, first, batches, size, k + 1);
    }
  }

  // ---------------------------------------------------------------- invariants of the store

  ghost predicate CursorOk(c: Cursor) {
    0 <= c.upload && 0 <= c.download && 0 <= c.observedAt <= MAX_SAFE_INTEGER
  }

  ghost predicate CursorsOk(cursors: map<User, Cursor>) {
    forall u :: u in cursors ==> CursorOk(cursors[u])
  }

  /** The outbox holds exactly the numbers between the committed and the next sequence,
      its byte count is the size of those rows, and it stays within its budget. */
  ghost predicate Integrity(s: Store) {
    && CursorsOk(s.cursors)
    && 0 <= s.committedSeq < s.nextSeq
    && (s.nextSeq > 1 ==> s.known)
    && (forall k :: k in s.rows <==> s.committedSeq < k < s.nextSeq)
    && s.pendingBytes == Sum(SizeOf(s.rows)) <= OUTBOX_BUDGET
  }

  lemma RowAdded(rows: map<int, Row>, k: int, row: Row)
    requires k !in rows
    ensures Sum(SizeOf(rows[k := row])) == Sum(SizeOf(rows)) + row.size
  {
    SumUpdate(SizeOf(rows), k, row.size);
    assert SizeOf(rows[k := row]) == SizeOf(rows)[k := row.size];
  }

  lemma {:induction false} EnqueueAllOk(q: Queue, first: int, batches: seq<UsageBatch>, size: UsageBatch -> nat)
    requires EnqueueAll(q, first, batches, size).Ok?
    requires q.pendingBytes == Sum(SizeOf(q.rows)) <= OUTBOX_BUDGET
    requires forall k :: k in q.rows ==> k < first
    ensures var r := EnqueueAll(q, first, batches, size).value;
            && r.pendingBytes == Sum(SizeOf(r.rows)) <= OUTBOX_BUDGET
            && (forall k :: k in r.rows <==> k in q.rows || first <= k < first + |batches|)
            && (forall k :: k in q.rows ==> r.rows[k] == q.rows[k])
            && (forall k :: first <= k < first + |batches| ==>
                  r.rows[k] == Row(batches[k - first], size(batches[k - first])))
  {
    hide Sum;
    hide SizeOf;
    if batches != [] {
      var n := |batches| - 1;
      EnqueueAllOk(q, first, batches[..n], size);
      var m := EnqueueAll(q, first, batches[..n], size).value;
      RowAdded(m.rows, first + n, Row(batches[n], size(batches[n])));
    }
  }

  /** Every accepted sample keeps the outbox invariant, appends numbered batches after the
      stored ones and changes none of them. */
  lemma RecordedIntegrity(s: Store, counters: seq<Counter>, size: UsageBatch -> nat)
    requires Integrity(s) && Recorded(s, counters, size).Ok?
    ensures var t := Recorded(s, counters, size).value;
            && Integrity(t) && t.committedSeq == s.committedSeq && s.nextSeq <= t.nextSeq
            && t.recoveryIssue == s.recoveryIssue
            && forall k :: k in s.rows ==> k in t.rows && t.rows[k] == s.rows[k]
  {
    var sampled := SampleAll(s.cursors, counters);
    SampleEmits(s.cursors, counters);
    var batches := BatchesOf(sampled.value.runtime, sampled.value.deltas);
    EnqueueAllOk(Queue(s.rows, s.pendingBytes), s.nextSeq, batches, size);
  }

  /** The rows an accepted sample adds: the batches of its deltas under the next numbers. */
  lemma RecordedAppends(s: Store, counters: seq<Counter>, size: UsageBatch -> nat)
    requires Integrity(s) && Recorded(s, counters, size).Ok?
    ensures SampleAll(s.cursors, counters).Ok?
    ensures var t, sampled := Recorded(s, counters, size).value, SampleAll(s.cursors, counters).value;
            AllEmitted(sampled.deltas)
            && var batches := BatchesOf(sampled.runtime, sampled.deltas);
            && t.cursors == sampled.cursors && t.nextSeq == s.nextSeq + |batches|
            && (forall k :: k in t.rows <==> k in s.rows || s.nextSeq <= k < t.nextSeq)
            && (forall k :: k in s.rows ==> t.rows[k] == s.rows[k])
            && (forall k :: s.nextSeq <= k < t.nextSeq ==> t.rows[k].batch == batches[k - s.nextSeq])
  {
    hide SampleAll;
    hide BatchesOf;
    hide EnqueueAll;
    hide AllEmitted;
    hide CursorsOk;
    hide Sum;
    hide SizeOf;
    var sampled := SampleAll(s.cursors, counters).value;
    SampleEmits(s.cursors, counters);
    var batches := BatchesOf(sampled.runtime, sampled.deltas);
    var q := Queue(s.rows, s.pendingBytes);
    EnqueueAllOk(q, s.nextSeq, batches, size);
    var rows := EnqueueAll(q, s.nextSeq, batches, size).value.rows;
    assert Recorded(s, counters, size).value.rows == rows;
  }

  /** What the panel's structural limits ask of a batch. */
  ghost predicate Sendable(b: UsageBatch, size: UsageBatch -> nat) {
    && Fits(b) && (forall i :: 0 <= i < |b.deltas| ==> Sliced(b.deltas[i]))
    && b.runtime != "" && size(b) <= MAX_PAYLOAD
  }

  lemma {:induction false} EnqueueAllFits(q: Queue, first: int, batches: seq<UsageBatch>, size: UsageBatch -> nat)
    requires EnqueueAll(q, first, batches, size).Ok?
    ensures forall i :: 0 <= i < |batches| ==> size(batches[i]) <= MAX_PAYLOAD
    ensures batches != [] ==> first + |batches| <= MAX_INT64
  {
    if batches != [] {
      var n := |batches| - 1;
      EnqueueAllFits(q, first, batches[..n], size);
      forall i | 0 <= i < n ensures size(batches[i]) <= MAX_PAYLOAD { assert batches[..n][i] == batches[i]; }
    }
  }

  /** Every row an accepted sample adds can be sent, under a number within int64. */
  lemma RecordedSendable(s: Store, counters: seq<Counter>, size: UsageBatch -> nat, k: int)
    requires Integrity(s) && Recorded(s, counters, size).Ok?
    requires s.nextSeq <= k < Recorded(s, counters, size).value.nextSeq
    ensures var t := Recorded(s, counters, size).value;
            && k < MAX_INT64 && k in t.rows && Sendable(t.rows[k].batch, size)
            && counters != [] && t.rows[k].batch.runtime == counters[0].runtime
  {
    hide SampleAll;
    hide BatchesOf;
    hide EnqueueAll;
    hide Fits;
    hide Sliced;
    RecordedAppends(s, counters, size);
    AcceptedCovers(s.cursors, counters);
    var sampled := SampleAll(s.cursors, counters).value;
    BatchesExact(sampled.runtime, sampled.deltas, "", Up);
    EnqueueAllFits(Queue(s.rows, s.pendingBytes), s.nextSeq, BatchesOf(sampled.runtime, sampled.deltas), size);
    if counters == [] { NoSample(s.cursors, counters); NothingToBatch(sampled.runtime); }
  }

  lemma NoSample(cursors: map<User, Cursor>, counters: seq<Counter>)
    requires counters == []
    ensures SampleAll(cursors, counters) == Ok(Sampling(cursors, [], {}, ""))
  {}

  lemma SplitRemove(rows: map<int, Row>, upTo: int, j: int)
    requires j in rows
    ensures UpTo(rows - {j}, upTo) == UpTo(rows, upTo) - {j} && Beyond(rows - {j}, upTo) == Beyond(rows, upTo) - {j}
    ensures SizeOf(rows - {j}) == SizeOf(rows) - {j}
  {}

  lemma SumWithout(rows: map<int, Row>, j: int)
    ensures Sum(SizeOf(rows)) == Sum(SizeOf(rows - {j})) + if j in rows then rows[j].size else 0
  {
    if j in rows {
      SumRemove(SizeOf(rows), j);
      assert SizeOf(rows - {j}) == SizeOf(rows) - {j};
    } else {
      assert rows - {j} == rows;
    }
  }

  lemma {:induction false} SumSplit(rows: map<int, Row>, upTo: int)
    ensures Sum(SizeOf(rows)) == Sum(SizeOf(UpTo(rows, upTo)))
                                 + Sum(SizeOf(Beyond(rows, upTo)))
    decreases |rows|
  {
    if rows == map[] {
      assert UpTo(rows, upTo) == rows && Beyond(rows, upTo) == rows && SizeOf(rows) == map[];
    } else {
      hide Sum;
      hide SizeOf;
      var j := Witness(rows.Keys) by { assert rows.Keys != {}; }
      SumSplit(rows - {j}, upTo);
      SplitRemove(rows, upTo, j);
      SumWithout(rows, j);
      SumWithout(UpTo(rows, upTo), j);
      SumWithout(Beyond(rows, upTo), j);
    }
  }

  /** Every accepted acknowledgement keeps the invariant; the byte count never has to be
      clamped at zero. */
  lemma AcknowledgedIntegrity(s: Store, upTo: int)
    requires Integrity(s) && Acknowledged(s, upTo).Ok?
    ensures Integrity(Acknowledged(s, upTo).value)
    ensures Sum(SizeOf(UpTo(s.rows, upTo))) <= s.pendingBytes
  {
    SumSplit(s.rows, upTo);
    SumNonNegative(SizeOf(Beyond(s.rows, upTo)));
    SumNonNegative(SizeOf(UpTo(s.rows, upTo)));
  }

  // ---------------------------------------------------------------- sampling telescopes

  /** Cumulative bytes of a cursor, none when there is no cursor. */
  ghost function Reading(c: Option<Cursor>, dir: Direction): int {
    if c.None? then 0 else if dir == Up then c.value.upload else c.value.download
  }

  /** For a managed runtime the emitted bytes are exactly how far the user's reading has
      moved within that runtime; a new runtime starts from zero. */
  lemma AccountTelescopes(prior: Option<Cursor>, c: Counter, user: User, dir: Direction)
    requires c.startedAt > 0 && Account(prior, c).Move?
    ensures UserBytes(Account(prior, c).deltas, user, dir)
            == if user != c.user then 0
               else Reading(Some(CursorOf(c)), dir)
                    - if prior.Some? && prior.value.runtime == c.runtime then Reading(prior, dir) else 0
  {
    hide UserBytes;
    FewBytes(Account(prior, c).deltas, user, dir);
  }

  lemma FewBytes(d: seq<Delta>, user: User, dir: Direction)
    requires |d| <= 2
    ensures UserBytes(d, user, dir)
            == (if |d| > 0 && d[0].user == user then Bytes(d[0], dir) else 0)
               + (if |d| > 1 && d[1].user == user then Bytes(d[1], dir) else 0)
  {
    if |d| == 1 {
      UserBytesOne(d[0], user, dir);
      assert d == [d[0]];
    } else if |d| == 2 {
      UserBytesOne(d[0], user, dir);
      UserBytesOne(d[1], user, dir);
      UserBytesConcat([d[0]], [d[1]], user, dir);
      assert d == [d[0]] + [d[1]];
    }
  }

  lemma AccountEmits(prior: Option<Cursor>, c: Counter, runtime: Runtime, seen: set<User>)
    requires !Malformed(c, runtime, seen) && Account(prior, c).Move?
    requires prior.Some? ==> CursorOk(prior.value)
    ensures AllEmitted(Account(prior, c).deltas) && CursorOk(CursorOf(c))
  {}

  /** Everything a sample emits is a well-formed interval with int64 byte counts. */
  lemma {:induction false} SampleEmits(cursors: map<User, Cursor>, counters: seq<Counter>)
    requires CursorsOk(cursors) && SampleAll(cursors, counters).Ok?
    ensures var s := SampleAll(cursors, counters).value;
            AllEmitted(s.deltas) && Ordered(s.deltas) && CursorsOk(s.cursors)
            && s.seen == Users(counters)
  {
    hide Account;
    hide Users;
    if counters != [] {
      var n := |counters| - 1;
      var c, before := counters[n], SampleAll(cursors, counters[..n]);
      SampleEmits(cursors, counters[..n]);
      var runtime := if before.value.runtime == "" then c.runtime else before.value.runtime;
      var step := Account(Lookup(before.value.cursors, c.user), c);
      if step.Move? { AccountEmits(Lookup(before.value.cursors, c.user), c, runtime, before.value.seen); }
      UsersExtend(counters);
    } else {
      NoUsers();
    }
  }

  lemma NoUsers()
    ensures Users([]) == {}
  {}

  /** Where a user's cursor stands relative to a sample's start. */
  ghost function Progress(before: map<User, Cursor>, after: map<User, Cursor>, user: User, dir: Direction): int {
    Reading(Lookup(after, user), dir)
    - if user in before && user in after && before[user].runtime == after[user].runtime
      then Reading(Lookup(before, user), dir) else 0
  }

  /** Sampling telescopes: the bytes a sample of a managed runtime emits for a user equal
      the progress of that user's cursor; users it does not mention keep theirs. */
  lemma {:induction false} SampleTelescopes(cursors: map<User, Cursor>, counters: seq<Counter>, user: User,
                                            dir: Direction)
    requires SampleAll(cursors, counters).Ok?
    requires forall i :: 0 <= i < |counters| ==> counters[i].startedAt > 0
    ensures var s := SampleAll(cursors, counters).value;
            && UserBytes(s.deltas, user, dir)
               == (if user in s.cursors then Progress(cursors, s.cursors, user, dir) else 0)
            && (user !in s.seen ==> Lookup(s.cursors, user) == Lookup(cursors, user))
            && (user in s.cursors ==> user in cursors || user in s.seen)
            && (user in cursors ==> user in s.cursors)
  {
    hide Account;
    if counters != [] {
      var n := |counters| - 1;
      var c, before := counters[n], SampleAll(cursors, counters[..n]).value;
      SampleTelescopes(cursors, counters[..n], user, dir);
      var step := Account(Lookup(before.cursors, c.user), c);
      if step.Move? {
        AccountTelescopes(Lookup(before.cursors, c.user), c, user, dir);
        UserBytesConcat(before.deltas, step.deltas, user, dir);
      }
    }
  }

  // ---------------------------------------------------------------- retries

  /** A counter the stored cursor already covers. */
  ghost predicate Covered(cursors: map<User, Cursor>, c: Counter) {
    && c.user in cursors
    && (cursors[c.user] == CursorOf(c)
        || (&& cursors[c.user].closed && cursors[c.user].runtime == c.runtime && !c.final
            && c.observedAt <= cursors[c.user].observedAt
            && c.upload <= cursors[c.user].upload && c.download <= cursors[c.user].download))
  }

  /** A sample whose counters are well-formed, of one runtime and one per user. */
  ghost predicate Regular(counters: seq<Counter>) {
    && (forall i :: 0 <= i < |counters| ==> !Malformed(counters[i], counters[0].runtime, {}))
    && (forall i, j :: 0 <= i < j < |counters| ==> counters[i].user != counters[j].user)
  }

  ghost function Users(counters: seq<Counter>): set<User> {
    set i | 0 <= i < |counters| :: counters[i].user
  }

  lemma UsersExtend(counters: seq<Counter>)
    requires counters != []
    ensures Users(counters) == Users(counters[..|counters| - 1]) + {counters[|counters| - 1].user}
  {
    var n := |counters| - 1;
    forall u | u in Users(counters) ensures u in Users(counters[..n]) + {counters[n].user} {
      var i :| 0 <= i < |counters| && counters[i].user == u;
      if i < n { assert counters[..n][i].user == u; }
    }
    forall u | u in Users(counters[..n]) ensures u in Users(counters) {
      var i :| 0 <= i < n && counters[..n][i].user == u;
      assert counters[i].user == u;
    }
  }

  lemma RegularEmpty()
    ensures Regular([])
  {}

  lemma RegularExtend(counters: seq<Counter>)
    requires counters != []
    ensures var n := |counters| - 1;
            Regular(counters) <==> && Regular(counters[..n])
                                   && !Malformed(counters[n], counters[0].runtime, {})
                                   && counters[n].user !in Users(counters[..n])
  {
    var n := |counters| - 1;
    var init := counters[..n];
    if Regular(counters) {
      forall i | 0 <= i < n ensures !Malformed(init[i], init[0].runtime, {}) {
        assert !Malformed(counters[i], counters[0].runtime, {});
      }
    }
    if Regular(init) && counters[n].user !in Users(init) && !Malformed(counters[n], counters[0].runtime, {}) {
      forall i | 0 <= i < n
        ensures !Malformed(counters[i], counters[0].runtime, {}) && counters[i].user != counters[n].user
      {
        assert !Malformed(init[i], init[0].runtime, {});
        assert init[i].user in Users(init);
      }
    }
  }

  lemma AcceptedStep(before: Sampling, c: Counter, after: Sampling)
    requires Sample(before, c) == Ok(after)
    ensures !Malformed(c, after.runtime, {}) && c.user !in before.seen && Covered(after.cursors, c)
    ensures after.seen == before.seen + {c.user}
    ensures after.runtime == c.runtime != ""
    ensures before.runtime != "" ==> after.runtime == before.runtime
    ensures forall u :: u != c.user ==> Lookup(after.cursors, u) == Lookup(before.cursors, u)
  {}

  lemma CoveredFrame(a: map<User, Cursor>, b: map<User, Cursor>, c: Counter)
    requires Covered(a, c) && Lookup(a, c.user) == Lookup(b, c.user)
    ensures Covered(b, c)
  {}

  /** An accepted sample is regular and leaves cursors that cover all its counters. */
  lemma {:induction false} AcceptedCovers(cursors: map<User, Cursor>, counters: seq<Counter>)
    requires SampleAll(cursors, counters).Ok?
    ensures Regular(counters)
    ensures SampleAll(cursors, counters).value.seen == Users(counters)
    ensures forall i :: 0 <= i < |counters| ==> Covered(SampleAll(cursors, counters).value.cursors, counters[i])
    ensures SampleAll(cursors, counters).value.runtime == if counters == [] then "" else counters[0].runtime
    ensures counters != [] ==> counters[0].runtime != ""
  {
    hide Sample;
    hide Malformed;
    hide Covered;
    hide Lookup;
    hide Regular;
    if counters != [] {
      var n := |counters| - 1;
      var init, c := counters[..n], counters[n];
      AcceptedCovers(cursors, init);
      var before, after := SampleAll(cursors, init).value, SampleAll(cursors, counters).value;
      RegularExtend(counters);
      UsersExtend(counters);
      AcceptedStep(before, c, after);
      forall i | 0 <= i < n ensures Covered(after.cursors, counters[i]) {
        assert Covered(before.cursors, init[i]);
        assert init[i].user in Users(init);
        CoveredFrame(before.cursors, after.cursors, counters[i]);
      }
    } else {
      assert Users(counters) == {};
      RegularEmpty();
    }
  }

  lemma SampleMoves(s: Sampling, c: Counter)
    requires Sample(s, c).Ok?
    ensures var step := Account(Lookup(s.cursors, c.user), c);
            && step != Refuse && c.user !in s.seen
            && Lookup(Sample(s, c).value.cursors, c.user)
               == if step.Keep? then Lookup(s.cursors, c.user) else Some(CursorOf(c))
  {
    hide Account;
  }

  lemma SampleSpares(s: Sampling, c: Counter, user: User)
    requires Sample(s, c).Ok? && user != c.user
    ensures Lookup(Sample(s, c).value.cursors, user) == Lookup(s.cursors, user)
  {
    hide Account;
  }

  /** What an accepted sample does to one user's cursor depends on that user's counter alone. */
  lemma {:induction false} CursorOutcome(cursors: map<User, Cursor>, counters: seq<Counter>, i: nat)
    requires SampleAll(cursors, counters).Ok? && i < |counters|
    ensures var after, c := SampleAll(cursors, counters).value.cursors, counters[i];
            var step := Account(Lookup(cursors, c.user), c);
            && step != Refuse
            && Lookup(after, c.user) == if step.Keep? then Lookup(cursors, c.user) else Some(CursorOf(c))
  {
    hide Account;
    hide Sample;
    hide Lookup;
    var n := |counters| - 1;
    var init := counters[..n];
    var before := SampleAll(cursors, init).value;
    SampleMoves(before, counters[n]);
    if i < n {
      CursorOutcome(cursors, init, i);
      SeenBefore(cursors, init, i);
      SampleSpares(before, counters[n], counters[i].user);
    } else {
      Untouched(cursors, init, counters[n].user);
    }
  }

  lemma SeenBefore(cursors: map<User, Cursor>, counters: seq<Counter>, i: nat)
    requires SampleAll(cursors, counters).Ok? && i < |counters|
    ensures counters[i].user in SampleAll(cursors, counters).value.seen
  {
    hide SampleAll;
    AcceptedCovers(cursors, counters);
  }

  lemma {:induction false} Untouched(cursors: map<User, Cursor>, counters: seq<Counter>, user: User)
    requires SampleAll(cursors, counters).Ok? && user !in SampleAll(cursors, counters).value.seen
    ensures Lookup(SampleAll(cursors, counters).value.cursors, user) == Lookup(cursors, user)
  {
    hide Account;
    if counters != [] { Untouched(cursors, counters[..|counters| - 1], user); }
  }

  lemma CoveredKeeps(cursors: map<User, Cursor>, c: Counter)
    requires Covered(cursors, c) && !Malformed(c, c.runtime, {})
    ensures var step := Account(Lookup(cursors, c.user), c);
            step.Keep? || (step == Move([]) && cursors[c.user := CursorOf(c)] == cursors)
  {}

  lemma {:induction false} CoveredSample(cursors: map<User, Cursor>, counters: seq<Counter>)
    requires Regular(counters)
    requires forall i :: 0 <= i < |counters| ==> Covered(cursors, counters[i])
    ensures SampleAll(cursors, counters)
            == Ok(Sampling(cursors, [], Users(counters), if counters == [] then "" else counters[0].runtime))
  {
    hide Account;
    hide Covered;
    if counters != [] {
      var n := |counters| - 1;
      RegularExtend(counters);
      UsersExtend(counters);
      CoveredSample(cursors, counters[..n]);
      CoveredKeeps(cursors, counters[n]);
      assert !Malformed(counters[0], counters[0].runtime, {});
      assert !Malformed(counters[n], counters[0].runtime, Users(counters[..n]));
      var nothing: seq<Delta> := [];
      assert nothing + nothing == nothing;
    } else {
      assert Users(counters) == {};
    }
  }

  /** Recording is idempotent: a sample that was accepted can be recorded again, as after
      a lost reply, and then changes nothing at all. */
  lemma ReplayIsIdle(s: Store, counters: seq<Counter>, size: UsageBatch -> nat)
    requires Integrity(s) && Recorded(s, counters, size).Ok?
    ensures var t := Recorded(s, counters, size).value;
            CursorsOk(t.cursors) && Recorded(t, counters, size) == Ok(t)
  {
    hide Covered;
    hide Regular;
    hide BatchesOf;
    hide EnqueueAll;
    hide SampleAll;
    var t := Recorded(s, counters, size).value;
    SampleEmits(s.cursors, counters);
    AcceptedCovers(s.cursors, counters);
    CoveredSample(t.cursors, counters);
    NothingRecorded(t, counters, size);
  }

  /** A sample that emits nothing and moves no cursor leaves the store as it is. */
  lemma NothingRecorded(s: Store, counters: seq<Counter>, size: UsageBatch -> nat)
    requires CursorsOk(s.cursors) && s.known && SampleAll(s.cursors, counters).Ok?
    requires var sampled := SampleAll(s.cursors, counters).value; sampled.cursors == s.cursors && sampled.deltas == []
    ensures Recorded(s, counters, size) == Ok(s)
  {
    hide SampleAll;
    hide CursorsOk;
    NothingToBatch(SampleAll(s.cursors, counters).value.runtime);
  }

  lemma NothingToBatch(runtime: Runtime)
    ensures BatchesOf(runtime, []) == []
  {}

  /** A periodic sample that arrives after its runtime's final one is accepted and emits
      nothing, whatever its older readings say. */
  lemma LateSampleIsIdle(s: Store, counters: seq<Counter>, size: UsageBatch -> nat)
    requires Integrity(s) && s.known && Regular(counters)
    requires forall i :: 0 <= i < |counters| ==>
      Covered(s.cursors, counters[i]) && s.cursors[counters[i].user].closed && !counters[i].final
    ensures Recorded(s, counters, size) == Ok(s)
  {
    hide SampleAll;
    hide BatchesOf;
    CoveredSample(s.cursors, counters);
    NothingRecorded(s, counters, size);
  }
}
