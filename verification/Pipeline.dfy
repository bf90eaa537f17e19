/** The metering protocol end to end: a daemon that samples counters into its outbox and
    replays the head of it (services/daemon/internal/panelclient/usage.go), a network that
    loses, repeats and delays messages, and the panel's ledger. Every event is one
    committed transaction or one message; a crash between events loses the pending call. */
module Pipeline {
  import opened Wrappers
  import opened UsageTypes
  import opened Collections
  import opened Batching
  import O = Outbox
  import L = Ledger
  import P = LedgerProofs
  import R = Receiver

  /** One machine's binding to the panel, and the encoded size of its batches. */
  datatype Site = Site(machine: L.Machine, installation: string, stream: string, size: UsageBatch -> nat)

  datatype Message = Message(sequence: int, batch: UsageBatch)

  /** A reply to the call for one sequence number. */
  datatype Response = Response(sequence: int, committed: int)

  datatype Reading = Reading(upload: int, download: int)

  /** The daemon's store, the panel's database and the messages in flight. `issued` and
      `recorded` are history: every batch ever numbered, and the last accepted counters
      of every user and runtime. */
  datatype System = System(store: O.Store, panel: L.Panel, clock: int,
                           call: Option<int>, requests: set<Message>, responses: set<Response>,
                           issued: map<int, UsageBatch>, recorded: map<User, map<Runtime, Reading>>)

  datatype Event =
    | Sample(counters: seq<O.Counter>)
    | Call
    | Deliver(message: Message, setting: L.Setting)
    | Answer(response: Response)
    | GiveUp
    | Elsewhere(machine: L.Machine, request: L.Request, setting: L.Setting)
    | Enroll(machine: L.Machine, user: User)
    | Clean(now: int, left: L.Buckets)

  // ---------------------------------------------------------------- events

  function RequestOf(site: Site, m: Message): L.Request {
    var payload := L.Encoded(m.batch);
    L.Request(site.installation, site.stream, true, m.sequence, payload, site.size(m.batch), payload)
  }

  function StreamOf(site: Site): L.StreamKey {
    L.StreamKey(site.machine, site.installation, site.stream)
  }

  function History(recorded: map<User, map<Runtime, Reading>>, user: User): map<Runtime, Reading> {
    if user in recorded then recorded[user] else map[]
  }

  /** The counters come from managed runtimes, whose identifiers are short, and a runtime that
      a user's cursor has left is never heard of again: identifiers are not reused. */
  ghost predicate Managed(s: System, counters: seq<O.Counter>) {
    forall i :: 0 <= i < |counters| ==>
      var c := counters[i];
      && c.startedAt > 0 && |c.runtime| <= 256
      && (c.user in s.store.cursors && s.store.cursors[c.user].runtime != c.runtime ==>
            c.runtime !in History(s.recorded, c.user))
  }

  function ReadingOf(c: O.Cursor): Reading { Reading(c.upload, c.download) }

  /** The history after the cursors of `users` have moved. */
  ghost function Logged(recorded: map<User, map<Runtime, Reading>>, cursors: map<User, O.Cursor>, users: set<User>)
    : map<User, map<Runtime, Reading>>
  {
    map u | u in recorded.Keys + (users * cursors.Keys) ::
      if u in users && u in cursors then History(recorded, u)[cursors[u].runtime := ReadingOf(cursors[u])]
      else recorded[u]
  }

  /** The history after new rows have been numbered. */
  ghost function Issued(issued: map<int, UsageBatch>, rows: map<int, O.Row>): map<int, UsageBatch> {
    map k | k in issued.Keys + rows.Keys :: if k in issued then issued[k] else rows[k].batch
  }

  /** The lowest number in the outbox. */
  ghost predicate Head(store: O.Store, head: int) {
    head in store.rows && forall k :: k in store.rows ==> head <= k
  }

  ghost function Called(s: System, head: int): System
    requires Head(s.store, head)
  {
    s.(call := Some(head), requests := s.requests + {Message(head, s.store.rows[head].batch)})
  }

  ghost predicate Step(site: Site, s: System, e: Event, t: System) {
    match e
    case Sample(counters) =>
      && O.CursorsOk(s.store.cursors) && Managed(s, counters)
      && var r := O.Recorded(s.store, counters, site.size);
         if r.Err? then t == s
         else t == s.(store := r.value, issued := Issued(s.issued, r.value.rows),
                      recorded := Logged(s.recorded, r.value.cursors, O.Users(counters)))
    case Call =>
      && s.store.recoveryIssue == ""
      && (exists head :: (Head(s.store, head) && t == Called(s, head)))
    case Deliver(m, setting) =>
      && m in s.requests && s.clock <= setting.now
      && var (panel, reply) := L.Reported(s.panel, site.machine, RequestOf(site, m), setting);
         t == s.(panel := panel, clock := setting.now,
                 responses := if reply.Ok? then s.responses + {Response(m.sequence, reply.value.committed)}
                              else s.responses)
    case Answer(response) =>
      && response in s.responses && s.call == Some(response.sequence)
      && if response.committed < response.sequence
         then t == s.(call := None, store := s.store.(recoveryIssue := "usage stream requires recovery"))
         else
           var r := O.Acknowledged(s.store, response.committed);
           t == s.(call := None, store := if r.Ok? then r.value else s.store)
    case GiveUp => t == s.(call := None)
    case Elsewhere(machine, request, setting) =>
      && machine != site.machine && s.clock <= setting.now
      && t == s.(panel := L.Reported(s.panel, machine, request, setting).0, clock := setting.now)
    case Enroll(machine, user) => t == s.(panel := s.panel.(history := s.panel.history + {(machine, user)}))
    case Clean(now, left) =>
      && s.clock <= now && L.Cleaned(s.panel.buckets, left, now)
      && t == s.(panel := s.panel.(buckets := left), clock := now)
  }

  ghost predicate Initial(s: System) {
    && s.store == O.Empty() && s.panel.buckets == map[] && s.panel.streams == map[]
    && s.call == None && s.requests == {} && s.responses == {} && s.issued == map[] && s.recorded == map[]
  }

  // ---------------------------------------------------------------- invariant

  ghost function IssuedBytes(issued: map<int, UsageBatch>, n: int, user: User, dir: Direction): int
    decreases n
  {
    if n <= 0 then 0
    else IssuedBytes(issued, n - 1, user, dir) + if n in issued then UserBytes(issued[n].deltas, user, dir) else 0
  }

  function Part(r: Reading, dir: Direction): int {
    if dir == Up then r.upload else r.download
  }

  ghost function Readings(history: map<Runtime, Reading>, dir: Direction): map<Runtime, int> {
    map rt | rt in history :: Part(history[rt], dir)
  }

  /** A user's last recorded counters, added up over all runtimes. */
  ghost function RecordedBytes(recorded: map<User, map<Runtime, Reading>>, user: User, dir: Direction): int {
    Sum(Readings(History(recorded, user), dir))
  }

  /** The daemon side: outbox rows are the issued batches that are not yet committed. */
  ghost predicate StoreInv(store: O.Store, issued: map<int, UsageBatch>) {
    && O.Integrity(store)
    && store.recoveryIssue == ""
    && (forall k :: k in issued <==> 1 <= k < store.nextSeq)
    && (forall k :: k in store.rows ==> store.rows[k].batch == issued[k])
  }

  /** The cursors hold the latest entry of the history. */
  ghost predicate HistoryInv(cursors: map<User, O.Cursor>, recorded: map<User, map<Runtime, Reading>>) {
    && (forall u :: u in recorded <==> u in cursors)
    && (forall u :: u in cursors ==>
          cursors[u].runtime in recorded[u] && recorded[u][cursors[u].runtime] == ReadingOf(cursors[u]))
  }

  /** The network only carries issued batches, and only the head of the outbox is ever new. */
  ghost predicate NetworkInv(site: Site, s: System) {
    var committed := L.Committed(s.panel.streams, StreamOf(site));
    && s.store.committedSeq <= committed <= s.store.committedSeq + 1
    && committed < s.store.nextSeq
    && (forall m :: m in s.requests ==>
          m.sequence in s.issued && m.batch == s.issued[m.sequence] && m.sequence <= s.store.committedSeq + 1)
    && (forall r :: r in s.responses ==> r.sequence <= r.committed <= committed)
    && (s.call.Some? ==> s.call.value == s.store.committedSeq + 1 && s.call.value < s.store.nextSeq)
    && (StreamOf(site) in s.panel.streams ==> 0 < committed)
    && (0 < committed ==>
          committed in s.issued && s.panel.streams[StreamOf(site)].last == L.Encoded(s.issued[committed]))
  }

  /** A batch the panel's structural limits admit, under a number within int64. */
  ghost predicate Wire(site: Site, k: int, b: UsageBatch) {
    1 <= k < MAX_INT64 && O.Sendable(b, site.size) && |b.runtime| <= 256
  }

  ghost predicate WireInv(site: Site, issued: map<int, UsageBatch>) {
    forall k :: k in issued ==> Wire(site, k, issued[k])
  }

  /** The month ledger holds exactly the bytes of the committed batches. */
  ghost predicate Charged(site: Site, panel: L.Panel, issued: map<int, UsageBatch>) {
    forall user, dir :: P.MonthTotal(panel.buckets, user, site.machine, dir)
                        == IssuedBytes(issued, L.Committed(panel.streams, StreamOf(site)), user, dir)
  }

  /** The issued batches hold exactly the recorded bytes. */
  ghost predicate Booked(issued: map<int, UsageBatch>, last: int, recorded: map<User, map<Runtime, Reading>>) {
    forall user, dir :: IssuedBytes(issued, last, user, dir) == RecordedBytes(recorded, user, dir)
  }

  ghost predicate Inv(site: Site, s: System) {
    && StoreInv(s.store, s.issued) && HistoryInv(s.store.cursors, s.recorded)
    && NetworkInv(site, s) && WireInv(site, s.issued)
    && Charged(site, s.panel, s.issued) && Booked(s.issued, s.store.nextSeq - 1, s.recorded)
    && P.Coherent(s.panel.buckets, s.clock)
  }

  lemma InitialInv(site: Site, s: System)
    requires Initial(s)
    ensures Inv(site, s)
  {
    assert O.SizeOf(s.store.rows) == map[];
    P.EmptyCoherent(s.clock);
    forall user, dir
      ensures P.MonthTotal(s.panel.buckets, user, site.machine, dir) == 0 && RecordedBytes(s.recorded, user, dir) == 0
    {
      assert P.Amounts(s.panel.buckets, P.Filter(P.Calendar.Month, user, site.machine, P.Any), dir) == map[];
      assert Readings(History(s.recorded, user), dir) == map[];
    }
  }

  // ---------------------------------------------------------------- sampling

  lemma {:induction false} IssuedFrame(a: map<int, UsageBatch>, b: map<int, UsageBatch>, n: int, user: User,
                                       dir: Direction)
    requires forall k :: 1 <= k <= n ==> (k in a <==> k in b) && (k in a ==> a[k] == b[k])
    ensures IssuedBytes(a, n, user, dir) == IssuedBytes(b, n, user, dir)
    decreases n
  {
    hide UserBytes;
    if 0 < n { IssuedFrame(a, b, n - 1, user, dir); }
  }

  lemma {:induction false} IssuedAppend(issued: map<int, UsageBatch>, n: nat, batches: seq<UsageBatch>, k: nat,
                                        user: User, dir: Direction)
    requires k <= |batches|
    requires forall j :: n < j <= n + |batches| ==> j in issued && issued[j] == batches[j - n - 1]
    ensures IssuedBytes(issued, n + k, user, dir)
            == IssuedBytes(issued, n, user, dir) + UserBytes(Flatten(batches[..k]), user, dir)
  {
    hide UserBytes;
    if k > 0 {
      IssuedAppend(issued, n, batches, k - 1, user, dir);
      assert batches[..k][..k - 1] == batches[..k - 1];
      UserBytesConcat(Flatten(batches[..k - 1]), batches[k - 1].deltas, user, dir);
    } else {
      NoBytes(user, dir);
    }
  }

  lemma NoBytes(user: User, dir: Direction)
    ensures UserBytes([], user, dir) == 0
  {}

  /** An accepted sample extends the history by the rows it adds. */
  lemma SampleRows(store: O.Store, counters: seq<O.Counter>, size: UsageBatch -> nat, issued: map<int, UsageBatch>)
    requires O.Integrity(store) && O.Recorded(store, counters, size).Ok?
    requires forall k :: k in issued <==> 1 <= k < store.nextSeq
    requires forall k :: k in store.rows ==> store.rows[k].batch == issued[k]
    ensures var t := O.Recorded(store, counters, size).value;
            var after := Issued(issued, t.rows);
            && (forall k :: k in after <==> 1 <= k < t.nextSeq)
            && (forall k :: k in t.rows ==> t.rows[k].batch == after[k])
            && (forall k :: k in issued ==> after[k] == issued[k])
  {
    hide BatchesOf;
    hide O.SampleAll;
    hide O.Recorded;
    O.RecordedAppends(store, counters, size);
  }

  /** What an accepted sample puts into the outbox: the bytes of its deltas. */
  lemma SampleBytes(store: O.Store, counters: seq<O.Counter>, size: UsageBatch -> nat, issued: map<int, UsageBatch>,
                    user: User, dir: Direction)
    requires O.Integrity(store) && O.Recorded(store, counters, size).Ok?
    requires forall k :: k in issued <==> 1 <= k < store.nextSeq
    requires forall k :: k in store.rows ==> store.rows[k].batch == issued[k]
    ensures O.SampleAll(store.cursors, counters).Ok?
    ensures var t := O.Recorded(store, counters, size).value;
            IssuedBytes(Issued(issued, t.rows), t.nextSeq - 1, user, dir)
            == IssuedBytes(issued, store.nextSeq - 1, user, dir)
               + UserBytes(O.SampleAll(store.cursors, counters).value.deltas, user, dir)
  {
    hide BatchesOf;
    hide O.SampleAll;
    hide O.Recorded;
    hide UserBytes;
    hide IssuedBytes;
    hide Flatten;
    O.RecordedAppends(store, counters, size);
    SampleRows(store, counters, size, issued);
    var t, sampled := O.Recorded(store, counters, size).value, O.SampleAll(store.cursors, counters).value;
    var batches := BatchesOf(sampled.runtime, sampled.deltas);
    var after := Issued(issued, t.rows);
    var n := store.nextSeq - 1;
    IssuedFrame(after, issued, n, user, dir);
    IssuedAppend(after, n, batches, |batches|, user, dir);
    assert batches[..|batches|] == batches;
    BatchesExact(sampled.runtime, sampled.deltas, user, dir);
  }

  /** The history grows by exactly the progress of the cursors. */
  lemma LoggedProgress(s: System, counters: seq<O.Counter>, user: User, dir: Direction)
    requires HistoryInv(s.store.cursors, s.recorded) && Managed(s, counters)
    requires O.SampleAll(s.store.cursors, counters).Ok?
    ensures var after := O.SampleAll(s.store.cursors, counters).value.cursors;
            RecordedBytes(Logged(s.recorded, after, O.Users(counters)), user, dir)
            == RecordedBytes(s.recorded, user, dir)
               + if user in after then O.Progress(s.store.cursors, after, user, dir) else 0
  {
    hide O.SampleAll;
    hide O.Malformed;
    var after := O.SampleAll(s.store.cursors, counters).value.cursors;
    O.AcceptedCovers(s.store.cursors, counters);
    if user in O.Users(counters) {
      var i :| 0 <= i < |counters| && counters[i].user == user;
      assert O.Covered(after, counters[i]);
      HistoryMoves(s, after, O.Users(counters), user, dir);
    } else {
      O.SampleTelescopes(s.store.cursors, counters, user, dir);
      assert History(Logged(s.recorded, after, O.Users(counters)), user) == History(s.recorded, user);
    }
  }

  lemma HistoryMoves(s: System, after: map<User, O.Cursor>, users: set<User>, user: User, dir: Direction)
    requires HistoryInv(s.store.cursors, s.recorded) && user in users && user in after
    requires user in s.store.cursors && s.store.cursors[user].runtime != after[user].runtime
             ==> after[user].runtime !in History(s.recorded, user)
    ensures RecordedBytes(Logged(s.recorded, after, users), user, dir)
            == RecordedBytes(s.recorded, user, dir) + O.Progress(s.store.cursors, after, user, dir)
  {
    var history, rt := History(s.recorded, user), after[user].runtime;
    var part := Part(ReadingOf(after[user]), dir);
    SumUpdate(Readings(history, dir), rt, part);
    assert Readings(history[rt := ReadingOf(after[user])], dir) == Readings(history, dir)[rt := part];
  }

  lemma LoggedHistory(s: System, counters: seq<O.Counter>, t: System)
    requires HistoryInv(s.store.cursors, s.recorded) && Managed(s, counters)
    requires O.SampleAll(s.store.cursors, counters).Ok?
    requires t.store.cursors == O.SampleAll(s.store.cursors, counters).value.cursors
    requires t.recorded == Logged(s.recorded, t.store.cursors, O.Users(counters))
    ensures HistoryInv(t.store.cursors, t.recorded)
  {
    hide O.SampleAll;
    O.AcceptedCovers(s.store.cursors, counters);
    forall u ensures u in t.recorded <==> u in t.store.cursors {
      O.SampleTelescopes(s.store.cursors, counters, u, Up);
    }
    forall u | u in t.store.cursors
      ensures t.store.cursors[u].runtime in t.recorded[u]
              && t.recorded[u][t.store.cursors[u].runtime] == ReadingOf(t.store.cursors[u])
    {
      O.SampleTelescopes(s.store.cursors, counters, u, Up);
    }
  }

  lemma SampleBooked(site: Site, s: System, counters: seq<O.Counter>, user: User, dir: Direction)
    requires StoreInv(s.store, s.issued) && HistoryInv(s.store.cursors, s.recorded) && Managed(s, counters)
    requires O.Recorded(s.store, counters, site.size).Ok?
    requires IssuedBytes(s.issued, s.store.nextSeq - 1, user, dir) == RecordedBytes(s.recorded, user, dir)
    ensures var t := O.Recorded(s.store, counters, site.size).value;
            IssuedBytes(Issued(s.issued, t.rows), t.nextSeq - 1, user, dir)
            == RecordedBytes(Logged(s.recorded, t.cursors, O.Users(counters)), user, dir)
  {
    hide O.SampleAll;
    hide O.Recorded;
    hide O.Integrity;
    hide IssuedBytes;
    hide RecordedBytes;
    hide UserBytes;
    hide Logged;
    RecordedCursors(s.store, counters, site.size) by { IntegrityCursors(s.store); }
    SampleBytes(s.store, counters, site.size, s.issued, user, dir);
    O.SampleTelescopes(s.store.cursors, counters, user, dir) by { ManagedStarts(s, counters); }
    LoggedProgress(s, counters, user, dir);
  }

  lemma ManagedStarts(s: System, counters: seq<O.Counter>)
    requires Managed(s, counters)
    ensures forall i :: 0 <= i < |counters| ==> counters[i].startedAt > 0
  {}

  lemma IntegrityCursors(store: O.Store)
    requires O.Integrity(store)
    ensures O.CursorsOk(store.cursors)
  {}

  /** New batches change no byte of the committed ones. */
  lemma SampleCharged(site: Site, panel: L.Panel, issued: map<int, UsageBatch>, after: map<int, UsageBatch>)
    requires Charged(site, panel, issued)
    requires forall k :: 1 <= k <= L.Committed(panel.streams, StreamOf(site)) ==>
      k in issued && k in after && after[k] == issued[k]
    ensures Charged(site, panel, after)
  {
    hide P.MonthTotal;
    hide IssuedBytes;
    forall user, dir
      ensures P.MonthTotal(panel.buckets, user, site.machine, dir)
              == IssuedBytes(after, L.Committed(panel.streams, StreamOf(site)), user, dir)
    {
      IssuedFrame(after, issued, L.Committed(panel.streams, StreamOf(site)), user, dir);
    }
  }

  lemma SampleWire(site: Site, s: System, counters: seq<O.Counter>)
    requires StoreInv(s.store, s.issued) && WireInv(site, s.issued) && Managed(s, counters)
    requires O.Recorded(s.store, counters, site.size).Ok?
    ensures WireInv(site, Issued(s.issued, O.Recorded(s.store, counters, site.size).value.rows))
  {
    hide O.SampleAll;
    hide O.Recorded;
    hide Wire;
    var rows := O.Recorded(s.store, counters, site.size).value.rows;
    SampleRows(s.store, counters, site.size, s.issued);
    forall k | k in Issued(s.issued, rows) ensures Wire(site, k, Issued(s.issued, rows)[k]) {
      if k in s.issued {
        assert Wire(site, k, s.issued[k]);
      } else {
        O.RecordedSendable(s.store, counters, site.size, k);
        RuntimeShort(s, counters);
        WireOf(site, k, rows[k].batch);
      }
    }
  }

  lemma RuntimeShort(s: System, counters: seq<O.Counter>)
    requires Managed(s, counters) && counters != []
    ensures |counters[0].runtime| <= 256
  {}

  lemma WireOf(site: Site, k: int, b: UsageBatch)
    requires 1 <= k < MAX_INT64 && O.Sendable(b, site.size) && |b.runtime| <= 256
    ensures Wire(site, k, b)
  {}

  lemma SampleNetwork(site: Site, s: System, t: System)
    requires NetworkInv(site, s)
    requires t == s.(store := t.store, issued := t.issued, recorded := t.recorded)
    requires t.store.committedSeq == s.store.committedSeq && s.store.nextSeq <= t.store.nextSeq
    requires forall k :: k in s.issued ==> k in t.issued && t.issued[k] == s.issued[k]
    ensures NetworkInv(site, t)
  {}

  lemma SampleInv(site: Site, s: System, counters: seq<O.Counter>, t: System)
    requires Inv(site, s) && Step(site, s, Sample(counters), t)
    ensures Inv(site, t)
  {
    hide O.SampleAll;
    hide O.Recorded;
    hide P.Coherent;
    hide P.MonthTotal;
    hide IssuedBytes;
    hide RecordedBytes;
    hide Logged;
    hide O.Integrity;
    hide WireInv;
    hide HistoryInv;
    hide Charged;
    hide Managed;
    hide Issued;
    if O.Recorded(s.store, counters, site.size).Ok? {
      RecordedCursors(s.store, counters, site.size);
      O.RecordedIntegrity(s.store, counters, site.size);
      LoggedHistory(s, counters, t);
      SampleRows(s.store, counters, site.size, s.issued);
      SampleWire(site, s, counters);
      SampleCharged(site, s.panel, s.issued, t.issued);
      SampleNetwork(site, s, t);
      forall user, dir
        ensures IssuedBytes(t.issued, t.store.nextSeq - 1, user, dir) == RecordedBytes(t.recorded, user, dir)
      {
        SampleBooked(site, s, counters, user, dir);
      }
    }
  }

  lemma RecordedCursors(store: O.Store, counters: seq<O.Counter>, size: UsageBatch -> nat)
    requires O.CursorsOk(store.cursors) && O.Recorded(store, counters, size).Ok?
    ensures O.SampleAll(store.cursors, counters).Ok?
    ensures O.Recorded(store, counters, size).value.cursors == O.SampleAll(store.cursors, counters).value.cursors
  {}

  // ---------------------------------------------------------------- messages

  lemma HeadIsNext(store: O.Store, issued: map<int, UsageBatch>, head: int)
    requires StoreInv(store, issued) && Head(store, head)
    ensures head == store.committedSeq + 1 < store.nextSeq && head in issued && store.rows[head].batch == issued[head]
  {
    assert store.committedSeq + 1 in store.rows;
  }

  lemma CallInv(site: Site, s: System, t: System)
    requires Inv(site, s) && Step(site, s, Call, t)
    ensures Inv(site, t)
  {
    hide P.Coherent;
    hide Charged;
    hide Booked;
    hide StoreInv;
    hide HistoryInv;
    hide WireInv;
    hide Head;
    var head :| Head(s.store, head) && t == Called(s, head);
    HeadIsNext(s.store, s.issued, head);
  }

  /** The panel processes an issued batch: it commits it if it is the next one, and
      otherwise changes nothing; a reply never lags behind the batch it answers. */
  lemma DeliverOutcome(site: Site, s: System, m: Message, setting: L.Setting)
    requires NetworkInv(site, s) && m in s.requests
    ensures var (panel, reply) := L.Reported(s.panel, site.machine, RequestOf(site, m), setting);
            var before := L.Committed(s.panel.streams, StreamOf(site));
            var after := L.Committed(panel.streams, StreamOf(site));
            && (panel == s.panel
                || (after == m.sequence == before + 1 && panel.streams[StreamOf(site)].last == L.Encoded(m.batch)))
            && (reply.Ok? ==> m.sequence <= reply.value.committed == after)
            && reply != Err(L.PayloadConflict) && reply != Err(L.HashMismatch)
            && (panel != s.panel ==> StreamOf(site) in panel.streams)
  {
    hide L.PostDeltas;
    L.PostingErrors(s.panel, site.machine, RequestOf(site, m), setting);
  }

  /** Refusals that are not about the batch's form: they pass with time or by configuration. */
  predicate Passing(e: L.Error) {
    e in {L.NotInstalled, L.UnknownUser, L.OutsideBounds, L.BucketOverflow, L.RefreshFailed}
  }

  lemma WireAt(site: Site, issued: map<int, UsageBatch>, k: int)
    requires WireInv(site, issued) && k in issued
    ensures 1 <= k < MAX_INT64 && Fits(issued[k]) && site.size(issued[k]) <= O.MAX_PAYLOAD
    ensures forall i :: 0 <= i < |issued[k].deltas| ==> Sliced(issued[k].deltas[i])
    ensures 0 < |issued[k].runtime| <= 256
  {
    assert Wire(site, k, issued[k]);
  }

  /** The panel knows the machine and the users, its clock is in step, its buckets have room,
      and the quota refresh works. */
  ghost predicate Welcoming(site: Site, panel: L.Panel, m: Message, setting: L.Setting) {
    && setting.installed && setting.refreshed
    && R.Hospitable(panel, setting.now, site.machine, m.batch.deltas)
  }

  /** No request in flight is ever refused for its form, and with known users, clocks in
      step, room in the buckets and a working refresh it is accepted. */
  lemma RequestAdmitted(site: Site, s: System, m: Message, setting: L.Setting)
    requires NetworkInv(site, s) && WireInv(site, s.issued) && m in s.requests
    ensures var reply := L.Reported(s.panel, site.machine, RequestOf(site, m), setting).1;
            && (reply.Err? ==> Passing(reply.error))
            && (Welcoming(site, s.panel, m, setting) ==> reply.Ok?)
  {
    hide Fits;
    hide Sliced;
    hide L.PostDeltas;
    hide R.Hospitable;
    hide R.Welcome;
    WireAt(site, s.issued, m.sequence);
    DeliverOutcome(site, s, m, setting);
    if setting.installed && m.sequence == L.Committed(s.panel.streams, StreamOf(site)) + 1 {
      R.DaemonBatchAccepted(s.panel, site.machine, RequestOf(site, m), setting);
    }
  }

  lemma Balanced(site: Site, s: System, user: User, dir: Direction)
    requires Charged(site, s.panel, s.issued) && Booked(s.issued, s.store.nextSeq - 1, s.recorded)
    ensures P.MonthTotal(s.panel.buckets, user, site.machine, dir)
            == IssuedBytes(s.issued, L.Committed(s.panel.streams, StreamOf(site)), user, dir)
    ensures IssuedBytes(s.issued, s.store.nextSeq - 1, user, dir) == RecordedBytes(s.recorded, user, dir)
  {}

  /** A request of any machine charges exactly the batch by which it advances its stream. */
  lemma DeliverCharged(site: Site, s: System, m: Message, setting: L.Setting)
    requires NetworkInv(site, s) && Charged(site, s.panel, s.issued) && m in s.requests
    ensures Charged(site, L.Reported(s.panel, site.machine, RequestOf(site, m), setting).0, s.issued)
  {
    hide P.MonthTotal;
    hide L.Reported;
    hide UserBytes;
    DeliverOutcome(site, s, m, setting);
    var after := L.Reported(s.panel, site.machine, RequestOf(site, m), setting).0;
    var committed := L.Committed(after.streams, StreamOf(site));
    forall user, dir
      ensures P.MonthTotal(after.buckets, user, site.machine, dir) == IssuedBytes(s.issued, committed, user, dir)
    {
      P.ReportedCharges(s.panel, site.machine, RequestOf(site, m), setting, user, site.machine, dir);
    }
  }

  lemma DeliverInv(site: Site, s: System, m: Message, setting: L.Setting, t: System)
    requires Inv(site, s) && Step(site, s, Deliver(m, setting), t)
    ensures Inv(site, t)
  {
    hide P.Coherent;
    hide Charged;
    hide Booked;
    hide O.Integrity;
    hide HistoryInv;
    hide WireInv;
    hide L.Reported;
    DeliverOutcome(site, s, m, setting);
    DeliverCharged(site, s, m, setting);
    P.ReportedCoherent(s.panel, s.clock, site.machine, RequestOf(site, m), setting);
  }

  /** A reply to the outstanding call always acknowledges exactly the head of the outbox. */
  lemma AnswerOutcome(site: Site, s: System, response: Response)
    requires StoreInv(s.store, s.issued) && NetworkInv(site, s)
    requires response in s.responses && s.call == Some(response.sequence)
    ensures response.committed == response.sequence == s.store.committedSeq + 1
    ensures O.Acknowledged(s.store, response.committed).Ok?
  {}

  /** Acknowledging the head leaves the rows after it. */
  lemma AnswerStore(store: O.Store, issued: map<int, UsageBatch>, upTo: int)
    requires StoreInv(store, issued) && O.Acknowledged(store, upTo).Ok?
    ensures var after := O.Acknowledged(store, upTo).value;
            && StoreInv(after, issued) && after.nextSeq == store.nextSeq && after.cursors == store.cursors
            && after.committedSeq == upTo
  {
    O.AcknowledgedIntegrity(store, upTo);
    hide O.Integrity;
  }

  lemma AnswerNetwork(site: Site, s: System, t: System)
    requires NetworkInv(site, s) && s.call == Some(s.store.committedSeq + 1)
    requires t == s.(store := t.store, call := None)
    requires t.store.committedSeq == s.store.committedSeq + 1 && t.store.nextSeq == s.store.nextSeq
    requires L.Committed(s.panel.streams, StreamOf(site)) == s.store.committedSeq + 1
    ensures NetworkInv(site, t)
  {}

  lemma AnswerInv(site: Site, s: System, response: Response, t: System)
    requires Inv(site, s) && Step(site, s, Answer(response), t)
    ensures Inv(site, t)
  {
    hide P.Coherent;
    hide Charged;
    hide Booked;
    hide StoreInv;
    hide HistoryInv;
    hide WireInv;
    hide O.Acknowledged;
    AnswerOutcome(site, s, response);
    AnswerStore(s.store, s.issued, response.committed);
    AnswerNetwork(site, s, t);
  }

  lemma ElsewhereOutcome(site: Site, p: L.Panel, machine: L.Machine, r: L.Request, setting: L.Setting)
    requires machine != site.machine
    ensures var q := L.Reported(p, machine, r, setting).0;
            && (StreamOf(site) in q.streams <==> StreamOf(site) in p.streams)
            && (StreamOf(site) in p.streams ==> q.streams[StreamOf(site)] == p.streams[StreamOf(site)])
  {
    hide L.PostDeltas;
  }

  lemma ElsewhereCharged(site: Site, p: L.Panel, issued: map<int, UsageBatch>, machine: L.Machine, r: L.Request,
                         setting: L.Setting)
    requires Charged(site, p, issued) && machine != site.machine
    ensures Charged(site, L.Reported(p, machine, r, setting).0, issued)
  {
    hide P.MonthTotal;
    hide L.Reported;
    hide IssuedBytes;
    ElsewhereOutcome(site, p, machine, r, setting);
    var q := L.Reported(p, machine, r, setting).0;
    forall user, dir
      ensures P.MonthTotal(q.buckets, user, site.machine, dir)
              == IssuedBytes(issued, L.Committed(q.streams, StreamOf(site)), user, dir)
    {
      P.ReportedCharges(p, machine, r, setting, user, site.machine, dir);
    }
  }

  lemma ElsewhereInv(site: Site, s: System, machine: L.Machine, r: L.Request, setting: L.Setting, t: System)
    requires Inv(site, s) && Step(site, s, Elsewhere(machine, r, setting), t)
    ensures Inv(site, t)
  {
    hide P.Coherent;
    hide Charged;
    hide Booked;
    hide StoreInv;
    hide HistoryInv;
    hide WireInv;
    hide L.Reported;
    ElsewhereOutcome(site, s.panel, machine, r, setting);
    ElsewhereCharged(site, s.panel, s.issued, machine, r, setting);
    P.ReportedCoherent(s.panel, s.clock, machine, r, setting);
  }

  lemma CleanInv(site: Site, s: System, now: int, left: L.Buckets, t: System)
    requires Inv(site, s) && Step(site, s, Clean(now, left), t)
    ensures Inv(site, t)
  {
    hide P.Coherent;
    hide P.Stored;
    hide L.Cleaned;
    hide IssuedBytes;
    hide Booked;
    hide StoreInv;
    hide HistoryInv;
    hide WireInv;
    P.CleanedCoherent(s.panel.buckets, left, s.clock, now);
    forall user, dir
      ensures P.MonthTotal(left, user, site.machine, dir) == P.MonthTotal(s.panel.buckets, user, site.machine, dir)
    {}
  }

  lemma QuietInv(site: Site, s: System, e: Event, t: System)
    requires Inv(site, s) && Step(site, s, e, t) && (e.GiveUp? || e.Enroll?)
    ensures Inv(site, t)
  {
    hide P.Coherent;
    hide P.MonthTotal;
    hide IssuedBytes;
    hide Booked;
    hide StoreInv;
    hide HistoryInv;
    hide WireInv;
  }

  lemma StepInv(site: Site, s: System, e: Event, t: System)
    requires Inv(site, s) && Step(site, s, e, t)
    ensures Inv(site, t)
  {
    hide Inv;
    match e
    case Sample(counters) => SampleInv(site, s, counters, t);
    case Call => CallInv(site, s, t);
    case Deliver(m, setting) => DeliverInv(site, s, m, setting, t);
    case Answer(response) => AnswerInv(site, s, response, t);
    case GiveUp => QuietInv(site, s, e, t);
    case Elsewhere(machine, request, setting) => ElsewhereInv(site, s, machine, request, setting, t);
    case Enroll(_, _) => QuietInv(site, s, e, t);
    case Clean(now, left) => CleanInv(site, s, now, left, t);
  }

  // ---------------------------------------------------------------- runs

  /** Any finite interleaving of events from an empty system. */
  ghost predicate Run(site: Site, states: seq<System>, events: seq<Event>) {
    && |states| == |events| + 1 && Initial(states[0])
    && forall i :: 0 <= i < |events| ==> Step(site, states[i], events[i], states[i + 1])
  }

  lemma {:induction false} RunInv(site: Site, states: seq<System>, events: seq<Event>, i: nat)
    requires Run(site, states, events) && i < |states|
    ensures Inv(site, states[i])
  {
    hide Inv;
    hide Step;
    if i == 0 {
      InitialInv(site, states[0]);
    } else {
      RunInv(site, states, events, i - 1);
      StepInv(site, states[i - 1], events[i - 1], states[i]);
    }
  }

  /** Bytes of the outbox batches the panel has not committed yet. */
  ghost function Outstanding(rows: map<int, O.Row>, committed: int, user: User, dir: Direction): map<int, int> {
    map k | k in rows && k > committed :: UserBytes(rows[k].batch.deltas, user, dir)
  }

  lemma {:induction false} OutstandingBytes(rows: map<int, O.Row>, issued: map<int, UsageBatch>, from: int, last: int,
                                            user: User, dir: Direction)
    requires 0 <= from <= last && forall k :: from < k ==> (k in rows <==> k <= last)
    requires forall k :: from < k <= last ==> k in issued && rows[k].batch == issued[k]
    ensures Sum(Outstanding(rows, from, user, dir))
            == IssuedBytes(issued, last, user, dir) - IssuedBytes(issued, from, user, dir)
    decreases last - from
  {
    hide UserBytes;
    var m := Outstanding(rows, from, user, dir);
    if from == last {
      assert m == map[];
    } else {
      hide Sum;
      OutstandingBytes(rows, issued, from + 1, last, user, dir);
      SumRemove(m, from + 1);
      assert m - {from + 1} == Outstanding(rows, from + 1, user, dir);
    }
  }

  /** The invariant balances the books. */
  lemma InvBalances(site: Site, s: System, user: User, dir: Direction)
    requires Inv(site, s)
    ensures P.MonthTotal(s.panel.buckets, user, site.machine, dir)
            + Sum(Outstanding(s.store.rows, L.Committed(s.panel.streams, StreamOf(site)), user, dir))
            == RecordedBytes(s.recorded, user, dir)
  {
    hide Charged;
    hide Booked;
    hide HistoryInv;
    hide WireInv;
    hide P.MonthTotal;
    hide IssuedBytes;
    hide Sum;
    Balanced(site, s, user, dir);
    var committed := L.Committed(s.panel.streams, StreamOf(site));
    OutstandingBytes(s.store.rows, s.issued, committed, s.store.nextSeq - 1, user, dir);
  }

  /** Conservation and exactly-once: in every state of every run, for every user and both
      directions, the month ledger plus the outbox batches the panel has not committed
      add up to the last recorded counters over all of the user's runtimes. */
  lemma Conservation(site: Site, states: seq<System>, events: seq<Event>, i: nat, user: User, dir: Direction)
    requires Run(site, states, events) && i < |states|
    ensures var s := states[i];
            P.MonthTotal(s.panel.buckets, user, site.machine, dir)
            + Sum(Outstanding(s.store.rows, L.Committed(s.panel.streams, StreamOf(site)), user, dir))
            == RecordedBytes(s.recorded, user, dir)
  {
    RunInv(site, states, events, i);
    InvBalances(site, states[i], user, dir);
  }

  /** No spurious recovery: in no run does the daemon fall behind or overtake the panel, so
      no reply asks for recovery, no acknowledgement is out of range, no payload conflicts
      with an earlier one, and the outbox keeps its invariant. */
  lemma NoSpuriousRecovery(site: Site, states: seq<System>, events: seq<Event>, i: nat)
    requires Run(site, states, events) && i < |states|
    ensures var s := states[i];
            var committed := L.Committed(s.panel.streams, StreamOf(site));
            && s.store.committedSeq <= committed < s.store.nextSeq
            && s.store.recoveryIssue == ""
            && O.Integrity(s.store)
            && (forall r :: r in s.responses && s.call == Some(r.sequence) ==>
                  r.committed >= r.sequence && O.Acknowledged(s.store, r.committed).Ok?)
            && (forall m, setting :: m in s.requests ==>
                  L.Reported(s.panel, site.machine, RequestOf(site, m), setting).1 != Err(L.PayloadConflict))
  {
    var s := states[i];
    RunInv(site, states, events, i);
    forall r | r in s.responses && s.call == Some(r.sequence)
      ensures r.committed >= r.sequence && O.Acknowledged(s.store, r.committed).Ok?
    {
      AnswerOutcome(site, s, r);
    }
    forall m, setting | m in s.requests
      ensures L.Reported(s.panel, site.machine, RequestOf(site, m), setting).1 != Err(L.PayloadConflict)
    {
      DeliverOutcome(site, s, m, setting);
    }
  }

  /** The panel's structural limits never apply: in every state of every run, whatever the
      panel's clock and settings, a request in flight is refused only for passing reasons. */
  lemma PassingRefusals(site: Site, states: seq<System>, events: seq<Event>, i: nat, m: Message, setting: L.Setting)
    requires Run(site, states, events) && i < |states| && m in states[i].requests
    ensures var reply := L.Reported(states[i].panel, site.machine, RequestOf(site, m), setting).1;
            reply.Err? ==> Passing(reply.error)
  {
    hide L.Reported;
    RunInv(site, states, events, i);
    RequestAdmitted(site, states[i], m, setting);
  }

  /** The ledger grains agree in every state of every run. */
  lemma CoherentAlways(site: Site, states: seq<System>, events: seq<Event>, i: nat)
    requires Run(site, states, events) && i < |states|
    ensures P.Coherent(states[i].panel.buckets, states[i].clock)
  {
    RunInv(site, states, events, i);
  }
}
