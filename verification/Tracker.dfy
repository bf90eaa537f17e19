/** The drain protocol of the traffic tracker
    (services/daemon/internal/adapters/singbox/tracker.go): reads, writes, closes and a
    drain run concurrently, and each lock region is one step. */
module Tracker {
  import opened UsageTypes
  import opened Collections

  type Id = nat
  type OpId = nat
  type Account = (User, Direction)

  // ---------------------------------------------------------------- one connection

  /** connectionLifetime; `settled` is its once. */
  datatype Life = Life(closing: bool, closed: bool, inFlight: int, settled: bool)

  const Open := Life(false, false, 0, false)

  function Started(l: Life): Life { l.(inFlight := l.inFlight + 1) }

  function Ended(l: Life): Life { l.(inFlight := l.inFlight - 1) }

  /** Whether the region that left this state has to settle. */
  predicate Settles(l: Life) { l.closed && l.inFlight == 0 }

  /** A tracked connection: `settling` operations are about to run the once, and its
      callback has run `fired` times. A connection routed during a drain is not registered. */
  datatype Conn = Conn(user: User, registered: bool, life: Life, settling: nat, fired: nat)

  /** After a region that may have to settle. */
  function Reached(c: Conn, life: Life): Conn {
    c.(life := life, settling := c.settling + if Settles(life) then 1 else 0)
  }

  /** After a run of the once. */
  function Ran(c: Conn): Conn
    requires c.settling > 0
  {
    c.(life := c.life.(settled := true), settling := c.settling - 1, fired := c.fired + if c.life.settled then 0 else 1)
  }

  class Connection {
    const user: User
    const registered: bool
    var closing: bool
    var closed: bool
    var inFlight: int
    var settled: bool
    var settling: nat
    var fired: nat

    ghost function View(): Conn
      reads this
    {
      Conn(user, registered, Life(closing, closed, inFlight, settled), settling, fired)
    }

    constructor (user: User, registered: bool)
      ensures View() == Conn(user, registered, Open, 0, 0)
    {
      this.user, this.registered := user, registered;
      closing, closed, inFlight, settled, settling, fired := false, false, 0, false, 0, 0;
    }

    /** begin: refused once closing has started. */
    method Begin() returns (ok: bool)
      modifies this
      ensures ok <==> !old(View()).life.closing
      ensures View() == if ok then old(View()).(life := Started(old(View()).life)) else old(View())
    {
      if closing { return false; }
      inFlight := inFlight + 1;
      ok := true;
    }

    method End()
      modifies this
      ensures View() == Reached(old(View()), Ended(old(View()).life))
    {
      inFlight := inFlight - 1;
      if closed && inFlight == 0 { settling := settling + 1; }
    }

    method StartClose()
      modifies this
      ensures View() == old(View()).(life := old(View()).life.(closing := true))
    {
      closing := true;
    }

    method FinishClose()
      modifies this
      ensures View() == Reached(old(View()), old(View()).life.(closed := true))
    {
      closed := true;
      if inFlight == 0 { settling := settling + 1; }
    }

    /** The once: whether the callback runs now. */
    method Settle() returns (fires: bool)
      requires settling > 0
      modifies this
      ensures fires == !old(settled) && View() == Ran(old(View()))
    {
      fires := !settled;
      settled, settling := true, settling - 1;
      if fires { fired := fired + 1; }
    }
  }

  // ---------------------------------------------------------------- the tracker

  /** `waiting` is the wait group's count. */
  datatype Table = Table(draining: bool, closers: set<Id>, active: int, waiting: int, counters: map<Account, int>)

  function Registered(t: Table, id: Id): Table {
    if t.draining then t
    else t.(closers := t.closers + {id}, waiting := t.waiting + 1, active := t.active + 1)
  }

  function Released(t: Table, id: Id): Table {
    if id in t.closers then t.(closers := t.closers - {id}, active := t.active - 1, waiting := t.waiting - 1) else t
  }

  function Count(counters: map<Account, int>, account: Account): int {
    if account in counters then counters[account] else 0
  }

  function Added(counters: map<Account, int>, account: Account, n: nat): map<Account, int> {
    if n > 0 then counters[account := Count(counters, account) + n] else counters
  }

  class TrafficTracker {
    var draining: bool
    var closers: set<Id>
    var active: int
    var waiting: int
    var counters: map<Account, int>

    ghost function View(): Table
      reads this
    {
      Table(draining, closers, active, waiting, counters)
    }

    constructor ()
      ensures View() == Table(false, {}, 0, 0, map[])
    {
      draining, closers, active, waiting, counters := false, {}, 0, 0, map[];
    }

    method Register(id: Id) returns (ok: bool)
      modifies this
      ensures ok == !old(draining) && View() == Registered(old(View()), id)
    {
      if draining { return false; }
      closers := closers + {id};
      waiting := waiting + 1;
      active := active + 1;
      ok := true;
    }

    method Release(id: Id)
      modifies this
      ensures View() == Released(old(View()), id)
    {
      if id in closers {
        closers := closers - {id};
        active := active - 1;
        waiting := waiting - 1;
      }
    }

    method Add(account: Account, n: nat)
      modifies this
      ensures View() == old(View()).(counters := Added(old(counters), account, n))
    {
      if n > 0 { counters := counters[account := Count(counters, account) + n]; }
    }

    /** The locked part of Drain: new connections are fenced off, the present ones are to
        be closed. */
    method Fence() returns (connections: set<Id>)
      modifies this
      ensures View() == old(View()).(draining := true) && connections == closers
    {
      draining := true;
      connections := closers;
    }
  }

  // ---------------------------------------------------------------- all together

  /** An operation between begin and end: before the inner call returned, holding what it
      moved, or with that added to the counters. */
  datatype Phase = Begun | Moved(dir: Direction, bytes: nat) | Counted

  datatype Op = Op(conn: Id, user: User, phase: Phase)

  datatype Drain = NotDraining | Waiting | Drained | TimedOut

  /** `moved` is history: all bytes the inner connections have moved for tracked operations. */
  datatype State = State(table: Table, conns: map<Id, Conn>, ops: map<OpId, Op>, drain: Drain, moved: map<Account, int>)

  datatype Event =
    | Route(id: Id, user: User)
    | Begin(op: OpId, id: Id)
    | Move(op: OpId, dir: Direction, bytes: nat)
    | Add(op: OpId)
    | End(op: OpId)
    | StartClose(id: Id)
    | FinishClose(id: Id)
    | Settle(id: Id)
    | StartDrain
    | EndDrain
    | GiveUp

  const Fresh := State(Table(false, {}, 0, 0, map[]), map[], map[], NotDraining, map[])

  predicate Enabled(s: State, e: Event) {
    match e
    case Route(id, _) => id !in s.conns
    case Begin(op, id) => op !in s.ops && id in s.conns && (s.conns[id].registered || s.conns[id].life.closing)
    case Move(op, _, _) => op in s.ops && s.ops[op].phase.Begun?
    case Add(op) => op in s.ops && s.ops[op].phase.Moved?
    case End(op) => op in s.ops && s.ops[op].phase.Counted? && s.ops[op].conn in s.conns
    case StartClose(id) => id in s.conns && !s.conns[id].life.closing
    case FinishClose(id) => id in s.conns && s.conns[id].life.closing && !s.conns[id].life.closed
    case Settle(id) => id in s.conns && s.conns[id].settling > 0
    case StartDrain => s.drain.NotDraining?
    case EndDrain => s.drain.Waiting? && s.table.waiting == 0
    case GiveUp => s.drain.Waiting?
  }

  function Next(s: State, e: Event): State
    requires Enabled(s, e)
  {
    match e
    case Route(id, user) =>
      s.(table := Registered(s.table, id), conns := s.conns[id := Conn(user, !s.table.draining, Open, 0, 0)])
    case Begin(op, id) =>
      var c := s.conns[id];
      if c.life.closing then s
      else s.(conns := s.conns[id := c.(life := Started(c.life))], ops := s.ops[op := Op(id, c.user, Begun)])
    case Move(op, dir, bytes) =>
      var o := s.ops[op];
      s.(ops := s.ops[op := o.(phase := Moved(dir, bytes))], moved := Added(s.moved, (o.user, dir), bytes))
    case Add(op) =>
      var o := s.ops[op];
      s.(ops := s.ops[op := o.(phase := Counted)],
         table := s.table.(counters := Added(s.table.counters, (o.user, o.phase.dir), o.phase.bytes)))
    case End(op) =>
      var id := s.ops[op].conn;
      s.(ops := s.ops - {op}, conns := s.conns[id := Reached(s.conns[id], Ended(s.conns[id].life))])
    case StartClose(id) =>
      s.(conns := s.conns[id := s.conns[id].(life := s.conns[id].life.(closing := true))])
    case FinishClose(id) =>
      s.(conns := s.conns[id := Reached(s.conns[id], s.conns[id].life.(closed := true))])
    case Settle(id) =>
      s.(conns := s.conns[id := Ran(s.conns[id])],
         table := if s.conns[id].life.settled then s.table else Released(s.table, id))
    case StartDrain => s.(drain := Waiting, table := s.table.(draining := true))
    case EndDrain => s.(drain := Drained)
    case GiveUp => s.(drain := TimedOut)
  }

  // ---------------------------------------------------------------- invariant

  ghost function OpsOf(ops: map<OpId, Op>, id: Id): set<OpId> {
    set o | o in ops && ops[o].conn == id
  }

  ghost function Operations(ops: map<OpId, Op>, id: Id): nat { |OpsOf(ops, id)| }

  function HeldBy(o: Op, account: Account): int {
    if o.phase.Moved? && (o.user, o.phase.dir) == account then o.phase.bytes else 0
  }

  function Holdings(ops: map<OpId, Op>, account: Account): map<OpId, int> {
    map o | o in ops :: HeldBy(ops[o], account)
  }

  /** Bytes moved by operations that have not counted them yet. */
  ghost function Held(ops: map<OpId, Op>, account: Account): int { Sum(Holdings(ops, account)) }

  /** The callback has run or is about to, once, exactly when the connection is closed and
      idle; until it has run a registered connection is among the closers. */
  ghost predicate ConnInv(s: State, id: Id)
    requires id in s.conns
  {
    var c := s.conns[id];
    && c.life.inFlight == Operations(s.ops, id)
    && (c.life.closed ==> c.life.closing)
    && c.settling + c.fired == (if Settles(c.life) then 1 else 0)
    && (c.life.settled <==> c.fired == 1)
    && (id in s.table.closers <==> c.registered && c.fired == 0)
    && (!c.registered ==> c.life.inFlight == 0 && s.table.draining)
  }

  ghost predicate ConnsInv(s: State) {
    && (forall o :: o in s.ops ==> s.ops[o].conn in s.conns)
    && (forall id :: id in s.conns ==> ConnInv(s, id))
  }

  ghost predicate TableInv(s: State) {
    && s.table.closers <= s.conns.Keys
    && s.table.waiting == s.table.active == |s.table.closers|
    && (s.drain != NotDraining ==> s.table.draining)
    && (s.drain == Drained ==> s.table.closers == {})
  }

  ghost predicate BytesInv(s: State) {
    forall account ::
      && 0 <= Count(s.table.counters, account)
      && Count(s.moved, account) == Count(s.table.counters, account) + Held(s.ops, account)
  }

  ghost predicate Inv(s: State) {
    ConnsInv(s) && TableInv(s) && BytesInv(s)
  }

  // ---------------------------------------------------------------- preservation

  lemma OpAdded(ops: map<OpId, Op>, op: OpId, o: Op, id: Id)
    requires op !in ops
    ensures Operations(ops[op := o], id) == Operations(ops, id) + if id == o.conn then 1 else 0
  {
    assert OpsOf(ops[op := o], id) == OpsOf(ops, id) + if id == o.conn then {op} else {};
  }

  lemma OpRemoved(ops: map<OpId, Op>, op: OpId, id: Id)
    requires op in ops
    ensures Operations(ops - {op}, id) == Operations(ops, id) - if id == ops[op].conn then 1 else 0
  {
    assert OpsOf(ops, id) == OpsOf(ops - {op}, id) + if id == ops[op].conn then {op} else {};
  }

  lemma OpChanged(ops: map<OpId, Op>, op: OpId, o: Op, id: Id)
    requires op in ops && o.conn == ops[op].conn
    ensures Operations(ops[op := o], id) == Operations(ops, id)
  {
    assert OpsOf(ops[op := o], id) == OpsOf(ops, id);
  }

  lemma HeldChanged(ops: map<OpId, Op>, op: OpId, o: Op, account: Account)
    ensures Held(ops[op := o], account)
            == Held(ops, account) + HeldBy(o, account) - if op in ops then HeldBy(ops[op], account) else 0
  {
    SumUpdate(Holdings(ops, account), op, HeldBy(o, account));
    assert Holdings(ops[op := o], account) == Holdings(ops, account)[op := HeldBy(o, account)];
  }

  lemma HeldRemoved(ops: map<OpId, Op>, op: OpId, account: Account)
    requires op in ops
    ensures Held(ops - {op}, account) == Held(ops, account) - HeldBy(ops[op], account)
  {
    SumRemove(Holdings(ops, account), op);
    assert Holdings(ops - {op}, account) == Holdings(ops, account) - {op};
  }

  lemma BytesKept(s: State, e: Event)
    requires BytesInv(s) && Enabled(s, e)
    ensures BytesInv(Next(s, e))
  {
    var t := Next(s, e);
    forall account
      ensures 0 <= Count(t.table.counters, account)
      ensures Count(t.moved, account) == Count(t.table.counters, account) + Held(t.ops, account)
    {
      assert Count(s.moved, account) == Count(s.table.counters, account) + Held(s.ops, account);
      if e.End? { HeldRemoved(s.ops, e.op, account); }
      else if t.ops != s.ops { HeldChanged(s.ops, e.op, t.ops[e.op], account); }
    }
  }

  /** Begin and end move a connection's count with its operations. */
  lemma OperationKept(s: State, e: Event, id: Id)
    requires ConnsInv(s) && Enabled(s, e) && (e.Begin? || e.Move? || e.Add? || e.End?) && id in s.conns
    ensures ConnInv(Next(s, e), id)
  {
    hide Operations;
    assert ConnInv(s, id);
    var t := Next(s, e);
    match e
    case Begin(op, _) => if t != s { OpAdded(s.ops, op, t.ops[op], id); }
    case End(op) => OpRemoved(s.ops, op, id);
    case Move(op, _, _) => OpChanged(s.ops, op, t.ops[op], id);
    case Add(op) => OpChanged(s.ops, op, t.ops[op], id);
  }

  lemma RouteKept(s: State, e: Event, id: Id)
    requires ConnsInv(s) && TableInv(s) && Enabled(s, e) && e.Route? && id in Next(s, e).conns
    ensures ConnInv(Next(s, e), id)
  {
    if id in s.conns {
      hide Operations;
      assert ConnInv(s, id);
    } else {
      assert OpsOf(s.ops, id) == {};
    }
  }

  lemma CloseKept(s: State, e: Event, id: Id)
    requires ConnsInv(s) && Enabled(s, e) && (e.StartClose? || e.FinishClose? || e.Settle?) && id in s.conns
    ensures ConnInv(Next(s, e), id)
  {
    hide Operations;
    assert ConnInv(s, id);
  }

  lemma DrainKept(s: State, e: Event, id: Id)
    requires ConnsInv(s) && Enabled(s, e) && (e.StartDrain? || e.EndDrain? || e.GiveUp?) && id in s.conns
    ensures ConnInv(Next(s, e), id)
  {
    hide Operations;
    assert ConnInv(s, id);
  }

  lemma TableKept(s: State, e: Event)
    requires TableInv(s) && Enabled(s, e)
    ensures TableInv(Next(s, e))
  {}

  lemma StepInv(s: State, e: Event)
    requires Inv(s) && Enabled(s, e)
    ensures Inv(Next(s, e))
  {
    hide ConnInv;
    hide BytesInv;
    hide TableInv;
    BytesKept(s, e);
    TableKept(s, e);
    var t := Next(s, e);
    forall id | id in t.conns ensures ConnInv(t, id) {
      match e
      case Begin(_, _) | Move(_, _, _) | Add(_) | End(_) => OperationKept(s, e, id);
      case Route(_, _) => RouteKept(s, e, id);
      case StartClose(_) | FinishClose(_) | Settle(_) => CloseKept(s, e, id);
      case _ => DrainKept(s, e, id);
    }
  }

  lemma FreshInv()
    ensures Inv(Fresh)
  {
    forall account ensures Held(Fresh.ops, account) == 0 { assert Holdings(Fresh.ops, account) == map[]; }
  }

  ghost predicate Run(states: seq<State>, events: seq<Event>) {
    && |states| == |events| + 1 && states[0] == Fresh
    && forall i :: 0 <= i < |events| ==> Enabled(states[i], events[i]) && states[i + 1] == Next(states[i], events[i])
  }

  lemma {:induction false} RunInv(states: seq<State>, events: seq<Event>, n: nat)
    requires Run(states, events) && n < |states|
    ensures Inv(states[n])
  {
    hide Inv;
    if n == 0 {
      FreshInv();
    } else {
      RunInv(states, events, n - 1);
      StepInv(states[n - 1], events[n - 1]);
    }
  }

  // ---------------------------------------------------------------- what the drain promises

  /** In every reachable state the wait group counts the open closers, and a connection's
      callback has run at most once, and only when it is closed and idle. */
  lemma SettledOnce(states: seq<State>, events: seq<Event>, n: nat, id: Id)
    requires Run(states, events) && n < |states| && id in states[n].conns
    ensures var s := states[n];
            var c := s.conns[id];
            && s.table.waiting == s.table.active == |s.table.closers|
            && c.fired + c.settling <= 1
            && (c.fired + c.settling == 1 <==> c.life.closed && c.life.inFlight == 0)
            && (id in s.table.closers <==> c.registered && c.fired == 0)
  {
    RunInv(states, events, n);
    assert ConnInv(states[n], id);
  }

  /** An operation holds its connection among the closers. */
  lemma OperationBusy(s: State, op: OpId)
    requires ConnsInv(s) && op in s.ops
    ensures s.ops[op].conn in s.table.closers
  {
    assert ConnInv(s, s.ops[op].conn);
    assert op in OpsOf(s.ops, s.ops[op].conn);
  }

  /** A closer is still open, still used, or about to settle. */
  lemma CloserBusy(s: State, id: Id)
    requires ConnsInv(s) && id in s.table.closers && id in s.conns
    ensures !s.conns[id].life.closed || s.ops != map[] || s.conns[id].settling > 0
  {
    assert ConnInv(s, id);
    assert s.ops == map[] ==> OpsOf(s.ops, id) == {};
  }

  /** No operation is left once the drain has returned. */
  lemma DrainedIdle(s: State)
    requires Inv(s) && s.drain == Drained
    ensures s.ops == map[]
    ensures forall account :: Count(s.table.counters, account) == Count(s.moved, account)
    ensures forall id :: id in s.conns && s.conns[id].registered ==> s.conns[id].life.closing
  {
    if s.ops != map[] {
      var o := Witness(s.ops.Keys);
      OperationBusy(s, o);
      assert false;
    }
    forall account ensures Count(s.table.counters, account) == Count(s.moved, account) {
      assert Holdings(s.ops, account) == map[];
    }
    forall id | id in s.conns && s.conns[id].registered ensures s.conns[id].life.closing { assert ConnInv(s, id); }
  }

  lemma DrainedStays(s: State, e: Event)
    requires Inv(s) && s.drain == Drained && Enabled(s, e)
    ensures Next(s, e).drain == Drained
    ensures Next(s, e).table.counters == s.table.counters && Next(s, e).moved == s.moved
  {
    DrainedIdle(s);
    if e.Begin? { assert ConnInv(s, e.id); }
  }

  /** A drain that returns has a complete sample: from then on no counter changes, and the
      counters are exactly what tracked operations ever moved, before or after. */
  lemma {:induction false} DrainComplete(states: seq<State>, events: seq<Event>, i: nat, j: nat)
    requires Run(states, events) && i <= j < |states| && states[i].drain == Drained
    ensures states[j].drain == Drained
    ensures states[j].table.counters == states[i].table.counters && states[j].moved == states[i].moved
    ensures forall account :: Count(states[i].table.counters, account) == Count(states[j].moved, account)
  {
    hide Inv;
    hide Next;
    if i == j {
      RunInv(states, events, i);
      DrainedIdle(states[i]);
    } else {
      DrainComplete(states, events, i, j - 1);
      RunInv(states, events, j - 1);
      DrainedStays(states[j - 1], events[j - 1]);
    }
  }

  /** Counters never run ahead of what was moved, and nothing moved is forgotten. */
  lemma CountersBehind(s: State, account: Account)
    requires Inv(s)
    ensures 0 <= Count(s.table.counters, account) <= Count(s.moved, account)
  {
    SumNonNegative(Holdings(s.ops, account));
  }

  lemma MovedGrows(s: State, e: Event, account: Account)
    requires Enabled(s, e)
    ensures Count(s.moved, account) <= Count(Next(s, e).moved, account)
  {}

  /** Nor can a drain hang for want of a wake-up: when every connection is closed, no
      operation is in flight and no callback is due, it can return. */
  lemma QuietDrains(states: seq<State>, events: seq<Event>, n: nat)
    requires Run(states, events) && n < |states| && states[n].drain == Waiting && states[n].ops == map[]
    requires forall id :: id in states[n].conns ==> states[n].conns[id].life.closed && states[n].conns[id].settling == 0
    ensures Enabled(states[n], EndDrain)
  {
    RunInv(states, events, n);
    var s := states[n];
    if s.table.closers != {} {
      var id := Witness(s.table.closers);
      CloserBusy(s, id);
      assert false;
    }
  }

  // ---------------------------------------------------------------- the objects take these steps

  /** A tracker with its connections: every step of the protocol is a call on these objects. */
  class Tracking {
    const tracker: TrafficTracker
    var conns: map<Id, Connection>
    var ops: map<OpId, Op>
    var drain: Drain
    var moved: map<Account, int>

    ghost predicate Valid()
      reads this
    {
      forall i, j :: i in conns && j in conns && conns[i] == conns[j] ==> i == j
    }

    ghost function Conns(): map<Id, Conn>
      reads this, conns.Values
    {
      map id | id in conns :: conns[id].View()
    }

    ghost function View(): State
      reads this, tracker, conns.Values
    {
      State(tracker.View(), Conns(), ops, drain, moved)
    }

    constructor ()
      ensures Valid() && View() == Fresh && fresh(tracker)
    {
      tracker := new TrafficTracker();
      conns, ops, drain, moved := map[], map[], NotDraining, map[];
    }

    /** RoutedConnection and RoutedPacketConnection. */
    method Routed(id: Id, user: User)
      requires Valid() && Enabled(View(), Route(id, user))
      modifies this, tracker
      ensures Valid() && View() == Next(old(View()), Route(id, user))
    {
      var ok := tracker.Register(id);
      var conn := new Connection(user, ok);
      conns := conns[id := conn];
      assert Conns() == old(Conns())[id := conn.View()];
    }

    /** The start of a read or write; it may be refused. */
    method BeginIo(op: OpId, id: Id) returns (ok: bool)
      requires Valid() && Enabled(View(), Begin(op, id))
      modifies this`ops, conns[id]
      ensures Valid() && View() == Next(old(View()), Begin(op, id)) && (ok <==> op in ops)
    {
      hide Started;
      ok := conns[id].Begin();
      if ok { ops := ops[op := Op(id, conns[id].user, Begun)]; }
      assert Conns() == old(Conns())[id := conns[id].View()];
    }

    /** The inner connection has moved bytes. */
    method MoveIo(op: OpId, dir: Direction, bytes: nat)
      requires Valid() && Enabled(View(), Move(op, dir, bytes))
      modifies this`ops, this`moved
      ensures Valid() && View() == Next(old(View()), Move(op, dir, bytes))
    {
      var o := ops[op];
      ops, moved := ops[op := o.(phase := Moved(dir, bytes))], Added(moved, (o.user, dir), bytes);
    }

    /** They are added to the user's counters. */
    method CountIo(op: OpId)
      requires Valid() && Enabled(View(), Event.Add(op))
      modifies this`ops, tracker
      ensures Valid() && View() == Next(old(View()), Event.Add(op))
    {
      var o := ops[op];
      tracker.Add((o.user, o.phase.dir), o.phase.bytes);
      ops := ops[op := o.(phase := Counted)];
    }

    method EndIo(op: OpId)
      requires Valid() && Enabled(View(), End(op))
      modifies this`ops, conns[ops[op].conn]
      ensures Valid() && View() == Next(old(View()), End(op))
    {
      var id := ops[op].conn;
      conns[id].End();
      ops := ops - {op};
      assert Conns() == old(Conns())[id := conns[id].View()];
    }

    /** Close up to the inner close; only its first call gets this far. */
    method BeginClose(id: Id)
      requires Valid() && Enabled(View(), StartClose(id))
      modifies conns[id]
      ensures Valid() && View() == Next(old(View()), StartClose(id))
    {
      conns[id].StartClose();
      assert Conns() == old(Conns())[id := conns[id].View()];
    }

    method EndClose(id: Id)
      requires Valid() && Enabled(View(), FinishClose(id))
      modifies conns[id]
      ensures Valid() && View() == Next(old(View()), FinishClose(id))
    {
      conns[id].FinishClose();
      assert Conns() == old(Conns())[id := conns[id].View()];
    }

    /** The once and its callback, which releases the connection. */
    method RunOnce(id: Id)
      requires Valid() && Enabled(View(), Settle(id))
      modifies tracker, conns[id]
      ensures Valid() && View() == Next(old(View()), Settle(id))
    {
      hide Ran;
      hide Released;
      var fires := conns[id].Settle();
      if fires { tracker.Release(id); }
      assert Conns() == old(Conns())[id := conns[id].View()];
    }

    /** A whole Read or Write that nothing interrupts: refused without effect once closing has
        begun, and otherwise counted in full. */
    method Transfer(op: OpId, id: Id, dir: Direction, bytes: nat) returns (n: nat)
      requires Valid() && Enabled(View(), Begin(op, id))
      modifies this`ops, this`moved, tracker, conns[id]
      ensures Valid() && ops == old(ops)
      ensures old(conns[id].closing) ==> n == 0 && View() == old(View())
      ensures !old(conns[id].closing) ==>
        && n == bytes && tracker.counters == Added(old(tracker.counters), (conns[id].user, dir), bytes)
        && moved == Added(old(moved), (conns[id].user, dir), bytes)
    {
      hide Next;
      var ok := Start(op, id);
      if !ok { return 0; }
      Tally(op, dir, bytes);
      Stop(op);
      n := bytes;
    }

    method Start(op: OpId, id: Id) returns (ok: bool)
      requires Valid() && Enabled(View(), Begin(op, id))
      modifies this`ops, conns[id]
      ensures Valid() && ok == !old(conns[id].closing) && (!ok ==> View() == old(View()))
      ensures ok ==> ops == old(ops)[op := Op(id, conns[id].user, Begun)]
    {
      ok := BeginIo(op, id);
    }

    method Tally(op: OpId, dir: Direction, bytes: nat)
      requires Valid() && op in ops && ops[op].phase.Begun? && ops[op].conn in conns
      modifies this`ops, this`moved, tracker
      ensures Valid() && ops == old(ops)[op := old(ops)[op].(phase := Counted)]
      ensures tracker.counters == Added(old(tracker.counters), (ops[op].user, dir), bytes)
      ensures moved == Added(old(moved), (ops[op].user, dir), bytes)
    {
      MoveIo(op, dir, bytes);
      CountIo(op);
    }

    method Stop(op: OpId)
      requires Valid() && op in ops && ops[op].phase.Counted? && ops[op].conn in conns
      modifies this`ops, tracker, conns[ops[op].conn]
      ensures Valid() && ops == old(ops) - {op} && tracker.counters == old(tracker.counters)
    {
      hide Ran;
      hide Reached;
      hide Ended;
      var id := ops[op].conn;
      EndIo(op);
      if conns[id].settling > 0 { RunOnce(id); }
    }

    /** Drain up to its wait; the connections it found are to be closed. */
    method BeginDrain() returns (connections: set<Id>)
      requires Valid() && Enabled(View(), StartDrain)
      modifies this`drain, tracker
      ensures Valid() && View() == Next(old(View()), StartDrain) && connections == tracker.closers
    {
      connections := tracker.Fence();
      drain := Waiting;
    }

    /** The wait is over, or its context is. */
    method EndWait(expired: bool) returns (done: bool)
      requires Valid() && drain.Waiting?
      modifies this`drain
      ensures Valid() && done == (tracker.waiting == 0 && !expired)
      ensures done ==> View() == Next(old(View()), EndDrain)
      ensures !done && expired ==> View() == Next(old(View()), GiveUp)
      ensures !done && !expired ==> View() == old(View())
    {
      done := tracker.waiting == 0 && !expired;
      drain := if done then Drained else if expired then TimedOut else Waiting;
    }
  }
}
