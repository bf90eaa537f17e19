/** One machine's usage while daemons come and go: the store, the panel's ledger, and the
    accounting state both belong to. */
module Meter {
  import opened Wrappers
  import opened UsageTypes
  import opened Collections
  import opened Pipeline
  import O = Outbox
  import L = Ledger
  import P = LedgerProofs
  import S = Sender
  import F = FinalSamples
  import M = Metering
  import T = Tracker
  import A = Accounting

  /** How a drain of the outbox ends. */
  datatype DrainEnd = Drained | RecoveryNeeded | RecoveryRaised | Unacknowledged | Interrupted

  /** `sound` is history: so far every sample was a step of the accounting, every clock ran
      forwards, other requests came from other machines, and a daemon reported a clean
      shutdown only when nothing was left to close or to record. `closed` are the runtimes
      that such daemons had drained. */
  class UsageMeter {
    const site: Site
    const store: O.UsageStore
    const ledger: L.UsageLedger
    ghost var machine: A.Machine
    ghost var sound: bool
    ghost var closed: set<Runtime>

    ghost function Usage(): System
      reads this
    {
      machine.metered.usage
    }

    ghost predicate Valid()
      reads this, store, ledger
    {
      && store.size == site.size && Usage().store == store.View() && Usage().panel == ledger.View()
      && O.CursorsOk(store.cursors)
      && (sound ==> A.Inv(site, machine) && Kept(closed, machine.metered.source.log))
    }

    /** Nothing waits in the outbox. */
    ghost predicate Empty()
      reads this, store
    {
      store.rows == map[]
    }

    /** The panel's month ledger holds exactly what was recorded. */
    ghost predicate Settled()
      reads this, store, ledger
    {
      forall user, dir ::
        P.MonthTotal(ledger.buckets, user, site.machine, dir) == RecordedBytes(Usage().recorded, user, dir)
    }

    /** The month ledger never holds more than was moved, and exactly that for a user all of
        whose runtimes were drained by a daemon that shut down cleanly. */
    ghost predicate Complete()
      reads this, store, ledger
    {
      forall user, dir ::
        var total := P.MonthTotal(ledger.buckets, user, site.machine, dir);
        && total <= Sum(A.Movements(machine, user, dir))
        && ((forall r :: r in machine.users && user in machine.users[r] ==> r in closed) ==>
              total == Sum(A.Movements(machine, user, dir)))
    }

    constructor (site: Site, clock: int)
      ensures Valid() && Empty() && sound && this.site == site && fresh(store) && fresh(ledger)
    {
      this.site := site;
      store := new O.UsageStore(site.size);
      ledger := new L.UsageLedger();
      new;
      var usage := System(store.View(), ledger.View(), clock, None, {}, {}, map[], map[]);
      machine := A.Machine(M.Joint(F.Booted, usage), map[], map[]);
      sound, closed := true, {};
      A.InitialInv(site, machine);
    }

    // -------------------------------------------------------------- the daemon

    /** A lock region of the daemon records a sample. */
    method Sample(ghost e: F.Event, counters: seq<O.Counter>) returns (accepted: bool)
      requires Valid()
      modifies this, store
      ensures Valid() && (sound ==> old(sound)) && closed == old(closed)
      ensures !accepted ==> store.View() == old(store.View()) && machine == old(machine)
    {
      hide A.Inv;
      hide O.Recorded;
      hide O.CursorsOk;
      hide Recording;
      ghost var a := machine;
      var r := store.RecordSample(counters);
      accepted := r.Ok?;
      if accepted {
        CursorsStay(a.metered.usage.store, counters, site.size);
        sound := sound && Recording(a, e, counters);
        machine := AfterSample(a, e, counters, store.View());
        if sound { SampleStep(site, a, e, counters, machine); }
      }
    }

    /** A lock region of the daemon, or of its end, that records nothing. */
    ghost method Region(e: F.Event, users: set<User>)
      requires Valid()
      modifies this
      ensures Valid() && (sound ==> old(sound)) && Usage() == old(Usage()) && closed == old(closed)
    {
      hide A.Inv;
      var a := machine;
      sound := sound && Unrecorded(a, e);
      if sound {
        machine := AfterRegion(a, e, users);
        RegionStep(site, a, e, users);
      }
    }

    /** A tracked operation or another step of a tracker. */
    ghost method Traffic(r: Runtime, e: T.Event)
      requires Valid()
      modifies this
      ensures Valid() && (sound ==> old(sound)) && Usage() == old(Usage()) && closed == old(closed)
    {
      hide A.Inv;
      var a := machine;
      if Tracked(a, r, e) {
        machine := a.(trackers := a.trackers[r := T.Next(a.trackers[r], e)]);
        if sound { A.StepInv(site, a, A.Traffic(r, e), machine); }
      }
    }

    /** A daemon closes cleanly: no engine, no operation and no pending sample is left. */
    ghost method Close()
      requires Valid()
      modifies this
      ensures Valid() && (sound ==> old(sound)) && Usage() == old(Usage())
      ensures closed == old(closed) + machine.metered.source.drained
    {
      var s := machine.metered.source;
      sound := sound && s.op.Idle? && s.active.None? && s.pending == [];
      closed := closed + s.drained;
    }

    /** The daemon sends what waits. */
    method Flush(calls: seq<S.Call>)
      requires Valid() && |calls| == S.MAX_CALLS
      modifies this, store, ledger
      ensures Valid() && (sound ==> old(sound)) && closed == old(closed)
    {
      hide A.Inv;
      ghost var a := machine;
      sound := sound && S.InOrder(Usage().clock, calls);
      if sound { A.UsageInv(site, a); }
      ghost var t;
      var issue;
      issue, t := S.FlushUsage(site, store, ledger, calls, Usage());
      machine := A.WithUsage(a, t);
      if sound { A.UsageReplaced(site, a, t); }
    }

    // -------------------------------------------------------------- the panel

    /** The panel serves another machine, learns of a user, or cleans up. */
    method Elsewhere(machine: L.Machine, request: L.Request, setting: L.Setting)
      requires Valid()
      modifies this, ledger
      ensures Valid() && (sound ==> old(sound)) && Usage().store == old(Usage().store) && closed == old(closed)
    {
      hide A.Inv;
      hide L.Reported;
      ghost var a := this.machine;
      ghost var s := a.metered.usage;
      sound := sound && machine != site.machine && s.clock <= setting.now;
      var _ := ledger.ReportUsage(machine, request, setting);
      ghost var t := s.(panel := ledger.View(), clock := setting.now);
      this.machine := A.WithUsage(a, t);
      if sound { PanelStep(site, a, Event.Elsewhere(machine, request, setting), t); }
    }

    method Enroll(machine: L.Machine, user: User)
      requires Valid()
      modifies this, ledger
      ensures Valid() && (sound ==> old(sound)) && Usage().store == old(Usage().store) && closed == old(closed)
    {
      hide A.Inv;
      ghost var a := this.machine;
      ledger.history := ledger.history + {(machine, user)};
      ghost var t := a.metered.usage.(panel := ledger.View());
      this.machine := A.WithUsage(a, t);
      if sound { PanelStep(site, a, Event.Enroll(machine, user), t); }
    }

    method Clean(now: int)
      requires Valid()
      modifies this, ledger
      ensures Valid() && (sound ==> old(sound)) && Usage().store == old(Usage().store) && closed == old(closed)
    {
      hide A.Inv;
      hide L.Cleaned;
      hide O.CursorsOk;
      hide Kept;
      ghost var a := machine;
      ghost var before := ledger.buckets;
      assert before == a.metered.usage.panel.buckets;
      sound := sound && Usage().clock <= now;
      var _ := ledger.CleanMinutes(now);
      assert L.Cleaned(before, ledger.buckets, now);
      ghost var t := CleanedUp(a.metered.usage, ledger.buckets, now);
      assert t.panel == ledger.View();
      machine := A.WithUsage(a, t);
      if sound { CleanStep(site, a, ledger.buckets, now); }
    }

    // -------------------------------------------------------------- the drain

    /** drainUsage of services/daemon/internal/updater/uninstall.go: the head of the outbox is
        sent until nothing waits, again after every failed call. It ends otherwise only on a
        recovery issue that was recorded, one that a lagging reply raises, an acknowledgement
        out of range, or when its time is up; in a sound history the middle three never are. */
    method Drain(calls: seq<S.Call>) returns (end: DrainEnd)
      requires Valid()
      modifies this, store, ledger
      ensures Valid() && (sound ==> old(sound)) && closed == old(closed)
      ensures end == RecoveryNeeded <==> old(store.recoveryIssue) != ""
      ensures end == RecoveryNeeded ==> store.View() == old(store.View())
      ensures end == RecoveryRaised ==> store.recoveryIssue != ""
      ensures end == Drained ==> Empty()
      ensures sound ==> end == Drained || end == Interrupted
    {
      hide A.Inv;
      if sound { A.UsageInv(site, machine); }
      if store.recoveryIssue != "" {
        if sound { S.NoIssueStored(site, Usage()); }
        return RecoveryNeeded;
      }
      for i := 0 to |calls|
        invariant Valid() && (sound ==> old(sound)) && closed == old(closed)
        invariant store.recoveryIssue == ""
      {
        var head := store.NextBatch();
        if head.None? { return Drained; }
        var issue := Send(calls[i], head.value.0, head.value.1);
        if issue == S.RecoveryRequired { return RecoveryRaised; }
        if issue == S.Unacknowledged { return Unacknowledged; }
      }
      end := Interrupted;
    }

    method Send(call: S.Call, sequence: int, row: O.Row) returns (issue: S.Issue)
      requires Valid() && store.recoveryIssue == "" && Head(store.View(), sequence) && store.rows[sequence] == row
      modifies this, store, ledger
      ensures Valid() && (sound ==> old(sound)) && closed == old(closed)
      ensures issue == S.RecoveryRequired ==> store.recoveryIssue != ""
      ensures issue != S.RecoveryRequired && issue != S.Unacknowledged ==> store.recoveryIssue == ""
      ensures sound ==> issue in {S.Clear, S.Pending, S.Unauthenticated}
    {
      hide A.Inv;
      ghost var a := machine;
      sound := sound && Usage().clock <= call.setting.now;
      if sound { A.UsageInv(site, a); }
      ghost var t;
      issue, t := S.ReportHead(site, store, ledger, call, sequence, row, Usage());
      machine := A.WithUsage(a, t);
      if sound { A.UsageReplaced(site, a, t); }
    }
  }

  // ---------------------------------------------------------------- the steps it takes

  /** The region records these counters, and they are what the tracker read. */
  ghost predicate Recording(a: A.Machine, e: F.Event, counters: seq<O.Counter>) {
    && F.Enabled(a.metered.source, e) && A.DrainedNow(a, e)
    && var sample := F.Recorded(a.metered.source, e);
       sample.Some? && M.SampleOf(counters, sample.value) && A.Read(a, counters, sample.value)
  }

  ghost predicate Unrecorded(a: A.Machine, e: F.Event) {
    F.Enabled(a.metered.source, e) && A.DrainedNow(a, e) && F.Recorded(a.metered.source, e).None?
  }

  ghost predicate Tracked(a: A.Machine, r: Runtime, e: T.Event) {
    && r in a.trackers && r in a.users && T.Enabled(a.trackers[r], e)
    && (e.Route? ==> e.user in a.users[r])
  }

  ghost function AfterSample(a: A.Machine, e: F.Event, counters: seq<O.Counter>, store: O.Store): A.Machine {
    var s := a.metered.usage;
    var t := s.(store := store, issued := Issued(s.issued, store.rows),
                recorded := Logged(s.recorded, store.cursors, O.Users(counters)));
    var source := if F.Enabled(a.metered.source, e) then F.Next(a.metered.source, e) else a.metered.source;
    a.(metered := M.Joint(source, t))
  }

  ghost function AfterRegion(a: A.Machine, e: F.Event, users: set<User>): A.Machine
    requires F.Enabled(a.metered.source, e)
  {
    var b := a.(metered := a.metered.(source := F.Next(a.metered.source, e)));
    if A.Launches(a.metered.source, e)
    then b.(trackers := a.trackers[e.unused := T.Fresh], users := a.users[e.unused := users]) else b
  }

  ghost function CleanedUp(s: System, left: L.Buckets, now: int): System {
    s.(panel := s.panel.(buckets := left), clock := now)
  }

  /** The final samples of these runtimes are in the log. */
  ghost predicate Kept(closed: set<Runtime>, log: seq<F.Sample>) {
    forall r :: r in closed ==> F.Sample(r, true) in log
  }

  lemma LogKept(s: F.State, e: F.Event)
    requires F.Enabled(s, e)
    ensures forall x :: x in s.log ==> x in F.Next(s, e).log
  {
    F.LogGrows(s, e);
  }

  lemma CursorsStay(store: O.Store, counters: seq<O.Counter>, size: UsageBatch -> nat)
    requires O.CursorsOk(store.cursors) && O.Recorded(store, counters, size).Ok?
    ensures O.CursorsOk(O.Recorded(store, counters, size).value.cursors)
  {
    RecordedCursors(store, counters, size);
    O.SampleEmits(store.cursors, counters);
  }

  lemma SampleStep(site: Site, a: A.Machine, e: F.Event, counters: seq<O.Counter>, b: A.Machine)
    requires A.Inv(site, a) && Recording(a, e, counters) && O.CursorsOk(a.metered.usage.store.cursors)
    requires var r := O.Recorded(a.metered.usage.store, counters, site.size);
             r.Ok? && b == AfterSample(a, e, counters, r.value)
    ensures A.Inv(site, b)
    ensures forall x :: x in a.metered.source.log ==> x in b.metered.source.log
  {
    hide A.Inv;
    hide O.Recorded;
    hide F.Next;
    LogKept(a.metered.source, e);
    A.SameTrackers(a, e);
    A.StepInv(site, a, A.Metered(M.Region(e, counters), {}), b);
  }

  lemma RegionStep(site: Site, a: A.Machine, e: F.Event, users: set<User>)
    requires A.Inv(site, a) && Unrecorded(a, e)
    ensures A.Inv(site, AfterRegion(a, e, users))
    ensures forall x :: x in a.metered.source.log ==> x in F.Next(a.metered.source, e).log
  {
    hide A.Inv;
    hide F.Next;
    LogKept(a.metered.source, e);
    A.StepInv(site, a, A.Metered(M.Region(e, []), users), AfterRegion(a, e, users));
  }

  lemma PanelStep(site: Site, a: A.Machine, event: Event, t: System)
    requires A.Inv(site, a) && Step(site, a.metered.usage, event, t) && !event.Sample?
    ensures A.Inv(site, A.WithUsage(a, t))
  {
    hide A.Inv;
    hide Step;
    A.StepInv(site, a, A.Metered(M.Protocol(event), {}), A.WithUsage(a, t));
  }

  lemma CleanStep(site: Site, a: A.Machine, left: L.Buckets, now: int)
    requires A.Inv(site, a) && a.metered.usage.clock <= now
    requires L.Cleaned(a.metered.usage.panel.buckets, left, now)
    ensures A.Inv(site, A.WithUsage(a, CleanedUp(a.metered.usage, left, now)))
  {
    hide A.Inv;
    hide L.Cleaned;
    PanelStep(site, a, Event.Clean(now, left), CleanedUp(a.metered.usage, left, now));
  }

  // ---------------------------------------------------------------- what an empty outbox means

  /** Everything recorded has arrived, and with it everything that cleanly closed runtimes
      ever moved. */
  lemma EmptySettles(meter: UsageMeter)
    requires meter.Valid() && meter.Empty()
    ensures meter.sound ==> meter.Settled() && meter.Complete()
  {
    hide A.Inv;
    if meter.sound {
      A.UsageInv(meter.site, meter.machine);
      S.AllSettled(meter.site, meter.Usage());
      forall user, dir
        ensures var total := P.MonthTotal(meter.ledger.buckets, user, meter.site.machine, dir);
                && total <= Sum(A.Movements(meter.machine, user, dir))
                && ((forall r :: r in meter.machine.users && user in meter.machine.users[r] ==> r in meter.closed) ==>
                      total == Sum(A.Movements(meter.machine, user, dir)))
      {
        A.RecordedAgainstMoved(meter.site, meter.machine, user, dir);
      }
    }
  }
}
