/** Uninstalling a host (services/daemon/internal/updater/uninstall.go): the helper confirms
    that the daemon has shut down, drains the outbox, removes the service, reports, and only
    after the acknowledgement deletes local state. A nondeterministic `if` is a crash, an
    outcome of the operating system or the panel, or the daemon acting in between. */
module Uninstall {
  import opened Wrappers
  import opened Tasks
  import O = Outbox
  import L = Ledger
  import S = Sender
  import F = FinalSamples
  import T = Tracker
  import opened UsageTypes
  import opened Meter

  type Pid = nat

  datatype Phase =
    UpdaterReady | StoppingDaemon | DrainingUsage | RemovingServices | ResultPending | Acknowledged | Failed | Completed

  /** exit.json: the process it speaks of, and whether its final sample was persisted. */
  datatype Exit = Exit(pid: Pid, settled: bool)

  class Installation {
    /** The daemon's usage store and the panel's ledger. */
    const meter: UsageMeter
    var journal: Journal
    var plan: Option<Phase>
    /** The daemon's unit file and binary, and the local state. */
    var unit: bool
    var binary: bool
    var data: bool
    /** The daemon's process, the last one systemd started since boot, and its own evidence. */
    var daemon: Option<Pid>
    var lastMain: Option<Pid>
    var ready: Option<Pid>
    var exit: Option<Exit>
    var nextPid: Pid
    /** History: somebody started the daemon between its confirmed stop and the removal of its
        unit file; and processes that reported a clean shutdown. */
    var meddled: bool
    ghost var settled: set<Pid>

    /** The daemon is gone for good, it shut down cleanly, and the panel acknowledged all that
        was ever recorded. */
    ghost predicate Accounted()
      reads this, meter, meter.store
    {
      && daemon == None && !unit
      && ready.Some? && ready.value in settled
      && meter.Empty()
    }

    ghost predicate Processes()
      reads this
    {
      && (!unit ==> daemon == None || meddled)
      && (daemon.Some? ==> lastMain == daemon)
      && (lastMain.Some? ==> lastMain.value < nextPid)
      && (ready.Some? ==> ready.value < nextPid && (lastMain.Some? ==> ready.value <= lastMain.value))
      && (exit.Some? && exit.value.settled ==> exit.value.pid in settled)
    }

    ghost predicate Results()
      reads this, meter, meter.store
    {
      && (journal.acknowledged ==> Terminal(journal))
      && (journal.status.Succeeded? ==> meddled || Accounted())
      && (plan == Some(Acknowledged) ==> journal.status.Succeeded? && journal.acknowledged)
      && (!data ==> journal.status.Succeeded? && journal.acknowledged && (plan == None || plan == Some(Acknowledged)))
    }

    ghost predicate Inv()
      reads this, meter, meter.store, meter.ledger
    {
      meter.Valid() && Processes() && Results()
    }

    /** A terminal result stays, and deleted state stays deleted. */
    twostate predicate Onward()
      reads this
    {
      Forward(old(journal), journal) && (!old(data) ==> !data)
    }

    /** Only a process systemd started since boot becomes ready, and a later one. */
    twostate predicate Traced()
      reads this
    {
      && meddled == old(meddled)
      && (!meddled ==>
            && (old(lastMain).Some? ==> lastMain.Some?)
            && (ready == old(ready)
                || (ready.Some? && lastMain.Some? && unit && (old(ready).Some? ==> old(ready).value < ready.value))))
    }

    /** The helper's own files and the service are as they were. */
    twostate predicate Untouched()
      reads this
    {
      && data == old(data) && plan == old(plan) && unit == old(unit) && binary == old(binary)
      && (!Terminal(old(journal)) ==> journal == old(journal))
    }

    constructor (meter: UsageMeter)
      requires meter.Valid()
      ensures Inv() && data && unit && plan == None && journal == NewTask && this.meter == meter
    {
      this.meter := meter;
      journal, plan := NewTask, None;
      unit, binary, data := true, true, true;
      daemon, lastMain, ready, exit, nextPid, meddled, settled := Some(0), Some(0), None, None, 1, false, {};
    }

    // -------------------------------------------------------------- the daemon

    /** What a running daemon does: it becomes ready, carries traffic, takes and records samples,
        sends, acknowledges a reported result, or ends. */
    method Activity()
      requires Inv() && data && (meddled || !journal.status.Succeeded?) && daemon.Some?
      modifies this, meter, meter.store, meter.ledger
      ensures Inv() && Onward() && Traced() && Untouched() && lastMain == old(lastMain)
    {
      hide UsageMeter.Valid;
      hide UsageMeter.Empty;
      if
      case true => ready := daemon;
      case true => Metering();
      case true =>
        var calls: seq<S.Call> := *;
        if |calls| == S.MAX_CALLS { meter.Flush(calls); }
      case Terminal(journal) => journal := journal.(acknowledged := true);
      case true => Exits();
    }

    /** A tracked operation, or a lock region of the adapter or the collector. */
    method Metering()
      requires Inv() && (meddled || !journal.status.Succeeded?)
      modifies meter, meter.store
      ensures Inv()
    {
      hide UsageMeter.Valid;
      hide UsageMeter.Empty;
      ghost var e: F.Event := *;
      ghost var users: set<User> := *;
      ghost var runtime: Runtime := *;
      ghost var traffic: T.Event := *;
      var counters: seq<O.Counter> := *;
      if
      case true => meter.Traffic(runtime, traffic);
      case true => meter.Region(e, users);
      case true => var _ := meter.Sample(e, counters);
    }

    /** What the panel does for others meanwhile. */
    method PanelActs()
      requires Inv()
      modifies meter, meter.ledger
      ensures Inv()
    {
      hide UsageMeter.Valid;
      var now: int := *;
      var machine: L.Machine := *;
      var request: L.Request := *;
      var setting: L.Setting := *;
      if
      case true => meter.Elsewhere(machine, request, setting);
      case true => meter.Enroll(machine, request.stream);
      case true => meter.Clean(now);
    }

    /** Any stretch of the daemon's life, restarts included. */
    method DaemonActs()
      requires Inv() && data && (meddled || !journal.status.Succeeded?)
      modifies this, meter, meter.store, meter.ledger
      ensures Inv() && Onward() && Traced() && Untouched()
    {
      hide UsageMeter.Valid;
      hide UsageMeter.Empty;
      var steps: nat := *;
      while steps > 0
        invariant Inv() && Onward() && Traced() && Untouched() && (meddled || !journal.status.Succeeded?)
      {
        if {
          case daemon.Some? => Activity();
          case true => StartDaemon();
          case true => PanelActs();
        }
        steps := steps - 1;
      }
    }

    /** The daemon's process ends: cleanly, with nothing left to close or to record and, if it
        was ready, evidence of that; with a failed shutdown; or killed. */
    method Exits()
      requires Inv() && daemon.Some? && (meddled || !journal.status.Succeeded?)
      modifies this`daemon, this`settled, this`exit, meter
      ensures Inv() && daemon == None
    {
      hide UsageMeter.Valid;
      hide UsageMeter.Empty;
      if {
        case true =>
          meter.Close();
          settled := settled + {daemon.value};
          if ready == daemon { exit := Some(Exit(daemon.value, true)); }
        case true =>
          if ready == daemon { exit := Some(Exit(daemon.value, false)); }
        case true =>
      }
      meter.Region(F.Crash, {});
      daemon := None;
    }

    /** systemd starts the daemon, which needs its unit file and its binary. */
    method StartDaemon()
      requires Inv()
      modifies this`daemon, this`lastMain, this`nextPid
      ensures Inv() && Traced()
    {
      if daemon == None && unit && binary {
        daemon, lastMain, nextPid := Some(nextPid), Some(nextPid), nextPid + 1;
      }
    }

    /** A reboot ends every process; the daemon may come up again. */
    method Boot()
      requires Inv()
      modifies this, meter
      ensures Inv() && Onward() && plan == old(plan) && data == old(data)
    {
      hide UsageMeter.Valid;
      hide UsageMeter.Empty;
      if daemon.Some? { Exits(); }
      lastMain := None;
      if * { StartDaemon(); }
    }

    /** The daemon's handling of a delivered uninstall (execute and BeginUninstall). */
    method Deliver()
      requires Inv() && data && daemon.Some?
      modifies this`journal, this`plan
      ensures Inv() && Onward()
      ensures old(plan).Some? && old(plan) != Some(Completed) && !Terminal(old(journal)) ==>
        plan == old(plan) && journal == old(journal)
    {
      hide UsageMeter.Valid;
      hide UsageMeter.Empty;
      if Terminal(journal) {
        if * { journal := journal.(acknowledged := true); }
        return;
      }
      if plan.Some? && plan != Some(Completed) { return; }
      journal := Moved(journal, Running, NotNeeded);
      if * { return; }
      if * {
        journal := Moved(journal, Status.Failed, NotNeeded);
        return;
      }
      plan := Some(UpdaterReady);
      if * { return; }
      if * {
        plan := Some(Completed);
        if * { return; }
        journal := Moved(journal, Status.Failed, NotNeeded);
      }
    }

    // -------------------------------------------------------------- the helper

    /** drainUsage: the outbox is sent head first until it is empty. */
    method DrainUsage() returns (drained: bool)
      requires Inv() && data && !Terminal(journal)
      modifies meter, meter.store, meter.ledger
      ensures Inv()
      ensures drained ==> meter.Empty()
      ensures old(meter.store.recoveryIssue) != "" ==> !drained
    {
      var calls: seq<S.Call> := *;
      var end := meter.Drain(calls);
      drained := end == Drained;
    }

    /** finish: the result is journalled, marked as pending, and reported until the panel
        has acknowledged it. */
    method Finish(status: Status) returns (acknowledged: bool)
      requires Inv() && data && plan.Some? && plan != Some(Acknowledged)
      requires status == Succeeded || status == Status.Failed
      requires status == Succeeded && !Terminal(journal) ==> meddled || Accounted()
      modifies this`journal, this`plan
      ensures Inv() && Onward() && plan.Some? && plan != Some(Acknowledged)
      ensures acknowledged ==> Terminal(journal) && journal.acknowledged
      ensures !Terminal(old(journal)) && Terminal(journal) ==> journal.status == status
    {
      hide UsageMeter.Valid;
      hide UsageMeter.Empty;
      if * { return false; }
      journal := Moved(journal, status, NotNeeded);
      if * { return false; }
      plan := Some(ResultPending);
      if * { journal := journal.(acknowledged := true); }
      acknowledged := journal.acknowledged;
    }

    method UninstallFailed()
      requires Inv() && data && !Terminal(journal) && plan.Some? && plan != Some(Acknowledged)
      modifies this`journal, this`plan
      ensures Inv() && Onward() && plan.Some? && plan != Some(Acknowledged) && !journal.status.Succeeded?
    {
      hide UsageMeter.Valid;
      hide UsageMeter.Empty;
      var acknowledged := Finish(Status.Failed);
      if !acknowledged { return; }
      if * { return; }
      plan := Some(Phase.Failed);
    }

    /** The shutdown that is confirmed: the process that last became ready is the one that
        stopped, and it left evidence that its final sample was persisted. */
    method ConfirmStop(expected: Pid) returns (confirmed: bool)
      requires Inv() && data && !Terminal(journal) && ready == Some(expected)
      modifies this, meter, meter.store, meter.ledger
      ensures Inv() && Untouched()
      ensures confirmed && !meddled ==> daemon == None && ready == Some(expected) && expected in settled
      ensures meddled == old(meddled)
    {
      hide UsageMeter.Valid;
      hide UsageMeter.Empty;
      DaemonActs();
      if unit || daemon.Some? {
        if daemon.Some? && daemon != Some(expected) { return false; }
        DaemonActs();
        if * { return false; }
        if daemon.Some? { Exits(); }
        if lastMain.Some? && lastMain != Some(expected) { return false; }
      }
      confirmed := exit.Some? && exit.value.settled && exit.value.pid == expected;
    }

    /** Somebody may start the daemon although its stop was confirmed. */
    method Meddle()
      requires Inv() && data && !Terminal(journal)
      modifies this, meter, meter.store, meter.ledger
      ensures Inv() && Untouched()
      ensures !meddled ==> unchanged(this) && meter.store.View() == old(meter.store.View())
    {
      hide UsageMeter.Valid;
      hide UsageMeter.Empty;
      if * { return; }
      if daemon == None && unit && binary {
        StartDaemon();
        meddled := true;
        DaemonActs();
      }
    }

    /** The service is removed: unit file first, then the binary. */
    method RemoveServices() returns (removed: bool)
      requires Inv() && data && (meddled || daemon == None) && !Terminal(journal)
      modifies this`unit, this`binary
      ensures Inv() && (removed ==> !unit && !binary)
    {
      hide UsageMeter.Valid;
      hide UsageMeter.Empty;
      if * { return false; }
      unit := false;
      if * { return false; }
      binary := false;
      removed := *;
    }

    /** cleanupUninstall: refuses any phase but the acknowledged one. */
    method Cleanup() returns (done: bool)
      requires Inv()
      modifies this`data, this`plan
      ensures Inv() && Onward()
      ensures old(plan) != Some(Acknowledged) ==> !done && data == old(data) && plan == old(plan)
      ensures old(plan) == Some(Acknowledged) && done ==> !data && plan == None
    {
      hide UsageMeter.Valid;
      hide UsageMeter.Empty;
      if plan != Some(Acknowledged) { return false; }
      if * { return false; }
      data := false;
      if * { return false; }
      plan := None;
      done := true;
    }

    /** RunUninstall, from whatever phase the helper finds; it may end after any write. */
    method RunUninstall() returns (removed: bool)
      requires Inv() && plan.Some? && (data || plan == Some(Acknowledged))
      modifies this, meter, meter.store, meter.ledger
      ensures Inv() && Onward()
      ensures removed ==> !data && plan == None
      ensures old(plan) == Some(Phase.Failed) || old(plan) == Some(Completed) || old(journal.status).Failed? ==>
        !removed && (old(plan) == Some(Acknowledged) || data == old(data))
    {
      hide UsageMeter.Valid;
      hide UsageMeter.Empty;
      if plan == Some(Phase.Failed) || plan == Some(Completed) { return false; }
      if plan == Some(Acknowledged) {
        removed := Cleanup();
        return;
      }
      if journal.status.Failed? {
        plan := Some(Phase.Failed);
        if * { journal := journal.(acknowledged := true); }
        return false;
      }
      if !journal.status.Succeeded? {
        var accounted := StopAndRemove();
        if !accounted { return false; }
      }
      removed := Conclude();
    }

    /** The successful result, its acknowledgement, and only then the deletion. */
    method Conclude() returns (removed: bool)
      requires Inv() && data && plan.Some? && plan != Some(Acknowledged) && !journal.status.Failed?
      requires !Terminal(journal) ==> meddled || Accounted()
      modifies this`journal, this`plan, this`data
      ensures Inv() && Onward() && (removed ==> !data && plan == None)
    {
      hide UsageMeter.Valid;
      hide UsageMeter.Empty;
      var acknowledged := Finish(Succeeded);
      if !acknowledged { return false; }
      if * { return false; }
      plan := Some(Acknowledged);
      removed := Cleanup();
    }

    /** Everything before the successful result; a failure on the way is reported. */
    method StopAndRemove() returns (accounted: bool)
      requires Inv() && data && !Terminal(journal) && plan.Some? && plan != Some(Acknowledged)
      modifies this, meter, meter.store, meter.ledger
      ensures Inv() && Onward() && data && plan.Some? && plan != Some(Acknowledged) && !journal.status.Succeeded?
      ensures accounted ==> (meddled || Accounted()) && !Terminal(journal)
    {
      hide UsageMeter.Valid;
      hide UsageMeter.Empty;
      if unit { meddled := false; }
      DaemonActs();
      var identified: bool := *;
      if ready == None || !identified {
        UninstallFailed();
        return false;
      }
      var expected := ready.value;
      if * { return false; }
      plan := Some(StoppingDaemon);
      var confirmed := ConfirmStop(expected);
      if * { return false; }
      if !confirmed {
        UninstallFailed();
        return false;
      }
      accounted := DrainAndRemove();
    }

    method DrainAndRemove() returns (accounted: bool)
      requires Inv() && data && !Terminal(journal) && plan.Some? && plan != Some(Acknowledged)
      requires Stopped()
      modifies this, meter, meter.store, meter.ledger
      ensures Inv() && Onward() && data && plan.Some? && plan != Some(Acknowledged) && !journal.status.Succeeded?
      ensures accounted ==> (meddled || Accounted()) && !Terminal(journal)
    {
      hide UsageMeter.Valid;
      hide UsageMeter.Empty;
      plan := Some(DrainingUsage);
      var drained := DrainAlone();
      if * { return false; }
      if !drained {
        UninstallFailed();
        return false;
      }
      plan := Some(RemovingServices);
      var removed := RemoveAlone();
      if * { return false; }
      if !removed {
        UninstallFailed();
        return false;
      }
      accounted := true;
    }

    /** The confirmed process is the last ready one and none has come after it. */
    ghost predicate Stopped()
      reads this
    {
      meddled || (daemon == None && ready.Some? && ready.value in settled)
    }

    /** The drain, while somebody may start the daemon. */
    method DrainAlone() returns (drained: bool)
      requires Inv() && data && !Terminal(journal) && Stopped()
      modifies this, meter, meter.store, meter.ledger
      ensures Inv() && Untouched() && Stopped() && (drained && !meddled ==> meter.Empty())
    {
      hide UsageMeter.Valid;
      hide UsageMeter.Empty;
      Meddle();
      drained := DrainUsage();
      MeddleLater(drained);
    }

    method MeddleLater(ghost drained: bool)
      requires Inv() && data && !Terminal(journal) && Stopped() && (drained && !meddled ==> meter.Empty())
      modifies this, meter, meter.store, meter.ledger
      ensures Inv() && Untouched() && Stopped() && (drained && !meddled ==> meter.Empty())
    {
      hide UsageMeter.Valid;
      Meddle();
    }

    /** The removal, before which somebody may still start the daemon. */
    method RemoveAlone() returns (removed: bool)
      requires Inv() && data && !Terminal(journal) && Stopped() && (!meddled ==> meter.Empty())
      modifies this, meter, meter.store, meter.ledger
      ensures Inv() && data && journal == old(journal) && plan == old(plan) && Stopped()
      ensures (!meddled ==> meter.Empty()) && (removed ==> !unit && !binary)
    {
      hide UsageMeter.Valid;
      MeddleLater(true);
      removed := RemoveServices();
    }
  }

  // ---------------------------------------------------------------- whole lives

  method Act(host: Installation)
    requires host.Inv()
    modifies host, host.meter, host.meter.store, host.meter.ledger
    ensures host.Inv() && (!old(host.data) ==> !host.data)
  {
    if
    case true => host.Boot();
    case true => host.PanelActs();
    case host.data && (host.meddled || !host.journal.status.Succeeded?) => host.DaemonActs();
    case true => host.StartDaemon();
    case host.data && host.daemon.Some? => host.Deliver();
    case host.plan.Some? && (host.data || host.plan == Some(Acknowledged)) => var _ := host.RunUninstall();
  }

  /** Whatever is interleaved and wherever it is cut short: once local state has been deleted,
      the panel has the terminal result, and unless somebody started the daemon between its
      confirmed stop and the removal of its unit file, the last ready daemon had shut down
      cleanly, the month ledger holds exactly what was recorded, and exactly what was moved by
      the users of runtimes that clean daemons had drained. */
  method Live(host: Installation, steps: nat)
    requires host.Inv()
    modifies host, host.meter, host.meter.store, host.meter.ledger
    ensures host.Inv()
    ensures !host.data ==> host.journal.status == Succeeded && host.journal.acknowledged
    ensures !host.data && !host.meddled ==> host.Accounted()
    ensures !host.data && !host.meddled && host.meter.sound ==> host.meter.Settled() && host.meter.Complete()
  {
    for i := 0 to steps
      invariant host.Inv()
    {
      Act(host);
    }
    if !host.data && !host.meddled { EmptySettles(host.meter); }
  }
}
