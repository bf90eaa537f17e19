/** A daemon upgrade on one host: the independent helper
    (services/daemon/internal/updater/upgrade.go, report.go, types.go), the recovery that runs
    before every daemon start, and the daemon itself (panelclient/executor.go), over a task
    journal (state/tasks.go) and the plan file. A nondeterministic `if` is a crash, an outcome
    of the operating system, or the other process acting in between. */
module Upgrade {
  import opened Wrappers
  import opened Tasks

  type TaskId = nat

  datatype Binary = Old | New | Other

  datatype Phase =
    UpdaterReady | Switching | Starting | LocalHealthy | RollingBack | Restored | ResultPending | Completed

  datatype Plan = Plan(task: TaskId, phase: Phase)

  /** Controller.save: what the plan file holds after saving a plan over another. */
  function Saved(existing: Option<Plan>, plan: Plan): Option<Plan> {
    if existing.None? then Some(plan)
    else if existing.value.task == plan.task && existing.value.phase.Completed? && !plan.phase.UpdaterReady?
    then existing
    else if existing.value.task != plan.task && plan.phase.Completed? then existing
    else Some(plan)
  }

  /** Controller.Active. */
  predicate Active(plan: Option<Plan>) { plan.Some? && !plan.value.phase.Completed? }

  /** How a helper or a recovery run ends. */
  datatype End = Done | Failure | Crashed

  // ---------------------------------------------------------------- the host

  class Host {
    const task: TaskId
    var journal: Journal
    var plan: Option<Plan>
    var installed: Binary
    var backup: Option<Binary>
    var candidate: Option<Binary>
    var running: Option<Binary>
    /** Binaries whose daemon reported readiness since the last mark. */
    var ready: set<Binary>
    var helperActive: bool
    /** History: binaries whose local health was confirmed, and helpers started. */
    ghost var proven: set<Binary>
    ghost var handoffs: nat

    /** The recorded outcome is what happened. */
    ghost predicate Truth()
      reads this
    {
      && (journal.status.Succeeded? ==> installed == New && New in proven)
      && (journal.status.Failed? && journal.rollback.RollbackSucceeded? ==> installed == Old && Old in proven)
      && (journal.status.Failed? && journal.rollback.NotNeeded? ==> installed == Old)
    }

    predicate At(phase: Phase)
      reads this
    {
      plan == Some(Plan(task, phase))
    }

    ghost predicate Inv()
      reads this
    {
      && Truth()
      && (plan.Some? ==> plan.value.task == task)
      && (At(ResultPending) ==> Terminal(journal))
      && (At(LocalHealthy) ==> installed == New && New in proven)
      && (At(Restored) ==> !helperActive && (Terminal(journal) || installed == Old))
      && (plan == None || At(Completed) || At(UpdaterReady) ==> Terminal(journal) || installed == Old)
      && (helperActive && !Active(plan) ==> Terminal(journal))
      && (journal.acknowledged ==> Terminal(journal))
    }

    /** A terminal result stays, and history only grows. */
    twostate predicate Onward()
      reads this
    {
      && Forward(old(journal), journal)
      && old(proven) <= proven
    }

    /** What the daemon may do to a running helper's host: acknowledge a terminal result and
        close the plan for it. */
    twostate predicate Undisturbed()
      reads this
    {
      && Onward() && installed == old(installed) && backup == old(backup) && candidate == old(candidate)
      && helperActive == old(helperActive) && handoffs == old(handoffs)
      && (!Terminal(old(journal)) ==> journal == old(journal) && plan == old(plan))
      && (plan == old(plan) || At(Completed))
    }

    constructor (task: TaskId)
      ensures Inv() && this.task == task && journal == NewTask && plan == None
      ensures handoffs == 0 && !helperActive
    {
      this.task := task;
      journal := NewTask;
      plan, installed, backup, candidate, running, ready := None, Old, None, None, Some(Old), {};
      helperActive, proven, handoffs := false, {}, 0;
    }

    method Persist(status: Status, rollback: Rollback)
      modifies this`journal
      ensures journal == Moved(old(journal), status, rollback)
    {
      if !Terminal(journal) {
        journal := journal.(status := status, rollback := rollback, sequence := journal.sequence + 1);
      }
    }

    method Save(phase: Phase)
      modifies this`plan
      ensures plan == Saved(old(plan), Plan(task, phase))
    {
      if plan.Some? && plan.value.task == task && plan.value.phase.Completed? && !phase.UpdaterReady? { return; }
      if plan.Some? && plan.value.task != task && phase.Completed? { return; }
      plan := Some(Plan(task, phase));
    }

    // -------------------------------------------------------------- the daemon

    /** reportResult: the panel acknowledges a terminal result, then the plan is closed. */
    method ReportResult()
      requires Inv()
      modifies this
      ensures Inv() && Undisturbed() && running == old(running) && ready == old(ready)
      ensures !Terminal(old(journal)) ==> plan == old(plan)
    {
      if !Terminal(journal) { return; }
      if * { return; }
      journal := journal.(acknowledged := true);
      if * { return; }
      if plan.Some? && plan.value.task == task { Save(Completed); }
    }

    /** RecoverBeforeStart: an upgrade nobody is working on is settled before the daemon may
        start: a healthy one is a success, any other is undone. */
    method RecoverBeforeStart() returns (end: End)
      requires Inv()
      modifies this
      ensures Inv() && Onward() && helperActive == old(helperActive) && handoffs == old(handoffs) && ready == old(ready)
      ensures helperActive ==> Undisturbed()
      ensures helperActive || !Active(old(plan)) || Terminal(old(journal)) ==>
        end == Done && journal == old(journal) && plan == old(plan) && installed == old(installed)
      ensures end == Done && !helperActive && Active(old(plan)) && !Terminal(old(journal)) ==>
        if old(At(LocalHealthy)) then journal.status == Succeeded && installed == New
        else At(Restored) && installed == Old && !Terminal(journal)
    {
      if !Active(plan) || helperActive || Terminal(journal) { return Done; }
      if plan.value.phase.LocalHealthy? || plan.value.phase.ResultPending? {
        if * { return Crashed; }
        Persist(Succeeded, NotNeeded);
        return Done;
      }
      if backup != Some(Old) { return Failure; }
      if * { return Crashed; }
      installed := backup.value;
      if * { return Crashed; }
      Persist(Running, NotNeeded);
      if * { return Crashed; }
      Save(Restored);
      end := Done;
    }

    /** ConfirmRecoveryReady, by the daemon that has just become ready. */
    method ConfirmRecoveryReady() returns (end: End)
      requires Inv() && running.Some?
      modifies this
      ensures Inv() && Onward() && helperActive == old(helperActive) && handoffs == old(handoffs)
      ensures running == old(running)
      ensures ready == old(ready) && installed == old(installed)
      ensures !old(At(Restored)) ==> end == Done && Undisturbed() && journal == old(journal) && plan == old(plan)
      ensures old(At(Restored)) && end == Done ==>
        running == Some(Old) && At(ResultPending) && Terminal(journal)
        && (!Terminal(old(journal)) ==>
              journal.status == Failed && journal.rollback == RollbackSucceeded && installed == Old)
      ensures helperActive ==> Undisturbed()
    {
      if !plan.Some? || !plan.value.phase.Restored? { return Done; }
      if running != Some(Old) { return Failure; }
      if * { return Crashed; }
      ghost var confirmed := if Terminal(journal) then {} else {Old};
      Persist(Failed, RollbackSucceeded);
      proven := proven + confirmed;
      if * { return Crashed; }
      Save(ResultPending);
      end := Done;
    }

    /** systemd starts the daemon: recovery first, then the installed binary, which becomes
        ready or does not. */
    method StartDaemon() returns (started: bool)
      requires Inv()
      modifies this
      ensures Inv() && Onward() && helperActive == old(helperActive) && handoffs == old(handoffs)
      ensures helperActive ==> Undisturbed()
      ensures forall b :: b in ready ==> b in old(ready) || b == installed
    {
      running := None;
      var recovered := RecoverBeforeStart();
      if recovered != Done { return false; }
      running := Some(installed);
      started := true;
      if * { return; }
      ready := ready + {installed};
      var confirmed := ConfirmRecoveryReady();
      if confirmed != Done {
        running := None;
        started := false;
      }
    }

    /** The daemon's handling of a delivered upgrade task (execute and BeginUpgrade). While
        the plan is open nothing happens; otherwise the upgrade is prepared and handed to a
        helper, or it fails with the old binary in place. */
    method Deliver()
      requires Inv() && running.Some?
      modifies this
      ensures Inv() && Onward()
      ensures Active(old(plan)) && !Terminal(old(journal)) ==>
        journal == old(journal) && plan == old(plan) && handoffs == old(handoffs) && helperActive == old(helperActive)
      ensures old(handoffs) <= handoffs <= old(handoffs) + 1
      ensures handoffs != old(handoffs) ==>
        && !old(helperActive) && helperActive && At(UpdaterReady) && !Terminal(journal)
        && backup == Some(Old) && candidate == Some(New)
      ensures old(helperActive) ==> Undisturbed() && ready == old(ready)
      ensures installed == old(installed)
    {
      if Terminal(journal) {
        ReportResult();
        return;
      }
      if Active(plan) { return; }
      Persist(Running, NotNeeded);
      if * { return; }
      if * {
        Persist(Failed, NotNeeded);
        return;
      }
      if running.value != installed {
        Persist(Failed, NotNeeded);
        return;
      }
      backup := Some(installed);
      candidate := Some(New);
      if * { return; }
      Save(UpdaterReady);
      if * { return; }
      if * {
        Save(Completed);
        if * { return; }
        Persist(Failed, NotNeeded);
        return;
      }
      helperActive := true;
      handoffs := handoffs + 1;
    }

    /** What happens around a helper between two of its writes. */
    method Meanwhile()
      requires Inv() && helperActive
      modifies this
      ensures Inv() && Undisturbed()
      ensures forall b :: b in ready ==> b in old(ready) || b == installed
    {
      var steps: nat := *;
      while steps > 0
        invariant Inv() && helperActive && Undisturbed()
        invariant forall b :: b in ready ==> b in old(ready) || b == installed
      {
        if {
          case true => ReportResult();
          case true => var _ := StartDaemon();
          case running.Some? => Deliver();
          case true => running := None;
        }
        steps := steps - 1;
      }
    }

    /** Others may damage or remove the retained binaries while no helper works with them. */
    method Damage()
      requires Inv() && !helperActive
      modifies this`backup, this`candidate
      ensures Inv()
    {
      if
      case true => backup := Some(Other);
      case true => candidate := Some(Other);
      case true => backup, candidate := None, None;
    }

    // -------------------------------------------------------------- the helper

    /** waitLocal: a daemon of the binary was seen ready since the mark. */
    method WaitLocal(binary: Binary) returns (healthy: bool)
      requires Inv() && helperActive
      modifies this
      ensures Inv() && Undisturbed()
      ensures healthy ==> binary in proven
      ensures healthy && old(ready) == {} ==> binary == installed
    {
      Meanwhile();
      if binary in ready {
        if * {
          proven := proven + {binary};
          return true;
        }
      }
      healthy := false;
    }

    /** finish: the outcome is recorded before the plan says so, and the plan is closed only
        after the panel has acknowledged it. */
    method Finish(status: Status, rollback: Rollback) returns (end: End)
      requires Inv() && helperActive && (status == Succeeded || status == Failed)
      requires !Terminal(journal) && status == Succeeded ==> installed == New && New in proven && rollback == NotNeeded
      requires !Terminal(journal) && status == Failed && rollback == RollbackSucceeded ==>
        installed == Old && Old in proven
      requires !Terminal(journal) && status == Failed && rollback == NotNeeded ==> installed == Old
      modifies this
      ensures Inv() && Onward() && !helperActive && handoffs == old(handoffs) && installed == old(installed)
      ensures end == Done ==> At(Completed) && journal.acknowledged
      ensures end != Crashed ==> Terminal(journal)
      ensures !Terminal(old(journal)) && Terminal(journal) ==> journal.status == status && journal.rollback == rollback
    {
      if * {
        helperActive := false;
        return Crashed;
      }
      Persist(status, rollback);
      Meanwhile();
      if * {
        helperActive := false;
        return Crashed;
      }
      Save(ResultPending);
      end := AwaitAcknowledgement();
    }

    method AwaitAcknowledgement() returns (end: End)
      requires Inv() && helperActive && Terminal(journal) && (At(ResultPending) || At(Completed))
      modifies this
      ensures Inv() && Onward() && !helperActive && handoffs == old(handoffs) && installed == old(installed)
      ensures if journal.acknowledged then end == Done && At(Completed) else end == Failure
    {
      Meanwhile();
      var tries: nat := *;
      while tries > 0 && !journal.acknowledged
        invariant Inv() && helperActive && Terminal(journal) && Onward() && (At(ResultPending) || At(Completed))
        invariant handoffs == old(handoffs) && installed == old(installed)
      {
        if * { journal := journal.(acknowledged := true); }
        Meanwhile();
        tries := tries - 1;
      }
      end := Failure;
      if journal.acknowledged {
        Save(Completed);
        end := Done;
      }
      helperActive := false;
    }

    method RollbackUpgrade() returns (end: End)
      requires Inv() && helperActive && Active(plan) && !Terminal(journal)
      modifies this
      ensures Inv() && Onward() && !helperActive && handoffs == old(handoffs)
      ensures end == Done ==> At(Completed) && journal.acknowledged
      ensures end != Crashed ==>
        journal.status == Failed && (installed == Old || journal.rollback == RollbackFailed)
    {
      if * {
        helperActive := false;
        return Crashed;
      }
      Save(RollingBack);
      Meanwhile();
      Persist(Running, NotNeeded);
      Meanwhile();
      if * { running := None; }
      ready := {};
      if backup != Some(Old) {
        end := Finish(Failed, RollbackFailed);
        return;
      }
      if * {
        helperActive := false;
        return Crashed;
      }
      installed := backup.value;
      end := StartOld();
    }

    /** The part of the rollback after the old binary is back. */
    method StartOld() returns (end: End)
      requires Inv() && helperActive && At(RollingBack) && !Terminal(journal) && installed == Old
      modifies this
      ensures Inv() && Onward() && !helperActive && handoffs == old(handoffs)
      ensures end == Done ==> At(Completed) && journal.acknowledged
      ensures end != Crashed ==> journal.status == Failed && (installed == Old || journal.rollback == RollbackFailed)
    {
      Meanwhile();
      if * {
        end := Finish(Failed, RollbackFailed);
        return;
      }
      if running == None { var _ := StartDaemon(); }
      var healthy := WaitLocal(Old);
      if !healthy {
        end := Finish(Failed, RollbackFailed);
        return;
      }
      end := Finish(Failed, RollbackSucceeded);
    }

    /** RunUpgrade: the helper's whole life, from whatever phase it finds. */
    method RunUpgrade() returns (end: End)
      requires Inv() && helperActive && plan.Some?
      modifies this
      ensures Inv() && Onward() && !helperActive && handoffs == old(handoffs)
      ensures end != Crashed && Active(old(plan)) ==> Terminal(journal)
      ensures end == Done ==> At(Completed)
      ensures end != Crashed && Active(old(plan)) && !Terminal(old(journal)) ==>
        match journal.status
        case Succeeded => installed == New && New in proven
        case _ => installed == Old || journal.rollback == RollbackFailed
    {
      Meanwhile();
      if !Active(plan) {
        helperActive := false;
        return Done;
      }
      if Terminal(journal) {
        end := Finish(journal.status, journal.rollback);
        return;
      }
      if plan.value.phase.LocalHealthy? || plan.value.phase.ResultPending? {
        end := Finish(Succeeded, NotNeeded);
        return;
      }
      if !plan.value.phase.UpdaterReady? {
        end := RollbackUpgrade();
        return;
      }
      if candidate != Some(New) || backup != Some(Old) {
        end := Finish(Failed, NotNeeded);
        return;
      }
      if * {
        end := Finish(Failed, NotNeeded);
        return;
      }
      if * {
        helperActive := false;
        return Crashed;
      }
      Save(Switching);
      end := Switch();
    }

    /** The part of RunUpgrade that replaces the binary. */
    method Switch() returns (end: End)
      requires Inv() && helperActive && At(Switching) && !Terminal(journal)
      requires candidate == Some(New) && backup == Some(Old)
      modifies this
      ensures Inv() && Onward() && !helperActive && handoffs == old(handoffs)
      ensures end == Done ==> At(Completed)
      ensures end != Crashed ==>
        match journal.status
        case Succeeded => installed == New && New in proven
        case Failed => installed == Old || journal.rollback == RollbackFailed
        case _ => false
    {
      Persist(Running, NotNeeded);
      Meanwhile();
      if * {
        end := RollbackUpgrade();
        return;
      }
      running := None;
      if * {
        helperActive := false;
        return Crashed;
      }
      installed, candidate := candidate.value, None;
      end := StartNew();
    }

    /** The part after the replacement: the new daemon is started and watched. */
    method StartNew() returns (end: End)
      requires Inv() && helperActive && At(Switching) && !Terminal(journal) && installed == New
      modifies this
      ensures Inv() && Onward() && !helperActive && handoffs == old(handoffs)
      ensures end == Done ==> At(Completed)
      ensures end != Crashed ==>
        match journal.status
        case Succeeded => installed == New && New in proven
        case Failed => installed == Old || journal.rollback == RollbackFailed
        case _ => false
    {
      Meanwhile();
      if * {
        helperActive := false;
        return Crashed;
      }
      if * {
        end := RollbackUpgrade();
        return;
      }
      Save(Starting);
      ready := {};
      Persist(Running, NotNeeded);
      Meanwhile();
      if running == None { var _ := StartDaemon(); }
      var healthy := WaitLocal(New);
      if !healthy {
        end := RollbackUpgrade();
        return;
      }
      end := ConcludeNew();
    }

    /** The new daemon was seen healthy: this is saved, and then the success. */
    method ConcludeNew() returns (end: End)
      requires Inv() && helperActive && At(Starting) && !Terminal(journal) && installed == New && New in proven
      modifies this
      ensures Inv() && Onward() && !helperActive && handoffs == old(handoffs)
      ensures end == Done ==> At(Completed)
      ensures end != Crashed ==> journal.status == Succeeded && installed == New
    {
      if * {
        helperActive := false;
        return Crashed;
      }
      Save(LocalHealthy);
      Meanwhile();
      end := Finish(Succeeded, NotNeeded);
    }
  }

  // ---------------------------------------------------------------- whole lives

  /** Any interleaving of deliveries, restarts, helpers and crashes keeps the record true. A
      helper that dies leaves the host to the next daemon start. */
  method Live(host: Host, steps: nat)
    requires host.Inv()
    modifies host
    ensures host.Inv()
    ensures Terminal(old(host.journal)) ==> host.journal.status == old(host.journal.status)
  {
    for i := 0 to steps
      invariant host.Inv()
      invariant Terminal(old(host.journal)) ==>
        Terminal(host.journal) && host.journal.status == old(host.journal.status)
    {
      Act(host);
    }
  }

  /** One thing that can happen to the host. */
  method Act(host: Host)
    requires host.Inv()
    modifies host
    ensures host.Inv()
    ensures Terminal(old(host.journal)) ==>
      && Terminal(host.journal) && host.journal.status == old(host.journal.status)
      && host.journal.rollback == old(host.journal.rollback)
    ensures Active(old(host.plan)) && !Terminal(old(host.journal)) ==> host.handoffs == old(host.handoffs)
  {
    if
    case true => var _ := host.StartDaemon();
    case true => host.running := None;
    case host.running.Some? => host.Deliver();
    case true => host.ReportResult();
    case !host.helperActive => host.Damage();
    case host.helperActive && host.plan.Some? => var _ := host.RunUpgrade();
    case true => host.helperActive := false;
  }
}
