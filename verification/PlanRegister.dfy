/** The plan file over successive upgrades: several helpers, the daemon's handoffs and
    acknowledgements, and recovery share one register (save, Active, ensureIdle and
    Acknowledge in services/daemon/internal/updater/types.go). */
module PlanRegister {
  import opened Wrappers
  import opened Upgrade

  /** The helper of an upgrade, from its handoff, which may be recalled because it could not be
      started: before its outcome is journalled, before it has saved that a result is
      pending, or waiting for the acknowledgement. */
  datatype Helper = Working | Concluded | Waiting

  datatype State = State(plan: Option<Plan>, terminal: set<TaskId>, acked: set<TaskId>,
                         helpers: map<TaskId, Helper>, latest: Option<TaskId>)

  datatype Event =
    | HandOff(id: TaskId)
    | Recall(id: TaskId)
    | Progress(id: TaskId, phase: Phase)
    | Conclude(id: TaskId)
    | Pend(id: TaskId)
    | Acknowledge(id: TaskId)
    | Close(id: TaskId)
    | Finish(id: TaskId)
    | Die(id: TaskId)
    | Settle
    | Restore
    | Confirm

  const Idle := State(None, {}, {}, map[], None)

  predicate Is(s: State, id: TaskId, stage: Helper) { id in s.helpers && s.helpers[id] == stage }

  /** The daemon's guards before a handoff: the upgrade is not over, its own plan is not open,
      and the plan of any other is completed or acknowledged. */
  predicate Admits(s: State, id: TaskId) {
    && id !in s.terminal
    && (s.plan.None? || s.plan.value.phase.Completed? || (s.plan.value.task != id && s.plan.value.task in s.acked))
  }

  /** An open plan nobody works on. */
  predicate Unattended(s: State) { Active(s.plan) && s.plan.value.task !in s.helpers }

  predicate Enabled(s: State, e: Event) {
    match e
    case HandOff(id) => Admits(s, id) && id !in s.helpers
    case Recall(id) => Is(s, id, Working)
    case Progress(id, phase) => Is(s, id, Working) && phase in {Switching, Starting, LocalHealthy, RollingBack}
    case Conclude(id) => Is(s, id, Working)
    case Pend(id) => Is(s, id, Concluded)
    case Acknowledge(id) => id in s.terminal
    case Close(id) => id in s.acked && s.plan.Some? && s.plan.value.task == id
    case Finish(id) => Is(s, id, Waiting) && id in s.acked
    case Die(id) => id in s.helpers
    case Settle => Unattended(s) && s.plan.value.phase in {LocalHealthy, ResultPending}
    case Restore =>
      Unattended(s) && s.plan.value.task !in s.terminal && s.plan.value.phase !in {LocalHealthy, ResultPending}
    case Confirm => Unattended(s) && s.plan.value.phase.Restored?
  }

  function Next(s: State, e: Event): State
    requires Enabled(s, e)
  {
    match e
    case HandOff(id) =>
      s.(plan := Saved(s.plan, Plan(id, UpdaterReady)), helpers := s.helpers[id := Working], latest := Some(id))
    case Recall(id) =>
      s.(plan := Saved(s.plan, Plan(id, Completed)), helpers := s.helpers - {id}, terminal := s.terminal + {id})
    case Progress(id, phase) => s.(plan := Saved(s.plan, Plan(id, phase)))
    case Conclude(id) => s.(helpers := s.helpers[id := Concluded], terminal := s.terminal + {id})
    case Pend(id) => s.(helpers := s.helpers[id := Waiting], plan := Saved(s.plan, Plan(id, ResultPending)))
    case Acknowledge(id) => s.(acked := s.acked + {id})
    case Close(id) => s.(plan := Saved(s.plan, Plan(id, Completed)))
    case Finish(id) => s.(plan := Saved(s.plan, Plan(id, Completed)), helpers := s.helpers - {id})
    case Die(id) => s.(helpers := s.helpers - {id})
    case Settle => s.(terminal := s.terminal + {s.plan.value.task})
    case Restore => s.(plan := Saved(s.plan, Plan(s.plan.value.task, Restored)))
    case Confirm =>
      s.(plan := Saved(s.plan, Plan(s.plan.value.task, ResultPending)), terminal := s.terminal + {s.plan.value.task})
  }

  ghost predicate Run(states: seq<State>, events: seq<Event>) {
    && |states| == |events| + 1
    && forall i :: 0 <= i < |events| ==> Enabled(states[i], events[i]) && states[i + 1] == Next(states[i], events[i])
  }

  /** The plan file speaks of this upgrade. */
  predicate Holds(s: State, id: TaskId) { s.plan.Some? && s.plan.value.task == id }

  /** A helper of another upgrade still has a save ahead that is not the completion. */
  ghost predicate Threatened(s: State, id: TaskId) {
    exists other :: other != id && (Is(s, other, Working) || Is(s, other, Concluded))
  }

  // ---------------------------------------------------------------- when a plan survives

  lemma ThreatIsOld(s: State, e: Event, id: TaskId)
    requires Enabled(s, e) && !e.HandOff? && Threatened(Next(s, e), id)
    ensures Threatened(s, id)
  {
    var other :| other != id && (Is(Next(s, e), other, Working) || Is(Next(s, e), other, Concluded));
    assert Is(s, other, Working) || Is(s, other, Concluded);
  }

  lemma SaverThreatens(s: State, e: Event, id: TaskId)
    requires Enabled(s, e) && (e.Progress? || e.Pend?)
    ensures e.id != id ==> Threatened(s, id)
  {
    assert Is(s, e.id, Working) || Is(s, e.id, Concluded);
  }

  lemma StepSurvives(s: State, e: Event, id: TaskId)
    requires Holds(s, id) && !Threatened(s, id) && Enabled(s, e) && !e.HandOff?
    ensures Holds(Next(s, e), id) && !Threatened(Next(s, e), id)
  {
    if Threatened(Next(s, e), id) { ThreatIsOld(s, e, id); }
    if e.Progress? || e.Pend? { SaverThreatens(s, e, id); }
  }

  lemma {:induction false} RunSurvives(states: seq<State>, events: seq<Event>, id: TaskId, n: nat)
    requires Run(states, events) && n < |states| && Holds(states[0], id) && !Threatened(states[0], id)
    requires forall i :: 0 <= i < |events| ==> !events[i].HandOff?
    ensures Holds(states[n], id) && !Threatened(states[n], id)
  {
    if n > 0 {
      RunSurvives(states, events, id, n - 1);
      StepSurvives(states[n - 1], events[n - 1], id);
    }
  }

  /** A run without a further handoff in which the plan is lost. */
  ghost predicate Loses(s: State, id: TaskId, states: seq<State>, events: seq<Event>) {
    && Run(states, events) && states[0] == s && (forall i :: 0 <= i < |events| ==> !events[i].HandOff?)
    && exists n :: 0 <= n < |states| && !Holds(states[n], id)
  }

  lemma ThreatLoses(s: State, id: TaskId) returns (states: seq<State>, events: seq<Event>)
    requires Holds(s, id) && Threatened(s, id)
    ensures Loses(s, id, states, events)
  {
    var other :| other != id && (Is(s, other, Working) || Is(s, other, Concluded));
    if Is(s, other, Concluded) {
      events := [Pend(other)];
      states := [s, Next(s, events[0])];
      assert !Holds(states[1], id);
    } else {
      var concluded := Next(s, Conclude(other));
      events := [Conclude(other), Pend(other)];
      states := [s, concluded, Next(concluded, Pend(other))];
      assert !Holds(states[2], id);
    }
  }

  /** Once handed off, an upgrade's plan survives every continuation without another handoff
      if and only if no earlier helper is still before its last save but the completion. */
  lemma SurvivesExactly(s: State, id: TaskId)
    requires Holds(s, id)
    ensures (forall states, events :: !Loses(s, id, states, events)) <==> !Threatened(s, id)
  {
    if Threatened(s, id) {
      var states, events := ThreatLoses(s, id);
      assert Loses(s, id, states, events);
    } else {
      forall states, events | Loses(s, id, states, events) ensures false {
        var n :| 0 <= n < |states| && !Holds(states[n], id);
        RunSurvives(states, events, id, n);
      }
    }
  }

  // ---------------------------------------------------------------- whole runs

  /** Every handoff waits for the helpers of other upgrades. */
  ghost predicate Patient(states: seq<State>, events: seq<Event>) {
    && |states| == |events| + 1
    && forall i :: 0 <= i < |events| && events[i].HandOff? ==> !Threatened(states[i], events[i].id)
  }

  ghost predicate Kept(s: State) {
    && (s.plan.Some? <==> s.latest.Some?)
    && (s.latest.Some? ==> Holds(s, s.latest.value) && !Threatened(s, s.latest.value))
    && (s.latest.None? ==> s.helpers == map[])
  }

  lemma HandOffKept(s: State, id: TaskId)
    requires Enabled(s, HandOff(id)) && !Threatened(s, id)
    ensures Kept(Next(s, HandOff(id)))
  {
    var t := Next(s, HandOff(id));
    forall other | other != id && (Is(t, other, Working) || Is(t, other, Concluded)) ensures Threatened(s, id) {
      assert Is(s, other, Working) || Is(s, other, Concluded);
    }
  }

  lemma QuietKept(s: State, e: Event)
    requires Kept(s) && Enabled(s, e) && !e.HandOff?
    ensures Kept(Next(s, e))
  {
    if s.latest.Some? { StepSurvives(s, e, s.latest.value); }
  }

  /** In every run whose handoffs are patient, the file always speaks of the latest upgrade,
      so that while its plan is open no second helper is started for it. */
  lemma {:induction false} PatientRuns(states: seq<State>, events: seq<Event>, n: nat)
    requires Run(states, events) && states[0] == Idle && Patient(states, events) && n < |states|
    ensures Kept(states[n])
    ensures states[n].latest.Some? && Active(states[n].plan) ==> !Enabled(states[n], HandOff(states[n].latest.value))
  {
    if n > 0 {
      PatientRuns(states, events, n - 1);
      var s, e := states[n - 1], events[n - 1];
      if e.HandOff? { HandOffKept(s, e.id); } else { QuietKept(s, e); }
    }
  }

  /** An impatient handoff is reachable, and it loses a plan: a first helper has journalled its
      outcome, the daemon reports it, closes the plan and hands off a second upgrade, and then
      the first helper saves its pending result. The daemon's guards would now hand off the
      second upgrade again, although its helper is at work. */
  lemma Overtaken() returns (states: seq<State>, events: seq<Event>)
    ensures Run(states, events) && states[0] == Idle && |events| == 6
    ensures var s := states[6];
            s.plan == Some(Plan(1, ResultPending)) && Is(s, 2, Working) && 2 !in s.terminal && Admits(s, 2)
  {
    var a := Next(Idle, HandOff(1));
    var b := Next(a, Conclude(1));
    var c := Next(b, Acknowledge(1));
    var d := Next(c, Close(1));
    assert d == State(Some(Plan(1, Completed)), {1}, {1}, map[1 := Concluded], Some(1));
    var e, f := Overtake(d);
    events := [HandOff(1), Conclude(1), Acknowledge(1), Close(1), HandOff(2), Pend(1)];
    states := [Idle, a, b, c, d, e, f];
  }

  lemma Overtake(d: State) returns (e: State, f: State)
    requires d == State(Some(Plan(1, Completed)), {1}, {1}, map[1 := Concluded], Some(1))
    ensures Enabled(d, HandOff(2)) && e == Next(d, HandOff(2)) && Enabled(e, Pend(1)) && f == Next(e, Pend(1))
    ensures f.plan == Some(Plan(1, ResultPending)) && Is(f, 2, Working) && 2 !in f.terminal && Admits(f, 2)
  {
    e := Next(d, HandOff(2));
    f := Next(e, Pend(1));
  }
}
