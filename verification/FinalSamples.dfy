/** Which samples reach the usage store, and in what order: the adapter's closeInstance,
    retryFinal, start and AcknowledgeFinalSample
    (services/daemon/internal/adapters/singbox/adapter.go) interleaved with the collector
    (services/daemon/internal/panelclient/usage.go). Each event is one lock region. */
module FinalSamples {
  import opened Wrappers
  import opened UsageTypes

  /** An accepted sample of a runtime. */
  datatype Sample = Sample(runtime: Runtime, final: bool)

  /** Where the adapter's operation, of which there is one at a time, has come to. */
  datatype Op =
    | Idle
    | Draining(runtime: Runtime)                     // closed, its tracker not yet drained
    | Closing(runtime: Runtime)                      // drained, its final sample not yet offered
    | Parking(runtime: Runtime)                      // the final sample was refused
    | Retrying(starting: bool)                       // about to look at the pending samples
    | Resending(runtime: Runtime, starting: bool)    // holds a copy of the first pending sample
    | Acking(runtime: Runtime, starting: bool)       // that copy was accepted
    | Baseline(runtime: Runtime)                     // a new runtime, its zero baseline not yet offered
    | Booting(runtime: Runtime)

  /** The collector, which holds its lock in every state but Free. */
  datatype Collector = Free | Holding(sample: Sample) | Accepted(runtime: Runtime)

  datatype State = State(active: Option<Runtime>, pending: seq<Runtime>, op: Op, collector: Collector,
                         used: set<Runtime>, log: seq<Sample>, drained: set<Runtime>)

  /** What comes of offering a sample to the store: it is recorded, it is recorded although
      the caller sees an error, or it is refused. */
  datatype Offer = Stored | Committed | Refused

  /** `counted` says that the drain succeeded and the runtime has users to report. */
  datatype Event =
    | Detach
    | Drained(counted: bool)
    | OfferFinal(offer: Offer)
    | Park
    | Begin(starting: bool)
    | Look(unused: Runtime)
    | Resend(offer: Offer)
    | Acknowledge
    | OfferBaseline(offer: Offer)
    | SkipBaseline
    | Boot(ok: bool)
    | Read
    | Record(offer: Offer)
    | Release
    | Crash

  /** The form of a runtime identifier: a prefix and 16 random bytes in hexadecimal. */
  predicate Embedded(r: Runtime) { |r| == 41 && r[..9] == "embedded-" }

  /** A sample is recorded under the collector's lock. */
  predicate Offered(s: State, offer: Offer) { offer.Refused? || s.collector.Free? }

  predicate Enabled(s: State, e: Event) {
    match e
    case Detach => s.op.Idle? && s.active.Some?
    case Drained(_) => s.op.Draining?
    case OfferFinal(offer) => s.op.Closing? && Offered(s, offer)
    case Park => s.op.Parking?
    case Begin(_) => s.op.Idle? && s.active.None?
    case Look(unused) => s.op.Retrying? && unused !in s.used && Embedded(unused)
    case Resend(offer) => s.op.Resending? && Offered(s, offer)
    case Acknowledge => s.op.Acking?
    case OfferBaseline(offer) => s.op.Baseline? && Offered(s, offer)
    case SkipBaseline => s.op.Baseline?
    case Boot(_) => s.op.Booting?
    case Read => s.collector.Free? && (s.pending != [] || s.active.Some?)
    case Record(_) => s.collector.Holding?
    case Release => s.collector.Accepted?
    case Crash => true
  }

  /** AcknowledgeFinalSample: the first pending sample of the runtime goes. */
  function Without(pending: seq<Runtime>, r: Runtime): seq<Runtime> {
    if pending == [] then [] else if pending[0] == r then pending[1..] else [pending[0]] + Without(pending[1..], r)
  }

  /** The log after an offer. */
  function Logged(log: seq<Sample>, sample: Sample, offer: Offer): seq<Sample> {
    if offer.Refused? then log else log + [sample]
  }

  function Next(s: State, e: Event): State
    requires Enabled(s, e)
  {
    match e
    case Detach => s.(active := None, op := Draining(s.active.value))
    case Drained(counted) =>
      if counted then s.(op := Closing(s.op.runtime), drained := s.drained + {s.op.runtime}) else s.(op := Idle)
    case OfferFinal(offer) =>
      s.(op := if offer.Stored? then Idle else Parking(s.op.runtime),
         log := Logged(s.log, Sample(s.op.runtime, true), offer))
    case Park => s.(op := Idle, pending := s.pending + [s.op.runtime])
    case Begin(starting) => s.(op := Retrying(starting))
    case Look(unused) =>
      if s.pending != [] then s.(op := Resending(s.pending[0], s.op.starting))
      else if s.op.starting then s.(op := Baseline(unused), used := s.used + {unused})
      else s.(op := Idle)
    case Resend(offer) =>
      s.(op := if offer.Stored? then Acking(s.op.runtime, s.op.starting) else Idle,
         log := Logged(s.log, Sample(s.op.runtime, true), offer))
    case Acknowledge => s.(op := Retrying(s.op.starting), pending := Without(s.pending, s.op.runtime))
    case OfferBaseline(offer) =>
      s.(op := if offer.Stored? then Booting(s.op.runtime) else Draining(s.op.runtime),
         log := Logged(s.log, Sample(s.op.runtime, false), offer))
    case SkipBaseline => s.(op := Booting(s.op.runtime))
    case Boot(ok) =>
      if ok then s.(op := Idle, active := Some(s.op.runtime)) else s.(op := Draining(s.op.runtime))
    case Read =>
      s.(collector := Holding(if s.pending != [] then Sample(s.pending[0], true) else Sample(s.active.value, false)))
    case Record(offer) =>
      var sample := s.collector.sample;
      s.(log := Logged(s.log, sample, offer),
         collector := if offer.Stored? && sample.final then Accepted(sample.runtime) else Free)
    case Release => s.(collector := Free, pending := Without(s.pending, s.collector.runtime))
    case Crash => State(None, [], Idle, Free, s.used, s.log, {})
  }

  /** The sample a lock region records, if it records one. */
  function Recorded(s: State, e: Event): Option<Sample>
    requires Enabled(s, e)
  {
    match e
    case OfferFinal(offer) => if offer.Refused? then None else Some(Sample(s.op.runtime, true))
    case Resend(offer) => if offer.Refused? then None else Some(Sample(s.op.runtime, true))
    case OfferBaseline(offer) => if offer.Refused? then None else Some(Sample(s.op.runtime, false))
    case Record(offer) => if offer.Refused? then None else Some(s.collector.sample)
    case _ => None
  }

  lemma LogGrows(s: State, e: Event)
    requires Enabled(s, e)
    ensures Next(s, e).log == s.log + if Recorded(s, e).Some? then [Recorded(s, e).value] else []
  {}

  const Booted := State(None, [], Idle, Free, {}, [], {})

  // ---------------------------------------------------------------- the order of samples

  function Runtimes(log: seq<Sample>): seq<Runtime> {
    seq(|log|, i requires 0 <= i < |log| => log[i].runtime)
  }

  /** No runtime returns after another one. */
  ghost predicate Grouped(runtimes: seq<Runtime>) {
    forall i, j, k :: 0 <= i < j < k < |runtimes| && runtimes[i] == runtimes[k] ==> runtimes[j] == runtimes[k]
  }

  /** The runtimes the adapter refers to. */
  function Mentioned(s: State): set<Runtime> {
    (if s.active.Some? then {s.active.value} else {})
    + (set r | r in s.pending)
    + if s.op.Idle? || s.op.Retrying? then {} else {s.op.runtime}
  }

  function Collected(s: State): set<Runtime> {
    match s.collector
    case Free => {}
    case Holding(sample) => {sample.runtime}
    case Accepted(runtime) => {runtime}
  }

  predicate Heard(s: State, r: Runtime) { exists i :: 0 <= i < |s.log| && s.log[i].runtime == r }

  /** If it was heard of, it was heard of last. */
  predicate Current(s: State, r: Runtime) { Heard(s, r) ==> s.log[|s.log| - 1].runtime == r }

  /** At most one runtime is anywhere in the adapter, and at most one sample waits. */
  ghost predicate ShapeInv(s: State) {
    && Mentioned(s) + Collected(s) <= s.used && (forall r :: r in s.used ==> Embedded(r))
    && |s.pending| <= 1
    && (s.active.Some? ==> s.op.Idle? && s.pending == [])
    && (s.op.Draining? || s.op.Closing? || s.op.Parking? || s.op.Baseline? || s.op.Booting? ==> s.pending == [])
    && (forall x, y :: x in Mentioned(s) && y in Mentioned(s) ==> x == y)
  }

  /** What is still referred to was heard of last or never, and a collector that holds
      another runtime than the adapter holds the older one. */
  ghost predicate OrderInv(s: State) {
    && Grouped(Runtimes(s.log))
    && (forall r :: Heard(s, r) ==> r in s.used)
    && (forall x :: x in Mentioned(s) + Collected(s) ==> Current(s, x))
    && (forall x, r :: x in Mentioned(s) && r in Collected(s) && x != r ==> !Heard(s, x))
  }

  /** A final sample is owed until it has been accepted. */
  ghost predicate FinalInv(s: State) {
    && (forall r :: r in s.drained ==>
          Sample(r, true) in s.log || r in s.pending || s.op == Closing(r) || s.op == Parking(r))
    && (s.op.Acking? ==> Sample(s.op.runtime, true) in s.log)
    && (s.collector.Accepted? ==> Sample(s.collector.runtime, true) in s.log)
  }

  lemma Appended(s: State, t: State, sample: Sample)
    requires t.log == s.log + [sample] && Grouped(Runtimes(s.log)) && Current(s, sample.runtime)
    ensures Grouped(Runtimes(t.log)) && Heard(t, sample.runtime)
    ensures forall r :: Heard(t, r) <==> Heard(s, r) || r == sample.runtime
    ensures forall r :: (Current(t, r) <==> r == sample.runtime || !Heard(s, r))
  {
    assert t.log[|s.log|].runtime == sample.runtime;
    forall r | Heard(s, r) ensures Heard(t, r) {
      var i :| 0 <= i < |s.log| && s.log[i].runtime == r;
      assert t.log[i].runtime == r;
    }
    assert forall i :: 0 <= i < |s.log| ==> Runtimes(t.log)[i] == Runtimes(s.log)[i];
    forall i, j, k | 0 <= i < j < k < |t.log| && Runtimes(t.log)[i] == Runtimes(t.log)[k]
      ensures Runtimes(t.log)[j] == Runtimes(t.log)[k]
    {
      if k == |s.log| {
        assert Heard(s, sample.runtime);
        var last := |s.log| - 1;
        if j < last { assert Runtimes(s.log)[i] == Runtimes(s.log)[last]; }
      }
    }
  }

  lemma SameLog(s: State, t: State)
    requires t.log == s.log
    ensures forall r :: (Heard(t, r) <==> Heard(s, r)) && (Current(t, r) <==> Current(s, r))
  {}

  lemma WithoutOne(s: State, r: Runtime)
    requires ShapeInv(s)
    ensures Without(s.pending, r) == if s.pending == [r] then [] else s.pending
  {}

  predicate Pausing(e: Event) { e.Read? || e.Record? || e.Release? || e.Crash? || e.Acknowledge? || e.Begin? }

  lemma PauseShape(s: State, e: Event)
    requires ShapeInv(s) && Enabled(s, e) && Pausing(e)
    ensures ShapeInv(Next(s, e))
  {
    hide Embedded;
    if e.Acknowledge? { WithoutOne(s, s.op.runtime); }
    if e.Release? { WithoutOne(s, s.collector.runtime); }
  }

  lemma WorkShape(s: State, e: Event)
    requires ShapeInv(s) && Enabled(s, e) && !Pausing(e)
    ensures ShapeInv(Next(s, e))
  {
    hide Logged;
  }

  lemma ShapeKept(s: State, e: Event)
    requires ShapeInv(s) && Enabled(s, e)
    ensures ShapeInv(Next(s, e))
  {
    hide ShapeInv;
    hide Enabled;
    hide Next;
    if Pausing(e) { PauseShape(s, e); } else { WorkShape(s, e); }
  }

  /** Runtimes come into play only as unused ones, and only the collector and the adapter
      exchange them. */
  lemma References(s: State, e: Event)
    requires ShapeInv(s) && Enabled(s, e)
    ensures var t := Next(s, e);
            && s.used <= t.used
            && (forall r :: r in Mentioned(t) ==> r in Mentioned(s) || r !in s.used)
            && (forall r :: r in Collected(t) ==> r in Collected(s) || r in Mentioned(s))
            && (t.log == s.log
                || exists sample :: (t.log == s.log + [sample]
                   && if s.collector.Free? then sample.runtime in Mentioned(s) && Collected(t) == {}
                      else Collected(s) == {sample.runtime}))
  {
    var t := Next(s, e);
    if e.Acknowledge? { WithoutOne(s, s.op.runtime); }
    if e.Release? { WithoutOne(s, s.collector.runtime); }
    if t.log != s.log {
      var sample := if e.Record? then s.collector.sample else Sample(s.op.runtime, !e.OfferBaseline?);
      assert t.log == s.log + [sample];
    }
  }

  lemma OrderKept(s: State, e: Event)
    requires ShapeInv(s) && OrderInv(s) && Enabled(s, e)
    ensures OrderInv(Next(s, e))
  {
    hide Mentioned;
    hide Collected;
    hide Enabled;
    hide Heard;
    hide Grouped;
    hide Embedded;
    hide Next;
    References(s, e);
    ShapeKept(s, e);
    var t := Next(s, e);
    if t.log == s.log {
      SameLog(s, t);
    } else {
      var sample :| t.log == s.log + [sample]
                    && if s.collector.Free? then sample.runtime in Mentioned(s) && Collected(t) == {}
                       else Collected(s) == {sample.runtime};
      Appended(s, t, sample);
    }
  }

  lemma FinalKept(s: State, e: Event)
    requires ShapeInv(s) && FinalInv(s) && Enabled(s, e)
    ensures FinalInv(Next(s, e))
  {
  }

  ghost predicate Run(states: seq<State>, events: seq<Event>) {
    && |states| == |events| + 1 && states[0] == Booted
    && forall i :: 0 <= i < |events| ==> Enabled(states[i], events[i]) && states[i + 1] == Next(states[i], events[i])
  }

  /** Over any interleaving and any crashes: accepted samples come runtime by runtime, at
      most one final sample waits, and no drained runtime's final sample is forgotten while
      the process lives. */
  lemma {:induction false} SamplesInOrder(states: seq<State>, events: seq<Event>, n: nat)
    requires Run(states, events) && n < |states|
    ensures ShapeInv(states[n]) && OrderInv(states[n]) && FinalInv(states[n])
  {
    if n > 0 {
      SamplesInOrder(states, events, n - 1);
      ShapeKept(states[n - 1], events[n - 1]);
      OrderKept(states[n - 1], events[n - 1]);
      FinalKept(states[n - 1], events[n - 1]);
    }
  }

  /** Runtimes whose final sample has been taken and is not given up. */
  function Owed(s: State): set<Runtime> {
    (set r | r in s.pending)
    + (if s.op.Closing? || s.op.Parking? || s.op.Resending? || s.op.Acking? then {s.op.runtime} else {})
    + (if s.collector.Holding? && s.collector.sample.final then {s.collector.sample.runtime} else {})
  }

  /** A final sample is recorded only of a runtime that was drained before. */
  lemma FinalsAreOwed(s: State, e: Event)
    requires Enabled(s, e)
    ensures Owed(Next(s, e)) <= Owed(s) + if e == Drained(true) then {s.op.runtime} else {}
    ensures forall r :: Sample(r, true) in Next(s, e).log ==> Sample(r, true) in s.log || r in Owed(s)
  {
    if e.Acknowledge? { WithoutLess(s.pending, s.op.runtime); }
    if e.Release? { WithoutLess(s.pending, s.collector.runtime); }
  }

  lemma {:induction false} WithoutLess(pending: seq<Runtime>, r: Runtime)
    ensures forall x :: x in Without(pending, r) ==> x in pending
  {
    if pending != [] && pending[0] != r { WithoutLess(pending[1..], r); }
  }

  /** A new runtime begins only after the final samples of all drained ones were accepted. */
  lemma SettledBeforeLaunch(s: State, unused: Runtime)
    requires ShapeInv(s) && FinalInv(s) && Enabled(s, Look(unused)) && Next(s, Look(unused)).op == Baseline(unused)
    ensures forall r :: r in s.drained ==> Sample(r, true) in s.log
  {}
}
