/** From bytes on the wire to the month ledger: every runtime's traffic tracker joined with the
    samples the daemon takes of it and the usage protocol they feed. */
module Accounting {
  import opened Wrappers
  import opened UsageTypes
  import opened Collections
  import O = Outbox
  import L = Ledger
  import P = LedgerProofs
  import E = Pipeline
  import F = FinalSamples
  import M = Metering
  import T = Tracker

  /** A metered machine; each runtime has its own tracker and a fixed set of users. */
  datatype Machine = Machine(metered: M.Joint, trackers: map<Runtime, T.State>, users: map<Runtime, set<User>>)

  /** A step of metering, with the users of the runtime it may launch, or of one tracker. */
  datatype Action = Metered(x: M.Action, users: set<User>) | Traffic(runtime: Runtime, e: T.Event)

  function Of(c: O.Counter, dir: Direction): int { if dir == Up then c.upload else c.download }

  /** A sample lists all users of its runtime. A final one holds what the drained tracker
      counted, any other what it had counted at some time before. */
  ghost predicate Read(a: Machine, counters: seq<O.Counter>, sample: F.Sample) {
    && sample.runtime in a.trackers && sample.runtime in a.users
    && O.Users(counters) == a.users[sample.runtime]
    && var table := a.trackers[sample.runtime].table;
    forall i, dir :: 0 <= i < |counters| ==>
      var counted := T.Count(table.counters, (counters[i].user, dir));
      if sample.final then Of(counters[i], dir) == counted else Of(counters[i], dir) <= counted
  }

  predicate Launches(s: F.State, e: F.Event)
    requires F.Enabled(s, e)
  {
    e.Look? && F.Next(s, e).op == F.Baseline(e.unused)
  }

  predicate DrainedNow(a: Machine, e: F.Event) {
    e == F.Drained(true) && a.metered.source.op.Draining? ==>
      a.metered.source.op.runtime in a.trackers && a.trackers[a.metered.source.op.runtime].drain.Drained?
  }

  ghost predicate Step(site: E.Site, a: Machine, x: Action, b: Machine) {
    match x
    case Metered(m, users) =>
      && M.Step(site, a.metered, m, b.metered)
      && (match m
          case Protocol(_) => b.trackers == a.trackers && b.users == a.users
          case Region(e, counters) =>
            && DrainedNow(a, e)
            && (F.Recorded(a.metered.source, e).Some? ==> Read(a, counters, F.Recorded(a.metered.source, e).value))
            && (if Launches(a.metered.source, e)
                then b.trackers == a.trackers[e.unused := T.Fresh] && b.users == a.users[e.unused := users]
                else b.trackers == a.trackers && b.users == a.users))
    case Traffic(r, e) =>
      && r in a.trackers && r in a.users && T.Enabled(a.trackers[r], e) && (e.Route? ==> e.user in a.users[r])
      && b == a.(trackers := a.trackers[r := T.Next(a.trackers[r], e)])
  }

  // ---------------------------------------------------------------- invariant

  ghost function MovedBy(a: Machine, r: Runtime, user: User, dir: Direction): int {
    if r in a.trackers then T.Count(a.trackers[r].moved, (user, dir)) else 0
  }

  ghost predicate TrackersInv(a: Machine) {
    && a.trackers.Keys == a.users.Keys == a.metered.source.used
    && forall r :: r in a.trackers ==> T.Inv(a.trackers[r])
  }

  ghost predicate IsDrained(a: Machine, r: Runtime) { r in a.trackers && a.trackers[r].drain == T.Drained }

  /** A final sample is taken of a drained tracker only. */
  ghost predicate DrainInv(a: Machine) {
    && (forall r :: r in F.Owed(a.metered.source) ==> IsDrained(a, r))
    && (forall r :: F.Sample(r, true) in a.metered.source.log ==> IsDrained(a, r))
  }

  /** Readings never run ahead of the bytes moved. */
  ghost predicate Behind(a: Machine, user: User) {
    forall r :: r in E.History(a.metered.usage.recorded, user) ==>
      && r in a.users && user in a.users[r]
      && forall dir :: E.Part(E.History(a.metered.usage.recorded, user)[r], dir) <= MovedBy(a, r, user, dir)
  }

  /** A recorded final sample is exact and keeps the cursor closed. */
  ghost predicate Exact(a: Machine, r: Runtime, user: User) {
    var s := a.metered.usage;
    && r in E.History(s.recorded, user) && user in s.store.cursors
    && (forall dir :: E.Part(E.History(s.recorded, user)[r], dir) == MovedBy(a, r, user, dir))
    && (s.store.cursors[user].runtime == r ==> s.store.cursors[user].closed)
  }

  ghost predicate ReadingsInv(a: Machine) {
    && (forall user :: Behind(a, user))
    && (forall r, user :: F.Sample(r, true) in a.metered.source.log && r in a.users && user in a.users[r] ==>
          Exact(a, r, user))
  }

  ghost predicate Inv(site: E.Site, a: Machine) {
    M.Inv(site, a.metered) && TrackersInv(a) && DrainInv(a) && ReadingsInv(a)
  }

  // ---------------------------------------------------------------- traffic

  lemma TrafficTrackers(a: Machine, r: Runtime, e: T.Event, b: Machine)
    requires TrackersInv(a) && DrainInv(a) && r in a.trackers && T.Enabled(a.trackers[r], e)
    requires b == a.(trackers := a.trackers[r := T.Next(a.trackers[r], e)])
    ensures TrackersInv(b) && DrainInv(b)
    ensures IsDrained(a, r) ==> forall user, dir :: MovedBy(b, r, user, dir) == MovedBy(a, r, user, dir)
  {
    hide T.Inv;
    hide T.Next;
    hide F.Owed;
    T.StepInv(a.trackers[r], e);
    if IsDrained(a, r) { T.DrainedStays(a.trackers[r], e); }
    forall q | IsDrained(a, q) ensures IsDrained(b, q) {}
  }

  lemma TrafficKept(site: E.Site, a: Machine, r: Runtime, e: T.Event, b: Machine)
    requires Inv(site, a) && Step(site, a, Traffic(r, e), b)
    ensures Inv(site, b)
  {
    hide M.Inv;
    hide TrackersInv;
    hide T.Count;
    hide T.Next;
    hide T.Enabled;
    hide Behind;
    hide Exact;
    TrafficTrackers(a, r, e, b);
    forall user ensures Behind(b, user) {
      forall q, dir ensures MovedBy(a, q, user, dir) <= MovedBy(b, q, user, dir) {
        T.MovedGrows(a.trackers[r], e, (user, dir));
      }
      BehindFrame(a, b, user);
    }
    forall q, user | F.Sample(q, true) in b.metered.source.log && q in b.users && user in b.users[q]
      ensures Exact(b, q, user)
    {
      assert IsDrained(a, q);
      ExactFrame(a, b, q, user);
    }
  }

  // ---------------------------------------------------------------- samples

  /** One user's history and cursor after a recorded sample. */
  lemma UserSampled(site: E.Site, s: E.System, counters: seq<O.Counter>, sample: F.Sample, t: E.System, i: nat)
    requires E.HistoryInv(s.store.cursors, s.recorded) && E.Managed(s, counters)
    requires M.SampleOf(counters, sample) && M.Sampled(site, s, counters, t) && i < |counters|
    ensures var c := counters[i];
            var prior := O.Lookup(s.store.cursors, c.user);
            var step := O.Account(prior, c);
            && step != O.Refuse && c.user in t.store.cursors && t.store.cursors[c.user].runtime == sample.runtime
            && t.store.cursors[c.user] == (if step.Keep? then s.store.cursors[c.user] else O.CursorOf(c))
            && E.History(t.recorded, c.user)
               == E.History(s.recorded, c.user)[sample.runtime := E.ReadingOf(t.store.cursors[c.user])]
  {
    hide O.SampleAll;
    hide O.Recorded;
    hide O.Account;
    E.RecordedCursors(s.store, counters, site.size);
    O.CursorOutcome(s.store.cursors, counters, i);
    M.CursorsAfter(s.store.cursors, counters, sample);
    assert counters[i].user in O.Users(counters);
  }

  /** Users a sample does not list keep history and cursor. */
  lemma UserSpared(site: E.Site, s: E.System, counters: seq<O.Counter>, sample: F.Sample, t: E.System, user: User)
    requires E.HistoryInv(s.store.cursors, s.recorded)
    requires M.SampleOf(counters, sample) && M.Sampled(site, s, counters, t) && user !in O.Users(counters)
    ensures O.Lookup(t.store.cursors, user) == O.Lookup(s.store.cursors, user)
    ensures E.History(t.recorded, user) == E.History(s.recorded, user)
  {
    hide O.SampleAll;
    hide O.Recorded;
    E.RecordedCursors(s.store, counters, site.size);
    M.CursorFrame(s.store.cursors, counters, user);
  }

  lemma KeptWhenClosed(prior: Option<O.Cursor>, c: O.Counter)
    ensures O.Account(prior, c).Keep? ==>
      prior.Some? && prior.value.closed && prior.value.runtime == c.runtime && !c.final
    ensures prior.Some? && prior.value.closed && prior.value.runtime == c.runtime && !c.final
            && O.Account(prior, c) != O.Refuse ==>
      O.Account(prior, c).Keep?
  {}

  lemma ReadingOfCounter(c: O.Counter)
    ensures forall dir :: E.Part(E.ReadingOf(O.CursorOf(c)), dir) == Of(c, dir)
  {}

  lemma BehindKept(site: E.Site, a: Machine, counters: seq<O.Counter>, sample: F.Sample, t: E.System, user: User)
    requires TrackersInv(a) && Behind(a, user) && Read(a, counters, sample)
    requires E.HistoryInv(a.metered.usage.store.cursors, a.metered.usage.recorded)
    requires E.Managed(a.metered.usage, counters)
    requires M.SampleOf(counters, sample) && M.Sampled(site, a.metered.usage, counters, t)
    ensures Behind(a.(metered := a.metered.(usage := t)), user)
  {
    hide M.Sampled;
    hide M.SampleOf;
    hide E.Managed;
    hide O.Account;
    hide O.CursorOf;
    hide T.Inv;
    var s := a.metered.usage;
    if user in O.Users(counters) {
      var i :| 0 <= i < |counters| && counters[i].user == user;
      UserSampled(site, s, counters, sample, t, i);
      KeptWhenClosed(O.Lookup(s.store.cursors, user), counters[i]);
      ReadingOfCounter(counters[i]);
      forall dir ensures Of(counters[i], dir) <= MovedBy(a, sample.runtime, user, dir) {
        T.CountersBehind(a.trackers[sample.runtime], (user, dir));
      }
    } else {
      UserSpared(site, s, counters, sample, t, user);
    }
  }

  lemma ExactKept(site: E.Site, a: Machine, counters: seq<O.Counter>, sample: F.Sample, t: E.System, r: Runtime,
                  user: User)
    requires TrackersInv(a) && Read(a, counters, sample) && r in a.users && user in a.users[r] && IsDrained(a, r)
    requires E.HistoryInv(a.metered.usage.store.cursors, a.metered.usage.recorded)
    requires E.Managed(a.metered.usage, counters)
    requires M.SampleOf(counters, sample) && M.Sampled(site, a.metered.usage, counters, t)
    requires sample == F.Sample(r, true) || Exact(a, r, user)
    ensures Exact(a.(metered := a.metered.(usage := t)), r, user)
  {
    hide M.Sampled;
    hide O.Account;
    hide T.Inv;
    var s := a.metered.usage;
    if user in O.Users(counters) {
      var i :| 0 <= i < |counters| && counters[i].user == user;
      UserSampled(site, s, counters, sample, t, i);
      KeptWhenClosed(O.Lookup(s.store.cursors, user), counters[i]);
      if sample == F.Sample(r, true) {
        T.DrainedIdle(a.trackers[r]);
        assert forall dir :: E.Part(E.ReadingOf(O.CursorOf(counters[i])), dir) == Of(counters[i], dir);
      }
    } else {
      UserSpared(site, s, counters, sample, t, user);
    }
  }

  lemma SampleKept(site: E.Site, a: Machine, e: F.Event, counters: seq<O.Counter>, users: set<User>, b: Machine)
    requires Inv(site, a) && Step(site, a, Metered(M.Region(e, counters), users), b)
    requires F.Recorded(a.metered.source, e).Some?
    ensures ReadingsInv(b)
  {
    hide E.Inv;
    hide M.Tied;
    hide M.Sampled;
    hide M.SampleOf;
    hide E.Managed;
    hide TrackersInv;
    hide F.Next;
    hide F.ShapeInv;
    hide F.OrderInv;
    hide F.FinalInv;
    hide Behind;
    hide Exact;
    hide Read;
    var sample := F.Recorded(a.metered.source, e).value;
    F.OrderKept(a.metered.source, e);
    F.LogGrows(a.metered.source, e);
    OrderGrouped(F.Next(a.metered.source, e));
    M.RecordedEmbedded(a.metered.source, e);
    M.GroupedIsManaged(a.metered.usage, a.metered.source.log, sample, counters);
    M.InvHistory(site, a.metered.usage);
    SameTrackers(a, e);
    var after := a.(metered := a.metered.(usage := b.metered.usage));
    forall user ensures Behind(b, user) {
      BehindKept(site, a, counters, sample, b.metered.usage, user);
      BehindFrame(after, b, user);
    }
    forall r, user | F.Sample(r, true) in b.metered.source.log && r in b.users && user in b.users[r]
      ensures Exact(b, r, user)
    {
      F.FinalsAreOwed(a.metered.source, e);
      ExactKept(site, a, counters, sample, b.metered.usage, r, user);
      ExactFrame(after, b, r, user);
    }
  }

  lemma OrderGrouped(s: F.State)
    requires F.OrderInv(s)
    ensures F.Grouped(F.Runtimes(s.log))
  {}

  lemma SameTrackers(a: Machine, e: F.Event)
    requires F.Enabled(a.metered.source, e) && F.Recorded(a.metered.source, e).Some?
    ensures !Launches(a.metered.source, e)
  {}

  lemma BehindFrame(a: Machine, b: Machine, user: User)
    requires Behind(a, user) && b.metered.usage == a.metered.usage
    requires forall r :: r in a.users ==> r in b.users && b.users[r] == a.users[r]
    requires forall r, dir :: MovedBy(a, r, user, dir) <= MovedBy(b, r, user, dir)
    ensures Behind(b, user)
  {}

  lemma ExactFrame(a: Machine, b: Machine, r: Runtime, user: User)
    requires Exact(a, r, user) && b.metered.usage == a.metered.usage
    requires forall dir :: MovedBy(a, r, user, dir) == MovedBy(b, r, user, dir)
    ensures Exact(b, r, user)
  {}

  // ---------------------------------------------------------------- every step

  lemma UsedGrows(s: F.State, e: F.Event)
    requires F.Enabled(s, e)
    ensures F.Next(s, e).used == s.used + if Launches(s, e) then {e.unused} else {}
  {}

  lemma TrackersKept(site: E.Site, a: Machine, x: Action, b: Machine)
    requires TrackersInv(a) && Step(site, a, x, b) && x.Metered?
    ensures TrackersInv(b)
  {
    hide T.Inv;
    hide Launches;
    hide F.Enabled;
    hide F.Next;
    hide F.Recorded;
    hide M.Sampled;
    hide M.SampleOf;
    hide E.Step;
    T.FreshInv();
    if x.x.Region? { UsedGrows(a.metered.source, x.x.e); }
  }

  lemma LaunchUnused(s: F.State, e: F.Event)
    requires F.Enabled(s, e) && Launches(s, e)
    ensures e.unused !in s.used
  {}

  lemma DrainKept(site: E.Site, a: Machine, x: Action, b: Machine)
    requires TrackersInv(a) && DrainInv(a) && Step(site, a, x, b) && x.Metered?
    ensures DrainInv(b)
  {
    hide T.Inv;
    hide M.Sampled;
    hide M.SampleOf;
    hide E.Step;
    hide F.Owed;
    hide F.Next;
    hide Launches;
    if x.x.Region? {
      F.FinalsAreOwed(a.metered.source, x.x.e);
      if Launches(a.metered.source, x.x.e) { LaunchUnused(a.metered.source, x.x.e); }
      forall r | IsDrained(a, r) || (x.x.e == F.Drained(true) && r == a.metered.source.op.runtime)
        ensures IsDrained(b, r)
      {
      }
    }
  }

  lemma ProtocolKeepsReadings(site: E.Site, a: Machine, event: E.Event, users: set<User>, b: Machine)
    requires ReadingsInv(a) && Step(site, a, Metered(M.Protocol(event), users), b)
    ensures ReadingsInv(b)
  {
    hide E.Step;
    hide T.Count;
    M.ProtocolCursors(site, a.metered.usage, event, b.metered.usage);
    forall user ensures Behind(b, user) { SameReadings(a, b, user); }
    forall r, user | F.Sample(r, true) in b.metered.source.log && r in b.users && user in b.users[r]
      ensures Exact(b, r, user)
    {
      assert Exact(a, r, user);
    }
  }

  lemma SameReadings(a: Machine, b: Machine, user: User)
    requires Behind(a, user) && b.metered.usage.recorded == a.metered.usage.recorded
    requires b.users == a.users && b.trackers == a.trackers
    ensures Behind(b, user)
  {}

  lemma QuietKeepsReadings(site: E.Site, a: Machine, e: F.Event, counters: seq<O.Counter>, users: set<User>, b: Machine)
    requires TrackersInv(a) && ReadingsInv(a) && DrainInv(a) && Step(site, a, Metered(M.Region(e, counters), users), b)
    requires F.Recorded(a.metered.source, e).None?
    ensures ReadingsInv(b)
  {
    hide T.Inv;
    hide F.Next;
    hide Launches;
    hide Behind;
    hide Exact;
    F.LogGrows(a.metered.source, e);
    if Launches(a.metered.source, e) { LaunchUnused(a.metered.source, e); }
    assert b.metered.source.log == a.metered.source.log;
    forall user ensures Behind(b, user) {
      BehindLaunch(a, b, user);
    }
    forall r, user | F.Sample(r, true) in b.metered.source.log && r in b.users && user in b.users[r]
      ensures Exact(b, r, user)
    {
      assert IsDrained(a, r);
      ExactFrame(a, b, r, user);
    }
  }

  lemma BehindLaunch(a: Machine, b: Machine, user: User)
    requires Behind(a, user) && b.metered.usage == a.metered.usage && a.trackers.Keys == a.users.Keys
    requires forall r :: r in a.users ==> r in b.users && b.users[r] == a.users[r]
    requires forall r :: r in a.trackers ==> r in b.trackers && b.trackers[r] == a.trackers[r]
    ensures Behind(b, user)
  {}

  lemma RegionEnabled(site: E.Site, a: M.Joint, e: F.Event, counters: seq<O.Counter>, b: M.Joint)
    requires M.Step(site, a, M.Region(e, counters), b)
    ensures F.Enabled(a.source, e)
  {}

  lemma StepInv(site: E.Site, a: Machine, x: Action, b: Machine)
    requires Inv(site, a) && Step(site, a, x, b)
    ensures Inv(site, b)
  {
    hide M.Inv;
    hide M.Step;
    hide TrackersInv;
    hide DrainInv;
    hide ReadingsInv;
    hide F.Recorded;
    hide F.Enabled;
    hide Read;
    hide DrainedNow;
    hide Launches;
    match x
    case Traffic(r, e) => TrafficKept(site, a, r, e, b);
    case Metered(m, users) =>
      M.StepInv(site, a.metered, m, b.metered);
      TrackersKept(site, a, x, b);
      DrainKept(site, a, x, b);
      match m {
        case Protocol(event) => ProtocolKeepsReadings(site, a, event, users, b);
        case Region(e, counters) =>
          RegionEnabled(site, a.metered, e, counters, b.metered);
          if F.Recorded(a.metered.source, e).Some? {
            SampleKept(site, a, e, counters, users, b);
          } else {
            QuietKeepsReadings(site, a, e, counters, users, b);
          }
      }
  }

  // ---------------------------------------------------------------- whole runs

  ghost predicate Initial(a: Machine) {
    a.metered.source == F.Booted && E.Initial(a.metered.usage) && a.trackers == map[] && a.users == map[]
  }

  ghost predicate Run(site: E.Site, states: seq<Machine>, actions: seq<Action>) {
    && |states| == |actions| + 1 && Initial(states[0])
    && forall i :: 0 <= i < |actions| ==> Step(site, states[i], actions[i], states[i + 1])
  }

  lemma {:induction false} RunInv(site: E.Site, states: seq<Machine>, actions: seq<Action>, n: nat)
    requires Run(site, states, actions) && n < |states|
    ensures Inv(site, states[n])
  {
    hide Step;
    if n == 0 {
      InitialInv(site, states[0]);
    } else {
      RunInv(site, states, actions, n - 1);
      hide Inv;
      StepInv(site, states[n - 1], actions[n - 1], states[n]);
    }
  }

  lemma InitialInv(site: E.Site, a: Machine)
    requires Initial(a)
    ensures Inv(site, a)
  {
    hide E.Inv;
    E.InitialInv(site, a.metered.usage);
  }

  /** What one user moved in each runtime that counts for that user. */
  ghost function Movements(a: Machine, user: User, dir: Direction): map<Runtime, int> {
    map r | r in a.users && user in a.users[r] :: MovedBy(a, r, user, dir)
  }

  /** Month-ledger bytes plus those of outbox batches the panel has not committed. */
  ghost function Accounted(site: E.Site, s: E.System, user: User, dir: Direction): int {
    P.MonthTotal(s.panel.buckets, user, site.machine, dir)
    + Sum(E.Outstanding(s.store.rows, L.Committed(s.panel.streams, E.StreamOf(site)), user, dir))
  }

  /** A recorded final sample holds exactly what the runtime's tracked operations moved. */
  lemma FinalIsExact(site: E.Site, states: seq<Machine>, actions: seq<Action>, n: nat, r: Runtime, user: User,
                     dir: Direction)
    requires Run(site, states, actions) && n < |states|
    requires F.Sample(r, true) in states[n].metered.source.log && r in states[n].users && user in states[n].users[r]
    ensures var history := E.History(states[n].metered.usage.recorded, user);
            r in history && E.Part(history[r], dir) == MovedBy(states[n], r, user, dir)
  {
    RunInv(site, states, actions, n);
    assert Exact(states[n], r, user);
  }

  lemma {:induction false} SumAtMost<K>(small: map<K, int>, big: map<K, int>)
    requires forall k :: k in small ==> k in big && small[k] <= big[k]
    requires forall k :: k in big ==> 0 <= big[k]
    ensures Sum(small) <= Sum(big)
    decreases |big|
  {
    if big != map[] {
      var k := Witness(big.Keys);
      SumAtMost(small - {k}, big - {k});
      SumRemove(big, k);
      if k in small { SumRemove(small, k); } else { assert small - {k} == small; }
    } else {
      assert small == map[];
    }
  }

  /** The panel and the outbox never account for more than was moved, in any state of any
      run; and once the final samples of a user's runtimes have been recorded, they account
      for every byte that user moved, and for no other. */
  lemma ByteForByte(site: E.Site, states: seq<Machine>, actions: seq<Action>, n: nat, user: User, dir: Direction)
    requires Run(site, states, actions) && n < |states|
    ensures var a := states[n];
            && Accounted(site, a.metered.usage, user, dir) <= Sum(Movements(a, user, dir))
            && ((forall r :: r in a.users && user in a.users[r] ==> F.Sample(r, true) in a.metered.source.log) ==>
                  Accounted(site, a.metered.usage, user, dir) == Sum(Movements(a, user, dir)))
  {
    hide M.Inv;
    hide T.Inv;
    hide Sum;
    var a := states[n];
    RunInv(site, states, actions, n);
    MeteredBalances(site, a.metered, user, dir);
    ReadingsBehind(a, user, dir);
    if forall r :: r in a.users && user in a.users[r] ==> F.Sample(r, true) in a.metered.source.log {
      ReadingsExact(a, user, dir);
    }
  }

  lemma ReadingsBehind(a: Machine, user: User, dir: Direction)
    requires TrackersInv(a) && Behind(a, user)
    ensures Sum(E.Readings(E.History(a.metered.usage.recorded, user), dir)) <= Sum(Movements(a, user, dir))
  {
    hide T.Inv;
    hide Sum;
    hide T.Count;
    var moved := Movements(a, user, dir);
    forall r | r in moved ensures 0 <= moved[r] { T.CountersBehind(a.trackers[r], (user, dir)); }
    SumAtMost(E.Readings(E.History(a.metered.usage.recorded, user), dir), moved);
  }

  lemma ReadingsExact(a: Machine, user: User, dir: Direction)
    requires Behind(a, user)
    requires forall r :: r in a.users && user in a.users[r] ==> Exact(a, r, user)
    ensures E.Readings(E.History(a.metered.usage.recorded, user), dir) == Movements(a, user, dir)
  {
    var readings, moved := E.Readings(E.History(a.metered.usage.recorded, user), dir), Movements(a, user, dir);
    forall r | r in moved ensures r in readings && readings[r] == moved[r] { assert Exact(a, r, user); }
  }

  lemma MeteredBalances(site: E.Site, joint: M.Joint, user: User, dir: Direction)
    requires M.Inv(site, joint)
    ensures Accounted(site, joint.usage, user, dir) == Sum(E.Readings(E.History(joint.usage.recorded, user), dir))
  {
    hide E.Inv;
    hide Sum;
    hide P.MonthTotal;
    E.InvBalances(site, joint.usage, user, dir);
  }

  // ---------------------------------------------------------------- the protocol alone moves on

  function WithUsage(a: Machine, t: E.System): Machine { a.(metered := a.metered.(usage := t)) }

  lemma UsageInv(site: E.Site, a: Machine)
    requires Inv(site, a)
    ensures E.Inv(site, a.metered.usage)
  {}

  /** Any stretch of the protocol that records nothing keeps the accounting. */
  lemma UsageReplaced(site: E.Site, a: Machine, t: E.System)
    requires Inv(site, a) && E.Inv(site, t)
    requires t.recorded == a.metered.usage.recorded && t.store.cursors == a.metered.usage.store.cursors
    ensures Inv(site, WithUsage(a, t))
  {
    hide E.Inv;
    hide T.Inv;
    hide T.Count;
    var b := WithUsage(a, t);
    forall user ensures Behind(b, user) { SameReadings(a, b, user); }
    forall r, user | F.Sample(r, true) in b.metered.source.log && r in b.users && user in b.users[r]
      ensures Exact(b, r, user)
    {
      assert Exact(a, r, user);
    }
  }

  /** What was recorded for a user against what that user moved. */
  lemma RecordedAgainstMoved(site: E.Site, a: Machine, user: User, dir: Direction)
    requires Inv(site, a)
    ensures E.RecordedBytes(a.metered.usage.recorded, user, dir) <= Sum(Movements(a, user, dir))
    ensures (forall r :: r in a.users && user in a.users[r] ==> F.Sample(r, true) in a.metered.source.log) ==>
      E.RecordedBytes(a.metered.usage.recorded, user, dir) == Sum(Movements(a, user, dir))
  {
    hide M.Inv;
    hide T.Inv;
    hide Sum;
    ReadingsBehind(a, user, dir);
    if forall r :: r in a.users && user in a.users[r] ==> F.Sample(r, true) in a.metered.source.log {
      ReadingsExact(a, user, dir);
    }
  }
}
