/** The adapter's and collector's order of samples joined with the usage protocol: the
    order discharges what the protocol assumes about runtimes. */
module Metering {
  import opened Wrappers
  import opened UsageTypes
  import opened Collections
  import O = Outbox
  import L = Ledger
  import P = LedgerProofs
  import E = Pipeline
  import F = FinalSamples

  /** A machine: who samples and what the samples become. */
  datatype Joint = Joint(source: F.State, usage: E.System)

  /** The counters of one managed runtime. */
  ghost predicate SampleOf(counters: seq<O.Counter>, sample: F.Sample) {
    counters != [] && forall i :: 0 <= i < |counters| ==>
      counters[i].runtime == sample.runtime && counters[i].startedAt > 0 && counters[i].final == sample.final
  }

  /** An accepted sample, without any condition on the runtimes seen before. */
  ghost predicate Sampled(site: E.Site, s: E.System, counters: seq<O.Counter>, t: E.System) {
    && O.CursorsOk(s.store.cursors)
    && var r := O.Recorded(s.store, counters, site.size);
    && r.Ok?
    && t == s.(store := r.value, issued := E.Issued(s.issued, r.value.rows),
               recorded := E.Logged(s.recorded, r.value.cursors, O.Users(counters)))
  }

  /** A lock region of the adapter or the collector, with the counters of the sample it
      records, or any other event of the protocol. */
  datatype Action = Region(e: F.Event, counters: seq<O.Counter>) | Protocol(event: E.Event)

  ghost predicate Step(site: E.Site, a: Joint, x: Action, b: Joint) {
    match x
    case Region(e, counters) =>
      && F.Enabled(a.source, e) && b.source == F.Next(a.source, e)
      && (match F.Recorded(a.source, e)
          case None => b.usage == a.usage
          case Some(sample) => SampleOf(counters, sample) && Sampled(site, a.usage, counters, b.usage))
    case Protocol(event) => !event.Sample? && b.source == a.source && E.Step(site, a.usage, event, b.usage)
  }

  // ---------------------------------------------------------------- the order is enough

  ghost predicate HeardAt(log: seq<F.Sample>, i: int, r: Runtime) { 0 <= i < |log| && log[i].runtime == r }

  /** A user's history only names runtimes in the log, and all but the cursor's come before
      an entry of the cursor's. */
  ghost predicate Tied(s: E.System, log: seq<F.Sample>) {
    && (forall u :: u in s.store.cursors ==> exists j :: HeardAt(log, j, s.store.cursors[u].runtime))
    && (forall u, r :: u in s.store.cursors && r in E.History(s.recorded, u) && r != s.store.cursors[u].runtime ==>
          exists i, j :: i < j && HeardAt(log, i, r) && HeardAt(log, j, s.store.cursors[u].runtime))
  }

  lemma GroupedOut(log: seq<F.Sample>, sample: F.Sample, i: int, j: int)
    requires F.Grouped(F.Runtimes(log + [sample])) && 0 <= i < j < |log| && log[i].runtime == sample.runtime
    ensures log[j].runtime == sample.runtime
  {
    var all := F.Runtimes(log + [sample]);
    assert all[i] == all[|log|] && all[j] == log[j].runtime;
  }

  /** Samples that keep the log grouped meet the protocol's assumption. */
  lemma GroupedIsManaged(s: E.System, log: seq<F.Sample>, sample: F.Sample, counters: seq<O.Counter>)
    requires Tied(s, log) && SampleOf(counters, sample) && F.Grouped(F.Runtimes(log + [sample]))
    requires F.Embedded(sample.runtime)
    ensures E.Managed(s, counters)
  {
    forall k | 0 <= k < |counters| && counters[k].user in s.store.cursors
               && s.store.cursors[counters[k].user].runtime != counters[k].runtime
      ensures counters[k].runtime !in E.History(s.recorded, counters[k].user)
    {
      var u := counters[k].user;
      if counters[k].runtime in E.History(s.recorded, u) {
        var i, j :| i < j && HeardAt(log, i, counters[k].runtime) && HeardAt(log, j, s.store.cursors[u].runtime);
        GroupedOut(log, sample, i, j);
        assert false;
      }
    }
  }

  lemma CursorsAfter(cursors: map<User, O.Cursor>, counters: seq<O.Counter>, sample: F.Sample)
    requires SampleOf(counters, sample) && O.SampleAll(cursors, counters).Ok?
    ensures var after, users := O.SampleAll(cursors, counters).value.cursors, O.Users(counters);
            && (forall u :: u in users ==> u in after && after[u].runtime == sample.runtime)
            && (forall u :: u in after && u !in users ==> u in cursors && after[u] == cursors[u])
  {
    hide O.SampleAll;
    var after, users := O.SampleAll(cursors, counters).value.cursors, O.Users(counters);
    O.AcceptedCovers(cursors, counters);
    forall u | u in users ensures u in after && after[u].runtime == sample.runtime {
      var i :| 0 <= i < |counters| && counters[i].user == u;
      assert O.Covered(after, counters[i]);
    }
    forall u | u in after && u !in users ensures u in cursors && after[u] == cursors[u] {
      CursorFrame(cursors, counters, u);
    }
  }

  lemma SampledTies(site: E.Site, s: E.System, log: seq<F.Sample>, sample: F.Sample, counters: seq<O.Counter>,
                    t: E.System)
    requires Tied(s, log) && E.HistoryInv(s.store.cursors, s.recorded) && SampleOf(counters, sample)
    requires Sampled(site, s, counters, t)
    ensures Tied(t, log + [sample])
  {
    hide O.SampleAll;
    hide O.Recorded;
    hide O.Users;
    E.RecordedCursors(s.store, counters, site.size);
    CursorsAfter(s.store.cursors, counters, sample);
    assert HeardAt(log + [sample], |log|, sample.runtime);
    LogKeeps(log, sample);
    forall u, r | u in t.store.cursors && r in E.History(t.recorded, u) && r != t.store.cursors[u].runtime
      ensures exists i, j ::
        i < j && HeardAt(log + [sample], i, r) && HeardAt(log + [sample], j, t.store.cursors[u].runtime)
    {
      assert r in E.History(s.recorded, u);
      HeardBefore(s, log, u, r);
    }
  }

  /** What a user's history names was heard in the log. */
  lemma HeardBefore(s: E.System, log: seq<F.Sample>, u: User, r: Runtime)
    requires Tied(s, log) && u in s.store.cursors && r in E.History(s.recorded, u)
    ensures exists i :: i < |log| && HeardAt(log, i, r)
    ensures r != s.store.cursors[u].runtime ==>
      exists i, j :: i < j && HeardAt(log, i, r) && HeardAt(log, j, s.store.cursors[u].runtime)
  {
    if r == s.store.cursors[u].runtime {
      var i :| HeardAt(log, i, r);
      assert i < |log|;
    } else {
      var i, j :| i < j && HeardAt(log, i, r) && HeardAt(log, j, s.store.cursors[u].runtime);
      assert i < |log|;
    }
  }

  lemma LogKeeps(log: seq<F.Sample>, sample: F.Sample)
    ensures forall i, r :: HeardAt(log, i, r) ==> HeardAt(log + [sample], i, r)
  {}

  lemma CursorFrame(cursors: map<User, O.Cursor>, counters: seq<O.Counter>, user: User)
    requires O.SampleAll(cursors, counters).Ok? && user !in O.Users(counters)
    ensures var after := O.SampleAll(cursors, counters).value.cursors;
            (user in after <==> user in cursors) && (user in after ==> after[user] == cursors[user])
  {
    hide O.Sample;
    if counters != [] {
      O.UsersExtend(counters);
      CursorFrame(cursors, counters[..|counters| - 1], user);
      SampleFrame(O.SampleAll(cursors, counters[..|counters| - 1]).value, counters[|counters| - 1], user);
    }
  }

  lemma SampleFrame(s: O.Sampling, c: O.Counter, user: User)
    requires O.Sample(s, c).Ok? && c.user != user
    ensures var after := O.Sample(s, c).value.cursors;
            (user in after <==> user in s.cursors) && (user in after ==> after[user] == s.cursors[user])
  {
    hide O.Account;
  }

  // ---------------------------------------------------------------- whole runs

  ghost predicate Inv(site: E.Site, a: Joint) {
    && F.ShapeInv(a.source) && F.OrderInv(a.source) && F.FinalInv(a.source)
    && E.Inv(site, a.usage) && Tied(a.usage, a.source.log)
  }

  lemma StepInv(site: E.Site, a: Joint, x: Action, b: Joint)
    requires Inv(site, a) && Step(site, a, x, b)
    ensures Inv(site, b)
  {
    hide E.Inv;
    hide E.Step;
    hide F.Enabled;
    hide F.Next;
    hide F.Recorded;
    hide Tied;
    hide F.ShapeInv;
    hide F.OrderInv;
    hide F.FinalInv;
    hide Sampled;
    hide SampleOf;
    match x
    case Region(e, counters) =>
      F.ShapeKept(a.source, e);
      F.OrderKept(a.source, e);
      F.FinalKept(a.source, e);
      F.LogGrows(a.source, e);
      var sample := F.Recorded(a.source, e);
      if sample.Some? {
        RecordedEmbedded(a.source, e);
        SampleInv(site, a, b.source, counters, sample.value, b.usage);
      } else {
        assert b.source.log == a.source.log;
      }
    case Protocol(event) =>
      E.StepInv(site, a.usage, event, b.usage);
      OtherTies(site, a.usage, event, b.usage, a.source.log);
  }

  lemma RecordedEmbedded(s: F.State, e: F.Event)
    requires F.ShapeInv(s) && F.Enabled(s, e) && F.Recorded(s, e).Some?
    ensures F.Embedded(F.Recorded(s, e).value.runtime)
  {
    assert F.Recorded(s, e).value.runtime in F.Mentioned(s) + F.Collected(s);
  }

  lemma SampleInv(site: E.Site, a: Joint, source: F.State, counters: seq<O.Counter>, sample: F.Sample, t: E.System)
    requires E.Inv(site, a.usage) && Tied(a.usage, a.source.log) && F.OrderInv(source)
    requires source.log == a.source.log + [sample] && F.Embedded(sample.runtime)
    requires SampleOf(counters, sample) && Sampled(site, a.usage, counters, t)
    ensures E.Inv(site, t) && Tied(t, source.log)
  {
    hide Tied;
    hide F.Grouped;
    hide SampleOf;
    hide E.Inv;
    hide E.Managed;
    hide O.Recorded;
    GroupedIsManaged(a.usage, a.source.log, sample, counters);
    InvHistory(site, a.usage);
    SampledTies(site, a.usage, a.source.log, sample, counters, t);
    assert E.Step(site, a.usage, E.Sample(counters), t);
    E.StepInv(site, a.usage, E.Sample(counters), t);
  }

  lemma InvHistory(site: E.Site, s: E.System)
    requires E.Inv(site, s)
    ensures E.HistoryInv(s.store.cursors, s.recorded)
  {}

  lemma OtherTies(site: E.Site, s: E.System, e: E.Event, t: E.System, log: seq<F.Sample>)
    requires Tied(s, log) && E.Step(site, s, e, t) && !e.Sample?
    ensures Tied(t, log)
  {
    hide E.Step;
    ProtocolCursors(site, s, e, t);
  }

  lemma ProtocolCursors(site: E.Site, s: E.System, event: E.Event, t: E.System)
    requires E.Step(site, s, event, t) && !event.Sample?
    ensures t.store.cursors == s.store.cursors && t.recorded == s.recorded
  {
    hide L.Reported;
    hide L.Cleaned;
    hide O.SizeOf;
    hide E.Head;
  }

  ghost predicate Run(site: E.Site, states: seq<Joint>, actions: seq<Action>) {
    && |states| == |actions| + 1 && states[0].source == F.Booted && E.Initial(states[0].usage)
    && forall i :: 0 <= i < |actions| ==> Step(site, states[i], actions[i], states[i + 1])
  }

  lemma {:induction false} RunInv(site: E.Site, states: seq<Joint>, actions: seq<Action>, n: nat)
    requires Run(site, states, actions) && n < |states|
    ensures Inv(site, states[n])
  {
    hide Step;
    hide E.Inv;
    if n == 0 {
      E.InitialInv(site, states[0].usage);
    } else {
      RunInv(site, states, actions, n - 1);
      hide Inv;
      StepInv(site, states[n - 1], actions[n - 1], states[n]);
    }
  }

  /** End to end, from the samples a daemon takes of its own runtimes to the month ledger,
      nothing is lost or counted twice, whatever is interleaved, lost, repeated, delayed or
      cut short. */
  lemma EndToEnd(site: E.Site, states: seq<Joint>, actions: seq<Action>, n: nat, user: User, dir: Direction)
    requires Run(site, states, actions) && n < |states|
    ensures var s := states[n].usage;
            P.MonthTotal(s.panel.buckets, user, site.machine, dir)
            + Sum(E.Outstanding(s.store.rows, L.Committed(s.panel.streams, E.StreamOf(site)), user, dir))
            == E.RecordedBytes(s.recorded, user, dir)
  {
    hide E.Inv;
    RunInv(site, states, actions, n);
    E.InvBalances(site, states[n].usage, user, dir);
  }
}
