/** Accounting and authorization in one transaction: a committed report refreshes the policy
    from the month ledger it has just written (reportUsage in apps/web/src/server/usage/store.ts,
    userQuota in apps/web/src/server/configuration/policy.ts). */
module Quota {
  import opened Wrappers
  import opened Collections
  import opened Calendar
  import L = Ledger
  import R = PolicyRevision

  // ---------------------------------------------------------------- what a user has used

  predicate Counts(k: L.Key, user: R.UserId, month: int) { k.grain == Month && k.user == user && k.start == month }

  function Both(b: L.Bucket): int { b.upload + b.download }

  ghost function Charges(buckets: L.Buckets, user: R.UserId, month: int): map<L.Key, int> {
    map k | k in buckets && Counts(k, user, month) :: Both(buckets[k])
  }

  /** Bytes in both directions that all machines charged to a user in a month. */
  ghost function MonthUsed(buckets: L.Buckets, user: R.UserId, month: int): int { Sum(Charges(buckets, user, month)) }

  lemma ChargesWithout(buckets: L.Buckets, user: R.UserId, month: int, k: L.Key)
    requires k in buckets
    ensures MonthUsed(buckets, user, month)
            == MonthUsed(buckets - {k}, user, month) + if Counts(k, user, month) then Both(buckets[k]) else 0
  {
    var all := Charges(buckets, user, month);
    if k in all { SumRemove(all, k); }
    assert Charges(buckets - {k}, user, month) == all - {k};
    assert k !in all ==> all - {k} == all;
  }

  /** The total of userQuota. */
  method UsedBytes(buckets: L.Buckets, user: R.UserId, now: int) returns (used: int)
    ensures used == MonthUsed(buckets, user, MonthStart(now))
  {
    var month := MonthStart(now);
    var left := buckets;
    used := 0;
    while left.Keys != {}
      invariant used + MonthUsed(left, user, month) == MonthUsed(buckets, user, month)
      decreases |left|
    {
      var k := Pick(left.Keys);
      ChargesWithout(left, user, month, k);
      if Counts(k, user, month) { used := used + Both(left[k]); }
      left := left - {k};
    }
    assert Charges(left, user, month) == map[];
  }

  /** Every user's total. */
  ghost predicate Measured(used: map<R.UserId, int>, users: seq<R.User>, buckets: L.Buckets, month: int) {
    forall i :: 0 <= i < |users| ==> R.Used(used, users[i].id) == MonthUsed(buckets, users[i].id, month)
  }

  method UsedByAll(buckets: L.Buckets, users: seq<R.User>, now: int) returns (used: map<R.UserId, int>)
    ensures Measured(used, users, buckets, MonthStart(now))
  {
    used := map[];
    for i := 0 to |users|
      invariant forall j :: 0 <= j < i ==>
        users[j].id in used && used[users[j].id] == MonthUsed(buckets, users[j].id, MonthStart(now))
    {
      var bytes := UsedBytes(buckets, users[i].id, now);
      used := used[users[i].id := bytes];
    }
  }

  // ---------------------------------------------------------------- who remains authorized

  /** An active user whose month stays below the limit, if there is one. */
  ghost predicate Entitled(u: R.User, buckets: L.Buckets, month: int) {
    u.active && (u.limit.None? || MonthUsed(buckets, u.id, month) < u.limit.value)
  }

  ghost predicate SomeEntitled(users: seq<R.User>, buckets: L.Buckets, month: int, id: R.UserId) {
    exists i :: 0 <= i < |users| && users[i].id == id && Entitled(users[i], buckets, month)
  }

  lemma {:induction false} EffectiveIsEntitled(users: seq<R.User>, used: map<R.UserId, int>, buckets: L.Buckets,
                                               month: int, id: R.UserId)
    requires Measured(used, users, buckets, month)
    ensures id in R.Effective(users, used) <==> SomeEntitled(users, buckets, month, id)
  {
    hide MonthUsed;
    if users != [] {
      var n := |users| - 1;
      var init, last := users[..n], users[n];
      assert Measured(used, init, buckets, month);
      EffectiveIsEntitled(init, used, buckets, month, id);
      if SomeEntitled(init, buckets, month, id) {
        var i :| 0 <= i < n && init[i].id == id && Entitled(init[i], buckets, month);
        assert users[i].id == id && Entitled(users[i], buckets, month);
      }
      if SomeEntitled(users, buckets, month, id) {
        var i :| 0 <= i <= n && users[i].id == id && Entitled(users[i], buckets, month);
        if i < n { assert init[i].id == id && Entitled(init[i], buckets, month); }
      }
    }
  }

  /** The panel's current authorization admits exactly the entitled users. */
  ghost predicate Enforced(db: R.Db, h: R.History, buckets: L.Buckets, month: int) {
    && db.policy.Some? && db.policy.value.revision in h.layers
    && forall id :: id in R.Ids(h.layers[db.policy.value.revision]) <==> SomeEntitled(db.users, buckets, month, id)
  }

  // ---------------------------------------------------------------- the transaction

  /** A refresh that fails undoes the posting it follows. */
  lemma Undone(p: L.Panel, machine: L.Machine, r: L.Request, setting: L.Setting)
    requires var (q, reply) := L.Reported(p, machine, r, setting.(refreshed := true)); reply.Ok? && q != p
    ensures L.Reported(p, machine, r, setting.(refreshed := false)) == (p, Err(L.RefreshFailed))
  {
    hide L.PostDeltas;
  }

  /** reportUsage with its refresh: the ledger does what it does for a refresh that works or
      fails as this one; after a committed report exactly those users are authorized whose
      month, the report included, is below their limit; otherwise the policy is untouched. */
  method Report(ledger: L.UsageLedger, panel: R.Panel, machine: L.Machine, r: L.Request, setting: L.Setting)
    returns (reply: L.Result<L.Reply>, ghost refreshed: bool)
    requires R.Inv(panel.db, panel.history, panel.render)
    modifies ledger, panel
    ensures R.Inv(panel.db, panel.history, panel.render)
    ensures R.Onward(old(panel.db), old(panel.history), panel.db, panel.history)
    ensures (ledger.View(), reply) == L.Reported(old(ledger.View()), machine, r, setting.(refreshed := refreshed))
    ensures ledger.View() != old(ledger.View()) ==>
      Enforced(panel.db, panel.history, ledger.buckets, MonthStart(setting.now))
    ensures ledger.View() == old(ledger.View()) ==> panel.db == old(panel.db) && panel.history == old(panel.history)
  {
    hide R.Inv;
    hide R.Onward;
    hide L.Reported;
    hide MonthStart;
    hide R.Effective;
    var buckets, streams := ledger.buckets, ledger.streams;
    ghost var before := ledger.View();
    R.Reflexive(panel.db, panel.history);
    reply := ledger.ReportUsage(machine, r, setting.(refreshed := true));
    refreshed := true;
    ReportShape(before, machine, r, setting);
    if reply.Err? || (ledger.buckets == buckets && ledger.streams == streams) { return; }
    var db := panel.db;
    var used := UsedByAll(ledger.buckets, db.users, setting.now);
    R.Environment(panel.db, panel.history, panel.render, panel.db.(used := used));
    panel.db := panel.db.(used := used);
    ghost var measured := panel.db;
    var layer := panel.Refresh(MonthStart(setting.now));
    if layer.Err? {
      ledger.buckets, ledger.streams := buckets, streams;
      panel.db := db;
      refreshed := false;
      Undone(before, machine, r, setting);
      return Err(L.RefreshFailed), false;
    }
    R.OnwardThrough(old(panel.db), old(panel.history), measured, old(panel.history), panel.db, panel.history);
    forall id
      ensures id in R.Ids(layer.value.users) <==> SomeEntitled(db.users, ledger.buckets, MonthStart(setting.now), id)
    {
      EffectiveIsEntitled(db.users, used, ledger.buckets, MonthStart(setting.now), id);
    }
  }

  /** A refused report leaves the panel, and no report touches the list of known users. */
  lemma ReportShape(p: L.Panel, machine: L.Machine, r: L.Request, setting: L.Setting)
    ensures var (q, reply) := L.Reported(p, machine, r, setting.(refreshed := true));
            q.history == p.history && (reply.Err? ==> q == p)
  {
    hide L.PostDeltas;
  }
}
