/** The policy floor: applying, rolling back and recovering proxy configurations
    (services/daemon/internal/adapters/singbox/adapter.go) over the write-ahead core row
    (services/daemon/internal/state/core.go). */
module Adapter {
  import opened Wrappers
  import opened Authorization

  datatype Stage = Idle | Prepared

  /** The single core row. Its authorization is stored in canonical form. */
  datatype CoreState = CoreState(
    policyFloor: int, authorization: Option<Auth>,
    appliedRevision: string, appliedPolicy: int, appliedConfig: Option<Text>,
    stage: Stage, pendingTask: string, pendingRevision: string, pendingPolicy: int, pendingConfig: Option<Text>)

  const NoCore := CoreState(0, None, "", 0, None, Idle, "", "", 0, None)

  /** A running engine: its configuration and the users its traffic tracker counts. */
  datatype Instance = Instance(config: Text, users: seq<string>)

  // ---------------------------------------------------------------- the core row

  class CoreStore {
    var row: CoreState

    constructor ()
      ensures row == NoCore
    {
      row := NoCore;
    }

    method PersistPolicy(revision: int, auth: Auth) returns (ok: bool)
      modifies this
      ensures ok <==> !Stale(old(row), revision, auth)
      ensures row == if ok then old(row).(policyFloor := revision, authorization := Some(auth)) else old(row)
    {
      ok := !(revision < row.policyFloor
              || (revision == row.policyFloor && row.authorization.Some? && row.authorization.value != auth));
      if ok { row := row.(policyFloor := revision, authorization := Some(auth)); }
    }

    method PrepareCore(task: string, revision: string, policy: int, config: Text) returns (ok: bool)
      modifies this
      ensures ok <==> old(row.policyFloor) <= policy && (old(row.stage) == Idle || old(row.pendingTask) == task)
      ensures row == if ok then old(row).(stage := Prepared, pendingTask := task, pendingRevision := revision,
                                          pendingPolicy := policy, pendingConfig := Some(config)) else old(row)
    {
      if policy < row.policyFloor { return false; }
      if row.stage != Idle && row.pendingTask != task { return false; }
      row := row.(stage := Prepared, pendingTask := task, pendingRevision := revision,
                  pendingPolicy := policy, pendingConfig := Some(config));
      ok := true;
    }

    method CommitCore(revision: string, policy: int, config: Text)
      modifies this
      ensures row == Settled(old(row)).(appliedRevision := revision, appliedPolicy := policy,
                                        appliedConfig := Some(config))
    {
      row := row.(appliedRevision := revision, appliedPolicy := policy, appliedConfig := Some(config),
                  stage := Idle, pendingTask := "", pendingRevision := "", pendingPolicy := 0, pendingConfig := None);
    }

    method AbortCore()
      modifies this
      ensures row == Settled(old(row))
    {
      row := row.(stage := Idle, pendingTask := "", pendingRevision := "", pendingPolicy := 0, pendingConfig := None);
    }
  }

  /** An authorization older than the floor, or a different one for the floor's revision. */
  predicate Stale(row: CoreState, revision: int, auth: Auth) {
    || revision < row.policyFloor
    || (revision == row.policyFloor && row.authorization.Some? && row.authorization.value != auth)
  }

  /** The row without a pending preparation. */
  function Settled(row: CoreState): CoreState {
    row.(stage := Idle, pendingTask := "", pendingRevision := "", pendingPolicy := 0, pendingConfig := None)
  }

  // ---------------------------------------------------------------- safety

  /** Merging the users into the configuration changes nothing. */
  ghost predicate FixedPoint(text: Text, auth: Auth) {
    DecodeConfig(text).Some? && Merged(DecodeConfig(text).value, auth.users) == Some(DecodeConfig(text).value)
  }

  /** What every committed core row satisfies. */
  ghost predicate RowOk(r: CoreState) {
    && 0 <= r.appliedPolicy <= r.policyFloor
    && (r.authorization.Some? <==> r.policyFloor >= 1)
    && (r.authorization.Some? ==> ValidAuth(r.authorization.value) && r.authorization.value.revision == r.policyFloor)
    && (r.appliedConfig.Some? <==> r.appliedPolicy >= 1)
    && (r.appliedConfig.Some? && r.appliedPolicy == r.policyFloor ==>
          FixedPoint(r.appliedConfig.value, r.authorization.value))
  }

  function Ids(users: seq<AuthorizedUser>): seq<string> {
    seq(|users|, i requires 0 <= i < |users| => users[i].id)
  }

  /** Between operations a running engine is the applied configuration at the floor. */
  ghost predicate EngineOk(r: CoreState, active: Option<Instance>) {
    active.Some? ==>
      && r.stage == Idle && r.appliedConfig.Some? && r.appliedPolicy == r.policyFloor
      && active.value.config == r.appliedConfig.value
      && r.authorization.Some? && active.value.users == Ids(r.authorization.value.users)
  }

  // ---------------------------------------------------------------- the adapter

  datatype Configuration = Configuration(task: string, revision: string, digest: Text, policyRevision: int, json: Text,
                                         authorization: AuthText, latestPolicyRevision: int)

  /** What an operation cannot decide: whether the engine accepts and starts a candidate
      and a restored configuration, and how many store writes the process survives. */
  datatype Env = Env(build: bool, start: bool, rebuild: bool, restart: bool, writes: nat)

  datatype Cause = BadAuthorization | RevisionDiffers | StalePolicy | UnknownPolicy | DigestMismatch
                 | Unmergeable | UsersDiffer | BuildFailed | PrepareConflict | StartFailed

  datatype Outcome =
    Applied | Rejected(cause: Cause) | RolledBack(cause: Cause) | RollbackFailed(cause: Cause) | Crashed

  /** Authorizations the store accepts, which is what raises the floor. */
  ghost predicate Accepted(r: CoreState, c: Configuration) {
    && c.authorization.AuthText? && ValidAuth(c.authorization.auth)
    && c.authorization.auth.revision == c.latestPolicyRevision
    && !Stale(r, c.latestPolicyRevision, c.authorization.auth)
  }

  predicate ExposesManagement(config: map<string, Json>) {
    var services, experimental := Field(config, "services"), Field(config, "experimental");
    || (services.Arr? && |services.items| > 0)
    || (experimental.Obj?
        && (Field(experimental.fields, "v2ray_api") != Null || Field(experimental.fields, "clash_api") != Null))
  }

  /** The engine takes a configuration that exposes no management interface. */
  ghost predicate Buildable(text: Text, accepts: bool) {
    accepts && DecodeConfig(text).Some? && !ExposesManagement(DecodeConfig(text).value)
  }

  /** A configuration that belongs to the floor, carries exactly its users, and meets no
      obstacle in the store or the engine. */
  ghost predicate Applicable(r: CoreState, c: Configuration, env: Env) {
    && Accepted(r, c) && c.policyRevision == c.latestPolicyRevision && c.digest == c.json
    && FixedPoint(c.json, c.authorization.auth) && Buildable(c.json, env.build)
    && env.start && env.writes >= 3 && (r.stage == Idle || r.pendingTask == c.task)
  }

  /** The previous configuration comes up again under the latest users. */
  ghost predicate Restorable(before: CoreState, latest: CoreState, env: Env) {
    && before.appliedConfig.Some? && latest.authorization.Some? && env.rebuild && env.restart
    && var text := MergedText(before.appliedConfig.value, latest.authorization.value.users);
    text.Some? && Buildable(text.value, true)
  }

  /** What recovery runs: the applied configuration where it is settled at the floor,
      otherwise its merge with the stored authorization. */
  ghost function RecoveredText(r: CoreState): Option<Text> {
    if r.appliedConfig.None? || (r.appliedPolicy == r.policyFloor && r.stage == Idle) then r.appliedConfig
    else if r.authorization.None? then None
    else MergedText(r.appliedConfig.value, r.authorization.value.users)
  }

  ghost predicate Recoverable(r: CoreState, env: Env) {
    RecoveredText(r).Some? && Buildable(RecoveredText(r).value, env.build) && env.start
  }

  class Adapter {
    const store: CoreStore
    var active: Option<Instance>

    constructor (store: CoreStore)
      ensures this.store == store && active == None
    {
      this.store := store;
      active := None;
    }

    ghost predicate Safe()
      reads this, store
    {
      RowOk(store.row) && EngineOk(store.row, active)
    }

    method Build(config: Text, auth: Auth, accepts: bool) returns (candidate: Option<Instance>)
      ensures candidate.Some? ==> candidate.value == Instance(config, Ids(auth.users)) && DecodeConfig(config).Some?
      ensures candidate.Some? <==> Buildable(config, accepts)
    {
      var decoded := DecodeConfig(config);
      if decoded.None? || ExposesManagement(decoded.value) || !accepts { return None; }
      candidate := Some(Instance(config, Ids(auth.users)));
    }

    method Close()
      requires Safe()
      modifies this
      ensures Safe() && active == None && store.row == old(store.row)
    {
      active := None;
    }

    /** Applying keeps the floor monotone and the engine at the floor on every path; what
        it leaves behind is the new configuration, the previous one with the new users, or
        no engine at all. */
    method Apply(config: Configuration, env: Env) returns (outcome: Outcome)
      requires Safe()
      modifies this, store
      ensures Safe() && old(store.row.policyFloor) <= store.row.policyFloor
      ensures !Accepted(old(store.row), config) ==>
        outcome.Rejected? && store.row == old(store.row) && active == old(active)
      ensures Accepted(old(store.row), config) ==>
        && store.row.policyFloor == config.latestPolicyRevision
        && store.row.authorization == Some(config.authorization.auth)
      ensures outcome == Applied ==>
        && active.Some? && active.value.config == config.json
        && store.row.appliedRevision == config.revision && store.row.appliedConfig == Some(config.json)
        && store.row.appliedPolicy == config.policyRevision
      ensures outcome.RolledBack? ==>
        && active.Some? && old(store.row.appliedConfig).Some?
        && store.row.appliedRevision == old(store.row.appliedRevision)
        && Some(active.value.config) == MergedText(old(store.row.appliedConfig).value, config.authorization.auth.users)
      ensures outcome.RollbackFailed? ==>
        && active == None && store.row.appliedConfig == old(store.row.appliedConfig)
        && store.row.appliedPolicy == old(store.row.appliedPolicy)
      ensures outcome.Rejected? ==> active == old(active) && store.row.appliedConfig == old(store.row.appliedConfig)
      ensures Applicable(old(store.row), config, env) ==> outcome == Applied
      ensures outcome == Rejected(PrepareConflict) ==> old(active) == None && old(store.row.stage) == Prepared
      ensures outcome == Crashed ==> active == None
    {
      hide FixedPoint;
      hide MergedText;
      hide DecodeConfig;
      hide Buildable;
      hide Restorable;
      hide ExposesManagement;
      hide ValidAuth;
      var previous := store.row;
      var parsed := ParseAuthorization(config.authorization);
      if parsed.None? { return Rejected(BadAuthorization); }
      var auth := parsed.value;
      RevisionPositive(auth);
      var revision := auth.revision;
      if revision != config.latestPolicyRevision { return Rejected(RevisionDiffers); }
      var persisted := store.PersistPolicy(revision, auth);
      if !persisted { return Rejected(StalePolicy); }
      if env.writes == 0 { active := None; return Crashed; }
      var problem := Problem(config, revision);
      if problem.Some? {
        outcome := Fail(previous, problem.value, env, 1);
        return;
      }
      if active.Some? && previous.appliedRevision == config.revision && previous.appliedPolicy == config.policyRevision
         && previous.appliedConfig == Some(config.json) {
        return Applied;
      }
      var candidate := Build(config.json, auth, env.build);
      if candidate.None? {
        outcome := Fail(previous, BuildFailed, env, 1);
        return;
      }
      outcome := Replace(previous, config, candidate.value, env);
    }

    /** The part of Apply that replaces the engine, between the preparation and the commit. */
    method Replace(previous: CoreState, config: Configuration, candidate: Instance, env: Env) returns (outcome: Outcome)
      requires RowOk(store.row) && store.row.authorization.Some? && 1 <= env.writes
      requires store.row == previous.(policyFloor := store.row.policyFloor, authorization := store.row.authorization)
      requires active.Some? ==> store.row.stage == Idle && previous.appliedConfig.Some?
      requires config.policyRevision == store.row.policyFloor && FixedPoint(config.json, store.row.authorization.value)
      requires candidate == Instance(config.json, Ids(store.row.authorization.value.users))
      modifies this, store
      ensures Safe()
      ensures store.row.policyFloor == old(store.row.policyFloor)
      ensures store.row.authorization == old(store.row.authorization)
      ensures outcome == Applied ==>
        && active == Some(candidate) && store.row.appliedRevision == config.revision
        && store.row.appliedConfig == Some(config.json) && store.row.appliedPolicy == config.policyRevision
      ensures outcome.RolledBack? ==>
        && active.Some? && previous.appliedConfig.Some? && store.row.appliedRevision == previous.appliedRevision
        && Some(active.value.config) == MergedText(previous.appliedConfig.value, store.row.authorization.value.users)
      ensures outcome.RollbackFailed? || outcome.Rejected? ==>
        && active == None && store.row.appliedConfig == previous.appliedConfig
        && store.row.appliedPolicy == previous.appliedPolicy
      ensures outcome.Rejected? ==> old(active) == None
      ensures outcome == Rejected(PrepareConflict) ==> old(store.row.stage) == Prepared
      ensures outcome == Crashed ==> active == None
      ensures env.start && env.writes >= 3
              && (old(store.row.stage) == Idle || old(store.row.pendingTask) == config.task) ==>
        outcome == Applied
    {
      hide FixedPoint;
      hide MergedText;
      hide ValidAuth;
      hide Restorable;
      var prepared := store.PrepareCore(config.task, config.revision, config.policyRevision, config.json);
      if !prepared { return Rejected(PrepareConflict); }
      if env.writes == 1 { active := None; return Crashed; }
      active := None;
      if !env.start {
        outcome := Rollback(previous, StartFailed, env, 2);
        return;
      }
      active := Some(candidate);
      store.CommitCore(config.revision, config.policyRevision, config.json);
      if env.writes == 2 { active := None; return Crashed; }
      outcome := Applied;
    }

    /** Why a configuration may not be run under the authorization that came with it. */
    method Problem(config: Configuration, revision: int) returns (cause: Option<Cause>)
      ensures cause.None? && config.authorization.AuthText? && ValidAuth(config.authorization.auth) ==>
        && config.policyRevision == revision && config.digest == config.json
        && FixedPoint(config.json, config.authorization.auth)
      ensures config.authorization.AuthText? && ValidAuth(config.authorization.auth)
              && config.policyRevision == revision && config.digest == config.json
              && FixedPoint(config.json, config.authorization.auth) ==>
                cause.None?
      ensures cause.Some? ==>
        cause.value !in {BadAuthorization, RevisionDiffers, BuildFailed, PrepareConflict, StartFailed}
    {
      if config.policyRevision < revision { return Some(StalePolicy); }
      if config.policyRevision != revision { return Some(UnknownPolicy); }
      if config.digest != config.json { return Some(DigestMismatch); }
      var merged := MergeAuthorization(config.json, config.authorization);
      if merged.None? { return Some(Unmergeable); }
      if merged.value.value != config.json.value { return Some(UsersDiffer); }
      cause := None;
    }

    /** The exits of Apply after the floor may have risen: an engine that served an older
        policy is replaced, any other stays. */
    method Fail(ghost before: CoreState, cause: Cause, env: Env, written: nat) returns (outcome: Outcome)
      requires RowOk(store.row) && RowOk(before) && EngineOk(before, active) && store.row.authorization.Some?
      requires store.row == before.(policyFloor := store.row.policyFloor, authorization := store.row.authorization)
      requires before.policyFloor == store.row.policyFloor ==> before.authorization == store.row.authorization
      modifies this, store
      ensures Safe()
      ensures store.row.policyFloor == old(store.row.policyFloor)
      ensures store.row.authorization == old(store.row.authorization)
      ensures outcome != Applied && (outcome.Rejected? ==> outcome == Rejected(cause))
      ensures outcome.RolledBack? ==>
        && active.Some? && before.appliedConfig.Some? && store.row.appliedRevision == before.appliedRevision
        && Some(active.value.config) == MergedText(before.appliedConfig.value, store.row.authorization.value.users)
      ensures outcome.RollbackFailed? ==>
        && active == None && store.row.appliedConfig == before.appliedConfig
        && store.row.appliedPolicy == before.appliedPolicy
      ensures outcome.Rejected? ==> active == old(active) && store.row == old(store.row)
      ensures outcome.RolledBack? <==>
        before.appliedPolicy < store.row.policyFloor && env.writes != written && Restorable(before, store.row, env)
      ensures outcome == Crashed ==> active == None
    {
      var previous := store.row;
      if previous.appliedConfig.Some? && previous.appliedPolicy < previous.policyFloor {
        outcome := Rollback(previous, cause, env, written);
      } else {
        outcome := Rejected(cause);
      }
    }

    /** Restores the previous configuration under the latest users, or no engine. */
    method Rollback(previous: CoreState, cause: Cause, env: Env, written: nat) returns (outcome: Outcome)
      requires RowOk(store.row) && store.row.authorization.Some?
      requires previous.appliedConfig == store.row.appliedConfig && previous.appliedPolicy == store.row.appliedPolicy
      requires previous.appliedRevision == store.row.appliedRevision
      modifies this, store
      ensures Safe()
      ensures store.row.policyFloor == old(store.row.policyFloor)
      ensures store.row.authorization == old(store.row.authorization)
      ensures outcome != Applied && (outcome.Rejected? ==> outcome == Rejected(cause) && previous.appliedConfig.None?)
      ensures outcome.RolledBack? ==>
        && active.Some? && previous.appliedConfig.Some? && store.row.appliedRevision == previous.appliedRevision
        && Some(active.value.config) == MergedText(previous.appliedConfig.value, store.row.authorization.value.users)
      ensures outcome.RolledBack? <==> env.writes != written && Restorable(previous, store.row, env)
      ensures outcome.RollbackFailed? || outcome.Rejected? ==>
        && active == None && store.row.appliedConfig == previous.appliedConfig
        && store.row.appliedPolicy == previous.appliedPolicy
      ensures outcome == Crashed ==> active == None
    {
      hide FixedPoint;
      hide ValidAuth;
      hide MergedText;
      hide DecodeConfig;
      hide ExposesManagement;
      active := None;
      if previous.appliedConfig.None? {
        store.AbortCore();
        if env.writes == written { return Crashed; }
        return Rejected(cause);
      }
      var latest := store.row;
      var auth := latest.authorization.value;
      var safe := MergeAuthorization(previous.appliedConfig.value, AuthText(0, auth));
      if safe.None? { return RollbackFailed(cause); }
      MergedIsFixed(previous.appliedConfig.value, auth);
      var restored := Build(safe.value, auth, env.rebuild);
      if restored.None? || !env.restart { return RollbackFailed(cause); }
      active := restored;
      store.CommitCore(previous.appliedRevision, latest.policyFloor, safe.value);
      if env.writes == written { active := None; return Crashed; }
      outcome := RolledBack(cause);
    }

    /** At process start: a preparation cut short is settled and the engine comes up at the
        floor, without merging when the row is already there. */
    method Recover(env: Env) returns (running: bool)
      requires Safe() && active == None
      modifies this, store
      ensures Safe() && running == active.Some?
      ensures store.row.policyFloor == old(store.row.policyFloor)
      ensures store.row.authorization == old(store.row.authorization)
      ensures running ==> store.row.appliedPolicy == store.row.policyFloor && store.row.stage == Idle
      ensures !running && old(store.row.appliedConfig).Some? && env.writes > 0 ==> store.row == old(store.row)
      ensures env.writes > 0 ==> (running <==> Recoverable(old(store.row), env))
      ensures running ==>
        && store.row.appliedRevision == old(store.row.appliedRevision)
        && store.row.appliedConfig == RecoveredText(old(store.row))
      ensures old(store.row.appliedConfig).None? && env.writes > 0 ==> store.row.stage == Idle
      ensures old(store.row.stage) == Idle && old(store.row.appliedPolicy == store.row.policyFloor) ==>
        store.row == old(store.row)
    {
      hide FixedPoint;
      hide ValidAuth;
      hide MergedText;
      hide Buildable;
      hide DecodeConfig;
      var saved := store.row;
      if saved.appliedConfig.None? {
        if saved.stage != Idle { store.AbortCore(); }
        return false;
      }
      var auth := saved.authorization.value;
      var safe := saved.appliedConfig.value;
      if saved.appliedPolicy != saved.policyFloor || saved.stage != Idle {
        var merged := MergeAuthorization(safe, AuthText(0, auth));
        if merged.None? { return false; }
        MergedIsFixed(safe, auth);
        safe := merged.value;
      }
      var candidate := Build(safe, auth, env.build);
      if candidate.None? || !env.start { return false; }
      active := candidate;
      if saved.appliedPolicy == saved.policyFloor && saved.stage == Idle { return true; }
      store.CommitCore(saved.appliedRevision, saved.policyFloor, safe);
      if env.writes == 0 { active := None; }
      running := active.Some?;
    }
  }

  // ---------------------------------------------------------------- what safety means

  lemma RevisionPositive(auth: Auth)
    requires ValidAuth(auth)
    ensures auth.revision >= 1
  {}

  lemma MergedIsFixed(text: Text, auth: Auth)
    requires MergedText(text, auth.users).Some?
    ensures FixedPoint(MergedText(text, auth.users).value, auth)
  {
    LastMergeWins(DecodeConfig(text).value, auth.users, auth.users);
  }

  /** The safety claim: a running engine serves, on both managed protocols, exactly the
      users of the stored authorization at the policy floor, and its traffic is counted
      for exactly those users. */
  lemma RunningServes(r: CoreState, active: Option<Instance>)
    requires RowOk(r) && EngineOk(r, active) && active.Some?
    ensures var auth, config := r.authorization.value, DecodeConfig(active.value.config);
            && auth.revision == r.policyFloor && config.Some?
            && Serves(config.value, TROJAN, UserList(auth.users, "trojan"))
            && Serves(config.value, HYSTERIA2, UserList(auth.users, "hysteria2"))
            && active.value.users == Ids(auth.users)
  {
    MergedServes(DecodeConfig(active.value.config).value, r.authorization.value.users);
  }

  /** The recovery shortcut is sound: where the applied policy is the floor, merging the
      stored authorization into the applied configuration decodes to that configuration. */
  lemma ShortcutSound(r: CoreState)
    requires RowOk(r) && r.appliedConfig.Some? && r.appliedPolicy == r.policyFloor
    ensures var merged := MergedText(r.appliedConfig.value, r.authorization.value.users);
            merged.Some? && DecodeConfig(merged.value) == DecodeConfig(r.appliedConfig.value)
  {}

  // ---------------------------------------------------------------- whole runs

  datatype Operation = DoApply(config: Configuration, env: Env) | DoClose | Restart(env: Env)

  /** Any sequence of applications, shutdowns and restarts, each of which may fail to build
      or start an engine and may be cut short after any store write, keeps the policy floor
      monotone and every running engine at it. */
  method Drive(adapter: Adapter, script: seq<Operation>)
    requires adapter.Safe()
    modifies adapter, adapter.store
    ensures adapter.Safe()
    ensures old(adapter.store.row.policyFloor) <= adapter.store.row.policyFloor
  {
    for i := 0 to |script|
      invariant adapter.Safe()
      invariant old(adapter.store.row.policyFloor) <= adapter.store.row.policyFloor
    {
      match script[i]
      case DoApply(config, env) => var _ := adapter.Apply(config, env);
      case DoClose => adapter.Close();
      case Restart(env) =>
        adapter.active := None;
        var _ := adapter.Recover(env);
    }
  }
}
