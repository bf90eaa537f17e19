/** The panel's authorization revisions and the configurations rendered under them
    (apps/web/src/server/configuration/policy.ts and store.ts, and
    apps/web/src/server/subscription/credentials.ts and store.ts). */
module PolicyRevision {
  import opened Wrappers
  import opened Collections
  import opened UsageTypes

  type UserId = string
  type MachineId = string
  type Settings = string
  type Rendered = string
  type Id = nat

  datatype Error = MachineNotFound | UsageOverflow | PolicyOverflow | NotReady | VersionConflict
                 | PreviewNotFound | PreviewUsed | PreviewExpired | StalePolicy | UnsupportedOs
                 | Uninstalled | TaskRefused | ConfigNotFound

  type Result<T> = Fallible<T, Error>

  datatype User = User(id: UserId, active: bool, limit: Option<int>)

  datatype Secrets = Secrets(trojan: string, hysteria2: string)

  datatype Credentials = Credentials(generation: nat, secrets: Secrets)

  datatype Authorized = Authorized(id: UserId, secrets: Secrets)

  /** What is hashed into the fingerprint: users and their credential generations. */
  type Fingerprint = seq<(UserId, nat)>

  datatype Layer = Layer(revision: int, users: seq<Authorized>)

  datatype Policy = Policy(revision: int, fingerprint: Fingerprint, period: int)

  datatype Preview = Preview(machine: MachineId, settings: Settings, rendered: Rendered, expectedVersion: nat,
                             policyRevision: int, expiresAt: int, createdBy: UserId, published: Option<Id>)

  datatype Revision = Revision(machine: MachineId, version: nat, settings: Settings, rendered: Rendered,
                               policyRevision: int, authorized: seq<UserId>)

  datatype Config = Config(settings: Option<Settings>, version: nat, desired: Option<Id>, desiredPolicy: int)

  datatype Machine = Machine(linux: bool, removed: bool, uninstalled: bool, applies: bool, installed: bool)

  /** The tables. `used` is each user's month total at the present time. */
  datatype Db = Db(users: seq<User>, used: map<UserId, int>, credentials: map<UserId, Credentials>,
                   policy: Option<Policy>, previews: map<Id, Preview>, revisions: map<Id, Revision>,
                   configs: map<MachineId, Config>,
                   machines: map<MachineId, Machine>, tasks: map<(MachineId, string), Id>, nextId: Id)

  /** Every revision's users, and every secret ever stored, by generation. */
  datatype History = History(layers: map<int, seq<Authorized>>, secrets: map<(UserId, nat), Secrets>)

  // ---------------------------------------------------------------- who is authorized

  function Used(used: map<UserId, int>, id: UserId): int { if id in used then used[id] else 0 }

  predicate Blocked(u: User, used: map<UserId, int>) { u.limit.Some? && Used(used, u.id) >= u.limit.value }

  /** Active users within their quota, in the order of the table. */
  ghost function Effective(users: seq<User>, used: map<UserId, int>): seq<UserId> {
    if users == [] then []
    else
      var last := users[|users| - 1];
      Effective(users[..|users| - 1], used) + if last.active && !Blocked(last, used) then [last.id] else []
  }

  function Ids(users: seq<Authorized>): seq<UserId> { seq(|users|, i requires 0 <= i < |users| => users[i].id) }

  /** The users a fingerprint stands for. */
  ghost function Expand(mark: Fingerprint, secrets: map<(UserId, nat), Secrets>): seq<Authorized> {
    seq(|mark|, i requires 0 <= i < |mark| =>
      Authorized(mark[i].0, if mark[i] in secrets then secrets[mark[i]] else Secrets("", "")))
  }

  ghost predicate Known(mark: Fingerprint, secrets: map<(UserId, nat), Secrets>) {
    forall i :: 0 <= i < |mark| ==> mark[i] in secrets
  }

  ghost predicate Extends<K, V>(before: map<K, V>, after: map<K, V>) {
    forall k :: k in before ==> k in after && after[k] == before[k]
  }

  lemma ExpandStable(mark: Fingerprint, before: map<(UserId, nat), Secrets>, after: map<(UserId, nat), Secrets>)
    requires Known(mark, before) && Extends(before, after)
    ensures Known(mark, after) && Expand(mark, after) == Expand(mark, before)
  {}

  // ---------------------------------------------------------------- the invariant

  /** A generation never changes its secrets, and the stored one is the latest. */
  ghost predicate CredentialsOk(credentials: map<UserId, Credentials>, secrets: map<(UserId, nat), Secrets>) {
    && (forall u :: u in credentials ==>
          var key := (u, credentials[u].generation); key in secrets && secrets[key] == credentials[u].secrets)
    && (forall k :: k in secrets ==> k.0 in credentials && k.1 <= credentials[k.0].generation)
  }

  ghost predicate PolicyOk(policy: Option<Policy>, h: History) {
    match policy
    case None => h.layers == map[]
    case Some(p) =>
      && p.revision >= 1 && Known(p.fingerprint, h.secrets)
      && (forall r :: r in h.layers <==> 1 <= r <= p.revision)
      && h.layers[p.revision] == Expand(p.fingerprint, h.secrets)
  }

  /** The text is the settings rendered for the users of its policy revision. */
  ghost predicate Faithful(settings: Settings, rendered: Rendered, revision: int, layers: map<int, seq<Authorized>>,
                           render: (Settings, Layer) -> Rendered)
  {
    revision in layers && rendered == render(settings, Layer(revision, layers[revision]))
  }

  ghost predicate TextsOk(db: Db, layers: map<int, seq<Authorized>>, render: (Settings, Layer) -> Rendered) {
    && (forall i :: i in db.previews ==>
          Faithful(db.previews[i].settings, db.previews[i].rendered, db.previews[i].policyRevision, layers, render))
    && (forall i :: i in db.revisions ==>
          var r := db.revisions[i];
          && Faithful(r.settings, r.rendered, r.policyRevision, layers, render)
          && r.authorized == Ids(layers[r.policyRevision]))
  }

  /** A machine's versions count its revisions, and its target is one of them. */
  ghost predicate ConfigsOk(db: Db) {
    && (forall i :: i in db.previews ==> i < db.nextId)
    && (forall i :: i in db.revisions ==>
          && i < db.nextId && db.revisions[i].machine in db.configs
          && db.revisions[i].version <= db.configs[db.revisions[i].machine].version)
    && (forall i, j :: i in db.revisions && j in db.revisions && i != j
                       && db.revisions[i].machine == db.revisions[j].machine ==>
          db.revisions[i].version != db.revisions[j].version)
    && (forall m :: m in db.configs && db.configs[m].desired.Some? ==>
          && db.configs[m].desired.value in db.revisions
          && var r := db.revisions[db.configs[m].desired.value];
             r.machine == m && r.version == db.configs[m].version && Some(r.settings) == db.configs[m].settings
             && (db.configs[m].desiredPolicy == r.policyRevision || db.configs[m].desiredPolicy == 0))
  }

  ghost predicate Inv(db: Db, h: History, render: (Settings, Layer) -> Rendered) {
    CredentialsOk(db.credentials, h.secrets) && PolicyOk(db.policy, h) && TextsOk(db, h.layers, render) && ConfigsOk(db)
  }

  /** Revisions only grow, and what a revision once stood for it stands for ever. */
  ghost predicate Onward(before: Db, b: History, after: Db, a: History) {
    && Extends(b.layers, a.layers) && Extends(b.secrets, a.secrets)
    && (before.policy.Some? ==> after.policy.Some? && before.policy.value.revision <= after.policy.value.revision)
    && (forall i :: i in before.revisions ==> i in after.revisions && after.revisions[i] == before.revisions[i])
  }

  /** Only the policy row and missing credentials change in a refresh. */
  ghost predicate OnlyPolicy(before: Db, after: Db) {
    after == before.(policy := after.policy, credentials := after.credentials)
  }

  // ---------------------------------------------------------------- the panel

  lemma EffectiveStep(users: seq<User>, used: map<UserId, int>, i: nat)
    requires i < |users|
    ensures Effective(users[..i + 1], used)
            == Effective(users[..i], used) + if users[i].active && !Blocked(users[i], used) then [users[i].id] else []
  {
    assert users[..i + 1][..i] == users[..i];
  }

  lemma NobodyEffective(users: seq<User>, used: map<UserId, int>)
    ensures Effective(users[..0], used) == [] == Ids([])
  {}

  lemma IdsAppend(users: seq<Authorized>, user: Authorized)
    ensures Ids(users + [user]) == Ids(users) + [user.id]
  {}

  lemma NothingMarked(secrets: map<(UserId, nat), Secrets>)
    ensures Known([], secrets) && Expand([], secrets) == [] && Extends(secrets, secrets)
  {}

  lemma ExtendsItself<K, V>(a: map<K, V>)
    ensures Extends(a, a)
  {}

  lemma ExtendsThrough<K, V>(a: map<K, V>, b: map<K, V>, c: map<K, V>)
    requires Extends(a, b) && Extends(b, c)
    ensures Extends(a, c)
  {}

  lemma ExpandAppend(mark: Fingerprint, entry: (UserId, nat), secrets: map<(UserId, nat), Secrets>)
    requires Known(mark, secrets) && entry in secrets
    ensures Known(mark + [entry], secrets)
    ensures Expand(mark + [entry], secrets) == Expand(mark, secrets) + [Authorized(entry.0, secrets[entry])]
  {}

  /** initializeUserSecrets: a user without credentials gets new ones, of generation 1. */
  method InitializeUserSecrets(id: UserId, credentials: map<UserId, Credentials>, ghost secrets: map<(UserId, nat),
                               Secrets>)
    returns (after: map<UserId, Credentials>, ghost grown: map<(UserId, nat), Secrets>)
    requires CredentialsOk(credentials, secrets)
    ensures CredentialsOk(after, grown) && Extends(secrets, grown) && Extends(credentials, after)
    ensures after.Keys == credentials.Keys + {id}
    ensures (id, after[id].generation) in grown && grown[(id, after[id].generation)] == after[id].secrets
  {
    after, grown := credentials, secrets;
    if id !in credentials {
      var made: Secrets := *;
      after := credentials[id := Credentials(1, made)];
      grown := secrets[(id, 1) := made];
    }
  }

  /** What refresh makes of the policy row and the history. */
  function NextRevision(policy: Option<Policy>, mark: Fingerprint): int {
    if policy.None? then 1 else policy.value.revision + if policy.value.fingerprint == mark then 0 else 1
  }

  ghost function NextHistory(policy: Option<Policy>, h: History, mark: Fingerprint, users: seq<Authorized>,
                             secrets: map<(UserId, nat), Secrets>): History {
    var changed := policy.None? || policy.value.fingerprint != mark;
    History(if changed then h.layers[NextRevision(policy, mark) := users] else h.layers, secrets)
  }

  lemma PolicyMoves(policy: Option<Policy>, h: History, mark: Fingerprint, users: seq<Authorized>,
                    secrets: map<(UserId, nat), Secrets>, period: int)
    requires PolicyOk(policy, h) && Extends(h.secrets, secrets) && Known(mark, secrets)
    requires users == Expand(mark, secrets)
    ensures var after := NextHistory(policy, h, mark, users, secrets);
            && PolicyOk(Some(Policy(NextRevision(policy, mark), mark, period)), after)
            && Extends(h.layers, after.layers) && after.layers[NextRevision(policy, mark)] == users
  {
    if policy.Some? {
      ExpandStable(policy.value.fingerprint, h.secrets, secrets);
    }
    hide Expand;
    hide Known;
  }

  lemma TextsStay(db: Db, before: map<int, seq<Authorized>>, after: map<int, seq<Authorized>>, render: (Settings,
                  Layer) -> Rendered)
    requires TextsOk(db, before, render) && Extends(before, after)
    ensures TextsOk(db, after, render)
  {}

  lemma OnlyPolicyMoves(before: Db, after: Db, layers: map<int, seq<Authorized>>, render: (Settings, Layer) -> Rendered)
    requires OnlyPolicy(before, after)
    ensures ConfigsOk(before) ==> ConfigsOk(after)
    ensures TextsOk(before, layers, render) ==> TextsOk(after, layers, render)
  {}

  datatype Effect = Effect(credentials: map<UserId, Credentials>, mark: Fingerprint, users: seq<Authorized>)

  class Panel {
    const render: (Settings, Layer) -> Rendered
    var db: Db
    ghost var history: History

    constructor (render: (Settings, Layer) -> Rendered, users: seq<User>, machines: map<MachineId, Machine>)
      ensures this.render == render && Inv(db, history, render) && db.policy == None
    {
      this.render := render;
      db := Db(users, map[], map[], None, map[], map[], map[], machines, map[], 0);
      history := History(map[], map[]);
    }

    /** The loop of refresh: credentials are made where they are missing, and users who are
        active and within quota enter the list and its fingerprint. */
    method Collect() returns (r: Result<Effect>, ghost secrets: map<(UserId, nat), Secrets>)
      requires CredentialsOk(db.credentials, history.secrets)
      ensures r.Ok? ==>
        && CredentialsOk(r.value.credentials, secrets) && Extends(history.secrets, secrets)
        && Known(r.value.mark, secrets) && r.value.users == Expand(r.value.mark, secrets)
        && Ids(r.value.users) == Effective(db.users, db.used)
      ensures r.Err? <==>
        exists i :: 0 <= i < |db.users| && db.users[i].active && Used(db.used, db.users[i].id) > MAX_INT64
    {
      hide CredentialsOk;
      hide Known;
      hide Expand;
      hide Extends;
      hide Blocked;
      hide Used;
      hide Ids;
      hide Effective;
      NobodyEffective(db.users, db.used);
      var credentials, mark, users := db.credentials, [], [];
      secrets := history.secrets;
      NothingMarked(secrets);
      for i := 0 to |db.users|
        invariant CredentialsOk(credentials, secrets) && Extends(history.secrets, secrets)
        invariant Known(mark, secrets) && users == Expand(mark, secrets)
        invariant Ids(users) == Effective(db.users[..i], db.used)
        invariant forall j :: 0 <= j < i ==> !(db.users[j].active && Used(db.used, db.users[j].id) > MAX_INT64)
      {
        var user := db.users[i];
        EffectiveStep(db.users, db.used, i);
        if user.active {
          ghost var before := secrets;
          credentials, secrets := InitializeUserSecrets(user.id, credentials, secrets);
          ExpandStable(mark, before, secrets);
          ExtendsThrough(history.secrets, before, secrets);
          if Used(db.used, user.id) > MAX_INT64 { return Err(UsageOverflow), secrets; }
          if !Blocked(user, db.used) {
            var entry := (user.id, credentials[user.id].generation);
            ExpandAppend(mark, entry, secrets);
            IdsAppend(users, Authorized(user.id, credentials[user.id].secrets));
            mark := mark + [entry];
            users := users + [Authorized(user.id, credentials[user.id].secrets)];
          }
        }
      }
      assert db.users[..|db.users|] == db.users;
      r := Ok(Effect(credentials, mark, users));
    }

    /** refresh: the revision grows by one when the fingerprint changes and only then, so it
        determines the users and their secrets. */
    method Refresh(period: int) returns (r: Result<Layer>)
      requires Inv(db, history, render)
      modifies this
      ensures Inv(db, history, render) && Onward(old(db), old(history), db, history) && OnlyPolicy(old(db), db)
      ensures r.Err? ==> db == old(db) && history == old(history)
      ensures r.Ok? ==>
        && db.policy.Some? && r.value.revision == db.policy.value.revision
        && r.value.revision in history.layers && r.value.users == history.layers[r.value.revision]
        && Ids(r.value.users) == Effective(db.users, db.used)
        && db.policy.value.period == period
      ensures r.Ok? && old(db.policy).Some? ==>
        var before := old(db.policy).value;
        r.value.revision == before.revision + if db.policy.value.fingerprint == before.fingerprint then 0 else 1
      ensures r.Ok? && old(db.policy).None? ==> r.value.revision == 1
    {
      hide TextsOk;
      hide ConfigsOk;
      hide CredentialsOk;
      hide Expand;
      hide Known;
      var collected;
      ghost var secrets;
      collected, secrets := Collect();
      if collected.Err? { return Err(collected.error); }
      var Effect(credentials, mark, users) := collected.value;
      var revision := NextRevision(db.policy, mark);
      if revision > MAX_SAFE_INTEGER { return Err(PolicyOverflow); }
      PolicyMoves(db.policy, history, mark, users, secrets, period);
      ghost var grown := NextHistory(db.policy, history, mark, users, secrets);
      TextsStay(db, history.layers, grown.layers, render);
      var after := db.(credentials := credentials, policy := Some(Policy(revision, mark, period)));
      OnlyPolicyMoves(db, after, grown.layers, render);
      db, history := after, grown;
      r := Ok(Layer(revision, users));
    }

    /** ensureMachine: the machine's row exists afterwards. */
    method EnsureMachine(m: MachineId) returns (r: Result<Config>)
      requires Inv(db, history, render)
      modifies this`db
      ensures Inv(db, history, render)
      ensures r.Ok? <==> m in old(db).machines && !old(db).machines[m].uninstalled
      ensures r.Err? ==> db == old(db)
      ensures r.Ok? ==> db == old(db).(configs := db.configs) && m in db.configs && db.configs[m] == r.value
      ensures r.Ok? ==>
        var config := if m in old(db).configs then old(db).configs[m] else Config(None, 0, None, 0);
        db.configs == old(db).configs[m := config]
    {
      if m !in db.machines { return Err(MachineNotFound); }
      if db.machines[m].uninstalled { return Err(Uninstalled); }
      if m !in db.configs {
        NoConfig(db, history, render, m);
        db := db.(configs := db.configs[m := Config(None, 0, None, 0)]);
      }
      r := Ok(db.configs[m]);
    }

    /** preview: one transaction, undone on every error. */
    method MakePreview(m: MachineId, settings: Settings, expectedVersion: nat, createdBy: UserId, now: int, period: int)
      returns (r: Result<Id>)
      requires Inv(db, history, render)
      modifies this
      ensures Inv(db, history, render) && Onward(old(db), old(history), db, history)
      ensures r.Err? ==> db == old(db) && history == old(history)
      ensures r.Ok? ==>
        && r.value !in old(db).previews && r.value in db.previews && db.policy.Some?
        && var p := db.previews[r.value];
           p.machine == m && p.settings == settings && p.createdBy == createdBy && p.published == None
           && p.policyRevision == db.policy.value.revision && p.expectedVersion == expectedVersion
    {
      var before, past := db, history;
      var row := EnsureMachine(m);
      if row.Err? { return Err(row.error); }
      if row.value.version != expectedVersion {
        db := before;
        return Err(VersionConflict);
      }
      var layer := Refresh(period);
      if layer.Err? {
        db := before;
        return Err(layer.error);
      }
      var id := db.nextId;
      var preview := Preview(m, settings, render(settings, layer.value), row.value.version, layer.value.revision,
                             now + 10 * 60_000, createdBy, None);
      PreviewAdded(db, history, render, preview);
      db := db.(previews := db.previews[id := preview], nextId := id + 1);
      r := Ok(id);
    }

    /** publish: a repeated request finds its earlier revision; a preview of another policy
        revision is refused; every error undoes the transaction. */
    method Publish(m: MachineId, previewId: Id, expectedVersion: nat, key: string, createdBy: UserId, now: int,
                   period: int,
                   accepted: bool) returns (r: Result<Id>)
      requires Inv(db, history, render)
      modifies this
      ensures Inv(db, history, render) && Onward(old(db), old(history), db, history)
      ensures r.Err? ==> db == old(db) && history == old(history)
      ensures r.Ok? ==> previewId in old(db).previews && old(db).previews[previewId].machine == m
      ensures r.Ok? && old(db).previews[previewId].published.Some? ==>
        db == old(db) && history == old(history) && r.value == old(db).previews[previewId].published.value
      ensures r.Ok? && old(db).previews[previewId].published.None? ==>
        && r.value !in old(db).revisions && Target(db, m, r.value)
        && previewId in db.previews && db.previews[previewId].published == Some(r.value)
        && (m, key) in db.tasks && db.tasks[(m, key)] == r.value
        && db.configs[m].version == expectedVersion + 1
        && db.revisions[r.value].rendered == old(db).previews[previewId].rendered
        && now < old(db).previews[previewId].expiresAt
    {
      if m !in db.machines { return Err(MachineNotFound); }
      if previewId !in db.previews || db.previews[previewId].machine != m
         || db.previews[previewId].createdBy != createdBy {
        return Err(PreviewNotFound);
      }
      var preview := db.previews[previewId];
      if preview.published.Some? {
        if (m, key) !in db.tasks || db.tasks[(m, key)] != preview.published.value { return Err(PreviewUsed); }
        return Ok(preview.published.value);
      }
      if preview.expiresAt <= now { return Err(PreviewExpired); }
      r := PublishNew(m, previewId, expectedVersion, key, period, accepted);
    }

    method PublishNew(m: MachineId, previewId: Id, expectedVersion: nat, key: string, period: int, accepted: bool)
      returns (r: Result<Id>)
      requires Inv(db, history, render) && m in db.machines && previewId in db.previews
      requires db.previews[previewId].machine == m
      modifies this
      ensures Inv(db, history, render) && Onward(old(db), old(history), db, history)
      ensures r.Err? ==> db == old(db) && history == old(history)
      ensures r.Ok? ==>
        && r.value !in old(db).revisions && Target(db, m, r.value)
        && previewId in db.previews && db.previews[previewId].published == Some(r.value)
        && (m, key) in db.tasks && db.tasks[(m, key)] == r.value
        && db.configs[m].version == expectedVersion + 1
        && db.revisions[r.value].rendered == old(db).previews[previewId].rendered
    {
      hide Inv;
      hide Onward;
      hide Faithful;
      ghost var before, past := db, history;
      var preview := db.previews[previewId];
      var checked := CheckPublication(m, preview, expectedVersion, period, accepted);
      if checked.Err? { return Err(checked.error); }
      var (row, layer) := checked.value;
      var revision := Revision(m, row.version + 1, preview.settings, preview.rendered, preview.policyRevision,
                               Ids(layer.users));
      var id := db.nextId;
      PreviewFaithful(db, history, render, previewId);
      RevisionAdded(db, history, render, revision);
      Published(WithRevision(db, revision), history, render, previewId, id, (m, key));
      OnwardMore(before, past, db, history, WithPublication(WithRevision(db, revision), previewId, id, (m, key)));
      db := WithPublication(WithRevision(db, revision), previewId, id, (m, key));
      r := Ok(id);
    }

    /** The part of publish that may still refuse; a refusal undoes it. */
    method CheckPublication(m: MachineId, preview: Preview, expectedVersion: nat, period: int, accepted: bool)
      returns (r: Result<(Config, Layer)>)
      requires Inv(db, history, render) && m in db.machines
      modifies this
      ensures Inv(db, history, render) && Onward(old(db), old(history), db, history)
      ensures r.Err? ==> db == old(db) && history == old(history)
      ensures r.Ok? ==>
        && db.previews == old(db).previews && db.revisions == old(db).revisions
        && db.tasks == old(db).tasks && db.nextId == old(db).nextId
        && var (row, layer) := r.value;
           && m in db.configs && db.configs[m] == row && row.version == expectedVersion == preview.expectedVersion
           && layer.revision == preview.policyRevision
           && layer.revision in history.layers && layer.users == history.layers[layer.revision]
           && db.policy.Some? && db.policy.value.revision == layer.revision && accepted
    {
      hide Inv;
      hide Effective;
      ghost var past := history;
      var before := db;
      var row := EnsureMachine(m);
      if row.Err? { return Err(row.error); }
      if row.value.version != expectedVersion || preview.expectedVersion != row.value.version {
        db := before;
        return Err(VersionConflict);
      }
      var layer := Refresh(period);
      if layer.Err? {
        db := before;
        return Err(layer.error);
      }
      if layer.value.revision != preview.policyRevision || !db.machines[m].linux || !accepted {
        var error := if layer.value.revision != preview.policyRevision then StalePolicy
                     else if !db.machines[m].linux then UnsupportedOs else TaskRefused;
        db, history := before, past;
        return Err(error);
      }
      r := Ok((row.value, layer.value));
    }

    /** getConfig for a configuration: a stored revision with the latest authorization. */
    method GetConfig(m: MachineId, requested: Option<Id>, period: int) returns (r: Result<(Revision, Layer)>)
      requires Inv(db, history, render)
      modifies this
      ensures Inv(db, history, render) && Onward(old(db), old(history), db, history)
      ensures r.Ok? ==>
        && db.policy.Some?
        && var (revision, latest) := r.value;
           && revision.machine == m
           && Faithful(revision.settings, revision.rendered, revision.policyRevision, history.layers, render)
           && latest.revision == db.policy.value.revision >= revision.policyRevision
           && latest.revision in history.layers && latest.users == history.layers[latest.revision]
    {
      if m !in db.machines { return Err(MachineNotFound); }
      if db.machines[m].uninstalled { return Err(Uninstalled); }
      var latest := Refresh(period);
      if latest.Err? { return Err(latest.error); }
      var id := if requested.Some? then requested else if m in db.configs then db.configs[m].desired else None;
      if id.None? || id.value !in db.revisions || db.revisions[id.value].machine != m { return Err(ConfigNotFound); }
      r := Ok((db.revisions[id.value], latest.value));
    }

    /** resetProxyCredentials: new secrets under the next generation. */
    method ResetProxyCredentials(user: UserId) returns (r: Result<()>)
      requires Inv(db, history, render)
      modifies this
      ensures Inv(db, history, render) && Onward(old(db), old(history), db, history)
      ensures r.Ok? <==> user in old(db).credentials
      ensures r.Err? ==> db == old(db) && history == old(history)
      ensures r.Ok? ==>
        && db == old(db).(credentials := db.credentials) && user in db.credentials
        && db.credentials[user].generation == old(db).credentials[user].generation + 1
    {
      if user !in db.credentials { return Err(NotReady); }
      hide Inv;
      hide Onward;
      var made: Secrets := *;
      CredentialsReset(db, history, render, user, made);
      history := HistoryReset(db, history, user, made);
      db := WithReset(db, user, made);
      r := Ok(());
    }

    /** reconcile: every machine that can take a configuration and is behind gets one for
        the current revision in a transaction of its own; the machines in `refused` are
        those whose transaction fails. */
    method Reconcile(refused: set<MachineId>, period: int) returns (r: Result<set<MachineId>>)
      requires Inv(db, history, render)
      modifies this
      ensures Inv(db, history, render) && Onward(old(db), old(history), db, history)
      ensures r.Err? ==> db == old(db) && history == old(history)
      ensures r.Ok? ==> Reconciled(old(db), db, refused, r.value)
    {
      hide Inv;
      hide Onward;
      hide Effective;
      hide Midway;
      hide Behind;
      hide Reconciled;
      var layer := Refresh(period);
      if layer.Err? { return Err(layer.error); }
      var changed: set<MachineId> := {};
      var rows := set m | m in db.configs && m in db.machines && !db.machines[m].removed;
      var left := rows;
      ghost var start, past, revision := db, history, layer.value.revision;
      MidwayStart(start, refused, revision);
      assert rows - left == {};
      while left != {}
        invariant left <= rows && history == past
        invariant Inv(db, history, render) && Onward(old(db), old(history), db, history)
        invariant Midway(start, db, rows - left, refused, revision, changed)
        decreases left
      {
        var m := Pick(left);
        ghost var seen, before := rows - left, db;
        MidwayAt(start, db, seen, refused, revision, changed, m);
        left := left - {m};
        assert rows - left == seen + {m};
        var renewed;
        ghost var made;
        renewed, made := Renew(m, layer.value, refused);
        OnwardThrough(old(db), old(history), before, history, db, history);
        if renewed {
          MidwayRenews(start, before, seen, refused, revision, changed, made);
          changed := changed + {m};
        } else {
          MidwaySkips(start, db, seen, refused, revision, changed, m);
        }
      }
      assert rows - left == rows;
      MidwayEnds(old(db), start, db, rows, refused, revision, changed);
      r := Ok(changed);
    }

    /** One machine: nothing if it cannot take a configuration or is up to date, otherwise
        a transaction. */
    method Renew(m: MachineId, layer: Layer, refused: set<MachineId>) returns (renewed: bool, ghost revision: Revision)
      requires Inv(db, history, render) && m in db.configs && m in db.machines && !db.machines[m].removed
      requires layer.revision in history.layers && layer.users == history.layers[layer.revision]
      requires db.policy.Some? && layer.revision == db.policy.value.revision
      modifies this`db
      ensures Inv(db, history, render) && Onward(old(db), history, db, history)
      ensures renewed <==> Behind(old(db), m, layer.revision) && m !in refused
      ensures !renewed ==> db == old(db)
      ensures renewed ==>
        && db == WithRevision(old(db), revision) && old(db).nextId !in old(db).revisions
        && revision.machine == m && revision.version == old(db).configs[m].version + 1
        && Some(revision.settings) == old(db).configs[m].settings && revision.policyRevision == layer.revision
    {
      hide Inv;
      revision := Revision(m, 0, "", "", 0, []);
      var machine, config := db.machines[m], db.configs[m];
      if machine.uninstalled { return false, revision; }
      if config.settings.None? || config.desiredPolicy >= layer.revision { return false, revision; }
      if !machine.applies || !machine.installed { return false, revision; }
      if m in refused { return false, revision; }
      var made := Revision(m, config.version + 1, config.settings.value, render(config.settings.value, layer),
                           layer.revision, Ids(layer.users));
      RevisionAdded(db, history, render, made);
      db := WithRevision(db, made);
      renewed, revision := true, made;
    }
  }

  /** A machine that can take a configuration and whose target is older than a revision. */
  predicate Behind(db: Db, m: MachineId, revision: int) {
    && m in db.configs && m in db.machines
    && !db.machines[m].removed && !db.machines[m].uninstalled && db.machines[m].applies && db.machines[m].installed
    && db.configs[m].settings.Some? && db.configs[m].desiredPolicy < revision
  }

  /** The machine's target has just been made from its earlier row. */
  predicate Renewed(db: Db, before: Config, m: MachineId)
    requires m in db.configs
  {
    && db.configs[m].desired.Some? && Target(db, m, db.configs[m].desired.value)
    && db.configs[m].version == before.version + 1 && db.configs[m].settings == before.settings
  }

  // ---------------------------------------------------------------- single changes

  /** A revision becomes its machine's target. */
  function WithRevision(db: Db, revision: Revision): Db {
    db.(revisions := db.revisions[db.nextId := revision],
        configs := db.configs[revision.machine := Config(Some(revision.settings), revision.version, Some(db.nextId),
                                                         revision.policyRevision)],
        nextId := db.nextId + 1)
  }

  /** Where reconcile stands after the machines in `seen`. */
  ghost predicate Midway(start: Db, db: Db, seen: set<MachineId>, refused: set<MachineId>, revision: int,
                         changed: set<MachineId>)
  {
    && db.policy == start.policy && db.machines == start.machines && db.configs.Keys == start.configs.Keys
    && db.policy.Some? && db.policy.value.revision == revision
    && (forall m :: m in changed <==> m in seen && Behind(start, m, revision) && m !in refused)
    && (forall m :: m in changed ==> m in db.configs && Renewed(db, start.configs[m], m))
    && (forall m :: m in start.configs && m !in changed ==> db.configs[m] == start.configs[m])
  }

  lemma MidwayStart(start: Db, refused: set<MachineId>, revision: int)
    requires start.policy.Some? && start.policy.value.revision == revision
    ensures Midway(start, start, {}, refused, revision, {})
  {}

  lemma MidwayAt(start: Db, db: Db, seen: set<MachineId>, refused: set<MachineId>, revision: int,
                 changed: set<MachineId>, m: MachineId)
    requires Midway(start, db, seen, refused, revision, changed) && m in start.configs && m !in seen
    ensures db.policy == start.policy && db.machines == start.machines && m in db.configs && m !in changed
    ensures Behind(start, m, revision) <==> Behind(db, m, revision)
  {}

  lemma MidwaySkips(start: Db, db: Db, seen: set<MachineId>, refused: set<MachineId>, revision: int,
                    changed: set<MachineId>, m: MachineId)
    requires Midway(start, db, seen, refused, revision, changed)
    requires !Behind(start, m, revision) || m in refused
    ensures Midway(start, db, seen + {m}, refused, revision, changed)
  {
    hide Behind;
    hide Renewed;
  }

  /** The outcome: exactly the machines that were behind, and whose transaction went
      through, have a new target rendered for the current revision from their own settings. */
  ghost predicate Reconciled(before: Db, after: Db, refused: set<MachineId>, changed: set<MachineId>) {
    && after.policy.Some?
    && forall m :: m in before.configs ==>
         && m in after.configs
         && (m in changed <==> Behind(before, m, after.policy.value.revision) && m !in refused)
         && (if m in changed then Renewed(after, before.configs[m], m) else after.configs[m] == before.configs[m])
  }

  lemma MidwayEnds(before: Db, start: Db, db: Db, rows: set<MachineId>, refused: set<MachineId>, revision: int,
                   changed: set<MachineId>)
    requires OnlyPolicy(before, start) && Midway(start, db, rows, refused, revision, changed)
    requires rows == set m | m in start.configs && m in start.machines && !start.machines[m].removed
    ensures Reconciled(before, db, refused, changed)
  {
    hide Renewed;
  }

  lemma MidwayRenews(start: Db, db: Db, seen: set<MachineId>, refused: set<MachineId>, revision: int,
                     changed: set<MachineId>, made: Revision)
    requires Midway(start, db, seen, refused, revision, changed) && made.machine in start.configs
    requires made.machine !in changed
    requires Behind(start, made.machine, revision) && made.machine !in refused && db.nextId !in db.revisions
    requires made.policyRevision == revision && made.version == db.configs[made.machine].version + 1
    requires Some(made.settings) == db.configs[made.machine].settings
    ensures Midway(start, WithRevision(db, made), seen + {made.machine}, refused, revision, changed + {made.machine})
  {
    hide Behind;
    var after, m := WithRevision(db, made), made.machine;
    assert Renewed(after, db.configs[m], m);
    forall n | n in changed ensures n in after.configs && Renewed(after, start.configs[n], n) {
      assert Renewed(db, start.configs[n], n);
    }
  }

  lemma NoConfig(db: Db, h: History, render: (Settings, Layer) -> Rendered, m: MachineId)
    requires Inv(db, h, render) && m !in db.configs
    ensures Inv(db.(configs := db.configs[m := Config(None, 0, None, 0)]), h, render)
  {
    hide Faithful;
    hide PolicyOk;
    hide CredentialsOk;
  }

  lemma PreviewAdded(db: Db, h: History, render: (Settings, Layer) -> Rendered, preview: Preview)
    requires Inv(db, h, render)
    requires Faithful(preview.settings, preview.rendered, preview.policyRevision, h.layers, render)
    ensures Inv(db.(previews := db.previews[db.nextId := preview], nextId := db.nextId + 1), h, render)
  {
    hide Faithful;
    hide PolicyOk;
    hide CredentialsOk;
  }

  /** A preview is marked as published, and its request as answered. */
  function WithPublication(db: Db, previewId: Id, id: Id, key: (MachineId, string)): Db
    requires previewId in db.previews
  {
    db.(previews := db.previews[previewId := db.previews[previewId].(published := Some(id))],
        tasks := db.tasks[key := id])
  }

  /** The revision a machine is to run, rendered under the current policy. */
  predicate Target(db: Db, m: MachineId, id: Id) {
    && m in db.configs && db.configs[m].desired == Some(id) && id in db.revisions && db.policy.Some?
    && db.configs[m].desiredPolicy == db.revisions[id].policyRevision == db.policy.value.revision
  }

  lemma Published(db: Db, h: History, render: (Settings, Layer) -> Rendered, previewId: Id, id: Id, key: (MachineId,
                  string))
    requires Inv(db, h, render) && previewId in db.previews
    ensures Inv(WithPublication(db, previewId, id, key), h, render)
  {
    hide Faithful;
    hide PolicyOk;
    hide CredentialsOk;
  }

  lemma Reflexive(db: Db, h: History)
    ensures Onward(db, h, db, h)
  {}

  lemma OnwardThrough(db1: Db, h1: History, db2: Db, h2: History, db3: Db, h3: History)
    requires Onward(db1, h1, db2, h2) && Onward(db2, h2, db3, h3)
    ensures Onward(db1, h1, db3, h3)
  {}

  /** New rows under unused numbers leave the earlier ones. */
  lemma OnwardMore(before: Db, b: History, db: Db, h: History, after: Db)
    requires Onward(before, b, db, h) && before.revisions == db.revisions && after.policy == db.policy
    requires Extends(db.revisions, after.revisions)
    ensures Onward(before, b, after, h)
  {}

  lemma PreviewFaithful(db: Db, h: History, render: (Settings, Layer) -> Rendered, previewId: Id)
    requires Inv(db, h, render) && previewId in db.previews
    ensures var p := db.previews[previewId]; Faithful(p.settings, p.rendered, p.policyRevision, h.layers, render)
  {}

  lemma RevisionAdded(db: Db, h: History, render: (Settings, Layer) -> Rendered, revision: Revision)
    requires Inv(db, h, render)
    requires Faithful(revision.settings, revision.rendered, revision.policyRevision, h.layers, render)
    requires revision.authorized == Ids(h.layers[revision.policyRevision])
    requires revision.machine in db.configs && revision.version == db.configs[revision.machine].version + 1
    ensures Inv(WithRevision(db, revision), h, render)
    ensures db.nextId !in db.revisions
  {
    hide PolicyOk;
    hide CredentialsOk;
    RevisionText(db, h.layers, render, revision);
    RevisionTarget(db, revision);
    hide TextsOk;
    hide ConfigsOk;
  }

  lemma RevisionText(db: Db, layers: map<int, seq<Authorized>>, render: (Settings, Layer) -> Rendered,
                     revision: Revision)
    requires TextsOk(db, layers, render)
    requires Faithful(revision.settings, revision.rendered, revision.policyRevision, layers, render)
    requires revision.authorized == Ids(layers[revision.policyRevision])
    ensures TextsOk(WithRevision(db, revision), layers, render)
  {}

  lemma RevisionTarget(db: Db, revision: Revision)
    requires ConfigsOk(db) && revision.machine in db.configs
    requires revision.version == db.configs[revision.machine].version + 1
    ensures ConfigsOk(WithRevision(db, revision)) && db.nextId !in db.revisions
  {}

  function WithReset(db: Db, user: UserId, made: Secrets): Db
    requires user in db.credentials
  {
    db.(credentials := db.credentials[user := Credentials(db.credentials[user].generation + 1, made)])
  }

  ghost function HistoryReset(db: Db, h: History, user: UserId, made: Secrets): History
    requires user in db.credentials
  {
    History(h.layers, h.secrets[(user, db.credentials[user].generation + 1) := made])
  }

  lemma CredentialsReset(db: Db, h: History, render: (Settings, Layer) -> Rendered, user: UserId, made: Secrets)
    requires Inv(db, h, render) && user in db.credentials
    ensures Inv(WithReset(db, user, made), HistoryReset(db, h, user, made), render)
    ensures Onward(db, h, WithReset(db, user, made), HistoryReset(db, h, user, made))
  {
    hide CredentialsOk;
    hide PolicyOk;
    hide TextsOk;
    hide ConfigsOk;
    hide Extends;
    var after, grown := WithReset(db, user, made), HistoryReset(db, h, user, made);
    ResetGenerations(db.credentials, h.secrets, user, made);
    PolicyStays(db.policy, h, grown.secrets);
    ExtendsItself(h.layers);
    OtherTables(db, after, h.layers, render);
  }

  lemma ResetGenerations(credentials: map<UserId, Credentials>, secrets: map<(UserId, nat), Secrets>, user: UserId,
                         made: Secrets)
    requires CredentialsOk(credentials, secrets) && user in credentials
    ensures var next := credentials[user].generation + 1;
            && CredentialsOk(credentials[user := Credentials(next, made)], secrets[(user, next) := made])
            && Extends(secrets, secrets[(user, next) := made])
  {}

  lemma PolicyStays(policy: Option<Policy>, h: History, secrets: map<(UserId, nat), Secrets>)
    requires PolicyOk(policy, h) && Extends(h.secrets, secrets)
    ensures PolicyOk(policy, History(h.layers, secrets))
  {
    if policy.Some? { ExpandStable(policy.value.fingerprint, h.secrets, secrets); }
    hide Expand;
    hide Known;
  }

  lemma OtherTables(db: Db, after: Db, layers: map<int, seq<Authorized>>, render: (Settings, Layer) -> Rendered)
    requires after == db.(users := after.users, used := after.used, machines := after.machines,
                          credentials := after.credentials)
    ensures ConfigsOk(db) ==> ConfigsOk(after)
    ensures TextsOk(db, layers, render) ==> TextsOk(after, layers, render)
  {}

  /** Afterwards every machine that can take a configuration and was not refused desires at
      least the current revision. */
  lemma ReconciledIsCurrent(before: Db, after: Db, refused: set<MachineId>, changed: set<MachineId>, m: MachineId)
    requires Reconciled(before, after, refused, changed) && m in before.configs && m in before.machines && m !in refused
    requires before.configs[m].settings.Some? && !before.machines[m].removed && !before.machines[m].uninstalled
    requires before.machines[m].applies && before.machines[m].installed
    ensures m in after.configs && after.configs[m].desiredPolicy >= after.policy.value.revision
  {}

  // ---------------------------------------------------------------- whole runs

  datatype Action =
    | Users(users: seq<User>)
    | Usage(used: map<UserId, int>)
    | Machines(machines: map<MachineId, Machine>)
    | Reset(user: UserId)
    | Rebind(machine: MachineId)
    | Authorization(period: int)
    | Preparation(machine: MachineId, settings: Settings, expectedVersion: nat, createdBy: UserId, now: int,
                  period: int)
    | Publication(machine: MachineId, preview: Id, expectedVersion: nat, key: string, createdBy: UserId, now: int,
                  period: int, accepted: bool)
    | Delivery(machine: MachineId, requested: Option<Id>, period: int)
    | Reconciliation(refused: set<MachineId>, period: int)

  lemma Environment(db: Db, h: History, render: (Settings, Layer) -> Rendered, after: Db)
    requires Inv(db, h, render) && after == db.(users := after.users, used := after.used, machines := after.machines)
    ensures Inv(after, h, render) && Onward(db, h, after, h)
  {
    hide TextsOk;
    hide ConfigsOk;
    OtherTables(db, after, h.layers, render);
  }

  lemma Rebound(db: Db, h: History, render: (Settings, Layer) -> Rendered, m: MachineId)
    requires Inv(db, h, render) && m in db.configs
    ensures var after := db.(configs := db.configs[m := db.configs[m].(desiredPolicy := 0)]);
            Inv(after, h, render) && Onward(db, h, after, h)
  {
    ReboundConfigs(db, m);
    TextsFrame(db, db.(configs := db.configs[m := db.configs[m].(desiredPolicy := 0)]), h.layers, render);
    hide TextsOk;
    hide ConfigsOk;
    hide PolicyOk;
    hide CredentialsOk;
  }

  lemma ReboundConfigs(db: Db, m: MachineId)
    requires ConfigsOk(db) && m in db.configs
    ensures ConfigsOk(db.(configs := db.configs[m := db.configs[m].(desiredPolicy := 0)]))
  {}

  lemma TextsFrame(db: Db, after: Db, layers: map<int, seq<Authorized>>, render: (Settings, Layer) -> Rendered)
    requires TextsOk(db, layers, render) && after.previews == db.previews && after.revisions == db.revisions
    ensures TextsOk(after, layers, render)
  {
    hide Faithful;
  }

  method Act(panel: Panel, action: Action)
    requires Inv(panel.db, panel.history, panel.render)
    modifies panel
    ensures Inv(panel.db, panel.history, panel.render)
    ensures Onward(old(panel.db), old(panel.history), panel.db, panel.history)
  {
    hide Inv;
    hide Onward;
    match action
    case Users(users) =>
      Environment(panel.db, panel.history, panel.render, panel.db.(users := users));
      panel.db := panel.db.(users := users);
    case Usage(used) =>
      Environment(panel.db, panel.history, panel.render, panel.db.(used := used));
      panel.db := panel.db.(used := used);
    case Machines(machines) =>
      Environment(panel.db, panel.history, panel.render, panel.db.(machines := machines));
      panel.db := panel.db.(machines := machines);
    case Reset(user) => var _ := panel.ResetProxyCredentials(user);
    case Rebind(machine) =>
      Environment(panel.db, panel.history, panel.render, panel.db);
      if machine in panel.db.configs {
        Rebound(panel.db, panel.history, panel.render, machine);
        panel.db := panel.db.(configs := panel.db.configs[machine := panel.db.configs[machine].(desiredPolicy := 0)]);
      }
    case Authorization(period) => var _ := panel.Refresh(period);
    case Preparation(machine, settings, expectedVersion, createdBy, now, period) =>
      var _ := panel.MakePreview(machine, settings, expectedVersion, createdBy, now, period);
    case Publication(machine, preview, expectedVersion, key, createdBy, now, period, accepted) =>
      var _ := panel.Publish(machine, preview, expectedVersion, key, createdBy, now, period, accepted);
    case Delivery(machine, requested, period) => var _ := panel.GetConfig(machine, requested, period);
    case Reconciliation(refused, period) => var _ := panel.Reconcile(refused, period);
  }

  /** Over any changes of users, quotas, credentials and machines, revisions never fall, a
      revision stands for the same users and secrets for ever, and every stored
      configuration stays what its own revision renders to. */
  method Live(panel: Panel, script: seq<Action>)
    requires Inv(panel.db, panel.history, panel.render)
    modifies panel
    ensures Inv(panel.db, panel.history, panel.render)
    ensures Onward(old(panel.db), old(panel.history), panel.db, panel.history)
  {
    hide Inv;
    hide Onward;
    Environment(panel.db, panel.history, panel.render, panel.db);
    for i := 0 to |script|
      invariant Inv(panel.db, panel.history, panel.render)
      invariant Onward(old(panel.db), old(panel.history), panel.db, panel.history)
    {
      ghost var before, past := panel.db, panel.history;
      Act(panel, script[i]);
      OnwardThrough(old(panel.db), old(panel.history), before, past, panel.db, panel.history);
    }
  }

  /** Whoever reads the authorization at two times, whatever happens in between: the later
      revision is not lower, and equal revisions come with the same users and secrets. */
  method RevisionDetermines(panel: Panel, earlier: int, script: seq<Action>, later: int)
    returns (first: Result<Layer>, second: Result<Layer>)
    requires Inv(panel.db, panel.history, panel.render)
    modifies panel
    ensures Inv(panel.db, panel.history, panel.render)
    ensures first.Ok? && second.Ok? ==> first.value.revision <= second.value.revision
    ensures first.Ok? && second.Ok? && first.value.revision == second.value.revision ==> first.value == second.value
  {
    hide Inv;
    hide Effective;
    first := panel.Refresh(earlier);
    Live(panel, script);
    second := panel.Refresh(later);
  }
}
