/** Authorization documents and their merge into a proxy configuration:
    services/daemon/internal/adapters/singbox/policy.go over decoded JSON values. */
module Authorization {
  import opened Wrappers

  datatype Json =
    Null | Bool(b: bool) | Num(text: string) | Str(s: string) | Arr(items: seq<Json>) | Obj(fields: map<string, Json>)

  datatype AuthorizedUser = AuthorizedUser(id: string, trojanPassword: string, hysteria2Password: string)

  /** A decoded authorization; a revision that is no number reads as 0. */
  datatype Auth = Auth(version: int, revision: int, users: seq<AuthorizedUser>)

  /** Authorization bytes: not decodable, or a value in one of its spellings. Spelling 0 is
      the canonical encoding. */
  datatype AuthText = BadAuth(id: nat) | AuthText(spelling: nat, auth: Auth)

  /** Configuration bytes, in the same way. */
  datatype Text = BadText(id: nat) | Text(spelling: nat, value: Json)

  // ---------------------------------------------------------------- parseAuthorization

  predicate ValidUser(u: AuthorizedUser) {
    u.id != "" && '>' !in u.id && u.trojanPassword != "" && u.hysteria2Password != ""
  }

  /** Version 1, a positive revision, and complete users with distinct identifiers. */
  ghost predicate ValidAuth(a: Auth) {
    && a.version == 1 && a.revision >= 1
    && (forall i :: 0 <= i < |a.users| ==> ValidUser(a.users[i]))
    && (forall i, j :: 0 <= i < j < |a.users| ==> a.users[i].id != a.users[j].id)
  }

  method ParseAuthorization(data: AuthText) returns (auth: Option<Auth>)
    ensures auth == if data.AuthText? && ValidAuth(data.auth) then Some(data.auth) else None
  {
    if data.BadAuth? { return None; }
    var a := data.auth;
    if a.revision < 1 || a.version != 1 { return None; }
    var seen: set<string> := {};
    for i := 0 to |a.users|
      invariant forall j :: 0 <= j < i ==> ValidUser(a.users[j]) && a.users[j].id in seen
      invariant forall id :: id in seen ==> exists j :: 0 <= j < i && a.users[j].id == id
      invariant forall j, k :: 0 <= j < k < i ==> a.users[j].id != a.users[k].id
    {
      var u := a.users[i];
      if !ValidUser(u) || u.id in seen {
        return None;
      }
      seen := seen + {u.id};
    }
    auth := Some(a);
  }

  // ---------------------------------------------------------------- the merge

  function DecodeConfig(text: Text): Option<map<string, Json>> {
    if text.Text? && text.value.Obj? then Some(text.value.fields) else None
  }

  function Field(fields: map<string, Json>, key: string): Json {
    if key in fields then fields[key] else Null
  }

  function Tag(inbound: map<string, Json>): string {
    if Field(inbound, "tag").Str? then Field(inbound, "tag").s else ""
  }

  const TROJAN := "bifurcation-trojan"
  const HYSTERIA2 := "bifurcation-hysteria2"

  /** The protocol of a managed inbound tag, empty for any other tag. */
  function Protocol(tag: string): string {
    if tag == TROJAN then "trojan" else if tag == HYSTERIA2 then "hysteria2" else ""
  }

  function UserEntry(u: AuthorizedUser, protocol: string): Json {
    var password := if protocol == "hysteria2" then u.hysteria2Password else u.trojanPassword;
    Obj(map["name" := Str(u.id), "password" := Str(password)])
  }

  function UserList(users: seq<AuthorizedUser>, protocol: string): Json {
    Arr(seq(|users|, i requires 0 <= i < |users| => UserEntry(users[i], protocol)))
  }

  /** One inbound after the merge, or nothing when it conflicts with the managed tags
      found before it. */
  function MergedInbound(inbound: Json, found: set<string>, users: seq<AuthorizedUser>): Option<Json> {
    if !inbound.Obj? then None
    else
      var tag := Tag(inbound.fields);
      var protocol := Protocol(tag);
      if protocol == "" then Some(inbound)
      else if tag in found || Field(inbound.fields, "type") != Str(protocol) then None
      else Some(Obj(inbound.fields["users" := UserList(users, protocol)]))
  }

  function Managed(inbound: Json): set<string> {
    if inbound.Obj? && Protocol(Tag(inbound.fields)) != "" then {Tag(inbound.fields)} else {}
  }

  ghost function Found(inbounds: seq<Json>): set<string> {
    if inbounds == [] then {} else Found(inbounds[..|inbounds| - 1]) + Managed(inbounds[|inbounds| - 1])
  }

  ghost function MergedInbounds(inbounds: seq<Json>, users: seq<AuthorizedUser>): Option<seq<Json>> {
    if inbounds == [] then Some([])
    else
      var init, last := inbounds[..|inbounds| - 1], inbounds[|inbounds| - 1];
      var merged := MergedInbounds(init, users);
      var inbound := MergedInbound(last, Found(init), users);
      if merged.None? || inbound.None? then None else Some(merged.value + [inbound.value])
  }

  /** MergeAuthorization on decoded values. */
  ghost function Merged(config: map<string, Json>, users: seq<AuthorizedUser>): Option<map<string, Json>> {
    if !Field(config, "inbounds").Arr? then None
    else
      var inbounds := config["inbounds"].items;
      var merged := MergedInbounds(inbounds, users);
      if merged.None? || Found(inbounds) != {TROJAN, HYSTERIA2} then None
      else Some(config["inbounds" := Arr(merged.value)])
  }

  ghost function MergedText(text: Text, users: seq<AuthorizedUser>): Option<Text> {
    if DecodeConfig(text).None? || Merged(DecodeConfig(text).value, users).None? then None
    else Some(Text(0, Obj(Merged(DecodeConfig(text).value, users).value)))
  }

  method MergeAuthorization(text: Text, data: AuthText) returns (merged: Option<Text>)
    ensures data.AuthText? && ValidAuth(data.auth) ==> merged == MergedText(text, data.auth.users)
    ensures !(data.AuthText? && ValidAuth(data.auth)) ==> merged == None
  {
    var auth := ParseAuthorization(data);
    if auth.None? { return None; }
    var config := DecodeConfig(text);
    if config.None? { return None; }
    if !Field(config.value, "inbounds").Arr? { return None; }
    var inbounds := config.value["inbounds"].items;
    var result: seq<Json> := [];
    var found: set<string> := {};
    for i := 0 to |inbounds|
      invariant found == Found(inbounds[..i])
      invariant MergedInbounds(inbounds[..i], auth.value.users) == Some(result)
    {
      assert inbounds[..i + 1][..i] == inbounds[..i];
      var inbound := MergedInbound(inbounds[i], found, auth.value.users);
      if inbound.None? {
        MergeStops(inbounds, auth.value.users, i + 1);
        return None;
      }
      found := found + Managed(inbounds[i]);
      result := result + [inbound.value];
    }
    assert inbounds[..|inbounds|] == inbounds;
    if found != {TROJAN, HYSTERIA2} { return None; }
    merged := Some(Text(0, Obj(config.value["inbounds" := Arr(result)])));
  }

  lemma {:induction false} MergeStops(inbounds: seq<Json>, users: seq<AuthorizedUser>, k: nat)
    requires k <= |inbounds| && MergedInbounds(inbounds[..k], users).None?
    ensures MergedInbounds(inbounds, users).None?
    decreases |inbounds| - k
  {
    if k == |inbounds| {
      assert inbounds[..k] == inbounds;
    } else {
      assert inbounds[..k + 1][..k] == inbounds[..k];
      MergeStops(inbounds, users, k + 1);
    }
  }

  // ---------------------------------------------------------------- what merging means

  /** An inbound keeps everything but the user list of a managed one. */
  ghost predicate SameButUsers(before: Json, after: Json) {
    || after == before
    || (before.Obj? && after.Obj? && Managed(before) != {} && "users" in after.fields
        && after.fields - {"users"} == before.fields - {"users"})
  }

  lemma InboundMerge(inbound: Json, found: set<string>, users: seq<AuthorizedUser>, others: seq<AuthorizedUser>)
    requires MergedInbound(inbound, found, users).Some?
    ensures var merged := MergedInbound(inbound, found, users).value;
            && Managed(merged) == Managed(inbound) && SameButUsers(inbound, merged)
            && MergedInbound(merged, found, others) == MergedInbound(inbound, found, others)
  {
    var merged := MergedInbound(inbound, found, users).value;
    if merged != inbound {
      var tag := Tag(inbound.fields);
      assert Tag(merged.fields) == tag;
      var p := Protocol(tag);
      assert merged.fields["users" := UserList(others, p)] == inbound.fields["users" := UserList(others, p)];
    }
  }

  lemma {:induction false} InboundsMerge(inbounds: seq<Json>, users: seq<AuthorizedUser>, others: seq<AuthorizedUser>)
    requires MergedInbounds(inbounds, users).Some?
    ensures var merged := MergedInbounds(inbounds, users).value;
            && |merged| == |inbounds| && Found(merged) == Found(inbounds)
            && (forall i :: 0 <= i < |inbounds| ==> SameButUsers(inbounds[i], merged[i]))
            && MergedInbounds(merged, others) == MergedInbounds(inbounds, others)
  {
    hide SameButUsers;
    hide MergedInbound;
    hide Managed;
    if inbounds != [] {
      var n := |inbounds| - 1;
      InboundsMerge(inbounds[..n], users, others);
      InboundMerge(inbounds[n], Found(inbounds[..n]), users, others);
      var merged := MergedInbounds(inbounds, users).value;
      assert merged[..n] == MergedInbounds(inbounds[..n], users).value;
    }
  }

  /** The last merge wins: merging over an earlier merge is merging the original, and in
      particular merging twice changes nothing more. */
  lemma LastMergeWins(config: map<string, Json>, users: seq<AuthorizedUser>, others: seq<AuthorizedUser>)
    requires Merged(config, users).Some?
    ensures Merged(Merged(config, users).value, others) == Merged(config, others)
    ensures Merged(Merged(config, users).value, users) == Merged(config, users)
  {
    MergeAgain(config, users, others);
    MergeAgain(config, users, users);
  }

  lemma MergeAgain(config: map<string, Json>, users: seq<AuthorizedUser>, others: seq<AuthorizedUser>)
    requires Merged(config, users).Some?
    ensures Merged(Merged(config, users).value, others) == Merged(config, others)
  {
    hide MergedInbounds;
    hide Found;
    var inbounds := config["inbounds"].items;
    InboundsMerge(inbounds, users, others);
    var once := Arr(MergedInbounds(inbounds, users).value);
    if MergedInbounds(inbounds, others).Some? {
      var again := Arr(MergedInbounds(inbounds, others).value);
      assert config["inbounds" := once]["inbounds" := again] == config["inbounds" := again];
    }
  }

  /** Only the two managed user lists change. */
  lemma MergeIsLocal(config: map<string, Json>, users: seq<AuthorizedUser>)
    requires Merged(config, users).Some?
    ensures var merged := Merged(config, users).value;
            && merged - {"inbounds"} == config - {"inbounds"}
            && Field(config, "inbounds").Arr? && Field(merged, "inbounds").Arr?
            && var before, after := config["inbounds"].items, merged["inbounds"].items;
            |after| == |before| && forall i :: 0 <= i < |before| ==> SameButUsers(before[i], after[i])
  {
    InboundsMerge(config["inbounds"].items, users, users);
  }

  lemma {:induction false} MergeSucceedsAlike(inbounds: seq<Json>, users: seq<AuthorizedUser>,
                                              others: seq<AuthorizedUser>)
    ensures MergedInbounds(inbounds, users).Some? <==> MergedInbounds(inbounds, others).Some?
  {
    if inbounds != [] { MergeSucceedsAlike(inbounds[..|inbounds| - 1], users, others); }
  }

  /** Whether a configuration can be merged does not depend on the users. */
  lemma MergeableAlike(config: map<string, Json>, users: seq<AuthorizedUser>, others: seq<AuthorizedUser>)
    ensures Merged(config, users).Some? <==> Merged(config, others).Some?
  {
    if Field(config, "inbounds").Arr? { MergeSucceedsAlike(config["inbounds"].items, users, others); }
  }

  // ---------------------------------------------------------------- served users

  /** The user list of the inbound with a managed tag. */
  ghost predicate Serves(config: map<string, Json>, tag: string, list: Json) {
    && Field(config, "inbounds").Arr?
    && exists i :: && 0 <= i < |config["inbounds"].items|
                   && var inbound := config["inbounds"].items[i];
                   inbound.Obj? && Tag(inbound.fields) == tag && Field(inbound.fields, "users") == list
  }

  lemma {:induction false} MergedAt(inbounds: seq<Json>, users: seq<AuthorizedUser>, i: nat)
    requires MergedInbounds(inbounds, users).Some? && i < |inbounds|
    ensures var merged := MergedInbounds(inbounds, users).value;
            |merged| == |inbounds| && MergedInbound(inbounds[i], Found(inbounds[..i]), users) == Some(merged[i])
  {
    hide MergedInbound;
    hide Found;
    var n := |inbounds| - 1;
    if n > 0 { MergedAt(inbounds[..n], users, if i < n then i else 0); }
    assert inbounds[..n][..if i < n then i else n] == inbounds[..i];
  }

  lemma InboundsServe(inbounds: seq<Json>, users: seq<AuthorizedUser>, i: nat)
    requires MergedInbounds(inbounds, users).Some? && i < |inbounds| && Managed(inbounds[i]) != {}
    ensures var merged := MergedInbounds(inbounds, users).value;
            && |merged| == |inbounds| && inbounds[i].Obj? && merged[i].Obj?
            && Tag(merged[i].fields) == Tag(inbounds[i].fields)
            && Field(merged[i].fields, "users") == UserList(users, Protocol(Tag(inbounds[i].fields)))
  {
    hide MergedInbounds;
    hide Found;
    MergedAt(inbounds, users, i);
  }

  lemma {:induction false} FoundAt(inbounds: seq<Json>, tag: string) returns (i: nat)
    requires tag in Found(inbounds)
    ensures i < |inbounds| && Managed(inbounds[i]) == {tag}
  {
    var n := |inbounds| - 1;
    if tag in Managed(inbounds[n]) { i := n; } else { i := FoundAt(inbounds[..n], tag); }
  }

  /** A merged configuration serves, on both managed inbounds, exactly the authorized
      users, each with the password of that protocol. */
  lemma MergedServes(config: map<string, Json>, users: seq<AuthorizedUser>)
    requires Merged(config, users).Some?
    ensures var merged := Merged(config, users).value;
            Serves(merged, TROJAN, UserList(users, "trojan")) && Serves(merged, HYSTERIA2, UserList(users, "hysteria2"))
  {
    var inbounds := config["inbounds"].items;
    var i := FoundAt(inbounds, TROJAN);
    InboundsServe(inbounds, users, i);
    var j := FoundAt(inbounds, HYSTERIA2);
    InboundsServe(inbounds, users, j);
    var after := Merged(config, users).value["inbounds"].items;
    assert after[i].Obj? && Tag(after[i].fields) == TROJAN;
    assert after[j].Obj? && Tag(after[j].fields) == HYSTERIA2;
  }
}
