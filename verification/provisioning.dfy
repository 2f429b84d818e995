/**
 * The create side of both services: the Graph payload each `create_*` posts,
 * the fields it adds before posting, the key checks it makes before any
 * request, and what it answers for the reply.
 */
module Provisioning {
  import opened Json
  import opened Upstream
  import opened Listing
  import UserMapping
  import GroupMapping
  import ApplicationMapping
  import ServicePrincipalMapping

  const UserPrincipalNameRequired := "Username (userPrincipalName) is required"
  const DisplayNameRequired := "Display name is required"
  const AppIdRequired := "Application ID (appId) is required"
  const PasswordPrefix := "TemporaryP@ss"

  // ---------------------------------------------------------------------------
  // create_user

  /** Python's `hash()` accepts None, booleans, numbers and strings; a list or a dict raises TypeError. */
  predicate Hashable(j: Json) {
    !j.Arr? && !j.Obj?
  }

  /** `s[:8]`. */
  function Take8(s: string): (t: string)
    ensures |t| == if |s| < 8 then |s| else 8
    ensures t == s[..|t|]
  {
    if |s| < 8 then s else s[..8]
  }

  /**
   * The password profile of a new user: a change is forced at first sign-in,
   * and the temporary password is the fixed prefix and the first eight
   * characters of the rendered hash of the user principal name. Python's
   * `hash()` is salted per process, so it is a parameter.
   */
  function PasswordProfile(upn: Json, hash: Json -> int): (p: Json)
    ensures p.Obj? && p.fields.Keys == {"forceChangePasswordNextSignIn", "password"}
    ensures p.fields["forceChangePasswordNextSignIn"] == Bool(true)
    ensures var pw := p.fields["password"];
            && pw.Str? && |PasswordPrefix| < |pw.s| <= |PasswordPrefix| + 8
            && pw.s[..|PasswordPrefix|] == PasswordPrefix
  {
    var digits := Take8(IntToString(hash(upn)));
    assert |digits| > 0;
    Obj(map["forceChangePasswordNextSignIn" := Bool(true), "password" := Str(PasswordPrefix + digits)])
  }

  /**
   * The user `create_user` posts: the mapped user, with a password profile
   * added when it has none; every field it had is kept. `create_user` reads
   * the principal name only after checking that it is there.
   */
  function WithPasswordProfile(graphUser: Dict, hash: Json -> int): (p: Dict)
    ensures p.Keys == graphUser.Keys + {"passwordProfile"}
    ensures forall k :: k in graphUser ==> p[k] == graphUser[k]
    ensures "passwordProfile" !in graphUser ==>
              p["passwordProfile"] == PasswordProfile(Get(graphUser, "userPrincipalName", Null), hash)
  {
    if "passwordProfile" in graphUser then graphUser
    else graphUser["passwordProfile" := PasswordProfile(Get(graphUser, "userPrincipalName", Null), hash)]
  }

  /**
   * The mapped user always has a user principal name (the SCIM `userName`,
   * null when absent) and never a password profile: the 400 check of
   * `create_user` never fires, and the profile is always added.
   */
  lemma UserCheckNeverFires(s: Dict)
    requires UserMapping.ScimShaped(s)
    ensures "userPrincipalName" in UserMapping.FromScim(s)
    ensures UserMapping.FromScim(s)["userPrincipalName"] == Get(s, "userName", Null)
    ensures "passwordProfile" !in UserMapping.FromScim(s)
  {
    UserMapping.FromScimKeys(s);
    UserMapping.FromScimFields(s);
  }

  /** Every SCIM user is posted with a fresh password profile keyed to its user name. */
  lemma ScimUserGetsPasswordProfile(s: Dict, hash: Json -> int)
    requires UserMapping.ScimShaped(s)
    ensures WithPasswordProfile(UserMapping.FromScim(s), hash)
         == UserMapping.FromScim(s)["passwordProfile" := PasswordProfile(Get(s, "userName", Null), hash)]
  {
    UserCheckNeverFires(s);
  }

  // ---------------------------------------------------------------------------
  // create_group

  /**
   * The group `create_group` posts: security enabled and mail disabled unless
   * the mapped group says otherwise; no field it had is overwritten.
   */
  function WithGroupDefaults(graphGroup: Dict): (p: Dict)
    ensures p.Keys == graphGroup.Keys + {"securityEnabled", "mailEnabled"}
    ensures forall k :: k in graphGroup ==> p[k] == graphGroup[k]
    ensures "securityEnabled" !in graphGroup ==> p["securityEnabled"] == Bool(true)
    ensures "mailEnabled" !in graphGroup ==> p["mailEnabled"] == Bool(false)
  {
    var secured := if "securityEnabled" in graphGroup then graphGroup else graphGroup["securityEnabled" := Bool(true)];
    if "mailEnabled" in secured then secured else secured["mailEnabled" := Bool(false)]
  }

  /** Adding the defaults twice adds nothing more. */
  lemma GroupDefaultsIdempotent(graphGroup: Dict)
    ensures WithGroupDefaults(WithGroupDefaults(graphGroup)) == WithGroupDefaults(graphGroup)
  {
  }

  /**
   * A group mapped from SCIM always has a display name, so the 400 check of
   * `create_group` never fires; and it has neither flag, so it is always
   * posted as a security group without mail.
   */
  lemma ScimGroupGetsDefaults(s: Dict)
    requires GroupMapping.ScimShaped(s)
    ensures "displayName" in GroupMapping.FromScim(s)
    ensures var p := WithGroupDefaults(GroupMapping.FromScim(s));
            p["securityEnabled"] == Bool(true) && p["mailEnabled"] == Bool(false)
  {
  }

  // ---------------------------------------------------------------------------
  // create_application and create_service_principal

  /** The display name is always mapped, so the 400 check of `create_application` never fires. */
  lemma ApplicationCheckNeverFires(s: Dict)
    requires ApplicationMapping.ScimShaped(s)
    ensures "displayName" in ApplicationMapping.FromScim(s)
  {
  }

  /** The app id is mapped exactly when the SCIM resource has one: the 400 check of `create_service_principal` is live. */
  lemma ServicePrincipalCheck(s: Dict)
    ensures "appId" in ServicePrincipalMapping.FromScim(s) <==> "appId" in s
  {
    ServicePrincipalMapping.FromScimFields(s);
  }

  // ---------------------------------------------------------------------------
  // The answer to a create

  /**
   * What a `create_*` answers for the outcome of its POST: the created object,
   * read from the reply's JSON and mapped back to SCIM.
   */
  function Created(policy: ErrorPolicy, kind: Kind, o: Outcome): (r: Result<Json>)
    ensures r.Ok? <==> Settle(policy, o).Ok? && o.reply.json.Some? && NativeItem(kind, o.reply.json.value)
    ensures r.Ok? ==> r.value == ItemToScim(kind, o.reply.json.value)
  {
    MappedBack(kind, Settle(policy, o))
  }

  /** `to_scim_dict(response.json())` applied to what `_make_request` returned. */
  function MappedBack(kind: Kind, settled: Result<Reply>): (r: Result<Json>)
    ensures r.Ok? <==> settled.Ok? && settled.value.json.Some? && NativeItem(kind, settled.value.json.value)
  {
    match settled
    case Fail(e) => Fail(e)
    case Ok(reply) =>
      match reply.json
      case Some(item) => if NativeItem(kind, item) then Ok(ItemToScim(kind, item)) else Fail(Unhandled)
      case None => Fail(Unhandled)
  }

  /**
   * When Graph echoes the posted group, the answer carries the display name
   * that was sent; the default flags are not part of the SCIM group.
   */
  lemma CreatedGroupEchoesDisplayName(policy: ErrorPolicy, s: Dict, status: int, text: string)
    requires GroupMapping.ScimShaped(s) && status < 400
    ensures var o := Delivered(Reply(status, text, Some(Obj(WithGroupDefaults(GroupMapping.FromScim(s))))));
            && Created(policy, Groups, o).Ok?
            && Created(policy, Groups, o).value.Obj?
            && "displayName" in Created(policy, Groups, o).value.fields
            && Created(policy, Groups, o).value.fields["displayName"] == Get(s, "displayName", Str(""))
  {
    var p := WithGroupDefaults(GroupMapping.FromScim(s));
    assert GroupMapping.NativeShaped(p);
    GroupMapping.ToScimFields(p);
  }
}
