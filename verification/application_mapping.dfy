/**
 * `EntraApplicationMapping`: a Microsoft Graph application object to a
 * SCIM-style resource under the Entra Application extension schema, and back.
 * The SCIM side always carries a `web` object; the Graph side copies each
 * optional setting only under its presence or truthiness guard.
 */
module ApplicationMapping {
  import opened Json

  const ApplicationSchema := "urn:ietf:params:scim:schemas:extension:entra:2.0:Application"

  const RequiredResourceAccess := "requiredResourceAccess"

  /** The keys `to_scim_dict` always writes. */
  const ScimApplicationBaseKeys: set<string> := {
    "schemas", "id", "displayName", "appId", "description", "identifierUris", "web",
    "signInAudience", "publisherDomain", "createdDateTime", "isEnabled"}

  /** The keys `from_scim_dict` may write. */
  const GraphApplicationKeys: set<string> := {
    "displayName", "description", "identifierUris", "web", "signInAudience", RequiredResourceAccess}

  /** The two settings of a `web` object that the mapping carries. */
  const WebSettingKeys: set<string> := {"redirectUris", "implicitGrantSettings"}

  // ---------------------------------------------------------------------------
  // Graph to SCIM

  /**
   * The Graph applications `to_scim_dict` can map: `web`, when present, must
   * be an object, because the mapper calls `.get` on it.
   */
  predicate NativeShaped(g: Dict) {
    Get(g, "web", Obj(map[])).Obj?
  }

  /** The `web` object of the SCIM side: the redirect URIs (default []) and implicit grant settings (default {}). */
  function ScimWeb(g: Dict): Json
    requires NativeShaped(g)
  {
    var web := Get(g, "web", Obj(map[])).fields;
    Obj(map[
      "redirectUris" := Get(web, "redirectUris", Arr([])),
      "implicitGrantSettings" := Get(web, "implicitGrantSettings", Obj(map[]))])
  }

  /** The keys of the SCIM application: the fixed ones, and `requiredResourceAccess` when the Graph side has it. */
  function ScimApplicationKeys(g: Dict): set<string> {
    ScimApplicationBaseKeys + KeyIf(RequiredResourceAccess in g, RequiredResourceAccess)
  }

  /** The value `to_scim_dict` writes under each of its keys. */
  function ScimApplicationField(g: Dict, k: string): Json
    requires NativeShaped(g)
  {
    if k == "schemas" then Arr([Str(ApplicationSchema)])
    else if k == "identifierUris" then Get(g, k, Arr([]))
    else if k == "web" then ScimWeb(g)
    else if k == "isEnabled" then Bool(!Truthy(Get(g, "disabledByMicrosoftStatus", Bool(false))))
    else Get(g, k, Null) // the other fields, and requiredResourceAccess, are copied
  }

  /**
   * `EntraApplicationMapping.to_scim_dict`: the fixed keys, and
   * `requiredResourceAccess` exactly when the Graph application has that key.
   */
  function ToScim(g: Dict): (r: Dict)
    requires NativeShaped(g)
    ensures RequiredResourceAccess in r <==> RequiredResourceAccess in g
    ensures RequiredResourceAccess in r ==> r[RequiredResourceAccess] == g[RequiredResourceAccess]
  {
    map k | k in ScimApplicationKeys(g) :: ScimApplicationField(g, k)
  }

  /** The SCIM application has the fixed keys and at most `requiredResourceAccess` besides. */
  lemma ToScimKeys(g: Dict)
    requires NativeShaped(g)
    ensures ScimApplicationBaseKeys <= ToScim(g).Keys <= ScimApplicationBaseKeys + {RequiredResourceAccess}
  {
  }

  /**
   * The computed fields: the Application extension schema only, and `isEnabled`
   * the negation of `disabledByMicrosoftStatus` (true when absent).
   */
  lemma ToScimFields(g: Dict)
    requires NativeShaped(g)
    ensures var r := ToScim(g);
            && r["schemas"] == Arr([Str(ApplicationSchema)])
            && r["isEnabled"] == Bool(!Truthy(Get(g, "disabledByMicrosoftStatus", Bool(false))))
  {
  }

  /**
   * The defaulted fields: `identifierUris` defaults to [], and `web` is always
   * an object whose two settings default to [] and {}.
   */
  lemma ToScimWeb(g: Dict)
    requires NativeShaped(g)
    ensures var r := ToScim(g);
            var web := Get(g, "web", Obj(map[])).fields;
            && r["identifierUris"] == Get(g, "identifierUris", Arr([]))
            && r["web"] == Obj(map[
                 "redirectUris" := Get(web, "redirectUris", Arr([])),
                 "implicitGrantSettings" := Get(web, "implicitGrantSettings", Obj(map[]))])
  {
  }

  /** The copied descriptive fields: each is the Graph value, null when absent. */
  lemma ToScimCopies(g: Dict)
    requires NativeShaped(g)
    ensures var r := ToScim(g);
            && r["displayName"] == Get(g, "displayName", Null)
            && r["description"] == Get(g, "description", Null)
            && r["appId"] == Get(g, "appId", Null)
            && r["publisherDomain"] == Get(g, "publisherDomain", Null)
            && r["createdDateTime"] == Get(g, "createdDateTime", Null)
  {
  }

  /** The id and the sign-in audience are copied, null when absent. */
  lemma ToScimAudience(g: Dict)
    requires NativeShaped(g)
    ensures ToScim(g)["id"] == Get(g, "id", Null)
    ensures ToScim(g)["signInAudience"] == Get(g, "signInAudience", Null)
  {
  }

  // ---------------------------------------------------------------------------
  // SCIM to Graph

  /**
   * The `web` values `from_scim_dict` reads without raising: a truthy `web` is
   * searched with `in` for each setting's name (a TypeError on numbers and
   * booleans) and then subscripted by that name, which only an object allows.
   */
  predicate WebShaped(web: Json) {
    Truthy(web) ==>
      && PyIn("redirectUris", web).Some? && (PyIn("redirectUris", web).value ==> web.Obj?)
      && PyIn("implicitGrantSettings", web).Some? && (PyIn("implicitGrantSettings", web).value ==> web.Obj?)
  }

  predicate ScimShaped(s: Dict) {
    WebShaped(Get(s, "web", Null))
  }

  /** The settings of a `web` object that are present and truthy, with their values. */
  function TruthySettings(web: Dict): (r: Dict)
    ensures r.Keys <= WebSettingKeys
    ensures forall k :: k in r <==> k in WebSettingKeys && k in web && Truthy(web[k])
  {
    map k | k in WebSettingKeys && k in web && Truthy(web[k]) :: web[k]
  }

  /**
   * The Graph `web` object: each of the two settings that the SCIM `web` has
   * and that is truthy. A string or list that passed the `in` tests with False
   * contributes nothing.
   */
  function GraphWeb(web: Json): Dict {
    if web.Obj? then TruthySettings(web.fields) else map[]
  }

  /** The keys of the Graph application: the display name and description, and each optional key under its guard. */
  function GraphApplicationKeysOf(s: Dict): set<string> {
    {"displayName", "description"}
      + KeyIf(Truthy(Get(s, "identifierUris", Null)), "identifierUris")
      + KeyIf(Truthy(Get(s, "web", Null)), "web")
      + KeyIf("signInAudience" in s, "signInAudience")
      + KeyIf(RequiredResourceAccess in s, RequiredResourceAccess)
  }

  /** The value `from_scim_dict` writes under each of its keys. */
  function GraphApplicationField(s: Dict, k: string): Json {
    if k == "displayName" || k == "description" then Get(s, k, Str(""))
    else if k == "web" then Obj(GraphWeb(Get(s, "web", Null)))
    else Get(s, k, Null)
  }

  /**
   * `EntraApplicationMapping.from_scim_dict`: the display name and description
   * ("" when absent); `identifierUris` and `web` when truthy; `signInAudience`
   * and `requiredResourceAccess` whenever present, null or empty included.
   * (`k in d and d[k]` is the truthiness of `d.get(k)`.)
   */
  function FromScim(s: Dict): (r: Dict)
    requires ScimShaped(s)
    ensures "displayName" in r && "description" in r
    ensures "identifierUris" in r <==> Truthy(Get(s, "identifierUris", Null))
    ensures "web" in r <==> Truthy(Get(s, "web", Null))
    ensures "signInAudience" in r <==> "signInAudience" in s
    ensures RequiredResourceAccess in r <==> RequiredResourceAccess in s
  {
    map k | k in GraphApplicationKeysOf(s) :: GraphApplicationField(s, k)
  }

  /** The Graph application has no key but the six the mapper writes. */
  lemma FromScimKeys(s: Dict)
    requires ScimShaped(s)
    ensures FromScim(s).Keys <= GraphApplicationKeys
  {
  }

  /**
   * The display name and description default to ""; the optional values are
   * copied unchanged, and `web` holds the truthy settings of the SCIM `web`.
   */
  lemma FromScimCopies(s: Dict)
    requires ScimShaped(s)
    ensures var r := FromScim(s);
            && r["displayName"] == Get(s, "displayName", Str(""))
            && r["description"] == Get(s, "description", Str(""))
            && ("web" in r ==> r["web"] == Obj(GraphWeb(s["web"])))
            && ("identifierUris" in r ==> r["identifierUris"] == s["identifierUris"])
            && ("signInAudience" in r ==> r["signInAudience"] == s["signInAudience"])
            && (RequiredResourceAccess in r ==> r[RequiredResourceAccess] == s[RequiredResourceAccess])
  {
  }

  /** A truthy `web` whose two settings are absent or falsy gives an empty Graph `web` object. */
  lemma WebCanBeEmpty(s: Dict)
    requires ScimShaped(s)
    requires Get(s, "web", Null).Obj? && Truthy(Get(s, "web", Null))
    requires !Truthy(Get(s["web"].fields, "redirectUris", Null))
    requires !Truthy(Get(s["web"].fields, "implicitGrantSettings", Null))
    ensures FromScim(s)["web"] == Obj(map[])
  {
    assert GraphWeb(s["web"]) == map[];
  }

  /**
   * A truthy `web` string that names neither setting passes both `in` tests
   * with False, so it too maps to an empty object.
   */
  lemma WebStringGivesEmptyObject(s: Dict)
    requires Get(s, "web", Null).Str? && Truthy(Get(s, "web", Null))
    requires !HasSubstring(s["web"].s, "redirectUris") && !HasSubstring(s["web"].s, "implicitGrantSettings")
    ensures ScimShaped(s) && FromScim(s)["web"] == Obj(map[])
  {
    assert GraphWeb(s["web"]) == map[];
  }

  // ---------------------------------------------------------------------------
  // Round trip

  /** The keys that come back from a trip through SCIM. */
  function KeptKeys(g: Dict): set<string> {
    {"displayName", "description", "signInAudience", "web"}
      + KeyIf(Truthy(Get(g, "identifierUris", Null)), "identifierUris")
      + KeyIf(RequiredResourceAccess in g, RequiredResourceAccess)
  }

  function KeptField(g: Dict, k: string): Json
    requires NativeShaped(g)
  {
    if k == "web" then Obj(TruthySettings(Get(g, "web", Obj(map[])).fields)) else Get(g, k, Null)
  }

  /**
   * What of a Graph application survives the trip through SCIM and back: the
   * display name, description and sign-in audience (null when absent), the
   * identifier URIs when truthy, `requiredResourceAccess` when present, and a
   * `web` object holding the truthy settings of the original `web`, possibly none.
   */
  function KeptApplication(g: Dict): (p: Dict)
    requires NativeShaped(g)
    ensures "web" in p && "signInAudience" in p
  {
    map k | k in KeptKeys(g) :: KeptField(g, k)
  }

  /** The settings SCIM defaults in are falsy, so the truthy settings are the original ones. */
  lemma TruthySettingsOfScimWeb(g: Dict)
    requires NativeShaped(g)
    ensures TruthySettings(ScimWeb(g).fields) == TruthySettings(Get(g, "web", Obj(map[])).fields)
  {
  }

  lemma GraphRoundTripKeys(g: Dict)
    requires NativeShaped(g) && ScimShaped(ToScim(g))
    ensures GraphApplicationKeysOf(ToScim(g)) == KeptKeys(g)
  {
    assert "redirectUris" in ToScim(g)["web"].fields;
  }

  lemma GraphRoundTripField(g: Dict, k: string)
    requires NativeShaped(g) && ScimShaped(ToScim(g))
    requires k in KeptKeys(g)
    ensures GraphApplicationField(ToScim(g), k) == KeptField(g, k)
  {
    if k == "web" {
      TruthySettingsOfScimWeb(g);
    }
  }

  /**
   * Graph to SCIM to Graph gives exactly the kept application: publisher
   * domain, creation time, app id, id and `isEnabled` are dropped, as is every
   * key outside the mapping, and nothing else is invented.
   */
  lemma GraphRoundTrip(g: Dict)
    requires NativeShaped(g)
    ensures ScimShaped(ToScim(g)) && FromScim(ToScim(g)) == KeptApplication(g)
  {
    var s := ToScim(g);
    GraphRoundTripKeys(g);
    forall k | k in KeptKeys(g)
      ensures GraphApplicationField(s, k) == KeptField(g, k)
    {
      GraphRoundTripField(g, k);
    }
  }

  /** A kept application maps to SCIM and back unchanged. */
  lemma KeptApplicationIsStable(g: Dict)
    requires NativeShaped(g)
    ensures NativeShaped(KeptApplication(g))
    ensures FromScim(ToScim(KeptApplication(g))) == KeptApplication(g)
  {
    var p := KeptApplication(g);
    assert KeptKeys(p) == KeptKeys(g);
    forall k | k in KeptKeys(g)
      ensures KeptField(p, k) == KeptField(g, k)
    {
    }
    GraphRoundTrip(p);
  }
}
