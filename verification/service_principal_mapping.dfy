/**
 * `EntraServicePrincipalMapping`: a Microsoft Graph service principal to a
 * SCIM-style resource under the Entra ServicePrincipal extension schema, and
 * back. The SCIM side always carries fourteen keys, four of them defaulted;
 * the Graph side copies each optional setting under a presence guard, or a
 * truthiness guard for the two lists.
 */
module ServicePrincipalMapping {
  import opened Json

  const ServicePrincipalSchema := "urn:ietf:params:scim:schemas:extension:entra:2.0:ServicePrincipal"

  /** The keys `to_scim_dict` always writes. */
  const ScimServicePrincipalBaseKeys: set<string> := {
    "schemas", "id", "displayName", "appId", "description", "servicePrincipalType",
    "appOwnerOrganizationId", "appRoleAssignmentRequired", "homepage", "logoutUrl",
    "replyUrls", "tags", "accountEnabled", "createdDateTime"}

  /** The keys `from_scim_dict` copies when they are present. */
  const PresenceGuardedKeys: set<string> := {
    "appId", "appRoleAssignmentRequired", "accountEnabled", "homepage", "logoutUrl"}

  /** The keys `from_scim_dict` copies when they are present and truthy. */
  const TruthGuardedKeys: set<string> := {"tags", "replyUrls"}

  /** The keys `from_scim_dict` may write. */
  const GraphServicePrincipalKeys: set<string> :=
    {"displayName", "description"} + PresenceGuardedKeys + TruthGuardedKeys

  // ---------------------------------------------------------------------------
  // Graph to SCIM

  /** The keys of the SCIM service principal: the fixed ones, and the app roles and permission scopes when present. */
  function ScimServicePrincipalKeys(g: Dict): set<string> {
    ScimServicePrincipalBaseKeys
      + KeyIf("appRoles" in g, "appRoles")
      + KeyIf("oauth2PermissionScopes" in g, "oauth2PermissionScopes")
  }

  /** The value `to_scim_dict` writes under each of its keys. */
  function ScimServicePrincipalField(g: Dict, k: string): Json {
    if k == "schemas" then Arr([Str(ServicePrincipalSchema)])
    else if k == "appRoleAssignmentRequired" then Get(g, k, Bool(false))
    else if k == "replyUrls" || k == "tags" then Get(g, k, Arr([]))
    else if k == "accountEnabled" then Get(g, k, Bool(true))
    else Get(g, k, Null) // the other fields are copied
  }

  /**
   * `EntraServicePrincipalMapping.to_scim_dict`: the fixed keys, and
   * `appRoles` and `oauth2PermissionScopes` each exactly when Graph has it.
   */
  function ToScim(g: Dict): (r: Dict)
    ensures "appRoles" in r <==> "appRoles" in g
    ensures "oauth2PermissionScopes" in r <==> "oauth2PermissionScopes" in g
  {
    map k | k in ScimServicePrincipalKeys(g) :: ScimServicePrincipalField(g, k)
  }

  /** The SCIM service principal has the fourteen fixed keys and at most the two optional ones besides. */
  lemma ToScimKeys(g: Dict)
    ensures ScimServicePrincipalBaseKeys <= ToScim(g).Keys
    ensures ToScim(g).Keys <= ScimServicePrincipalBaseKeys + {"appRoles", "oauth2PermissionScopes"}
  {
  }

  /**
   * The computed and defaulted fields: the ServicePrincipal extension schema
   * only; role assignment not required, no reply URLs, no tags and the account
   * enabled when Graph leaves them out.
   */
  lemma ToScimDefaults(g: Dict)
    ensures var r := ToScim(g);
            && r["schemas"] == Arr([Str(ServicePrincipalSchema)])
            && r["appRoleAssignmentRequired"] == Get(g, "appRoleAssignmentRequired", Bool(false))
            && r["replyUrls"] == Get(g, "replyUrls", Arr([]))
            && r["tags"] == Get(g, "tags", Arr([]))
            && r["accountEnabled"] == Get(g, "accountEnabled", Bool(true))
  {
  }

  /** The copied fields: each is the Graph value, null when absent; the optional lists are copied unchanged. */
  lemma ToScimCopies(g: Dict)
    ensures var r := ToScim(g);
            && r["id"] == Get(g, "id", Null)
            && r["displayName"] == Get(g, "displayName", Null)
            && r["appId"] == Get(g, "appId", Null)
            && r["description"] == Get(g, "description", Null)
            && r["servicePrincipalType"] == Get(g, "servicePrincipalType", Null)
            && r["appOwnerOrganizationId"] == Get(g, "appOwnerOrganizationId", Null)
            && r["homepage"] == Get(g, "homepage", Null)
            && r["logoutUrl"] == Get(g, "logoutUrl", Null)
            && r["createdDateTime"] == Get(g, "createdDateTime", Null)
            && ("appRoles" in r ==> r["appRoles"] == g["appRoles"])
            && ("oauth2PermissionScopes" in r ==> r["oauth2PermissionScopes"] == g["oauth2PermissionScopes"])
  {
  }

  // ---------------------------------------------------------------------------
  // SCIM to Graph

  /** What `from_scim_dict` writes under key `k`, if anything. */
  function GraphEntry(s: Dict, k: string): Option<Json> {
    if k == "displayName" || k == "description" then Some(Get(s, k, Str("")))
    else if k in PresenceGuardedKeys then (if k in s then Some(s[k]) else None)
    else if k in TruthGuardedKeys then (if k in s && Truthy(s[k]) then Some(s[k]) else None)
    else None
  }

  /**
   * `EntraServicePrincipalMapping.from_scim_dict`: the display name and
   * description ("" when absent); the app id, role-assignment flag, enabled
   * flag, homepage and logout URL whenever present, null included; the tags
   * and reply URLs when truthy.
   */
  function FromScim(s: Dict): (r: Dict)
    ensures "displayName" in r && "description" in r
  {
    map k | k in GraphServicePrincipalKeys && GraphEntry(s, k).Some? :: GraphEntry(s, k).value
  }

  /** The Graph service principal has no key but the nine the mapper writes. */
  lemma FromScimKeys(s: Dict)
    ensures FromScim(s).Keys <= GraphServicePrincipalKeys
  {
  }

  /**
   * Each guarded key is written exactly when its guard holds, with the SCIM
   * value unchanged; the display name and description default to "".
   */
  lemma FromScimFields(s: Dict)
    ensures var r := FromScim(s);
            && r["displayName"] == Get(s, "displayName", Str(""))
            && r["description"] == Get(s, "description", Str(""))
            && (forall k :: k in PresenceGuardedKeys ==> (k in r <==> k in s) && (k in r ==> r[k] == s[k]))
            && (forall k :: k in TruthGuardedKeys ==> (k in r <==> k in s && Truthy(s[k])) && (k in r ==> r[k] == s[k]))
  {
  }

  // ---------------------------------------------------------------------------
  // Round trip

  /** What comes back under key `k` from a trip through SCIM, if anything. */
  function KeptEntry(g: Dict, k: string): Option<Json> {
    if k == "appRoleAssignmentRequired" then Some(Get(g, k, Bool(false)))
    else if k == "accountEnabled" then Some(Get(g, k, Bool(true)))
    else if k == "displayName" || k == "description" || k in PresenceGuardedKeys then Some(Get(g, k, Null))
    else if k in TruthGuardedKeys then (if Truthy(Get(g, k, Null)) then Some(g[k]) else None)
    else None
  }

  /**
   * What of a Graph service principal survives the trip through SCIM and back:
   * the display name, description, app id, homepage and logout URL (null when
   * absent), the role-assignment flag (false when absent), the enabled flag
   * (true when absent), and the tags and reply URLs when truthy.
   */
  function KeptServicePrincipal(g: Dict): (p: Dict)
    ensures PresenceGuardedKeys <= p.Keys
  {
    map k | k in GraphServicePrincipalKeys && KeptEntry(g, k).Some? :: KeptEntry(g, k).value
  }

  /** Key by key, the trip through SCIM gives the kept entry. */
  lemma GraphRoundTripEntry(g: Dict, k: string)
    ensures GraphEntry(ToScim(g), k) == KeptEntry(g, k)
  {
  }

  /**
   * Graph to SCIM to Graph gives exactly the kept service principal: the app
   * roles, permission scopes, type, owner organisation, id and creation time
   * are dropped, as is every key outside the mapping.
   */
  lemma GraphRoundTrip(g: Dict)
    ensures FromScim(ToScim(g)) == KeptServicePrincipal(g)
  {
    forall k ensures GraphEntry(ToScim(g), k) == KeptEntry(g, k) {
      GraphRoundTripEntry(g, k);
    }
  }

  lemma KeptEntryIsStable(g: Dict, k: string)
    ensures KeptEntry(KeptServicePrincipal(g), k) == KeptEntry(g, k)
  {
  }

  /** A kept service principal maps to SCIM and back unchanged. */
  lemma KeptServicePrincipalIsStable(g: Dict)
    ensures FromScim(ToScim(KeptServicePrincipal(g))) == KeptServicePrincipal(g)
  {
    var p := KeptServicePrincipal(g);
    forall k ensures KeptEntry(p, k) == KeptEntry(g, k) {
      KeptEntryIsStable(g, k);
    }
    GraphRoundTrip(p);
  }
}
