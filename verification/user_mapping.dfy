/**
 * `EntraUserMapping`: a Microsoft Graph user object to a SCIM User resource
 * (RFC 7643, section 4.1) and back. Both directions build a fresh dictionary;
 * which keys appear depends on whether an input key is present, or truthy.
 * Each dictionary is written as its key set and the value of each key.
 */
module UserMapping {
  import opened Json
  import opened PyText

  const CoreUserSchema := "urn:ietf:params:scim:schemas:core:2.0:User"

  /** The keys `to_scim_dict` always writes. */
  const ScimUserBaseKeys: set<string> := {"schemas", "id", "externalId", "userName", "name", "displayName", "active"}

  /** The keys `from_scim_dict` always writes. */
  const GraphUserBaseKeys: set<string> := {"userPrincipalName", "displayName", "accountEnabled"}

  /** The keys `from_scim_dict` may write. */
  const GraphUserKeys: set<string> := GraphUserBaseKeys + {"givenName", "surname", "mail"}

  // ---------------------------------------------------------------------------
  // Graph to SCIM

  /**
   * The f-string `"{givenName} {surname}"`, stripped. Each part defaults to ""
   * only when its key is absent: a present null renders as "None".
   */
  function FormattedName(g: Dict): (name: string)
    ensures name == [] || Trimmed(name)
  {
    var joined := PyStr(Get(g, "givenName", Str(""))) + " " + PyStr(Get(g, "surname", Str("")));
    StripTrims(joined);
    Strip(joined)
  }

  function EmailEntry(mail: Json): Json {
    Obj(map["value" := mail, "type" := Str("work"), "primary" := Bool(true)])
  }

  function PhoneEntry(phone: Json): Json {
    Obj(map["value" := phone, "type" := Str("work")])
  }

  /** The `for phone in businessPhones` loop: one work entry per phone, in order. */
  function PhoneNumbers(phones: seq<Json>): (r: seq<Json>)
    ensures |r| == |phones| && forall i :: 0 <= i < |phones| ==> r[i] == PhoneEntry(phones[i])
  {
    seq(|phones|, i requires 0 <= i < |phones| => PhoneEntry(phones[i]))
  }

  /**
   * The Graph users `to_scim_dict` can map: a truthy `businessPhones` must be
   * something a `for` loop walks in a known order (a list or a string).
   */
  predicate NativeShaped(g: Dict) {
    var phones := Get(g, "businessPhones", Null);
    !Truthy(phones) || PyIter(phones).Some?
  }

  function ScimName(g: Dict): Json {
    Obj(map["formatted" := Str(FormattedName(g)),
            "familyName" := Get(g, "surname", Null),
            "givenName" := Get(g, "givenName", Null)])
  }

  /** The phone entries the loop collects; none unless `businessPhones` is truthy. */
  function ScimPhones(g: Dict): (r: seq<Json>)
    requires NativeShaped(g)
    ensures r != [] <==> Truthy(Get(g, "businessPhones", Null))
  {
    var businessPhones := Get(g, "businessPhones", Null);
    if Truthy(businessPhones) then PhoneNumbers(PyIter(businessPhones).value) else []
  }

  /** The keys of the SCIM user: the fixed ones, `emails` when that list is non-empty, and likewise `phoneNumbers`. */
  function ScimUserKeys(g: Dict): set<string>
    requires NativeShaped(g)
  {
    ScimUserBaseKeys
      + KeyIf(Truthy(Get(g, "mail", Null)), "emails")
      + KeyIf(ScimPhones(g) != [], "phoneNumbers")
  }

  /** The value `to_scim_dict` writes under each of its keys. */
  function ScimUserField(g: Dict, k: string): Json
    requires NativeShaped(g)
  {
    if k == "schemas" then Arr([Str(CoreUserSchema)])
    else if k == "externalId" || k == "userName" then Get(g, "userPrincipalName", Null)
    else if k == "name" then ScimName(g)
    else if k == "active" then Get(g, "accountEnabled", Bool(true))
    else if k == "emails" then Arr([EmailEntry(Get(g, "mail", Null))])
    else if k == "phoneNumbers" then Arr(ScimPhones(g))
    else Get(g, k, Null) // "id" and "displayName" are copied
  }

  /** `EntraUserMapping.to_scim_dict`. */
  function ToScim(g: Dict): (r: Dict)
    requires NativeShaped(g)
    ensures "emails" in r <==> Truthy(Get(g, "mail", Null))
    ensures "phoneNumbers" in r <==> Truthy(Get(g, "businessPhones", Null))
  {
    map k | k in ScimUserKeys(g) :: ScimUserField(g, k)
  }

  /** The SCIM user has the seven fixed keys, and no key besides them but `emails` and `phoneNumbers`. */
  lemma ToScimKeys(g: Dict)
    requires NativeShaped(g)
    ensures ScimUserBaseKeys <= ToScim(g).Keys <= ScimUserBaseKeys + {"emails", "phoneNumbers"}
  {
  }

  /**
   * The fixed fields of a mapped user: the core User schema only, userName and
   * externalId both the principal name, active the enabled flag (true when absent),
   * and the id, display name and name parts as given (null when absent).
   */
  lemma ToScimFields(g: Dict)
    requires NativeShaped(g)
    ensures var r := ToScim(g);
            && r["schemas"] == Arr([Str(CoreUserSchema)])
            && r["id"] == Get(g, "id", Null)
            && r["userName"] == r["externalId"] == Get(g, "userPrincipalName", Null)
            && r["displayName"] == Get(g, "displayName", Null)
            && r["active"] == Get(g, "accountEnabled", Bool(true))
            && r["name"] == Obj(map["formatted" := Str(FormattedName(g)),
                                    "familyName" := Get(g, "surname", Null),
                                    "givenName" := Get(g, "givenName", Null)])
  {
  }

  /** The one primary work email, present exactly when `mail` is truthy. */
  lemma ToScimEmails(g: Dict)
    requires NativeShaped(g)
    ensures var r := ToScim(g);
            "emails" in r ==> r["emails"] == Arr([Obj(map["value" := g["mail"], "type" := Str("work"), "primary" := Bool(true)])])
  {
  }

  /** One work phone entry per business phone, in order, present exactly when `businessPhones` is truthy. */
  lemma ToScimPhones(g: Dict)
    requires NativeShaped(g)
    ensures var r := ToScim(g);
            "phoneNumbers" in r ==>
              var phones := PyIter(g["businessPhones"]).value;
              && r["phoneNumbers"].Arr? && |r["phoneNumbers"].items| == |phones| > 0
              && forall i :: 0 <= i < |phones| ==>
                   r["phoneNumbers"].items[i] == Obj(map["value" := phones[i], "type" := Str("work")])
  {
  }

  // ---------------------------------------------------------------------------
  // SCIM to Graph

  /** The test of the email loop: a truthy `primary` (default False) and a truthy `value`. */
  predicate Qualifies(email: Dict) {
    Truthy(Get(email, "primary", Bool(false))) && Truthy(Get(email, "value", Null))
  }

  /**
   * The email entries the loop reads without raising: each entry it reaches
   * has `.get`, that is, is an object, and the loop stops at the first that
   * qualifies.
   */
  predicate EmailsShaped(emails: seq<Json>) {
    emails == [] || (emails[0].Obj? && (Qualifies(emails[0].fields) || EmailsShaped(emails[1..])))
  }

  /**
   * The SCIM users `from_scim_dict` can map: a truthy `name` must be an object,
   * and a truthy `emails` a list whose entries up to the first qualifying one
   * are objects. (A truthy string or object yields strings, which have no `.get`.)
   */
  predicate ScimShaped(s: Dict) {
    var name := Get(s, "name", Null);
    var emails := Get(s, "emails", Null);
    && (Truthy(name) ==> name.Obj?)
    && (Truthy(emails) ==> emails.Arr? && EmailsShaped(emails.items))
  }

  /** The first-match loop with `break`: the `value` of the first qualifying email, if any. */
  function FirstPrimaryValue(emails: seq<Json>): (r: Option<Json>)
    requires EmailsShaped(emails)
    ensures r.Some? ==> Truthy(r.value)
  {
    if emails == [] then None
    else if Qualifies(emails[0].fields) then Some(emails[0].fields["value"])
    else FirstPrimaryValue(emails[1..])
  }

  /**
   * The loop settles on the first email that is primary and has a truthy
   * value: every email before it is passed over, and when it finds none,
   * no email qualifies.
   */
  lemma {:induction false} FirstPrimaryValueIsFirst(emails: seq<Json>)
    requires EmailsShaped(emails)
    ensures var r := FirstPrimaryValue(emails);
            r.Some? ==> exists i :: 0 <= i < |emails| && emails[i].Obj? && Qualifies(emails[i].fields)
                          && r.value == emails[i].fields["value"]
                          && forall j :: 0 <= j < i ==> emails[j].Obj? && !Qualifies(emails[j].fields)
    ensures FirstPrimaryValue(emails).None? ==> forall j :: 0 <= j < |emails| ==> emails[j].Obj? && !Qualifies(emails[j].fields)
  {
    if emails != [] && !Qualifies(emails[0].fields) {
      var rest := emails[1..];
      FirstPrimaryValueIsFirst(rest);
      var r := FirstPrimaryValue(rest);
      if r.Some? {
        var i :| 0 <= i < |rest| && rest[i].Obj? && Qualifies(rest[i].fields)
                 && r.value == rest[i].fields["value"]
                 && forall j :: 0 <= j < i ==> rest[j].Obj? && !Qualifies(rest[j].fields);
        assert emails[i + 1] == rest[i];
        assert forall j :: 1 <= j < i + 1 ==> emails[j] == rest[j - 1];
      } else {
        assert forall j :: 1 <= j < |emails| ==> emails[j] == rest[j - 1];
      }
    }
  }

  /** `name.get(k)` under `if scim_user.get("name")`; Null when `name` is falsy. */
  function NameField(s: Dict, k: string): Json
    requires ScimShaped(s)
  {
    var name := Get(s, "name", Null);
    if Truthy(name) then Get(name.fields, k, Null) else Null
  }

  /** The mail the email loop settles on, if any; None when `emails` is falsy. */
  function PrimaryMail(s: Dict): (m: Option<Json>)
    requires ScimShaped(s)
    ensures m.Some? ==> Truthy(m.value)
  {
    var emails := Get(s, "emails", Null);
    if Truthy(emails) then FirstPrimaryValue(emails.items) else None
  }

  /** What `from_scim_dict` writes under key `k`, if anything. */
  function GraphEntry(s: Dict, k: string): Option<Json>
    requires ScimShaped(s)
  {
    if k == "userPrincipalName" then Some(Get(s, "userName", Null))
    else if k == "displayName" then Some(Get(s, "displayName", Str("")))
    else if k == "accountEnabled" then Some(Get(s, "active", Bool(true)))
    else if k == "givenName" then (if Truthy(NameField(s, "givenName")) then Some(NameField(s, "givenName")) else None)
    else if k == "surname" then (if Truthy(NameField(s, "familyName")) then Some(NameField(s, "familyName")) else None)
    else if k == "mail" then PrimaryMail(s)
    else None
  }

  /** `EntraUserMapping.from_scim_dict`. */
  function FromScim(s: Dict): (r: Dict)
    requires ScimShaped(s)
    ensures "mail" in r <==> PrimaryMail(s).Some?
  {
    map k | k in GraphUserKeys && GraphEntry(s, k).Some? :: GraphEntry(s, k).value
  }

  /** The Graph user has the three fixed keys, and no key besides them but `givenName`, `surname` and `mail`. */
  lemma FromScimKeys(s: Dict)
    requires ScimShaped(s)
    ensures GraphUserBaseKeys <= FromScim(s).Keys <= GraphUserKeys
  {
  }

  /**
   * The principal name is the user name (null when absent), the display name
   * defaults to "" and the enabled flag to true; the given name and surname
   * are copied from the name object exactly when they are truthy there, and
   * the mail is the value of the first qualifying email.
   */
  lemma FromScimFields(s: Dict)
    requires ScimShaped(s)
    ensures var r := FromScim(s);
            && r["userPrincipalName"] == Get(s, "userName", Null)
            && r["displayName"] == Get(s, "displayName", Str(""))
            && r["accountEnabled"] == Get(s, "active", Bool(true))
            && ("givenName" in r <==> Truthy(Get(s, "name", Null)) && Truthy(Get(s["name"].fields, "givenName", Null)))
            && ("givenName" in r ==> r["givenName"] == s["name"].fields["givenName"])
            && ("surname" in r <==> Truthy(Get(s, "name", Null)) && Truthy(Get(s["name"].fields, "familyName", Null)))
            && ("surname" in r ==> r["surname"] == s["name"].fields["familyName"])
            && ("mail" in r <==> Truthy(Get(s, "emails", Null)) && FirstPrimaryValue(s["emails"].items).Some?)
            && ("mail" in r ==> r["mail"] == FirstPrimaryValue(s["emails"].items).value)
  {
  }

  // ---------------------------------------------------------------------------
  // Round trips

  /** What the core profile holds under key `k`, if anything. */
  function CoreEntry(g: Dict, k: string): Option<Json> {
    if k == "accountEnabled" then Some(Get(g, k, Bool(true)))
    else if k in GraphUserBaseKeys then Some(Get(g, k, Null))
    else if k in GraphUserKeys && Truthy(Get(g, k, Null)) then Some(g[k])
    else None
  }

  /**
   * What of a Graph user survives the trip through SCIM and back: the
   * principal name, the display name (null when absent), the enabled flag
   * (true when absent), and the given name, surname and mail when truthy.
   */
  function CoreProfile(g: Dict): (p: Dict)
    ensures GraphUserBaseKeys <= p.Keys
  {
    map k | k in GraphUserKeys && CoreEntry(g, k).Some? :: CoreEntry(g, k).value
  }

  /** Every SCIM user `to_scim_dict` produces can be read back by `from_scim_dict`. */
  lemma ToScimIsShaped(g: Dict)
    requires NativeShaped(g)
    ensures ScimShaped(ToScim(g))
  {
    var r := ToScim(g);
    if "emails" in r {
      var es := r["emails"].items;
      assert es == [EmailEntry(g["mail"])];
      assert Qualifies(es[0].fields);
    }
  }

  /** Reading back the name object `to_scim_dict` wrote gives the given name and surname of `g`. */
  lemma NameOfToScim(g: Dict)
    requires NativeShaped(g) && ScimShaped(ToScim(g))
    ensures NameField(ToScim(g), "givenName") == Get(g, "givenName", Null)
    ensures NameField(ToScim(g), "familyName") == Get(g, "surname", Null)
  {
    var name := ToScim(g)["name"].fields;
    assert "formatted" in name;
  }

  /** Reading back the email list `to_scim_dict` wrote gives the mail of `g`, when it is truthy. */
  lemma PrimaryMailOfToScim(g: Dict)
    requires NativeShaped(g) && ScimShaped(ToScim(g))
    ensures PrimaryMail(ToScim(g)) == if Truthy(Get(g, "mail", Null)) then Some(g["mail"]) else None
  {
    var s := ToScim(g);
    if Truthy(Get(g, "mail", Null)) {
      assert s["emails"].items == [EmailEntry(g["mail"])];
    }
  }

  /** The fixed keys come back with their core-profile values. */
  lemma GraphRoundTripBase(g: Dict)
    requires NativeShaped(g) && ScimShaped(ToScim(g))
    ensures GraphEntry(ToScim(g), "userPrincipalName") == CoreEntry(g, "userPrincipalName")
    ensures GraphEntry(ToScim(g), "displayName") == CoreEntry(g, "displayName")
    ensures GraphEntry(ToScim(g), "accountEnabled") == CoreEntry(g, "accountEnabled")
  {
    ToScimFields(g);
  }

  /** The name parts and the mail come back exactly when they were truthy. */
  lemma GraphRoundTripOptional(g: Dict)
    requires NativeShaped(g) && ScimShaped(ToScim(g))
    ensures GraphEntry(ToScim(g), "givenName") == CoreEntry(g, "givenName")
    ensures GraphEntry(ToScim(g), "surname") == CoreEntry(g, "surname")
    ensures GraphEntry(ToScim(g), "mail") == CoreEntry(g, "mail")
  {
    NameOfToScim(g);
    PrimaryMailOfToScim(g);
  }

  /**
   * Graph to SCIM to Graph keeps exactly the core profile: phone numbers and
   * every key outside the mapping are dropped, and nothing is invented.
   */
  lemma GraphRoundTrip(g: Dict)
    requires NativeShaped(g)
    ensures ScimShaped(ToScim(g)) && FromScim(ToScim(g)) == CoreProfile(g)
  {
    ToScimIsShaped(g);
    forall k
      ensures GraphEntry(ToScim(g), k) == CoreEntry(g, k)
    {
      GraphRoundTripEntry(g, k);
    }
  }

  /** Key by key, the trip through SCIM gives the core-profile entry. */
  lemma GraphRoundTripEntry(g: Dict, k: string)
    requires NativeShaped(g) && ScimShaped(ToScim(g))
    ensures GraphEntry(ToScim(g), k) == CoreEntry(g, k)
  {
    if k in GraphUserBaseKeys {
      GraphRoundTripBase(g);
    } else if k in GraphUserKeys {
      GraphRoundTripOptional(g);
    } else {
      EntryOutsideKeys(ToScim(g), g, k);
    }
  }

  /** Neither side has an entry for a key outside the mapping. */
  lemma EntryOutsideKeys(s: Dict, g: Dict, k: string)
    requires ScimShaped(s) && k !in GraphUserKeys
    ensures GraphEntry(s, k) == None && CoreEntry(g, k) == None
  {
  }

  /** Reading a SCIM user gives a Graph user that `to_scim_dict` can map. */
  lemma FromScimIsNative(s: Dict)
    requires ScimShaped(s)
    ensures NativeShaped(FromScim(s))
  {
  }

  /**
   * A Graph user read from SCIM is its own core profile, so a second trip
   * through SCIM changes nothing.
   */
  lemma ScimRoundTripIsStable(s: Dict)
    requires ScimShaped(s)
    ensures var r := FromScim(s);
            && CoreProfile(r) == r
            && NativeShaped(r) && ScimShaped(ToScim(r)) && FromScim(ToScim(r)) == r
  {
    var r := FromScim(s);
    forall k | k in GraphUserKeys
      ensures CoreEntry(r, k) == GraphEntry(s, k)
    {
    }
    assert CoreProfile(r) == r;
    FromScimIsNative(s);
    GraphRoundTrip(r);
  }

  /**
   * SCIM to Graph to SCIM keeps the user name (also as externalId), the active
   * flag (true when absent) and the display name ("" when absent).
   */
  lemma ScimRoundTrip(s: Dict)
    requires ScimShaped(s)
    ensures NativeShaped(FromScim(s))
    ensures var back := ToScim(FromScim(s));
            && back["userName"] == back["externalId"] == Get(s, "userName", Null)
            && back["active"] == Get(s, "active", Bool(true))
            && back["displayName"] == Get(s, "displayName", Str(""))
  {
    FromScimIsNative(s);
    FromScimFields(s);
    ToScimFields(FromScim(s));
  }

  /**
   * SCIM to Graph to SCIM turns the first qualifying email into the one
   * primary work email, and drops every other email and all phone numbers.
   */
  lemma ScimRoundTripEmails(s: Dict)
    requires ScimShaped(s)
    ensures NativeShaped(FromScim(s))
    ensures var back := ToScim(FromScim(s));
            && ("emails" in back <==> PrimaryMail(s).Some?)
            && ("emails" in back ==> back["emails"] == Arr([EmailEntry(PrimaryMail(s).value)]))
            && "phoneNumbers" !in back
  {
    FromScimIsNative(s);
    var r := FromScim(s);
    assert "businessPhones" !in r;
    if PrimaryMail(s).Some? {
      assert r["mail"] == PrimaryMail(s).value;
    }
  }

  // ---------------------------------------------------------------------------
  // The formatted name

  predicate Trimmed(t: string) {
    t != [] && !IsSpace(t[0]) && !IsSpace(t[|t| - 1])
  }

  lemma StripTrimmed(t: string)
    requires Trimmed(t)
    ensures Strip(t) == t
  {
  }

  /** With both parts present as trimmed strings, the formatted name is "given surname". */
  lemma FormattedNameOfBothParts(g: Dict, given: string, surname: string)
    requires Get(g, "givenName", Null) == Str(given) && Trimmed(given)
    requires Get(g, "surname", Null) == Str(surname) && Trimmed(surname)
    ensures FormattedName(g) == given + " " + surname
  {
    StripTrimmed(given + " " + surname);
  }

  /** With the surname absent, the separating space is stripped away. */
  lemma FormattedNameOfGivenNameOnly(g: Dict, given: string)
    requires Get(g, "givenName", Null) == Str(given) && Trimmed(given)
    requires "surname" !in g
    ensures FormattedName(g) == given
  {
    var t := given + " " + "";
    assert LStrip(t) == t;
    assert t[..|t| - 1] == given;
    assert RStrip(given) == given;
  }

  /** A given name that is present but null is rendered as the word None. */
  lemma FormattedNameOfNullGivenName(g: Dict)
    requires Get(g, "givenName", Str("")) == Null
    requires Get(g, "surname", Null) == Str("Doe")
    ensures FormattedName(g) == "None Doe"
  {
    StripTrimmed("None Doe");
  }
}
