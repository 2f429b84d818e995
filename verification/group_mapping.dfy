/**
 * `EntraGroupMapping`: a Microsoft Graph group object to a SCIM Group resource
 * (RFC 7643, section 4.2) and back. Graph names members by directory-object
 * URLs under `members@odata.bind`; SCIM lists them as `{"value": id}` entries.
 */
module GroupMapping {
  import opened Json
  import opened PyText

  const CoreGroupSchema := "urn:ietf:params:scim:schemas:core:2.0:Group"

  /** The collection URL of directory objects; a member URL is this, a slash and the object id. */
  const DirectoryObjects := "https://graph.microsoft.com/v1.0/directoryObjects"

  const DirectoryObjectPrefix := DirectoryObjects + "/"

  const MembersBind := "members@odata.bind"

  /** The keys `to_scim_dict` always writes. */
  const ScimGroupBaseKeys: set<string> := {"schemas", "id", "displayName"}

  // ---------------------------------------------------------------------------
  // Graph to SCIM

  /** `url.split("/")[-1]`: what follows the last slash, or the whole text without one. */
  function LastSegment(url: string): (id: string)
    ensures '/' !in id
  {
    var parts := Split(url, '/');
    SplitPiecesAvoidSeparator(url, '/', |parts| - 1);
    parts[|parts| - 1]
  }

  /** A piece `split` returns never holds the separator. */
  lemma {:induction false} SplitPiecesAvoidSeparator(s: string, sep: char, i: nat)
    requires i < |Split(s, sep)|
    ensures sep !in Split(s, sep)[i]
  {
    if s != [] {
      var rest := Split(s[1..], sep);
      if s[0] == sep {
        if i > 0 {
          SplitPiecesAvoidSeparator(s[1..], sep, i - 1);
        }
      } else {
        SplitPiecesAvoidSeparator(s[1..], sep, i);
        if i > 0 {
          assert Split(s, sep)[i] == rest[i];
        }
      }
    }
  }

  /**
   * The member id is the text after the last slash: whatever precedes that
   * slash is dropped, and a text without a slash is its own id.
   */
  lemma LastSegmentAfterSlash(url: string, id: string)
    requires '/' !in id
    ensures LastSegment(url + "/" + id) == id
    ensures LastSegment(id) == id
  {
    assert url + "/" + id == url + ['/'] + id;
    SplitAround(url, '/', id);
    SplitWithoutSeparator(id, '/');
  }

  /** A URL that ends in a slash yields an empty member id. */
  lemma LastSegmentOfTrailingSlash(url: string)
    ensures LastSegment(url + "/") == ""
  {
    assert url + "/" == url + ['/'] + "";
    SplitAround(url, '/', "");
  }

  /** The SCIM entry for one member URL. */
  function MemberEntry(url: string): Json {
    Obj(map["value" := Str(LastSegment(url))])
  }

  /** The `for member_url in ...` loop: one entry per URL, in order. */
  function MemberEntries(urls: seq<Json>): (r: seq<Json>)
    requires forall u :: u in urls ==> u.Str?
    ensures |r| == |urls|
    ensures forall i :: 0 <= i < |urls| ==> r[i] == MemberEntry(urls[i].s)
  {
    seq(|urls|, i requires 0 <= i < |urls| => MemberEntry(urls[i].s))
  }

  /**
   * The Graph groups `to_scim_dict` can map: a present `members@odata.bind`
   * must be iterable in a known order and yield strings, which have `split`.
   */
  predicate NativeShaped(g: Dict) {
    MembersBind in g ==>
      var urls := PyIter(g[MembersBind]);
      urls.Some? && forall u :: u in urls.value ==> u.Str?
  }

  /** The member entries the loop collects; none when the key is absent. */
  function ScimMembers(g: Dict): seq<Json>
    requires NativeShaped(g)
  {
    if MembersBind in g then MemberEntries(PyIter(g[MembersBind]).value) else []
  }

  /** The keys of the SCIM group: the fixed ones, and `members` when the loop collected any. */
  function ScimGroupKeys(g: Dict): set<string>
    requires NativeShaped(g)
  {
    ScimGroupBaseKeys + KeyIf(ScimMembers(g) != [], "members")
  }

  /** The value `to_scim_dict` writes under each of its keys. */
  function ScimGroupField(g: Dict, k: string): Json
    requires NativeShaped(g)
  {
    if k == "schemas" then Arr([Str(CoreGroupSchema)])
    else if k == "members" then Arr(ScimMembers(g))
    else Get(g, k, Null) // "id" and "displayName" are copied
  }

  /**
   * `EntraGroupMapping.to_scim_dict`: the fixed keys, and `members` when the
   * Graph group has the bind key and it lists at least one URL.
   */
  function ToScim(g: Dict): (r: Dict)
    requires NativeShaped(g)
    ensures "members" in r <==> MembersBind in g && Truthy(g[MembersBind])
  {
    map k | k in ScimGroupKeys(g) :: ScimGroupField(g, k)
  }

  /** The SCIM group has the three fixed keys and no key besides them but `members`. */
  lemma ToScimKeys(g: Dict)
    requires NativeShaped(g)
    ensures ScimGroupBaseKeys <= ToScim(g).Keys <= ScimGroupBaseKeys + {"members"}
  {
  }

  /** The fixed fields: the core Group schema only, and the id and display name as given (null when absent). */
  lemma ToScimFields(g: Dict)
    requires NativeShaped(g)
    ensures var r := ToScim(g);
            && r["schemas"] == Arr([Str(CoreGroupSchema)])
            && r["id"] == Get(g, "id", Null)
            && r["displayName"] == Get(g, "displayName", Null)
  {
  }

  /** Each member URL becomes one entry holding what follows its last slash, in order. */
  lemma ToScimMembers(g: Dict)
    requires NativeShaped(g)
    ensures var r := ToScim(g);
            "members" in r ==>
              var urls := PyIter(g[MembersBind]).value;
              && r["members"].Arr? && |r["members"].items| == |urls|
              && forall i :: 0 <= i < |urls| ==> r["members"].items[i] == Obj(map["value" := Str(LastSegment(urls[i].s))])
  {
  }

  // ---------------------------------------------------------------------------
  // SCIM to Graph

  /**
   * The SCIM groups `from_scim_dict` can map: a truthy `members` must be a
   * list of objects, since the loop calls `.get` on each entry. (A truthy
   * string yields one-character strings, which have no `.get`.)
   */
  predicate ScimShaped(s: Dict) {
    var members := Get(s, "members", Null);
    Truthy(members) ==> members.Arr? && forall m :: m in members.items ==> m.Obj?
  }

  /** The directory-object URL for one member value, rendered with `str()`. */
  function MemberUrl(value: Json): Json {
    Str(DirectoryObjectPrefix + PyStr(value))
  }

  /** The `for member in members` loop: a URL for each member whose `value` is truthy, in order. */
  function MemberUrls(members: seq<Json>): (r: seq<Json>)
    requires forall m :: m in members ==> m.Obj?
    ensures |r| <= |members|
    ensures forall u :: u in r ==> u.Str?
  {
    if members == [] then []
    else
      var value := Get(members[0].fields, "value", Null);
      (if Truthy(value) then [MemberUrl(value)] else []) + MemberUrls(members[1..])
  }

  /** The URLs the loop collects; none when `members` is falsy. */
  function GraphMembers(s: Dict): (r: seq<Json>)
    requires ScimShaped(s)
    ensures forall u :: u in r ==> u.Str?
  {
    var members := Get(s, "members", Null);
    if Truthy(members) then MemberUrls(members.items) else []
  }

  /** The keys of the Graph group: the display name, and the bind key when the loop collected any URL. */
  function GraphGroupKeys(s: Dict): set<string>
    requires ScimShaped(s)
  {
    {"displayName"} + KeyIf(GraphMembers(s) != [], MembersBind)
  }

  /**
   * `EntraGroupMapping.from_scim_dict`: the display name ("" when absent), and
   * `members@odata.bind` when at least one member has a truthy value.
   */
  function FromScim(s: Dict): (r: Dict)
    requires ScimShaped(s)
    ensures "displayName" in r && r.Keys <= {"displayName", MembersBind}
    ensures r["displayName"] == Get(s, "displayName", Str(""))
    ensures MembersBind in r <==> GraphMembers(s) != []
    ensures MembersBind in r ==> r[MembersBind] == Arr(GraphMembers(s))
  {
    map k | k in GraphGroupKeys(s) :: if k == MembersBind then Arr(GraphMembers(s)) else Get(s, "displayName", Str(""))
  }

  /** Exactly the members with a truthy value get a URL: none only when no member has one. */
  lemma {:induction false} MemberUrlsEmpty(members: seq<Json>)
    requires forall m :: m in members ==> m.Obj?
    ensures MemberUrls(members) == [] <==> forall m :: m in members ==> !Truthy(Get(m.fields, "value", Null))
  {
    if members != [] {
      MemberUrlsEmpty(members[1..]);
      assert forall m :: m in members <==> m == members[0] || m in members[1..];
    }
  }

  // ---------------------------------------------------------------------------
  // Round trips

  /** A member id as Graph issues it: non-empty and without a slash. */
  predicate PlainId(id: string) {
    id != [] && '/' !in id
  }

  /** The member URLs Graph binds for the given ids, in order. */
  function BindUrls(ids: seq<string>): (r: seq<Json>)
    ensures |r| == |ids|
    ensures forall i :: 0 <= i < |ids| ==> r[i] == Str(DirectoryObjectPrefix + ids[i])
  {
    seq(|ids|, i requires 0 <= i < |ids| => Str(DirectoryObjectPrefix + ids[i]))
  }

  /** The id of a member URL is what follows the prefix. */
  lemma LastSegmentOfCanonical(id: string)
    requires '/' !in id
    ensures LastSegment(DirectoryObjectPrefix + id) == id
  {
    assert DirectoryObjectPrefix + id == DirectoryObjects + "/" + id;
    LastSegmentAfterSlash(DirectoryObjects, id);
  }

  /** The URLs of the SCIM entries made from member URLs are those URLs again. */
  lemma {:induction false} MemberUrlsOfEntries(ids: seq<string>)
    requires forall id :: id in ids ==> PlainId(id)
    ensures MemberUrls(MemberEntries(BindUrls(ids))) == BindUrls(ids)
  {
    if ids != [] {
      var urls := BindUrls(ids);
      var entries := MemberEntries(urls);
      assert PlainId(ids[0]);
      EntryOfBindUrl(ids[0]);
      assert entries[0] == MemberEntry(DirectoryObjectPrefix + ids[0]);
      assert urls[1..] == BindUrls(ids[1..]);
      assert entries[1..] == MemberEntries(urls[1..]);
      MemberUrlsOfEntries(ids[1..]);
      assert MemberUrls(entries) == [urls[0]] + MemberUrls(entries[1..]);
      assert urls == [urls[0]] + urls[1..];
    }
  }

  /** The entry of a bound URL carries the id, which is truthy and binds back to the same URL. */
  lemma EntryOfBindUrl(id: string)
    requires PlainId(id)
    ensures var value := Get(MemberEntry(DirectoryObjectPrefix + id).fields, "value", Null);
            value == Str(id) && Truthy(value) && MemberUrl(value) == Str(DirectoryObjectPrefix + id)
  {
    LastSegmentOfCanonical(id);
  }

  /**
   * Graph to SCIM to Graph keeps the display name (null when absent) and a
   * non-empty list of member URLs, and drops everything else.
   */
  lemma GraphRoundTrip(g: Dict, ids: seq<string>)
    requires Get(g, MembersBind, Arr([])) == Arr(BindUrls(ids))
    requires forall id :: id in ids ==> PlainId(id)
    ensures NativeShaped(g) && ScimShaped(ToScim(g))
    ensures var back := FromScim(ToScim(g));
            && back["displayName"] == Get(g, "displayName", Null)
            && (MembersBind in back <==> ids != [])
            && (MembersBind in back ==> back[MembersBind] == Arr(BindUrls(ids)))
  {
    var s := ToScim(g);
    ToScimFields(g);
    if ids != [] {
      assert Get(s, "members", Null) == Arr(MemberEntries(BindUrls(ids)));
      MemberUrlsOfEntries(ids);
    }
  }

  /** A member reduced to what survives the trip: its value rendered as a string. */
  function ValueEntry(m: Json): Json
    requires m.Obj?
  {
    Obj(map["value" := Str(PyStr(Get(m.fields, "value", Null)))])
  }

  /**
   * The SCIM members as they come back from Graph: each member with a truthy
   * value reduced to that value as a string, the others dropped.
   */
  function KeptMembers(members: seq<Json>): seq<Json>
    requires forall m :: m in members ==> m.Obj?
  {
    if members == [] then []
    else
      (if Truthy(Get(members[0].fields, "value", Null)) then [ValueEntry(members[0])] else [])
      + KeptMembers(members[1..])
  }

  /** The member values render without a slash, so the ids read back whole. */
  predicate SlashFreeValues(members: seq<Json>)
    requires forall m :: m in members ==> m.Obj?
  {
    forall m :: m in members ==> '/' !in PyStr(Get(m.fields, "value", Null))
  }

  lemma {:induction false} EntriesOfMemberUrls(members: seq<Json>)
    requires forall m :: m in members ==> m.Obj?
    requires SlashFreeValues(members)
    ensures MemberEntries(MemberUrls(members)) == KeptMembers(members)
  {
    if members != [] {
      var value := Get(members[0].fields, "value", Null);
      var head := if Truthy(value) then [MemberUrl(value)] else [];
      var tail := MemberUrls(members[1..]);
      assert MemberUrls(members) == head + tail;
      EntriesOfMemberUrls(members[1..]);
      MemberEntriesAppend(head, tail);
      if Truthy(value) {
        assert members[0] in members;
        LastSegmentOfCanonical(PyStr(value));
        assert MemberEntries(head) == [ValueEntry(members[0])];
      }
    }
  }

  lemma MemberEntriesAppend(a: seq<Json>, b: seq<Json>)
    requires forall u :: u in a ==> u.Str?
    requires forall u :: u in b ==> u.Str?
    ensures MemberEntries(a + b) == MemberEntries(a) + MemberEntries(b)
  {
    assert forall u :: u in a + b ==> u in a || u in b;
  }

  /**
   * SCIM to Graph to SCIM keeps the display name ("" when absent) and the
   * members with a truthy value, each reduced to its value as a string.
   */
  lemma ScimRoundTrip(s: Dict)
    requires ScimShaped(s)
    requires Truthy(Get(s, "members", Null)) ==> SlashFreeValues(s["members"].items)
    ensures NativeShaped(FromScim(s))
    ensures var back := ToScim(FromScim(s));
            && back["displayName"] == Get(s, "displayName", Str(""))
            && var kept := if Truthy(Get(s, "members", Null)) then KeptMembers(s["members"].items) else [];
               ("members" in back <==> kept != [])
               && ("members" in back ==> back["members"] == Arr(kept))
  {
    var r := FromScim(s);
    ToScimFields(r);
    if Truthy(Get(s, "members", Null)) {
      EntriesOfMemberUrls(s["members"].items);
    }
  }
}
