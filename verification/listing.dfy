/**
 * The list side of both services: the four resource kinds and their mappers,
 * the total-count fallback of a Graph page, and the SCIM ListResponse
 * envelope (RFC 7644, section 3.4.2).
 */
module Listing {
  import opened Json
  import opened Upstream
  import Filtering
  import UserMapping
  import GroupMapping
  import ApplicationMapping
  import ServicePrincipalMapping

  datatype Kind = Users | Groups | Applications | ServicePrincipals

  const ListResponseSchema := "urn:ietf:params:scim:api:messages:2.0:ListResponse"

  /** The Graph collection of each kind. */
  function Endpoint(kind: Kind): string {
    match kind
    case Users => "/users"
    case Groups => "/groups"
    case Applications => "/applications"
    case ServicePrincipals => "/servicePrincipals"
  }

  /** The Graph objects the kind's `to_scim_dict` maps without raising. */
  predicate NativeItem(kind: Kind, item: Json) {
    && item.Obj?
    && match kind
       case Users => UserMapping.NativeShaped(item.fields)
       case Groups => GroupMapping.NativeShaped(item.fields)
       case Applications => ApplicationMapping.NativeShaped(item.fields)
       case ServicePrincipals => true
  }

  /** `EntraXMapping(item).to_scim_dict()` for the kind. */
  function ItemToScim(kind: Kind, item: Json): Json
    requires NativeItem(kind, item)
  {
    match kind
    case Users => Obj(UserMapping.ToScim(item.fields))
    case Groups => Obj(GroupMapping.ToScim(item.fields))
    case Applications => Obj(ApplicationMapping.ToScim(item.fields))
    case ServicePrincipals => Obj(ServicePrincipalMapping.ToScim(item.fields))
  }

  /**
   * The list comprehension over the page's items: every item mapped, in
   * order; None when the items cannot be iterated or one of them cannot be
   * mapped (the comprehension raises).
   */
  function MapItems(kind: Kind, value: Json): (r: Option<seq<Json>>)
    ensures r.Some? <==> PyIter(value).Some? && forall i :: 0 <= i < |PyIter(value).value| ==> NativeItem(kind, PyIter(value).value[i])
    ensures r.Some? ==> |r.value| == |PyIter(value).value|
    ensures r.Some? ==> forall i :: 0 <= i < |r.value| ==> r.value[i] == ItemToScim(kind, PyIter(value).value[i])
  {
    match PyIter(value)
    case None => None
    case Some(items) =>
      if forall i :: 0 <= i < |items| ==> NativeItem(kind, items[i]) then
        Some(seq(|items|, i requires 0 <= i < |items| => ItemToScim(kind, items[i])))
      else None
  }

  /** The resources of a page of mappable items: each item mapped, in order. */
  function Mapped(kind: Kind, items: seq<Json>): (r: seq<Json>)
    requires forall i :: 0 <= i < |items| ==> NativeItem(kind, items[i])
    ensures |r| == |items|
  {
    seq(|items|, i requires 0 <= i < |items| => ItemToScim(kind, items[i]))
  }

  /** A page whose `value` is a list maps item by item. */
  lemma MapItemsOfList(kind: Kind, items: seq<Json>)
    requires forall i :: 0 <= i < |items| ==> NativeItem(kind, items[i])
    ensures MapItems(kind, Arr(items)) == Some(Mapped(kind, items))
  {
  }

  /** An empty page maps to no resources. */
  lemma MapItemsOfEmpty(kind: Kind)
    ensures MapItems(kind, Arr([])) == Some([])
  {
  }

  /**
   * The SCIM ListResponse: the schema, the total, the echoed start index, the
   * requested page size (whatever number of resources there are) and the
   * resources.
   */
  function ListResponse(total: Json, startIndex: int, count: int, resources: seq<Json>): (r: Dict)
    ensures "totalResults" in r && "itemsPerPage" in r && "Resources" in r
    ensures r.Keys == {"schemas", "totalResults", "startIndex", "itemsPerPage", "Resources"}
  {
    map[
      "schemas" := Arr([Str(ListResponseSchema)]),
      "totalResults" := total,
      "startIndex" := Int(startIndex),
      "itemsPerPage" := Int(count),
      "Resources" := Arr(resources)]
  }

  // ---------------------------------------------------------------------------
  // EntraGraphService._paginated_request and the get_* methods

  /** What `_paginated_request` returns: the page's `value` and its total count. */
  datatype Page = Page(value: Json, totalCount: Json)

  /**
   * The page read from Graph's JSON object: `value` (default []) and
   * `@odata.count`, falling back to the length of `value`. The length is
   * taken even when the count is present, so a `value` without a length
   * raises either way.
   */
  function PageOf(result: Dict): (p: Option<Page>)
    ensures p.Some? <==> PyLen(Get(result, "value", Arr([]))).Some?
    ensures p.Some? ==> p.value.value == Get(result, "value", Arr([]))
    ensures p.Some? && "@odata.count" in result ==> p.value.totalCount == result["@odata.count"]
    ensures p.Some? && "@odata.count" !in result ==> p.value.totalCount == Int(PyLen(Get(result, "value", Arr([]))).value)
  {
    var value := Get(result, "value", Arr([]));
    match PyLen(value)
    case Some(n) => Some(Page(value, Get(result, "@odata.count", Int(n))))
    case None => None
  }

  /** Without `@odata.count`, the total is the number of items on this page. */
  lemma TotalFallsBackToPageLength(result: Dict, items: seq<Json>)
    requires "@odata.count" !in result && Get(result, "value", Arr([])) == Arr(items)
    ensures PageOf(result) == Some(Page(Arr(items), Int(|items|)))
  {
  }

  /**
   * The envelope of `get_users` (and the other three `get_*` lists): the
   * total is the page's total count, not the number of resources.
   */
  function PagedList(kind: Kind, page: Page, startIndex: int, count: int): (r: Option<Dict>)
    ensures r.Some? <==> MapItems(kind, page.value).Some?
    ensures r.Some? ==> "totalResults" in r.value && r.value["totalResults"] == page.totalCount
    ensures r.Some? ==> "itemsPerPage" in r.value && r.value["itemsPerPage"] == Int(count)
  {
    match MapItems(kind, page.value)
    case Some(resources) => Some(ListResponse(page.totalCount, startIndex, count, resources))
    case None => None
  }

  /** `SCIMFilter.convert_to_graph_filter(filter_str) if filter_str else None`. */
  function GraphFilterOf(filter: Option<string>): (f: Option<string>)
    ensures f.Some? <==> filter.Some? && filter.value != ""
  {
    if filter.Some? && filter.value != "" then Some(Filtering.ConvertToGraphFilter(filter)) else None
  }

  /**
   * What `_paginated_request` makes of the outcome of its one request: the
   * settled reply, whose JSON must be an object with a measurable `value`.
   */
  function PageAnswer(o: Outcome): (r: Result<Page>)
    ensures r.Ok? ==> o.Delivered? && o.reply.status < 400 && ReplyObject(o.reply).Some?
  {
    match Settle(ServiceUnavailable, o)
    case Fail(e) => Fail(e)
    case Ok(reply) =>
      match ReplyObject(reply)
      case None => Fail(Unhandled)
      case Some(m) =>
        match PageOf(m)
        case Some(p) => Ok(p)
        case None => Fail(Unhandled)
  }

  /** What EntraGraphService's `get_users`, `get_groups`, `get_applications` and `get_service_principals` answer. */
  function GraphListAnswer(kind: Kind, o: Outcome, startIndex: int, count: int): (r: Result<Dict>)
    ensures PageAnswer(o).Fail? ==> r == Fail(PageAnswer(o).failure)
    ensures r.Ok? ==> && PageAnswer(o).Ok?
                      && "totalResults" in r.value && r.value["totalResults"] == PageAnswer(o).value.totalCount
                      && "itemsPerPage" in r.value && r.value["itemsPerPage"] == Int(count)
  {
    match PageAnswer(o)
    case Fail(e) => Fail(e)
    case Ok(p) =>
      match PagedList(kind, p, startIndex, count)
      case Some(d) => Ok(d)
      case None => Fail(Unhandled)
  }

  /**
   * A page of mappable items lists them all, mapped and in order, under
   * `@odata.count` as the total, or the number of items when Graph gives none.
   */
  lemma GraphListOfPage(kind: Kind, o: Outcome, m: Dict, items: seq<Json>, startIndex: int, count: int)
    requires o.Delivered? && o.reply.status < 400 && o.reply.json == Some(Obj(m))
    requires Get(m, "value", Arr([])) == Arr(items)
    requires forall i :: 0 <= i < |items| ==> NativeItem(kind, items[i])
    ensures GraphListAnswer(kind, o, startIndex, count)
         == Ok(ListResponse(Get(m, "@odata.count", Int(|items|)), startIndex, count, Mapped(kind, items)))
  {
    MapItemsOfList(kind, items);
  }

  /** A list request that cannot reach Graph answers 503. */
  lemma GraphListOfTransportError(kind: Kind, reason: string, startIndex: int, count: int)
    ensures GraphListAnswer(kind, RequestError(reason), startIndex, count)
         == Fail(HttpError(503, "Error connecting to Graph API: " + reason))
  {
  }

  /** An error status is answered with that status, whatever the body. */
  lemma GraphListOfErrorStatus(kind: Kind, reply: Reply, startIndex: int, count: int)
    requires reply.status >= 400
    ensures GraphListAnswer(kind, Delivered(reply), startIndex, count)
         == Fail(HttpError(reply.status, "Graph API error: " + ErrorMessage(reply)))
  {
  }

  // ---------------------------------------------------------------------------
  // SCIMService.get_users / get_groups

  /**
   * The first-page envelope: `response.json().get("value", [])` mapped, with
   * `totalResults` the number of resources on this page, not an upstream total.
   */
  function FirstPageList(kind: Kind, result: Dict, startIndex: int, count: int): (r: Option<Dict>)
    ensures r.Some? <==> MapItems(kind, Get(result, "value", Arr([]))).Some?
    ensures r.Some? ==> "totalResults" in r.value && r.value["totalResults"] == Int(|MapItems(kind, Get(result, "value", Arr([]))).value|)
  {
    match MapItems(kind, Get(result, "value", Arr([])))
    case Some(resources) => Some(ListResponse(Int(|resources|), startIndex, count, resources))
    case None => None
  }

  /**
   * The first-page envelope does not depend on `@odata.count`: whatever count
   * Graph reports, or none, the answer is the same and its total counts only
   * this page.
   */
  lemma FirstPageIgnoresUpstreamCount(kind: Kind, result: Dict, total: Json, items: seq<Json>, startIndex: int, count: int)
    requires Get(result, "value", Arr([])) == Arr(items)
    requires forall i :: 0 <= i < |items| ==> NativeItem(kind, items[i])
    ensures FirstPageList(kind, result["@odata.count" := total], startIndex, count) == FirstPageList(kind, result, startIndex, count)
    ensures FirstPageList(kind, result, startIndex, count).Some?
    ensures FirstPageList(kind, result, startIndex, count).value["totalResults"] == Int(|items|)
  {
    MapItemsOfList(kind, items);
    assert Get(result["@odata.count" := total], "value", Arr([])) == Arr(items);
  }

  /** What SCIMService's `get_users` and `get_groups` make of the outcome of their one request. */
  function ScimListAnswer(kind: Kind, o: Outcome, startIndex: int, count: int): (r: Result<Dict>)
    ensures r.Ok? ==> o.Delivered? && o.reply.status < 400
  {
    match Settle(PassThrough, o)
    case Fail(e) => Fail(e)
    case Ok(reply) =>
      match ReplyObject(reply)
      case None => Fail(Unhandled)
      case Some(m) =>
        match FirstPageList(kind, m, startIndex, count)
        case Some(d) => Ok(d)
        case None => Fail(Unhandled)
  }

  /** A page of mappable items lists them all, mapped and in order, and counts only them. */
  lemma ScimListOfPage(kind: Kind, o: Outcome, m: Dict, items: seq<Json>, startIndex: int, count: int)
    requires o.Delivered? && o.reply.status < 400 && o.reply.json == Some(Obj(m))
    requires Get(m, "value", Arr([])) == Arr(items)
    requires forall i :: 0 <= i < |items| ==> NativeItem(kind, items[i])
    ensures ScimListAnswer(kind, o, startIndex, count)
         == Ok(ListResponse(Int(|items|), startIndex, count, Mapped(kind, items)))
  {
    MapItemsOfList(kind, items);
  }

  /** A transport error reaches the caller as it is, not as an HTTP error. */
  lemma ScimListOfTransportError(kind: Kind, reason: string, startIndex: int, count: int)
    ensures ScimListAnswer(kind, RequestError(reason), startIndex, count) == Fail(TransportFailure(reason))
  {
  }
}
