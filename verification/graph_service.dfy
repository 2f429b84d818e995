/**
 * `EntraGraphService`: SCIM operations on users, groups, applications and
 * service principals carried out against Microsoft Graph. Every method
 * returns the requests it handed to the transport together with its result.
 * Each contract says exactly which requests went out (none when the method
 * stops early) and ties the result to the reply through the answer functions
 * of `Listing` and `Provisioning`.
 */
module GraphService {
  import opened Json
  import opened Upstream
  import opened Paging
  import opened Listing
  import opened Provisioning
  import UserMapping
  import GroupMapping
  import ApplicationMapping
  import ServicePrincipalMapping

  class EntraGraphService {
    const accessToken: string
    const headers: map<string, string>
    const graphApiBase: string

    /** A bearer token and a JSON content type on every request. */
    constructor(accessToken: string)
      ensures this.accessToken == accessToken
      ensures headers == map["Authorization" := "Bearer " + accessToken, "Content-Type" := "application/json"]
      ensures graphApiBase == GraphApiBase
    {
      this.accessToken := accessToken;
      headers := map["Authorization" := "Bearer " + accessToken, "Content-Type" := "application/json"];
      graphApiBase := GraphApiBase;
    }

    /**
     * `_make_request`: an unknown verb is refused before anything is sent;
     * otherwise exactly one request goes to the base URL plus the endpoint,
     * carrying the payload only for POST and PATCH, and its outcome is settled
     * with transport errors turned into 503.
     */
    method MakeRequest(name: string, endpoint: string, data: Option<Dict>, transport: Transport)
      returns (r: Result<Reply>, sent: seq<Request>)
      ensures Dispatch(name).None? ==> r == Fail(UnsupportedMethod(name)) && sent == []
      ensures Dispatch(name).Some? ==>
                && sent == [Request(Dispatch(name).value, graphApiBase + endpoint, headers, BodyFor(Dispatch(name).value, data))]
                && r == Settle(ServiceUnavailable, transport(sent[0]))
    {
      var verb := Dispatch(name);
      if verb.None? {
        r, sent := Fail(UnsupportedMethod(name)), [];
        return;
      }
      var request := Request(verb.value, graphApiBase + endpoint, headers, BodyFor(verb.value, data));
      sent := [request];
      r := Settle(ServiceUnavailable, transport(request));
    }

    /**
     * `_paginated_request`: one GET of the endpoint with the query built from
     * the filter fragment, the skip of the start index and the page size;
     * the page is read from the reply.
     */
    method PaginatedRequest(endpoint: string, startIndex: int, count: int, filter: Option<string>, transport: Transport)
      returns (r: Result<Page>, sent: seq<Request>)
      ensures sent == [Request(HttpGet, graphApiBase + endpoint + GraphQueryString(Fragment(filter), Skip(startIndex), count), headers, None)]
      ensures r == PageAnswer(transport(sent[0]))
    {
      var params, query := GraphQuery(filter, startIndex, count);
      var reply;
      DispatchOfVerbs();
      reply, sent := MakeRequest("get", endpoint + query, None, transport);
      assert graphApiBase + (endpoint + query) == graphApiBase + endpoint + query;
      match reply {
        case Fail(e) =>
          r := Fail(e);
        case Ok(response) =>
          match ReplyObject(response) {
            case None =>
              r := Fail(Unhandled);
            case Some(result) =>
              match PageOf(result) {
                case Some(page) => r := Ok(page);
                case None => r := Fail(Unhandled);
              }
          }
      }
    }

    /**
     * The four `get_*` list methods: the filter translated when given, one
     * paged GET of the kind's collection, and the ListResponse of the mapped
     * items.
     */
    method List(kind: Kind, filter: Option<string>, startIndex: int, count: int, transport: Transport)
      returns (r: Result<Dict>, sent: seq<Request>)
      ensures sent == [Request(HttpGet, graphApiBase + Endpoint(kind)
                               + GraphQueryString(Fragment(GraphFilterOf(filter)), Skip(startIndex), count), headers, None)]
      ensures r == GraphListAnswer(kind, transport(sent[0]), startIndex, count)
    {
      var graphFilter := GraphFilterOf(filter);
      var result;
      result, sent := PaginatedRequest(Endpoint(kind), startIndex, count, graphFilter, transport);
      match result {
        case Fail(e) =>
          r := Fail(e);
        case Ok(page) =>
          match PagedList(kind, page, startIndex, count) {
            case Some(envelope) => r := Ok(envelope);
            case None => r := Fail(Unhandled);
          }
      }
    }

    method GetUsers(filter: Option<string>, startIndex: int, count: int, transport: Transport)
      returns (r: Result<Dict>, sent: seq<Request>)
      ensures sent == [Request(HttpGet, graphApiBase + "/users"
                               + GraphQueryString(Fragment(GraphFilterOf(filter)), Skip(startIndex), count), headers, None)]
      ensures r == GraphListAnswer(Users, transport(sent[0]), startIndex, count)
    {
      r, sent := List(Users, filter, startIndex, count, transport);
    }

    method GetGroups(filter: Option<string>, startIndex: int, count: int, transport: Transport)
      returns (r: Result<Dict>, sent: seq<Request>)
      ensures sent == [Request(HttpGet, graphApiBase + "/groups"
                               + GraphQueryString(Fragment(GraphFilterOf(filter)), Skip(startIndex), count), headers, None)]
      ensures r == GraphListAnswer(Groups, transport(sent[0]), startIndex, count)
    {
      r, sent := List(Groups, filter, startIndex, count, transport);
    }

    method GetApplications(filter: Option<string>, startIndex: int, count: int, transport: Transport)
      returns (r: Result<Dict>, sent: seq<Request>)
      ensures sent == [Request(HttpGet, graphApiBase + "/applications"
                               + GraphQueryString(Fragment(GraphFilterOf(filter)), Skip(startIndex), count), headers, None)]
      ensures r == GraphListAnswer(Applications, transport(sent[0]), startIndex, count)
    {
      r, sent := List(Applications, filter, startIndex, count, transport);
    }

    method GetServicePrincipals(filter: Option<string>, startIndex: int, count: int, transport: Transport)
      returns (r: Result<Dict>, sent: seq<Request>)
      ensures sent == [Request(HttpGet, graphApiBase + "/servicePrincipals"
                               + GraphQueryString(Fragment(GraphFilterOf(filter)), Skip(startIndex), count), headers, None)]
      ensures r == GraphListAnswer(ServicePrincipals, transport(sent[0]), startIndex, count)
    {
      r, sent := List(ServicePrincipals, filter, startIndex, count, transport);
    }

    /**
     * `create_user`: the SCIM user mapped to Graph, a password profile added
     * in place, one POST to /users, and the created user mapped back. A SCIM
     * user the mapper cannot read, or whose user name cannot be hashed, fails
     * before anything is sent.
     */
    method CreateUser(data: Dict, hash: Json -> int, transport: Transport)
      returns (r: Result<Json>, sent: seq<Request>)
      ensures !UserMapping.ScimShaped(data) ==> r == Fail(Unhandled) && sent == []
      ensures UserMapping.ScimShaped(data) && !Hashable(Get(data, "userName", Null)) ==> r == Fail(Unhandled) && sent == []
      ensures UserMapping.ScimShaped(data) && Hashable(Get(data, "userName", Null)) ==>
                && sent == [Request(HttpPost, graphApiBase + "/users", headers,
                                    Some(WithPasswordProfile(UserMapping.FromScim(data), hash)))]
                && r == Created(ServiceUnavailable, Users, transport(sent[0]))
    {
      if !UserMapping.ScimShaped(data) {
        r, sent := Fail(Unhandled), [];
        return;
      }
      var graphUser := UserMapping.FromScim(data);
      UserCheckNeverFires(data);
      ghost var upn := Get(data, "userName", Null);
      assert "userPrincipalName" in graphUser && graphUser["userPrincipalName"] == upn && "passwordProfile" !in graphUser;
      if "userPrincipalName" !in graphUser {
        r, sent := Fail(HttpError(400, UserPrincipalNameRequired)), [];
      } else if "passwordProfile" !in graphUser && !Hashable(graphUser["userPrincipalName"]) {
        r, sent := Fail(Unhandled), [];
      } else {
        ghost var mapped := graphUser;
        if "passwordProfile" !in graphUser {
          graphUser := graphUser["passwordProfile" := PasswordProfile(graphUser["userPrincipalName"], hash)];
        }
        assert graphUser == WithPasswordProfile(mapped, hash);
        var reply;
        DispatchOfVerbs();
        reply, sent := MakeRequest("post", "/users", Some(graphUser), transport);
        r := MappedBack(Users, reply);
      }
    }

    /**
     * `create_group`: the SCIM group mapped to Graph, the security and mail
     * flags defaulted in place, one POST to /groups, and the created group
     * mapped back.
     */
    method CreateGroup(data: Dict, transport: Transport)
      returns (r: Result<Json>, sent: seq<Request>)
      ensures !GroupMapping.ScimShaped(data) ==> r == Fail(Unhandled) && sent == []
      ensures GroupMapping.ScimShaped(data) ==>
                && sent == [Request(HttpPost, graphApiBase + "/groups", headers,
                                    Some(WithGroupDefaults(GroupMapping.FromScim(data))))]
                && r == Created(ServiceUnavailable, Groups, transport(sent[0]))
    {
      if !GroupMapping.ScimShaped(data) {
        r, sent := Fail(Unhandled), [];
        return;
      }
      var graphGroup := GroupMapping.FromScim(data);
      if "displayName" !in graphGroup {
        r, sent := Fail(HttpError(400, DisplayNameRequired)), [];
      } else {
        if "securityEnabled" !in graphGroup {
          graphGroup := graphGroup["securityEnabled" := Bool(true)];
        }
        if "mailEnabled" !in graphGroup {
          graphGroup := graphGroup["mailEnabled" := Bool(false)];
        }
        var reply;
        DispatchOfVerbs();
        reply, sent := MakeRequest("post", "/groups", Some(graphGroup), transport);
        r := MappedBack(Groups, reply);
      }
    }

    /** `create_application`: the SCIM application mapped to Graph, one POST to /applications, and the result mapped back. */
    method CreateApplication(data: Dict, transport: Transport)
      returns (r: Result<Json>, sent: seq<Request>)
      ensures !ApplicationMapping.ScimShaped(data) ==> r == Fail(Unhandled) && sent == []
      ensures ApplicationMapping.ScimShaped(data) ==>
                && sent == [Request(HttpPost, graphApiBase + "/applications", headers, Some(ApplicationMapping.FromScim(data)))]
                && r == Created(ServiceUnavailable, Applications, transport(sent[0]))
    {
      if !ApplicationMapping.ScimShaped(data) {
        r, sent := Fail(Unhandled), [];
        return;
      }
      var graphApp := ApplicationMapping.FromScim(data);
      if "displayName" !in graphApp {
        r, sent := Fail(HttpError(400, DisplayNameRequired)), [];
      } else {
        var reply;
        DispatchOfVerbs();
        reply, sent := MakeRequest("post", "/applications", Some(graphApp), transport);
        r := MappedBack(Applications, reply);
      }
    }

    /**
     * `create_service_principal`: without an app id it fails with 400 before
     * anything is sent; otherwise one POST to /servicePrincipals and the
     * result mapped back.
     */
    method CreateServicePrincipal(data: Dict, transport: Transport)
      returns (r: Result<Json>, sent: seq<Request>)
      ensures "appId" !in data ==> r == Fail(HttpError(400, AppIdRequired)) && sent == []
      ensures "appId" in data ==>
                && sent == [Request(HttpPost, graphApiBase + "/servicePrincipals", headers, Some(ServicePrincipalMapping.FromScim(data)))]
                && r == Created(ServiceUnavailable, ServicePrincipals, transport(sent[0]))
    {
      var graphSp := ServicePrincipalMapping.FromScim(data);
      ServicePrincipalCheck(data);
      if "appId" !in graphSp {
        r, sent := Fail(HttpError(400, AppIdRequired)), [];
      } else {
        var reply;
        DispatchOfVerbs();
        reply, sent := MakeRequest("post", "/servicePrincipals", Some(graphSp), transport);
        r := MappedBack(ServicePrincipals, reply);
      }
    }
  }
}
