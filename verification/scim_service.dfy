/**
 * `SCIMService`: the earlier service over Microsoft Graph, for users and
 * groups only. It differs from `EntraGraphService` in four ways: it sends
 * only the bearer token, it lets transport errors through, it serves only
 * the first page, and it counts only the resources on that page.
 */
module ScimService {
  import opened Json
  import opened Upstream
  import opened Paging
  import opened Listing
  import opened Provisioning
  import Filtering
  import UserMapping
  import GroupMapping

  const PaginationNotSupported := "Pagination beyond the first page is not supported yet"

  class SCIMService {
    const accessToken: string
    const headers: map<string, string>
    const graphApiBase: string

    /** Only the bearer token; no content type. */
    constructor(accessToken: string)
      ensures this.accessToken == accessToken
      ensures headers == map["Authorization" := "Bearer " + accessToken]
      ensures graphApiBase == GraphApiBase
    {
      this.accessToken := accessToken;
      headers := map["Authorization" := "Bearer " + accessToken];
      graphApiBase := GraphApiBase;
    }

    /**
     * `_make_request`: the same dispatch and status check as
     * `EntraGraphService`, but a transport error is not converted.
     */
    method MakeRequest(name: string, endpoint: string, data: Option<Dict>, transport: Transport)
      returns (r: Result<Reply>, sent: seq<Request>)
      ensures Dispatch(name).None? ==> r == Fail(UnsupportedMethod(name)) && sent == []
      ensures Dispatch(name).Some? ==>
                && sent == [Request(Dispatch(name).value, graphApiBase + endpoint, headers, BodyFor(Dispatch(name).value, data))]
                && r == Settle(PassThrough, transport(sent[0]))
    {
      var verb := Dispatch(name);
      if verb.None? {
        r, sent := Fail(UnsupportedMethod(name)), [];
        return;
      }
      var request := Request(verb.value, graphApiBase + endpoint, headers, BodyFor(verb.value, data));
      sent := [request];
      r := Settle(PassThrough, transport(request));
    }

    /**
     * The body of `get_users` and `get_groups`: the filter always goes through
     * the translator; a start index other than 1 is refused with 400 before
     * anything is sent; otherwise one GET with the first-page query.
     */
    method ListFirstPage(kind: Kind, filter: Option<string>, startIndex: int, count: int, transport: Transport)
      returns (r: Result<Dict>, sent: seq<Request>)
      ensures startIndex != 1 ==> r == Fail(HttpError(400, PaginationNotSupported)) && sent == []
      ensures startIndex == 1 ==>
                && sent == [Request(HttpGet, graphApiBase + Endpoint(kind)
                                    + FirstPageQuery(Filtering.ConvertToGraphFilter(filter), count), headers, None)]
                && r == ScimListAnswer(kind, transport(sent[0]), startIndex, count)
    {
      var graphFilter := Filtering.ConvertToGraphFilter(filter);
      if startIndex != 1 {
        r, sent := Fail(HttpError(400, PaginationNotSupported)), [];
        return;
      }
      var query := FirstPageQuery(graphFilter, count);
      var reply;
      DispatchOfVerbs();
      reply, sent := MakeRequest("get", Endpoint(kind) + query, None, transport);
      assert graphApiBase + (Endpoint(kind) + query) == graphApiBase + Endpoint(kind) + query;
      match reply {
        case Fail(e) =>
          r := Fail(e);
        case Ok(response) =>
          match ReplyObject(response) {
            case None =>
              r := Fail(Unhandled);
            case Some(result) =>
              match FirstPageList(kind, result, startIndex, count) {
                case Some(envelope) => r := Ok(envelope);
                case None => r := Fail(Unhandled);
              }
          }
      }
    }

    method GetUsers(filter: Option<string>, startIndex: int, count: int, transport: Transport)
      returns (r: Result<Dict>, sent: seq<Request>)
      ensures startIndex != 1 ==> r == Fail(HttpError(400, PaginationNotSupported)) && sent == []
      ensures startIndex == 1 ==>
                && sent == [Request(HttpGet, graphApiBase + "/users"
                                    + FirstPageQuery(Filtering.ConvertToGraphFilter(filter), count), headers, None)]
                && r == ScimListAnswer(Users, transport(sent[0]), startIndex, count)
    {
      r, sent := ListFirstPage(Users, filter, startIndex, count, transport);
    }

    method GetGroups(filter: Option<string>, startIndex: int, count: int, transport: Transport)
      returns (r: Result<Dict>, sent: seq<Request>)
      ensures startIndex != 1 ==> r == Fail(HttpError(400, PaginationNotSupported)) && sent == []
      ensures startIndex == 1 ==>
                && sent == [Request(HttpGet, graphApiBase + "/groups"
                                    + FirstPageQuery(Filtering.ConvertToGraphFilter(filter), count), headers, None)]
                && r == ScimListAnswer(Groups, transport(sent[0]), startIndex, count)
    {
      r, sent := ListFirstPage(Groups, filter, startIndex, count, transport);
    }

    /** `create_user`: as in `EntraGraphService`, with transport errors let through. */
    method CreateUser(data: Dict, hash: Json -> int, transport: Transport)
      returns (r: Result<Json>, sent: seq<Request>)
      ensures !UserMapping.ScimShaped(data) ==> r == Fail(Unhandled) && sent == []
      ensures UserMapping.ScimShaped(data) && !Hashable(Get(data, "userName", Null)) ==> r == Fail(Unhandled) && sent == []
      ensures UserMapping.ScimShaped(data) && Hashable(Get(data, "userName", Null)) ==>
                && sent == [Request(HttpPost, graphApiBase + "/users", headers,
                                    Some(WithPasswordProfile(UserMapping.FromScim(data), hash)))]
                && r == Created(PassThrough, Users, transport(sent[0]))
    {
      if !UserMapping.ScimShaped(data) {
        r, sent := Fail(Unhandled), [];
        return;
      }
      var graphUser := UserMapping.FromScim(data);
      UserCheckNeverFires(data);
      ghost var upn := Get(data, "userName", Null);
      assert "userPrincipalName" in graphUser && graphUser["userPrincipalName"] == upn && "passwordProfile" !in graphUser;
      if "userPrincipalName" !in graphUser {
        r, sent := Fail(HttpError(400, UserPrincipalNameRequired)), [];
      } else if "passwordProfile" !in graphUser && !Hashable(graphUser["userPrincipalName"]) {
        r, sent := Fail(Unhandled), [];
      } else {
        ghost var mapped := graphUser;
        if "passwordProfile" !in graphUser {
          graphUser := graphUser["passwordProfile" := PasswordProfile(graphUser["userPrincipalName"], hash)];
        }
        assert graphUser == WithPasswordProfile(mapped, hash);
        var reply;
        DispatchOfVerbs();
        reply, sent := MakeRequest("post", "/users", Some(graphUser), transport);
        r := MappedBack(Users, reply);
      }
    }

    /** `create_group`: as in `EntraGraphService`, with transport errors let through. */
    method CreateGroup(data: Dict, transport: Transport)
      returns (r: Result<Json>, sent: seq<Request>)
      ensures !GroupMapping.ScimShaped(data) ==> r == Fail(Unhandled) && sent == []
      ensures GroupMapping.ScimShaped(data) ==>
                && sent == [Request(HttpPost, graphApiBase + "/groups", headers,
                                    Some(WithGroupDefaults(GroupMapping.FromScim(data))))]
                && r == Created(PassThrough, Groups, transport(sent[0]))
    {
      if !GroupMapping.ScimShaped(data) {
        r, sent := Fail(Unhandled), [];
        return;
      }
      var graphGroup := GroupMapping.FromScim(data);
      if "displayName" !in graphGroup {
        r, sent := Fail(HttpError(400, DisplayNameRequired)), [];
      } else {
        if "securityEnabled" !in graphGroup {
          graphGroup := graphGroup["securityEnabled" := Bool(true)];
        }
        if "mailEnabled" !in graphGroup {
          graphGroup := graphGroup["mailEnabled" := Bool(false)];
        }
        var reply;
        DispatchOfVerbs();
        reply, sent := MakeRequest("post", "/groups", Some(graphGroup), transport);
        r := MappedBack(Groups, reply);
      }
    }
  }
}
