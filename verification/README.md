# SCIM 2.0 over Microsoft Graph — a Dafny model

This project models the translation layer of a SCIM 2.0 server (RFC 7643 and
RFC 7644) that keeps no directory of its own: every SCIM request is turned
into a Microsoft Graph request against Entra ID, and each Graph answer is
turned back into SCIM. The model covers these parts:

- **Filter translation**, `SCIMFilter.convert_to_graph_filter` (module
  `Filtering`). It covers the one-clause filter grammar, the attribute and
  operator tables, the `pr` operator and the typing of values.
- **Mappers** between SCIM resources and Graph objects, for users, groups,
  applications and service principals (modules `UserMapping`, `GroupMapping`,
  `ApplicationMapping` and `ServicePrincipalMapping`). For each resource the
  model gives both directions and proves what survives a round trip.
- **Upstream calls**, `_make_request` (module `Upstream`). This covers verb
  dispatch, the error-status check, the error message taken from the Graph
  error body, and what a transport error becomes.
- **List queries and envelopes** (modules `Paging` and `Listing`). This covers
  the `$filter`/`$skip`/`$top`/`$count` query, the total-count fallback and the
  SCIM ListResponse.
- **Create operations** (module `Provisioning`). This covers the temporary
  password profile, the group defaults and the required-key checks.
- **The two services as classes**:
  - `GraphService.EntraGraphService` pages through all four resource kinds and
    turns transport errors into 503.
  - `ScimService.SCIMService` is the earlier service for users and groups. It
    serves only the first page and lets transport errors through.

JSON values are the datatype `Json.Json`, and a JSON object is a `map<string, Json>`.
The Python behaviours the source relies on are written out explicitly:
truthiness, `dict.get` with a default, `str()`, `in`, `len`, iteration,
`strip`, `lower`, `split` and `join`. Where the source would raise on an input
it cannot handle, the model states that precondition as a shape predicate
(`ScimShaped`, `NativeShaped`), or returns the failure `Unhandled`.

Each service method takes the transport as a function parameter
(`Transport = Request -> Outcome`). It returns its result together with the
requests it sent. The contract of each method names exactly those requests
(none when the method stops early). It also equates the result with an
answer function of the outcome, such as `GraphListAnswer`, `ScimListAnswer`
or `Created`, and separate lemmas prove what those answers are on a page, on
an error status and on a transport error.

Behaviour of the code worth knowing, each point proved by the members named:

- `displayName pr` with nothing after the operator translates to the empty
  filter, because the pattern needs whitespace after the operator. Only
  `displayName pr ` with a trailing blank yields `displayName ne null`. See
  `Filtering.TranslatePresentWithoutBlankExample` and
  `Filtering.TranslatePresentExample`.
- The 400 checks for a missing user principal name in `create_user`, and for
  a missing display name in `create_group` and `create_application`, can never
  fire. The mappers always emit `userPrincipalName` (null when absent) and
  `displayName` ("" when absent). See `Provisioning.UserCheckNeverFires`,
  `Provisioning.ScimGroupGetsDefaults` and
  `Provisioning.ApplicationCheckNeverFires`. Only the `appId` check of
  `create_service_principal` is live.
- The SCIM-to-Graph mappers write `displayName` and `description` as "" and
  `accountEnabled` as true when they are absent. See
  `UserMapping.FromScimFields`, `GroupMapping.FromScim` and
  `ApplicationMapping.FromScim`.
- `SCIMService` reports as `totalResults` the number of resources on the
  returned page, whatever count Graph gives
  (`Listing.FirstPageIgnoresUpstreamCount`). `EntraGraphService` uses
  `@odata.count`, falling back to the page length.
- A status from 300 to 399 is not an error. Only a status of 400 or more is
  converted (`Upstream.CheckStatus`).

## Model

| member | source | states |
|---|---|---|
| Filtering.ParseSimpleFilter | scim_server/utils/filtering.py:43-61 | When the pattern matches, the attribute and operator groups are non-empty runs without whitespace and the value group holds no double quote |
| Filtering.ParseComposed | scim_server/utils/filtering.py:43-61 | A filter built from an attribute token, a blank, an operator token, a blank and an optionally quoted value parses to exactly that attribute, operator and value |
| Filtering.ParseIsWellSplit | scim_server/utils/filtering.py:43-61 | Conversely, every text that parses is such a composition of its own attribute, operator and value with blanks, an optional opening quote and a rest that starts at a double quote |
| Filtering.ParseFailsWithoutSecondBlank | scim_server/utils/filtering.py:49-53 | Without whitespace after the operator the pattern does not match and parsing yields nothing |
| Filtering.ParseFailsOnLeadingSpace | scim_server/utils/filtering.py:49-53 | A filter that is empty or starts with whitespace does not parse |
| Filtering.ConvertToGraphFilter | scim_server/utils/filtering.py:64-102 | The translation is non-empty exactly when a filter is given, it parses, and its operator is in the operator table |
| Filtering.TranslatedFilterReadsBack | scim_server/utils/filtering.py:76-102 | Read back by an independent OData comparison reader, the translation of any parsed filter is the Graph property of its attribute, the Graph operator and the typed value; `pr` reads back as `ne null` |
| Filtering.TranslateComposed | scim_server/utils/filtering.py:64-102 | The same three outcomes, stated for every well-split filter text |
| Filtering.TranslateIgnoresTail | scim_server/utils/filtering.py:49-50 | Anything after the closing quote of a quoted value is ignored |
| Filtering.TranslateNothing | scim_server/utils/filtering.py:68-74 | No filter, or one that does not parse, translates to "" |
| Filtering.GraphAttribute | scim_server/utils/filtering.py:81 | The Graph property of an attribute that is a single word is a single word |
| Filtering.AttributeTable | scim_server/utils/filtering.py:28-40 | `userName` and `externalId` map to `userPrincipalName`; unmapped names pass through unchanged |
| Filtering.RenderValue | scim_server/utils/filtering.py:93-102 | The rendered value is quoted exactly when the heuristic types it as a string, not a boolean or an integer |
| Filtering.RenderedValueReadsBack | scim_server/utils/filtering.py:93-102 | Read back as an OData literal, a rendered value is the boolean (any case), the integer (all digits) or the string it was typed as |
| Filtering.LoneQuoteIsMalformed | scim_server/utils/filtering.py:102 | A value with a single quote that is not doubled is quoted without escaping, and the literal sent upstream does not read back |
| Filtering.TranslateUserNameExample | scim_server/utils/filtering.py:64-102 | `userName eq "a@b.com"` becomes `userPrincipalName eq 'a@b.com'` |
| Filtering.TranslateBooleanExample | scim_server/utils/filtering.py:93-95 | `active eq True` becomes `accountEnabled eq true` |
| Filtering.TranslateUnquotedExample | scim_server/utils/filtering.py:49-50 | An unquoted value runs to the end of the filter, spaces included |
| Filtering.TranslatePresentWithoutBlankExample | scim_server/utils/filtering.py:49-53 | `displayName pr` translates to "" because no whitespace follows the operator |
| Filtering.TranslatePresentExample | scim_server/utils/filtering.py:90-91 | `displayName pr ` translates to `displayName ne null` |
| Filtering.SpanIsLongestRun | scim_server/utils/filtering.py:49 | Each greedy run of the pattern is the longest run of its character class |
| UserMapping.ToScim | scim_server/models/user.py:20-61 | `emails` is present exactly when `mail` is truthy, and `phoneNumbers` exactly when `businessPhones` is truthy |
| UserMapping.ToScimKeys | scim_server/models/user.py:45-59 | The SCIM user always has the base keys and at most `emails` and `phoneNumbers` besides |
| UserMapping.ToScimFields | scim_server/models/user.py:22-53 | The schema, id, userName and externalId (both the principal name), displayName, active (true when absent) and the name object |
| UserMapping.ToScimEmails | scim_server/models/user.py:28-34 | The single work email is primary and carries `mail` |
| UserMapping.ToScimPhones | scim_server/models/user.py:36-42 | One work phone entry per business phone, in order |
| UserMapping.FromScim | scim_server/models/user.py:64-87 | `mail` is present exactly when a primary email with a truthy value exists |
| UserMapping.FirstPrimaryValue | scim_server/models/user.py:81-85 | The value the loop settles on is truthy; which one it is, is stated by FirstPrimaryValueIsFirst |
| UserMapping.FirstPrimaryValueIsFirst | scim_server/models/user.py:81-85 | The value of the first qualifying email: every entry before it does not qualify, and none qualifies when the result is absent |
| UserMapping.FromScimKeys | scim_server/models/user.py:66-85 | The Graph user always has the base keys and no keys outside the user key set |
| UserMapping.FromScimFields | scim_server/models/user.py:66-85 | Principal name, display name ("" when absent), enabled flag (true when absent); given name, surname and mail each exactly when the source value is truthy |
| UserMapping.GraphRoundTrip | scim_server/models/user.py:20-87 | Graph to SCIM and back gives the core profile: the principal name, display name and enabled flag, and the given name, surname and mail when truthy |
| UserMapping.GraphRoundTripEntry | scim_server/models/user.py:20-87 | The round trip, key by key |
| UserMapping.ScimRoundTripIsStable | scim_server/models/user.py:20-87 | A mapped SCIM user is its own core profile, and a further round trip changes nothing |
| UserMapping.ScimRoundTrip | scim_server/models/user.py:20-87 | SCIM to Graph and back keeps userName (as userName and externalId), active and displayName |
| UserMapping.ScimRoundTripEmails | scim_server/models/user.py:28-34 | After SCIM to Graph and back, the only email left is the first primary one, and no phone numbers remain |
| UserMapping.ToScimIsShaped | scim_server/models/user.py:20-87 | Every SCIM user the mapper emits can be mapped back |
| UserMapping.FromScimIsNative | scim_server/models/user.py:20-87 | Every Graph user the mapper emits can be mapped to SCIM |
| UserMapping.FormattedName | scim_server/models/user.py:23 | The formatted name is empty or has no leading or trailing whitespace |
| UserMapping.FormattedNameOfBothParts | scim_server/models/user.py:23 | Trimmed given name and surname are joined with one space |
| UserMapping.FormattedNameOfGivenNameOnly | scim_server/models/user.py:23 | Without a surname the trailing space is stripped |
| UserMapping.FormattedNameOfNullGivenName | scim_server/models/user.py:23 | A null given name renders as `None` |
| GroupMapping.LastSegment | scim_server/models/group.py:34 | The member id holds no "/" |
| GroupMapping.LastSegmentAfterSlash | scim_server/models/group.py:34 | The member id is the text after the last "/", whatever precedes it; a text without "/" is its own id |
| GroupMapping.LastSegmentOfTrailingSlash | scim_server/models/group.py:34 | A URL ending in "/" yields an empty member id |
| GroupMapping.MemberEntries | scim_server/models/group.py:30-38 | One `{value: id}` entry per bound URL, in order |
| GroupMapping.ToScim | scim_server/models/group.py:20-40 | `members` is present exactly when the bind list is present and non-empty |
| GroupMapping.ToScimKeys | scim_server/models/group.py:22-38 | The base keys and at most `members` |
| GroupMapping.ToScimFields | scim_server/models/group.py:22-27 | The schema, id and display name |
| GroupMapping.ToScimMembers | scim_server/models/group.py:30-38 | Each member entry carries the last segment of its URL, in order |
| GroupMapping.MemberUrls | scim_server/models/group.py:50-57 | At most one URL per member, each a string |
| GroupMapping.FromScim | scim_server/models/group.py:43-59 | The display name ("" when absent); the bind list exactly when some member has a truthy value |
| GroupMapping.MemberUrlsEmpty | scim_server/models/group.py:50-57 | No URL is produced exactly when no member has a truthy value |
| GroupMapping.LastSegmentOfCanonical | scim_server/models/group.py:34 | The last segment of a directory-object URL is the id it was built from |
| GroupMapping.MemberUrlsOfEntries | scim_server/models/group.py:20-59 | Bound URLs of plain ids survive member entries and back unchanged |
| GroupMapping.GraphRoundTrip | scim_server/models/group.py:20-59 | Graph to SCIM and back keeps the display name and the bound member URLs |
| GroupMapping.EntriesOfMemberUrls | scim_server/models/group.py:20-59 | SCIM members with slash-free values come back as their truthy values, in order |
| GroupMapping.ScimRoundTrip | scim_server/models/group.py:20-59 | SCIM to Graph and back keeps the display name and the members whose value is truthy |
| ApplicationMapping.ToScim | scim_server/models/application.py:19-43 | `requiredResourceAccess` is copied exactly when present |
| ApplicationMapping.ToScimKeys | scim_server/models/application.py:22-41 | The base keys and at most `requiredResourceAccess` |
| ApplicationMapping.ToScimFields | scim_server/models/application.py:22-36 | The schema; `isEnabled` is the negated truthiness of `disabledByMicrosoftStatus` |
| ApplicationMapping.ToScimWeb | scim_server/models/application.py:28-32 | Identifier URIs (default []) and the web object's redirect URIs (default []) and implicit grant settings (default {}) |
| ApplicationMapping.ToScimCopies | scim_server/models/application.py:22-37 | The display name, description, app id, publisher domain and creation time are copied, null when absent |
| ApplicationMapping.ToScimAudience | scim_server/models/application.py:22-37 | The id and sign-in audience are copied, null when absent |
| ApplicationMapping.TruthySettings | scim_server/models/application.py:59-66 | The web settings kept are those present and truthy, with their values |
| ApplicationMapping.FromScim | scim_server/models/application.py:46-76 | Display name and description always; identifier URIs and web when truthy; sign-in audience and required access whenever present |
| ApplicationMapping.FromScimKeys | scim_server/models/application.py:49-74 | No keys outside the application key set |
| ApplicationMapping.FromScimCopies | scim_server/models/application.py:49-74 | Display name and description default to ""; the other keys are copied as given, `web` filtered to truthy settings |
| ApplicationMapping.WebCanBeEmpty | scim_server/models/application.py:59-66 | A truthy web object without truthy settings maps to an empty web object |
| ApplicationMapping.WebStringGivesEmptyObject | scim_server/models/application.py:59-66 | A web string that contains neither setting name maps to an empty web object |
| ApplicationMapping.GraphRoundTrip | scim_server/models/application.py:19-76 | Graph to SCIM and back gives the kept application |
| ApplicationMapping.GraphRoundTripField | scim_server/models/application.py:19-76 | The round trip, key by key |
| ApplicationMapping.KeptApplicationIsStable | scim_server/models/application.py:19-76 | A further round trip of the kept application changes nothing |
| ServicePrincipalMapping.ToScim | scim_server/models/service_principal.py:19-47 | `appRoles` and `oauth2PermissionScopes` are present exactly when Graph has them |
| ServicePrincipalMapping.ToScimKeys | scim_server/models/service_principal.py:22-45 | The base keys and at most those two |
| ServicePrincipalMapping.ToScimDefaults | scim_server/models/service_principal.py:22-37 | The schema; the role-assignment flag (false), reply URLs ([]), tags ([]) and enabled flag (true) when absent |
| ServicePrincipalMapping.ToScimCopies | scim_server/models/service_principal.py:22-45 | The remaining keys are copied, null when absent |
| ServicePrincipalMapping.FromScim | scim_server/models/service_principal.py:50-86 | The display name and description are always present |
| ServicePrincipalMapping.FromScimKeys | scim_server/models/service_principal.py:53-84 | No keys outside the service principal key set |
| ServicePrincipalMapping.FromScimFields | scim_server/models/service_principal.py:53-84 | Display name and description default to ""; presence-guarded keys are copied when present, tags and reply URLs when truthy |
| ServicePrincipalMapping.GraphRoundTripEntry | scim_server/models/service_principal.py:19-86 | The round trip, key by key, against the kept service principal |
| ServicePrincipalMapping.GraphRoundTrip | scim_server/models/service_principal.py:19-86 | Graph to SCIM and back gives the kept service principal |
| ServicePrincipalMapping.KeptServicePrincipalIsStable | scim_server/models/service_principal.py:19-86 | A further round trip of the kept service principal changes nothing |
| Upstream.Dispatch | scim_server/services/graph.py:39-48 | PATCH exactly for "put" and "patch" in any case; no verb exactly for names outside get, post, put, patch and delete |
| Upstream.DispatchIgnoresCase | scim_server/services/graph.py:39-48 | Dispatch depends only on the lower-cased name |
| Upstream.BodyFor | scim_server/services/graph.py:40-46 | A payload goes out only with POST and PATCH, and it is the given one |
| Upstream.ErrorMessage | scim_server/services/graph.py:51-55 | A body that is not JSON gives the response text, or "Unknown error" when the text is empty |
| Upstream.ErrorMessageOfGraphError | scim_server/services/graph.py:52-53 | Any object body whose `error` object holds a string `message` yields that message, whatever else either object holds |
| Upstream.ErrorMessageDefaults | scim_server/services/graph.py:52-53 | Any object body without `error`, or whose error object has no `message`, gives "Unknown error" |
| Upstream.ErrorMessageOfList | scim_server/services/graph.py:52-55 | A JSON list body has no `.get` and falls back to the text |
| Upstream.CheckStatus | scim_server/services/graph.py:50-62 | Success exactly below 400, returning the reply unchanged; otherwise that status with "Graph API error: " and the message |
| Upstream.Settle | scim_server/services/graph.py:38-67 | Success exactly for a delivered reply below 400; a transport error becomes 503 "Error connecting to Graph API: ..." or is passed through, by policy |
| Upstream.ServiceUnavailableFailsAsHttpError | scim_server/services/graph.py:50-67 | Under the Graph service's policy every failure is an HTTP error with a status of 400 or more |
| Upstream.PoliciesDifferOnlyOnTransport | scim_server/services/scim.py:26-56 | The two services settle an outcome alike exactly when it was delivered |
| Upstream.ReplyObject | scim_server/services/graph.py:90 | A reply yields an object exactly when its JSON is an object |
| Paging.Skip | scim_server/services/graph.py:74 | The skip is one less than a start index of 1 or more, and 0 otherwise |
| Paging.GraphParams | scim_server/services/graph.py:77-83 | At least two pieces, the last always `$count=true` |
| Paging.ReadGraphParams | scim_server/services/graph.py:77-83 | The pieces read back as the filter, skip and page size they were built from, with the count requested |
| Paging.GraphQueryString | scim_server/services/graph.py:86 | The query string always starts with "?"; its contents are stated by GraphQueryReadsBack |
| Paging.GraphQueryReadsBack | scim_server/services/graph.py:74-86 | The query string reads back as its filter, skip, page size and count request when the filter holds no "&" |
| Paging.GraphQuery | scim_server/services/graph.py:74-86 | The params built by appending, and the query, equal the specified pieces and query string |
| Paging.ReadPiecesSnoc | scim_server/services/graph.py:77-86 | An appended piece is read after all the pieces before it |
| Paging.NumberHasNoAmpersand | scim_server/services/graph.py:81-82 | A rendered number never holds "&" |
| Paging.FirstPageQuery | scim_server/services/scim.py:76-79 | The first-page query always starts with "?" |
| Paging.FirstPageQueryReadsBack | scim_server/services/scim.py:65-79 | The first-page query splits into the filter (when non-empty) and `$top`, and reads back as those with no skip and no count request |
| Listing.MapItems | scim_server/services/graph.py:115 | Items map exactly when they are iterable and all mappable; the result has one mapped entry per item, in order |
| Listing.MapItemsOfList | scim_server/services/graph.py:115 | A list of mappable items maps to its item-by-item mapping |
| Listing.ListResponse | scim_server/services/graph.py:117-123 | The envelope has exactly the schema, total, start index, page size and resources keys |
| Listing.PageOf | scim_server/services/graph.py:90-98 | `value` defaults to []; the total is `@odata.count` when present and the length of `value` otherwise; the page fails when `value` has no length |
| Listing.TotalFallsBackToPageLength | scim_server/services/graph.py:93 | Without `@odata.count` the total is the number of items |
| Listing.PagedList | scim_server/services/graph.py:111-123 | The envelope exists exactly when the items map; its total is the page's total count and its page size is the requested count |
| Listing.GraphFilterOf | scim_server/services/graph.py:107 | A filter is translated exactly when one is given and non-empty |
| Listing.PageAnswer | scim_server/services/graph.py:89-98 | A page is returned only for a delivered reply below 400 whose JSON is an object |
| Listing.GraphListAnswer | scim_server/services/graph.py:102-123 | A failed page is passed on unchanged; a listing has the page's total count as its total and the requested count as its page size |
| Listing.GraphListOfPage | scim_server/services/graph.py:102-123 | A page of mappable items is listed in full, mapped and in order, under `@odata.count` or the item count |
| Listing.GraphListOfTransportError | scim_server/services/graph.py:63-67 | A list request that cannot reach Graph answers 503 |
| Listing.GraphListOfErrorStatus | scim_server/services/graph.py:50-60 | An error status is answered with that status and the Graph error message |
| Listing.FirstPageList | scim_server/services/scim.py:83-94 | The envelope exists exactly when the items map; its total is the number of resources |
| Listing.FirstPageIgnoresUpstreamCount | scim_server/services/scim.py:88-94 | Whatever `@odata.count` Graph reports, or none, the first-page envelope is the same and its total counts only the page |
| Listing.ScimListAnswer | scim_server/services/scim.py:82-94 | A listing succeeds only for a delivered reply below 400 |
| Listing.ScimListOfPage | scim_server/services/scim.py:82-94 | A page of mappable items is listed in full, mapped and in order, with its own length as the total |
| Listing.ScimListOfTransportError | scim_server/services/scim.py:32-56 | A transport error reaches the caller unconverted |
| Provisioning.PasswordProfile | scim_server/services/graph.py:149-153 | The profile forces a change at first sign-in; the password is "TemporaryP@ss" followed by one to eight characters of the rendered hash |
| Provisioning.WithPasswordProfile | scim_server/services/graph.py:149-153 | A password profile is added only when absent, and every existing field is kept |
| Provisioning.UserCheckNeverFires | scim_server/services/graph.py:139-146 | The mapped user always has a principal name (the SCIM userName) and no password profile, so the 400 check never fires |
| Provisioning.ScimUserGetsPasswordProfile | scim_server/services/graph.py:139-153 | Every SCIM user is posted with a profile keyed to its user name |
| Provisioning.WithGroupDefaults | scim_server/services/graph.py:231-235 | The security flag defaults to true and the mail flag to false; existing fields are never overwritten |
| Provisioning.GroupDefaultsIdempotent | scim_server/services/graph.py:231-235 | Adding the defaults twice adds nothing more |
| Provisioning.ScimGroupGetsDefaults | scim_server/services/graph.py:221-235 | The display-name check never fires, and a mapped group is always posted as a security group without mail |
| Provisioning.ApplicationCheckNeverFires | scim_server/services/graph.py:303-310 | The mapped application always has a display name |
| Provisioning.ServicePrincipalCheck | scim_server/services/graph.py:378-385 | The mapped service principal has an app id exactly when the SCIM resource does |
| Provisioning.Created | scim_server/services/graph.py:156-159 | Success exactly for a settled reply whose JSON is a mappable object; the answer is that object mapped back to SCIM |
| Provisioning.CreatedGroupEchoesDisplayName | scim_server/services/graph.py:216-241 | When Graph echoes the posted group, the answer carries the display name that was sent |
| GraphService.EntraGraphService.constructor | scim_server/services/graph.py:20-29 | The bearer token and JSON content type headers, and the v1.0 base URL |
| GraphService.EntraGraphService.MakeRequest | scim_server/services/graph.py:31-67 | An unknown verb sends nothing; otherwise exactly one request to base plus endpoint, settled with transport errors as 503 |
| GraphService.EntraGraphService.PaginatedRequest | scim_server/services/graph.py:69-98 | One GET with the paged query string; the result is the page read from the reply |
| GraphService.EntraGraphService.List | scim_server/services/graph.py:102-123 | One GET of the kind's collection with the translated filter; the result is the Graph list answer |
| GraphService.EntraGraphService.GetUsers | scim_server/services/graph.py:102-123 | One paged GET of /users; the result is the Graph list answer |
| GraphService.EntraGraphService.GetGroups | scim_server/services/graph.py:184-205 | One paged GET of /groups; the result is the Graph list answer |
| GraphService.EntraGraphService.GetApplications | scim_server/services/graph.py:266-287 | One paged GET of /applications; the result is the Graph list answer |
| GraphService.EntraGraphService.GetServicePrincipals | scim_server/services/graph.py:341-362 | One paged GET of /servicePrincipals; the result is the Graph list answer |
| GraphService.EntraGraphService.CreateUser | scim_server/services/graph.py:134-159 | An unmappable user or unhashable user name sends nothing; otherwise one POST of the mapped user with its password profile, answered by `Created` |
| GraphService.EntraGraphService.CreateGroup | scim_server/services/graph.py:216-241 | One POST of the mapped group with its defaults, answered by `Created` |
| GraphService.EntraGraphService.CreateApplication | scim_server/services/graph.py:298-316 | One POST of the mapped application, answered by `Created` |
| GraphService.EntraGraphService.CreateServicePrincipal | scim_server/services/graph.py:373-391 | Without `appId`, 400 and nothing sent; otherwise one POST of the mapped service principal, answered by `Created` |
| ScimService.SCIMService.constructor | scim_server/services/scim.py:18-24 | Only the bearer token header, and the v1.0 base URL |
| ScimService.SCIMService.MakeRequest | scim_server/services/scim.py:26-56 | An unknown verb sends nothing; otherwise exactly one request, with transport errors passed through |
| ScimService.SCIMService.ListFirstPage | scim_server/services/scim.py:60-94 | A start index other than 1 is refused with 400 and nothing sent; otherwise one GET with the first-page query, answered by the first-page listing |
| ScimService.SCIMService.GetUsers | scim_server/services/scim.py:60-94 | The first-page listing of /users |
| ScimService.SCIMService.GetGroups | scim_server/services/scim.py:155-189 | The first-page listing of /groups |
| ScimService.SCIMService.CreateUser | scim_server/services/scim.py:105-130 | As in the Graph service, with transport errors passed through |
| ScimService.SCIMService.CreateGroup | scim_server/services/scim.py:200-225 | As in the Graph service, with transport errors passed through |

## Left out

- HTTP itself, `httpx` and `async`: the transport is a parameter of every service method, and a request's outcome is whatever the transport returns.
- The single-resource reads and the update and delete operations (`get_user`, `update_user`, `delete_user` and the like for every kind) are not part of this model; only listing and creation are.
- The compensating create-application-then-service-principal flow, the authentication, the web routes, the request schemas and the configuration are not part of this model.
- Provisioning.PasswordProfile: Python's `hash()` is salted per process, so the hash is a parameter; only the prefix, the eight-character cut and the forced change are modelled.
- Python exceptions (`TypeError`, `AttributeError`, `KeyError`, `ValueError` from an unsupported verb) are collapsed into the failures `Unhandled` and `UnsupportedMethod`, or into shape preconditions on the mappers.
- Dictionary key order is not modelled: JSON objects are maps.
- `str()` of a list or a dictionary is a fixed placeholder, not its Python repr; floats are not modelled (JSON numbers are integers).
- Unicode: `lower` and `isdigit` are modelled on ASCII letters and digits only; whitespace is the set `str.isspace` recognises.
- URL encoding of query strings is not modelled. Paging.GraphQueryReadsBack and Paging.FirstPageQueryReadsBack require a filter fragment without "&", since an "&" in the fragment would be read as a separator.
- Filtering.TranslatedFilterReadsBack: the typed-value reading is promised only for values without a single quote, because the code does not escape quotes; Filtering.LoneQuoteIsMalformed states what happens to the others.
- Iterating a non-empty dictionary (which yields its keys) is treated as not mappable.
