/**
 * The browser's API client: every request passes through an interceptor that
 * attaches the stored token as a bearer credential, and the campaign and
 * submission services build the method, path and body of each call. Paths are
 * relative to the API base URL, as are the route tables.
 */
module ApiClient {
  import opened Wrappers
  import opened Js
  import opened Auth
  import opened Routes
  import CampaignModel
  import SubmissionController

  const TokenKey := "authToken"
  const AuthorizationHeader := "Authorization"

  /** `localStorage`: string keys to string values. */
  class Storage {
    var items: map<string, string>

    constructor (items: map<string, string>)
      ensures this.items == items
    {
      this.items := items;
    }

    /** `getItem`: the stored value, or null. */
    function GetItem(key: string): (r: Option<string>)
      reads this
      ensures r.Some? <==> key in items
      ensures r.Some? ==> r.value == items[key]
    {
      if key in items then Some(items[key]) else None
    }

    /** `removeItem`: the key is gone and every other entry is as it was. */
    method RemoveItem(key: string)
      modifies this
      ensures items == old(items) - {key}
    {
      items := items - {key};
    }
  }

  /** `authService.logout`: only the token is removed. */
  method Logout(storage: Storage)
    modifies storage
    ensures TokenKey !in storage.items
    ensures forall k :: k != TokenKey ==> (k in storage.items <==> k in old(storage.items))
    ensures forall k :: k in storage.items ==> storage.items[k] == old(storage.items)[k]
  {
    storage.RemoveItem(TokenKey);
  }

  /** The headers of an outgoing request, which the interceptor may change. */
  class RequestConfig {
    var headers: map<string, string>

    constructor (headers: map<string, string>)
      ensures this.headers == headers
    {
      this.headers := headers;
    }
  }

  /**
   * The Authorization header the interceptor sends for a stored token: the
   * `Bearer ` prefix and the token when the token is a non-empty string
   * (`if (token)`), and none otherwise.
   */
  function AuthorizationFor(stored: Option<string>): (r: Option<string>)
    ensures r.Some? <==> stored.Some? && stored.value != ""
    ensures r.Some? ==> r.value == BearerPrefix + stored.value
  {
    if stored.Some? && stored.value != "" then Some(BearerPrefix + stored.value) else None
  }

  /** The request interceptor: set the Authorization header when a token is stored, otherwise leave the headers alone. */
  method Intercept(config: RequestConfig, storage: Storage)
    modifies config
    ensures AuthorizationFor(storage.GetItem(TokenKey)).Some? ==>
      config.headers == old(config.headers)[AuthorizationHeader := AuthorizationFor(storage.GetItem(TokenKey)).value]
    ensures AuthorizationFor(storage.GetItem(TokenKey)).None? ==> config.headers == old(config.headers)
  {
    var token := storage.GetItem(TokenKey);
    if token.Some? && token.value != "" {
      config.headers := config.headers[AuthorizationHeader := "Bearer " + token.value];
    }
  }

  /** Stripping the 7-character prefix on the server gives back exactly the stored token. */
  lemma TokenRoundTrip(token: string)
    requires token != ""
    ensures ExtractToken(AuthorizationFor(Some(token))) == Some(token)
  {
    var header := BearerPrefix + token;
    assert header[..7] == BearerPrefix;
    assert header[7..] == token;
  }

  /**
   * The role the server sees for a client request is the role of the stored
   * token's claims; with no token, or an empty one, there is none and the server
   * answers "No token provided".
   */
  lemma ClientRole(stored: Option<string>, verify: string -> Option<Claims>)
    ensures stored.None? || stored.value == "" ==>
      RoleOf(AuthorizationFor(stored), verify).None?
      && Authenticated(AuthorizationFor(stored), verify) == Rejected(NoTokenMessage)
    ensures stored.Some? && stored.value != "" ==>
      RoleOf(AuthorizationFor(stored), verify)
        == (if verify(stored.value).Some? then Some(verify(stored.value).value.role) else None)
  {
    if stored.Some? && stored.value != "" {
      TokenRoundTrip(stored.value);
    }
  }

  // ---------------------------------------------------------------- requests

  /** A request body: a campaign, a submission `{ campaignId, data }`, or nothing. */
  datatype Payload =
    | NoBody
    | CampaignBody(campaign: CampaignModel.CampaignInput)
    | SubmissionBody(campaignId: string, data: Object)

  datatype ClientRequest = ClientRequest(verb: Verb, path: string, body: Payload)

  function CampaignPath(id: string): string
  {
    "/campaigns/" + id
  }

  function ListingPath(campaignId: string): string
  {
    "/submissions/campaign/" + campaignId
  }

  /** `campaignService`. */
  function GetAllCampaigns(): ClientRequest
  {
    ClientRequest(Get, "/campaigns", NoBody)
  }

  function GetCampaign(id: string): ClientRequest
  {
    ClientRequest(Get, CampaignPath(id), NoBody)
  }

  function CreateCampaignRequest(data: CampaignModel.CampaignInput): ClientRequest
  {
    ClientRequest(Post, "/campaigns", CampaignBody(data))
  }

  function UpdateCampaignRequest(id: string, data: CampaignModel.CampaignInput): ClientRequest
  {
    ClientRequest(Put, CampaignPath(id), CampaignBody(data))
  }

  function DeleteCampaignRequest(id: string): ClientRequest
  {
    ClientRequest(Delete, CampaignPath(id), NoBody)
  }

  /** `submissionService`. */
  function CreateSubmissionRequest(campaignId: string, data: Object): ClientRequest
  {
    ClientRequest(Post, "/submissions", SubmissionBody(campaignId, data))
  }

  function ListSubmissionsRequest(campaignId: string): ClientRequest
  {
    ClientRequest(Get, ListingPath(campaignId), NoBody)
  }

  function ExportRequest(campaignId: string): (r: ClientRequest)
    ensures r.path == ListSubmissionsRequest(campaignId).path + "/export"
  {
    ClientRequest(Get, ListingPath(campaignId) + "/export", NoBody)
  }

  /** The server's `const { campaignId, data } = req.body`, for a submission body. */
  function ServerReads(body: Payload, ip: Option<string>, userAgent: Option<string>): SubmissionController.SubmissionRequest
  {
    match body
    case SubmissionBody(campaignId, data) => SubmissionController.SubmissionRequest(Some(campaignId), Some(data), ip, userAgent)
    case _ => SubmissionController.SubmissionRequest(None, None, ip, userAgent)
  }

  /** The body the client posts carries exactly the fields the server destructures. */
  lemma SubmissionBodyMatchesServer(campaignId: string, data: Object, ip: Option<string>, userAgent: Option<string>)
    ensures var req := ServerReads(CreateSubmissionRequest(campaignId, data).body, ip, userAgent);
      req.campaignId == Some(campaignId) && req.data == Some(data) && req.ip == ip && req.userAgent == userAgent
  {
  }

  /** Where a client request lands on the server: its handler and path parameters. */
  function Lands(r: ClientRequest): Option<(Handler, map<string, string>)>
  {
    match Resolve(Table, r.verb, r.path)
    case None => None
    case Some((route, params)) => Some((route.handler, params))
  }

  /** Each campaign call reaches the matching campaign handler, with the id as `id`. */
  lemma CampaignCallsLand(id: string, data: CampaignModel.CampaignInput)
    requires PlainSegment(id)
    ensures Lands(GetAllCampaigns()) == Some((GetCampaigns, map[]))
    ensures Lands(GetCampaign(id)) == Some((GetCampaignById, map["id" := id]))
    ensures Lands(CreateCampaignRequest(data)) == Some((CreateCampaign, map[]))
    ensures Lands(UpdateCampaignRequest(id, data)) == Some((UpdateCampaign, map["id" := id]))
    ensures Lands(DeleteCampaignRequest(id)) == Some((DeleteCampaign, map["id" := id]))
  {
    ResolveCampaignList();
    ResolveCampaignCreate();
    ResolveCampaignById(Get, id);
    ResolveCampaignById(Put, id);
    ResolveCampaignById(Delete, id);
  }

  /** Each submission call reaches the matching submission handler, with the campaign id as `campaignId`. */
  lemma SubmissionCallsLand(campaignId: string, data: Object)
    requires PlainSegment(campaignId)
    ensures Lands(CreateSubmissionRequest(campaignId, data)) == Some((CreateSubmission, map[]))
    ensures Lands(ListSubmissionsRequest(campaignId)) == Some((GetSubmissionsByCampaign, map["campaignId" := campaignId]))
    ensures Lands(ExportRequest(campaignId)) == Some((ExportSubmissions, map["campaignId" := campaignId]))
  {
    ResolveIntake();
    ResolveListing(campaignId);
    ResolveExport(campaignId);
  }

  /** A signed-in client can delete a campaign exactly when its stored token verifies with the admin role. */
  lemma ClientDelete(stored: Option<string>, id: string, verify: string -> Option<Claims>)
    requires PlainSegment(id)
    ensures Access(Delete, DeleteCampaignRequest(id).path, AuthorizationFor(stored), verify).Handled? <==>
      stored.Some? && stored.value != "" && verify(stored.value).Some? && verify(stored.value).value.role == "admin"
  {
    ClientRole(stored, verify);
    OnlyAdminDeletes(id, AuthorizationFor(stored), verify);
  }
}
