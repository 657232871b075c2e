/** The session (`PublishMyData`) and the draftset operations it carries out.
    The service is a parameter: a function from the request the client sends
    to the response it gets back. Every operation returns, beside its result,
    the requests it sent, so that "no request" and "exactly one follow-up
    request" can be stated. */
module Client {
  import opened Values
  import opened Arguments
  import opened Records
  import Location

  /** The service address a session records when none is given. */
  const DefaultBaseUrl: string := "https://cogs-staging-drafter.publishmydata.com/v1/"

  /** What the client asks the service to do, with the arguments it sends. */
  datatype Call =
    | PostToken(clientId: string, clientSecret: string, audience: string, grantType: string)
    | GetList(filter: string, unionWithLive: bool)
    | GetOne(id: Json, unionWithLive: bool)
    | PostCreate(displayName: Option<string>, description: Option<string>, unionWithLive: bool)
    | DeleteOne(id: Json, metadata: Option<string>)
    | PostClaim(id: Json)
    | PostSubmit(id: Json, role: Option<string>, user: Option<string>)

  /** A call with the bearer token it carries; the token request carries none. */
  datatype Request = Request(bearer: Option<Json>, call: Call)

  /** A response: its status, its headers under their lower-case names, its
      body as text, and the body decoded as JSON when it is JSON. */
  datatype Response = Response(status: int, headers: map<string, string>, body: string, json: Option<Json>)

  /** The operations that check a response, and the one status each accepts. */
  datatype Operation = Authenticate | List | Fetch | Create | Deletion | Claiming | Submission

  function SuccessStatus(op: Operation): int {
    match op
    case Create => 303
    case Deletion => 202
    case _ => 200
  }

  /** The status check shared by every operation: its one success status
      passes; any other fails with the body, verbatim. */
  function Expect(resp: Response, op: Operation): (o: Outcome)
    ensures o.Pass? <==> resp.status == SuccessStatus(op)
    ensures o.Fail? ==> o.error == RequestFailed(resp.body)
  {
    if resp.status == SuccessStatus(op) then Pass else Fail(RequestFailed(resp.body))
  }

  /** `response.json()`. */
  function JsonBody(resp: Response): (r: Result<Json>)
    ensures r.Ok? <==> resp.json.Some?
    ensures r.Ok? ==> r.value == resp.json.value
    ensures r.Err? ==> r.error == NotJson
  {
    if resp.json.Some? then Ok(resp.json.value) else Err(NotJson)
  }

  /** `get_token`'s reading of the token response: on 200, the value under
      `access_token` in the JSON body. */
  function TokenFrom(resp: Response): (r: Result<Json>)
    ensures r.Ok? <==> resp.status == 200 && resp.json.Some? && resp.json.value.JObj?
                       && "access_token" in resp.json.value.fields
    ensures r.Ok? ==> r.value == resp.json.value.fields["access_token"]
    ensures resp.status != 200 ==> r == Err(RequestFailed(resp.body))
  {
    if Expect(resp, Authenticate).Fail? then Err(Expect(resp, Authenticate).error)
    else match JsonBody(resp)
      case Err(e) => Err(e)
      case Ok(j) =>
        if !j.JObj? then Err(NotSubscriptable)
        else if "access_token" !in j.fields then Err(KeyMissing("access_token"))
        else Ok(j.fields["access_token"])
  }

  /** A listing response: on 200, the draftsets its body decodes to. */
  function ListingFrom(resp: Response): (r: Result<seq<Draftset>>)
    ensures r.Ok? ==> resp.status == 200 && resp.json.Some?
                      && DecodeListing(resp.json.value) == r
    ensures resp.status == 200 && resp.json.Some? ==> r == DecodeListing(resp.json.value)
    ensures resp.status != 200 ==> r == Err(RequestFailed(resp.body))
  {
    if Expect(resp, List).Fail? then Err(Expect(resp, List).error)
    else match JsonBody(resp)
      case Err(e) => Err(e)
      case Ok(j) => DecodeListing(j)
  }

  /** A single-draftset response: on 200, the draftset its body decodes to. */
  function DraftsetFrom(resp: Response): (r: Result<Draftset>)
    ensures r.Ok? ==> resp.status == 200 && resp.json.Some?
                      && DecodeDraftset(resp.json.value) == r
    ensures resp.status == 200 && resp.json.Some? ==> r == DecodeDraftset(resp.json.value)
    ensures resp.status != 200 ==> r == Err(RequestFailed(resp.body))
  {
    if Expect(resp, Fetch).Fail? then Err(Expect(resp, Fetch).error)
    else match JsonBody(resp)
      case Err(e) => Err(e)
      case Ok(j) => DecodeDraftset(j)
  }

  /** A creation response: on 303, the id after the last slash of the
      `location` header; the redirect itself is never followed. */
  function CreatedIdFrom(resp: Response): (r: Result<string>)
    ensures r.Ok? <==> resp.status == 303 && "location" in resp.headers
    ensures r.Ok? ==> '/' !in r.value && Location.LastSegment(resp.headers["location"]) == r.value
    ensures resp.status == 303 && "location" !in resp.headers ==> r == Err(KeyMissing("location"))
    ensures resp.status != 303 ==> r == Err(RequestFailed(resp.body))
  {
    if Expect(resp, Create).Fail? then Err(Expect(resp, Create).error)
    else if "location" !in resp.headers then Err(KeyMissing("location"))
    else Ok(Location.LastSegment(resp.headers["location"]))
  }

  /** A deletion response: 202 means deleted, reported as `true`; there is no
      `false`, since every other status raises. */
  function DeletedFrom(resp: Response): (r: Result<bool>)
    ensures r.Ok? <==> resp.status == 202
    ensures r.Ok? ==> r.value
    ensures r.Err? ==> r.error == RequestFailed(resp.body)
  {
    match Expect(resp, Deletion)
    case Pass => Ok(true)
    case Fail(e) => Err(e)
  }

  class Session {
    const clientId: string
    const clientSecret: string
    /** Stored, but every request goes to the service's fixed staging address. */
    const baseUrl: string
    /** Absent until `GetToken` succeeds; sent as the bearer token afterwards. */
    var accessToken: Option<Json>

    ghost predicate Authenticated()
      reads this
    {
      accessToken.Some?
    }

    constructor Unauthenticated(clientId: string, clientSecret: string, baseUrl: string)
      ensures this.clientId == clientId && this.clientSecret == clientSecret && this.baseUrl == baseUrl
      ensures accessToken.None?
    {
      this.clientId, this.clientSecret, this.baseUrl := clientId, clientSecret, baseUrl;
      accessToken := None;
    }

    /** Asks the token endpoint for a token; on success it becomes the
        session's token, otherwise the session is unchanged. */
    method GetToken(clientId: string, clientSecret: string,
                    audience: string := "https://pmd", grantType: string := "client_credentials",
                    server: Request -> Response)
      returns (o: Outcome, sent: seq<Request>)
      modifies this`accessToken
      ensures sent == [Request(None, PostToken(clientId, clientSecret, audience, grantType))]
      ensures o.Pass? <==> TokenFrom(server(sent[0])).Ok?
      ensures o.Pass? ==> accessToken == Some(TokenFrom(server(sent[0])).value)
      ensures o.Fail? ==> o.error == TokenFrom(server(sent[0])).error && accessToken == old(accessToken)
    {
      sent := [Request(None, PostToken(clientId, clientSecret, audience, grantType))];
      var token := TokenFrom(server(sent[0]));
      if token.Ok? {
        accessToken := Some(token.value);
        o := Pass;
      } else {
        o := Fail(token.error);
      }
    }

    /** Builds a session and authenticates it with the default audience and
        grant type; a session whose authentication fails is never returned. */
    static method Connect(clientId: string, clientSecret: string, baseUrl: string := DefaultBaseUrl,
                          server: Request -> Response)
      returns (r: Result<Session>, sent: seq<Request>)
      ensures sent == [Request(None, PostToken(clientId, clientSecret, "https://pmd", "client_credentials"))]
      ensures r.Ok? <==> TokenFrom(server(sent[0])).Ok?
      ensures r.Ok? ==> fresh(r.value) && r.value.accessToken == Some(TokenFrom(server(sent[0])).value)
                        && r.value.clientId == clientId && r.value.clientSecret == clientSecret
                        && r.value.baseUrl == baseUrl
      ensures r.Err? ==> r.error == TokenFrom(server(sent[0])).error
    {
      var session := new Session.Unauthenticated(clientId, clientSecret, baseUrl);
      var o;
      o, sent := session.GetToken(clientId, clientSecret, server := server);
      if o.Pass? {
        r := Ok(session);
      } else {
        r := Err(o.error);
      }
    }

    /** `get_draftsets`: an unknown filter is refused before anything is sent;
        otherwise one listing request, whose response gives the draftsets. */
    method GetDraftsets(filter: string := "all", unionWithLive: bool := false, server: Request -> Response)
      returns (r: Result<seq<Draftset>>, sent: seq<Request>)
      requires Authenticated()
      ensures ParseInclude(filter).Err? ==> r == Err(AssertionFailed(IncludeFilter)) && sent == []
      ensures ParseInclude(filter).Ok? ==>
                sent == [Request(accessToken, GetList(filter, unionWithLive))]
                && r == ListingFrom(server(sent[0]))
    {
      var checked := ParseInclude(filter);
      if checked.Err? {
        return Err(checked.error), [];
      }
      sent := [Request(accessToken, GetList(filter, unionWithLive))];
      r := ListingFrom(server(sent[0]));
    }
  
    /** `get_draftset`: one request for the draftset, whose response gives it. */
    method GetDraftset(id: Json, unionWithLive: bool := false, server: Request -> Response)
      returns (r: Result<Draftset>, sent: seq<Request>)
      requires Authenticated()
      ensures sent == [Request(accessToken, GetOne(id, unionWithLive))]
      ensures r == DraftsetFrom(server(sent[0]))
    {
      sent := [Request(accessToken, GetOne(id, unionWithLive))];
      r := DraftsetFrom(server(sent[0]));
    }

    /** `create_draftset`: a creation request, then, on 303, exactly one
        fetch of the id named by the `location` header, never of the header's
        address itself. Any other status raises with no second request. */
    method CreateDraftset(displayName: Option<string> := None, description: Option<string> := None,
                          unionWithLive: bool := false,
                          server: Request -> Response)
      returns (r: Result<Draftset>, sent: seq<Request>)
      requires Authenticated()
      ensures 1 <= |sent| <= 2
      ensures sent[0] == Request(accessToken, PostCreate(displayName, description, unionWithLive))
      ensures |sent| == 2 <==> CreatedIdFrom(server(sent[0])).Ok?
      ensures CreatedIdFrom(server(sent[0])).Err? ==> r == Err(CreatedIdFrom(server(sent[0])).error)
      ensures |sent| == 2 ==>
                sent[1] == Request(accessToken, GetOne(JStr(CreatedIdFrom(server(sent[0])).value), false))
                && r == DraftsetFrom(server(sent[1]))
    {
      var create := Request(accessToken, PostCreate(displayName, description, unionWithLive));
      var created := CreatedIdFrom(server(create));
      if created.Err? {
        return Err(created.error), [create];
      }
      var fetched;
      r, fetched := GetDraftset(JStr(created.value), server := server);
      sent := [create] + fetched;
    }

    /** `Draftset.delete`: one deletion request; `true` on 202. */
    method Delete(ds: Draftset, metadata: Option<string> := None, server: Request -> Response)
      returns (r: Result<bool>, sent: seq<Request>)
      requires Authenticated()
      ensures sent == [Request(accessToken, DeleteOne(ds.id, metadata))]
      ensures r == DeletedFrom(server(sent[0]))
    {
      sent := [Request(accessToken, DeleteOne(ds.id, metadata))];
      r := DeletedFrom(server(sent[0]));
    }

    /** `Draftset.claim`: a claim request, then, on 200, a fresh copy of the
        draftset fetched from the service; the handle passed in is not changed. */
    method Claim(ds: Draftset, server: Request -> Response)
      returns (r: Result<Draftset>, sent: seq<Request>)
      requires Authenticated()
      ensures 1 <= |sent| <= 2
      ensures sent[0] == Request(accessToken, PostClaim(ds.id))
      ensures |sent| == 2 <==> server(sent[0]).status == 200
      ensures server(sent[0]).status != 200 ==> r == Err(RequestFailed(server(sent[0]).body))
      ensures |sent| == 2 ==> sent[1] == Request(accessToken, GetOne(ds.id, false)) && r == DraftsetFrom(server(sent[1]))
    {
      var claim := Request(accessToken, PostClaim(ds.id));
      var acknowledged := Expect(server(claim), Claiming);
      if acknowledged.Fail? {
        return Err(acknowledged.error), [claim];
      }
      var fetched;
      r, fetched := GetDraftset(ds.id, server := server);
      sent := [claim] + fetched;
    }

    /** `Draftset.submit_to`: the role and user are checked before anything is
        sent; then a submission request carrying them as given, and, on 200, a
        fresh copy of the draftset. */
    method SubmitTo(ds: Draftset, role: Option<string> := None, user: Option<string> := None,
                    server: Request -> Response)
      returns (r: Result<Draftset>, sent: seq<Request>)
      requires Authenticated()
      ensures ParseRecipient(role, user).Err? ==> r == Err(ParseRecipient(role, user).error) && sent == []
      ensures ParseRecipient(role, user).Ok? ==>
                && 1 <= |sent| <= 2
                && sent[0] == Request(accessToken, PostSubmit(ds.id, role, user))
                && (|sent| == 2 <==> server(sent[0]).status == 200)
                && (server(sent[0]).status != 200 ==> r == Err(RequestFailed(server(sent[0]).body)))
                && (|sent| == 2 ==> sent[1] == Request(accessToken, GetOne(ds.id, false))
                                    && r == DraftsetFrom(server(sent[1])))
    {
      var recipient := ParseRecipient(role, user);
      if recipient.Err? {
        return Err(recipient.error), [];
      }
      var submit := Request(accessToken, PostSubmit(ds.id, role, user));
      var acknowledged := Expect(server(submit), Submission);
      if acknowledged.Fail? {
        return Err(acknowledged.error), [submit];
      }
      var fetched;
      r, fetched := GetDraftset(ds.id, server := server);
      sent := [submit] + fetched;
    }
  }
}
