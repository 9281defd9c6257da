/**
 * The login negotiation of the Caruna API client (api.go): eight HTTP round
 * trips through the identity provider's redirect and form chain, ending in a
 * token exchange, and the client's stored login that only a successful
 * negotiation sets and only a successful logout clears.
 *
 * The network is a script: the k-th request the flow sends gets the k-th
 * reply (a script that ends early behaves like a server that stops
 * answering). Each reply is either a transport failure or a response whose
 * body is given in the shape its reader produced; a body of any other shape
 * stands for the reader or JSON decoder returning an error.
 */
module CarunaApi {
  import opened Wrappers
  import opened Html
  import opened UrlValues
  import opened Redirects
  import opened Forms

  const AuthorizationURL: string := "https://plus.caruna.fi/api/authorization/login"
  const AuthenticationURL: string := "https://authentication2.caruna.fi"
  const PortalURL: string := "https://authentication2.caruna.fi/portal"
  const TokenURL: string := "https://plus.caruna.fi/api/authorization/token"
  const RedirectURL: string := "https://plus.caruna.fi"
  const LogoutURL: string := "https://authentication2.caruna.fi/portal/logout"

  // ---- The session the negotiation produces ----

  /** The signed-in user; URLs are kept as their text. */
  datatype UserInfo = UserInfo(
    userName: string,
    userType: string,
    email: string,
    firstName: string,
    lastName: string,
    phoneNumber: string,
    profileUrl: string,
    ownCustomerNumbers: seq<string>,
    representedCustomerNumbers: seq<string>,
    hashedUserId: string,
    visitorParams: string)

  /** The decoded token response. */
  datatype LoginInfo = LoginInfo(
    token: string,
    expiresAt: int,
    user: UserInfo,
    redirectAfterLogin: string)

  /** Go's zero `LoginInfo{}`: no session. */
  const NoLogin: LoginInfo :=
    LoginInfo("", 0, UserInfo("", "", "", "", "", "", "", [], [], "", ""), "")

  // ---- The wire ----

  datatype Verb = Get | Post

  datatype RequestBody =
    | NoBody
    | JsonBody(fields: map<string, string>)
    | FormBody(form: Values)

  datatype Request = Request(verb: Verb, url: string, body: RequestBody)

  /** A response body in the shape its reader produced. */
  datatype Payload =
    | JsonStrings(fields: map<string, string>)  // decoded into map[string]string
    | JsonLogin(info: LoginInfo)                // read and decoded into LoginInfo
    | Page(doc: Document)                       // parsed by goquery
    | Text(text: string)                        // read whole with io.ReadAll
    | Unreadable                                // the reader or decoder fails

  /**
   * A reply: a transport failure, or a response with its body and the query
   * parameters of the URL the client finally landed on after redirects.
   */
  datatype Reply =
    | TransportFailure
    | Response(body: Payload, finalQuery: Values)

  /** The reply to the k-th request of the script. */
  function ReplyTo(replies: seq<Reply>, k: nat): Reply
  {
    if k < |replies| then replies[k] else TransportFailure
  }

  // ---- How a negotiation ends ----

  /** Where the Go code slices or indexes out of range and panics. */
  datatype PanicSite =
    | LoginMetaSlice     // postURL[6:]
    | FormActionSlice    // action[1:][:17]
    | CdataMatchIndex    // matches[0][1]
    | ConsentMetaSlice   // metaContent[6:]

  /**
   * The k-th request's transport failed, or its body could not be read or
   * decoded, or the Go code panicked.
   */
  datatype LoginError =
    | TransportError(request: nat)
    | DecodeError(request: nat)
    | Panic(site: PanicSite)

  datatype Outcome = LoggedIn(info: LoginInfo) | Failed(error: LoginError)

  /** The requests sent, in order, and how the negotiation ended. */
  datatype Run = Run(sent: seq<Request>, outcome: Outcome)

  /** The first request: the JSON body asking for a login redirect. */
  const AuthorizationRequest: Request :=
    Request(Post, AuthorizationURL,
            JsonBody(map["redirectAfterLogin" := RedirectURL, "language" := "fi"]))

  /** `loginResp["loginRedirectUrl"]`: a missing key yields `""`. */
  function RedirectUrlOf(fields: map<string, string>): string
  {
    if "loginRedirectUrl" in fields then fields["loginRedirectUrl"] else ""
  }

  function MetaContent(doc: Document): string
  {
    FirstAttr(doc, Tag("meta"), "content")
  }

  function FormAction(doc: Document): string
  {
    FirstAttr(doc, Tag("form"), "action")
  }

  // ---- The negotiation as a chain of stages ----
  // The k-th stage sends the k-th request and reads the reply with the same
  // index in the script. A reply either lets the stage hand what it
  // extracted to the next stage or ends the run.

  /** Where the negotiation stands: the request it sends next and what that request carries. */
  datatype Stage =
    | Authorize                                  // POST the JSON login request
    | FollowLoginRedirect(url: string)           // GET loginRedirectUrl
    | OpenLoginForm(url: string)                 // GET the login page
    | SubmitCredentials(url: string, form: Values) // POST the credentials to the AJAX endpoint
    | FollowCdataRedirect(url: string)           // GET the CDATA target
    | OpenConsentForm(url: string)               // GET the consent page
    | SubmitConsent(url: string, form: Values)   // POST the consent form
    | ExchangeToken(query: Values)               // POST the landing URL's query for a token

  /** The position of a stage in the flow, which is also the index of its request. */
  function StageIndex(stage: Stage): (k: nat)
    ensures k < 8
  {
    match stage
    case Authorize => 0
    case FollowLoginRedirect(_) => 1
    case OpenLoginForm(_) => 2
    case SubmitCredentials(_, _) => 3
    case FollowCdataRedirect(_) => 4
    case OpenConsentForm(_) => 5
    case SubmitConsent(_, _) => 6
    case ExchangeToken(_) => 7
  }

  /** The request a stage sends. */
  function RequestOf(stage: Stage): Request
  {
    match stage
    case Authorize => AuthorizationRequest
    case FollowLoginRedirect(url) => Request(Get, url, NoBody)
    case OpenLoginForm(url) => Request(Get, url, NoBody)
    case SubmitCredentials(url, form) => Request(Post, url, FormBody(form))
    case FollowCdataRedirect(url) => Request(Get, url, NoBody)
    case OpenConsentForm(url) => Request(Get, url, NoBody)
    case SubmitConsent(url, form) => Request(Post, url, FormBody(form))
    case ExchangeToken(query) => Request(Post, TokenURL, FormBody(query))
  }

  /**
   * The body shape the k-th step reads: the JSON object of the first reply,
   * the AJAX reply's text, the token reply's `LoginInfo`, and an HTML page
   * otherwise; the consent reply's body is never read.
   */
  predicate BodyFits(k: nat, body: Payload)
  {
    if k == 0 then body.JsonStrings?
    else if k == 3 then body.Text?
    else if k == 6 then true
    else if k == 7 then body.JsonLogin?
    else body.Page?
  }

  /**
   * The slice or index the k-th step performs on its body is in range: a meta
   * content of at least 6 characters, a form action of at least 18, a CDATA
   * block the regular expression matches.
   */
  ghost predicate SlicesInRange(k: nat, body: Payload)
    requires BodyFits(k, body)
  {
    if k == 1 || k == 4 then |MetaContent(body.doc)| >= MetaPrefixLength
    else if k == 2 then |FormAction(body.doc)| >= 1 + ActionKeepLength
    else if k == 3 then exists i :: MatchesAt(body.text, i)
    else true
  }

  /** The k-th reply lets the flow go on. */
  ghost predicate ReplyAccepted(k: nat, r: Reply)
  {
    r.Response? && BodyFits(k, r.body) && SlicesInRange(k, r.body)
  }

  /** Where the k-th step panics when its slice or index is out of range. */
  function SliceSite(k: nat): PanicSite
  {
    if k == 1 then LoginMetaSlice
    else if k == 2 then FormActionSlice
    else if k == 3 then CdataMatchIndex
    else ConsentMetaSlice
  }

  /** The error the k-th reply ends the run with when it is not accepted. */
  function Rejection(k: nat, r: Reply): LoginError
  {
    if r.TransportFailure? then TransportError(k)
    else if !BodyFits(k, r.body) then DecodeError(k)
    else Panic(SliceSite(k))
  }

  /** What one stage does with the reply to its request. */
  datatype Step = Next(stage: Stage) | Done(outcome: Outcome)

  /**
   * One stage of `Login`: read the reply, extract what the next request
   * needs, or stop with the error the source returns or the panic it raises.
   */
  function Advance(username: string, password: string, stage: Stage, r: Reply): (step: Step)
    ensures step.Next? ==> StageIndex(step.stage) == StageIndex(stage) + 1
  {
    var k := StageIndex(stage);
    if r.TransportFailure? then Done(Failed(TransportError(k)))
    else match stage
      case Authorize =>
        if !r.body.JsonStrings? then Done(Failed(DecodeError(k)))
        else Next(FollowLoginRedirect(RedirectUrlOf(r.body.fields)))
      case FollowLoginRedirect(_) =>
        if !r.body.Page? then Done(Failed(DecodeError(k)))
        else
          var postURL := MetaTarget(MetaContent(r.body.doc));
          if postURL.None? then Done(Failed(Panic(LoginMetaSlice)))
          else Next(OpenLoginForm(AuthenticationURL + postURL.value))
      case OpenLoginForm(_) =>
        if !r.body.Page? then Done(Failed(DecodeError(k)))
        else
          var action := BehaviourEndpoint(FormAction(r.body.doc));
          if action.None? then Done(Failed(Panic(FormActionSlice)))
          else Next(SubmitCredentials(PortalURL + action.value,
                                      LoginFormData(r.body.doc, username, password)))
      case SubmitCredentials(_, _) =>
        if !r.body.Text? then Done(Failed(DecodeError(k)))
        else
          var cdata := CdataRedirect(r.body.text);
          if cdata.None? then Done(Failed(Panic(CdataMatchIndex)))
          else Next(FollowCdataRedirect(PortalURL + cdata.value))
      case FollowCdataRedirect(_) =>
        if !r.body.Page? then Done(Failed(DecodeError(k)))
        else
          var newUrl := MetaTarget(MetaContent(r.body.doc));
          if newUrl.None? then Done(Failed(Panic(ConsentMetaSlice)))
          else Next(OpenConsentForm(newUrl.value))
      case OpenConsentForm(_) =>
        if !r.body.Page? then Done(Failed(DecodeError(k)))
        else Next(SubmitConsent(FormAction(r.body.doc), ConsentFormData(r.body.doc)))
      case SubmitConsent(_, _) =>
        Next(ExchangeToken(r.finalQuery))
      case ExchangeToken(_) =>
        if !r.body.JsonLogin? then Done(Failed(DecodeError(k)))
        else Done(LoggedIn(r.body.info))
  }

  /**
   * A stage goes on exactly when its reply is accepted (the last stage then
   * ends in the session the reply carries), and otherwise ends with the
   * reply's rejection.
   */
  lemma AdvanceVerdict(username: string, password: string, stage: Stage, r: Reply)
    ensures var step := Advance(username, password, stage, r);
      && (ReplyAccepted(StageIndex(stage), r) && stage.ExchangeToken? ==>
            step == Done(LoggedIn(r.body.info)))
      && (ReplyAccepted(StageIndex(stage), r) && !stage.ExchangeToken? ==> step.Next?)
      && (!ReplyAccepted(StageIndex(stage), r) ==>
            step == Done(Failed(Rejection(StageIndex(stage), r))))
  {
  }

  /**
   * The rest of the negotiation from `stage`, after the requests
   * `sentBefore`: every run sends this stage's request next, and at most one
   * request per remaining stage.
   */
  function RunFrom(username: string, password: string, replies: seq<Reply>,
                   sentBefore: seq<Request>, stage: Stage): (run: Run)
    ensures |sentBefore| < |run.sent| <= |sentBefore| + 8 - StageIndex(stage)
    ensures sentBefore + [RequestOf(stage)] <= run.sent
    decreases 8 - StageIndex(stage)
  {
    var sent := sentBefore + [RequestOf(stage)];
    match Advance(username, password, stage, ReplyTo(replies, StageIndex(stage)))
    case Done(outcome) => Run(sent, outcome)
    case Next(next) => RunFrom(username, password, replies, sent, next)
  }

  /**
   * The whole negotiation as one function of the credentials and the script
   * of replies: the specification `CarunaAPIClient.Login` is proved against.
   */
  function Negotiate(username: string, password: string, replies: seq<Reply>): Run
  {
    RunFrom(username, password, replies, [], Authorize)
  }

  // ---- The negotiation as the source runs it, step by step ----

  /**
   * The body of `Login` up to the session: ask for the login redirect,
   * follow it to the login page, submit the credentials to the AJAX
   * endpoint and extract the CDATA redirect; then the consent half.
   */
  method SignIn(username: string, password: string, replies: seq<Reply>)
    returns (sent: seq<Request>, outcome: Outcome)
    ensures Run(sent, outcome) == Negotiate(username, password, replies)
  {
    ghost var run := Negotiate(username, password, replies);
    sent := [AuthorizationRequest];
    var resp := ReplyTo(replies, 0);
    if resp.TransportFailure? { return sent, Failed(TransportError(0)); }
    if !resp.body.JsonStrings? { return sent, Failed(DecodeError(0)); }
    var loginRedirectURL := RedirectUrlOf(resp.body.fields);
    assert [] + [RequestOf(Authorize)] == sent;
    assert run == RunFrom(username, password, replies, sent, FollowLoginRedirect(loginRedirectURL));

    sent := sent + [Request(Get, loginRedirectURL, NoBody)];
    resp := ReplyTo(replies, 1);
    if resp.TransportFailure? { return sent, Failed(TransportError(1)); }
    if !resp.body.Page? { return sent, Failed(DecodeError(1)); }
    var postURL := MetaTarget(MetaContent(resp.body.doc));
    if postURL.None? { return sent, Failed(Panic(LoginMetaSlice)); }
    assert run == RunFrom(username, password, replies, sent, OpenLoginForm(AuthenticationURL + postURL.value));

    sent := sent + [Request(Get, AuthenticationURL + postURL.value, NoBody)];
    resp := ReplyTo(replies, 2);
    if resp.TransportFailure? { return sent, Failed(TransportError(2)); }
    if !resp.body.Page? { return sent, Failed(DecodeError(2)); }
    var doc := resp.body.doc;
    var action := BehaviourEndpoint(FormAction(doc));
    if action.None? { return sent, Failed(Panic(FormActionSlice)); }
    var formData := BuildLoginForm(doc, username, password);
    assert run == RunFrom(username, password, replies, sent, SubmitCredentials(PortalURL + action.value, formData));

    sent := sent + [Request(Post, PortalURL + action.value, FormBody(formData))];
    resp := ReplyTo(replies, 3);
    if resp.TransportFailure? { return sent, Failed(TransportError(3)); }
    if !resp.body.Text? { return sent, Failed(DecodeError(3)); }
    var cdata := CdataRedirect(resp.body.text);
    if cdata.None? { return sent, Failed(Panic(CdataMatchIndex)); }
    assert run == RunFrom(username, password, replies, sent, FollowCdataRedirect(PortalURL + cdata.value));

    sent, outcome := Consent(username, password, replies, sent, PortalURL + cdata.value);
  }

  /**
   * The rest of `Login`, from the CDATA target: follow its meta refresh to
   * the consent page, submit the consent form and exchange the landing URL's
   * query for the session. The credentials only name the specification.
   */
  method Consent(ghost username: string, ghost password: string, replies: seq<Reply>,
                 sentBefore: seq<Request>, url: string)
    returns (sent: seq<Request>, outcome: Outcome)
    ensures Run(sent, outcome) == RunFrom(username, password, replies, sentBefore, FollowCdataRedirect(url))
  {
    ghost var run := RunFrom(username, password, replies, sentBefore, FollowCdataRedirect(url));
    sent := sentBefore + [Request(Get, url, NoBody)];
    var resp := ReplyTo(replies, 4);
    if resp.TransportFailure? { return sent, Failed(TransportError(4)); }
    if !resp.body.Page? { return sent, Failed(DecodeError(4)); }
    var newUrl := MetaTarget(MetaContent(resp.body.doc));
    if newUrl.None? { return sent, Failed(Panic(ConsentMetaSlice)); }
    assert run == RunFrom(username, password, replies, sent, OpenConsentForm(newUrl.value));

    sent := sent + [Request(Get, newUrl.value, NoBody)];
    resp := ReplyTo(replies, 5);
    if resp.TransportFailure? { return sent, Failed(TransportError(5)); }
    if !resp.body.Page? { return sent, Failed(DecodeError(5)); }
    var doc := resp.body.doc;
    var formData := HarvestByAdd(Find(doc, HiddenInput));
    assert run == RunFrom(username, password, replies, sent, SubmitConsent(FormAction(doc), formData));

    sent := sent + [Request(Post, FormAction(doc), FormBody(formData))];
    resp := ReplyTo(replies, 6);
    if resp.TransportFailure? { return sent, Failed(TransportError(6)); }
    var query := resp.finalQuery;
    assert run == RunFrom(username, password, replies, sent, ExchangeToken(query));

    sent := sent + [Request(Post, TokenURL, FormBody(query))];
    resp := ReplyTo(replies, 7);
    if resp.TransportFailure? { return sent, Failed(TransportError(7)); }
    if !resp.body.JsonLogin? { return sent, Failed(DecodeError(7)); }
    outcome := LoggedIn(resp.body.info);
  }

  // ---- The client ----

  class CarunaAPIClient {
    /** The session of the last successful login; `NoLogin` when there is none. */
    var login: LoginInfo

    /** `NewCarunaClient`: a client with no session (its cookie jar is not modelled). */
    constructor ()
      ensures login == NoLogin
    {
      login := NoLogin;
    }

    /** The stored session. */
    method LoginInfo() returns (info: LoginInfo)
      ensures info == login
    {
      info := login;
    }

    /**
     * One GET to the logout endpoint. Only when it succeeds is the session
     * cleared; a transport failure is returned with the session kept.
     */
    method Logout(reply: Reply) returns (err: Option<LoginError>, sent: Request)
      modifies this
      ensures sent == Request(Get, LogoutURL, NoBody)
      ensures reply.TransportFailure? ==> err == Some(TransportError(0)) && login == old(login)
      ensures reply.Response? ==> err == None && login == NoLogin
    {
      sent := Request(Get, LogoutURL, NoBody);
      if reply.TransportFailure? {
        return Some(TransportError(0)), sent;
      }
      login := NoLogin;
      err := None;
    }

    /**
     * `Login`: the negotiation, then the session. The stored login changes
     * only when every step succeeded; any error leaves it as it was.
     */
    method Login(username: string, password: string, replies: seq<Reply>)
      returns (err: Option<LoginError>, sent: seq<Request>)
      modifies this
      ensures sent == Negotiate(username, password, replies).sent
      ensures Negotiate(username, password, replies).outcome.LoggedIn? ==>
        err == None && login == Negotiate(username, password, replies).outcome.info
      ensures Negotiate(username, password, replies).outcome.Failed? ==>
        err == Some(Negotiate(username, password, replies).outcome.error) && login == old(login)
    {
      var outcome;
      sent, outcome := SignIn(username, password, replies);
      if outcome.Failed? {
        return Some(outcome.error), sent;
      }
      login := outcome.info;
      err := None;
    }
  }
}
