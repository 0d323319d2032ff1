/** The request descriptors of the authentication API (version 2): each endpoint builder gives a path, an HTTP
    method, query items, headers, the status code that means success and the status codes that carry an error
    body. Building the underlying request can fail; that outcome is the `builds` flag. */
module OAuth {
  import opened Wrappers

  datatype HttpMethod = Get | Post

  datatype StatusCode = Ok | Found | BadRequest | Unauthorized | InternalServerError
  {
    function Code(): int {
      match this
      case Ok => 200
      case Found => 302
      case BadRequest => 400
      case Unauthorized => 401
      case InternalServerError => 500
    }
  }

  datatype HeaderKey = Cookie | Authorization

  /** The underlying request: the base URL with the endpoint's path appended, the method, the query items and the
      additional headers. */
  datatype ApiRequest = ApiRequest(
    baseUrl: string,
    path: string,
    httpMethod: HttpMethod,
    queryItems: map<string, string>,
    headers: map<HeaderKey, string>)

  datatype OAuthRequest = OAuthRequest(apiRequest: ApiRequest, httpSuccessCode: StatusCode, httpErrorCodes: seq<StatusCode>)

  /** The ways to log in; any other method is not supported. */
  datatype LoginMethod =
    | OtpLogin(name: string, email: string, otp: string)
    | SignatureLogin(name: string, signature: string, source: string)
    | UnknownLogin

  /** The initialiser, with its default codes. */
  function Init(apiRequest: ApiRequest, httpSuccessCode: StatusCode := Ok,
                httpErrorCodes: seq<StatusCode> := [BadRequest, InternalServerError]): OAuthRequest {
    OAuthRequest(apiRequest, httpSuccessCode, httpErrorCodes)
  }

  /** `APIRequestV2(url:method:queryItems:headers:)`, which gives no request when `builds` is false. */
  function Request(builds: bool, baseUrl: string, path: string, httpMethod: HttpMethod, queryItems: map<string, string>,
                   headers: map<HeaderKey, string>): Option<ApiRequest> {
    if builds then Some(ApiRequest(baseUrl, path, httpMethod, queryItems, headers)) else None
  }

  const ClientId := "f4311287-0121-40e6-8bbd-85c36daf1837"
  /** Every path of the authentication API starts with this prefix. */
  const ApiPrefix := "/api/auth/v2/"

  function ApiPath(endpoint: string): string {
    ApiPrefix + endpoint
  }

  const TokenPath := ApiPath("token")

  function Bearer(accessToken: string): string {
    "Bearer " + accessToken
  }

  function Authorize(builds: bool, baseUrl: string, codeChallenge: string): Option<OAuthRequest> {
    var queryItems := map[
      "response_type" := "code",
      "code_challenge" := codeChallenge,
      "code_challenge_method" := "S256",
      "client_id" := ClientId,
      "redirect_uri" := "com.duckduckgo:/authcb",
      "scope" := "privacypro"];
    match Request(builds, baseUrl, ApiPath("authorize"), Get, queryItems, map[])
    case None => None
    case Some(request) => Some(Init(request, Found))
  }

  function CreateAccount(builds: bool, baseUrl: string, authSessionId: string): Option<OAuthRequest> {
    match Request(builds, baseUrl, ApiPath("account/create"), Post, map[], map[Cookie := authSessionId])
    case None => None
    case Some(request) => Some(Init(request, Found))
  }

  function SendOtp(builds: bool, baseUrl: string, authSessionId: string, emailAddress: string): Option<OAuthRequest> {
    match Request(builds, baseUrl, ApiPath("otp"), Post, map["email" := emailAddress],
                  map[Cookie := authSessionId])
    case None => None
    case Some(request) => Some(Init(request))
  }

  /** The query items of a login, or none for a method that is not supported. */
  function LoginQuery(loginMethod: LoginMethod): Option<map<string, string>> {
    match loginMethod
    case OtpLogin(name, email, otp) => Some(map["method" := name, "email" := email, "otp" := otp])
    case SignatureLogin(name, signature, source) =>
      Some(map["method" := name, "email" := signature, "source" := source])
    case UnknownLogin => None
  }

  function Login(builds: bool, baseUrl: string, authSessionId: string, loginMethod: LoginMethod): Option<OAuthRequest> {
    match LoginQuery(loginMethod)
    case None => None
    case Some(queryItems) =>
      match Request(builds, baseUrl, ApiPath("login"), Post, queryItems, map[Cookie := authSessionId])
      case None => None
      case Some(request) => Some(Init(request, Found))
  }

  function GetAccessToken(builds: bool, baseUrl: string, clientId: string, codeVerifier: string, code: string,
                          redirectUri: string): Option<OAuthRequest> {
    var queryItems := map[
      "grant_type" := "authorization_code",
      "client_id" := clientId,
      "code_verifier" := codeVerifier,
      "code" := code,
      "redirect_uri" := redirectUri];
    match Request(builds, baseUrl, TokenPath, Get, queryItems, map[])
    case None => None
    case Some(request) => Some(Init(request))
  }

  function RefreshAccessToken(builds: bool, baseUrl: string, clientId: string, refreshToken: string)
    : Option<OAuthRequest>
  {
    var queryItems := map["grant_type" := "refresh_token", "client_id" := clientId, "refresh_token" := refreshToken];
    match Request(builds, baseUrl, TokenPath, Get, queryItems, map[])
    case None => None
    case Some(request) => Some(Init(request))
  }

  /** The query items of an account edit: the email when there is one. */
  function EditQuery(email: Option<string>): map<string, string> {
    var queryItems: map<string, string> := map[];
    if email.Some? then queryItems["email" := email.value] else queryItems
  }

  function EditAccount(builds: bool, baseUrl: string, accessToken: string, email: Option<string>)
    : Option<OAuthRequest>
  {
    match Request(builds, baseUrl, ApiPath("account/edit"), Post, EditQuery(email),
                  map[Authorization := Bearer(accessToken)])
    case None => None
    case Some(request) => Some(Init(request, httpErrorCodes := [Unauthorized, InternalServerError]))
  }

  /** `confirmEditAccount` as written: its path is the only one without the API prefix. */
  function ConfirmEditAccountAsWritten(builds: bool, baseUrl: string, accessToken: string, email: string, hash: string,
                                       otp: string): Option<OAuthRequest> {
    ConfirmEditAccountAt("/account/edit/confirm", builds, baseUrl, accessToken, email, hash, otp)
  }

  /** `confirmEditAccount` under the API prefix, beside the account edit it confirms. */
  function ConfirmEditAccount(builds: bool, baseUrl: string, accessToken: string, email: string, hash: string,
                              otp: string): Option<OAuthRequest> {
    ConfirmEditAccountAt(ApiPath("account/edit/confirm"), builds, baseUrl, accessToken, email, hash, otp)
  }

  function ConfirmEditAccountAt(path: string, builds: bool, baseUrl: string, accessToken: string, email: string,
                                hash: string, otp: string): Option<OAuthRequest> {
    match Request(builds, baseUrl, path, Get, map["email" := email, "hash" := hash, "otp" := otp],
                  map[Authorization := Bearer(accessToken)])
    case None => None
    case Some(request) => Some(Init(request, httpErrorCodes := [Unauthorized, InternalServerError]))
  }

  // ---------------------------------------------------------------------------------------------------------
  // Properties

  /** Unless a builder says otherwise, success is 200 and the error bodies come with 400 and 500. */
  lemma DefaultCodes(request: ApiRequest)
    ensures Init(request).httpSuccessCode.Code() == 200
    ensures |Init(request).httpErrorCodes| == 2
    ensures Init(request).httpErrorCodes[0].Code() == 400 && Init(request).httpErrorCodes[1].Code() == 500
    ensures Init(request).apiRequest == request
  {
  }

  /** One of all the builders, with their inputs. */
  datatype Endpoint =
    | AuthorizeCall(codeChallenge: string)
    | CreateAccountCall(authSessionId: string)
    | SendOtpCall(authSessionId: string, emailAddress: string)
    | LoginCall(authSessionId: string, loginMethod: LoginMethod)
    | GetAccessTokenCall(clientId: string, codeVerifier: string, code: string, redirectUri: string)
    | RefreshAccessTokenCall(clientId: string, refreshToken: string)
    | EditAccountCall(accessToken: string, newEmail: Option<string>)
    | ConfirmEditAccountCall(accessToken: string, email: string, hash: string, otp: string)

  function Build(builds: bool, baseUrl: string, e: Endpoint): Option<OAuthRequest> {
    match e
    case AuthorizeCall(c) => Authorize(builds, baseUrl, c)
    case CreateAccountCall(s) => CreateAccount(builds, baseUrl, s)
    case SendOtpCall(s, a) => SendOtp(builds, baseUrl, s, a)
    case LoginCall(s, m) => Login(builds, baseUrl, s, m)
    case GetAccessTokenCall(id, v, c, u) => GetAccessToken(builds, baseUrl, id, v, c, u)
    case RefreshAccessTokenCall(id, t) => RefreshAccessToken(builds, baseUrl, id, t)
    case EditAccountCall(t, m) => EditAccount(builds, baseUrl, t, m)
    case ConfirmEditAccountCall(t, m, h, o) => ConfirmEditAccount(builds, baseUrl, t, m, h, o)
  }

  /** A builder gives a descriptor exactly when the request can be built and, for a login, the method is
      supported. */
  lemma BuildsOrNil(builds: bool, baseUrl: string, e: Endpoint)
    ensures Build(builds, baseUrl, e).Some? <==> builds && !(e.LoginCall? && e.loginMethod.UnknownLogin?)
    ensures Build(builds, baseUrl, e).Some? ==> Build(builds, baseUrl, e).value.apiRequest.baseUrl == baseUrl
  {
  }

  /** The status code each endpoint treats as success: 302 for authorize, create account and login; 200 for the
      others. */
  function ExpectedSuccess(e: Endpoint): StatusCode {
    if e.AuthorizeCall? || e.CreateAccountCall? || e.LoginCall? then Found else Ok
  }

  lemma SuccessCodes(builds: bool, baseUrl: string, e: Endpoint)
    ensures var r := Build(builds, baseUrl, e);
      r.Some? ==> r.value.httpSuccessCode == ExpectedSuccess(e)
  {
  }

  /** Account edits expect 401 or 500 with an error body; every other endpoint 400 or 500. No endpoint lists its
      own success code among its error codes. */
  lemma ErrorCodes(builds: bool, baseUrl: string, e: Endpoint)
    ensures var r := Build(builds, baseUrl, e);
      r.Some? ==>
        && r.value.httpErrorCodes
             == (if e.EditAccountCall? || e.ConfirmEditAccountCall? then [Unauthorized, InternalServerError]
                 else [BadRequest, InternalServerError])
        && r.value.httpSuccessCode !in r.value.httpErrorCodes
  {
  }

  /** The authorize query holds the code challenge and the fixed code response type, S256 challenge method and
      privacypro scope, and nothing else but the client and redirect identifiers. */
  lemma AuthorizeQuery(builds: bool, baseUrl: string, codeChallenge: string)
    requires builds
    ensures var r := Authorize(builds, baseUrl, codeChallenge);
      && r.Some?
      && r.value.apiRequest.httpMethod == Get
      && r.value.apiRequest.queryItems.Keys
           == {"response_type", "code_challenge", "code_challenge_method", "client_id", "redirect_uri", "scope"}
      && r.value.apiRequest.queryItems["response_type"] == "code"
      && r.value.apiRequest.queryItems["code_challenge"] == codeChallenge
      && r.value.apiRequest.queryItems["code_challenge_method"] == "S256"
      && r.value.apiRequest.queryItems["scope"] == "privacypro"
  {
  }

  /** A one-time-password login sends the method, the email and the password; a signature login sends the
      method, the signature under the email key, and the source; any other method gives no request. */
  lemma LoginQueries(builds: bool, baseUrl: string, authSessionId: string, loginMethod: LoginMethod)
    ensures var r := Login(builds, baseUrl, authSessionId, loginMethod);
      && (loginMethod.UnknownLogin? ==> r.None?)
      && (r.Some? ==> r.value.apiRequest.headers == map[Cookie := authSessionId])
      && (r.Some? && loginMethod.OtpLogin? ==>
            && r.value.apiRequest.queryItems.Keys == {"method", "email", "otp"}
            && r.value.apiRequest.queryItems["method"] == loginMethod.name
            && r.value.apiRequest.queryItems["email"] == loginMethod.email
            && r.value.apiRequest.queryItems["otp"] == loginMethod.otp)
      && (r.Some? && loginMethod.SignatureLogin? ==>
            && r.value.apiRequest.queryItems.Keys == {"method", "email", "source"}
            && r.value.apiRequest.queryItems["method"] == loginMethod.name
            && r.value.apiRequest.queryItems["email"] == loginMethod.signature
            && r.value.apiRequest.queryItems["source"] == loginMethod.source)
  {
  }

  /** An account edit sends the email query item exactly when there is an email, with the access token as a
      bearer authorization. */
  lemma EditAccountQuery(builds: bool, baseUrl: string, accessToken: string, email: Option<string>)
    ensures var r := EditAccount(builds, baseUrl, accessToken, email);
      r.Some? ==>
        && ("email" in r.value.apiRequest.queryItems <==> email.Some?)
        && (email.Some? ==> r.value.apiRequest.queryItems["email"] == email.value)
        && |r.value.apiRequest.queryItems| <= 1
        && r.value.apiRequest.headers[Authorization] == "Bearer " + accessToken
  {
  }

  /** Every endpoint's path lies under the API prefix. */
  lemma ApiPaths(builds: bool, baseUrl: string, e: Endpoint)
    ensures var r := Build(builds, baseUrl, e);
      r.Some? ==> ApiPrefix <= r.value.apiRequest.path
  {
    match e
    case AuthorizeCall(_) => ApiPathPrefix("authorize");
    case CreateAccountCall(_) => ApiPathPrefix("account/create");
    case SendOtpCall(_, _) => ApiPathPrefix("otp");
    case LoginCall(_, _) => ApiPathPrefix("login");
    case GetAccessTokenCall(_, _, _, _) => ApiPathPrefix("token");
    case RefreshAccessTokenCall(_, _) => ApiPathPrefix("token");
    case EditAccountCall(_, _) => ApiPathPrefix("account/edit");
    case ConfirmEditAccountCall(_, _, _, _) => ApiPathPrefix("account/edit/confirm");
  }

  lemma ApiPathPrefix(endpoint: string)
    ensures ApiPrefix <= ApiPath(endpoint)
  {
    assert ApiPath(endpoint)[..|ApiPrefix|] == ApiPrefix;
  }

  /** The confirmation as written asks for a path outside the API prefix, and differs from the corrected request
      in nothing else. */
  lemma ConfirmEditAccountOutsideApi(builds: bool, baseUrl: string, accessToken: string, email: string, hash: string,
                                     otp: string)
    requires builds
    ensures var w := ConfirmEditAccountAsWritten(builds, baseUrl, accessToken, email, hash, otp);
      var c := ConfirmEditAccount(builds, baseUrl, accessToken, email, hash, otp);
      && w.Some? && c.Some?
      && !(ApiPrefix <= w.value.apiRequest.path)
      && w.value == c.value.(apiRequest := c.value.apiRequest.(path := "/account/edit/confirm"))
  {
    var path := "/account/edit/confirm";
    assert ApiPrefix[2] != path[2];
  }

  /** Getting and refreshing an access token use the same path and differ in their grant type. */
  lemma TokenEndpoints(builds: bool, baseUrl: string, clientId: string, codeVerifier: string, code: string,
                       redirectUri: string, refreshToken: string)
    requires builds
    ensures var g := GetAccessToken(builds, baseUrl, clientId, codeVerifier, code, redirectUri);
      var f := RefreshAccessToken(builds, baseUrl, clientId, refreshToken);
      && g.Some? && f.Some?
      && g.value.apiRequest.path == f.value.apiRequest.path == ApiPath("token")
      && "grant_type" in g.value.apiRequest.queryItems && "grant_type" in f.value.apiRequest.queryItems
      && g.value.apiRequest.queryItems["grant_type"] == "authorization_code"
      && f.value.apiRequest.queryItems["grant_type"] == "refresh_token"
      && g.value.apiRequest.queryItems["client_id"] == f.value.apiRequest.queryItems["client_id"] == clientId
  {
  }
}
