/** The sign-in configuration: the credentials provider's `authorize`, and the
    `jwt` and `session` callbacks that decide which backend token the session
    carries. Each backend reply is an input. */
module Auth {
  import opened Options
  import opened Text
  import opened Backend

  /** The password sent when a Google user already has a backend account. */
  const OAuthPassword := "google-oauth-user"

  /** The user object a sign-in hands to the `jwt` callback: the record
      `authorize` returns, or the provider's profile (which has no token). */
  datatype SignInUser = SignInUser(id: string, name: string, email: string, accessToken: Option<string>)

  /** The `account` object; only its `provider` is looked at. */
  datatype Account = Account(provider: string)

  /** The JSON Web Token record the session is kept in. `claims` stands for
      the fields the library sets itself (name, email, picture, sub, ...). */
  datatype Jwt = Jwt(id: Option<string>, accessToken: Option<string>, claims: map<string, string>)

  /** The token the `jwt` callback returns, and the requests it issued. */
  datatype JwtStep = JwtStep(token: Jwt, sent: seq<Request>)

  datatype SessionUser = SessionUser(id: Option<string>, name: Option<string>, email: Option<string>, image: Option<string>)

  /** The session object handed to the page; `expires` is set by the library. */
  datatype Session = Session(user: SessionUser, accessToken: Option<string>, expires: string)

  /** The login request `authorize` sends for the submitted credentials. */
  function AuthorizeRequest(email: string, password: string): (req: Request)
    ensures req.verb == POST && req.path == "/api/auth/login"
    ensures req.body == Some(map["email" := email, "password" := password])
    ensures req.headers == JsonHeaders && "Authorization" !in req.headers
  {
    JsonPost("/api/auth/login", map["email" := email, "password" := password])
  }

  /** `authorize(credentials)` given the reply to its login request: the user
      record with the backend token, or null. Every failure, including a
      thrown one, ends in null. */
  function Authorize(reply: Reply): (user: Option<SignInUser>)
    ensures user.Some? <==> reply.Answered? && reply.ok && reply.body.success && reply.body.user.Some?
    ensures user.Some? ==>
      var u := reply.body.user.value;
      user.value == SignInUser(u.id, u.name, u.email, reply.body.token)
  {
    match reply
    case Failed(_) => None
    case Answered(ok, data) =>
      if !ok || !data.success then None
      // reading `data.user.id` of a missing user throws, and the catch returns null
      else if data.user.None? then None
      else Some(SignInUser(data.user.value.id, data.user.value.name, data.user.value.email, data.token))
  }

  predicate IsGoogle(account: Option<Account>)
  {
    account.Some? && account.value.provider == "google"
  }

  /** The register request of the Google path; `password` is the random one
      the callback generates. */
  function GoogleRegisterRequest(user: SignInUser, password: string): Request
  {
    JsonPost("/api/auth/register", map["name" := user.name, "email" := user.email, "password" := password])
  }

  /** The fallback login request of the Google path. */
  function GoogleLoginRequest(user: SignInUser): Request
  {
    JsonPost("/api/auth/login", map["email" := user.email, "password" := OAuthPassword])
  }

  /** The `jwt` callback. A signing-in user's id and token are copied first.
      On a Google sign-in the user is then registered with the backend and
      the register reply's token is used; if registration is refused, a login
      with the fixed password is tried and its token, when present, is used.
      A thrown error in the Google path is swallowed. */
  function JwtCallback(token: Jwt, user: Option<SignInUser>, account: Option<Account>,
                       password: string, register: Reply, login: Reply): (r: JwtStep)
    ensures r.token.claims == token.claims
    ensures user.Some? ==> r.token.id == Some(user.value.id)
    ensures user.None? ==> r.token.id == token.id
    ensures !IsGoogle(account) ==>
      r.sent == [] && r.token.accessToken == (if user.Some? then user.value.accessToken else token.accessToken)
    ensures IsGoogle(account) && user.None? ==> r.sent == [] && r.token == token
    ensures IsGoogle(account) && user.Some? && register.Failed? ==>
      r.sent == [GoogleRegisterRequest(user.value, password)] &&
      r.token == token.(id := Some(user.value.id), accessToken := user.value.accessToken)
    ensures IsGoogle(account) && user.Some? ==> 1 <= |r.sent| && r.sent[0] == GoogleRegisterRequest(user.value, password)
    ensures IsGoogle(account) && user.Some? && register.Answered? && register.ok ==>
      |r.sent| == 1 &&
      r.token.accessToken == (if Truthy(register.body.token) then register.body.token else user.value.accessToken)
    ensures IsGoogle(account) && user.Some? && register.Answered? && !register.ok ==>
      r.sent == [GoogleRegisterRequest(user.value, password), GoogleLoginRequest(user.value)] &&
      r.token.accessToken == (if login.Answered? && Truthy(login.body.token) then login.body.token else user.value.accessToken)
  {
    var copied := if user.Some? then token.(id := Some(user.value.id), accessToken := user.value.accessToken) else token;
    if !IsGoogle(account) then JwtStep(copied, [])
    // building the register body reads `user.name`, which throws without a user
    else if user.None? then JwtStep(copied, [])
    else
      var registerRequest := GoogleRegisterRequest(user.value, password);
      match register
      case Failed(_) => JwtStep(copied, [registerRequest])
      case Answered(ok, data) =>
        if !ok then
          var sent := [registerRequest, GoogleLoginRequest(user.value)];
          match login
          case Failed(_) => JwtStep(copied, sent)
          case Answered(_, loginData) =>
            if Truthy(loginData.token) then JwtStep(copied.(accessToken := loginData.token), sent)
            else JwtStep(copied, sent)
        else if Truthy(data.token) then JwtStep(copied.(accessToken := data.token), [registerRequest])
        else JwtStep(copied, [registerRequest])
  }

  /** The `session` callback: copy the token's id and access token into the
      session; nothing else changes. */
  function SessionCallback(session: Session, token: Option<Jwt>): (r: Session)
    ensures token.None? ==> r == session
    ensures token.Some? ==> r.user.id == token.value.id && r.accessToken == token.value.accessToken
    ensures r.user.name == session.user.name && r.user.email == session.user.email
    ensures r.user.image == session.user.image && r.expires == session.expires
  {
    if token.Some? then session.(user := session.user.(id := token.value.id), accessToken := token.value.accessToken)
    else session
  }

  /** A credentials sign-in that `authorize` accepts ends with a session
      carrying the backend user's id and the token of the login reply. */
  lemma CredentialsSessionCarriesLoginToken(reply: Reply, prior: Jwt, account: Option<Account>,
                                            password: string, register: Reply, login: Reply, session: Session)
    requires Authorize(reply).Some?
    requires !IsGoogle(account)
    ensures var s := SessionCallback(session, Some(JwtCallback(prior, Authorize(reply), account, password, register, login).token));
      s.accessToken == reply.body.token && s.user.id == Some(reply.body.user.value.id)
  {
  }

  /** A Google sign-in whose registration succeeds with a token ends with a
      session carrying that token; one whose registration is refused carries
      the fallback login's token when it has one, and no token otherwise. */
  lemma GoogleSessionToken(prior: Jwt, profile: SignInUser, account: Account, password: string,
                           register: Reply, login: Reply, session: Session)
    requires account.provider == "google" && profile.accessToken == None
    requires register.Answered?
    ensures var s := SessionCallback(session, Some(JwtCallback(prior, Some(profile), Some(account), password, register, login).token));
      s.accessToken ==
        if register.ok then (if Truthy(register.body.token) then register.body.token else None)
        else if login.Answered? && Truthy(login.body.token) then login.body.token
        else None
  {
  }
}
