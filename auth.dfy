/** The `verifyJWT` middleware, the protected test route and the `/login`
    decision of server.js. Signing and verifying tokens (JSON Web Tokens, with
    their expiry clock) and the bcrypt comparison are parameters. */
module Auth {
  import opened Wrappers
  import opened Js
  import opened Http

  /** `jwt.verify` with the configured secret: the payload, or nothing when the
      signature, the format or the expiry is wrong. */
  type Verifier = string -> Option<Claims>

  /** `jwt.sign` with the configured secret and expiry. */
  type Signer = Claims -> string

  /** `bcrypt.compare(password, hash)`. */
  type PasswordCheck = (string, string) -> bool

  const Scheme: string := "Bearer"
  const AdminRole: string := "admin"

  const MissingToken := Response(401, Error("Falta token de autorización."))
  const MalformedHeader := Response(401, Error("Formato de token inválido."))
  const InvalidToken := Response(401, Error("Token inválido o expirado."))

  /** The token of an `Authorization` header: `header.split(' ')` has to give
      exactly two parts, the first exactly "Bearer"; the token is the second. */
  function BearerToken(header: string): (t: Option<string>)
    ensures t.Some? ==> header == Scheme + " " + t.value && ' ' !in t.value
  {
    var parts := Split(header, ' ');
    JoinSplit(header, ' ');
    if |parts| != 2 || parts[0] != Scheme then None else Some(parts[1])
  }

  /** Every header of the form "Bearer <token>", with no further space, passes
      the shape check, whatever the token (the empty one included); with the
      contract of BearerToken this is an if-and-only-if, so a lower-case
      "bearer" or a second space is refused. */
  lemma BearerTokenAccepts(t: string)
    requires ' ' !in t
    ensures BearerToken(Scheme + " " + t) == Some(t)
  {
    var parts := [Scheme, t];
    assert Join(parts, ' ') == Scheme + " " + t;
    SplitJoin(parts, ' ');
  }

  /** Two of the shapes that are refused. */
  lemma BearerTokenRefuses()
    ensures BearerToken("bearer abc") == None
    ensures BearerToken("Bearer  abc") == None
  {
  }

  /** What `verifyJWT` decides: refuse with a response, or let the handler run
      with the verified payload as `req.user`. */
  datatype Gate = Denied(response: Response) | Admitted(user: Claims)

  /** `verifyJWT`. A missing or empty header, then a header of the wrong shape,
      then a token the verifier refuses, each stop the request with 401; the
      verifier is asked only about the token of a well-formed header. */
  function VerifyJwt(authorization: Option<string>, verify: Verifier): (g: Gate)
    ensures authorization.None? || authorization == Some("") ==> g == Denied(MissingToken)
    ensures authorization.Some? && authorization.value != "" && BearerToken(authorization.value).None?
            ==> g == Denied(MalformedHeader)
    ensures g.Admitted? <==>
              authorization.Some? && BearerToken(authorization.value).Some?
              && verify(BearerToken(authorization.value).value).Some?
    ensures g.Admitted? ==> verify(BearerToken(authorization.value).value) == Some(g.user)
    ensures g.Denied? ==> g.response.status == 401
  {
    if authorization.None? || authorization.value == "" then Denied(MissingToken)
    else
      match BearerToken(authorization.value)
      case None => Denied(MalformedHeader)
      case Some(token) =>
        match verify(token)
        case None => Denied(InvalidToken)
        case Some(claims) => Admitted(claims)
  }

  /** A well-formed header reaches the verifier with exactly its token. */
  lemma VerifyJwtOfBearer(t: string, verify: Verifier)
    requires ' ' !in t
    ensures VerifyJwt(Some(Scheme + " " + t), verify)
            == if verify(t).Some? then Admitted(verify(t).value) else Denied(InvalidToken)
  {
    BearerTokenAccepts(t);
  }

  /** `GET /api/test`: answers with the payload `verifyJWT` stored in `req.user`. */
  function TestRoute(authorization: Option<string>, verify: Verifier): (r: Response)
    ensures r.status == 200 <==> VerifyJwt(authorization, verify).Admitted?
    ensures r.status == 200 ==> r.body.Access? && r.body.user == VerifyJwt(authorization, verify).user
    ensures VerifyJwt(authorization, verify).Denied? ==> r == VerifyJwt(authorization, verify).response
  {
    match VerifyJwt(authorization, verify)
    case Denied(response) => response
    case Admitted(user) => Response(200, Access("Acceso concedido a ruta protegida.", user))
  }

  // ---------------------------------------------------------------------------
  // POST /login
  // ---------------------------------------------------------------------------

  /** ADMIN_USERNAME and ADMIN_PASSWORD_HASH from the environment. */
  datatype Config = Config(adminUsername: string, adminPasswordHash: string)

  datatype Credentials = Credentials(username: Field<string>, password: Field<string>)

  const MissingCredentials := Response(400, Error("Faltan credenciales."))
  const InvalidCredentials := Response(401, Error("Usuario o contraseña inválidos."))

  /** The `/login` handler. A token is issued only when both credentials are
      present, the user name is the administrator's and the password matches
      the hash; a wrong user name and a wrong password get the same answer. */
  function Login(cfg: Config, body: Credentials, compare: PasswordCheck, sign: Signer): (r: Response)
    ensures r.status == 400 <==> !Truthy(body.username) || !Truthy(body.password)
    ensures r.status == 400 ==> r == MissingCredentials
    ensures r.status == 401 ==> r == InvalidCredentials
    ensures r.status == 200 <==>
              && Truthy(body.username) && Truthy(body.password)
              && body.username.value == cfg.adminUsername
              && compare(body.password.value, cfg.adminPasswordHash)
    ensures r.status == 200 ==>
              r.body == TokenIssued(sign(Claims(body.username.value, AdminRole)))
    ensures r.status in {200, 400, 401}
  {
    if !Truthy(body.username) || !Truthy(body.password) then MissingCredentials
    else if body.username.value != cfg.adminUsername then InvalidCredentials
    else if !compare(body.password.value, cfg.adminPasswordHash) then InvalidCredentials
    else Response(200, TokenIssued(sign(Claims(body.username.value, AdminRole))))
  }

  /** A wrong user name is answered without looking at the password at all, and
      with the same response a wrong password gets, so the answer does not tell
      which of the two was wrong. */
  lemma LoginDoesNotTellWhichCheckFailed(
    cfg: Config, user: string, wrongUser: string, p1: string, p2: string,
    compare: PasswordCheck, compare': PasswordCheck, sign: Signer, sign': Signer)
    requires user == cfg.adminUsername && user != "" && wrongUser != cfg.adminUsername && wrongUser != ""
    requires p1 != "" && p2 != "" && !compare(p1, cfg.adminPasswordHash)
    ensures Login(cfg, Credentials(Defined(wrongUser), Defined(p2)), compare', sign')
         == Login(cfg, Credentials(Defined(user), Defined(p1)), compare, sign)
         == InvalidCredentials
  {
  }
}
