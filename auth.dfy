/**
 * Authentication decisions: the login handler (backend/controllers/auth-controller.js), the
 * admin middleware (backend/middlewares/auth-middleware.js) and the client-side route guard
 * (frontend/src/ProtectedRoute.jsx). Signing a token is a symbolic `Token` value and
 * verifying one is a function passed in, so no cryptography is modelled.
 */
module Auth {
  import opened Wrappers
  import opened Text
  import opened Schema
  import Seqs

  const InvalidCredentials := "Credenciales inválidas"
  const LoginMessage := "Login exitoso"
  /** `expiresIn: '1h'`. */
  const TokenLifetimeSeconds := 3600

  const NoTokenError := "Acceso denegado: No se proporcionó token"
  const InvalidTokenError := "Token inválido"
  const NotAdminError := "Acceso denegado: Requiere rol de administrador"

  /** The claims signed into a token: `{ id, username, rol, cli_id }`. */
  datatype Claims = Claims(id: int, username: string, rol: Option<string>, cliId: Option<int>)

  /** `jwt.sign(claims, secret, { expiresIn })`, kept symbolic. */
  datatype Token = Signed(claims: Claims, expiresInSeconds: int)

  /** The `user` object of a successful login: id, username, role and the joined client. */
  datatype UserView = UserView(id: int, username: string, rol: Option<string>, cliente: Option<Cliente>)

  datatype LoginResult =
    | LoggedIn(message: string, token: Token, user: UserView)
    | Rejected(status: int, error: string)
    /** The lookup threw; the handler answers 500 with the exception's message. */
    | ServerError

  function HasUsername(username: string): Usuario -> bool {
    (u: Usuario) => u.username == username
  }

  /** The first user row with the username: `Usuario.findOne({ where: { usu_username } })`. */
  function FindUser(usuarios: seq<Usuario>, username: string): (r: Option<nat>)
    ensures r.Some? ==> r.value < |usuarios| && usuarios[r.value].username == username
    ensures r.None? ==> forall i :: 0 <= i < |usuarios| ==> usuarios[i].username != username
  {
    Seqs.FirstIndex(HasUsername(username), usuarios)
  }

  /**
   * `login`. A username left out makes the lookup throw; a `null` username finds no user.
   * An unknown user and a wrong password are refused with the same 401; otherwise the
   * user's claims are signed for one hour and the user is returned without its password.
   */
  function Login(usuarios: seq<Usuario>, clientes: map<int, Cliente>, username: Field<string>, password: Field<string>)
    : (r: LoginResult)
    ensures username.Absent? <==> r.ServerError?
    ensures r.Rejected? ==> r == Rejected(401, InvalidCredentials)
  {
    match username
    case Absent => ServerError
    case Null => Rejected(401, InvalidCredentials)
    case Value(name) =>
      match FindUser(usuarios, name)
      case None => Rejected(401, InvalidCredentials)
      case Some(i) =>
        var u := usuarios[i];
        if password != Value(u.password) then Rejected(401, InvalidCredentials)
        else
          LoggedIn(LoginMessage,
                   Signed(Claims(u.usuId, u.username, u.rol, u.cliId), TokenLifetimeSeconds),
                   UserView(u.usuId, u.username, u.rol, ClienteOf(clientes, u)))
  }

  /**
   * A login succeeds exactly when a user has that username and its stored password equals
   * the one sent, character for character; the token then carries that user's claims for
   * one hour and the returned user is that user.
   */
  lemma LoginSucceedsIff(usuarios: seq<Usuario>, clientes: map<int, Cliente>, name: string, password: Field<string>)
    requires forall i, j :: 0 <= i < j < |usuarios| ==> usuarios[i].username != usuarios[j].username
    ensures Login(usuarios, clientes, Value(name), password).LoggedIn? <==>
      exists i :: 0 <= i < |usuarios| && usuarios[i].username == name && password == Value(usuarios[i].password)
    ensures forall i :: 0 <= i < |usuarios| && usuarios[i].username == name && password == Value(usuarios[i].password) ==>
      var u := usuarios[i];
      Login(usuarios, clientes, Value(name), password)
        == LoggedIn(LoginMessage, Signed(Claims(u.usuId, u.username, u.rol, u.cliId), TokenLifetimeSeconds),
                    UserView(u.usuId, u.username, u.rol, ClienteOf(clientes, u)))
  {
    match FindUser(usuarios, name)
    case None =>
    case Some(k) =>
      forall i | 0 <= i < |usuarios| && usuarios[i].username == name
        ensures i == k
      {
      }
  }

  /** An unknown username and a wrong password get the very same answer. */
  lemma FailuresIndistinguishable(usuarios: seq<Usuario>, clientes: map<int, Cliente>, unknown: string,
                                  known: nat, wrong: Field<string>)
    requires forall i, j :: 0 <= i < j < |usuarios| ==> usuarios[i].username != usuarios[j].username
    requires forall i :: 0 <= i < |usuarios| ==> usuarios[i].username != unknown
    requires known < |usuarios| && wrong != Value(usuarios[known].password)
    ensures Login(usuarios, clientes, Value(unknown), wrong)
      == Login(usuarios, clientes, Value(usuarios[known].username), wrong)
      == Rejected(401, InvalidCredentials)
  {
    LoginSucceedsIff(usuarios, clientes, usuarios[known].username, wrong);
  }

  /**
   * The response of an accepted login does not depend on the password beyond acceptance:
   * two tables that differ only in the password of the matched user give the same answer.
   */
  lemma LoginHidesPassword(usuarios: seq<Usuario>, clientes: map<int, Cliente>, i: nat, p1: string, p2: string)
    requires i < |usuarios| && FindUser(usuarios, usuarios[i].username) == Some(i)
    ensures var u := usuarios[i];
      Login(usuarios[i := u.(password := p1)], clientes, Value(u.username), Value(p1))
        == Login(usuarios[i := u.(password := p2)], clientes, Value(u.username), Value(p2))
  {
    var u := usuarios[i];
    FindUserIgnoresPasswords(usuarios, i, p1, u.username);
    FindUserIgnoresPasswords(usuarios, i, p2, u.username);
  }

  /** The user lookup reads usernames only: changing a password does not move it. */
  lemma FindUserIgnoresPasswords(usuarios: seq<Usuario>, i: nat, p: string, name: string)
    requires i < |usuarios|
    ensures FindUser(usuarios[i := usuarios[i].(password := p)], name) == FindUser(usuarios, name)
  {
    Seqs.FirstIndexUnchanged(HasUsername(name), usuarios, i, usuarios[i].(password := p));
  }

  datatype GateResult = Next(user: Claims) | Deny(status: int, error: string)

  /** `authHeader && authHeader.split(' ')[1]`, with `None` for a falsy result. */
  function BearerToken(header: Option<string>): (token: Option<string>)
    ensures token.Some? ==> token.value != [] && header.Some?
    ensures token.Some? ==> |Split(header.value, ' ')| >= 2 && token.value == Split(header.value, ' ')[1]
    ensures header.Some? && |Split(header.value, ' ')| >= 2 && Split(header.value, ' ')[1] != [] ==>
      token == Some(Split(header.value, ' ')[1])
  {
    match header
    case None => None
    case Some(h) =>
      var parts := Split(h, ' ');
      if |parts| >= 2 && parts[1] != [] then Some(parts[1]) else None
  }

  /**
   * The admin middleware. `verify` stands for `jwt.verify` with the server's secret: the
   * claims of a valid token, or `None` when it throws. A missing token is 401; a token
   * that does not verify, or claims without a role (`toLowerCase` of `undefined` throws),
   * are 400; a role other than admin in any letter case is 403.
   */
  function AdminGate(header: Option<string>, verify: string -> Option<Claims>): (r: GateResult)
    ensures BearerToken(header).None? ==> r == Deny(401, NoTokenError)
    ensures r.Deny? && r.status == 400 ==> r.error == InvalidTokenError
    ensures r.Deny? ==> r.status in {400, 401, 403}
  {
    match BearerToken(header)
    case None => Deny(401, NoTokenError)
    case Some(token) =>
      match verify(token)
      case None => Deny(400, InvalidTokenError)
      case Some(claims) =>
        match claims.rol
        case None => Deny(400, InvalidTokenError)
        case Some(rol) => if ToLower(rol) != "admin" then Deny(403, NotAdminError) else Next(claims)
  }

  /**
   * `next()` runs exactly when the bearer token verifies and its role lower-cases to
   * "admin", and `req.user` is then the verified claims.
   */
  lemma AdminGateNextIff(header: Option<string>, verify: string -> Option<Claims>)
    ensures AdminGate(header, verify).Next? <==>
      && BearerToken(header).Some?
      && verify(BearerToken(header).value).Some?
      && verify(BearerToken(header).value).value.rol.Some?
      && ToLower(verify(BearerToken(header).value).value.rol.value) == "admin"
    ensures AdminGate(header, verify).Next? ==> AdminGate(header, verify).user == verify(BearerToken(header).value).value
  {
  }

  /**
   * The refusals of the middleware, by case: 403 for a verified role that is not admin in
   * any letter case, and 400 for verified claims without a role.
   */
  lemma AdminGateDenials(header: Option<string>, verify: string -> Option<Claims>)
    ensures BearerToken(header).Some? && verify(BearerToken(header).value).Some? ==>
      var claims := verify(BearerToken(header).value).value;
      && (claims.rol.Some? && ToLower(claims.rol.value) != "admin" ==> AdminGate(header, verify) == Deny(403, NotAdminError))
      && (claims.rol.None? ==> AdminGate(header, verify) == Deny(400, InvalidTokenError))
    ensures AdminGate(header, verify).Deny? && AdminGate(header, verify).status == 403 ==>
      && BearerToken(header).Some? && verify(BearerToken(header).value).Some?
      && verify(BearerToken(header).value).value.rol.Some?
      && ToLower(verify(BearerToken(header).value).value.rol.value) != "admin"
  {
  }

  /** A logged-in user whose role is 'cliente' is refused with 403, not 400. */
  lemma ClienteRoleIs403(c: Claims)
    requires c.rol == Some("cliente")
    ensures AdminGate(Some("Bearer t"), (t: string) => Some(c)) == Deny(403, NotAdminError)
  {
    BearerOf("t");
    assert "Bearer " + "t" == "Bearer t";
    assert ToLower("cliente")[0] == 'c';
  }

  /** A token that fails verification is answered 400, not 401. */
  lemma BadTokenIs400(header: Option<string>, verify: string -> Option<Claims>)
    requires BearerToken(header).Some? && verify(BearerToken(header).value).None?
    ensures AdminGate(header, verify) == Deny(400, InvalidTokenError)
  {
  }

  /** `Bearer <token>` yields the token, for any token without spaces. */
  lemma BearerOf(token: string)
    requires token != [] && ' ' !in token
    ensures BearerToken(Some("Bearer " + token)) == Some(token)
  {
    SplitTwo("Bearer", ' ', token);
    assert "Bearer" + [' '] + token == "Bearer " + token;
  }

  /** 'admin', 'Admin' and 'ADMIN' all lower-case to 'admin'. */
  lemma AdminSpellings(rol: string)
    requires rol == "admin" || rol == "Admin" || rol == "ADMIN"
    ensures ToLower(rol) == "admin"
  {
    var lower := ToLower(rol);
    assert lower[0] == 'a' && lower[1] == 'd' && lower[2] == 'm' && lower[3] == 'i' && lower[4] == 'n';
  }

  /** The role comparison ignores letter case: 'admin', 'Admin' and 'ADMIN' all pass. */
  lemma AdminRoleAnyCase(c: Claims)
    requires c.rol == Some("admin") || c.rol == Some("Admin") || c.rol == Some("ADMIN")
    ensures AdminGate(Some("Bearer t"), (t: string) => Some(c)) == Next(c)
  {
    BearerOf("t");
    assert "Bearer " + "t" == "Bearer t";
    AdminSpellings(c.rol.value);
  }

  /** A header with no second space-separated part carries no token: 401. */
  lemma HeaderWithoutSpaceIs401(h: string, verify: string -> Option<Claims>)
    requires ' ' !in h
    ensures AdminGate(Some(h), verify) == Deny(401, NoTokenError)
  {
    assert IndexOf(h, ' ').None?;
  }

  /**
   * End to end: presenting the token an admin was issued at login as `Bearer <token>`
   * passes the middleware, with the user's own claims, whenever verification returns the
   * claims that were signed.
   */
  lemma AdminLoginPassesGate(
    usuarios: seq<Usuario>, clientes: map<int, Cliente>, name: string, password: string,
    encoded: string, verify: string -> Option<Claims>)
    requires Login(usuarios, clientes, Value(name), Value(password)).LoggedIn?
    requires encoded != [] && ' ' !in encoded
    requires verify(encoded) == Some(Login(usuarios, clientes, Value(name), Value(password)).token.claims)
    requires var rol := Login(usuarios, clientes, Value(name), Value(password)).user.rol;
      rol.Some? && ToLower(rol.value) == "admin"
    ensures AdminGate(Some("Bearer " + encoded), verify)
      == Next(Login(usuarios, clientes, Value(name), Value(password)).token.claims)
  {
    BearerOf(encoded);
  }

  // ----- client-side route guard -----

  datatype RouteDecision = RedirectToLogin | RedirectToHome | RenderOutlet

  /**
   * `ProtectedRoute`: without a stored token (missing or empty) go to /login; with a
   * non-empty `allowedRoles`, a stored role not in it, compared exactly, goes to /; else
   * the nested routes render. `storedRol` is `user.rol` of the stored user, `None` when no
   * user is stored (it parses to `{}`) or the role is not set.
   */
  function Guard(token: Option<string>, storedRol: Option<string>, allowedRoles: seq<string>): (d: RouteDecision)
    ensures token.None? || token == Some("") ==> d == RedirectToLogin
    ensures allowedRoles == [] && token.Some? && token != Some("") ==> d == RenderOutlet
    ensures storedRol.None? && allowedRoles != [] ==> d != RenderOutlet
    ensures token.Some? && token != Some("") && allowedRoles != [] ==>
      && (d == RenderOutlet <==> storedRol.Some? && storedRol.value in allowedRoles)
      && (d != RenderOutlet ==> d == RedirectToHome)
  {
    if token.None? || token == Some("") then RedirectToLogin
    else if |allowedRoles| > 0 && !(storedRol.Some? && storedRol.value in allowedRoles) then RedirectToHome
    else RenderOutlet
  }

  /**
   * The users page sits inside a guard with no roles and a guard allowing 'admin'; it is
   * rendered exactly when a token is stored and the stored role is 'admin', in that case.
   */
  function UsersPage(token: Option<string>, storedRol: Option<string>): (d: RouteDecision)
    ensures token.None? || token == Some("") ==> d == RedirectToLogin
    ensures token.Some? && token != Some("") && storedRol != Some("admin") ==> d == RedirectToHome
  {
    match Guard(token, storedRol, [])
    case RenderOutlet => Guard(token, storedRol, ["admin"])
    case other => other
  }

  lemma UsersPageOnlyAdmin(token: Option<string>, storedRol: Option<string>)
    ensures UsersPage(token, storedRol) == RenderOutlet <==>
      token.Some? && token != Some("") && storedRol == Some("admin")
  {
  }

  /**
   * The server and the client disagree on letter case: a role stored as 'Admin' passes the
   * admin middleware but is sent away from the users page.
   */
  lemma RoleCaseDiffers(c: Claims)
    requires c.rol == Some("Admin")
    ensures AdminGate(Some("Bearer t"), (t: string) => Some(c)).Next?
    ensures UsersPage(Some("t"), c.rol) == RedirectToHome
  {
    AdminRoleAnyCase(c);
  }
}
