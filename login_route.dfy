/**
 * The login endpoint (POST /api/auth/login): look up the active user by name, check
 * the password against the stored hash, read the user's location grants, sign a
 * session token and answer with the user, the grants and the token, setting the token
 * as an `auth-token` cookie. Password hashing, token signing and the two queries are
 * services the handler calls; each may throw, and any throw becomes a 500 answer.
 */
module LoginRoute {
  import opened Wrappers
  import Db

  /** The outcome of a call that may throw: its value, or the thrown error's message. */
  datatype Attempt<+T> = Done(value: T) | Threw(message: string)

  /** The fields read from the JSON request body. */
  datatype Credentials = Credentials(username: string, password: string)

  /** A row of the grants query: every column of the location plus the grant's two flags. */
  datatype LocationAccess = LocationAccess(location: Db.Location, canView: bool, canEdit: bool)

  /** The token payload. */
  datatype Claims = Claims(id: int, username: string, email: string, role: string)

  /** What is handed to the signer: protected header algorithm, payload and lifetime in seconds. */
  datatype TokenRequest = TokenRequest(algorithm: string, claims: Claims, lifetimeSeconds: int)

  /** The `user` object of a successful answer. */
  datatype PublicUser = PublicUser(id: int, username: string, email: string, role: string)

  datatype Body =
    | ErrorBody(error: string, details: Option<string>)
    | LoginBody(user: PublicUser, locations: seq<LocationAccess>, token: string)

  datatype Cookie = Cookie(
    name: string, value: string, httpOnly: bool, secure: bool,
    sameSite: string, maxAge: int, path: string)

  /** A JSON answer: status, body and the cookie it sets, if any. */
  datatype Response = Response(status: int, body: Body, cookie: Option<Cookie>)

  /**
   * The calls the handler makes: the active-user lookup by name, the hash comparison
   * of (password, stored hash), the grants query by user id, and the signer.
   */
  datatype Services = Services(
    findActiveUsers: string -> Attempt<seq<Db.UserRow>>,
    passwordMatches: (string, string) -> Attempt<bool>,
    locationsOf: int -> Attempt<seq<LocationAccess>>,
    sign: TokenRequest -> Attempt<string>)

  const SessionSeconds: int := 86400  // 24 hours: the token's expiry and the cookie's max-age

  // ---------------------------------------------------------------- the answers

  const Unauthorized: Response := Response(401, ErrorBody("Invalid credentials", None), None)

  function Failed(message: string): Response {
    Response(500, ErrorBody("Login failed", Some(message)), None)
  }

  /** The token for a user: HS256 over exactly its id, name, e-mail and role, valid for 24 hours. */
  function TokenFor(user: Db.UserRow): (t: TokenRequest)
    ensures t.algorithm == "HS256" && t.lifetimeSeconds == SessionSeconds
    ensures t.claims.id == user.id && t.claims.username == user.username
    ensures t.claims.email == user.email && t.claims.role == user.role
  {
    TokenRequest("HS256", Claims(user.id, user.username, user.email, user.role), SessionSeconds)
  }

  /** The answer's `user` object: the same four fields the token payload carries. */
  function Public(user: Db.UserRow): (p: PublicUser)
    ensures p.id == TokenFor(user).claims.id && p.username == TokenFor(user).claims.username
    ensures p.email == TokenFor(user).claims.email && p.role == TokenFor(user).claims.role
  {
    PublicUser(user.id, user.username, user.email, user.role)
  }

  /** The session cookie: HTTP-only, same-site strict, site-wide, 24 hours, secure only in production. */
  function AuthCookie(token: string, production: bool): (c: Cookie)
    ensures c.name == "auth-token" && c.value == token
    ensures c.httpOnly && c.sameSite == "strict" && c.maxAge == SessionSeconds && c.path == "/"
    ensures c.secure <==> production
  {
    Cookie("auth-token", token, true, production, "strict", SessionSeconds, "/")
  }

  // ---------------------------------------------------------------- the handler

  /** The handler; `production` says whether the process runs in the production environment. */
  function Post(request: Attempt<Credentials>, production: bool, services: Services): (r: Response)
    ensures r.status == 200 || r.status == 401 || r.status == 500
    ensures r.status == 401 ==> r == Unauthorized
    ensures r.status == 500 ==> r.body.ErrorBody? && r.body.error == "Login failed" && r.body.details.Some? && r.cookie.None?
    ensures r.status == 200 <==> r.cookie.Some?
    ensures r.status == 200 ==> r.body.LoginBody? && r.cookie == Some(AuthCookie(r.body.token, production))
  {
    match request
    case Threw(m) => Failed(m)
    case Done(credentials) =>
      match services.findActiveUsers(credentials.username)
      case Threw(m) => Failed(m)
      case Done(rows) =>
        if |rows| == 0 then Unauthorized
        else
          var user := rows[0];
          match services.passwordMatches(credentials.password, user.passwordHash)
          case Threw(m) => Failed(m)
          case Done(valid) =>
            if !valid then Unauthorized
            else
              match services.locationsOf(user.id)
              case Threw(m) => Failed(m)
              case Done(locations) =>
                match services.sign(TokenFor(user))
                case Threw(m) => Failed(m)
                case Done(token) =>
                  Response(200, LoginBody(Public(user), locations, token), Some(AuthCookie(token, production)))
  }

  // ---------------------------------------------------------------- what the answer tells

  /** The user the handler settles on: the first active row with the name, when the lookup succeeds. */
  ghost predicate Found(request: Attempt<Credentials>, services: Services, user: Db.UserRow) {
    && request.Done?
    && services.findActiveUsers(request.value.username).Done?
    && |services.findActiveUsers(request.value.username).value| > 0
    && services.findActiveUsers(request.value.username).value[0] == user
  }

  /**
   * Success exactly when the body parses, the user is found, the password matches and
   * the grants query and the signer both return; the answer then carries that user, those
   * grants and that token, which is also the cookie's value.
   */
  lemma SuccessExactly(request: Attempt<Credentials>, production: bool, services: Services)
    ensures Post(request, production, services).status == 200 <==>
      exists user :: Found(request, services, user)
        && services.passwordMatches(request.value.password, user.passwordHash) == Done(true)
        && services.locationsOf(user.id).Done?
        && services.sign(TokenFor(user)).Done?
    ensures forall user :: Found(request, services, user) && Post(request, production, services).status == 200 ==>
      Post(request, production, services) == Response(200,
        LoginBody(Public(user), services.locationsOf(user.id).value, services.sign(TokenFor(user)).value),
        Some(AuthCookie(services.sign(TokenFor(user)).value, production)))
  {
    var r := Post(request, production, services);
    if r.status == 200 {
      var user := services.findActiveUsers(request.value.username).value[0];
      assert Found(request, services, user);
    }
  }

  /** No active user with that name: 401 with no cookie. */
  lemma UnknownUserIsUnauthorized(credentials: Credentials, production: bool, services: Services)
    requires services.findActiveUsers(credentials.username) == Done([])
    ensures Post(Done(credentials), production, services) == Unauthorized
  {
  }

  /**
   * A wrong password gets the very answer an unknown user gets, so a caller cannot tell
   * whether the name exists.
   */
  lemma WrongPasswordLooksLikeUnknownUser(known: Credentials, unknown: Credentials, production: bool, services: Services)
    requires services.findActiveUsers(known.username).Done?
    requires |services.findActiveUsers(known.username).value| > 0
    requires services.passwordMatches(known.password, services.findActiveUsers(known.username).value[0].passwordHash) == Done(false)
    requires services.findActiveUsers(unknown.username) == Done([])
    ensures Post(Done(known), production, services) == Post(Done(unknown), production, services)
    ensures Post(Done(known), production, services).cookie.None?
  {
  }

  /** A throw anywhere in the handler becomes a 500 that carries the thrown message. */
  lemma ThrowsBecomeFailures(credentials: Credentials, production: bool, services: Services, user: Db.UserRow, message: string)
    requires Found(Done(credentials), services, user)
    requires services.passwordMatches(credentials.password, user.passwordHash) == Threw(message)
          || (services.passwordMatches(credentials.password, user.passwordHash) == Done(true)
              && services.locationsOf(user.id) == Threw(message))
          || (services.passwordMatches(credentials.password, user.passwordHash) == Done(true)
              && services.locationsOf(user.id).Done? && services.sign(TokenFor(user)) == Threw(message))
    ensures Post(Done(credentials), production, services) == Failed(message)
  {
  }

  /** A request body that does not parse, or a lookup that throws, also ends in a 500. */
  lemma EarlyThrowsBecomeFailures(request: Attempt<Credentials>, production: bool, services: Services)
    requires request.Threw? || services.findActiveUsers(request.value.username).Threw?
    ensures Post(request, production, services).status == 500
    ensures request.Threw? ==> Post(request, production, services) == Failed(request.message)
  {
  }

  /**
   * The token payload and the answer's `user` hold the same four fields, and neither
   * depends on the password hash or the active flag of the row.
   */
  lemma TokenMatchesAnswer(user: Db.UserRow, other: Db.UserRow)
    requires other.id == user.id && other.username == user.username
    requires other.email == user.email && other.role == user.role
    ensures TokenFor(other) == TokenFor(user)
    ensures Public(user) == PublicUser(TokenFor(user).claims.id, TokenFor(user).claims.username,
                                      TokenFor(user).claims.email, TokenFor(user).claims.role)
  {
  }

  // ---------------------------------------------------------------- the queries over the tables

  /** A grant row of the user joined with one location row of the same id. */
  predicate GrantedAs(g: Db.Grant, userId: int, a: LocationAccess) {
    g.userId == userId && g.locationId == a.location.id && g.canView == a.canView && g.canEdit == a.canEdit
  }

  function Tagged(g: Db.Grant, locations: seq<Db.Location>): (r: seq<LocationAccess>)
    ensures forall a :: a in r <==> a.location in locations && a.canView == g.canView && a.canEdit == g.canEdit
  {
    if locations == [] then []
    else [LocationAccess(locations[0], g.canView, g.canEdit)] + Tagged(g, locations[1..])
  }

  /**
   * user_locations JOIN locations WHERE user_id = $1, with no condition on can_view:
   * one row per (grant of the user, location with the granted id).
   */
  function AccessJoin(grants: seq<Db.Grant>, locations: seq<Db.Location>, userId: int): seq<LocationAccess>
  {
    if grants == [] then []
    else
      (if grants[0].userId == userId then Tagged(grants[0], Db.LocationsWithId(locations, grants[0].locationId)) else [])
      + AccessJoin(grants[1..], locations, userId)
  }

  lemma {:induction false} AccessJoinSound(grants: seq<Db.Grant>, locations: seq<Db.Location>, userId: int, a: LocationAccess)
    requires a in AccessJoin(grants, locations, userId)
    ensures a.location in locations && exists g :: g in grants && GrantedAs(g, userId, a)
  {
    if grants != [] {
      var g := grants[0];
      var here := if g.userId == userId then Tagged(g, Db.LocationsWithId(locations, g.locationId)) else [];
      var rest := AccessJoin(grants[1..], locations, userId);
      assert AccessJoin(grants, locations, userId) == here + rest;
      if a in here {
        assert GrantedAs(g, userId, a);
      } else {
        AccessJoinSound(grants[1..], locations, userId, a);
        var h :| h in grants[1..] && GrantedAs(h, userId, a);
        assert h in grants;
      }
    }
  }

  lemma {:induction false} AccessJoinComplete(grants: seq<Db.Grant>, locations: seq<Db.Location>, userId: int, a: LocationAccess, g: Db.Grant)
    requires a.location in locations && g in grants && GrantedAs(g, userId, a)
    ensures a in AccessJoin(grants, locations, userId)
  {
    var here := if grants[0].userId == userId then Tagged(grants[0], Db.LocationsWithId(locations, grants[0].locationId)) else [];
    var rest := AccessJoin(grants[1..], locations, userId);
    assert AccessJoin(grants, locations, userId) == here + rest;
    if g == grants[0] {
      assert a in here;
    } else {
      assert g in grants[1..];
      AccessJoinComplete(grants[1..], locations, userId, a, g);
    }
  }

  /** A row is in the join exactly when the user holds a grant, viewing or not, on that location. */
  lemma AccessJoinMembers(grants: seq<Db.Grant>, locations: seq<Db.Location>, userId: int, a: LocationAccess)
    ensures a in AccessJoin(grants, locations, userId) <==> a.location in locations && exists g :: g in grants && GrantedAs(g, userId, a)
  {
    if a in AccessJoin(grants, locations, userId) {
      AccessJoinSound(grants, locations, userId, a);
    }
    if a.location in locations && exists g :: g in grants && GrantedAs(g, userId, a) {
      var g :| g in grants && GrantedAs(g, userId, a);
      AccessJoinComplete(grants, locations, userId, a, g);
    }
  }

  /** The two queries answered from the tables; hashing and signing stay as given. */
  function TableServices(users: seq<Db.UserRow>, grants: seq<Db.Grant>, locations: seq<Db.Location>,
                         passwordMatches: (string, string) -> Attempt<bool>,
                         sign: TokenRequest -> Attempt<string>): Services
  {
    Services(
      (name: string) => Done(Db.ActiveUsersNamed(users, name)),
      passwordMatches,
      (id: int) => Done(AccessJoin(grants, locations, id)),
      sign)
  }

  /**
   * Over the tables: a name with no active user is a 401; a successful login lists
   * every location the user has a grant on, including grants without can_view, each
   * with the grant's two flags.
   */
  lemma LoginOverTables(users: seq<Db.UserRow>, grants: seq<Db.Grant>, locations: seq<Db.Location>,
                        passwordMatches: (string, string) -> Attempt<bool>, sign: TokenRequest -> Attempt<string>,
                        credentials: Credentials, production: bool)
    ensures var r := Post(Done(credentials), production, TableServices(users, grants, locations, passwordMatches, sign));
      && ((forall u :: u in users ==> !(u.username == credentials.username && u.isActive)) ==> r == Unauthorized)
      && (r.status == 200 ==>
            && r.body.user.username == credentials.username
            && (exists u :: u in users && u.isActive && Public(u) == r.body.user)
            && forall a :: a in r.body.locations <==>
                 a.location in locations && exists g :: g in grants && GrantedAs(g, r.body.user.id, a))
  {
    var services := TableServices(users, grants, locations, passwordMatches, sign);
    var r := Post(Done(credentials), production, services);
    var rows := Db.ActiveUsersNamed(users, credentials.username);
    assert services.findActiveUsers(credentials.username) == Done(rows);
    if r.status == 200 {
      var user := rows[0];
      assert user in rows;
      assert r.body.user == Public(user);
      assert services.locationsOf(user.id) == Done(AccessJoin(grants, locations, user.id));
      forall a
        ensures a in r.body.locations <==> a.location in locations && exists g :: g in grants && GrantedAs(g, r.body.user.id, a)
      {
        AccessJoinMembers(grants, locations, user.id, a);
      }
    }
  }

  /** A grant without can_view still shows up in the login answer, flagged as not viewable. */
  lemma NonViewingGrantListed(users: seq<Db.UserRow>, grants: seq<Db.Grant>, locations: seq<Db.Location>,
                              passwordMatches: (string, string) -> Attempt<bool>, sign: TokenRequest -> Attempt<string>,
                              credentials: Credentials, production: bool, g: Db.Grant, l: Db.Location)
    requires Post(Done(credentials), production, TableServices(users, grants, locations, passwordMatches, sign)).status == 200
    requires g in grants && !g.canView && l in locations && l.id == g.locationId
    requires g.userId == Post(Done(credentials), production, TableServices(users, grants, locations, passwordMatches, sign)).body.user.id
    ensures LocationAccess(l, false, g.canEdit) in
      Post(Done(credentials), production, TableServices(users, grants, locations, passwordMatches, sign)).body.locations
  {
    var r := Post(Done(credentials), production, TableServices(users, grants, locations, passwordMatches, sign));
    LoginOverTables(users, grants, locations, passwordMatches, sign, credentials, production);
    assert GrantedAs(g, r.body.user.id, LocationAccess(l, false, g.canEdit));
  }
}
