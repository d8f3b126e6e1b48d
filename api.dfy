/** services/api.ts: the client API and the mock server (`mockFetch`) it talks to. The mock
    server keeps its users in the 'xylos_ai_users_db' table and the client keeps the session
    token in 'xylos_ai_auth_token'. Latency, logging, `uuidv4()` and `new Date()` are left to
    the caller: the id a registration would draw and the current time are parameters. */
module Api {
  import opened Wrappers
  import opened Types
  import opened Text
  import opened Directory
  import opened Storage
  import opened Token

  const ApiBase := "/api"
  const RegisterPath := "/api/auth/register"
  const LoginPath := "/api/auth/login"
  const MePath := "/api/auth/me"
  const UsersPrefix := "/api/users/"

  const EmailInUse := "An account with this email already exists."
  const InvalidCredentials := "Invalid email or password."
  const Unauthorized := "Unauthorized"
  const InvalidToken := "Invalid token"
  const UserNotFound := "User not found"
  const NotFound := "Not Found"
  const RequestFailed := "API request failed"
  const PasswordTooShort := "Password must be at least 6 characters long."

  /** A request as `mockFetch` sees it: the method (absent when none is given), the path,
      the Authorization header, and the JSON body as an object with string values. */
  datatype Request = Request(httpMethod: Option<string>, path: string, authorization: Option<string>,
                             body: map<string, string>)

  /** A user as the server sends it: `const { password, ...userResponse } = user`. */
  datatype PublicUser = PublicUser(id: Option<string>, name: string, email: string, avatar: string,
                                   lastLogin: Option<string>)

  datatype Payload =
    | ErrorBody(message: string)
    | UserBody(user: PublicUser)
    | SessionBody(user: PublicUser, token: string)

  datatype Response = Response(status: int, payload: Payload)

  function Public(u: User): (p: PublicUser)
  {
    PublicUser(u.id, u.name, u.email, u.avatar, u.lastLogin)
  }

  /** The password is the only field a response leaves out. */
  lemma PublicOmitsOnlyPassword(u: User, v: User)
    ensures Public(u) == Public(v) <==> u.(password := v.password) == v
  {
  }

  predicate StartsWith(s: string, prefix: string)
  {
    |prefix| <= |s| && s[..|prefix|] == prefix
  }

  /** The text up to the first space: `split(' ')[0]`. */
  function FirstField(s: string): (r: string)
    ensures |r| <= |s| && r == s[..|r|] && ' ' !in r
    ensures |r| == |s| || s[|r|] == ' '
  {
    if s == [] || s[0] == ' ' then [] else [s[0]] + FirstField(s[1..])
  }

  /** The token of an Authorization header: `null` unless the header starts with 'Bearer ',
      then the second space-separated field, `authHeader.split(' ')[1]`. */
  function BearerToken(header: Option<string>): (r: Option<string>)
    ensures r.Some? <==> header.Some? && StartsWith(header.value, "Bearer ")
    ensures r.Some? ==> ' ' !in r.value && StartsWith(header.value, "Bearer " + r.value)
    ensures r.Some? ==> |header.value| == 7 + |r.value| || header.value[7 + |r.value|] == ' '
  {
    if header.Some? && StartsWith(header.value, "Bearer ") then
      var t := FirstField(header.value[7..]);
      assert header.value[..7 + |t|] == "Bearer " + t;
      Some(t)
    else None
  }

  /** The header `apiFetch` attaches: `Bearer ${token}` when a non-empty token is stored. */
  function AuthorizationHeader(token: Option<string>): Option<string>
  {
    if token.Some? && token.value != "" then Some("Bearer " + token.value) else None
  }

  /** The server reads back the token the client sends, as long as the token holds no space. */
  lemma BearerRoundTrip(t: string)
    requires t != [] && ' ' !in t
    ensures BearerToken(AuthorizationHeader(Some(t))) == Some(t)
  {
    var h := "Bearer " + t;
    assert h[7..] == t;
    var f := FirstField(t);
    assert forall i :: 0 <= i < |t| ==> t[i] != ' ';
    assert |f| == |t| && f == t;
    assert h[..7] == "Bearer ";
  }

  function Lookup(body: map<string, string>, key: string): Option<string>
  {
    if key in body then Some(body[key]) else None
  }

  /** `{ ...u, ...body }` for the user fields a body can carry. */
  function Merge(u: User, body: map<string, string>): (r: User)
    ensures body.Keys <= {"name", "avatar"} ==>
              r == u.(name := if "name" in body then body["name"] else u.name,
                      avatar := if "avatar" in body then body["avatar"] else u.avatar)
  {
    User(if "id" in body then Some(body["id"]) else u.id,
         if "name" in body then body["name"] else u.name,
         if "email" in body then body["email"] else u.email,
         if "password" in body then Some(body["password"]) else u.password,
         if "avatar" in body then body["avatar"] else u.avatar,
         if "lastLogin" in body then Some(body["lastLogin"]) else u.lastLogin)
  }

  /** POST /api/auth/register: 409 for a taken normalized e-mail, otherwise one row is
      appended and 201 carries the new user and a token for its id. */
  function RegisterRoute(db: seq<User>, body: map<string, string>, freshId: string, now: string)
    : (r: (Response, seq<User>))
    requires "name" in body && "email" in body
    ensures Exists(db, ByEmail(NormalizeEmail(body["email"]))) ==>
              r == (Response(409, ErrorBody(EmailInUse)), db)
    ensures !Exists(db, ByEmail(NormalizeEmail(body["email"]))) ==>
              var key := NormalizeEmail(body["email"]);
              var u := User(Some(freshId), Trim(body["name"]), key, Lookup(body, "password"),
                            AvatarUrl(key), Some(now));
              r == (Response(201, SessionBody(Public(u), EncodeToken(Claims(Some(freshId))))), db + [u])
  {
    var key := NormalizeEmail(body["email"]);
    if Exists(db, ByEmail(key)) then (Response(409, ErrorBody(EmailInUse)), db)
    else
      var u := User(Some(freshId), Trim(body["name"]), key, Lookup(body, "password"), AvatarUrl(key), Some(now));
      (Response(201, SessionBody(Public(u), EncodeToken(Claims(Some(freshId))))), db + [u])
  }

  /** POST /api/auth/login: the first row with the normalized e-mail and the same password
      gets a new `lastLogin` and 200 carries it with a token for its id; otherwise 401. */
  function LoginRoute(db: seq<User>, body: map<string, string>, now: string): (r: (Response, seq<User>))
    requires "email" in body
    ensures var k := ByCredentials(NormalizeEmail(body["email"]), Lookup(body, "password"));
            && (r.0.status == 200 <==> Exists(db, k))
            && (!Exists(db, k) ==> r == (Response(401, ErrorBody(InvalidCredentials)), db))
            && (Exists(db, k) ==>
                  var i := FindIndex(db, k).value;
                  var u := db[i].(lastLogin := Some(now));
                  r == (Response(200, SessionBody(Public(u), EncodeToken(Claims(u.id)))), db[i := u]))
  {
    match LoginStep(db, NormalizeEmail(body["email"]), Lookup(body, "password"), now)
    case (Some(u), db') => (Response(200, SessionBody(Public(u), EncodeToken(Claims(u.id)))), db')
    case (None, _) => (Response(401, ErrorBody(InvalidCredentials)), db)
  }

  /** GET /api/auth/me: the first row with the token's user id, or 404. */
  function MeRoute(db: seq<User>, claims: Claims): (r: Response)
    ensures r.status == 200 <==> Exists(db, ById(claims.userId))
    ensures r.status == 200 ==>
              r.payload == UserBody(Public(db[FindIndex(db, ById(claims.userId)).value]))
    ensures r.status != 200 ==> r == Response(404, ErrorBody(UserNotFound))
  {
    match FindIndex(db, ById(claims.userId))
    case Some(i) => Response(200, UserBody(Public(db[i])))
    case None => Response(404, ErrorBody(UserNotFound))
  }

  /** PUT /api/users/...: merges the body over the first row with the TOKEN's user id
      (the id in the path is not read), or 404. */
  function PutUserRoute(db: seq<User>, claims: Claims, body: map<string, string>): (r: (Response, seq<User>))
    ensures !Exists(db, ById(claims.userId)) ==> r == (Response(404, ErrorBody(UserNotFound)), db)
    ensures Exists(db, ById(claims.userId)) ==>
              var i := FindIndex(db, ById(claims.userId)).value;
              r == (Response(200, UserBody(Public(Merge(db[i], body)))), db[i := Merge(db[i], body)])
  {
    match FindIndex(db, ById(claims.userId))
    case None => (Response(404, ErrorBody(UserNotFound)), db)
    case Some(i) =>
      var u := Merge(db[i], body);
      (Response(200, UserBody(Public(u))), db[i := u])
  }

  predicate IsRegister(req: Request)
  {
    req.path == RegisterPath && req.httpMethod == Some("POST")
  }

  predicate IsLogin(req: Request)
  {
    req.path == LoginPath && req.httpMethod == Some("POST")
  }

  /** The body fields the register and login routes dereference (`body.email.trim()`,
      `body.name.trim()`); without them the source throws a TypeError. */
  predicate BodyReady(req: Request)
  {
    (IsRegister(req) ==> "name" in req.body && "email" in req.body)
    && (IsLogin(req) ==> "email" in req.body)
  }

  /** `mockFetch`: the routes in the order the source tries them. */
  function Dispatch(db: seq<User>, req: Request, freshId: string, now: string): (r: (Response, seq<User>))
    requires BodyReady(req)
    ensures !IsRegister(req) && !IsLogin(req) && BearerToken(req.authorization).None? ==>
              r == (Response(401, ErrorBody(Unauthorized)), db)
    ensures !IsRegister(req) && !IsLogin(req) && !StartsWith(req.path, UsersPrefix) ==>
              r.1 == db
    ensures r.0.status != 200 && r.0.status != 201 ==> r.1 == db
  {
    if IsRegister(req) then RegisterRoute(db, req.body, freshId, now)
    else if IsLogin(req) then LoginRoute(db, req.body, now)
    else match BearerToken(req.authorization)
      case None => (Response(401, ErrorBody(Unauthorized)), db)
      case Some(token) =>
        match DecodeToken(token)
        case None => (Response(401, ErrorBody(InvalidToken)), db)
        case Some(claims) =>
          if req.path == MePath && req.httpMethod == Some("GET") then (MeRoute(db, claims), db)
          else if StartsWith(req.path, UsersPrefix) && req.httpMethod == Some("PUT") then
            PutUserRoute(db, claims, req.body)
          else (Response(404, ErrorBody(NotFound)), db)
  }

  predicate IsOk(status: int)
  {
    200 <= status <= 299
  }

  /** Every refusal of the mock server carries a non-empty message, and only refusals do. */
  lemma DispatchRefusalsCarryMessage(db: seq<User>, req: Request, freshId: string, now: string)
    requires BodyReady(req)
    ensures var resp := Dispatch(db, req, freshId, now).0;
            && (IsOk(resp.status) <==> !resp.payload.ErrorBody?)
            && (resp.payload.ErrorBody? ==> resp.payload.message != "")
  {
  }

  /** A registration's token, sent back as a bearer token, makes /api/auth/me answer with
      the account just created (its id being new to the table, as `uuidv4` ids are). */
  lemma RegisterThenMe(db: seq<User>, req: Request, freshId: string, now: string, later: string)
    requires IsRegister(req) && BodyReady(req)
    requires !Exists(db, ById(Some(freshId)))
    requires Dispatch(db, req, freshId, now).0.status == 201
    ensures var (resp, db') := Dispatch(db, req, freshId, now);
            && resp.payload.SessionBody?
            && var me := Request(Some("GET"), MePath, AuthorizationHeader(Some(resp.payload.token)), map[]);
               Dispatch(db', me, freshId, later).0 == Response(200, UserBody(resp.payload.user))
  {
    var (resp, db') := Dispatch(db, req, freshId, now);
    var u := db'[|db|];
    assert db' == db + [u];
    var c := Claims(Some(freshId));
    TokenHasNoSpace(c);
    BearerRoundTrip(EncodeToken(c));
    TokenRoundTrip(c);
    FindIndexAppend(db, u, ById(Some(freshId)));
  }

  /** The token a successful log-in returns decodes to the id of the user it returns. */
  lemma LoginTokenNamesUser(db: seq<User>, body: map<string, string>, now: string)
    requires "email" in body
    requires LoginRoute(db, body, now).0.status == 200
    ensures var p := LoginRoute(db, body, now).0.payload;
            p.SessionBody? && DecodeToken(p.token) == Some(Claims(p.user.id))
  {
    var k := ByCredentials(NormalizeEmail(body["email"]), Lookup(body, "password"));
    var i := FindIndex(db, k).value;
    TokenRoundTrip(Claims(db[i].id));
  }

  /** PUT /api/users/<id> ignores <id>: any two such paths do the same thing. */
  lemma PutIgnoresPathId(db: seq<User>, req: Request, otherPath: string, freshId: string, now: string)
    requires req.httpMethod == Some("PUT")
    requires StartsWith(req.path, UsersPrefix) && StartsWith(otherPath, UsersPrefix)
    ensures Dispatch(db, req, freshId, now) == Dispatch(db, req.(path := otherPath), freshId, now)
  {
  }

  /** The server keeps e-mails unique, as long as no PUT body carries an e-mail. */
  lemma DispatchKeepsEmailsUnique(db: seq<User>, req: Request, freshId: string, now: string)
    requires BodyReady(req) && EmailsUnique(db)
    requires "email" !in req.body || IsRegister(req) || IsLogin(req)
    ensures EmailsUnique(Dispatch(db, req, freshId, now).1)
  {
    var db' := Dispatch(db, req, freshId, now).1;
    if IsRegister(req) {
      var key := NormalizeEmail(req.body["email"]);
      if !Exists(db, ByEmail(key)) {
        forall i | 0 <= i < |db| ensures db'[i].email != db'[|db|].email {
          assert !Matches(db[i], ByEmail(key));
        }
      }
    } else if IsLogin(req) {
      forall j | 0 <= j < |db| ensures db'[j].email == db[j].email {
        var l := LoginStep(db, NormalizeEmail(req.body["email"]), Lookup(req.body, "password"), now);
        assert l.1[j].(lastLogin := db[j].lastLogin) == db[j];
      }
      SameEmailsKeepUnique(db, db');
    } else {
      assert |db'| == |db|;
      assert forall j :: 0 <= j < |db| ==> db'[j].email == db[j].email;
      SameEmailsKeepUnique(db, db');
    }
  }

  /** The register and login routes answer without looking at the Authorization header. */
  lemma DispatchAuthRoutes(db: seq<User>, req: Request, freshId: string, now: string)
    requires BodyReady(req)
    ensures IsRegister(req) ==> Dispatch(db, req, freshId, now) == RegisterRoute(db, req.body, freshId, now)
    ensures IsLogin(req) ==> Dispatch(db, req, freshId, now) == LoginRoute(db, req.body, now)
  {
  }

  /** Past register and login, a request with a bearer token is answered by the token and
      the route: 401 'Invalid token' when the token does not decode, then /api/auth/me for a
      GET, PUT /api/users/... for a PUT, and 404 'Not Found' for everything else. */
  lemma DispatchProtectedRoutes(db: seq<User>, req: Request, token: string, freshId: string, now: string)
    requires BodyReady(req) && !IsRegister(req) && !IsLogin(req)
    requires BearerToken(req.authorization) == Some(token)
    ensures DecodeToken(token).None? ==>
              Dispatch(db, req, freshId, now) == (Response(401, ErrorBody(InvalidToken)), db)
    ensures DecodeToken(token).Some? && req.path == MePath && req.httpMethod == Some("GET") ==>
              Dispatch(db, req, freshId, now) == (MeRoute(db, DecodeToken(token).value), db)
    ensures DecodeToken(token).Some? && StartsWith(req.path, UsersPrefix) && req.httpMethod == Some("PUT") ==>
              Dispatch(db, req, freshId, now) == PutUserRoute(db, DecodeToken(token).value, req.body)
    ensures DecodeToken(token).Some?
            && !(req.path == MePath && req.httpMethod == Some("GET"))
            && !(StartsWith(req.path, UsersPrefix) && req.httpMethod == Some("PUT")) ==>
              Dispatch(db, req, freshId, now) == (Response(404, ErrorBody(NotFound)), db)
  {
  }

  /** `mockFetch` as it runs: each route reads the table, pushes or rewrites one row in place
      and writes the table back. */
  method MockFetch(store: WebStorage, req: Request, freshId: string, now: string) returns (resp: Response)
    requires BodyReady(req)
    modifies store`usersDb
    ensures (resp, store.usersDb) == Dispatch(old(store.usersDb), req, freshId, now)
  {
    var body := req.body;
    if IsRegister(req) {
      var db := store.usersDb;
      var key := NormalizeEmail(body["email"]);
      if Exists(db, ByEmail(key)) {
        return Response(409, ErrorBody(EmailInUse));
      }
      var newUser := User(Some(freshId), Trim(body["name"]), key, Lookup(body, "password"),
                          AvatarUrl(key), Some(now));
      db := db + [newUser];
      store.usersDb := db;
      var token := EncodeToken(Claims(newUser.id));
      return Response(201, SessionBody(Public(newUser), token));
    }
    if IsLogin(req) {
      var db := store.usersDb;
      var idx := FindIndex(db, ByCredentials(NormalizeEmail(body["email"]), Lookup(body, "password")));
      if idx.Some? {
        var user := db[idx.value].(lastLogin := Some(now));
        db := db[idx.value := user];
        store.usersDb := db;
        var token := EncodeToken(Claims(user.id));
        return Response(200, SessionBody(Public(user), token));
      }
      return Response(401, ErrorBody(InvalidCredentials));
    }
    var token := BearerToken(req.authorization);
    if token.None? {
      return Response(401, ErrorBody(Unauthorized));
    }
    var decoded := DecodeToken(token.value);
    if decoded.None? {
      return Response(401, ErrorBody(InvalidToken));
    }
    if req.path == MePath && req.httpMethod == Some("GET") {
      var db := store.usersDb;
      var idx := FindIndex(db, ById(decoded.value.userId));
      if idx.Some? {
        return Response(200, UserBody(Public(db[idx.value])));
      }
      return Response(404, ErrorBody(UserNotFound));
    }
    if StartsWith(req.path, UsersPrefix) && req.httpMethod == Some("PUT") {
      var db := store.usersDb;
      var userIndex := FindIndex(db, ById(decoded.value.userId));
      if userIndex.Some? {
        var i := userIndex.value;
        db := db[i := Merge(db[i], body)];
        store.usersDb := db;
        return Response(200, UserBody(Public(db[i])));
      }
      return Response(404, ErrorBody(UserNotFound));
    }
    resp := Response(404, ErrorBody(NotFound));
  }

  /** The outcome of `apiFetch` for a response: its body when the status is 2xx, otherwise
      an error carrying the server's message ('API request failed' when there is none). */
  function ToApiResult(resp: Response): (r: Result<Payload>)
    ensures r.Success? <==> IsOk(resp.status)
    ensures r.Success? ==> r.value == resp.payload
    ensures r.Failure? && resp.payload.ErrorBody? && resp.payload.message != "" ==>
              r.error == resp.payload.message
    ensures r.Failure? && !(resp.payload.ErrorBody? && resp.payload.message != "") ==>
              r.error == RequestFailed
    ensures r.Failure? ==> r.error != ""
  {
    if IsOk(resp.status) then Success(resp.payload)
    else if resp.payload.ErrorBody? && resp.payload.message != "" then Failure(resp.payload.message)
    else Failure(RequestFailed)
  }

  /** The request `apiFetch` sends for a path, with the stored token as bearer token. */
  function ClientRequest(token: Option<string>, path: string, httpMethod: string, body: map<string, string>)
    : Request
  {
    Request(Some(httpMethod), ApiBase + path, AuthorizationHeader(token), body)
  }

  /** `apiFetch`: sends the request with the stored token and turns a non-2xx response into
      an error. `freshId` and `now` stand for what the server would draw. */
  method ApiFetch(store: WebStorage, path: string, httpMethod: string, body: map<string, string>,
                  freshId: string, now: string) returns (r: Result<Payload>)
    requires BodyReady(ClientRequest(store.authToken, path, httpMethod, body))
    modifies store`usersDb
    ensures var (resp, db) := Dispatch(old(store.usersDb), ClientRequest(store.authToken, path, httpMethod, body),
                                       freshId, now);
            store.usersDb == db && r == ToApiResult(resp)
  {
    var header := AuthorizationHeader(store.authToken);
    var response := MockFetch(store, Request(Some(httpMethod), ApiBase + path, header, body), freshId, now);
    if !IsOk(response.status) {
      var message := if response.payload.ErrorBody? && response.payload.message != ""
                     then response.payload.message else RequestFailed;
      return Failure(message);
    }
    r := Success(response.payload);
  }

  /** `login`: the token is stored only when the server accepts the credentials. */
  method Login(store: WebStorage, email: string, password: string, now: string)
    returns (r: Result<(PublicUser, string)>)
    modifies store`usersDb, store`authToken
    ensures var (resp, db) := LoginRoute(old(store.usersDb), map["email" := email, "password" := password], now);
            && store.usersDb == db
            && (r.Success? <==> resp.status == 200)
            && (r.Success? ==> resp.payload == SessionBody(r.value.0, r.value.1)
                               && store.authToken == Some(r.value.1))
            && (r.Failure? ==> r.error == InvalidCredentials && store.authToken == old(store.authToken))
  {
    var body := map["email" := email, "password" := password];
    ghost var db := store.usersDb;
    ghost var req := ClientRequest(store.authToken, "/auth/login", "POST", body);
    assert req.path == LoginPath;
    DispatchAuthRoutes(db, req, "", now);
    // The id `uuidv4` would give is drawn only by the register route.
    var res := ApiFetch(store, "/auth/login", "POST", body, "", now);
    if res.Success? && res.value.SessionBody? {
      store.authToken := Some(res.value.token);
      r := Success((res.value.user, res.value.token));
    } else {
      r := Failure(if res.Failure? then res.error else RequestFailed);
    }
  }

  /** `register`: a short password is refused before any request; the token is stored
      only when the server creates the account. */
  method Register(store: WebStorage, name: string, email: string, password: string,
                  freshId: string, now: string) returns (r: Result<(PublicUser, string)>)
    modifies store`usersDb, store`authToken
    ensures Utf16Length(password) < 6 ==> r == Failure(PasswordTooShort) && unchanged(store)
    ensures Utf16Length(password) >= 6 ==>
              var (resp, db) := RegisterRoute(old(store.usersDb),
                                              map["name" := name, "email" := email, "password" := password],
                                              freshId, now);
              && store.usersDb == db
              && (r.Success? <==> resp.status == 201)
              && (r.Success? ==> resp.payload == SessionBody(r.value.0, r.value.1)
                                 && store.authToken == Some(r.value.1))
              && (r.Failure? ==> r.error == EmailInUse && store.authToken == old(store.authToken))
  {
    if Utf16Length(password) < 6 {
      return Failure(PasswordTooShort);
    }
    var body := map["name" := name, "email" := email, "password" := password];
    ghost var db := store.usersDb;
    ghost var req := ClientRequest(store.authToken, "/auth/register", "POST", body);
    assert req.path == RegisterPath;
    DispatchAuthRoutes(db, req, freshId, now);
    var res := ApiFetch(store, "/auth/register", "POST", body, freshId, now);
    ghost var (resp, db') := RegisterRoute(db, body, freshId, now);
    assert res == ToApiResult(resp) && store.usersDb == db';
    if res.Success? && res.value.SessionBody? {
      store.authToken := Some(res.value.token);
      r := Success((res.value.user, res.value.token));
    } else {
      r := Failure(if res.Failure? then res.error else RequestFailed);
    }
  }

  /** `logout`: forgets the token. */
  method Logout(store: WebStorage)
    modifies store`authToken
    ensures store.authToken == None
  {
    store.authToken := None;
  }

  /** `validateSession`: with no (or an empty) token it answers null without a request;
      otherwise it asks /api/auth/me and, when that fails, forgets the token. */
  method ValidateSession(store: WebStorage) returns (r: Option<PublicUser>)
    modifies store`usersDb, store`authToken
    ensures store.usersDb == old(store.usersDb)
    ensures AuthorizationHeader(old(store.authToken)).None? ==> r == None && unchanged(store)
    ensures AuthorizationHeader(old(store.authToken)).Some? ==>
              var resp := Dispatch(old(store.usersDb), ClientRequest(old(store.authToken), "/auth/me", "GET", map[]),
                                   "", "").0;
              && (resp.status == 200 ==> resp.payload.UserBody? && r == Some(resp.payload.user)
                                         && store.authToken == old(store.authToken))
              && (resp.status != 200 ==> r == None && store.authToken == None)
  {
    if AuthorizationHeader(store.authToken).None? {
      return None;
    }
    // The /auth/me route draws no id and reads no clock.
    var res := ApiFetch(store, "/auth/me", "GET", map[], "", "");
    if res.Success? && res.value.UserBody? {
      r := Some(res.value.user);
    } else {
      store.authToken := None;
      r := None;
    }
  }

  /** `updateUser`: PUT /api/users/<userId> with the new name and avatar; the server applies
      it to the row of the token's user. */
  method UpdateUser(store: WebStorage, userId: string, name: string, avatar: string)
    returns (r: Result<PublicUser>)
    modifies store`usersDb
    ensures var req := ClientRequest(store.authToken, "/users/" + userId, "PUT",
                                     map["name" := name, "avatar" := avatar]);
            var (resp, db) := Dispatch(old(store.usersDb), req, "", "");
            && store.usersDb == db
            && (r.Success? <==> resp.status == 200)
            && (r.Success? ==> resp.payload == UserBody(r.value))
            && (r.Failure? ==> ToApiResult(resp).Failure? && r.error == ToApiResult(resp).error)
  {
    var body := map["name" := name, "avatar" := avatar];
    var res := ApiFetch(store, "/users/" + userId, "PUT", body, "", "");
    if res.Success? && res.value.UserBody? {
      r := Success(res.value.user);
    } else {
      r := Failure(if res.Failure? then res.error else RequestFailed);
    }
  }
}
