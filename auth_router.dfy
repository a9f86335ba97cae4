/** The account routes of the manager (`auth_router.ts`): registration,
    login (token issue) and the current-user route. The router-level hook
    that opens the account store runs first in every route. */
module AuthRouter {
  import opened Wrappers
  import opened AccountManager
  import opened AuthMiddleware

  /** The cookie a successful login sets. `value` is the `[token,
      expiration]` pair and `maxAge` is read by Express in milliseconds. */
  datatype Cookie = Cookie(name: string, value: (string, int), maxAge: int, httpOnly: bool, secure: bool, sameSite: string)

  /** The `maxAge` as written: `7 * 24 * 60 * 60`, a week counted in
      seconds. */
  const CookieMaxAgeAsWritten := 7 * 24 * 60 * 60

  /** A week in milliseconds, the unit Express reads `maxAge` in. */
  const WeekMs := 7 * 24 * 60 * 60 * 1000

  /** The login cookie as the route writes it. */
  function LoginCookieAsWritten(issued: (string, int)): (c: Cookie)
    ensures c.value == issued && c.maxAge == CookieMaxAgeAsWritten
  {
    Cookie("authToken", issued, CookieMaxAgeAsWritten, true, true, "lax")
  }

  /** The login cookie with `maxAge` in the unit Express expects. */
  function LoginCookie(issued: (string, int)): (c: Cookie)
    ensures c.name == "authToken" && c.value == issued && c.httpOnly && c.secure && c.sameSite == "lax"
    ensures c.maxAge == WeekMs
  {
    Cookie("authToken", issued, WeekMs, true, true, "lax")
  }

  /** As written, the cookie is dropped by the browser after a little over
      ten minutes, while the token it carries stays valid for a week (less
      at most one hour for a daylight-saving shift). */
  lemma CookieAsWrittenExpiresLongBeforeToken(issued: (string, int), issuedAt: int)
    requires issued.1 >= issuedAt + WeekMs - 60 * 60 * 1000
    ensures issuedAt + LoginCookieAsWritten(issued).maxAge <= issuedAt + 11 * 60 * 1000 < issued.1
  {
  }

  /** The correction changes only the unit: the written number of seconds
      read as milliseconds, which is a week. The cookie then lives exactly
      the nominal seven days of the token, to within the daylight-saving
      hour. */
  lemma CookieLivesAsLongAsToken(issued: (string, int), issuedAt: int)
    requires issuedAt + WeekMs - 60 * 60 * 1000 <= issued.1 <= issuedAt + WeekMs + 60 * 60 * 1000
    ensures LoginCookie(issued).maxAge == CookieMaxAgeAsWritten * 1000 == WeekMs
    ensures issuedAt + LoginCookie(issued).maxAge - 60 * 60 * 1000 <= issued.1
    ensures issued.1 <= issuedAt + LoginCookie(issued).maxAge + 60 * 60 * 1000
  {
  }

  /** POST /register. 400 without `email`, then 400 without `password`
      (both in the query); 409 when the email is taken; 201 once the user
      row is written. When the INSERT fails, the awaited `createUser`
      rejects and the request is never answered. */
  method Register(store: AccountStore, query: map<string, string>) returns (reply: Reply<string>)
    requires store.Valid()
    modifies store`isOpen, store`users, store`nextUserId
    ensures store.isOpen && store.Valid()
    ensures "email" !in query || "password" !in query ==>
      reply == Respond(400, "") && store.users == old(store.users) && store.nextUserId == old(store.nextUserId)
    ensures "email" in query && "password" in query ==>
      var taken := exists r :: r in old(store.users) && r.email == query["email"];
      && (reply == Respond(409, "") <==> taken)
      && (reply.NoReply? <==> !taken && BreaksInsert(query["email"]))
      && (reply == Respond(409, "") || reply == Respond(201, "") || reply.NoReply?)
      && (reply != Respond(201, "") ==> store.users == old(store.users) && store.nextUserId == old(store.nextUserId))
      && (reply == Respond(201, "") ==>
            store.users == old(store.users) + [UserRow(old(store.nextUserId), query["email"], store.hash(query["password"]))])
  {
    store.OpenDatabase();
    if "email" !in query || "password" !in query {
      return Respond(400, "");
    }
    var created := store.CreateUser(query["email"], query["password"]);
    match created
    case EmailTaken => reply := Respond(409, "");
    case InsertFailed => reply := NoReply;
    case UserInserted => reply := Respond(201, "");
  }

  /** POST /generateAuthToken. The credentials come from the body: 400
      without `email`, then 400 without `password`; 404 when no user has
      that email and password; otherwise the issued token is set as the
      `authToken` cookie and 200 is sent. The random token and its
      expiration are inputs. */
  method GenerateToken(store: AccountStore, body: map<string, string>, freshToken: string, expiration: int)
    returns (status: int, cookie: Option<Cookie>)
    modifies store`isOpen, store`tokens, store`nextTokenId
    ensures store.isOpen
    ensures "email" !in body || "password" !in body ==>
      status == 400 && cookie.None? && store.tokens == old(store.tokens)
    ensures "email" in body && "password" in body ==>
      var row := FindByCredentials(store.users, body["email"], store.hash(body["password"]));
      && (status == 404 <==> row.None?)
      && (status == 404 || status == 200)
      && (status == 404 ==> cookie.None? && store.tokens == old(store.tokens))
      && (status == 200 ==>
            cookie == Some(LoginCookie((freshToken, expiration)))
            && store.tokens == old(store.tokens) + [TokenRow(old(store.nextTokenId), row.value.id, freshToken, expiration)])
  {
    store.OpenDatabase();
    if "email" !in body || "password" !in body {
      return 400, None;
    }
    var issued := store.GenerateAuthToken(body["email"], body["password"], freshToken, expiration);
    if issued.None? {
      return 404, None;
    }
    status, cookie := 200, Some(LoginCookie(issued.value));
  }

  /** GET /user as written: after the middleware, the reply is the query's
      `user` parameter (absent unless the client sent one), not the user
      the middleware resolved. */
  function UserRouteAsWritten(query: map<string, string>, authenticated: User): (reply: Reply<Option<string>>)
    ensures reply.Respond? && reply.status == 200
    ensures reply.body.Some? <==> "user" in query
  {
    Respond(200, if "user" in query then Some(query["user"]) else None)
  }

  /** The authenticated user is never part of the reply as written: two
      callers with the same query get the same answer. */
  lemma UserRouteIgnoresCaller(query: map<string, string>, u: User, v: User)
    ensures UserRouteAsWritten(query, u) == UserRouteAsWritten(query, v)
    ensures "user" !in query ==> UserRouteAsWritten(query, u).body.None?
  {
  }

  /** GET /user answering with the user the middleware put on the
      request. */
  function UserRoute(authenticated: User): (reply: Reply<User>)
    ensures reply == Respond(200, authenticated)
  {
    Respond(200, authenticated)
  }

  /** With the corrected route, a caller who passes the middleware is told
      who they are: the user their token resolves to. */
  lemma UserRouteAnswersResolvedUser(users: seq<UserRow>, tokens: seq<TokenRow>, header: string)
    requires ExtractToken(Some(header)).Some?
    requires Decide(ExtractToken(Some(header)), Resolve(users, tokens, ExtractToken(Some(header)).value)).Passed?
    ensures var token := ExtractToken(Some(header)).value;
      && UserRoute(Decide(Some(token), Resolve(users, tokens, token)).user).body
         in (set r | r in users :: UserFromRow(r))
  {
    var token := ExtractToken(Some(header)).value;
    var u := Decide(Some(token), Resolve(users, tokens, token)).user;
    var r :| r in users && u == UserFromRow(r);
    assert UserFromRow(r) in (set r | r in users :: UserFromRow(r));
  }

  /** A request that matches no route (`GET /register`, `PUT /user`): the
      open hook calls `next`, so the request falls through to
      `router.use(closeDatabase)`, which closes the account store and never
      answers. */
  method UnmatchedRoute(store: AccountStore) returns (reply: Reply<string>)
    modifies store`isOpen
    ensures !store.isOpen && reply.NoReply?
    ensures store.users == old(store.users) && store.tokens == old(store.tokens)
  {
    store.OpenDatabase();
    var closed := store.CloseDatabase();
    assert closed;
    reply := NoReply;
  }
}
