/** The authentication middleware of the manager (`middleware.ts`): the
    token is cut out of the `Authorization` header, resolved through the
    account store, and either the request is refused or the user is put on
    the request and the next handler runs. */
module AuthMiddleware {
  import opened Wrappers
  import opened Js
  import opened AccountManager

  /** `"Bearer ".length`: how many header characters are dropped. */
  const SchemeLength := 7

  const MissingTokenMessage := "Please provide an auth token"
  const InvalidTokenMessage := "Invalid auth token"

  /** The token the middleware reads: the header without its first seven
      characters, whatever they are; a missing header or an empty remainder
      is no token. */
  function ExtractToken(header: Option<string>): (token: Option<string>)
    ensures token.Some? <==> header.Some? && |header.value| > SchemeLength
    ensures token.Some? ==> header.value == header.value[..SchemeLength] + token.value
  {
    match header
    case None => None
    case Some(h) =>
      var rest := Substring(h, SchemeLength);
      if rest == "" then None else Some(rest)
  }

  /** Any seven-character scheme is accepted: the prefix is never
      compared with "Bearer ". */
  lemma SchemeIsNotChecked(scheme: string, token: string)
    requires |scheme| == SchemeLength && token != ""
    ensures ExtractToken(Some(scheme + token)) == Some(token)
  {
    assert (scheme + token)[..SchemeLength] == scheme;
  }

  /** What the middleware decides. */
  datatype AuthOutcome = Rejected(status: int, message: string) | Passed(user: User, token: string)

  /** The decision once the token is known and resolved. */
  function Decide(token: Option<string>, user: Option<User>): (outcome: AuthOutcome)
    ensures outcome.Passed? <==> token.Some? && user.Some?
    ensures outcome.Passed? ==> outcome.user == user.value && outcome.token == token.value
    ensures token.None? ==> outcome == Rejected(400, MissingTokenMessage)
    ensures token.Some? && user.None? ==> outcome == Rejected(401, InvalidTokenMessage)
  {
    match token
    case None => Rejected(400, MissingTokenMessage)
    case Some(t) =>
      match user
      case None => Rejected(401, InvalidTokenMessage)
      case Some(u) => Passed(u, t)
  }

  /** The parts of the Express request and response the middleware
      touches. */
  class Exchange {
    /** `req.body.user` */
    var bodyUser: Option<User>
    /** `res.locals.authToken` */
    var localsAuthToken: Option<string>
    /** How often `next()` ran. */
    var nextCalls: nat
    /** The status and text sent, if any. */
    var sent: Option<(int, string)>

    constructor ()
      ensures bodyUser.None? && localsAuthToken.None? && nextCalls == 0 && sent.None?
    {
      bodyUser, localsAuthToken, nextCalls, sent := None, None, 0, None;
    }
  }

  /** `authMiddleware`: only the header is read. Without a token, 400 and
      the store is not touched; otherwise the store is opened and asked for
      the user (purging expired tokens), and either 401 or the user and
      token are stored on the exchange and `next` runs once. */
  method Authenticate(store: AccountStore, ex: Exchange, header: Option<string>, now: int)
    returns (outcome: AuthOutcome)
    modifies store`isOpen, store`tokens, ex
    ensures var token := ExtractToken(header);
      && (token.None? ==>
            outcome == Rejected(400, MissingTokenMessage)
            && store.isOpen == old(store.isOpen) && store.tokens == old(store.tokens))
      && (token.Some? ==>
            store.isOpen && store.tokens == Unexpired(old(store.tokens), now)
            && outcome == Decide(token, Resolve(store.users, store.tokens, token.value)))
    ensures outcome.Rejected? ==>
      ex.sent == Some((outcome.status, outcome.message)) && ex.nextCalls == old(ex.nextCalls)
      && ex.bodyUser == old(ex.bodyUser) && ex.localsAuthToken == old(ex.localsAuthToken)
    ensures outcome.Passed? ==>
      ex.bodyUser == Some(outcome.user) && ex.localsAuthToken == Some(outcome.token)
      && ex.nextCalls == old(ex.nextCalls) + 1 && ex.sent == old(ex.sent)
  {
    var token := ExtractToken(header);
    if token.None? {
      outcome := Decide(token, None);
      ex.sent := Some((outcome.status, outcome.message));
      return;
    }
    store.OpenDatabase();
    var user := store.GetUser(token.value, now);
    outcome := Decide(token, user);
    if outcome.Rejected? {
      ex.sent := Some((outcome.status, outcome.message));
      return;
    }
    ex.bodyUser := Some(outcome.user);
    ex.localsAuthToken := Some(outcome.token);
    ex.nextCalls := ex.nextCalls + 1;
  }
}
