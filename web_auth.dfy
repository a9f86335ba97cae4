/** The browser-side authentication helper (`web/authHelper.js`): reading
    the token out of the page's cookie string and the guard
    `fetchAuthenticated` runs before it sends a request. The cookie string
    and the page location are inputs. */
module WebAuth {
  import opened Wrappers
  import opened Js
  import opened AccountManager
  import opened AuthMiddleware

  const TokenPrefix := "authToken="

  /** `s.trim()` of a text that is already trimmed gives it back. */
  lemma TrimTrimmed(s: string)
    ensures Trim(Trim(s)) == Trim(s)
  {
    TrimOfTrimmed(Trim(s));
  }

  lemma TrimOfTrimmed(t: string)
    requires t != [] ==> !IsJsSpace(t[0]) && !IsJsSpace(t[|t| - 1])
    ensures Trim(t) == t
  {
    assert TrimStart(t) == t;
  }

  /** The first `;`-separated segment of the cookie string, trimmed. */
  function FirstCookie(cookie: string): string {
    Trim(FirstSegment(cookie, ';'))
  }

  /** `cookie.trim().indexOf("authToken=") !== 0` on the first segment,
      which is already trimmed. */
  predicate LacksPrefix(segment: string) {
    IndexOf(Trim(segment), TokenPrefix) != 0
  }

  lemma LacksPrefixIff(cookie: string)
    ensures LacksPrefix(FirstCookie(cookie)) <==> !(TokenPrefix <= FirstCookie(cookie))
  {
    TrimTrimmed(FirstSegment(cookie, ';'));
    IndexOfZeroIffPrefix(FirstCookie(cookie), TokenPrefix);
  }

  lemma PrefixThenRest(p: string, s: string)
    requires p <= s
    ensures s == p + s[|p|..]
  {
  }

  lemma FirstSegmentWithoutSeparator(s: string, sep: char)
    requires sep !in s
    ensures FirstSegment(s, sep) == s
  {
  }

  /** The decision on the first segment: it must start with `authToken=`
      once trimmed, and the token is what follows. */
  function TokenOfSegment(segment: string): Option<string> {
    if LacksPrefix(segment) then None else Some(Substring(segment, |TokenPrefix|))
  }

  /** `getAuthToken()`: the loop over `document.cookie.split(';')` returns
      on its first element, so only the first segment counts. Trimmed, it
      must start with `authToken=`; the token is the rest of it. */
  function GetAuthToken(cookie: string): (token: Option<string>)
    ensures token.Some? <==> TokenPrefix <= FirstCookie(cookie)
    ensures token.Some? ==> FirstCookie(cookie) == TokenPrefix + token.value
  {
    LacksPrefixIff(cookie);
    var token := TokenOfSegment(FirstCookie(cookie));
    if token.Some? then
      PrefixThenRest(TokenPrefix, FirstCookie(cookie));
      token
    else token
  }

  /** Blanks, the prefix and a value without `;` hold no `;`. */
  lemma NoSeparatorBeforeValue(pre: string, t: string)
    requires AllSpace(pre) && ';' !in t
    ensures ';' !in pre + TokenPrefix + t
  {
    assert !IsJsSpace(';');
    assert forall i :: 0 <= i < |pre| ==> pre[i] != ';';
    assert ';' !in TokenPrefix;
  }

  /** A first segment `authToken=<t>`, with blanks before it, gives back
      `t`. */
  lemma SegmentTokenRoundTrip(pre: string, t: string)
    requires AllSpace(pre)
    requires ';' !in t && (t != [] ==> !IsJsSpace(t[|t| - 1]))
    ensures GetAuthToken(pre + TokenPrefix + t) == Some(t)
  {
    var body := TokenPrefix + t;
    var first := pre + TokenPrefix + t;
    assert FirstCookie(first) == body by {
      NoSeparatorBeforeValue(pre, t);
      FirstSegmentWithoutSeparator(first, ';');
      assert body[0] == 'a' && body[|body| - 1] == (if t == [] then '=' else t[|t| - 1]);
      assert first == pre + body + "";
      TrimAround(pre, body, "");
    }
    assert TokenPrefix <= body;
  }

  /** A cookie string whose first segment is `authToken=<t>`, with blanks
      around it, gives back `t`, whatever follows the first `;`. */
  lemma CookieTokenRoundTrip(pre: string, t: string, rest: string)
    requires AllSpace(pre)
    requires ';' !in t && (t != [] ==> !IsJsSpace(t[|t| - 1]))
    ensures GetAuthToken(pre + TokenPrefix + t + ";" + rest) == Some(t)
  {
    SegmentTokenRoundTrip(pre, t);
    NoSeparatorBeforeValue(pre, t);
    LaterSegmentsIgnored(pre + TokenPrefix + t, rest);
  }

  /** Everything after the first `;` is ignored: a token in a later
      segment is never found. */
  lemma LaterSegmentsIgnored(first: string, rest: string)
    requires ';' !in first
    ensures GetAuthToken(first + ";" + rest) == GetAuthToken(first)
  {
    assert first + ";" + rest == first + [';'] + rest;
    FirstSegmentOfJoin(first, rest, ';');
    FirstSegmentWithoutSeparator(first, ';');
    assert FirstCookie(first + ";" + rest) == FirstCookie(first);
  }

  /** An empty value gives the empty token, not "no token". */
  lemma EmptyValueIsEmptyToken(pre: string)
    requires AllSpace(pre)
    ensures GetAuthToken(pre + TokenPrefix) == Some("")
  {
    var empty: string := "";
    SegmentTokenRoundTrip(pre, empty);
    assert pre + TokenPrefix + empty == pre + TokenPrefix;
  }

  /** The header the helper builds, as written: `Basic <token>`, six
      characters before the token. */
  function BasicHeaderAsWritten(token: string): (header: string)
    ensures |header| == |token| + 6 && header[6..] == token
  {
    "Basic " + token
  }

  /** The header the middleware expects: `Bearer <token>`. */
  function BearerHeader(token: string): (header: string)
    ensures |header| == |token| + SchemeLength && header[SchemeLength..] == token
  {
    "Bearer " + token
  }

  /** As written, the middleware reads the token without its first
      character, or no token at all when it is one character long. */
  lemma BasicHeaderLosesFirstCharacter(token: string)
    ensures |token| <= 1 ==> ExtractToken(Some(BasicHeaderAsWritten(token))).None?
    ensures |token| > 1 ==> ExtractToken(Some(BasicHeaderAsWritten(token))) == Some(token[1..])
  {
    var h := BasicHeaderAsWritten(token);
    if |token| > 1 {
      assert h[..SchemeLength] + token[1..] == h;
    }
  }

  /** So a token issued at login is refused with 401 whenever no live token
      equals it without its first character. */
  lemma BasicHeaderIsRefused(users: seq<UserRow>, tokens: seq<TokenRow>, token: string)
    requires |token| > 1
    requires forall t :: t in tokens ==> t.token != token[1..]
    ensures var sent := ExtractToken(Some(BasicHeaderAsWritten(token)));
      Decide(sent, Resolve(users, tokens, sent.value)) == Rejected(401, InvalidTokenMessage)
  {
    BasicHeaderLosesFirstCharacter(token);
  }

  /** With the corrected header the middleware reads back exactly the
      token that was sent. */
  lemma BearerHeaderRoundTrip(token: string)
    requires token != ""
    ensures ExtractToken(Some(BearerHeader(token))) == Some(token)
  {
    var h := BearerHeader(token);
    assert h[..SchemeLength] + token == h;
  }

  /** What `fetchAuthenticated(url, method, redirect)` does. */
  datatype FetchAction =
    | NoRequest
    | RedirectToLogin(target: string)
    | Request(url: string, verb: string, authorization: string)

  /** `fetchAuthenticated`: with no token or an empty one (both falsy),
      nothing is sent; the page goes to the login page, carrying its own
      encoded location, unless `redirect` is false. Otherwise the request
      carries the token in the `Authorization` header, with the scheme the
      middleware strips. */
  function FetchAuthenticated(cookie: string, url: string, verb: string, redirect: bool, encodedLocation: string)
    : (action: FetchAction)
    ensures action.Request? <==> GetAuthToken(cookie).Some? && GetAuthToken(cookie).value != ""
    ensures action.Request? ==>
      action.url == url && action.verb == verb && action.authorization == BearerHeader(GetAuthToken(cookie).value)
    ensures !action.Request? ==>
      action == (if redirect then RedirectToLogin("../login.html?target=" + encodedLocation) else NoRequest)
  {
    var token := GetAuthToken(cookie);
    if token.None? || token.value == "" then
      if !redirect then NoRequest else RedirectToLogin("../login.html?target=" + encodedLocation)
    else Request(url, verb, BearerHeader(token.value))
  }

  /** A cookie string holding a just-issued token in its first segment
      (`authToken=<token>;…`, taken as given: the login route's own cookie
      is httpOnly and JSON-encoded) is sent, read back, and passes the
      middleware as the user the token was issued for. */
  lemma IssuedCookieAuthenticates(users: seq<UserRow>, nextUserId: int, tokens: seq<TokenRow>, row: UserRow,
                                  tokenId: int, token: string, expiration: int, now: int,
                                  rest: string, url: string, verb: string, here: string)
    requires UsersValid(users, nextUserId) && row in users
    requires forall t :: t in tokens ==> t.token != token
    requires now <= expiration
    requires token != "" && ';' !in token && !IsJsSpace(token[|token| - 1])
    ensures var action := FetchAuthenticated(TokenPrefix + token + ";" + rest, url, verb, true, here);
      && action.Request?
      && var sent := ExtractToken(Some(action.authorization));
      && sent == Some(token)
      && Decide(sent, Resolve(users, Unexpired(tokens + [TokenRow(tokenId, row.id, token, expiration)], now), token))
         == Passed(UserFromRow(row), token)
  {
    assert "" + TokenPrefix + token + ";" + rest == TokenPrefix + token + ";" + rest;
    CookieTokenRoundTrip("", token, rest);
    BearerHeaderRoundTrip(token);
    IssuedTokenResolves(users, nextUserId, tokens, row, tokenId, token, expiration, now);
  }
}
