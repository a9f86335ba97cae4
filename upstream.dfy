/** Requests the manager sends with axios to a game-server container's own
    HTTP surface, and what comes back. */
module Upstream {
  import opened Wrappers
  import opened Decimal

  datatype HttpMethod = Get | Put

  /** An opaque JSON payload (a request body or a response's `data`). */
  datatype Payload = Payload(json: string)

  /** The statuses axios's default `validateStatus` accepts. */
  type SuccessStatus = s: int | 200 <= s < 300 witness 200

  /** What an axios request settles to. With axios's default status check a
      non-2xx answer (the host's 400 for a missing parameter, say) rejects
      like a network error, so `Failed` covers both; `Answered` carries a
      2xx status and its data. */
  datatype UpstreamOutcome = Answered(status: SuccessStatus, data: Payload) | Failed

  /** A JSON request body as its top-level fields, each field's value
      written as JSON text. */
  type Fields = map<string, string>

  datatype UpstreamRequest = UpstreamRequest(url: string, verb: HttpMethod, data: Option<Fields>)

  const LocalhostPrefix := "http://localhost:"

  /** `http://localhost:${port}${route}`. */
  function LocalUrl(port: int, route: string): (url: string)
    ensures LocalhostPrefix <= url
  {
    LocalhostPrefix + ShowInt(port) + route
  }

  lemma ShowIntHasNoSlash(i: int)
    ensures '/' !in ShowInt(i)
  {
    var s := ShowInt(i);
    if i < 0 {
      assert s == "-" + ShowNat(-i);
      assert forall k :: 1 <= k < |s| ==> IsDigit(s[k]) by {
        forall k | 1 <= k < |s| ensures IsDigit(s[k]) {
          assert s[k] == ShowNat(-i)[k - 1];
        }
      }
    }
  }

  /** The port text ends where the route's leading '/' begins, so a URL
      names one port and one route: requests to two different containers,
      or to two different routes, never share a URL. */
  lemma LocalUrlInjective(p1: int, r1: string, p2: int, r2: string)
    requires r1 != [] && r1[0] == '/' && r2 != [] && r2[0] == '/'
    requires LocalUrl(p1, r1) == LocalUrl(p2, r2)
    ensures p1 == p2 && r1 == r2
  {
    var a, b := ShowInt(p1), ShowInt(p2);
    ShowIntHasNoSlash(p1);
    ShowIntHasNoSlash(p2);
    var n := |LocalhostPrefix|;
    assert a + r1 == b + r2 by {
      assert LocalUrl(p1, r1)[n..] == a + r1;
      assert LocalUrl(p2, r2)[n..] == b + r2;
    }
    assert forall k :: 0 <= k < |a| ==> (a + r1)[k] != '/';
    assert forall k :: 0 <= k < |b| ==> (b + r2)[k] != '/';
    assert (a + r1)[|a|] == '/' && (b + r2)[|b|] == '/';
    assert |a| == |b|;
    assert a == (a + r1)[..|a|] == (b + r2)[..|b|] == b;
    assert r1 == (a + r1)[|a|..] == (b + r2)[|b|..] == r2;
    if p1 != p2 {
      ShowIntInjective(p1, p2);
    }
  }
}
