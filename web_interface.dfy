/** The container page helpers of the web interface
    (`web/webinterface/util.js`): the cached container id read from the
    page's `id` query parameter, and the URLs of the requests made for that
    container. The page's query parameter and the server's answers are
    inputs; the request itself goes through a `fetchAuthenticated` helper
    that is not part of this model. */
module WebInterface {
  import opened Wrappers
  import opened Decimal
  import opened Js

  /** Neither a printed integer nor "NaN" holds a '?' or a '&'. */
  lemma NumberTextIsPlain(n: JsNumber)
    ensures '?' !in NumberText(n) && '&' !in NumberText(n)
  {
    if n.Num? {
      var s := ShowInt(n.value);
      if n.value < 0 {
        assert s == "-" + ShowNat(-n.value);
        forall k | 1 <= k < |s| ensures IsDigit(s[k]) {
          assert s[k] == ShowNat(-n.value)[k - 1];
        }
      }
    }
  }

  /** The character that opens the id parameter: '?' when `url` has no
      query yet (`url.indexOf("?") === -1`), '&' when it has one. */
  function ParamSeparator(url: string): (sep: char)
    ensures sep == (if '?' in url then '&' else '?')
  {
    IndexOfCharAbsent(url, '?');
    if IndexOf(url, "?") == -1 then '?' else '&'
  }

  /** The URL `sendToContainer(url, ...)` requests: `/container<url>`, then
      the id as one more query parameter. */
  function ContainerRequestUrl(url: string, id: JsNumber): string {
    "/container" + url + [ParamSeparator(url)] + "id=" + NumberText(id)
  }

  /** A route without a query gets `?id=<id>`; a route with one gets
      `&id=<id>`. */
  lemma ContainerUrlShape(url: string, id: JsNumber)
    ensures '?' !in url ==> ContainerRequestUrl(url, id) == "/container" + url + "?id=" + NumberText(id)
    ensures '?' in url ==> ContainerRequestUrl(url, id) == "/container" + url + "&id=" + NumberText(id)
  {
    var sep := ParamSeparator(url);
    assert ContainerRequestUrl(url, id) == "/container" + url + ([sep] + "id=") + NumberText(id);
  }

  /** The built URL has exactly one '?' whenever the route had at most
      one: the id never opens a second query string. */
  lemma OneQueryString(url: string, id: JsNumber)
    requires multiset(url)['?'] <= 1
    ensures multiset(ContainerRequestUrl(url, id))['?'] == 1
  {
    NumberTextIsPlain(id);
    assert '?' in url ==> multiset(url)['?'] == 1;
    OneMark("/container", url, ParamSeparator(url), "id=", NumberText(id));
  }

  lemma OneMark(head: string, url: string, sep: char, key: string, value: string)
    requires '?' !in head && '?' !in key && '?' !in value
    requires multiset(url)['?'] + (if sep == '?' then 1 else 0) == 1
    ensures multiset(head + url + [sep] + key + value)['?'] == 1
  {
    assert multiset(head + url + [sep] + key + value)
      == multiset(head) + multiset(url) + multiset([sep]) + multiset(key) + multiset(value);
  }

  /** The id is the last parameter of the URL and reads back as the same
      number. */
  lemma IdReadsBack(url: string, i: int)
    ensures exists head :: ContainerRequestUrl(url, Num(i)) == head + "id=" + ShowInt(i)
    ensures ToNumber(ShowInt(i)) == Num(i)
  {
    var head := "/container" + url + (if '?' in url then "&" else "?");
    assert ContainerRequestUrl(url, Num(i)) == head + "id=" + ShowInt(i);
    ToNumberShowInt(i);
  }

  /** A request handed to `fetchAuthenticated`. */
  datatype ClientRequest = ClientRequest(url: string, verb: string, redirect: bool)

  /** How `validateContainerId()` settles. */
  datatype Validation =
    | NoContainerId       // resolves to undefined: no id on the page
    | NotValid            // resolves to null: the server refused the id
    | Valid(json: string) // resolves to the container the server sent
    | Rejected            // rejects with a TypeError after a 401

  /** The result once the server answered `status` with `body`. On a 401
      `fetchAuthenticated` starts the redirect to the login page and
      returns undefined; reading `status` of undefined then throws, so the
      promise rejects instead of resolving. */
  function ValidationOf(status: int, body: string): (v: Validation)
    ensures v.Valid? <==> status == 200
    ensures v.Valid? ==> v.json == body
    ensures v.Rejected? <==> status == 401
    ensures v == NotValid <==> status != 200 && status != 401
  {
    if status == 401 then Rejected
    else if status != 200 then NotValid
    else Valid(body)
  }

  /** The id the cache holds after `getContainerId()` ran with the page
      parameter `param`. */
  function CachedAfter(cached: Option<JsNumber>, param: Option<string>): (id: Option<JsNumber>)
    ensures cached.Some? ==> id == cached
    ensures cached.None? ==> (id.Some? <==> param.Some?)
    ensures cached.None? && param.Some? ==> id == Some(ToNumber(param.value))
  {
    if cached.Some? then cached
    else if param.None? then None
    else Some(ToNumber(param.value))
  }

  /** The module-level `containerId` cache. */
  class ContainerIdCache {
    var containerId: Option<JsNumber>

    constructor ()
      ensures containerId.None?
    {
      containerId := None;
    }

    /** `getContainerId()`: with an id already cached it returns undefined
        and changes nothing; otherwise the page's `id` parameter decides:
        absent, the cache stays empty and undefined is returned; present,
        its numeric conversion is cached and returned. */
    method GetContainerId(param: Option<string>) returns (r: Option<JsNumber>)
      modifies this
      ensures old(containerId).Some? ==> r.None? && containerId == old(containerId)
      ensures old(containerId).None? && param.None? ==> r.None? && containerId.None?
      ensures old(containerId).None? && param.Some? ==>
        r == Some(ToNumber(param.value)) && containerId == r
    {
      if containerId.Some? {
        return None;
      }
      if param.None? {
        containerId := None;
        return None;
      }
      containerId := Some(ToNumber(param.value));
      r := containerId;
    }

    /** `sendToContainer(url, method, redirect)`: nothing is sent without a
        container id; otherwise the request goes to the container URL. */
    method SendToContainer(param: Option<string>, url: string, verb: string, redirect: bool)
      returns (request: Option<ClientRequest>)
      modifies this
      ensures containerId == CachedAfter(old(containerId), param)
      ensures containerId.None? ==> request.None?
      ensures containerId.Some? ==>
        request == Some(ClientRequest(ContainerRequestUrl(url, containerId.value), verb, redirect))
    {
      var _ := GetContainerId(param);
      if containerId.None? {
        return None;
      }
      request := Some(ClientRequest(ContainerRequestUrl(url, containerId.value), verb, redirect));
    }

    /** `validateContainerId()`: without a container id nothing is asked
        and the result is undefined; otherwise the server is asked about
        the id, and its answer decides as `ValidationOf`. */
    method ValidateContainerId(param: Option<string>, status: int, body: string)
      returns (result: Validation, request: Option<ClientRequest>)
      modifies this
      ensures containerId == CachedAfter(old(containerId), param)
      ensures containerId.None? ==> result == NoContainerId && request.None?
      ensures containerId.Some? ==>
        request == Some(ClientRequest("/api/validateContainerId?id=" + NumberText(containerId.value), "GET", true))
        && result == ValidationOf(status, body)
    {
      var _ := GetContainerId(param);
      if containerId.None? {
        return NoContainerId, None;
      }
      request := Some(ClientRequest("/api/validateContainerId?id=" + NumberText(containerId.value), "GET", true));
      result := ValidationOf(status, body);
    }
  }

}
