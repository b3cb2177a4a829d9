/**
 * The HTTP response object: a status code, an ordered header map, a body
 * and a list of cookies, updated in place by chained setters, plus the
 * static creators. Sending the response is not part of this model.
 */
module HttpResponse {
  import opened Php
  import HttpStatus

  /** A `Status|int` argument. */
  datatype StatusArg = Case(status: HttpStatus.Status) | Code(code: int)

  /** A `Status` case is stored as its backing integer. */
  function CodeOf(a: StatusArg): (c: int)
    ensures a.Case? ==> HttpStatus.FromCode(c) == Some(a.status)
    ensures a.Code? ==> c == a.code
  {
    match a
    case Case(s) =>
      HttpStatus.FromCodeOfCode(s);
      HttpStatus.Code(s)
    case Code(c) => c
  }

  /** One `compact()`ed cookie record. */
  datatype Cookie = Cookie(name: string, value: string, expires: int, path: string,
                           domain: string, secure: bool, httpOnly: bool)

  /** What a strict-typed call raises when a PHP array key reached it as an integer. */
  const HeaderNameTypeError := "Newtron\\Core\\Http\\Response::setHeader(): Argument #1 ($name) must be of type string, int given"

  /** What `setContent` raises when `json_encode` returned false. */
  const ContentTypeError := "Newtron\\Core\\Http\\Response::setContent(): Argument #1 ($content) must be of type string, bool given"

  const ContentType := "Content-Type"
  const HtmlType := "text/html; charset=utf-8"
  const TextType := "text/plain; charset=utf-8"
  const JsonType := "application/json"

  /** The index of the first pair whose key PHP stores as an integer, or `|pairs|`. */
  function FirstIntegerKey(pairs: seq<(string, string)>): (n: nat)
    ensures n <= |pairs|
    ensures n < |pairs| ==> IsIntegerKey(pairs[n].0)
    ensures forall i :: 0 <= i < n ==> !IsIntegerKey(pairs[i].0)
    decreases |pairs|
  {
    if |pairs| == 0 then 0
    else if IsIntegerKey(pairs[0].0) then 0
    else 1 + FirstIntegerKey(pairs[1..])
  }

  class Response {
    var statusCode: int
    var headers: seq<(string, string)>
    var content: string
    var cookies: seq<Cookie>

    /** A new response: status 200 and nothing else. */
    constructor()
      ensures statusCode == 200 && headers == [] && content == "" && cookies == []
    {
      statusCode := 200;
      headers := [];
      content := "";
      cookies := [];
    }

    /** `getHeader`: the value stored under exactly this name, or null. */
    function GetHeader(name: string): (r: Option<string>)
      reads this
      ensures r.None? <==> name !in Keys(headers)
    {
      Lookup(headers, name)
    }

    method SetStatusCode(a: StatusArg)
      modifies this`statusCode
      ensures statusCode == CodeOf(a)
    {
      statusCode := CodeOf(a);
    }

    /** `setHeader`: overwrite by exact name, or append a new header. */
    method SetHeader(name: string, value: string)
      modifies this`headers
      ensures headers == Put(old(headers), name, value)
      ensures GetHeader(name) == Some(value)
      ensures forall n :: n != name ==> GetHeader(n) == old(GetHeader(n))
    {
      headers := Put(headers, name, value);
    }

    /**
     * `setHeaders`: apply each pair in order. A key PHP stores as an integer
     * fails `setHeader`'s string type after the pairs before it were applied.
     */
    method SetHeaders(pairs: seq<(string, string)>) returns (r: Result<(), string>)
      modifies this`headers
      ensures headers == PutAll(old(headers), pairs[..FirstIntegerKey(pairs)])
      ensures r.Ok? <==> FirstIntegerKey(pairs) == |pairs|
      ensures r.Err? ==> r.error == HeaderNameTypeError
    {
      ghost var n := FirstIntegerKey(pairs);
      var i := 0;
      while i < |pairs|
        invariant 0 <= i <= n
        invariant headers == PutAll(old(headers), pairs[..i])
      {
        if IsIntegerKey(pairs[i].0) {
          assert i == n;
          return Err(HeaderNameTypeError);
        }
        PutAllSnoc(old(headers), pairs, i);
        SetHeader(pairs[i].0, pairs[i].1);
        i := i + 1;
      }
      assert i == n;
      return Ok(());
    }

    method SetContent(c: string)
      modifies this`content
      ensures content == c
    {
      content := c;
    }

    /**
     * `setJson`: status, then 'Content-Type: application/json', then the
     * encoding of the data; `json_encode` is a parameter, and its `false`
     * fails `setContent`'s string type.
     */
    method SetJson(encoded: Option<string>, a: StatusArg := Case(HttpStatus.OK)) returns (r: Result<(), string>)
      modifies this`statusCode, this`headers, this`content
      ensures statusCode == CodeOf(a)
      ensures headers == Put(old(headers), ContentType, JsonType)
      ensures r.Ok? <==> encoded.Some?
      ensures content == if encoded.Some? then encoded.value else old(content)
      ensures r.Err? ==> r.error == ContentTypeError
    {
      SetStatusCode(a);
      SetHeader(ContentType, JsonType);
      if encoded.None? {
        return Err(ContentTypeError);
      }
      SetContent(encoded.value);
      return Ok(());
    }

    /** `setHtml`: status, an HTML Content-Type, and the body. */
    method SetHtml(html: string, a: StatusArg := Case(HttpStatus.OK))
      modifies this`statusCode, this`headers, this`content
      ensures statusCode == CodeOf(a) && content == html
      ensures headers == Put(old(headers), ContentType, HtmlType)
    {
      SetStatusCode(a);
      SetHeader(ContentType, HtmlType);
      SetContent(html);
    }

    /** `setText`: status, a plain-text Content-Type, and the body. */
    method SetText(text: string, a: StatusArg := Case(HttpStatus.OK))
      modifies this`statusCode, this`headers, this`content
      ensures statusCode == CodeOf(a) && content == text
      ensures headers == Put(old(headers), ContentType, TextType)
    {
      SetStatusCode(a);
      SetHeader(ContentType, TextType);
      SetContent(text);
    }

    /** `redirect`: status 302 unless given, a Location header, and the body left alone. */
    method Redirect(url: string, a: StatusArg := Case(HttpStatus.Found))
      modifies this`statusCode, this`headers
      ensures statusCode == CodeOf(a)
      ensures headers == Put(old(headers), "Location", url)
      ensures GetHeader("Location") == Some(url)
    {
      SetStatusCode(a);
      SetHeader("Location", url);
    }

    /** `setCookie`: append one record; the defaults are those of the signature. */
    method SetCookie(name: string, value: string, expires: int := 0, path: string := "/",
                     domain: string := "", secure: bool := false, httpOnly: bool := true)
      modifies this`cookies
      ensures cookies == old(cookies) + [Cookie(name, value, expires, path, domain, secure, httpOnly)]
    {
      cookies := cookies + [Cookie(name, value, expires, path, domain, secure, httpOnly)];
    }
  }

  /** `Response::create`: content, then status, then the headers in order. */
  method Create(content: string := "", a: StatusArg := Case(HttpStatus.OK), pairs: seq<(string, string)> := [])
    returns (r: Result<Response, string>)
    ensures r.Ok? <==> FirstIntegerKey(pairs) == |pairs|
    ensures r.Err? ==> r.error == HeaderNameTypeError
    ensures r.Ok? ==> fresh(r.value)
    ensures r.Ok? ==> r.value.content == content && r.value.statusCode == CodeOf(a)
    ensures r.Ok? ==> r.value.headers == PutAll([], pairs) && r.value.cookies == []
  {
    var response := new Response();
    response.SetContent(content);
    response.SetStatusCode(a);
    assert response.content == content && response.headers == [] && response.cookies == [];
    var applied := response.SetHeaders(pairs);
    if applied.Err? {
      return Err(applied.error);
    }
    assert pairs[..FirstIntegerKey(pairs)] == pairs;
    return Ok(response);
  }

  /** `Response::createJson`: a fresh response with `setJson` applied. */
  method CreateJson(encoded: Option<string>, a: StatusArg := Case(HttpStatus.OK)) returns (r: Result<Response, string>)
    ensures r.Ok? <==> encoded.Some?
    ensures r.Err? ==> r.error == ContentTypeError
    ensures r.Ok? ==> fresh(r.value)
    ensures r.Ok? ==> r.value.content == encoded.value && r.value.statusCode == CodeOf(a)
    ensures r.Ok? ==> r.value.headers == [(ContentType, JsonType)] && r.value.cookies == []
  {
    var response := new Response();
    var applied := response.SetJson(encoded, a);
    if applied.Err? {
      return Err(applied.error);
    }
    return Ok(response);
  }

  /** `Response::createRedirect`: a fresh response with only a Location header. */
  method CreateRedirect(url: string, a: StatusArg := Case(HttpStatus.Found)) returns (r: Response)
    ensures fresh(r)
    ensures r.statusCode == CodeOf(a) && r.headers == [("Location", url)]
    ensures r.content == "" && r.cookies == []
  {
    r := new Response();
    r.Redirect(url, a);
  }

  /** A later pair for the same header wins, whatever was set before. */
  lemma LastHeaderWins(old_headers: seq<(string, string)>, pairs: seq<(string, string)>, name: string)
    requires name in Keys(pairs)
    ensures Lookup(PutAll(old_headers, pairs), name) == LookupLast(pairs, name)
  {
    PutAllLookup(old_headers, pairs, name);
  }
}
