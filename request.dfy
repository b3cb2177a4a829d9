/**
 * The HTTP request object: the method, the server variables and the
 * header, cookie, query and form arrays, with lookups over them. The
 * arrays are the constructor's arguments; reading the superglobals, the
 * body stream, uploaded files and `parse_url` are not part of this model.
 * Query and form values are strings here.
 */
module HttpRequest {
  import opened Php

  type Pairs = seq<(string, string)>

  /** What `query`, `data` and `input` return: the whole array, or one value (or null). */
  datatype Mixed = Whole(all: Pairs) | One(value: Option<string>)

  /** The error the constructor as written raises: `parseHeaders` reads `$this->server` first. */
  const UninitializedServer := "Typed property Newtron\\Core\\Http\\Request::$server must not be accessed before initialization"

  // ---------------------------------------------------------------------
  // parseHeaders
  // ---------------------------------------------------------------------

  /** The header name for a server key 'HTTP_X_Y': 'X-Y'. */
  function HeaderName(key: string): (n: string)
    requires StartsWith(key, "HTTP_")
    ensures '_' !in n
  {
    ReplaceChar(key[5..], '_', "-")
  }

  /** The (name, value) pairs `parseHeaders` takes from the HTTP_* server keys, in order. */
  function HttpHeaderPairs(server: Pairs): (r: Pairs)
    ensures forall i :: 0 <= i < |r| ==> '_' !in r[i].0
    decreases |server|
  {
    if server == [] then []
    else
      var last := server[|server| - 1];
      HttpHeaderPairs(server[..|server| - 1]) +
      (if StartsWith(last.0, "HTTP_") then [(HeaderName(last.0), last.1)] else [])
  }

  /** Content-Type and Content-Length added from the CGI variables, after the HTTP_* headers. */
  function WithContentHeaders(headers: Pairs, server: Pairs): Pairs {
    var ct := Lookup(server, "CONTENT_TYPE");
    var h := if ct.Some? then Put(headers, "Content-Type", ct.value) else headers;
    var cl := Lookup(server, "CONTENT_LENGTH");
    if cl.Some? then Put(h, "Content-Length", cl.value) else h
  }

  /** The header array `parseHeaders` builds from the server variables. */
  function ParsedHeaders(server: Pairs): Pairs {
    WithContentHeaders(PutAll([], HttpHeaderPairs(server)), server)
  }

  /** One more server variable adds its header, if it is an HTTP_* key. */
  lemma HttpHeaderPairsSnoc(server: Pairs, i: nat)
    requires i < |server|
    ensures HttpHeaderPairs(server[..i + 1]) == HttpHeaderPairs(server[..i]) +
      (if StartsWith(server[i].0, "HTTP_") then [(HeaderName(server[i].0), server[i].1)] else [])
  {
    assert server[..i + 1][..i] == server[..i];
  }

  /** `parseHeaders`: one loop over the server variables, then the two content headers. */
  method ParseHeaders(server: Pairs) returns (headers: Pairs)
    ensures headers == ParsedHeaders(server)
  {
    headers := [];
    var i := 0;
    while i < |server|
      invariant 0 <= i <= |server|
      invariant headers == PutAll([], HttpHeaderPairs(server[..i]))
    {
      var key := server[i].0;
      HttpHeaderPairsSnoc(server, i);
      if StartsWith(key, "HTTP_") {
        PutAllAppendOne([], HttpHeaderPairs(server[..i]), (HeaderName(key), server[i].1));
        headers := Put(headers, HeaderName(key), server[i].1);
      } else {
        assert HttpHeaderPairs(server[..i]) + [] == HttpHeaderPairs(server[..i]);
      }
      i := i + 1;
    }
    assert server[..i] == server;
    headers := WithContentHeaders(headers, server);
  }

  /** A header other than the two content headers holds the value of the last server key naming it. */
  lemma HeaderFromServer(server: Pairs, name: string)
    requires name != "Content-Type" && name != "Content-Length"
    ensures Lookup(ParsedHeaders(server), name) ==
      if name in Keys(HttpHeaderPairs(server)) then LookupLast(HttpHeaderPairs(server), name) else None
  {
    PutAllLookup([], HttpHeaderPairs(server), name);
  }

  /** Server keys that are not HTTP_* (and not the content variables) give no headers. */
  lemma NoHttpKeysNoHeaders(server: Pairs)
    requires forall i :: 0 <= i < |server| ==> !StartsWith(server[i].0, "HTTP_")
    requires "CONTENT_TYPE" !in Keys(server) && "CONTENT_LENGTH" !in Keys(server)
    ensures ParsedHeaders(server) == []
  {
    NoHttpPairs(server);
  }

  lemma {:induction false} NoHttpPairs(server: Pairs)
    requires forall i :: 0 <= i < |server| ==> !StartsWith(server[i].0, "HTTP_")
    ensures HttpHeaderPairs(server) == []
    decreases |server|
  {
    if server != [] {
      NoHttpPairs(server[..|server| - 1]);
    }
  }

  /** A lone server key 'HTTP_A_B' becomes the single header 'A-B' with the same value. */
  lemma TwoWordHeader(a: string, b: string, v: string)
    requires '_' !in a && '_' !in b
    ensures ParsedHeaders([("HTTP_" + a + "_" + b, v)]) == [(a + "-" + b, v)]
  {
    var key := "HTTP_" + a + "_" + b;
    var server := [(key, v)];
    var h := [(a + "-" + b, v)];
    TwoWordName(a, b);
    assert server[..0] == [];
    assert HttpHeaderPairs(server) == h;
    assert PutAll([], h) == h by {
      assert h[..0] == [];
    }
    NoContentVariables(key, v);
  }

  /** The header name of 'HTTP_A_B' is 'A-B'. */
  lemma TwoWordName(a: string, b: string)
    requires '_' !in a && '_' !in b
    ensures StartsWith("HTTP_" + a + "_" + b, "HTTP_") && HeaderName("HTTP_" + a + "_" + b) == a + "-" + b
  {
    var key := "HTTP_" + a + "_" + b;
    assert key[..5] == "HTTP_";
    assert key[5..] == (a + "_") + b;
    ReplaceCharAppend(a + "_", b, '_', "-");
    ReplaceCharAppend(a, "_", '_', "-");
    assert ReplaceChar("_", '_', "-") == "-";
  }

  /** A lone HTTP_* variable sets neither content header. */
  lemma NoContentVariables(key: string, v: string)
    requires StartsWith(key, "HTTP_")
    ensures WithContentHeaders([(HeaderName(key), v)], [(key, v)]) == [(HeaderName(key), v)]
  {
    assert key[0] == 'H' && "CONTENT_TYPE"[0] == 'C' && "CONTENT_LENGTH"[0] == 'C';
    assert Lookup([(key, v)], "CONTENT_TYPE") == None;
    assert Lookup([(key, v)], "CONTENT_LENGTH") == None;
  }

  // ---------------------------------------------------------------------
  // Case-insensitive header lookup
  // ---------------------------------------------------------------------

  /** The pairs with their names lower-cased, as `array_change_key_case` visits them. */
  function LowerPairs(headers: Pairs): (r: Pairs)
    ensures |r| == |headers| && forall i :: 0 <= i < |r| ==> r[i] == (Lower(headers[i].0), headers[i].1)
  {
    seq(|headers|, i requires 0 <= i < |headers| => (Lower(headers[i].0), headers[i].1))
  }

  /** `array_change_key_case($headers, CASE_LOWER)[strtolower($name)] ?? null`. */
  function LowerKeyedLookup(headers: Pairs, name: string): Option<string> {
    Lookup(PutAll([], LowerPairs(headers)), Lower(name))
  }

  lemma LowerOfUpper(s: string)
    ensures Lower(Upper(s)) == Lower(s)
  {
    assert forall i :: 0 <= i < |s| ==> LowerChar(UpperChar(s[i])) == LowerChar(s[i]);
  }

  lemma LowerIdempotent(s: string)
    ensures Lower(Lower(s)) == Lower(s)
  {
    assert forall i :: 0 <= i < |s| ==> LowerChar(LowerChar(s[i])) == LowerChar(s[i]);
  }

  /**
   * The lookup ignores case, and when two stored names differ only in case
   * the later one wins.
   */
  lemma HeaderLookupIgnoresCase(headers: Pairs, name: string)
    ensures LowerKeyedLookup(headers, Upper(name)) == LowerKeyedLookup(headers, name)
    ensures LowerKeyedLookup(headers, Lower(name)) == LowerKeyedLookup(headers, name)
    ensures LowerKeyedLookup(headers, name) ==
      if Lower(name) in Keys(LowerPairs(headers)) then LookupLast(LowerPairs(headers), Lower(name)) else None
  {
    LowerOfUpper(name);
    LowerIdempotent(name);
    PutAllLookup([], LowerPairs(headers), Lower(name));
  }

  // ---------------------------------------------------------------------
  // array_merge
  // ---------------------------------------------------------------------

  /**
   * `array_merge` over the concatenated pairs, with the next renumbered index:
   * an integer key is renumbered from 0 and appended, a string key is assigned.
   */
  function Merge(pairs: Pairs): (r: (Pairs, nat))
    decreases |pairs|
  {
    if pairs == [] then ([], 0)
    else
      var (e, n) := Merge(pairs[..|pairs| - 1]);
      var p := pairs[|pairs| - 1];
      if IsIntegerKey(p.0) then (Put(e, IntToString(n), p.1), n + 1) else (Put(e, p.0, p.1), n)
  }

  /** A key with a non-digit that PHP keeps as a string holds the value of its last pair in the merge. */
  lemma {:induction false} MergeStringKey(pairs: Pairs, k: string)
    requires !IsIntegerKey(k) && !AllDigits(k)
    ensures Lookup(Merge(pairs).0, k) == if k in Keys(pairs) then LookupLast(pairs, k) else None
    decreases |pairs|
  {
    if pairs != [] {
      var init := pairs[..|pairs| - 1];
      MergeStringKey(init, k);
      KeysSnoc(pairs);
      var n := Merge(init).1;
      assert k != IntToString(n);
    }
  }

  /** The value of the last pair with key `k` in `a + b`: `b`'s when it has one, else `a`'s. */
  lemma {:induction false} LookupLastAppend(a: Pairs, b: Pairs, k: string)
    ensures LookupLast(a + b, k) == if k in Keys(b) then LookupLast(b, k) else LookupLast(a, k)
    decreases |b|
  {
    if b == [] {
      assert a + b == a;
    } else {
      var b' := b[..|b| - 1];
      var last := b[|b| - 1];
      assert (a + b)[..|a + b| - 1] == a + b' && (a + b)[|a + b| - 1] == last;
      assert LookupLast(a + b, k) == if last.0 == k then Some(last.1) else LookupLast(a + b', k);
      KeysSnoc(b);
      LookupLastAppend(a, b', k);
    }
  }

  // ---------------------------------------------------------------------
  // Client IP
  // ---------------------------------------------------------------------

  const IpKeys: seq<string> := ["HTTP_X_FORWARDED_FOR", "HTTP_X_REAL_IP", "HTTP_CLIENT_IP", "REMOTE_ADDR"]

  /** `!empty($server[$key])` for a string-valued array. */
  predicate NonEmpty(server: Pairs, key: string) {
    Lookup(server, key).Some? && !Falsy(Lookup(server, key).value)
  }

  /** The address `getIP` reports, trying `keys` in order. */
  function IpFrom(server: Pairs, keys: seq<string>): string
    decreases |keys|
  {
    if keys == [] then "0.0.0.0"
    else if NonEmpty(server, keys[0]) then PhpTrim(Split(Lookup(server, keys[0]).value, ',')[0])
    else IpFrom(server, keys[1..])
  }

  /** With none of the four variables set to a non-empty value, the address is '0.0.0.0'. */
  lemma NoAddressGivesZeros(server: Pairs)
    requires forall i :: 0 <= i < |IpKeys| ==> !NonEmpty(server, IpKeys[i])
    ensures IpFrom(server, IpKeys) == "0.0.0.0"
  {
    assert IpKeys[1..][1..][1..][1..] == [];
  }

  /** A forwarded list wins over REMOTE_ADDR, and its first entry is reported. */
  lemma ForwardedWins(server: Pairs, first: string, rest: string)
    requires ',' !in first && NoTrimEnds(first) && !Falsy(first + "," + rest)
    requires Lookup(server, "HTTP_X_FORWARDED_FOR") == Some(first + "," + rest)
    ensures IpFrom(server, IpKeys) == first
  {
    SplitAfterPrefix(first, rest, ',');
    assert first + [','] + rest == first + "," + rest;
    PhpTrimUnchanged(first);
  }

  // ---------------------------------------------------------------------
  // The request
  // ---------------------------------------------------------------------

  /**
   * The constructor as written: `parseHeaders` runs before `$this->server`
   * is assigned, and reading an uninitialised typed property is an error.
   */
  function ConstructAsWritten(server: Pairs): (r: Result<Pairs, string>)
    ensures r == Err(UninitializedServer)
  {
    Err(UninitializedServer)
  }

  class Request {
    const requestMethod: string
    const headers: Pairs
    const cookies: Pairs
    const server: Pairs
    const uri: string
    const get: Pairs
    const post: Pairs

    /** The constructor as intended: the server variables are stored before the headers are parsed from them. */
    constructor(requestMethod: string, server: Pairs, cookies: Pairs, uri: string, get: Pairs, post: Pairs)
      ensures this.requestMethod == requestMethod && this.server == server && this.cookies == cookies
      ensures this.uri == uri && this.get == get && this.post == post
      ensures this.headers == ParsedHeaders(server)
    {
      this.requestMethod := requestMethod;
      this.server := server;
      this.cookies := cookies;
      this.uri := uri;
      this.get := get;
      this.post := post;
      var h := ParseHeaders(server);
      this.headers := h;
    }

    /** `isMethod`: the stored method, as given, against the upper-cased argument. */
    function IsMethod(m: string): (b: bool)
      ensures b <==> requestMethod == Upper(m)
    {
      requestMethod == Upper(m)
    }

    /** `getHeader`: a case-insensitive lookup, or the default. */
    function GetHeader(name: string, default: Option<string> := None): (r: Option<string>)
      ensures LowerKeyedLookup(headers, name).Some? ==> r == LowerKeyedLookup(headers, name)
      ensures LowerKeyedLookup(headers, name).None? ==> r == default
    {
      var v := LowerKeyedLookup(headers, name);
      if v.Some? then v else default
    }

    function GetCookie(key: string, default: Option<string> := None): (r: Option<string>)
      ensures key in Keys(cookies) ==> r == Lookup(cookies, key)
      ensures key !in Keys(cookies) ==> r == default
    {
      var v := Lookup(cookies, key);
      if v.Some? then v else default
    }

    /** `query`: the whole query array for a null key, else the value or the default. */
    function Query(key: Option<string> := None, default: Option<string> := None): (r: Mixed)
      ensures key.None? ==> r == Whole(get)
      ensures key.Some? && key.value in Keys(get) ==> r == One(Lookup(get, key.value))
      ensures key.Some? && key.value !in Keys(get) ==> r == One(default)
    {
      if key.None? then Whole(get)
      else var v := Lookup(get, key.value); One(if v.Some? then v else default)
    }

    /** `data`: the whole form array for a null key, else the value or the default. */
    function Data(key: Option<string> := None, default: Option<string> := None): (r: Mixed)
      ensures key.None? ==> r == Whole(post)
      ensures key.Some? && key.value in Keys(post) ==> r == One(Lookup(post, key.value))
      ensures key.Some? && key.value !in Keys(post) ==> r == One(default)
    {
      if key.None? then Whole(post)
      else var v := Lookup(post, key.value); One(if v.Some? then v else default)
    }

    /** `input`: the merged arrays for a null key; else the form value, then the query value, then the default. */
    function Input(key: Option<string> := None, default: Option<string> := None): (r: Mixed)
      ensures key.None? ==> r == Whole(Merge(get + post).0)
      ensures key.Some? && key.value in Keys(post) ==> r == One(Lookup(post, key.value))
      ensures key.Some? && key.value !in Keys(post) && key.value in Keys(get) ==> r == One(Lookup(get, key.value))
      ensures key.Some? && key.value !in Keys(post) && key.value !in Keys(get) ==> r == One(default)
    {
      if key.None? then Whole(Merge(get + post).0)
      else
        var p := Lookup(post, key.value);
        var g := Lookup(get, key.value);
        One(if p.Some? then p else if g.Some? then g else default)
    }

    /** `isSecure`: HTTPS set and not 'off', or port 443, or a forwarded 'https' protocol. */
    function IsSecure(): (b: bool)
      ensures b <==>
        (NonEmpty(server, "HTTPS") && Lookup(server, "HTTPS").value != "off") ||
        Lookup(server, "SERVER_PORT") == Some("443") ||
        Lookup(server, "HTTP_X_FORWARDED_PROTO") == Some("https")
    {
      (NonEmpty(server, "HTTPS") && Lookup(server, "HTTPS").value != "off") ||
      (NonEmpty(server, "SERVER_PORT") && Lookup(server, "SERVER_PORT").value == "443") ||
      (NonEmpty(server, "HTTP_X_FORWARDED_PROTO") && Lookup(server, "HTTP_X_FORWARDED_PROTO").value == "https")
    }

    /** `getURL`: scheme, '://', the host (default 'localhost') and the URI. */
    function GetURL(): (url: string)
      ensures IsSecure() ==> StartsWith(url, "https://")
      ensures !IsSecure() ==> StartsWith(url, "http://")
      ensures EndsWith(url, uri)
      ensures var s := if IsSecure() then "https://" else "http://";
        var host := if "HTTP_HOST" in Keys(server) then Lookup(server, "HTTP_HOST").value else "localhost";
        |url| == |s| + |host| + |uri| && url[|s|..|s| + |host|] == host
    {
      var prefix := if IsSecure() then "https://" else "http://";
      var host := if "HTTP_HOST" in Keys(server) then Lookup(server, "HTTP_HOST").value else "localhost";
      Concat3(prefix, host, uri);
      prefix + host + uri
    }

    /** `isAjax`: the X-Requested-With header, in any case, is exactly 'XMLHttpRequest'. */
    function IsAjax(): (b: bool)
      ensures forall n :: Lower(n) == Lower("X-Requested-With") ==> (b <==> GetHeader(n) == Some("XMLHttpRequest"))
    {
      GetHeader("X-Requested-With") == Some("XMLHttpRequest")
    }

    /** `getUserAgent`: the HTTP_USER_AGENT server variable, or ''. */
    function GetUserAgent(): (ua: string)
      ensures "HTTP_USER_AGENT" in Keys(server) ==> Some(ua) == Lookup(server, "HTTP_USER_AGENT")
      ensures "HTTP_USER_AGENT" !in Keys(server) ==> ua == ""
    {
      var v := Lookup(server, "HTTP_USER_AGENT");
      if v.Some? then v.value else ""
    }

    /** `getIP`: the first non-empty of the four variables, its first comma-separated entry trimmed. */
    method GetIP() returns (ip: string)
      ensures ip == IpFrom(server, IpKeys)
    {
      var i := 0;
      while i < |IpKeys|
        invariant 0 <= i <= |IpKeys|
        invariant IpFrom(server, IpKeys[i..]) == IpFrom(server, IpKeys)
      {
        assert IpKeys[i..][1..] == IpKeys[i + 1..];
        var v := Lookup(server, IpKeys[i]);
        if v.Some? && !Falsy(v.value) {
          var ips := Split(v.value, ',');
          return PhpTrim(ips[0]);
        }
        i := i + 1;
      }
      return "0.0.0.0";
    }
  }

  /** A stored method that is not upper-case never matches, whatever the argument. */
  lemma LowerCaseMethodNeverMatches(r: Request, m: string)
    requires |r.requestMethod| > 0 && 'a' <= r.requestMethod[0] <= 'z'
    ensures !r.IsMethod(m)
  {
    if |Upper(m)| > 0 {
      assert Upper(m)[0] == UpperChar(m[0]);
    }
  }

  /** For a key with a non-digit, the merged input holds the form value when there is one, else the query value. */
  lemma InputPrefersPost(get: Pairs, post: Pairs, k: string)
    requires !IsIntegerKey(k) && !AllDigits(k)
    ensures Lookup(Merge(get + post).0, k) ==
      if k in Keys(post) then LookupLast(post, k) else if k in Keys(get) then LookupLast(get, k) else None
  {
    MergeStringKey(get + post, k);
    LookupLastAppend(get, post, k);
    assert Keys(get + post) == Keys(get) + Keys(post);
  }
}
