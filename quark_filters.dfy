/**
 * The pure half of the Quark engine: the values templates handle, the
 * context-sensitive `escape`, and the built-in filters that pipe expressions
 * apply through `applyFilter`.
 *
 * The engine's source file declares strict types, so the built-in filter
 * closures pass their argument to PHP's string functions without coercion:
 * a non-string where a string is expected is a TypeError, modelled as `Err`.
 */
module QuarkFilters {
  import opened Php

  /**
   * A PHP value as a template sees it. A float carries its `(string)` form
   * (PHP's shortest round-trip spelling, such as "1.5", "-0" or "1.0E+25").
   * Arrays are lists; an object carries what its `__toString` returns, if
   * it has one.
   */
  datatype Value =
    | Null
    | Bool(b: bool)
    | Int(i: int)
    | Float(text: string)
    | Str(s: string)
    | Arr(items: seq<Value>)
    | Obj(stringForm: Option<string>)

  /** `(string)$v`: an array reads "Array" (with a warning), an object needs `__toString`. */
  function ToStr(v: Value): Result<string, string> {
    match v
    case Null => Ok("")
    case Bool(b) => Ok(if b then "1" else "")
    case Int(i) => Ok(IntToString(i))
    case Float(text) => Ok(text)
    case Str(s) => Ok(s)
    case Arr(_) => Ok("Array")
    case Obj(f) => if f.Some? then Ok(f.value) else Err("Object could not be converted to string")
  }

  /** PHP's `empty($v)`; a float is empty when it is zero, spelt "0" or "-0". */
  predicate Empty(v: Value) {
    match v
    case Null => true
    case Bool(b) => !b
    case Int(i) => i == 0
    case Float(text) => text == "0" || text == "-0"
    case Str(s) => Falsy(s)
    case Arr(items) => items == []
    case Obj(_) => false
  }

  // ---------------------------------------------------------------------
  // htmlspecialchars($s, ENT_QUOTES)
  // ---------------------------------------------------------------------

  /** The characters that could open or close markup or an attribute value. */
  predicate IsMarkup(c: char) {
    c == '<' || c == '>' || c == '"' || c == '\''
  }

  function HtmlChar(c: char): string {
    if c == '&' then "&amp;"
    else if c == '<' then "&lt;"
    else if c == '>' then "&gt;"
    else if c == '"' then "&quot;"
    else if c == '\'' then "&#039;"
    else [c]
  }

  /** `htmlspecialchars($s, ENT_QUOTES)`: no markup character survives. */
  function HtmlSpecialChars(s: string): (r: string)
    ensures forall i :: 0 <= i < |r| ==> !IsMarkup(r[i])
  {
    if s == [] then [] else HtmlChar(s[0]) + HtmlSpecialChars(s[1..])
  }

  /** The character and length of one of the five entities at the start of `s`, if any. */
  function Entity(s: string): (r: Option<(char, nat)>)
    ensures r.Some? ==> 1 <= r.value.1 <= |s|
  {
    if StartsWith(s, "&amp;") then Some(('&', 5))
    else if StartsWith(s, "&lt;") then Some(('<', 4))
    else if StartsWith(s, "&gt;") then Some(('>', 4))
    else if StartsWith(s, "&quot;") then Some(('"', 6))
    else if StartsWith(s, "&#039;") then Some(('\'', 6))
    else None
  }

  /** Decoding of the five entities `htmlspecialchars` produces, read left to right. */
  function HtmlDecode(s: string): string
    decreases |s|
  {
    if s == [] then []
    else match Entity(s)
      case Some(e) => [e.0] + HtmlDecode(s[e.1..])
      case None => [s[0]] + HtmlDecode(s[1..])
  }

  lemma NotStartsWith(s: string, e: string, k: nat)
    requires k < |e| && k < |s| && s[k] != e[k]
    ensures !StartsWith(s, e)
  {
    if |e| <= |s| {
      assert s[..|e|][k] != e[k];
    }
  }

  lemma EntityOfChar(c: char, t: string)
    ensures Entity(HtmlChar(c) + t) == if c in {'&', '<', '>', '"', '\''} then Some((c, |HtmlChar(c)|)) else None
  {
    var s := HtmlChar(c) + t;
    var h := HtmlChar(c);
    assert s[..|h|] == h;
    if c == '&' {
    } else if c == '<' {
      NotStartsWith(s, "&amp;", 1);
    } else if c == '>' {
      NotStartsWith(s, "&amp;", 1);
      NotStartsWith(s, "&lt;", 1);
    } else if c == '"' {
      NotStartsWith(s, "&amp;", 1);
      NotStartsWith(s, "&lt;", 1);
      NotStartsWith(s, "&gt;", 1);
    } else if c == '\'' {
      NotStartsWith(s, "&amp;", 1);
      NotStartsWith(s, "&lt;", 1);
      NotStartsWith(s, "&gt;", 1);
      NotStartsWith(s, "&quot;", 1);
    } else {
      NotStartsWith(s, "&amp;", 0);
      NotStartsWith(s, "&lt;", 0);
      NotStartsWith(s, "&gt;", 0);
      NotStartsWith(s, "&quot;", 0);
      NotStartsWith(s, "&#039;", 0);
    }
  }

  lemma HtmlDecodeChar(c: char, t: string)
    ensures HtmlDecode(HtmlChar(c) + t) == [c] + HtmlDecode(t)
  {
    var s := HtmlChar(c) + t;
    EntityOfChar(c, t);
    assert s[|HtmlChar(c)|..] == t;
  }

  /** Decoding the escaped text gives the original text back. */
  lemma {:induction false} HtmlRoundTrip(s: string)
    ensures HtmlDecode(HtmlSpecialChars(s)) == s
  {
    if s != [] {
      HtmlDecodeChar(s[0], HtmlSpecialChars(s[1..]));
      HtmlRoundTrip(s[1..]);
      assert [s[0]] + s[1..] == s;
    }
  }

  // ---------------------------------------------------------------------
  // preg_replace('/[^a-zA-Z0-9\-_]/', '', $s)
  // ---------------------------------------------------------------------

  predicate CssSafe(c: char) {
    'a' <= c <= 'z' || 'A' <= c <= 'Z' || '0' <= c <= '9' || c == '-' || c == '_'
  }

  /** The characters of `s` that are letters, digits, '-' or '_', in order. */
  function CssEscape(s: string): (r: string)
    ensures forall i :: 0 <= i < |r| ==> CssSafe(r[i])
    ensures forall c :: c in r <==> c in s && CssSafe(c)
  {
    if s == [] then []
    else
      var rest := CssEscape(s[1..]);
      assert forall c :: c in s <==> c == s[0] || c in s[1..];
      (if CssSafe(s[0]) then [s[0]] else []) + rest
  }

  /** Removal works piece by piece. */
  lemma {:induction false} CssEscapeConcat(a: string, b: string)
    ensures CssEscape(a + b) == CssEscape(a) + CssEscape(b)
  {
    if a != [] {
      assert (a + b)[0] == a[0] && (a + b)[1..] == a[1..] + b;
      CssEscapeConcat(a[1..], b);
      AppendAssoc(if CssSafe(a[0]) then [a[0]] else [], CssEscape(a[1..]), CssEscape(b));
    } else {
      assert a + b == b;
    }
  }

  /** A string is left unchanged exactly when it holds only safe characters. */
  lemma {:induction false} CssEscapeUnchanged(s: string)
    ensures CssEscape(s) == s <==> forall i :: 0 <= i < |s| ==> CssSafe(s[i])
  {
    if s != [] {
      var t := s[1..];
      CssEscapeUnchanged(t);
      assert s == [s[0]] + t;
      if CssSafe(s[0]) {
        assert CssEscape(s) == [s[0]] + CssEscape(t);
        assert (forall i :: 0 <= i < |s| ==> CssSafe(s[i])) <==> (forall i :: 0 <= i < |t| ==> CssSafe(t[i])) by {
          assert forall i :: 0 <= i < |t| ==> t[i] == s[i + 1];
        }
        assert CssEscape(s) == s <==> CssEscape(t) == t by {
          if CssEscape(s) == s {
            assert CssEscape(t) == CssEscape(s)[1..];
          }
        }
      } else {
        CssEscapeShorter(t);
        assert CssEscape(s) == CssEscape(t);
      }
    }
  }

  lemma {:induction false} CssEscapeShorter(s: string)
    ensures |CssEscape(s)| <= |s|
  {
    if s != [] {
      CssEscapeShorter(s[1..]);
    }
  }

  // ---------------------------------------------------------------------
  // rawurlencode($s)
  // ---------------------------------------------------------------------

  /** The unreserved characters of section 2.3 of RFC 3986. */
  predicate Unreserved(c: char) {
    'a' <= c <= 'z' || 'A' <= c <= 'Z' || '0' <= c <= '9' || c == '-' || c == '.' || c == '_' || c == '~'
  }

  predicate IsByteString(s: string) {
    forall i :: 0 <= i < |s| ==> s[i] as int < 256
  }

  function HexDigit(n: nat): (c: char)
    requires n < 16
  {
    if n < 10 then ('0' as int + n) as char else ('A' as int + n - 10) as char
  }

  function HexValue(c: char): (r: Option<nat>)
    ensures r.Some? ==> r.value < 16
  {
    if '0' <= c <= '9' then Some(c as int - '0' as int)
    else if 'A' <= c <= 'F' then Some(c as int - 'A' as int + 10)
    else if 'a' <= c <= 'f' then Some(c as int - 'a' as int + 10)
    else None
  }

  /** One byte as rawurlencode writes it: itself when unreserved, else '%' and two upper-case hex digits. */
  function UrlChar(c: char): string {
    if Unreserved(c) then [c]
    else "%" + [HexDigit((c as int / 16) % 16), HexDigit(c as int % 16)]
  }

  predicate UrlSafe(c: char) {
    Unreserved(c) || c == '%' || ('A' <= c <= 'F')
  }

  /** `rawurlencode($s)`: only unreserved characters and percent escapes remain. */
  function RawUrlEncode(s: string): (r: string)
    ensures forall i :: 0 <= i < |r| ==> UrlSafe(r[i])
  {
    if s == [] then [] else UrlChar(s[0]) + RawUrlEncode(s[1..])
  }

  /** `rawurldecode($s)`: every '%' followed by two hex digits is the byte they spell. */
  function RawUrlDecode(s: string): string
    decreases |s|
  {
    if s == [] then []
    else if s[0] == '%' && |s| >= 3 && HexValue(s[1]).Some? && HexValue(s[2]).Some? then
      [(HexValue(s[1]).value * 16 + HexValue(s[2]).value) as char] + RawUrlDecode(s[3..])
    else [s[0]] + RawUrlDecode(s[1..])
  }

  lemma UrlDecodeChar(c: char, t: string)
    requires c as int < 256
    ensures RawUrlDecode(UrlChar(c) + t) == [c] + RawUrlDecode(t)
  {
    var s := UrlChar(c) + t;
    if !Unreserved(c) {
      var hi := c as int / 16;
      var lo := c as int % 16;
      assert s[0] == '%' && s[1] == HexDigit(hi) && s[2] == HexDigit(lo) && s[3..] == t;
      assert HexValue(HexDigit(hi)) == Some(hi);
      assert HexValue(HexDigit(lo)) == Some(lo);
      assert (hi * 16 + lo) as char == c;
    } else {
      assert s[0] == c && s[1..] == t;
    }
  }

  /** Decoding the encoded bytes gives the original bytes back. */
  lemma {:induction false} UrlRoundTrip(s: string)
    requires IsByteString(s)
    ensures RawUrlDecode(RawUrlEncode(s)) == s
  {
    if s != [] {
      UrlDecodeChar(s[0], RawUrlEncode(s[1..]));
      UrlRoundTrip(s[1..]);
      assert [s[0]] + s[1..] == s;
    }
  }

  // ---------------------------------------------------------------------
  // escape($value, $context)
  // ---------------------------------------------------------------------

  /**
   * What `escape` raises when json_encode returns false: the method is
   * declared to return a string.
   */
  const EscapeReturnTypeError := "Newtron\\Core\\Quark\\QuarkEngine::escape(): Return value must be of type string, bool returned"

  /**
   * `escape`: null and booleans first, then by context. The 'js' context is
   * json_encode, supplied as `json` (None where it returns false); 'raw' and
   * unknown contexts cast to string.
   */
  function Escape(v: Value, context: string, json: Value -> Option<string>): (r: Result<string, string>)
    ensures v.Null? ==> r == Ok("")
    ensures v.Bool? ==> r == Ok(if v.b then "1" else "")
    ensures context == "js" && !v.Null? && !v.Bool? ==>
      r == if json(v).Some? then Ok(json(v).value) else Err(EscapeReturnTypeError)
    ensures r.Ok? && (context == "html" || context == "attr") && !v.Null? && !v.Bool? ==>
      ToStr(v) == Ok(HtmlDecode(r.value)) && forall i :: 0 <= i < |r.value| ==> !IsMarkup(r.value[i])
    ensures r.Ok? && context == "css" ==> forall i :: 0 <= i < |r.value| ==> CssSafe(r.value[i])
    ensures r.Ok? && context == "url" ==> forall i :: 0 <= i < |r.value| ==> UrlSafe(r.value[i])
    ensures r.Err? <==> !v.Null? && !v.Bool? && (if context == "js" then json(v).None? else ToStr(v).Err?)
  {
    if v.Null? || v.Bool? then Ok(if v.Bool? && v.b then "1" else "")
    else if context == "js" then
      match json(v)
      case Some(s) => Ok(s)
      case None => Err(EscapeReturnTypeError)
    else match ToStr(v)
      case Err(e) => Err(e)
      case Ok(s) =>
        if context == "html" || context == "attr" then HtmlRoundTrip(s); Ok(HtmlSpecialChars(s))
        else if context == "css" then Ok(CssEscape(s))
        else if context == "url" then Ok(RawUrlEncode(s))
        else Ok(s)
  }

  /** The 'raw' context, and any context escape does not know, give the string form unchanged. */
  lemma EscapeRaw(s: string, context: string, json: Value -> Option<string>)
    requires context !in {"html", "attr", "js", "css", "url"}
    ensures Escape(Str(s), context, json) == Ok(s)
  {
  }

  // ---------------------------------------------------------------------
  // Built-in filters
  // ---------------------------------------------------------------------

  /** A filter receives the piped value and the call's extra arguments. */
  type Filter = (Value, seq<Value>) -> Result<Value, string>

  function StringArgError(fn: string): string {
    fn + "(): Argument #1 ($string) must be of type string"
  }

  /** `strtoupper`: ASCII letters upper-cased byte by byte; a non-string is a TypeError. */
  function UpperFilter(v: Value, args: seq<Value>): (r: Result<Value, string>)
    ensures r.Ok? <==> v.Str?
    ensures r.Ok? ==> r.value.Str? && |r.value.s| == |v.s| && forall i :: 0 <= i < |v.s| ==> r.value.s[i] == UpperChar(v.s[i])
    ensures r.Err? ==> r.error == StringArgError("strtoupper")
  {
    if v.Str? then Ok(Str(Upper(v.s))) else Err(StringArgError("strtoupper"))
  }

  /** `strtolower`: ASCII letters lower-cased byte by byte; a non-string is a TypeError. */
  function LowerFilter(v: Value, args: seq<Value>): (r: Result<Value, string>)
    ensures r.Ok? <==> v.Str?
    ensures r.Ok? ==> r.value.Str? && |r.value.s| == |v.s| && forall i :: 0 <= i < |v.s| ==> r.value.s[i] == LowerChar(v.s[i])
    ensures r.Err? ==> r.error == StringArgError("strtolower")
  {
    if v.Str? then Ok(Str(Lower(v.s))) else Err(StringArgError("strtolower"))
  }

  /** `ucfirst($s)`. */
  function Ucfirst(s: string): string {
    if s == [] then [] else [UpperChar(s[0])] + s[1..]
  }

  /** `ucfirst(strtolower($v))`: the first byte upper-cased, the rest lower-cased. */
  function CapitalizeFilter(v: Value, args: seq<Value>): (r: Result<Value, string>)
    ensures r.Ok? <==> v.Str?
    ensures r.Ok? ==> (r.value.Str? && |r.value.s| == |v.s| &&
      (|v.s| > 0 ==> r.value.s[0] == UpperChar(v.s[0])) &&
      forall i :: 1 <= i < |v.s| ==> r.value.s[i] == LowerChar(v.s[i]))
    ensures r.Err? ==> r.error == StringArgError("strtolower")
  {
    if v.Str? then Ok(Str(Ucfirst(Lower(v.s)))) else Err(StringArgError("strtolower"))
  }

  /** `is_countable($v) ? count($v) : strlen($v)`. */
  function LengthFilter(v: Value, args: seq<Value>): (r: Result<Value, string>)
    ensures r.Ok? <==> v.Arr? || v.Str?
    ensures r.Ok? ==> r.value == Int(if v.Arr? then |v.items| else |v.s|)
  {
    match v
    case Arr(items) => Ok(Int(|items|))
    case Str(s) => Ok(Int(|s|))
    case _ => Err(StringArgError("strlen"))
  }

  function Reverse<T>(xs: seq<T>): (r: seq<T>)
    ensures |r| == |xs| && forall i :: 0 <= i < |xs| ==> r[i] == xs[|xs| - 1 - i]
  {
    if xs == [] then [] else Reverse(xs[1..]) + [xs[0]]
  }

  lemma ReverseReverse<T>(xs: seq<T>)
    ensures Reverse(Reverse(xs)) == xs
  {
  }

  /** `is_array($v) ? array_reverse($v) : strrev($v)`. */
  function ReverseFilter(v: Value, args: seq<Value>): (r: Result<Value, string>)
    ensures r.Ok? <==> v.Arr? || v.Str?
    ensures v.Str? ==> r.value.Str? && |r.value.s| == |v.s| && forall i :: 0 <= i < |v.s| ==> r.value.s[i] == v.s[|v.s| - 1 - i]
    ensures v.Arr? ==> (r.value.Arr? && |r.value.items| == |v.items| &&
      forall i :: 0 <= i < |v.items| ==> r.value.items[i] == v.items[|v.items| - 1 - i])
  {
    match v
    case Arr(items) => Ok(Arr(Reverse(items)))
    case Str(s) => Ok(Str(Reverse(s)))
    case _ => Err(StringArgError("strrev"))
  }

  predicate AllInts(items: seq<Value>) {
    forall i :: 0 <= i < |items| ==> items[i].Int?
  }

  function IntsOf(items: seq<Value>): (r: seq<int>)
    requires AllInts(items)
    ensures |r| == |items| && forall i :: 0 <= i < |items| ==> r[i] == items[i].i
  {
    if items == [] then [] else [items[0].i] + IntsOf(items[1..])
  }

  function IntValues(xs: seq<int>): (r: seq<Value>)
    ensures |r| == |xs| && forall i :: 0 <= i < |xs| ==> r[i] == Int(xs[i])
  {
    if xs == [] then [] else [Int(xs[0])] + IntValues(xs[1..])
  }

  predicate Ascending(xs: seq<int>) {
    forall i, j :: 0 <= i < j < |xs| ==> xs[i] <= xs[j]
  }

  function Insert(x: int, xs: seq<int>): (r: seq<int>)
    ensures multiset(r) == multiset(xs) + multiset{x}
  {
    if xs == [] || x <= xs[0] then [x] + xs
    else
      assert xs == [xs[0]] + xs[1..];
      [xs[0]] + Insert(x, xs[1..])
  }

  lemma {:induction false} InsertLowerBound(x: int, xs: seq<int>, b: int)
    requires b <= x && forall i :: 0 <= i < |xs| ==> b <= xs[i]
    ensures forall k :: 0 <= k < |Insert(x, xs)| ==> b <= Insert(x, xs)[k]
  {
    if xs != [] && x > xs[0] {
      InsertLowerBound(x, xs[1..], b);
    }
  }

  lemma {:induction false} InsertAscending(x: int, xs: seq<int>)
    requires Ascending(xs)
    ensures Ascending(Insert(x, xs))
  {
    if xs != [] && x > xs[0] {
      InsertAscending(x, xs[1..]);
      InsertLowerBound(x, xs[1..], xs[0]);
    }
  }

  /** Integers in ascending order, the same integers as before. */
  function SortInts(xs: seq<int>): (r: seq<int>)
    ensures Ascending(r) && multiset(r) == multiset(xs)
  {
    if xs == [] then []
    else
      assert xs == [xs[0]] + xs[1..];
      var rest := SortInts(xs[1..]);
      InsertAscending(xs[0], rest);
      Insert(xs[0], rest)
  }

  /**
   * `sort` on a copy of an array; anything else is returned as it is. Only
   * arrays of integers are ordered here, where PHP's comparison is plain.
   */
  function SortFilter(v: Value, args: seq<Value>): (r: Result<Value, string>)
    ensures !v.Arr? ==> r == Ok(v)
    ensures v.Arr? && AllInts(v.items) ==> (r.Ok? && r.value.Arr? && AllInts(r.value.items) &&
      Ascending(IntsOf(r.value.items)) && multiset(IntsOf(r.value.items)) == multiset(IntsOf(v.items)))
  {
    match v
    case Arr(items) =>
      if AllInts(items) then
        IntsOfIntValues(SortInts(IntsOf(items)));
        Ok(Arr(IntValues(SortInts(IntsOf(items)))))
      else Err("sort: ordering of non-integer elements is not part of this model")
    case _ => Ok(v)
  }

  /** The string forms of a list of values, or the first cast that throws. */
  function StringsOf(items: seq<Value>): Result<seq<string>, string> {
    if items == [] then Ok([])
    else match ToStr(items[0])
      case Err(e) => Err(e)
      case Ok(s) =>
        match StringsOf(items[1..])
        case Err(e) => Err(e)
        case Ok(rest) => Ok([s] + rest)
  }

  /** `is_array($v) ? implode($sep, $v) : $v` with `$sep` defaulting to ', '. */
  function JoinFilter(v: Value, args: seq<Value>): (r: Result<Value, string>)
    ensures !v.Arr? ==> r == Ok(v)
    ensures v.Arr? && |args| > 0 && !args[0].Str? ==> r.Err?
    ensures v.Arr? && r.Ok? ==> r.value.Str?
  {
    if !v.Arr? then Ok(v)
    else if |args| > 0 && !args[0].Str? then Err("implode(): Argument #1 ($separator) must be of type string")
    else
      var sep := if |args| == 0 then ", " else args[0].s;
      match StringsOf(v.items)
      case Err(e) => Err(e)
      case Ok(parts) => Ok(Str(Join(parts, sep)))
  }

  /** `empty($v) ? $default : $v`; the fallback is a required argument. */
  function DefaultFilter(v: Value, args: seq<Value>): (r: Result<Value, string>)
    ensures r.Ok? <==> |args| > 0
    ensures r.Ok? && Empty(v) ==> r.value == args[0]
    ensures r.Ok? && !Empty(v) ==> r.value == v
  {
    if |args| == 0 then Err("Too few arguments to function, 1 passed and exactly 2 expected")
    else if Empty(v) then Ok(args[0])
    else Ok(v)
  }

  /** `substr($s, 0, $n)`: a negative length counts back from the end. */
  function SubstrHead(s: string, n: int): (r: string)
    ensures |r| <= |s| && r == s[..|r|]
  {
    if n >= 0 then (if n <= |s| then s[..n] else s)
    else if |s| + n > 0 then s[..|s| + n]
    else ""
  }

  /**
   * `strlen($v) > $len ? substr($v, 0, $len) . $suffix : $v`, with
   * `$len = 100` and `$suffix = '...'` by default.
   */
  function TruncateFilter(v: Value, args: seq<Value>): (r: Result<Value, string>)
    ensures !v.Str? ==> r == Err(StringArgError("strlen"))
    ensures r.Ok? ==> r.value.Str?
    ensures v.Str? && |args| == 0 ==> r == Ok(Str(if |v.s| <= 100 then v.s else v.s[..100] + "..."))
  {
    if !v.Str? then Err(StringArgError("strlen"))
    else
      var len := if |args| == 0 then Int(100) else args[0];
      if !len.Int? then Err("truncate: a non-integer length is not part of this model")
      else if |v.s| > len.i then
        var suffix := if |args| < 2 then Str("...") else args[1];
        match ToStr(suffix)
        case Err(e) => Err(e)
        case Ok(t) => Ok(Str(SubstrHead(v.s, len.i) + t))
      else Ok(v)
  }

  /** `escape($v, 'raw')`: the string form, unescaped. */
  function RawFilter(v: Value, json: Value -> Option<string>): (r: Result<Value, string>)
    ensures r.Ok? <==> ToStr(v).Ok?
    ensures r.Ok? ==> r.value == Str(ToStr(v).value)
  {
    match Escape(v, "raw", json)
    case Err(e) => Err(e)
    case Ok(s) => Ok(Str(s))
  }

  /**
   * `escape($v, 'js')`: null and booleans take their string forms before
   * JSON encoding is reached; a value json_encode cannot encode is a TypeError.
   */
  function JsonFilter(v: Value, json: Value -> Option<string>): (r: Result<Value, string>)
    ensures v.Null? ==> r == Ok(Str(""))
    ensures v.Bool? ==> r == Ok(Str(if v.b then "1" else ""))
    ensures !v.Null? && !v.Bool? && json(v).Some? ==> r == Ok(Str(json(v).value))
    ensures !v.Null? && !v.Bool? && json(v).None? ==> r == Err(EscapeReturnTypeError)
  {
    match Escape(v, "js", json)
    case Err(e) => Err(e)
    case Ok(s) => Ok(Str(s))
  }

  /** `'<pre>' . escape(print_r($v, true), 'html') . '</pre>'`. */
  function DumpFilter(v: Value, json: Value -> Option<string>, printR: Value -> string): (r: Result<Value, string>)
    ensures r.Ok? && r.value.Str?
    ensures var d := r.value.s;
      |d| >= 11 && d[..5] == "<pre>" && d[|d| - 6..] == "</pre>" &&
      HtmlDecode(d[5..|d| - 6]) == printR(v) && forall i :: 5 <= i < |d| - 6 ==> !IsMarkup(d[i])
  {
    match Escape(Str(printR(v)), "html", json)
    case Err(e) => Err(e)
    case Ok(s) =>
      var d := "<pre>" + s + "</pre>";
      assert d[..5] == "<pre>" && d[|d| - 6..] == "</pre>" && d[5..|d| - 6] == s;
      Ok(Str(d))
  }

  const FilterNames: seq<string> := ["upper", "lower", "capitalize", "length", "reverse", "sort",
    "join", "default", "date", "truncate", "raw", "json", "dump"]

  /**
   * `registerBuiltinFilters`. json_encode, print_r and the `date` filter are
   * foreign to the model and supplied as parameters.
   */
  function BuiltinFilters(json: Value -> Option<string>, printR: Value -> string, date: Filter): seq<(string, Filter)> {
    Zip(FilterNames, [UpperFilter, LowerFilter, CapitalizeFilter, LengthFilter, ReverseFilter, SortFilter,
      JoinFilter, DefaultFilter, date, TruncateFilter,
      (v, args) => RawFilter(v, json),
      (v, args) => JsonFilter(v, json),
      (v, args) => DumpFilter(v, json, printR)])
  }

  /** `applyFilter`: the registered filter applied to the value, or "Unknown filter". */
  function ApplyFilter(filters: seq<(string, Filter)>, name: string, v: Value, args: seq<Value>): (r: Result<Value, string>)
    ensures name !in Keys(filters) ==> r == Err("Unknown filter: " + name)
    ensures name in Keys(filters) ==> r == Lookup(filters, name).value(v, args)
  {
    match Lookup(filters, name)
    case None => Err("Unknown filter: " + name)
    case Some(f) => f(v, args)
  }

  // ---------------------------------------------------------------------
  // Properties of the filters
  // ---------------------------------------------------------------------

  /** The built-in table holds the thirteen filters in registration order. */
  lemma BuiltinFilterNames(json: Value -> Option<string>, printR: Value -> string, date: Filter)
    ensures Keys(BuiltinFilters(json, printR, date)) == FilterNames
  {
    KeysZip(FilterNames, [UpperFilter, LowerFilter, CapitalizeFilter, LengthFilter, ReverseFilter, SortFilter,
      JoinFilter, DefaultFilter, date, TruncateFilter,
      (v, args) => RawFilter(v, json),
      (v, args) => JsonFilter(v, json),
      (v, args) => DumpFilter(v, json, printR)]);
  }

  /** Registering a filter makes `applyFilter` use it under that name and leaves every other name as it was. */
  lemma AddFilterOverrides(filters: seq<(string, Filter)>, name: string, f: Filter, other: string, v: Value, args: seq<Value>)
    requires other != name
    ensures ApplyFilter(Put(filters, name, f), name, v, args) == f(v, args)
    ensures ApplyFilter(Put(filters, name, f), other, v, args) == ApplyFilter(filters, other, v, args)
  {
  }

  /**
   * truncate keeps a string of at most `n` bytes as it is and otherwise cuts
   * it to its first `n` bytes followed by the suffix.
   */
  lemma TruncateCuts(s: string, n: nat, suffix: string)
    ensures TruncateFilter(Str(s), [Int(n), Str(suffix)]) ==
      Ok(Str(if |s| <= n then s else s[..n] + suffix))
    ensures |TruncateFilter(Str(s), [Int(n), Str(suffix)]).value.s| <= n + |suffix|
  {
  }

  /** With no arguments, a string longer than 100 bytes becomes its first 100 bytes and "...". */
  lemma TruncateDefault(s: string)
    requires |s| > 100
    ensures TruncateFilter(Str(s), []) == Ok(Str(s[..100] + "..."))
    ensures |TruncateFilter(Str(s), []).value.s| == 103
  {
  }

  /**
   * A negative length is always exceeded, and substr then counts it back
   * from the end: truncate(-k) drops the last k bytes and adds the suffix.
   */
  lemma TruncateNegative(s: string, k: nat, suffix: string)
    requires k > 0
    ensures TruncateFilter(Str(s), [Int(-(k as int)), Str(suffix)]) ==
      Ok(Str((if |s| > k then s[..|s| - k] else "") + suffix))
  {
  }

  /** default gives the fallback exactly when the value is PHP-empty. */
  lemma DefaultChoosesFallback(v: Value, fallback: Value, rest: seq<Value>)
    ensures DefaultFilter(v, [fallback] + rest) == Ok(if Empty(v) then fallback else v)
    ensures Empty(Str("0")) && Empty(Int(0)) && Empty(Arr([])) && !Empty(Str(" "))
  {
  }

  /** capitalize upper-cases the first byte and lower-cases the rest. */
  lemma CapitalizeShape(s: string)
    requires s != []
    ensures CapitalizeFilter(Str(s), []).value.s[0] == UpperChar(s[0])
    ensures CapitalizeFilter(Str(s), []).value.s[1..] == Lower(s[1..])
  {
    var l := Lower(s);
    assert l[1..] == Lower(s[1..]);
  }

  /** reverse undoes itself on strings and arrays. */
  lemma ReverseTwice(v: Value)
    requires v.Str? || v.Arr?
    ensures ReverseFilter(v, []).Ok?
    ensures ReverseFilter(ReverseFilter(v, []).value, []) == Ok(v)
  {
    if v.Str? {
      ReverseReverse(v.s);
    } else {
      ReverseReverse(v.items);
    }
  }

  /** length counts array elements and string bytes, and rejects anything else. */
  lemma LengthCounts(v: Value)
    ensures v.Arr? ==> LengthFilter(v, []) == Ok(Int(|v.items|))
    ensures v.Str? ==> LengthFilter(v, []) == Ok(Int(|v.s|))
    ensures LengthFilter(v, []).Err? <==> !v.Arr? && !v.Str?
  {
  }

  lemma IntsOfIntValues(xs: seq<int>)
    ensures AllInts(IntValues(xs)) && IntsOf(IntValues(xs)) == xs
  {
    assert |IntsOf(IntValues(xs))| == |xs|;
  }

  /** sort of integers returns them in ascending order, each as often as before. */
  lemma SortOrders(xs: seq<int>)
    ensures SortFilter(Arr(IntValues(xs)), []).Ok?
    ensures SortFilter(Arr(IntValues(xs)), []).value.items == IntValues(SortInts(xs))
    ensures Ascending(SortInts(xs)) && multiset(SortInts(xs)) == multiset(xs)
  {
    IntsOfIntValues(xs);
  }

  lemma {:induction false} StringsOfStrings(parts: seq<string>)
    ensures StringsOf(StrValues(parts)) == Ok(parts)
  {
    if parts != [] {
      StringsOfStrings(parts[1..]);
      assert StrValues(parts)[1..] == StrValues(parts[1..]);
      assert StrValues(parts)[0] == Str(parts[0]);
      assert [parts[0]] + parts[1..] == parts;
    }
  }

  function StrValues(parts: seq<string>): (r: seq<Value>)
    ensures |r| == |parts| && forall i :: 0 <= i < |parts| ==> r[i] == Str(parts[i])
  {
    if parts == [] then [] else [Str(parts[0])] + StrValues(parts[1..])
  }

  /**
   * join with a one-byte separator that none of the strings contains can be
   * split back into those strings.
   */
  lemma JoinSplits(parts: seq<string>, d: char)
    requires |parts| >= 1
    requires forall i :: 0 <= i < |parts| ==> d !in parts[i]
    ensures JoinFilter(Arr(StrValues(parts)), [Str([d])]).Ok?
    ensures Split(JoinFilter(Arr(StrValues(parts)), [Str([d])]).value.s, d) == parts
  {
    StringsOfStrings(parts);
    SplitJoin(parts, d);
  }

  /** join without a separator argument uses ", ". */
  lemma JoinDefaultSeparator(parts: seq<string>)
    ensures JoinFilter(Arr(StrValues(parts)), []) == Ok(Str(Join(parts, ", ")))
  {
    StringsOfStrings(parts);
  }

  /** Upper-casing, lower-casing and capitalizing reject non-strings under strict types. */
  lemma CaseFiltersNeedStrings(v: Value)
    requires !v.Str?
    ensures UpperFilter(v, []).Err? && LowerFilter(v, []).Err? && CapitalizeFilter(v, []).Err?
  {
  }
}
