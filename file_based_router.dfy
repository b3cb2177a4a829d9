/**
 * How the file-based router turns a route file's name into a route pattern:
 * the last extension is dropped, a trailing '_index' is removed, '[p]'
 * becomes '{p}', and dots become slashes under the directory's prefix.
 */
module FileBasedRouter {
  import opened Php

  /** The first index at or after `k` holding `c`, or `|s|` when there is none. */
  function IndexFrom(s: string, c: char, k: nat): (j: nat)
    requires k <= |s|
    ensures k <= j <= |s|
    ensures j < |s| ==> s[j] == c
    ensures forall i :: k <= i < j ==> s[i] != c
    decreases |s| - k
  {
    if k == |s| || s[k] == c then k else IndexFrom(s, c, k + 1)
  }

  /**
   * `basename`: what follows the last '/'. PHP's `basename` first drops
   * trailing slashes ('a/' gives 'a', where this gives ''); the names
   * `scandir` yields hold no '/', so the two agree on every name used here.
   */
  function Basename(f: string): (b: string)
    ensures '/' !in b && EndsWith(f, b)
    ensures '/' !in f ==> b == f
  {
    if |f| == 0 || f[|f| - 1] == '/' then ""
    else
      var b := Basename(f[..|f| - 1]) + [f[|f| - 1]];
      assert f == f[..|f| - 1] + [f[|f| - 1]];
      b
  }

  /** `pathinfo($b, PATHINFO_FILENAME)` of a base name: everything before its last '.'. */
  function StripExtension(b: string): (r: string)
    ensures '.' !in b ==> r == b
    ensures '.' in b ==> |r| < |b| && b[|r|] == '.' && r == b[..|r|] && '.' !in b[|r| + 1..]
  {
    if '.' !in b then b
    else if b[|b| - 1] == '.' then b[..|b| - 1]
    else
      var r := StripExtension(b[..|b| - 1]);
      assert '.' in b ==> '.' in b[..|b| - 1];
      assert '.' in b ==> b[|r| + 1..] == b[..|b| - 1][|r| + 1..] + [b[|b| - 1]];
      r
  }

  /**
   * `preg_replace('/\[([^\]]+)\]/', '{$1}', $s)`: scanning left to right, a '['
   * with at least one character before the next ']' becomes '{' and that ']'
   * becomes '}'.
   */
  function BracketsToBraces(s: string): (r: string)
    ensures |r| == |s|
    ensures forall i :: 0 <= i < |s| ==>
      r[i] == s[i] || (s[i] == '[' && r[i] == '{') || (s[i] == ']' && r[i] == '}')
    decreases |s|
  {
    if |s| == 0 then ""
    else
      var j := IndexFrom(s, ']', 1);
      if s[0] == '[' && 2 <= j < |s| then
        BracedShape(s[1..j], BracketsToBraces(s[j + 1..]));
        "{" + s[1..j] + "}" + BracketsToBraces(s[j + 1..])
      else
        ConsShape(s[0], BracketsToBraces(s[1..]));
        [s[0]] + BracketsToBraces(s[1..])
  }

  /** Where each part of `[c] + t` sits. */
  lemma ConsShape(c: char, t: string)
    ensures var a := [c] + t;
      |a| == 1 + |t| && a[0] == c && forall i :: 1 <= i < |a| ==> a[i] == t[i - 1]
  {
  }

  /** Where each part of `{m}t` sits. */
  lemma BracedShape(m: string, t: string)
    ensures var a := "{" + m + "}" + t;
      |a| == |m| + 2 + |t| && a[0] == '{' && a[|m| + 1] == '}' &&
      (forall i :: 1 <= i <= |m| ==> a[i] == m[i - 1]) &&
      (forall i :: |m| + 2 <= i < |a| ==> a[i] == t[i - |m| - 2])
  {
  }

  /**
   * `preg_replace('/\{([^}]+)\?\}/', '{$1?}', $s)`: each '{' followed by one
   * or more characters other than '}' and then '?}' is rebuilt from its parts.
   */
  function RewriteOptional(s: string): string
    decreases |s|
  {
    if |s| == 0 then ""
    else
      var j := IndexFrom(s, '}', 1);
      if s[0] == '{' && 3 <= j < |s| && s[j - 1] == '?' then
        "{" + s[1..j - 1] + "?}" + RewriteOptional(s[j + 1..])
      else
        [s[0]] + RewriteOptional(s[1..])
  }

  /** The optional-parameter rewrite puts back exactly what it matched. */
  lemma {:induction false} RewriteOptionalIdentity(s: string)
    ensures RewriteOptional(s) == s
    decreases |s|
  {
    if |s| > 0 {
      var j := IndexFrom(s, '}', 1);
      if s[0] == '{' && 3 <= j < |s| && s[j - 1] == '?' {
        assert RewriteOptional(s) == "{" + s[1..j - 1] + "?}" + RewriteOptional(s[j + 1..]);
        RewriteOptionalIdentity(s[j + 1..]);
        OptionalParts(s, j);
      } else {
        assert RewriteOptional(s) == [s[0]] + RewriteOptional(s[1..]);
        RewriteOptionalIdentity(s[1..]);
        ConsShape(s[0], s[1..]);
      }
    }
  }

  /** A '{…?}' group at the front, cut into the parts the rewrite puts back together. */
  lemma OptionalParts(s: string, j: nat)
    requires 3 <= j < |s| && s[0] == '{' && s[j - 1] == '?' && s[j] == '}'
    ensures s == "{" + s[1..j - 1] + "?}" + s[j + 1..]
  {
    assert s[..1] == "{" && s[j - 1..j + 1] == "?}";
    assert s == s[..1] + s[1..j - 1] + s[j - 1..j + 1] + s[j + 1..];
  }

  /** The file name without its last extension and without a trailing '_index'. */
  function RouteName(filename: string): (name: string)
    ensures !EndsWith(StripExtension(Basename(filename)), "_index") ==> name == StripExtension(Basename(filename))
  {
    var name := StripExtension(Basename(filename));
    if EndsWith(name, "_index") then name[..|name| - 6] else name
  }

  /**
   * `generateRouteFromFile`: the prefix alone (or '/') for an index file, and
   * otherwise prefix + '/' + the name with '[p]' turned into '{p}' and every
   * '.' into '/'.
   */
  function GenerateRouteFromFile(filename: string, prefix: string): (r: string)
    ensures r != ""
    ensures StartsWith(r, prefix) || (r == "/" && Falsy(prefix))
    ensures forall i :: |prefix| <= i < |r| ==> r[i] != '.'
  {
    var name := RouteName(filename);
    if name == prefix || Falsy(name) then
      (if Falsy(prefix) then "/" else prefix)
    else
      var tail := ReplaceChar(RewriteOptional(BracketsToBraces(name)), '.', "/");
      UnderPrefix(prefix, "/" + tail);
      prefix + ("/" + tail)
  }

  lemma UnderPrefix(prefix: string, t: string)
    requires '.' !in t
    ensures StartsWith(prefix + t, prefix)
    ensures forall i :: |prefix| <= i < |prefix + t| ==> (prefix + t)[i] != '.'
  {
    assert (prefix + t)[..|prefix|] == prefix;
    forall i | |prefix| <= i < |prefix + t|
      ensures (prefix + t)[i] != '.'
    {
      assert (prefix + t)[i] == t[i - |prefix|];
    }
  }

  /** The name before a '.php' extension, whatever dots it holds itself. */
  lemma StripPhp(w: string)
    ensures StripExtension(w + ".php") == w
  {
    var b := w + ".php";
    assert b[|w|] == '.';
    assert b[|w| + 1..] == "php";
    assert b[..|w|] == w;
  }

  /** Text without '[' passes the bracket rewrite unchanged. */
  lemma {:induction false} BracketsNone(w: string)
    requires '[' !in w
    ensures BracketsToBraces(w) == w
  {
    if |w| > 0 {
      BracketsNone(w[1..]);
      assert w == [w[0]] + w[1..];
    }
  }

  lemma {:induction false} BracketsPrefix(w: string, rest: string)
    requires '[' !in w
    ensures BracketsToBraces(w + rest) == w + BracketsToBraces(rest)
  {
    if |w| > 0 {
      var s := w + rest;
      assert s[0] == w[0] && s[0] != '[';
      assert BracketsToBraces(s) == [s[0]] + BracketsToBraces(s[1..]);
      assert s[1..] == w[1..] + rest;
      BracketsPrefix(w[1..], rest);
      assert w == [w[0]] + w[1..];
    } else {
      assert w + rest == rest;
    }
  }

  /** '[p]' becomes '{p}' when p is non-empty and holds no ']'. */
  lemma BracketsParam(p: string, rest: string)
    requires |p| >= 1 && ']' !in p
    ensures BracketsToBraces("[" + p + "]" + rest) == "{" + p + "}" + BracketsToBraces(rest)
  {
    var s := "[" + p + "]" + rest;
    assert s[|p| + 1] == ']';
    assert forall i :: 1 <= i < |p| + 1 ==> s[i] == p[i - 1];
    var j := IndexFrom(s, ']', 1);
    assert j == |p| + 1;
    assert s[1..j] == p;
    assert s[j + 1..] == rest;
  }

  /** The route name of 'n.php' for a name without '/'. */
  lemma NameOfPhp(n: string)
    requires '/' !in n
    ensures StripExtension(Basename(n + ".php")) == n
  {
    var f := n + ".php";
    assert forall i :: 0 <= i < |f| ==> f[i] == if i < |n| then n[i] else ".php"[i - |n|];
    assert '/' !in f;
    StripPhp(n);
  }

  /** A plain file name maps to the prefix, a slash and the name without '.php'. */
  lemma PlainFileRoute(w: string, prefix: string)
    requires '.' !in w && '[' !in w && '/' !in w
    requires !Falsy(w) && w != prefix && !EndsWith(w, "_index")
    ensures GenerateRouteFromFile(w + ".php", prefix) == prefix + "/" + w
  {
    NameOfPhp(w);
    BracketsNone(w);
    RewriteOptionalIdentity(w);
  }

  /** 'x_index.php' routes like 'x.php'. */
  lemma IndexFileRoute(w: string)
    requires '/' !in w && !EndsWith(w, "_index")
    ensures RouteName(w + "_index" + ".php") == RouteName(w + ".php") == w
  {
    var n := w + "_index";
    assert forall i :: 0 <= i < |n| ==> n[i] == if i < |w| then w[i] else "_index"[i - |w|];
    NameOfPhp(n);
    NameOfPhp(w);
    assert n[|n| - 6..] == "_index";
    assert n[..|n| - 6] == w;
  }

  /** A bare '_index.php' routes to the prefix itself, or to '/' when there is none. */
  lemma BareIndexRoute(prefix: string)
    ensures GenerateRouteFromFile("" + "_index" + ".php", prefix) == if Falsy(prefix) then "/" else prefix
  {
    IndexFileRoute("");
  }

  lemma NotInConcat(c: char, a: string, b: string)
    requires c !in a && c !in b
    ensures c !in a + b
  {
  }

  lemma DynamicName(w: string, p: string)
    requires '/' !in w && '/' !in p
    ensures RouteName(w + ".[" + p + "]" + ".php") == w + ".[" + p + "]"
  {
    var name := w + ".[" + p + "]";
    NotInConcat('/', w, ".[");
    NotInConcat('/', w + ".[", p);
    NotInConcat('/', w + ".[" + p, "]");
    NameOfPhp(name);
    assert name[|name| - 1] == ']';
  }

  lemma DynamicBraces(w: string, p: string)
    requires '[' !in w && |p| >= 1 && ']' !in p
    ensures BracketsToBraces(w + ".[" + p + "]") == w + "." + ("{" + p + "}")
  {
    var head := w + ".";
    var param := "[" + p + "]";
    assert param + "" == param;
    assert w + ".[" + p + "]" == head + param;
    NotInConcat('[', w, ".");
    BracketsPrefix(head, param);
    BracketsParam(p, "");
    assert BracketsToBraces("") == "";
    assert "{" + p + "}" + "" == "{" + p + "}";
    assert BracketsToBraces(param) == "{" + p + "}";
  }

  lemma DynamicDots(w: string, p: string)
    requires '.' !in w && '.' !in p
    ensures ReplaceChar(w + "." + ("{" + p + "}"), '.', "/") == w + "/" + ("{" + p + "}")
  {
    var q := "{" + p + "}";
    NotInConcat('.', "{", p);
    NotInConcat('.', "{" + p, "}");
    assert ReplaceChar(q, '.', "/") == q;
    assert ReplaceChar(w, '.', "/") == w;
    assert ReplaceChar(".", '.', "/") == "/";
    ReplaceCharAppend(w, ".", '.', "/");
    assert ReplaceChar(w + ".", '.', "/") == w + "/";
    ReplaceCharAppend(w + ".", q, '.', "/");
  }

  /** A bracketed segment after a dot becomes a brace parameter in its own path segment. */
  lemma DynamicFileRoute(w: string, p: string, prefix: string)
    requires '.' !in w && '[' !in w && '/' !in w
    requires |p| >= 1 && ']' !in p && '.' !in p && '/' !in p
    requires w + ".[" + p + "]" != prefix
    ensures GenerateRouteFromFile(w + ".[" + p + "]" + ".php", prefix) == prefix + "/" + (w + "/" + ("{" + p + "}"))
  {
    var name := w + ".[" + p + "]";
    DynamicName(w, p);
    DynamicBraces(w, p);
    var braced := w + "." + ("{" + p + "}");
    RewriteOptionalIdentity(braced);
    DynamicDots(w, p);
  }

  lemma ExampleText()
    ensures "" + "/" + ("test" + "/" + ("{" + "value" + "}")) == "/test/{value}"
  {
  }

  /** The file 'test.[value].php' at the top level routes to '/test/{value}'. */
  lemma DynamicFileExample()
    ensures GenerateRouteFromFile("test" + ".[" + "value" + "]" + ".php", "") == "/test/{value}"
  {
    DynamicFileRoute("test", "value", "");
    ExampleText();
  }
}
