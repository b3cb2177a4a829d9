/**
 * A route: an upper-cased HTTP verb, a normalised path pattern and a
 * handler. The pattern is matched by handing '#^' + pattern + '$#' to PCRE;
 * the regular-expression engine is a parameter of the model, and for
 * patterns without metacharacters a hypothesis about it reduces matching
 * to path equality.
 */
module RouteDefinition {
  import opened Php

  /** An opaque reference to the route's callable. */
  type Handler = nat

  datatype Route = Route(verb: string, pattern: string, handler: Handler)

  const Slash: set<char> := {'/'}

  /** A pattern as `normalizePattern` leaves it: one leading slash, no trailing one, or exactly "/". */
  predicate IsNormalized(p: string) {
    |p| > 0 && p[0] == '/' && (|p| == 1 || (p[1] != '/' && p[|p| - 1] != '/'))
  }

  /**
   * `normalizePattern`: '/' + the pattern with slashes trimmed from both ends,
   * after which the final `rtrim` has nothing left to remove.
   */
  function NormalizePattern(p: string): (r: string)
    ensures IsNormalized(r)
    ensures r == "/" + Trim(p, Slash)
  {
    var q := "/" + Trim(p, Slash);
    if q == "/" then "/" else TrimRight(q, Slash)
  }

  /** A normalised pattern is left as it is. */
  lemma NormalizeFixes(p: string)
    requires IsNormalized(p)
    ensures NormalizePattern(p) == p
  {
    var t := p[1..];
    assert t == [] || (t[0] !in Slash && t[|t| - 1] !in Slash);
    assert TrimLeft(p, Slash) == TrimLeft(t, Slash);
    TrimUnchanged(t, Slash);
    assert Trim(p, Slash) == Trim(t, Slash);
    assert "/" + t == p;
  }

  lemma NormalizeIdempotent(p: string)
    ensures NormalizePattern(NormalizePattern(p)) == NormalizePattern(p)
  {
    NormalizeFixes(NormalizePattern(p));
  }

  /** The constructor: the verb is stored upper-cased and the pattern normalised. */
  function NewRoute(verb: string, pattern: string, handler: Handler): (r: Route)
    ensures |r.verb| == |verb| && forall i :: 0 <= i < |verb| ==> r.verb[i] == UpperChar(verb[i])
    ensures r.pattern == NormalizePattern(pattern) && IsNormalized(r.pattern) && r.handler == handler
  {
    Route(Upper(verb), NormalizePattern(pattern), handler)
  }

  /**
   * A constructed route stores its verb upper-cased and its pattern
   * normalised, so rebuilding a route from its own fields changes nothing.
   */
  lemma NewRouteNormalizes(verb: string, pattern: string, handler: Handler)
    ensures IsNormalized(NewRoute(verb, pattern, handler).pattern)
    ensures NewRoute(NewRoute(verb, pattern, handler).verb, NewRoute(verb, pattern, handler).pattern, handler)
      == NewRoute(verb, pattern, handler)
  {
    UpperIdempotent(verb);
    NormalizeIdempotent(pattern);
  }

  /** `compilePattern`: the pattern, anchored at both ends, between '#' delimiters. */
  function CompilePattern(p: string): (r: string)
    ensures |r| == |p| + 4 && StartsWith(r, "#^") && EndsWith(r, "$#") && r[2..|p| + 2] == p
  {
    "#^" + p + "$#"
  }

  /** `preg_match($regex, $path)`, as a parameter: whether the subject matches. */
  type Pcre = (string, string) -> bool

  /** `matches`: the verb must equal the upper-cased argument, then the anchored pattern must match. */
  function Matches(r: Route, verb: string, path: string, pcre: Pcre): (m: bool)
    ensures r.verb != Upper(verb) ==> !m
    ensures m ==> pcre(CompilePattern(r.pattern), path)
  {
    r.verb == Upper(verb) && pcre(CompilePattern(r.pattern), path)
  }

  /** The characters that are special to PCRE outside a class, with the '#' delimiter. */
  predicate IsMeta(c: char) {
    c == '\\' || c == '^' || c == '$' || c == '.' || c == '[' || c == ']' || c == '|'
    || c == '(' || c == ')' || c == '?' || c == '*' || c == '+' || c == '#'
  }

  /**
   * A pattern PCRE reads as a literal: no metacharacter, and every '{' followed
   * by a letter or '_', so that it cannot open a `{n,m}` quantifier.
   */
  predicate PlainPattern(p: string) {
    forall i :: 0 <= i < |p| ==>
      !IsMeta(p[i]) &&
      (p[i] == '{' ==> i + 1 < |p| && ('a' <= p[i + 1] <= 'z' || 'A' <= p[i + 1] <= 'Z' || p[i + 1] == '_'))
  }

  /**
   * What PCRE does with an anchored literal: `^` matches at the start, and `$`
   * (without the D modifier) at the end or before a final newline.
   */
  ghost predicate PcreAnchorsLiterals(pcre: Pcre) {
    forall p, s {:trigger pcre(CompilePattern(p), s)} ::
      PlainPattern(p) ==> (pcre(CompilePattern(p), s) <==> s == p || s == p + "\n")
  }

  /** For a plain pattern, matching is verb equality and path equality (up to PCRE's final newline). */
  lemma MatchesLiterally(r: Route, verb: string, path: string, pcre: Pcre)
    requires PcreAnchorsLiterals(pcre) && PlainPattern(r.pattern)
    ensures Matches(r, verb, path, pcre) <==>
      r.verb == Upper(verb) && (path == r.pattern || path == r.pattern + "\n")
  {
    assert pcre(CompilePattern(r.pattern), path) <==> path == r.pattern || path == r.pattern + "\n";
  }

  /** The constructor normalises a slash-wrapped pattern and upper-cases the verb. */
  lemma NewRouteExample(h: Handler)
    ensures NewRoute("get", "/users/{id}/", h) == Route("GET", "/users/{id}", h)
  {
    assert Upper("get") == "GET";
    ExampleSpelling();
    TrimWrapped('/', "users/{id}", '/', Slash);
  }

  lemma ExampleSpelling()
    ensures "/users/{id}/" == ['/'] + "users/{id}" + ['/']
    ensures "/" + "users/{id}" == "/users/{id}"
  {
  }

  /** A '{param}' segment is not a parameter: it only matches itself. */
  lemma ParameterSegmentIsLiteral(r: Route, pcre: Pcre)
    requires PcreAnchorsLiterals(pcre)
    requires r.verb == "GET" && r.pattern == "/users/{id}"
    ensures !Matches(r, "get", "/users/5", pcre)
    ensures Matches(r, "get", "/users/{id}", pcre)
  {
    assert Upper("get") == "GET";
    assert PlainPattern(r.pattern);
    assert "/users/5" != r.pattern && "/users/5" != r.pattern + "\n";
    MatchesLiterally(r, "get", "/users/5", pcre);
    MatchesLiterally(r, "get", "/users/{id}", pcre);
  }
}
