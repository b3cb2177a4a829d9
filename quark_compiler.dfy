/**
 * The Quark template compiler: it turns template source into PHP source.
 *
 * The source is scanned for `{{ … }}` expression tags and `{% … %}` directive
 * tags. A tag's inner text is matched lazily, so it ends at the first closing
 * delimiter, and tags are found leftmost first. The stretches between tags
 * become text tokens. Directives are split into a name and an argument
 * string. Each token is then translated into a fragment of PHP: text is
 * echoed as a single-quoted literal, an expression is escaped (or piped
 * through filters), and a directive is handed to the compiler registered
 * under its name.
 */
module QuarkCompiler {
  import opened Php

  datatype Token =
    | Text(content: string)
    | Expression(content: string)
    | Directive(name: string, args: string)

  datatype TagKind = ExpressionTag | DirectiveTag

  /** One match of the tag pattern: `s[start..end]` is the whole tag. */
  datatype Tag = Tag(start: nat, end: nat, kind: TagKind, inner: string)

  /** A template source cut into stretches of text and tags, in source order. */
  datatype Piece = Stretch(text: string) | TagPiece(kind: TagKind, inner: string)

  /** A directive compiler: from the argument string to PHP, or a thrown message. */
  type DirectiveCompiler = string -> Result<string, string>

  // ---------------------------------------------------------------------
  // Scanning for tags: /\{\{(.*?)\}\}|\{%(.*?)%\}/s
  // ---------------------------------------------------------------------

  function Open(k: TagKind): string {
    if k == ExpressionTag then "{{" else "{%"
  }

  function Close(k: TagKind): string {
    if k == ExpressionTag then "}}" else "%}"
  }

  predicate PairAt(s: string, j: int, a: char, b: char) {
    0 <= j && j + 1 < |s| && s[j] == a && s[j + 1] == b
  }

  /** The first position at or after `from` where `a` is followed by `b`. */
  function FindPair(s: string, a: char, b: char, from: nat): (r: Option<nat>)
    ensures r.Some? ==> from <= r.value && PairAt(s, r.value, a, b)
    ensures r.Some? ==> forall j :: from <= j < r.value ==> !PairAt(s, j, a, b)
    ensures r.None? ==> forall j :: from <= j ==> !PairAt(s, j, a, b)
    decreases |s| - from
  {
    if from + 1 >= |s| then None
    else if s[from] == a && s[from + 1] == b then Some(from)
    else FindPair(s, a, b, from + 1)
  }

  /**
   * The tag the pattern matches when it is tried at position `p`. The first
   * alternative (`{{`) is tried before the second (`{%`); an opening
   * delimiter with no closing one after it is no match.
   */
  function TagAt(s: string, p: nat): (r: Option<Tag>)
    ensures r.Some? ==> (r.value.start == p && p + 4 <= r.value.end <= |s|
      && s[p..r.value.end] == Open(r.value.kind) + r.value.inner + Close(r.value.kind))
  {
    if PairAt(s, p, '{', '{') then ClosedTag(s, p, ExpressionTag)
    else if PairAt(s, p, '{', '%') then ClosedTag(s, p, DirectiveTag)
    else None
  }

  /** The tag opened at `p`, ending at the first closing delimiter of its kind. */
  function ClosedTag(s: string, p: nat, k: TagKind): (r: Option<Tag>)
    requires p + 2 <= |s| && s[p..p + 2] == Open(k)
    ensures r.Some? ==> (r.value.start == p && p + 4 <= r.value.end <= |s| && r.value.kind == k
      && s[p..r.value.end] == Open(k) + r.value.inner + Close(k))
  {
    var close := Close(k);
    match FindPair(s, close[0], close[1], p + 2)
    case None => None
    case Some(q) =>
      assert s[q..q + 2] == close;
      ThreeSlices(s, p, p + 2, q, q + 2);
      Some(Tag(p, q + 2, k, s[p + 2..q]))
  }

  lemma ThreeSlices(s: string, i: nat, j: nat, k: nat, l: nat)
    requires i <= j <= k <= l <= |s|
    ensures s[i..l] == s[i..j] + s[j..k] + s[k..l]
  {
  }

  /** The leftmost match at or after `from`. */
  function NextTag(s: string, from: nat): (r: Option<Tag>)
    requires from <= |s|
    ensures r.Some? ==> from <= r.value.start && TagAt(s, r.value.start) == r
    ensures r.Some? ==> forall p :: from <= p < r.value.start ==> TagAt(s, p).None?
    ensures r.None? ==> forall p :: from <= p <= |s| ==> TagAt(s, p).None?
    decreases |s| - from
  {
    if TagAt(s, from).Some? then TagAt(s, from)
    else if from == |s| then None
    else NextTag(s, from + 1)
  }

  /** All matches from `from` on, as `preg_match_all` lists them. */
  function Tags(s: string, from: nat): seq<Tag>
    requires from <= |s|
    decreases |s| - from
  {
    match NextTag(s, from)
    case None => []
    case Some(t) => [t] + Tags(s, t.end)
  }

  /** `s[from..]` cut into text stretches (never empty) and tags, in order. */
  function Pieces(s: string, from: nat): (ps: seq<Piece>)
    requires from <= |s|
    decreases |s| - from
  {
    match NextTag(s, from)
    case None => if from < |s| then [Stretch(s[from..])] else []
    case Some(t) =>
      (if t.start > from then [Stretch(s[from..t.start])] else [])
      + [TagPiece(t.kind, t.inner)] + Pieces(s, t.end)
  }

  /** The source text a piece was cut from. */
  function Raw(p: Piece): string {
    match p
    case Stretch(t) => t
    case TagPiece(k, inner) => Open(k) + inner + Close(k)
  }

  function Flatten(ps: seq<Piece>): string {
    if ps == [] then "" else Raw(ps[0]) + Flatten(ps[1..])
  }

  lemma {:induction false} FlattenAppend(a: seq<Piece>, b: seq<Piece>)
    ensures Flatten(a + b) == Flatten(a) + Flatten(b)
  {
    if a == [] {
      assert a + b == b;
    } else {
      assert (a + b)[0] == a[0];
      assert (a + b)[1..] == a[1..] + b;
      FlattenAppend(a[1..], b);
    }
  }

  /** The pieces are the source, verbatim and in order: nothing is lost or moved. */
  lemma {:induction false} PiecesFlatten(s: string, from: nat)
    requires from <= |s|
    ensures Flatten(Pieces(s, from)) == s[from..]
    decreases |s| - from
  {
    match NextTag(s, from)
    case None =>
    case Some(t) =>
      PiecesFlatten(s, t.end);
      FlattenTagStep(s, from, t, Pieces(s, t.end));
  }

  /** A stretch, a tag and the pieces after it flatten back to the source from the stretch on. */
  lemma FlattenTagStep(s: string, from: nat, t: Tag, rest: seq<Piece>)
    requires from <= t.start && t.start + 4 <= t.end <= |s|
    requires s[t.start..t.end] == Raw(TagPiece(t.kind, t.inner))
    requires Flatten(rest) == s[t.end..]
    ensures Flatten((if t.start > from then [Stretch(s[from..t.start])] else [])
      + [TagPiece(t.kind, t.inner)] + rest) == s[from..]
  {
    var pre := if t.start > from then [Stretch(s[from..t.start])] else [];
    var tagged := [TagPiece(t.kind, t.inner)] + rest;
    assert Flatten(pre) == s[from..t.start] by {
      if t.start > from {
        assert Flatten(pre) == s[from..t.start] + Flatten([]);
      }
    }
    assert tagged[1..] == rest;
    assert Flatten(tagged) == s[t.start..t.end] + s[t.end..];
    assert pre + [TagPiece(t.kind, t.inner)] + rest == pre + tagged;
    FlattenAppend(pre, tagged);
    SliceSplit(s, t.start, t.end);
    SliceSplit(s, from, t.start);
  }

  lemma SliceSplit(s: string, i: nat, j: nat)
    requires i <= j <= |s|
    ensures s[i..] == s[i..j] + s[j..]
  {
  }

  /** Two text stretches are never adjacent: a tag always separates them. */
  lemma {:induction false} StretchesSeparated(s: string, from: nat)
    requires from <= |s|
    ensures forall i :: 0 <= i < |Pieces(s, from)| - 1 && Pieces(s, from)[i].Stretch?
              ==> Pieces(s, from)[i + 1].TagPiece?
    decreases |s| - from
  {
    match NextTag(s, from)
    case None =>
    case Some(t) =>
      StretchesSeparated(s, t.end);
  }

  /** A source with no closing delimiter at all is a single text stretch: an unterminated tag is text. */
  lemma UnterminatedIsText(s: string)
    requires s != []
    requires FindPair(s, '}', '}', 0).None? && FindPair(s, '%', '}', 0).None?
    ensures Pieces(s, 0) == [Stretch(s)]
  {
    forall p | 0 <= p <= |s| ensures TagAt(s, p).None? {
      assert FindPair(s, '}', '}', p + 2).None?;
      assert FindPair(s, '%', '}', p + 2).None?;
    }
    assert NextTag(s, 0).None?;
  }

  // ---------------------------------------------------------------------
  // Regex helpers for patterns anchored with ^…$ and no /s modifier
  // ---------------------------------------------------------------------

  /**
   * PCRE's `$` also matches before a final newline, and `.` never matches a
   * newline, so an anchored pattern matches `s` exactly when it matches `s`
   * without one final "\n" and with `$` read as "end".
   */
  function StripFinalNewline(s: string): (b: string)
    ensures b == s || s == b + "\n"
  {
    if |s| > 0 && s[|s| - 1] == '\n' then s[..|s| - 1] else s
  }

  /**
   * The capture of `\s{min,}(.+)$` matched against the whole of `s`: the
   * whitespace is greedy but gives a character back when `.+` needs one.
   */
  function SpacesThenRest(s: string, min: nat): (r: Option<string>)
    ensures r.Some? ==> (r.value != "" && '\n' !in r.value
      && |r.value| <= |s| - min && r.value == s[|s| - |r.value|..]
      && AllSpace(s[..|s| - |r.value|]))
  {
    var k := SpaceSpan(s);
    if k < |s| then
      if k >= min && '\n' !in s[k..] then Some(s[k..]) else None
    else if k >= 1 && k - 1 >= min && s[k - 1] != '\n' then
      assert s[k - 1..] == [s[k - 1]];
      Some(s[k - 1..])
    else None
  }

  /** Whitespace of at least `min` characters followed by a newline-free rest that starts with a non-space yields that rest. */
  lemma SpacesThenRestOf(w: string, rest: string, min: nat)
    requires AllSpace(w) && |w| >= min
    requires rest != [] && !IsSpace(rest[0]) && '\n' !in rest
    ensures SpacesThenRest(w + rest, min) == Some(rest)
  {
    var s := w + rest;
    var k := SpaceSpan(s);
    assert forall i :: 0 <= i < |w| ==> s[i] == w[i];
    assert s[|w|] == rest[0];
    assert k == |w|;
    assert s[k..] == rest;
  }

  // ---------------------------------------------------------------------
  // parseDirective: /^(\w+)(?:\s+(.+))?$/
  // ---------------------------------------------------------------------

  /** Split a directive into its name and its arguments, or throw. */
  function ParseDirective(d: string): (r: Result<Token, string>)
    ensures r.Ok? ==> (r.value.Directive?
      && r.value.name != "" && AllWordChars(r.value.name) && StartsWith(d, r.value.name))
    ensures r.Err? ==> r.error == "Invalid directive syntax: " + d
  {
    var body := StripFinalNewline(d);
    var n := WordSpan(body);
    if n == 0 then Err("Invalid directive syntax: " + d)
    else if n == |body| then Ok(Directive(body, ""))
    else
      match SpacesThenRest(body[n..], 1)
      case Some(args) => Ok(Directive(body[..n], args))
      case None => Err("Invalid directive syntax: " + d)
  }

  /** A name followed by whitespace and arguments parses back into that name and those arguments. */
  lemma ParseDirectiveOf(name: string, space: string, args: string)
    requires name != "" && AllWordChars(name)
    requires space != "" && AllSpace(space)
    requires args != "" && !IsSpace(args[0]) && '\n' !in args
    ensures ParseDirective(name + space + args) == Ok(Directive(name, args))
  {
    var tail := space + args;
    var d := name + tail;
    assert name + space + args == d;
    assert d[|d| - 1] == args[|args| - 1];
    assert tail[0] == space[0];
    WordPrefix(name, tail);
    SpacesThenRestOf(space, args, 1);
    ParseDirectiveSplit(d, |name|);
  }

  lemma ParseDirectiveSplit(d: string, n: nat)
    requires d != "" && d[|d| - 1] != '\n'
    requires 0 < n < |d| && WordSpan(d) == n
    ensures ParseDirective(d) == match SpacesThenRest(d[n..], 1)
      case Some(args) => Ok(Directive(d[..n], args))
      case None => Err("Invalid directive syntax: " + d)
  {
  }

  /** A bare word is a directive without arguments. */
  lemma ParseDirectiveBare(name: string)
    requires name != "" && AllWordChars(name)
    ensures ParseDirective(name) == Ok(Directive(name, ""))
  {
    assert StripFinalNewline(name) == name;
    assert WordSpan(name) == |name|;
  }

  /** A directive that does not start with a word character is rejected. */
  lemma ParseDirectiveRejects(d: string)
    requires d != "" && d[0] != '\n' && !IsWordChar(d[0])
    ensures ParseDirective(d) == Err("Invalid directive syntax: " + d)
  {
    var body := StripFinalNewline(d);
    assert body != "" && body[0] == d[0];
  }

  // ---------------------------------------------------------------------
  // tokenize
  // ---------------------------------------------------------------------

  /** Tokens so far put in front of the tokens still to come; a thrown error stays thrown. */
  function Prepend(a: seq<Token>, r: Result<seq<Token>, string>): Result<seq<Token>, string> {
    match r
    case Ok(b) => Ok(a + b)
    case Err(e) => Err(e)
  }

  lemma PrependPrepend(a: seq<Token>, b: seq<Token>, r: Result<seq<Token>, string>)
    ensures Prepend(a, Prepend(b, r)) == Prepend(a + b, r)
  {
    if r.Ok? {
      assert a + (b + r.value) == (a + b) + r.value;
    }
  }

  /**
   * The tokens a piece yields. A tag whose raw inner text is PHP-empty ('' or
   * '0') yields nothing; otherwise an expression yields its trimmed text and
   * a directive is parsed from its trimmed text.
   */
  function PieceTokens(p: Piece): Result<seq<Token>, string> {
    match p
    case Stretch(t) => Ok([Text(t)])
    case TagPiece(k, inner) =>
      if Falsy(inner) then Ok([])
      else if k == ExpressionTag then Ok([Expression(PhpTrim(inner))])
      else
        match ParseDirective(PhpTrim(inner))
        case Ok(tok) => Ok([tok])
        case Err(e) => Err(e)
  }

  function TokensOfPieces(ps: seq<Piece>): Result<seq<Token>, string> {
    if ps == [] then Ok([])
    else
      match PieceTokens(ps[0])
      case Err(e) => Err(e)
      case Ok(a) => Prepend(a, TokensOfPieces(ps[1..]))
  }

  /** The token list of a template, or the first directive syntax error in source order. */
  function TokenizeSpec(source: string): Result<seq<Token>, string> {
    TokensOfPieces(Pieces(source, 0))
  }

  /** The tokens of the source from `from` on, split at the next tag. */
  lemma TokensAtTag(s: string, from: nat, t: Tag)
    requires from <= |s| && NextTag(s, from) == Some(t)
    ensures var tag := PieceTokens(TagPiece(t.kind, t.inner));
      tag.Err? ==> TokensOfPieces(Pieces(s, from)) == Err(tag.error)
    ensures var pre := if t.start > from then [Text(s[from..t.start])] else [];
      var tag := PieceTokens(TagPiece(t.kind, t.inner));
      tag.Ok? ==> TokensOfPieces(Pieces(s, from)) == Prepend(pre + tag.value, TokensOfPieces(Pieces(s, t.end)))
  {
    PiecesAtTag(s, from, t);
    if t.start > from {
      var text := s[from..t.start];
      TokensAroundTag([Stretch(text)], [Text(text)], TagPiece(t.kind, t.inner), Pieces(s, t.end));
    } else {
      TokensAroundTag([], [], TagPiece(t.kind, t.inner), Pieces(s, t.end));
    }
  }

  /** The tokens of an optional text piece, a tag piece and the pieces after it. */
  lemma TokensAroundTag(pp: seq<Piece>, pre: seq<Token>, tag: Piece, tail: seq<Piece>)
    requires (pp == [] && pre == []) || (|pp| == 1 && pp[0].Stretch? && pre == [Text(pp[0].text)])
    ensures PieceTokens(tag).Err? ==> TokensOfPieces(pp + [tag] + tail) == Err(PieceTokens(tag).error)
    ensures PieceTokens(tag).Ok? ==>
      TokensOfPieces(pp + [tag] + tail) == Prepend(pre + PieceTokens(tag).value, TokensOfPieces(tail))
  {
    TokensCons(tag, tail);
    if pp == [] {
      assert pp + [tag] + tail == [tag] + tail;
      if PieceTokens(tag).Ok? {
        assert pre + PieceTokens(tag).value == PieceTokens(tag).value;
      }
    } else {
      AppendAssoc(pp, [tag], tail);
      assert pp == [pp[0]];
      TokensCons(pp[0], [tag] + tail);
      if PieceTokens(tag).Ok? {
        PrependPrepend(pre, PieceTokens(tag).value, TokensOfPieces(tail));
      }
    }
  }

  /** The pieces from `from` on, when the next tag is `t`. */
  lemma PiecesAtTag(s: string, from: nat, t: Tag)
    requires from <= |s| && NextTag(s, from) == Some(t)
    ensures Pieces(s, from) == (if t.start > from then [Stretch(s[from..t.start])] else []) +
      [TagPiece(t.kind, t.inner)] + Pieces(s, t.end)
  {
  }

  /** The tokens of a list of pieces: those of the first piece, then the rest's. */
  lemma TokensCons(p: Piece, rest: seq<Piece>)
    ensures PieceTokens(p).Err? ==> TokensOfPieces([p] + rest) == Err(PieceTokens(p).error)
    ensures PieceTokens(p).Ok? ==> TokensOfPieces([p] + rest) == Prepend(PieceTokens(p).value, TokensOfPieces(rest))
  {
    assert ([p] + rest)[0] == p && ([p] + rest)[1..] == rest;
  }

  /** After the last tag, the rest of the source (if any) is one text token. */
  lemma TokensAfterLastTag(s: string, from: nat)
    requires from <= |s| && NextTag(s, from).None?
    ensures TokensOfPieces(Pieces(s, from)) == Ok(if from < |s| then [Text(s[from..])] else [])
  {
    if from < |s| {
      var text := s[from..];
      assert Pieces(s, from) == [Stretch(text)];
      assert [Stretch(text)][1..] == [];
      assert [Text(text)] + [] == [Text(text)];
    }
  }

  /**
   * `tokenize`: walk the matches in order, emitting the text before each one,
   * then the match's own token, and finally the text after the last match.
   */
  method Tokenize(source: string) returns (r: Result<seq<Token>, string>)
    ensures r == TokenizeSpec(source)
  {
    var matches := Tags(source, 0);
    var tokens: seq<Token> := [];
    match TokenizeSpec(source) {
      case Ok(b) => assert [] + b == b;
      case Err(_) =>
    }
    var lastPos: nat := 0;
    var i := 0;
    while i < |matches|
      invariant 0 <= i <= |matches| && lastPos <= |source|
      invariant matches[i..] == Tags(source, lastPos)
      invariant TokenizeSpec(source) == Prepend(tokens, TokensOfPieces(Pieces(source, lastPos)))
      decreases |matches| - i
    {
      var m := matches[i];
      assert NextTag(source, lastPos) == Some(m);
      TokensAtTag(source, lastPos, m);
      var pre := [];
      if m.start > lastPos {
        pre := [Text(source[lastPos..m.start])];
      }
      match PieceTokens(TagPiece(m.kind, m.inner)) {
        case Err(e) =>
          return Err(e);
        case Ok(a) =>
          PrependPrepend(tokens, pre + a, TokensOfPieces(Pieces(source, m.end)));
          tokens := tokens + (pre + a);
      }
      assert matches[i + 1..] == matches[i..][1..];
      lastPos := m.end;
      i := i + 1;
    }
    var tail := [];
    if lastPos < |source| {
      tail := [Text(source[lastPos..])];
    }
    TokensAfterLastTag(source, lastPos);
    tokens := tokens + tail;
    return Ok(tokens);
  }

  // ---------------------------------------------------------------------
  // normalizeVariable
  // ---------------------------------------------------------------------

  /**
   * `^(\w+)SEP(.+)$` on a trimmed string (which never ends in a newline),
   * rewritten to '$' + word + '->' + the rest with every '.' turned into '->'.
   */
  function MemberChain(e: string, sep: string): (r: Option<string>)
    ensures r.Some? ==> StartsWith(r.value, "$")
  {
    var n := WordSpan(e);
    if n >= 1 && StartsWith(e[n..], sep) && n + |sep| < |e| && '\n' !in e[n + |sep|..] then
      Some(ChainText(e[..n], e[n + |sep|..]))
    else None
  }

  /** The rewritten chain: '$' + word + '->' + the rest with every '.' turned into '->'. */
  function ChainText(w: string, rest: string): string {
    "$" + w + "->" + ReplaceChar(rest, '.', "->")
  }

  /**
   * `normalizeVariable`. The source guards each chain pattern with a
   * `strpos` test for its separator; a match implies the separator is
   * present, so the guards change nothing and are folded into MemberChain.
   */
  function NormalizeVariable(x: string): (r: string)
    ensures r == PhpTrim(x) || StartsWith(r, "$")
  {
    NormalizeTrimmed(PhpTrim(x))
  }

  /** The rules of `normalizeVariable`, applied to the trimmed expression `e`. */
  function NormalizeTrimmed(e: string): (r: string)
    ensures r == e || StartsWith(r, "$")
  {
    if StartsWith(e, "$") then e
    else if MemberChain(e, ".").Some? then MemberChain(e, ".").value
    else if MemberChain(e, "->").Some? then MemberChain(e, "->").value
    else if e != "" && AllWordChars(e) then "$" + e
    else e
  }

  lemma WordPrefix(w: string, t: string)
    requires w != "" && AllWordChars(w)
    requires t != "" && !IsWordChar(t[0])
    ensures WordSpan(w + t) == |w| && (w + t)[..|w|] == w && (w + t)[|w|..] == t
  {
    var e := w + t;
    assert forall i :: 0 <= i < |w| ==> e[i] == w[i];
    assert e[|w|] == t[0];
  }

  lemma MemberChainOf(w: string, sep: string, rest: string)
    requires w != "" && AllWordChars(w)
    requires sep != "" && !IsWordChar(sep[0])
    requires rest != "" && '\n' !in rest
    ensures MemberChain(w + sep + rest, sep) == Some("$" + w + "->" + ReplaceChar(rest, '.', "->"))
  {
    var e := w + sep + rest;
    assert e == w + (sep + rest);
    WordPrefix(w, sep + rest);
    assert e[|w|..][..|sep|] == sep;
    assert e[|w| + |sep|..] == rest;
  }

  /** The rules applied to an already trimmed expression `e`. */
  lemma NormalizeOfTrimmed(e: string)
    requires NoTrimEnds(e)
    ensures NormalizeVariable(e) == NormalizeTrimmed(e)
  {
    PhpTrimUnchanged(e);
  }

  lemma NormalizeVia(e: string, x: string)
    requires NoTrimEnds(e) && NormalizeTrimmed(e) == x
    ensures NormalizeVariable(e) == x
  {
    NormalizeOfTrimmed(e);
  }

  lemma NormalizeFirstChain(e: string)
    requires e != "" && e[0] != '$' && MemberChain(e, ".").Some?
    ensures NormalizeTrimmed(e) == MemberChain(e, ".").value
  {
    assert !StartsWith(e, "$");
  }

  lemma NormalizeSecondChain(e: string)
    requires e != "" && e[0] != '$' && MemberChain(e, ".").None? && MemberChain(e, "->").Some?
    ensures NormalizeTrimmed(e) == MemberChain(e, "->").value
  {
    assert !StartsWith(e, "$");
  }

  lemma ChainEnds(w: string, sep: string, rest: string)
    requires w != "" && rest != "" && !IsTrimSpace(w[0]) && !IsTrimSpace(rest[|rest| - 1])
    ensures NoTrimEnds(w + sep + rest)
  {
    var e := w + sep + rest;
    assert e[0] == w[0];
    assert e[|e| - 1] == rest[|rest| - 1];
  }

  lemma DottedChain(w: string, rest: string)
    requires w != "" && AllWordChars(w)
    requires rest != "" && '\n' !in rest
    ensures NormalizeTrimmed(w + "." + rest) == "$" + w + "->" + ReplaceChar(rest, '.', "->")
  {
    var e := w + "." + rest;
    var x := "$" + w + "->" + ReplaceChar(rest, '.', "->");
    MemberChainOf(w, ".", rest);
    assert MemberChain(e, ".") == Some(x);
    assert e[0] == w[0];
    NormalizeFirstChain(e);
    assert NormalizeTrimmed(e) == x;
  }

  lemma ArrowChain(w: string, rest: string)
    requires w != "" && AllWordChars(w)
    requires rest != "" && '\n' !in rest
    ensures NormalizeTrimmed(w + "->" + rest) == "$" + w + "->" + ReplaceChar(rest, '.', "->")
  {
    var e := w + "->" + rest;
    var x := "$" + w + "->" + ReplaceChar(rest, '.', "->");
    MemberChainOf(w, "->", rest);
    assert MemberChain(e, "->") == Some(x);
    ArrowNotDotted(w, rest);
    assert e[0] == w[0];
    NormalizeSecondChain(e);
    assert NormalizeTrimmed(e) == x;
  }

  lemma ArrowNotDotted(w: string, rest: string)
    requires w != "" && AllWordChars(w)
    ensures MemberChain(w + "->" + rest, ".").None?
  {
    var e := w + "->" + rest;
    assert e == w + ("->" + rest);
    WordPrefix(w, "->" + rest);
    assert e[|w|] == '-';
  }

  /** 'a.b.c' becomes '$a->b->c'. */
  lemma NormalizeDotted(w: string, rest: string)
    requires w != "" && AllWordChars(w)
    requires rest != "" && '\n' !in rest && !IsTrimSpace(rest[|rest| - 1])
    ensures NormalizeVariable(w + "." + rest) == "$" + w + "->" + ReplaceChar(rest, '.', "->")
  {
    DottedChain(w, rest);
    ChainEnds(w, ".", rest);
    NormalizeVia(w + "." + rest, "$" + w + "->" + ReplaceChar(rest, '.', "->"));
  }

  /** 'a->rest' becomes '$a->rest', with any dots in the rest turned into '->'. */
  lemma NormalizeArrow(w: string, rest: string)
    requires w != "" && AllWordChars(w)
    requires rest != "" && '\n' !in rest && !IsTrimSpace(rest[|rest| - 1])
    ensures NormalizeVariable(w + "->" + rest) == "$" + w + "->" + ReplaceChar(rest, '.', "->")
  {
    ArrowChain(w, rest);
    ChainEnds(w, "->", rest);
    NormalizeVia(w + "->" + rest, "$" + w + "->" + ReplaceChar(rest, '.', "->"));
  }

  /** A bare word w becomes '$w'. */
  lemma NormalizeWord(w: string)
    requires w != "" && AllWordChars(w)
    ensures NormalizeVariable(w) == "$" + w
  {
    PhpTrimUnchanged(w);
    assert WordSpan(w) == |w|;
    assert MemberChain(w, ".").None?;
    assert MemberChain(w, "->").None?;
    assert w[0] != '$';
  }

  /** A string that already starts with '$' (after trimming) is left as it is. */
  lemma NormalizeDollar(x: string)
    requires StartsWith(PhpTrim(x), "$")
    ensures NormalizeVariable(x) == PhpTrim(x)
  {
  }

  lemma {:induction false} ReplaceCharLast(s: string, c: char, rep: string)
    requires s != "" && rep != ""
    ensures var r := ReplaceChar(s, c, rep);
      r != "" && r[|r| - 1] == (if s[|s| - 1] == c then rep[|rep| - 1] else s[|s| - 1])
  {
    if |s| > 1 {
      ReplaceCharLast(s[1..], c, rep);
    }
  }

  /** A rewritten chain ends where the expression ended, or in '>' when that was a dot. */
  lemma MemberChainEnds(e: string, sep: string)
    requires MemberChain(e, sep).Some?
    requires !IsTrimSpace(e[|e| - 1])
    ensures NoTrimEnds(MemberChain(e, sep).value)
  {
    var n := WordSpan(e);
    var rest := e[n + |sep|..];
    assert MemberChain(e, sep).value == ChainText(e[..n], rest);
    assert rest[|rest| - 1] == e[|e| - 1];
    ChainTextEnds(e[..n], rest);
  }

  lemma ChainTextEnds(w: string, rest: string)
    requires rest != "" && !IsTrimSpace(rest[|rest| - 1])
    ensures NoTrimEnds(ChainText(w, rest))
  {
    var head := "$" + w + "->";
    var tail := ReplaceChar(rest, '.', "->");
    ReplaceCharLast(rest, '.', "->");
    ConcatEnds(head, tail);
  }


  lemma ConcatEnds(head: string, tail: string)
    requires head != "" && tail != "" && !IsTrimSpace(head[0]) && !IsTrimSpace(tail[|tail| - 1])
    ensures NoTrimEnds(head + tail)
  {
    var r := head + tail;
    assert r[0] == head[0];
    assert r[|r| - 1] == tail[|tail| - 1];
  }

  /** An expression that starts with '$' and has no trim space at either end is a fixed point. */
  lemma NormalizeFixed(r: string)
    requires NoTrimEnds(r) && StartsWith(r, "$")
    ensures NormalizeVariable(r) == r
  {
    PhpTrimUnchanged(r);
  }

  /** Normalising a normalised expression changes nothing. */
  lemma NormalizeIdempotent(x: string)
    ensures NormalizeVariable(NormalizeVariable(x)) == NormalizeVariable(x)
  {
    var e := PhpTrim(x);
    var r := NormalizeTrimmed(e);
    assert NoTrimEnds(e);
    if r == e {
      NormalizeOfTrimmed(e);
    } else {
      assert e != "";
      if MemberChain(e, ".").Some? {
        MemberChainEnds(e, ".");
      } else if MemberChain(e, "->").Some? {
        MemberChainEnds(e, "->");
      } else {
        assert r == "$" + e;
        assert r[|r| - 1] == e[|e| - 1];
      }
      NormalizeFixed(r);
    }
  }

  // ---------------------------------------------------------------------
  // compileExpression and compilePipeExpression
  // ---------------------------------------------------------------------

  /** The capture groups of `^(\w+)(?:\((.*?)\))?$`: a filter name and its argument text. */
  function ParseFilterCall(f: string): (r: Option<(string, string)>)
    ensures r.Some? ==> r.value.0 != "" && AllWordChars(r.value.0) && '\n' !in r.value.1
    ensures r.Some? ==> (r.value.1 == "" && StripFinalNewline(f) == r.value.0) ||
                        StripFinalNewline(f) == r.value.0 + "(" + r.value.1 + ")"
  {
    var body := StripFinalNewline(f);
    var n := WordSpan(body);
    if n == 0 then None
    else if n == |body| then Some((body, ""))
    else if body[n] == '(' && n + 2 <= |body| && body[|body| - 1] == ')' && '\n' !in body[n + 1..|body| - 1] then
      assert body == body[..n] + "(" + body[n + 1..|body| - 1] + ")";
      Some((body[..n], body[n + 1..|body| - 1]))
    else None
  }

  /** The PHP line for one filter segment; a segment that is not a filter call yields nothing. */
  function FilterLine(segment: string): string {
    match ParseFilterCall(segment)
    case None => ""
    case Some((name, args)) =>
      if Falsy(args) then
        "$__pipe_value = $__quark->applyFilter('" + name + "', $__pipe_value);\n"
      else
        "$__pipe_value = $__quark->applyFilter('" + name + "', $__pipe_value, " + args + ");\n"
  }

  function FilterLines(segments: seq<string>): string {
    if segments == [] then "" else FilterLine(segments[0]) + FilterLines(segments[1..])
  }

  lemma {:induction false} FilterLinesSnoc(segments: seq<string>, f: string)
    ensures FilterLines(segments + [f]) == FilterLines(segments) + FilterLine(f)
  {
    if segments == [] {
      assert segments + [f] == [f];
    } else {
      assert (segments + [f])[1..] == segments[1..] + [f];
      FilterLinesSnoc(segments[1..], f);
    }
  }

  function TrimAll(parts: seq<string>): (r: seq<string>)
    ensures |r| == |parts| && forall i :: 0 <= i < |parts| ==> r[i] == PhpTrim(parts[i])
  {
    seq(|parts|, i requires 0 <= i < |parts| => PhpTrim(parts[i]))
  }

  /**
   * The PHP for `base | f1 | f2(args) …`: the normalised base is assigned to
   * `$__pipe_value`, each filter is applied in order, and the value is
   * echoed without escaping.
   */
  function PipeCode(e: string): string {
    var parts := TrimAll(Split(e, '|'));
    "$__pipe_value = " + NormalizeVariable(parts[0]) + ";\n"
      + FilterLines(parts[1..]) + "echo $__pipe_value;\n"
  }

  function ExpressionCode(e: string): string {
    if '|' in e then PipeCode(e)
    else "echo $__quark->escape(" + NormalizeVariable(e) + ");\n"
  }

  /** `compilePipeExpression`: one line per filter segment, appended in order. */
  method CompilePipeExpression(e: string) returns (php: string)
    ensures php == PipeCode(e)
  {
    var parts := TrimAll(Split(e, '|'));
    var variable := NormalizeVariable(parts[0]);
    var filters := parts[1..];
    var head := "$__pipe_value = " + variable + ";\n";
    php := AppendFilterLines(head, filters);
    PipeCodeOf(e, head, filters);
    php := php + "echo $__pipe_value;\n";
  }

  /** The `foreach` over the filter segments of `compilePipeExpression`. */
  method AppendFilterLines(head: string, filters: seq<string>) returns (php: string)
    ensures php == head + FilterLines(filters)
  {
    php := head;
    var i := 0;
    while i < |filters|
      invariant 0 <= i <= |filters|
      invariant php == head + FilterLines(filters[..i])
    {
      PipeStep(head, filters, i, php);
      php := php + FilterLine(filters[i]);
      i := i + 1;
    }
    assert filters[..i] == filters;
  }

  lemma PipeStep(head: string, filters: seq<string>, i: nat, php: string)
    requires i < |filters| && php == head + FilterLines(filters[..i])
    ensures php + FilterLine(filters[i]) == head + FilterLines(filters[..i + 1])
  {
    FilterLinesSnoc(filters[..i], filters[i]);
    TakeSnoc(filters, i);
    AppendAssoc(head, FilterLines(filters[..i]), FilterLine(filters[i]));
  }

  lemma PipeCodeOf(e: string, head: string, filters: seq<string>)
    requires head == "$__pipe_value = " + NormalizeVariable(TrimAll(Split(e, '|'))[0]) + ";\n"
    requires filters == TrimAll(Split(e, '|'))[1..]
    ensures PipeCode(e) == head + FilterLines(filters) + "echo $__pipe_value;\n"
  {
  }

  /** `compileExpression`: a pipe expression, or an escaped echo of the normalised variable. */
  method CompileExpression(e: string) returns (php: string)
    ensures php == ExpressionCode(e)
  {
    if '|' in e {
      php := CompilePipeExpression(e);
    } else {
      var variable := NormalizeVariable(e);
      php := "echo $__quark->escape(" + variable + ");\n";
    }
  }

  /** An expression without a pipe is echoed through the engine's escape with its variable normalised. */
  lemma PlainExpressionEscaped(w: string)
    requires w != "" && AllWordChars(w)
    ensures ExpressionCode(w) == "echo $__quark->escape(" + ("$" + w) + ");\n"
  {
    ExpressionPlain(w);
    NormalizeWord(w);
  }

  /** An expression without '|' is echoed through the engine's escape. */
  lemma ExpressionPlain(e: string)
    requires '|' !in e
    ensures ExpressionCode(e) == "echo $__quark->escape(" + NormalizeVariable(e) + ");\n"
  {
  }

  /** Normalising ignores surrounding whitespace. */
  lemma NormalizeIgnoresTrim(x: string)
    ensures NormalizeVariable(PhpTrim(x)) == NormalizeVariable(x)
  {
    TrimIdempotent(x, TrimSpaceSet);
  }

  /**
   * A pipe expression built from a base and filter segments (none holding a
   * '|') assigns the normalised base, applies each trimmed segment in order,
   * and echoes the result.
   */
  lemma PipeOfSegments(base: string, filters: seq<string>)
    requires '|' !in base
    requires forall i :: 0 <= i < |filters| ==> '|' !in filters[i]
    ensures PipeCode(Join([base] + filters, "|")) ==
      "$__pipe_value = " + NormalizeVariable(base) + ";\n" + FilterLines(TrimAll(filters)) + "echo $__pipe_value;\n"
  {
    var segments := [base] + filters;
    SegmentsPipeFree(base, filters);
    var e := Join(segments, "|");
    SplitJoin(segments, '|');
    var parts := TrimAll(segments);
    PipeCodeVia(e, parts);
    PipeParts(base, filters);
    NormalizeIgnoresTrim(base);
  }

  lemma SegmentsPipeFree(base: string, filters: seq<string>)
    requires '|' !in base
    requires forall i :: 0 <= i < |filters| ==> '|' !in filters[i]
    ensures forall i :: 0 <= i < |[base] + filters| ==> '|' !in ([base] + filters)[i]
  {
    var segments := [base] + filters;
    forall i | 0 <= i < |segments| ensures '|' !in segments[i] {
      if i > 0 {
        assert segments[i] == filters[i - 1];
      }
    }
  }

  lemma PipeCodeVia(e: string, parts: seq<string>)
    requires TrimAll(Split(e, '|')) == parts
    ensures PipeCode(e) ==
      "$__pipe_value = " + NormalizeVariable(parts[0]) + ";\n" + FilterLines(parts[1..]) + "echo $__pipe_value;\n"
  {
  }

  lemma PipeParts(base: string, filters: seq<string>)
    ensures TrimAll([base] + filters)[0] == PhpTrim(base)
    ensures TrimAll([base] + filters)[1..] == TrimAll(filters)
  {
  }

  /** `name(args)` is a call with those arguments; a bare name has none. */
  lemma FilterCallOf(name: string, args: string)
    requires name != "" && AllWordChars(name) && '\n' !in args
    ensures ParseFilterCall(name + "(" + args + ")") == Some((name, args))
    ensures ParseFilterCall(name) == Some((name, ""))
  {
    var f := name + "(" + args + ")";
    assert f == name + ("(" + args + ")");
    assert StripFinalNewline(f) == f;
    WordPrefix(name, "(" + args + ")");
    assert f[|name| + 1..|f| - 1] == args;
    assert StripFinalNewline(name) == name;
    assert WordSpan(name) == |name|;
  }

  /**
   * A segment parses to `name` and `args` exactly when, less one final
   * newline, it is `name(args)`, or it is the bare `name` and `args` is empty.
   */
  lemma FilterCallExactly(f: string, name: string, args: string)
    requires name != "" && AllWordChars(name) && '\n' !in args
    ensures ParseFilterCall(f) == Some((name, args)) <==>
      StripFinalNewline(f) == name + "(" + args + ")" || (args == "" && StripFinalNewline(f) == name)
  {
    FilterCallOf(name, args);
    var call := name + "(" + args + ")";
    if StripFinalNewline(f) == call {
      assert StripFinalNewline(call) == call;
      assert ParseFilterCall(f) == ParseFilterCall(call);
    } else if args == "" && StripFinalNewline(f) == name {
      assert StripFinalNewline(name) == name;
      assert ParseFilterCall(f) == ParseFilterCall(name);
    }
  }

  /** Arguments are spliced in only when PHP-truthy: `name(0)` and `name()` compile like `name`. */
  lemma FilterArgsSplicedWhenTruthy(name: string, args: string)
    requires name != "" && AllWordChars(name) && '\n' !in args
    ensures FilterLine(name + "(" + args + ")") ==
      if Falsy(args) then "$__pipe_value = $__quark->applyFilter('" + name + "', $__pipe_value);\n"
      else "$__pipe_value = $__quark->applyFilter('" + name + "', $__pipe_value, " + args + ");\n"
    ensures Falsy(args) ==> FilterLine(name + "(" + args + ")") == FilterLine(name)
  {
    FilterCallOf(name, args);
  }

  /** A segment that is not `name` or `name(args)` is dropped without a trace. */
  lemma MalformedFilterDropped(segment: string)
    requires segment != "" && segment[0] != '\n' && !IsWordChar(segment[0])
    ensures FilterLine(segment) == ""
  {
    assert StripFinalNewline(segment)[0] == segment[0];
  }

  // ---------------------------------------------------------------------
  // The built-in directives
  // ---------------------------------------------------------------------

  /** The two characters `trim($args, '"\'')` strips. */
  const Quotes: set<char> := {'"', '\''}

  predicate IsQuote(c: char) {
    c == '"' || c == '\''
  }

  /** Length of the longest prefix of `s` free of quote characters (`[^"']*`). */
  function NonQuoteSpan(s: string): (n: nat)
    ensures n <= |s|
    ensures forall i :: 0 <= i < n ==> !IsQuote(s[i])
    ensures n == |s| || IsQuote(s[n])
  {
    if |s| > 0 && !IsQuote(s[0]) then 1 + NonQuoteSpan(s[1..]) else 0
  }

  /** `layout`: a setLayout call on the argument with its quotes trimmed. */
  function LayoutDirective(args: string): (r: Result<string, string>)
    ensures r.Ok? && StartsWith(r.value, "$__quark->setLayout('") && EndsWith(r.value, "');\n")
    ensures r.Ok? && |r.value| == 25 + |Trim(args, Quotes)| && r.value[21..21 + |Trim(args, Quotes)|] == Trim(args, Quotes)
  {
    var php := "$__quark->setLayout('" + Trim(args, Quotes) + "');\n";
    Concat3("$__quark->setLayout('", Trim(args, Quotes), "');\n");
    Ok(php)
  }

  /** `skip_root`: a skipRootLayout call; the argument is ignored. */
  function SkipRootDirective(args: string): (r: Result<string, string>)
    ensures r.Ok? && r.value == "$__quark->skipRootLayout();\n"
  {
    Ok("$__quark->skipRootLayout();\n")
  }

  /** An outlet without a (truthy) name is the 'default' outlet. */
  function OutletDirective(args: string): (r: Result<string, string>)
    ensures r.Ok? && StartsWith(r.value, "echo $__quark->renderOutlet('") && EndsWith(r.value, "', get_defined_vars());\n")
    ensures var name := if Falsy(args) then "default" else Trim(args, Quotes);
      r.Ok? && |r.value| == 53 + |name| && r.value[29..29 + |name|] == name
  {
    var name := if Falsy(args) then "default" else Trim(args, Quotes);
    Concat3("echo $__quark->renderOutlet('", name, "', get_defined_vars());\n");
    Ok("echo $__quark->renderOutlet('" + name + "', get_defined_vars());\n")
  }

  /** `slot`: a startSlot call on the argument, spliced in as it is. */
  function SlotDirective(args: string): (r: Result<string, string>)
    ensures r.Ok? && StartsWith(r.value, "$__quark->startSlot('") && EndsWith(r.value, "');\n")
    ensures r.Ok? && |r.value| == 25 + |args| && r.value[21..21 + |args|] == args
  {
    Concat3("$__quark->startSlot('", args, "');\n");
    Ok("$__quark->startSlot('" + args + "');\n")
  }

  /** `endslot`: an endSlot call; the argument is ignored. */
  function EndslotDirective(args: string): (r: Result<string, string>)
    ensures r.Ok? && r.value == "$__quark->endSlot();\n"
  {
    Ok("$__quark->endSlot();\n")
  }

  /**
   * The captures of `^["']([^"']+)["'](?:\s*,\s*(.+))?$`: a quoted template
   * name, then optionally a comma and a data expression, which defaults to
   * '[]'.
   */
  function IncludeArgs(args: string): (r: Option<(string, string)>)
    ensures r.Some? ==> r.value.0 != "" && r.value.1 != ""
  {
    var b := StripFinalNewline(args);
    if |b| >= 3 && IsQuote(b[0]) then
      var k := 1 + NonQuoteSpan(b[1..]);
      if k >= 2 && k < |b| then IncludeData(b[1..k], b[k + 1..]) else None
    else None
  }

  /** What follows the closing quote: nothing, or `\s*,\s*(.+)`. */
  function IncludeData(template: string, rest: string): (r: Option<(string, string)>)
    ensures r.Some? ==> r.value.0 == template && r.value.1 != ""
  {
    var ws := SpaceSpan(rest);
    if ws < |rest| && rest[ws] == ',' && SpacesThenRest(rest[ws + 1..], 0).Some? then
      Some((template, SpacesThenRest(rest[ws + 1..], 0).value))
    else if rest == "" then Some((template, "[]"))
    else None
  }

  /** `include`: a render of the quoted template merged with the data, or "Invalid include syntax". */
  function IncludeDirective(args: string): (r: Result<string, string>)
    ensures r.Err? <==> IncludeArgs(args).None?
    ensures r.Err? ==> r.error == "Invalid include syntax: " + args
  {
    match IncludeArgs(args)
    case Some((template, data)) =>
      Ok("echo $__quark->render('" + template + "', array_merge(get_defined_vars(), " + data + "));\n")
    case None => Err("Invalid include syntax: " + args)
  }

  /** `if`: opens a PHP if block on the argument, spliced in as it is. */
  function IfDirective(args: string): (r: Result<string, string>)
    ensures r.Ok? && StartsWith(r.value, "if (") && EndsWith(r.value, ") {\n")
    ensures r.Ok? && |r.value| == 8 + |args| && r.value[4..4 + |args|] == args
  {
    Concat3("if (", args, ") {\n");
    Ok("if (" + args + ") {\n")
  }

  /** `elseif`: closes the open block and opens an elseif block on the argument. */
  function ElseifDirective(args: string): (r: Result<string, string>)
    ensures r.Ok? && StartsWith(r.value, "} elseif (") && EndsWith(r.value, ") {\n")
    ensures r.Ok? && |r.value| == 14 + |args| && r.value[10..10 + |args|] == args
  {
    Concat3("} elseif (", args, ") {\n");
    Ok("} elseif (" + args + ") {\n")
  }

  /** `else`: closes the open block and opens an else block; the argument is ignored. */
  function ElseDirective(args: string): (r: Result<string, string>)
    ensures r.Ok? && r.value == "} else {\n"
  {
    Ok("} else {\n")
  }

  /** `endif`: closes the open block; the argument is ignored. */
  function EndifDirective(args: string): (r: Result<string, string>)
    ensures r.Ok? && r.value == "}\n"
  {
    Ok("}\n")
  }

  /** `foreach`: opens a PHP foreach block on the argument, spliced in as it is. */
  function ForeachDirective(args: string): (r: Result<string, string>)
    ensures r.Ok? && StartsWith(r.value, "foreach (") && EndsWith(r.value, ") {\n")
    ensures r.Ok? && |r.value| == 13 + |args| && r.value[9..9 + |args|] == args
  {
    Concat3("foreach (", args, ") {\n");
    Ok("foreach (" + args + ") {\n")
  }

  /** `endforeach`: closes the open block; the argument is ignored. */
  function EndforeachDirective(args: string): (r: Result<string, string>)
    ensures r.Ok? && r.value == "}\n"
  {
    Ok("}\n")
  }

  /** The captures of `^(\$\w+)\s*=\s*(.+)$`: a variable and the value assigned to it. */
  function SetArgs(args: string): (r: Option<(string, string)>)
    ensures r.Some? ==> StartsWith(r.value.0, "$") && |r.value.0| >= 2 && r.value.1 != ""
  {
    SetParts(StripFinalNewline(args))
  }

  function SetParts(b: string): (r: Option<(string, string)>)
    ensures r.Some? ==> StartsWith(r.value.0, "$") && |r.value.0| >= 2 && r.value.1 != ""
  {
    if |b| >= 2 && b[0] == '$' && WordSpan(b[1..]) >= 1 then
      var n := WordSpan(b[1..]);
      SetAfterName(b[..1 + n], b[1 + n..])
    else None
  }

  function SetAfterName(variable: string, rest: string): (r: Option<(string, string)>)
    ensures r.Some? ==> r.value.0 == variable && r.value.1 != ""
  {
    match SetValue(rest)
    case Some(value) => Some((variable, value))
    case None => None
  }

  /** What follows the variable: `\s*=\s*(.+)`. */
  function SetValue(rest: string): (r: Option<string>)
    ensures r.Some? ==> r.value != ""
  {
    var ws := SpaceSpan(rest);
    if ws < |rest| && rest[ws] == '=' then SpacesThenRest(rest[ws + 1..], 0) else None
  }

  /** `set`: an assignment statement, or "Invalid set syntax". */
  function SetDirective(args: string): (r: Result<string, string>)
    ensures r.Err? <==> SetArgs(args).None?
    ensures r.Err? ==> r.error == "Invalid set syntax: " + args
  {
    match SetArgs(args)
    case Some((variable, value)) => Ok(variable + " = " + value + ";\n")
    case None => Err("Invalid set syntax: " + args)
  }

  /** The names `registerBuiltinDirectives` registers, in registration order. */
  const BuiltinNames: seq<string> := ["layout", "skip_root", "outlet", "slot", "endslot",
    "include", "if", "elseif", "else", "endif", "foreach", "endforeach", "set"]

  /** The table `registerBuiltinDirectives` fills: each name with its compiler. */
  function BuiltinDirectives(): seq<(string, DirectiveCompiler)> {
    Zip(BuiltinNames,
      [LayoutDirective, SkipRootDirective, OutletDirective, SlotDirective, EndslotDirective,
       IncludeDirective, IfDirective, ElseifDirective, ElseDirective, EndifDirective,
       ForeachDirective, EndforeachDirective, SetDirective])
  }

  /** `compileDirective`: the registered compiler's output, or an error for an unknown name. */
  function CompileDirective(table: seq<(string, DirectiveCompiler)>, name: string, args: string): (r: Result<string, string>)
    ensures name !in Keys(table) ==> r == Err("Unknown directive: " + name)
  {
    match Lookup(table, name)
    case Some(compiler) => compiler(args)
    case None => Err("Unknown directive: " + name)
  }

  /** The built-in directives are registered under exactly these names, in this order. */
  lemma BuiltinDirectiveNames()
    ensures Keys(BuiltinDirectives()) == ["layout", "skip_root", "outlet", "slot", "endslot",
      "include", "if", "elseif", "else", "endif", "foreach", "endforeach", "set"]
  {
    KeysZip(BuiltinNames,
      [LayoutDirective, SkipRootDirective, OutletDirective, SlotDirective, EndslotDirective,
       IncludeDirective, IfDirective, ElseifDirective, ElseDirective, EndifDirective,
       ForeachDirective, EndforeachDirective, SetDirective]);
  }

  /** A directive registered under a name compiles with that compiler, whatever was there before; other names are unaffected. */
  lemma AddDirectiveOverrides(table: seq<(string, DirectiveCompiler)>, name: string, compiler: DirectiveCompiler, other: string, args: string)
    ensures CompileDirective(Put(table, name, compiler), name, args) == compiler(args)
    ensures other != name ==>
      CompileDirective(Put(table, name, compiler), other, args) == CompileDirective(table, other, args)
  {
  }

  /** `layout` strips the quotes around its template name. */
  lemma LayoutQuoted(q: char, template: string)
    requires IsQuote(q)
    requires template == [] || (!IsQuote(template[0]) && !IsQuote(template[|template| - 1]))
    ensures LayoutDirective([q] + template + [q]) == Ok("$__quark->setLayout('" + template + "');\n")
  {
    TrimWrapped(q, template, q, Quotes);
  }

  /** `outlet` without arguments, or with "0", names the default outlet. */
  lemma OutletDefault(args: string)
    requires Falsy(args)
    ensures OutletDirective(args) == Ok("echo $__quark->renderOutlet('" + "default" + "', get_defined_vars());\n")
  {
  }

  /** `outlet 'name'` names that outlet. */
  lemma OutletNamed(q: char, name: string)
    requires IsQuote(q)
    requires name == [] || (!IsQuote(name[0]) && !IsQuote(name[|name| - 1]))
    ensures OutletDirective([q] + name + [q]) == Ok("echo $__quark->renderOutlet('" + name + "', get_defined_vars());\n")
  {
    TrimWrapped(q, name, q, Quotes);
  }

  lemma NonQuotePrefix(t: string, u: string)
    requires AllNonQuote(t)
    requires u != "" && IsQuote(u[0])
    ensures NonQuoteSpan(t + u) == |t|
  {
    var s := t + u;
    assert forall i :: 0 <= i < |t| ==> s[i] == t[i];
    assert s[|t|] == u[0];
  }

  predicate AllNonQuote(s: string) {
    forall i :: 0 <= i < |s| ==> !IsQuote(s[i])
  }

  /** The quoted template and the text after it, as `IncludeArgs` splits them. */
  lemma IncludeSplit(q: char, template: string, q2: char, rest: string)
    requires IsQuote(q) && IsQuote(q2) && template != "" && AllNonQuote(template)
    requires rest == "" || rest[|rest| - 1] != '\n'
    ensures IncludeArgs([q] + template + [q2] + rest) == IncludeData(template, rest)
  {
    var b := [q] + template + [q2] + rest;
    assert b[1..] == template + ([q2] + rest);
    NonQuotePrefix(template, [q2] + rest);
    assert b[|b| - 1] == if rest == "" then q2 else rest[|rest| - 1];
    assert StripFinalNewline(b) == b;
    assert b[1..1 + |template|] == template;
    assert b[|template| + 2..] == rest;
  }

  /** `include 'name'` renders that template with the current variables. */
  lemma IncludeWithoutData(q: char, template: string, q2: char)
    requires IsQuote(q) && IsQuote(q2) && template != "" && AllNonQuote(template)
    ensures IncludeDirective([q] + template + [q2]) ==
      Ok("echo $__quark->render('" + template + "', array_merge(get_defined_vars(), " + "[]" + "));\n")
  {
    IncludeSplit(q, template, q2, "");
    assert [q] + template + [q2] + "" == [q] + template + [q2];
  }

  lemma IncludeDataOf(template: string, space: string, data: string)
    requires AllSpace(space)
    requires data != "" && !IsSpace(data[0]) && '\n' !in data
    ensures IncludeData(template, "," + space + data) == Some((template, data))
  {
    var rest := "," + space + data;
    assert SpaceSpan(rest) == 0;
    assert rest[1..] == space + data;
    SpacesThenRestOf(space, data, 0);
  }

  /** `include 'name', data` merges the data expression into the current variables. */
  lemma IncludeWithData(q: char, template: string, q2: char, space: string, data: string)
    requires IsQuote(q) && IsQuote(q2) && template != "" && AllNonQuote(template)
    requires AllSpace(space)
    requires data != "" && !IsSpace(data[0]) && '\n' !in data
    ensures IncludeDirective([q] + template + [q2] + ("," + space + data)) ==
      Ok("echo $__quark->render('" + template + "', array_merge(get_defined_vars(), " + data + "));\n")
  {
    var rest := "," + space + data;
    assert rest[|rest| - 1] == data[|data| - 1];
    IncludeSplit(q, template, q2, rest);
    IncludeDataOf(template, space, data);
  }

  /** An include whose argument does not start with a quote is a compile error. */
  lemma IncludeRejects(args: string)
    requires args != "" && !IsQuote(args[0]) && args[0] != '\n'
    ensures IncludeDirective(args) == Err("Invalid include syntax: " + args)
  {
    assert StripFinalNewline(args) == [] || StripFinalNewline(args)[0] == args[0];
  }

  /** `set $name = value` assigns the value to the variable. */
  lemma SetOf(name: string, space: string, value: string)
    requires name != "" && AllWordChars(name)
    requires AllSpace(space)
    requires value != "" && !IsSpace(value[0]) && '\n' !in value
    ensures SetDirective("$" + name + ("=" + space + value)) == Ok("$" + name + " = " + value + ";\n")
  {
    var tail := "=" + space + value;
    var b := "$" + name + tail;
    assert b[|b| - 1] == value[|value| - 1];
    assert StripFinalNewline(b) == b;
    assert b[1..] == name + tail;
    WordPrefix(name, tail);
    SetSplit(b, |name|);
    assert b[..1 + |name|] == "$" + name;
    assert b[1 + |name|..] == tail;
    SetValueOf(space, value);
  }

  lemma SetSplit(b: string, n: nat)
    requires |b| >= 2 && b[0] == '$'
    requires n >= 1 && WordSpan(b[1..]) == n
    ensures SetParts(b) == SetAfterName(b[..1 + n], b[1 + n..])
  {
    var k := WordSpan(b[1..]);
    assert |b| >= 2 && b[0] == '$' && k >= 1;
  }

  lemma SetValueOf(space: string, value: string)
    requires AllSpace(space)
    requires value != "" && !IsSpace(value[0]) && '\n' !in value
    ensures SetValue("=" + space + value) == Some(value)
  {
    var tail := "=" + space + value;
    assert SpaceSpan(tail) == 0;
    assert tail[1..] == space + value;
    SpacesThenRestOf(space, value, 0);
  }

  /** A `set` whose argument does not start with '$' is a compile error. */
  lemma SetRejects(args: string)
    requires args != "" && args[0] != '$' && args[0] != '\n'
    ensures SetDirective(args) == Err("Invalid set syntax: " + args)
  {
    assert StripFinalNewline(args) == [] || StripFinalNewline(args)[0] == args[0];
  }

  // ---------------------------------------------------------------------
  // var_export of a string
  // ---------------------------------------------------------------------

  /** One byte inside a single-quoted literal: backslash and quote are escaped, NUL leaves the literal. */
  function ExportChar(c: char): string {
    if c == '\\' || c == '\'' then ['\\', c]
    else if c == '\0' then "' . \"\\0\" . '"
    else [c]
  }

  function ExportBody(s: string): string {
    if s == "" then "" else ExportChar(s[0]) + ExportBody(s[1..])
  }

  /** `var_export($s, true)` for a string: a PHP single-quoted literal. */
  function VarExport(s: string): (r: string)
    ensures |r| >= 2 && r[0] == '\'' && r[|r| - 1] == '\''
  {
    "'" + ExportBody(s) + "'"
  }

  /**
   * The value PHP gives the body of a single-quoted literal: `\\` stands
   * for a backslash and `\'` for a quote; any other backslash is itself.
   */
  function ReadSingleQuoted(b: string): string {
    if b == "" then ""
    else if b[0] == '\\' && |b| >= 2 && (b[1] == '\\' || b[1] == '\'') then [b[1]] + ReadSingleQuoted(b[2..])
    else [b[0]] + ReadSingleQuoted(b[1..])
  }

  /** Inside the exported literal every quote is escaped, so the literal ends only at its closing quote. */
  predicate QuotesEscaped(b: string) {
    forall i :: 0 <= i < |b| && b[i] == '\'' ==> i > 0 && b[i - 1] == '\\'
  }

  /** Reading the exported literal gives back the string, for any string without NUL bytes. */
  lemma {:induction false} VarExportRoundTrip(s: string)
    requires '\0' !in s
    ensures ReadSingleQuoted(ExportBody(s)) == s
  {
    if s != "" {
      VarExportRoundTrip(s[1..]);
      var c := s[0];
      var tail := ExportBody(s[1..]);
      assert ExportBody(s) == ExportChar(c) + tail;
      if c == '\\' || c == '\'' {
        var b := ['\\', c] + tail;
        assert b[2..] == tail;
      } else {
        var b := [c] + tail;
        assert b[1..] == tail;
      }
      assert [c] + s[1..] == s;
    }
  }

  /** A NUL byte is spliced in as a double-quoted "\0" between two literals. */
  lemma VarExportNul()
    ensures VarExport("\0") == "'' . \"\\0\" . ''"
  {
  }

  // ---------------------------------------------------------------------
  // compile
  // ---------------------------------------------------------------------

  /** The PHP one token compiles to. */
  function Fragment(table: seq<(string, DirectiveCompiler)>, token: Token): Result<string, string> {
    match token
    case Text(content) => Ok("echo " + VarExport(content) + ";\n")
    case Expression(content) => Ok(ExpressionCode(content))
    case Directive(name, args) => CompileDirective(table, name, args)
  }

  /** The fragments of all tokens, in order; the first error is thrown. */
  function Fragments(table: seq<(string, DirectiveCompiler)>, tokens: seq<Token>): Result<string, string> {
    if tokens == [] then Ok("")
    else
      match Fragment(table, tokens[0])
      case Err(e) => Err(e)
      case Ok(f) => PrependText(f, Fragments(table, tokens[1..]))
  }

  function PrependText(a: string, r: Result<string, string>): Result<string, string> {
    match r
    case Ok(b) => Ok(a + b)
    case Err(e) => Err(e)
  }

  /** `compile`: tokenize, then translate every token after the "<?php" opening line. */
  function CompileSpec(table: seq<(string, DirectiveCompiler)>, source: string): Result<string, string> {
    match TokenizeSpec(source)
    case Err(e) => Err(e)
    case Ok(tokens) => PrependText("<?php\n", Fragments(table, tokens))
  }

  lemma PrependTextTwice(a: string, b: string, r: Result<string, string>)
    ensures PrependText(a, PrependText(b, r)) == PrependText(a + b, r)
  {
    if r.Ok? {
      AppendAssoc(a, b, r.value);
    }
  }

  /** One step of the compile loop: an appended fragment moves from the rest to the output. */
  lemma FragmentsStep(table: seq<(string, DirectiveCompiler)>, php: string, tokens: seq<Token>, i: nat, f: string)
    requires i < |tokens| && Fragment(table, tokens[i]) == Ok(f)
    ensures PrependText(php, Fragments(table, tokens[i..])) == PrependText(php + f, Fragments(table, tokens[i + 1..]))
  {
    assert tokens[i..][1..] == tokens[i + 1..];
    PrependTextTwice(php, f, Fragments(table, tokens[i + 1..]));
  }

  /** A template without tags compiles to one echo of its text. */
  lemma CompilePlainText(table: seq<(string, DirectiveCompiler)>, source: string)
    requires source != ""
    requires FindPair(source, '}', '}', 0).None? && FindPair(source, '%', '}', 0).None?
    ensures CompileSpec(table, source) == Ok("<?php\n" + ("echo " + VarExport(source) + ";\n"))
  {
    UnterminatedIsText(source);
    var f := "echo " + VarExport(source) + ";\n";
    assert TokensOfPieces([Stretch(source)]) == Ok([Text(source)]) by {
      assert [Stretch(source)][1..] == [];
      assert [Text(source)] + [] == [Text(source)];
    }
    assert Fragments(table, [Text(source)]) == Ok(f) by {
      assert [Text(source)][1..] == [];
      assert f + "" == f;
    }
  }

  /** An unregistered directive name makes the whole compile fail with that error. */
  lemma CompileUnknownDirective(table: seq<(string, DirectiveCompiler)>, tokens: seq<Token>, name: string, args: string)
    requires name !in Keys(table)
    requires tokens != [] && tokens[0] == Directive(name, args)
    ensures Fragments(table, tokens) == Err("Unknown directive: " + name)
  {
  }

  // ---------------------------------------------------------------------
  // The compiler object
  // ---------------------------------------------------------------------

  /** `QuarkCompiler`: a directive table that starts with the built-ins and can be extended. */
  class Compiler {
    var debug: bool
    var directives: seq<(string, DirectiveCompiler)>

    constructor (debug: bool)
      ensures this.debug == debug && directives == BuiltinDirectives()
    {
      this.debug := debug;
      directives := BuiltinDirectives();
    }

    /** `addDirective`: register or replace the compiler for a name. */
    method AddDirective(name: string, compiler: DirectiveCompiler)
      modifies this
      ensures directives == Put(old(directives), name, compiler)
      ensures debug == old(debug)
    {
      directives := Put(directives, name, compiler);
    }

    /** `compile`: the PHP for a template, or the first error thrown while compiling it. */
    method Compile(source: string) returns (r: Result<string, string>)
      ensures r == CompileSpec(directives, source)
    {
      var tokenized := Tokenize(source);
      if tokenized.Err? {
        return Err(tokenized.error);
      }
      var table := directives;
      var tokens := tokenized.value;
      var php := "<?php\n";
      var i := 0;
      while i < |tokens|
        invariant 0 <= i <= |tokens|
        invariant PrependText("<?php\n", Fragments(table, tokens)) == PrependText(php, Fragments(table, tokens[i..]))
      {
        var fragment := CompileToken(table, tokens[i]);
        if fragment.Err? {
          return Err(fragment.error);
        }
        FragmentsStep(table, php, tokens, i, fragment.value);
        php := php + fragment.value;
        i := i + 1;
      }
      assert tokens[i..] == [];
      assert php + "" == php;
      return Ok(php);
    }
  }

  /** The `switch` on the token type inside `compile`. */
  method CompileToken(table: seq<(string, DirectiveCompiler)>, token: Token) returns (r: Result<string, string>)
    ensures r == Fragment(table, token)
  {
    match token {
      case Text(content) =>
        r := Ok("echo " + VarExport(content) + ";\n");
      case Expression(content) =>
        var code := CompileExpression(content);
        r := Ok(code);
      case Directive(name, args) =>
        r := CompileDirective(table, name, args);
    }
  }
}
