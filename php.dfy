/**
 * The slice of PHP's runtime that the framework core leans on: result types
 * for thrown exceptions, byte-string helpers (trim, case mapping, explode,
 * implode, str_replace), PHP's truthiness of strings, and insertion-ordered
 * string-keyed arrays.
 *
 * A PHP string is a byte string; here each `char` of a `string` stands for
 * one byte, so `|s|` is `strlen($s)`.
 */
module Php {

  datatype Option<T> = None | Some(value: T)

  /** The outcome of a PHP call that may throw: a value or the thrown error. */
  datatype Result<T, E> = Ok(value: T) | Err(error: E)

  // ---------------------------------------------------------------------
  // Character classes
  // ---------------------------------------------------------------------

  /** The characters PHP's trim() strips by default: " \t\n\r\0\x0B". */
  predicate IsTrimSpace(c: char) {
    c == ' ' || c == '\t' || c == '\n' || c == '\r' || c == '\0' || c == '\U{B}'
  }

  /** PCRE `\s`: space, tab, newline, vertical tab, form feed, carriage return. */
  predicate IsSpace(c: char) {
    c == ' ' || c == '\t' || c == '\n' || c == '\U{B}' || c == '\U{C}' || c == '\r'
  }

  /** PCRE `\w` without the u modifier: ASCII letters, digits and underscore. */
  predicate IsWordChar(c: char) {
    'a' <= c <= 'z' || 'A' <= c <= 'Z' || '0' <= c <= '9' || c == '_'
  }

  predicate AllWordChars(s: string) {
    forall i :: 0 <= i < |s| ==> IsWordChar(s[i])
  }

  predicate AllSpace(s: string) {
    forall i :: 0 <= i < |s| ==> IsSpace(s[i])
  }

  /** A string that PHP converts to false: the empty string and "0". */
  predicate Falsy(s: string) {
    s == "" || s == "0"
  }

  // ---------------------------------------------------------------------
  // Spans and searches
  // ---------------------------------------------------------------------

  /** Length of the longest prefix of `s` made of `\w` characters. */
  function WordSpan(s: string): (n: nat)
    ensures n <= |s|
    ensures forall i :: 0 <= i < n ==> IsWordChar(s[i])
    ensures n == |s| || !IsWordChar(s[n])
  {
    if |s| > 0 && IsWordChar(s[0]) then 1 + WordSpan(s[1..]) else 0
  }

  /** Length of the longest prefix of `s` made of `\s` characters. */
  function SpaceSpan(s: string): (n: nat)
    ensures n <= |s|
    ensures forall i :: 0 <= i < n ==> IsSpace(s[i])
    ensures n == |s| || !IsSpace(s[n])
  {
    if |s| > 0 && IsSpace(s[0]) then 1 + SpaceSpan(s[1..]) else 0
  }

  lemma AppendAssoc<T>(a: seq<T>, b: seq<T>, c: seq<T>)
    ensures (a + b) + c == a + (b + c)
  {
  }

  /** Dropping the element just appended gives the sequence back. */
  lemma SnocParts<T>(s: seq<T>, x: T)
    ensures (s + [x])[..|s|] == s && (s + [x])[|s|] == x
  {
  }

  /** Taking one more element of a sequence appends that element. */
  lemma TakeSnoc<T>(s: seq<T>, i: nat)
    requires i < |s|
    ensures s[..i] + [s[i]] == s[..i + 1]
  {
  }

  /** `str_contains($s, $t)`. */
  predicate Contains(s: string, t: string) {
    StartsWith(s, t) || (|s| > 0 && Contains(s[1..], t))
  }

  predicate StartsWith(s: string, t: string) {
    |t| <= |s| && s[..|t|] == t
  }

  predicate EndsWith(s: string, t: string) {
    |t| <= |s| && s[|s| - |t|..] == t
  }

  /** Three strings put together hold each other at consecutive positions. */
  lemma Concat3(a: string, b: string, c: string)
    ensures var s := a + b + c;
      |s| == |a| + |b| + |c| && s[..|a|] == a && s[|a|..|a| + |b|] == b && s[|a| + |b|..] == c
    ensures StartsWith(a + b + c, a) && EndsWith(a + b + c, c)
  {
    var s := a + b + c;
    assert s[..|a|] == a;
    assert s[|a|..|a| + |b|] == b;
    assert s[|a| + |b|..] == c;
    assert s[|s| - |c|..] == c;
  }

  // ---------------------------------------------------------------------
  // trim, ltrim, rtrim
  // ---------------------------------------------------------------------

  /** `ltrim($s, $chars)`: the suffix of `s` left after dropping leading members of `cs`. */
  function TrimLeft(s: string, cs: set<char>): (r: string)
    ensures |r| <= |s| && r == s[|s| - |r|..]
    ensures r == [] || r[0] !in cs
    ensures forall i :: 0 <= i < |s| - |r| ==> s[i] in cs
  {
    if |s| > 0 && s[0] in cs then TrimLeft(s[1..], cs) else s
  }

  /** `rtrim($s, $chars)`: the prefix of `s` left after dropping trailing members of `cs`. */
  function TrimRight(s: string, cs: set<char>): (r: string)
    ensures |r| <= |s| && r == s[..|r|]
    ensures r == [] || r[|r| - 1] !in cs
    ensures forall i :: |r| <= i < |s| ==> s[i] in cs
  {
    if |s| > 0 && s[|s| - 1] in cs then TrimRight(s[..|s| - 1], cs) else s
  }

  /** `trim($s, $chars)`: `s` without leading and trailing members of `cs`. */
  function Trim(s: string, cs: set<char>): (r: string)
    ensures |r| <= |s|
    ensures r == [] || (r[0] !in cs && r[|r| - 1] !in cs)
  {
    var l := TrimLeft(s, cs);
    var r := TrimRight(l, cs);
    assert r == [] || r[0] == l[0];
    r
  }

  /** A string that neither starts nor ends with a member of `cs` is its own trim. */
  lemma TrimUnchanged(s: string, cs: set<char>)
    requires s == [] || (s[0] !in cs && s[|s| - 1] !in cs)
    ensures Trim(s, cs) == s
  {
  }

  /** A string wrapped in one member of `cs` on each side trims back to itself when its own ends are not in `cs`. */
  lemma TrimWrapped(c: char, t: string, d: char, cs: set<char>)
    requires c in cs && d in cs
    requires t == [] || (t[0] !in cs && t[|t| - 1] !in cs)
    ensures Trim([c] + t + [d], cs) == t
  {
    var s := [c] + t + [d];
    assert s[1..] == t + [d];
    assert TrimLeft(s, cs) == TrimLeft(t + [d], cs);
    var u := t + [d];
    if t == [] {
      assert u[1..] == [];
      assert TrimLeft(u, cs) == [];
      assert TrimRight([], cs) == [];
    } else {
      assert u[0] == t[0];
      assert TrimLeft(u, cs) == u;
      assert u[..|u| - 1] == t;
      assert TrimRight(u, cs) == TrimRight(t, cs);
      assert TrimRight(t, cs) == t;
    }
    assert Trim(s, cs) == TrimRight(TrimLeft(u, cs), cs);
  }

  /** The characters PHP's trim() strips when given no list. */
  const TrimSpaceSet: set<char> := {' ', '\t', '\n', '\r', '\0', '\U{B}'}

  lemma TrimSpaceSetIsTrimSpace(c: char)
    ensures c in TrimSpaceSet <==> IsTrimSpace(c)
  {
  }

  /** `trim($s)` with PHP's default character list. */
  function PhpTrim(s: string): (r: string)
    ensures |r| <= |s|
    ensures r == [] || (!IsTrimSpace(r[0]) && !IsTrimSpace(r[|r| - 1]))
  {
    Trim(s, TrimSpaceSet)
  }

  /** Neither the first nor the last character is one that `trim` strips. */
  predicate NoTrimEnds(s: string) {
    s == [] || (!IsTrimSpace(s[0]) && !IsTrimSpace(s[|s| - 1]))
  }

  /** A string with no trim space at either end is its own `trim`. */
  lemma PhpTrimUnchanged(s: string)
    requires NoTrimEnds(s)
    ensures PhpTrim(s) == s
  {
    TrimUnchanged(s, TrimSpaceSet);
  }

  /** Trimming twice is trimming once. */
  lemma {:induction false} TrimIdempotent(s: string, cs: set<char>)
    ensures Trim(Trim(s, cs), cs) == Trim(s, cs)
  {
    var t := Trim(s, cs);
    assert t == [] || t[0] !in cs;
    assert TrimLeft(t, cs) == t;
    assert t == [] || t[|t| - 1] !in cs;
    assert TrimRight(t, cs) == t;
  }

  // ---------------------------------------------------------------------
  // Case mapping (byte-wise, ASCII only, as strtoupper/strtolower in PHP 8)
  // ---------------------------------------------------------------------

  function UpperChar(c: char): char {
    if 'a' <= c <= 'z' then (c as int - 32) as char else c
  }

  function LowerChar(c: char): char {
    if 'A' <= c <= 'Z' then (c as int + 32) as char else c
  }

  /** `strtoupper($s)`. */
  function Upper(s: string): (r: string)
    ensures |r| == |s| && forall i :: 0 <= i < |s| ==> r[i] == UpperChar(s[i])
  {
    seq(|s|, i requires 0 <= i < |s| => UpperChar(s[i]))
  }

  /** `strtolower($s)`. */
  function Lower(s: string): (r: string)
    ensures |r| == |s| && forall i :: 0 <= i < |s| ==> r[i] == LowerChar(s[i])
  {
    seq(|s|, i requires 0 <= i < |s| => LowerChar(s[i]))
  }

  /** Upper-casing is idempotent, so `strtoupper` of an upper-cased method name is itself. */
  lemma UpperIdempotent(s: string)
    ensures Upper(Upper(s)) == Upper(s)
  {
    assert forall i :: 0 <= i < |s| ==> UpperChar(UpperChar(s[i])) == UpperChar(s[i]);
  }

  // ---------------------------------------------------------------------
  // explode, implode, str_replace
  // ---------------------------------------------------------------------

  /** `explode($d, $s)` for a one-byte delimiter: the pieces between occurrences of `d`. */
  function Split(s: string, d: char): (parts: seq<string>)
    ensures |parts| >= 1
    ensures forall i :: 0 <= i < |parts| ==> d !in parts[i]
  {
    if |s| == 0 then [""]
    else
      var rest := Split(s[1..], d);
      if s[0] == d then [""] + rest
      else [[s[0]] + rest[0]] + rest[1..]
  }

  /** `implode($sep, $parts)`. */
  function Join(parts: seq<string>, sep: string): string {
    if |parts| == 0 then ""
    else if |parts| == 1 then parts[0]
    else parts[0] + sep + Join(parts[1..], sep)
  }

  /** Exploding and imploding with the same delimiter gives the input back. */
  lemma {:induction false} JoinSplit(s: string, d: char)
    ensures Join(Split(s, d), [d]) == s
  {
    if |s| > 0 {
      var rest := Split(s[1..], d);
      JoinSplit(s[1..], d);
      if s[0] == d {
        assert Split(s, d) == [""] + rest;
        assert ([""] + rest)[1..] == rest;
      } else {
        var parts := Split(s, d);
        assert parts == [[s[0]] + rest[0]] + rest[1..];
        if |rest| == 1 {
          assert Join(parts, [d]) == [s[0]] + rest[0];
        } else {
          assert parts[1..] == rest[1..];
          assert Join(parts, [d]) == [s[0]] + rest[0] + [d] + Join(rest[1..], [d]);
        }
      }
    }
  }

  /** Exploding an implosion of delimiter-free pieces recovers the pieces. */
  lemma {:induction false} SplitJoin(parts: seq<string>, d: char)
    requires |parts| >= 1
    requires forall i :: 0 <= i < |parts| ==> d !in parts[i]
    ensures Split(Join(parts, [d]), d) == parts
  {
    if |parts| == 1 {
      SplitNoDelimiter(parts[0], d);
    } else {
      SplitJoin(parts[1..], d);
      SplitAfterPrefix(parts[0], Join(parts[1..], [d]), d);
      assert Join(parts, [d]) == parts[0] + [d] + Join(parts[1..], [d]);
      assert [parts[0]] + parts[1..] == parts;
    }
  }

  lemma {:induction false} SplitNoDelimiter(s: string, d: char)
    requires d !in s
    ensures Split(s, d) == [s]
  {
    if |s| > 0 {
      SplitNoDelimiter(s[1..], d);
      assert [s[0]] + s[1..] == s;
    }
  }

  /** A delimiter-free prefix followed by the delimiter becomes the first piece. */
  lemma {:induction false} SplitAfterPrefix(p: string, t: string, d: char)
    requires d !in p
    ensures Split(p + [d] + t, d) == [p] + Split(t, d)
  {
    if |p| == 0 {
      assert p + [d] + t == [d] + t;
      assert ([d] + t)[1..] == t;
    } else {
      assert (p + [d] + t)[1..] == p[1..] + [d] + t;
      SplitAfterPrefix(p[1..], t, d);
      assert [p[0]] + p[1..] == p;
    }
  }

  /** `str_replace($c, $rep, $s)` for a one-byte search string. */
  function ReplaceChar(s: string, c: char, rep: string): (r: string)
    ensures c !in rep ==> c !in r
    ensures c !in s ==> r == s
  {
    if |s| == 0 then ""
    else (if s[0] == c then rep else [s[0]]) + ReplaceChar(s[1..], c, rep)
  }

  /** `str_replace` works piecewise over a concatenation. */
  lemma {:induction false} ReplaceCharAppend(a: string, b: string, c: char, rep: string)
    ensures ReplaceChar(a + b, c, rep) == ReplaceChar(a, c, rep) + ReplaceChar(b, c, rep)
  {
    if |a| > 0 {
      ReplaceCharAppend(a[1..], b, c, rep);
      var h := if a[0] == c then rep else [a[0]];
      assert (a + b)[0] == a[0] && (a + b)[1..] == a[1..] + b;
      assert ReplaceChar(a + b, c, rep) == h + ReplaceChar(a[1..] + b, c, rep);
      assert ReplaceChar(a, c, rep) == h + ReplaceChar(a[1..], c, rep);
    } else {
      assert a + b == b;
    }
  }

  /** Replacing every occurrence of a delimiter is imploding the pieces with the replacement. */
  lemma {:induction false} ReplaceCharIsJoinSplit(s: string, c: char, rep: string)
    ensures ReplaceChar(s, c, rep) == Join(Split(s, c), rep)
  {
    if |s| > 0 {
      ReplaceCharIsJoinSplit(s[1..], c, rep);
      var rest := Split(s[1..], c);
      if s[0] == c {
        assert Split(s, c) == [""] + rest;
        assert ([""] + rest)[1..] == rest;
      } else {
        var parts := Split(s, c);
        assert parts == [[s[0]] + rest[0]] + rest[1..];
        if |rest| > 1 {
          assert parts[1..] == rest[1..];
        }
      }
    }
  }

  // ---------------------------------------------------------------------
  // Integers as decimal strings
  // ---------------------------------------------------------------------

  function DigitChar(d: nat): char
    requires d < 10
  {
    ('0' as int + d) as char
  }

  /** The decimal form of a natural number, as PHP prints it. */
  function NatToString(n: nat): (r: string)
    ensures |r| >= 1
    ensures forall i :: 0 <= i < |r| ==> '0' <= r[i] <= '9'
    ensures n > 0 ==> r[0] != '0'
  {
    if n < 10 then [DigitChar(n)] else NatToString(n / 10) + [DigitChar(n % 10)]
  }

  /** The decimal form of an integer, as `(string)$i` gives it. */
  function IntToString(i: int): (r: string)
    ensures |r| >= 1
  {
    if i < 0 then "-" + NatToString(-i) else NatToString(i)
  }

  /** The value of a string of decimal digits. */
  function DigitsValue(s: string): nat
    requires forall i :: 0 <= i < |s| ==> '0' <= s[i] <= '9'
  {
    if |s| == 0 then 0 else 10 * DigitsValue(s[..|s| - 1]) + (s[|s| - 1] as int - '0' as int)
  }

  /** Reading back the decimal form gives the number. */
  lemma {:induction false} NatToStringValue(n: nat)
    ensures DigitsValue(NatToString(n)) == n
  {
    if n >= 10 {
      NatToStringValue(n / 10);
      var r := NatToString(n);
      assert r[..|r| - 1] == NatToString(n / 10);
    }
  }

  // ---------------------------------------------------------------------
  // Insertion-ordered string-keyed arrays
  // ---------------------------------------------------------------------

  /** The keys of a PHP array, in order. */
  function Keys<V>(e: seq<(string, V)>): (ks: seq<string>)
    ensures |ks| == |e| && forall i :: 0 <= i < |e| ==> ks[i] == e[i].0
  {
    if |e| == 0 then [] else [e[0].0] + Keys(e[1..])
  }

  /** The ordered array with keys `ks` and values `vs`, pair by pair. */
  function Zip<V>(ks: seq<string>, vs: seq<V>): (e: seq<(string, V)>)
    requires |ks| == |vs|
    ensures |e| == |ks|
  {
    if ks == [] then [] else [(ks[0], vs[0])] + Zip(ks[1..], vs[1..])
  }

  lemma {:induction false} KeysZip<V>(ks: seq<string>, vs: seq<V>)
    requires |ks| == |vs|
    ensures Keys(Zip(ks, vs)) == ks
  {
    if ks != [] {
      KeysZip(ks[1..], vs[1..]);
      var e := Zip(ks, vs);
      assert e[1..] == Zip(ks[1..], vs[1..]);
      assert Keys(e) == [e[0].0] + Keys(e[1..]);
    }
  }

  predicate DistinctKeys<V>(e: seq<(string, V)>) {
    forall i, j :: 0 <= i < j < |e| ==> e[i].0 != e[j].0
  }

  /** `$a[$k] ?? null` on a PHP array. */
  function Lookup<V>(e: seq<(string, V)>, k: string): (r: Option<V>)
    ensures r.None? <==> k !in Keys(e)
  {
    if |e| == 0 then None
    else if e[0].0 == k then Some(e[0].1)
    else
      Lookup(e[1..], k)
  }

  /** `$a[$k] = $v`: overwrite in place when the key exists, append otherwise. */
  function Put<V>(e: seq<(string, V)>, k: string, v: V): (r: seq<(string, V)>)
    ensures Lookup(r, k) == Some(v)
    ensures forall k' :: k' != k ==> Lookup(r, k') == Lookup(e, k')
  {
    if |e| == 0 then [(k, v)]
    else if e[0].0 == k then [(k, v)] + e[1..]
    else
      var t := Put(e[1..], k, v);
      var r := [e[0]] + t;
      assert r[1..] == t;
      r
  }

  /** Assignment keeps the order of existing keys and appends a new key last. */
  lemma {:induction false} PutKeys<V>(e: seq<(string, V)>, k: string, v: V)
    ensures Keys(Put(e, k, v)) == if k in Keys(e) then Keys(e) else Keys(e) + [k]
  {
    if |e| > 0 && e[0].0 != k {
      PutKeys(e[1..], k, v);
      var t := Put(e[1..], k, v);
      assert Put(e, k, v) == [e[0]] + t;
      assert ([e[0]] + t)[1..] == t;
    } else if |e| > 0 {
      assert Keys(Put(e, k, v)) == Keys(e);
    }
  }

  /** Assignment keeps the keys of an array distinct. */
  lemma PutDistinct<V>(e: seq<(string, V)>, k: string, v: V)
    requires DistinctKeys(e)
    ensures DistinctKeys(Put(e, k, v))
  {
    var r := Put(e, k, v);
    PutKeys(e, k, v);
    var ks := Keys(r);
    assert forall i :: 0 <= i < |r| ==> r[i].0 == ks[i];
    assert forall i :: 0 <= i < |e| ==> e[i].0 == Keys(e)[i];
  }

  /** The entries of `e`, in order, whose keys satisfy `keep` (`array_filter` on keys). */
  function FilterKeys<V>(e: seq<(string, V)>, keep: string -> bool): (r: seq<(string, V)>)
    ensures |r| <= |e|
    ensures forall i :: 0 <= i < |r| ==> keep(r[i].0)
    ensures forall i :: 0 <= i < |e| ==> (e[i] in r <==> keep(e[i].0))
    ensures forall i :: 0 <= i < |r| ==> r[i] in e
  {
    if |e| == 0 then []
    else (if keep(e[0].0) then [e[0]] else []) + FilterKeys(e[1..], keep)
  }

  /** `foreach ($pairs as $k => $v) $a[$k] = $v;`, written from the last assignment back. */
  function PutAll<V>(e: seq<(string, V)>, pairs: seq<(string, V)>): (r: seq<(string, V)>)
    decreases |pairs|
  {
    if |pairs| == 0 then e
    else Put(PutAll(e, pairs[..|pairs| - 1]), pairs[|pairs| - 1].0, pairs[|pairs| - 1].1)
  }

  /** Assigning the pairs up to and including `i` is assigning those before `i`, then pair `i`. */
  lemma PutAllSnoc<V>(e: seq<(string, V)>, pairs: seq<(string, V)>, i: nat)
    requires i < |pairs|
    ensures PutAll(e, pairs[..i + 1]) == Put(PutAll(e, pairs[..i]), pairs[i].0, pairs[i].1)
  {
    assert pairs[..i + 1][..i] == pairs[..i];
  }

  /** Assigning one more pair after a list is assigning the list, then that pair. */
  lemma PutAllAppendOne<V>(e: seq<(string, V)>, pairs: seq<(string, V)>, kv: (string, V))
    ensures PutAll(e, pairs + [kv]) == Put(PutAll(e, pairs), kv.0, kv.1)
  {
    assert (pairs + [kv])[..|pairs|] == pairs;
  }

  /** The value of the last pair with key `k`, if any. */
  function LookupLast<V>(pairs: seq<(string, V)>, k: string): (r: Option<V>)
    ensures r.None? <==> k !in Keys(pairs)
    decreases |pairs|
  {
    if |pairs| == 0 then None
    else if pairs[|pairs| - 1].0 == k then Some(pairs[|pairs| - 1].1)
    else
      var r := LookupLast(pairs[..|pairs| - 1], k);
      KeysSnoc(pairs);
      r
  }

  /** The keys of a non-empty array are those of all but its last entry, then the last key. */
  lemma KeysSnoc<V>(pairs: seq<(string, V)>)
    requires |pairs| > 0
    ensures Keys(pairs) == Keys(pairs[..|pairs| - 1]) + [pairs[|pairs| - 1].0]
  {
    var ks := Keys(pairs);
    var ki := Keys(pairs[..|pairs| - 1]) + [pairs[|pairs| - 1].0];
    assert |ks| == |ki|;
    forall i | 0 <= i < |ks|
      ensures ks[i] == ki[i]
    {
      if i < |pairs| - 1 {
        assert ki[i] == pairs[..|pairs| - 1][i].0;
      }
    }
  }

  /** After assigning a list of pairs in order, each key holds the value of its last pair. */
  lemma {:induction false} PutAllLookup<V>(e: seq<(string, V)>, pairs: seq<(string, V)>, k: string)
    ensures Lookup(PutAll(e, pairs), k) == if k in Keys(pairs) then LookupLast(pairs, k) else Lookup(e, k)
    decreases |pairs|
  {
    if |pairs| > 0 {
      var init := pairs[..|pairs| - 1];
      PutAllLookup(e, init, k);
      KeysSnoc(pairs);
    }
  }

  predicate AllDigits(s: string) {
    forall i :: 0 <= i < |s| ==> '0' <= s[i] <= '9'
  }

  /**
   * A string PHP turns into an integer when it is used as an array key: a
   * canonical decimal integer ("0", or an optional '-' and a digit string
   * without a leading zero) within the 64-bit range.
   */
  predicate IsIntegerKey(s: string) {
    if s == "0" then true
    else
      var neg := |s| > 0 && s[0] == '-';
      var d := if neg then s[1..] else s;
      |d| > 0 && '1' <= d[0] <= '9' && AllDigits(d) &&
      DigitsValue(d) <= (if neg then 0x8000_0000_0000_0000 else 0x7FFF_FFFF_FFFF_FFFF)
  }
}
