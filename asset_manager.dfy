/**
 * The asset registry: scripts and stylesheets registered by name, and the
 * names a page has asked to use. The getters filter the registrations by
 * the used names when they are read. The logger warning for an unknown
 * name is not part of this model.
 */
module AssetManager {
  import opened Php

  /** A registered script: its URI and the attributes of its tag. */
  datatype Script = Script(src: string, attributes: seq<(string, string)>)

  /** A registered stylesheet: its URI. */
  datatype Stylesheet = Stylesheet(href: string)

  /** The registrations whose name is in `used`, in registration order. */
  function Used<V>(e: seq<(string, V)>, used: seq<string>): (r: seq<(string, V)>)
    ensures |r| <= |e|
    ensures forall i :: 0 <= i < |r| ==> r[i].0 in used && r[i] in e
    ensures forall i :: 0 <= i < |e| ==> (e[i] in r <==> e[i].0 in used)
  {
    if |e| == 0 then []
    else (if e[0].0 in used then [e[0]] else []) + Used(e[1..], used)
  }

  /** Looking a name up among the used registrations finds it exactly when it was registered and used. */
  lemma {:induction false} UsedLookup<V>(e: seq<(string, V)>, used: seq<string>, k: string)
    ensures Lookup(Used(e, used), k) == if k in used then Lookup(e, k) else None
  {
    if |e| > 0 {
      var tail := Used(e[1..], used);
      UsedLookup(e[1..], used, k);
      if e[0].0 in used {
        var r := [e[0]] + tail;
        assert Used(e, used) == r;
        assert r[0] == e[0] && r[1..] == tail;
        assert Lookup(r, k) == if e[0].0 == k then Some(e[0].1) else Lookup(tail, k);
      } else {
        assert Used(e, used) == tail;
        assert k in used ==> e[0].0 != k;
      }
    }
  }

  /** `r` picks entries of `e` at the rising positions `idx`. */
  ghost predicate PicksAt<V>(r: seq<(string, V)>, e: seq<(string, V)>, idx: seq<nat>) {
    |idx| == |r| &&
    (forall i :: 0 <= i < |idx| ==> idx[i] < |e| && r[i] == e[idx[i]]) &&
    (forall i, j :: 0 <= i < j < |idx| ==> idx[i] < idx[j])
  }

  /** Positions in the tail of `e` move up by one in `e`; the head may be picked in front of them. */
  lemma PicksAtCons<V>(r: seq<(string, V)>, e: seq<(string, V)>, rest: seq<nat>) returns (shifted: seq<nat>)
    requires |e| > 0 && PicksAt(r, e[1..], rest)
    ensures PicksAt(r, e, shifted) && PicksAt([e[0]] + r, e, [0] + shifted)
  {
    shifted := seq(|rest|, k requires 0 <= k < |rest| => rest[k] + 1);
    forall k | 0 <= k < |shifted|
      ensures shifted[k] < |e| && r[k] == e[shifted[k]]
    {
      assert r[k] == e[1..][rest[k]];
    }
    var r1, idx1 := [e[0]] + r, [0] + shifted;
    forall i | 0 <= i < |idx1|
      ensures idx1[i] < |e| && r1[i] == e[idx1[i]]
    {
      if i > 0 {
        assert r1[i] == r[i - 1] && idx1[i] == shifted[i - 1];
      }
    }
  }

  /** The used registrations are a subsequence of the registrations. */
  lemma {:induction false} UsedIndices<V>(e: seq<(string, V)>, used: seq<string>) returns (idx: seq<nat>)
    ensures PicksAt(Used(e, used), e, idx)
  {
    if |e| == 0 {
      return [];
    }
    var rest := UsedIndices(e[1..], used);
    var shifted := PicksAtCons(Used(e[1..], used), e, rest);
    if e[0].0 in used {
      assert Used(e, used) == [e[0]] + Used(e[1..], used);
      idx := [0] + shifted;
    } else {
      assert Used(e, used) == Used(e[1..], used);
      idx := shifted;
    }
  }

  /** Any two entries of `r` appear in `e`, in the same order. */
  ghost predicate InOrderOf<V>(r: seq<(string, V)>, e: seq<(string, V)>) {
    forall i, j :: 0 <= i < j < |r| ==> exists a, b :: 0 <= a < b < |e| && r[i] == e[a] && r[j] == e[b]
  }

  /** Any two used registrations are listed in the order they were registered. */
  lemma UsedInOrder<V>(e: seq<(string, V)>, used: seq<string>)
    ensures InOrderOf(Used(e, used), e)
  {
    var idx := UsedIndices(e, used);
    var r := Used(e, used);
    forall i, j | 0 <= i < j < |r|
      ensures exists a, b :: 0 <= a < b < |e| && r[i] == e[a] && r[j] == e[b]
    {
      assert r[i] == e[idx[i]] && r[j] == e[idx[j]];
    }
  }

  /** Filtering keeps registration names distinct, so every used name is listed at most once. */
  lemma {:induction false} UsedDistinct<V>(e: seq<(string, V)>, used: seq<string>)
    requires DistinctKeys(e)
    ensures DistinctKeys(Used(e, used))
  {
    if |e| > 0 {
      var tail := Used(e[1..], used);
      UsedDistinct(e[1..], used);
      if e[0].0 in used {
        var r := [e[0]] + tail;
        forall i, j | 0 <= i < j < |r| ensures r[i].0 != r[j].0 {
          if i == 0 {
            assert r[j] == tail[j - 1] && tail[j - 1] in e[1..];
          } else {
            assert r[i] == tail[i - 1] && r[j] == tail[j - 1];
          }
        }
      }
    }
  }

  class AssetManager {
    var scripts: seq<(string, Script)>
    var stylesheets: seq<(string, Stylesheet)>
    var usedScripts: seq<string>
    var usedStylesheets: seq<string>

    /** Names are keys, so each is registered once; a used name is always a registered one. */
    ghost predicate Valid()
      reads this
    {
      DistinctKeys(scripts) && DistinctKeys(stylesheets) &&
      (forall n :: n in usedScripts ==> n in Keys(scripts)) &&
      (forall n :: n in usedStylesheets ==> n in Keys(stylesheets))
    }

    constructor()
      ensures Valid()
      ensures scripts == [] && stylesheets == [] && usedScripts == [] && usedStylesheets == []
    {
      scripts, stylesheets := [], [];
      usedScripts, usedStylesheets := [], [];
    }

    /** `registerScript`: a new name is appended, an existing one overwritten in place. */
    method RegisterScript(name: string, uri: string, attributes: seq<(string, string)> := [])
      requires Valid()
      modifies this`scripts
      ensures Valid()
      ensures scripts == Put(old(scripts), name, Script(uri, attributes))
    {
      PutDistinct(scripts, name, Script(uri, attributes));
      PutKeys(scripts, name, Script(uri, attributes));
      scripts := Put(scripts, name, Script(uri, attributes));
    }

    /** `registerStylesheet`: a new name is appended, an existing one overwritten in place. */
    method RegisterStylesheet(name: string, uri: string)
      requires Valid()
      modifies this`stylesheets
      ensures Valid()
      ensures stylesheets == Put(old(stylesheets), name, Stylesheet(uri))
    {
      PutDistinct(stylesheets, name, Stylesheet(uri));
      PutKeys(stylesheets, name, Stylesheet(uri));
      stylesheets := Put(stylesheets, name, Stylesheet(uri));
    }

    /** `useScript`: append a registered name, even a second time; ignore an unknown one. */
    method UseScript(name: string)
      requires Valid()
      modifies this`usedScripts
      ensures Valid()
      ensures usedScripts == if name in Keys(scripts) then old(usedScripts) + [name] else old(usedScripts)
    {
      if name !in Keys(scripts) {
        return;
      }
      usedScripts := usedScripts + [name];
    }

    /** `useStylesheet`: append a registered name, even a second time; ignore an unknown one. */
    method UseStylesheet(name: string)
      requires Valid()
      modifies this`usedStylesheets
      ensures Valid()
      ensures usedStylesheets == if name in Keys(stylesheets) then old(usedStylesheets) + [name] else old(usedStylesheets)
    {
      if name !in Keys(stylesheets) {
        return;
      }
      usedStylesheets := usedStylesheets + [name];
    }

    /** `getScripts`: the registered scripts whose name was used, in registration order, each once. */
    function GetScripts(): (r: seq<(string, Script)>)
      reads this
      requires Valid()
      ensures DistinctKeys(r)
      ensures forall k :: Lookup(r, k) == if k in usedScripts then Lookup(scripts, k) else None
      ensures InOrderOf(r, scripts)
    {
      UsedInOrder(scripts, usedScripts);
      UsedDistinct(scripts, usedScripts);
      forall k ensures Lookup(Used(scripts, usedScripts), k) == if k in usedScripts then Lookup(scripts, k) else None {
        UsedLookup(scripts, usedScripts, k);
      }
      Used(scripts, usedScripts)
    }

    /** `getStylesheets`: the registered stylesheets whose name was used, in registration order, each once. */
    function GetStylesheets(): (r: seq<(string, Stylesheet)>)
      reads this
      requires Valid()
      ensures DistinctKeys(r)
      ensures forall k :: Lookup(r, k) == if k in usedStylesheets then Lookup(stylesheets, k) else None
      ensures InOrderOf(r, stylesheets)
    {
      UsedInOrder(stylesheets, usedStylesheets);
      UsedDistinct(stylesheets, usedStylesheets);
      forall k ensures Lookup(Used(stylesheets, usedStylesheets), k) == if k in usedStylesheets then Lookup(stylesheets, k) else None {
        UsedLookup(stylesheets, usedStylesheets, k);
      }
      Used(stylesheets, usedStylesheets)
    }
  }

  /** Using a name twice lists its registration as using it once does. */
  lemma {:induction false} UseTwiceSameAsOnce<V>(e: seq<(string, V)>, used: seq<string>, k: string)
    ensures Used(e, used + [k, k]) == Used(e, used + [k])
  {
    if |e| > 0 {
      UseTwiceSameAsOnce(e[1..], used, k);
      assert e[0].0 in used + [k, k] <==> e[0].0 in used + [k];
    }
  }

  /** Registering a used name again keeps it listed, now with the new registration. */
  lemma ReRegisteredStillListed<V>(e: seq<(string, V)>, used: seq<string>, k: string, v: V)
    requires k in used
    ensures Lookup(Used(Put(e, k, v), used), k) == Some(v)
  {
    UsedLookup(Put(e, k, v), used, k);
  }
}
