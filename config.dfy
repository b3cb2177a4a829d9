/**
 * The application configuration: sections loaded from config files, read
 * and written by dot-separated paths through nested arrays. Writing the
 * section back to its file is not part of this model; whether the file
 * exists is a parameter.
 */
module Config {
  import opened Php

  /** A configuration value: null, a scalar (shown by its string form), or a nested array. */
  datatype Value = Null | Scalar(text: string) | Arr(entries: seq<(string, Value)>)

  /**
   * What `get` finds by following `segs` from `v`: the value reached, or
   * `default` as soon as a segment is missing or the current value is not an array.
   */
  function GetPath(v: Value, segs: seq<string>, default: Value): (r: Value)
    ensures segs == [] ==> r == v
    ensures segs != [] && !v.Arr? ==> r == default
    ensures segs != [] && v.Arr? && Lookup(v.entries, segs[0]).None? ==> r == default
    decreases |segs|
  {
    if segs == [] then v
    else if v.Arr? && Lookup(v.entries, segs[0]).Some? then GetPath(Lookup(v.entries, segs[0]).value, segs[1..], default)
    else default
  }

  /**
   * The array `set` leaves behind: every segment but the last becomes an
   * array (a missing, null or scalar entry is replaced by an empty one), and
   * the last segment is assigned the value.
   */
  function SetIn(e: seq<(string, Value)>, segs: seq<string>, v: Value): (r: seq<(string, Value)>)
    requires |segs| >= 1
    ensures forall k :: k != segs[0] ==> Lookup(r, k) == Lookup(e, k)
    ensures segs[0] in Keys(r)
    decreases |segs|
  {
    if |segs| == 1 then Put(e, segs[0], v)
    else
      var child := Lookup(e, segs[0]);
      var sub := if child.Some? && child.value.Arr? then child.value.entries else [];
      Put(e, segs[0], Arr(SetIn(sub, segs[1..], v)))
  }

  /** The message `set` throws for a section that was not loaded from a file. */
  function NotFoundMessage(filename: string): string {
    "Config file '" + filename + "' not found"
  }

  class Config {
    var items: seq<(string, Value)>

    constructor(items: seq<(string, Value)>)
      ensures this.items == items
    {
      this.items := items;
    }

    /** `get`: walk the dot-separated segments from the top-level sections. */
    method Get(key: string, default: Value) returns (r: Value)
      ensures r == GetPath(Arr(items), Split(key, '.'), default)
    {
      var keys := Split(key, '.');
      var config := Arr(items);
      var i := 0;
      assert keys[0..] == keys;
      while i < |keys|
        invariant 0 <= i <= |keys|
        invariant GetPath(config, keys[i..], default) == GetPath(Arr(items), keys, default)
      {
        assert keys[i..][1..] == keys[i + 1..];
        if !config.Arr? || Lookup(config.entries, keys[i]).None? {
          return default;
        }
        config := Lookup(config.entries, keys[i]).value;
        i := i + 1;
      }
      return config;
    }

    /** `has`: whether `get` with a null default gives something other than null. */
    method Has(key: string) returns (b: bool)
      ensures b <==> GetPath(Arr(items), Split(key, '.'), Null) != Null
    {
      var v := Get(key, Null);
      b := v != Null;
    }

    /** `all`: every section. */
    function All(): (r: seq<(string, Value)>)
      reads this
      ensures Keys(r) == Keys(items) && forall k :: Lookup(r, k) == Lookup(items, k)
    {
      items
    }

    /**
     * `set` in memory: the lower-cased first segment must name a loaded
     * section whose file exists; the write then follows the segments as given.
     */
    method Set(key: string, value: Value, files: set<string>) returns (r: Result<(), string>)
      modifies this
      ensures var keys := Split(key, '.');
        var filename := Lower(keys[0]);
        if filename in Keys(old(items)) && filename in files then
          r.Ok? && items == SetIn(old(items), keys, value)
        else
          r == Err(NotFoundMessage(filename)) && items == old(items)
      ensures r.Ok? ==> GetPath(Arr(items), Split(key, '.'), Null) == value
      ensures forall k :: k != Split(key, '.')[0] ==> Lookup(items, k) == Lookup(old(items), k)
    {
      var keys := Split(key, '.');
      var filename := Lower(keys[0]);
      if filename !in Keys(items) || filename !in files {
        return Err(NotFoundMessage(filename));
      }
      GetAfterSet(items, keys, value, Null);
      items := SetIn(items, keys, value);
      return Ok(());
    }
  }

  /** After a write, reading the same path gives the value written. */
  lemma {:induction false} GetAfterSet(e: seq<(string, Value)>, segs: seq<string>, v: Value, d: Value)
    requires |segs| >= 1
    ensures GetPath(Arr(SetIn(e, segs, v)), segs, d) == v
    decreases |segs|
  {
    var r := SetIn(e, segs, v);
    if |segs| > 1 {
      var child := Lookup(e, segs[0]);
      var sub := if child.Some? && child.value.Arr? then child.value.entries else [];
      GetAfterSet(sub, segs[1..], v, d);
      assert Lookup(r, segs[0]) == Some(Arr(SetIn(sub, segs[1..], v)));
    } else {
      assert Lookup(r, segs[0]) == Some(v);
      assert segs[1..] == [];
    }
  }

  /**
   * Path `p` leaves path `segs` at a segment where `e` holds arrays all the
   * way down, so no intermediate entry on `p` is replaced by the write.
   */
  predicate Diverges(e: seq<(string, Value)>, segs: seq<string>, p: seq<string>)
    decreases |segs|
  {
    |segs| >= 1 && |p| >= 1 &&
    (p[0] != segs[0] ||
     (|segs| > 1 && |p| > 1 && Lookup(e, segs[0]).Some? && Lookup(e, segs[0]).value.Arr? &&
      Diverges(Lookup(e, segs[0]).value.entries, segs[1..], p[1..])))
  }

  /** A write leaves every value on a path that diverges from it where it did. */
  lemma {:induction false} SetKeepsDivergentPath(e: seq<(string, Value)>, segs: seq<string>, v: Value, p: seq<string>, d: Value)
    requires Diverges(e, segs, p)
    ensures GetPath(Arr(SetIn(e, segs, v)), p, d) == GetPath(Arr(e), p, d)
    decreases |segs|
  {
    var r := SetIn(e, segs, v);
    if p[0] != segs[0] {
      assert Lookup(r, p[0]) == Lookup(e, p[0]);
    } else {
      var sub := Lookup(e, segs[0]).value.entries;
      SetKeepsDivergentPath(sub, segs[1..], v, p[1..], d);
      assert Lookup(r, segs[0]) == Some(Arr(SetIn(sub, segs[1..], v)));
    }
  }

  /** A key stored with the value null is found by `get` (null, not the default), so `has` reports it missing. */
  lemma StoredNullReadsAsNull(e: seq<(string, Value)>, k: string, d: Value)
    requires Lookup(e, k) == Some(Null) && '.' !in k
    ensures GetPath(Arr(e), Split(k, '.'), d) == Null
  {
    SplitNoDelimiter(k, '.');
    assert Split(k, '.')[1..] == [];
  }

  /** A scalar met before the last segment ends the walk with the default. */
  lemma GetThroughScalar(e: seq<(string, Value)>, k: string, s: string, rest: seq<string>, d: Value)
    requires Lookup(e, k) == Some(Scalar(s)) && |rest| >= 1
    ensures GetPath(Arr(e), [k] + rest, d) == d
  {
    assert ([k] + rest)[0] == k && ([k] + rest)[1..] == rest;
  }

  /**
   * The section check uses the lower-cased segment but the write does not:
   * with only 'app' loaded, writing 'App.name' creates a new 'App' section
   * and leaves 'app' as it was.
   */
  lemma WriteUsesOriginalCase(e: seq<(string, Value)>, v: Value)
    requires "app" in Keys(e) && "App" !in Keys(e)
    ensures Lower("App") == "app"
    ensures Lookup(SetIn(e, ["App", "name"], v), "app") == Lookup(e, "app")
    ensures Lookup(SetIn(e, ["App", "name"], v), "App") == Some(Arr([("name", v)]))
  {
    assert Lower("App") == "app";
    assert Lookup(e, "App").None?;
    assert ["App", "name"][1..] == ["name"];
    assert SetIn([], ["name"], v) == [("name", v)];
  }
}
