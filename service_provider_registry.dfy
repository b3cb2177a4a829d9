/**
 * The service provider registry: providers are registered once each, by
 * class name, and booted together in registration order. What a
 * provider's `register` and `boot` do to the container is not part of
 * this model; whether each one throws is a parameter.
 */
module ServiceProviderRegistry {
  import opened Php

  /** The providers whose `boot` runs, in order: up to and including the first that throws. */
  function BootTrace(providers: seq<string>, throws: set<string>): (r: seq<string>)
    ensures |r| <= |providers|
    decreases |providers|
  {
    if providers == [] then []
    else [providers[0]] + (if providers[0] in throws then [] else BootTrace(providers[1..], throws))
  }

  /** The providers booted are a prefix of the registered ones. */
  lemma {:induction false} BootTracePrefix(providers: seq<string>, throws: set<string>)
    ensures var t := BootTrace(providers, throws); t == providers[..|t|]
    decreases |providers|
  {
    if providers != [] && providers[0] !in throws {
      BootTracePrefix(providers[1..], throws);
      var t' := BootTrace(providers[1..], throws);
      assert providers[..1 + |t'|] == [providers[0]] + providers[1..][..|t'|];
    }
  }

  /** The outcome of `boot`: the error of the first provider that throws, if any. */
  function BootOutcome(providers: seq<string>, throws: set<string>): Result<(), string>
    decreases |providers|
  {
    if providers == [] then Ok(())
    else if providers[0] in throws then Err(providers[0])
    else BootOutcome(providers[1..], throws)
  }

  /** With no provider throwing, each registered provider is booted once, in registration order. */
  lemma {:induction false} BootAllWhenNoneThrows(providers: seq<string>, throws: set<string>)
    requires forall i :: 0 <= i < |providers| ==> providers[i] !in throws
    ensures BootTrace(providers, throws) == providers
    ensures BootOutcome(providers, throws) == Ok(())
    decreases |providers|
  {
    if providers != [] {
      BootAllWhenNoneThrows(providers[1..], throws);
    }
  }

  /** A failed boot stops at the provider that threw: it is the last one booted, and none before it threw. */
  lemma {:induction false} BootStopsAtFirstThrow(providers: seq<string>, throws: set<string>)
    requires BootOutcome(providers, throws).Err?
    ensures var t := BootTrace(providers, throws);
      |t| >= 1 && t[|t| - 1] == BootOutcome(providers, throws).error && t[|t| - 1] in throws &&
      forall i :: 0 <= i < |t| - 1 ==> t[i] !in throws
    decreases |providers|
  {
    if providers[0] !in throws {
      BootStopsAtFirstThrow(providers[1..], throws);
      var t := BootTrace(providers, throws);
      var t' := BootTrace(providers[1..], throws);
      assert t == [providers[0]] + t';
      assert forall i :: 1 <= i < |t| ==> t[i] == t'[i - 1];
    }
  }

  class Registry {
    /** The keys of `$this->providers`, in registration order. */
    var providers: seq<string>

    ghost predicate Valid()
      reads this
    {
      forall i, j :: 0 <= i < j < |providers| ==> providers[i] != providers[j]
    }

    constructor()
      ensures Valid() && providers == []
    {
      providers := [];
    }

    /**
     * `register`: a provider already present is left alone; otherwise it is
     * instantiated and its `register` run, and only when that returns is it
     * recorded. `registerThrows` says whether it throws (with `error`).
     */
    method Register(provider: string, registerThrows: bool, error: string) returns (r: Result<(), string>)
      requires Valid()
      modifies this
      ensures Valid()
      ensures provider in old(providers) ==> r == Ok(()) && providers == old(providers)
      ensures provider !in old(providers) && registerThrows ==> r == Err(error) && providers == old(providers)
      ensures provider !in old(providers) && !registerThrows ==> r == Ok(()) && providers == old(providers) + [provider]
    {
      if provider in providers {
        return Ok(());
      }
      if registerThrows {
        return Err(error);
      }
      providers := providers + [provider];
      return Ok(());
    }

    /** `boot`: call each provider's `boot` in registration order; an exception stops the loop. */
    method Boot(throws: set<string>) returns (booted: seq<string>, r: Result<(), string>)
      ensures booted == BootTrace(providers, throws)
      ensures r == BootOutcome(providers, throws)
    {
      booted := [];
      var i := 0;
      while i < |providers|
        invariant 0 <= i <= |providers|
        invariant booted == providers[..i]
        invariant forall j :: 0 <= j < i ==> providers[j] !in throws
      {
        var p := providers[i];
        booted := booted + [p];
        if p in throws {
          BootSkipsQuietPrefix(providers, throws, i);
          assert providers[i..][0] == p;
          return booted, Err(p);
        }
        i := i + 1;
      }
      BootSkipsQuietPrefix(providers, throws, i);
      assert providers[i..] == [];
      return booted, Ok(());
    }
  }

  /** Providers before `i` that do not throw are booted and the loop carries on from `i`. */
  lemma {:induction false} BootSkipsQuietPrefix(providers: seq<string>, throws: set<string>, i: nat)
    requires i <= |providers|
    requires forall j :: 0 <= j < i ==> providers[j] !in throws
    ensures BootTrace(providers, throws) == providers[..i] + BootTrace(providers[i..], throws)
    ensures BootOutcome(providers, throws) == BootOutcome(providers[i..], throws)
    decreases i
  {
    if i > 0 {
      BootSkipsQuietPrefix(providers, throws, i - 1);
      var s := providers[i - 1..];
      BootStep(s, throws);
      assert s[1..] == providers[i..];
      assert providers[..i] == providers[..i - 1] + [providers[i - 1]];
      AppendAssoc(providers[..i - 1], [providers[i - 1]], BootTrace(providers[i..], throws));
    } else {
      assert providers[..0] == [] && providers[0..] == providers;
    }
  }

  /** A provider that does not throw is booted and the loop moves on to the next. */
  lemma BootStep(s: seq<string>, throws: set<string>)
    requires |s| > 0 && s[0] !in throws
    ensures BootTrace(s, throws) == [s[0]] + BootTrace(s[1..], throws)
    ensures BootOutcome(s, throws) == BootOutcome(s[1..], throws)
  {
  }

  /** Registering the same provider twice records it once: the second call changes nothing. */
  method RegisterTwice(reg: Registry, provider: string)
    requires reg.Valid() && reg.providers == []
    modifies reg
    ensures reg.providers == [provider]
  {
    var _ := reg.Register(provider, false, "");
    var _ := reg.Register(provider, false, "");
  }
}
