/**
 * The dependency-injection container: bindings from abstract names to
 * concrete classes or factories, shared instances, constructor injection
 * driven by parameter metadata, circular-dependency detection, and method
 * calls with injected arguments.
 *
 * What reflection reports about classes (whether a class exists, is an
 * interface, can be instantiated, and its constructor and public methods
 * with their parameters) is the constant `classes`. An object is its
 * identity, its class and the arguments its constructor received;
 * `nextId` hands out identities, so two objects with different ids are
 * two distinct instances.
 */
module Container {
  import opened Php

  datatype Obj = Obj(id: nat, cls: string, args: seq<Val>)

  /** An argument value: an object, a scalar default (by its string form) or null. */
  datatype Val = ObjVal(obj: Obj) | Scalar(text: string) | NullVal

  /** A parameter's declared type, as reflection reports it. */
  datatype Type = Untyped | Builtin(name: string) | Named(name: string) | Union(names: seq<string>)

  datatype Param = Param(name: string, typ: Type, nullable: bool, default: Option<Val>)

  datatype ClassMeta = ClassMeta(
    isInterface: bool,
    instantiable: bool,
    ctor: Option<seq<Param>>,
    methods: map<string, seq<Param>>)

  /**
   * A binding's concrete: a class name, a closure that returns a new
   * instance of a class without asking the container for anything, or a
   * value that is neither callable nor a string.
   */
  datatype Concrete = ClassName(name: string) | Factory(cls: string) | Invalid

  datatype Binding = Binding(concrete: Concrete, singleton: bool)

  /** The class of what PHP throws. */
  datatype Kind = RuntimeException | InvalidArgumentException | Exception | Error

  datatype Thrown = Thrown(kind: Kind, message: string)

  /** What `call` is given: `[class or object, method]`, a closure with its parameters, or anything else. */
  datatype Target = ByName(cls: string) | Instance(obj: Obj)
  datatype Callback = MethodOf(target: Target, name: string) | Closure(params: seq<Param>) | NotCallable

  function CircularMessage(a: string): string {
    "Circular dependency detected for '" + a + "'"
  }

  function NotFoundMessage(a: string): string {
    "Service '" + a + "' not found and cannot be resolved"
  }

  function InvalidDefinitionMessage(a: string): string {
    "Invalid service definition for '" + a + "'"
  }

  function CannotReflectMessage(c: string): string {
    "Cannot reflect class '" + c + "': Class \"" + c + "\" does not exist"
  }

  function NotInstantiableMessage(c: string): string {
    "Class '" + c + "' is not instantiable"
  }

  function UnionMessage(n: string): string {
    "Union types are not supported for parameter '" + n + "'"
  }

  function NoTypeHintMessage(n: string): string {
    "Cannot resolve parameter '" + n + "' - no type hint provided"
  }

  function BuiltinMessage(t: string, n: string): string {
    "Cannot resolve built-in type '" + t + "' for parameter '" + n + "'"
  }

  function DependencyMessage(t: string, n: string, inner: string): string {
    "Cannot resolve dependency '" + t + "' for parameter '" + n + "': " + inner
  }

  function MethodDependencyMessage(n: string): string {
    "Cannot resolve method dependency: " + n
  }

  const NotCallableMessage := "Callback is not callable"

  const UnionIsBuiltinMessage := "Call to undefined method ReflectionUnionType::isBuiltin()"

  /** The value a constructor parameter gets when its class could not be resolved. */
  function Fallback(p: Param): Val {
    if p.default.Some? then p.default.value else NullVal
  }

  /** `resolveDependencies` for a class-typed parameter, given what `get` did with its class. */
  function InjectOutcome(p: Param, got: Result<Obj, Thrown>): Result<Val, Thrown>
    requires p.typ.Named?
  {
    if got.Ok? then Ok(ObjVal(got.value))
    else if got.error.kind != RuntimeException then Err(got.error)
    else if p.nullable || p.default.Some? then Ok(Fallback(p))
    else Err(Thrown(RuntimeException, DependencyMessage(p.typ.name, p.name, got.error.message)))
  }

  /** The index of the first union-typed parameter, or the length when there is none. */
  method FirstUnion(params: seq<Param>) returns (k: nat)
    ensures k <= |params| && (k < |params| ==> params[k].typ.Union?)
    ensures forall j :: 0 <= j < k ==> !params[j].typ.Union?
  {
    k := 0;
    while k < |params| && !params[k].typ.Union?
      invariant k <= |params|
      invariant forall j :: 0 <= j < k ==> !params[j].typ.Union?
    {
      k := k + 1;
    }
  }

  /** Only one union-typed parameter has none before it. */
  lemma FirstIsOnly(params: seq<Param>, k: nat)
    requires k < |params| && params[k].typ.Union? && forall j :: 0 <= j < k ==> !params[j].typ.Union?
    ensures forall i :: 0 <= i < |params| && params[i].typ.Union? && (forall j :: 0 <= j < i ==> !params[j].typ.Union?) ==> i == k
  {
  }

  /** The names resolution can recurse through: bound names and known classes. */
  ghost function Universe(services: map<string, Binding>, classes: map<string, ClassMeta>): set<string> {
    services.Keys + classes.Keys
  }

  /** Marking one more name as resolving leaves fewer names to recurse through. */
  lemma Shrinks(u: set<string>, s: set<string>, a: string)
    requires a in u && a in s
    ensures |u - s| < |u - (s - {a})|
  {
    assert u - (s - {a}) == (u - s) + {a};
  }

  class Container {
    var services: map<string, Binding>
    var instances: map<string, Obj>
    var resolving: set<string>
    var nextId: nat
    const classes: map<string, ClassMeta>

    constructor(classes: map<string, ClassMeta>)
      ensures this.classes == classes
      ensures services == map[] && instances == map[] && resolving == {} && nextId == 0
    {
      this.classes := classes;
      services, instances, resolving, nextId := map[], map[], {}, 0;
    }

    /** `class_exists`: true for classes, abstract or not, and false for interfaces. */
    predicate ClassExists(a: string) {
      a in classes && !classes[a].isInterface
    }

    /** The class a fresh resolution of `a` produces. */
    function ConcreteClass(a: string): string
      reads this`services
    {
      if a in services then
        match services[a].concrete
        case ClassName(c) => c
        case Factory(c) => c
        case Invalid => a
      else a
    }

    /**
     * `now` keeps every instance of `before`, and a name it adds is a
     * singleton binding outside `res` whose instance has its concrete class.
     */
    ghost predicate Extends(before: map<string, Obj>, now: map<string, Obj>, res: set<string>)
      reads this`services
    {
      (forall k :: k in before ==> k in now && now[k] == before[k]) &&
      (forall k :: k in now && k !in before ==>
        k !in res && k in services && services[k].singleton && now[k].cls == ConcreteClass(k))
    }

    /** Growing twice is growing once. */
    lemma ExtendsTrans(a: map<string, Obj>, b: map<string, Obj>, c: map<string, Obj>, res: set<string>)
      requires Extends(a, b, res) && Extends(b, c, res)
      ensures Extends(a, c, res)
    {
    }

    /**
     * Storing a singleton's instance, once it is resolved and no longer
     * resolving, extends the instances.
     */
    lemma ExtendsStore(before: map<string, Obj>, mid: map<string, Obj>, res: set<string>, a: string, o: Obj)
      requires Extends(before, mid, res + {a}) && a !in before && a !in res
      requires a in services && services[a].singleton && o.cls == ConcreteClass(a)
      ensures Extends(before, mid[a := o], res)
    {
    }

    /** What extends the instances with one more name resolving extends them without it. */
    lemma ExtendsWeaken(before: map<string, Obj>, now: map<string, Obj>, res: set<string>, a: string)
      requires Extends(before, now, res + {a})
      ensures Extends(before, now, res)
    {
    }

    /**
     * What every resolution step guarantees: the resolving set is restored,
     * identities only advance, and the stored instances only grow, as
     * `Extends` says.
     */
    twostate predicate Grows()
      reads this
    {
      resolving == old(resolving) && old(nextId) <= nextId && Extends(old(instances), instances, old(resolving))
    }

    /**
     * What `get(t)` returns when the state decides it without building
     * anything: the stored instance, the circular-dependency error, or the
     * not-found error. `None` when a build would be needed.
     */
    function GetDecided(t: string, inst: map<string, Obj>, res: set<string>): Option<Result<Obj, Thrown>>
      reads this`services
    {
      if t in inst then Some(Ok(inst[t]))
      else if t in res then Some(Err(Thrown(RuntimeException, CircularMessage(t))))
      else if t !in services && !ClassExists(t) then Some(Err(Thrown(RuntimeException, NotFoundMessage(t))))
      else None
    }

    /** A decided `get` is decided the same way after the instances grow. */
    lemma GetDecidedStable(t: string, before: map<string, Obj>, now: map<string, Obj>, res: set<string>)
      requires Extends(before, now, res)
      ensures GetDecided(t, before, res).Some? ==> GetDecided(t, now, res) == GetDecided(t, before, res)
    {
    }

    /** What `resolveDependencies` passes for `p`, or the error it raises, when the state decides it. */
    function Decided(p: Param, inst: map<string, Obj>, res: set<string>): Option<Result<Val, Thrown>>
      reads this`services
    {
      match p.typ
      case Untyped =>
        Some(if p.default.Some? then Ok(p.default.value) else Err(Thrown(RuntimeException, NoTypeHintMessage(p.name))))
      case Builtin(t) =>
        Some(if p.default.Some? then Ok(p.default.value) else Err(Thrown(RuntimeException, BuiltinMessage(t, p.name))))
      case Named(t) =>
        var got := GetDecided(t, inst, res);
        if got.Some? then Some(InjectOutcome(p, got.value)) else None
      case Union(_) => None
    }

    /**
     * `i` is the first parameter whose outcome the state decides as an
     * error, every parameter before it being decided to succeed.
     */
    ghost predicate InjectFailsAt(params: seq<Param>, inst: map<string, Obj>, res: set<string>, i: int)
      reads this`services
    {
      0 <= i < |params| &&
      (forall j :: 0 <= j < i ==> Decided(params[j], inst, res).Some? && Decided(params[j], inst, res).value.Ok?) &&
      Decided(params[i], inst, res).Some? && Decided(params[i], inst, res).value.Err?
    }

    /**
     * What `resolveDependencies` may pass for `p`, judged against the
     * instances `inst` and resolving set `res` it started from: the decided
     * value when the state decides it; otherwise, for a class, a newly
     * resolved object of the class's concrete class or, when the parameter
     * allows it, the fallback.
     */
    ghost predicate Injected(p: Param, v: Val, inst: map<string, Obj>, res: set<string>)
      reads this`services
    {
      match p.typ
      case Untyped => p.default == Some(v)
      case Builtin(_) => p.default == Some(v)
      case Named(t) =>
        var got := GetDecided(t, inst, res);
        if got.Some? then InjectOutcome(p, got.value) == Ok(v)
        else (v.ObjVal? && v.obj.cls == ConcreteClass(t)) || ((p.nullable || p.default.Some?) && v == Fallback(p))
      case Union(_) => false
    }

    /** Values injected, in order, for the first `|deps|` parameters. */
    ghost predicate AllInjected(params: seq<Param>, deps: seq<Val>, inst: map<string, Obj>, res: set<string>)
      reads this`services
    {
      |deps| <= |params| && forall j :: 0 <= j < |deps| ==> Injected(params[j], deps[j], inst, res)
    }

    /** A value injected against a later state is injected against an earlier one it extends. */
    lemma InjectedStable(p: Param, v: Val, before: map<string, Obj>, now: map<string, Obj>, res: set<string>)
      requires Extends(before, now, res)
      ensures Injected(p, v, now, res) ==> Injected(p, v, before, res)
      ensures Decided(p, before, res).Some? ==> Decided(p, now, res) == Decided(p, before, res)
    {
      if p.typ.Named? {
        GetDecidedStable(p.typ.name, before, now, res);
      }
    }

    /** `resolve(a)` builds: `a` is bound to a class name, or unbound and an existing class. */
    predicate ResolvesByBuild(a: string)
      reads this`services
    {
      if a in services then services[a].concrete.ClassName? else ClassExists(a)
    }

    /**
     * What `build(c)` returns, judged against the instances `inst` and the
     * resolving set `res` it started from: the reflection error, the
     * instantiability error, the outcome of the constructor's parameters,
     * and otherwise an object of `c` whose arguments fit its constructor.
     */
    ghost predicate BuildOutcome(c: string, r: Result<Obj, Thrown>, inst: map<string, Obj>, res: set<string>)
      reads this`services
    {
      (c !in classes ==> r == Err(Thrown(RuntimeException, CannotReflectMessage(c)))) &&
      (c in classes && !classes[c].instantiable ==> r == Err(Thrown(RuntimeException, NotInstantiableMessage(c)))) &&
      (c in classes && classes[c].instantiable && classes[c].ctor.Some? ==>
        CtorOutcome(classes[c].ctor.value, if r.Ok? then Ok(r.value.args) else Err(r.error), inst, res)) &&
      (r.Ok? ==> c in classes && r.value.cls == c && ArgsFit(classes[c].ctor, r.value.args, inst, res))
    }

    /**
     * What `resolveDependencies` returns for the constructor parameters
     * `ps`: the union error of the first union-typed parameter, and, with
     * none, the decided error of the first parameter the state decides to
     * fail.
     */
    ghost predicate CtorOutcome(ps: seq<Param>, r: Result<seq<Val>, Thrown>, inst: map<string, Obj>, res: set<string>)
      reads this`services
    {
      (forall i :: 0 <= i < |ps| && ps[i].typ.Union? && (forall j :: 0 <= j < i ==> !ps[j].typ.Union?) ==>
        r == Err(Thrown(RuntimeException, UnionMessage(ps[i].name)))) &&
      ((forall j :: 0 <= j < |ps| ==> !ps[j].typ.Union?) ==>
        forall i :: InjectFailsAt(ps, inst, res, i) ==> r == Err(Decided(ps[i], inst, res).value.error))
    }

    /** The constructor arguments an instance was built with, against the constructor's parameters. */
    ghost predicate ArgsFit(ctor: Option<seq<Param>>, args: seq<Val>, inst: map<string, Obj>, res: set<string>)
      reads this`services
    {
      match ctor
      case None => args == []
      case Some(ps) => |args| == |ps| && forall i :: 0 <= i < |ps| ==> Injected(ps[i], args[i], inst, res)
    }

    /** One more injected value for the next parameter extends the injected prefix. */
    lemma InjectedSnoc(params: seq<Param>, deps: seq<Val>, v: Val, inst: map<string, Obj>, res: set<string>)
      requires AllInjected(params, deps, inst, res) && |deps| < |params| && Injected(params[|deps|], v, inst, res)
      ensures AllInjected(params, deps + [v], inst, res)
    {
      forall j | 0 <= j < |deps| + 1
        ensures Injected(params[j], (deps + [v])[j], inst, res)
      {
        if j < |deps| {
          assert (deps + [v])[j] == deps[j];
        }
      }
    }

    /**
     * What `resolveMethodDependencies` passes for `p`, or the error it
     * raises, when the named arguments and the state decide it.
     */
    function MethodDecided(p: Param, parameters: seq<(string, Val)>, inst: map<string, Obj>, res: set<string>): Option<Result<Val, Thrown>>
      reads this`services
    {
      var given := Lookup(parameters, p.name);
      if given.Some? then Some(Ok(given.value))
      else match p.typ
        case Untyped =>
          Some(if p.default.Some? then Ok(p.default.value) else Err(Thrown(Exception, MethodDependencyMessage(p.name))))
        case Builtin(_) =>
          Some(if p.default.Some? then Ok(p.default.value) else Err(Thrown(Exception, MethodDependencyMessage(p.name))))
        case Union(_) => Some(Err(Thrown(Error, UnionIsBuiltinMessage)))
        case Named(t) =>
          var got := GetDecided(t, inst, res);
          if got.None? then None
          else if got.value.Ok? then Some(Ok(ObjVal(got.value.value)))
          else Some(Err(got.value.error))
    }

    /** As `InjectFailsAt`, for `resolveMethodDependencies`. */
    ghost predicate MethodFailsAt(params: seq<Param>, parameters: seq<(string, Val)>, inst: map<string, Obj>, res: set<string>, i: int)
      reads this`services
    {
      0 <= i < |params| &&
      (forall j :: 0 <= j < i ==>
        MethodDecided(params[j], parameters, inst, res).Some? && MethodDecided(params[j], parameters, inst, res).value.Ok?) &&
      MethodDecided(params[i], parameters, inst, res).Some? && MethodDecided(params[i], parameters, inst, res).value.Err?
    }

    /**
     * What `resolveMethodDependencies` may pass for `p`: the named argument;
     * else the decided value; else, for a class, a newly resolved object of
     * the class's concrete class.
     */
    ghost predicate MethodArg(p: Param, parameters: seq<(string, Val)>, v: Val, inst: map<string, Obj>, res: set<string>)
      reads this`services
    {
      var d := MethodDecided(p, parameters, inst, res);
      if d.Some? then d.value == Ok(v)
      else v.ObjVal? && v.obj.cls == ConcreteClass(p.typ.name)
    }

    /** A method argument judged against a later state is one against an earlier state it extends. */
    lemma MethodArgStable(p: Param, parameters: seq<(string, Val)>, v: Val, before: map<string, Obj>, now: map<string, Obj>, res: set<string>)
      requires Extends(before, now, res)
      ensures MethodArg(p, parameters, v, now, res) ==> MethodArg(p, parameters, v, before, res)
      ensures MethodDecided(p, parameters, before, res).Some? ==>
        MethodDecided(p, parameters, now, res) == MethodDecided(p, parameters, before, res)
    {
      if p.typ.Named? {
        GetDecidedStable(p.typ.name, before, now, res);
      }
    }

    /** Method arguments chosen against a later state are ones against an earlier state it extends. */
    lemma MethodArgsStable(params: seq<Param>, parameters: seq<(string, Val)>, args: seq<Val>,
                           before: map<string, Obj>, now: map<string, Obj>, res: set<string>)
      requires Extends(before, now, res) && |args| == |params|
      requires forall i :: 0 <= i < |params| ==> MethodArg(params[i], parameters, args[i], now, res)
      ensures forall i :: 0 <= i < |params| ==> MethodArg(params[i], parameters, args[i], before, res)
    {
      forall i | 0 <= i < |params|
        ensures MethodArg(params[i], parameters, args[i], before, res)
      {
        MethodArgStable(params[i], parameters, args[i], before, now, res);
      }
    }

    /** A parameter decided to fail against an earlier state fails the same way against a later one. */
    lemma MethodFailsStable(params: seq<Param>, parameters: seq<(string, Val)>,
                            before: map<string, Obj>, now: map<string, Obj>, res: set<string>)
      requires Extends(before, now, res)
      ensures forall i :: MethodFailsAt(params, parameters, before, res, i) ==>
        MethodFailsAt(params, parameters, now, res, i) &&
        MethodDecided(params[i], parameters, now, res) == MethodDecided(params[i], parameters, before, res)
    {
      forall i | MethodFailsAt(params, parameters, before, res, i)
        ensures MethodFailsAt(params, parameters, now, res, i)
        ensures MethodDecided(params[i], parameters, now, res) == MethodDecided(params[i], parameters, before, res)
      {
        forall j | 0 <= j <= i
          ensures MethodDecided(params[j], parameters, now, res) == MethodDecided(params[j], parameters, before, res)
        {
          MethodArgStable(params[j], parameters, NullVal, before, now, res);
        }
      }
    }

    /** `bind`: a missing concrete means the abstract itself. */
    method Bind(a: string, concrete: Option<Concrete> := None, singleton: bool := false)
      modifies this`services
      ensures services == old(services)[a := Binding(if concrete.None? then ClassName(a) else concrete.value, singleton)]
      ensures Has(a)
    {
      var c := if concrete.None? then ClassName(a) else concrete.value;
      services := services[a := Binding(c, singleton)];
    }

    method Singleton(a: string, concrete: Option<Concrete> := None)
      modifies this`services
      ensures services == old(services)[a := Binding(if concrete.None? then ClassName(a) else concrete.value, true)]
      ensures Has(a)
    {
      Bind(a, concrete, true);
    }

    /** `instance`: store an existing object; it is returned from then on, whatever the binding. */
    method Instance(a: string, obj: Obj)
      modifies this`instances
      ensures instances == old(instances)[a := obj]
      ensures Has(a)
    {
      instances := instances[a := obj];
    }

    /** `has`: bound, stored, or an existing class. */
    function Has(a: string): (b: bool)
      reads this
      ensures b <==> a in services || a in instances || ClassExists(a)
    {
      a in services || a in instances || ClassExists(a)
    }

    /** For a name not being resolved, `has` is false exactly when `get` is decided to fail as not found. */
    lemma HasUnlessNotFound(a: string)
      requires a !in resolving
      ensures !Has(a) <==> GetDecided(a, instances, resolving) == Some(Err(Thrown(RuntimeException, NotFoundMessage(a))))
    {
    }

    /** `get`: a stored instance first; otherwise resolve under circular-dependency detection. */
    method Get(a: string) returns (r: Result<Obj, Thrown>)
      modifies this`instances, this`resolving, this`nextId
      ensures Grows()
      ensures GetDecided(a, old(instances), old(resolving)).Some? ==>
        r == GetDecided(a, old(instances), old(resolving)).value && instances == old(instances) && nextId == old(nextId)
      ensures a !in old(instances) && a !in resolving && a in services && services[a].concrete == Invalid ==>
        r == Err(Thrown(InvalidArgumentException, InvalidDefinitionMessage(a)))
      ensures r.Ok? && a !in old(instances) ==> old(nextId) <= r.value.id < nextId && r.value.cls == ConcreteClass(a)
      ensures r.Ok? && a !in old(instances) && a in services && services[a].singleton ==> a in instances && instances[a] == r.value
      ensures a !in old(instances) && !(a in services && services[a].singleton) ==> a !in instances
      ensures a !in old(instances) && a !in old(resolving) && ResolvesByBuild(a) ==>
        BuildOutcome(ConcreteClass(a), r, old(instances), old(resolving) + {a})
      decreases |Universe(services, classes) - resolving|, 5
    {
      if a in instances {
        return Ok(instances[a]);
      }
      if a in resolving {
        return Err(Thrown(RuntimeException, CircularMessage(a)));
      }
      ghost var rs := resolving;
      resolving := resolving + {a};
      assert resolving - {a} == rs;
      ghost var before := old(instances);
      r := Resolve(a);
      assert ResolvesByBuild(a) ==> BuildOutcome(ConcreteClass(a), r, before, rs + {a});
      if r.Ok? && a in services && services[a].singleton {
        ExtendsStore(before, instances, rs, a, r.value);
        instances := instances[a := r.value];
      } else {
        ExtendsWeaken(before, instances, rs, a);
      }
      resolving := resolving - {a};
      assert resolving == rs;
      assert Extends(before, instances, rs);
    }

    /** `resolve`: a bound concrete (factory, class name, or invalid), else the class itself, else not found. */
    method Resolve(a: string) returns (r: Result<Obj, Thrown>)
      requires a in resolving
      modifies this`instances, this`resolving, this`nextId
      ensures Grows()
      ensures a !in services && !ClassExists(a) ==>
        r == Err(Thrown(RuntimeException, NotFoundMessage(a))) && instances == old(instances) && nextId == old(nextId)
      ensures a in services && services[a].concrete == Invalid ==>
        r == Err(Thrown(InvalidArgumentException, InvalidDefinitionMessage(a)))
      ensures r.Ok? ==> old(nextId) <= r.value.id < nextId && r.value.cls == ConcreteClass(a)
      ensures ResolvesByBuild(a) ==> BuildOutcome(ConcreteClass(a), r, old(instances), old(resolving))
      decreases |Universe(services, classes) - (resolving - {a})|, 4
    {
      if a in services {
        match services[a].concrete {
          case Factory(c) =>
            r := Ok(Obj(nextId, c, []));
            nextId := nextId + 1;
          case ClassName(c) =>
            r := Build(c, a);
          case Invalid =>
            r := Err(Thrown(InvalidArgumentException, InvalidDefinitionMessage(a)));
        }
      } else if ClassExists(a) {
        r := Build(a, a);
      } else {
        r := Err(Thrown(RuntimeException, NotFoundMessage(a)));
      }
    }

    /** `build`: reflect the class, refuse one that cannot be instantiated, inject its constructor's arguments. */
    method Build(c: string, ghost a: string) returns (r: Result<Obj, Thrown>)
      requires a in Universe(services, classes) && a in resolving
      modifies this`instances, this`resolving, this`nextId
      ensures Grows()
      ensures c !in classes ==>
        r == Err(Thrown(RuntimeException, CannotReflectMessage(c))) && instances == old(instances) && nextId == old(nextId)
      ensures c in classes && !classes[c].instantiable ==>
        r == Err(Thrown(RuntimeException, NotInstantiableMessage(c))) && instances == old(instances) && nextId == old(nextId)
      ensures r.Ok? ==>
        c in classes && r.value.cls == c && old(nextId) <= r.value.id < nextId &&
        ArgsFit(classes[c].ctor, r.value.args, old(instances), old(resolving))
      ensures BuildOutcome(c, r, old(instances), old(resolving))
      decreases |Universe(services, classes) - (resolving - {a})|, 3
    {
      if c !in classes {
        return Err(Thrown(RuntimeException, CannotReflectMessage(c)));
      }
      var meta := classes[c];
      if !meta.instantiable {
        return Err(Thrown(RuntimeException, NotInstantiableMessage(c)));
      }
      if meta.ctor.None? {
        r := Ok(Obj(nextId, c, []));
        nextId := nextId + 1;
        return;
      }
      var deps := ResolveDependencies(meta.ctor.value, a);
      if deps.Err? {
        r := Err(deps.error);
      } else {
        r := Ok(Obj(nextId, c, deps.value));
        nextId := nextId + 1;
      }
      assert (if r.Ok? then Ok(r.value.args) else Err(r.error)) == deps;
    }

    /**
     * `resolveDependencies`: first refuse any union-typed parameter, then
     * take each parameter's default (untyped or built-in) or resolve its
     * class, falling back to the default or null when that throws a
     * RuntimeException and the parameter allows it.
     */
    method ResolveDependencies(params: seq<Param>, ghost a: string) returns (r: Result<seq<Val>, Thrown>)
      requires a in Universe(services, classes) && a in resolving
      modifies this`instances, this`resolving, this`nextId
      ensures Grows()
      ensures forall i :: 0 <= i < |params| && params[i].typ.Union? && (forall j :: 0 <= j < i ==> !params[j].typ.Union?) ==>
        r == Err(Thrown(RuntimeException, UnionMessage(params[i].name))) && instances == old(instances) && nextId == old(nextId)
      ensures r.Ok? ==> |r.value| == |params| && AllInjected(params, r.value, old(instances), old(resolving))
      ensures (forall j :: 0 <= j < |params| ==> !params[j].typ.Union?) ==>
        forall i :: InjectFailsAt(params, old(instances), old(resolving), i) ==>
          r == Err(Decided(params[i], old(instances), old(resolving)).value.error)
      ensures CtorOutcome(params, r, old(instances), old(resolving))
      decreases |Universe(services, classes) - (resolving - {a})|, 2
    {
      var union := FirstUnion(params);
      if union < |params| {
        FirstIsOnly(params, union);
        return Err(Thrown(RuntimeException, UnionMessage(params[union].name)));
      }
      r := InjectAll(params, a);
    }

    /** The loop of `resolveDependencies` over parameters none of which is union-typed. */
    method InjectAll(params: seq<Param>, ghost a: string) returns (r: Result<seq<Val>, Thrown>)
      requires a in Universe(services, classes) && a in resolving
      requires forall j :: 0 <= j < |params| ==> !params[j].typ.Union?
      modifies this`instances, this`resolving, this`nextId
      ensures Grows()
      ensures r.Ok? ==> |r.value| == |params| && AllInjected(params, r.value, old(instances), old(resolving))
      ensures forall i :: InjectFailsAt(params, old(instances), old(resolving), i) ==>
        r == Err(Decided(params[i], old(instances), old(resolving)).value.error)
      decreases |Universe(services, classes) - (resolving - {a})|, 1
    {
      var deps: seq<Val> := [];
      var i := 0;
      while i < |params|
        invariant 0 <= i <= |params|
        invariant Grows()
        invariant |deps| == i && AllInjected(params, deps, old(instances), old(resolving))
      {
        ghost var now := instances;
        var v, got := Inject(params[i], a);
        ExtendsTrans(old(instances), now, instances, old(resolving));
        InjectStep(params, deps, v, old(instances), now, old(resolving));
        if v.Err? {
          return Err(v.error);
        }
        InjectedSnoc(params, deps, v.value, old(instances), old(resolving));
        deps := deps + [v.value];
        i := i + 1;
      }
      NeverFails(params, deps, old(instances), old(resolving));
      return Ok(deps);
    }

    /**
     * What one step of the loop learns from `Inject` run from the later
     * state `now`: a value is injected against the state the loop started
     * from, and an error is the decided one wherever the state decides one.
     */
    lemma InjectStep(params: seq<Param>, deps: seq<Val>, v: Result<Val, Thrown>, inst: map<string, Obj>, now: map<string, Obj>, res: set<string>)
      requires AllInjected(params, deps, inst, res) && |deps| < |params| && Extends(inst, now, res)
      requires v.Ok? ==> Injected(params[|deps|], v.value, now, res)
      requires Decided(params[|deps|], now, res).Some? ==> v == Decided(params[|deps|], now, res).value
      ensures v.Ok? ==> Injected(params[|deps|], v.value, inst, res)
      ensures v.Err? ==> forall i :: InjectFailsAt(params, inst, res, i) ==> v.error == Decided(params[i], inst, res).value.error
    {
      InjectedStable(params[|deps|], if v.Ok? then v.value else NullVal, inst, now, res);
      if v.Err? {
        FailsHere(params, deps, v, inst, res);
      }
    }

    /**
     * An error at parameter `|deps|`, after values injected for the ones
     * before it, is the decided error wherever the state decides one.
     */
    lemma FailsHere(params: seq<Param>, deps: seq<Val>, v: Result<Val, Thrown>, inst: map<string, Obj>, res: set<string>)
      requires AllInjected(params, deps, inst, res) && |deps| < |params| && v.Err?
      requires Decided(params[|deps|], inst, res).Some? ==> v == Decided(params[|deps|], inst, res).value
      ensures forall i :: InjectFailsAt(params, inst, res, i) ==> v.error == Decided(params[i], inst, res).value.error
    {
      forall i | InjectFailsAt(params, inst, res, i)
        ensures v.error == Decided(params[i], inst, res).value.error
      {
        if i < |deps| {
          InjectedDecided(params[i], deps[i], inst, res);
        }
      }
    }

    /** With a value injected for every parameter, none is decided to fail. */
    lemma NeverFails(params: seq<Param>, deps: seq<Val>, inst: map<string, Obj>, res: set<string>)
      requires AllInjected(params, deps, inst, res) && |deps| == |params|
      ensures forall i :: !InjectFailsAt(params, inst, res, i)
    {
      forall i | 0 <= i < |params|
        ensures !InjectFailsAt(params, inst, res, i)
      {
        InjectedDecided(params[i], deps[i], inst, res);
      }
    }

    /** An injected value is the decided one wherever the state decides. */
    lemma InjectedDecided(p: Param, v: Val, inst: map<string, Obj>, res: set<string>)
      requires Injected(p, v, inst, res)
      ensures Decided(p, inst, res).Some? ==> Decided(p, inst, res).value == Ok(v)
    {
    }

    /** One parameter of `resolveDependencies`'s second loop; `got` is what `get` returned for a class. */
    method Inject(p: Param, ghost a: string) returns (r: Result<Val, Thrown>, ghost got: Result<Obj, Thrown>)
      requires a in Universe(services, classes) && a in resolving
      requires !p.typ.Union?
      modifies this`instances, this`resolving, this`nextId
      ensures Grows()
      ensures r.Ok? ==> Injected(p, r.value, old(instances), old(resolving))
      ensures Decided(p, old(instances), old(resolving)).Some? ==> r == Decided(p, old(instances), old(resolving)).value
      ensures p.typ.Named? ==> r == InjectOutcome(p, got)
      ensures p.typ.Named? && got.Ok? && p.typ.name !in old(instances) ==>
        old(nextId) <= got.value.id < nextId && got.value.cls == ConcreteClass(p.typ.name)
      decreases |Universe(services, classes) - (resolving - {a})|, 0
    {
      got := Err(Thrown(Error, ""));
      match p.typ {
        case Untyped =>
          if p.default.None? {
            r := Err(Thrown(RuntimeException, NoTypeHintMessage(p.name)));
            return;
          }
          r := Ok(p.default.value);
        case Builtin(t) =>
          if p.default.None? {
            r := Err(Thrown(RuntimeException, BuiltinMessage(t, p.name)));
            return;
          }
          r := Ok(p.default.value);
        case Named(t) =>
          Shrinks(Universe(services, classes), resolving, a);
          var g := Get(t);
          got := g;
          if g.Ok? {
            r := Ok(ObjVal(g.value));
            return;
          }
          if g.error.kind != RuntimeException {
            r := Err(g.error);
            return;
          }
          if !(p.nullable || p.default.Some?) {
            r := Err(Thrown(RuntimeException, DependencyMessage(t, p.name, g.error.message)));
            return;
          }
          r := Ok(Fallback(p));
      }
    }

    /**
     * The parameters `callMethod` reflects for a callable callback: a
     * closure's, or the method's of the object, which for a `[class name,
     * method]` callback is what `get` returned, `got`.
     */
    function CallParams(callback: Callback, got: Result<Obj, Thrown>): Option<seq<Param>>
    {
      match callback
      case Closure(ps) => Some(ps)
      case MethodOf(Instance(o), m) => if Callable(o, m) then Some(classes[o.cls].methods[m]) else None
      case MethodOf(ByName(_), m) => if got.Ok? && Callable(got.value, m) then Some(classes[got.value.cls].methods[m]) else None
      case NotCallable => None
    }

    /**
     * `call`: a `[class name, method]` callback first gets the object from
     * the container, `got`, and throws what `get` throws; a callback that is
     * not callable is refused; otherwise the result is the argument list the
     * callable is invoked with.
     */
    method Call(callback: Callback, parameters: seq<(string, Val)> := []) returns (r: Result<seq<Val>, Thrown>, ghost got: Result<Obj, Thrown>)
      modifies this`instances, this`resolving, this`nextId
      ensures Grows()
      ensures callback.NotCallable? ==> r == Err(Thrown(Exception, NotCallableMessage))
      ensures callback.MethodOf? && callback.target.Instance? && !Callable(callback.target.obj, callback.name) ==>
        r == Err(Thrown(Exception, NotCallableMessage))
      ensures callback.MethodOf? && callback.target.ByName? ==>
        var cls := callback.target.cls;
        (GetDecided(cls, old(instances), old(resolving)).Some? ==> got == GetDecided(cls, old(instances), old(resolving)).value) &&
        (cls !in old(instances) && cls !in old(resolving) && ResolvesByBuild(cls) ==>
          BuildOutcome(ConcreteClass(cls), got, old(instances), old(resolving) + {cls})) &&
        (cls !in old(instances) && cls !in old(resolving) && cls in services && services[cls].concrete == Invalid ==>
          got == Err(Thrown(InvalidArgumentException, InvalidDefinitionMessage(cls)))) &&
        (got.Ok? && cls !in old(instances) ==> got.value.cls == ConcreteClass(cls)) &&
        (got.Err? ==> r == Err(got.error)) &&
        (got.Ok? && !Callable(got.value, callback.name) ==> r == Err(Thrown(Exception, NotCallableMessage)))
      ensures CallParams(callback, got).Some? && r.Ok? ==>
        var ps := CallParams(callback, got).value;
        |r.value| == |ps| && forall i :: 0 <= i < |ps| ==> MethodArg(ps[i], parameters, r.value[i], old(instances), old(resolving))
      ensures CallParams(callback, got).Some? ==>
        forall i :: MethodFailsAt(CallParams(callback, got).value, parameters, old(instances), old(resolving), i) ==>
          r == Err(MethodDecided(CallParams(callback, got).value[i], parameters, old(instances), old(resolving)).value.error)
    {
      got := Err(Thrown(Error, ""));
      var params: seq<Param>;
      match callback {
        case NotCallable =>
          r := Err(Thrown(Exception, NotCallableMessage));
          return;
        case Closure(ps) =>
          params := ps;
        case MethodOf(target, m) =>
          var obj: Obj;
          match target {
            case Instance(o) =>
              obj := o;
            case ByName(cls) =>
              var g := Get(cls);
              got := g;
              if g.Err? {
                r := Err(g.error);
                return;
              }
              obj := g.value;
          }
          if !Callable(obj, m) {
            r := Err(Thrown(Exception, NotCallableMessage));
            return;
          }
          params := classes[obj.cls].methods[m];
      }
      assert CallParams(callback, got) == Some(params);
      if params == [] {
        r := Ok([]);
        return;
      }
      ghost var mid := instances;
      r := ResolveMethodDependencies(params, parameters);
      ExtendsTrans(old(instances), mid, instances, old(resolving));
      if r.Ok? {
        MethodArgsStable(params, parameters, r.value, old(instances), mid, old(resolving));
      }
      MethodFailsStable(params, parameters, old(instances), mid, old(resolving));
    }

    /** `is_callable([$obj, $m])`: the object's class has a public method of that name. */
    predicate Callable(obj: Obj, m: string) {
      obj.cls in classes && m in classes[obj.cls].methods
    }

    /**
     * `resolveMethodDependencies`: a named argument wins; an untyped or
     * built-in parameter takes its default or fails; a class is fetched from
     * the container; a union type reaches `isBuiltin`, which it lacks.
     */
    method ResolveMethodDependencies(params: seq<Param>, parameters: seq<(string, Val)>) returns (r: Result<seq<Val>, Thrown>)
      modifies this`instances, this`resolving, this`nextId
      ensures Grows()
      ensures r.Ok? ==> |r.value| == |params| &&
                        forall i :: 0 <= i < |params| ==> MethodArg(params[i], parameters, r.value[i], old(instances), old(resolving))
      ensures forall i :: MethodFailsAt(params, parameters, old(instances), old(resolving), i) ==>
        r == Err(MethodDecided(params[i], parameters, old(instances), old(resolving)).value.error)
      ensures (forall i :: 0 <= i < |params| ==> params[i].name in Keys(parameters)) ==>
        r.Ok? && instances == old(instances) && nextId == old(nextId) &&
        forall i :: 0 <= i < |params| ==> Lookup(parameters, params[i].name) == Some(r.value[i])
    {
      var results: seq<Val> := [];
      var i := 0;
      while i < |params|
        invariant 0 <= i <= |params|
        invariant Grows()
        invariant |results| == i &&
          forall j :: 0 <= j < i ==> MethodArg(params[j], parameters, results[j], old(instances), old(resolving))
        invariant (forall j :: 0 <= j < |params| ==> params[j].name in Keys(parameters)) ==>
          instances == old(instances) && nextId == old(nextId) &&
          forall j :: 0 <= j < i ==> Lookup(parameters, params[j].name) == Some(results[j])
      {
        ghost var now := instances;
        var v := MethodArgument(params[i], parameters);
        ExtendsTrans(old(instances), now, instances, old(resolving));
        MethodArgStable(params[i], parameters, if v.Ok? then v.value else NullVal, old(instances), now, old(resolving));
        if v.Err? {
          MethodFailsHere(params, parameters, results, v, old(instances), now, old(resolving));
          return Err(v.error);
        }
        MethodArgSnoc(params, parameters, results, v.value, old(instances), old(resolving));
        results := results + [v.value];
        i := i + 1;
      }
      MethodNeverFails(params, parameters, results, old(instances), old(resolving));
      return Ok(results);
    }

    /** One parameter of `resolveMethodDependencies`'s loop. */
    method MethodArgument(p: Param, parameters: seq<(string, Val)>) returns (r: Result<Val, Thrown>)
      modifies this`instances, this`resolving, this`nextId
      ensures Grows()
      ensures r.Ok? ==> MethodArg(p, parameters, r.value, old(instances), old(resolving))
      ensures MethodDecided(p, parameters, old(instances), old(resolving)).Some? ==>
        r == MethodDecided(p, parameters, old(instances), old(resolving)).value
      ensures p.name in Keys(parameters) ==> instances == old(instances) && nextId == old(nextId)
    {
      var given := Lookup(parameters, p.name);
      if given.Some? {
        return Ok(given.value);
      }
      match p.typ {
        case Untyped =>
          if p.default.None? {
            return Err(Thrown(Exception, MethodDependencyMessage(p.name)));
          }
          return Ok(p.default.value);
        case Builtin(_) =>
          if p.default.None? {
            return Err(Thrown(Exception, MethodDependencyMessage(p.name)));
          }
          return Ok(p.default.value);
        case Union(_) =>
          return Err(Thrown(Error, UnionIsBuiltinMessage));
        case Named(t) =>
          var got := Get(t);
          if got.Err? {
            return Err(got.error);
          }
          return Ok(ObjVal(got.value));
      }
    }

    lemma MethodArgSnoc(params: seq<Param>, parameters: seq<(string, Val)>, results: seq<Val>, v: Val, inst: map<string, Obj>, res: set<string>)
      requires |results| < |params| && MethodArg(params[|results|], parameters, v, inst, res)
      requires forall j :: 0 <= j < |results| ==> MethodArg(params[j], parameters, results[j], inst, res)
      ensures forall j :: 0 <= j < |results| + 1 ==> MethodArg(params[j], parameters, (results + [v])[j], inst, res)
    {
      forall j | 0 <= j < |results| + 1
        ensures MethodArg(params[j], parameters, (results + [v])[j], inst, res)
      {
        if j < |results| {
          assert (results + [v])[j] == results[j];
        }
      }
    }

    /** As `FailsHere`, for `resolveMethodDependencies`. */
    lemma MethodFailsHere(params: seq<Param>, parameters: seq<(string, Val)>, results: seq<Val>, v: Result<Val, Thrown>,
                          inst: map<string, Obj>, now: map<string, Obj>, res: set<string>)
      requires |results| < |params| && v.Err?
      requires forall j :: 0 <= j < |results| ==> MethodArg(params[j], parameters, results[j], inst, res)
      requires MethodDecided(params[|results|], parameters, inst, res).Some? ==>
        MethodDecided(params[|results|], parameters, now, res) == MethodDecided(params[|results|], parameters, inst, res)
      requires MethodDecided(params[|results|], parameters, now, res).Some? ==>
        v == MethodDecided(params[|results|], parameters, now, res).value
      ensures forall i :: MethodFailsAt(params, parameters, inst, res, i) ==>
        v.error == MethodDecided(params[i], parameters, inst, res).value.error
    {
      forall i | MethodFailsAt(params, parameters, inst, res, i)
        ensures v.error == MethodDecided(params[i], parameters, inst, res).value.error
      {
        if i < |results| {
          MethodArgDecided(params[i], parameters, results[i], inst, res);
        }
      }
    }

    /** As `NeverFails`, for `resolveMethodDependencies`. */
    lemma MethodNeverFails(params: seq<Param>, parameters: seq<(string, Val)>, results: seq<Val>, inst: map<string, Obj>, res: set<string>)
      requires |results| == |params|
      requires forall j :: 0 <= j < |results| ==> MethodArg(params[j], parameters, results[j], inst, res)
      ensures forall i :: !MethodFailsAt(params, parameters, inst, res, i)
    {
      forall i | 0 <= i < |params|
        ensures !MethodFailsAt(params, parameters, inst, res, i)
      {
        MethodArgDecided(params[i], parameters, results[i], inst, res);
      }
    }

    /** A method argument is the decided one wherever the arguments and the state decide. */
    lemma MethodArgDecided(p: Param, parameters: seq<(string, Val)>, v: Val, inst: map<string, Obj>, res: set<string>)
      requires MethodArg(p, parameters, v, inst, res)
      ensures MethodDecided(p, parameters, inst, res).Some? ==> MethodDecided(p, parameters, inst, res).value == Ok(v)
    {
    }
  }

  /** A name `has` denies, and that is not being resolved, makes `get` throw not found and store nothing. */
  method MissingIsNotFound(c: Container, a: string) returns (r: Result<Obj, Thrown>)
    requires !c.Has(a) && a !in c.resolving
    modifies c`instances, c`resolving, c`nextId
    ensures r == Err(Thrown(RuntimeException, NotFoundMessage(a)))
  {
    c.HasUnlessNotFound(a);
    r := c.Get(a);
  }

  /** A singleton binding hands out one instance: the second `get` returns the object the first built. */
  method SingletonIsShared(c: Container, a: string) returns (first: Result<Obj, Thrown>, second: Result<Obj, Thrown>)
    requires a in c.services && c.services[a].singleton && a !in c.instances
    modifies c`instances, c`resolving, c`nextId
    ensures first.Ok? ==> second == first
  {
    first := c.Get(a);
    second := c.Get(a);
  }

  /** A plain binding builds anew on every `get`: two successes are two distinct objects. */
  method PlainBindingIsFresh(c: Container, a: string) returns (first: Result<Obj, Thrown>, second: Result<Obj, Thrown>)
    requires a in c.services && !c.services[a].singleton && a !in c.instances
    modifies c`instances, c`resolving, c`nextId
    ensures first.Ok? && second.Ok? ==> first.value.id < second.value.id
  {
    first := c.Get(a);
    second := c.Get(a);
  }

  /** A stored instance wins over a singleton binding, even one already resolved. */
  method InstanceOverridesSingleton(c: Container, a: string, obj: Obj) returns (r: Result<Obj, Thrown>)
    requires a in c.services && c.services[a].singleton
    modifies c`instances, c`resolving, c`nextId
    ensures r == Ok(obj)
  {
    var _ := c.Get(a);
    c.Instance(a, obj);
    r := c.Get(a);
  }

  /** `get` of an abstract class that nothing binds throws "is not instantiable" and stores nothing. */
  method AbstractIsNotInstantiable(c: Container, a: string) returns (r: Result<Obj, Thrown>)
    requires a !in c.services && a !in c.instances && a !in c.resolving
    requires a in c.classes && !c.classes[a].isInterface && !c.classes[a].instantiable
    modifies c`instances, c`resolving, c`nextId
    ensures r == Err(Thrown(RuntimeException, NotInstantiableMessage(a)))
  {
    r := c.Get(a);
  }

  /** `get` of a class whose constructor has a union-typed parameter throws "Union types are not supported". */
  method UnionConstructorRefused(c: Container, a: string, i: nat) returns (r: Result<Obj, Thrown>)
    requires a !in c.services && a !in c.instances && a !in c.resolving
    requires a in c.classes && !c.classes[a].isInterface && c.classes[a].instantiable && c.classes[a].ctor.Some?
    requires i < |c.classes[a].ctor.value| && c.classes[a].ctor.value[i].typ.Union?
    requires forall j :: 0 <= j < i ==> !c.classes[a].ctor.value[j].typ.Union?
    modifies c`instances, c`resolving, c`nextId
    ensures r == Err(Thrown(RuntimeException, UnionMessage(c.classes[a].ctor.value[i].name)))
  {
    r := c.Get(a);
  }

  /** A `[class name, method]` callback whose class cannot be found throws `get`'s not-found error. */
  method CallOfMissingClass(c: Container, cls: string, m: string) returns (r: Result<seq<Val>, Thrown>)
    requires cls !in c.services && cls !in c.instances && cls !in c.resolving && !c.ClassExists(cls)
    modifies c`instances, c`resolving, c`nextId
    ensures r == Err(Thrown(RuntimeException, NotFoundMessage(cls)))
  {
    ghost var got;
    r, got := c.Call(MethodOf(ByName(cls), m));
  }
}
