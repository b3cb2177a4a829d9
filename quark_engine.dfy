/**
 * The Quark engine's rendering state machine.
 *
 * `render` resolves a template name to a file, compiles it (or reuses the
 * cached PHP), runs the PHP with the caller's data in scope, and then wraps
 * the captured output in the last layout the template asked for and, for a
 * top-level render, in the root layout. While it runs, the compiled PHP calls
 * back into the engine: `setLayout`, `skipRootLayout`, `renderOutlet`,
 * `startSlot`/`endSlot` and, for includes, `render` itself.
 *
 * Running the compiled PHP is outside the model. It is the `execute`
 * parameter: given the compiled code and the template's variables, it yields
 * the sequence of things the code does that the engine can observe (output
 * and calls back into the engine), or an exception it throws. The engine's
 * reaction to each of them, its fields, and PHP's output-buffer stack are
 * modelled exactly. The file system is a map from path to contents and
 * modification time.
 *
 * Rendering is recursive (layouts, includes, outlets that name a template);
 * `fuel` bounds the depth of nested renders.
 */
module QuarkEngine {
  import opened Php
  import opened QuarkCompiler
  import opened QuarkFilters

  /** The variables a template sees. */
  type Scope = map<string, Value>

  /**
   * An entry of the `outlets` array: a string, an array naming a template
   * (with optional data), a malformed array (no string 'template', or 'data'
   * that is not an array), or any other value.
   */
  datatype OutletValue =
    | TextOutlet(text: string)
    | TemplateOutlet(template: string, data: Scope)
    | MalformedOutlet
    | OtherOutlet

  /** What running compiled template code does, as far as the engine can observe it. */
  datatype Event =
    | Echo(text: string)
    | CallSetLayout(layout: string)
    | CallSkipRoot
    | CallRenderOutlet(name: string, vars: Scope)
    | CallStartSlot(name: string)
    | CallEndSlot
    | CallRender(template: string, vars: Scope)
    | Throw(message: string)

  datatype File = File(content: string, mtime: int)

  /** What stays fixed while a render runs: configuration, globals, the directive table and the foreign parts. */
  datatype Env = Env(
    templateDir: string,
    cacheDir: string,
    debug: bool,
    rootLayout: Option<string>,
    globals: Scope,
    directives: seq<(string, DirectiveCompiler)>,
    execute: (string, Scope) -> seq<Event>,
    cacheKey: string -> string,
    now: int)

  /**
   * The engine fields a render changes, PHP's stack of output buffers (the
   * innermost last) and the file system.
   */
  datatype State = State(
    skipRoot: bool,
    layouts: seq<string>,
    outlets: map<string, OutletValue>,
    slots: map<string, string>,
    currentSlot: string,
    buffers: seq<string>,
    files: map<string, File>)

  datatype Rendered = Rendered(result: Result<string, string>, st: State)

  datatype Ran = Ran(failure: Option<string>, st: State)

  datatype Compiled = Compiled(code: string, files: map<string, File>)

  datatype Captured = Captured(failure: Option<string>, content: string, st: State)

  /** The `TypeError` PHP raises when an outlet array's 'template' or 'data' has the wrong type. */
  const MalformedOutletError: string := "TypeError: the outlet's template or data has the wrong type"

  /** Reported when `fuel` runs out; PHP itself would recurse until it runs out of stack. */
  const FuelExhausted: string := "nested render depth exhausted"

  // ---------------------------------------------------------------------
  // Output buffers
  // ---------------------------------------------------------------------

  function OpenSlot(st: State): nat {
    if Falsy(st.currentSlot) then 0 else 1
  }

  /**
   * The buffer discipline: with `frames` renders in progress there is a
   * buffer for each of them, plus one for an open slot. So neither the
   * `ob_get_clean` of a render nor that of `endSlot` ever finds the stack
   * empty.
   */
  predicate Buffered(st: State, frames: nat) {
    |st.buffers| >= frames + OpenSlot(st)
  }

  /** `echo`: the text goes to the innermost buffer. */
  function EchoF(st: State, text: string): (r: State)
    requires |st.buffers| > 0
    ensures |r.buffers| == |st.buffers| && r.buffers[|r.buffers| - 1] == st.buffers[|st.buffers| - 1] + text
    ensures r == st.(buffers := r.buffers) && r.buffers[..|r.buffers| - 1] == st.buffers[..|st.buffers| - 1]
  {
    var n := |st.buffers|;
    st.(buffers := st.buffers[..n - 1] + [st.buffers[n - 1] + text])
  }

  // ---------------------------------------------------------------------
  // Engine calls made by compiled templates
  // ---------------------------------------------------------------------

  /** `setLayout`: push a layout name. */
  function SetLayoutF(st: State, layout: string): State {
    st.(layouts := st.layouts + [layout])
  }

  /** `startSlot`: name the slot and open a buffer for it. */
  function StartSlotF(st: State, name: string): (r: State)
    ensures Buffered(st, 0) ==> Buffered(r, 0)
  {
    st.(currentSlot := name, buffers := st.buffers + [""])
  }

  /**
   * `endSlot`: when the current slot name is truthy, the innermost buffer
   * becomes the slot's content and the name is cleared; otherwise nothing
   * happens.
   */
  function EndSlotF(st: State): (r: State)
    requires Buffered(st, 0)
    ensures Falsy(st.currentSlot) ==> r == st
    ensures !Falsy(st.currentSlot) ==>
      r.slots == st.slots[st.currentSlot := st.buffers[|st.buffers| - 1]] && r.currentSlot == "" &&
      r.buffers == st.buffers[..|st.buffers| - 1]
  {
    if Falsy(st.currentSlot) then st
    else
      var n := |st.buffers|;
      st.(slots := st.slots[st.currentSlot := st.buffers[n - 1]], currentSlot := "", buffers := st.buffers[..n - 1])
  }

  // ---------------------------------------------------------------------
  // Template files and the compile cache
  // ---------------------------------------------------------------------

  /** `templateDir . '/' . ltrim(str_replace('.', '/', $template), '/') . '.quark.html'`. */
  function TemplatePath(templateDir: string, template: string): string {
    templateDir + "/" + TrimLeft(ReplaceChar(template, '.', "/"), {'/'}) + ".quark.html"
  }

  /** `cacheDir . '/' . md5($templatePath) . '.php'`, with the hash supplied as `cacheKey`. */
  function CachePath(env: Env, path: string): string {
    env.cacheDir + "/" + env.cacheKey(path) + ".php"
  }

  /** The cache may be reused: not debugging, the cache file exists and is no older than the template. */
  predicate CacheFresh(env: Env, files: map<string, File>, path: string)
    requires path in files
  {
    var cache := CachePath(env, path);
    !env.debug && cache in files && files[cache].mtime >= files[path].mtime
  }

  /** `compile`: the cached PHP when fresh, otherwise the template compiled anew and written to the cache. */
  function CompileF(env: Env, files: map<string, File>, path: string): (r: Result<Compiled, string>)
    requires path in files
  {
    var cache := CachePath(env, path);
    if CacheFresh(env, files, path) then Ok(Compiled(files[cache].content, files))
    else match CompileSpec(env.directives, files[path].content)
      case Err(e) => Err(e)
      case Ok(php) => Ok(Compiled(php, files[cache := File(php, env.now)]))
  }

  /** The template's variables: globals overlaid by the caller's data, and `$__quark` bound to the engine. */
  function RenderScope(globals: Scope, data: Scope): Scope {
    (globals + data)["__quark" := Obj(None)]
  }

  // ---------------------------------------------------------------------
  // render
  // ---------------------------------------------------------------------

  /** The fields `render` resets before running a template; `slots` is not among them. */
  function ResetF(st: State, outlets: map<string, OutletValue>): State {
    st.(skipRoot := false, layouts := [], outlets := outlets, currentSlot := "")
  }

  /** The root layout wraps this render: one is set (and truthy) and the render is not nested. */
  predicate RootApplies(env: Env, nested: bool) {
    env.rootLayout.Some? && !Falsy(env.rootLayout.value) && !nested
  }

  /**
   * `render($template, $data, $outlets, $isNested)`. `frames` counts the
   * renders already in progress, for the buffer discipline.
   */
  function RenderF(env: Env, fuel: nat, st: State, template: string, data: Scope,
                   outlets: map<string, OutletValue>, nested: bool, ghost frames: nat): (r: Rendered)
    requires Buffered(st, frames)
    ensures Buffered(r.st, frames) && st.slots.Keys <= r.st.slots.Keys
    ensures r.result.Ok? ==> r.st.layouts == []
    decreases fuel, 4, 0
  {
    var path := TemplatePath(env.templateDir, template);
    if path !in st.files then Rendered(Err("Template '" + template + "' not found"), st)
    else ExecuteF(env, fuel, ResetF(st, outlets), path, data, nested, frames)
  }

  /**
   * The rest of `render` once the fields are reset: compile, run the code
   * inside a fresh output buffer, take the buffer's contents and finish.
   */
  function ExecuteF(env: Env, fuel: nat, st: State, path: string, data: Scope, nested: bool,
                    ghost frames: nat): (r: Rendered)
    requires path in st.files && Buffered(st, frames)
    ensures Buffered(r.st, frames) && st.slots.Keys <= r.st.slots.Keys
    ensures r.result.Ok? ==> r.st.layouts == []
    decreases fuel, 3, 1
  {
    match CompileF(env, st.files, path)
    case Err(e) => Rendered(Err(e), st)
    case Ok(compiled) =>
      var captured := CaptureF(env, fuel, st.(files := compiled.files), compiled.code, data, frames);
      if captured.failure.Some? then Rendered(Err(captured.failure.value), captured.st)
      else FinishF(env, fuel, captured.st, captured.content, data, nested, frames)
  }

  /**
   * `ob_start()`, the compiled code run with the template's variables, and
   * `ob_get_clean()` for its output. When the code throws, the buffer it
   * opened is left open.
   */
  function CaptureF(env: Env, fuel: nat, st: State, code: string, data: Scope, ghost frames: nat): (r: Captured)
    requires Buffered(st, frames)
    ensures Buffered(r.st, frames) && st.slots.Keys <= r.st.slots.Keys
    decreases fuel, 3, 0
  {
    var events := env.execute(code, RenderScope(env.globals, data));
    var ran := RunF(env, fuel, st.(buffers := st.buffers + [""]), events, frames + 1);
    if ran.failure.Some? then Captured(ran.failure, "", ran.st)
    else
      var n := |ran.st.buffers|;
      Captured(None, ran.st.buffers[n - 1], ran.st.(buffers := ran.st.buffers[..n - 1]))
  }

  /**
   * What `render` does with the captured `content`: with a layout pending,
   * pop the last one and go on in `LayoutF`; otherwise wrap in the root
   * layout when it applies and the template did not skip it.
   */
  function FinishF(env: Env, fuel: nat, st: State, content: string, data: Scope, nested: bool,
                   ghost frames: nat): (r: Rendered)
    requires Buffered(st, frames)
    ensures Buffered(r.st, frames) && st.slots.Keys <= r.st.slots.Keys
    ensures r.result.Ok? ==> r.st.layouts == []
    decreases fuel, 2, 0
  {
    if |st.layouts| > 0 then
      if fuel == 0 then Rendered(Err(FuelExhausted), st)
      else
        var n := |st.layouts|;
        LayoutF(env, fuel - 1, st.(layouts := st.layouts[..n - 1]), st.layouts[n - 1], content, data, nested, frames)
    else if RootApplies(env, nested) && !st.skipRoot then
      if fuel == 0 then Rendered(Err(FuelExhausted), st)
      else WrapRootF(env, fuel - 1, st, content, data, frames)
    else Rendered(Ok(content), st)
  }

  /**
   * The popped `layout` rendered nested with the content as its default
   * outlet; then the root layout around that, when it applies and the skip
   * flag, as the nested render left it, is clear.
   */
  function LayoutF(env: Env, fuel: nat, st: State, layout: string, content: string, data: Scope, nested: bool,
                   ghost frames: nat): (r: Rendered)
    requires Buffered(st, frames)
    ensures Buffered(r.st, frames) && st.slots.Keys <= r.st.slots.Keys
    ensures r.result.Ok? ==> r.st.layouts == []
    decreases fuel, 6, 0
  {
    var child := st.(outlets := st.outlets["default" := TextOutlet(content)]);
    var inner := RenderF(env, fuel, child, layout, data, child.outlets, true, frames);
    if inner.result.Ok? && RootApplies(env, nested) && !inner.st.skipRoot then
      WrapRootF(env, fuel, inner.st, inner.result.value, data, frames)
    else inner
  }

  /** The root layout rendered nested, with `content` as its default outlet. */
  function WrapRootF(env: Env, fuel: nat, st: State, content: string, data: Scope, ghost frames: nat): (r: Rendered)
    requires env.rootLayout.Some?
    requires Buffered(st, frames)
    ensures Buffered(r.st, frames) && st.slots.Keys <= r.st.slots.Keys
    ensures r.result.Ok? ==> r.st.layouts == []
    decreases fuel, 5, 0
  {
    var wrapped := st.(outlets := st.outlets["default" := TextOutlet(content)]);
    RenderF(env, fuel, wrapped, env.rootLayout.value, data, wrapped.outlets, true, frames)
  }

  /** The events of a template, in order, up to the first that fails. */
  function RunF(env: Env, fuel: nat, st: State, events: seq<Event>, ghost frames: nat): (r: Ran)
    requires frames >= 1 && Buffered(st, frames)
    ensures Buffered(r.st, frames) && st.slots.Keys <= r.st.slots.Keys
    decreases fuel, 2, |events|
  {
    if events == [] then Ran(None, st)
    else
      var step := StepF(env, fuel, st, events[0], frames);
      if step.failure.Some? then step else RunF(env, fuel, step.st, events[1..], frames)
  }

  /** One event; the output of `renderOutlet` and of an included `render` is echoed. */
  function StepF(env: Env, fuel: nat, st: State, e: Event, ghost frames: nat): (r: Ran)
    requires frames >= 1 && Buffered(st, frames)
    ensures Buffered(r.st, frames) && st.slots.Keys <= r.st.slots.Keys
    decreases fuel, 1, 0
  {
    match e
    case Echo(text) => Ran(None, EchoF(st, text))
    case CallSetLayout(layout) => Ran(None, SetLayoutF(st, layout))
    case CallSkipRoot => Ran(None, st.(skipRoot := true))
    case CallRenderOutlet(name, vars) => EchoResult(OutletF(env, fuel, st, name, vars, frames))
    case CallStartSlot(name) => Ran(None, StartSlotF(st, name))
    case CallEndSlot => Ran(None, EndSlotF(st))
    case CallRender(template, vars) =>
      if fuel == 0 then Ran(Some(FuelExhausted), st)
      else EchoResult(RenderF(env, fuel - 1, st, template, vars, map[], false, frames))
    case Throw(message) => Ran(Some(message), st)
  }

  function EchoResult(o: Rendered): Ran
    requires o.result.Ok? ==> |o.st.buffers| > 0
  {
    if o.result.Err? then Ran(Some(o.result.error), o.st) else Ran(None, EchoF(o.st, o.result.value))
  }

  /**
   * `renderOutlet($name, $data)`: a captured slot first, then a string
   * outlet, then a template outlet rendered as a top-level render with the
   * outlet's data over `vars`, and '' otherwise.
   */
  function OutletF(env: Env, fuel: nat, st: State, name: string, vars: Scope, ghost frames: nat): (r: Rendered)
    requires Buffered(st, frames)
    ensures Buffered(r.st, frames) && st.slots.Keys <= r.st.slots.Keys
    decreases fuel, 0, 0
  {
    if name in st.slots then Rendered(Ok(st.slots[name]), st)
    else if name !in st.outlets then Rendered(Ok(""), st)
    else match st.outlets[name]
      case TextOutlet(text) => Rendered(Ok(text), st)
      case TemplateOutlet(template, data) =>
        if fuel == 0 then Rendered(Err(FuelExhausted), st)
        else RenderF(env, fuel - 1, st, template, vars + data, map[], false, frames)
      case MalformedOutlet => Rendered(Err(MalformedOutletError), st)
      case OtherOutlet => Rendered(Ok(""), st)
  }

  // ---------------------------------------------------------------------
  // Properties of render
  // ---------------------------------------------------------------------

  /** A missing template throws before any field changes. */
  lemma RenderMissingTemplate(env: Env, fuel: nat, st: State, template: string, data: Scope,
                              outlets: map<string, OutletValue>, nested: bool, frames: nat)
    requires Buffered(st, frames)
    requires TemplatePath(env.templateDir, template) !in st.files
    ensures RenderF(env, fuel, st, template, data, outlets, nested, frames) ==
      Rendered(Err("Template '" + template + "' not found"), st)
  {
  }

  /**
   * Every render starts from the same fields whatever came before: states
   * that agree on slots, buffers and files render alike. So a
   * `skipRootLayout()` call, a layout push, an open slot name or outlets
   * left over from earlier have no effect on the next render.
   */
  lemma RenderResets(env: Env, fuel: nat, st1: State, st2: State, template: string, data: Scope,
                     outlets: map<string, OutletValue>, nested: bool, frames: nat)
    requires Buffered(st1, frames) && Buffered(st2, frames)
    requires st1.slots == st2.slots && st1.buffers == st2.buffers && st1.files == st2.files
    ensures RenderF(env, fuel, st1, template, data, outlets, nested, frames).result ==
            RenderF(env, fuel, st2, template, data, outlets, nested, frames).result
    ensures TemplatePath(env.templateDir, template) in st1.files ==>
      RenderF(env, fuel, st1, template, data, outlets, nested, frames) ==
      RenderF(env, fuel, st2, template, data, outlets, nested, frames)
  {
    var path := TemplatePath(env.templateDir, template);
    if path in st1.files {
      assert ResetF(st1, outlets) == ResetF(st2, outlets);
      assert RenderF(env, fuel, st1, template, data, outlets, nested, frames) ==
        ExecuteF(env, fuel, ResetF(st1, outlets), path, data, nested, frames);
    }
  }

  /** In particular, calling `skipRootLayout()` before `render` changes nothing. */
  lemma SkipBeforeRenderIgnored(env: Env, fuel: nat, st: State, template: string, data: Scope,
                                outlets: map<string, OutletValue>, nested: bool, frames: nat)
    requires Buffered(st, frames)
    ensures RenderF(env, fuel, st.(skipRoot := true), template, data, outlets, nested, frames).result ==
            RenderF(env, fuel, st.(skipRoot := false), template, data, outlets, nested, frames).result
  {
    RenderResets(env, fuel, st.(skipRoot := true), st.(skipRoot := false), template, data, outlets, nested, frames);
  }

  /** Of the layouts a template pushed, only the last counts: the earlier ones make no difference. */
  lemma LastLayoutWins(env: Env, fuel: nat, st: State, earlier1: seq<string>, earlier2: seq<string>, last: string,
                       content: string, data: Scope, nested: bool, frames: nat)
    requires Buffered(st, frames)
    ensures FinishF(env, fuel, st.(layouts := earlier1 + [last]), content, data, nested, frames).result ==
            FinishF(env, fuel, st.(layouts := earlier2 + [last]), content, data, nested, frames).result
  {
    if fuel > 0 {
      var st1 := st.(layouts := earlier1 + [last]);
      var st2 := st.(layouts := earlier2 + [last]);
      SnocParts(earlier1, last);
      SnocParts(earlier2, last);
      FinishPops(env, fuel, st1, content, data, nested, frames, st.(layouts := earlier1));
      FinishPops(env, fuel, st2, content, data, nested, frames, st.(layouts := earlier2));
      LayoutIgnoresPending(env, fuel - 1, st.(layouts := earlier1), st.(layouts := earlier2), last, content, data,
                           nested, frames);
    }
  }

  /**
   * The layout step depends on neither the layouts still pending nor the
   * skip flag: the nested render resets both.
   */
  lemma LayoutIgnoresPending(env: Env, fuel: nat, p1: State, p2: State, layout: string, content: string,
                             data: Scope, nested: bool, frames: nat)
    requires Buffered(p1, frames) && p2 == p1.(layouts := p2.layouts, skipRoot := p2.skipRoot)
    ensures LayoutF(env, fuel, p1, layout, content, data, nested, frames).result ==
            LayoutF(env, fuel, p2, layout, content, data, nested, frames).result
  {
    var outlets := p1.outlets["default" := TextOutlet(content)];
    RenderResets(env, fuel, p1.(outlets := outlets), p2.(outlets := outlets), layout, data, outlets, true, frames);
  }


  /**
   * The layout a template pushed is rendered nested with the template's
   * output as its default outlet, and the same data.
   */
  lemma LayoutGetsContent(env: Env, fuel: nat, st: State, earlier: seq<string>, last: string,
                          content: string, data: Scope, frames: nat)
    requires Buffered(st, frames) && fuel > 0
    ensures FinishF(env, fuel, st.(layouts := earlier + [last]), content, data, true, frames) ==
      RenderF(env, fuel - 1, st.(layouts := earlier, outlets := st.outlets["default" := TextOutlet(content)]),
              last, data, st.outlets["default" := TextOutlet(content)], true, frames)
  {
    var st1 := st.(layouts := earlier + [last]);
    assert st1.layouts[..|st1.layouts| - 1] == earlier && st1.layouts[|st1.layouts| - 1] == last;
  }

  /**
   * When the template pushed a layout, the skip flag it set itself is lost:
   * the nested layout render clears it before the root layout is considered.
   */
  lemma SkipLostUnderLayout(env: Env, fuel: nat, st: State, content: string, data: Scope, nested: bool, frames: nat)
    requires Buffered(st, frames) && |st.layouts| > 0
    ensures FinishF(env, fuel, st.(skipRoot := true), content, data, nested, frames).result ==
            FinishF(env, fuel, st.(skipRoot := false), content, data, nested, frames).result
  {
    if fuel > 0 {
      var n := |st.layouts|;
      var p1 := st.(skipRoot := true, layouts := st.layouts[..n - 1]);
      var p2 := st.(skipRoot := false, layouts := st.layouts[..n - 1]);
      FinishPops(env, fuel, st.(skipRoot := true), content, data, nested, frames, p1);
      FinishPops(env, fuel, st.(skipRoot := false), content, data, nested, frames, p2);
      LayoutIgnoresPending(env, fuel - 1, p1, p2, st.layouts[n - 1], content, data, nested, frames);
    }
  }


  /**
   * Without a pending layout: a nested render, or one with no (or a falsy)
   * root layout, or one whose template called skip_root, returns its output
   * as it is; otherwise the root layout is rendered nested around it. The
   * root layout is itself rendered nested, so it never wraps again.
   */
  lemma RootWrapping(env: Env, fuel: nat, st: State, content: string, data: Scope, nested: bool, frames: nat)
    requires Buffered(st, frames) && st.layouts == []
    ensures !RootApplies(env, true)
    ensures !RootApplies(env, nested) || st.skipRoot ==>
      FinishF(env, fuel, st, content, data, nested, frames) == Rendered(Ok(content), st)
    ensures RootApplies(env, nested) && !st.skipRoot && fuel > 0 ==>
      FinishF(env, fuel, st, content, data, nested, frames) ==
      RenderF(env, fuel - 1, st.(outlets := st.outlets["default" := TextOutlet(content)]), env.rootLayout.value,
              data, st.outlets["default" := TextOutlet(content)], true, frames)
  {
  }

  /** A render that succeeds leaves no pending layout, so an include or a template outlet drops the includer's. */
  lemma IncludeDropsPendingLayouts(env: Env, fuel: nat, st: State, template: string, vars: Scope, frames: nat)
    requires frames >= 1 && Buffered(st, frames) && fuel > 0
    requires StepF(env, fuel, st, CallRender(template, vars), frames).failure.None?
    ensures StepF(env, fuel, st, CallRender(template, vars), frames).st.layouts == []
  {
  }

  /** The concatenated output of a run of plain output events. */
  function Texts(events: seq<Event>): string
    requires forall i :: 0 <= i < |events| ==> events[i].Echo?
  {
    if events == [] then "" else events[0].text + Texts(events[1..])
  }

  /** Plain output events append their text, in order, to the innermost buffer. */
  lemma {:induction false} RunEchoes(env: Env, fuel: nat, st: State, events: seq<Event>, frames: nat)
    requires frames >= 1 && Buffered(st, frames)
    requires forall i :: 0 <= i < |events| ==> events[i].Echo?
    ensures RunF(env, fuel, st, events, frames) == Ran(None, EchoF(st, Texts(events)))
    decreases |events|
  {
    if events == [] {
      var n := |st.buffers|;
      assert st.buffers[n - 1] + "" == st.buffers[n - 1];
      assert EchoF(st, "").buffers == st.buffers;
    } else {
      var head, rest := events[0].text, events[1..];
      var st1 := EchoF(st, head);
      assert RunF(env, fuel, st, events, frames) == RunF(env, fuel, st1, rest, frames);
      RunEchoes(env, fuel, st1, rest, frames);
      EchoTwice(st, head, Texts(rest));
    }
  }

  /** Echoing twice is echoing the concatenation. */
  lemma EchoTwice(st: State, a: string, b: string)
    requires |st.buffers| > 0
    ensures EchoF(EchoF(st, a), b) == EchoF(st, a + b)
  {
    var n := |st.buffers|;
    AppendAssoc(st.buffers[n - 1], a, b);
    assert EchoF(EchoF(st, a), b).buffers == EchoF(st, a + b).buffers;
  }

  /**
   * A template whose code only produces output renders to that output,
   * wrapped in the root layout exactly when the render is top-level and a
   * root layout is set: an include, or a template outlet, is a top-level
   * render and so gets the root layout too.
   */
  lemma PlainTemplate(env: Env, fuel: nat, st: State, template: string, data: Scope,
                      outlets: map<string, OutletValue>, nested: bool, frames: nat, compiled: Compiled)
    requires Buffered(st, frames)
    requires TemplatePath(env.templateDir, template) in st.files
    requires CompileF(env, st.files, TemplatePath(env.templateDir, template)) == Ok(compiled)
    requires forall i :: 0 <= i < |env.execute(compiled.code, RenderScope(env.globals, data))| ==>
      env.execute(compiled.code, RenderScope(env.globals, data))[i].Echo?
    ensures !RootApplies(env, nested) ==>
      RenderF(env, fuel, st, template, data, outlets, nested, frames).result ==
      Ok(Texts(env.execute(compiled.code, RenderScope(env.globals, data))))
    ensures RootApplies(env, nested) && fuel > 0 ==>
      var text := Texts(env.execute(compiled.code, RenderScope(env.globals, data)));
      var wrapped := outlets["default" := TextOutlet(text)];
      RenderF(env, fuel, st, template, data, outlets, nested, frames) ==
      RenderF(env, fuel - 1, ResetF(st, wrapped).(files := compiled.files), env.rootLayout.value, data, wrapped, true, frames)
  {
    var path := TemplatePath(env.templateDir, template);
    var finished := ResetF(st, outlets).(files := compiled.files);
    var text := Texts(env.execute(compiled.code, RenderScope(env.globals, data)));
    PlainCapture(env, fuel, finished, compiled.code, data, frames);
    assert RenderF(env, fuel, st, template, data, outlets, nested, frames) ==
      ExecuteF(env, fuel, ResetF(st, outlets), path, data, nested, frames);
    RootWrapping(env, fuel, finished, text, data, nested, frames);
  }

  /** Running code that only produces output captures exactly that output and changes nothing else. */
  lemma PlainCapture(env: Env, fuel: nat, st: State, code: string, data: Scope, frames: nat)
    requires Buffered(st, frames)
    requires forall i :: 0 <= i < |env.execute(code, RenderScope(env.globals, data))| ==>
      env.execute(code, RenderScope(env.globals, data))[i].Echo?
    ensures CaptureF(env, fuel, st, code, data, frames) ==
      Captured(None, Texts(env.execute(code, RenderScope(env.globals, data))), st)
  {
    var events := env.execute(code, RenderScope(env.globals, data));
    var started := st.(buffers := st.buffers + [""]);
    RunEchoes(env, fuel, started, events, frames + 1);
    var ran := EchoF(started, Texts(events));
    assert started.buffers[|started.buffers| - 1] + Texts(events) == Texts(events);
    assert ran.buffers[..|ran.buffers| - 1] == st.buffers;
  }

  /**
   * `renderOutlet` precedence: a captured slot hides any outlet of the same
   * name; a string outlet is returned verbatim; a template outlet is a
   * top-level render with the outlet's data over the caller's; anything
   * else gives ''.
   */
  lemma OutletPrecedence(env: Env, fuel: nat, st: State, name: string, vars: Scope, frames: nat,
                         others: map<string, OutletValue>)
    requires Buffered(st, frames)
    ensures name in st.slots ==>
      OutletF(env, fuel, st, name, vars, frames) == Rendered(Ok(st.slots[name]), st) &&
      OutletF(env, fuel, st.(outlets := others), name, vars, frames).result == Ok(st.slots[name])
    ensures name !in st.slots && name in st.outlets && st.outlets[name].TextOutlet? ==>
      OutletF(env, fuel, st, name, vars, frames) == Rendered(Ok(st.outlets[name].text), st)
    ensures name !in st.slots && name in st.outlets && st.outlets[name].TemplateOutlet? && fuel > 0 ==>
      OutletF(env, fuel, st, name, vars, frames) ==
      RenderF(env, fuel - 1, st, st.outlets[name].template, vars + st.outlets[name].data, map[], false, frames)
    ensures name !in st.slots && (name !in st.outlets || st.outlets[name].OtherOutlet?) ==>
      OutletF(env, fuel, st, name, vars, frames) == Rendered(Ok(""), st)
  {
  }

  /** A slot with a truthy name captures exactly the output between `startSlot` and `endSlot`. */
  lemma SlotCaptures(env: Env, fuel: nat, st: State, name: string, text: string, frames: nat)
    requires frames >= 1 && Buffered(st, frames) && !Falsy(name)
    ensures RunF(env, fuel, st, [CallStartSlot(name), Echo(text), CallEndSlot], frames) ==
      Ran(None, st.(slots := st.slots[name := text], currentSlot := ""))
  {
    var events := [CallStartSlot(name), Echo(text), CallEndSlot];
    var s1 := StartSlotF(st, name);
    var s2 := EchoF(s1, text);
    assert s1.buffers[|s1.buffers| - 1] + text == text;
    assert s2.buffers[..|s2.buffers| - 1] == st.buffers;
    var s3 := EndSlotF(s2);
    assert s3 == st.(slots := st.slots[name := text], currentSlot := "");
    assert events[1..] == [Echo(text), CallEndSlot] && events[1..][1..] == [CallEndSlot];
    assert RunF(env, fuel, s2, [CallEndSlot], frames) == RunF(env, fuel, s3, [], frames);
    assert RunF(env, fuel, s1, [Echo(text), CallEndSlot], frames) == RunF(env, fuel, s2, [CallEndSlot], frames);
    assert RunF(env, fuel, st, events, frames) == RunF(env, fuel, s1, [Echo(text), CallEndSlot], frames);
  }

  /**
   * A slot named '0' is never closed: `endSlot` sees a falsy name and does
   * nothing, so the captured output stays in an open buffer and no slot is
   * stored.
   */
  lemma ZeroSlotNeverEnds(env: Env, fuel: nat, st: State, text: string, frames: nat)
    requires frames >= 1 && Buffered(st, frames)
    ensures RunF(env, fuel, st, [CallStartSlot("0"), Echo(text), CallEndSlot], frames) ==
      Ran(None, st.(currentSlot := "0", buffers := st.buffers + [text]))
  {
    var events := [CallStartSlot("0"), Echo(text), CallEndSlot];
    var s1 := StartSlotF(st, "0");
    var s2 := EchoF(s1, text);
    assert s1.buffers[|s1.buffers| - 1] + text == text;
    assert s2.buffers == st.buffers + [text];
    assert events[1..] == [Echo(text), CallEndSlot] && events[1..][1..] == [CallEndSlot];
    assert RunF(env, fuel, s2, [CallEndSlot], frames) == RunF(env, fuel, s2, [], frames);
    assert RunF(env, fuel, s1, [Echo(text), CallEndSlot], frames) == RunF(env, fuel, s2, [CallEndSlot], frames);
    assert RunF(env, fuel, st, events, frames) == RunF(env, fuel, s1, [Echo(text), CallEndSlot], frames);
  }

  /** Slots are never cleared: a slot captured by one render is still there after any later render. */
  lemma SlotsLeak(env: Env, fuel: nat, st: State, template: string, data: Scope,
                  outlets: map<string, OutletValue>, nested: bool, frames: nat, name: string)
    requires Buffered(st, frames) && name in st.slots
    ensures name in RenderF(env, fuel, st, template, data, outlets, nested, frames).st.slots
  {
  }

  /** The template scope: the caller's data over the globals, and `$__quark` always the engine. */
  lemma ScopeOverlay(globals: Scope, data: Scope, k: string)
    ensures RenderScope(globals, data)["__quark"] == Obj(None)
    ensures k != "__quark" && k in data ==> RenderScope(globals, data)[k] == data[k]
    ensures k != "__quark" && k !in data && k in globals ==> RenderScope(globals, data)[k] == globals[k]
    ensures k in RenderScope(globals, data) <==> k == "__quark" || k in data || k in globals
  {
  }

  /**
   * The cache: a fresh cache file is used as it is, so a template compiled
   * under an older directive table keeps running that code; otherwise the
   * template is compiled and the result written to the cache path.
   */
  lemma CacheReuse(env: Env, files: map<string, File>, path: string, directives: seq<(string, DirectiveCompiler)>)
    requires path in files
    ensures CacheFresh(env, files, path) ==>
      CompileF(env, files, path) == Ok(Compiled(files[CachePath(env, path)].content, files)) &&
      CompileF(env.(directives := directives), files, path) == CompileF(env, files, path)
    ensures !CacheFresh(env, files, path) && CompileSpec(env.directives, files[path].content).Ok? ==>
      var php := CompileSpec(env.directives, files[path].content).value;
      CompileF(env, files, path) == Ok(Compiled(php, files[CachePath(env, path) := File(php, env.now)]))
    ensures CacheFresh(env, files, path) <==>
      !env.debug && CachePath(env, path) in files && files[CachePath(env, path)].mtime >= files[path].mtime
  {
  }

  /** Every file but `key` of `before` is in `after`, unchanged. */
  ghost predicate AgreeOutside(before: map<string, File>, after: map<string, File>, key: string) {
    forall f :: f in before && f != key ==> f in after && after[f] == before[f]
  }

  /**
   * Compiling fails only when the cache is stale and the template does not
   * compile; otherwise the cache file exists afterwards, holds the code
   * returned, and is the only file added or changed.
   */
  lemma CompileWritesCache(env: Env, files: map<string, File>, path: string)
    requires path in files
    ensures CompileF(env, files, path).Err? <==>
      !CacheFresh(env, files, path) && CompileSpec(env.directives, files[path].content).Err?
    ensures var r := CompileF(env, files, path);
      r.Ok? ==> (r.value.files.Keys == files.Keys + {CachePath(env, path)} &&
                 r.value.files[CachePath(env, path)].content == r.value.code &&
                 AgreeOutside(files, r.value.files, CachePath(env, path)))
  {
  }

  /** With debug on, every render recompiles. */
  lemma DebugRecompiles(env: Env, files: map<string, File>, path: string)
    requires path in files && env.debug
    ensures !CacheFresh(env, files, path)
    ensures CompileF(env, files, path).Ok? ==>
      CompileF(env, files, path).value.code == CompileSpec(env.directives, files[path].content).value
  {
  }

  /** The template name's dots become directory separators and the path never has a doubled leading slash. */
  lemma TemplatePathShape(templateDir: string, template: string)
    ensures exists middle :: (TemplatePath(templateDir, template) == templateDir + "/" + middle + ".quark.html" &&
      '.' !in middle && (middle == [] || middle[0] != '/'))
  {
    var middle := TrimLeft(ReplaceChar(template, '.', "/"), {'/'});
    assert '.' !in ReplaceChar(template, '.', "/");
    assert '.' !in middle;
  }

  // ---------------------------------------------------------------------
  // The engine object
  // ---------------------------------------------------------------------

  /** `ob_start()`, the code, `ob_get_clean()`, one outcome at a time. */
  lemma CaptureSteps(env: Env, fuel: nat, st: State, code: string, data: Scope, frames: nat,
                     started: State, events: seq<Event>, ran: Ran)
    requires Buffered(st, frames)
    requires started == st.(buffers := st.buffers + [""]) && events == env.execute(code, RenderScope(env.globals, data))
    requires ran == RunF(env, fuel, started, events, frames + 1)
    ensures var n := |ran.st.buffers|;
      CaptureF(env, fuel, st, code, data, frames) ==
      if ran.failure.Some? then Captured(ran.failure, "", ran.st)
      else Captured(None, ran.st.buffers[n - 1], ran.st.(buffers := ran.st.buffers[..n - 1]))
  {
  }

  /** With a layout pending and fuel left, finishing is the last layout popped and rendered. */
  lemma FinishPops(env: Env, fuel: nat, st: State, content: string, data: Scope, nested: bool, frames: nat,
                   popped: State)
    requires Buffered(st, frames) && |st.layouts| > 0 && fuel > 0
    requires popped == st.(layouts := st.layouts[..|st.layouts| - 1])
    ensures FinishF(env, fuel, st, content, data, nested, frames) ==
      LayoutF(env, fuel - 1, popped, st.layouts[|st.layouts| - 1], content, data, nested, frames)
  {
  }

  /** The layout's nested render, then the root layout around it when that applies. */
  lemma LayoutSteps(env: Env, fuel: nat, st: State, layout: string, content: string, data: Scope, nested: bool,
                    frames: nat, child: State, inner: Rendered)
    requires Buffered(st, frames)
    requires child == st.(outlets := st.outlets["default" := TextOutlet(content)])
    requires inner == RenderF(env, fuel, child, layout, data, child.outlets, true, frames)
    ensures LayoutF(env, fuel, st, layout, content, data, nested, frames) ==
      if inner.result.Ok? && RootApplies(env, nested) && !inner.st.skipRoot then
        WrapRootF(env, fuel, inner.st, inner.result.value, data, frames)
      else inner
  {
  }

  /** An outlet holding a template renders that template, given fuel. */
  lemma OutletTemplate(env: Env, fuel: nat, st: State, name: string, vars: Scope, frames: nat)
    requires Buffered(st, frames) && name !in st.slots && name in st.outlets && st.outlets[name].TemplateOutlet?
    ensures var o := st.outlets[name];
      OutletF(env, fuel, st, name, vars, frames) ==
      if fuel == 0 then Rendered(Err(FuelExhausted), st)
      else RenderF(env, fuel - 1, st, o.template, vars + o.data, map[], false, frames)
  {
  }

  /** A run of events from position `i` on: the event at `i`, then the rest unless it failed. */
  lemma RunFrom(env: Env, fuel: nat, st: State, events: seq<Event>, i: nat, frames: nat)
    requires frames >= 1 && Buffered(st, frames) && i < |events|
    ensures var step := StepF(env, fuel, st, events[i], frames);
      RunF(env, fuel, st, events[i..], frames) ==
      (if step.failure.Some? then step else RunF(env, fuel, step.st, events[i + 1..], frames))
  {
    assert events[i..][0] == events[i] && events[i..][1..] == events[i + 1..];
  }

  /**
   * `QuarkEngine`. Besides the engine's own fields it holds the two pieces
   * of process state a render works on: PHP's stack of output buffers and
   * the file system (template files and the compile cache). Each method is
   * proved against the function above that specifies it.
   */
  class Engine {
    const templateDir: string
    const cacheDir: string
    const debug: bool
    const compiler: Compiler
    /** Runs compiled PHP; see the module comment. */
    const execute: (string, Scope) -> seq<Event>
    /** `md5`. */
    const cacheKey: string -> string

    var rootLayout: Option<string>
    var skipRoot: bool
    var globals: Scope
    var filters: seq<(string, Filter)>
    var layouts: seq<string>
    var outlets: map<string, OutletValue>
    var slots: map<string, string>
    var currentSlot: string
    var buffers: seq<string>
    var files: map<string, File>

    /** The fields a render works on. */
    function Snapshot(): State
      reads this
    {
      State(skipRoot, layouts, outlets, slots, currentSlot, buffers, files)
    }

    /** `env` is what a render started at time `now` runs under. */
    ghost predicate Runs(env: Env, now: int)
      reads this`rootLayout, this`globals, compiler`directives
    {
      env.templateDir == templateDir && env.cacheDir == cacheDir && env.debug == debug &&
      env.rootLayout == rootLayout && env.globals == globals && env.directives == compiler.directives &&
      env.execute == execute && env.cacheKey == cacheKey && env.now == now
    }

    /**
     * `new QuarkEngine($templateDir, $cacheDir, $debug)`: trailing slashes
     * trimmed from the template directory, a fresh compiler with the
     * built-in directives, the built-in filters and otherwise empty fields.
     */
    constructor (templateDir: string, cacheDir: string, debug: bool,
                 execute: (string, Scope) -> seq<Event>, cacheKey: string -> string,
                 json: Value -> Option<string>, printR: Value -> string, date: Filter, files: map<string, File>)
      ensures this.templateDir == TrimRight(templateDir, {'/'}) && this.cacheDir == cacheDir && this.debug == debug
      ensures this.execute == execute && this.cacheKey == cacheKey
      ensures fresh(compiler) && compiler.debug == debug && compiler.directives == BuiltinDirectives()
      ensures rootLayout == None && globals == map[] && filters == BuiltinFilters(json, printR, date)
      ensures Snapshot() == State(false, [], map[], map[], "", [], files)
    {
      this.templateDir := TrimRight(templateDir, {'/'});
      this.cacheDir := cacheDir;
      this.debug := debug;
      this.execute := execute;
      this.cacheKey := cacheKey;
      compiler := new Compiler(debug);
      rootLayout := None;
      skipRoot := false;
      globals := map[];
      filters := BuiltinFilters(json, printR, date);
      layouts := [];
      outlets := map[];
      slots := map[];
      currentSlot := "";
      buffers := [];
      this.files := files;
    }

    /** `setRootLayout`. */
    method SetRootLayout(layout: string)
      modifies this`rootLayout
      ensures rootLayout == Some(layout)
    {
      rootLayout := Some(layout);
    }

    /** `skipRootLayout`: only the flag changes; the next `render` clears it again. */
    method SkipRootLayout()
      modifies this`skipRoot
      ensures Snapshot() == old(Snapshot()).(skipRoot := true)
    {
      skipRoot := true;
    }

    /** `setLayout`. */
    method SetLayout(layout: string)
      modifies this`layouts
      ensures Snapshot() == SetLayoutF(old(Snapshot()), layout)
    {
      layouts := layouts + [layout];
    }

    /** `startSlot`. */
    method StartSlot(name: string)
      modifies this`currentSlot, this`buffers
      ensures Snapshot() == StartSlotF(old(Snapshot()), name)
    {
      currentSlot := name;
      buffers := buffers + [""];
    }

    /** `endSlot`. */
    method EndSlot()
      requires Buffered(Snapshot(), 0)
      modifies this`slots, this`currentSlot, this`buffers
      ensures Snapshot() == EndSlotF(old(Snapshot()))
    {
      if !Falsy(currentSlot) {
        var n := |buffers|;
        slots := slots[currentSlot := buffers[n - 1]];
        currentSlot := "";
        buffers := buffers[..n - 1];
      }
    }

    /** `getSlot($name, $default)`: the captured content, or the default when the slot was never captured. */
    function GetSlot(name: string, default: string): (r: string)
      reads this
      ensures name in slots ==> r == slots[name]
      ensures name !in slots ==> r == default
    {
      if name in slots then slots[name] else default
    }

    /** `addFilter`: a filter of the same name is replaced. */
    method AddFilter(name: string, filter: Filter)
      modifies this`filters
      ensures filters == Put(old(filters), name, filter)
    {
      filters := Put(filters, name, filter);
    }

    /** `addGlobal`. */
    method AddGlobal(name: string, value: Value)
      modifies this`globals
      ensures globals == old(globals)[name := value]
    {
      globals := globals[name := value];
    }

    /** Output from the running template goes to the innermost buffer. */
    method Echo(text: string)
      requires |buffers| > 0
      modifies this`buffers
      ensures Snapshot() == EchoF(old(Snapshot()), text)
    {
      var n := |buffers|;
      buffers := buffers[..n - 1] + [buffers[n - 1] + text];
    }

    /** The template echoes what a call returned, or the call's exception propagates. */
    method EchoReturned(r: Result<string, string>) returns (failure: Option<string>)
      requires r.Ok? ==> |buffers| > 0
      modifies this`buffers
      ensures Ran(failure, Snapshot()) == EchoResult(Rendered(r, old(Snapshot())))
    {
      if r.Err? {
        failure := Some(r.error);
      } else {
        failure := None;
        Echo(r.value);
      }
    }

    /** `compile`: the code of the cached PHP file, compiled anew and written first unless the cache is fresh. */
    method Compile(path: string, now: int, ghost env: Env) returns (r: Result<string, string>)
      requires path in files && Runs(env, now)
      modifies this`files
      ensures match CompileF(env, old(files), path)
        case Ok(c) => r == Ok(c.code) && files == c.files
        case Err(e) => r == Err(e) && files == old(files)
    {
      var cache := cacheDir + "/" + cacheKey(path) + ".php";
      if !debug && cache in files && files[cache].mtime >= files[path].mtime {
        r := Ok(files[cache].content);
        return;
      }
      var php := compiler.Compile(files[path].content);
      if php.Err? {
        r := Err(php.error);
        return;
      }
      files := files[cache := File(php.value, now)];
      r := Ok(php.value);
    }

    /** `render($template, $data, $outlets, $isNested)`. */
    method Render(template: string, data: Scope, outlets: map<string, OutletValue>, nested: bool,
                  fuel: nat, now: int, ghost frames: nat, ghost env: Env) returns (r: Result<string, string>)
      requires Buffered(Snapshot(), frames) && Runs(env, now)
      modifies this`skipRoot, this`layouts, this`outlets, this`slots, this`currentSlot, this`buffers, this`files
      ensures Rendered(r, Snapshot()) == RenderF(env, fuel, old(Snapshot()), template, data, outlets, nested, frames)
      decreases fuel, 6, 0
    {
      ghost var st0 := Snapshot();
      var path := TemplatePath(templateDir, template);
      if path !in files {
        r := Err("Template '" + template + "' not found");
        return;
      }
      skipRoot := false;
      layouts := [];
      this.outlets := outlets;
      currentSlot := "";
      assert Snapshot() == ResetF(st0, outlets);
      r := Execute(path, data, nested, fuel, now, frames, env);
    }

    method Execute(path: string, data: Scope, nested: bool, fuel: nat, now: int, ghost frames: nat, ghost env: Env)
      returns (r: Result<string, string>)
      requires path in files && Buffered(Snapshot(), frames) && Runs(env, now)
      modifies this`skipRoot, this`layouts, this`outlets, this`slots, this`currentSlot, this`buffers, this`files
      ensures Rendered(r, Snapshot()) == ExecuteF(env, fuel, old(Snapshot()), path, data, nested, frames)
      decreases fuel, 5, 0
    {
      var compiled := Compile(path, now, env);
      if compiled.Err? {
        r := Err(compiled.error);
        return;
      }
      var failure, content := Capture(compiled.value, data, fuel, now, frames, env);
      if failure.Some? {
        r := Err(failure.value);
        return;
      }
      r := Finish(content, data, nested, fuel, now, frames, env);
    }

    /** `ob_start()`, the template's code, `ob_get_clean()`. */
    method Capture(code: string, data: Scope, fuel: nat, now: int, ghost frames: nat, ghost env: Env)
      returns (failure: Option<string>, content: string)
      requires Buffered(Snapshot(), frames) && Runs(env, now)
      modifies this`skipRoot, this`layouts, this`outlets, this`slots, this`currentSlot, this`buffers, this`files
      ensures Captured(failure, content, Snapshot()) == CaptureF(env, fuel, old(Snapshot()), code, data, frames)
      decreases fuel, 4, 0
    {
      ghost var st0 := Snapshot();
      ghost var started := st0.(buffers := st0.buffers + [""]);
      buffers := buffers + [""];
      var events := execute(code, RenderScope(globals, data));
      failure := RunEvents(events, fuel, now, frames + 1, env);
      ghost var ran := Ran(failure, Snapshot());
      CaptureSteps(env, fuel, st0, code, data, frames, started, events, ran);
      content := "";
      if failure.None? {
        var n := |buffers|;
        content := buffers[n - 1];
        buffers := buffers[..n - 1];
      }
    }

    method Finish(content: string, data: Scope, nested: bool, fuel: nat, now: int, ghost frames: nat, ghost env: Env)
      returns (r: Result<string, string>)
      requires Buffered(Snapshot(), frames) && Runs(env, now)
      modifies this`skipRoot, this`layouts, this`outlets, this`slots, this`currentSlot, this`buffers, this`files
      ensures Rendered(r, Snapshot()) == FinishF(env, fuel, old(Snapshot()), content, data, nested, frames)
      decreases fuel, 3, 0
    {
      if |layouts| > 0 {
        r := FinishPop(content, data, nested, fuel, now, frames, env);
      } else {
        r := FinishBare(content, data, nested, fuel, now, frames, env);
      }
    }

    /** A layout pending: pop the last one and render it around the content. */
    method FinishPop(content: string, data: Scope, nested: bool, fuel: nat, now: int, ghost frames: nat, ghost env: Env)
      returns (r: Result<string, string>)
      requires |layouts| > 0 && Buffered(Snapshot(), frames) && Runs(env, now)
      modifies this`skipRoot, this`layouts, this`outlets, this`slots, this`currentSlot, this`buffers, this`files
      ensures Rendered(r, Snapshot()) == FinishF(env, fuel, old(Snapshot()), content, data, nested, frames)
      decreases fuel, 2, 1
    {
      if fuel == 0 {
        r := Err(FuelExhausted);
        return;
      }
      ghost var st0 := Snapshot();
      var n := |layouts|;
      var layout := layouts[n - 1];
      ghost var popped := st0.(layouts := st0.layouts[..n - 1]);
      FinishPops(env, fuel, st0, content, data, nested, frames, popped);
      layouts := layouts[..n - 1];
      assert Snapshot() == popped;
      r := FinishLayout(layout, content, data, nested, fuel - 1, now, frames, env);
    }

    /** No layout pending: the root layout around the content when it applies, else the content itself. */
    method FinishBare(content: string, data: Scope, nested: bool, fuel: nat, now: int, ghost frames: nat, ghost env: Env)
      returns (r: Result<string, string>)
      requires |layouts| == 0 && Buffered(Snapshot(), frames) && Runs(env, now)
      modifies this`skipRoot, this`layouts, this`outlets, this`slots, this`currentSlot, this`buffers, this`files
      ensures Rendered(r, Snapshot()) == FinishF(env, fuel, old(Snapshot()), content, data, nested, frames)
      decreases fuel, 2, 0
    {
      if rootLayout.Some? && !Falsy(rootLayout.value) && !nested && !skipRoot {
        if fuel == 0 {
          r := Err(FuelExhausted);
          return;
        }
        r := WrapRoot(content, data, fuel - 1, now, frames, env);
      } else {
        r := Ok(content);
      }
    }

    method FinishLayout(layout: string, content: string, data: Scope, nested: bool, fuel: nat, now: int,
                        ghost frames: nat, ghost env: Env) returns (r: Result<string, string>)
      requires Buffered(Snapshot(), frames) && Runs(env, now)
      modifies this`skipRoot, this`layouts, this`outlets, this`slots, this`currentSlot, this`buffers, this`files
      ensures Rendered(r, Snapshot()) == LayoutF(env, fuel, old(Snapshot()), layout, content, data, nested, frames)
      decreases fuel, 8, 0
    {
      ghost var st0 := Snapshot();
      var defaulted := outlets["default" := TextOutlet(content)];
      ghost var child := st0.(outlets := defaulted);
      outlets := defaulted;
      assert Snapshot() == child;
      r := Render(layout, data, defaulted, true, fuel, now, frames, env);
      ghost var inner := Rendered(r, Snapshot());
      LayoutSteps(env, fuel, st0, layout, content, data, nested, frames, child, inner);
      r := WrapLayout(r, data, nested, fuel, now, frames, env, inner);
    }

    /** After a layout's nested render: the root layout around its output, when that applies. */
    method WrapLayout(inner: Result<string, string>, data: Scope, nested: bool, fuel: nat, now: int,
                      ghost frames: nat, ghost env: Env, ghost before: Rendered) returns (r: Result<string, string>)
      requires Buffered(Snapshot(), frames) && Runs(env, now) && before == Rendered(inner, Snapshot())
      modifies this`skipRoot, this`layouts, this`outlets, this`slots, this`currentSlot, this`buffers, this`files
      ensures Rendered(r, Snapshot()) ==
        if before.result.Ok? && RootApplies(env, nested) && !before.st.skipRoot then
          WrapRootF(env, fuel, before.st, before.result.value, data, frames)
        else before
      decreases fuel, 7, 1
    {
      r := inner;
      if inner.Ok? && rootLayout.Some? && !Falsy(rootLayout.value) && !nested && !skipRoot {
        r := WrapRoot(inner.value, data, fuel, now, frames, env);
      }
    }

    method WrapRoot(content: string, data: Scope, fuel: nat, now: int, ghost frames: nat, ghost env: Env)
      returns (r: Result<string, string>)
      requires rootLayout.Some? && Buffered(Snapshot(), frames) && Runs(env, now)
      modifies this`skipRoot, this`layouts, this`outlets, this`slots, this`currentSlot, this`buffers, this`files
      ensures Rendered(r, Snapshot()) == WrapRootF(env, fuel, old(Snapshot()), content, data, frames)
      decreases fuel, 7, 0
    {
      outlets := outlets["default" := TextOutlet(content)];
      r := Render(rootLayout.value, data, outlets, true, fuel, now, frames, env);
    }

    /** Runs the template's events in order, stopping at the first that fails. */
    method RunEvents(events: seq<Event>, fuel: nat, now: int, ghost frames: nat, ghost env: Env)
      returns (failure: Option<string>)
      requires frames >= 1 && Buffered(Snapshot(), frames) && Runs(env, now)
      modifies this`skipRoot, this`layouts, this`outlets, this`slots, this`currentSlot, this`buffers, this`files
      ensures Ran(failure, Snapshot()) == RunF(env, fuel, old(Snapshot()), events, frames)
      decreases fuel, 2, 0
    {
      failure := None;
      var i := 0;
      while i < |events|
        invariant 0 <= i <= |events| && Buffered(Snapshot(), frames)
        invariant RunF(env, fuel, old(Snapshot()), events, frames) == RunF(env, fuel, Snapshot(), events[i..], frames)
        invariant failure == None
      {
        RunFrom(env, fuel, Snapshot(), events, i, frames);
        failure := Step(events[i], fuel, now, frames, env);
        if failure.Some? {
          return;
        }
        i := i + 1;
      }
      assert events[i..] == [];
    }

    /** One event of the running template. */
    method Step(e: Event, fuel: nat, now: int, ghost frames: nat, ghost env: Env) returns (failure: Option<string>)
      requires frames >= 1 && Buffered(Snapshot(), frames) && Runs(env, now)
      modifies this`skipRoot, this`layouts, this`outlets, this`slots, this`currentSlot, this`buffers, this`files
      ensures Ran(failure, Snapshot()) == StepF(env, fuel, old(Snapshot()), e, frames)
      decreases fuel, 1, 0
    {
      failure := None;
      match e {
        case Echo(text) =>
          Echo(text);
        case CallSetLayout(layout) =>
          SetLayout(layout);
        case CallSkipRoot =>
          SkipRootLayout();
        case CallRenderOutlet(name, vars) =>
          var r := RenderOutlet(name, vars, fuel, now, frames, env);
          failure := EchoReturned(r);
        case CallStartSlot(name) =>
          StartSlot(name);
        case CallEndSlot =>
          EndSlot();
        case CallRender(template, vars) =>
          if fuel == 0 {
            failure := Some(FuelExhausted);
          } else {
            var r := Render(template, vars, map[], false, fuel - 1, now, frames, env);
            failure := EchoReturned(r);
          }
        case Throw(message) =>
          failure := Some(message);
      }
    }

    /** `renderOutlet($name, $data)`. */
    method RenderOutlet(name: string, vars: Scope, fuel: nat, now: int, ghost frames: nat, ghost env: Env)
      returns (r: Result<string, string>)
      requires Buffered(Snapshot(), frames) && Runs(env, now)
      modifies this`skipRoot, this`layouts, this`outlets, this`slots, this`currentSlot, this`buffers, this`files
      ensures Rendered(r, Snapshot()) == OutletF(env, fuel, old(Snapshot()), name, vars, frames)
      decreases fuel, 0, 1
    {
      if name in slots {
        r := Ok(slots[name]);
      } else if name !in outlets {
        r := Ok("");
      } else {
        match outlets[name] {
          case TextOutlet(text) =>
            r := Ok(text);
          case TemplateOutlet(_, _) =>
            r := RenderOutletTemplate(name, vars, fuel, now, frames, env);
          case MalformedOutlet =>
            r := Err(MalformedOutletError);
          case OtherOutlet =>
            r := Ok("");
        }
      }
    }

    /** An outlet holding a template and its data: that template rendered, not nested, with no outlets. */
    method RenderOutletTemplate(name: string, vars: Scope, fuel: nat, now: int, ghost frames: nat, ghost env: Env)
      returns (r: Result<string, string>)
      requires name !in slots && name in outlets && outlets[name].TemplateOutlet?
      requires Buffered(Snapshot(), frames) && Runs(env, now)
      modifies this`skipRoot, this`layouts, this`outlets, this`slots, this`currentSlot, this`buffers, this`files
      ensures Rendered(r, Snapshot()) == OutletF(env, fuel, old(Snapshot()), name, vars, frames)
      decreases fuel, 0, 0
    {
      var template := outlets[name].template;
      var data := outlets[name].data;
      OutletTemplate(env, fuel, Snapshot(), name, vars, frames);
      if fuel == 0 {
        r := Err(FuelExhausted);
      } else {
        r := Render(template, vars + data, map[], false, fuel - 1, now, frames, env);
      }
    }
  }
}
