/**
 * The closure `render` runs a compiled template in, as the engine's code
 * writes it, beside the behaviour the rest of the model gives it.
 *
 * `render` hands the closure two arguments, the render data and the path
 * of the compiled file, under the parameter names `__data` and
 * `__template`. The closure first extracts the render data into local
 * variables, which overwrites a parameter whenever the data has an entry of
 * the same name, and then includes the file `__template` names. A compiled
 * include passes `get_defined_vars()` (with its own data over it) to the
 * nested `render`, and a compiled outlet passes `get_defined_vars()` to
 * `renderOutlet`, which puts it under the outlet's data; either way the
 * nested render data carries the caller's `__template`, so the nested
 * closure opens the caller's compiled file again.
 *
 * `QuarkEngine.CaptureF` runs the code compiled for the named template in
 * the scope of the render data alone, which is what an include is meant to
 * do; `IncludeRendersIncluded` proves it of that model.
 */
module QuarkClosure {
  import opened Php
  import opened QuarkFilters
  import opened QuarkEngine

  /**
   * The closure's variables once the render data is extracted: the data's
   * entries, and `__template` bound to the compiled file unless the data
   * overwrote it.
   */
  function ClosureVars(renderData: Scope, compiled: string): (vars: Scope)
    ensures "__template" in vars
    ensures "__template" !in renderData ==> vars["__template"] == Str(compiled)
  {
    map["__template" := Str(compiled)] + renderData
  }

  /**
   * As written: the file the closure includes, which is the compiled file
   * `render` passed exactly when the render data does not bind
   * `__template` to something else.
   */
  function IncludedFileAsWritten(renderData: Scope, compiled: string): (r: Value)
    ensures r == Str(compiled) <==>
      ("__template" !in renderData || renderData["__template"] == Str(compiled))
    ensures "__template" in renderData ==> r == renderData["__template"]
  {
    ClosureVars(renderData, compiled)["__template"]
  }

  /** The data an include passes to `render`: the caller's variables with the include's data over them. */
  function IncludeData(vars: Scope, extra: Scope): Scope {
    vars + extra
  }

  /**
   * An include, or a template outlet, re-enters its caller: the nested
   * closure opens whatever file the caller's closure opened, whichever
   * template the nested render was asked for.
   */
  lemma IncludeReentersCaller(globals: Scope, callerData: Scope, callerCompiled: string, extra: Scope,
                              compiled: string)
    requires "__template" !in extra
    ensures IncludedFileAsWritten(RenderScope(globals, IncludeData(ClosureVars(callerData, callerCompiled), extra)),
                                  compiled) ==
      IncludedFileAsWritten(callerData, callerCompiled)
  {
    TemplateCarried(globals, ClosureVars(callerData, callerCompiled), extra);
  }

  /**
   * The render data at depth `n` when a page's code includes a part: the
   * page's render data at depth 0, then each level's variables with the
   * include's data over them. Level 0 is compiled to `pageCompiled`, every
   * deeper level to `partCompiled`.
   */
  function LevelData(globals: Scope, data: Scope, pageCompiled: string, partCompiled: string, extra: Scope,
                     n: nat): (r: Scope)
    ensures "__quark" in r
    decreases n
  {
    if n == 0 then RenderScope(globals, data)
    else
      var compiled := if n == 1 then pageCompiled else partCompiled;
      RenderScope(globals, IncludeData(ClosureVars(LevelData(globals, data, pageCompiled, partCompiled, extra, n - 1),
                                                   compiled), extra))
  }

  /**
   * As written, an include never reaches the included template: from a
   * top-level render whose data does not name `__template`, every level
   * opens the page's compiled file again, so the page issues the same
   * include at every depth and the render never ends.
   */
  lemma {:induction false} IncludesNeverLeavePage(globals: Scope, data: Scope, pageCompiled: string,
                                                  partCompiled: string, extra: Scope, n: nat)
    requires "__template" !in globals && "__template" !in data && "__template" !in extra
    ensures IncludedFileAsWritten(LevelData(globals, data, pageCompiled, partCompiled, extra, n),
                                  if n == 0 then pageCompiled else partCompiled) ==
      Str(pageCompiled)
    decreases n
  {
    if n == 0 {
      assert "__template" !in RenderScope(globals, data);
    } else {
      var below := LevelData(globals, data, pageCompiled, partCompiled, extra, n - 1);
      var compiled := if n == 1 then pageCompiled else partCompiled;
      var vars := ClosureVars(below, compiled);
      IncludesNeverLeavePage(globals, data, pageCompiled, partCompiled, extra, n - 1);
      assert vars["__template"] == Str(pageCompiled);
      TemplateCarried(globals, vars, extra);
    }
  }

  /** An include's data, under the globals and `__quark`, keeps the caller's `__template`. */
  lemma TemplateCarried(globals: Scope, vars: Scope, extra: Scope)
    requires "__template" in vars && "__template" !in extra
    ensures "__template" in RenderScope(globals, IncludeData(vars, extra))
    ensures RenderScope(globals, IncludeData(vars, extra))["__template"] == vars["__template"]
  {
  }

  /**
   * As modelled: a page whose code only includes a part, which only
   * produces output, renders to the part's output when no root layout
   * applies, because the nested render runs the part's compiled code.
   */
  lemma IncludeRendersIncluded(env: Env, fuel: nat, st: State, page: string, part: string, data: Scope,
                               vars: Scope, outlets: map<string, OutletValue>, frames: nat,
                               pageCode: Compiled, partCode: Compiled)
    requires Buffered(st, frames) && fuel > 0 && !RootApplies(env, false)
    requires TemplatePath(env.templateDir, page) in st.files
    requires CompileF(env, st.files, TemplatePath(env.templateDir, page)) == Ok(pageCode)
    requires env.execute(pageCode.code, RenderScope(env.globals, data)) == [CallRender(part, vars)]
    requires TemplatePath(env.templateDir, part) in pageCode.files
    requires CompileF(env, pageCode.files, TemplatePath(env.templateDir, part)) == Ok(partCode)
    requires forall i :: 0 <= i < |env.execute(partCode.code, RenderScope(env.globals, vars))| ==>
      env.execute(partCode.code, RenderScope(env.globals, vars))[i].Echo?
    ensures RenderF(env, fuel, st, page, data, outlets, false, frames).result ==
      Ok(Texts(env.execute(partCode.code, RenderScope(env.globals, vars))))
  {
    var text := Texts(env.execute(partCode.code, RenderScope(env.globals, vars)));
    var reset := ResetF(st, outlets);
    var compiled := reset.(files := pageCode.files);
    var after := IncludeCapture(env, fuel, compiled, part, data, vars, frames, pageCode.code, partCode);
    RootWrapping(env, fuel, after, text, data, false, frames);
    assert RenderF(env, fuel, st, page, data, outlets, false, frames) ==
      ExecuteF(env, fuel, reset, TemplatePath(env.templateDir, page), data, false, frames);
  }

  /** The page's capture: its one include echoes the part's output into the page's buffer. */
  lemma IncludeCapture(env: Env, fuel: nat, st: State, part: string, data: Scope, vars: Scope, frames: nat,
                       code: string, partCode: Compiled)
    returns (after: State)
    requires Buffered(st, frames) && fuel > 0 && !RootApplies(env, false) && st.layouts == []
    requires env.execute(code, RenderScope(env.globals, data)) == [CallRender(part, vars)]
    requires TemplatePath(env.templateDir, part) in st.files
    requires CompileF(env, st.files, TemplatePath(env.templateDir, part)) == Ok(partCode)
    requires forall i :: 0 <= i < |env.execute(partCode.code, RenderScope(env.globals, vars))| ==>
      env.execute(partCode.code, RenderScope(env.globals, vars))[i].Echo?
    ensures Buffered(after, frames) && after.layouts == []
    ensures CaptureF(env, fuel, st, code, data, frames) ==
      Captured(None, Texts(env.execute(partCode.code, RenderScope(env.globals, vars))), after)
  {
    var text := Texts(env.execute(partCode.code, RenderScope(env.globals, vars)));
    var started := st.(buffers := st.buffers + [""]);
    var echoed := IncludeRun(env, fuel, started, part, vars, frames + 1, partCode);
    var ran := RunF(env, fuel, started, [CallRender(part, vars)], frames + 1);
    assert ran == Ran(None, echoed);
    CaptureSteps(env, fuel, st, code, data, frames, started, [CallRender(part, vars)], ran);
    var n := |echoed.buffers|;
    assert n == |started.buffers|;
    assert echoed.buffers[n - 1] == "" + text == text;
    after := echoed.(buffers := echoed.buffers[..n - 1]);
    assert after.buffers == st.buffers;
    assert CaptureF(env, fuel, st, code, data, frames) == Captured(None, text, after);
  }

  /** The include event alone: the part's output echoed into the innermost buffer, which held nothing. */
  lemma IncludeRun(env: Env, fuel: nat, st: State, part: string, vars: Scope, frames: nat, partCode: Compiled)
    returns (echoed: State)
    requires frames >= 1 && Buffered(st, frames) && fuel > 0 && !RootApplies(env, false)
    requires TemplatePath(env.templateDir, part) in st.files
    requires CompileF(env, st.files, TemplatePath(env.templateDir, part)) == Ok(partCode)
    requires forall i :: 0 <= i < |env.execute(partCode.code, RenderScope(env.globals, vars))| ==>
      env.execute(partCode.code, RenderScope(env.globals, vars))[i].Echo?
    ensures echoed == EchoF(ResetF(st, map[]).(files := partCode.files),
                            Texts(env.execute(partCode.code, RenderScope(env.globals, vars))))
    ensures RunF(env, fuel, st, [CallRender(part, vars)], frames) == Ran(None, echoed)
  {
    var text := Texts(env.execute(partCode.code, RenderScope(env.globals, vars)));
    var partDone := NestedPlain(env, fuel - 1, st, part, vars, frames, partCode);
    echoed := EchoF(partDone, text);
    StepInclude(env, fuel, st, part, vars, frames);
    var step := StepF(env, fuel, st, CallRender(part, vars), frames);
    assert step == EchoResult(Rendered(Ok(text), partDone));
    assert step == Ran(None, echoed);
    RunSingle(env, fuel, st, CallRender(part, vars), frames);
  }

  /** With fuel left, an include event echoes the result of a top-level render of its template. */
  lemma StepInclude(env: Env, fuel: nat, st: State, template: string, vars: Scope, frames: nat)
    requires frames >= 1 && Buffered(st, frames) && fuel > 0
    ensures StepF(env, fuel, st, CallRender(template, vars), frames) ==
      EchoResult(RenderF(env, fuel - 1, st, template, vars, map[], false, frames))
  {
  }

  /** A run of one event is that event's step. */
  lemma RunSingle(env: Env, fuel: nat, st: State, e: Event, frames: nat)
    requires frames >= 1 && Buffered(st, frames)
    ensures var step := StepF(env, fuel, st, e, frames);
      RunF(env, fuel, st, [e], frames) == if step.failure.Some? then step else Ran(None, step.st)
  {
    assert [e][1..] == [];
  }

  /** A top-level render of a template whose code only produces output, with no root layout to apply. */
  lemma NestedPlain(env: Env, fuel: nat, st: State, template: string, data: Scope, frames: nat,
                    compiled: Compiled)
    returns (done: State)
    requires Buffered(st, frames) && !RootApplies(env, false)
    requires TemplatePath(env.templateDir, template) in st.files
    requires CompileF(env, st.files, TemplatePath(env.templateDir, template)) == Ok(compiled)
    requires forall i :: 0 <= i < |env.execute(compiled.code, RenderScope(env.globals, data))| ==>
      env.execute(compiled.code, RenderScope(env.globals, data))[i].Echo?
    ensures done == ResetF(st, map[]).(files := compiled.files)
    ensures RenderF(env, fuel, st, template, data, map[], false, frames) ==
      Rendered(Ok(Texts(env.execute(compiled.code, RenderScope(env.globals, data)))), done)
  {
    var text := Texts(env.execute(compiled.code, RenderScope(env.globals, data)));
    var reset := ResetF(st, map[]);
    done := reset.(files := compiled.files);
    PlainCapture(env, fuel, done, compiled.code, data, frames);
    RootWrapping(env, fuel, done, text, data, false, frames);
    assert RenderF(env, fuel, st, template, data, map[], false, frames) ==
      ExecuteF(env, fuel, reset, TemplatePath(env.templateDir, template), data, false, frames);
  }
}
