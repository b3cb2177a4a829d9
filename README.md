# newtron-framework core, modelled in Dafny

This project models the core of the newtron PHP framework and proves properties of the model.
Nothing is executed: every claim below is a verified Dafny contract or lemma.

- **Quark.** The template system.
  - The compiler (`QuarkCompiler`) turns template source into PHP source text. It does this in
    four steps: a regex-driven tokenizer, a directive parser, a variable normaliser, and a
    pipe/filter compiler. It also keeps a name→directive table.
  - The engine (`QuarkEngine`) is a state machine over its fields: the layout stack, outlets,
    slots, the current slot name and the skip-root flag. It also holds the output-buffer stack,
    a compile cache, and `escape` with the built-in filters.
- **Container.** A dependency-injection container.
  - Bindings, singletons and stored instances.
  - Circular-dependency detection through a `resolving` set.
  - Constructor and method argument injection, over class metadata given as data.
- **Config.** Dot-path lookup and in-memory update of nested configuration arrays.
- **Document and AssetManager.** The HTML head: meta, Open Graph, links, scripts and styles,
  and the string builders `implodeAttributes`, `renderHead` and `renderBodyScripts`.
- **Routing.**
  - `RouteDefinition`: pattern normalisation and matching.
  - `RouteCollection`: the first match wins.
  - `AbstractRouter`: registration under group prefixes, and response normalisation.
  - `FileBasedRouter::generateRouteFromFile`: maps a file name to a route pattern.
- **HTTP.** `Response` (status, headers, content, cookies), `Request` (header, parameter and
  address lookups), and the `Status` enum with its reason phrases.
- **MiddlewarePipeline.** `pipe` validation, and `process`, which nests the middleware so that
  the first one piped is the outermost.
- **ServiceProviderRegistry.** Registration that ignores a repeat, and boot in registration
  order.

`php.dfy` (module `Php`) holds the PHP semantics the rest relies on:
- `Result`/`Option`, and PHP truthiness (`''` and `'0'` are falsy);
- `trim`, `strtoupper`/`strtolower`, `explode`/`implode` and `str_replace`;
- PHP's ordered arrays as sequences of (key, value) pairs (`Lookup`, `Put`, `PutAll`).

PHP strings are byte strings, modelled as `seq<char>` with one char per byte. Dafny's `int` is
unbounded, and nothing modelled here depends on PHP's integer width.

## Design choices

- **Running a compiled template.**
  - `include` of the cached file, with `extract` of the scope, is a parameter of the engine:
    `execute(code, scope)` gives the template's events, in order. An event is one of: output,
    `setLayout`, `startSlot`, `endSlot`, `skipRootLayout`, an outlet or include render, or a
    thrown error.
  - The engine's reaction to each event is modelled exactly. This covers the field resets,
    the layout pop, root wrapping, outlet precedence and the `ob_start`/`ob_get_clean` buffer
    stack.
  - One step is modelled as intended rather than as written: which file `render`'s closure
    includes. As written, `extract` lets the render data's `__template` entry replace the
    compiled file, and every include or template outlet hands its caller's `__template` down,
    so the nested render runs the caller's file again. `QuarkEngine.CaptureF` runs the code
    compiled for the named template instead. The as-written closure is in `quark_closure.dfy`,
    and the discrepancy is listed under "## Findings".
  - Renders recurse through a `fuel` parameter. Running out of fuel stands in for PHP running
    out of stack on a cyclic layout graph.
- **Regexes.** Each regex is modelled exactly for the patterns the source uses. This includes
  PCRE's `$` matching before a final newline, and `.` not matching a newline without `/s`.
- **Route matching.** `#^pattern$#` is interpreted through a parameter `pcre`. Lemmas pin it
  down, under `PcreAnchorsLiterals`, for patterns without metacharacters.
- **Group callbacks.** A `group` callback is modelled as the list of router calls it makes. One
  of those calls may be an exception it throws, which ends the callback.
- **Reflection.** The container reads reflection as data. A `ClassMeta` gives, per class:
  interface or not, instantiable or not, constructor parameters, and public methods. A factory
  closure is modelled by the class it returns, each call returning a new object.

### Behaviour of the code worth knowing

- An unterminated `{{` or `{%` is not a compile error. It stays inside a text token
  (`QuarkCompiler.UnterminatedIsText`).
- `if`/`endif` and `foreach`/`endforeach` are not checked for balance. Each directive compiles
  on its own.
- Every `render`, nested or not, clears the layout stack.
  - So a chain of layouts pushed by one template is not consumed level by level. Only the last
    push counts (`QuarkEngine.LastLayoutWins`).
  - A `skipRootLayout()` call before `render` is undone by the reset
    (`QuarkEngine.SkipBeforeRenderIgnored`).
  - A `skip_root` in a template that also pushes a layout is lost
    (`QuarkEngine.SkipLostUnderLayout`).
- Slots are never cleared. A slot captured in one render is still there in the next
  (`QuarkEngine.SlotsLeak`).
- An include never reaches the included template. The nested render's data carries the
  includer's `__template`, and `extract` puts it back over the compiled file, so the includer
  runs again at every depth (`QuarkClosure.IncludesNeverLeavePage`, listed under
  "## Findings").
- `group` has no `try`/`finally` around its callback. An exception from the callback leaves the
  group's attributes on the stack and its prefix current, so routes registered later by a
  caller that catches it are still prefixed (`AbstractRouter.ThrowLeavesGroupOpen`).

## Model

| member | source | states |
|---|---|---|
| QuarkCompiler.FindPair | src/Quark/QuarkCompiler.php:111 | the first position at or after `from` where the two-character delimiter occurs, and none before it; None exactly when there is none |
| QuarkCompiler.TagAt | src/Quark/QuarkCompiler.php:111 | at a position, the `{{…}}` alternative is tried before `{%…%}`, lazily up to the first closing delimiter; an opening delimiter with no closer is no match |
| QuarkCompiler.ClosedTag | src/Quark/QuarkCompiler.php:111 | a tag found at a position opens there with its delimiter, and closes with the matching delimiter around the inner text |
| QuarkCompiler.NextTag | src/Quark/QuarkCompiler.php:114 | the leftmost match at or after a position, with nothing matching in between |
| QuarkCompiler.PiecesFlatten | src/Quark/QuarkCompiler.php:116-139 | text stretches and tags put back together give the source verbatim, in order |
| QuarkCompiler.StretchesSeparated | src/Quark/QuarkCompiler.php:117-122 | two text stretches are never adjacent, so each stretch between matches becomes exactly one text token |
| QuarkCompiler.UnterminatedIsText | src/Quark/QuarkCompiler.php:111-139 | a source with no closing delimiter is one text stretch: an unterminated tag is text, not an error |
| QuarkCompiler.TokensAtTag | src/Quark/QuarkCompiler.php:116-132 | the tokens from a position on: the text before the next match (if non-empty), that match's token (none when its inner text is PHP-empty), then the rest |
| QuarkCompiler.TokensAfterLastTag | src/Quark/QuarkCompiler.php:134-139 | after the last match the remaining source, if any, is one text token |
| QuarkCompiler.Tokenize | src/Quark/QuarkCompiler.php:109-142 | the loop over matches yields exactly the token list of the pieces, or the first directive syntax error in source order |
| QuarkCompiler.SpacesThenRestOf | src/Quark/QuarkCompiler.php:152 | greedy whitespace followed by a newline-free rest starting with a non-space captures exactly that rest |
| QuarkCompiler.ParseDirective | src/Quark/QuarkCompiler.php:151-161 | a parsed directive's name is a non-empty word and its args are '' or start with a non-space; otherwise "Invalid directive syntax: …" |
| QuarkCompiler.ParseDirectiveOf | src/Quark/QuarkCompiler.php:151-158 | a word, whitespace and arguments parse back into that name and those arguments |
| QuarkCompiler.ParseDirectiveBare | src/Quark/QuarkCompiler.php:152-156 | a bare word is a directive with args '' |
| QuarkCompiler.ParseDirectiveRejects | src/Quark/QuarkCompiler.php:160 | a directive not starting with a word character throws "Invalid directive syntax: " + the directive |
| QuarkCompiler.MemberChain | src/Quark/QuarkCompiler.php:223-231 | a chain match is '$' + word + '->' + the rest with dots turned into '->', and exists only when the separator follows a non-empty word |
| QuarkCompiler.NormalizeVariable | src/Quark/QuarkCompiler.php:215-239 | a normalised expression is trimmed input unchanged, or '$' followed by it rewritten |
| QuarkCompiler.NormalizeDotted | src/Quark/QuarkCompiler.php:222-225 | 'a.b.c' becomes '$a->b->c' |
| QuarkCompiler.NormalizeArrow | src/Quark/QuarkCompiler.php:228-231 | 'a->rest' becomes '$a->rest', with the dots of the rest turned into '->' |
| QuarkCompiler.ArrowNotDotted | src/Quark/QuarkCompiler.php:222-231 | an arrow chain whose word has no dot is not taken by the dot rule first |
| QuarkCompiler.NormalizeWord | src/Quark/QuarkCompiler.php:234-236 | a bare word w becomes '$w' |
| QuarkCompiler.NormalizeDollar | src/Quark/QuarkCompiler.php:216-220 | an expression starting with '$' after trimming is returned trimmed and otherwise unchanged |
| QuarkCompiler.NormalizeFixed | src/Quark/QuarkCompiler.php:216-220 | a trimmed expression starting with '$' is a fixed point |
| QuarkCompiler.NormalizeIdempotent | src/Quark/QuarkCompiler.php:215-239 | normalising a normalised expression changes nothing |
| QuarkCompiler.NormalizeIgnoresTrim | src/Quark/QuarkCompiler.php:216 | normalising ignores surrounding whitespace |
| QuarkCompiler.MemberChainEnds | src/Quark/QuarkCompiler.php:224 | a rewritten chain ends as the expression did, or in '>' where that was a dot |
| QuarkCompiler.ParseFilterCall | src/Quark/QuarkCompiler.php:193-195 | a parsed call has a non-empty word-character name and newline-free arguments, and the segment (less one final newline) is the bare name with empty arguments or `name(args)`, the arguments running to the final ')' |
| QuarkCompiler.FilterCallExactly | src/Quark/QuarkCompiler.php:193-195 | a segment parses to a given name and arguments if and only if, less one final newline, it is `name(args)`, or the bare name with empty arguments |
| QuarkCompiler.FilterLinesSnoc | src/Quark/QuarkCompiler.php:192-203 | one more filter segment appends exactly its line to the filter code |
| QuarkCompiler.CompilePipeExpression | src/Quark/QuarkCompiler.php:184-207 | the loop's output is the pipe code: the normalised base assigned, each filter line in order, then an unescaped echo |
| QuarkCompiler.AppendFilterLines | src/Quark/QuarkCompiler.php:192-203 | appending the filter segments from an index on adds exactly their lines, in order |
| QuarkCompiler.CompileExpression | src/Quark/QuarkCompiler.php:169-176 | an expression with a pipe character compiles as a pipe expression, any other to an escaped echo of the normalised variable |
| QuarkCompiler.PlainExpressionEscaped | src/Quark/QuarkCompiler.php:174-175 | an expression without a pipe character compiles to exactly "echo $__quark->escape(V);\n" with V normalised |
| QuarkCompiler.ExpressionPlain | src/Quark/QuarkCompiler.php:174-175 | the code of an expression without a pipe character is the escaped echo of the normalised variable |
| QuarkCompiler.PipeOfSegments | src/Quark/QuarkCompiler.php:185-206 | a base and pipe-free segments joined by pipe characters compile to the normalised base, one line per trimmed segment in order, and the unescaped echo |
| QuarkCompiler.FilterCallOf | src/Quark/QuarkCompiler.php:193-195 | `name(args)` parses to that name and those args; a bare name has no args |
| QuarkCompiler.FilterArgsSplicedWhenTruthy | src/Quark/QuarkCompiler.php:197-201 | arguments are spliced in only when PHP-truthy: `f(0)` and `f()` compile like `f` |
| QuarkCompiler.MalformedFilterDropped | src/Quark/QuarkCompiler.php:193 | a segment that is not `name` or `name(args)` yields no line |
| QuarkCompiler.IncludeArgs | src/Quark/QuarkCompiler.php:80-82 | a parsed include is a non-empty quote-free name between quote characters, with data '[]' when absent |
| QuarkCompiler.NonQuoteSpan | src/Quark/QuarkCompiler.php:80 | the template-name span stops exactly at the first quote character |
| QuarkCompiler.LayoutDirective | src/Quark/QuarkCompiler.php:57-60 | the code calls setLayout with the arguments, quote characters trimmed, as its string argument |
| QuarkCompiler.SkipRootDirective | src/Quark/QuarkCompiler.php:62-64 | the code is the skipRootLayout call, whatever the arguments |
| QuarkCompiler.OutletDirective | src/Quark/QuarkCompiler.php:66-69 | the code echoes renderOutlet of the quote-trimmed name, or of 'default' when the arguments are PHP-falsy |
| QuarkCompiler.SlotDirective | src/Quark/QuarkCompiler.php:71-73 | the code calls startSlot with the arguments verbatim between single quotes |
| QuarkCompiler.EndslotDirective | src/Quark/QuarkCompiler.php:75-77 | the code is the endSlot call, whatever the arguments |
| QuarkCompiler.IncludeDirective | src/Quark/QuarkCompiler.php:79-86 | throws "Invalid include syntax: " + the arguments exactly when they are not a quoted name with optional data |
| QuarkCompiler.IfDirective | src/Quark/QuarkCompiler.php:88 | the code opens an if block on the arguments verbatim |
| QuarkCompiler.ElseifDirective | src/Quark/QuarkCompiler.php:89 | the code closes the block and opens an elseif on the arguments verbatim |
| QuarkCompiler.ElseDirective | src/Quark/QuarkCompiler.php:90 | the code closes the block and opens the else block |
| QuarkCompiler.EndifDirective | src/Quark/QuarkCompiler.php:91 | the code closes the block |
| QuarkCompiler.ForeachDirective | src/Quark/QuarkCompiler.php:92 | the code opens a foreach block on the arguments verbatim |
| QuarkCompiler.EndforeachDirective | src/Quark/QuarkCompiler.php:93 | the code closes the block |
| QuarkCompiler.SetDirective | src/Quark/QuarkCompiler.php:95-100 | throws "Invalid set syntax: " + the arguments exactly when they are not a variable, '=' and an expression |
| QuarkCompiler.IncludeData | src/Quark/QuarkCompiler.php:80-82 | the regex's optional data group: after the quoted name, either nothing, which gives the data '[]', or a comma, spaces and a non-empty newline-free data expression; anything else is no match |
| QuarkCompiler.SetArgs | src/Quark/QuarkCompiler.php:96 | a parsed set is '$' + a non-empty word and a non-empty value |
| QuarkCompiler.SetValue | src/Quark/QuarkCompiler.php:96 | after the name, '=' and spaces, then a non-empty value with no leading space |
| QuarkCompiler.CompileDirective | src/Quark/QuarkCompiler.php:249-255 | an unregistered name throws "Unknown directive: " + name; a registered one gives its compiler's result |
| QuarkCompiler.BuiltinDirectiveNames | src/Quark/QuarkCompiler.php:56-100 | the built-in table holds exactly layout, skip_root, outlet, slot, endslot, include, if, elseif, else, endif, foreach, endforeach, set, in that order |
| QuarkCompiler.AddDirectiveOverrides | src/Quark/QuarkCompiler.php:49-51 | a directive registered under a name compiles with the new compiler; every other name is unaffected |
| QuarkCompiler.LayoutQuoted | src/Quark/QuarkCompiler.php:57-60 | `layout 'x'` compiles to a setLayout call on x, quotes stripped |
| QuarkCompiler.OutletDefault | src/Quark/QuarkCompiler.php:66-69 | `outlet` with no argument, or with '0', renders the 'default' outlet |
| QuarkCompiler.OutletNamed | src/Quark/QuarkCompiler.php:66-69 | `outlet 'n'` renders outlet n |
| QuarkCompiler.IncludeWithoutData | src/Quark/QuarkCompiler.php:79-84 | `include 'n'` renders n merged with the current variables and '[]' |
| QuarkCompiler.IncludeWithData | src/Quark/QuarkCompiler.php:79-84 | `include 'n', d` merges the data expression d into the current variables |
| QuarkCompiler.IncludeRejects | src/Quark/QuarkCompiler.php:85 | an include argument not starting with a quote throws "Invalid include syntax: " + args |
| QuarkCompiler.SetOf | src/Quark/QuarkCompiler.php:95-98 | `set $v = e` compiles to "$v = e;\n" |
| QuarkCompiler.SetRejects | src/Quark/QuarkCompiler.php:99 | a set argument not starting with '$' throws "Invalid set syntax: " + args |
| QuarkCompiler.VarExport | src/Quark/QuarkCompiler.php:29 | the exported literal of a NUL-free string starts and ends with a quote |
| QuarkCompiler.VarExportRoundTrip | src/Quark/QuarkCompiler.php:29 | reading back the single-quoted literal of a NUL-free string gives the string |
| QuarkCompiler.VarExportNul | src/Quark/QuarkCompiler.php:29 | a NUL byte is spliced in as '' . "\0" . '' |
| QuarkCompiler.FragmentsStep | src/Quark/QuarkCompiler.php:26-38 | each compile step moves one token's fragment from the rest to the output |
| QuarkCompiler.CompilePlainText | src/Quark/QuarkCompiler.php:22-41 | a template without tags compiles to "<?php\n" and one echo of its text |
| QuarkCompiler.CompileUnknownDirective | src/Quark/QuarkCompiler.php:34-35 | an unregistered directive makes the whole compile fail with "Unknown directive: " + name |
| QuarkCompiler.Compiler.constructor | src/Quark/QuarkCompiler.php:10-14 | a new compiler holds the built-in directive table |
| QuarkCompiler.Compiler.AddDirective | src/Quark/QuarkCompiler.php:49-51 | the table gets the compiler under that name, overwriting, and nothing else changes |
| QuarkCompiler.Compiler.Compile | src/Quark/QuarkCompiler.php:22-41 | the loop's output is "<?php\n" followed by each token's fragment in order, or the first error |
| QuarkCompiler.CompileToken | src/Quark/QuarkCompiler.php:27-37 | a text token is an echo of its var_export, an expression goes to compileExpression, a directive to compileDirective |
| QuarkFilters.HtmlSpecialChars | src/Quark/QuarkEngine.php:196 | none of < > " ' survives escaping ('&' survives only as the start of an entity) |
| QuarkFilters.HtmlRoundTrip | src/Quark/QuarkEngine.php:194-196 | decoding the five entities of the escaped text gives the original text |
| QuarkFilters.CssEscape | src/Quark/QuarkEngine.php:199-200 | the result holds only letters, digits, '-' and '_', and is no longer than the input |
| QuarkFilters.CssEscapeUnchanged | src/Quark/QuarkEngine.php:200 | a string passes unchanged exactly when it holds only safe characters |
| QuarkFilters.CssEscapeConcat | src/Quark/QuarkEngine.php:200 | the css escape works byte by byte: escaping a concatenation concatenates the escapes |
| QuarkFilters.CssEscapeShorter | src/Quark/QuarkEngine.php:200 | the css escape never lengthens its input |
| QuarkFilters.RawUrlEncode | src/Quark/QuarkEngine.php:201-202 | only unreserved characters (section 2.3 of RFC 3986) and percent escapes remain |
| QuarkFilters.UrlRoundTrip | src/Quark/QuarkEngine.php:202 | decoding the percent-encoded bytes gives the original bytes |
| QuarkFilters.Escape | src/Quark/QuarkEngine.php:188-208 | null gives '', booleans '1' or ''; html/attr output holds no markup character and decodes back to the string form; css output only safe characters; url output only unreserved bytes and escapes; in the js context the JSON encoding, or escape's return-type TypeError when json_encode fails; otherwise an error exactly when the value has no string form |
| QuarkFilters.EscapeRaw | src/Quark/QuarkEngine.php:203-206 | the raw context and unknown contexts give the string form unchanged |
| QuarkFilters.SortInts | src/Quark/QuarkEngine.php:255-261 | sort returns the integers ascending and as a permutation of the input |
| QuarkFilters.InsertAscending | src/Quark/QuarkEngine.php:255-261 | inserting into an ascending list keeps it ascending |
| QuarkFilters.ApplyFilter | src/Quark/QuarkEngine.php:218-224 | an unregistered name throws "Unknown filter: " + name; otherwise the registered filter's result |
| QuarkFilters.BuiltinFilterNames | src/Quark/QuarkEngine.php:249-270 | the built-in table holds the thirteen filters upper … dump in registration order |
| QuarkFilters.AddFilterOverrides | src/Quark/QuarkEngine.php:232-234 | after addFilter, applyFilter uses the new filter under that name and every other name as before |
| QuarkFilters.TruncateCuts | src/Quark/QuarkEngine.php:265-266 | a string of at most n bytes is kept; a longer one becomes its first n bytes and the suffix |
| QuarkFilters.TruncateDefault | src/Quark/QuarkEngine.php:265-266 | with no arguments a string longer than 100 bytes becomes its first 100 bytes and "..." |
| QuarkFilters.TruncateNegative | src/Quark/QuarkEngine.php:265-266 | a negative length drops that many bytes from the end and adds the suffix |
| QuarkFilters.SubstrHead | src/Quark/QuarkEngine.php:266 | substr from 0 gives a prefix of the string |
| QuarkFilters.DefaultChoosesFallback | src/Quark/QuarkEngine.php:263 | default gives the fallback exactly when the value is PHP-empty |
| QuarkFilters.CapitalizeShape | src/Quark/QuarkEngine.php:252 | capitalize upper-cases the first byte and lower-cases the rest |
| QuarkFilters.ReverseTwice | src/Quark/QuarkEngine.php:254 | reverse undoes itself on strings and arrays |
| QuarkFilters.ReverseReverse | src/Quark/QuarkEngine.php:254 | reversing a sequence twice gives it back |
| QuarkFilters.LengthCounts | src/Quark/QuarkEngine.php:253 | length counts array elements and string bytes, and rejects anything else |
| QuarkFilters.SortOrders | src/Quark/QuarkEngine.php:255-261 | sort of integers returns them ascending, each as often as before |
| QuarkFilters.JoinSplits | src/Quark/QuarkEngine.php:262 | joining with a one-byte separator absent from the strings can be split back into them |
| QuarkFilters.JoinDefaultSeparator | src/Quark/QuarkEngine.php:262 | join without a separator uses ", " |
| QuarkFilters.CaseFiltersNeedStrings | src/Quark/QuarkEngine.php:250-252 | upper, lower and capitalize reject non-strings under strict types |
| QuarkFilters.UpperFilter | src/Quark/QuarkEngine.php:250 | succeeds exactly on a string, upper-casing each byte and keeping the length; anything else throws the strtoupper TypeError |
| QuarkFilters.LowerFilter | src/Quark/QuarkEngine.php:251 | succeeds exactly on a string, lower-casing each byte and keeping the length; anything else throws the strtolower TypeError |
| QuarkFilters.CapitalizeFilter | src/Quark/QuarkEngine.php:252 | succeeds exactly on a string: the first byte upper-cased, every later byte lower-cased, the length kept |
| QuarkFilters.LengthFilter | src/Quark/QuarkEngine.php:253 | succeeds exactly on an array or a string, giving its element or byte count |
| QuarkFilters.ReverseFilter | src/Quark/QuarkEngine.php:254 | succeeds exactly on an array or a string, giving its elements or bytes in the opposite order |
| QuarkFilters.SortFilter | src/Quark/QuarkEngine.php:255-261 | a non-array passes unchanged; an array of integers comes back ascending, each integer as often as before |
| QuarkFilters.JoinFilter | src/Quark/QuarkEngine.php:262 | a non-array passes unchanged; a non-string separator throws; a joined array is a string |
| QuarkFilters.DefaultFilter | src/Quark/QuarkEngine.php:263 | needs its fallback argument; gives the fallback for a PHP-empty value and the value otherwise |
| QuarkFilters.TruncateFilter | src/Quark/QuarkEngine.php:265-266 | a non-string throws the strlen TypeError; the result is a string; with no arguments, strings beyond 100 bytes are cut to 100 and "..." added |
| QuarkFilters.RawFilter | src/Quark/QuarkEngine.php:267 | the string form of the value, failing exactly when it has none |
| QuarkFilters.JsonFilter | src/Quark/QuarkEngine.php:268 | null gives '', booleans '1' or '', anything else its JSON encoding, or escape's return-type TypeError when json_encode fails |
| QuarkFilters.DumpFilter | src/Quark/QuarkEngine.php:269 | always a string between `<pre>` and `</pre>` whose middle holds no markup character and decodes to the print_r form of the value |
| QuarkEngine.EchoF | src/Quark/QuarkEngine.php:86-92 | output is appended to the innermost buffer and nothing else changes |
| QuarkEngine.StartSlotF | src/Quark/QuarkEngine.php:154-157 | the slot is named and a buffer opened, keeping the buffer discipline |
| QuarkEngine.EndSlotF | src/Quark/QuarkEngine.php:162-168 | a falsy slot name changes nothing; otherwise the innermost buffer becomes the slot's content, is closed, and the name cleared |
| QuarkEngine.RenderF | src/Quark/QuarkEngine.php:69-113 | a render keeps one buffer per render in progress, never removes a slot, and when it succeeds leaves no layout pending |
| QuarkEngine.ExecuteF | src/Quark/QuarkEngine.php:81-113 | compiling, running and finishing keeps the buffer discipline and the slots, and leaves no layout on success |
| QuarkEngine.CaptureF | src/Quark/QuarkEngine.php:86-92 | running the code inside its own buffer keeps the buffer discipline and the slots (it runs the named template's compiled code: the corrected closure, see "## Findings") |
| QuarkEngine.FinishF | src/Quark/QuarkEngine.php:94-112 | finishing keeps the buffer discipline and the slots, and leaves no layout on success |
| QuarkEngine.LayoutF | src/Quark/QuarkEngine.php:95-104 | the layout step keeps the buffer discipline and the slots, and leaves no layout on success |
| QuarkEngine.WrapRootF | src/Quark/QuarkEngine.php:100-101 | the root wrap keeps the buffer discipline and the slots, and leaves no layout on success |
| QuarkEngine.RunF | src/Quark/QuarkEngine.php:87-90 | running a template's events keeps the buffer discipline and the slots |
| QuarkEngine.StepF | src/Quark/QuarkEngine.php:87-90 | one event keeps the buffer discipline and the slots |
| QuarkEngine.OutletF | src/Quark/QuarkEngine.php:131-147 | resolving an outlet keeps the buffer discipline and the slots |
| QuarkEngine.RenderMissingTemplate | src/Quark/QuarkEngine.php:70-74 | a missing template throws "Template 't' not found" before any field changes |
| QuarkEngine.RenderResets | src/Quark/QuarkEngine.php:76-79 | states that agree on slots, buffers and files render alike: leftover flags, layouts, outlets and slot names have no effect |
| QuarkEngine.SkipBeforeRenderIgnored | src/Quark/QuarkEngine.php:56-58 | a skipRootLayout call before render does not change its result |
| QuarkEngine.LastLayoutWins | src/Quark/QuarkEngine.php:94-97 | of the layouts a template pushed, only the last affects the result |
| QuarkEngine.LayoutIgnoresPending | src/Quark/QuarkEngine.php:95-97 | the layout step depends on neither the remaining layouts nor the skip flag |
| QuarkEngine.LayoutGetsContent | src/Quark/QuarkEngine.php:95-97 | the popped layout is rendered nested with the template's output as its default outlet and the same data |
| QuarkEngine.SkipLostUnderLayout | src/Quark/QuarkEngine.php:94-102 | with a layout pushed, the template's own skip flag makes no difference |
| QuarkEngine.RootWrapping | src/Quark/QuarkEngine.php:107-112 | without a layout, the output is returned as is when nested, without a truthy root layout, or skipped; otherwise the root is rendered nested around it |
| QuarkEngine.IncludeDropsPendingLayouts | src/Quark/QuarkEngine.php:76-77 | a successful render leaves no pending layout, so an include drops the includer's |
| QuarkEngine.RunEchoes | src/Quark/QuarkEngine.php:86-92 | plain output events append their text, in order, to the innermost buffer |
| QuarkEngine.EchoTwice | src/Quark/QuarkEngine.php:86-92 | echoing twice equals echoing the concatenation |
| QuarkEngine.PlainTemplate | src/Quark/QuarkEngine.php:69-113 | a template that only outputs renders to that output, wrapped in the root layout exactly when top-level and a root layout is set |
| QuarkEngine.PlainCapture | src/Quark/QuarkEngine.php:86-92 | running output-only code captures exactly that output and changes nothing else |
| QuarkEngine.OutletPrecedence | src/Quark/QuarkEngine.php:131-147 | a slot wins over an outlet; a string outlet is returned verbatim; a template outlet is a top-level render with its data over the caller's; otherwise '' |
| QuarkEngine.SlotCaptures | src/Quark/QuarkEngine.php:154-168 | a slot with a truthy name captures exactly the output between startSlot and endSlot |
| QuarkEngine.ZeroSlotNeverEnds | src/Quark/QuarkEngine.php:163 | a slot named '0' is never closed and nothing is stored |
| QuarkEngine.SlotsLeak | src/Quark/QuarkEngine.php:76-79 | slots captured earlier survive any later render |
| QuarkClosure.ClosureVars | src/Quark/QuarkEngine.php:87-89 | after `extract`, the closure has a `__template` variable, and it names the compiled file unless the render data has a `__template` entry |
| QuarkClosure.IncludedFileAsWritten | src/Quark/QuarkEngine.php:87-90 | as written, the closure includes the compiled file exactly when the render data has no `__template` entry or one naming that file; otherwise it includes what that entry holds |
| QuarkClosure.IncludeReentersCaller | src/Quark/QuarkCompiler.php:83 | as written, an include's nested closure (data: the caller's variables under the include's data) opens the file the caller's closure opened, whatever template was named |
| QuarkClosure.TemplateCarried | src/Quark/QuarkEngine.php:83-84 | the render data built from an include's data keeps the caller's `__template` entry |
| QuarkClosure.IncludesNeverLeavePage | src/Quark/QuarkEngine.php:87-90 | as written, when a page includes a part, every nested level opens the page's compiled file again, so the include repeats without end |
| QuarkClosure.IncludeRendersIncluded | src/Quark/QuarkCompiler.php:79-86 | as modelled, a page whose code only includes an output-only part renders to the part's output when no root layout applies |
| QuarkClosure.IncludeCapture | src/Quark/QuarkEngine.php:86-92 | the page's capture holds exactly the included part's output, with the buffers as before |
| QuarkClosure.IncludeRun | src/Quark/QuarkEngine.php:87-90 | the include event alone echoes the part's output into the innermost buffer and leaves the fields reset by the nested render |
| QuarkClosure.StepInclude | src/Quark/QuarkCompiler.php:83 | with fuel left, an include event echoes the outcome of a top-level render of its template with the passed data |
| QuarkClosure.RunSingle | src/Quark/QuarkEngine.php:87-90 | running one event is that event's step |
| QuarkClosure.NestedPlain | src/Quark/QuarkEngine.php:69-113 | a top-level render of output-only code, with no root layout to apply, returns that output and leaves the fields reset |
| QuarkEngine.ScopeOverlay | src/Quark/QuarkEngine.php:83-84 | the scope is the caller's data over the globals, with '__quark' always the engine |
| QuarkEngine.CacheReuse | src/Quark/QuarkEngine.php:279-294 | a fresh cache file is used as it is; otherwise the template is compiled and written to the cache path |
| QuarkEngine.DebugRecompiles | src/Quark/QuarkEngine.php:283-290 | with debug on, every render recompiles |
| QuarkEngine.TemplatePathShape | src/Quark/QuarkEngine.php:70 | the template name's dots become slashes, under the trimmed template directory, with no doubled leading slash |
| QuarkEngine.CompileWritesCache | src/Quark/QuarkEngine.php:279-294 | compiling fails exactly when the cache is not fresh and the template does not compile; on success the cache file exists and holds the returned code, and every other file is as it was |
| QuarkEngine.Engine.constructor | src/Quark/QuarkEngine.php:21-33 | trailing slashes trimmed from the template directory, a compiler with the built-in directives, the built-in filters, empty fields |
| QuarkEngine.Engine.SetRootLayout | src/Quark/QuarkEngine.php:49-51 | the root layout is set |
| QuarkEngine.Engine.SkipRootLayout | src/Quark/QuarkEngine.php:56-58 | only the skip flag changes |
| QuarkEngine.Engine.SetLayout | src/Quark/QuarkEngine.php:120-122 | the layout is pushed |
| QuarkEngine.Engine.StartSlot | src/Quark/QuarkEngine.php:154-157 | the new state is StartSlotF of the old |
| QuarkEngine.Engine.EndSlot | src/Quark/QuarkEngine.php:162-168 | the new state is EndSlotF of the old |
| QuarkEngine.Engine.GetSlot | src/Quark/QuarkEngine.php:177-179 | the captured content, or the default when never captured |
| QuarkEngine.Engine.AddFilter | src/Quark/QuarkEngine.php:232-234 | the filter table gets the filter under that name, overwriting |
| QuarkEngine.Engine.AddGlobal | src/Quark/QuarkEngine.php:242-244 | the global is set, overwriting |
| QuarkEngine.Engine.Compile | src/Quark/QuarkEngine.php:279-294 | the cached code when fresh, else compiled and written to the cache, as CompileF says |
| QuarkEngine.Engine.Render | src/Quark/QuarkEngine.php:69-113 | result and new fields equal RenderF of the old fields |
| QuarkEngine.Engine.Execute | src/Quark/QuarkEngine.php:81-113 | result and new fields equal ExecuteF: compile, capture, finish |
| QuarkEngine.Engine.Capture | src/Quark/QuarkEngine.php:86-92 | outcome, captured text and new fields equal CaptureF |
| QuarkEngine.Engine.Finish | src/Quark/QuarkEngine.php:94-112 | result and new fields equal FinishF |
| QuarkEngine.Engine.FinishPop | src/Quark/QuarkEngine.php:94-97 | with a layout pending, result and new fields equal FinishF |
| QuarkEngine.Engine.FinishBare | src/Quark/QuarkEngine.php:99-112 | with no layout pending, result and new fields equal FinishF |
| QuarkEngine.Engine.FinishLayout | src/Quark/QuarkEngine.php:95-104 | result and new fields equal LayoutF |
| QuarkEngine.Engine.WrapRoot | src/Quark/QuarkEngine.php:100-101 | result and new fields equal WrapRootF |
| QuarkEngine.Engine.WrapLayout | src/Quark/QuarkEngine.php:99-110 | a successful inner result is wrapped in the root layout exactly when it applies and was not skipped; otherwise it is returned unchanged |
| QuarkEngine.Engine.RunEvents | src/Quark/QuarkEngine.php:87-90 | the loop over events equals RunF |
| QuarkEngine.Engine.Step | src/Quark/QuarkEngine.php:87-90 | one event of the running template changes the fields as StepF says |
| QuarkEngine.Engine.Echo | src/Quark/QuarkEngine.php:87-90 | output goes to the innermost buffer, as EchoF says |
| QuarkEngine.Engine.EchoReturned | src/Quark/QuarkEngine.php:87-90 | the result of a nested render is echoed on success and propagated as a failure otherwise |
| QuarkEngine.Engine.RenderOutlet | src/Quark/QuarkEngine.php:131-147 | result and new fields equal OutletF |
| QuarkEngine.Engine.RenderOutletTemplate | src/Quark/QuarkEngine.php:139-143 | a template outlet, not shadowed by a slot, renders as OutletF says |
| Config.GetPath | src/Application/Config.php:33-45 | the empty path gives the value itself; a non-array or a missing key before the path ends gives the default |
| Config.SetIn | src/Application/Config.php:65-75 | the write creates the first segment and leaves every other top-level key as it was |
| Config.Config.constructor | src/Application/Config.php:12-14 | the items are stored |
| Config.Config.Get | src/Application/Config.php:33-45 | the loop returns the value reached along the dot-separated segments, or the default at the first missing segment or non-array |
| Config.Config.Has | src/Application/Config.php:22-24 | has holds exactly when get with a null default is not null |
| Config.Config.All | src/Application/Config.php:84-86 | every section, with its value |
| Config.Config.Set | src/Application/Config.php:54-75 | fails with "Config file 'x' not found" unless the lower-cased first segment is a loaded section with a file; on success get of the key gives the value and other sections are unchanged |
| Config.GetAfterSet | src/Application/Config.php:54-75 | reading the path just written gives the value written |
| Config.SetKeepsDivergentPath | src/Application/Config.php:65-75 | a write leaves every value on a path that branches off through existing arrays |
| Config.StoredNullReadsAsNull | src/Application/Config.php:22-24 | a key stored as null reads as null, not the default, so has reports it missing |
| Config.GetThroughScalar | src/Application/Config.php:38-40 | a scalar met before the last segment ends the walk with the default |
| Config.WriteUsesOriginalCase | src/Application/Config.php:58-75 | the check lower-cases the first segment but the write does not: 'App.name' creates an 'App' section and leaves 'app' alone |
| AssetManager.Used | src/Document/AssetManager.php:73-77 | the kept registrations are exactly those whose name was used |
| AssetManager.UsedIndices | src/Document/AssetManager.php:73-77 | the kept registrations are a subsequence of the registrations: each taken from its own position, the positions rising |
| AssetManager.UsedInOrder | src/Document/AssetManager.php:73-77 | any two kept registrations are listed in the order they were registered |
| AssetManager.UsedLookup | src/Document/AssetManager.php:73-77 | a name is found among the used registrations exactly when registered and used |
| AssetManager.UsedDistinct | src/Document/AssetManager.php:73-77 | each used name is listed at most once |
| AssetManager.AssetManager.constructor | src/Document/AssetManager.php:9-13 | all four lists start empty |
| AssetManager.AssetManager.RegisterScript | src/Document/AssetManager.php:21-26 | a new name is appended, an existing one overwritten in place |
| AssetManager.AssetManager.RegisterStylesheet | src/Document/AssetManager.php:34-38 | a new name is appended, an existing one overwritten in place |
| AssetManager.AssetManager.UseScript | src/Document/AssetManager.php:45-52 | a registered name is appended even when already used; an unknown one changes nothing |
| AssetManager.AssetManager.UseStylesheet | src/Document/AssetManager.php:59-66 | a registered name is appended even when already used; an unknown one changes nothing |
| AssetManager.AssetManager.GetScripts | src/Document/AssetManager.php:73-77 | exactly the registered scripts whose name was used, each once, in registration order |
| AssetManager.AssetManager.GetStylesheets | src/Document/AssetManager.php:84-88 | exactly the registered stylesheets whose name was used, each once, in registration order |
| AssetManager.UseTwiceSameAsOnce | src/Document/AssetManager.php:51 | using a name twice lists it as using it once does |
| AssetManager.ReRegisteredStillListed | src/Document/AssetManager.php:84-88 | a used name registered again is listed with the new registration |
| Document.MetaGetPut | src/Document/Document.php:104-123 | a meta tag set is read back under the same attribute and name, and every other tag is unchanged |
| Document.OgKey | src/Document/Document.php:136-138 | the key always starts with 'og:' and a key that did is kept |
| Document.OgKeySameEntry | src/Document/Document.php:131-155 | 'x' and 'og:x' name the same property |
| Document.AttributeStringSplits | src/Document/Document.php:298-305 | with no spaces in names or values, splitting the attribute string at spaces gives the pairs back |
| Document.AppendEach | src/Document/Document.php:341-351 | the loop appends each item's line in order |
| Document.AppendMeta | src/Document/Document.php:319-323 | the nested loops append each attribute's tags in order |
| Document.Document.constructor | src/Document/Document.php:20-26 | description '' and the '/favicon.ico' icon link with type 'image/x-icon'; nothing else |
| Document.Document.SetTitle | src/Document/Document.php:52-55 | the title is set |
| Document.Document.SetDescription | src/Document/Document.php:72-75 | the description is set |
| Document.Document.SetLang | src/Document/Document.php:92-95 | the language is set |
| Document.Document.GetMeta | src/Document/Document.php:104-110 | the whole array for a falsy name, else the tag under the attribute, or null |
| Document.Document.SetMeta | src/Document/Document.php:120-123 | the content is stored under the attribute and name and reads back |
| Document.Document.GetOG | src/Document/Document.php:131-140 | the whole array for a falsy property, else the entry under its 'og:' key, or null |
| Document.Document.SetOG | src/Document/Document.php:149-155 | the content is stored under the 'og:' key and getOG returns it |
| Document.Document.AddLink | src/Document/Document.php:174-180 | links are keyed by href: a repeat overwrites |
| Document.Document.SetFavicon | src/Document/Document.php:188-191 | one more icon link; the constructor's stays unless it has the same href |
| Document.Document.AddStylesheet | src/Document/Document.php:200-202 | a stylesheet link is recorded and the call returns normally |
| Document.Document.AddStylesheetAsWritten | src/Document/Document.php:200-202 | as written: the link is recorded, then the missing return value is a TypeError |
| Document.Document.AddInlineStyle | src/Document/Document.php:219-224 | the style is appended |
| Document.Document.AddScript | src/Document/Document.php:252-266 | appended to the body list when inBody, else the head list; the other list is unchanged |
| Document.Document.AddInlineScript | src/Document/Document.php:276-290 | appended to the body list when inBody, else the head list; the other list is unchanged |
| Document.Document.ImplodeAttributes | src/Document/Document.php:298-305 | the loop gives the name="value" pairs in order, joined by single spaces |
| Document.Document.RenderHead | src/Document/Document.php:312-354 | title, description, meta, Open Graph, used stylesheets, links, used scripts, head scripts, inline styles, in that order |
| Document.Document.RenderBodyScripts | src/Document/Document.php:361-373 | one tag per body script, in the order added |
| Document.EmptyAttributesLeaveSpace | src/Document/Document.php:330-338 | a tag without attributes keeps the space before its '>' |
| RouteDefinition.NormalizePattern | src/Routing/RouteDefinition.php:38-41 | the result starts with one '/', never ends in '/' unless it is '/', and equals '/' + the slash-trimmed input |
| RouteDefinition.NormalizeFixes | src/Routing/RouteDefinition.php:38-41 | a normalised pattern is left as it is |
| RouteDefinition.NormalizeIdempotent | src/Routing/RouteDefinition.php:38-41 | normalising twice is normalising once |
| RouteDefinition.NewRoute | src/Routing/RouteDefinition.php:11-15 | the stored verb is the argument upper-cased byte by byte, the stored pattern is normalised, and the handler kept |
| RouteDefinition.CompilePattern | src/Routing/RouteDefinition.php:43-47 | the regex is the pattern, verbatim, between the anchors '#^' and '$#' |
| RouteDefinition.NewRouteNormalizes | src/Routing/RouteDefinition.php:11-15 | the stored verb is upper-case and the pattern normalised, so rebuilding a route from its fields changes nothing |
| RouteDefinition.Matches | src/Routing/RouteDefinition.php:29-36 | false whenever the stored verb differs from the upper-cased argument |
| RouteDefinition.MatchesLiterally | src/Routing/RouteDefinition.php:43-47 | for a pattern without metacharacters, matching is verb equality and path equality up to a final newline |
| RouteDefinition.NewRouteExample | src/Routing/RouteDefinition.php:11-15 | 'get' with '/users/{id}/' is stored as 'GET' with '/users/{id}', the handler kept |
| RouteDefinition.ParameterSegmentIsLiteral | src/Routing/RouteDefinition.php:43-47 | a '{param}' segment matches only itself |
| RouteCollection.FirstMatchIndex | src/Routing/RouteCollection.php:27-33 | the index of the first matching route, with no match before it |
| RouteCollection.Collection.constructor | src/Routing/RouteCollection.php:7 | no routes |
| RouteCollection.Collection.Add | src/Routing/RouteCollection.php:14-16 | the route is appended |
| RouteCollection.Collection.All | src/Routing/RouteCollection.php:43-45 | every route, in insertion order |
| RouteCollection.Collection.MatchAsWritten | src/Routing/RouteCollection.php:25-36 | as written: an Error exactly when some route matches, because the hit calls undefined methods; null otherwise |
| RouteCollection.Collection.Match | src/Routing/RouteCollection.php:25-36 | the first route in insertion order that matches, or null exactly when none matches |
| RouteCollection.LaterRoutesNeverShadow | src/Routing/RouteCollection.php:27-33 | routes added later never shadow an earlier match and are consulted only on a miss |
| RouteCollection.MethodPicksRoute | src/Routing/RouteCollection.php:27-33 | with POST and GET routes on one path, a GET request picks the GET route |
| AbstractRouter.UngroupedPattern | src/Routing/AbstractRouter.php:101-109 | outside a group the stored pattern is the normalised one |
| AbstractRouter.GroupRootPattern | src/Routing/AbstractRouter.php:106-109 | under a truthy prefix the root pattern becomes '/' + the trimmed prefix |
| AbstractRouter.GroupedPattern | src/Routing/AbstractRouter.php:102-109 | under a truthy prefix a pattern sits one slash below the trimmed prefix |
| AbstractRouter.NestedPrefix | src/Routing/AbstractRouter.php:64-70 | no prefix attribute keeps the enclosing prefix; otherwise the new one ends with the trimmed prefix and extends a truthy enclosing one with '/' |
| AbstractRouter.RoutePattern | src/Routing/AbstractRouter.php:101-109 | the pattern handed to the route always starts with '/' |
| AbstractRouter.Prepend | src/Routing/AbstractRouter.php:72 | an outcome after earlier routes keeps its kind, message, open groups and prefix, behind those routes |
| AbstractRouter.ExecSnoc | src/Routing/AbstractRouter.php:72 | (loop helper of Run) after calls that all returned, one more call appends its outcome |
| AbstractRouter.ThrewStays | src/Routing/AbstractRouter.php:72 | once a call of a group's callback throws, the calls after it never run |
| AbstractRouter.ThrowLeavesGroupOpen | src/Routing/AbstractRouter.php:61-76 | a callback that throws leaves its attributes on the group stack and its nested prefix current, because `group` has no try/finally around the callback |
| AbstractRouter.RoutesBeforeThrowKept | src/Routing/AbstractRouter.php:72-75 | routes registered before an exception stay registered, none after it are, and the exception propagates |
| AbstractRouter.UpperCaseVerbs | src/Routing/AbstractRouter.php:28-50 | the verbs the shortcuts pass are already upper-case |
| AbstractRouter.AnyRoutes | src/Routing/AbstractRouter.php:48-51 | any registers GET, POST, PUT, PATCH and DELETE in order on one normalised pattern |
| AbstractRouter.Router.constructor | src/Routing/AbstractRouter.php:17-20 | a fresh empty collection, no group |
| AbstractRouter.Router.GetRoutes | src/Routing/AbstractRouter.php:24-26 | the collection's routes in order |
| AbstractRouter.Router.AddRoute | src/Routing/AbstractRouter.php:101-116 | the route is built under the current prefix, appended and returned |
| AbstractRouter.Router.Get | src/Routing/AbstractRouter.php:28-30 | one GET route appended and returned |
| AbstractRouter.Router.Post | src/Routing/AbstractRouter.php:32-34 | one POST route appended and returned |
| AbstractRouter.Router.Put | src/Routing/AbstractRouter.php:36-38 | one PUT route appended and returned |
| AbstractRouter.Router.Patch | src/Routing/AbstractRouter.php:40-42 | one PATCH route appended and returned |
| AbstractRouter.Router.Delete | src/Routing/AbstractRouter.php:44-46 | one DELETE route appended and returned |
| AbstractRouter.Router.MatchVerbs | src/Routing/AbstractRouter.php:53-59 | one route per verb, in order, appended and returned |
| AbstractRouter.Router.Any | src/Routing/AbstractRouter.php:48-51 | five routes with the five verbs in order |
| AbstractRouter.Router.RunGroup | src/Routing/AbstractRouter.php:61-76 | the callback's routes are registered under the nested prefix; when it returns, the prefix and group stack are restored; when it throws, the exception propagates with the attributes still pushed and the nested prefix still current |
| AbstractRouter.Router.Step | src/Routing/AbstractRouter.php:72 | one call inside a group callback: its routes appended, and the group state restored unless it throws, in which case as ExecOne says |
| AbstractRouter.Router.Run | src/Routing/AbstractRouter.php:72 | a group callback's calls append their routes in order under the current prefix, stopping at the first exception with the group stack and prefix it leaves |
| AbstractRouter.NormalizeResponse | src/Routing/AbstractRouter.php:118-140 | a response passes; an array becomes JSON; a string, integer, float (its string form) or stringable becomes content with 200; null gives '' with 204; a bool hits method_exists' TypeError; anything else throws |
| AbstractRouter.GroupedRoutes | src/Routing/AbstractRouter.php:61-76 | a root route inside a group is registered on the prefix itself |
| AbstractRouter.NestedGroupPrefix | src/Routing/AbstractRouter.php:66-70 | nested groups join their prefixes with '/' |
| FileBasedRouter.Basename | src/Routing/FileBasedRouter.php:53 | the base name holds no '/' and ends the path |
| FileBasedRouter.StripExtension | src/Routing/FileBasedRouter.php:53 | only the last extension is removed |
| FileBasedRouter.BracketsToBraces | src/Routing/FileBasedRouter.php:63 | the rewrite keeps the length, and each character is kept or is a '[' turned into '{' or a ']' turned into '}' |
| FileBasedRouter.BracketsNone | src/Routing/FileBasedRouter.php:63 | text without '[' passes unchanged |
| FileBasedRouter.RewriteOptionalIdentity | src/Routing/FileBasedRouter.php:65 | the optional-parameter rewrite puts back exactly what it matched |
| FileBasedRouter.RouteName | src/Routing/FileBasedRouter.php:53-57 | the name without its last extension and without a trailing '_index' |
| FileBasedRouter.GenerateRouteFromFile | src/Routing/FileBasedRouter.php:52-70 | never ''; starts with the prefix, or is '/' when the prefix is falsy; no '.' survives after the prefix |
| FileBasedRouter.StripPhp | src/Routing/FileBasedRouter.php:53 | the name before '.php', whatever dots it holds |
| FileBasedRouter.BracketsParam | src/Routing/FileBasedRouter.php:63 | '[p]' becomes '{p}' for a non-empty p without ']' |
| FileBasedRouter.PlainFileRoute | src/Routing/FileBasedRouter.php:52-70 | a plain file name routes to prefix + '/' + the name without '.php' |
| FileBasedRouter.IndexFileRoute | src/Routing/FileBasedRouter.php:55-57 | 'x_index.php' routes like 'x.php' |
| FileBasedRouter.BareIndexRoute | src/Routing/FileBasedRouter.php:59-61 | '_index.php' routes to the prefix, or '/' without one |
| FileBasedRouter.DynamicFileRoute | src/Routing/FileBasedRouter.php:63-69 | a bracketed segment after a dot becomes a brace parameter in its own path segment |
| FileBasedRouter.DynamicFileExample | src/Routing/FileBasedRouter.php:52-70 | 'test.[value].php' at the top level routes to '/test/{value}' |
| HttpStatus.Code | src/Http/Status.php:7-22 | each code lies in 200..599 and its class (2xx, 3xx, 5xx) matches the case |
| HttpStatus.FromCode | src/Http/Status.php:6-22 | a case found from a code has that code |
| HttpStatus.FromCodeOfCode | src/Http/Status.php:7-22 | every case is found again from its code |
| HttpStatus.CodesDistinct | src/Http/Status.php:7-22 | no two cases share a code |
| HttpStatus.Text | src/Http/Status.php:24-45 | never '' for a case; 404, 405, 429 and 500 give 'Not Found', 'Method Not Allowed', 'Too Many Requests' and 'Internal Server Error' |
| HttpResponse.CodeOf | src/Http/Response.php:27-31 | a Status is stored as the integer that maps back to it; an integer as itself |
| HttpResponse.FirstIntegerKey | src/Http/Response.php:60-63 | the first header key PHP stores as an integer, with none before it |
| HttpResponse.Response.constructor | src/Http/Response.php:7-10 | status 200, no headers, no content, no cookies |
| HttpResponse.Response.GetHeader | src/Http/Response.php:50-52 | null exactly when no header has that exact name |
| HttpResponse.Response.SetStatusCode | src/Http/Response.php:27-33 | the integer code is stored |
| HttpResponse.Response.SetHeader | src/Http/Response.php:74-77 | overwrite by exact name; the header reads back and every other is unchanged |
| HttpResponse.Response.SetHeaders | src/Http/Response.php:60-65 | each pair is applied in order; an integer key fails with a TypeError after the pairs before it |
| HttpResponse.Response.SetContent | src/Http/Response.php:94-97 | the content is set |
| HttpResponse.Response.SetJson | src/Http/Response.php:107-115 | the status and 'application/json' are set; the encoding becomes the content, and a failed encoding is a TypeError |
| HttpResponse.Response.SetHtml | src/Http/Response.php:124-132 | status, 'text/html; charset=utf-8' and the content |
| HttpResponse.Response.SetText | src/Http/Response.php:141-149 | status, 'text/plain; charset=utf-8' and the content |
| HttpResponse.Response.Redirect | src/Http/Response.php:158-165 | status (302 by default) and Location; the content is unchanged |
| HttpResponse.Response.SetCookie | src/Http/Response.php:179-190 | one cookie record appended, with the signature's defaults |
| HttpResponse.Create | src/Http/Response.php:227-236 | a fresh response with the content, the status, and the headers applied in order |
| HttpResponse.CreateJson | src/Http/Response.php:246-251 | a fresh response with the JSON content, status and Content-Type only |
| HttpResponse.CreateRedirect | src/Http/Response.php:260-265 | a fresh response with the status and only a Location header |
| HttpResponse.LastHeaderWins | src/Http/Response.php:60-65 | a later pair for the same header wins |
| HttpRequest.HeaderName | src/Http/Request.php:150 | the header name of an HTTP_* key holds no '_' |
| HttpRequest.HttpHeaderPairs | src/Http/Request.php:148-153 | no header name taken from HTTP_* keys holds '_' |
| HttpRequest.ParseHeaders | src/Http/Request.php:145-163 | the loop builds the header array of the HTTP_* keys followed by the two content headers |
| HttpRequest.HeaderFromServer | src/Http/Request.php:148-153 | a header other than the content ones holds the value of the last server key naming it, or is absent |
| HttpRequest.NoHttpKeysNoHeaders | src/Http/Request.php:145-163 | without HTTP_* or content keys there are no headers |
| HttpRequest.TwoWordHeader | src/Http/Request.php:149-151 | 'HTTP_A_B' alone becomes the single header 'A-B' with the same value |
| HttpRequest.LowerPairs | src/Http/Request.php:42 | each name lower-cased, values and order kept |
| HttpRequest.HeaderLookupIgnoresCase | src/Http/Request.php:41-43 | the lookup gives the same result for any case of the name; of two names differing in case the later wins |
| HttpRequest.MergeStringKey | src/Http/Request.php:93 | in array_merge a string key holds the value of its last pair |
| HttpRequest.LookupLastAppend | src/Http/Request.php:93 | in a + b, b's value for a key wins over a's |
| HttpRequest.NoAddressGivesZeros | src/Http/Request.php:128-139 | with none of the four variables non-empty the address is '0.0.0.0' |
| HttpRequest.ForwardedWins | src/Http/Request.php:128-139 | a forwarded list wins over REMOTE_ADDR and its first entry is reported |
| HttpRequest.Request.constructor | src/Http/Request.php:17-27 | the fields are the given values, and the headers are parsed from the server variables |
| HttpRequest.ConstructAsWritten | src/Http/Request.php:17-21 | as written: constructing any request fails, reading the server array before it is assigned |
| HttpRequest.Request.IsMethod | src/Http/Request.php:33-35 | true exactly when the stored method equals the upper-cased argument |
| HttpRequest.Request.GetHeader | src/Http/Request.php:41-43 | the case-insensitive lookup, or the default |
| HttpRequest.Request.GetCookie | src/Http/Request.php:49-51 | the cookie's value, or the default |
| HttpRequest.Request.Query | src/Http/Request.php:75-81 | the whole query array for a null key, else the value or the default |
| HttpRequest.Request.Data | src/Http/Request.php:83-89 | the whole form array for a null key, else the value or the default |
| HttpRequest.Request.Input | src/Http/Request.php:91-97 | the merged arrays for a null key; else the form value, then the query value, then the default |
| HttpRequest.Request.IsSecure | src/Http/Request.php:67-73 | true exactly when HTTPS is non-empty and not 'off', or the port is 443, or the forwarded protocol is 'https' |
| HttpRequest.Request.GetURL | src/Http/Request.php:61-65 | starts with 'https://' exactly when secure, else 'http://'; then the HTTP_HOST server variable, or 'localhost' when it is absent; then the URI, which ends it |
| HttpRequest.Request.IsAjax | src/Http/Request.php:124-126 | true exactly when X-Requested-With, in any case, is 'XMLHttpRequest' |
| HttpRequest.Request.GetUserAgent | src/Http/Request.php:141-143 | the HTTP_USER_AGENT variable, or '' |
| HttpRequest.Request.GetIP | src/Http/Request.php:128-139 | the loop reports the address IpFrom defines over the four variables in order |
| HttpRequest.LowerCaseMethodNeverMatches | src/Http/Request.php:33-35 | a stored method starting with a lower-case letter never matches |
| HttpRequest.InputPrefersPost | src/Http/Request.php:93 | in the merged input the form value wins, else the query value |
| MiddlewarePipeline.ReduceSnoc | src/Middleware/MiddlewarePipeline.php:38-42 | folding one more middleware wraps the folded pipeline in it |
| MiddlewarePipeline.ReduceReverseIsOnion | src/Middleware/MiddlewarePipeline.php:38-42 | reducing the reversed list nests the middleware with the first piped outermost |
| MiddlewarePipeline.Pipeline.constructor | src/Middleware/MiddlewarePipeline.php:10 | no middleware |
| MiddlewarePipeline.Pipeline.Pipe | src/Middleware/MiddlewarePipeline.php:19-28 | "Middleware 'X' not found" for an unknown class, "… must implement MiddlewareInterface" for a non-middleware, else appended |
| MiddlewarePipeline.Pipeline.Process | src/Middleware/MiddlewarePipeline.php:37-45 | the handler alone when empty; otherwise the first middleware runs with the rest and the handler as next |
| MiddlewarePipeline.PassThroughOrder | src/Middleware/MiddlewarePipeline.php:38-44 | with pass-through middleware the response lists them in piped order, then the handler |
| MiddlewarePipeline.ShortCircuit | src/Middleware/MiddlewarePipeline.php:40 | a first middleware that never calls next decides the response |
| ServiceProviderRegistry.BootTracePrefix | src/Container/ServiceProviderRegistry.php:42-46 | the providers booted are a prefix of the registered ones |
| ServiceProviderRegistry.BootAllWhenNoneThrows | src/Container/ServiceProviderRegistry.php:42-46 | with no provider throwing each is booted once, in registration order |
| ServiceProviderRegistry.BootStopsAtFirstThrow | src/Container/ServiceProviderRegistry.php:42-46 | a failed boot ends at the first provider that throws, and none before it threw |
| ServiceProviderRegistry.Registry.constructor | src/Container/ServiceProviderRegistry.php:10-12 | no providers |
| ServiceProviderRegistry.Registry.Register | src/Container/ServiceProviderRegistry.php:23-33 | a known provider is left alone; a new one is recorded only when its register returns; the names stay distinct |
| ServiceProviderRegistry.Registry.Boot | src/Container/ServiceProviderRegistry.php:42-46 | the loop boots exactly BootTrace and reports BootOutcome |
| ServiceProviderRegistry.RegisterTwice | src/Container/ServiceProviderRegistry.php:24-26 | registering twice records the provider once |
| Container.FirstUnion | src/Container/Container.php:226-241 | the first union-typed parameter, with none before it |
| Container.Container.constructor | src/Container/Container.php:7-11 | no bindings, instances or resolving names |
| Container.Container.Bind | src/Container/Container.php:20-29 | the binding is stored, overwriting; no concrete means the abstract itself; `has` is true afterwards |
| Container.Container.Singleton | src/Container/Container.php:37-39 | a singleton binding is stored; `has` is true afterwards |
| Container.Container.Instance | src/Container/Container.php:47-49 | the instance is stored, overwriting; `has` is true afterwards |
| Container.Container.Has | src/Container/Container.php:87-89 | bound, stored, or an existing class |
| Container.Container.HasUnlessNotFound | src/Container/Container.php:87-89 | for a name not being resolved, `has` is false exactly when `get` is bound to throw "Service 'X' not found and cannot be resolved" |
| Container.MissingIsNotFound | src/Container/Container.php:57-79 | a `get` of a name `has` denies throws "Service 'X' not found and cannot be resolved" |
| Container.Container.Get | src/Container/Container.php:57-79 | the decided outcome with no state change where one is decided; "Invalid service definition" for an invalid concrete; for a name that builds, every outcome of the build (BuildOutcome) judged with the name itself resolving; a new object of the concrete class; a singleton stored, a plain binding not; stored instances never change or vanish and the resolving set is restored |
| Container.Container.Resolve | src/Container/Container.php:150-170 | "Service 'X' not found and cannot be resolved" for an unbound non-class, "Invalid service definition" for an invalid concrete; for a class-name binding or an unbound class, every outcome of building its concrete class (BuildOutcome); otherwise a new object of the concrete class |
| Container.Container.Build | src/Container/Container.php:179-210 | "Cannot reflect class" for a missing class, "is not instantiable" for an abstract one; the union error and the decided parameter error of its constructor (CtorOutcome); otherwise a new object whose arguments fit its constructor |
| Container.Container.ResolveDependencies | src/Container/Container.php:220-288 | the first union-typed parameter throws "Union types are not supported" before anything is resolved; otherwise every argument is injected (see Injected) and the first parameter whose outcome the state decides as an error raises exactly that error (together, CtorOutcome) |
| Container.Container.InjectAll | src/Container/Container.php:254-287 | the second loop: all arguments injected, or the decided error of the first failing parameter |
| Container.Container.Inject | src/Container/Container.php:256-285 | an untyped or built-in parameter: its default, else "no type hint provided" / "Cannot resolve built-in type"; a class: `get`'s object; only a RuntimeException from `get` falls back to the default or null when the parameter allows it, and otherwise becomes "Cannot resolve dependency 'T' for parameter 'p': " plus its message; any other exception propagates |
| Container.Container.InjectedStable | src/Container/Container.php:256-285 | an argument injected against a state stays injected as instances are added by later parameters |
| Container.Container.InjectStep | src/Container/Container.php:256-285 | one loop step: a value is injected against the starting state; an error is the decided one for the first failing parameter |
| Container.Container.NeverFails | src/Container/Container.php:256-287 | when every parameter was injected, no parameter is decided to fail |
| Container.Container.Call | src/Container/Container.php:99-140 | "Callback is not callable" for a non-callable; for a `[class name, method]` callback, `get`'s outcome for the class (decided, or the build's) and its error passed on, then "Callback is not callable" when the object lacks the method; for a closure or the object's method, the arguments chosen per MethodArg, and the decided error of the first failing parameter (such as "Cannot resolve method dependency: p") |
| Container.Container.ResolveMethodDependencies | src/Container/Container.php:297-320 | each argument is the named value, the default, or `get`'s object of the parameter's class; the first parameter decided to fail raises its error ("Cannot resolve method dependency: p", or the `get` error); with all parameters named, the named values and no state change |
| Container.Container.MethodArgument | src/Container/Container.php:300-316 | one parameter: the named value, the default, "Cannot resolve method dependency: p", the `isBuiltin` error of a union type, or `get`'s result |
| Container.Container.MethodArgStable | src/Container/Container.php:300-316 | a method argument chosen against a state stays valid as instances are added by later parameters |
| Container.Container.MethodArgsStable | src/Container/Container.php:300-316 | arguments chosen after `call`'s own `get` are valid against the state before it |
| Container.Container.MethodFailsStable | src/Container/Container.php:300-316 | a parameter decided to fail before `call`'s own `get` fails the same way after it |
| Container.SingletonIsShared | src/Container/Container.php:71-73 | a second get of a singleton returns the object the first built |
| Container.PlainBindingIsFresh | src/Container/Container.php:57-79 | two gets of a plain binding return distinct objects; for a factory binding this rests on each call returning a new object (see Left out) |
| Container.InstanceOverridesSingleton | src/Container/Container.php:58-60 | a stored instance wins over a singleton binding |
| Container.AbstractIsNotInstantiable | src/Container/Container.php:187-189 | `get` of an unbound abstract class throws "Class 'X' is not instantiable" |
| Container.UnionConstructorRefused | src/Container/Container.php:238-241 | `get` of an unbound class whose constructor has a union-typed parameter throws "Union types are not supported" for the first one |
| Container.CallOfMissingClass | src/Container/Container.php:103-105 | a `[class name, method]` callback naming an unknown class throws `get`'s "Service 'X' not found and cannot be resolved" |

## Left out

- Executing the compiled PHP (`include`, `extract`, `get_defined_vars`): the engine receives it as the `execute` parameter, and the conditions of `if`, `foreach` and `set` stay opaque PHP text.
- Filesystem calls (`file_exists`, `filemtime`, `file_get_contents`, `file_put_contents`, `mkdir`): modelled as a map of files with modification times. The md5 cache key is a parameter.
- `json_encode` (the 'js' escape, the `json` filter, `Response::setJson`), `print_r` (the `dump` filter) and `date`/`strtotime` (the `date` filter) are parameters.
- Floats (a handler's result, a template value): a float is carried by its `(string)` form, which is what the router and the filters use; PHP's float formatting (the `precision` setting) and float arithmetic are not modelled.
- `htmlspecialchars`: its UTF-8 validation is not modelled, so every byte string is treated as valid.
- QuarkFilters.SortFilter: only arrays of integers are ordered. PHP's mixed-type comparison is not modelled, so a sort of any other array is an error of the model.
- QuarkFilters.TruncateFilter: a length argument that is not an integer (PHP's numeric-string coercion) is an error of the model.
- AssetManager: the logger warning for an unknown script or stylesheet name is not modelled, because the logger is outside this core.
- AssetManager.AssetManager.GetScripts: `in_array` compares loosely, so a numeric-string name also matches another name with the same numeric value ("1" and "01"); the model compares names exactly, and GetStylesheets likewise.
- QuarkFilters.LengthFilter: `is_countable` is limited to arrays. Countable objects are not modelled.
- QuarkEngine.RenderF: recursion is bounded by `fuel`. Its exhaustion stands in for PHP's stack overflow on a cyclic layout or include graph.
- QuarkEngine.CaptureF: the closure includes the named template's compiled file and the code sees only the render data. As written it includes whatever the data's `__template` entry names, which an include or a template outlet inherits from its caller, so an include re-runs its includer until PHP runs out of stack, and a template outlet re-runs the calling layout with its outlets reset to []. The model follows the evident intent (see "## Findings"); Engine.Capture likewise. The closure's `__template` and `__data` variables are not part of the scope the modelled code sees.
- `Config::serial` and the file write in `Config::set` (`var_export` plus a regex, `file_put_contents`): the existence of the section's file is a parameter.
- RouteDefinition.Matches: the regex is a parameter `pcre`. It is pinned down only for patterns without metacharacters, where PCRE's behaviour is literal.
- `RouteDefinition::getHandler` and the handlers themselves: a handler is an opaque value.
- `AbstractRouter::dispatch`/`execute` and `FileBasedRouter::loadRoutes`/`scanDirectory`/`createFileRoutes`/`execute`: they reach the application's static container and include route files.
- `Request::getPath` (`parse_url`), `getBody`/`getJson` (`php://input`, `json_decode`) and `getFiles`/`getFile`: I/O or foreign parsing.
- The Request constructor's superglobals: they become constructor parameters.
- HttpRequest.Request.IsSecure: SERVER_PORT is compared as the string '443'. PHP's loose `== 443` also accepts numeric spellings such as '443.0' or ' 443', which the model does not.
- `Response::send` (`header`, `setcookie`, `time`): output I/O.
- HttpResponse.Response.SetHeaders: header values are strings. A non-string value reaches `setHeader`'s `string $value` under strict types and throws a TypeError, which the model does not capture. Request's query and form values are likewise modelled as strings only.
- Container: `reflectionCache` and `dependencyCache` are not modelled. They change no observable result, since the metadata of a class is fixed.
- Container: a factory closure is modelled by the class of the object it returns, and each call is taken to return a new object of that class. A closure that returns the same object every time, or anything else, and a factory that calls back into the container are not modelled.
- Container.PlainBindingIsFresh: for a factory binding the two objects are distinct only because each factory call is taken to return a new object; for a class-name binding `newInstance` guarantees it. The same holds of the freshness clauses of Container.Container.Get and Container.Container.Resolve.
- Container: an intersection type (`A&B`) on a parameter is not modelled. The metadata loop calls `getName()` on it, which ReflectionIntersectionType lacks, so PHP raises an Error; only union types are modelled among composite types.
- Container: string callables naming global functions, `__call`/`__invoke` magic, constructor bodies and the TypeErrors they might raise are not modelled.
- Container.Container.Call: its result is the argument list the callable would be invoked with, not the callable's return value, which is foreign code.
- MiddlewarePipeline: what a middleware's `handle` does is the parameter `handle`. `class_exists`/`is_subclass_of` are a class table.
- ServiceProviderRegistry: what a provider's `register` and `boot` do to the container is not modelled; whether each throws is a parameter.
- Logger, ErrorHandler and its error pages, the App class, the static facades `Route` and `Quark`, the `*ServiceProvider` wiring classes and `HttpException`: they are outside this core.

## Findings

| source | as written | input that shows it | evidently intended | confidence | as-written member | corrected member |
|---|---|---|---|---|---|---|
| src/Routing/RouteCollection.php:29-30 | on a hit, `match` calls `$route->extractParams($path)` and `setParams`, which RouteDefinition does not define, so every hit ends in an Error | a collection holding route GET '/test', matched with 'GET', '/test' | return the first matching route | not executed | RouteCollection.Collection.MatchAsWritten | RouteCollection.Collection.Match |
| src/Http/Request.php:17-21 | the constructor calls `parseHeaders()` at line 19, which reads `$this->server` before line 21 assigns it; reading an uninitialised typed property is an Error | any request, for example REQUEST_METHOD 'GET' and REQUEST_URI '/' | store the server variables first, then parse the headers from them | not executed | HttpRequest.ConstructAsWritten | HttpRequest.Request.constructor |
| src/Quark/QuarkEngine.php:87-90 | the closure extracts the render data over its own `__template` parameter before including it; a compiled include passes `get_defined_vars()`, which holds the includer's `__template`, so the nested render includes the includer's compiled file instead of the named template's | 'page' is `{% include 'part' %}` and 'part' is `x`; render('page') | render('page') gives 'x' | not executed | QuarkClosure.IncludedFileAsWritten | QuarkEngine.CaptureF |
| src/Document/Document.php:200-202 | `addStylesheet` is declared `: self` but has no return statement, so the call ends in a TypeError after recording the link | addStylesheet('/a.css') | return `$this` like the other setters | not executed | Document.Document.AddStylesheetAsWritten | Document.Document.AddStylesheet |
