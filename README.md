# Lean Stack Playground: the dual sandbox run engine in Dafny

The playground runs two snippets of user code side by side: a "vanilla" version
and a "library" version of the same pattern. Each runs in its own sandboxed
iframe. A payload injected into each sandbox intercepts `console.log/error/warn/info`
and posts every call to the host page. The host's message relay checks the shape
of each message and forwards it to an output recorder. `Playground.runBoth` runs
vanilla first, then library, times each one with the host clock, and appends a
performance comparison. The application shell refuses to run two blank editors
and picks the initial pattern from a share link, the autosave or the catalogue,
in that order of priority.

The project has five modules, one per concern:

- `js_values.dfy` (`JsValues`): script values, truthiness, `String(...)`, and the
  argument rendering rule (JSON for objects, `String` otherwise). `JSON.stringify`
  and `String` of objects are left abstract in a `Render` value.
- `console_output.dfy` (`ConsoleOut`): the `ConsoleOutput` class, whose
  `messages` sequence is changed by `Clear`, `Log`, `Error`, `Warn`, `Info` and
  `Performance`. It also holds the comparison record (`Compare`, `Percentage`,
  the `toFixed(1)` rounding) and the icon and CSS-class helpers.
- `interceptor.dfy` (`Interceptor`): the text logic of the sandbox payload.
  Arguments are rendered and joined with single spaces into a record
  `{type: 'console', level, message, side}`. The module also gives the text
  reported for uncaught errors and for unhandled rejections.
- `playground.dfy` (`Engine`): the relay filter and dispatch, and the `Playground`
  class. Sandboxes are abstract handles. `live` holds the attached sandboxes,
  there are two optional slots, and `sandboxes` records what each sandbox was
  loaded with. `runBoth` is a state machine: `RunBoth` runs up to the first
  `await`, and one `Resume…` method covers each later resumption. Relay
  deliveries (`OnMessage`, `Deliver`) and re-entrant `RunBoth` calls can be
  placed between the steps.
- `app.dfy` (`Application`): the `App` class (the `runCode` gate, `loadPattern`,
  `resetToPattern`, the autosave and share-link loaders, `loadInitialState`),
  the JavaScript `trim`, pattern lookup, and the identity code compressor.

Four behaviours of the code worth knowing:

- When the library time is zero, the percentage is `Infinity` (or `NaN` when
  both times are zero). It is not 0: the code has no guard for a zero divisor.
- A re-entrant `runBoth` writes its warning to the browser's console. Nothing is
  appended to the recorder.
- There are no `performance` messages. The payload only posts console messages,
  and the relay drops every message whose type is not `'console'`. Durations are
  measured by the host around each `executeCode`, settle delay included.
- The side tokens are `'vanilla'` and `'library'`.

## Model

| member | source | states |
|---|---|---|
| `JsValues.Truthy` | js/playground.js:14-20 | `undefined`, `null`, `false`, the empty string, 0 and NaN are falsy; objects and functions are always truthy |
| `JsValues.ToText` | js/console.js:62 | `String(v)` of strings, numbers, booleans, `undefined` and `null` is their usual text; objects and functions go through the host conversion |
| `JsValues.Format` | js/console.js:54-63 | a non-null object renders as its JSON text, or its `String` text when serialisation throws; any other value renders as its `String` text |
| `JsValues.FormatText` | js/console.js:163-171 | a string argument renders as itself, whatever the host conversions do |
| `JsValues.FormatPrimitiveIgnoresRender` | js/console.js:54-63 | only objects and functions consult the host conversions |
| `ConsoleOut.ConsoleOutput.constructor` | js/console.js:3-6 | the recorder starts empty |
| `ConsoleOut.ConsoleOutput.Clear` | js/console.js:8-11 | the list is empty afterwards, so a second call gives the same state |
| `ConsoleOut.ConsoleOutput.Log` | js/console.js:13-21 | exactly one entry {message, type, side} is appended at the end and earlier entries are unchanged; type defaults to 'log' and side to 'vanilla' |
| `ConsoleOut.ConsoleOutput.Error` | js/console.js:23-25 | appends one entry of type 'error'; side defaults to 'vanilla' |
| `ConsoleOut.ConsoleOutput.Warn` | js/console.js:27-29 | appends one entry of type 'warn'; side defaults to 'vanilla' |
| `ConsoleOut.ConsoleOutput.Info` | js/console.js:31-33 | appends one entry of type 'info'; side defaults to 'vanilla' |
| `ConsoleOut.ConsoleOutput.Performance` | js/console.js:35-52 | appends exactly one performance entry, holding the comparison of the two times |
| `ConsoleOut.Compare` | js/console.js:35-47 | the record keeps both times; diff is \|l − v\|; faster is 'vanilla' iff v < l and 'library' iff l ≤ v, so a tie gives 'library' |
| `ConsoleOut.Percentage` | js/console.js:36-45 | finite iff the library time is non-zero, and then the non-negative `toFixed(1)` rounding of \|l − v\| / \|l\| × 100 (whole tenths, within 0.05, ties up); a zero library time gives NaN iff the vanilla time is also zero, and Infinity otherwise |
| `ConsoleOut.RoundToTenth` | js/console.js:37-45 | the rounded value is non-negative, is a whole number of tenths, and lies in (y − 0.05, y + 0.05], so a tie rounds up |
| `ConsoleOut.RoundToTenthNearest` | js/console.js:37 | no multiple of one tenth is closer to the input than the rounded value |
| `ConsoleOut.CompareSwapped` | js/console.js:36-44 | diff is the same in both argument orders; the side named faster changes with the order exactly when the times differ |
| `ConsoleOut.PercentageOrderMatters` | js/console.js:36-37 | the percentage is relative to the library time: (10, 20) gives 50 and (20, 10) gives 100 |
| `ConsoleOut.CompareExample` | js/console.js:35-47 | (10, 20) gives diff 10, 50 percent, and vanilla faster |
| `ConsoleOut.TypeIconAsWritten` | js/console.js:65-74 | table types get their icon; names inherited from `Object.prototype` yield the inherited member; any other type gets the log icon |
| `ConsoleOut.TypeIconInheritsPrototype` | js/console.js:73 | 'constructor' and 'toString' do not fall back to the log icon |
| `ConsoleOut.TypeIcon` | js/console.js:65-74 | table types get their own icon; every other type gets the log icon |
| `ConsoleOut.TypeIconAgrees` | js/console.js:73 | the intended lookup differs from the written one only on inherited names |
| `ConsoleOut.TypeClass` | js/console.js:76-78 | the class is "console-" followed by the type, and the type can be read back from it |
| `ConsoleOut.TypeClassInjective` | js/console.js:76-78 | different types get different classes |
| `Interceptor.Join` | js/console.js:172 | no parts join to the empty text; one part joins to that part |
| `Interceptor.JoinLength` | js/console.js:163-172 | the joined text is every part plus one separator between each pair of neighbours |
| `Interceptor.JoinEmpty` | js/console.js:163-172 | the message is empty iff there are no arguments, or exactly one whose rendering is empty |
| `Interceptor.SplitJoin` | js/console.js:172 | splitting the joined text at spaces gives back the parts, when no part holds a space |
| `Interceptor.JoinSplit` | js/console.js:172 | joining the pieces of a split gives back the text |
| `Interceptor.Renderings` | js/console.js:163-171 | one rendering per argument, in order, each by the rendering rule |
| `Interceptor.Message` | js/console.js:162-179 | the posted record has type 'console', the intercepted level, the sandbox's side token, and the renderings joined by single spaces as its message |
| `Interceptor.MessageRecoversArguments` | js/console.js:162-179 | when no rendering holds a space, each argument's rendering can be read back from the message, in order |
| `Interceptor.Decimal` | js/console.js:206 | a line number's text is a non-empty run of decimal digits with no leading zero, as `String(lineno)` prints it |
| `Interceptor.DecimalRoundTrip` | js/console.js:206 | the line number can be read back from its text |
| `Interceptor.RuntimeErrorArgument` | js/console.js:203-208 | with an error object: its stack if truthy, else its message; without one: the event message + " (Line " + line + ")" |
| `Interceptor.RuntimeErrorMessage` | js/console.js:203-208 | the `error` trap posts a 'console' record of level 'error' from its own side, whose text is the rendering of the reported argument |
| `Interceptor.RuntimeErrorText` | js/console.js:203-208 | the `error` trap posts an 'error' record whose text is the rendered stack, the rendered message, or the event message with its line |
| `Interceptor.RejectionMessage` | js/console.js:212-216 | the rejection trap posts a 'console' record of level 'error' from its own side, with the text "Unhandled Promise Rejection:" + " " + the rendered reason |
| `Interceptor.RejectionText` | js/console.js:212-216 | the rejection trap posts an 'error' record with the text "Unhandled Promise Rejection:" + " " + the rendered reason |
| `Engine.Accepts` | js/playground.js:14-20 | a message passes the shape check iff data is present, its type is 'console', level and message are truthy, and side is 'vanilla' or 'library' |
| `Engine.DispatchAsWritten` | js/playground.js:19-21 | as written, a forwarded 'log' records type = the side token and side = 'vanilla'; error, warn and info record their level and the reported side |
| `Engine.LibraryLogMisattributed` | js/playground.js:21 | a library-side 'log' of "y" is recorded as type 'library' on side 'vanilla' |
| `Engine.Dispatch` | js/playground.js:19-22 | corrected dispatch: the line keeps the reported message, level and side |
| `Engine.DispatchAgrees` | js/playground.js:21 | the two dispatches agree iff the level is not 'log' |
| `Engine.RelayAsWritten` | js/playground.js:12-23 | what the listener records for one message: at most one entry, none iff it fails the shape check, and otherwise the as-written dispatch |
| `Engine.Relay` | js/playground.js:12-23 | the corrected relay: at most one entry, none iff the message fails the shape check, and otherwise the corrected dispatch |
| `Engine.RelayForwards` | js/playground.js:14-22 | a message is forwarded iff data is present, its type is 'console', level and message are truthy and side is 'vanilla' or 'library'; a 'log' is recorded as (message, side token, 'vanilla'), the other levels as (message, level, side) |
| `Engine.RelayAgrees` | js/playground.js:21 | the corrected relay differs from the listener exactly on accepted 'log' messages, and records the reported level and side |
| `Engine.RelayAllShape` | js/playground.js:14-22 | a stream gives at most one line per message; every line has side 'vanilla' or 'library' and a type among error, warn, info and the two side tokens, never 'log'; a line whose type is a side token is on side 'vanilla' |
| `Engine.RelayAllRejects` | js/playground.js:14-16 | messages that all fail the check leave the recorder unchanged |
| `Engine.InterceptedCallRecorded` | js/console.js:162-179 | end to end, a call intercepted in a sandbox with a recognised side becomes one line holding its joined text; error, warn and info keep level and side, a 'log' becomes (text, side token, 'vanilla'); a call with an empty text is dropped |
| `Engine.EmptyCallDropped` | js/playground.js:20 | a call with no arguments never reaches the recorder |
| `Engine.ForeignSideDropped` | js/playground.js:20 | a sandbox whose side token is neither 'vanilla' nor 'library' is never heard |
| `Engine.ExecutionError` | js/playground.js:129 | the caught error is reported as "Execution error: " followed by its message, which can be read back |
| `Engine.Playground.constructor` | js/playground.js:3-9 | both slots empty, nothing attached, not running |
| `Engine.Playground.DestroyIframe` | js/playground.js:38-42 | the sandbox is detached; an absent or already-detached sandbox leaves `live` unchanged |
| `Engine.Playground.ExecuteCode` | js/playground.js:44-56 | that side's slot holds a freshly created sandbox loaded with (side, code); the sandbox previously in that slot is no longer live; the other slot and its sandbox are unchanged |
| `Engine.Playground.OnMessage` | js/playground.js:12-23 | the recorder gains exactly what `RelayAsWritten` gives for the message: a 'log' is passed (message, side), so its side lands in the type parameter |
| `Engine.Playground.Deliver` | js/playground.js:12-23 | a stream of messages arriving during a suspension is recorded in arrival order, each as the listener records it |
| `Engine.Playground.RunBoth` | js/playground.js:97-109 | while running: no change to the recorder, the slots or `isRunning`; otherwise the cycle is running, the recorder is cleared and the vanilla sandbox starts; a fault records one "Execution error: " entry on side 'vanilla' and clears `isRunning` |
| `Engine.Playground.ResumeAfterVanilla` | js/playground.js:109-114 | the vanilla duration end − start (≥ 0) is kept and the cooldown starts |
| `Engine.Playground.ResumeAfterCooldown` | js/playground.js:114-132 | the library sandbox starts in the library slot; a fault appends one execution-error entry, adds no performance entry, and clears `isRunning` |
| `Engine.Playground.ResumeAfterLibrary` | js/playground.js:118-123 | the library duration end − start (≥ 0) is kept and the drain starts |
| `Engine.Playground.ResumeAfterDrain` | js/playground.js:123-132 | exactly one performance entry, for (vanillaTime, libraryTime), is appended last, and `isRunning` is false again |
| `Engine.Playground.Cleanup` | js/playground.js:135-140 | both slots are empty and no sandbox is live |
| `Engine.Playground.Reset` | js/playground.js:142-145 | cleanup, then an empty recorder |
| `Engine.Playground.VanillaStage` | js/playground.js:103-114 | from idle, a fault-free vanilla half: the recorder holds the messages of the settle delay and the cooldown as the listener records them, the vanilla slot holds a new sandbox loaded with the vanilla code, and the measured duration is end − start |
| `Engine.Playground.LibraryStage` | js/playground.js:114-132 | from the cooldown, a fault-free library half: the library slot holds a new sandbox loaded with the library code, the recorder gains the relayed messages and then one comparison of the kept vanilla duration with end − start, and the cycle is idle again |
| `Engine.Playground.CompleteCycle` | js/playground.js:97-133 | a fault-free cycle ends not running; the recorder holds the messages as the listener records them, in order, and one final comparison of the two clock differences; vanilla's sandbox is created before library's and each is loaded with its own code |
| `Application.Trim` | js/app.js:229 | `trim()` never lengthens the text, and a non-empty result does not end in white space |
| `Application.TrimShape` | js/app.js:229 | `trim()` gives a contiguous piece of the text with no white space at either end, and everything around it is white space |
| `Application.Blank` | js/app.js:229 | the empty text is blank, and a blank text holds nothing but white space |
| `Application.TrimStart` | js/app.js:229 | leading white space is dropped: the rest is a suffix that starts with a non-space |
| `Application.TrimEnd` | js/app.js:229 | trailing white space is dropped: the rest is a prefix that ends with a non-space |
| `Application.BlankIffAllSpace` | js/app.js:229 | a text is blank after trimming iff every one of its characters is white space |
| `Application.FindIndex` | js/app.js:272 | the first pattern with the requested id; none when no pattern has it or the id is absent |
| `Application.Find` | js/app.js:326 | a pattern found has the id and is the first pattern with it; nothing is found iff no pattern has the id |
| `Application.Compress` | js/app.js:361-365 | the compressed code is the code itself, character for character |
| `Application.Decompress` | js/app.js:367-369 | the decompressed code is the code itself, character for character |
| `Application.DecompressCompress` | js/app.js:361-369 | decompressing a compressed code gives the code back |
| `Application.InitialSource` | js/app.js:349-359 | the share link if it loads, else the autosave if it loads, else the default |
| `Application.InitialPattern` | js/app.js:349-359 | the start-up pattern is always one of the catalogue |
| `Application.InitialPatternPriority` | js/app.js:349-359 | a link naming a known pattern gives that pattern, whatever the autosave holds; otherwise an autosave naming a known pattern gives that pattern; `patterns[0]` is used when neither loads |
| `Application.App.constructor` | js/app.js:15-29 | the recorder and the engine are wired together, nothing is loaded yet, and nothing is running |
| `Application.App.LoadPattern` | js/app.js:182-208 | the pattern becomes current, its code fills the editors, and the recorder is cleared |
| `Application.App.ResetToPattern` | js/app.js:247-251 | with no current pattern nothing changes; otherwise the current pattern is reloaded |
| `Application.App.NothingToRun` | js/app.js:229 | two empty editors are always gated |
| `Application.App.NothingToRunIffAllSpace` | js/app.js:229 | the gate holds iff both editor texts are made only of white space |
| `Application.App.RunCode` | js/app.js:225-245 | two blank editors: the recorder holds exactly one 'warn' "No code to execute" on side 'vanilla' and the engine is untouched; otherwise `runBoth` starts with the two editor texts unchanged: a fresh vanilla sandbox replaces the old one, the library slot is kept, and the handle counter moves on by one; a fault while starting leaves an idle engine with one execution-error line and creates no sandbox |
| `Application.App.LoadFromAutoSave` | js/app.js:264-293 | returns true iff a parsed state names a known pattern; otherwise nothing changes; on success the pattern becomes current and the editors get the saved code |
| `Application.App.LoadFromURL` | js/app.js:316-347 | returns true iff a decoded link names a known pattern; otherwise nothing changes; on success the editors get the link's code |
| `Application.App.LoadInitialState` | js/app.js:349-359 | the current pattern is the one the URL > autosave > first-pattern priority picks; the recorder is cleared only in the default branch |

## Findings

| source | as written | input that shows it | evidently intended | confidence | as-written member | corrected member |
|---|---|---|---|---|---|---|
| js/playground.js:21 | the relay passes (message, side) to every recorder method, but for `log` the second parameter is the type, so the side becomes the type and the side falls back to 'vanilla' | a message {type 'console', level 'log', message 'y', side 'library'} | an entry of type 'log' on side 'library', as for error, warn and info | not executed; high | `Engine.LibraryLogMisattributed` | `Engine.Dispatch` |
| js/console.js:73 | the icon table is a plain object, so a type that names an `Object.prototype` member finds that inherited member instead of the fallback | type 'constructor' (or 'toString') | the log icon, as for any other unknown type | not executed; high that the lookup inherits, low that such a type reaches rendering | `ConsoleOut.TypeIconInheritsPrototype` | `ConsoleOut.TypeIcon` |

The engine's listener (`Engine.Playground.OnMessage`, and with it `Deliver` and `CompleteCycle`) records what the program records, through `Engine.RelayAsWritten`. The intended behaviour is `Engine.Dispatch` and `Engine.Relay`. `Engine.DispatchAgrees` and `Engine.RelayAgrees` prove that the two differ only on an accepted `log`.

## Left out

- Iframe creation and its `sandbox` and CSP attributes, and the `srcdoc` document assembly (js/playground.js:26-36, 59-84): a sandbox is an opaque handle loaded with a (side, code) pair.
- The user-code wrapper inside the sandbox document (js/playground.js:70-77) and its error text: the code in the sandbox is never interpreted.
- Rendering to the page (`render`, `renderPerformanceMessage`, `escapeHtml`): DOM work.
- Timers and awaits: the 50, 100 and 500 ms delays became boundaries between step methods. Clock readings (`performance.now()`) are real-valued inputs assumed not to go backwards within one measurement. The entries' `Date.now()` timestamps are not recorded.
- `postMessage`, listener registration and `preventDefault`. So is the interceptor's pass-through to the original console methods. Only the text they compute is modelled.
- The relay does not check the sender (`event.source` or origin), so a late message from a detached sandbox is accepted like any other. The model's `OnMessage` takes arbitrary data for this reason.
- `Engine.Playground.OnMessage`: only the levels log, error, warn and info are modelled (its precondition `LevelModelled`). The code would call any recorder method named by the level.
- `JsValues.ToText`: `String(obj)` is total in the model. A `String` that throws is not modelled, such as a throwing `toString` or an object without a prototype after `JSON.stringify` fails. In the program that exception escapes the interceptor into the user's code.
- `JsValues.Format`: `JSON.stringify` and `String` of objects are the uninterpreted `Render`. A `JSON.stringify` that returns `undefined` is not modelled. A number is represented by its printed text.
- `ConsoleOut.Percentage`: the `toFixed(1)` rounding is modelled over exact reals. It does not model binary floating-point error or `toFixed`'s exponent form for magnitudes of 1e21 and above.
- A thrown value caught by the runtime-error trap is modelled by its `stack` and `message` properties. A falsy thrown value takes the no-error branch.
- Faults in `runBoth` are an input of the two steps that call `executeCode`, and are taken to happen before the sandbox is created. The rejected `await` resumes before any message can arrive, so the catch and finally blocks run in the same step.
- `localStorage`, `autoSave`, `shareCode`, `btoa`/`atob`/`JSON.parse`: stored and linked states arrive already decoded, as `Stored` and `UrlCode`. Neither `setValue` of a stored non-string code nor its failure inside the loaders is modelled.
- The Monaco editor setup is left out: the editors are their text contents and always exist, so the editor guard in `loadPattern` always holds. Also left out: clipboard, toast, keyboard shortcuts, event wiring, pattern-card highlighting, `updatePatternInfo`, the run button's state, and the lines written to the browser's console.
- `Application.App.RunCode` covers `runCode` up to the first suspension of the cycle it starts. The rest of the cycle is the `Resume…` steps.
- The pattern catalogue (js/patterns/patterns.js) is a non-empty sequence of records with id, title and code.
- The icon literals are taken code point for code point from js/console.js. As that file holds them, they are emoji encoded as UTF-8 and read back as Windows-1252 text.
