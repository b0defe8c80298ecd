# tasksfile / runjs task runner — a Dafny model

The repository is a small command-line task runner. A tasks file (`runfile.js`,
`tasksfile.js`) exports functions, possibly grouped in nested objects. The runner:

- lists the exported tasks;
- resolves a colon-separated name such as `lint:fix` to a function and runs it with the
  command-line arguments;
- gives tasks a `run` helper that executes shell commands with `node_modules/.bin` on the
  PATH.

The repository holds several generations of this runner:

- root `index.js` and `script.js`;
- `lib/` (compiled ES5);
- `src/*.js` (Flow);
- `src/*.ts` (TypeScript).

This project models all of them.

Modules:

- **Js**: the JavaScript values and string operations the runner relies on:
  - `split('\n')[0]`;
  - splitting at the first `:`;
  - `join`;
  - lodash `padEnd`, with the width counted in code points;
  - `${n}` for integers.
- **Errors**: the runner's errors.
  - `RunJSError` of lib/common.js and src/common.js, `TasksfileError` of src/common.ts and
    `ShellError` of src/shell.ts. Each keeps only the first line of its message.
  - The plain errors and the `TypeError` of calling something that is not a function.
- **Registry**: the exported task tree, with its keys in insertion order. It provides:
  - `Listing`, the reference list of every task with its colon-joined name;
  - `Outline`, the generic shape of the recursive `describe`.
- **Effects**: what a caller can observe, recorded in order:
  - logger calls by level;
  - module requires;
  - task invocations;
  - the wrapper's Running/Finished lines.
- **ArgParser**: `parseArgs` of lib/script.js. It covers the flag shapes the two regular
  expressions recognise, the `Number(v) || v || true` coercion and the filtering loop.
- **LibScript**: the lib/script.js dispatcher:
  - `call` with its depth;
  - the per-task `help` page;
  - `describe`.
- **SrcScript**: `call` and `describe` of src/script.ts and src/script.js. A `Generation`
  parameter separates the two files. `microcli` is a function parameter.
- **Loader**: `load` of all three script files. Loading a module and checking file access
  are function parameters.
- **Shell**:
  - `shell`/`shellSync`/`shellAsync` of src/shell.ts;
  - `runSync`/`runAsync` of src/index.js;
  - the settle-once promise as a state machine over the events a child delivers, and as a
    class whose methods are the event handlers.
- **SrcIndex**: of src/index.ts and src/index.js:
  - `run`, with the environment object whose PATH it rewrites in place;
  - `options` and `option`;
  - `help`.
- **Flat**: the flat dispatchers and their `run`s.
  - `call` of lib/index.js and index.js, and `runTask` of script.js. They work on a task
    table class whose entries are wrapped in place.
  - `run` of lib/index.js and index.js. They update the caller's options object in place.

Where the source changes state, so does the model:

- `run` writes the new PATH into the environment object it was given. That is
  `process.env` itself when no `env` option is passed, so every call prepends the bin
  directory again.
- lib/index.js and index.js replace every task entry by a wrapper before the lookup.
- lib/index.js and index.js set defaults on the caller's options object.
- The async handlers update one shared `output` variable and settle the promise once.

The timer `shellAsync`/`runAsync` sets is never cleared: a timer that fires after `close`
still kills the child, although the promise is already settled.

## Model

| member | source | states |
|---|---|---|
| Js.FirstLine | src/common.ts:5 | the result is a prefix of the message without '\n', and when shorter it stops right before a '\n' |
| Js.FirstLineUnique | src/common.js:7 | those three facts determine the first line uniquely |
| Js.SplitFirst | lib/script.js:134-136 | the head holds no separator and head + sep + tail rebuilds the name; a name without separator is all head |
| Js.SplitFirstOfJoin | src/script.ts:134-136 | splitting `key:rest` with a separator-free key gives back key and rest |
| Js.PadEnd | src/script.ts:91 | the text is kept as a prefix, padded with spaces to the width in code points, never shortened |
| Js.NatToString | src/shell.ts:48 | `${n}` is a non-empty string of decimal digits |
| Errors.Truncate | src/common.ts:5 | an undefined message stays undefined; otherwise the result is a newline-free prefix ending right before the first '\n' |
| Errors.TruncateKeepsSingleLine | src/common.js:7 | a single-line message is kept unchanged |
| Errors.TruncateKeeps | src/common.ts:5 | an undefined or newline-free message passes through unchanged |
| Errors.TruncateIdempotent | src/common.ts:5 | truncating a truncated message changes nothing |
| Errors.LibRunJSError | lib/common.js:4-9 | name is 'RunJSError', the message is the truncated message (undefined stays undefined), and the error is an instance of RunJSError and of Error |
| Errors.TasksfileErrorOf | src/common.ts:3-8 | a TasksfileError whose message is a newline-free prefix of the given one, unchanged when single-line, '' for undefined |
| Errors.RunJSErrorOf | src/common.js:5-10 | the same for the Flow RunJSError |
| Errors.ShellErrorOf | src/shell.ts:3-8 | the same for ShellError |
| Registry.Find | lib/script.js:124 | the value found is the first member with that key; no value means no member has the key |
| Registry.Get | lib/script.js:124 | `obj[key]` is an own member of a namespace object and structurally smaller; a miss means no such key |
| Registry.GetMember | src/script.ts:120 | in a well-keyed object each member is what its key looks up |
| Registry.WellKeyedHasNonEmptyKeys | lib/script.js:134-137 | unique, colon-free, non-empty keys are non-empty at every depth |
| Registry.PrefixAll | lib/script.js:84 | every listed name gets the namespace and ':' in front, nothing else changes |
| Registry.PrefixAllAppend | lib/script.js:84 | prefixing distributes over concatenated listings |
| Registry.ListingShift | lib/script.js:84 | listing below `p:q` is listing below `q` with `p:` in front |
| Registry.ListingUpToShift | lib/script.js:82-101 | the same for every prefix of a namespace's members |
| Registry.ListingBelowKey | src/script.ts:75 | listing below a key is the top-level listing with `key:` in front |
| Registry.ListingUpToBelowKey | src/script.ts:73-99 | the same for every prefix of a namespace's members |
| Registry.ListingHoldsTasks | src/script.ts:78 | every listed entry is a function |
| Registry.ListingUpToHoldsTasks | src/script.ts:76-99 | the same for every prefix of a namespace's members |
| Registry.ListedNameShape | lib/script.js:124-145 | a listed name is a member's own key holding the task, or `key:rest` with `rest` listed inside member `key` |
| Registry.ListedNameShapeUpTo | lib/script.js:82-101 | the same, restricted to the first n members |
| Registry.BlocksAppend | lib/script.js:82 | the lines of concatenated listings are the concatenated lines |
| Registry.OutlineIsListing | lib/script.js:77-104 | with non-empty keys, the recursive describe traversal is one block per listed task in listing order, framed by the header and the footer at the top level only |
| Registry.OutlineUpToIsListing | src/script.ts:73-99 | after the first i members, the traversal has produced the blocks of their listed tasks |
| Registry.OutlineStep | src/script.ts:73-99 | one more member extends the traversal by the blocks of that member's tasks |
| Registry.OutlineMemberIsListing | src/script.ts:77-99 | the output for one member is the blocks of that member's listed tasks |
| Registry.ColonNameIsNoKey | lib/script.js:124 | a name containing ':' is no key of a well-keyed object, so the direct lookup misses |
| Registry.MemberListed | src/script.ts:97-98 | every task listed inside a member is listed in the enclosing object |
| Registry.MemberListedUpTo | src/script.ts:73-99 | the same for every prefix of a namespace's members |
| Registry.NestedListed | src/script.js:90-91 | a task listed under `r` in member `key` is listed under `key:r` |
| Registry.DescentListed | lib/script.js:134-145 | when the first segment names a namespace in which the rest is listed, the whole name is listed |
| Registry.ListedNamesNonEmpty | src/script.ts:118 | with non-empty keys, no listed name is '' |
| ArgParser.Classify | lib/script.js:55-56 | a token classified as a flag has a one-character name after '-', or a word name after '--', with a word value |
| ArgParser.RenderClassify | lib/script.js:55-56 | every classified token renders back to itself |
| ArgParser.ClassifyRender | lib/script.js:55-56 | every well-formed flag classifies back to itself |
| ArgParser.FlagShapes | lib/script.js:55-56 | a token is a flag iff it is the rendering of a well-formed flag (`-c`, `-c=v`, `--name`, `--name=v` over `[A-Za-z0-9_.-]`) |
| ArgParser.Coerce | lib/script.js:59 | an absent or empty value is `true`; a decimal integer numeral (such as '007') with non-zero value is that number; a zero numeral is the text; any other non-empty text is the text unless `Number` reads it as a non-zero number, which it then is |
| ArgParser.CoerceTruthy | lib/script.js:59 | every stored flag value is truthy |
| ArgParser.DigitCharValue | lib/script.js:59 | the digit character of d reads back as d |
| ArgParser.DigitsOfNat | lib/script.js:59 | the decimal text of n is all digits and reads back as n |
| ArgParser.CoerceInteger | lib/script.js:59 | the text of any non-zero integer coerces to that integer |
| ArgParser.ParseArgs | lib/script.js:52-75 | the filtering loop that fills `options` computes `Parse` |
| ArgParser.ParseClassifiesOnce | lib/script.js:54-69 | positionals plus flag tokens are a permutation of the input; every kept token is positional and every dropped one a flag |
| ArgParser.ParsePartitions | lib/script.js:54-69 | kept and dropped tokens together are exactly the input tokens |
| ArgParser.PartitionStep | lib/script.js:54-69 | handling one token keeps it or records it, never both |
| ArgParser.ParseKinds | lib/script.js:54-69 | positionals are never flags and dropped tokens always are |
| ArgParser.ParseLastToken | lib/script.js:54-69 | parsing one more token adds it to the positionals or to the options |
| ArgParser.ParseAppend | lib/script.js:54-69 | parsing `a + b` keeps the positionals in input order, and options from `b` override those from `a` |
| ArgParser.ParseOptionKeys | lib/script.js:58-66 | a name is an option key iff some token is a flag with that name |
| ArgParser.ParseLastOption | lib/script.js:58-66 | a flag token puts its name among the option keys |
| ArgParser.ParseLastWins | lib/script.js:58-66 | the last flag with a name decides its value |
| ArgParser.ParseHelpOption | lib/script.js:126 | a `help` option is truthy whenever present |
| ArgParser.ParseHelpOptionValue | lib/script.js:58-66 | every option value is truthy |
| ArgParser.ShortFlagHasOneCharacter | lib/script.js:56 | `-abc` stays positional |
| ArgParser.LongFlagNeedsWordValue | lib/script.js:55 | `--name=v` with a non-word character in v stays positional |
| ArgParser.UrlValueStaysPositional | lib/script.js:55 | `--host=http://x/` stays positional |
| ArgParser.DigitsValue123 | lib/script.js:59 | '123' is a decimal numeral of value 123 |
| ArgParser.IntegerValueExample | lib/script.js:59 | `-a=123` is flag a with value 123 |
| ArgParser.LongValueExample | lib/script.js:64 | `--abc=test` is flag abc with value 'test' |
| ArgParser.TextValueExample | lib/script.js:64 | the value 'test' stays text |
| ArgParser.PresentAndZeroExamples | lib/script.js:59 | `-a` and `-a=` store `true`; `-a=0` stores the text '0' |
| Effects.CallsAt | lib/script.js:95-99 | the calls made at a level are among the recorded effects |
| Effects.CallsAtAppend | lib/script.js:95-99 | the calls at a level of two runs in sequence are the concatenation |
| Effects.PrintStep | lib/script.js:106-119 | one more logger call extends only its own level's record |
| Effects.Invoked | lib/script.js:130 | the invoked tasks are among the recorded effects |
| Effects.InvokedAppend | lib/script.js:130 | the invocations of two runs in sequence are the concatenation |
| Effects.PrintsInvokeNothing | lib/script.js:106-119 | logger calls invoke no task |
| Effects.Required | lib/script.js:32 | the required paths are among the recorded effects |
| Effects.RequiredAppend | lib/script.js:29-34 | the requires of two runs in sequence are the concatenation |
| Loader.TasksFilePath | lib/script.js:27 | the configured path when non-empty, otherwise the non-empty default |
| Loader.NoFile | src/script.ts:55-59 | a TasksfileError (src/script.ts) or RunJSError (lib, src/script.js) "No <path> defined in <cwd>" |
| Loader.DefaultExport | lib/script.js:45-49 | the module's `default` when truthy, otherwise the module itself |
| Loader.RequireAllStopsAtFailure | lib/script.js:29-34 | once a require throws, the later modules are not required |
| Loader.RequireAllInOrder | lib/script.js:29-34 | modules are required in configured order up to the first that fails; the loop completes iff all load |
| Loader.RequireLast | src/script.ts:45-50 | the step of the loop once every earlier module has loaded |
| Loader.Load | lib/script.js:26-50 | the loop-and-early-exit implementation of `load` computes `LoadSpec` |
| Loader.LoadOutcome | src/script.ts:37-66 | `load` returns iff all modules load, the file is accessible and it loads; it returns the default export after requiring the modules in order and the file last; an inaccessible file throws NoFile without requiring it |
| Shell.SyncResult | src/shell.ts:69-86 | the sync runner throws iff execSync threw, with a ShellError/RunJSError of the first message line; a Buffer gives its text; an empty string gives null (src/shell.ts) or '' (src/index.js) |
| Shell.SyncErrorFirstLine | src/index.js:16-26 | the error of a failed sync run carries exactly the first line of the message |
| Shell.Settle | src/shell.ts:25 | `resolve`/`reject` settle a pending promise and change nothing once it is settled |
| Shell.Step | src/shell.ts:34-65 | a settled promise stays settled; a piped chunk replaces the output; the timer kills iff a timeout was set; a pending promise gets the event's verdict |
| Shell.SettledStays | src/index.js:28-58 | after settling, no later event changes the outcome |
| Shell.FirstSettlerDecides | src/shell.ts:34-65 | the first of close, error and timeout to fire decides the outcome |
| Shell.CloseResolvesLastChunk | src/shell.ts:42-58 | close with code 0 resolves with the last chunk captured, or null when stdout is not piped |
| Shell.TimerFiresAfterClose | src/shell.ts:60-65 | the timer is never cleared: it kills the child after close, while the outcome stays what close decided |
| Shell.UntimedNeverKills | src/index.js:51-56 | without a timeout the child is never killed |
| Shell.AsyncCommand.constructor | src/shell.ts:25-32 | a pending promise with null output |
| Shell.AsyncCommand.Resolve | src/shell.ts:44 | the promise state after `resolve` |
| Shell.AsyncCommand.Reject | src/shell.ts:46-50 | the promise state after `reject` |
| Shell.AsyncCommand.OnData | src/shell.ts:54-58 | the data handler is one machine step |
| Shell.AsyncCommand.OnClose | src/shell.ts:42-52 | the close handler is one machine step |
| Shell.AsyncCommand.OnError | src/shell.ts:34-40 | the error handler is one machine step |
| Shell.AsyncCommand.OnTimeout | src/shell.ts:60-65 | the timer callback is one machine step |
| Shell.AsyncCommand.Deliver | src/index.js:33-56 | delivering any event is one machine step |
| Shell.AsyncCommand.DeliverAll | src/index.js:28-58 | delivering events in order runs the machine over them |
| Shell.ShellCall | src/shell.ts:98-102 | async iff options are given with a truthy `async`; stdio defaults to 'inherit'; only the async path sets `shell: true`; the sync result is mapped by `SyncResult` |
| Shell.RunFlow | src/index.js:83-88 | `runAsync` iff `async`, with the normalised options passed as they are |
| LibScript.ParamsDoc | lib/script.js:94 | '' exactly when there are no parameters |
| LibScript.HelpPage | lib/script.js:106-119 | seven logger calls beginning with ' ' and ARGUMENTS, or a throw after those two when parameter names cannot be read |
| LibScript.HelpPageCalls | lib/script.js:106-119 | `info` records ARGUMENTS and DESCRIPTION; `log` records the spacers, `[p1 p2]` or 'None', and the help or 'None'; no task runs |
| LibScript.PageLines | lib/script.js:106-119 | the page is seven logger calls |
| LibScript.PageLinesInfo | lib/script.js:107-117 | the `info` calls of the page |
| LibScript.PageLinesLog | lib/script.js:107-118 | the `log` calls of the page |
| LibScript.Run | lib/script.js:124-132 | with a `help` option the help page is shown and nothing runs; otherwise the task runs once with `{options}` and the positionals; the task is returned |
| LibScript.Call | lib/script.js:121-150 | depth 0 never returns undefined; the only error `call` itself throws is "Task <name> not found" at depth 0; anything returned is a task |
| LibScript.CallOnLeaf | lib/script.js:140-149 | below a non-object nothing resolves |
| LibScript.CallDirect | lib/script.js:124-132 | a function under the whole name runs before any split |
| LibScript.CallDescend | lib/script.js:134-149 | otherwise the rest of the name is resolved in the member named by the first segment; a miss throws at depth 0 only |
| LibScript.CallFindsListed | lib/script.js:121-150 | every listed task runs under its listed name, at any depth |
| LibScript.CallThroughMember | lib/script.js:134-145 | resolving `key:r` is resolving `r` in member `key` |
| LibScript.Miss | lib/script.js:147-149 | a miss logs nothing; it is undefined below the top |
| LibScript.CallRunsOnlyListed | lib/script.js:121-150 | whatever `call` runs is listed under the given name; any other name misses |
| LibScript.StaysRunsListed | lib/script.js:124-132 | the same when `call` does not descend |
| LibScript.DescentIsListed | lib/script.js:134-145 | the same when `call` descends |
| LibScript.UnlistedNameNotFound | lib/script.js:147-149 | an unlisted name throws "Task <name> not found" |
| LibScript.FlatKeyWins | lib/script.js:124-132 | a function under 'f:g:h' wins over a nested f.g.h |
| LibScript.TaskBlock | lib/script.js:87-99 | a task prints name and `[params]` with `info`, its help with `log` when truthy, then an `info` spacer |
| LibScript.Describe | lib/script.js:77-104 | the header at the top level only, then one block per listed task in key order; nested objects recurse and other values are skipped |
| LibScript.DescribeMember | lib/script.js:82-102 | one turn of the key loop is the outline of that member |
| SrcScript.NotFound | src/script.ts:150-152 | TasksfileError (src/script.ts) or RunJSError (src/script.js) "Task <name> not found" |
| SrcScript.Dispatch | src/script.ts:120-131 | the task is returned unless microcli rejects; when microcli parses, the task runs once with `{options}` and the params; otherwise nothing runs |
| SrcScript.Call | src/script.ts:112-153 | as written: a call without a subtask name never returns undefined; the errors are "Task <args[2]> not found" or microcli's; anything returned is a task |
| SrcScript.CallFindsListed | src/script.ts:118-148 | every listed task is dispatched under its listed name |
| SrcScript.CallThroughMember | src/script.js:122-131 | resolving `key:r` is resolving `r` in member `key` |
| SrcScript.CallFromTop | src/script.ts:118 | from the top, the name in `args[2]` dispatches the task listed under it |
| SrcScript.FallbackRunsUnlistedName | src/script.ts:118 | as written, `b` in `{b: {b: fn}}` is not listed yet runs `b:b` |
| SrcScript.CallCorrected | src/script.js:105-136 | with the fallback only at the top: the top never returns undefined; a miss throws only there |
| SrcScript.Miss | src/script.ts:150-152 | a miss logs nothing; it is undefined below the top |
| SrcScript.CorrectedRunsOnlyListed | src/script.ts:112-153 | corrected `call` dispatches only tasks listed under the name; other names miss |
| SrcScript.CorrectedStays | src/script.ts:120-131 | the same when `call` does not descend |
| SrcScript.CorrectedDescend | src/script.ts:134-152 | one level of corrected descent |
| SrcScript.CorrectedDescentIsListed | src/script.ts:134-148 | the same when `call` descends |
| SrcScript.CorrectedFindsListed | src/script.ts:112-153 | corrected `call` still dispatches every listed task under its name |
| SrcScript.CorrectedThroughMember | src/script.ts:134-148 | corrected, resolving `key:r` is resolving `r` in member `key` |
| SrcScript.CorrectedRejectsUnlistedName | src/script.ts:150-152 | corrected, `b` in `{b: {b: fn}}` is not found |
| SrcScript.Description | src/script.ts:89-90 | a description exists iff help is a non-empty string or has a non-empty description, and it is that string or that description |
| SrcScript.ListedParams | src/script.ts:80-86 | parameters are listed iff `help.params` is a non-empty array |
| SrcScript.TaskLine | src/script.ts:78-96 | one `log` call: the bold name, ` [p1 p2]` (src/script.ts only), and with a description exactly three arguments: that field padded with spaces to 40 characters, '-', and the description's first line |
| SrcScript.LogArgs | src/script.js:78-89 | the step-by-step `logArgs` is that line's arguments |
| SrcScript.Describe | src/script.ts:68-110 | header and footer at the top only, one line per listed task in key order |
| SrcScript.DescribeMember | src/script.js:71-93 | one turn of the key loop is the outline of that member |
| SrcIndex.Env.constructor | src/index.ts:43 | an environment object with the given variables |
| SrcIndex.AugmentedPath | src/index.ts:51-53 | bin path and delimiter first, then the object's PATH, or the process PATH when that is falsy |
| SrcIndex.RunTwicePrependsTwice | src/index.js:76-78 | two runs on `process.env` leave the bin directory twice in front |
| SrcIndex.Normalised | src/index.ts:40-46 | `async` as a boolean, stdio defaulting to 'inherit', env, cwd and timeout copied, nothing else |
| SrcIndex.IntendedCommandLevel | src/index.ts:55 | the intended method is one the default logger has, the one src/index.ts calls |
| SrcIndex.DefaultLoggerLacksFlowLevel | src/index.js:80 | src/index.js calls a method the default logger lacks; src/index.ts calls one it has |
| SrcIndex.IntendedLevelAgrees | src/index.ts:55 | any logger with `title` has the intended method |
| SrcIndex.RunAt | src/index.ts:32-58 | PATH rewritten in place on the env object; a logger without the method throws a TypeError and launches nothing; otherwise one log line, then `shell` or `runAsync`/`runSync` with the normalised options |
| SrcIndex.Run | src/index.js:60-89 | as written: PATH rewritten; the Flow run with the default logger throws a TypeError; with the called method present, one log line and the launch |
| SrcIndex.RunCorrected | src/index.ts:55-57 | logging with `title`: one log line and the launch for any logger with `title` |
| SrcIndex.RunDispatch | src/index.ts:57 | the launch is async iff `async`, stdio defaults to 'inherit', the env has the new PATH; sync errors are single-line |
| SrcIndex.OptionsOf | src/index.ts:60-62 | `thisObj.options` when present, otherwise `{}` (null `this` included) |
| SrcIndex.OptionOf | src/index.js:91-93 | the stored value when truthy, otherwise null |
| SrcIndex.OptionReadsOptions | src/index.js:91-93 | `option` is `options` looked up, with falsy values read as null |
| SrcIndex.FalsyOptionIsNull | src/index.js:92 | 0, '' and false read as null |
| SrcIndex.TaskFunction.constructor | src/index.ts:64 | a function without help |
| SrcIndex.SetHelp | src/index.ts:64-72 | sets `help` on a function; anything else throws "first help() argument must be a function" and nothing changes |
| Flat.TaskTable.constructor | lib/index.js:32 | a table with the given entries |
| Flat.TaskTable.Keys | lib/index.js:43 | `Object.keys`: every own key once, in insertion order (exact for keys that are not array indices) |
| Flat.TaskTable.Lookup | index.js:25 | a value is found iff the key is present, and it is that key's entry |
| Flat.FirstValue | script.js:13 | the first entry under the key, found iff the key occurs |
| Flat.WrapEntries | lib/index.js:49-58 | each entry becomes a wrapper around its old value under the same key |
| Flat.WrappedLookup | index.js:14-25 | after wrapping, a key is found iff it was before, as a truthy wrapper around the old value |
| Flat.Apply | index.js:16-22 | a function runs once with `this = null` and returns or throws; a wrapper logs Running, runs the inner value, logs Finished unless it threw, and throws exactly what the inner value threw; anything else throws a TypeError |
| Flat.WrapperRunsTask | lib/index.js:51-57 | a wrapped task that returns logs Running, runs the task and logs Finished |
| Flat.WrapperSkipsFinished | lib/index.js:51-57 | a wrapped task that throws logs Running and runs the task; no Finished line follows and its exception propagates |
| Flat.WrappingKeepsInvocations | index.js:16-22 | a wrapper invokes exactly what the wrapped value invokes and throws what it throws |
| Flat.KeyLines | script.js:7-9 | one `log` line per key, in order |
| Flat.ListTasks | index.js:6-12 | 'Available tasks:' then one line per key in order |
| Flat.WrapAll | index.js:14-23 | the entries after the loop are the wrapped old entries |
| Flat.TargetOf | lib/index.js:37-39 | index.js and script.js use the object itself; lib/index.js uses the object under a truthy `default` when there is one (none, read as an object without keys, when that `default` is not an object), and the object itself when `default` is absent or falsy |
| Flat.Call | lib/index.js:32-66 | a falsy name lists the keys and changes nothing. Otherwise lib/index.js and index.js wrap every entry in place, then run the wrapper for the name or log "Task <name> not found". script.js runs a truthy entry or throws the string "Task <name> not found" |
| Flat.FalsyEntryStillCalled | lib/index.js:60-62 | after wrapping, a key holding a falsy value is still called and throws a TypeError |
| Flat.CallerOptions.constructor | index.js:35 | a fresh `{}` |
| Flat.LibRun | lib/index.js:68-83 | on the caller's object: env defaults to `process.env` and gets `cwd/node_modules/.bin/` + delimiter + PATH; stdio defaults to 'inherit'; `shell` is true. Then the bold command is logged and `spawn` (async) or `execSync` gets that object |
| Flat.PrefixedCommand | index.js:38 | `PATH=$PATH:…` in front of the unchanged command |
| Flat.RootRun | index.js:34-46 | stdio defaulted in place on the caller's object (or a fresh one), its other options left as they were; the bold original command is logged; `exec` (async) or `execSync` gets the prefixed command |

## Left out

- Process spawning, the file system, `process.exit` and the console are not modelled:
  - `execSync` is a function parameter from the launch to its outcome.
  - An asynchronous child is the sequence of events it delivers.
  - The tasks file and the configured modules are function parameters.
  - Logger output is the recorded sequence of calls.
- The stdout/stderr piping of the `exec` child at index.js:41-42 is I/O and is left out.
- Real time is not modelled. The timer is one more event, and the wrapper's elapsed-time
  text (`Date.now`, `toFixed(2)`) is reduced to a Finished entry.
- Colours: chalk is the `paint(color, text)` parameter.
- `microcli` (src/script.ts:121-131, src/script.js:114-118) is an external parser. It is a
  function from the arguments and the task's help to parsed options and parameters, a help
  print, or a CLI error.
- `get-parameter-names` is not modelled: a task's parameter names are given data, and None
  stands for names that cannot be read.
- `Number()` is modelled concretely for decimal integers only. For other texts (`'1.5'`,
  `'1e3'`, `'0x10'`), a `nonzero` oracle says whether `Number` reads them as non-zero.
- `main`, `getConfig`, `requirer` and `hasAccess` of the three script files are not
  modelled, and neither are bin/run.js and bin/task.js. Their work is the entry point,
  process arguments and file access.
- The module-level require of `Runfile` at script.js:1 is not modelled.
- `generate` in lib/index.js (lines 85-90) writes a lodash template to a file and is not
  modelled.
- Properties inherited through the prototype chain (`obj['toString']`) are not modelled:
  lookups see own keys only.
- Null or undefined entries in a task tree are not modelled: `describe` reads `value.help`
  on each value and would throw.
- Flat.TargetOf: a truthy `default` that is not an object (a function, a string) is read as
  an object without keys. Enumerable properties of a function `default`, such as its `help`,
  are not listed.
- The message text of a `TypeError` is not modelled.
- LibScript.Run and SrcScript.Dispatch: task bodies are taken to return normally. A task
  that throws there would propagate its exception out of `call` (lib/script.js:129,
  src/script.ts:127-129); the flat dispatchers of Flat do model a throwing task.
- Flat.TaskTable.Keys and the Registry listings: keys keep insertion order. `Object.keys`
  lists integer-like keys ('1', '42') first, in ascending numeric order, so task names of
  that form are listed in a different order than the model's.
- Js.PadEnd: the width is counted in code points, not in lodash's Unicode symbols. lodash
  counts a character with its combining marks, a ZWJ emoji sequence or a regional-indicator
  pair as one symbol, so a task name such as `e\u0301` is padded to 41 code points by the
  source and to 40 by the model.
- ArgParser.Coerce: decimal integers keep their exact value. `Number` rounds those beyond
  2^53 to a double (`Number('9007199254740993')` is 9007199254740992).
- LibScript.Call: requires at least one argument, as `main` calls it only when there is
  one (lib/script.js:158-160).
- SrcScript.Call and SrcScript.CallCorrected: require `args[2]`, as `main` calls them only
  when there are more than two arguments (src/script.ts:161-162).
- SrcScript.CallFindsListed and the other listing lemmas: assume keys that are unique,
  non-empty and free of ':' (`WellKeyed`). Other registries can shadow one task name with
  another, which is exactly what `FlatKeyWins` shows.
- The `this` of a task from src/script.* is reduced to microcli's options map.
- The `info`/`debug` calls of lib/script.js's logger are modelled by level. The debug
  output of the lib header is the exact string `'Available tasks:\n'`.
- The model follows the code on these points:
  - The new PATH is written into the environment object in place, not into a copy, so the
    default run mutates `process.env`.
  - The timeout timer is never cleared.
  - src/index.js logs the command with `info`, which the default logger lacks (see
    Findings).

## Findings

| source | as written | input that shows it | evidently intended | confidence | as-written member | corrected member |
|---|---|---|---|---|---|---|
| src/script.ts:118 (also src/script.js:111) | the name looked up is `subtaskName \|\| args[2]`, so when the remaining subtask name is '' a nested level looks up the full command-line name again | tasks `{b: {b: fn}}` with args `["node", "tasksfile.js", "b"]`: 'b' is not a listed task (only 'b:b' is), yet `fn` runs | fall back to `args[2]` only at the top level (no subtask name passed), so an exhausted name misses and 'b' is reported as not found | not executed | SrcScript.FallbackRunsUnlistedName | SrcScript.CallCorrected (with SrcScript.CorrectedRunsOnlyListed, SrcScript.CorrectedFindsListed, SrcScript.CorrectedRejectsUnlistedName) |
| src/index.js:80 | `run` calls `logger.info(command)`, but the default `Logger` of src/common.js:12-25 has only title, log, warning and error | `run('ls')` with the default logger: PATH is already rewritten, then `logger.info` is not a function and a TypeError is thrown before the command runs | `logger.title(command)`, as src/index.ts:55 calls and as test/unit/index.spec.js:51 expects | not executed | SrcIndex.Run (with SrcIndex.DefaultLoggerLacksFlowLevel) | SrcIndex.RunCorrected (with SrcIndex.IntendedCommandLevel, SrcIndex.IntendedLevelAgrees) |
