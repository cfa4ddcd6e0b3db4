# reversi-jd compile worker in Dafny

A model of the compile side of the reversi-jd judge worker, with proofs of its rules.

- **The compile library** (`src/libs/compile.js`).
  - The settings loop runs once when the library loads. It resolves every compiler entry's one-level `extend` list: bases are merged in, then the entry's own fields, then `extend` is deleted.
  - `doCompile` validates the chosen compiler's entry and resolves its `source` and `target` paths. It then writes the source, runs the compiler (directly or through the sandbox) and folds the result into `{ text, success, binaryBuffer }`.
- **The compile service** (`src/services/gmkcompile.js`).
  - It reads the platform's limits and subscribes to the `compile` queue.
  - For every delivered task it claims the submission (`compileBegin`) and runs a shell command. It then reports the outcome (`compileEnd`), or reports a system error (`compileError`) and re-throws.
  - The subscription callback logs whatever was thrown and acknowledges the message.
- **`utils.formatDeep`** (`src/libs/utils.js`): a deep clone in which every string leaf goes through `string-format`.
- **The Portal API client** (`src/libs/api.js`).
  - How a transport error is wrapped.
  - How JSON and binary responses are classified into a result or an error.
  - The bodies `compileEnd` and `roundComplete` post.

Modules and files:

| file | module | contents |
|---|---|---|
| `wrappers.dfy` | `Wrappers` | `Option`, `Result` (a value or a thrown error), `Outcome` (completed or threw) |
| `js_values.dfy` | `JsValues` | JavaScript values, truthiness, property reads, `String(v)`, decimal text |
| `foreign.dfy` | `Foreign` | `Host`: one record holding the functions whose code is not modelled (`path.resolve`, `path.join`, `parseArgs`, `iconv`, UTF-8 decoding, `string-format`, `err.stack`, `JSON.parse`) |
| `text_rules.dfy` | `TextRules` | `String.prototype.trim`, the text cap, the binary-limit message |
| `settings.dfy` | `Settings` | the `extend` mechanism as functions |
| `compile.dfy` | `Compile` | the compile library: validation, paths, invocation, and the class `CompileLibrary` with the settings loop and `doCompile` |
| `format_deep.dfy` | `Utils` | `formatDeep` |
| `api.dfy` | `Api` | response classification and request bodies |
| `gmk_compile.dfy` | `GmkCompile` | the compile service: the pure run of one task, and the class `CompileWorker` that appends the calls it makes to a trace |

How stateful code is modelled:

- **Code that changes state step by step is imperative.** It is written as methods of a class:
  - the settings loop, which merges into the settings in place;
  - `doCompile`, which reassigns `success`, `text` and `binaryBuffer`;
  - the service, whose effects are appended to `trace`.
- **Each method is proved against a pure function of its inputs and old state.** Examples:
  - `NormalizeAll` for the settings loop;
  - `Prepare` for validation and path resolution;
  - `BodyRun` and `HandleRun` for one task of the service.
- **Properties are lemmas about those functions.** The source itself promises them: acknowledgement exactly once, a report exactly once, the text and binary caps.
- **Effects are inputs.** The filesystem, the compiler process, the shell, the compressor and the platform's answers come in as values (`CompileWorld`, `TaskWorld`). The model records the calls made to them and the arguments passed.

## Model

| member | source | states |
|---|---|---|
| `Settings.Merge` | src/libs/compile.js:18-19 | the merged entry has the keys of both entries; every field the source defines wins; a field the source leaves `undefined` keeps the destination's value |
| `Settings.MergeBases` | src/libs/compile.js:18 | the `forEach` over `extend` with each merge written back at once; it changes only the entry being extended and keeps the key set; its closed form is `Settings.MergeBasesClosedForm` and which base wins is `Settings.LaterBaseWins` |
| `Settings.LastDefinerWins` | src/libs/compile.js:18 | merging a list of entries, a field ends with the value of the last entry in the list that defines it |
| `Settings.MergeBasesClosedForm` | src/libs/compile.js:18 | merging the bases one by one into the stored entry, each result written back, equals merging the list of base entries as they stood before the first merge; a base naming the entry itself adds nothing |
| `Settings.NormalizeEntry` | src/libs/compile.js:16-20 | one turn of the loop throws `extend.forEach is not a function` exactly when `extend` is truthy but not an array; a falsy `extend` changes nothing; after a successful turn the entry has no truthy `extend`, the settings keep their key set, and every other entry is unchanged |
| `Settings.NormalizedEntryFields` | src/libs/compile.js:17-20 | the extended entry is the entry merged with its bases, then with its own fields, minus `extend`; every field the entry itself defines keeps its own value |
| `Settings.LaterBaseWins` | src/libs/compile.js:18 | a field the entry does not define comes from the last base in the `extend` list that defines it |
| `Settings.NormalizeAll` | src/libs/compile.js:15-22 | the whole loop over the `for..in` order, stopping at the first TypeError; it keeps the key set; its properties are the five lemmas below |
| `Settings.NormalizeAllSplit` | src/libs/compile.js:15-22 | running the loop over `a + b` is running it over `a` and then, unless that threw, over `b` |
| `Settings.NormalizeAllUntouched` | src/libs/compile.js:15-22 | an entry whose key the loop does not visit is left alone |
| `Settings.NoTruthyExtendRemains` | src/libs/compile.js:15-22 | once the loop completes, no visited entry has a truthy `extend`; an entry that had none still has none |
| `Settings.NormalizeAllAt` | src/libs/compile.js:15-22 | over distinct keys, the final entry under the i-th key is what that key's turn made of the settings left by the turns before it |
| `Settings.OwnFieldsWin` | src/libs/compile.js:15-22 | after a completed loop, every field an entry defined itself (other than `extend`) keeps its value |
| `Compile.CompileLibrary.ExtendEntry` | src/libs/compile.js:16-20 | the method's new settings are exactly what `NormalizeEntry` computes from the old ones; when it throws, the settings are unchanged and the error is the one `NormalizeEntry` gives |
| `Compile.CompileLibrary.Normalize` | src/libs/compile.js:14-22 | the settings and the thrown error after the loop are exactly `NormalizeAll` of the old settings over the key order |
| `Compile.FindCompiler` | src/libs/compile.js:27 | the lookup finds nothing exactly when the compiler is neither a key of the settings nor a name every object inherits; a key of the settings gives its entry |
| `Compile.FirstMissing` | src/libs/compile.js:30-34 | no position is found exactly when every key is defined; a found position is a missing key with every earlier key defined |
| `Compile.FirstMissingIsFirst` | src/libs/compile.js:30-34 | a missing key preceded only by defined keys is the position `FirstMissing` returns |
| `Compile.Validate` | src/libs/compile.js:27-34 | the lookup check, then the required-field loop; what it returns is stated by `Compile.ValidateSpec` |
| `Compile.ValidateSpec` | src/libs/compile.js:27-34 | validation says "No settings found" exactly for an unknown compiler; it names the i-th required key exactly when that key is missing and every earlier one is present; it passes exactly when all of `timeout, source, target, command, args` are present |
| `Compile.ResolveKeys` | src/libs/compile.js:36-39 | the path loop over `source` and `target`; what it returns is stated by `Compile.ResolvePathsSpec` |
| `Compile.Prepare` | src/libs/compile.js:26-39 | everything `doCompile` works out before its first side effect: a validation error (as `Compile.ValidateSpec` states), else the path result (as `Compile.ResolvePathsSpec` states) |
| `Compile.MakeInvocation` | src/libs/compile.js:43-54 | the test `DI.config.sandbox !== null` made at load time picks the branch; a sandbox value that is neither `null` nor a string throws the TypeError of `path.resolve`; otherwise the invocation is built, and it passes at least the compiler's own arguments; its shape is stated by `Compile.SandboxWrapsDirect` |
| `Compile.ResolvePathsSpec` | src/libs/compile.js:36-39 | path resolution fails exactly when `source` or `target` is not a string, with the error for the first such key; on success only `source` and `target` change, each resolved against the working directory |
| `Compile.SandboxWrapsDirect` | src/libs/compile.js:43-54 | with `null` the compiler command runs directly with its parsed arguments; with a string sandbox the resolved sandbox path runs with the sandbox arguments, then the command, then exactly the direct invocation's arguments |
| `Compile.CompileLibrary.Configure` | src/libs/compile.js:26-39 | the method's validation loop and path loop compute exactly `Prepare`: the first validation error, else a path error, else the entry with resolved paths |
| `Compile.CompileLibrary.Execute` | src/libs/compile.js:43-94 | a sandbox that cannot be resolved throws before the compiler runs; otherwise the compiler runs first, and `stat` and `readFile` follow only after a successful run; the result fails exactly when `stat` or `readFile` fails there, with that error; `success` holds exactly when the run succeeded and the binary is within `sizeOfBin`; the buffer is present exactly on success and is the target's bytes; the text is the fixed message when the binary is over its limit, else the trimmed, capped output |
| `Compile.CompileLibrary.DoCompile` | src/libs/compile.js:25-95 | a validation or path error is thrown before any side effect; the source is written first, and nothing follows if that failed; a sandbox that is neither `null` nor a string then throws with the write as the only effect; otherwise the compiler runs, and the effects after that, the outcome and the errors are those of `Execute`; the settings are only read |
| `TextRules.Trim` | src/libs/compile.js:74 | `String.prototype.trim`; its properties are stated by the four lemmas below |
| `TextRules.TrimStartFacts` | src/libs/compile.js:74 | dropping leading whitespace leaves a suffix, removes only whitespace, and the rest does not start with whitespace |
| `TextRules.TrimEndFacts` | src/libs/compile.js:74 | dropping trailing whitespace leaves a prefix, removes only whitespace, and the rest does not end with whitespace |
| `TextRules.TrimKeepsMiddle` | src/libs/compile.js:74 | `trim` keeps one contiguous middle part of the text and removes only whitespace on either side; the kept part neither starts nor ends with whitespace |
| `TextRules.TrimIdempotent` | src/libs/compile.js:74 | trimming twice is trimming once |
| `TextRules.Truncate` | src/libs/compile.js:75-77 | the text cap `text.substr(0, limit) + '...'` over the limit; its properties are stated by `TextRules.TruncateFacts` and `TextRules.TruncateBoundedAndStable` |
| `TextRules.TruncateFacts` | src/libs/compile.js:75-77 | text within the limit (or with no limit) is unchanged; text over a non-negative limit becomes its first `limit` characters and `...`, so it is exactly `limit + 3` characters long; over a negative limit it becomes `...`; lengths count characters, not UTF-16 code units |
| `TextRules.TruncateBoundedAndStable` | src/services/gmkcompile.js:56-59 | for a non-negative limit, the capped text is never longer than the limit plus three, and capping it again changes nothing |
| `Utils.FormatDeep` | src/libs/utils.js:6-10 | `_.cloneDeepWith` with a customizer that formats strings; its properties are stated by the five lemmas below |
| `Utils.FormatDeepKeepsSkeleton` | src/libs/utils.js:6-10 | the result has the same container kinds, lengths, element order, keys and non-string leaves as the input |
| `Utils.FormatDeepLeaves` | src/libs/utils.js:6-10 | the leaves of the result are the input's leaves in order, each string formatted and every other leaf unchanged, a string root included |
| `Utils.FormatDeepIdentity` | src/libs/utils.js:6-10 | when formatting leaves every string of the value unchanged, `formatDeep` returns the value itself |
| `Utils.FormatDeepAtIndex` | src/libs/utils.js:6-10 | formatting commutes with reading an array element |
| `Utils.FormatDeepAtKey` | src/libs/utils.js:6-10 | formatting commutes with reading an object property; absent keys stay absent |
| `Api.RequestAsync` | src/libs/api.js:5-25 | a response passes through unchanged; a transport error becomes an `Error` whose message is `Failed to connect to Portal API service: ` followed by the original message |
| `Api.RequestJson` | src/libs/api.js:27-38 | a connection error is passed on; a `null` or missing body throws a TypeError; otherwise the call succeeds exactly when `body.err` is falsy, returning the body unchanged, and fails with `Portal API request failed: <name>: <msg>` otherwise |
| `Api.RequestBinary` | src/libs/api.js:40-55 | the call succeeds exactly when the response arrived with status 200, returning the raw body; a body that does not parse gives the fixed "Cannot decode" error; a parsed body gives the server's name and message (a TypeError for `null`) |
| `Api.UndecodableIsDistinct` | src/libs/api.js:45-53 | the fixed "Cannot decode" message never equals an error message built from a server body |
| `Api.RequestErrorsAreTagged` | src/libs/api.js:22-53 | every error either request function produces is a connection error, a reported server error or the TypeError of a missing body |
| `Api.CompileEndBody` | src/libs/api.js:64-79 | the body always carries `id`, `token`, `text` and `success` as `String(success)`; it carries a binary part (the buffer, named after `id`, type `application/x-xz`) exactly when both `success` and the buffer are truthy |
| `Api.CompileEndFlagReadable` | src/libs/api.js:69-71 | for a boolean flag and a buffer, `success` reads back as `"true"` or `"false"`, and the binary is attached exactly when the flag is set |
| `Api.RoundCompleteBody` | src/libs/api.js:114-126 | the body carries `mid`, `rid`, `exitCode` as `String(exitCode)`, and the log as a part named after `rid` with type `text/plain` |
| `Api.RoundCompleteExitCodeReadable` | src/libs/api.js:118 | an integer exit code survives its trip through the body: its decimal text parses back to the same integer (for integers below 10^21 in magnitude, as `String` writes larger ones with an exponent) |
| `JsValues.ToJsString` | src/libs/api.js:69 | `String(v)` for the modelled values; integers are written in decimal, as `JsValues.IntToDecimalRoundTrip` states |
| `JsValues.ReadProp` | src/libs/api.js:33-34 | reading a property throws a TypeError exactly on `null` and `undefined`, and otherwise gives the property or `undefined` |
| `JsValues.IntToDecimalRoundTrip` | src/libs/api.js:118 | for an integer below 10^21 in magnitude, `String(n)` is an optional minus sign followed by digits, and reading it back gives `n` |
| `GmkCompile.ToLimit` | src/services/gmkcompile.js:57-64 | how a limit value behaves in `>` and `substr`: a number as itself, `null` and booleans as 0 or 1, anything else as no limit |
| `GmkCompile.ReadLimits` | src/services/gmkcompile.js:21-22 | destructuring the limits fails exactly when fetching failed (with that error) or the result is `null` or `undefined`; otherwise both limits are read |
| `GmkCompile.CompileWorker.Start` | src/services/gmkcompile.js:17-79 | outside the compile role nothing happens; otherwise the limits are fetched once; if reading them throws, that error propagates and nothing is subscribed; otherwise the limits are kept and the `compile` queue is subscribed; the worker counts as subscribed exactly when subscribing did not throw |
| `GmkCompile.CompileWorker.OnSubscriptionError` | src/services/gmkcompile.js:80 | a subscription error is logged once; the limits and the subscription state are unchanged |
| `GmkCompile.ShellCommand` | src/services/gmkcompile.js:43 | `_.filter([...]).join(' ')`: the truthy parts as text, separated by spaces; its cases are stated by `GmkCompile.ShellCommandCases` |
| `GmkCompile.ShellCommandCases` | src/services/gmkcompile.js:43 | without a sandbox the shell command is the compile command alone; with a sandbox path it is the path, then the text of the sandbox arguments when they are truthy (a missing, empty or `false` value is dropped), then the command, separated by single spaces |
| `GmkCompile.CommandContext` | src/services/gmkcompile.js:35 | the spread `{ ...submission, source, target }`; its fields are stated by `GmkCompile.CommandContextFields` |
| `GmkCompile.MakePlan` | src/services/gmkcompile.js:30-35 | the first statements of the `try` block; they throw the TypeError of `path.resolve` exactly when the sandbox is neither `null` nor a string; the plan itself is stated by `GmkCompile.PlanFields` |
| `GmkCompile.PlanFields` | src/services/gmkcompile.js:30-43 | the working directory is the resolved formatted template; the source and target paths are the formatted templates joined to it; the shell command is the formatted compile command: alone with no sandbox; with one, behind the resolved sandbox path and, when they are truthy, the sandbox arguments (any falsy value, a missing one included, is dropped) |
| `GmkCompile.CommandContextFields` | src/services/gmkcompile.js:35 | in the command template's context, `source` and `target` are the formatted paths, whatever the submission says; every other field is the submission's |
| `GmkCompile.BinaryStage` | src/services/gmkcompile.js:60-71 | the calls after a successful shell command up to the report; stated by `GmkCompile.BinaryStageFacts` |
| `GmkCompile.BinaryStageFacts` | src/services/gmkcompile.js:60-71 | after a successful shell command, only `stat`, `readFile` and compression calls happen before the report; the report succeeds exactly when the binary is within its limit; it carries the compressed target exactly then, and the fixed message when over the limit |
| `GmkCompile.ExecStage` | src/services/gmkcompile.js:42-71 | the calls from the shell command up to the report; stated by `GmkCompile.ExecStageFacts` |
| `GmkCompile.ExecStageFacts` | src/services/gmkcompile.js:42-71 | from the shell command on, the report says `success` exactly when the command succeeded and the binary is within its limit; the buffer is there exactly on success and is the compressed target file; the text is the fixed message or the trimmed, capped output |
| `GmkCompile.BodyRun` | src/services/gmkcompile.js:30-71 | the `try` block of `handleCompileTask`; stated by `GmkCompile.BodyRunFacts` and `GmkCompile.ReportedTextAndBinary` |
| `GmkCompile.BodyRunFacts` | src/services/gmkcompile.js:30-71 | a sandbox that cannot be resolved ends the body before any call; otherwise the body starts by creating the working directory; it makes only filesystem, shell and compressor calls before the report, it ends normally only after reporting, and the report obeys the rules of `GmkCompile.ExecStageFacts` |
| `GmkCompile.ReportedTextAndBinary` | src/services/gmkcompile.js:56-70 | when the shell command succeeded but the binary is over its limit, the report is a failure with the fixed message and no buffer; the buffer is there exactly on success; in every other case, output whose trimmed length is over a non-negative text limit is reported as `limit + 3` characters ending in `...` |
| `GmkCompile.CompileWorker.RunBody` | src/services/gmkcompile.js:30-71 | the calls the method makes and the way it ends are exactly `BodyRun` |
| `GmkCompile.CompileWorker.RunExec` | src/services/gmkcompile.js:42-59 | the calls from the shell command on, and the way they end, are exactly `ExecStage` |
| `GmkCompile.CompileWorker.Finish` | src/services/gmkcompile.js:60-71 | after a successful command the calls are exactly `BinaryStage`; after a failed one, only the report |
| `GmkCompile.CompileWorker.CatchBodyError` | src/services/gmkcompile.js:72-75 | a body error is reported once with the fixed prefix and the stack, then re-thrown, unless the report itself fails, in which case that failure is thrown |
| `GmkCompile.CompileWorker.HandleCompileTask` | src/services/gmkcompile.js:26-76 | the calls the handler makes and the way it ends are exactly `HandleRun` |
| `GmkCompile.CompileWorker.OnMessage` | src/services/gmkcompile.js:81-89 | the calls the callback makes are exactly `MessageRun` |
| `GmkCompile.AfterClaim` | src/services/gmkcompile.js:29-75 | the `try`/`catch` around the body once the claim succeeded; stated by `GmkCompile.AfterClaimOnFailure`, `GmkCompile.AfterClaimOnSuccess` and `GmkCompile.AfterClaimHasNoAck` |
| `GmkCompile.HandleRun` | src/services/gmkcompile.js:26-76 | `handleCompileTask`: the claim, then `AfterClaim`; stated by `GmkCompile.BeginFailureIsQuiet`, `GmkCompile.InternalErrorReported` and `GmkCompile.NormalPathReportsOnce` |
| `GmkCompile.MessageRun` | src/services/gmkcompile.js:81-89 | the message callback around `HandleRun`; stated by `GmkCompile.AckedExactlyOnce` |
| `GmkCompile.CallbackAcksOnce` | src/services/gmkcompile.js:83-88 | a handler that never acknowledges by itself leaves exactly one acknowledgement, made last by the callback |
| `GmkCompile.AfterClaimHasNoAck` | src/services/gmkcompile.js:29-75 | nothing the handler does after the claim acknowledges the message |
| `GmkCompile.AckedExactlyOnce` | src/services/gmkcompile.js:81-89 | every delivered message is acknowledged exactly once, as the callback's last act, whether the handler returns or throws |
| `GmkCompile.BeginFailureIsQuiet` | src/services/gmkcompile.js:27 | when the claim throws, neither report is made; the error is logged and the message acknowledged, and nothing else happens |
| `GmkCompile.AfterClaimOnFailure` | src/services/gmkcompile.js:72-75 | a failed body is followed by exactly one system-error report, the last call of the handler; the handler then throws the report's own failure, or else the original error |
| `GmkCompile.InternalErrorReported` | src/services/gmkcompile.js:72-75 | when anything after the claim throws, `compileError` is called exactly once, last, with text starting `System internal error occured when compiling this submission.`; the error is re-thrown, then logged and the message acknowledged |
| `GmkCompile.AfterClaimOnSuccess` | src/services/gmkcompile.js:71 | a body that ends normally has made exactly one `compileEnd` call, its last, and no `compileError` call |
| `GmkCompile.NormalPathReportsOnce` | src/services/gmkcompile.js:71 | on the normal path `compileEnd` is called exactly once, last, `compileError` never, and the callback only acknowledges |
| `GmkCompile.AsWrittenCompileEndDropsBinary` | src/services/gmkcompile.js:71 | with the four arguments as written, the form never carries a binary part, its `text` field is the success flag, and `success` is the string of the buffer |
| `GmkCompile.IntendedCompileEndCarriesBinary` | src/services/gmkcompile.js:71 | with the compile task's id and token passed first, a normal run's form carries the text, the flag as `"true"`/`"false"`, and the compressed binary exactly when the compile succeeded |
| `GmkCompile.AsWrittenCompileBeginLosesToken` | src/services/gmkcompile.js:27 | the handler's first call claims the task; with the one argument as written, the claim's `id` is the whole task and its `token` is `undefined`, so for every task that has a token it differs from the intended claim |
| `GmkCompile.IntendedCompileBeginCarriesClaim` | src/services/gmkcompile.js:27 | for every task, whatever else it holds, the intended claim made by the handler's first call carries the task's own id and token |
| `GmkCompile.AsWrittenCompileErrorLosesText` | src/services/gmkcompile.js:73 | when the body of a claimed task throws, the last call is the system-error report of that task; with the two arguments as written its prefixed text lands in `token` and `text` is `undefined`, so it never equals the intended report |
| `GmkCompile.IntendedCompileErrorCarriesText` | src/services/gmkcompile.js:73 | passing the compile task's id and token first, the system-error report of a failed run carries the prefixed text in `text` |

## Left out

- The HTTP transport of the API client is not modelled: URLs, credentials, headers, gzip and form encoding. Each request function takes the response, or the transport error, as an input.
- `getLimits`, `getSubmissionBinary`, `roundBegin` and `roundError` are not modelled. `getLimits` is called by the service but is not defined in `src/libs/api.js`, so the limits it returns are an input to `CompileWorker.Start`. The other three only pass their arguments to a request, and what they post is not modelled.
- Filesystem calls, `execFile`, the shell `exec`, LZMA compression and the broker are inputs rather than code:
  - the model records each call and its arguments;
  - what the call returns comes from `CompileWorld` or `TaskWorld`;
  - compression is a function of the bytes;
  - the compression options are not recorded.
- `path.resolve`, `path.join`, `utils.parseArgs`, `utils.iconv`, UTF-8 decoding, `string-format`, `err.stack` and `JSON.parse` are functions of the `Host` record.
  - `utils.parseArgs` and `utils.iconv` are not defined in `src/libs/utils.js`.
  - The placeholder grammar of `string-format` is not modelled; `format` is total.
- `Settings.Merge`: `_.merge` is modelled one level deep. Nested objects in a field are replaced, not merged recursively. A source field that is `undefined` does not overwrite, as in lodash.
- `_.cloneDeep` in the settings loop has no observable effect in a value model, so it is not modelled. Aliasing between entries, which the in-place merges could create, is not modelled either.
- `GmkCompile.CommandContext` models the spread `{ ...submission, source, target }` only for an object submission. For any other value it keeps just `source` and `target`.
- `GmkCompile.ToLimit`: a limit that is a string or an array counts as no limit. JavaScript converts it to a number for `>` and `substr`, so a numeric string such as `"10"` acts there as the limit 10; a non-numeric one becomes `NaN` and does act as no limit.
- Numbers are integers. Floating point and `NaN` are not modelled, and `JsValues.ToJsString` writes only integers.
- Logging with `logger.info` has no effect on the outcome and is not modelled. `logger.error` is modelled as the `LogError` event.
- The TypeError messages follow `JsValues.ReadProp`. Engines word these differently, and the wording is not part of any contract stated here.
- `Settings.NormalizeEntry`: every truthy `extend` that is not an array throws the `forEach` TypeError. A Node.js Buffer has `forEach` and would not throw, but a value read from the configuration file is never a Buffer.
- Compiler entries that are not objects are not modelled: `Settings.Entry` is a map. The source throws a TypeError for a `null` entry on reading `extend` (src/libs/compile.js:16) and on reading its fields in `doCompile` (src/libs/compile.js:31).
- The configuration templates under `compile` (working directory, source, target, command) are strings in `GmkCompile.ServiceConfig`. A template that is not a string, and what `string-format` would do with it, is not modelled.
- `TextRules.Truncate`: lengths and `substr` count Unicode scalar values (Dafny characters). JavaScript counts UTF-16 code units, so for text outside the Basic Multilingual Plane the source's cut falls elsewhere and can split a surrogate pair. The `limit + 3` bounds of `TextRules.TruncateFacts` and `GmkCompile.ReportedTextAndBinary` are in characters.
- `JsValues.IntToDecimal`: `String(n)` is modelled as plain decimal for every integer. JavaScript writes numbers of magnitude 10^21 and above with an exponent (`1e+21`), and numbers are doubles there, so the round trip of `JsValues.IntToDecimalRoundTrip` matches the source only below 10^21 in magnitude.
- `GmkCompile.CompileWorker.Start`: the error handed to the subscribe callback is taken as the service's own failure. That holds only if the broker calls the callback before the service's promise settles; if it is called later, the `throw err` at src/services/gmkcompile.js:79 escapes as an uncaught exception instead.
- Concurrency between message handlers is not modelled. Each handler run is one sequential trace.
- `src/services/compileTest.js`, `src/services/mq.js`, `src/services/gmkmatch.js` and `gulpfile.babel.js` are not part of this model. They are a manual test script, broker wiring, an empty stub and build tooling.

## Findings

| source | as written | input that shows it | evidently intended | confidence | as-written member | corrected member |
|---|---|---|---|---|---|---|
| src/services/gmkcompile.js:71 | `api.compileEnd(task, text, success, binaryBuffer)` fills the five parameters `(id, token, text, success, lzmaBuffer)` of src/libs/api.js:64: the text lands in `token`, the flag in `text`, the buffer in `success`, and `lzmaBuffer` is `undefined` | any task whose compile succeeds within the binary limit: the form has no binary part | `compileEnd(task.id, task.token, text, success, binaryBuffer)` | medium, not executed | `GmkCompile.AsWrittenCompileEndDropsBinary` | `GmkCompile.IntendedCompileEndCarriesBinary` |
| src/services/gmkcompile.js:27 | `api.compileBegin(task)` fills `(id, token)` of src/libs/api.js:57 with the whole task as `id` and no token | any task: the claim carries `token: undefined` | `compileBegin(task.id, task.token)` | medium, not executed | `GmkCompile.AsWrittenCompileBeginLosesToken` | `GmkCompile.IntendedCompileBeginCarriesClaim` |
| src/services/gmkcompile.js:73 | `api.compileError(task, text)` fills `(id, token, text)` of src/libs/api.js:86 with the message as `token` and no text | any task whose body throws: the report carries `text: undefined` | `compileError(task.id, task.token, text)` | medium, not executed | `GmkCompile.AsWrittenCompileErrorLosesText` | `GmkCompile.IntendedCompileErrorCarriesText` |

The service's events record the calls exactly as written, so every trace property above holds for the code as it stands. The corrected forms take it that a compile task carries its submission id and token under `id` and `token`. The task payload's field names are not visible in the modelled files.
