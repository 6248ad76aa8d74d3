# node-task in Dafny

A model of node-task, a small engine for build tasks (lib/task.js), and of
two tasks built on it: concat (tasks/concat.js) and jshint (tasks/jshint.js).

A task is an object assembled by `Task.create` from fragments that supply
hooks. The hooks are parseConfig, setup, method, iterateFile, readFile,
filterRead, filterWrite, writeFile and teardown. `run(config)` calls
parseConfig, setup, method and teardown in that order. The default method
hands a file task to `processFiles`. `processFiles` walks `config.files`,
one destination at a time, and calls `processFileSet` for each
destination's sources. That call visits, reads and filters every source.
For a writer it then joins the results with filterWrite and stores the
output with writeFile. Every hook call is announced first on a shared event
emitter.

The model has five modules:

- `Js` (js.dfy) holds the slice of JavaScript values the code uses:
  - truthiness;
  - property reads on plain objects;
  - `String(v)`;
  - `Array.prototype.join`.
- `TaskEngine` (task_engine.dfy) has two layers:
  - pure functions that specify each engine call (`VisitSource`, `VisitSources`, `FileSetRun`, `WriterChain`, `ProcessGroup`, `ProcessGroups`, `ProcessFilesRun`, `MethodRun`, `RunSpec`);
  - the classes `Task`, `Emitter` and `FileStore`, whose methods do the work step by step. Each method is proved equal to its function: the events it appends, the store it leaves and the result it returns.
- `TaskLaws` (task_laws.dfy) proves what the engine promises about those functions.
- `Concat` (concat.dfy) covers concat's parseConfig defaulting, its filterWrite and all three modes of stripBanner, plus the stripBanner examples from test/concat_test.js.
- `JsHint` (jshint.dfy) covers jshint's processConfig as a loop proved against a specification function, its constant filterRead and the run in test/jshint_test.js.

Hooks are Dafny functions stored in the task's members. A hook's result is
one of three things:

- `Fulfilled(v)`: a value, or a promise that fulfils with it;
- `Threw(e)`: a synchronous exception;
- `Rejected(e)`: a rejected promise.

The file system is a map from path to decoded text. Events are a sequence
the emitter appends to.

The model follows the code where it departs from the design the project describes:

- Nothing in lib/task.js reads a dry-run flag. Every fulfilled filterWrite is written.
- `processFiles` joins the destinations with `when.all`. A thrown exception stops the walk at that destination. A rejection fails the whole join with the first rejection. There is no aggregate error naming every failed destination.
- `exception` returns nothing. A failed setup or method is therefore swallowed: `run` resolves to undefined and teardown does not run. A failing teardown is not caught.
- An exception thrown synchronously by parseConfig or setup escapes `run`, because both are called before any promise exists.
- A missing source makes readFile throw the result of `exception`, which is undefined.
- An unknown task type with no method of its own throws undefined.

## Model

| member | source | states |
|---|---|---|
| `TaskEngine.ExtendAllLastWins` | lib/task.js:44-49 | The merged task has exactly the keys of its fragments, and each key holds the value from the last fragment that has it. |
| `TaskEngine.Task.Create` | lib/task.js:44-49 | Task.create builds a fresh task whose members are the fragments merged left to right. The fragments are values and stay unchanged. |
| `TaskEngine.Task.constructor` | lib/task.js:25-27 | The constructor applies its config through init, so the new task has exactly the config's members. |
| `TaskEngine.Task.Init` | lib/task.js:62 | init copies every key of the config onto the task. Existing keys are overwritten and the others are kept. |
| `TaskEngine.Emitter.Emit` | lib/task.js:78-80 | Emitting appends exactly one event to the shared trace. |
| `TaskEngine.FileStore.Write` | lib/task.js:277-293 | Writing stores the text under the path and changes no other file. |
| `TaskEngine.StripBom` | lib/task.js:261-263 | The decoded text is either a U+FEFF followed by the result, or the result itself when the text does not start with U+FEFF. At most one BOM is removed. |
| `TaskEngine.Task.CallParseConfig` | lib/task.js:164-167 | Emits "parseConfig" with the config, then returns the task's parseConfig result unchanged. The default returns the config itself. |
| `TaskEngine.Task.CallSetup` | lib/task.js:168-171 | Emits "setup" with the config, then returns setup's result unchanged. |
| `TaskEngine.Task.CallTeardown` | lib/task.js:176-179 | Emits "teardown" with the config, then returns teardown's result unchanged. |
| `TaskEngine.Task.CallIterateFile` | lib/task.js:180-183 | Emits "iterateFile" with the config and path, then returns iterateFile's result unchanged. |
| `TaskEngine.Task.CallReadFile` | lib/task.js:184-187 | Emits "readFile", then returns the stored text without its BOM. A missing file throws undefined. |
| `TaskEngine.Task.CallFilterRead` | lib/task.js:192-195 | Emits "filterRead" with the config, content and path, then returns filterRead's result unchanged. The default returns the content. |
| `TaskEngine.Task.CallFilterWrite` | lib/task.js:196-199 | Emits "filterWrite" with the config, contents and path, then returns filterWrite's result unchanged. The default joins the contents with "". |
| `TaskEngine.Task.CallWriteFile` | lib/task.js:188-191 | Emits "writeFile", stores the text of the input under the path, leaves every other file alone and returns true. |
| `TaskEngine.Task.ProcessSource` | lib/task.js:100-108 | One source's callback appends exactly the events of `VisitSource` and returns its result: iterateFile, then (unless the task is an iterator) readFile and filterRead. |
| `TaskEngine.Task.ProcessFileSet` | lib/task.js:98-109 | The loop over the sources appends the events of `FileSetRun` and returns its entries. It stops at the first exception. |
| `TaskEngine.Task.WriteGroup` | lib/task.js:131-136 | A writer destination's continuation does what `WriterChain` says to the trace, the store and the result. |
| `TaskEngine.Task.ProcessDestination` | lib/task.js:126-140 | One destination's callback equals `ProcessGroup`: its file set, then the writer continuation or true. |
| `TaskEngine.Task.ProcessGroupList` | lib/task.js:126 | The loop over the destinations, in key order, equals `ProcessGroups`: events, store, results, and the exception that stopped it. |
| `TaskEngine.Task.ProcessFiles` | lib/task.js:117-142 | processFiles equals `ProcessFilesRun`. It throws "No files to process." without files. Otherwise it joins the destinations' completions as `when.all` does. |
| `TaskEngine.Task.CallMethod` | lib/task.js:225-233 | `_method` emits "method", then runs the task's own method or, for the three file types, processFiles. Any other type throws. |
| `TaskEngine.Task.Run` | lib/task.js:147-159 | run(config) appends the events of `RunSpec`, leaves its store and ends as it says. |
| `TaskEngine.Task.RunConfigured` | lib/task.js:152-158 | After parseConfig: setup, then the method and teardown, as `ConfiguredRun` says. |
| `TaskEngine.Task.RunMethod` | lib/task.js:153-158 | After setup fulfils: the method, then teardown only when the method succeeded, as `Finish` says. |
| `TaskLaws.VisitSourceLaws` | lib/task.js:100-108 | One source emits iterateFile first and only pipeline events. It returns exactly when nothing throws, and then its entry is true for an iterator or filterRead of the BOM-stripped text. |
| `TaskLaws.OnlyIterate` | lib/task.js:101 | One source emits exactly one iterateFile event, for its own path. |
| `TaskLaws.VisitSourcesNames` | lib/task.js:100-108 | Walking sources emits only iterateFile, plus readFile and filterRead when the task is not an iterator. |
| `TaskLaws.VisitSourcesThrown` | lib/task.js:100-108 | The walk over the sources throws if and only if some source does not complete. |
| `TaskLaws.VisitSourcesEntries` | lib/task.js:100-108 | A walk that does not throw has one entry per source, each the entry for that source, in declared order. |
| `TaskLaws.VisitSourcesIterates` | lib/task.js:101 | A walk that does not throw calls iterateFile once per source, in declared order. |
| `TaskLaws.VisitSourcesLaws` | lib/task.js:98-109 | The walk's event names, its throw condition, its entries and its iterateFile order, together. |
| `TaskLaws.FileSetLaws` | lib/task.js:98-109 | processFileSet announces itself first. An iterator never reads or filters. It throws if and only if a source fails. Otherwise it has one entry per source in declared order and calls iterateFile once per source. |
| `TaskLaws.FileSetNames` | lib/task.js:98-109 | processFileSet emits only processFileSet, iterateFile, readFile and filterRead. |
| `TaskLaws.FirstRejectionNone` | lib/task.js:131 | `when.all` finds no rejection if and only if no entry is rejected. |
| `TaskLaws.WriterChainLaws` | lib/task.js:131-136 | With no rejected entry there is one filterWrite over the entries' values. If it fulfils there is one writeFile of its text, the destination is stored and the result is true. Otherwise nothing is written and the destination rejects. |
| `TaskLaws.WriterReads` | lib/task.js:128 | For a writer whose sources are all read, the file set does not throw or reject. Its values are the filterRead results in declared source order. |
| `TaskLaws.WriterDestination` | lib/task.js:126-136 | filterWrite is called once, with the filterRead results in declared order. writeFile is then called once, with its result and the destination, and the store holds the output. A failing filterWrite writes nothing. |
| `TaskLaws.ProcessFilesWithoutFiles` | lib/task.js:121-123 | Without files, processFiles emits its own event, throws "No files to process." and touches nothing. |
| `TaskLaws.GroupsNames` | lib/task.js:126-140 | Walking the destinations emits only file-pipeline events. |
| `TaskLaws.ProcessFilesNames` | lib/task.js:117-142 | processFiles emits only file-pipeline events. |
| `TaskLaws.NonWriterGroups` | lib/task.js:137-139 | For a non-writer, walking the destinations leaves the store alone, emits no write events and yields true per completed destination. |
| `TaskLaws.NonWriterNeverWrites` | lib/task.js:137-139 | A non-writer never calls filterWrite or writeFile and leaves the store unchanged. Unless it throws, processFiles fulfils with true for every destination. |
| `TaskLaws.WriterGroupStep` | lib/task.js:130-136 | A writer destination that neither throws nor rejects writes its own path once, keeps every existing file and gives true. |
| `TaskLaws.WriterGroupsResults` | lib/task.js:126-141 | Such a walk has one true per destination and removes no file. |
| `TaskLaws.WriterGroupsStore` | lib/task.js:126-141 | After such a walk, every destination is in the store. |
| `TaskLaws.WriterGroupsWrites` | lib/task.js:126-141 | Such a walk calls writeFile once per destination, in key order. |
| `TaskLaws.WriterWritesEveryDestination` | lib/task.js:117-142 | When a writer's processFiles fulfils: writeFile was called once per key of files, in key order; every destination is stored; no file disappeared; the result is true per destination. |
| `TaskLaws.MethodDispatch` | lib/task.js:225-233 | Without a method of its own, a task delegates to processFiles exactly when its type is a file type. Otherwise it throws undefined and touches nothing. |
| `TaskLaws.MethodOnly` | lib/task.js:172-175 | Outside the file pipeline's names, `_method` emits only its own "method" event. |
| `TaskLaws.RunCases` | lib/task.js:147-159 | run, case by case: a parseConfig or setup throw escapes run; a rejected setup or a failed method resolves to undefined without teardown; otherwise teardown's completion decides the outcome. |
| `TaskLaws.RunLifecycleOrder` | lib/task.js:147-159 | run emits parseConfig, setup, method and teardown strictly in that order, with the configs each receives. A failing step ends the sequence. |
| `TaskLaws.RunFailures` | lib/task.js:147-159 | The failure rules of run: which failures escape, which are swallowed by `exception` (skipping method or teardown), and a failing teardown rejecting run's promise. The store in each case is also given. |
| `TaskLaws.PlainWriterDestination` | lib/task.js:302-315 | A writer with only default hooks writes "XY" for sources "X" and "Y": filterRead passes contents through and filterWrite joins them with "". |
| `TaskLaws.OneDestinationRun` | lib/task.js:147-159 | A writer run over one destination that is written ends with that destination's store and resolves to teardown's value. |
| `TaskLaws.OneDestinationRejectedRun` | lib/task.js:141-158 | A writer run over one destination that rejects resolves to undefined with that destination's store, and teardown is never called: `exception` swallows the rejection of `when.all`. |
| `TaskLaws.DefaultWriterJoinsSources` | lib/task.js:313-315 | End to end, a default writer run over { out: [a, b] } stores "XY" and resolves to undefined. |
| `Js.JoinStrings` | tasks/concat.js:61 | Joining string values puts the strings end to end, in order, with the separator between neighbours. |
| `Concat.SpaceEnd` | tasks/concat.js:34 | The end of a greedy `\s*`: all whitespace before it, and no whitespace at it. |
| `Concat.SpaceEndUnique` | tasks/concat.js:34 | A whitespace run that cannot be extended is the one `\s*` takes. |
| `Concat.CloseFrom` | tasks/concat.js:29-32 | The lazy `[\s\S]*?\*\/` stops at the first "*/" at or after its start, or finds none. |
| `Concat.TerminatorFrom` | tasks/concat.js:25 | The first line terminator at or after a position, or none. |
| `Concat.LineEnd` | tasks/concat.js:25 | A comment line `.*\/\/.*\n` starts at i and ends at j if and only if LineEnd(i) is j. |
| `Concat.LinesEnd` | tasks/concat.js:25 | The greedy repetition of comment lines ends at a point that the run of comment lines reaches, and no further comment line starts there. |
| `Concat.LinesEndUnique` | tasks/concat.js:25 | A run of comment lines that cannot be extended is the one the repetition takes. |
| `Concat.BannerEnd` | tasks/concat.js:20-34 | A match is never empty without `line` and never passes the end of the source. |
| `Concat.ModeOf` | tasks/concat.js:21-27 | Falsy options count as {}. The line alternative is used exactly when options are truthy with a truthy `line`, and the block alternative exactly when they have a truthy `block`. |
| `Concat.StripBanner` | tasks/concat.js:34-35 | stripBanner always returns a suffix of its input, no longer than the input. |
| `Concat.DefaultBannerEnd` | tasks/concat.js:32 | In default mode the scanner ends exactly at the end of a default banner, and every match it finds is one. |
| `Concat.BlockBannerEnd` | tasks/concat.js:29 | In block mode the scanner ends exactly at the end of a block banner, and every match it finds is one. |
| `Concat.StripDefault` | tasks/concat.js:30-35 | Without line or block, stripBanner removes exactly a leading non-"/*!" block comment and its surrounding whitespace. It changes the source if and only if the source starts with one. |
| `Concat.StripBlock` | tasks/concat.js:27-35 | With block, stripBanner removes exactly a leading block comment, "/*!" included. It changes the source if and only if the source starts with one. |
| `Concat.StripLine` | tasks/concat.js:23-26 | With line, the match always exists: the leading whitespace, the longest run of "//" lines and the whitespace after. The block alternative is never used. |
| `Concat.KeepsImportantBanner` | tasks/concat.js:30-32 | Without block, a leading "/*!" comment is kept. |
| `Concat.KeepsUncommentedSource` | tasks/concat.js:27-35 | Without line, a source whose first non-space text is not "/*" is returned unchanged. |
| `Concat.KeepsUnclosedComment` | tasks/concat.js:29-32 | Without line, a source with no "*/" is returned unchanged. |
| `Concat.Banner1Shape` | test/concat_test.js:36-38 | The first fixture starts with a 28-character default (and block) banner, followed by the expected rest. |
| `Concat.StripBanner1` | test/concat_test.js:37-38 | The first fixture loses its banner both with and without block. |
| `Concat.Banner2Shape` | test/concat_test.js:40-42 | The second fixture opens with "/*!" after one newline and is a block banner up to the expected rest. |
| `Concat.StripBanner2` | test/concat_test.js:41-42 | The second fixture keeps its "/*!" banner by default and loses it with block. |
| `Concat.Banner3Lines` | test/concat_test.js:44-47 | The third fixture's three "//" lines form the longest comment-line run. |
| `Concat.Banner3Shape` | test/concat_test.js:44-47 | The third fixture's line banner ends where the expected rest begins. |
| `Concat.StripBanner3` | test/concat_test.js:45-47 | The third fixture is kept by default and with block, and loses its line banner with line. |
| `Concat.NormalizeOptions` | tasks/concat.js:39-50 | The options have the defaults' keys plus the user's. User keys win key by key and missing keys take the defaults. stripBanners and process are never left `true`, and they keep the user's meaning. |
| `Concat.NormalizeIdempotent` | tasks/concat.js:39-50 | Normalising normalised options changes nothing. |
| `Concat.ParseConfig` | tasks/concat.js:38-52 | parseConfig returns the config with the same files and normalised options. Missing options count as {} and yield exactly the defaults. |
| `Concat.Fragment` | tasks/concat.js:13-17 | The concat task as the engine sees it: a file writer with no method of its own, concat's parseConfig, the as-written filterWrite (`FilterWriteAsWritten`, which fails under a truthy stripBanners), and the default setup, teardown, iterateFile and filterRead. |
| `Concat.FilterWriteAsWritten` | tasks/concat.js:54-62 | As written: it fulfils if and only if options exist and stripBanners is falsy or there are no sources. It then gives the sources joined by the separator. Otherwise it throws a TypeError. |
| `Concat.StripBannersFailsAsWritten` | tasks/concat.js:57-59 | As written, stripBanners: true fails on the first fixture. |
| `Concat.StripAll` | tasks/concat.js:57-59 | Mapping stripBanner succeeds exactly when every source is a string, and gives each source stripped in place. |
| `Concat.FilterWrite` | tasks/concat.js:54-62 | The corrected filterWrite. Without options it throws. With stripBanners falsy it agrees with the code as written. |
| `Concat.FilterWriteJoins` | tasks/concat.js:54-62 | For string sources, filterWrite gives them end to end with the separator, each stripped of its banner when stripBanners is truthy. |
| `Concat.ParsedSeparator` | tasks/concat.js:39-44 | With no options, or with only a separator, the parsed separator is "\n" or that separator, and stripBanners is falsy. |
| `Concat.ConcatReads` | test/concat_test.js:10-14 | concat reads sources "X" and "Y" unchanged, in declared order. |
| `Concat.ConcatDestination` | tasks/concat.js:54-62 | With stripBanners falsy, concat writes "X" + separator + "Y" to the destination and gives true. |
| `Concat.ConcatOneDestination` | test/concat_test.js:10-28 | concat.run over { out: [a, b] } stores "X" + separator + "Y" and resolves to undefined. |
| `Concat.ConcatJoinsWithNewline` | test/concat_test.js:8-17 | With no options, concat.run writes "X\nY": the default separator is a newline. |
| `Concat.ConcatJoinsWithSeparator` | test/concat_test.js:19-31 | With separator ': ', concat.run writes "X: Y". |
| `Concat.StripBannersDestination` | tasks/concat.js:54-62 | As written, a destination with one existing source under a truthy stripBanners rejects and leaves the store as it was. |
| `Concat.ConcatStripBannersWritesNothing` | tasks/concat.js:57-59 | As written, concat.run with { stripBanners: true } over { out: [a] } writes nothing, never calls teardown and resolves to undefined. |
| `Concat.CorrectedFragment` | tasks/concat.js:54-62 | The concat task with the corrected filterWrite: every hook as in `Concat.Fragment` except filterWrite, which is `FilterWrite`. |
| `Concat.StripBanner1Default` | tasks/concat.js:45-47 | The first fixture loses its banner under the options `true` expands to, {}. |
| `Concat.CorrectedBannerWrite` | tasks/concat.js:54-62 | The corrected filterWrite over the first fixture alone, with stripBanners {}, gives the fixture without its banner. |
| `Concat.CorrectedBannerDestination` | tasks/concat.js:54-62 | With the corrected filterWrite and a truthy stripBanners, the first fixture's destination stores the fixture without its banner and gives true. |
| `Concat.CorrectedStripsBanner` | tasks/concat.js:54-62 | With the corrected filterWrite, concat.run with { stripBanners: true } over the first fixture stores it without its banner and resolves to undefined. |
| `JsHint.KeyNamesMembers` | tasks/jshint.js:32-34 | A name is a key of the predef list if and only if some element converts to it. |
| `JsHint.ProcessConfig` | tasks/jshint.js:19-37 | Missing options throw a TypeError on the first read. Otherwise the loop over predef returns the config with the same files and the options of `ProcessedOptions`, or throws exactly what it throws. |
| `JsHint.ProcessedFailures` | tasks/jshint.js:23-35 | processConfig fails if and only if jshintrc is truthy, or a truthy predef is not an array, or a non-empty predef meets a primitive globals. Every failure is a TypeError. |
| `JsHint.ProcessedGlobals` | tasks/jshint.js:27-35 | On success only globals changes. Every predef name maps to true. A falsy globals becomes an object of exactly those names. A truthy globals object keeps its other entries, and no entry is lost. |
| `JsHint.PredefElementsGlobal` | tasks/jshint.js:31-35 | Each element of a predef array names a global set to true. |
| `JsHint.ProcessedIdempotent` | tasks/jshint.js:19-37 | Processing processed options again changes nothing. |
| `JsHint.FilterRead` | tasks/jshint.js:39-41 | Every file passes as true, whatever its content or path. |
| `JsHint.Fragment` | tasks/jshint.js:13-17 | The jshint task as the engine sees it: a file reader with no method of its own, jshint's filterRead, and the default parseConfig, setup, teardown, iterateFile and filterWrite. |
| `JsHint.ReaderEntries` | tasks/jshint.js:39-41 | jshint's file set does not throw if and only if every source exists. It then yields true once per source, whatever the contents. |
| `JsHint.RunNeverWrites` | tasks/jshint.js:17 | For any config and store, jshint.run writes nothing and resolves to undefined. |
| `JsHint.FixtureFileSet` | test/jshint_test.js:9-13 | The fixture's file set emits processFileSet, iterateFile and readFile, then filterRead with the text when the file exists. It yields [true], or throws undefined when the file is missing. |
| `JsHint.FixtureGroups` | test/jshint_test.js:9-13 | The array config has one destination, "0", processed as a list of one. |
| `JsHint.FixtureProcessFiles` | test/jshint_test.js:9-13 | processFiles in that test emits exactly the file-pipeline events for the fixture and fulfils with [true]. With the fixture missing it throws undefined after readFile. The store is untouched. |

## Left out

- File I/O: `fs`, iconv decoding and encoding, and `mkdirp` (lib/task.js:251-293). They are replaced by a map from path to decoded text. Of readFile only the BOM strip is kept. Of writeFile only storing `String(input)` and returning true is kept.
- EventEmitter2 dispatch, wildcards and subscribers (lib/task.js:69-80). Emitting is appending to one trace, which all tasks share.
- Promise scheduling in `when`. Each destination is assumed to run to completion (file set, filterWrite, writeFile) before the next begins. Interleavings across destinations are not modelled. The order-preserving join is.
- Hooks are typed by the member name they are stored under. A function of another shape stored under a hook's name (say, a filterRead stored as filterWrite) is treated as "is not a function", where JavaScript would call it with whatever arguments the engine passes.
- Hooks are pure functions of their arguments. A hook that mutates the config, or reads the emitter or the files, is not modelled, and neither is a readFile or writeFile override.
- Configs are values. The in-place mutation and returned identity of the caller's config object are not captured (tasks/concat.js:39-51, tasks/jshint.js:19-37); the returned config carries the same files.
- `ensure-array` is not part of this model. A destination's sources are a list or a single path. A null or undefined source list is not modelled.
- Numbers are integers only. Holes in arrays, getters and prototype properties are not modelled. Options are a plain property map, so non-object options are not modelled either.
- A TypeError's message text is implementation-defined. The model fixes one message per failure; only the error's type is meant.
- Concat: `Concat.Fragment` carries filterWrite as written, so every run-level statement about concat describes the code as it is. Under a truthy stripBanners that code fails (see "## Findings"). The corrected behaviour is `Concat.CorrectedFragment`, whose runs strip banners.
- Concat: the `stripBanner` member is not among the hooks of `Concat.Fragment`, because the engine never calls it. It is modelled as `Concat.StripBanner`, which test/concat_test.js calls directly.
- Concat: the fixture files test/fixtures/banner*.js are not part of this model. Their text is rebuilt from the expected outputs in test/concat_test.js:37-47. The sources in the two run tests are stand-ins "X" and "Y".
- JsHint.ProcessConfig: requires globals to be neither an array nor an Error when predef names anything. The value model gives those no named properties, so that case is not modelled.
- JsHint.ProcessedFailures, JsHint.ProcessedGlobals, JsHint.PredefElementsGlobal, JsHint.ProcessedIdempotent: they carry the same requires as `JsHint.ProcessConfig`, for the same reason.
- JsHint: processConfig is not among the hooks of `JsHint.Fragment`. The engine calls parseConfig, which jshint leaves at its default, so processConfig never runs.
- JsHint: the jshintrc branch is modelled only as the TypeError it raises, because lib/task.js defines no `Task.file`. Reading a JSON file is not modelled.
- JsHint: the JSHint library itself is not part of this model, and neither is linting. It is loaded but unused in tasks/jshint.js.
- tasks/stylus.js, tasks/cs.js, tasks/custom.js and Gruntfile.js are not part of this model.

## Findings

| source | as written | input that shows it | evidently intended | confidence | as-written member | corrected member |
|---|---|---|---|---|---|---|
| tasks/concat.js:57-59 | The `map` callback reads `this.stripBanner`. In strict mode `this` is undefined inside the callback, so any truthy stripBanners throws a TypeError as soon as there is a source. | parseConfig with options { stripBanners: true }, then filterWrite over one source | each source stripped of its leading banner with the stripBanners options, then joined with the separator | not executed | `Concat.StripBannersFailsAsWritten` | `Concat.FilterWriteJoins` |
