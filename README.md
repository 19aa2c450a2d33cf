# Minify orchestration and webpack loader of ionic-app-scripts, in Dafny

This project models the decision and sequencing layer of the `minify` build task of
ionic-app-scripts, and the read-through cache of its webpack loader:

- `closure.dfy` (module `ClosureCompiler`, src/closure.ts): the Closure Compiler
  backend. It covers the availability probe (`IONIC_ENABLE_CLOSURE`, then
  `java -version`), the 11-element Java command line, and `closureWorker`. The worker
  compiles the bundle into a temporary `.js` file in the build directory, copies that
  file over the bundle and unlinks it. On any failure it issues an unlink and rethrows.
  It also covers the `closure` task, which clears `requiresTranspileDownlevel` on
  success. The worker's files, and the compiler process, copies and unlinks it issues,
  are state of a `Host` object. The probe's `java -version` process is not on the
  host: it is returned in `Probe.spawned`. The shared build context is a
  `BuildContext` object. `ClosureWorker` is proved equal to the pure specification
  `Worker`, and `CompileAndInstall` to `TryBody`, the part before the catch handler.
  The contracts of these two functions state the order of the operations and the
  outcomes. Separate lemmas state what happens to the files.
- `loader.dfy` (module `Loader`, dist/webpack/loader-impl.js): `readFile` over the
  shared `FileCache`, and `webpackLoader`. The loader derives `<resource>.js` and
  `<resource>.js.map`, reads both through the cache, and rewrites `sources` and
  `sourcesContent` of the map. Lemmas cover sequences of reads: an entry is never
  replaced, and a second pass reads no disk. When both files could be read, a
  repeated load reads no disk and answers the same as the first.
- `minify.dfy` (module `Minify`, src/minify.ts): backend choice, transpile before
  uglify, and the join of the JS and CSS branches. These are pure functions that
  return the calls made, in order, with the outcome.
- `paths.dfy` (module `Paths`): `path.join`, `path.resolve` and `changeExtension` as
  string functions.
- `outcomes.dfy` (module `Outcomes`): `Option`, `Result`, `Outcome`, the error kinds,
  and the file-system map.

Collaborators are inputs. A spawned process is given by its exit code (`None` when a
signal ended it). A copy, unlink, transpile, uglify or clean-css call is given by the
`Outcome` it settles with. The disk is a map from path to text. `JSON.parse` is an
arbitrary function `string -> Json`.

Three behaviours of the code that are easy to miss:

- A failed read of the source map fails the whole load. Both reads are joined with
  `Promise.all` (dist/webpack/loader-impl.js:26).
- A map file that is not JSON falls back to webpack's own map. When webpack supplied
  none, assigning `sources` throws, and the load fails with a `TypeError`
  (dist/webpack/loader-impl.js:27-35).
- Only the unlink in the catch handler is fire-and-forget. A failure of the unlink
  after a successful copy is caught (src/closure.ts:38-39), a second unlink is issued,
  and the unlink's error fails the worker.

## Model

| member | source | states |
|---|---|---|
| `ClosureCompiler.Enabled` | src/closure.ts:92 | the flag counts as set exactly when it is defined and not the empty string, as JavaScript's truthiness has it |
| `ClosureCompiler.ClosureCommand` | src/closure.ts:70-71 | the compiler is started as `config.pathToJavaExecutable` with `ClosureArgs(config, input, output)`, which the independent option parser reads back as the configured jar and exactly the five options, with `input` under `--js` and `output` under `--js_output_file` |
| `ClosureCompiler.JavaVersionCommand` | src/closure.ts:49 | the probe starts the configured Java executable with the single argument `-version` |
| `ClosureCompiler.CheckIfJavaIsAvailable` | src/closure.ts:59-64 | the Java check passes exactly on exit code 0 and otherwise rejects with no reason |
| `ClosureCompiler.IsClosureSupported` | src/closure.ts:91-102 | without the enablement flag: false and no process started; with it: exactly one `java -version` started, and true exactly when it exits with 0; never fails |
| `ClosureCompiler.ClosureArgs` | src/closure.ts:70-71 | 11 arguments, with `-jar` and the jar first, the input right after `--js` and the output right after `--js_output_file` |
| `ClosureCompiler.ClosureArgsRoundTrip` | src/closure.ts:70-71 | read back as Java and the compiler read a command line, the vector yields the jar and exactly the five options (input, output, both language levels, optimisation level), for all values |
| `ClosureCompiler.ClosureExit` | src/closure.ts:81-86 | the compile succeeds iff the exit code is 0; any other exit is the non-zero-status error |
| `ClosureCompiler.CompileStep` | src/closure.ts:68-88 | on success the output file holds the compiled text; on failure no file changes |
| `ClosureCompiler.CopyStep` | src/closure.ts:35 | a copy fails on a missing source and otherwise as its I/O settles; only a successful copy writes the target |
| `ClosureCompiler.UnlinkStep` | src/closure.ts:38 | an unlink fails on a missing path and otherwise as its I/O settles; only a successful unlink removes the path |
| `ClosureCompiler.Host.RunClosure` | src/closure.ts:68-88 | records the Java command it starts and updates the files as `CompileStep` says |
| `ClosureCompiler.Host.CopyFile` | src/closure.ts:35 | records the copy issued and updates the files as `CopyStep` says |
| `ClosureCompiler.Host.UnlinkFile` | src/closure.ts:38 | records the unlink issued and updates the files as `UnlinkStep` says |
| `Paths.Join` | src/closure.ts:30 | the directory, then the name, with a `/` added only when the directory does not end in one (its length is the sum of the two exactly when the directory is empty or already ends in `/`): the result ends with the name and lies inside the directory |
| `ClosureCompiler.TempPath` | src/closure.ts:30 | the temporary file lies in the build directory and ends in `.js` |
| `ClosureCompiler.BundlePath` | src/closure.ts:32 | the bundle lies in the build directory and ends with the configured file name |
| `ClosureCompiler.Rethrow` | src/closure.ts:39-44 | the catch handler issues one unlink of the temp file and rethrows the error unchanged. It touches no other file, and when its unlink passes the temp file is gone |
| `ClosureCompiler.TryBody` | src/closure.ts:33-38 | the promise chain before `catch` starts the compiler first. It issues the copy iff the compile succeeded, and the unlink iff the copy succeeded. It passes iff all three pass, and otherwise fails with the failing step's own error. A failed compile leaves the files as they were |
| `ClosureCompiler.Worker` | src/closure.ts:28-45 | every run starts the compiler and ends with an unlink of the temp file. The copy is issued iff the compile succeeded, right after it. The operations issued are exactly those of `TryBody`, plus one unlink of the temp file when the run failed. It succeeds iff compile, copy and unlink all succeed. A failure is the failing step's own error, never the cleanup's |
| `ClosureCompiler.FailedCompileWritesNothing` | src/closure.ts:33 | after a failed compile the files are as before, apart from the temp file |
| `ClosureCompiler.SuccessReplacesBundle` | src/closure.ts:33-38 | on success the bundle holds the compiled text, the temp file is gone, and nothing else changes |
| `ClosureCompiler.TempFileIsRemoved` | src/closure.ts:38-44 | the temp file remains only when the worker failed and the failure-path unlink failed too |
| `ClosureCompiler.OnlyTempAndBundleChange` | src/closure.ts:28-45 | no file other than the bundle and the temp file is written or removed, whatever the outcomes |
| `ClosureCompiler.CleanupIsNotObserved` | src/closure.ts:39-44 | how the failure-path unlink settles never changes the worker's outcome |
| `ClosureCompiler.CompileAndInstall` | src/closure.ts:33-38 | step by step on the host: the files, the operations issued and the outcome are those of `TryBody`, with the compiler reading the bundle and writing the temp file |
| `ClosureCompiler.BuildContext.constructor` | src/closure.ts:11-19 | a build context holds the build directory and the downlevel flag it is given |
| `ClosureCompiler.ClosureWorker` | src/closure.ts:28-45 | step by step on the host: the files, the operations issued and the outcome are those of `Worker`. The temp file is `TempPath` of the build directory, and the compiler reads the bundle and writes that temp file |
| `ClosureCompiler.FlagAfterClosure` | src/closure.ts:17-20 | the downlevel flag is cleared when the worker succeeded and kept when it failed |
| `ClosureCompiler.Closure` | src/closure.ts:11-26 | runs the worker and passes its outcome through; the flag becomes `FlagAfterClosure` of the outcome and nothing else in the context changes |
| `Paths.Resolve` | dist/webpack/loader-impl.js:9 | an absolute resource path is kept; a relative one is placed under the working directory |
| `Paths.ExtName` | dist/webpack/loader-impl.js:11 | the extension is the path's suffix from the last dot of the final segment, when that dot does not begin the segment, and empty otherwise |
| `Paths.ChangeExtension` | dist/webpack/loader-impl.js:11 | the result ends with the new extension, and its stem followed by the old extension is the original path |
| `Paths.ChangeExtensionIdempotent` | dist/webpack/loader-impl.js:11 | changing the extension to `.js` a second time changes nothing |
| `Loader.JavascriptPath` | dist/webpack/loader-impl.js:11 | the compiled file is the resource path with its extension replaced by `.js` |
| `Loader.SourceMapPath` | dist/webpack/loader-impl.js:12 | the map file is the compiled file's path plus `.map`, so the two paths differ |
| `Loader.ReadFileAsync` | dist/webpack/loader-impl.js:54 | a disk read succeeds iff the path exists, with its text |
| `Loader.ReadThrough` | dist/webpack/loader-impl.js:47-63 | a hit returns the cached entry with no disk read and no cache write. A miss reads the disk once. A successful miss stores and returns `{path, content}` under the path. A failed read leaves the cache unchanged. Over a cache that agrees with the disk it returns what a direct disk read returns, and the cache keeps agreeing |
| `Loader.FileCache.Get` | dist/webpack/loader-impl.js:48 | a lookup finds exactly the cached entries |
| `Loader.FileCache.Set` | dist/webpack/loader-impl.js:57 | the entry is stored under the path, and nothing else changes |
| `Loader.FileCache.ReadFile` | dist/webpack/loader-impl.js:47-63 | in place on the cache: the result, the new entries and whether the disk was read are those of `ReadThrough` |
| `Loader.ReadsCommute` | dist/webpack/loader-impl.js:16-26 | reads of two different paths do not see each other, so the sequential model equals the parallel reads |
| `Loader.ReadAllKeepsEntries` | dist/webpack/loader-impl.js:48-52 | across any sequence of reads, a cached entry is never replaced or dropped |
| `Loader.ReadAllCachesEachPath` | dist/webpack/loader-impl.js:54-58 | after a sequence of reads, every path read that was cached or exists on disk is cached |
| `Loader.AllHits` | dist/webpack/loader-impl.js:48-52 | reading only cached paths neither reads the disk nor changes the cache |
| `Loader.SecondPassReadsNoDisk` | dist/webpack/loader-impl.js:47-63 | reading the same paths again, each of them cached or on disk, reads the disk zero times |
| `Loader.BaseMap` | dist/webpack/loader-impl.js:27-34 | the map file's parsed object is used. When the file is not JSON, webpack's map is used. A null or non-object value is a `TypeError` |
| `Loader.RewriteMap` | dist/webpack/loader-impl.js:35-38 | `sources` becomes exactly the resource path. `sourcesContent` becomes the resource text iff it was absent or empty, and is kept otherwise. The other fields are kept |
| `Loader.Respond` | dist/webpack/loader-impl.js:26-44 | the callback gets the compiled text exactly when both reads succeeded and the map base is an object. A failed read passes its own error on, the first to settle when both failed. A map base that is not an object fails with `TypeError`. On success the map is `RewriteMap` of the map base, so `sources` is the resource path |
| `Loader.Load` | dist/webpack/loader-impl.js:5-45 | the load succeeds iff both files can be read and the map base is an object. A missing file fails it with that file's error. On success the content is the compiled file's, and the map is `RewriteMap` of the map base (the parsed map file, or webpack's map). Readable files with a bad map base fail with `TypeError`. Both reads fill the cache whatever the outcome. Over a cache that agrees with the disk, the answer is the one direct disk reads give |
| `Loader.WebpackLoader` | dist/webpack/loader-impl.js:5-45 | step by step against the shared cache: the callback and the new cache are those of `Load` |
| `Loader.RereadIsServedFromCache` | dist/webpack/loader-impl.js:47-58 | after two readable paths are read, reading either again is a hit. It returns what the first read returned and leaves the cache unchanged |
| `Loader.ResolvedLoadIsRepeatable` | dist/webpack/loader-impl.js:11-44 | for a resolved resource whose two files can be read, a second load answers and caches exactly as the first, with no disk read |
| `Loader.RepeatedLoadIsServedFromCache` | dist/webpack/loader-impl.js:5-58 | whatever the cache holds, once both files could be read, a second load of a resource reads no disk and answers exactly as the first |
| `Minify.RunUglify` | src/minify.ts:42-52 | transpile runs iff the flag is set, and first. Uglify runs iff no transpile failed, and last. Each runs at most once: with the flag set and a passing transpile the calls are exactly transpile then uglify. The chain stops at the first failure and settles as its last call |
| `Minify.MinifyJs` | src/minify.ts:32-40 | Closure runs iff the probe answers true, and then alone. Otherwise the branch's calls and outcome are exactly `RunUglify`'s. The flag changes only through Closure's outcome |
| `Minify.MinifyCss` | src/minify.ts:54-56 | clean-css is the only call, and the branch settles as it does |
| `Minify.PromiseAll` | src/minify.ts:25-28 | the join passes iff both branches pass; otherwise it fails with the error of the branch that failed first |
| `Minify.MinifyWorker` | src/minify.ts:23-29 | both branches always run. The task settles as `PromiseAll` of the JS branch and clean-css: it passes iff both pass, and otherwise fails with the first-settled failure. The flag is the JS branch's |
| `Minify.Minify` | src/minify.ts:9-20 | the task settles as the worker does: it passes iff the JS branch and clean-css both pass, and otherwise fails with the branch error that settled first |
| `Minify.JsFailureFailsTask` | src/minify.ts:23-29 | a failing JS branch fails the task even when clean-css succeeds, and clean-css has still been called |
| `Minify.DisabledClosureIsNeverRun` | src/minify.ts:32-39 | without the enablement flag Closure is never called, the flag is unchanged, and transpile runs iff the flag was set |

## Left out

- Process spawning, the streaming of stdout and stderr, and all `Logger` calls are not modelled. A process is its exit code.
- A `java` that cannot be started is modelled as a non-zero exit. The source attaches no `error` listener to the spawned process. Node raises such an unhandled `error` event as an exception, so the probe then throws or never settles rather than answering false.
- `runWorker` is not modelled. The worker-process hop is treated as a direct call of `closureWorker` whose outcome passes through.
- `generateContext`, `getClosureConfig`, `getUserConfigFile` and `fillConfigDefaults` are not part of this model. `ClosureConfig` and the build directory are given.
- `generateRandomHexString` is a parameter (`randomHex`). The randomness is not modelled.
- `IONIC_OUTPUT_JS_FILE_NAME` is a parameter.
- Closure Compiler, UglifyJS, clean-css and the transpiler are black boxes, given by the Outcome they settle with. The compiler's output text is a parameter. A failed compile is taken to write nothing.
- `ClosureCompiler.CopyStep`, `ClosureCompiler.UnlinkStep`: a failed copy or unlink is taken to change no file. A partly written target is not modelled.
- `ClosureCompiler.Worker`: the failure-path unlink's effect is applied before the worker settles. The source rejects as soon as that unlink is issued, so the unlink may finish after the rejection is observed.
- Unhandled promise rejections are not modelled: the `.then` callbacks on the two reads (dist/webpack/loader-impl.js:18-20, 23-25) and the failure-path `unlinkAsync` (src/closure.ts:42) have no rejection handler, so a failure there also raises an unhandled rejection.
- `Logger.fail(err)` is taken to pass the error through unchanged.
- `Paths.Join`, `Paths.Resolve`: `.` and `..` segments are not normalised, and the separator is `/`. Repeated and trailing separators are not collapsed either: `Join("a", "/b")` gives `"a//b"` where `path.join` gives `"a/b"`, and `Resolve` keeps `"/a/b/"` with its trailing `/`.
- `Paths.ChangeExtension`: the helper's source is not part of this model. The extension is the last `.` of the final segment unless that dot begins the segment. A final segment made only of dots (such as `..`) is treated differently from `path.extname`.
- Promise interleaving is not modelled. For `Promise.all`, both outcomes are known. When both branches fail, the parameter `jsFirst` says which error settled first.
- The webpack-supplied map object is mutated in place by the source. The model returns a new value, so this aliasing is not captured.
- `webpackContex.cacheable()`, `webpackContex.async()` and `getContext()` are not modelled. The cache is passed explicitly.
- A callback that throws is not modelled. In the source, such a throw reaches the catch handler, which calls the callback again.
- `Minify.MinifyJs`: Closure's outcome is an input. `ClosureCompiler.Closure` relates that outcome to the worker's steps, and both use `FlagAfterClosure` for the flag.
