/** The Closure Compiler backend of the minify stage (src/closure.ts): the probe that
    decides whether Java can run it, the command line it is started with, the worker
    that compiles the bundle into a temporary file and promotes it over the bundle,
    and the task that clears the context's downlevel-transpile flag afterwards.
    Spawned processes, copies and unlinks are collaborators: each is given by the
    exit code or Outcome it settles with, and is recorded as an operation issued
    against the host. */
module ClosureCompiler {
  import opened Outcomes
  import Paths

  /** The resolved Closure settings; built from defaults and user overrides elsewhere. */
  datatype ClosureConfig = ClosureConfig(
    pathToJavaExecutable: string,
    pathToClosureJar: string,
    optimization: string,
    languageOut: string,
    languageIn: string)

  /** A process started by the build: an executable and its argument vector. */
  datatype Command = Command(executable: string, args: seq<string>)

  // ---------------------------------------------------------------------------
  // Availability probe

  /** `process.env.IONIC_ENABLE_CLOSURE` is truthy: defined and not the empty string. */
  function Enabled(enableClosure: Option<string>): (on: bool)
    ensures enableClosure.None? ==> !on
    ensures enableClosure == Some("") ==> !on
    ensures enableClosure.Some? && enableClosure.value != "" ==> on
  {
    enableClosure.Some? && enableClosure.value != ""
  }

  /** The `java -version` process the probe starts. */
  function JavaVersionCommand(config: ClosureConfig): (c: Command)
    ensures c.executable == config.pathToJavaExecutable && c.args == ["-version"]
  {
    Command(config.pathToJavaExecutable, ["-version"])
  }

  /** checkIfJavaIsAvailable: settles when the version check closes; `exit` is its
      exit code, None when a signal ended it. */
  function CheckIfJavaIsAvailable(exit: Option<int>): (r: Outcome)
    ensures r.Pass? <==> exit == Some(0)
    ensures r.Fail? ==> r.error == NoReason
  {
    if exit == Some(0) then Pass else Fail(NoReason)
  }

  /** What the probe did: the processes it started and its answer. */
  datatype Probe = Probe(spawned: seq<Command>, supported: bool)

  /** isClosureSupported: never fails. Without the enablement flag it answers false
      and starts nothing; with it, it answers whether the Java check succeeded. */
  function IsClosureSupported(enableClosure: Option<string>, config: ClosureConfig, javaExit: Option<int>): (r: Probe)
    ensures !Enabled(enableClosure) ==> r.spawned == [] && !r.supported
    ensures Enabled(enableClosure) ==> r.spawned == [JavaVersionCommand(config)]
    ensures r.supported <==> Enabled(enableClosure) && javaExit == Some(0)
  {
    if !Enabled(enableClosure) then Probe([], false)
    else
      match CheckIfJavaIsAvailable(javaExit)
      case Pass => Probe([JavaVersionCommand(config)], true)
      case Fail(_) => Probe([JavaVersionCommand(config)], false)
  }

  // ---------------------------------------------------------------------------
  // The compiler's command line

  /** The argument vector runClosure hands to Java. */
  function ClosureArgs(config: ClosureConfig, input: string, output: string): (args: seq<string>)
    ensures |args| == 11 && args[0] == "-jar" && args[1] == config.pathToClosureJar
    ensures args[2] == "--js" && args[3] == input
    ensures args[4] == "--js_output_file" && args[5] == output
  {
    ["-jar", config.pathToClosureJar,
     "--js", input,
     "--js_output_file", output,
     "--language_out=" + config.languageOut,
     "--language_in", config.languageIn,
     "--compilation_level", config.optimization]
  }

  /** The process runClosure starts: compile `input` into `output`. */
  function ClosureCommand(config: ClosureConfig, input: string, output: string): (c: Command)
    ensures c.executable == config.pathToJavaExecutable
    // the compiler reads back the jar and exactly the five options
    ensures ParseJavaCommand(c.args) == Some(Invocation(config.pathToClosureJar, ClosureOptions(config, input, output)))
  {
    ClosureArgsRoundTrip(config, input, output);
    Command(config.pathToJavaExecutable, ClosureArgs(config, input, output))
  }

  /** How the receiving side reads a command line: the jar after `-jar`, then options. */
  datatype Invocation = Invocation(jar: string, options: map<string, string>)

  /** Position of the first `c` in `s`, if any. */
  function IndexOf(s: string, c: char): (r: Option<nat>)
    ensures r.None? <==> c !in s
    ensures r.Some? ==> r.value < |s| && s[r.value] == c && c !in s[..r.value]
    decreases |s|
  {
    if s == [] then None
    else if s[0] == c then Some(0)
    else
      match IndexOf(s[1..], c)
      case None => None
      case Some(i) =>
        assert s[..i + 1] == [s[0]] + s[1..][..i];
        Some(i + 1)
  }

  predicate IsOptionName(token: string) {
    |token| >= 2 && token[..2] == "--"
  }

  /** Reads options written `--name value` or `--name=value` into `acc`; a later
      option overrides an earlier one. None when a token is not an option name or a
      name has no value. */
  function ParseOptions(args: seq<string>, acc: map<string, string>): Option<map<string, string>>
    decreases |args|
  {
    if args == [] then Some(acc)
    else if !IsOptionName(args[0]) then None
    else
      match IndexOf(args[0], '=')
      case Some(i) => ParseOptions(args[1..], acc[args[0][..i] := args[0][i + 1..]])
      case None => if |args| == 1 then None else ParseOptions(args[2..], acc[args[0] := args[1]])
  }

  /** `java -jar <jar> <options>` as Java and the compiler read it. */
  function ParseJavaCommand(args: seq<string>): Option<Invocation> {
    if |args| >= 2 && args[0] == "-jar" then
      match ParseOptions(args[2..], map[])
      case Some(options) => Some(Invocation(args[1], options))
      case None => None
    else None
  }

  /** The settings the compiler is meant to receive. */
  function ClosureOptions(config: ClosureConfig, input: string, output: string): map<string, string> {
    map["--js" := input,
        "--js_output_file" := output,
        "--language_out" := config.languageOut,
        "--language_in" := config.languageIn,
        "--compilation_level" := config.optimization]
  }

  /** One `--name value` pair. */
  lemma ParseSpacedOption(args: seq<string>, acc: map<string, string>)
    requires |args| >= 2 && IsOptionName(args[0]) && '=' !in args[0]
    ensures ParseOptions(args, acc) == ParseOptions(args[2..], acc[args[0] := args[1]])
  {
  }

  /** One `--name=value` token, where `name` itself holds no '='. */
  lemma ParseJoinedOption(args: seq<string>, acc: map<string, string>, name: string, value: string)
    requires |args| >= 1 && args[0] == name + "=" + value
    requires IsOptionName(name) && '=' !in name
    ensures ParseOptions(args, acc) == ParseOptions(args[1..], acc[name := value])
  {
    var t := args[0];
    assert t[..|name|] == name && t[|name|] == '=' && t[|name| + 1..] == value;
    assert t[..2] == name[..2];
    var k := IndexOf(t, '=');
    assert k == Some(|name|) by {
      assert k.Some?;
    }
  }

  lemma OptionNamesHoldNoEquals()
    ensures '=' !in "--js" && '=' !in "--js_output_file" && '=' !in "--language_out"
    ensures '=' !in "--language_in" && '=' !in "--compilation_level"
  {
  }

  /** The last option after `-jar <jar>`. */
  lemma ParseLevel(optimization: string, acc: map<string, string>)
    ensures ParseOptions(["--compilation_level", optimization], acc)
         == Some(acc["--compilation_level" := optimization])
  {
    OptionNamesHoldNoEquals();
    var a := ["--compilation_level", optimization];
    ParseSpacedOption(a, acc);
    assert a[2..] == [];
  }

  /** The options after `-jar <jar>`, from `--language_in` on. */
  lemma ParseLanguageInAndLevel(languageIn: string, optimization: string, acc: map<string, string>)
    ensures ParseOptions(["--language_in", languageIn, "--compilation_level", optimization], acc)
         == Some(acc["--language_in" := languageIn]["--compilation_level" := optimization])
  {
    OptionNamesHoldNoEquals();
    var a := ["--language_in", languageIn, "--compilation_level", optimization];
    ParseSpacedOption(a, acc);
    assert a[2..] == ["--compilation_level", optimization];
    ParseLevel(optimization, acc["--language_in" := languageIn]);
  }

  /** The options after `-jar <jar>`, from `--language_out=` on. */
  lemma ParseLanguages(config: ClosureConfig, acc: map<string, string>)
    ensures ParseOptions(["--language_out=" + config.languageOut, "--language_in", config.languageIn,
                          "--compilation_level", config.optimization], acc)
         == Some(acc["--language_out" := config.languageOut]
                    ["--language_in" := config.languageIn]["--compilation_level" := config.optimization])
  {
    OptionNamesHoldNoEquals();
    var a := ["--language_out=" + config.languageOut, "--language_in", config.languageIn,
              "--compilation_level", config.optimization];
    ParseJoinedOption(a, acc, "--language_out", config.languageOut);
    assert a[1..] == ["--language_in", config.languageIn, "--compilation_level", config.optimization];
    ParseLanguageInAndLevel(config.languageIn, config.optimization, acc["--language_out" := config.languageOut]);
  }

  /** The options after `-jar <jar>`, from `--js_output_file` on. */
  lemma ParseOutputAndLanguages(config: ClosureConfig, output: string, acc: map<string, string>)
    ensures ParseOptions(["--js_output_file", output, "--language_out=" + config.languageOut,
                          "--language_in", config.languageIn, "--compilation_level", config.optimization], acc)
         == Some(acc["--js_output_file" := output]["--language_out" := config.languageOut]
                    ["--language_in" := config.languageIn]["--compilation_level" := config.optimization])
  {
    OptionNamesHoldNoEquals();
    var a := ["--js_output_file", output, "--language_out=" + config.languageOut,
              "--language_in", config.languageIn, "--compilation_level", config.optimization];
    ParseSpacedOption(a, acc);
    assert a[2..] == ["--language_out=" + config.languageOut, "--language_in", config.languageIn,
                      "--compilation_level", config.optimization];
    ParseLanguages(config, acc["--js_output_file" := output]);
  }

  /** Whatever the paths and settings contain, the command line delivers the jar,
      the input, the output, both language levels and the optimisation level to the
      compiler unchanged, each under its own option. */
  lemma ClosureArgsRoundTrip(config: ClosureConfig, input: string, output: string)
    ensures ParseJavaCommand(ClosureArgs(config, input, output))
         == Some(Invocation(config.pathToClosureJar, ClosureOptions(config, input, output)))
  {
    OptionNamesHoldNoEquals();
    var args := ClosureArgs(config, input, output);
    var a := args[2..];
    assert a == ["--js", input, "--js_output_file", output, "--language_out=" + config.languageOut,
                 "--language_in", config.languageIn, "--compilation_level", config.optimization];
    ParseSpacedOption(a, map[]);
    assert a[2..] == ["--js_output_file", output, "--language_out=" + config.languageOut,
                      "--language_in", config.languageIn, "--compilation_level", config.optimization];
    ParseOutputAndLanguages(config, output, map["--js" := input]);
  }

  /** runClosure's rule: the compile succeeds exactly when the compiler exits with 0;
      any other exit is 'Closure failed with a non-zero status code'. */
  function ClosureExit(exit: Option<int>): (r: Outcome)
    ensures r.Pass? <==> exit == Some(0)
    ensures r.Fail? ==> r.error == ClosureExitedNonZero
  {
    if exit == Some(0) then Pass else Fail(ClosureExitedNonZero)
  }

  // ---------------------------------------------------------------------------
  // File operations as steps over the file system

  /** An operation issued against the host, in the order it was issued. */
  datatype Op = Exec(command: Command) | Copy(source: string, target: string) | Remove(path: string)

  /** A file system after one operation, and how the operation settled. */
  datatype Step = Step(files: Files, outcome: Outcome)

  /** The compiler run: on success it has written `compiled` to `output`. */
  function CompileStep(files: Files, output: string, exit: Option<int>, compiled: string): (s: Step)
    ensures s.outcome == ClosureExit(exit)
    ensures s.outcome.Pass? ==> s.files == files[output := compiled]
    ensures s.outcome.Fail? ==> s.files == files
  {
    var outcome := ClosureExit(exit);
    Step(if outcome.Pass? then files[output := compiled] else files, outcome)
  }

  /** copyFileAsync: fails on a missing source, else as the I/O `io` settles. */
  function CopyStep(files: Files, source: string, target: string, io: Outcome): (s: Step)
    ensures s.outcome.Pass? <==> source in files && io.Pass?
    ensures source !in files ==> s.outcome == Fail(NoSuchFile(source))
    ensures source in files ==> s.outcome == io
    ensures s.outcome.Pass? ==> s.files == files[target := files[source]]
    ensures s.outcome.Fail? ==> s.files == files
  {
    if source !in files then Step(files, Fail(NoSuchFile(source)))
    else if io.Fail? then Step(files, io)
    else Step(files[target := files[source]], Pass)
  }

  /** unlinkAsync: fails on a missing path, else as the I/O `io` settles. */
  function UnlinkStep(files: Files, path: string, io: Outcome): (s: Step)
    ensures s.outcome.Pass? <==> path in files && io.Pass?
    ensures path !in files ==> s.outcome == Fail(NoSuchFile(path))
    ensures path in files ==> s.outcome == io
    ensures s.outcome.Pass? ==> s.files == files - {path}
    ensures s.outcome.Fail? ==> s.files == files
  {
    if path !in files then Step(files, Fail(NoSuchFile(path)))
    else if io.Fail? then Step(files, io)
    else Step(files - {path}, Pass)
  }

  /** The machine the build runs on: its files, and every operation issued against it. */
  class Host {
    var files: Files
    var issued: seq<Op>

    constructor (files: Files)
      ensures this.files == files && issued == []
    {
      this.files := files;
      issued := [];
    }

    /** runClosure: start the compiler on `input`, writing `output`. */
    method RunClosure(config: ClosureConfig, input: string, output: string, exit: Option<int>, compiled: string)
      returns (r: Outcome)
      modifies this
      ensures issued == old(issued) + [Exec(ClosureCommand(config, input, output))]
      ensures Step(files, r) == CompileStep(old(files), output, exit, compiled)
    {
      issued := issued + [Exec(ClosureCommand(config, input, output))];
      r := ClosureExit(exit);
      if r.Pass? {
        files := files[output := compiled];
      }
    }

    method CopyFile(source: string, target: string, io: Outcome) returns (r: Outcome)
      modifies this
      ensures issued == old(issued) + [Copy(source, target)]
      ensures Step(files, r) == CopyStep(old(files), source, target, io)
    {
      issued := issued + [Copy(source, target)];
      if source !in files {
        r := Fail(NoSuchFile(source));
      } else if io.Fail? {
        r := io;
      } else {
        files := files[target := files[source]];
        r := Pass;
      }
    }

    method UnlinkFile(path: string, io: Outcome) returns (r: Outcome)
      modifies this
      ensures issued == old(issued) + [Remove(path)]
      ensures Step(files, r) == UnlinkStep(old(files), path, io)
    {
      issued := issued + [Remove(path)];
      if path !in files {
        r := Fail(NoSuchFile(path));
      } else if io.Fail? {
        r := io;
      } else {
        files := files - {path};
        r := Pass;
      }
    }
  }

  // ---------------------------------------------------------------------------
  // closureWorker

  /** The temporary output: a random hex name with a `.js` extension in the build directory. */
  function TempPath(buildDir: string, randomHex: string): (p: string)
    ensures Paths.Within(buildDir, p)
    ensures |p| >= 3 && p[|p| - 3..] == ".js"
  {
    Paths.Join(buildDir, randomHex + ".js")
  }

  /** The bundle: `IONIC_OUTPUT_JS_FILE_NAME` in the build directory. */
  function BundlePath(buildDir: string, outputJsFileName: string): (p: string)
    ensures |p| >= |outputJsFileName| && p[|p| - |outputJsFileName|..] == outputJsFileName
    ensures outputJsFileName != "" ==> Paths.Within(buildDir, p)
  {
    Paths.Join(buildDir, outputJsFileName)
  }

  /** How the collaborators of closureWorker settle when called: the compiler's exit
      and the text it writes, the copy, the unlink after it, and the unlink issued on
      the failure path. */
  datatype WorkerWorld = WorkerWorld(
    closureExit: Option<int>,
    compiled: string,
    copy: Outcome,
    unlink: Outcome,
    cleanup: Outcome)

  /** What closureWorker did: the file system afterwards, the operations it issued, how it settled. */
  datatype WorkerRun = WorkerRun(files: Files, issued: seq<Op>, outcome: Outcome)

  /** The catch handler: issue an unlink of the temporary file, ignore how it settles,
      and rethrow the error that got here. */
  function Rethrow(files: Files, issued: seq<Op>, temp: string, error: Error, cleanup: Outcome): (r: WorkerRun)
    ensures r.outcome == Fail(error)
    ensures r.issued == issued + [Remove(temp)]
    ensures r.files - {temp} == files - {temp}
    ensures cleanup.Pass? ==> temp !in r.files
    ensures temp in r.files ==> r.files == files
  {
    UnlinkThenRemove(files, temp, cleanup, {temp});
    WorkerRun(UnlinkStep(files, temp, cleanup).files, issued + [Remove(temp)], Fail(error))
  }

  /** The promise chain of closureWorker before its catch handler: compile, copy the
      temporary file over the bundle, unlink it, stopping at the first step that fails. */
  function TryBody(files: Files, command: Command, temp: string, bundle: string, w: WorkerWorld): (t: WorkerRun)
    ensures 1 <= |t.issued| <= 3 && t.issued[0] == Exec(command)
    ensures |t.issued| >= 2 <==> w.closureExit == Some(0)
    ensures |t.issued| >= 2 ==> t.issued[1] == Copy(temp, bundle)
    ensures |t.issued| == 3 ==> t.issued[2] == Remove(temp)
    ensures |t.issued| == 3 <==> w.closureExit == Some(0) && w.copy.Pass?
    ensures t.outcome.Pass? <==> w.closureExit == Some(0) && w.copy.Pass? && w.unlink.Pass?
    ensures t.outcome.Pass? ==> |t.issued| == 3
    ensures w.closureExit != Some(0) ==> t.outcome == Fail(ClosureExitedNonZero) && t.files == files
    ensures w.closureExit == Some(0) && w.copy.Fail? ==> t.outcome == w.copy
    ensures w.closureExit == Some(0) && w.copy.Pass? && w.unlink.Fail? ==> t.outcome == w.unlink
  {
    var compile := CompileStep(files, temp, w.closureExit, w.compiled);
    if compile.outcome.Fail? then WorkerRun(compile.files, [Exec(command)], compile.outcome)
    else
      var copy := CopyStep(compile.files, temp, bundle, w.copy);
      if copy.outcome.Fail? then WorkerRun(copy.files, [Exec(command), Copy(temp, bundle)], copy.outcome)
      else
        var unlink := UnlinkStep(copy.files, temp, w.unlink);
        WorkerRun(unlink.files, [Exec(command), Copy(temp, bundle), Remove(temp)], unlink.outcome)
  }

  /** closureWorker, given the compiler command it starts, the temporary file that
      command writes and the bundle: compile, copy the temporary file over the bundle,
      unlink it; any failure on the way, including of that unlink, lands in the catch
      handler. */
  function Worker(files: Files, command: Command, temp: string, bundle: string, w: WorkerWorld): (r: WorkerRun)
    // every run starts the compiler and ends by unlinking the temporary file
    ensures |r.issued| >= 2
    ensures r.issued[0] == Exec(command)
    ensures r.issued[|r.issued| - 1] == Remove(temp)
    // the copy is issued exactly when the compiler succeeded, and right after it
    ensures Copy(temp, bundle) in r.issued <==> w.closureExit == Some(0)
    ensures w.closureExit == Some(0) ==> r.issued[1] == Copy(temp, bundle)
    // success needs all three steps
    ensures r.outcome.Pass? <==> w.closureExit == Some(0) && w.copy.Pass? && w.unlink.Pass?
    // a failed compile fails the worker with the non-zero-status error
    ensures w.closureExit != Some(0) ==> r.outcome == Fail(ClosureExitedNonZero)
    // the error rethrown is the one of the step that failed, never the cleanup's
    ensures w.closureExit == Some(0) && w.copy.Fail? ==> r.outcome == w.copy
    ensures w.closureExit == Some(0) && w.copy.Pass? && w.unlink.Fail? ==> r.outcome == w.unlink
    // exactly the chain's operations, and one more unlink when it failed
    ensures r.issued == TryBody(files, command, temp, bundle, w).issued + (if r.outcome.Fail? then [Remove(temp)] else [])
  {
    var t := TryBody(files, command, temp, bundle, w);
    if t.outcome.Fail? then Rethrow(t.files, t.issued, temp, t.outcome.error, w.cleanup) else t
  }

  /** Writing a key that is then taken out leaves no trace. */
  lemma UpdateThenRemove(m: Files, k: string, v: string, out: set<string>)
    requires k in out
    ensures m[k := v] - out == m - out
  {
  }

  /** Removing a key that is then taken out anyway leaves no trace. */
  lemma RemoveThenRemove(m: Files, k: string, out: set<string>)
    requires k in out
    ensures (m - {k}) - out == m - out
  {
  }

  /** An unlink of a key that is then taken out leaves no trace, however it settles. */
  lemma UnlinkThenRemove(m: Files, k: string, io: Outcome, out: set<string>)
    requires k in out
    ensures UnlinkStep(m, k, io).files - out == m - out
  {
    if UnlinkStep(m, k, io).outcome.Pass? {
      RemoveThenRemove(m, k, out);
    }
  }

  /** A failed compile writes nothing: at most the temporary file is gone afterwards. */
  lemma FailedCompileWritesNothing(files: Files, command: Command, temp: string, bundle: string, w: WorkerWorld)
    requires w.closureExit != Some(0)
    ensures Worker(files, command, temp, bundle, w).files - {temp}
         == files - {temp}
  {
    UnlinkThenRemove(files, temp, w.cleanup, {temp});
  }

  /** On success the bundle holds the compiled text and the temporary file is gone;
      nothing else changes. */
  lemma SuccessReplacesBundle(files: Files, command: Command, temp: string, bundle: string, w: WorkerWorld)
    requires Worker(files, command, temp, bundle, w).outcome.Pass?
    ensures Worker(files, command, temp, bundle, w).files
         == files[bundle := w.compiled] - {temp}
  {
    var compile := CompileStep(files, temp, w.closureExit, w.compiled);
    var copy := CopyStep(compile.files, temp, bundle, w.copy);
    var unlink := UnlinkStep(copy.files, temp, w.unlink);
    assert compile.files == files[temp := w.compiled];
    assert copy.files == compile.files[bundle := w.compiled];
    assert Worker(files, command, temp, bundle, w).files == unlink.files == copy.files - {temp};
    if bundle != temp {
      assert copy.files == files[bundle := w.compiled][temp := w.compiled];
      UpdateThenRemove(files[bundle := w.compiled], temp, w.compiled, {temp});
    }
  }

  /** The temporary file is left behind only when the worker failed and the
      failure-path unlink failed too. */
  lemma TempFileIsRemoved(files: Files, command: Command, temp: string, bundle: string, w: WorkerWorld)
    requires Worker(files, command, temp, bundle, w).outcome.Pass? || w.cleanup.Pass?
    ensures temp !in Worker(files, command, temp, bundle, w).files
  {
  }

  /** Nothing but the bundle and the temporary file changes. */
  lemma OnlyTempAndBundleChange(files: Files, command: Command, temp: string, bundle: string, w: WorkerWorld)
    ensures Worker(files, command, temp, bundle, w).files
              - {temp, bundle}
         == files - {temp, bundle}
  {
    var out := {temp, bundle};
    var compile := CompileStep(files, temp, w.closureExit, w.compiled);
    if compile.outcome.Pass? {
      UpdateThenRemove(files, temp, w.compiled, out);
      var copy := CopyStep(compile.files, temp, bundle, w.copy);
      if copy.outcome.Pass? {
        UpdateThenRemove(compile.files, bundle, compile.files[temp], out);
        var unlink := UnlinkStep(copy.files, temp, w.unlink);
        UnlinkThenRemove(copy.files, temp, w.unlink, out);
        if unlink.outcome.Fail? {
          UnlinkThenRemove(unlink.files, temp, w.cleanup, out);
        }
      } else {
        UnlinkThenRemove(copy.files, temp, w.cleanup, out);
      }
    } else {
      UnlinkThenRemove(compile.files, temp, w.cleanup, out);
    }
  }

  /** The settling of the failure-path unlink is never observed: the worker's outcome
      is the same whichever way it goes. */
  lemma CleanupIsNotObserved(files: Files, command: Command, temp: string, bundle: string, w: WorkerWorld, cleanup: Outcome)
    ensures Worker(files, command, temp, bundle, w.(cleanup := cleanup)).outcome
         == Worker(files, command, temp, bundle, w).outcome
  {
  }

  /** The build context: shared by the whole build; closure clears its flag. */
  class BuildContext {
    var buildDir: string
    var requiresTranspileDownlevel: bool

    constructor (buildDir: string, requiresTranspileDownlevel: bool)
      ensures this.buildDir == buildDir && this.requiresTranspileDownlevel == requiresTranspileDownlevel
    {
      this.buildDir := buildDir;
      this.requiresTranspileDownlevel := requiresTranspileDownlevel;
    }
  }

  /** The promise chain of closureWorker before its catch handler, step by step on the host. */
  method CompileAndInstall(host: Host, config: ClosureConfig, temp: string, bundle: string, w: WorkerWorld)
    returns (r: Outcome)
    modifies host
    ensures var t := TryBody(old(host.files), ClosureCommand(config, bundle, temp), temp, bundle, w);
            host.files == t.files && host.issued == old(host.issued) + t.issued && r == t.outcome
  {
    r := host.RunClosure(config, bundle, temp, w.closureExit, w.compiled);
    if r.Pass? {
      r := host.CopyFile(temp, bundle, w.copy);
      if r.Pass? {
        r := host.UnlinkFile(temp, w.unlink);
      }
    }
  }

  /** closureWorker, step by step on the host. */
  method ClosureWorker(ctx: BuildContext, host: Host, config: ClosureConfig, outputJsFileName: string,
                       randomHex: string, w: WorkerWorld) returns (r: Outcome)
    modifies host
    ensures var run := Worker(old(host.files), ClosureCommand(config, BundlePath(ctx.buildDir, outputJsFileName), TempPath(ctx.buildDir, randomHex)),
                             TempPath(ctx.buildDir, randomHex), BundlePath(ctx.buildDir, outputJsFileName), w);
            host.files == run.files && host.issued == old(host.issued) + run.issued && r == run.outcome
  {
    var temp := TempPath(ctx.buildDir, randomHex);
    var bundle := BundlePath(ctx.buildDir, outputJsFileName);
    ghost var issued0 := host.issued;
    ghost var t := TryBody(host.files, ClosureCommand(config, bundle, temp), temp, bundle, w);
    r := CompileAndInstall(host, config, temp, bundle, w);
    if r.Fail? {
      // fire and forget: how this unlink settles is not awaited
      var _ := host.UnlinkFile(temp, w.cleanup);
      assert host.issued == issued0 + (t.issued + [Remove(temp)]);
    }
  }

  /** The flag after the closure task: cleared when the worker succeeded, since
      Closure's output is already downlevel; kept when it failed. */
  function FlagAfterClosure(requiresTranspileDownlevel: bool, worker: Outcome): (flag: bool)
    ensures worker.Pass? ==> !flag
    ensures worker.Fail? ==> flag == requiresTranspileDownlevel
  {
    if worker.Pass? then false else requiresTranspileDownlevel
  }

  /** closure: run the worker and pass its outcome through; on success clear the flag. */
  method Closure(ctx: BuildContext, host: Host, config: ClosureConfig, outputJsFileName: string,
                 randomHex: string, w: WorkerWorld) returns (r: Outcome)
    modifies ctx, host
    ensures var run := Worker(old(host.files), ClosureCommand(config, BundlePath(old(ctx.buildDir), outputJsFileName), TempPath(old(ctx.buildDir), randomHex)),
                             TempPath(old(ctx.buildDir), randomHex), BundlePath(old(ctx.buildDir), outputJsFileName), w);
            host.files == run.files && host.issued == old(host.issued) + run.issued && r == run.outcome
    ensures ctx.requiresTranspileDownlevel == FlagAfterClosure(old(ctx.requiresTranspileDownlevel), r)
    ensures ctx.buildDir == old(ctx.buildDir)
  {
    r := ClosureWorker(ctx, host, config, outputJsFileName, randomHex, w);
    if r.Pass? {
      ctx.requiresTranspileDownlevel := false;
    }
  }
}
