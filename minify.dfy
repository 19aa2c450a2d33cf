/** The minify task (src/minify.ts): it minifies the JavaScript bundle with Closure
    Compiler when the probe allows it and with UglifyJS otherwise, transpiling the
    bundle down first when the context asks for it, and minifies the CSS with
    clean-css at the same time. The collaborators are given by how they settle; the
    model returns the calls made, in order, with the outcome. */
module Minify {
  import opened Outcomes
  import ClosureCompiler

  /** A collaborator call made by the minify task. */
  datatype Action = Transpile | Uglify | Closure | CleanCss

  /** How each collaborator settles when it is called; `closureEnabled` and `javaExit`
      feed isClosureSupported. */
  datatype Collaborators = Collaborators(
    closureEnabled: Option<string>,
    closureConfig: ClosureCompiler.ClosureConfig,
    javaExit: Option<int>,
    closure: Outcome,
    transpile: Outcome,
    uglify: Outcome,
    cleancss: Outcome)

  /** How the collaborator behind `a` settles. */
  function Settles(c: Collaborators, a: Action): Outcome {
    match a
    case Transpile => c.transpile
    case Uglify => c.uglify
    case Closure => c.closure
    case CleanCss => c.cleancss
  }

  /** A chain of calls that stops at the first failure: every call but the last
      passed, and the chain settles as its last call did. */
  predicate FailsFast(c: Collaborators, trace: seq<Action>, outcome: Outcome) {
    trace != [] &&
    (forall i :: 0 <= i < |trace| - 1 ==> Settles(c, trace[i]).Pass?) &&
    outcome == Settles(c, trace[|trace| - 1])
  }

  /** One branch of the task: the calls it made, in order, and how it settled. */
  datatype Branch = Branch(trace: seq<Action>, outcome: Outcome)

  /** runUglify: transpile first when the bundle still needs it, then uglify. */
  function RunUglify(requiresTranspileDownlevel: bool, c: Collaborators): (r: Branch)
    ensures FailsFast(c, r.trace, r.outcome)
    ensures Closure !in r.trace && CleanCss !in r.trace
    ensures Transpile in r.trace <==> requiresTranspileDownlevel
    ensures Transpile in r.trace ==> r.trace[0] == Transpile
    ensures Uglify in r.trace <==> !requiresTranspileDownlevel || c.transpile.Pass?
    ensures Uglify in r.trace ==> r.trace[|r.trace| - 1] == Uglify
    ensures !requiresTranspileDownlevel ==> r.trace == [Uglify]
    ensures requiresTranspileDownlevel && c.transpile.Pass? ==> r.trace == [Transpile, Uglify]
  {
    if requiresTranspileDownlevel then
      if c.transpile.Fail? then Branch([Transpile], c.transpile)
      else Branch([Transpile, Uglify], c.uglify)
    else Branch([Uglify], c.uglify)
  }

  /** What minifyJs did, and the context's flag afterwards. */
  datatype JsRun = JsRun(trace: seq<Action>, outcome: Outcome, requiresTranspileDownlevel: bool)

  /** minifyJs: Closure when isClosureSupported answers true, else the UglifyJS path. */
  function MinifyJs(requiresTranspileDownlevel: bool, c: Collaborators): (r: JsRun)
    ensures FailsFast(c, r.trace, r.outcome)
    ensures Closure in r.trace <==> ClosureCompiler.Enabled(c.closureEnabled) && c.javaExit == Some(0)
    ensures Closure in r.trace ==> r.trace == [Closure]
    // without Closure, the branch is runUglify's run
    ensures Closure !in r.trace ==>
              r.trace == RunUglify(requiresTranspileDownlevel, c).trace &&
              r.outcome == RunUglify(requiresTranspileDownlevel, c).outcome
    ensures CleanCss !in r.trace
    ensures Transpile in r.trace <==> Closure !in r.trace && requiresTranspileDownlevel
    ensures Transpile in r.trace ==> r.trace[0] == Transpile
    ensures Uglify in r.trace ==> r.trace[|r.trace| - 1] == Uglify
    ensures r.requiresTranspileDownlevel ==
              if Closure in r.trace then ClosureCompiler.FlagAfterClosure(requiresTranspileDownlevel, c.closure)
              else requiresTranspileDownlevel
  {
    var probe := ClosureCompiler.IsClosureSupported(c.closureEnabled, c.closureConfig, c.javaExit);
    if probe.supported then
      JsRun([Closure], c.closure, ClosureCompiler.FlagAfterClosure(requiresTranspileDownlevel, c.closure))
    else
      var u := RunUglify(requiresTranspileDownlevel, c);
      JsRun(u.trace, u.outcome, requiresTranspileDownlevel)
  }

  /** minifyCss: always clean-css. */
  function MinifyCss(c: Collaborators): (r: Branch)
    ensures FailsFast(c, r.trace, r.outcome)
    ensures r.trace == [CleanCss]
  {
    Branch([CleanCss], c.cleancss)
  }

  /** What the whole task did: both branches' calls, its outcome, and the flag. */
  datatype MinifyRun = MinifyRun(js: seq<Action>, css: seq<Action>, outcome: Outcome, requiresTranspileDownlevel: bool)

  /** The join of two branches that both run to the end: it passes when both pass,
      and otherwise fails with the error of the branch that failed first; when both
      fail, `jsFirst` says which settled first. */
  function PromiseAll(js: Outcome, css: Outcome, jsFirst: bool): (r: Outcome)
    ensures r.Pass? <==> js.Pass? && css.Pass?
    ensures r.Fail? ==> r == js || r == css
    ensures js.Fail? && (jsFirst || css.Pass?) ==> r == js
    ensures css.Fail? && (!jsFirst || js.Pass?) ==> r == css
  {
    if js.Fail? && (jsFirst || css.Pass?) then js
    else if css.Fail? then css
    else Pass
  }

  /** minifyWorker: both branches start together and both run to the end. */
  function MinifyWorker(requiresTranspileDownlevel: bool, c: Collaborators, jsFirst: bool): (r: MinifyRun)
    ensures r.css == [CleanCss]
    ensures r.js == MinifyJs(requiresTranspileDownlevel, c).trace
    ensures r.requiresTranspileDownlevel == MinifyJs(requiresTranspileDownlevel, c).requiresTranspileDownlevel
    // the task settles as the join of its two branches
    ensures r.outcome == PromiseAll(MinifyJs(requiresTranspileDownlevel, c).outcome, c.cleancss, jsFirst)
  {
    var js := MinifyJs(requiresTranspileDownlevel, c);
    var css := MinifyCss(c);
    MinifyRun(js.trace, css.trace, PromiseAll(js.outcome, css.outcome, jsFirst), js.requiresTranspileDownlevel)
  }

  /** minify: the worker's run, with its error passed on as it is. */
  function Minify(requiresTranspileDownlevel: bool, c: Collaborators, jsFirst: bool): (r: MinifyRun)
    ensures r.outcome.Pass? <==> MinifyJs(requiresTranspileDownlevel, c).outcome.Pass? && c.cleancss.Pass?
    // when both branches fail, the error is the one that settled first
    ensures r.outcome == PromiseAll(MinifyJs(requiresTranspileDownlevel, c).outcome, c.cleancss, jsFirst)
  {
    MinifyWorker(requiresTranspileDownlevel, c, jsFirst)
  }

  /** A failing JavaScript branch fails the task even when clean-css succeeds, and
      clean-css has been called all the same. */
  lemma JsFailureFailsTask(requiresTranspileDownlevel: bool, c: Collaborators, jsFirst: bool)
    requires MinifyJs(requiresTranspileDownlevel, c).outcome.Fail? && c.cleancss.Pass?
    ensures var r := Minify(requiresTranspileDownlevel, c, jsFirst);
            r.outcome == MinifyJs(requiresTranspileDownlevel, c).outcome && r.css == [CleanCss]
  {
  }

  /** Without the enablement flag the task never calls Closure and leaves the flag
      as it was, however Java would answer. */
  lemma DisabledClosureIsNeverRun(requiresTranspileDownlevel: bool, c: Collaborators, jsFirst: bool)
    requires !ClosureCompiler.Enabled(c.closureEnabled)
    ensures var r := Minify(requiresTranspileDownlevel, c, jsFirst);
            Closure !in r.js && r.requiresTranspileDownlevel == requiresTranspileDownlevel &&
            (Transpile in r.js <==> requiresTranspileDownlevel)
  {
  }
}
