/** The path helpers the minification stage and the loader rely on, as plain string
    functions: joining a directory and a file name, resolving against a working
    directory, and replacing a file's extension. Separators are '/', and '.' and '..'
    segments are not normalised. */
module Paths {
  import opened Outcomes

  /** `p` names an entry inside the directory `dir`. */
  predicate Within(dir: string, p: string) {
    |dir| < |p| && p[..|dir|] == dir &&
    (dir == "" || dir[|dir| - 1] == '/' || p[|dir|] == '/')
  }

  /** `path.join(dir, name)` for a directory and a single file name: a '/' is added
      only when the directory does not already end in one. */
  function Join(dir: string, name: string): (r: string)
    ensures |r| >= |name| && r[|r| - |name|..] == name
    ensures name != "" ==> Within(dir, r)
    ensures r == dir + name || r == dir + "/" + name
    ensures |r| == |dir| + |name| <==> dir == "" || dir[|dir| - 1] == '/'
  {
    if dir == "" || dir[|dir| - 1] == '/' then dir + name else dir + "/" + name
  }

  /** `path.resolve(path.normalize(p))` run in the working directory `cwd`: an absolute
      path is kept, a relative one is placed under `cwd`. */
  function Resolve(cwd: string, p: string): (r: string)
    ensures |p| > 0 && p[0] == '/' ==> r == p
    ensures p != "" && p[0] != '/' ==> Within(cwd, r) && |r| >= |p| && r[|r| - |p|..] == p
    ensures p == "" ==> r == cwd
  {
    if p == "" then cwd else if p[0] == '/' then p else Join(cwd, p)
  }

  /** Index of the last '.' in the final segment of `p` (no '/' after it), if any. */
  function LastDotInSegment(p: string): (r: Option<nat>)
    ensures r.Some? ==> r.value < |p| && p[r.value] == '.'
    ensures r.Some? ==> '/' !in p[r.value..] && '.' !in p[r.value + 1..]
    // a dot with no separator after it is found
    ensures r.None? ==> forall i :: 0 <= i < |p| && p[i] == '.' ==> '/' in p[i..]
    decreases |p|
  {
    if p == [] then None
    else if p[|p| - 1] == '/' then
      assert forall i :: 0 <= i < |p| ==> p[|p| - 1] in p[i..] by {
        forall i | 0 <= i < |p| ensures p[|p| - 1] in p[i..] {
          assert p[i..][|p| - 1 - i] == p[|p| - 1];
        }
      }
      None
    else if p[|p| - 1] == '.' then Some(|p| - 1)
    else
      var q := p[..|p| - 1];
      var r := LastDotInSegment(q);
      assert r.Some? ==> p[r.value + 1..] == q[r.value + 1..] + [p[|p| - 1]];
      assert r.None? ==> forall i :: 0 <= i < |p| && p[i] == '.' ==> '/' in p[i..] by {
        forall i | 0 <= i < |p| && p[i] == '.' && r.None? ensures '/' in p[i..] {
          assert i < |q| && q[i] == '.';
          assert p[i..] == q[i..] + [p[|p| - 1]];
        }
      }
      r
  }

  /** Where the extension of `p` starts (`|p|` when it has none): at the last '.' of
      the final segment, unless that '.' begins the segment, as in `.bashrc`. */
  function ExtStart(p: string): (i: nat)
    ensures i <= |p|
    ensures i < |p| ==> 0 < i && p[i] == '.' && p[i - 1] != '/' && '/' !in p[i..] && '.' !in p[i + 1..]
    // a dot in the final segment that does not begin it starts an extension
    ensures forall j :: 0 < j < |p| && p[j] == '.' && p[j - 1] != '/' && '/' !in p[j..] ==> i < |p|
  {
    match LastDotInSegment(p)
    case None => |p|
    case Some(i) => if i == 0 || p[i - 1] == '/' then |p| else i
  }

  /** `path.extname(p)`: the extension of `p`, with its dot, or "" when it has none. */
  function ExtName(p: string): (e: string)
    ensures e != "" ==> e[0] == '.' && '/' !in e && '.' !in e[1..]
    ensures |e| <= |p| && p[..|p| - |e|] + e == p
    // a dot in the final segment that does not begin it gives an extension
    ensures forall j :: 0 < j < |p| && p[j] == '.' && p[j - 1] != '/' && '/' !in p[j..] ==> e != ""
    // and that extension does not begin the segment
    ensures e != "" ==> |e| < |p| && p[|p| - |e| - 1] != '/'
  {
    p[ExtStart(p)..]
  }

  /** `changeExtension(p, ext)`: `p` with its extension, if any, replaced by `ext`. */
  function ChangeExtension(p: string, ext: string): (r: string)
    ensures |r| >= |ext| && r[|r| - |ext|..] == ext
    ensures |r| - |ext| <= |p| && r[..|r| - |ext|] == p[..|r| - |ext|]
    ensures r[..|r| - |ext|] + ExtName(p) == p
  {
    p[..ExtStart(p)] + ext
  }

  /** Appending characters that are neither '.' nor '/' does not move the last dot. */
  lemma {:induction false} LastDotSkips(s: string, t: string)
    requires '.' !in t && '/' !in t
    ensures LastDotInSegment(s + t) == LastDotInSegment(s)
    decreases |t|
  {
    if t != [] {
      var u := t[..|t| - 1];
      assert t[|t| - 1] in t;
      assert (s + t)[|s + t| - 1] == t[|t| - 1];
      assert (s + t)[..|s + t| - 1] == s + u;
      assert forall c :: c in u ==> c in t;
      LastDotSkips(s, u);
      assert LastDotInSegment(s + t) == LastDotInSegment(s + u);
    } else {
      assert s + t == s;
    }
  }

  /** Replacing the extension twice with the same one is the same as doing it once,
      for an extension such as ".js" and a path that does not end in a separator. */
  lemma ChangeExtensionIdempotent(p: string, ext: string)
    requires p != "" && p[|p| - 1] != '/'
    requires ext != "" && ext[0] == '.' && '.' !in ext[1..] && '/' !in ext
    ensures ChangeExtension(ChangeExtension(p, ext), ext) == ChangeExtension(p, ext)
  {
    var stem := p[..ExtStart(p)];
    var q := stem + ext;
    assert q == (stem + ".") + ext[1..];
    LastDotSkips(stem + ".", ext[1..]);
    assert LastDotInSegment(stem + ".") == Some(|stem|);
    assert ExtStart(q) == |stem|;
    assert q[..|stem|] == stem;
  }
}
