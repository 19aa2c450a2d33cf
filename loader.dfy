/** The webpack loader (dist/webpack/loader-impl.js): it serves a resource from the
    JavaScript the build already compiled for it, reading that file and its source map
    through the build's shared file cache, and points the map back at the resource.
    The disk is a map from path to text (a read of an absent path fails), and
    `JSON.parse` is an arbitrary function from text to what it yields. */
module Loader {
  import opened Outcomes
  import Paths

  /** A cached file: the path it was read from and its text. */
  datatype File = File(path: string, content: string)

  /** The shared file cache's entries, by path. */
  type Cache = map<string, File>

  // ---------------------------------------------------------------------------
  // readFile: a read-through cache

  /** readFileAsync: the text of `path`, or an error when it does not exist. */
  function ReadFileAsync(disk: Files, path: string): (r: Result<string>)
    ensures r.Ok? <==> path in disk
    ensures r.Ok? ==> r.value == disk[path]
    ensures r.Err? ==> r.error == NoSuchFile(path)
  {
    if path in disk then Ok(disk[path]) else Err(NoSuchFile(path))
  }

  /** The file a direct disk read yields; the reference the cache is measured against. */
  function DiskFile(disk: Files, path: string): Result<File> {
    if path in disk then Ok(File(path, disk[path])) else Err(NoSuchFile(path))
  }

  /** Every cached entry is stored under its own path and holds that path's text on `disk`. */
  ghost predicate Coherent(cache: Cache, disk: Files) {
    forall p :: p in cache ==> p in disk && cache[p] == File(p, disk[p])
  }

  /** One readFile: how it settled, the cache afterwards, and whether the disk was read. */
  datatype Read = Read(result: Result<File>, cache: Cache, fromDisk: bool)

  /** readFile: a hit returns the cached entry; a miss reads the disk and, if that
      succeeds, stores and returns `{path, content}`. */
  function ReadThrough(cache: Cache, disk: Files, path: string): (r: Read)
    // a hit: the cached entry, with no disk read and no cache write
    ensures path in cache ==> r == Read(Ok(cache[path]), cache, false)
    // a miss reads the disk, and settles as that read does
    ensures path !in cache ==> r.fromDisk && r.result == DiskFile(disk, path)
    // a successful miss stores what it returns under the path read
    ensures path !in cache && r.result.Ok? ==> r.cache == cache[path := r.result.value]
    // a failed read leaves the cache unchanged
    ensures r.result.Err? ==> r.cache == cache && r.result.error == NoSuchFile(path)
    // afterwards a lookup of the path gives what was returned
    ensures r.result.Ok? ==> path in r.cache && r.cache[path] == r.result.value
    // over a cache that agrees with the disk, it reads what the disk holds and keeps agreeing
    ensures Coherent(cache, disk) ==> r.result == DiskFile(disk, path) && Coherent(r.cache, disk)
    // it succeeds exactly when the path is cached or on disk
    ensures r.result.Ok? <==> path in cache || path in disk
  {
    if path in cache then Read(Ok(cache[path]), cache, false)
    else
      match ReadFileAsync(disk, path)
      case Ok(content) => Read(Ok(File(path, content)), cache[path := File(path, content)], true)
      case Err(e) => Read(Err(e), cache, true)
  }

  /** Two reads of different paths do not see each other: the second settles as it
      would on the original cache, and the cache ends the same in either order. So
      reading the two files one after the other models the loader's parallel reads. */
  lemma ReadsCommute(cache: Cache, disk: Files, a: string, b: string)
    requires a != b
    ensures ReadThrough(ReadThrough(cache, disk, a).cache, disk, b).result == ReadThrough(cache, disk, b).result
    ensures ReadThrough(ReadThrough(cache, disk, a).cache, disk, b).cache
         == ReadThrough(ReadThrough(cache, disk, b).cache, disk, a).cache
  {
  }

  /** The cache after reading `paths` one after another. */
  function ReadAll(cache: Cache, disk: Files, paths: seq<string>): Cache
    decreases |paths|
  {
    if paths == [] then cache
    else ReadAll(ReadThrough(cache, disk, paths[0]).cache, disk, paths[1..])
  }

  /** How many of those reads went to the disk. */
  function DiskReads(cache: Cache, disk: Files, paths: seq<string>): nat
    decreases |paths|
  {
    if paths == [] then 0
    else
      var r := ReadThrough(cache, disk, paths[0]);
      (if r.fromDisk then 1 else 0) + DiskReads(r.cache, disk, paths[1..])
  }

  /** An entry, once cached, is never replaced or dropped by later reads. */
  lemma {:induction false} ReadAllKeepsEntries(cache: Cache, disk: Files, paths: seq<string>)
    ensures forall p :: p in cache ==> p in ReadAll(cache, disk, paths) && ReadAll(cache, disk, paths)[p] == cache[p]
    decreases |paths|
  {
    if paths != [] {
      ReadAllKeepsEntries(ReadThrough(cache, disk, paths[0]).cache, disk, paths[1..]);
    }
  }

  /** After reading `paths`, each of them that was cached or exists on disk is cached. */
  lemma {:induction false} ReadAllCachesEachPath(cache: Cache, disk: Files, paths: seq<string>)
    ensures forall i :: 0 <= i < |paths| && (paths[i] in cache || paths[i] in disk) ==>
              paths[i] in ReadAll(cache, disk, paths)
    decreases |paths|
  {
    if paths != [] {
      var c1 := ReadThrough(cache, disk, paths[0]).cache;
      ReadAllCachesEachPath(c1, disk, paths[1..]);
      ReadAllKeepsEntries(c1, disk, paths[1..]);
      forall i | 0 <= i < |paths| && (paths[i] in cache || paths[i] in disk)
        ensures paths[i] in ReadAll(cache, disk, paths)
      {
        if i > 0 {
          assert paths[i] == paths[1..][i - 1];
        }
      }
    }
  }

  /** Reading paths that are all cached touches neither the disk nor the cache. */
  lemma {:induction false} AllHits(cache: Cache, disk: Files, paths: seq<string>)
    requires forall i :: 0 <= i < |paths| ==> paths[i] in cache
    ensures DiskReads(cache, disk, paths) == 0 && ReadAll(cache, disk, paths) == cache
    decreases |paths|
  {
    if paths != [] {
      AllHits(cache, disk, paths[1..]);
    }
  }

  /** Reading the same paths a second time, when each was cached or on disk, goes
      to the disk not once. */
  lemma SecondPassReadsNoDisk(cache: Cache, disk: Files, paths: seq<string>)
    requires forall i :: 0 <= i < |paths| ==> paths[i] in cache || paths[i] in disk
    ensures DiskReads(ReadAll(cache, disk, paths), disk, paths) == 0
  {
    ReadAllCachesEachPath(cache, disk, paths);
    AllHits(ReadAll(cache, disk, paths), disk, paths);
  }

  /** The shared file cache, updated in place by readFile. */
  class FileCache {
    var files: Cache

    constructor ()
      ensures files == map[]
    {
      files := map[];
    }

    /** fileCache.get */
    function Get(path: string): (r: Option<File>)
      reads this
      ensures r.Some? <==> path in files
      ensures r.Some? ==> r.value == files[path]
    {
      if path in files then Some(files[path]) else None
    }

    /** fileCache.set */
    method Set(path: string, file: File)
      modifies this
      ensures files == old(files)[path := file]
    {
      files := files[path := file];
    }

    /** readFile, with `fromDisk` telling whether the disk was read. */
    method ReadFile(disk: Files, path: string) returns (r: Result<File>, fromDisk: bool)
      modifies this
      ensures Read(r, files, fromDisk) == ReadThrough(old(files), disk, path)
    {
      var file := Get(path);
      if file.Some? {
        return Ok(file.value), false;
      }
      fromDisk := true;
      var read := ReadFileAsync(disk, path);
      if read.Err? {
        return Err(read.error), fromDisk;
      }
      var loaded := File(path, read.value);
      Set(path, loaded);
      r := Ok(loaded);
    }
  }

  // ---------------------------------------------------------------------------
  // webpackLoader

  /** A source map: the fields the loader touches, and the rest as `mappings`. */
  datatype SourceMap = SourceMap(sources: seq<string>, sourcesContent: Option<seq<string>>, mappings: string)

  /** What `JSON.parse` yields: it throws, or gives a value that is not an object
      (such as null or a number), or gives an object. */
  datatype Json = Unparsable | NotAnObject | MapObject(sourceMap: SourceMap)

  /** The callback's arguments: an error alone, or the content and its source map. */
  datatype Callback = Failed(error: Error) | Loaded(content: string, sourceMap: SourceMap)

  /** The compiled JavaScript a resource is served from: its path with the extension `.js`. */
  function JavascriptPath(absolutePath: string): (p: string)
    ensures |p| >= 3 && p[|p| - 3..] == ".js"
    ensures p[..|p| - 3] + Paths.ExtName(absolutePath) == absolutePath
  {
    Paths.ChangeExtension(absolutePath, ".js")
  }

  /** The source map beside it. */
  function SourceMapPath(absolutePath: string): (p: string)
    ensures p == JavascriptPath(absolutePath) + ".map"
    ensures p != JavascriptPath(absolutePath)
  {
    JavascriptPath(absolutePath) + ".map"
  }

  /** The object whose `sources` the loader assigns: the parsed map file, or webpack's
      own map when the file is not JSON; TypeError when that value is not an object. */
  function BaseMap(mapFile: File, parse: string -> Json, webpackMap: Option<SourceMap>): (r: Result<SourceMap>)
    ensures r.Err? ==> r.error == TypeError
    ensures r.Ok? <==> parse(mapFile.content).MapObject? || (parse(mapFile.content).Unparsable? && webpackMap.Some?)
    ensures r.Ok? && parse(mapFile.content).MapObject? ==> r.value == parse(mapFile.content).sourceMap
    ensures r.Ok? && parse(mapFile.content).Unparsable? ==> r.value == webpackMap.value
  {
    match parse(mapFile.content)
    case MapObject(m) => Ok(m)
    case NotAnObject => Err(TypeError)
    case Unparsable => if webpackMap.Some? then Ok(webpackMap.value) else Err(TypeError)
  }

  /** The map rewrite: `sources` becomes the resource alone, and `sourcesContent`
      becomes its text when it was absent or empty. */
  function RewriteMap(base: SourceMap, absolutePath: string, source: string): (m: SourceMap)
    ensures m.sources == [absolutePath]
    ensures base.sourcesContent == None || base.sourcesContent == Some([]) ==> m.sourcesContent == Some([source])
    ensures base.sourcesContent != None && base.sourcesContent != Some([]) ==> m.sourcesContent == base.sourcesContent
    ensures m.mappings == base.mappings
  {
    var m := base.(sources := [absolutePath]);
    if m.sourcesContent.None? || |m.sourcesContent.value| == 0 then m.(sourcesContent := Some([source])) else m
  }

  /** The loader has something to read at `path`. */
  predicate Readable(cache: Cache, disk: Files, path: string) {
    path in cache || path in disk
  }

  /** Reading two paths one after the other leaves the cache the second read leaves. */
  lemma ReadPair(cache: Cache, disk: Files, a: string, b: string)
    ensures ReadAll(cache, disk, [a, b]) == ReadThrough(ReadThrough(cache, disk, a).cache, disk, b).cache
  {
    var paths := [a, b];
    var c1 := ReadThrough(cache, disk, a).cache;
    assert paths[1..] == [b] && paths[1..][1..] == [];
    assert ReadAll(cache, disk, paths) == ReadAll(c1, disk, paths[1..]);
    assert ReadAll(c1, disk, paths[1..]) == ReadAll(ReadThrough(c1, disk, b).cache, disk, []);
  }

  /** The callback once both reads have settled: the first read error, then the map
      base's error, and otherwise the compiled text with the rewritten map. */
  function Respond(js: Result<File>, sm: Result<File>, absolutePath: string, source: string,
                   webpackMap: Option<SourceMap>, parse: string -> Json, jsFirst: bool): (cb: Callback)
    ensures cb.Loaded? <==> js.Ok? && sm.Ok? && BaseMap(sm.value, parse, webpackMap).Ok?
    ensures js.Err? && (jsFirst || sm.Ok?) ==> cb == Failed(js.error)
    ensures sm.Err? && (!jsFirst || js.Ok?) ==> cb == Failed(sm.error)
    ensures cb.Loaded? ==> cb.content == js.value.content
    // the map handed on is the map base, rewritten to point at the resource
    ensures cb.Loaded? ==> cb.sourceMap == RewriteMap(BaseMap(sm.value, parse, webpackMap).value, absolutePath, source)
    // both files read, but the map base is not an object
    ensures js.Ok? && sm.Ok? && BaseMap(sm.value, parse, webpackMap).Err? ==> cb == Failed(TypeError)
  {
    if js.Err? && (jsFirst || sm.Ok?) then Failed(js.error)
    else if sm.Err? then Failed(sm.error)
    else
      match BaseMap(sm.value, parse, webpackMap)
      case Err(e) => Failed(e)
      case Ok(base) => Loaded(js.value.content, RewriteMap(base, absolutePath, source))
  }

  /** What one loader call did: the callback's arguments and the cache afterwards. */
  datatype LoaderRun = LoaderRun(callback: Callback, cache: Cache)

  /** webpackLoader once the resource path is resolved: read the compiled file, then
      its map, and answer. */
  function LoadResolved(cache: Cache, disk: Files, absolutePath: string, source: string,
                        webpackMap: Option<SourceMap>, parse: string -> Json, jsFirst: bool): LoaderRun
  {
    var js := ReadThrough(cache, disk, JavascriptPath(absolutePath));
    var sm := ReadThrough(js.cache, disk, SourceMapPath(absolutePath));
    LoaderRun(Respond(js.result, sm.result, absolutePath, source, webpackMap, parse, jsFirst), sm.cache)
  }

  /** webpackLoader, as a function of the cache, the disk and its arguments. The two
      reads run in parallel and are joined; when both fail, the error passed on is
      the one that settled first, which `jsFirst` says. */
  function Load(cache: Cache, disk: Files, cwd: string, resourcePath: string, source: string,
                webpackMap: Option<SourceMap>, parse: string -> Json, jsFirst: bool): (r: LoaderRun)
    // both reads fill the cache, whatever the callback receives
    ensures r.cache == ReadAll(cache, disk, [JavascriptPath(Paths.Resolve(cwd, resourcePath)),
                                             SourceMapPath(Paths.Resolve(cwd, resourcePath))])
    ensures Coherent(cache, disk) ==> Coherent(r.cache, disk)
    // over a cache that agrees with the disk, it answers as direct disk reads would
    ensures Coherent(cache, disk) ==>
              r.callback == Respond(DiskFile(disk, JavascriptPath(Paths.Resolve(cwd, resourcePath))),
                                    DiskFile(disk, SourceMapPath(Paths.Resolve(cwd, resourcePath))),
                                    Paths.Resolve(cwd, resourcePath), source, webpackMap, parse, jsFirst)
    // the load succeeds exactly when both files can be read and the map base is an object
    ensures r.callback.Loaded? <==>
              Readable(cache, disk, JavascriptPath(Paths.Resolve(cwd, resourcePath))) &&
              Readable(cache, disk, SourceMapPath(Paths.Resolve(cwd, resourcePath))) &&
              BaseMap(ReadThrough(cache, disk, SourceMapPath(Paths.Resolve(cwd, resourcePath))).result.value,
                      parse, webpackMap).Ok?
    // a missing file fails the load with that file's read error
    ensures !Readable(cache, disk, JavascriptPath(Paths.Resolve(cwd, resourcePath))) &&
            (jsFirst || Readable(cache, disk, SourceMapPath(Paths.Resolve(cwd, resourcePath)))) ==>
              r.callback == Failed(NoSuchFile(JavascriptPath(Paths.Resolve(cwd, resourcePath))))
    ensures !Readable(cache, disk, SourceMapPath(Paths.Resolve(cwd, resourcePath))) &&
            (!jsFirst || Readable(cache, disk, JavascriptPath(Paths.Resolve(cwd, resourcePath)))) ==>
              r.callback == Failed(NoSuchFile(SourceMapPath(Paths.Resolve(cwd, resourcePath))))
    // on success: the compiled file's text, and a map that points at the resource
    ensures r.callback.Loaded? ==>
              r.callback.content == ReadThrough(cache, disk, JavascriptPath(Paths.Resolve(cwd, resourcePath))).result.value.content
    ensures r.callback.Loaded? ==>
              r.callback.sourceMap ==
                RewriteMap(BaseMap(ReadThrough(cache, disk, SourceMapPath(Paths.Resolve(cwd, resourcePath))).result.value,
                                   parse, webpackMap).value,
                           Paths.Resolve(cwd, resourcePath), source)
    // both files read, but the map base is not an object
    ensures Readable(cache, disk, JavascriptPath(Paths.Resolve(cwd, resourcePath))) &&
            Readable(cache, disk, SourceMapPath(Paths.Resolve(cwd, resourcePath))) &&
            BaseMap(ReadThrough(cache, disk, SourceMapPath(Paths.Resolve(cwd, resourcePath))).result.value,
                    parse, webpackMap).Err? ==>
              r.callback == Failed(TypeError)
  {
    var absolutePath := Paths.Resolve(cwd, resourcePath);
    ReadsCommute(cache, disk, JavascriptPath(absolutePath), SourceMapPath(absolutePath));
    ReadPair(cache, disk, JavascriptPath(absolutePath), SourceMapPath(absolutePath));
    LoadResolved(cache, disk, absolutePath, source, webpackMap, parse, jsFirst)
  }

  /** webpackLoader, step by step against the shared cache. */
  method WebpackLoader(fileCache: FileCache, disk: Files, cwd: string, resourcePath: string, source: string,
                      webpackMap: Option<SourceMap>, parse: string -> Json, jsFirst: bool)
    returns (callback: Callback)
    modifies fileCache
    ensures var run := Load(old(fileCache.files), disk, cwd, resourcePath, source, webpackMap, parse, jsFirst);
            callback == run.callback && fileCache.files == run.cache
  {
    var absolutePath := Paths.Resolve(cwd, resourcePath);
    var javascriptPath := JavascriptPath(absolutePath);
    var sourceMapPath := javascriptPath + ".map";
    var javascriptFile, _ := fileCache.ReadFile(disk, javascriptPath);
    var mapFile, _ := fileCache.ReadFile(disk, sourceMapPath);
    if javascriptFile.Err? && (jsFirst || mapFile.Ok?) {
      return Failed(javascriptFile.error);
    }
    if mapFile.Err? {
      return Failed(mapFile.error);
    }
    var sourceMapObject: SourceMap;
    match parse(mapFile.value.content) {
      case MapObject(m) =>
        sourceMapObject := m;
      case NotAnObject =>
        return Failed(TypeError);
      case Unparsable =>
        if webpackMap.None? {
          return Failed(TypeError);
        }
        sourceMapObject := webpackMap.value;
    }
    sourceMapObject := sourceMapObject.(sources := [absolutePath]);
    if sourceMapObject.sourcesContent.None? || |sourceMapObject.sourcesContent.value| == 0 {
      sourceMapObject := sourceMapObject.(sourcesContent := Some([source]));
    }
    callback := Loaded(javascriptFile.value.content, sourceMapObject);
  }

  /** After reading two readable paths, reading either again is a hit that returns
      what the first read returned, and leaves the cache as it is. */
  lemma RereadIsServedFromCache(cache: Cache, disk: Files, a: string, b: string)
    requires a != b && Readable(cache, disk, a) && Readable(cache, disk, b)
    ensures var first := ReadThrough(cache, disk, a);
            var second := ReadThrough(first.cache, disk, b);
            ReadThrough(second.cache, disk, a) == Read(first.result, second.cache, false) &&
            ReadThrough(second.cache, disk, b) == Read(second.result, second.cache, false)
  {
    var first := ReadThrough(cache, disk, a);
    assert b in cache ==> b in first.cache;
    var second := ReadThrough(first.cache, disk, b);
    assert a in second.cache && second.cache[a] == first.result.value;
  }

  /** A second load of the same resource reads nothing from the disk and answers
      exactly as the first did, whenever both files could be read the first time. */
  lemma RepeatedLoadIsServedFromCache(cache: Cache, disk: Files, cwd: string, resourcePath: string, source: string,
                                      webpackMap: Option<SourceMap>, parse: string -> Json, jsFirst: bool)
    requires Readable(cache, disk, JavascriptPath(Paths.Resolve(cwd, resourcePath)))
    requires Readable(cache, disk, SourceMapPath(Paths.Resolve(cwd, resourcePath)))
    ensures var first := Load(cache, disk, cwd, resourcePath, source, webpackMap, parse, jsFirst);
            var second := Load(first.cache, disk, cwd, resourcePath, source, webpackMap, parse, jsFirst);
            second == first &&
            DiskReads(first.cache, disk, [JavascriptPath(Paths.Resolve(cwd, resourcePath)),
                                          SourceMapPath(Paths.Resolve(cwd, resourcePath))]) == 0
  {
    ResolvedLoadIsRepeatable(cache, disk, Paths.Resolve(cwd, resourcePath), source, webpackMap, parse, jsFirst);
  }

  /** RepeatedLoadIsServedFromCache, once the resource path is resolved. */
  lemma ResolvedLoadIsRepeatable(cache: Cache, disk: Files, absolutePath: string, source: string,
                                 webpackMap: Option<SourceMap>, parse: string -> Json, jsFirst: bool)
    requires Readable(cache, disk, JavascriptPath(absolutePath))
    requires Readable(cache, disk, SourceMapPath(absolutePath))
    ensures var first := LoadResolved(cache, disk, absolutePath, source, webpackMap, parse, jsFirst);
            LoadResolved(first.cache, disk, absolutePath, source, webpackMap, parse, jsFirst) == first &&
            DiskReads(first.cache, disk, [JavascriptPath(absolutePath), SourceMapPath(absolutePath)]) == 0
  {
    var a, b := JavascriptPath(absolutePath), SourceMapPath(absolutePath);
    RereadIsServedFromCache(cache, disk, a, b);
    var sm := ReadThrough(ReadThrough(cache, disk, a).cache, disk, b);
    AllHits(sm.cache, disk, [a, b]);
  }
}
