/** The islands sub-plugin: it scans the islands directory once, writes one
    generated entry module per island next to the islands, has the bundler
    build them, one by one or in one chunked build, and then removes every
    generated entry. The directory tree, the islands directory's own
    contents and the bundler are parameters and fields of the model. */
module IslandsPlugin {
  import opened Wrappers
  import opened Text
  import opened Utils
  import opened Framework
  import opened IslandGenerator

  const DefaultIslandFramework := "default"
  const DefaultIslandsDir := "./frontend/" + "components/islands"
  const DefaultIslandsOut := "./dist/client/islands"
  const EntrySuffix := "-entry.js"
  const ChunkNames := "chunks/[name]-[hash]"

  /** `options`: an option left undefined takes its default. */
  datatype IslandOptions = IslandOptions(
    framework: Option<string>, islandsDir: Option<string>,
    outDir: Option<string>, chunkCommonCode: Option<bool>)

  /** `path.basename(p)`: what follows the last `/`. */
  function Basename(p: string): (b: string)
    ensures '/' !in b && EndsWith(p, b)
    ensures |b| < |p| ==> p[|p| - |b| - 1] == '/'
  {
    if p == [] then []
    else if p[|p| - 1] == '/' then []
    else
      var b := Basename(p[..|p| - 1]) + [p[|p| - 1]];
      assert p == p[..|p| - 1] + [p[|p| - 1]];
      b
  }

  /** `path.basename(p, ext)`: the base name without `ext`, unless the base
      name is `ext` itself. */
  function BaseWithout(p: string, ext: string): string
  {
    var b := Basename(p);
    if EndsWith(b, ext) && b != ext then b[..|b| - |ext|] else b
  }

  /** The position of the last `.` in `s`. */
  function LastDot(s: string): (r: Option<nat>)
    ensures r.Some? ==> r.value < |s| && s[r.value] == '.' && '.' !in s[r.value + 1..]
    ensures r.None? ==> '.' !in s
  {
    if s == [] then None
    else if s[|s| - 1] == '.' then Some(|s| - 1)
    else
      var r := LastDot(s[..|s| - 1]);
      assert s == s[..|s| - 1] + [s[|s| - 1]];
      if r.Some? then
        assert s[r.value + 1..] == s[..|s| - 1][r.value + 1..] + [s[|s| - 1]];
        r
      else r
  }

  /** `path.extname(b)` of a base name: from its last `.` on, unless that
      dot is the first character or there is none. */
  function Extname(b: string): (x: string)
    ensures EndsWith(b, x)
  {
    match LastDot(b)
    case Some(k) => if k == 0 then [] else b[k..]
    case None => []
  }

  /** `path.basename(file, path.extname(file))`, as the build step names an island. */
  function Stem(file: string): string
  {
    var b := Basename(file);
    b[..|b| - |Extname(b)|]
  }

  function LowerChar(c: char): (d: char)
    ensures 'A' <= c <= 'Z' ==> d as int == c as int + 32
    ensures !('A' <= c <= 'Z') ==> d == c
  {
    if 'A' <= c <= 'Z' then (c as int + 32) as char else c
  }

  /** `s.toLowerCase()` on ASCII letters. */
  function Lower(s: string): (r: string)
    ensures |r| == |s| && forall i :: 0 <= i < |s| ==> r[i] == LowerChar(s[i])
  {
    seq(|s|, i requires 0 <= i < |s| => LowerChar(s[i]))
  }

  /** A file-name extension as `getFileExtension` returns them: a dot
      followed by a name with neither dot nor slash. */
  predicate PlainExtension(ext: string)
  {
    |ext| >= 1 && ext[0] == '.' && '.' !in ext[1..] && '/' !in ext
  }

  lemma FileExtensionPlain(framework: string)
    ensures PlainExtension(FileExtension(framework))
  {
    var ext := FileExtension(framework);
    if ext == ".svelte" {
      assert ext[1..] == "svelte";
    } else if ext == ".jsx" {
      assert ext[1..] == "jsx";
    } else if ext == ".vue" {
      assert ext[1..] == "vue";
    } else {
      assert ext[1..] == "js";
    }
  }

  lemma SuffixOfSuffix(s: string, t: string, u: string)
    requires EndsWith(s, t) && EndsWith(t, u)
    ensures EndsWith(s, u)
  {
    assert s[|s| - |u|..] == t[|t| - |u|..];
  }

  /** The base name of a path ending with a slash-free suffix ends with it. */
  lemma BasenameKeepsSuffix(p: string, ext: string)
    requires EndsWith(p, ext) && '/' !in ext
    ensures EndsWith(Basename(p), ext)
  {
    var b := Basename(p);
    if |b| < |ext| {
      assert false;
    }
    assert b == p[|p| - |b|..];
    assert ext == p[|p| - |ext|..];
    assert b[|b| - |ext|..] == p[|p| - |ext|..];
  }

  /** A dot at `k` with no dot after it is the last dot. */
  lemma LastDotAt(s: string, k: nat)
    requires k < |s| && s[k] == '.' && '.' !in s[k + 1..]
    ensures LastDot(s) == Some(k)
  {
    assert s[k] in s;
    var r := LastDot(s);
    assert r.Some?;
    var j := r.value;
  }

  /** `extname` of a name ending with a plain extension is that
      extension, unless the name is the extension alone. */
  lemma ExtnameOfPlain(b: string, ext: string)
    requires PlainExtension(ext) && EndsWith(b, ext)
    ensures Extname(b) == if b == ext then [] else ext
  {
    var k := |b| - |ext|;
    assert b[k..] == ext;
    assert b[k + 1..] == ext[1..];
    LastDotAt(b, k);
    assert b != ext ==> k > 0;
  }

  /** The name the write step strips with the framework's extension and
      the name the build step strips with `extname` agree on every file the
      walk returns, so the build reads the entries the write step made. */
  lemma StemsAgree(file: string, ext: string)
    requires PlainExtension(ext) && EndsWith(file, ext)
    ensures BaseWithout(file, ext) == Stem(file)
  {
    BasenameKeepsSuffix(file, ext);
    ExtnameOfPlain(Basename(file), ext);
  }

  /** The key of an island's generated entry in the islands directory. */
  function EntryKey(name: string): (k: string)
    ensures EndsWith(k, EntrySuffix)
  {
    EndsWithAppend(Lower(name), EntrySuffix);
    Lower(name) + EntrySuffix
  }

  /** `./<basename>`, the component reference the entry is written with;
      it is read from the islands directory, where the entry lives. */
  function ComponentRefAsWritten(file: string): string
  {
    "./" + Basename(file)
  }

  /** The component reference that reaches the island from the islands
      directory, wherever under it the island lies. */
  function ComponentRef(islandsDir: string, file: string): string
  {
    "./" + RelativePath(islandsDir, file)
  }

  /** Where a `./`-relative import from a module in `dir` points. */
  function ImportTarget(dir: string, reference: string): string
  {
    if StartsWith(reference, "./") then dir + "/" + reference[2..] else reference
  }

  /** Every island under the islands directory is reached by its corrected
      reference. */
  lemma ComponentRefReaches(islandsDir: string, file: string)
    requires StartsWith(file, islandsDir + "/")
    ensures ImportTarget(islandsDir, ComponentRef(islandsDir, file)) == file
  {
    var rel := RelativePath(islandsDir, file);
    assert rel == file[|islandsDir| + 1..];
    assert ComponentRef(islandsDir, file)[2..] == rel;
    assert file == (islandsDir + "/") + rel;
  }

  /** A path whose last slash is followed by `name` has base name `name`. */
  lemma {:induction false} BasenameAfterSlash(p: string, name: string)
    requires '/' !in name && |p| > |name|
    requires p[|p| - |name| - 1] == '/' && p[|p| - |name|..] == name
    ensures Basename(p) == name
    decreases |name|
  {
    if name != [] {
      var q := p[..|p| - 1];
      var m := name[..|name| - 1];
      assert name[|name| - 1] in name;
      assert p[|p| - 1] == name[|name| - 1];
      assert q[|q| - |m| - 1] == '/';
      assert q[|q| - |m|..] == m;
      BasenameAfterSlash(q, m);
      assert name == m + [name[|name| - 1]];
    }
  }

  /** The base name of `dir/name` is `name` when `name` has no slash. */
  lemma BasenameOfJoin(dir: string, name: string)
    requires '/' !in name
    ensures Basename(dir + "/" + name) == name
  {
    var file := dir + "/" + name;
    assert file[|file| - |name|..] == name;
    assert file[|file| - |name| - 1] == '/';
    BasenameAfterSlash(file, name);
  }

  /** For an island directly in the islands directory, the corrected
      reference is the one the code writes. */
  lemma ComponentRefTopLevel(islandsDir: string, name: string)
    requires '/' !in name
    ensures ComponentRef(islandsDir, islandsDir + "/" + name) == ComponentRefAsWritten(islandsDir + "/" + name)
  {
    var file := islandsDir + "/" + name;
    assert StartsWith(file, islandsDir + "/") by {
      assert file[..|islandsDir| + 1] == islandsDir + "/";
    }
    assert file[|islandsDir| + 1..] == name;
    BasenameOfJoin(islandsDir, name);
  }

  /** An island in a subdirectory: the written reference `./Counter.svelte`
      points to the islands directory itself, not to the island. */
  lemma NestedIslandMissed(islandsDir: string, sub: string, name: string)
    requires '/' !in name
    ensures var file := islandsDir + "/" + sub + "/" + name;
      ImportTarget(islandsDir, ComponentRefAsWritten(file)) != file
  {
    var file := islandsDir + "/" + sub + "/" + name;
    assert file == (islandsDir + "/" + sub) + "/" + name;
    BasenameOfJoin(islandsDir + "/" + sub, name);
    assert StartsWith(ComponentRefAsWritten(file), "./");
    assert ComponentRefAsWritten(file)[2..] == name;
    assert |ImportTarget(islandsDir, ComponentRefAsWritten(file))| < |file|;
  }

  /** A file of the islands directory: an entry the plugin generated,
      known by the arguments its text is generated from, or any other file. */
  datatype FileContent = GeneratedEntry(componentRef: string, island: string, framework: string) | Existing(text: string)

  function TextOf(c: FileContent): string
  {
    match c
    case GeneratedEntry(componentRef, island, framework) => EntryContent(componentRef, island, framework)
    case Existing(text) => text
  }

  /** The entry written for `file`: its component reference as the code
      writes it (`./<basename>`), the island's name as the selector uses it
      (not lower-cased), and the framework. */
  function EntryFileFor(islandsDir: string, framework: string, ext: string, file: string): FileContent
  {
    GeneratedEntry(ComponentRefAsWritten(file), BaseWithout(file, ext), framework)
  }

  /** The entry written for an island directly in the islands directory
      imports the island from where it lies and selects the elements
      carrying the island's name. (An island in a subdirectory is missed:
      see `NestedIslandMissed`.) */
  lemma EntryFileImportsIsland(islandsDir: string, framework: string, ext: string, name: string)
    requires '/' !in name
    ensures var file := islandsDir + "/" + name;
      var e := EntryFileFor(islandsDir, framework, ext, file);
      && ImportTarget(islandsDir, e.componentRef) == file
      && Contains(TextOf(e), ComponentImport(e.componentRef))
      && Contains(TextOf(e), IslandSelector(BaseWithout(file, ext)))
  {
    var file := islandsDir + "/" + name;
    var e := EntryFileFor(islandsDir, framework, ext, file);
    ComponentRefTopLevel(islandsDir, name);
    assert StartsWith(file, islandsDir + "/") by {
      assert file[..|islandsDir| + 1] == islandsDir + "/";
    }
    ComponentRefReaches(islandsDir, file);
    EntryCarries(e.componentRef, e.island, framework);
  }

  /** The islands directory after the entries of `files` are written in
      order: each island's entry under its lower-cased name, a later island
      of the same name overwriting an earlier one. */
  function Written(d: map<string, FileContent>, islandsDir: string, framework: string, ext: string, files: seq<string>): map<string, FileContent>
  {
    if files == [] then d
    else
      var f := files[|files| - 1];
      Written(d, islandsDir, framework, ext, files[..|files| - 1])
        [EntryKey(BaseWithout(f, ext)) := EntryFileFor(islandsDir, framework, ext, f)]
  }

  lemma WrittenSnoc(d: map<string, FileContent>, islandsDir: string, framework: string, ext: string, files: seq<string>, i: nat)
    requires i < |files|
    ensures Written(d, islandsDir, framework, ext, files[..i + 1])
      == Written(d, islandsDir, framework, ext, files[..i])[EntryKey(BaseWithout(files[i], ext)) := EntryFileFor(islandsDir, framework, ext, files[i])]
  {
    assert files[..i + 1][..i] == files[..i];
  }

  /** The islands directory after the cleanup: every name ending in
      `-entry.js` is gone, every other name kept with its contents. */
  function Cleaned(d: map<string, FileContent>): (r: map<string, FileContent>)
    ensures forall k :: k in r <==> k in d && !EndsWith(k, EntrySuffix)
    ensures forall k :: k in r ==> r[k] == d[k]
  {
    map k | k in d && !EndsWith(k, EntrySuffix) :: d[k]
  }

  /** Writing the entries and cleaning up afterwards leaves every file
      that is not a generated entry as it was. */
  lemma {:induction false} CleanupUndoesWrites(d: map<string, FileContent>, islandsDir: string, framework: string, ext: string, files: seq<string>)
    ensures Cleaned(Written(d, islandsDir, framework, ext, files)) == Cleaned(d)
  {
    if files != [] {
      var f := files[|files| - 1];
      var prev := Written(d, islandsDir, framework, ext, files[..|files| - 1]);
      var k := EntryKey(BaseWithout(f, ext));
      CleanupUndoesWrites(d, islandsDir, framework, ext, files[..|files| - 1]);
      assert Cleaned(prev[k := EntryFileFor(islandsDir, framework, ext, f)]) == Cleaned(prev);
    }
  }

  /** Every island gets an entry, and an island's entry is its own unless a
      later island has the same lower-cased name. */
  lemma {:induction false} WrittenEntry(d: map<string, FileContent>, islandsDir: string, framework: string, ext: string, files: seq<string>, i: nat)
    requires i < |files|
    requires forall j :: i < j < |files| ==>
      EntryKey(BaseWithout(files[j], ext)) != EntryKey(BaseWithout(files[i], ext))
    ensures var k := EntryKey(BaseWithout(files[i], ext));
      k in Written(d, islandsDir, framework, ext, files) && Written(d, islandsDir, framework, ext, files)[k] == EntryFileFor(islandsDir, framework, ext, files[i])
  {
    var init := files[..|files| - 1];
    var w := Written(d, islandsDir, framework, ext, init);
    var k := EntryKey(BaseWithout(files[i], ext));
    if i < |files| - 1 {
      WrittenEntry(d, islandsDir, framework, ext, init, i);
      MapUpdateKeeps(w, EntryKey(BaseWithout(files[|files| - 1], ext)), EntryFileFor(islandsDir, framework, ext, files[|files| - 1]), k);
    }
  }

  lemma MapUpdateKeeps(m: map<string, FileContent>, a: string, v: FileContent, k: string)
    requires k in m && a != k
    ensures k in m[a := v] && m[a := v][k] == m[k]
  {
  }

  /** Writing touches only entry names. */
  lemma {:induction false} WrittenKeepsOthers(d: map<string, FileContent>, islandsDir: string, framework: string, ext: string, files: seq<string>, k: string)
    requires k in d && !EndsWith(k, EntrySuffix)
    ensures k in Written(d, islandsDir, framework, ext, files) && Written(d, islandsDir, framework, ext, files)[k] == d[k]
  {
    if files != [] {
      WrittenKeepsOthers(d, islandsDir, framework, ext, files[..|files| - 1], k);
    }
  }

  /** `entryPoints` of a chunked build, and `[entryPath]` of a single one. */
  datatype EntryPoints = ByName(named: map<string, string>) | Listed(paths: seq<string>)

  /** The options of one `build` call; a key the call leaves out is
      `false` or `None`. */
  datatype BuildRequest = BuildRequest(
    bundle: bool, minify: bool, format: string, target: seq<string>,
    plugins: seq<BundlerPlugin>, loader: map<string, string>,
    splitting: bool, outdir: Option<string>, chunkNames: Option<string>, metafile: bool,
    entryPoints: EntryPoints, outfile: Option<string>)

  /** `buildOptions` before the chunking settings. */
  function BaseOptions(framework: string): BuildRequest
  {
    BuildRequest(true, true, "esm", ["es2015"], FrameworkPlugins(framework), FrameworkLoader(framework),
      false, None, None, false, Listed([]), None)
  }

  /** `path.resolve(dir, name)`, without resolving against the working directory. */
  function ResolvePath(dir: string, name: string): string
  {
    dir + "/" + name
  }

  /** The lower-cased names the build step gives the islands. */
  function IslandNames(files: seq<string>): (r: seq<string>)
    ensures |r| == |files| && forall k :: 0 <= k < |files| ==> r[k] == Lower(Stem(files[k]))
  {
    seq(|files|, k requires 0 <= k < |files| => Lower(Stem(files[k])))
  }

  /** The entry points of a chunked build: each name mapped to its entry,
      a repeated name set again to the same path. */
  function EntryPointsOf(islandsDir: string, names: seq<string>): map<string, string>
  {
    if names == [] then map[]
    else
      var name := names[|names| - 1];
      EntryPointsOf(islandsDir, names[..|names| - 1])[name := ResolvePath(islandsDir, name + EntrySuffix)]
  }

  /** The entry points are keyed by exactly the islands' names, each
      mapped to the entry of that name. */
  lemma {:induction false} EntryPointsByName(islandsDir: string, names: seq<string>)
    ensures forall k :: k in EntryPointsOf(islandsDir, names) <==> k in names
    ensures forall k :: k in EntryPointsOf(islandsDir, names) ==> EntryPointsOf(islandsDir, names)[k] == ResolvePath(islandsDir, k + EntrySuffix)
  {
    if names != [] {
      var init := names[..|names| - 1];
      EntryPointsByName(islandsDir, init);
      assert names == init + [names[|names| - 1]];
    }
  }

  /** One `build` call as the plugin makes it: the chunked call over
      every entry point, or the call for one island file. */
  datatype BuildCall = ChunkedBuild(points: map<string, string>) | SingleBuild(file: string)

  /** The options a call hands the bundler. */
  function OptionsOf(framework: string, islandsDir: string, outDir: string, call: BuildCall): BuildRequest
  {
    match call
    case ChunkedBuild(points) =>
      BaseOptions(framework).(splitting := true, outdir := Some(outDir), chunkNames := Some(ChunkNames),
        metafile := true, entryPoints := ByName(points))
    case SingleBuild(file) =>
      var name := Lower(Stem(file));
      BaseOptions(framework).(entryPoints := Listed([ResolvePath(islandsDir, name + EntrySuffix)]),
        outfile := Some(ResolvePath(outDir, name + ".js")))
  }

  /** A single build reads the entry the write step made for its island
      and writes `outDir/<name>.js`, without code splitting. */
  lemma SingleBuildReadsEntry(framework: string, islandsDir: string, outDir: string, ext: string, file: string)
    requires PlainExtension(ext) && EndsWith(file, ext)
    ensures var o := OptionsOf(framework, islandsDir, outDir, SingleBuild(file));
      && o.entryPoints == Listed([ResolvePath(islandsDir, EntryKey(BaseWithout(file, ext)))])
      && o.outfile == Some(ResolvePath(outDir, Lower(BaseWithout(file, ext)) + ".js"))
      && !o.splitting && o.outdir == None && !o.metafile
  {
    StemsAgree(file, ext);
  }

  /** The chunked build reads, under each island's name, the entry the
      write step made for that island, and splits shared code into
      `chunks/`. */
  lemma ChunkedBuildReadsEntries(framework: string, islandsDir: string, outDir: string, ext: string, files: seq<string>, i: nat)
    requires PlainExtension(ext) && i < |files| && EndsWith(files[i], ext)
    ensures var o := OptionsOf(framework, islandsDir, outDir, ChunkedBuild(EntryPointsOf(islandsDir, IslandNames(files))));
      var name := Lower(BaseWithout(files[i], ext));
      && o.entryPoints.ByName?
      && name in o.entryPoints.named
      && o.entryPoints.named[name] == ResolvePath(islandsDir, EntryKey(BaseWithout(files[i], ext)))
      && o.splitting && o.outdir == Some(outDir) && o.chunkNames == Some(ChunkNames) && o.metafile
  {
    StemsAgree(files[i], ext);
    var names := IslandNames(files);
    assert names[i] == Lower(BaseWithout(files[i], ext));
    EntryPointsByName(islandsDir, names);
  }

  /** The first island from `from` on whose single build the bundler
      rejects. */
  function FirstRejected(files: seq<string>, rejects: BuildCall -> bool, from: nat): (r: Option<nat>)
    requires from <= |files|
    ensures r.Some? ==> from <= r.value < |files|
    decreases |files| - from
  {
    if from == |files| then None
    else if rejects(SingleBuild(files[from])) then Some(from)
    else FirstRejected(files, rejects, from + 1)
  }

  lemma {:induction false} FirstRejectedSpec(files: seq<string>, rejects: BuildCall -> bool, from: nat)
    requires from <= |files|
    ensures var r := FirstRejected(files, rejects, from);
      && (r.Some? ==> rejects(SingleBuild(files[r.value])))
      && (r.Some? ==> forall k :: from <= k < r.value ==> !rejects(SingleBuild(files[k])))
      && (r.None? ==> forall k :: from <= k < |files| ==> !rejects(SingleBuild(files[k])))
    decreases |files| - from
  {
    if from < |files| && !rejects(SingleBuild(files[from])) {
      FirstRejectedSpec(files, rejects, from + 1);
    }
  }

  lemma {:induction false} FirstRejectedAt(files: seq<string>, rejects: BuildCall -> bool, from: nat, i: nat)
    requires from <= i < |files| && rejects(SingleBuild(files[i]))
    requires forall k :: from <= k < i ==> !rejects(SingleBuild(files[k]))
    ensures FirstRejected(files, rejects, from) == Some(i)
    decreases i - from
  {
    if from < i {
      FirstRejectedAt(files, rejects, from + 1, i);
    }
  }

  lemma {:induction false} FirstRejectedNone(files: seq<string>, rejects: BuildCall -> bool, from: nat)
    requires from <= |files| && forall k :: from <= k < |files| ==> !rejects(SingleBuild(files[k]))
    ensures FirstRejected(files, rejects, from) == None
    decreases |files| - from
  {
    if from < |files| {
      FirstRejectedNone(files, rejects, from + 1);
    }
  }

  /** How many single builds run: up to and including the first rejected. */
  function Attempted(files: seq<string>, rejects: BuildCall -> bool): (n: nat)
    ensures n <= |files|
  {
    match FirstRejected(files, rejects, 0)
    case Some(i) => i + 1
    case None => |files|
  }

  /** The single builds of the first `n` islands, in order. */
  function Singles(files: seq<string>, n: nat): seq<BuildCall>
    requires n <= |files|
  {
    if n == 0 then [] else Singles(files, n - 1) + [SingleBuild(files[n - 1])]
  }

  lemma {:induction false} SinglesAt(files: seq<string>, n: nat)
    requires n <= |files|
    ensures |Singles(files, n)| == n
    ensures forall k :: 0 <= k < n ==> Singles(files, n)[k] == SingleBuild(files[k])
  {
    if n > 0 {
      SinglesAt(files, n - 1);
    }
  }

  /** The builds the per-island loop makes. */
  function PerIslandBuilds(files: seq<string>, rejects: BuildCall -> bool): seq<BuildCall>
  {
    Singles(files, Attempted(files, rejects))
  }

  /** The per-island builds go in island order; every build but the last
      is accepted; the loop stops early only at a rejected build; and with
      no rejection every island is built. */
  lemma PerIslandBuildsStop(files: seq<string>, rejects: BuildCall -> bool)
    ensures |PerIslandBuilds(files, rejects)| <= |files|
    ensures forall k :: 0 <= k < |PerIslandBuilds(files, rejects)| ==> PerIslandBuilds(files, rejects)[k] == SingleBuild(files[k])
    ensures forall k :: 0 <= k < |PerIslandBuilds(files, rejects)| - 1 ==> !rejects(PerIslandBuilds(files, rejects)[k])
    ensures |PerIslandBuilds(files, rejects)| < |files| ==>
      0 < |PerIslandBuilds(files, rejects)| && rejects(PerIslandBuilds(files, rejects)[|PerIslandBuilds(files, rejects)| - 1])
    ensures (forall k :: 0 <= k < |files| ==> !rejects(SingleBuild(files[k]))) ==> |PerIslandBuilds(files, rejects)| == |files|
  {
    var n := Attempted(files, rejects);
    SinglesAt(files, n);
    FirstRejectedSpec(files, rejects, 0);
  }

  /** The part of an islands plugin that its hooks change: the cached scan,
      the islands directory and the bundler calls made so far. */
  datatype IslandsState = IslandsState(
    isInitialized: bool, islandFiles: seq<string>,
    dir: map<string, FileContent>, builds: seq<BuildCall>)

  /** `createIslands(options)`: the configuration, the cached scan, the
      islands directory's own entries (name to contents) and the bundler
      calls made so far. */
  class Islands {
    const framework: string
    const islandsDir: string
    const outDir: string
    const chunkCommonCode: bool
    /** `getFileExtension(framework)`, which the scan and the write step both use. */
    const ext: string
    var islandFiles: seq<string>
    var isInitialized: bool
    var dir: map<string, FileContent>
    var builds: seq<BuildCall>

    constructor(options: IslandOptions, dir: map<string, FileContent>)
      ensures framework == (if options.framework.Some? then options.framework.value else DefaultIslandFramework)
      ensures islandsDir == (if options.islandsDir.Some? then options.islandsDir.value else DefaultIslandsDir)
      ensures outDir == (if options.outDir.Some? then options.outDir.value else DefaultIslandsOut)
      ensures chunkCommonCode == (options.chunkCommonCode.Some? && options.chunkCommonCode.value)
      ensures ext == FileExtension(framework)
      ensures islandFiles == [] && !isInitialized && this.dir == dir && builds == []
    {
      framework := if options.framework.Some? then options.framework.value else DefaultIslandFramework;
      islandsDir := if options.islandsDir.Some? then options.islandsDir.value else DefaultIslandsDir;
      outDir := if options.outDir.Some? then options.outDir.value else DefaultIslandsOut;
      chunkCommonCode := options.chunkCommonCode.Some? && options.chunkCommonCode.value;
      ext := FileExtension(if options.framework.Some? then options.framework.value else DefaultIslandFramework);
      islandFiles := [];
      isInitialized := false;
      this.dir := dir;
      builds := [];
    }

    function Name(): string
    {
      "ssrkit-islands"
    }

    function State(): IslandsState
      reads this
    {
      IslandsState(isInitialized, islandFiles, dir, builds)
    }

    /** What `buildStart` leaves, from the state `s` it started in and the
        tree under the islands directory, and what it returns: a plugin
        already initialised keeps its islands; otherwise the walk's files
        become the islands, or its error is rethrown with the plugin left
        uninitialised. On success the entries of the islands are written
        in order; on failure the directory is as it was. No build runs. */
    predicate Started(s: IslandsState, t: IslandsState, root: Listing, r: Outcome<string>)
    {
      && t.builds == s.builds
      && (s.isInitialized ==> r == Pass && t.isInitialized && t.islandFiles == s.islandFiles)
      && (!s.isInitialized ==>
        match FilesRecursively(islandsDir, root, ext)
        case Err(e) => r == Fail(e) && !t.isInitialized && t.islandFiles == s.islandFiles
        case Ok(files) => r == Pass && t.isInitialized && t.islandFiles == files)
      && (r.Pass? ==> t.dir == Written(s.dir, islandsDir, framework, ext, t.islandFiles))
      && (r.Fail? ==> t.dir == s.dir)
    }

    /** The state and the outcome `buildStart` leaves from the state `s`:
        the only ones `Started` admits. */
    function Start(s: IslandsState, root: Listing): (IslandsState, Outcome<string>)
    {
      if s.isInitialized then (s.(dir := Written(s.dir, islandsDir, framework, ext, s.islandFiles)), Pass)
      else
        match FilesRecursively(islandsDir, root, ext)
        case Err(e) => (s, Fail(e))
        case Ok(files) => (s.(isInitialized := true, islandFiles := files, dir := Written(s.dir, islandsDir, framework, ext, files)), Pass)
    }

    /** `Started` holds of exactly the state and outcome `Start` gives. */
    lemma StartedIsStart(s: IslandsState, t: IslandsState, root: Listing, r: Outcome<string>)
      ensures Started(s, t, root, r) <==> (t, r) == Start(s, root)
    {
    }

    /** What `closeBundle` leaves, from the state `s` it started in, given
        which builds the bundler rejects and whether the islands directory
        can be listed: the scan is kept; without islands nothing else
        changes; otherwise the chunked build or the per-island builds up to
        the first rejected one are made, and then the generated entries are
        removed when the directory can be listed. */
    predicate Closed(s: IslandsState, t: IslandsState, rejects: BuildCall -> bool, listable: bool)
    {
      && t.islandFiles == s.islandFiles && t.isInitialized == s.isInitialized
      && (|s.islandFiles| == 0 ==> t.builds == s.builds && t.dir == s.dir)
      && (|s.islandFiles| > 0 && chunkCommonCode ==>
        t.builds == s.builds + [ChunkedBuild(EntryPointsOf(islandsDir, IslandNames(s.islandFiles)))])
      && (|s.islandFiles| > 0 && !chunkCommonCode ==>
        t.builds == s.builds + PerIslandBuilds(s.islandFiles, rejects))
      && (|s.islandFiles| > 0 ==> t.dir == if listable then Cleaned(s.dir) else s.dir)
    }

    /** `initialize()`: scan once; a failed scan leaves the plugin
        uninitialised and is rethrown. */
    method Initialize(root: Listing) returns (r: Outcome<string>)
      modifies this
      ensures dir == old(dir) && builds == old(builds)
      ensures old(isInitialized) ==> r == Pass && isInitialized && islandFiles == old(islandFiles)
      ensures !old(isInitialized) ==>
        match FilesRecursively(islandsDir, root, ext)
        case Err(e) => r == Fail(e) && !isInitialized && islandFiles == old(islandFiles)
        case Ok(files) => r == Pass && isInitialized && islandFiles == files
    {
      if isInitialized {
        return Pass;
      }
      var walked := FilesRecursively(islandsDir, root, ext);
      if walked.Err? {
        return Fail(walked.error);
      }
      islandFiles := walked.value;
      isInitialized := true;
      r := Pass;
    }

    /** `buildStart()`: scan if not yet done, then write one entry per
        island; with no islands it only warns. */
    method BuildStart(root: Listing) returns (r: Outcome<string>)
      modifies this
      ensures Started(old(State()), State(), root, r)
    {
      r := Initialize(root);
      if r.Fail? {
        return;
      }
      if |islandFiles| == 0 {
        return;
      }
      GenerateEntryFiles();
    }

    /** `generateEntryFiles(…)`: write the entries in order. */
    method GenerateEntryFiles()
      modifies this
      ensures dir == Written(old(dir), islandsDir, framework, ext, islandFiles)
      ensures islandFiles == old(islandFiles) && isInitialized == old(isInitialized) && builds == old(builds)
    {
      var i := 0;
      while i < |islandFiles|
        invariant i <= |islandFiles|
        invariant dir == Written(old(dir), islandsDir, framework, ext, islandFiles[..i])
        invariant islandFiles == old(islandFiles)
        invariant isInitialized == old(isInitialized)
        invariant builds == old(builds)
      {
        WrittenSnoc(old(dir), islandsDir, framework, ext, islandFiles, i);
        WriteEntry(islandFiles[i]);
        i := i + 1;
      }
      assert islandFiles[..i] == islandFiles;
    }

    /** One turn of the write loop: `fs.writeFile` of the entry of `file`
        under its lower-cased name. */
    method WriteEntry(file: string)
      modifies this
      ensures islandFiles == old(islandFiles) && isInitialized == old(isInitialized) && builds == old(builds)
      ensures dir == old(dir)[EntryKey(BaseWithout(file, ext)) := EntryFileFor(islandsDir, framework, ext, file)]
    {
      dir := dir[EntryKey(BaseWithout(file, ext)) := EntryFileFor(islandsDir, framework, ext, file)];
    }

    /** `closeBundle()`, given which builds the bundler rejects and whether
        the islands directory can be listed: nothing at all without
        islands; otherwise the builds, then the cleanup, neither of which
        throws. */
    method CloseBundle(rejects: BuildCall -> bool, listable: bool)
      modifies this
      ensures Closed(old(State()), State(), rejects, listable)
    {
      if |islandFiles| == 0 {
        return;
      }
      BuildIslands(rejects);
      if listable {
        CleanupEntryFiles();
      }
    }

    /** The `try` block of `closeBundle()`: one chunked build, or the
        single builds in order. */
    method BuildIslands(rejects: BuildCall -> bool)
      modifies this
      ensures islandFiles == old(islandFiles) && isInitialized == old(isInitialized) && dir == old(dir)
      ensures chunkCommonCode ==> builds == old(builds) + [ChunkedBuild(EntryPointsOf(islandsDir, IslandNames(islandFiles)))]
      ensures !chunkCommonCode ==> builds == old(builds) + PerIslandBuilds(islandFiles, rejects)
    {
      if chunkCommonCode {
        var points := CollectEntryPoints();
        builds := builds + [ChunkedBuild(points)];
      } else {
        BuildEach(rejects);
      }
    }

    /** The chunked build's `entryPoints` loop. */
    method CollectEntryPoints() returns (points: map<string, string>)
      ensures points == EntryPointsOf(islandsDir, IslandNames(islandFiles))
    {
      ghost var names := IslandNames(islandFiles);
      points := map[];
      for i := 0 to |islandFiles|
        invariant points == EntryPointsOf(islandsDir, names[..i])
      {
        assert names[..i + 1][..i] == names[..i];
        var name := Lower(Stem(islandFiles[i]));
        points := points[name := ResolvePath(islandsDir, name + EntrySuffix)];
      }
      assert names[..|islandFiles|] == names;
    }

    /** The per-island builds, in order; the first rejected build ends the
        loop. */
    method BuildEach(rejects: BuildCall -> bool)
      modifies this
      ensures builds == old(builds) + PerIslandBuilds(islandFiles, rejects)
      ensures islandFiles == old(islandFiles) && isInitialized == old(isInitialized) && dir == old(dir)
    {
      var i := 0;
      while i < |islandFiles|
        invariant i <= |islandFiles|
        invariant builds == old(builds) + Singles(islandFiles, i)
        invariant forall k :: 0 <= k < i ==> !rejects(SingleBuild(islandFiles[k]))
        invariant islandFiles == old(islandFiles)
        invariant isInitialized == old(isInitialized)
        invariant dir == old(dir)
      {
        var call := SingleBuild(islandFiles[i]);
        builds := builds + [call];
        if rejects(call) {
          FirstRejectedAt(islandFiles, rejects, 0, i);
          return;
        }
        i := i + 1;
      }
      FirstRejectedNone(islandFiles, rejects, 0);
    }

    /** `cleanupEntryFiles(…)`: unlink every generated entry, one by one. */
    method CleanupEntryFiles()
      modifies this
      ensures dir == Cleaned(old(dir))
      ensures islandFiles == old(islandFiles) && isInitialized == old(isInitialized) && builds == old(builds)
    {
      var entries := set k | k in dir && EndsWith(k, EntrySuffix);
      ghost var all := entries;
      while entries != {}
        invariant entries <= all
        invariant dir == map k | k in old(dir) && k !in all - entries :: old(dir)[k]
        invariant all == set k | k in old(dir) && EndsWith(k, EntrySuffix)
        invariant islandFiles == old(islandFiles) && isInitialized == old(isInitialized) && builds == old(builds)
        decreases entries
      {
        var k :| k in entries;
        dir := map j | j in dir && j != k :: dir[j];
        entries := entries - {k};
      }
    }
  }

}
