/** The route compiler: the framework's page extension, the recursive
    directory walk, import-path normalisation, the path rewrite and the
    construction of the virtual routes module. */
module Utils {
  import opened Wrappers
  import opened Text
  import opened Resolver

  /** `getFileExtension`: the page-file extension of a framework tag. */
  function FileExtension(framework: string): (ext: string)
    ensures ext in {".jsx", ".vue", ".svelte", ".js"}
    ensures ext == ".jsx" <==> framework == "react"
    ensures ext == ".vue" <==> framework == "vue2" || framework == "vue3"
    ensures ext == ".svelte" <==> framework == "svelte"
    ensures ext == ".js" <==> framework !in {"react", "vue2", "vue3", "svelte"}
  {
    match framework
    case "react" => ".jsx"
    case "vue2" => ".vue"
    case "vue3" => ".vue"
    case "svelte" => ".svelte"
    case _ => ".js"
  }

  /** `normalizePathForImport`: every backslash becomes a forward slash. */
  function NormalizePathForImport(p: string): (r: string)
    ensures |r| == |p|
    ensures '\\' !in r
    ensures forall k :: 0 <= k < |p| ==> r[k] == (if p[k] == '\\' then '/' else p[k])
  {
    if p == [] then []
    else [if p[0] == '\\' then '/' else p[0]] + NormalizePathForImport(p[1..])
  }

  /** Normalising twice is normalising once. */
  lemma NormalizeIdempotent(p: string)
    ensures NormalizePathForImport(NormalizePathForImport(p)) == NormalizePathForImport(p)
  {
    var once := NormalizePathForImport(p);
    var twice := NormalizePathForImport(once);
    assert forall k :: 0 <= k < |p| ==> twice[k] == once[k];
  }

  /** A path without backslashes is left as it is. */
  lemma NormalizeFixesSlashPaths(p: string)
    requires '\\' !in p
    ensures NormalizePathForImport(p) == p
  {
    var r := NormalizePathForImport(p);
    assert forall k :: 0 <= k < |p| ==> r[k] == p[k];
  }

  // ---------------------------------------------------------------------
  // The recursive directory walk, over an abstract directory tree.

  /** One `readdir` entry with its file type. A sub-directory carries what
      reading it yields. */
  datatype Entry = FileEntry(name: string) | DirEntry(name: string, listing: Listing)

  /** What `readdir` of one directory yields: its entries in directory order,
      or the error it throws. */
  datatype Listing = Entries(entries: seq<Entry>) | Unreadable(error: string)

  /** `path.join(dir, name)`, without the normalisation of `.` and `..`. */
  function PathJoin(dir: string, name: string): string
  {
    dir + "/" + name
  }

  /** `files.filter(file => file.endsWith(ext))`. */
  function FilterExt(files: seq<string>, ext: string): (r: seq<string>)
    ensures forall k :: 0 <= k < |r| ==> EndsWith(r[k], ext)
    ensures |r| <= |files|
  {
    if files == [] then []
    else (if EndsWith(files[0], ext) then [files[0]] else []) + FilterExt(files[1..], ext)
  }

  /** `getFilesRecursively(dir, ext)`: the listing's files and, expanded in
      place, its sub-directories' files, keeping those that end with `ext`.
      A `readdir` error anywhere is thrown unchanged. */
  function FilesRecursively(dir: string, listing: Listing, ext: string): (r: Result<seq<string>, string>)
    ensures r.Ok? ==> forall k :: 0 <= k < |r.value| ==> EndsWith(r.value[k], ext)
    decreases listing, 1
  {
    match listing
    case Unreadable(e) => Err(e)
    case Entries(es) =>
      match ExpandEntries(dir, es, ext)
      case Err(e) => Err(e)
      case Ok(all) => Ok(FilterExt(all, ext))
  }

  /** `Promise.all(entries.map(...))` followed by `.flat()`: a file gives its
      joined path, a directory gives its own recursive result. */
  function ExpandEntries(dir: string, es: seq<Entry>, ext: string): Result<seq<string>, string>
    decreases es, 0
  {
    if es == [] then Ok([])
    else
      var head := match es[0]
        case FileEntry(n) => Ok([PathJoin(dir, n)])
        case DirEntry(n, l) => FilesRecursively(PathJoin(dir, n), l, ext);
      match head
      case Err(e) => Err(e)
      case Ok(h) =>
        match ExpandEntries(dir, es[1..], ext)
        case Err(e) => Err(e)
        case Ok(t) => Ok(h + t)
  }

  /** Reference definition: the tree can be read everywhere. */
  ghost predicate Readable(l: Listing)
    decreases l, 1
  {
    l.Entries? && AllReadable(l.entries)
  }

  ghost predicate AllReadable(es: seq<Entry>)
    decreases es, 0
  {
    es == [] || ((es[0].DirEntry? ==> Readable(es[0].listing)) && AllReadable(es[1..]))
  }

  /** Reference definition: every file of the tree in depth-first directory
      order, with no filtering. */
  ghost function AllFiles(dir: string, l: Listing): seq<string>
    decreases l, 1
  {
    match l
    case Unreadable(_) => []
    case Entries(es) => AllFilesOf(dir, es)
  }

  ghost function AllFilesOf(dir: string, es: seq<Entry>): seq<string>
    decreases es, 0
  {
    if es == [] then []
    else
      (match es[0]
       case FileEntry(n) => [PathJoin(dir, n)]
       case DirEntry(n, l) => AllFiles(PathJoin(dir, n), l))
      + AllFilesOf(dir, es[1..])
  }

  lemma {:induction false} FilterExtAppend(a: seq<string>, b: seq<string>, ext: string)
    ensures FilterExt(a + b, ext) == FilterExt(a, ext) + FilterExt(b, ext)
  {
    if a == [] {
      assert a + b == b;
    } else {
      assert (a + b)[1..] == a[1..] + b;
      FilterExtAppend(a[1..], b, ext);
    }
  }

  lemma {:induction false} FilterExtIdempotent(files: seq<string>, ext: string)
    ensures FilterExt(FilterExt(files, ext), ext) == FilterExt(files, ext)
  {
    if files != [] {
      FilterExtIdempotent(files[1..], ext);
      var h := if EndsWith(files[0], ext) then [files[0]] else [];
      FilterExtAppend(h, FilterExt(files[1..], ext), ext);
    }
  }

  /** The walk succeeds exactly on a readable tree, and then yields the
      tree's files in depth-first directory order, filtered by extension. */
  lemma {:induction false} WalkIsFilteredDepthFirst(dir: string, l: Listing, ext: string)
    ensures FilesRecursively(dir, l, ext).Ok? <==> Readable(l)
    ensures Readable(l) ==> FilesRecursively(dir, l, ext) == Ok(FilterExt(AllFiles(dir, l), ext))
    decreases l, 1
  {
    if l.Entries? {
      ExpandIsFilteredDepthFirst(dir, l.entries, ext);
    }
  }

  lemma {:induction false} ExpandIsFilteredDepthFirst(dir: string, es: seq<Entry>, ext: string)
    ensures ExpandEntries(dir, es, ext).Ok? <==> AllReadable(es)
    ensures AllReadable(es) ==>
      FilterExt(ExpandEntries(dir, es, ext).value, ext) == FilterExt(AllFilesOf(dir, es), ext)
    decreases es, 0
  {
    if es != [] {
      ExpandIsFilteredDepthFirst(dir, es[1..], ext);
      match es[0]
      case FileEntry(n) =>
        if AllReadable(es) {
          FilterExtAppend([PathJoin(dir, n)], ExpandEntries(dir, es[1..], ext).value, ext);
          FilterExtAppend([PathJoin(dir, n)], AllFilesOf(dir, es[1..]), ext);
        }
      case DirEntry(n, sub) =>
        var p := PathJoin(dir, n);
        WalkIsFilteredDepthFirst(p, sub, ext);
        if AllReadable(es) {
          var h := FilesRecursively(p, sub, ext).value;
          FilterExtAppend(h, ExpandEntries(dir, es[1..], ext).value, ext);
          FilterExtAppend(AllFiles(p, sub), AllFilesOf(dir, es[1..]), ext);
          FilterExtIdempotent(AllFiles(p, sub), ext);
        }
    }
  }

  // ---------------------------------------------------------------------
  // The path rewrite of one page file.

  /** `rel.replace(new RegExp(`\\${ext}$`), "")`: drops the extension at the end. */
  function StripExtension(rel: string, ext: string): (r: string)
  {
    if EndsWith(rel, ext) then rel[..|rel| - |ext|] else rel
  }

  /** `s.replace(/\[([^\]]+)\]/g, ':$1')`: scanning left to right, each `[`
      followed by one or more characters other than `]` and then `]` becomes
      `:` followed by those characters. */
  function ReplaceParams(s: string): (r: string)
    ensures |r| <= |s|
    decreases |s|
  {
    if s == [] then []
    else if s[0] == '[' && |s| >= 2 && s[1] != ']' then
      match IndexOf(s, ']', 2)
      case Some(j) => ":" + s[1..j] + ReplaceParams(s[j + 1..])
      case None => [s[0]] + ReplaceParams(s[1..])
    else [s[0]] + ReplaceParams(s[1..])
  }

  /** `s.replace(/\/$/, '')`: drops one trailing slash. */
  function TrimTrailingSlash(s: string): (r: string)
  {
    if EndsWith(s, "/") then s[..|s| - 1] else s
  }

  /** The route path of an extension-stripped relative path: the whole path
      `index` is the root; otherwise brackets become `:` segments and one
      trailing slash goes. */
  function RoutePath(stripped: string): string
  {
    if stripped == "index" then "" else TrimTrailingSlash(ReplaceParams(stripped))
  }

  /** Text without `[` has no parameter to rewrite. */
  lemma {:induction false} ReplaceParamsNoBracket(s: string)
    requires '[' !in s
    ensures ReplaceParams(s) == s
    decreases |s|
  {
    if s != [] {
      ReplaceParamsNoBracket(s[1..]);
      assert [s[0]] + s[1..] == s;
    }
  }

  /** `[name]` after bracket-free text becomes `:name`. */
  lemma ReplaceParamsSegment(prefix: string, name: string, rest: string)
    requires '[' !in prefix
    requires |name| >= 1 && ']' !in name
    ensures ReplaceParams(prefix + "[" + name + "]" + rest) == prefix + ":" + name + ReplaceParams(rest)
  {
    var seg := "[" + name + "]" + rest;
    assert prefix + "[" + name + "]" + rest == prefix + seg;
    ReplaceParamsKeepsPrefix(prefix, seg);
    ReplaceParamsHead(name, rest);
  }

  /** Bracket-free text in front is copied unchanged. */
  lemma {:induction false} ReplaceParamsKeepsPrefix(prefix: string, t: string)
    requires '[' !in prefix
    ensures ReplaceParams(prefix + t) == prefix + ReplaceParams(t)
    decreases |prefix|
  {
    if prefix != [] {
      assert prefix + t == [prefix[0]] + (prefix[1..] + t);
      ReplaceParamsCons(prefix[0], prefix[1..] + t);
      ReplaceParamsKeepsPrefix(prefix[1..], t);
      assert [prefix[0]] + (prefix[1..] + ReplaceParams(t)) == prefix + ReplaceParams(t);
    } else {
      assert prefix + t == t;
    }
  }

  /** A leading `[name]` becomes `:name`. */
  lemma ReplaceParamsHead(name: string, rest: string)
    requires |name| >= 1 && ']' !in name
    ensures ReplaceParams("[" + name + "]" + rest) == ":" + name + ReplaceParams(rest)
  {
    var s := "[" + name + "]" + rest;
    assert s[0] == '[' && s[1] == name[0] && s[|name| + 1] == ']';
    assert forall k :: 2 <= k < |name| + 1 ==> s[k] == name[k - 1];
    IndexOfFirst(s, ']', 2, |name| + 1);
    assert s[1..|name| + 1] == name;
    assert s[|name| + 2..] == rest;
  }

  /** A character other than `[` is copied. */
  lemma ReplaceParamsCons(c: char, s: string)
    requires c != '['
    ensures ReplaceParams([c] + s) == [c] + ReplaceParams(s)
  {
    assert ([c] + s)[1..] == s;
  }

  lemma {:induction false} IndexOfFirst(s: string, c: char, from: nat, j: nat)
    requires from <= j < |s| && s[j] == c
    requires forall k :: from <= k < j ==> s[k] != c
    ensures IndexOf(s, c, from) == Some(j)
    decreases j - from
  {
    if from < j {
      IndexOfFirst(s, c, from + 1, j);
    }
  }

  /** A bracket-free path that is not `index` and has no trailing slash is its
      own route path; in particular a nested `x/index` is kept as it is. */
  lemma LiteralPathKept(stripped: string)
    requires '[' !in stripped && stripped != "index" && !EndsWith(stripped, "/")
    ensures RoutePath(stripped) == stripped
  {
    ReplaceParamsNoBracket(stripped);
  }

  /** A path ending in a `[name]` segment becomes a dynamic path ending in
      `:name`: `posts/[id]` is served as `posts/:id`. */
  lemma ParamPathRewritten(prefix: string, name: string)
    requires '[' !in prefix
    requires |name| >= 1 && ']' !in name && '/' !in name
    ensures RoutePath(prefix + "[" + name + "]") == prefix + ":" + name
  {
    var s := prefix + "[" + name + "]";
    assert s[|prefix|] == '[';
    assert '[' in s && '[' !in "index";
    assert s + "" == s;
    ReplaceParamsSegment(prefix, name, "");
    var r := prefix + ":" + name;
    assert ReplaceParams(s) == r;
    assert r[|r| - 1] == name[|name| - 1] && name[|name| - 1] != '/';
    assert !EndsWith(r, "/");
  }

  // ---------------------------------------------------------------------
  // The virtual routes module.

  /** `path.relative(base, file)` for a file below `base`. */
  function RelativePath(base: string, file: string): (r: string)
  {
    if StartsWith(file, base + "/") then file[|base| + 1..] else file
  }

  /** The normalised relative path of a page file. */
  function RelPath(routesDir: string, file: string): string
  {
    NormalizePathForImport(RelativePath(routesDir, file))
  }

  /** `import Component{binding} from '{source}';` */
  datatype Import = Import(binding: nat, source: string)

  /** One `{ path, file }` record of the returned `routes` list. */
  datatype RouteEntry = RouteEntry(path: string, file: string)

  /** The generated module: its imports and its exported `routes` table; its
      `getRouteComponent` is `Resolver.GetRouteComponent` over that table. */
  datatype RoutesModule = RoutesModule(imports: seq<Import>, table: seq<Route>)

  /** What `generateRoutes` returns: `{ code, routes }`. */
  datatype RouteInfo = RouteInfo(code: RoutesModule, routes: seq<RouteEntry>)

  /** `xs.map((x, index) => ...)` with the index counted from `from`. */
  function MapIndexed<T>(f: (string, nat) -> T, xs: seq<string>, from: nat): (r: seq<T>)
    ensures |r| == |xs|
  {
    if xs == [] then [] else [f(xs[0], from)] + MapIndexed(f, xs[1..], from + 1)
  }

  lemma {:induction false} MapIndexedSnoc<T>(f: (string, nat) -> T, xs: seq<string>, x: string, from: nat)
    ensures MapIndexed(f, xs + [x], from) == MapIndexed(f, xs, from) + [f(x, from + |xs|)]
  {
    if xs != [] {
      assert (xs + [x])[1..] == xs[1..] + [x];
      MapIndexedSnoc(f, xs[1..], x, from + 1);
    }
  }

  /** One more step of the loop that builds `MapIndexed(f, xs, from)`. */
  lemma MapIndexedGrow<T>(f: (string, nat) -> T, xs: seq<string>, from: nat, i: nat)
    requires i < |xs|
    ensures MapIndexed(f, xs[..i + 1], from) == MapIndexed(f, xs[..i], from) + [f(xs[i], from + i)]
  {
    assert xs[..i + 1] == xs[..i] + [xs[i]];
    MapIndexedSnoc(f, xs[..i], xs[i], from);
  }

  lemma TakeAll<T>(xs: seq<T>)
    ensures xs[..|xs|] == xs
  {
  }

  /** The `k`-th element is `f` of the `k`-th input and its index. */
  lemma {:induction false} MapIndexedAt<T>(f: (string, nat) -> T, xs: seq<string>, from: nat, k: nat)
    requires k < |xs|
    ensures MapIndexed(f, xs, from)[k] == f(xs[k], from + k)
  {
    if k > 0 {
      MapIndexedAt(f, xs[1..], from + 1, k - 1);
    }
  }

  function ImportFor(routesDir: string, file: string, i: nat): Import
  {
    Import(i, "/routes/" + RelPath(routesDir, file))
  }

  /** The table row of the `i`-th page file. */
  function RowFor(routesDir: string, file: string, ext: string, i: nat): Route
  {
    var stripped := StripExtension(RelPath(routesDir, file), ext);
    Route(RoutePath(stripped), i, '[' !in stripped, map[])
  }

  function EntryFor(routesDir: string, file: string, ext: string): RouteEntry
  {
    RouteEntry(RoutePath(StripExtension(RelPath(routesDir, file), ext)), RelPath(routesDir, file))
  }

  function ImportMaker(routesDir: string): (string, nat) -> Import
  {
    (file: string, i: nat) => ImportFor(routesDir, file, i)
  }

  function RowMaker(routesDir: string, ext: string): (string, nat) -> Route
  {
    (file: string, i: nat) => RowFor(routesDir, file, ext, i)
  }

  function EntryMaker(routesDir: string, ext: string): (string, nat) -> RouteEntry
  {
    (file: string, i: nat) => EntryFor(routesDir, file, ext)
  }

  /** `info` holds, for every page file in order, its import, its row and
      its `{ path, file }` record, and nothing else. */
  predicate Compiled(routesDir: string, files: seq<string>, ext: string, info: RouteInfo)
  {
    && info.code.imports == MapIndexed(ImportMaker(routesDir), files, 0)
    && info.code.table == MapIndexed(RowMaker(routesDir, ext), files, 0)
    && info.routes == MapIndexed(EntryMaker(routesDir, ext), files, 0)
  }

  /** The one route information `Compiled` admits. */
  function CompiledInfo(routesDir: string, files: seq<string>, ext: string): RouteInfo
  {
    RouteInfo(RoutesModule(MapIndexed(ImportMaker(routesDir), files, 0), MapIndexed(RowMaker(routesDir, ext), files, 0)),
      MapIndexed(EntryMaker(routesDir, ext), files, 0))
  }

  /** `Compiled` pins every part of the route information. */
  lemma CompiledIsInfo(routesDir: string, files: seq<string>, ext: string, info: RouteInfo)
    ensures Compiled(routesDir, files, ext, info) <==> info == CompiledInfo(routesDir, files, ext)
  {
  }

  /** The compiled module element by element: the `i`-th page file gives
      the `i`-th import, bound to `Component{i}`, the `i`-th row, with
      component `i`, and the `i`-th record. */
  lemma CompiledAt(routesDir: string, files: seq<string>, ext: string, info: RouteInfo, i: nat)
    requires Compiled(routesDir, files, ext, info) && i < |files|
    ensures |info.code.imports| == |files| && |info.code.table| == |files| && |info.routes| == |files|
    ensures info.code.imports[i] == ImportFor(routesDir, files[i], i)
    ensures info.code.table[i] == RowFor(routesDir, files[i], ext, i)
    ensures info.routes[i] == EntryFor(routesDir, files[i], ext)
  {
    MapIndexedAt(ImportMaker(routesDir), files, 0, i);
    MapIndexedAt(RowMaker(routesDir, ext), files, 0, i);
    MapIndexedAt(EntryMaker(routesDir, ext), files, 0, i);
  }

  /** The first `files.map(...)` of `generateRoutes`: one import per file. */
  method BuildImports(routesDir: string, files: seq<string>) returns (imports: seq<Import>)
    ensures imports == MapIndexed(ImportMaker(routesDir), files, 0)
  {
    imports := [];
    for i := 0 to |files|
      invariant imports == MapIndexed(ImportMaker(routesDir), files[..i], 0)
    {
      MapIndexedGrow(ImportMaker(routesDir), files, 0, i);
      imports := imports + [Import(i, "/routes/" + RelPath(routesDir, files[i]))];
    }
    TakeAll(files);
  }

  /** The body of the second `files.map(...)` for one page file: its
      relative path, its route path with the `index` and `[name]` rewrites,
      and its exactness. */
  method CompileFile(routesDir: string, file: string, ext: string, i: nat)
    returns (row: Route, entry: RouteEntry)
    ensures row == RowFor(routesDir, file, ext, i)
    ensures entry == EntryFor(routesDir, file, ext)
  {
    var relativePath := RelPath(routesDir, file);
    var routePath := StripExtension(relativePath, ext);
    var isExact := '[' !in routePath;
    if routePath == "index" {
      routePath := "";
    } else {
      routePath := TrimTrailingSlash(ReplaceParams(routePath));
    }
    row, entry := Route(routePath, i, isExact, map[]), RouteEntry(routePath, relativePath);
  }

  /** The second `files.map(...)` of `generateRoutes`: one table row per file,
      and a `{ path, file }` record pushed onto `routes` for each. */
  method BuildTable(routesDir: string, files: seq<string>, ext: string)
    returns (table: seq<Route>, routes: seq<RouteEntry>)
    ensures table == MapIndexed(RowMaker(routesDir, ext), files, 0)
    ensures routes == MapIndexed(EntryMaker(routesDir, ext), files, 0)
  {
    table, routes := [], [];
    for i := 0 to |files|
      invariant table == MapIndexed(RowMaker(routesDir, ext), files[..i], 0)
      invariant routes == MapIndexed(EntryMaker(routesDir, ext), files[..i], 0)
    {
      table, routes := AddFile(routesDir, files, ext, i, table, routes);
    }
    TakeAll(files);
  }

  /** One step of `BuildTable`: the row and the record of the `i`-th file
      are appended. */
  method AddFile(routesDir: string, files: seq<string>, ext: string, i: nat,
                 table: seq<Route>, routes: seq<RouteEntry>)
    returns (table': seq<Route>, routes': seq<RouteEntry>)
    requires i < |files|
    requires table == MapIndexed(RowMaker(routesDir, ext), files[..i], 0)
    requires routes == MapIndexed(EntryMaker(routesDir, ext), files[..i], 0)
    ensures table' == MapIndexed(RowMaker(routesDir, ext), files[..i + 1], 0)
    ensures routes' == MapIndexed(EntryMaker(routesDir, ext), files[..i + 1], 0)
  {
    var row, entry := CompileFile(routesDir, files[i], ext, i);
    MapIndexedGrow(RowMaker(routesDir, ext), files, 0, i);
    MapIndexedGrow(EntryMaker(routesDir, ext), files, 0, i);
    routes' := routes + [entry];
    table' := table + [row];
  }

  /** `generateRoutes(routesDir, framework)`: walks the routes directory and
      builds, one per page file and in walk order, an import bound to
      `Component{i}`, a table row and a `{ path, file }` record. A walk
      error is rethrown unchanged. */
  method GenerateRoutes(routesDir: string, framework: string, root: Listing)
    returns (r: Result<RouteInfo, string>)
    ensures var ext := FileExtension(framework);
      match FilesRecursively(routesDir, root, ext)
      case Err(e) => r == Err(e)
      case Ok(files) => r.Ok? && Compiled(routesDir, files, ext, r.value)
  {
    var ext := FileExtension(framework);
    var walked := FilesRecursively(routesDir, root, ext);
    if walked.Err? {
      return Err(walked.error);
    }
    var files := walked.value;
    var imports := BuildImports(routesDir, files);
    var table, routes := BuildTable(routesDir, files, ext);
    r := Ok(RouteInfo(RoutesModule(imports, table), routes));
  }
}
