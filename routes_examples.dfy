/** Properties of compiled route tables as a whole: the rows the compiler
    produces, and what the emitted resolver does with them. */
module RouteTables {
  import opened Wrappers
  import opened Text
  import opened Resolver
  import opened Utils

  /** An exact row keeps a literal path: no `[` survives in it. A non-exact
      row never has the empty path, so the `''` fallback only ever meets
      exact rows. */
  lemma RowPathShape(routesDir: string, file: string, ext: string, i: nat)
    ensures var row := RowFor(routesDir, file, ext, i);
      (row.exact ==> '[' !in row.path) && (!row.exact ==> row.path != "")
  {
    var s := StripExtension(RelPath(routesDir, file), ext);
    if s != "index" {
      var r := ReplaceParams(s);
      if '[' !in s {
        ReplaceParamsNoBracket(s);
      } else {
        var k :| 0 <= k < |s| && s[k] == '[';
        ReplaceParamsKeepsMarker(s, k);
      }
      TrimKeepsMarkers(r);
    }
  }

  lemma TrimKeepsMarkers(r: string)
    ensures '[' in r <==> '[' in TrimTrailingSlash(r)
    ensures ':' in r <==> ':' in TrimTrailingSlash(r)
  {
    if EndsWith(r, "/") {
      var t := TrimTrailingSlash(r);
      assert r == t + "/";
    }
  }

  /** Rewriting a path that holds a `[` leaves a `[` or a `:` behind. */
  lemma {:induction false} ReplaceParamsKeepsMarker(s: string, k: nat)
    requires k < |s| && s[k] == '['
    ensures '[' in ReplaceParams(s) || ':' in ReplaceParams(s)
    decreases |s|
  {
    if s[0] == '[' && |s| >= 2 && s[1] != ']' {
      match IndexOf(s, ']', 2)
      case Some(j) =>
        assert ReplaceParams(s)[0] == ':';
      case None =>
        assert ReplaceParams(s)[0] == '[';
    } else if k == 0 {
      assert ReplaceParams(s)[0] == '[';
    } else {
      ReplaceParamsKeepsMarker(s[1..], k - 1);
      assert ReplaceParams(s) == [s[0]] + ReplaceParams(s[1..]);
    }
  }

  /** The rewrites of a directory holding `index`, `about`, `blog/index`
      pages: only the whole path `index` becomes the root, and a literal
      path is kept. */
  lemma ExampleRootPath()
    ensures RoutePath("index") == ""
  {
  }

  lemma ExampleNestedIndexPath()
    ensures RoutePath("blog/index") == "blog/index"
  {
    LiteralPathKept("blog/index");
  }

  /** The table `index`, `about` and `posts/[id]` compile to, in file order. */
  const ExampleTable: seq<Route> :=
    [Route("", 0, true, map[]), Route("about", 1, true, map[]), Route("posts/:id", 2, false, map[])]

  /** A routes directory `r` holding `index.svelte`, `about.svelte`, a
      `notes.md` the walk drops, and `posts/[id].svelte`. */
  const ExampleListing: Listing :=
    Entries([FileEntry("index.svelte"), FileEntry("about.svelte"), FileEntry("notes.md"),
      DirEntry("posts", Entries([FileEntry("[id].svelte")]))])

  const ExampleFiles: seq<string> := ["r/index.svelte", "r/about.svelte", "r/posts/[id].svelte"]

  /** Every `<stem>.svelte` has the Svelte extension. */
  lemma SvelteEnds(stem: string)
    ensures EndsWith(stem + ".svelte", ".svelte")
  {
    var f := stem + ".svelte";
    assert f[|f| - |".svelte"|..] == ".svelte";
  }

  /** The extension filter, one file at a time. */
  lemma FilterExtCons(x: string, xs: seq<string>, ext: string)
    ensures FilterExt([x] + xs, ext) == (if EndsWith(x, ext) then [x] else []) + FilterExt(xs, ext)
  {
    assert ([x] + xs)[1..] == xs;
  }

  /** A plain file in a listing contributes its joined path, in place. */
  lemma ExpandFile(dir: string, n: string, rest: seq<Entry>, t: seq<string>, ext: string)
    requires ExpandEntries(dir, rest, ext) == Ok(t)
    ensures ExpandEntries(dir, [FileEntry(n)] + rest, ext) == Ok([PathJoin(dir, n)] + t)
  {
    assert ([FileEntry(n)] + rest)[1..] == rest;
  }

  /** The walk of `r/posts` finds its one page. */
  lemma PostsWalk()
    ensures FilesRecursively("r/posts", Entries([FileEntry("[id].svelte")]), ".svelte") == Ok(["r/posts/[id].svelte"])
  {
    var id := "r/posts/[id].svelte";
    ExpandFile("r/posts", "[id].svelte", [], [], ".svelte");
    assert [FileEntry("[id].svelte")] + [] == [FileEntry("[id].svelte")];
    assert PathJoin("r/posts", "[id].svelte") == id;
    SvelteEnds("r/posts/[id]");
    assert "r/posts/[id]" + ".svelte" == id;
    FilterExtCons(id, [], ".svelte");
    assert [id] + [] == [id];
  }

  /** Expanding the top directory lists every file, `notes.md` included,
      with `posts` expanded where it stands. */
  lemma TopExpand()
    ensures ExpandEntries("r", ExampleListing.entries, ".svelte")
      == Ok(["r/index.svelte", "r/about.svelte", "r/notes.md", "r/posts/[id].svelte"])
  {
    var id := "r/posts/[id].svelte";
    var d := DirEntry("posts", Entries([FileEntry("[id].svelte")]));
    var e2 := [FileEntry("notes.md"), d];
    var e1 := [FileEntry("about.svelte"), FileEntry("notes.md"), d];
    assert PathJoin("r", "posts") == "r/posts";
    assert PathJoin("r", "notes.md") == "r/notes.md";
    assert PathJoin("r", "about.svelte") == "r/about.svelte";
    assert PathJoin("r", "index.svelte") == "r/index.svelte";
    assert e2 == [FileEntry("notes.md")] + [d];
    assert e1 == [FileEntry("about.svelte")] + e2;
    assert ExampleListing.entries == [FileEntry("index.svelte")] + e1;
    assert [d][1..] == [];
    PostsWalk();
    assert ExpandEntries("r", [d], ".svelte") == Ok([id]);
    ExpandFile("r", "notes.md", [d], [id], ".svelte");
    assert ["r/notes.md"] + [id] == ["r/notes.md", id];
    ExpandFile("r", "about.svelte", e2, ["r/notes.md", id], ".svelte");
    assert ["r/about.svelte"] + ["r/notes.md", id] == ["r/about.svelte", "r/notes.md", id];
    ExpandFile("r", "index.svelte", e1, ["r/about.svelte", "r/notes.md", id], ".svelte");
    assert ["r/index.svelte"] + ["r/about.svelte", "r/notes.md", id]
      == ["r/index.svelte", "r/about.svelte", "r/notes.md", id];
  }

  /** The walk's filter drops `notes.md` and keeps the pages. */
  lemma NotesDropped()
    ensures FilterExt(["r/notes.md", "r/posts/[id].svelte"], ".svelte") == ["r/posts/[id].svelte"]
  {
    var id := "r/posts/[id].svelte";
    assert "r/posts/[id]" + ".svelte" == id;
    assert "r/notes.md"[|"r/notes.md"| - 1] != ".svelte"[6];
    assert !EndsWith("r/notes.md", ".svelte");
    assert ["r/notes.md", id] == ["r/notes.md"] + ([id] + []);
    SvelteEnds("r/posts/[id]");
    FilterExtCons(id, [], ".svelte");
    FilterExtCons("r/notes.md", [id] + [], ".svelte");
  }

  /** The filter keeps the three pages, in order. */
  lemma ExampleFilter()
    ensures FilterExt(["r/index.svelte", "r/about.svelte", "r/notes.md", "r/posts/[id].svelte"], ".svelte") == ExampleFiles
  {
    var id := "r/posts/[id].svelte";
    var tail := ["r/notes.md", id];
    assert "r/index" + ".svelte" == "r/index.svelte";
    assert "r/about" + ".svelte" == "r/about.svelte";
    assert ["r/index.svelte", "r/about.svelte", "r/notes.md", id] == ["r/index.svelte"] + (["r/about.svelte"] + tail);
    NotesDropped();
    SvelteEnds("r/index");
    SvelteEnds("r/about");
    FilterExtCons("r/about.svelte", tail, ".svelte");
    FilterExtCons("r/index.svelte", ["r/about.svelte"] + tail, ".svelte");
  }

  /** The walk of that directory keeps the Svelte pages, in directory
      order, with sub-directories expanded in place. */
  lemma ExampleWalk()
    ensures FilesRecursively("r", ExampleListing, ".svelte") == Ok(ExampleFiles)
  {
    TopExpand();
    ExampleFilter();
  }

  /** The page `r/<stem>.svelte` is routed by `stem`. */
  lemma PageStem(stem: string)
    requires '\\' !in stem
    ensures StripExtension(RelPath("r", "r/" + stem + ".svelte"), ".svelte") == stem
  {
    var file := "r/" + stem + ".svelte";
    var rel := stem + ".svelte";
    assert file[..2] == "r/";
    assert file[2..] == rel;
    assert '\\' !in rel;
    NormalizeFixesSlashPaths(rel);
    SvelteEnds(stem);
    assert rel[..|rel| - |".svelte"|] == stem;
  }

  /** Indexed mapping over three elements numbers them 0, 1 and 2. */
  lemma MapIndexedThree<T>(f: (string, nat) -> T, a: string, b: string, c: string)
    ensures MapIndexed(f, [a, b, c], 0) == [f(a, 0), f(b, 1), f(c, 2)]
  {
    assert [a, b, c][1..] == [b, c];
    assert [b, c][1..] == [c];
    assert [c][1..] == [];
    assert MapIndexed(f, [], 3) == [];
    assert MapIndexed(f, [c], 2) == [f(c, 2)] + MapIndexed(f, [], 3);
    assert MapIndexed(f, [b, c], 1) == [f(b, 1), f(c, 2)];
  }

  /** The row of page `r/<stem>.svelte`: its rewritten path, and exact
      unless the stem holds a parameter. */
  lemma RowOfPage(stem: string, i: nat)
    requires '\\' !in stem
    ensures RowMaker("r", ".svelte")("r/" + stem + ".svelte", i) == Route(RoutePath(stem), i, '[' !in stem, map[])
  {
    PageStem(stem);
  }

  /** The parameter segment `[id]` is rewritten to `:id`. */
  lemma PostsPath()
    ensures RoutePath("posts/[id]") == "posts/:id"
  {
    assert "posts/" + "[" + "id" + "]" == "posts/[id]";
    ParamPathRewritten("posts/", "id");
  }

  /** `index` is routed at the root. */
  lemma IndexRow()
    ensures RowMaker("r", ".svelte")("r/index.svelte", 0) == Route("", 0, true, map[])
  {
    assert "r/" + "index" + ".svelte" == "r/index.svelte";
    RowOfPage("index", 0);
  }

  /** `about` keeps its path and is exact. */
  lemma AboutRow()
    ensures RowMaker("r", ".svelte")("r/about.svelte", 1) == Route("about", 1, true, map[])
  {
    assert "r/" + "about" + ".svelte" == "r/about.svelte";
    RowOfPage("about", 1);
    LiteralPathKept("about");
  }

  /** `posts/[id]` becomes the dynamic `posts/:id`. */
  lemma PostRow()
    ensures RowMaker("r", ".svelte")("r/posts/[id].svelte", 2) == Route("posts/:id", 2, false, map[])
  {
    assert "r/" + "posts/[id]" + ".svelte" == "r/posts/[id].svelte";
    assert "posts/[id]"[6] == '[';
    RowOfPage("posts/[id]", 2);
    PostsPath();
  }

  /** The route rows of those pages are `ExampleTable`: `index` becomes
      the root, `about` is kept, and `posts/[id]` becomes the dynamic
      `posts/:id`, numbered in file order. */
  lemma ExampleRows()
    ensures MapIndexed(RowMaker("r", ".svelte"), ExampleFiles, 0) == ExampleTable
  {
    MapIndexedThree(RowMaker("r", ".svelte"), "r/index.svelte", "r/about.svelte", "r/posts/[id].svelte");
    IndexRow();
    AboutRow();
    PostRow();
  }

  /** Whatever the compiler emits for that directory carries `ExampleTable`,
      so the resolver facts below are about a table the plugin builds. */
  lemma ExampleCompiles(info: RouteInfo)
    requires Compiled("r", ExampleFiles, ".svelte", info)
    ensures info.code.table == ExampleTable
  {
    ExampleRows();
  }

  lemma PostsSplit()
    ensures Split("posts/:id", '/') == ["posts", ":id"]
  {
    SplitJoin(["posts", ":id"], '/');
    assert Join(["posts", ":id"], '/') == "posts/:id";
  }

  lemma PostUrlSplit(id: string)
    requires '/' !in id
    ensures Split("posts/" + id, '/') == ["posts", id]
  {
    assert "posts/" + id == "posts" + ['/'] + id;
    SplitPrefix("posts", id, '/');
    SplitNoSep(id, '/');
  }

  lemma PostUrlMatches(id: string)
    requires '/' !in id
    ensures DynamicMatch("posts/:id", "posts/" + id)
  {
    PostsSplit();
    PostUrlSplit(id);
    assert SegmentMatches(":id", id) by {
      assert ":id"[..1] == ":";
    }
  }

  /** `/about` resolves to the `about` page, with the params as passed. */
  lemma ExampleExact(params: map<string, string>)
    ensures GetRouteComponent(ExampleTable, "/about", params) == Ok(Resolved(1, params))
  {
    assert params + map[] == params;
  }

  /** `/posts/<id>` resolves to the `posts/:id` page; the props are the
      params as passed, with no `id` taken from the url. */
  lemma ExampleDynamic(id: string, params: map<string, string>)
    requires '/' !in id
    ensures GetRouteComponent(ExampleTable, "/posts/" + id, params) == Ok(Resolved(2, params))
  {
    assert params + map[] == params;
    assert "/posts/" + id == "/" + ("posts/" + id);
    ExampleNoExactPost(id);
    ExampleDynamicPost(id);
  }

  lemma ExampleNoExactPost(id: string)
    ensures FindFirst(ExampleTable, ExactStep, "posts/" + id, 0) == None
  {
    var u := "posts/" + id;
    assert u[0] == 'p' && u[5] == '/';
    assert !Accepts(ExactStep, ExampleTable[0], u);
    assert !Accepts(ExactStep, ExampleTable[1], u);
  }

  lemma ExampleDynamicPost(id: string)
    requires '/' !in id
    ensures FindFirst(ExampleTable, DynamicStep, "posts/" + id, 0) == Some(2)
  {
    PostUrlMatches(id);
    assert !Accepts(DynamicStep, ExampleTable[0], "posts/" + id);
    assert !Accepts(DynamicStep, ExampleTable[1], "posts/" + id);
  }

  /** `/missing` throws, naming `/missing`. */
  lemma ExampleMissing(params: map<string, string>)
    ensures GetRouteComponent(ExampleTable, "/missing", params) == Err(RouteNotFound("/missing"))
  {
    ExampleNoneAccepts("missing");
  }

  /** `/index` reaches the root page through the fallback. */
  lemma ExampleIndexFallback(params: map<string, string>)
    ensures GetRouteComponent(ExampleTable, "/index", params) == Ok(Resolved(0, params))
  {
    assert params + map[] == params;
    ExampleNoneAccepts("index");
    assert FindFirst(ExampleTable, FallbackStep, "index", 0) == Some(0);
  }

  /** A one-segment url other than `about` meets no exact and no dynamic row. */
  lemma ExampleNoneAccepts(clean: string)
    requires clean != "" && clean != "about" && '/' !in clean
    ensures FindFirst(ExampleTable, ExactStep, clean, 0) == None
    ensures FindFirst(ExampleTable, DynamicStep, clean, 0) == None
  {
    SplitNoSep(clean, '/');
    PostsSplit();
    assert !Accepts(DynamicStep, ExampleTable[2], clean);
    assert !Accepts(ExactStep, ExampleTable[1], clean);
  }
}
