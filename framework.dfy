/** Framework dispatch: which bundler plugins and loaders a framework tag
    adds, and which entry generator it selects, with the default entry
    templates used for every tag without a generator of its own. */
module Framework {
  import opened Wrappers
  import opened Text
  import opened EntryText
  import opened SvelteEntry

  /** A bundler plugin as the configuration hooks pass it around. The two
      Svelte compiler plugins are opaque constants; `Named` stands for any
      plugin the user's configuration already lists. */
  datatype BundlerPlugin = SvelteCompiler | SvelteSsrCompiler | Named(name: string)

  /** `getFrameworkPlugins(framework)`. */
  function FrameworkPlugins(framework: string): (r: seq<BundlerPlugin>)
    ensures framework == "svelte" ==> r == [SvelteCompiler]
    ensures framework != "svelte" ==> r == []
  {
    if framework == "svelte" then [SvelteCompiler] else []
  }

  /** `getFrameworkSsrPlugins(framework)`. */
  function FrameworkSsrPlugins(framework: string): (r: seq<BundlerPlugin>)
    ensures framework == "svelte" ==> r == [SvelteSsrCompiler]
    ensures framework != "svelte" ==> r == []
  {
    if framework == "svelte" then [SvelteSsrCompiler] else []
  }

  /** `getFrameworkLoader(framework)`: file extension to loader name. */
  function FrameworkLoader(framework: string): (r: map<string, string>)
    ensures framework == "svelte" ==> r == map[".svelte" := "js"]
    ensures framework != "svelte" ==> r == map[]
  {
    if framework == "svelte" then map[".svelte" := "js"] else map[]
  }

  /** The error a framework without an entry generator throws. */
  datatype EntryError = NotImplemented(message: string)

  const ReactServerMessage := "React 服務器入口生成邏輯尚未實現"
  const VueServerMessage := "Vue 服務器入口生成邏輯尚未實現"
  const ReactClientMessage := "React 客戶端入口生成邏輯尚未實現"
  const VueClientMessage := "Vue 客戶端入口生成邏輯尚未實現"

  /** The tags whose entry generators are declared but not written. */
  predicate Unimplemented(framework: string)
  {
    framework == "react" || framework == "vue2" || framework == "vue3"
  }

  function DefaultServerPieces(app: string, routesId: string): seq<string>
  {
    [ "\n    ",
      AppImportHead,
      app,
      ImportTail,
      "\n    ",
      RoutesImportHead,
      routesId,
      ImportTail,
      "\n\n    export " + "function render(" + "props) {\n      ",
      ServerParse,
      "\n      \n      ",
      ResolveCall,
      "\n\n      const " + "rendered = App." + "render({\n        url" + ",\n        component," +
        "\n        props: " + "componentProps,\n    " + "    islands\n      })" +
        ";\n\n      return JSON" + ".stringify({\n       " + " html: rendered.html" + ",\n        ",
      DefaultCss,
      "\n        head: " + "rendered.head\n      " + "});\n    }\n  " ]
  }

  /** `generateDefaultServerEntry(appComponent, routesId)`. */
  function DefaultServerEntry(app: string, routesId: string): string
  {
    Concat(DefaultServerPieces(app, routesId))
  }

  function DefaultClientPieces(app: string, routesId: string): seq<string>
  {
    [ "\n    ",
      AppImportHead,
      app,
      ImportTail,
      "\n    ",
      RoutesImportHead,
      routesId,
      ImportTail,
      "\n\n    function " + "hydrate() {\n      ",
      ClientParse,
      "\n      \n      ",
      ResolveCall,
      "\n\n      new App({\n  " + "      ",
      TargetBody,
      "\n        ",
      HydrateTrue,
      "\n        props: {\n  " + "        url,\n       " + "   component,\n      " + "    props: " +
        "componentProps\n     " + "   }\n      });\n    }" + "\n\n    hydrate();\n  " ]
  }

  /** `generateDefaultClientEntry(appComponent, routesId)`. */
  function DefaultClientEntry(app: string, routesId: string): string
  {
    Concat(DefaultClientPieces(app, routesId))
  }

  /** The default server entry imports `App` and the lookup, parses
      `{ url, params, islands }`, makes the lookup and serialises the css as
      `rendered.css`. */
  lemma DefaultServerCarries(app: string, routesId: string)
    ensures var e := DefaultServerEntry(app, routesId);
      && Contains(e, AppImport(app)) && Contains(e, RoutesImport(routesId))
      && Contains(e, ServerParse) && Contains(e, ResolveCall) && Contains(e, DefaultCss)
  {
    ServerShapeCarries(DefaultServerPieces(app, routesId), app, routesId, DefaultCss);
  }

  /** The default client entry reads `__SSRKIT_DATA__`, makes the same
      lookup, and mounts `App` on `document.body` with `hydrate: true`. */
  lemma DefaultClientCarries(app: string, routesId: string)
    ensures var e := DefaultClientEntry(app, routesId);
      && Contains(e, AppImport(app)) && Contains(e, RoutesImport(routesId))
      && Contains(e, ClientParse) && Contains(e, ResolveCall)
      && Contains(e, TargetBody) && Contains(e, HydrateTrue)
  {
    ClientShapeCarries(DefaultClientPieces(app, routesId), app, routesId);
  }

  /** `generateFrameworkServerEntry(appComponent, framework, routesId)`. */
  function ServerEntry(app: string, framework: string, routesId: string): (r: Result<string, EntryError>)
    ensures r.Err? <==> Unimplemented(framework)
    ensures framework == "react" ==> r == Err(NotImplemented(ReactServerMessage))
    ensures framework == "vue2" || framework == "vue3" ==> r == Err(NotImplemented(VueServerMessage))
    ensures framework == "svelte" ==> r == Ok(SvelteServerEntry(app, routesId))
    ensures framework != "svelte" && !Unimplemented(framework) ==> r == Ok(DefaultServerEntry(app, routesId))
  {
    if framework == "svelte" then Ok(SvelteServerEntry(app, routesId))
    else if framework == "react" then Err(NotImplemented(ReactServerMessage))
    else if framework == "vue2" || framework == "vue3" then Err(NotImplemented(VueServerMessage))
    else Ok(DefaultServerEntry(app, routesId))
  }

  /** `generateFrameworkClientEntry(appComponent, framework, routesId)`. */
  function ClientEntry(app: string, framework: string, routesId: string): (r: Result<string, EntryError>)
    ensures r.Err? <==> Unimplemented(framework)
    ensures framework == "react" ==> r == Err(NotImplemented(ReactClientMessage))
    ensures framework == "vue2" || framework == "vue3" ==> r == Err(NotImplemented(VueClientMessage))
    ensures framework == "svelte" ==> r == Ok(SvelteClientEntry(app, routesId))
    ensures framework != "svelte" && !Unimplemented(framework) ==> r == Ok(DefaultClientEntry(app, routesId))
  {
    if framework == "svelte" then Ok(SvelteClientEntry(app, routesId))
    else if framework == "react" then Err(NotImplemented(ReactClientMessage))
    else if framework == "vue2" || framework == "vue3" then Err(NotImplemented(VueClientMessage))
    else Ok(DefaultClientEntry(app, routesId))
  }

  /** Whatever the framework, a server entry that is produced imports `App`
      from the app component and the lookup from the given routes module,
      and parses `{ url, params, islands }`. */
  lemma ServerEntryCarries(app: string, framework: string, routesId: string)
    requires ServerEntry(app, framework, routesId).Ok?
    ensures var e := ServerEntry(app, framework, routesId).value;
      && Contains(e, AppImport(app)) && Contains(e, RoutesImport(routesId))
      && Contains(e, ServerParse) && Contains(e, ResolveCall)
  {
    if framework == "svelte" {
      SvelteServerCarries(app, routesId);
    } else {
      DefaultServerCarries(app, routesId);
    }
  }

  /** Whatever the framework, a client entry that is produced reads
      `__SSRKIT_DATA__` and hydrates `App` on the body. */
  lemma ClientEntryCarries(app: string, framework: string, routesId: string)
    requires ClientEntry(app, framework, routesId).Ok?
    ensures var e := ClientEntry(app, framework, routesId).value;
      && Contains(e, AppImport(app)) && Contains(e, RoutesImport(routesId))
      && Contains(e, ClientParse) && Contains(e, ResolveCall)
      && Contains(e, TargetBody) && Contains(e, HydrateTrue)
  {
    if framework == "svelte" {
      SvelteClientCarries(app, routesId);
    } else {
      DefaultClientCarries(app, routesId);
    }
  }

  /** A framework gets a server entry exactly when it gets a client entry,
      and then both make the same `getRouteComponent(url, params)` call, so
      for the same url, params and table they resolve the same route. */
  lemma SameLookupBothSides(app: string, framework: string, serverRoutes: string, clientRoutes: string)
    ensures ServerEntry(app, framework, serverRoutes).Ok? <==> ClientEntry(app, framework, clientRoutes).Ok?
    ensures ServerEntry(app, framework, serverRoutes).Ok? ==>
      Contains(ServerEntry(app, framework, serverRoutes).value, ResolveCall)
      && Contains(ClientEntry(app, framework, clientRoutes).value, ResolveCall)
  {
    if ServerEntry(app, framework, serverRoutes).Ok? {
      ServerEntryCarries(app, framework, serverRoutes);
      ClientEntryCarries(app, framework, clientRoutes);
    }
  }
}
