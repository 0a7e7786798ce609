/** The server and client sub-plugins. Both keep the compiled route module
    and the generated entry in closure state that `buildStart` fills and
    `load` serves under two virtual module ids, and both rewrite the
    bundler configuration. The two differ only in their ids, defaults,
    entry generator, output file name and the server's SSR settings, so
    one class models both, told apart by its side. */
module EntryPlugins {
  import opened Wrappers
  import opened Text
  import opened Utils
  import opened Framework

  datatype Side = ServerSide | ClientSide

  const ServerEntryId := "virtual:ssrkit-entry"
  const ServerRoutesId := "virtual:routes"
  const ClientEntryId := "virtual:ssrkit-" + "client-entry"
  const ClientRoutesId := "virtual:client-routes"

  function EntryId(side: Side): string
  {
    if side == ServerSide then ServerEntryId else ClientEntryId
  }

  function RoutesId(side: Side): string
  {
    if side == ServerSide then ServerRoutesId else ClientRoutesId
  }

  /** The two ids a side answers for. */
  function VirtualIds(side: Side): set<string>
  {
    {EntryId(side), RoutesId(side)}
  }

  /** The server never claims a client id, nor the client a server one. */
  lemma VirtualIdsDisjoint()
    ensures VirtualIds(ServerSide) !! VirtualIds(ClientSide)
    ensures |VirtualIds(ServerSide)| == 2 && |VirtualIds(ClientSide)| == 2
  {
    assert ServerEntryId[8] == 's' && ServerRoutesId[8] == 'r';
    assert ClientEntryId[15] == 'c' && ClientRoutesId[8] == 'c';
    assert |ServerEntryId| == 20 && |ClientEntryId| == 27;
    assert |ServerRoutesId| == 14 && |ClientRoutesId| == 21;
  }

  function PluginName(side: Side): string
  {
    if side == ServerSide then "ssrkit-server" else "ssrkit-client"
  }

  function DefaultOutDir(side: Side): string
  {
    if side == ServerSide then "./dist/server" else "./dist/client"
  }

  function EntryFileName(side: Side): string
  {
    if side == ServerSide then "server.js" else "client.js"
  }

  const DefaultRoutesDir := "./src/routes"
  const DefaultApp := "./src/App.svelte"
  const DefaultFramework := "svelte"

  /** `options`: an option left undefined takes its default. */
  datatype Options = Options(outDir: Option<string>, routesDir: Option<string>, appComponent: Option<string>, framework: Option<string>)

  function Or(o: Option<string>, default: string): (r: string)
    ensures o.Some? ==> r == o.value
    ensures o.None? ==> r == default
  {
    if o.Some? then o.value else default
  }

  /** The entry generator of a side. */
  function SideEntry(side: Side, app: string, framework: string): Result<string, EntryError>
  {
    if side == ServerSide then ServerEntry(app, framework, RoutesId(side))
    else ClientEntry(app, framework, RoutesId(side))
  }

  /** What `buildStart` rethrows: the walker's error, or the generator's. */
  datatype BuildError = WalkFailed(walkError: string) | EntryFailed(entryError: EntryError)

  /** What `load` returns: a source text (possibly empty, which the
      composer treats as no answer), the compiled route module, or
      nothing. */
  datatype LoadResult = Undefined | Code(text: string) | RoutesCode(routes: RoutesModule)

  /** Whether a hook result is truthy in JavaScript. */
  predicate Truthy(r: LoadResult)
  {
    r.RoutesCode? || (r.Code? && r.text != "")
  }

  /** `build`: the output settings a side imposes. */
  datatype BuildOptions = BuildOptions(
    outDir: string, emptyOutDir: bool, ssr: Option<bool>,
    input: string, format: string, entryFileNames: string,
    minify: bool, reportCompressedSize: bool, unlimitedChunkWarning: bool)

  /** The bundler configuration, with the keys the hooks touch split out;
      `rest` and `resolveRest` stand for every other key of the whole
      object and of `resolve`. */
  datatype ViteConfig = ViteConfig(
    plugins: Option<seq<BundlerPlugin>>, build: Option<BuildOptions>,
    alias: map<string, string>, resolveRest: map<string, string>,
    logLevel: Option<string>, rest: map<string, string>)

  /** `config.plugins || []`. */
  function PluginsOf(c: ViteConfig): seq<BundlerPlugin>
  {
    if c.plugins.Some? then c.plugins.value else []
  }

  function BuildFor(side: Side, outDir: string): (b: BuildOptions)
    ensures b.outDir == outDir && b.input == EntryId(side) && b.entryFileNames == EntryFileName(side)
    ensures b.ssr == (if side == ServerSide then Some(true) else None)
    ensures b.emptyOutDir && !b.minify && !b.reportCompressedSize && b.unlimitedChunkWarning && b.format == "es"
  {
    BuildOptions(outDir, true, if side == ServerSide then Some(true) else None,
      EntryId(side), "es", EntryFileName(side), false, false, true)
  }

  /** The plugins a side appends. */
  function AddedPlugins(side: Side, framework: string): seq<BundlerPlugin>
  {
    if side == ServerSide then FrameworkPlugins(framework) + FrameworkSsrPlugins(framework)
    else FrameworkPlugins(framework)
  }

  /** What `closeBundle` reports: the output directory is missing, or the
      built file. Neither side throws. */
  datatype CloseReport = Skipped(missingDir: string) | Built(file: string)

  /** The closure state of a side plugin that `buildStart` fills. */
  datatype SideState = SideState(resolvedRoutes: Option<RoutesModule>, resolvedEntry: string, parsedRoutes: seq<RouteEntry>)

  /** `createServer(options)` or `createClient(options)`. */
  class EntryPlugin {
    const side: Side
    const outDir: string
    const routesDir: string
    const appComponent: string
    const framework: string
    /** `routeInfo.code`; `None` is the initial empty string. */
    var resolvedRoutes: Option<RoutesModule>
    var resolvedEntry: string
    var parsedRoutes: seq<RouteEntry>

    constructor(side: Side, options: Options)
      ensures this.side == side
      ensures outDir == Or(options.outDir, DefaultOutDir(side))
      ensures routesDir == Or(options.routesDir, DefaultRoutesDir)
      ensures appComponent == Or(options.appComponent, DefaultApp)
      ensures framework == Or(options.framework, DefaultFramework)
      ensures resolvedRoutes == None && resolvedEntry == "" && parsedRoutes == []
    {
      this.side := side;
      outDir := Or(options.outDir, DefaultOutDir(side));
      routesDir := Or(options.routesDir, DefaultRoutesDir);
      appComponent := Or(options.appComponent, DefaultApp);
      framework := Or(options.framework, DefaultFramework);
      resolvedRoutes := None;
      resolvedEntry := "";
      parsedRoutes := [];
    }

    function Name(): string
    {
      PluginName(side)
    }

    function State(): SideState
      reads this
    {
      SideState(resolvedRoutes, resolvedEntry, parsedRoutes)
    }

    /** What `buildStart` leaves, from the state `s` it started in and the
        tree under the routes directory, and what it returns. A walk error
        is rethrown and every field is as it was. Otherwise the routes of
        exactly the walked files are stored; then the entry is generated
        and stored, or its error is rethrown with the old entry kept. */
    predicate Started(s: SideState, t: SideState, root: Listing, r: Outcome<BuildError>)
    {
      var ext := FileExtension(framework);
      match FilesRecursively(routesDir, root, ext)
      case Err(e) => r == Fail(WalkFailed(e)) && t == s
      case Ok(files) =>
        && t.resolvedRoutes.Some?
        && Compiled(routesDir, files, ext, RouteInfo(t.resolvedRoutes.value, t.parsedRoutes))
        && match SideEntry(side, appComponent, framework)
           case Ok(text) => r == Pass && t.resolvedEntry == text
           case Err(e) => r == Fail(EntryFailed(e)) && t.resolvedEntry == s.resolvedEntry
    }

    /** The state and the outcome `buildStart` leaves from the state `s`:
        the only ones `Started` admits. */
    function Start(s: SideState, root: Listing): (SideState, Outcome<BuildError>)
    {
      var ext := FileExtension(framework);
      match FilesRecursively(routesDir, root, ext)
      case Err(e) => (s, Fail(WalkFailed(e)))
      case Ok(files) =>
        var info := CompiledInfo(routesDir, files, ext);
        var t := s.(resolvedRoutes := Some(info.code), parsedRoutes := info.routes);
        match SideEntry(side, appComponent, framework)
        case Ok(text) => (t.(resolvedEntry := text), Pass)
        case Err(e) => (t, Fail(EntryFailed(e)))
    }

    /** `Started` holds of exactly the state and outcome `Start` gives. */
    lemma StartedIsStart(s: SideState, t: SideState, root: Listing, r: Outcome<BuildError>)
      ensures Started(s, t, root, r) <==> (t, r) == Start(s, root)
    {
      var ext := FileExtension(framework);
      match FilesRecursively(routesDir, root, ext)
      case Err(e) =>
      case Ok(files) =>
        if t.resolvedRoutes.Some? {
          CompiledIsInfo(routesDir, files, ext, RouteInfo(t.resolvedRoutes.value, t.parsedRoutes));
        }
    }

    /** `buildStart()`: compile the routes directory, store the module and
        the route list, then generate the entry. A walk error leaves every
        field as it was; an entry error comes after the route fields are
        already set and leaves the entry as it was. Both are rethrown. */
    method BuildStart(root: Listing) returns (r: Outcome<BuildError>)
      modifies this
      ensures Started(old(State()), State(), root, r)
    {
      var info := GenerateRoutes(routesDir, framework, root);
      if info.Err? {
        return Fail(WalkFailed(info.error));
      }
      resolvedRoutes := Some(info.value.code);
      parsedRoutes := info.value.routes;
      var entry := SideEntry(side, appComponent, framework);
      if entry.Err? {
        return Fail(EntryFailed(entry.error));
      }
      resolvedEntry := entry.value;
      r := Pass;
    }

    /** `resolveId(id)`: claim exactly the two virtual ids, unchanged. */
    function ResolveId(id: string): (r: Option<string>)
      ensures r.Some? <==> id in VirtualIds(side)
      ensures r.Some? ==> r.value == id
    {
      if id == EntryId(side) || id == RoutesId(side) then Some(id) else None
    }

    /** `load(id)`: the entry text or the route module for the two virtual
        ids, whatever `buildStart` left there; nothing for any other id. */
    function Load(id: string): (r: LoadResult)
      reads this
      ensures r != Undefined <==> ResolveId(id).Some?
      ensures id == EntryId(side) ==> r == Code(resolvedEntry)
      ensures id == RoutesId(side) && resolvedRoutes.Some? ==> r == RoutesCode(resolvedRoutes.value)
      ensures id == RoutesId(side) && resolvedRoutes.None? ==> r == Code("")
    {
      if id == EntryId(side) then Code(resolvedEntry)
      else if id == RoutesId(side) then
        if resolvedRoutes.Some? then RoutesCode(resolvedRoutes.value) else Code("")
      else Undefined
    }

    /** `config(config)`: every key is kept except that the side's
        framework plugins are appended, `build` is replaced by the side's
        own, `/routes` is aliased to the routes directory and logging is
        silenced. */
    function ApplyConfig(c: ViteConfig): (r: ViteConfig)
      ensures r.plugins == Some(PluginsOf(c) + AddedPlugins(side, framework))
      ensures r.build == Some(BuildFor(side, outDir))
      ensures r.alias == c.alias["/routes" := routesDir]
      ensures r.resolveRest == c.resolveRest && r.rest == c.rest
      ensures r.logLevel == Some("silent")
    {
      c.(plugins := Some(PluginsOf(c) + AddedPlugins(side, framework)),
         build := Some(BuildFor(side, outDir)),
         alias := c.alias["/routes" := routesDir],
         logLevel := Some("silent"))
    }

    /** `closeBundle()`, given whether the output directory exists. */
    function CloseBundle(outDirExists: bool): (r: CloseReport)
      ensures r.Built? <==> outDirExists
      ensures r.Built? ==> r.file == outDir + "/" + EntryFileName(side)
      ensures r.Skipped? ==> r.missingDir == outDir
    {
      if !outDirExists then Skipped(outDir) else Built(outDir + "/" + EntryFileName(side))
    }
  }

  /** The user's plugins stay first, in their order, and only the side's
      framework plugins follow. */
  lemma ConfigKeepsUserPlugins(p: EntryPlugin, c: ViteConfig)
    ensures PluginsOf(p.ApplyConfig(c))[..|PluginsOf(c)|] == PluginsOf(c)
    ensures |PluginsOf(p.ApplyConfig(c))| - |PluginsOf(c)| == |AddedPlugins(p.side, p.framework)|
  {
    assert PluginsOf(p.ApplyConfig(c)) == PluginsOf(c) + AddedPlugins(p.side, p.framework);
  }

  /** A Svelte server adds both compilers; a Svelte client only the
      browser one; every other framework adds nothing. */
  lemma AddedPluginsBySide(side: Side, framework: string)
    ensures framework == "svelte" && side == ServerSide ==> AddedPlugins(side, framework) == [SvelteCompiler, SvelteSsrCompiler]
    ensures framework == "svelte" && side == ClientSide ==> AddedPlugins(side, framework) == [SvelteCompiler]
    ensures framework != "svelte" ==> AddedPlugins(side, framework) == []
  {
  }

  /** Only `/routes` changes among the aliases, and applying the hook again
      changes nothing but the plugin list. */
  lemma ConfigAliasAndRepeat(p: EntryPlugin, c: ViteConfig)
    ensures forall k :: k in c.alias && k != "/routes" ==> k in p.ApplyConfig(c).alias && p.ApplyConfig(c).alias[k] == c.alias[k]
    ensures p.ApplyConfig(c).alias["/routes"] == p.routesDir
    ensures p.ApplyConfig(p.ApplyConfig(c)).(plugins := None) == p.ApplyConfig(c).(plugins := None)
  {
  }
}
