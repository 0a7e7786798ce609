# vite-plugin-ssrkit, modelled in Dafny

`vite-plugin-ssrkit` is a Vite plugin for server-side rendering with
partial hydration. This project models its core and proves properties of
that model.

The core has these parts:

- **The composite plugin.** `createAll` (`src/index.js`) builds up to three
  sub-plugins, islands, server and client, one for each option given. Its
  `buildStart` starts them in that fixed order and stops at the first one
  that throws. `resolveId` and `load` take the first truthy answer of any
  sub-plugin. `closeBundle` closes every sub-plugin. `config` threads the
  Vite configuration through each sub-plugin in turn.
- **The server and client plugins** (`src/server/config.js`,
  `src/client/config.js`). Each compiles the routes table, generates the
  framework's entry module, and serves both as virtual modules. Its
  `config` adds the framework's bundler plugins, the build settings and the
  `/routes` alias.
- **Route compilation** (`src/utils.js`):
  - It walks the routes directory depth-first and keeps the files with the
    framework's extension.
  - It compiles each file into an import, a row of the routes table (the
    route path with `[param]` segments rewritten to `:param`, and an
    `exact` flag when there is no `[`), and a parsed route.
  - It emits a `getRouteComponent(url, params)` resolver. The resolver tries
    an exact match, then the first dynamic match, then the index fallback,
    and otherwise throws "route not found".
- **Entry generators** (`src/framework/index.js`,
  `src/framework/svelte/entry.js`). A generator produces the server-side
  `render` module or the client-side hydration module. React and Vue are
  not implemented and throw.
- **The islands plugin** (`src/islands/config.js`,
  `src/islands/generator.js`). It finds the island components and writes one
  `<name>-entry.js` per island. Each entry holds a hydration scheduler:
  `load` mounts at once, `idle` waits for an idle callback or timeout, and
  `visible` waits for an intersection observer. The plugin then bundles the
  entries, either in one chunked build or one build per island, and
  deletes them afterwards.

The model runs on values where the source computes text (entry modules,
route tables) and on classes where the source keeps mutable state: the
plugins' closure variables, the islands directory, and the DOM elements
that the scheduler updates. The file system, the bundler and the browser
are inputs (a directory listing, a "does this build throw" oracle, and
capability flags).

## Model

| member | source | states |
|---|---|---|
| Utils.FileExtension | src/utils.js:7-15 | `.jsx` exactly for react, `.vue` exactly for vue2/vue3, `.svelte` exactly for svelte, `.js` for every other framework |
| Utils.NormalizePathForImport | src/utils.js:104-106 | every backslash becomes `/`, every other character is kept, and no backslash is left |
| Utils.NormalizeIdempotent | src/utils.js:104-106 | normalising twice gives the same result as normalising once |
| Utils.NormalizeFixesSlashPaths | src/utils.js:104-106 | a path without backslashes is left unchanged |
| Utils.FilterExt | src/utils.js:23 | every kept file ends with the extension, and no file is added |
| Utils.FilesRecursively | src/utils.js:17-24 | on success, every listed file ends with the extension |
| Utils.WalkIsFilteredDepthFirst | src/utils.js:17-24 | the walk succeeds exactly when every directory is readable, and then returns the depth-first list of all files filtered by extension |
| Utils.ExpandIsFilteredDepthFirst | src/utils.js:19-23 | the same for a directory's entries: concatenation in entry order, then filtering |
| Utils.FilterExtAppend | src/utils.js:23 | filtering distributes over concatenation, so `flat().filter` equals filtering each part |
| Utils.FilterExtIdempotent | src/utils.js:23 | filtering an already filtered list changes nothing |
| Utils.ReplaceParams | src/utils.js:47 | the rewritten path is never longer than the input |
| Utils.ReplaceParamsNoBracket | src/utils.js:47 | a path without `[` is left unchanged |
| Utils.ReplaceParamsSegment | src/utils.js:47 | `prefix[name]rest` becomes `prefix:name` followed by the rewritten rest |
| Utils.ReplaceParamsKeepsPrefix | src/utils.js:47 | a bracket-free prefix is kept as it is |
| Utils.ReplaceParamsHead | src/utils.js:47 | a leading `[name]` becomes `:name` |
| Utils.ReplaceParamsCons | src/utils.js:47 | a leading non-bracket character is kept |
| Utils.IndexOfFirst | src/utils.js:47 | the scan for `]` finds the first occurrence after the bracket |
| Utils.LiteralPathKept | src/utils.js:40-49 | a bracket-free, non-index path without a trailing slash is its own route path |
| Utils.ParamPathRewritten | src/utils.js:43-49 | `prefix[name]` becomes the route path `prefix:name` |
| Utils.MapIndexed | src/utils.js:33-54 | mapping with an index keeps the length |
| Utils.MapIndexedAt | src/utils.js:33-54 | element k of the mapped list is the maker applied to file k with index k |
| Utils.CompiledIsInfo | src/utils.js:33-54 | the compiled imports, table and routes are exactly the ones computed from the routes directory, files and extension |
| Utils.CompiledAt | src/utils.js:33-54 | a compiled table has one import, one row and one route per file, and entry i is compiled from file i with index i |
| Utils.BuildImports | src/utils.js:33-36 | the loop emits `import Component<i>` for each file in order |
| Utils.CompileFile | src/utils.js:39-53 | one file yields the row and the parsed route that the compilation functions define |
| Utils.BuildTable | src/utils.js:38-54 | the loop emits one row and pushes one parsed route per file, in order |
| Utils.AddFile | src/utils.js:38-54 | one iteration extends both lists by file i |
| Utils.GenerateRoutes | src/utils.js:26-102 | a failed walk is passed on as the error; otherwise the result is the compiled table of exactly the walked files |
| Resolver.Message | src/utils.js:83 | the not-found message starts with the fixed prefix and ends with the url |
| Resolver.CleanUrl | src/utils.js:64 | exactly one leading `/` is removed, and a url without one is unchanged |
| Resolver.FindFirst | src/utils.js:66-79 | `routes.find`: the index found accepts, and no earlier index does; none found means no index accepts |
| Resolver.Match | src/utils.js:63-81 | a match is the route chosen by the exact, dynamic and index steps in that order; no match means no route is chosen |
| Resolver.GetRouteComponent | src/utils.js:63-92 | throws, with the url in the message, exactly when no route is chosen; otherwise returns the chosen route's component with params overlaid by its props |
| Resolver.ChosenUnique | src/utils.js:63-81 | at most one route is chosen for a url |
| Resolver.FirstAcceptedUnique | src/utils.js:66-79 | `find` returns one index at most |
| Resolver.ExactBeatsDynamic | src/utils.js:66-76 | an exact route whose path equals the cleaned url wins over every dynamic route |
| Resolver.FirstDynamicWins | src/utils.js:69-75 | with no exact match, the earliest dynamic match wins over later ones |
| Resolver.PropsOverlay | src/utils.js:86 | the result's props hold every param, overridden by the route's own props |
| Resolver.NoPropsKeepsParams | src/utils.js:86 | with no route props, the component props are exactly the params |
| Resolver.NotFoundNamesUrl | src/utils.js:78-84 | when no step accepts and the url is not the index, the error names the url |
| Text.Split | src/utils.js:71-72 | `split('/')` gives at least one part, no part contains the separator, and joining the parts gives the string back |
| Text.SplitJoin | src/utils.js:71-72 | splitting a joined list of separator-free parts gives the parts back |
| RouteTables.RowPathShape | src/utils.js:40-53 | an exact row's path has no `[`, and a non-exact row's path is never empty, so the index fallback only meets exact rows |
| RouteTables.ReplaceParamsKeepsMarker | src/utils.js:47 | a path with `[` still carries `[` or `:` after the rewrite |
| RouteTables.TrimKeepsMarkers | src/utils.js:48 | removing the trailing slash keeps `[` and `:` |
| RouteTables.ExampleWalk | src/utils.js:17-24 | walking `r` with `index`, `about`, `notes.md` and `posts/[id]` keeps the three Svelte pages in directory order |
| RouteTables.ExampleRows | src/utils.js:38-54 | those pages compile to the example table: root, `about` and the dynamic `posts/:id` |
| RouteTables.ExampleCompiles | src/utils.js:26-54 | whatever the compiler emits for those pages carries the example table |
| RouteTables.ExampleRootPath | src/utils.js:43-44 | `index` becomes the root path `''` |
| RouteTables.ExampleNestedIndexPath | src/utils.js:43-49 | `blog/index` stays as it is (only the top-level index is special) |
| RouteTables.PostUrlMatches | src/utils.js:69-75 | `posts/:id` dynamically matches `posts/<id>` |
| RouteTables.ExampleExact | src/utils.js:66 | `/about` resolves to the exact `about` row |
| RouteTables.ExampleDynamic | src/utils.js:68-76 | `/posts/<id>` resolves to the `posts/:id` row |
| RouteTables.ExampleMissing | src/utils.js:82-84 | `/missing` throws route not found |
| RouteTables.ExampleIndexFallback | src/utils.js:78-80 | `/index` falls back to the root row |
| RouteTables.ExampleNoneAccepts | src/utils.js:66-76 | a one-segment url other than `about` is accepted by neither step |
| Framework.FrameworkPlugins | src/framework/index.js:4-12 | svelte gets its compiler plugin, every other framework none |
| Framework.FrameworkSsrPlugins | src/framework/index.js:24-32 | svelte gets its SSR compiler plugin, every other framework none |
| Framework.FrameworkLoader | src/framework/index.js:14-22 | svelte gets its loader table, every other framework the empty table |
| Framework.ServerEntry | src/framework/index.js:34-46 | an error exactly for react, vue2 and vue3, with the matching message; the svelte entry for svelte; the default entry otherwise |
| Framework.ClientEntry | src/framework/index.js:48-60 | the same dispatch for the client entry |
| Framework.DefaultServerCarries | src/framework/index.js:72-96 | the default server entry imports App and the lookup, parses the props, makes the lookup and returns the css |
| Framework.DefaultClientCarries | src/framework/index.js:108-131 | the default client entry reads `__SSRKIT_DATA__`, makes the lookup and mounts on the body with hydration |
| Framework.ServerEntryCarries | src/framework/index.js:34-46 | every server entry produced imports App and the routes module, parses the props and makes the lookup |
| Framework.ClientEntryCarries | src/framework/index.js:48-60 | every client entry produced reads the page data, makes the lookup and hydrates App on the body |
| Framework.SameLookupBothSides | src/framework/index.js:34-60 | a framework has a server entry exactly when it has a client entry, and both make the same `getRouteComponent(url, params)` call |
| SvelteEntry.SvelteServerCarries | src/framework/svelte/entry.js:1-25 | the svelte server entry imports App and the lookup, parses `{ url, params, islands }`, makes the lookup and returns `rendered.css.code` |
| SvelteEntry.SvelteClientCarries | src/framework/svelte/entry.js:27-50 | the svelte client entry reads `__SSRKIT_DATA__`, makes the lookup and hydrates on `document.body` |
| EntryText.ServerShapeCarries | src/framework/svelte/entry.js:2-9 | any text written in the server entry's shape carries its imports, parse, lookup and css |
| EntryText.ClientShapeCarries | src/framework/svelte/entry.js:28-39 | any text written in the client entry's shape carries its imports, parse, lookup, target and hydrate flag |
| IslandGenerator.FrameworkSpecificCode | src/islands/generator.js:27-55 | each framework's import statement ends with `import Component from '<file>'`, and its mount statement is that framework's |
| IslandGenerator.LoadingSelects | src/islands/generator.js:57-60 | the scheduler selects `[data-island="<name>"]` |
| IslandGenerator.EntryCarries | src/islands/generator.js:1-25 | an island entry carries its framework's import and mount code, imports the component, and selects the island's elements |
| IslandRuntime.StrategyOf | src/islands/generator.js:63-99 | `idle` exactly for `'idle'`, `visible` exactly for `'visible'`, and `load` for anything else, including no value |
| IslandRuntime.Plan | src/islands/generator.js:61-100 | each element's action comes from its own props and the observer flag |
| IslandRuntime.Reach | src/islands/generator.js:61-62 | the scan reaches every element before the first malformed `data-props`, and stops there |
| IslandRuntime.FirstMalformed | src/islands/generator.js:62 | the index found is malformed, and every element before it parsed |
| IslandRuntime.DeferredCount | src/islands/generator.js:73-79 | the tasks handed out up to n include element e once exactly when e is before n and deferred |
| IslandRuntime.NowCount | src/islands/generator.js:91-98 | the scan mounts element e once exactly when e is before n, immediate and still marked, and otherwise not at all |
| IslandRuntime.TargetsRemove | src/islands/generator.js:75-77 | firing one task removes exactly one claim on its target |
| IslandRuntime.TwoEntriesMountTwice | src/islands/generator.js:82-89 | two intersecting entries for one element mount it twice (as written) |
| IslandRuntime.Page.Hydrate | src/islands/generator.js:7-11 | `hydrateIsland` removes the placeholder and records one mount of the element |
| IslandRuntime.Page.HydrateThis | src/islands/generator.js:65-70 | mounts exactly when the element still carries `data-island`, and otherwise changes nothing |
| IslandRuntime.Page.HandleIslandLoading | src/islands/generator.js:59-101 | fails at the first malformed props; up to that element, tasks, observers and immediate mounts are exactly those the plan gives; afterwards no element is claimed twice |
| IslandRuntime.Page.ScanOne | src/islands/generator.js:61-99 | one element of the `forEach` extends the tasks, observers and mounts by exactly that element's action |
| IslandRuntime.Page.AllScheduledOnce | src/islands/generator.js:59-101 | after any prefix of the scan, every element has at most one mount or pending way to be mounted |
| IslandRuntime.Page.RunTask | src/islands/generator.js:75-77 | a firing idle callback or timeout is removed, mounts its element when still marked, and never raises a claim |
| IslandRuntime.Page.RemoveMarker | src/islands/generator.js:66 | the page removing `data-island` clears only that element's marker |
| IslandRuntime.Page.OnIntersection | src/islands/generator.js:82-89 | as written: mounts once per intersecting entry and unobserves; two intersecting entries break at-most-once |
| IslandRuntime.Page.OnIntersectionOnce | src/islands/generator.js:82-89 | corrected: mounts at most once per callback and keeps at-most-once |
| IslandsPlugin.Basename | src/islands/config.js:117 | `path.basename` has no slash, is a suffix of the path, and follows its last slash |
| IslandsPlugin.LastDot | src/islands/config.js:70 | the last `.` of the base name, or none |
| IslandsPlugin.Extname | src/islands/config.js:70 | `path.extname` is a suffix of the base name |
| IslandsPlugin.Lower | src/islands/config.js:70 | `toLowerCase` keeps the length and lowers each character |
| IslandsPlugin.StemsAgree | src/islands/config.js:70-115 | the write step (strip the framework's extension) and the build step (strip `extname`) name an island the same |
| IslandsPlugin.EntryKey | src/islands/config.js:116 | an entry's key ends with `-entry.js` |
| IslandsPlugin.ComponentRefReaches | src/islands/config.js:117 | the corrected reference resolves from the islands directory to the island file |
| IslandsPlugin.ComponentRefTopLevel | src/islands/config.js:117 | for an island directly in the islands directory, the corrected reference is the written one |
| IslandsPlugin.NestedIslandMissed | src/islands/config.js:117 | as written, `./<basename>` misses an island in a subdirectory |
| IslandsPlugin.EntryFileImportsIsland | src/islands/config.js:115-118 | for an island directly in the islands directory, the entry's `./<basename>` import reaches the island, and the entry selects the island's elements by name |
| IslandsPlugin.Cleaned | src/islands/config.js:124-135 | exactly the files not ending in `-entry.js` remain, unchanged |
| IslandsPlugin.CleanupUndoesWrites | src/islands/config.js:107-135 | cleaning after the writes leaves what cleaning before them leaves |
| IslandsPlugin.WrittenEntry | src/islands/config.js:113-122 | after the writes, an island's entry, which imports `./<basename>` of the island, is under its key when no later island has the same name |
| IslandsPlugin.WrittenKeepsOthers | src/islands/config.js:113-122 | the writes leave every file that is not an entry untouched |
| IslandsPlugin.IslandNames | src/islands/config.js:70-91 | island i's name is the lower-cased stem of file i |
| IslandsPlugin.EntryPointsByName | src/islands/config.js:68-73 | the chunked entry points are keyed by exactly the island names, each mapped to its entry |
| IslandsPlugin.SingleBuildReadsEntry | src/islands/config.js:89-99 | one island's build reads the entry the write step made and writes `<outDir>/<name>.js` without splitting |
| IslandsPlugin.ChunkedBuildReadsEntries | src/islands/config.js:58-78 | the chunked build names every island's entry, with splitting, chunk names and a metafile |
| IslandsPlugin.FirstRejected | src/islands/config.js:90-101 | the first per-island build that throws, if any |
| IslandsPlugin.FirstRejectedSpec | src/islands/config.js:90-101 | the index found throws and no earlier build does; none found means no build throws |
| IslandsPlugin.PerIslandBuildsStop | src/islands/config.js:89-105 | the per-island builds run in file order; every build before the last succeeded; a shortfall means the last one threw; with no throw, every island is built |
| IslandsPlugin.Islands.constructor | src/islands/config.js:10-19 | the options' defaults, nothing found, not initialised and no builds |
| IslandsPlugin.Islands.Initialize | src/islands/config.js:21-26 | a second call does nothing; a first call lists the islands, or fails with the walk's error |
| IslandsPlugin.Islands.BuildStart | src/islands/config.js:31-40 | a failed first walk throws and changes nothing; otherwise the islands are listed once, and the directory is the old one with each island's `./<basename>` entry written |
| IslandsPlugin.Islands.StartedIsStart | src/islands/config.js:21-40 | `buildStart`'s relation between old state, new state and outcome holds of exactly the one result `Start` computes |
| IslandsPlugin.Islands.GenerateEntryFiles | src/islands/config.js:113-122 | the directory is the old one with each island's entry, importing `./<basename>`, written in order |
| IslandsPlugin.Islands.WriteEntry | src/islands/config.js:115-119 | one write puts under `<name>-entry.js` the entry that imports `./<basename>` of the island |
| IslandsPlugin.Islands.CloseBundle | src/islands/config.js:42-109 | no islands means nothing happens; otherwise the chunked or per-island builds run, then the entries are removed when the directory can be listed |
| IslandsPlugin.Islands.BuildIslands | src/islands/config.js:65-105 | one chunked call, or the per-island calls up to the first that throws |
| IslandsPlugin.Islands.CollectEntryPoints | src/islands/config.js:68-73 | the loop builds the entry-point map of all islands |
| IslandsPlugin.Islands.BuildEach | src/islands/config.js:89-105 | the loop issues exactly the per-island builds |
| IslandsPlugin.Islands.CleanupEntryFiles | src/islands/config.js:124-135 | the directory afterwards is the cleaned directory |
| EntryPlugins.VirtualIdsDisjoint | src/server/config.js:12-13 | the server's two virtual ids and the client's two are distinct and disjoint |
| EntryPlugins.Or | src/server/config.js:16-21 | a given option wins over its default |
| EntryPlugins.BuildFor | src/server/config.js:68-82 | the build block: the output directory, the virtual entry as input, the entry file name, ssr only on the server, no minifying and ES format |
| EntryPlugins.EntryPlugin.constructor | src/server/config.js:15-25 | defaults for missing options, with no routes and no entry yet; the client plugin's constructor (src/client/config.js:14-24) is the same member with its own defaults |
| EntryPlugins.EntryPlugin.StartedIsStart | src/server/config.js:29-46 | `buildStart`'s relation between old state, new state and outcome holds of exactly the one result `Start` computes |
| EntryPlugins.EntryPlugin.BuildStart | src/server/config.js:29-46 | a failed walk throws and changes nothing; otherwise the routes are compiled, and the entry is set or its error raised; the client's `buildStart` (src/client/config.js:28-45) is the same member |
| EntryPlugins.EntryPlugin.ResolveId | src/server/config.js:47-51 | answers exactly the plugin's two virtual ids, with the id itself |
| EntryPlugins.EntryPlugin.Load | src/server/config.js:52-59 | answers exactly the plugin's ids: the entry text or the routes module (empty before a build) |
| EntryPlugins.EntryPlugin.ApplyConfig | src/server/config.js:60-92 | user plugins then the framework's, the build block, `/routes` aliased to the routes directory, and the rest of the configuration kept; the client's `config` (src/client/config.js:59-89) is the same member, without the SSR plugins |
| EntryPlugins.EntryPlugin.CloseBundle | src/server/config.js:93-107 | reports the built file exactly when the output directory exists, and otherwise names the missing directory |
| EntryPlugins.ConfigKeepsUserPlugins | src/server/config.js:63-67 | the user's plugins come first, followed by exactly the added ones |
| EntryPlugins.AddedPluginsBySide | src/server/config.js:65-66 | svelte adds the compiler and the SSR compiler on the server and only the compiler on the client; other frameworks add nothing |
| EntryPlugins.ConfigAliasAndRepeat | src/server/config.js:83-90 | other aliases are kept, `/routes` is set, and applying the config twice changes nothing except the plugins |
| Composer.EnabledInOrder | src/index.js:9-24 | a sub-plugin exists exactly when its option is given, in the order islands, server, client |
| Composer.ClosedInOrder | src/index.js:83-91 | `closeBundle` calls each sub-plugin once, in order |
| Composer.FirstResolvedClaims | src/index.js:67-74 | a virtual id resolves exactly when some sub-plugin claims it, and to itself |
| Composer.Composer.constructor | src/index.js:6-24 | the sub-plugins are exactly those enabled by the options |
| Composer.Composer.Name | src/index.js:26-35 | `ssrkit-empty` exactly when no sub-plugin is configured |
| Composer.Composer.BuildStart | src/index.js:36-65 | the enabled sub-plugins start in order, a throw stopping the rest and passed on; each sub-plugin reached ends in the state its own `buildStart` gives, with its own outcome, and each one not reached is unchanged |
| Composer.Composer.RecordStart | src/index.js:36-65 | the call log grows by the `buildStart` calls in order, up to the one that threw |
| Composer.Composer.HasKind | src/index.js:9-24 | an enabled sub-plugin is among those the composite runs |
| Composer.StartedCallsInOrder | src/index.js:36-65 | the calls logged for a merged `buildStart` are the enabled sub-plugins in order, ending with the one that threw |
| Composer.StartAll | src/index.js:36-65 | islands, then server, then client are started, each only when no earlier one threw; each one reached ends as its own `buildStart` leaves it, the others unchanged |
| Composer.StartSides | src/index.js:47-65 | the server is started, then the client only if the server did not throw; the islands plugin is untouched |
| Composer.Composer.ResolveId | src/index.js:67-74 | the loop returns the first truthy resolution |
| Composer.Composer.Load | src/index.js:75-82 | the loop returns the first truthy load |
| Composer.Composer.CloseBundle | src/index.js:83-91 | every sub-plugin is closed once, in order: the islands plugin ends as its own `closeBundle` leaves it, the side plugins' states are unchanged, and their reports are collected |
| Composer.CloseIslands | src/index.js:83-91 | the islands plugin's `closeBundle` as the composite calls it |
| Composer.Composer.Config | src/index.js:92-100 | the configuration is folded through the sub-plugins in order; with no server or client it is unchanged |
| Composer.StartIslands | src/index.js:37-45 | the islands plugin ends in the state its `buildStart` gives, and its failure is passed on tagged as the islands' |
| Composer.StartSide | src/index.js:47-65 | a side plugin ends in the state its `buildStart` gives, and its failure is passed on tagged with its side |
| Composer.ResolveOwner | src/index.js:67-74 | an id is resolved exactly when the plugin that owns it is configured |
| Composer.LoadOwner | src/index.js:75-82 | a side's id loads that side's answer when it is truthy, and otherwise nothing; an unowned id loads nothing |
| Composer.LoadBeforeStart | src/index.js:75-82 | an empty server entry is falsy, so the composite load skips it |
| Composer.ConfigBothSides | src/index.js:92-100 | with both sides, the client's build block and alias win, and the plugins are the user's, then the server's, then the client's |
| Composer.ConfigOneSide | src/index.js:92-100 | with one side, the fold is that side's config |
| Composer.ConfigTwiceSvelte | src/index.js:92-100 | with svelte on both sides, the svelte compiler is added twice |

## Left out

- Logging and console output (`logger`, `console.log`) and the metafile's chunk-size report (`src/islands/config.js:80-87`): they have no effect on state.
- `src/framework/svelte/config.js` is not part of this model. Its plugin list and loader table are the opaque values `SvelteCompiler`, `SvelteSsrCompiler` and a fixed loader map.
- The file system, esbuild and the DOM are inputs:
  - a directory `Listing` with unreadable directories;
  - a `rejects` oracle over the build call, which says whether esbuild throws;
  - a `listable` flag for the cleanup's `readdir`;
  - an `outDirExists` flag for `fs.access`;
  - the `hasIdleCallback` and `hasObserver` capability flags.
- `writeFile` and `unlink` failures are not modelled: each write and each removal succeeds.
- `Promise.all` in `getFilesRecursively` rejects with whichever failure settles first. The model reports the first unreadable entry in order.
- `path.join`, `path.relative` and `path.resolve` are plain concatenation and prefix removal. Normalisation of `..` and `.` and resolution against the working directory are not modelled.
- `toLowerCase` covers ASCII letters only.
- `path.extname` is modelled by its last-dot rule on the base name. A base name that is only the extension gives `""`.
- The generated JavaScript is modelled by the pieces it is made of and by which fragments it contains. It is not parsed and is not checked to be valid JavaScript.
- The entry's `typeof window` and `document.readyState` check (`src/islands/generator.js:15-21`): `HandleIslandLoading` is the call it leads to.
- `IslandRuntime.Props`: a `client` value that is not a string is treated as absent. Both lead to `'load'`.
- `IslandRuntime.Page.RunTask`: the order in which the browser fires pending tasks and intersection callbacks is left open. Any task may fire next.
- `EntryPlugins.BuildFor`: `chunkSizeWarningLimit: Infinity` is a flag meaning "no limit".
- `IslandRuntime.Page.Hydrate`: `querySelector('[placeholder]')?.remove()` removes only the first placeholder child. The model clears one `placeholder` flag per element, so it does not count several placeholders.
- `IslandsPlugin.Islands.Initialize`: the walked `Listing` and the `dir` map of file contents are independent inputs. Generated `*-entry.js` files still in the directory would be found as islands under the default `.js` framework; the model does not tie the walk to `dir`, so it does not capture that.
- `IslandsPlugin.Islands`: the file extension is computed once at construction. The source recomputes it from the same framework on every call.
- A falsy option other than `undefined` (`islands: false`) is modelled as an absent option, which is how `createAll` treats it. The sub-plugins' default parameters then do not apply.

Where the repository's documented behaviour and the code disagree, the model follows the code:

- A malformed `data-props` makes `JSON.parse` throw inside the `forEach`. This aborts the scan for the remaining elements of that island (`IslandRuntime.Reach`). Those elements are not handled one by one.
- A route is `exact` when its file path contains no `[` (`src/utils.js:41`). The test is not about `:segment`s.
- The emitted resolver does not extract parameters from the url. The component props are the caller's `params` overlaid by the route's props (`src/utils.js:86`).
- When both the server and client plugins are configured, the client's `config` replaces the server's `build` block wholesale (`Composer.ConfigBothSides`).

## Findings

| source | as written | input that shows it | evidently intended | confidence | as-written member | corrected member |
|---|---|---|---|---|---|---|
| src/islands/generator.js:82-89 | the intersection callback mounts the island once for every intersecting entry in the batch it receives | one callback delivering two intersecting entries for the same element | an element is hydrated at most once | not executed | IslandRuntime.Page.OnIntersection, IslandRuntime.TwoEntriesMountTwice | IslandRuntime.Page.OnIntersectionOnce |
| src/islands/config.js:117 | the entry imports `./<basename>` of the island, relative to the islands directory | an island at `<islandsDir>/forms/Counter.svelte` gets `./Counter.svelte`, which points to `<islandsDir>/Counter.svelte` | the entry imports the island from its path relative to the islands directory | not executed | IslandsPlugin.NestedIslandMissed | IslandsPlugin.ComponentRefReaches |
