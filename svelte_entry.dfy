/** The Svelte server and client entry templates. */
module SvelteEntry {
  import opened Text
  import opened EntryText

  function SvelteServerPieces(app: string, routesId: string): seq<string>
  {
    [ "\n  ",
      AppImportHead,
      app,
      ImportTail,
      "\n  ",
      RoutesImportHead,
      routesId,
      ImportTail,
      "\n  \n  export " + "function render(" + "props) {\n    ",
      ServerParse,
      "\n    \n    ",
      ResolveCall,
      "\n  \n    const " + "rendered = App." + "render({\n      url,\n" + "      component,\n   " +
        "   props: " + "componentProps,\n    " + "  islands\n    });\n  " + "\n    return JSON." +
        "stringify({\n      " + "html: rendered.html," + "\n      ",
      SvelteCss,
      "\n      head: " + "rendered.head\n    })" + ";\n  }\n  " ]
  }

  /** `generateSvelteServerEntry(appComponent, routesId)`. */
  function SvelteServerEntry(app: string, routesId: string): string
  {
    Concat(SvelteServerPieces(app, routesId))
  }

  function SvelteClientPieces(app: string, routesId: string): seq<string>
  {
    [ "\n  ",
      AppImportHead,
      app,
      ImportTail,
      "\n  ",
      RoutesImportHead,
      routesId,
      ImportTail,
      "\n  \n  function " + "hydrate() {\n    ",
      ClientParse,
      "\n    \n    ",
      ResolveCall,
      "\n\n    new App({\n      ",
      TargetBody,
      "\n      ",
      HydrateTrue,
      "\n      props: {\n    " + "    url,\n        " + "component,\n        " + "props: " +
        "componentProps\n     " + " }\n    });\n  }\n\n  " + "hydrate();\n  " ]
  }

  /** `generateSvelteClientEntry(appComponent, routesId)`. */
  function SvelteClientEntry(app: string, routesId: string): string
  {
    Concat(SvelteClientPieces(app, routesId))
  }

  /** The server entry imports `App` from the app component and the lookup
      from the routes module, parses `{ url, params, islands }`, looks the
      route up with `(url, params)` and serialises the css as
      `rendered.css.code`. */
  lemma SvelteServerCarries(app: string, routesId: string)
    ensures var e := SvelteServerEntry(app, routesId);
      && Contains(e, AppImport(app)) && Contains(e, RoutesImport(routesId))
      && Contains(e, ServerParse) && Contains(e, ResolveCall) && Contains(e, SvelteCss)
  {
    ServerShapeCarries(SvelteServerPieces(app, routesId), app, routesId, SvelteCss);
  }

  /** The client entry reads `__SSRKIT_DATA__`, makes the same lookup as the
      server entry, and hydrates `App` on `document.body`. */
  lemma SvelteClientCarries(app: string, routesId: string)
    ensures var e := SvelteClientEntry(app, routesId);
      && Contains(e, AppImport(app)) && Contains(e, RoutesImport(routesId))
      && Contains(e, ClientParse) && Contains(e, ResolveCall)
      && Contains(e, TargetBody) && Contains(e, HydrateTrue)
  {
    ClientShapeCarries(SvelteClientPieces(app, routesId), app, routesId);
  }
}
