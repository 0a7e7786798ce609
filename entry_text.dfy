/** The lines the server and client entry templates are built from, and the
    facts about which of them a generated entry carries. Only which text the
    templates carry is modelled, not whether it is valid JavaScript. */
module EntryText {
  import opened Text

  const AppImportHead := "import App from \'"
  const RoutesImportHead := "import { " + "getRouteComponent } " + "from \'"
  const ImportTail := "\';"
  /** The server entry's parse of its serialised input. */
  const ServerParse := "const { url, params," + " islands } = JSON." + "parse(props);"
  /** The client entry's read of the page's data element. */
  const ClientParse := "const { url, params " + "} = JSON.parse(" + "document." +
    "getElementById(\'" + "__SSRKIT_DATA__\')." + "textContent);"
  /** The route lookup both entries make, with the same arguments. */
  const ResolveCall := "const { component, " + "componentProps } = " + "getRouteComponent(" +
    "url, params);"
  const SvelteCss := "css: rendered.css.code,"
  const DefaultCss := "css: rendered.css,"
  const TargetBody := "target: document.body,"
  const HydrateTrue := "hydrate: true,"

  function AppImport(app: string): string
  {
    AppImportHead + app + ImportTail
  }

  function RoutesImport(routesId: string): string
  {
    RoutesImportHead + routesId + ImportTail
  }

  /** Pieces `i` to `j` (exclusive) of a template occur in its text. */
  lemma Carries(ps: seq<string>, i: nat, j: nat, t: string)
    requires i <= j <= |ps| && Concat(ps[i..j]) == t
    ensures Contains(Concat(ps), t)
  {
    ContainsSlice(ps, i, j);
  }

  lemma ConcatThree(a: string, b: string, c: string)
    ensures Concat([a, b, c]) == a + b + c
  {
    assert [c][1..] == [];
    assert Concat([c]) == c + Concat([]);
    assert Concat([c]) == c;
    assert [b, c][1..] == [c];
    assert Concat([b, c]) == b + c;
    assert [a, b, c][1..] == [b, c];
    assert Concat([a, b, c]) == a + (b + c);
  }

  /** Three consecutive pieces of a template occur, joined, in its text. */
  lemma CarriesTriple(ps: seq<string>, i: nat, a: string, b: string, c: string)
    requires i + 3 <= |ps| && ps[i] == a && ps[i + 1] == b && ps[i + 2] == c
    ensures Contains(Concat(ps), a + b + c)
  {
    assert ps[i..i + 3] == [a, b, c];
    ConcatThree(a, b, c);
    Carries(ps, i, i + 3, a + b + c);
  }

  /** A template that starts with the two import lines carries both. */
  lemma CarriesImports(ps: seq<string>, app: string, routesId: string)
    requires |ps| >= 8
    requires ps[1] == AppImportHead && ps[2] == app && ps[3] == ImportTail
    requires ps[5] == RoutesImportHead && ps[6] == routesId && ps[7] == ImportTail
    ensures Contains(Concat(ps), AppImport(app))
    ensures Contains(Concat(ps), RoutesImport(routesId))
  {
    CarriesTriple(ps, 1, AppImportHead, app, ImportTail);
    CarriesTriple(ps, 5, RoutesImportHead, routesId, ImportTail);
  }

  /** A single piece of a template occurs in its text. */
  lemma CarriesPiece(ps: seq<string>, i: nat)
    requires i < |ps|
    ensures Contains(Concat(ps), ps[i])
  {
    assert ps[i..i + 1] == [ps[i]];
    assert [ps[i]][1..] == [];
    Carries(ps, i, i + 1, ps[i]);
  }

  /** The layout every server entry template has: the two imports, the
      parse of `{ url, params, islands }`, the lookup, and a css line. */
  predicate ServerShape(ps: seq<string>, app: string, routesId: string, css: string)
  {
    && |ps| >= 14
    && ps[1] == AppImportHead && ps[2] == app && ps[3] == ImportTail
    && ps[5] == RoutesImportHead && ps[6] == routesId && ps[7] == ImportTail
    && ps[9] == ServerParse && ps[11] == ResolveCall && ps[13] == css
  }

  /** The layout every client entry template has: the two imports, the read
      of `__SSRKIT_DATA__`, the lookup, and the mount on the body with
      `hydrate: true`. */
  predicate ClientShape(ps: seq<string>, app: string, routesId: string)
  {
    && |ps| >= 16
    && ps[1] == AppImportHead && ps[2] == app && ps[3] == ImportTail
    && ps[5] == RoutesImportHead && ps[6] == routesId && ps[7] == ImportTail
    && ps[9] == ClientParse && ps[11] == ResolveCall && ps[13] == TargetBody && ps[15] == HydrateTrue
  }

  lemma ServerShapeCarries(ps: seq<string>, app: string, routesId: string, css: string)
    requires ServerShape(ps, app, routesId, css)
    ensures var e := Concat(ps);
      && Contains(e, AppImport(app)) && Contains(e, RoutesImport(routesId))
      && Contains(e, ServerParse) && Contains(e, ResolveCall) && Contains(e, css)
  {
    CarriesImports(ps, app, routesId);
    CarriesPiece(ps, 9);
    CarriesPiece(ps, 11);
    CarriesPiece(ps, 13);
  }

  lemma ClientShapeCarries(ps: seq<string>, app: string, routesId: string)
    requires ClientShape(ps, app, routesId)
    ensures var e := Concat(ps);
      && Contains(e, AppImport(app)) && Contains(e, RoutesImport(routesId))
      && Contains(e, ClientParse) && Contains(e, ResolveCall)
      && Contains(e, TargetBody) && Contains(e, HydrateTrue)
  {
    CarriesImports(ps, app, routesId);
    CarriesPiece(ps, 9);
    CarriesPiece(ps, 11);
    CarriesPiece(ps, 13);
    CarriesPiece(ps, 15);
  }
}
