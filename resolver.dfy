/** The route resolver that the route compiler emits into the virtual routes
    module (`getRouteComponent`). It is modelled as a function over the emitted
    table rather than as source text. */
module Resolver {
  import opened Wrappers
  import opened Text

  /** One row of the emitted `routes` array: the rewritten path, the handle of
      the imported component (`Component{i}`), the exact flag, and the route's
      declared props (`route.props || {}`; generated rows declare none). */
  datatype Route = Route(path: string, component: nat, exact: bool, props: map<string, string>)

  /** What a successful lookup returns: `{ component, componentProps }`. */
  datatype Resolved = Resolved(component: nat, componentProps: map<string, string>)

  /** The error thrown when no route matches; it carries the url as given. */
  datatype RouteError = RouteNotFound(url: string)

  const NotFoundPrefix := "找不到對應的路由: "

  /** The thrown error's message. */
  function Message(e: RouteError): (m: string)
    ensures StartsWith(m, NotFoundPrefix) && EndsWith(m, e.url)
  {
    NotFoundPrefix + e.url
  }

  /** `url.replace(/^\//, '')`: drops one leading slash, if any. */
  function CleanUrl(url: string): (r: string)
    ensures |url| > 0 && url[0] == '/' ==> url == "/" + r
    ensures !(|url| > 0 && url[0] == '/') ==> r == url
  {
    if |url| > 0 && url[0] == '/' then url[1..] else url
  }

  /** A route segment accepts a url segment when it is a `:` wildcard or equal. */
  predicate SegmentMatches(part: string, urlPart: string)
  {
    StartsWith(part, ":") || part == urlPart
  }

  /** The dynamic test: same number of `/`-separated segments, each accepted. */
  predicate DynamicMatch(routePath: string, clean: string)
  {
    var rp := Split(routePath, '/');
    var up := Split(clean, '/');
    |rp| == |up| && forall k :: 0 <= k < |rp| ==> SegmentMatches(rp[k], up[k])
  }

  /** The three scans the resolver makes, in precedence order. */
  datatype Step = ExactStep | DynamicStep | FallbackStep

  predicate Accepts(step: Step, r: Route, clean: string)
  {
    match step
    case ExactStep => r.exact && r.path == clean
    case DynamicStep => !r.exact && DynamicMatch(r.path, clean)
    case FallbackStep => r.path == "" || r.path == "index"
  }

  predicate NoneAccepts(routes: seq<Route>, step: Step, clean: string)
  {
    forall k :: 0 <= k < |routes| ==> !Accepts(step, routes[k], clean)
  }

  /** Row `j` is the first row, in table order, that `step` accepts. */
  predicate FirstAccepted(routes: seq<Route>, step: Step, clean: string, j: nat)
  {
    j < |routes| && Accepts(step, routes[j], clean)
    && forall k :: 0 <= k < j ==> !Accepts(step, routes[k], clean)
  }

  /** `routes.find(...)` from index `from` on, as an index. */
  function FindFirst(routes: seq<Route>, step: Step, clean: string, from: nat): (r: Option<nat>)
    requires from <= |routes|
    ensures r.Some? ==> from <= r.value < |routes| && Accepts(step, routes[r.value], clean)
    ensures r.Some? ==> forall k :: from <= k < r.value ==> !Accepts(step, routes[k], clean)
    ensures r.None? ==> forall k :: from <= k < |routes| ==> !Accepts(step, routes[k], clean)
    decreases |routes| - from
  {
    if from == |routes| then None
    else if Accepts(step, routes[from], clean) then Some(from)
    else FindFirst(routes, step, clean, from + 1)
  }

  /** The precedence the resolver promises, stated without the scans: the
      first exact row with the literal path; failing any, the first dynamic
      row in table order; failing any, for `''` or `index`, the first row
      whose path is `''` or `index`. */
  predicate Chosen(routes: seq<Route>, clean: string, j: nat)
  {
    FirstAccepted(routes, ExactStep, clean, j)
    || (NoneAccepts(routes, ExactStep, clean) && FirstAccepted(routes, DynamicStep, clean, j))
    || (NoneAccepts(routes, ExactStep, clean) && NoneAccepts(routes, DynamicStep, clean)
        && (clean == "" || clean == "index") && FirstAccepted(routes, FallbackStep, clean, j))
  }

  /** The row the resolver picks for `url`, if any. */
  function Match(routes: seq<Route>, url: string): (r: Option<nat>)
    ensures r.Some? ==> Chosen(routes, CleanUrl(url), r.value)
    ensures r.None? <==> forall j: nat :: !Chosen(routes, CleanUrl(url), j)
  {
    var clean := CleanUrl(url);
    match FindFirst(routes, ExactStep, clean, 0)
    case Some(i) => assert Chosen(routes, clean, i); Some(i)
    case None =>
      match FindFirst(routes, DynamicStep, clean, 0)
      case Some(i) => assert Chosen(routes, clean, i); Some(i)
      case None =>
        if clean == "" || clean == "index" then
          var f := FindFirst(routes, FallbackStep, clean, 0);
          assert f.None? ==> forall j: nat :: !FirstAccepted(routes, FallbackStep, clean, j);
          assert f.Some? ==> Chosen(routes, clean, f.value);
          f
        else None
  }

  /** `getRouteComponent(url, params)`. */
  function GetRouteComponent(routes: seq<Route>, url: string, params: map<string, string>)
    : (r: Result<Resolved, RouteError>)
    ensures r.Err? <==> forall j: nat :: !Chosen(routes, CleanUrl(url), j)
    ensures r.Err? ==> r.error == RouteNotFound(url) && EndsWith(Message(r.error), url)
    ensures r.Ok? ==> exists j: nat :: (Chosen(routes, CleanUrl(url), j)
      && r.value == Resolved(routes[j].component, params + routes[j].props))
  {
    match Match(routes, url)
    case None => Err(RouteNotFound(url))
    case Some(j) => Ok(Resolved(routes[j].component, params + routes[j].props))
  }

  /** The precedence picks at most one row, so the lookup is determined by
      the table, the url and the params. */
  lemma ChosenUnique(routes: seq<Route>, clean: string, j1: nat, j2: nat)
    requires Chosen(routes, clean, j1) && Chosen(routes, clean, j2)
    ensures j1 == j2
  {
    FirstAcceptedUnique(routes, ExactStep, clean, j1, j2);
    FirstAcceptedUnique(routes, DynamicStep, clean, j1, j2);
    FirstAcceptedUnique(routes, FallbackStep, clean, j1, j2);
  }

  lemma FirstAcceptedUnique(routes: seq<Route>, step: Step, clean: string, j1: nat, j2: nat)
    ensures FirstAccepted(routes, step, clean, j1) && FirstAccepted(routes, step, clean, j2) ==> j1 == j2
  {
  }

  /** An exact row whose path equals the cleaned url wins over every dynamic
      row, wherever the dynamic rows stand in the table. */
  lemma ExactBeatsDynamic(routes: seq<Route>, url: string, params: map<string, string>, i: nat)
    requires i < |routes| && routes[i].exact && routes[i].path == CleanUrl(url)
    ensures var r := GetRouteComponent(routes, url, params);
      r.Ok? && exists j :: (0 <= j <= i && routes[j].exact && routes[j].path == CleanUrl(url)
        && r.value.component == routes[j].component)
  {
    var clean := CleanUrl(url);
    var r := GetRouteComponent(routes, url, params);
    assert Accepts(ExactStep, routes[i], clean);
    var j: nat :| Chosen(routes, clean, j) && r.value == Resolved(routes[j].component, params + routes[j].props);
    assert !NoneAccepts(routes, ExactStep, clean);
    assert FirstAccepted(routes, ExactStep, clean, j);
  }

  /** Among dynamic rows the first one in table order wins, not the most
      specific one. */
  lemma FirstDynamicWins(routes: seq<Route>, url: string, params: map<string, string>, i: nat, k: nat)
    requires i < k < |routes|
    requires NoneAccepts(routes, ExactStep, CleanUrl(url))
    requires Accepts(DynamicStep, routes[i], CleanUrl(url)) && Accepts(DynamicStep, routes[k], CleanUrl(url))
    ensures var r := GetRouteComponent(routes, url, params);
      r.Ok? && exists j :: 0 <= j <= i && r.value.component == routes[j].component
  {
    var clean := CleanUrl(url);
    var r := GetRouteComponent(routes, url, params);
    var j: nat :| Chosen(routes, clean, j) && r.value == Resolved(routes[j].component, params + routes[j].props);
    assert !NoneAccepts(routes, DynamicStep, clean);
    assert FirstAccepted(routes, DynamicStep, clean, j);
  }

  /** The returned props are the caller's params overlaid by the row's
      declared props: declared props win on a shared key. No value is taken
      from the url itself. */
  lemma PropsOverlay(routes: seq<Route>, url: string, params: map<string, string>)
    requires GetRouteComponent(routes, url, params).Ok?
    ensures var r := GetRouteComponent(routes, url, params).value;
      exists j :: (0 <= j < |routes| && r.component == routes[j].component
        && r.componentProps.Keys == params.Keys + routes[j].props.Keys
        && (forall key :: key in routes[j].props ==> r.componentProps[key] == routes[j].props[key])
        && (forall key :: key in params && key !in routes[j].props ==> r.componentProps[key] == params[key]))
  {
  }

  /** Rows that declare no props (every generated row) hand back the params unchanged. */
  lemma NoPropsKeepsParams(routes: seq<Route>, url: string, params: map<string, string>)
    requires forall k :: 0 <= k < |routes| ==> routes[k].props == map[]
    requires GetRouteComponent(routes, url, params).Ok?
    ensures GetRouteComponent(routes, url, params).value.componentProps == params
  {
    var r := GetRouteComponent(routes, url, params).value;
    var j: nat :| Chosen(routes, CleanUrl(url), j) && r == Resolved(routes[j].component, params + routes[j].props);
    assert params + map[] == params;
  }

  /** No row chosen for a url other than `''`/`index` with no exact and no
      dynamic match: the lookup throws, naming the url. */
  lemma NotFoundNamesUrl(routes: seq<Route>, url: string, params: map<string, string>)
    requires CleanUrl(url) != "" && CleanUrl(url) != "index"
    requires NoneAccepts(routes, ExactStep, CleanUrl(url)) && NoneAccepts(routes, DynamicStep, CleanUrl(url))
    ensures GetRouteComponent(routes, url, params) == Err(RouteNotFound(url))
  {
    var clean := CleanUrl(url);
    forall j: nat ensures !Chosen(routes, clean, j) {
      assert !FirstAccepted(routes, ExactStep, clean, j);
      assert !FirstAccepted(routes, DynamicStep, clean, j);
    }
  }
}
