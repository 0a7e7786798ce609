/** `createAll(options)`: the one plugin the user registers. It creates
    the islands, server and client sub-plugins for the capabilities the
    options enable, in that order, and merges their hooks. */
module Composer {
  import opened Wrappers
  import opened Utils
  import opened Framework
  import opened EntryPlugins
  import opened IslandsPlugin

  /** The options of `createAll`; a capability left undefined is off. */
  datatype AllOptions = AllOptions(islands: Option<IslandOptions>, server: Option<Options>, client: Option<Options>)

  datatype Kind = IslandsKind | ServerKind | ClientKind

  datatype Hook = BuildStartHook | CloseBundleHook

  /** The position of a sub-plugin kind in registration order. */
  function Rank(k: Kind): nat
  {
    match k
    case IslandsKind => 0
    case ServerKind => 1
    case ClientKind => 2
  }

  /** The sub-plugins the options enable, in registration order. */
  function Enabled(o: AllOptions): seq<Kind>
  {
    (if o.islands.Some? then [IslandsKind] else [])
    + (if o.server.Some? then [ServerKind] else [])
    + (if o.client.Some? then [ClientKind] else [])
  }

  /** Exactly the enabled capabilities get a sub-plugin, each once, and
      islands come before the server, which comes before the client. */
  lemma EnabledInOrder(o: AllOptions)
    ensures IslandsKind in Enabled(o) <==> o.islands.Some?
    ensures ServerKind in Enabled(o) <==> o.server.Some?
    ensures ClientKind in Enabled(o) <==> o.client.Some?
    ensures forall i, j :: 0 <= i < j < |Enabled(o)| ==> Rank(Enabled(o)[i]) < Rank(Enabled(o)[j])
  {
    var a := if o.islands.Some? then [IslandsKind] else [];
    var b := if o.server.Some? then [ServerKind] else [];
    var c := if o.client.Some? then [ClientKind] else [];
    assert Enabled(o) == a + b + c;
    assert forall i :: 0 <= i < |a| ==> Enabled(o)[i] == IslandsKind;
    assert forall i :: |a| <= i < |a| + |b| ==> Enabled(o)[i] == ServerKind;
    assert forall i :: |a| + |b| <= i < |Enabled(o)| ==> Enabled(o)[i] == ClientKind;
  }

  /** What the merged `buildStart` rethrows: the error of the sub-plugin
      that threw. */
  datatype StartError = IslandsFailed(message: string) | SideFailed(side: Side, error: BuildError)

  /** One invocation of a sub-plugin hook and what it threw, if anything. */
  datatype Call = Call(kind: Kind, hook: Hook, thrown: Option<StartError>)

  /** The calls of one merged `buildStart`: the enabled sub-plugins in
      order, each started after the previous one returned; the first that
      throws is the last one called, and its error is rethrown; without a
      throw every enabled sub-plugin ran. */
  predicate StartedInOrder(calls: seq<Call>, enabled: seq<Kind>, r: Outcome<StartError>)
  {
    && |calls| <= |enabled|
    && (forall k :: 0 <= k < |calls| ==> calls[k].kind == enabled[k] && calls[k].hook == BuildStartHook)
    && (forall k :: 0 <= k < |calls| - 1 ==> calls[k].thrown.None?)
    && (r.Pass? ==> |calls| == |enabled| && forall k :: 0 <= k < |calls| ==> calls[k].thrown.None?)
    && (r.Fail? ==> 0 < |calls| && calls[|calls| - 1].thrown == Some(r.error))
  }

  /** The sub-plugin whose error `e` is. */
  function Culprit(e: StartError): Kind
  {
    match e
    case IslandsFailed(_) => IslandsKind
    case SideFailed(side, _) => if side == ServerSide then ServerKind else ClientKind
  }

  /** Whether the sub-plugin of kind `k` was started by a merged
      `buildStart` that ended with `r`: no earlier sub-plugin threw. */
  predicate Reached(k: Kind, r: Outcome<StartError>)
  {
    r.Pass? || Rank(k) <= Rank(Culprit(r.error))
  }

  /** What the islands plugin's own `buildStart` returned, read off the
      merged outcome: its error if it was the one that threw. */
  function IslandsOutcome(r: Outcome<StartError>): Outcome<string>
  {
    if r.Fail? && r.error.IslandsFailed? then Fail(r.error.message) else Pass
  }

  /** What the `side` plugin's own `buildStart` returned, read off the
      merged outcome. */
  function SideOutcome(side: Side, r: Outcome<StartError>): Outcome<BuildError>
  {
    if r.Fail? && r.error.SideFailed? && r.error.side == side then Fail(r.error.error) else Pass
  }

  /** The calls of a merged `buildStart` over the sub-plugins `ks` that
      ended with `r`: each in turn, up to the one that threw. */
  function StartedCalls(ks: seq<Kind>, r: Outcome<StartError>): seq<Call>
  {
    if ks == [] then []
    else if r.Fail? && Culprit(r.error) == ks[0] then [Call(ks[0], BuildStartHook, Some(r.error))]
    else [Call(ks[0], BuildStartHook, None)] + StartedCalls(ks[1..], r)
  }

  /** Those calls start the sub-plugins in order and rethrow the error of
      the last one, provided the sub-plugin that threw is among `ks`. */
  lemma {:induction false} StartedCallsInOrder(ks: seq<Kind>, r: Outcome<StartError>)
    requires r.Fail? ==> Culprit(r.error) in ks
    ensures StartedInOrder(StartedCalls(ks, r), ks, r)
  {
    if ks != [] && !(r.Fail? && Culprit(r.error) == ks[0]) {
      assert r.Fail? ==> Culprit(r.error) in ks[1..] by {
        if r.Fail? {
          var j :| 0 <= j < |ks| && ks[j] == Culprit(r.error);
          assert ks[1..][j - 1] == ks[j];
        }
      }
      StartedCallsInOrder(ks[1..], r);
      var rest := StartedCalls(ks[1..], r);
      var calls := [Call(ks[0], BuildStartHook, None)] + rest;
      assert forall k :: 1 <= k < |calls| ==> calls[k] == rest[k - 1];
    }
  }

  /** The calls of the merged `closeBundle`: every enabled sub-plugin once,
      in order; none of them throws. */
  function ClosedInOrder(enabled: seq<Kind>): (calls: seq<Call>)
    ensures |calls| == |enabled|
    ensures forall k :: 0 <= k < |enabled| ==> calls[k] == Call(enabled[k], CloseBundleHook, None)
  {
    seq(|enabled|, k requires 0 <= k < |enabled| => Call(enabled[k], CloseBundleHook, None))
  }

  /** The first truthy `resolveId` answer of `ps`, in order. */
  function FirstResolved(ps: seq<EntryPlugin>, id: string): Option<string>
  {
    if ps == [] then None
    else
      var x := ps[0].ResolveId(id);
      if x.Some? && x.value != "" then x else FirstResolved(ps[1..], id)
  }

  /** The first truthy `load` answer of `ps`, in order. */
  function FirstLoaded(ps: seq<EntryPlugin>, id: string): LoadResult
    reads ps
  {
    if ps == [] then Undefined
    else
      var x := ps[0].Load(id);
      if Truthy(x) then x else FirstLoaded(ps[1..], id)
  }

  /** The `config` hooks of `ps` applied left to right. */
  function FoldConfig(ps: seq<EntryPlugin>, c: ViteConfig): ViteConfig
  {
    if ps == [] then c else FoldConfig(ps[1..], ps[0].ApplyConfig(c))
  }

  /** Whether `FirstResolved` answers: exactly when some plugin of `ps`
      claims the id, and then with the id itself. */
  lemma {:induction false} FirstResolvedClaims(ps: seq<EntryPlugin>, id: string)
    ensures FirstResolved(ps, id).Some? <==> exists k :: 0 <= k < |ps| && id in VirtualIds(ps[k].side)
    ensures FirstResolved(ps, id).Some? ==> FirstResolved(ps, id).value == id
  {
    if ps != [] {
      FirstResolvedClaims(ps[1..], id);
      if id in VirtualIds(ps[0].side) {
        assert ps[0].ResolveId(id) == Some(id);
        assert id != "";
      } else {
        assert forall k :: 1 <= k < |ps| ==> ps[k] == ps[1..][k - 1];
      }
    }
  }

  /** `createAll(options)`, with the sub-plugins it made and the log of
      the sub-plugin hooks the merged hooks have invoked. */
  class Composer {
    const islands: Option<Islands>
    const server: Option<EntryPlugin>
    const client: Option<EntryPlugin>
    ghost const Repr: set<object>
    var calls: seq<Call>

    ghost predicate Valid()
    {
      && (server.Some? ==> server.value.side == ServerSide)
      && (client.Some? ==> client.value.side == ClientSide)
      && (server.Some? && client.Some? ==> server.value != client.value)
      && Repr == (if islands.Some? then {islands.value} else {})
        + (if server.Some? then {server.value} else {}) + (if client.Some? then {client.value} else {})
    }

    /** The registration order of the sub-plugins. */
    function Kinds(): seq<Kind>
    {
      (if islands.Some? then [IslandsKind] else [])
      + (if server.Some? then [ServerKind] else [])
      + (if client.Some? then [ClientKind] else [])
    }

    /** The sub-plugins with `resolveId`, `load` and `config` hooks, in
        registration order; the islands plugin has none of the three. */
    function Entries(): seq<EntryPlugin>
    {
      (if server.Some? then [server.value] else []) + (if client.Some? then [client.value] else [])
    }

    constructor(o: AllOptions, islandsDir: map<string, FileContent>)
      ensures Valid()
      ensures Kinds() == Enabled(o)
      ensures islands.Some? ==> fresh(islands.value)
      ensures server.Some? ==> fresh(server.value)
      ensures client.Some? ==> fresh(client.value)
      ensures calls == []
    {
      var i: Option<Islands> := None;
      var s: Option<EntryPlugin> := None;
      var c: Option<EntryPlugin> := None;
      if o.islands.Some? {
        var p := new Islands(o.islands.value, islandsDir);
        i := Some(p);
      }
      if o.server.Some? {
        var p := new EntryPlugin(ServerSide, o.server.value);
        s := Some(p);
      }
      if o.client.Some? {
        var p := new EntryPlugin(ClientSide, o.client.value);
        c := Some(p);
      }
      islands := i;
      server := s;
      client := c;
      Repr := (if i.Some? then {i.value} else {})
        + (if s.Some? then {s.value} else {}) + (if c.Some? then {c.value} else {});
      calls := [];
    }

    /** `ssrkit-empty` when nothing is enabled; that plugin has no hooks. */
    function Name(): (n: string)
      ensures n == "ssrkit-empty" <==> Kinds() == []
    {
      if Kinds() == [] then "ssrkit-empty" else "ssrkit"
    }

    /** The merged `buildStart`: the islands, server and client phases in
        turn, each awaited; a sub-plugin that throws ends the hook with its
        error. Each sub-plugin scans the listing of its own directory.
        Every enabled sub-plugin up to the one that threw has run its own
        `buildStart`, with the effect and the outcome that hook specifies;
        those after it are untouched. */
    method BuildStart(islandsRoot: Listing, serverRoot: Listing, clientRoot: Listing) returns (r: Outcome<StartError>)
      requires Valid() && Kinds() != []
      modifies this, Repr
      ensures |old(calls)| <= |calls| && calls[..|old(calls)|] == old(calls)
      ensures StartedInOrder(calls[|old(calls)|..], Kinds(), r)
      ensures r.Fail? ==> Culprit(r.error) in Kinds()
      ensures islands.Some? ==> (islands.value.State(), IslandsOutcome(r)) == islands.value.Start(old(islands.value.State()), islandsRoot)
      ensures server.Some? ==>
        if Reached(ServerKind, r) then (server.value.State(), SideOutcome(ServerSide, r)) == server.value.Start(old(server.value.State()), serverRoot)
        else server.value.State() == old(server.value.State())
      ensures client.Some? ==>
        if Reached(ClientKind, r) then (client.value.State(), SideOutcome(ClientSide, r)) == client.value.Start(old(client.value.State()), clientRoot)
        else client.value.State() == old(client.value.State())
    {
      r := StartAll(islands, server, client, islandsRoot, serverRoot, clientRoot);
      RecordStart(r);
    }

    /** Logs the `buildStart` calls of a merged `buildStart` that ended
        with `r`. */
    method RecordStart(r: Outcome<StartError>)
      requires r.Fail? ==> Has(Culprit(r.error))
      modifies this
      ensures |old(calls)| <= |calls| && calls[..|old(calls)|] == old(calls)
      ensures StartedInOrder(calls[|old(calls)|..], Kinds(), r)
      ensures r.Fail? ==> Culprit(r.error) in Kinds()
    {
      if r.Fail? {
        HasKind(Culprit(r.error));
      }
      StartedCallsInOrder(Kinds(), r);
      calls := calls + StartedCalls(Kinds(), r);
      assert calls[|old(calls)|..] == StartedCalls(Kinds(), r);
    }

    /** Whether the sub-plugin of kind `k` is enabled. */
    predicate Has(k: Kind)
    {
      match k
      case IslandsKind => islands.Some?
      case ServerKind => server.Some?
      case ClientKind => client.Some?
    }

    /** An enabled sub-plugin is among those the composer runs. */
    lemma HasKind(k: Kind)
      requires Has(k)
      ensures k in Kinds()
    {
      var i := if islands.Some? then [IslandsKind] else [];
      var s := if server.Some? then [ServerKind] else [];
      var c := if client.Some? then [ClientKind] else [];
      assert Kinds() == i + s + c;
      if k == ServerKind {
        assert Kinds()[|i|] == k;
      } else if k == ClientKind {
        assert Kinds()[|i| + |s|] == k;
      }
    }

    /** The merged `resolveId`: the first truthy answer in registration
        order. */
    method ResolveId(id: string) returns (r: Option<string>)
      requires Valid() && Kinds() != []
      ensures r == FirstResolved(Entries(), id)
    {
      var ps := Entries();
      var i := 0;
      while i < |ps|
        invariant i <= |ps|
        invariant FirstResolved(ps[i..], id) == FirstResolved(ps, id)
      {
        assert ps[i..][1..] == ps[i + 1..];
        var x := ps[i].ResolveId(id);
        if x.Some? && x.value != "" {
          return x;
        }
        i := i + 1;
      }
      r := None;
    }

    /** The merged `load`: the first truthy answer in registration order,
        so an empty text falls through to the next plugin. */
    method Load(id: string) returns (r: LoadResult)
      requires Valid() && Kinds() != []
      ensures r == FirstLoaded(Entries(), id)
    {
      var ps := Entries();
      var i := 0;
      while i < |ps|
        invariant i <= |ps|
        invariant FirstLoaded(ps[i..], id) == FirstLoaded(ps, id)
      {
        assert ps[i..][1..] == ps[i + 1..];
        var x := ps[i].Load(id);
        if Truthy(x) {
          return x;
        }
        i := i + 1;
      }
      r := Undefined;
    }

    /** The merged `closeBundle`: every sub-plugin's, in registration
        order, given which island builds the bundler rejects, whether the
        islands directory can be listed and whether each side's output
        directory exists; it returns the two sides' reports. */
    method CloseBundle(rejects: BuildCall -> bool, listable: bool, serverOut: bool, clientOut: bool)
      returns (reports: seq<CloseReport>)
      requires Valid() && Kinds() != []
      modifies this, Repr
      ensures calls == old(calls) + ClosedInOrder(Kinds())
      ensures islands.Some? ==> islands.value.Closed(old(islands.value.State()), islands.value.State(), rejects, listable)
      ensures server.Some? ==> server.value.State() == old(server.value.State())
      ensures client.Some? ==> client.value.State() == old(client.value.State())
      ensures reports == (if server.Some? then [server.value.CloseBundle(serverOut)] else [])
        + (if client.Some? then [client.value.CloseBundle(clientOut)] else [])
    {
      if islands.Some? {
        CloseIslands(islands.value, rejects, listable);
      }
      var s := if server.Some? then [server.value.CloseBundle(serverOut)] else [];
      var c := if client.Some? then [client.value.CloseBundle(clientOut)] else [];
      reports := s + c;
      calls := calls + ClosedInOrder(Kinds());
    }

    /** The merged `config`: each sub-plugin's `config` applied to the
        result of the previous one. */
    method Config(c: ViteConfig) returns (r: ViteConfig)
      requires Valid() && Kinds() != []
      ensures r == FoldConfig(Entries(), c)
      ensures server.None? && client.None? ==> r == c
    {
      var ps := Entries();
      r := c;
      var i := 0;
      while i < |ps|
        invariant i <= |ps|
        invariant FoldConfig(ps[i..], r) == FoldConfig(ps, c)
      {
        assert ps[i..][1..] == ps[i + 1..];
        r := ps[i].ApplyConfig(r);
        i := i + 1;
      }
    }
  }

  /** The islands plugin's `buildStart`, its error tagged. */
  method StartIslands(p: Islands, root: Listing) returns (r: Outcome<StartError>)
    modifies p
    ensures r.Fail? ==> r.error.IslandsFailed?
    ensures (p.State(), IslandsOutcome(r)) == p.Start(old(p.State()), root)
  {
    ghost var s := p.State();
    var o := p.BuildStart(root);
    p.StartedIsStart(s, p.State(), root, o);
    r := if o.Fail? then Fail(IslandsFailed(o.error)) else Pass;
  }

  /** The islands, server and client phases of the merged `buildStart`. */
  method StartAll(islands: Option<Islands>, server: Option<EntryPlugin>, client: Option<EntryPlugin>,
                  islandsRoot: Listing, serverRoot: Listing, clientRoot: Listing)
    returns (r: Outcome<StartError>)
    requires server.Some? ==> server.value.side == ServerSide
    requires client.Some? ==> client.value.side == ClientSide
    requires server.Some? && client.Some? ==> server.value != client.value
    modifies if islands.Some? then {islands.value} else {}
    modifies if server.Some? then {server.value} else {}, if client.Some? then {client.value} else {}
    ensures r.Fail? ==> match Culprit(r.error)
      case IslandsKind => islands.Some?
      case ServerKind => server.Some?
      case ClientKind => client.Some?
    ensures islands.Some? ==> (islands.value.State(), IslandsOutcome(r)) == islands.value.Start(old(islands.value.State()), islandsRoot)
    ensures server.Some? ==>
      if Reached(ServerKind, r) then (server.value.State(), SideOutcome(ServerSide, r)) == server.value.Start(old(server.value.State()), serverRoot)
      else server.value.State() == old(server.value.State())
    ensures client.Some? ==>
      if Reached(ClientKind, r) then (client.value.State(), SideOutcome(ClientSide, r)) == client.value.Start(old(client.value.State()), clientRoot)
      else client.value.State() == old(client.value.State())
  {
    if islands.Some? {
      r := StartIslands(islands.value, islandsRoot);
      if r.Fail? {
        return;
      }
      r := StartSides(islands, server, client, serverRoot, clientRoot);
      assert IslandsOutcome(r) == Pass;
    } else {
      r := StartSides(islands, server, client, serverRoot, clientRoot);
    }
  }

  /** The server and client phases of the merged `buildStart`. */
  method StartSides(ghost islands: Option<Islands>, server: Option<EntryPlugin>, client: Option<EntryPlugin>,
                    serverRoot: Listing, clientRoot: Listing)
    returns (r: Outcome<StartError>)
    requires server.Some? ==> server.value.side == ServerSide
    requires client.Some? ==> client.value.side == ClientSide
    requires server.Some? && client.Some? ==> server.value != client.value
    modifies if server.Some? then {server.value} else {}, if client.Some? then {client.value} else {}
    ensures islands.Some? ==> islands.value.State() == old(islands.value.State())
    ensures r.Fail? ==> r.error.SideFailed? && if r.error.side == ServerSide then server.Some? else client.Some?
    ensures server.Some? ==> (server.value.State(), SideOutcome(ServerSide, r)) == server.value.Start(old(server.value.State()), serverRoot)
    ensures client.Some? ==>
      if Reached(ClientKind, r) then (client.value.State(), SideOutcome(ClientSide, r)) == client.value.Start(old(client.value.State()), clientRoot)
      else client.value.State() == old(client.value.State())
  {
    r := Pass;
    if server.Some? {
      r := StartSide(server.value, serverRoot);
    }
    if r.Pass? && client.Some? {
      r := StartSide(client.value, clientRoot);
    }
  }

  /** The islands plugin's `closeBundle`. */
  method CloseIslands(p: Islands, rejects: BuildCall -> bool, listable: bool)
    modifies p
    ensures p.Closed(old(p.State()), p.State(), rejects, listable)
  {
    p.CloseBundle(rejects, listable);
  }

  /** One entry plugin's `buildStart`, its error tagged with its side. */
  method StartSide(p: EntryPlugin, root: Listing) returns (r: Outcome<StartError>)
    modifies p
    ensures r.Fail? ==> r.error.SideFailed? && r.error.side == p.side
    ensures (p.State(), SideOutcome(p.side, r)) == p.Start(old(p.State()), root)
  {
    ghost var s := p.State();
    var o := p.BuildStart(root);
    p.StartedIsStart(s, p.State(), root, o);
    r := if o.Fail? then Fail(SideFailed(p.side, o.error)) else Pass;
  }


  /** The merged `resolveId` answers exactly the ids of the enabled
      sides, with the id itself. */
  lemma ResolveOwner(m: Composer, id: string)
    requires m.Valid()
    ensures FirstResolved(m.Entries(), id).Some? <==>
      (m.server.Some? && id in VirtualIds(ServerSide)) || (m.client.Some? && id in VirtualIds(ClientSide))
    ensures FirstResolved(m.Entries(), id).Some? ==> FirstResolved(m.Entries(), id).value == id
  {
    FirstResolvedClaims(m.Entries(), id);
    if m.server.Some? {
      assert m.Entries()[0] == m.server.value;
    }
    if m.client.Some? {
      assert m.Entries()[|m.Entries()| - 1] == m.client.value;
    }
  }

  /** The merged `load` of a side's id is that side's answer when it is
      truthy and nothing otherwise: the other side never claims it, and an
      empty text falls through to nothing. An id no enabled side claims
      loads nothing. */
  lemma LoadOwner(m: Composer, id: string)
    requires m.Valid()
    ensures m.server.Some? && id in VirtualIds(ServerSide) ==>
      FirstLoaded(m.Entries(), id) == (if Truthy(m.server.value.Load(id)) then m.server.value.Load(id) else Undefined)
    ensures m.client.Some? && id in VirtualIds(ClientSide) ==>
      FirstLoaded(m.Entries(), id) == (if Truthy(m.client.value.Load(id)) then m.client.value.Load(id) else Undefined)
    ensures !(m.server.Some? && id in VirtualIds(ServerSide)) && !(m.client.Some? && id in VirtualIds(ClientSide)) ==>
      FirstLoaded(m.Entries(), id) == Undefined
  {
    VirtualIdsDisjoint();
    var ps := m.Entries();
    if m.server.Some? && m.client.Some? {
      var sv := m.server.value;
      var cl := m.client.value;
      assert ps == [sv, cl] && ps[1..] == [cl] && ps[1..][1..] == [];
      assert FirstLoaded(ps[1..], id) == if Truthy(cl.Load(id)) then cl.Load(id) else Undefined;
    } else if m.server.Some? {
      assert ps == [m.server.value] && ps[1..] == [];
    } else if m.client.Some? {
      assert ps == [m.client.value] && ps[1..] == [];
    }
  }

  /** Before the server's `buildStart`, the merged `load` of the server
      entry gives nothing, where the server plugin alone gives `''`. */
  lemma LoadBeforeStart(m: Composer)
    requires m.Valid() && m.server.Some? && m.server.value.resolvedEntry == ""
    ensures m.server.value.Load(ServerEntryId) == Code("")
    ensures FirstLoaded(m.Entries(), ServerEntryId) == Undefined
  {
    LoadOwner(m, ServerEntryId);
  }

  /** With both sides enabled the client's `config` runs last: its `build`
      and its `/routes` alias win, the user's plugins come first, then the
      server's additions, then the client's, and the other keys are kept. */
  lemma ConfigBothSides(m: Composer, c: ViteConfig)
    requires m.Valid() && m.server.Some? && m.client.Some?
    ensures var r := FoldConfig(m.Entries(), c);
      && r.build == Some(BuildFor(ClientSide, m.client.value.outDir))
      && r.plugins == Some(PluginsOf(c) + AddedPlugins(ServerSide, m.server.value.framework) + AddedPlugins(ClientSide, m.client.value.framework))
      && r.alias == c.alias["/routes" := m.client.value.routesDir]
      && r.resolveRest == c.resolveRest && r.rest == c.rest
  {
    var s := m.server.value;
    var cl := m.client.value;
    var ps := m.Entries();
    assert ps == [s, cl] && ps[1..] == [cl] && ps[1..][1..] == [];
    var once := s.ApplyConfig(c);
    assert FoldConfig(ps[1..], once) == cl.ApplyConfig(once);
    assert PluginsOf(once) == PluginsOf(c) + AddedPlugins(ServerSide, s.framework);
    assert once.alias["/routes" := cl.routesDir] == c.alias["/routes" := cl.routesDir];
  }

  /** With one side enabled, the merged `config` is that side's. */
  lemma ConfigOneSide(m: Composer, c: ViteConfig)
    requires m.Valid() && (m.server.Some? != m.client.Some?)
    ensures FoldConfig(m.Entries(), c) == (if m.server.Some? then m.server.value else m.client.value).ApplyConfig(c)
  {
    var p := if m.server.Some? then m.server.value else m.client.value;
    assert m.Entries() == [p] && m.Entries()[1..] == [];
  }

  /** Both sides on Svelte: the Svelte compiler is registered twice. */
  lemma ConfigTwiceSvelte(m: Composer, c: ViteConfig)
    requires m.Valid() && m.server.Some? && m.client.Some?
    requires m.server.value.framework == "svelte" && m.client.value.framework == "svelte"
    ensures FoldConfig(m.Entries(), c).plugins == Some(PluginsOf(c) + [SvelteCompiler, SvelteSsrCompiler, SvelteCompiler])
  {
    ConfigBothSides(m, c);
    AddedPluginsBySide(ServerSide, "svelte");
    AddedPluginsBySide(ClientSide, "svelte");
    assert PluginsOf(c) + [SvelteCompiler, SvelteSsrCompiler] + [SvelteCompiler]
      == PluginsOf(c) + [SvelteCompiler, SvelteSsrCompiler, SvelteCompiler];
  }
}
