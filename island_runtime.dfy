/** The hydration scheduler every island entry emits (`handleIslandLoading`,
    `hydrateThisIsland` and `hydrateIsland`), as a state machine over the
    elements its selector matched. The browser is reduced to two capability
    flags, the elements' attributes, and explicit events: a pending idle
    callback or timeout firing, an intersection callback arriving, and the
    page dropping an element's `data-island` attribute. */
module IslandRuntime {
  import opened Wrappers

  /** `JSON.parse(el.dataset.props || '{}')`: either it throws, or it yields
      an object whose `client` field is a string or absent. A `client` that
      is not a string behaves like an absent one: falsy values fall back to
      `'load'`, and truthy ones reach the `default` case, which is `'load'`
      as well. */
  datatype Props = Malformed | Parsed(client: Option<string>)

  datatype Strategy = Load | Idle | Visible

  /** `props.client || 'load'`, as the `switch` reads it. */
  function StrategyOf(client: Option<string>): (s: Strategy)
    ensures s == Idle <==> client == Some("idle")
    ensures s == Visible <==> client == Some("visible")
    ensures s == Load <==> client != Some("idle") && client != Some("visible")
  {
    if client == Some("idle") then Idle
    else if client == Some("visible") then Visible
    else Load
  }

  /** What the scan does with one element. */
  datatype Action = Abort | Defer | Observe | Now

  function ActionOf(p: Props, hasObserver: bool): Action
  {
    if p.Malformed? then Abort
    else match StrategyOf(p.client)
      case Idle => Defer
      case Visible => if hasObserver then Observe else Now
      case Load => Now
  }

  /** What the scan does with each element, in document order. */
  function Plan(props: seq<Props>, hasObserver: bool): (acts: seq<Action>)
    ensures |acts| == |props|
    ensures forall k :: 0 <= k < |props| ==> acts[k] == ActionOf(props[k], hasObserver)
  {
    seq(|props|, k requires 0 <= k < |props| => ActionOf(props[k], hasObserver))
  }

  /** A callback handed to the browser: `requestIdleCallback` when it
      exists, `setTimeout(…, 0)` otherwise. */
  datatype Task = IdleCallback(target: nat) | Timeout(target: nat)

  function TaskFor(e: nat, hasIdleCallback: bool): (t: Task)
    ensures t.target == e
  {
    if hasIdleCallback then IdleCallback(e) else Timeout(e)
  }

  function Targets(ts: seq<Task>): (r: seq<nat>)
    ensures |r| == |ts| && forall k :: 0 <= k < |ts| ==> r[k] == ts[k].target
  {
    seq(|ts|, k requires 0 <= k < |ts| => ts[k].target)
  }

  lemma TargetsAppend(a: seq<Task>, b: seq<Task>)
    ensures Targets(a + b) == Targets(a) + Targets(b)
  {
    assert forall k :: 0 <= k < |a + b| ==> Targets(a + b)[k] == (Targets(a) + Targets(b))[k];
  }

  /** How many times `e` occurs in `xs`. */
  function Count(xs: seq<nat>, e: nat): nat
  {
    if xs == [] then 0 else Count(xs[..|xs| - 1], e) + (if xs[|xs| - 1] == e then 1 else 0)
  }

  lemma CountSnoc(xs: seq<nat>, y: nat, e: nat)
    ensures Count(xs + [y], e) == Count(xs, e) + (if y == e then 1 else 0)
  {
    assert (xs + [y])[..|xs|] == xs;
  }

  lemma CountSingle(y: nat, e: nat)
    ensures Count([], e) == 0
    ensures Count([y], e) == if y == e then 1 else 0
  {
    assert [y][..0] == [];
  }

  lemma {:induction false} CountAppend(a: seq<nat>, b: seq<nat>, e: nat)
    ensures Count(a + b, e) == Count(a, e) + Count(b, e)
  {
    if b == [] {
      assert a + b == a;
    } else {
      var b' := b[..|b| - 1];
      assert a + b == (a + b') + [b[|b| - 1]];
      assert b == b' + [b[|b| - 1]];
      CountSnoc(a + b', b[|b| - 1], e);
      CountSnoc(b', b[|b| - 1], e);
      CountAppend(a, b', e);
    }
  }

  /** The index of the first element whose props do not parse: the scan's
      `forEach` stops there, as the exception leaves `handleIslandLoading`. */
  function FirstMalformed(props: seq<Props>, from: nat): (r: Option<nat>)
    requires from <= |props|
    ensures r.Some? ==> from <= r.value < |props| && props[r.value].Malformed?
    ensures r.Some? ==> forall k :: from <= k < r.value ==> props[k].Parsed?
    ensures r.None? ==> forall k :: from <= k < |props| ==> props[k].Parsed?
    decreases |props| - from
  {
    if from == |props| then None
    else if props[from].Malformed? then Some(from)
    else FirstMalformed(props, from + 1)
  }

  /** How many elements the scan handles before it stops. */
  function Reach(props: seq<Props>): (n: nat)
    ensures n <= |props| && forall k :: 0 <= k < n ==> props[k].Parsed?
    ensures n < |props| ==> props[n].Malformed?
  {
    match FirstMalformed(props, 0)
    case Some(i) => i
    case None => |props|
  }

  /** The callbacks the scan of the first `n` elements hands to the browser, in order. */
  function DeferredUpTo(acts: seq<Action>, hasIdleCallback: bool, n: nat): seq<Task>
    requires n <= |acts|
  {
    if n == 0 then [] else DeferredUpTo(acts, hasIdleCallback, n - 1) + DeferStep(acts, hasIdleCallback, n - 1)
  }

  /** The callback the scan hands over for element `k`, if any. */
  function DeferStep(acts: seq<Action>, hasIdleCallback: bool, k: nat): seq<Task>
    requires k < |acts|
  {
    if acts[k] == Defer then [TaskFor(k, hasIdleCallback)] else []
  }

  /** The elements the scan of the first `n` elements leaves under observation. */
  function ObservedUpTo(acts: seq<Action>, n: nat): set<nat>
    requires n <= |acts|
  {
    set e: nat | e < n && acts[e] == Observe
  }

  /** The elements the scan of the first `n` elements mounts at once, in
      order: those it hydrates straight away and that still carry their
      `data-island` attribute. */
  function NowUpTo(acts: seq<Action>, marker: seq<bool>, n: nat): seq<nat>
    requires n <= |acts| <= |marker|
  {
    if n == 0 then [] else NowUpTo(acts, marker, n - 1) + NowStep(acts, marker, n - 1)
  }

  /** The mount the scan makes at once for element `k`, if any. */
  function NowStep(acts: seq<Action>, marker: seq<bool>, k: nat): seq<nat>
    requires k < |acts| <= |marker|
  {
    if acts[k] == Now && marker[k] then [k] else []
  }

  /** Each scanned element is handed over at most once: one callback, or
      one observation, or one mount. */
  lemma {:induction false} DeferredCount(acts: seq<Action>, hasIdleCallback: bool, n: nat, e: nat)
    requires n <= |acts|
    ensures Count(Targets(DeferredUpTo(acts, hasIdleCallback, n)), e)
      == if e < n && acts[e] == Defer then 1 else 0
  {
    if n > 0 {
      var prev := DeferredUpTo(acts, hasIdleCallback, n - 1);
      var step := DeferStep(acts, hasIdleCallback, n - 1);
      TargetsAppend(prev, step);
      CountAppend(Targets(prev), Targets(step), e);
      CountSingle(n - 1, e);
      if acts[n - 1] == Defer {
        assert Targets(step) == [n - 1];
      } else {
        assert Targets(step) == [];
      }
      DeferredCount(acts, hasIdleCallback, n - 1, e);
    }
  }

  lemma {:induction false} NowCount(acts: seq<Action>, marker: seq<bool>, n: nat, e: nat)
    requires n <= |acts| <= |marker|
    ensures Count(NowUpTo(acts, marker, n), e)
      == if e < n && acts[e] == Now && marker[e] then 1 else 0
  {
    if n > 0 {
      var prev := NowUpTo(acts, marker, n - 1);
      var step := NowStep(acts, marker, n - 1);
      assert NowUpTo(acts, marker, n) == prev + step;
      CountAppend(prev, step, e);
      CountSingle(n - 1, e);
      if acts[n - 1] == Now && marker[n - 1] {
        assert step == [n - 1];
      } else {
        assert step == [];
      }
      NowCount(acts, marker, n - 1, e);
    }
  }

  lemma {:induction false} NowBelow(acts: seq<Action>, marker: seq<bool>, n: nat)
    requires n <= |acts| <= |marker|
    ensures forall k :: 0 <= k < |NowUpTo(acts, marker, n)| ==> NowUpTo(acts, marker, n)[k] < n
  {
    if n > 0 {
      NowBelow(acts, marker, n - 1);
    }
  }

  lemma {:induction false} DeferredBelow(acts: seq<Action>, hasIdleCallback: bool, n: nat)
    requires n <= |acts|
    ensures forall k :: 0 <= k < |DeferredUpTo(acts, hasIdleCallback, n)| ==>
      DeferredUpTo(acts, hasIdleCallback, n)[k].target < n
  {
    if n > 0 {
      DeferredBelow(acts, hasIdleCallback, n - 1);
    }
  }

  /** `e` repeated `n` times. */
  function Repeat(e: nat, n: nat): (r: seq<nat>)
    ensures |r| == n && forall k :: 0 <= k < n ==> r[k] == e
  {
    if n == 0 then [] else [e] + Repeat(e, n - 1)
  }

  /** The number of intersecting entries in an intersection callback. */
  function CountTrue(entries: seq<bool>): nat
  {
    if entries == [] then 0 else (if entries[0] then 1 else 0) + CountTrue(entries[1..])
  }

  lemma CountTrueSnoc(entries: seq<bool>, b: bool)
    ensures CountTrue(entries + [b]) == CountTrue(entries) + (if b then 1 else 0)
  {
    if entries != [] {
      assert (entries + [b])[1..] == entries[1..] + [b];
      CountTrueSnoc(entries[1..], b);
    }
  }

  /** Taking one callback out of the pending list takes one of its target
      out of the count. */
  lemma TargetsRemove(p: seq<Task>, k: nat, e: nat)
    requires k < |p|
    ensures Count(Targets(p), e) == Count(Targets(p[..k] + p[k + 1..]), e) + (if p[k].target == e then 1 else 0)
  {
    var a, b := p[..k], p[k + 1..];
    assert p == (a + [p[k]]) + b;
    TargetsAppend(a + [p[k]], b);
    TargetsAppend(a, [p[k]]);
    TargetsAppend(a, b);
    var ta, tb, t := Targets(a), Targets(b), p[k].target;
    assert Targets([p[k]]) == [t];
    assert Targets(p) == (ta + [t]) + tb;
    assert Targets(a + b) == ta + tb;
    CountAppend(ta + [t], tb, e);
    CountSnoc(ta, t, e);
    CountAppend(ta, tb, e);
  }

  lemma {:induction false} CountRepeat(xs: seq<nat>, e: nat, n: nat)
    ensures Count(xs + Repeat(e, n), e) == Count(xs, e) + n
  {
    if n == 0 {
      assert xs + Repeat(e, n) == xs;
    } else {
      RepeatSnoc(e, n - 1);
      assert xs + Repeat(e, n) == (xs + Repeat(e, n - 1)) + [e];
      CountSnoc(xs + Repeat(e, n - 1), e, e);
      CountRepeat(xs, e, n - 1);
    }
  }

  lemma RepeatSnoc(e: nat, n: nat)
    ensures Repeat(e, n + 1) == Repeat(e, n) + [e]
  {
  }

  /** The as-written intersection callback mounts once per intersecting
      entry: two intersecting entries for the element in one delivery mount
      it twice. */
  lemma TwoEntriesMountTwice(mounts: seq<nat>, e: nat)
    ensures Count(mounts + Repeat(e, CountTrue([true, true])), e) == Count(mounts, e) + 2
  {
    assert CountTrue([true, true]) == 2 by {
      assert [true, true][1..] == [true];
      assert [true][1..] == [];
    }
    CountRepeat(mounts, e, 2);
  }

  /** The elements an island's selector matched, their attributes, and what
      the scheduler has handed to the browser or mounted. */
  class Page {
    /** The parsed `data-props` of each matched element, in document order. */
    const props: seq<Props>
    /** `'requestIdleCallback' in window`. */
    const hasIdleCallback: bool
    /** `'IntersectionObserver' in window`. */
    const hasObserver: bool
    /** `el.hasAttribute('data-island')`, per element. */
    var marker: seq<bool>
    /** Whether the element still holds a `[placeholder]` child. */
    var placeholder: seq<bool>
    /** Idle callbacks and timeouts not yet fired. */
    var pending: seq<Task>
    /** Elements whose observer still observes them. */
    var observed: set<nat>
    /** The mounts `hydrateIsland` made, in order. */
    var mounts: seq<nat>
    /** Whether `handleIslandLoading` has run. */
    var started: bool

    ghost predicate Valid()
      reads this
    {
      && |marker| == |props| && |placeholder| == |props|
      && (forall k :: 0 <= k < |pending| ==> pending[k].target < |props|)
      && (forall e :: e in observed ==> e < |props|)
      && (forall k :: 0 <= k < |mounts| ==> mounts[k] < |props| && !placeholder[mounts[k]])
      && (!started ==> pending == [] && observed == {} && mounts == [])
    }

    /** How many hydrations of `e` are made or still possible. */
    ghost function Claims(e: nat): nat
      reads this
    {
      Count(mounts, e) + Count(Targets(pending), e) + (if e in observed then 1 else 0)
    }

    /** No element is mounted twice, nor left with a second way to be. */
    ghost predicate AtMostOnce()
      reads this
    {
      forall e: nat :: e < |props| ==> Claims(e) <= 1
    }

    constructor(props: seq<Props>, hasIdleCallback: bool, hasObserver: bool, marker: seq<bool>, placeholder: seq<bool>)
      requires |marker| == |props| && |placeholder| == |props|
      ensures Valid() && AtMostOnce() && !started
      ensures this.props == props && this.hasIdleCallback == hasIdleCallback && this.hasObserver == hasObserver
      ensures this.marker == marker && this.placeholder == placeholder
    {
      this.props := props;
      this.hasIdleCallback := hasIdleCallback;
      this.hasObserver := hasObserver;
      this.marker := marker;
      this.placeholder := placeholder;
      pending := [];
      observed := {};
      mounts := [];
      started := false;
    }

    /** `hydrateIsland(el)`: drop the placeholder, then mount. */
    method Hydrate(e: nat)
      requires Valid() && started && e < |props|
      modifies this
      ensures Valid()
      ensures mounts == old(mounts) + [e] && placeholder == old(placeholder)[e := false]
      ensures marker == old(marker) && pending == old(pending) && observed == old(observed) && started == old(started)
    {
      placeholder := placeholder[e := false];
      mounts := mounts + [e];
    }

    /** `hydrateThisIsland()`: nothing happens once the element has lost its
        `data-island` attribute. */
    method HydrateThis(e: nat)
      requires Valid() && started && e < |props|
      modifies this
      ensures Valid()
      ensures old(marker[e]) ==> mounts == old(mounts) + [e] && placeholder == old(placeholder)[e := false]
      ensures !old(marker[e]) ==> mounts == old(mounts) && placeholder == old(placeholder)
      ensures marker == old(marker) && pending == old(pending) && observed == old(observed) && started == old(started)
    {
      if !marker[e] {
        return;
      }
      Hydrate(e);
    }

    /** `handleIslandLoading()`: for each element in order, parse its props
        and hand it to an idle callback or timeout (`idle`), to an observer
        (`visible`, when observers exist) or mount it at once (`visible`
        without observers, `load`, anything else). A parse failure stops the
        scan at that element. */
    method HandleIslandLoading() returns (r: Outcome<nat>)
      requires Valid() && !started
      modifies this
      ensures Valid() && AtMostOnce() && started
      ensures r == match FirstMalformed(props, 0) case Some(i) => Fail(i) case None => Pass
      ensures pending == DeferredUpTo(Plan(props, hasObserver), hasIdleCallback, Reach(props))
      ensures observed == ObservedUpTo(Plan(props, hasObserver), Reach(props))
      ensures mounts == NowUpTo(Plan(props, hasObserver), old(marker), Reach(props))
      ensures marker == old(marker)
      ensures forall e :: 0 <= e < |props| ==> placeholder[e] == (old(placeholder)[e] && e !in mounts)
    {
      started := true;
      var i := 0;
      while i < |props|
        invariant Valid() && started && marker == old(marker)
        invariant i <= Reach(props)
        invariant pending == DeferredUpTo(Plan(props, hasObserver), hasIdleCallback, i)
        invariant observed == ObservedUpTo(Plan(props, hasObserver), i)
        invariant mounts == NowUpTo(Plan(props, hasObserver), old(marker), i)
        invariant forall e :: 0 <= e < |props| ==> placeholder[e] == (old(placeholder)[e] && e !in mounts)
      {
        if props[i].Malformed? {
          AllScheduledOnce(i, old(marker));
          r := Fail(i);
          return;
        }
        assert i < Reach(props);
        NowBelow(Plan(props, hasObserver), marker, i);
        ScanOne(i);
        i := i + 1;
      }
      AllScheduledOnce(i, old(marker));
      r := Pass;
    }

    /** The body of the scan for element `i`. */
    method ScanOne(i: nat)
      requires Valid() && started && i < |props| && props[i].Parsed?
      requires pending == DeferredUpTo(Plan(props, hasObserver), hasIdleCallback, i)
      requires observed == ObservedUpTo(Plan(props, hasObserver), i)
      requires mounts == NowUpTo(Plan(props, hasObserver), marker, i)
      modifies this
      ensures Valid() && started && marker == old(marker)
      ensures pending == DeferredUpTo(Plan(props, hasObserver), hasIdleCallback, i + 1)
      ensures observed == ObservedUpTo(Plan(props, hasObserver), i + 1)
      ensures mounts == NowUpTo(Plan(props, hasObserver), marker, i + 1)
      ensures mounts == old(mounts) + [i] ==> placeholder == old(placeholder)[i := false]
      ensures mounts == old(mounts) ==> placeholder == old(placeholder)
    {
      var s := StrategyOf(props[i].client);
      if s == Idle {
        if hasIdleCallback {
          pending := pending + [IdleCallback(i)];
        } else {
          pending := pending + [Timeout(i)];
        }
      } else if s == Visible {
        if hasObserver {
          observed := observed + {i};
        } else {
          HydrateThis(i);
        }
      } else {
        HydrateThis(i);
      }
    }

    /** Once the scan has handled `n` elements, none is claimed twice. */
    lemma AllScheduledOnce(n: nat, m: seq<bool>)
      requires Valid() && n <= |props| && |m| == |props|
      requires pending == DeferredUpTo(Plan(props, hasObserver), hasIdleCallback, n)
      requires observed == ObservedUpTo(Plan(props, hasObserver), n)
      requires mounts == NowUpTo(Plan(props, hasObserver), m, n)
      ensures AtMostOnce()
    {
      forall e: nat | e < |props|
        ensures Claims(e) <= 1
      {
        DeferredCount(Plan(props, hasObserver), hasIdleCallback, n, e);
        NowCount(Plan(props, hasObserver), m, n, e);
      }
    }

    /** The browser fires the pending idle callback or timeout `k`. */
    method RunTask(k: nat)
      requires Valid() && started && k < |pending|
      modifies this
      ensures Valid() && started
      ensures pending == old(pending[..k] + pending[k + 1..])
      ensures observed == old(observed) && marker == old(marker)
      ensures old(marker[pending[k].target]) ==>
        mounts == old(mounts + [pending[k].target]) && placeholder == old(placeholder[pending[k].target := false])
      ensures !old(marker[pending[k].target]) ==> mounts == old(mounts) && placeholder == old(placeholder)
      ensures forall e: nat :: Claims(e) <= old(Claims(e))
      ensures old(AtMostOnce()) ==> AtMostOnce()
    {
      var t := pending[k].target;
      pending := pending[..k] + pending[k + 1..];
      HydrateThis(t);
      forall x: nat
        ensures Claims(x) <= old(Claims(x))
      {
        TargetsRemove(old(pending), k, x);
        CountSnoc(old(mounts), t, x);
      }
    }

    /** The page drops the element's `data-island` attribute. */
    method RemoveMarker(e: nat)
      requires Valid() && e < |props|
      modifies this
      ensures Valid()
      ensures marker == old(marker)[e := false]
      ensures placeholder == old(placeholder) && pending == old(pending) && observed == old(observed)
      ensures mounts == old(mounts) && started == old(started)
    {
      marker := marker[e := false];
    }

    /** The observer's callback, as written: every intersecting entry
        hydrates the element, and only then is it unobserved. */
    method OnIntersection(e: nat, entries: seq<bool>)
      requires Valid() && started && e in observed
      modifies this
      ensures Valid()
      ensures observed == if CountTrue(entries) > 0 then old(observed) - {e} else old(observed)
      ensures mounts == old(mounts) + if old(marker[e]) then Repeat(e, CountTrue(entries)) else []
      ensures placeholder == if old(marker[e]) && CountTrue(entries) > 0 then old(placeholder)[e := false] else old(placeholder)
      ensures pending == old(pending) && marker == old(marker)
      ensures old(marker[e]) && CountTrue(entries) >= 2 ==> !AtMostOnce()
    {
      for j := 0 to |entries|
        invariant Valid() && started && marker == old(marker) && pending == old(pending)
        invariant observed == if CountTrue(entries[..j]) > 0 then old(observed) - {e} else old(observed)
        invariant mounts == old(mounts) + if old(marker[e]) then Repeat(e, CountTrue(entries[..j])) else []
        invariant placeholder == if old(marker[e]) && CountTrue(entries[..j]) > 0 then old(placeholder)[e := false] else old(placeholder)
      {
        assert entries[..j + 1] == entries[..j] + [entries[j]];
        CountTrueSnoc(entries[..j], entries[j]);
        RepeatSnoc(e, CountTrue(entries[..j]));
        if entries[j] {
          HydrateThis(e);
          observed := observed - {e};
        }
      }
      assert entries[..|entries|] == entries;
      if old(marker[e]) && CountTrue(entries) >= 2 {
        CountRepeat(old(mounts), e, CountTrue(entries));
        assert Claims(e) >= 2;
      }
    }

    /** The observer's callback, corrected: the element is hydrated at most
        once, by the first intersecting entry, which also unobserves it. */
    method OnIntersectionOnce(e: nat, entries: seq<bool>)
      requires Valid() && started && e in observed
      modifies this
      ensures Valid()
      ensures observed == if CountTrue(entries) > 0 then old(observed) - {e} else old(observed)
      ensures mounts == old(mounts) + if old(marker[e]) && CountTrue(entries) > 0 then [e] else []
      ensures placeholder == if old(marker[e]) && CountTrue(entries) > 0 then old(placeholder)[e := false] else old(placeholder)
      ensures pending == old(pending) && marker == old(marker)
      ensures forall x: nat :: Claims(x) <= old(Claims(x))
      ensures old(AtMostOnce()) ==> AtMostOnce()
    {
      for j := 0 to |entries|
        invariant Valid() && started && marker == old(marker) && pending == old(pending)
        invariant observed == if CountTrue(entries[..j]) > 0 then old(observed) - {e} else old(observed)
        invariant mounts == old(mounts) + if old(marker[e]) && CountTrue(entries[..j]) > 0 then [e] else []
        invariant placeholder == if old(marker[e]) && CountTrue(entries[..j]) > 0 then old(placeholder)[e := false] else old(placeholder)
      {
        assert entries[..j + 1] == entries[..j] + [entries[j]];
        CountTrueSnoc(entries[..j], entries[j]);
        if entries[j] && e in observed {
          HydrateThis(e);
          observed := observed - {e};
        }
      }
      assert entries[..|entries|] == entries;
    }
  }
}
