/**
 * `build_named_resolvers`: one forward pass over the build order, each resolver
 * taking its dependencies out of the registry filled so far.
 */
module Registry {
  import opened Text
  import opened ResolverConfig
  import BO = BuildOrder
  import D = Dependencies
  import DF = DepthFirst

  /** Where a plan sends the lookups of its own endpoint or ECH record. A spec
      that names no declared resolver builds a plan-less one. */
  datatype Via = Named(name: string) | Planless

  datatype Plan = Plan(bootstrap: Via, ech: Option<Via>)

  datatype PassError = NotFound(name: string, wanted: string) | BuildFailed(name: string)

  datatype PassResult = Ok(plans: map<string, Plan>) | Err(error: PassError)

  /** The registry key of a reference: the pass trims the spec before it strips
      the `@`, the build order does not. */
  function Key(spec: string): string
    requires IsResolverRef(spec)
  {
    Trim(spec)[1..]
  }

  function KeysOf(spec: Option<string>): set<string> {
    if spec.Some? && IsResolverRef(spec.value) then {Key(spec.value)} else {}
  }

  /** The registry keys a definition asks for. */
  function Wanted(def: ResolverDef): set<string> {
    KeysOf(def.bootstrap) + (if def.ech.Some? then KeysOf(def.ech.value) else {})
  }

  type Wants = map<string, set<string>>

  function WantsOf(cfg: Config): Wants {
    map n <- cfg :: Wanted(cfg[n])
  }

  /** Every key each resolver asks for belongs to one built earlier. */
  ghost predicate FoundFirst(wants: Wants, order: seq<string>) {
    forall k :: 0 <= k < |order| && order[k] in wants ==> wants[order[k]] <= Before(order, k)
  }

  ghost function Before<N>(order: seq<N>, k: int): set<N>
    requires 0 <= k <= |order|
  {
    set n <- order[..k]
  }

  lemma KeysGrow<N, V>(m: map<N, V>, order: seq<N>, k: int, v: V)
    requires 0 <= k < |order| && m.Keys == Before(order, k)
    ensures m[order[k] := v].Keys == Before(order, k + 1)
  {
  }

  lemma BeforeAll<N>(order: seq<N>)
    ensures forall n :: n in Before(order, |order|) <==> n in order
  {
  }

  /** No reference carries whitespace after its name. */
  predicate NoTrailingSpace(cfg: Config) {
    forall n <- cfg, s <- References(cfg[n]) :: TrimEnd(s) == s
  }

  lemma {:induction false} TrimEndKeepsHead(s: string)
    requires s != [] && s[0] == '@'
    ensures TrimEnd(s) != [] && TrimEnd(s)[0] == '@'
  {
    if IsWhitespace(s[|s| - 1]) {
      TrimEndKeepsHead(s[..|s| - 1]);
    }
  }

  /** A clean reference is looked up under the name the build order followed. */
  lemma CleanKey(refs: BO.References, n: string, spec: Option<string>)
    requires n in refs && BO.AllResolve(refs, n)
    requires spec.Some? && IsResolverRef(spec.value) ==> spec.value in refs[n] && TrimEnd(spec.value) == spec.value
    ensures forall w <- KeysOf(spec) :: DF.Edge(BO.Graph(refs), n, w)
  {
  }

  lemma CleanWants(refs: BO.References, n: string, def: ResolverDef)
    requires n in refs && refs[n] == Edges(def) && BO.AllResolve(refs, n)
    requires forall s <- References(def) :: TrimEnd(s) == s
    ensures forall w <- Wanted(def) :: DF.Edge(BO.Graph(refs), n, w)
  {
    SortDedupSorts(References(def));
    var ech := if def.ech.Some? then def.ech.value else None;
    assert def.bootstrap.Some? && IsResolverRef(def.bootstrap.value) ==> References(def)[0] == def.bootstrap.value;
    assert ech.Some? && IsResolverRef(ech.value) ==> References(def)[|References(def)| - 1] == ech.value;
    CleanKey(refs, n, def.bootstrap);
    CleanKey(refs, n, ech);
  }

  /** References without trailing whitespace are always found. */
  lemma CleanReferencesAreFound(cfg: Config, refs: BO.References, wants: Wants, order: seq<string>)
    requires refs == ReferencesOf(cfg) && wants == WantsOf(cfg)
    requires DF.IsBuildOrder(BO.Graph(refs), order)
    requires forall n <- cfg :: BO.AllResolve(refs, n)
    requires NoTrailingSpace(cfg)
    ensures FoundFirst(wants, order)
  {
    forall n | n in cfg ensures forall w <- wants[n] :: DF.Edge(BO.Graph(refs), n, w) {
      CleanWants(refs, n, cfg[n]);
    }
  }

  lemma {:induction false} TrimEndTwice(s: string)
    ensures TrimEnd(TrimEnd(s)) == TrimEnd(s)
  {
    if s != [] && IsWhitespace(s[|s| - 1]) {
      TrimEndTwice(s[..|s| - 1]);
    }
  }

  lemma KeysOfReferences(def: ResolverDef)
    ensures Wanted(def) == set s <- References(def) | IsResolverRef(s) :: Key(s)
    ensures forall s <- References(def) :: IsResolverRef(s)
  {
  }

  lemma KeyIsTrimmed(refs: BO.References, s: string)
    requires BO.Resolves(refs, s) && IsResolverRef(s)
    ensures ['@'] + Key(s) == TrimEnd(s)
  {
  }

  lemma WhatTheOrderFollows(refs: BO.References, n: string, def: ResolverDef)
    requires n in refs && refs[n] == Edges(def) && BO.AllResolve(refs, n)
    ensures forall s <- References(def) :: BO.Resolves(refs, s)
    ensures BO.Graph(refs)[n] == set s <- References(def) | BO.Resolves(refs, s) :: s[1..]
  {
    SortDedupSorts(References(def));
    hide Edges, References, SortDedup;
    assert forall e :: e in refs[n] <==> e in References(def);
    forall s | s in References(def) ensures BO.Resolves(refs, s) {
      var i :| 0 <= i < |refs[n]| && refs[n][i] == s;
    }
  }

  /**
   * A resolver's plan reaches the resolvers the build order followed for it if and
   * only if none of its references carries trailing whitespace. Otherwise the pass
   * either misses a dependency or silently takes another resolver.
   */
  lemma PlansFollowReferencesExactly(refs: BO.References, n: string, def: ResolverDef)
    requires n in refs && refs[n] == Edges(def) && BO.AllResolve(refs, n)
    ensures Wanted(def) == BO.Graph(refs)[n] <==> forall s <- References(def) :: TrimEnd(s) == s
  {
    KeysOfReferences(def);
    WhatTheOrderFollows(refs, n, def);
    hide Wanted, References, Edges, BO.Graph, IsResolverRef, Key;
    forall s | s in References(def) ensures ['@'] + Key(s) == TrimEnd(s) && ['@'] + s[1..] == s {
      KeyIsTrimmed(refs, s);
    }
    if Wanted(def) == BO.Graph(refs)[n] {
      forall s | s in References(def) ensures TrimEnd(s) == s {
        assert s[1..] in Wanted(def);
        var t :| t in References(def) && Key(t) == s[1..];
        TrimEndTwice(t);
      }
    }
    if forall s <- References(def) :: TrimEnd(s) == s {
      forall s | s in References(def) ensures Key(s) == s[1..] {
        assert (['@'] + Key(s))[1..] == s[1..];
      }
    }
  }

  /** Every key a resolver asks for is something it depends on, directly or not. */
  ghost predicate KeysAreDependencies(cfg: Config, g: DF.Graph<string>) {
    forall n, w :: n in cfg && w in Wanted(cfg[n]) ==> D.DependsOn(g, n, w)
  }

  /**
   * Exactly when the pass misses nothing: whatever build order it follows, every
   * registry lookup succeeds if and only if the key of each reference names a
   * resolver the referring one depends on.
   */
  lemma NeverMissedExactly(cfg: Config, order: seq<string>)
    requires DF.IsBuildOrder(BO.Graph(ReferencesOf(cfg)), order)
    ensures var g := BO.Graph(ReferencesOf(cfg));
      (forall o :: DF.IsBuildOrder(g, o) ==> FoundFirst(WantsOf(cfg), o)) <==> KeysAreDependencies(cfg, g)
  {
    var refs, wants := ReferencesOf(cfg), WantsOf(cfg);
    var g := BO.Graph(refs);
    assert g.Keys == cfg.Keys == wants.Keys;
    assert forall n <- cfg :: wants[n] == Wanted(cfg[n]);
    hide WantsOf, ReferencesOf, BO.Graph, Wanted;
    NeverMissed(cfg, g, wants, order);
  }

  lemma NeverMissed(cfg: Config, g: DF.Graph<string>, wants: Wants, order: seq<string>)
    requires DF.IsBuildOrder(g, order) && g.Keys == cfg.Keys == wants.Keys
    requires forall n <- cfg :: wants[n] == Wanted(cfg[n])
    ensures (forall o :: DF.IsBuildOrder(g, o) ==> FoundFirst(wants, o)) <==> KeysAreDependencies(cfg, g)
  {
    hide Wanted, DF.IsBuildOrder, D.DependsOn;
    if KeysAreDependencies(cfg, g) {
      forall o, k, w | DF.IsBuildOrder(g, o) && 0 <= k < |o| && o[k] in wants && w in wants[o[k]]
        ensures w in Before(o, k)
      {
        D.AlwaysFirstExactly(g, o, o[k], w);
        assert D.StandsFirst(o, o[k], w);
      }
    }
    if forall o :: DF.IsBuildOrder(g, o) ==> FoundFirst(wants, o) {
      forall n, w | n in cfg && w in Wanted(cfg[n]) ensures D.DependsOn(g, n, w) {
        forall o | DF.IsBuildOrder(g, o) ensures D.StandsFirst(o, n, w) {
          assert FoundFirst(wants, o);
        }
        D.AlwaysFirstExactly(g, order, n, w);
      }
    }
  }

  lemma SingleReference(def: ResolverDef, spec: string)
    requires def == ResolverDef(Some(spec), None) && IsResolverRef(spec)
    ensures Edges(def) == [spec] && Wanted(def) == {Key(spec)}
  {
  }

  /** A name as it is usually written: nothing to trim. */
  predicate Tidy(name: string) {
    name != [] && TrimEnd(['@'] + name) == ['@'] + name
  }

  /** `c` is `b` and a space; `a` refers to `c`, and `b` refers to `a`. */
  ghost predicate Spaced(cfg: Config, a: string, b: string, c: string) {
    && Tidy(a) && Tidy(b) && a != b && a != c && c == b + [' ']
    && cfg.Keys == {a, b, c}
    && cfg[a] == ResolverDef(Some(['@'] + c), None)
    && cfg[b] == ResolverDef(Some(['@'] + a), None)
    && cfg[c] == ResolverDef(None, None)
  }

  lemma SpacedReferences(a: string, b: string, c: string)
    requires Tidy(a) && Tidy(b) && c == b + [' ']
    ensures b != c
    ensures IsResolverRef(['@'] + c) && Key(['@'] + c) == b && IsResolverRef(['@'] + a) && Key(['@'] + a) == a
  {
    var s := ['@'] + c;
    assert s[..|s| - 1] == ['@'] + b;
    assert TrimEnd(s) == ['@'] + b;
    assert TrimStart(s) == s && TrimStart(['@'] + a) == ['@'] + a;
  }

  lemma ThreeEntries<V>(m: map<string, V>, a: string, b: string, c: string, x: V, y: V, z: V)
    requires m.Keys == {a, b, c} && a != b && a != c && b != c
    requires m[a] == x && m[b] == y && m[c] == z
    ensures m == map[a := x, b := y, c := z]
  {
  }

  lemma SpacedTables(cfg: Config, a: string, b: string, c: string, refs: BO.References, wants: Wants)
    requires Spaced(cfg, a, b, c) && b != c
    requires refs.Keys == wants.Keys == cfg.Keys
    requires refs[a] == Edges(cfg[a]) && refs[b] == Edges(cfg[b]) && refs[c] == Edges(cfg[c])
    requires wants[a] == Wanted(cfg[a]) && wants[b] == Wanted(cfg[b]) && wants[c] == Wanted(cfg[c])
    requires IsResolverRef(['@'] + c) && Key(['@'] + c) == b && IsResolverRef(['@'] + a) && Key(['@'] + a) == a
    ensures refs == map[a := [['@'] + c], b := [['@'] + a], c := []]
    ensures wants == map[a := {b}, b := {a}, c := {}]
  {
    SingleReference(cfg[a], ['@'] + c);
    SingleReference(cfg[b], ['@'] + a);
    assert Edges(cfg[c]) == [] && Wanted(cfg[c]) == {};
    ThreeEntries(refs, a, b, c, [['@'] + c], [['@'] + a], []);
    ThreeEntries(wants, a, b, c, {b}, {a}, {});
  }

  lemma SpacedGraph(refs: BO.References, a: string, b: string, c: string)
    requires a != b && a != c && b != c
    requires refs == map[a := [['@'] + c], b := [['@'] + a], c := []]
    ensures forall n <- refs :: BO.AllResolve(refs, n)
    ensures BO.Graph(refs) == map[a := {c}, b := {a}, c := {}]
  {
    assert (['@'] + c)[1..] == c && (['@'] + a)[1..] == a;
    assert ['@'] + c in refs[a] && ['@'] + a in refs[b];
    assert BO.Resolves(refs, ['@'] + c) && BO.Resolves(refs, ['@'] + a);
    var g := BO.Graph(refs);
    assert g[a] == {c};
    assert g[b] == {a};
    assert g[c] == {};
  }

  lemma SpacedOrders(g: DF.Graph<string>, wants: Wants, a: string, b: string, c: string)
    requires a != b && a != c && b != c
    requires g == map[a := {c}, b := {a}, c := {}] && a in wants && wants[a] == {b}
    ensures DF.IsBuildOrder(g, [c, a, b])
    ensures forall order :: DF.IsBuildOrder(g, order) ==> !FoundFirst(wants, order)
  {
    var found := [c, a, b];
    assert found[..1] == [c] && found[..2] == [c, a];
    assert DF.DependenciesFirst(g, found);
    forall order | DF.IsBuildOrder(g, order) ensures !FoundFirst(wants, order) {
      assert a in order;
      var k :| 0 <= k < |order| && order[k] == a;
      if FoundFirst(wants, order) {
        assert b in wants[order[k]];
        var j :| 0 <= j < k && order[j] == b;
        assert DF.Edge(g, order[j], a);
        assert false;
      }
    }
  }

  lemma SpacedMeaning(cfg: Config, a: string, b: string, c: string)
    requires Spaced(cfg, a, b, c)
    ensures b != c
    ensures ReferencesOf(cfg) == map[a := [['@'] + c], b := [['@'] + a], c := []]
    ensures WantsOf(cfg) == map[a := {b}, b := {a}, c := {}]
  {
    SpacedReferences(a, b, c);
    SpacedTables(cfg, a, b, c, ReferencesOf(cfg), WantsOf(cfg));
  }

  /** The load-time checks accept such a configuration: every reference resolves,
      trimmed and as written, and no resolver refers to itself. */
  lemma TrailingSpaceLoads(cfg: Config, a: string, b: string, c: string)
    requires Spaced(cfg, a, b, c)
    ensures forall n <- cfg :: BO.AllResolve(ReferencesOf(cfg), n)
    ensures forall n <- cfg :: WantsOf(cfg)[n] <= cfg.Keys && !DF.Edge(BO.Graph(ReferencesOf(cfg)), n, n)
  {
    SpacedMeaning(cfg, a, b, c);
    SpacedGraph(ReferencesOf(cfg), a, b, c);
  }

  /**
   * With trailing whitespace the pass can miss a dependency. The build order
   * follows the reference to the resolver whose name ends in a space, the pass
   * asks the registry for the name without it, and no build order has that one
   * before `a`.
   */
  lemma TrailingSpaceMissesADependency(cfg: Config, a: string, b: string, c: string)
    requires Spaced(cfg, a, b, c)
    ensures DF.IsBuildOrder(BO.Graph(ReferencesOf(cfg)), [c, a, b])
    ensures forall order ::
      DF.IsBuildOrder(BO.Graph(ReferencesOf(cfg)), order) ==> !FoundFirst(WantsOf(cfg), order)
  {
    SpacedMeaning(cfg, a, b, c);
    var g := BO.Graph(ReferencesOf(cfg));
    SpacedGraph(ReferencesOf(cfg), a, b, c);
    SpacedOrders(g, WantsOf(cfg), a, b, c);
  }

  /** Look one optional spec up, as both the bootstrap and the ECH resolver are. */
  method LookUp(spec: Option<string>, registry: set<string>)
    returns (via: Option<Via>, missing: string)
    ensures via.None? <==> spec.Some? && IsResolverRef(spec.value) && Key(spec.value) !in registry
    ensures via.None? ==> missing == Key(spec.value)
    ensures via.Some? ==>
      via.value == (if spec.Some? && IsResolverRef(spec.value) then Named(Key(spec.value)) else Planless)
  {
    missing := "";
    if spec.Some? && IsResolverRef(spec.value) {
      var key := Key(spec.value);
      if key in registry {
        via := Some(Named(key));
      } else {
        via, missing := None, key;
      }
    } else {
      via := Some(Planless);
    }
  }

  /** The resolvers a plan reaches through the registry. */
  function Reaches(p: Plan): set<string> {
    (if p.bootstrap.Named? then {p.bootstrap.name} else {})
    + (if p.ech.Some? && p.ech.value.Named? then {p.ech.value.name} else {})
  }

  /** The plan of one definition, or the first key the registry does not hold. */
  method PlanFor(def: ResolverDef, ghost wanted: set<string>, registry: set<string>)
    returns (plan: Option<Plan>, missing: string)
    requires wanted == Wanted(def)
    ensures plan.Some? <==> wanted <= registry
    ensures plan.Some? ==> Reaches(plan.value) == wanted
    ensures plan.None? ==> missing in wanted && missing !in registry
  {
    var bootstrap, ech;
    bootstrap, missing := LookUp(def.bootstrap, registry);
    if bootstrap.None? {
      return None, missing;
    }
    if def.ech.None? {
      return Some(Plan(bootstrap.value, None)), missing;
    }
    ech, missing := LookUp(def.ech.value, registry);
    if ech.None? {
      return None, missing;
    }
    return Some(Plan(bootstrap.value, ech)), missing;
  }

  /**
   * Build every declared resolver in one pass. `buildable` says which builds
   * succeed; everything else is decided here.
   */
  method BuildNamedResolvers(cfg: Config, order: seq<string>, buildable: set<string>)
    returns (r: PassResult)
    requires forall n :: n in order <==> n in cfg
    ensures r.Ok? ==> r.plans.Keys == cfg.Keys
    ensures r.Ok? ==> forall n <- cfg :: Reaches(r.plans[n]) == WantsOf(cfg)[n]
    ensures r.Ok? <==> FoundFirst(WantsOf(cfg), order) && cfg.Keys <= buildable
    ensures r.Err? && r.error.BuildFailed? ==> r.error.name in cfg && r.error.name !in buildable
    ensures r.Err? && r.error.NotFound? ==> r.error.name in cfg && r.error.wanted in WantsOf(cfg)[r.error.name]
  {
    r := Pass(cfg, order, buildable, WantsOf(cfg));
  }

  method Pass(cfg: Config, order: seq<string>, buildable: set<string>, ghost wants: Wants)
    returns (r: PassResult)
    requires forall n :: n in order <==> n in cfg
    requires wants.Keys == cfg.Keys && forall n <- cfg :: wants[n] == Wanted(cfg[n])
    ensures r.Ok? ==> r.plans.Keys == cfg.Keys && forall n <- cfg :: Reaches(r.plans[n]) == wants[n]
    ensures r.Ok? <==> FoundFirst(wants, order) && cfg.Keys <= buildable
    ensures r.Err? && r.error.BuildFailed? ==> r.error.name in cfg && r.error.name !in buildable
    ensures r.Err? && r.error.NotFound? ==> r.error.name in cfg && r.error.wanted in wants[r.error.name]
  {
    hide Wanted, Reaches;
    var plans: map<string, Plan> := map[];
    for i := 0 to |order|
      invariant plans.Keys == Before(order, i)
      invariant forall n <- plans :: n in buildable && n in wants && Reaches(plans[n]) == wants[n]
      invariant forall k :: 0 <= k < i ==> order[k] in wants && wants[order[k]] <= Before(order, k)
    {
      var name := order[i];
      assert name in order;
      var plan, missing := PlanFor(cfg[name], wants[name], plans.Keys);
      if plan.None? {
        assert !(wants[order[i]] <= Before(order, i));
        return Err(NotFound(name, missing));
      }
      if name !in buildable {
        return Err(BuildFailed(name));
      }
      KeysGrow(plans, order, i, plan.value);
      plans := plans[name := plan.value];
    }
    BeforeAll(order);
    r := Ok(plans);
  }
}
