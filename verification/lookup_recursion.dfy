/**
 * The mutually recursive call graph at run time: a lookup may rebuild its
 * resolver, a rebuild resolves its endpoint and looks up its ECH config through
 * other resolvers, and their lookups may rebuild in turn.
 */
module LookupRecursion {
  import opened Collections
  import opened Text
  import R = Registry
  import C = ResolverConfig
  import BO = BuildOrder
  import DF = DepthFirst

  datatype Outcome = Answer | EchRejected | Failed

  /** What the recursion depends on. `dials` holds the resolvers whose endpoint
      needs its bootstrap, `fetches` those whose ECH source is a lookup, and
      `retries` the reactive budget of each resolver that uses ECH. */
  datatype World = World(
    plans: map<string, R.Plan>,
    order: seq<string>,
    dials: set<string>,
    fetches: set<string>,
    retries: map<string, nat>)

  /** Every resolver a plan reaches was built before it. */
  ghost predicate Layered(w: World) {
    && NoDuplicates(w.order)
    && (forall n :: n in w.order <==> n in w.plans)
    && forall k :: 0 <= k < |w.order| ==> R.Reaches(w.plans[w.order[k]]) <= R.Before(w.order, k)
  }

  function Rank(order: seq<string>, n: string): (k: nat)
    requires n in order
    ensures k < |order| && order[k] == n
  {
    if order[0] == n then 0 else 1 + Rank(order[1..], n)
  }

  /** What a successful build pass leaves behind is layered. */
  lemma BuildPassIsLayered(
    cfg: C.Config, refs: BO.References, w: World)
    requires DF.IsBuildOrder(BO.Graph(refs), w.order) && refs.Keys == cfg.Keys
    requires w.plans.Keys == cfg.Keys && R.FoundFirst(R.WantsOf(cfg), w.order)
    requires forall n <- cfg :: R.Reaches(w.plans[n]) == R.WantsOf(cfg)[n]
    ensures Layered(w)
  {
    hide R.Wanted, R.Reaches, R.Before, BO.Graph, DF.IsBuildOrder;
    OrdersNameAll(refs, w.order);
    forall k | 0 <= k < |w.order| ensures R.Reaches(w.plans[w.order[k]]) <= R.Before(w.order, k) {
      assert w.order[k] in w.order;
    }
  }

  lemma OrdersNameAll(refs: BO.References, order: seq<string>)
    requires DF.IsBuildOrder(BO.Graph(refs), order)
    ensures NoDuplicates(order) && forall n :: n in order <==> n in refs
  {
    hide DF.DependenciesFirst;
  }

  /** The reactive retry budget: none without ECH. */
  function Budget(w: World, n: string): nat
    requires n in w.plans
  {
    if w.plans[n].ech.Some? && n in w.retries then w.retries[n] else 0
  }

  ghost predicate Usable(w: World, via: R.Via) {
    via.Named? ==> via.name in w.plans
  }

  ghost function Height(w: World, via: R.Via): nat
    requires Layered(w) && Usable(w, via)
  {
    if via.Named? then 1 + Rank(w.order, via.name) else 0
  }

  /** The most queries one lookup through `via` can send, rebuilds included. */
  ghost function MaxQueries(w: World, via: R.Via): nat
    requires Layered(w) && Usable(w, via)
    decreases Height(w, via), 1
  {
    if via.Planless? then 1
    else
      Retried(Budget(w, via.name), MaxRebuild(w, via.name))
  }

  /** One query each for the first attempt and every retry, and the rebuilds between. */
  function Retried(retries: nat, rebuild: nat): nat {
    retries + 1 + retries * rebuild
  }

  ghost function MaxRebuild(w: World, n: string): nat
    requires Layered(w) && n in w.plans
    decreases 1 + Rank(w.order, n), 0
  {
    ViasRankLower(w, n);
    var p := w.plans[n];
    (if n in w.dials then MaxQueries(w, p.bootstrap) else 0)
    + (if n in w.fetches && p.ech.Some? then MaxQueries(w, p.ech.value) else 0)
  }

  lemma ViasRankLower(w: World, n: string)
    requires Layered(w) && n in w.plans
    ensures var p := w.plans[n];
      && Usable(w, p.bootstrap) && Height(w, p.bootstrap) < 1 + Rank(w.order, n)
      && (p.ech.Some? ==> Usable(w, p.ech.value) && Height(w, p.ech.value) < 1 + Rank(w.order, n))
  {
  }

  /**
   * Look a name up through `via`, rebuilding and retrying on an ECH rejection.
   * The `i`-th query of the whole computation has the outcome `net(i)`, and
   * `moved(i)` says whether another task has rebuilt in the meantime. `sent`
   * counts queries. It terminates, within a bound known before it starts.
   */
  method LookUp(w: World, via: R.Via, net: nat -> Outcome, moved: nat -> bool, start: nat)
    returns (ok: bool, sent: nat)
    requires Layered(w) && Usable(w, via)
    ensures start < sent <= start + MaxQueries(w, via)
    ensures ok <==> net(sent - 1) == Answer
    ensures !ok && net(sent - 1) == EchRejected && via.Named? ==> sent - start > Budget(w, via.name)
    decreases Height(w, via), 2
  {
    hide Layered, R.Reaches, R.Before, MaxRebuild, Rank;
    sent := start;
    if via.Planless? {
      return net(sent) == Answer, sent + 1;
    }
    ghost var cost := MaxRebuild(w, via.name);
    var attempt := 0;
    while true
      invariant attempt <= Budget(w, via.name)
      invariant start + attempt <= sent <= start + attempt + attempt * cost
      decreases Budget(w, via.name) - attempt
    {
      var outcome := net(sent);
      sent := sent + 1;
      if outcome != EchRejected || attempt >= Budget(w, via.name) {
        MoreAttemptsCostMore(attempt, Budget(w, via.name), cost);
        return outcome == Answer, sent;
      }
      if !moved(sent) {
        sent := Rebuild(w, via.name, net, moved, sent);
      }
      attempt := attempt + 1;
      assert attempt * cost == (attempt - 1) * cost + cost;
    }
  }

  lemma MoreAttemptsCostMore(a: nat, b: nat, cost: nat)
    requires a <= b
    ensures a * cost <= b * cost
  {
  }

  /** Resolve the dial host through the bootstrap, then fetch the ECHConfig; a
      failed bootstrap ends the build. */
  method Rebuild(w: World, n: string, net: nat -> Outcome, moved: nat -> bool, start: nat)
    returns (sent: nat)
    requires Layered(w) && n in w.plans
    ensures start <= sent <= start + MaxRebuild(w, n)
    decreases 1 + Rank(w.order, n), 1
  {
    hide Layered, R.Reaches, R.Before, MaxQueries, Rank;
    ViasRankLower(w, n);
    sent := start;
    var p := w.plans[n];
    if n in w.dials {
      var ok;
      ok, sent := LookUp(w, p.bootstrap, net, moved, sent);
      if !ok {
        return;
      }
    }
    if n in w.fetches && p.ech.Some? {
      var _, after := LookUp(w, p.ech.value, net, moved, sent);
      sent := after;
    }
  }
}
