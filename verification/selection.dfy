/**
 * Publishing a ranking and picking from it: `publish`, `choose_with` and
 * `Pool::pick`, with picks running concurrently on immutable snapshots that
 * share one atomic incumbent each.
 */
module Selection {
  import opened Collections
  import opened Text
  import opened Net
  import H = Hysteresis

  // ---------------------------------------------------------------------
  // Choosing
  // ---------------------------------------------------------------------

  /** The first index with the least draw. */
  function Least(draws: seq<real>): (k: nat)
    requires draws != []
    ensures k < |draws|
    ensures forall i :: 0 <= i < |draws| ==> draws[k] <= draws[i]
    ensures forall i :: 0 <= i < k ==> draws[k] < draws[i]
  {
    var last := |draws| - 1;
    if last == 0 then 0
    else
      var k := Least(draws[..last]);
      assert forall i :: 0 <= i < last ==> draws[..last][i] == draws[i];
      if draws[last] < draws[k] then last else k
  }

  /** The index chosen when `previous` holds the place. */
  function Chosen(draws: seq<real>, previous: nat): (k: nat)
    requires previous < |draws|
    ensures k < |draws|
  {
    var best := Least(draws);
    if best == previous || H.Beats(draws[best], draws[previous]) then best else previous
  }

  /** No candidate beats the chosen one under the same draws, and the incumbent
      gives way only to one that beats it and is the best of all. */
  lemma NothingBeatsTheChosen(draws: seq<real>, previous: nat)
    requires previous < |draws|
    ensures var k := Chosen(draws, previous);
      && (forall i :: 0 <= i < |draws| ==> !H.Beats(draws[i], draws[k]))
      && (k != previous ==> H.Beats(draws[k], draws[previous]))
      && (k != previous ==> forall i :: 0 <= i < |draws| ==> draws[k] <= draws[i])
  {
  }

  datatype SelectionModel = SelectionModel(addr: IpAddr, rtt: real, throughput: real)

  /** One view's finished answer. Only the incumbent changes after publication. */
  class ViewRanking {
    const ordered: seq<SelectionModel>
    const fallback: Option<IpAddr>
    var incumbent: nat

    constructor (ordered: seq<SelectionModel>, fallback: Option<IpAddr>, incumbent: nat)
      ensures this.ordered == ordered && this.fallback == fallback && this.incumbent == incumbent
    {
      this.ordered, this.fallback, this.incumbent := ordered, fallback, incumbent;
    }

    /** One draw per model decides; the incumbent is the stored index clamped to the list. */
    method ChooseWith(draws: seq<real>) returns (r: Option<IpAddr>)
      requires |draws| == |ordered|
      modifies this`incumbent
      ensures ordered == [] ==> r == None && incumbent == old(incumbent)
      ensures ordered != [] ==>
        var previous := if old(incumbent) < |ordered| then old(incumbent) else |ordered| - 1;
        incumbent == Chosen(draws, previous) && r == Some(ordered[incumbent].addr)
    {
      if ordered == [] {
        return None;
      }
      var previous := if incumbent < |ordered| then incumbent else |ordered| - 1;
      var best := 0;
      for i := 0 to |ordered|
        invariant best <= i && best < |ordered|
        invariant i > 0 ==> best == Least(draws[..i])
      {
        assert draws[..i + 1][..i] == draws[..i];
        if i == 0 || draws[i] < draws[best] {
          best := i;
        }
      }
      assert draws[..|draws|] == draws;
      incumbent := if best == previous || H.Beats(draws[best], draws[previous]) then best else previous;
      return Some(ordered[incumbent].addr);
    }

    /** The address to dial: the first of the list without a payload size to weigh
        transfers by, the chosen one with it, the fallback only when the list is empty. */
    method Pick(payload: nat, draws: seq<real>) returns (r: Option<IpAddr>)
      requires |draws| == |ordered|
      modifies this`incumbent
      ensures ordered == [] ==> r == fallback
      ensures ordered != [] && payload == 0 ==> r == Some(ordered[0].addr) && incumbent == old(incumbent)
      ensures ordered != [] && payload != 0 ==>
        && incumbent < |ordered| && r == Some(ordered[incumbent].addr)
        && forall i :: 0 <= i < |draws| ==> !H.Beats(draws[i], draws[incumbent])
    {
      if payload == 0 {
        r := if ordered == [] then None else Some(ordered[0].addr);
      } else {
        r := ChooseWith(draws);
        if ordered != [] {
          NothingBeatsTheChosen(draws, if old(incumbent) < |ordered| then old(incumbent) else |ordered| - 1);
        }
      }
      if r.None? {
        r := fallback;
      }
    }
  }

  // ---------------------------------------------------------------------
  // Publishing
  // ---------------------------------------------------------------------

  datatype Selector = Index(target: nat) | Tag(tag: string)

  /** Without selectors every candidate matches. */
  predicate Matches(c: Candidate, selectors: seq<Selector>) {
    selectors == [] || exists s <- selectors :: match s
      case Index(i) => i == c.target
      case Tag(t) => t in c.tags
  }

  function Eligible(candidates: seq<Candidate>, selectors: seq<Selector>): set<IpAddr> {
    set c <- candidates | Matches(c, selectors) :: c.addr
  }

  /** What publication reads of one endpoint's health. */
  datatype Endpoint = Endpoint(degraded: bool, rtt: Option<real>, throughput: real)

  /** A model per endpoint that is measured and not degraded. */
  function Models(health: map<IpAddr, Endpoint>): map<IpAddr, SelectionModel> {
    map a <- health | !health[a].degraded && health[a].rtt.Some? ::
      SelectionModel(a, health[a].rtt.value, health[a].throughput)
  }

  function Published(
    order: seq<IpAddr>, eligible: set<IpAddr>, models: map<IpAddr, SelectionModel>): seq<SelectionModel>
  {
    if order == [] then []
    else
      (if order[0] in eligible && order[0] in models then [models[order[0]]] else [])
      + Published(order[1..], eligible, models)
  }

  function Addresses(models: seq<SelectionModel>): (r: seq<IpAddr>)
    ensures |r| == |models|
  {
    seq(|models|, i requires 0 <= i < |models| => models[i].addr)
  }

  predicate OwnAddresses(models: map<IpAddr, SelectionModel>) {
    forall a <- models :: models[a].addr == a
  }

  /** The published list is the global order with everything ineligible left out. */
  lemma {:induction false} PublishedIsTheFilteredOrder(
    order: seq<IpAddr>, eligible: set<IpAddr>, models: map<IpAddr, SelectionModel>)
    requires OwnAddresses(models) && NoDuplicates(order)
    ensures var published := Published(order, eligible, models);
      && NoDuplicates(Addresses(published))
      && (forall m <- published :: m.addr in models && m == models[m.addr])
      && (forall a :: a in Addresses(published) <==> a in order && a in eligible && a in models)
  {
    if order != [] {
      PublishedIsTheFilteredOrder(order[1..], eligible, models);
      var rest := Published(order[1..], eligible, models);
      assert order == [order[0]] + order[1..];
      if order[0] in eligible && order[0] in models {
        assert Addresses(Published(order, eligible, models)) == [order[0]] + Addresses(rest);
      } else {
        assert Published(order, eligible, models) == rest;
      }
    }
  }

  lemma {:induction false} PublishedKeepsTheOrder(
    order: seq<IpAddr>, eligible: set<IpAddr>, models: map<IpAddr, SelectionModel>, i: nat, j: nat)
    requires OwnAddresses(models) && NoDuplicates(order) && i < j < |order|
    requires {order[i], order[j]} <= eligible * models.Keys
    ensures Precedes(Addresses(Published(order, eligible, models)), order[i], order[j])
  {
    var all := Addresses(Published(order, eligible, models));
    var rest := Addresses(Published(order[1..], eligible, models));
    assert order[0] in eligible * models.Keys ==> all == [order[0]] + rest;
    if i == 0 {
      PublishedIsTheFilteredOrder(order[1..], eligible, models);
      assert order[1..][j - 1] in rest;
      var k :| 0 <= k < |rest| && rest[k] == order[j];
      assert all[0] == order[0] && all[k + 1] == order[j];
    } else {
      PublishedKeepsTheOrder(order[1..], eligible, models, i - 1, j - 1);
      var x, y :| 0 <= x < y < |rest| && rest[x] == order[i] && rest[y] == order[j];
      var off := |all| - |rest|;
      assert all == rest || off == 1;
      assert all[x + off] == order[i] && all[y + off] == order[j];
    }
  }

  /** The first position of an address, if it is listed. */
  function PositionOf(ordered: seq<SelectionModel>, a: IpAddr): (r: Option<nat>)
    ensures r.Some? ==> r.value < |ordered| && ordered[r.value].addr == a
    ensures r.None? ==> a !in Addresses(ordered)
  {
    if ordered == [] then None
    else if ordered[0].addr == a then Some(0)
    else
      match PositionOf(ordered[1..], a)
      case Some(k) => Some(k + 1)
      case None => assert Addresses(ordered) == [ordered[0].addr] + Addresses(ordered[1..]); None
  }

  /** The incumbent index of a new snapshot: the old incumbent's new position. */
  function CarriedIncumbent(former: seq<SelectionModel>, incumbent: nat, ordered: seq<SelectionModel>): nat {
    if incumbent >= |former| then 0
    else
      match PositionOf(ordered, former[incumbent].addr)
      case Some(k) => k
      case None => 0
  }

  /** Candidate `i` is the first of the target that the selectors match. */
  ghost predicate IsFirstFor(candidates: seq<Candidate>, i: int, target: nat, selectors: seq<Selector>) {
    && 0 <= i < |candidates| && candidates[i].target == target && Matches(candidates[i], selectors)
    && forall j :: 0 <= j < i ==> candidates[j].target != target || !Matches(candidates[j], selectors)
  }

  lemma FirstForShifts(candidates: seq<Candidate>, i: int, target: nat, selectors: seq<Selector>)
    requires candidates != [] && !(candidates[0].target == target && Matches(candidates[0], selectors))
    requires IsFirstFor(candidates[1..], i, target, selectors)
    ensures IsFirstFor(candidates, i + 1, target, selectors) && candidates[i + 1] == candidates[1..][i]
  {
  }

  /** The fallback of a view: the first candidate of the configured target that the
      view selects, whatever its health. */
  function FallbackOf(candidates: seq<Candidate>, target: nat, selectors: seq<Selector>): (r: Option<IpAddr>)
    ensures r.Some? <==> exists c <- candidates :: c.target == target && Matches(c, selectors)
    ensures r.Some? ==> exists i :: IsFirstFor(candidates, i, target, selectors) && candidates[i].addr == r.value
  {
    if candidates == [] then None
    else if candidates[0].target == target && Matches(candidates[0], selectors) then
      assert IsFirstFor(candidates, 0, target, selectors);
      Some(candidates[0].addr)
    else
      assert candidates == [candidates[0]] + candidates[1..];
      assert forall i :: IsFirstFor(candidates[1..], i, target, selectors) ==>
        IsFirstFor(candidates, i + 1, target, selectors) && candidates[i + 1] == candidates[1..][i] by {
        forall i | IsFirstFor(candidates[1..], i, target, selectors)
          ensures IsFirstFor(candidates, i + 1, target, selectors) && candidates[i + 1] == candidates[1..][i]
        {
          FirstForShifts(candidates, i, target, selectors);
        }
      }
      FallbackOf(candidates[1..], target, selectors)
  }

  method FilterRanked(order: seq<IpAddr>, eligible: set<IpAddr>, models: map<IpAddr, SelectionModel>)
    returns (ordered: seq<SelectionModel>)
    ensures ordered == Published(order, eligible, models)
  {
    hide Published;
    assert order[0..] == order;
    ordered := [];
    for i := 0 to |order|
      invariant ordered + Published(order[i..], eligible, models) == Published(order, eligible, models)
    {
      PublishedFrom(order, i, eligible, models);
      if order[i] in eligible && order[i] in models {
        ordered := ordered + [models[order[i]]];
      }
    }
    assert order[|order|..] == [];
    NothingPublished(eligible, models);
  }

  lemma PublishedFrom(order: seq<IpAddr>, i: nat, eligible: set<IpAddr>, models: map<IpAddr, SelectionModel>)
    requires i < |order|
    ensures Published(order[i..], eligible, models) ==
      (if order[i] in eligible && order[i] in models then [models[order[i]]] else [])
      + Published(order[i + 1..], eligible, models)
  {
  }

  lemma NothingPublished(eligible: set<IpAddr>, models: map<IpAddr, SelectionModel>)
    ensures Published([], eligible, models) == []
  {
  }

  /** Publish one view: a new ranking in place of the old. */
  method PublishView(
    former: ViewRanking, order: seq<IpAddr>, candidates: seq<Candidate>, selectors: seq<Selector>,
    fallback: Option<nat>, health: map<IpAddr, Endpoint>)
    returns (view: ViewRanking)
    ensures fresh(view)
    ensures view.ordered == Published(order, Eligible(candidates, selectors), Models(health))
    ensures view.incumbent == CarriedIncumbent(former.ordered, former.incumbent, view.ordered)
    ensures view.fallback == if fallback.Some? then FallbackOf(candidates, fallback.value, selectors) else None
  {
    var ordered := FilterRanked(order, Eligible(candidates, selectors), Models(health));
    var incumbent := CarriedIncumbent(former.ordered, former.incumbent, ordered);
    view := new ViewRanking(
      ordered, if fallback.Some? then FallbackOf(candidates, fallback.value, selectors) else None, incumbent);
  }

  // ---------------------------------------------------------------------
  // Picks against publications
  // ---------------------------------------------------------------------

  /** A snapshot with the value its atomic incumbent holds now. */
  datatype Snapshot = Snapshot(ordered: seq<SelectionModel>, incumbent: nat)

  /** A pick: it has cloned a snapshot, then loaded and clamped its incumbent. */
  datatype Picking = Cloned(of: nat) | Loaded(of: nat, previous: nat)

  /** The pool worker, which alone publishes: it has cloned the old ranking, then
      loaded the address that holds the place and prepared the new snapshot. */
  datatype Publication = Resting | HoldsOld(of: nat) | Prepared(of: nat, holder: Option<IpAddr>, next: Snapshot)

  /** Every snapshot a view ever had, the last one current; the picks under way,
      each keeping the snapshot it cloned; and the publication under way. */
  datatype ViewState = ViewState(snapshots: seq<Snapshot>, picks: map<nat, Picking>, publication: Publication)

  /** Each step is one access to shared state. */
  datatype Event =
    | CloneSnapshot(pick: nat)
    | LoadIndex(pick: nat)
    | StoreIndex(pick: nat, draws: seq<real>)
    | CloneOld
    | LoadHolder(order: seq<IpAddr>, eligible: set<IpAddr>, health: map<IpAddr, Endpoint>)
    | Swap

  function CurrentIndex(v: ViewState): nat
    requires v.snapshots != []
  {
    |v.snapshots| - 1
  }

  /** The address that holds the place in a snapshot. */
  function HolderOf(s: Snapshot): Option<IpAddr> {
    if s.incumbent < |s.ordered| then Some(s.ordered[s.incumbent].addr) else None
  }

  /** The address heads the list. */
  predicate IsHead(s: Snapshot, a: IpAddr) {
    s.ordered != [] && s.ordered[0].addr == a
  }

  predicate Enabled(v: ViewState, e: Event) {
    && v.snapshots != []
    && match e
       case CloneSnapshot(p) => p !in v.picks
       case LoadIndex(p) =>
         p in v.picks && v.picks[p].Cloned? && v.picks[p].of < |v.snapshots|
         && v.snapshots[v.picks[p].of].ordered != []
       case StoreIndex(p, draws) =>
         && p in v.picks && v.picks[p].Loaded? && v.picks[p].of < |v.snapshots|
         && |draws| == |v.snapshots[v.picks[p].of].ordered| && v.picks[p].previous < |draws|
       case CloneOld => v.publication.Resting?
       case LoadHolder(_, _, _) => v.publication.HoldsOld? && v.publication.of < |v.snapshots|
       case Swap => v.publication.Prepared?
  }

  function Next(v: ViewState, e: Event): ViewState
    requires Enabled(v, e)
  {
    match e
    case CloneSnapshot(p) => v.(picks := v.picks[p := Cloned(CurrentIndex(v))])
    case LoadIndex(p) =>
      var s := v.snapshots[v.picks[p].of];
      var previous := if s.incumbent < |s.ordered| then s.incumbent else |s.ordered| - 1;
      v.(picks := v.picks[p := Loaded(v.picks[p].of, previous)])
    case StoreIndex(p, draws) =>
      var Loaded(k, previous) := v.picks[p];
      v.(snapshots := v.snapshots[k := v.snapshots[k].(incumbent := Chosen(draws, previous))],
         picks := v.picks - {p})
    case CloneOld => v.(publication := HoldsOld(CurrentIndex(v)))
    case LoadHolder(order, eligible, health) =>
      var former := v.snapshots[v.publication.of];
      var ordered := Published(order, eligible, Models(health));
      v.(publication := Prepared(v.publication.of, HolderOf(former),
           Snapshot(ordered, CarriedIncumbent(former.ordered, former.incumbent, ordered))))
    case Swap => v.(snapshots := v.snapshots + [v.publication.next], publication := Resting)
  }

  /** The answer of the pick whose store `e` is. */
  function Served(v: ViewState, e: Event): IpAddr
    requires Enabled(v, e) && e.StoreIndex?
  {
    var Loaded(k, previous) := v.picks[e.pick];
    v.snapshots[k].ordered[Chosen(e.draws, previous)].addr
  }

  predicate WellPlaced(s: Snapshot) {
    s.incumbent == 0 || s.incumbent < |s.ordered|
  }

  ghost predicate InRange(v: ViewState) {
    && v.snapshots != []
    && (forall i :: 0 <= i < |v.snapshots| ==> WellPlaced(v.snapshots[i]))
    && (forall p <- v.picks :: v.picks[p].of < |v.snapshots|
          && (v.picks[p].Loaded? ==> v.picks[p].previous < |v.snapshots[v.picks[p].of].ordered|))
    && (!v.publication.Resting? ==> v.publication.of == |v.snapshots| - 1)
    && (v.publication.Prepared? ==> WellPlaced(v.publication.next))
  }

  /** A view before its first publication. */
  const EMPTY: ViewState := ViewState([Snapshot([], 0)], map[], Resting)

  ghost predicate IsRun(states: seq<ViewState>, events: seq<Event>) {
    && |states| == |events| + 1 && states[0] == EMPTY
    && forall i :: 0 <= i < |events| ==> Enabled(states[i], events[i]) && states[i + 1] == Next(states[i], events[i])
  }

  lemma StepStaysInRange(v: ViewState, e: Event)
    requires InRange(v) && Enabled(v, e)
    ensures InRange(Next(v, e))
  {
  }

  /** However the single accesses of picks and publications interleave, every stored
      incumbent and every index a pick holds stays within its own snapshot. */
  lemma {:induction false} IncumbentsStayInRange(states: seq<ViewState>, events: seq<Event>, n: nat)
    requires IsRun(states, events) && n < |states|
    ensures InRange(states[n])
  {
    if n > 0 {
      hide Next, InRange;
      IncumbentsStayInRange(states, events, n - 1);
      StepStaysInRange(states[n - 1], events[n - 1]);
    } else {
      hide Next;
    }
  }

  /** A served address belongs to the snapshot the pick cloned, and nothing in that
      snapshot beats it under the pick's own draws. */
  lemma ServedIsUnbeaten(v: ViewState, e: Event)
    requires Enabled(v, e) && e.StoreIndex?
    ensures var ordered := v.snapshots[v.picks[e.pick].of].ordered;
      exists k :: 0 <= k < |ordered| && ordered[k].addr == Served(v, e)
        && forall i :: 0 <= i < |ordered| ==> !H.Beats(e.draws[i], e.draws[k])
  {
    var Loaded(k, previous) := v.picks[e.pick];
    NothingBeatsTheChosen(e.draws, previous);
    assert v.snapshots[k].ordered[Chosen(e.draws, previous)].addr == Served(v, e);
  }

  /** A list some publication before step `n` built from the health it read. */
  ghost predicate WasPublished(events: seq<Event>, n: nat, ordered: seq<SelectionModel>)
    requires n <= |events|
  {
    ordered == [] || exists m :: 0 <= m < n && Builds(events[m], ordered)
  }

  ghost predicate Builds(e: Event, ordered: seq<SelectionModel>) {
    e.LoadHolder? && ordered == Published(e.order, e.eligible, Models(e.health))
  }

  lemma {:induction false} SnapshotsWerePublished(states: seq<ViewState>, events: seq<Event>, n: nat)
    requires IsRun(states, events) && n < |states|
    ensures forall i :: 0 <= i < |states[n].snapshots| ==> WasPublished(events, n, states[n].snapshots[i].ordered)
    ensures states[n].publication.Prepared? ==> WasPublished(events, n, states[n].publication.next.ordered)
  {
    hide Published, Models, CarriedIncumbent, Chosen;
    if n > 0 {
      SnapshotsWerePublished(states, events, n - 1);
      var v, e := states[n - 1], events[n - 1];
      assert Enabled(v, e) && states[n] == Next(v, e);
      StepKeepsLists(v, e);
      forall i | 0 <= i < |states[n].snapshots| ensures WasPublished(events, n, states[n].snapshots[i].ordered) {
        var ordered := states[n].snapshots[i].ordered;
        assert WasPublished(events, n - 1, ordered);
      }
    }
  }

  /** A step changes no list; only a swap adds one, the prepared one. */
  lemma StepKeepsLists(v: ViewState, e: Event)
    requires Enabled(v, e)
    ensures var v' := Next(v, e);
      && |v'.snapshots| == |v.snapshots| + (if e.Swap? then 1 else 0)
      && (forall i :: 0 <= i < |v.snapshots| ==> v'.snapshots[i].ordered == v.snapshots[i].ordered)
      && (e.Swap? ==> v'.snapshots[|v.snapshots|] == v.publication.next)
  {
  }

  /** In every run a served address was healthy and measured, ranked and selected by
      the view, when the snapshot it was served from was built. */
  lemma ServedWasHealthy(states: seq<ViewState>, events: seq<Event>, n: nat) returns (m: nat)
    requires IsRun(states, events) && n < |events| && events[n].StoreIndex?
    requires forall i :: 0 <= i < n && events[i].LoadHolder? ==> NoDuplicates(events[i].order)
    ensures m < n && events[m].LoadHolder?
    ensures var a := Served(states[n], events[n]);
      a in Models(events[m].health) && a in events[m].order && a in events[m].eligible
  {
    SnapshotsWerePublished(states, events, n);
    var v, e := states[n], events[n];
    var ordered := v.snapshots[v.picks[e.pick].of].ordered;
    assert WasPublished(events, n, ordered);
    m :| 0 <= m < n && Builds(events[m], ordered);
    hide IsRun, Next, Models, WasPublished;
    OwnModels(events[m].health);
    PublishedIsTheFilteredOrder(events[m].order, events[m].eligible, Models(events[m].health));
    var k := Chosen(e.draws, v.picks[e.pick].previous);
    assert Addresses(ordered)[k] == Served(v, e);
  }

  lemma OwnModels(health: map<IpAddr, Endpoint>)
    ensures OwnAddresses(Models(health))
  {
  }

  // ---------------------------------------------------------------------
  // Who holds the place after a publication
  // ---------------------------------------------------------------------

  /** Step `m` loads the holder, step `n` swaps, with no other swap in between. */
  ghost predicate Publishes(states: seq<ViewState>, events: seq<Event>, m: nat, n: nat) {
    && IsRun(states, events) && m < n < |events| && events[m].LoadHolder? && events[n].Swap?
    && forall i :: m < i < n ==> !events[i].Swap?
  }

  /** The snapshot a publication replaces. */
  function OldIndex(states: seq<ViewState>, m: nat): nat
    requires m < |states| && !states[m].publication.Resting?
  {
    states[m].publication.of
  }

  /** The step ends a pick from snapshot `k`. */
  predicate StoresIn(v: ViewState, e: Event, k: nat) {
    e.StoreIndex? && Enabled(v, e) && v.picks[e.pick].of == k
  }

  /** The address last stored in snapshot `k` from step `m` on, `holder` before any. */
  ghost function LastStored(
    states: seq<ViewState>, events: seq<Event>, k: nat, m: nat, n: nat, holder: Option<IpAddr>): Option<IpAddr>
    requires m <= n <= |events| < |states|
    decreases n - m
  {
    if m == n then holder
    else if StoresIn(states[n - 1], events[n - 1], k)
    then Some(Served(states[n - 1], events[n - 1]))
    else LastStored(states, events, k, m, n - 1, holder)
  }

  lemma StepsStoreTheHolder(v: ViewState, e: Event, k: nat)
    requires InRange(v) && Enabled(v, e) && k < |v.snapshots|
    ensures k < |Next(v, e).snapshots|
    ensures HolderOf(Next(v, e).snapshots[k]) ==
      if StoresIn(v, e, k) then Some(Served(v, e)) else HolderOf(v.snapshots[k])
  {
  }

  lemma {:induction false} HolderIsLastStored(states: seq<ViewState>, events: seq<Event>, k: nat, m: nat, n: nat)
    requires IsRun(states, events) && m <= n <= |events| && k < |states[m].snapshots|
    ensures k < |states[n].snapshots|
    ensures HolderOf(states[n].snapshots[k]) ==
      LastStored(states, events, k, m, n, HolderOf(states[m].snapshots[k]))
    decreases n - m
  {
    hide Next, HolderOf, Served, InRange;
    if m < n {
      HolderIsLastStored(states, events, k, m, n - 1);
      IncumbentsStayInRange(states, events, n - 1);
      StepsStoreTheHolder(states[n - 1], events[n - 1], k);
    }
  }

  /** From the load to the swap the publication carries the same prepared snapshot. */
  lemma {:induction false} PreparedIsCarried(states: seq<ViewState>, events: seq<Event>, m: nat, n: nat)
    requires IsRun(states, events) && m < n <= |events| && events[m].LoadHolder?
    requires forall i :: m < i < n ==> !events[i].Swap?
    ensures states[n].publication == states[m + 1].publication && states[n].publication.Prepared?
    decreases n
  {
    hide Published, Models, CarriedIncumbent, Chosen;
    if m + 1 < n {
      PreparedIsCarried(states, events, m, n - 1);
    }
  }

  /** What one load prepares: the loaded holder keeps its place while it is listed. */
  lemma LoadedHolderIsPlaced(v: ViewState, e: Event)
    requires InRange(v) && Enabled(v, e) && e.LoadHolder?
    ensures var p := Next(v, e).publication;
      && p.Prepared? && p.of == v.publication.of && p.holder == HolderOf(v.snapshots[p.of])
      && p.next.ordered == Published(e.order, e.eligible, Models(e.health))
      && (if p.holder.Some? && p.holder.value in Addresses(p.next.ordered) then HolderOf(p.next) == p.holder
          else p.next.incumbent == 0)
  {
    hide Published, Models;
    var former := v.snapshots[v.publication.of];
    var next := Next(v, e).publication.next;
    if HolderOf(former).Some? {
      var place := PositionOf(next.ordered, HolderOf(former).value);
      if place.Some? {
        assert Addresses(next.ordered)[place.value] == HolderOf(former).value;
      }
    }
  }

  /**
   * Publication hands the place to the address that was loaded, while it is listed,
   * and else to the head. The old snapshot goes on being picked from until the swap;
   * its holder at that moment, the address last stored there, keeps the place if and
   * only if it is the one that was loaded or, that one being gone, the new head.
   */
  lemma PublishKeepsTheIncumbent(states: seq<ViewState>, events: seq<Event>, m: nat, n: nat)
    requires Publishes(states, events, m, n)
    ensures !states[m].publication.Resting? && OldIndex(states, m) == |states[m].snapshots| - 1
    ensures |states[n + 1].snapshots| == |states[m].snapshots| + 1
    ensures var k := OldIndex(states, m);
      var loaded, holder := HolderOf(states[m].snapshots[k]), HolderOf(states[n].snapshots[k]);
      var next := states[n + 1].snapshots[k + 1];
      && next.ordered == Published(events[m].order, events[m].eligible, Models(events[m].health))
      && holder == LastStored(states, events, k, m, n, loaded)
      && (loaded.Some? && loaded.value in Addresses(next.ordered) ==>
            HolderOf(next) == loaded && (HolderOf(next) == holder <==> holder == loaded))
      && (loaded.None? || loaded.value !in Addresses(next.ordered) ==>
            next.incumbent == 0 && (holder.Some? ==> (HolderOf(next) == holder <==> IsHead(next, holder.value))))
  {
    hide Next, Published, Models, InRange;
    IncumbentsStayInRange(states, events, m);
    InRangePublication(states[m]);
    LoadedHolderIsPlaced(states[m], events[m]);
    PreparedIsCarried(states, events, m, n);
    HolderIsLastStored(states, events, OldIndex(states, m), m, n);
    SnapshotsStayUntilSwap(states, events, m, n);
    assert states[n + 1] == Next(states[n], events[n]);
    StepKeepsLists(states[n], events[n]);
  }

  lemma InRangePublication(v: ViewState)
    requires InRange(v) && !v.publication.Resting?
    ensures v.publication.of == |v.snapshots| - 1
  {
  }

  lemma {:induction false} SnapshotsStayUntilSwap(states: seq<ViewState>, events: seq<Event>, m: nat, n: nat)
    requires IsRun(states, events) && m <= n < |states| && forall i :: m <= i < n ==> !events[i].Swap?
    ensures |states[n].snapshots| == |states[m].snapshots|
    decreases n - m
  {
    hide Next;
    if m < n {
      SnapshotsStayUntilSwap(states, events, m, n - 1);
      StepKeepsLists(states[n - 1], events[n - 1]);
    }
  }

  /** From step `m` to step `n` picks from snapshot `k` store no address but `holder`. */
  ghost predicate OnlyStores(
    states: seq<ViewState>, events: seq<Event>, k: nat, m: nat, n: nat, holder: Option<IpAddr>)
    requires m <= n <= |events| < |states|
  {
    forall i :: m <= i < n && StoresIn(states[i], events[i], k) ==> holder == Some(Served(states[i], events[i]))
  }

  /** So a listed holder keeps its place through every publication in which no pick
      from the old snapshot stores another address between the load and the swap. */
  lemma UndisturbedHolderStays(states: seq<ViewState>, events: seq<Event>, m: nat, n: nat, a: IpAddr)
    requires Publishes(states, events, m, n) && states[m].snapshots != []
    requires var k: nat := |states[m].snapshots| - 1;
      HolderOf(states[m].snapshots[k]) == Some(a) && OnlyStores(states, events, k, m, n, Some(a))
    requires a in Addresses(Published(events[m].order, events[m].eligible, Models(events[m].health)))
    ensures |states[n + 1].snapshots| == |states[m].snapshots| + 1 == |states[n].snapshots| + 1
    ensures HolderOf(states[n + 1].snapshots[|states[m].snapshots|]) == Some(a)
    ensures HolderOf(states[n].snapshots[|states[m].snapshots| - 1]) == Some(a)
  {
    PublishKeepsTheIncumbent(states, events, m, n);
    SnapshotsStayUntilSwap(states, events, m, n);
    NothingElseStored(states, events, OldIndex(states, m), m, n, Some(a));
  }

  lemma {:induction false} NothingElseStored(
    states: seq<ViewState>, events: seq<Event>, k: nat, m: nat, n: nat, holder: Option<IpAddr>)
    requires m <= n <= |events| < |states| && OnlyStores(states, events, k, m, n, holder)
    ensures LastStored(states, events, k, m, n, holder) == holder
    decreases n - m
  {
    hide StoresIn;
    if m < n {
      NothingElseStored(states, events, k, m, n - 1, holder);
    }
  }

  // ---------------------------------------------------------------------
  // A pick that stores between the load and the swap
  // ---------------------------------------------------------------------

  function Healthy(rtt: real): Endpoint { Endpoint(false, Some(rtt), 1.0) }

  /** Publish `a` before `b`; let a pick load that `a` holds the place; publish the
      same list again, the pick storing `b` between the load and the swap. */
  function Race(a: IpAddr, b: IpAddr): seq<Event> {
    var load := LoadHolder([a, b], {a, b}, map[a := Healthy(0.1), b := Healthy(0.2)]);
    [CloneOld, load, Swap, CloneSnapshot(0), LoadIndex(0), CloneOld, load, StoreIndex(0, [1.0, 0.1]), Swap]
  }

  lemma RaceList(a: IpAddr, b: IpAddr) returns (list: seq<SelectionModel>)
    requires a != b
    ensures list == [SelectionModel(a, 0.1, 1.0), SelectionModel(b, 0.2, 1.0)]
    ensures Published([a, b], {a, b}, Models(map[a := Healthy(0.1), b := Healthy(0.2)])) == list
    ensures PositionOf(list, a) == Some(0) && Chosen([1.0, 0.1], 0) == 1
  {
    list := [SelectionModel(a, 0.1, 1.0), SelectionModel(b, 0.2, 1.0)];
    var models := Models(map[a := Healthy(0.1), b := Healthy(0.2)]);
    assert [a, b][1..] == [b] && [b][1..] == [];
    assert Published([b], {a, b}, models) == [list[1]];
  }

  /** The holder at the swap can lose its place although it stays listed and its own
      view preferred it: the store is lost with the old snapshot. */
  lemma StoresCanBeLost(a: IpAddr, b: IpAddr) returns (states: seq<ViewState>)
    requires a != b
    ensures Publishes(states, Race(a, b), 6, 8)
    ensures |states[8].snapshots| == 2 && HolderOf(states[8].snapshots[1]) == Some(b)
    ensures |states[9].snapshots| == 3 && HolderOf(states[9].snapshots[2]) == Some(a)
    ensures b in Addresses(states[9].snapshots[2].ordered)
  {
    var list := RaceList(a, b);
    var events := Race(a, b);
    hide Published, Models, PositionOf, Chosen, Healthy;
    var first, s, t := Snapshot([], 0), Snapshot(list, 0), Snapshot(list, 1);
    states := [
      EMPTY,
      ViewState([first], map[], HoldsOld(0)),
      ViewState([first], map[], Prepared(0, None, s)),
      ViewState([first, s], map[], Resting),
      ViewState([first, s], map[0 := Cloned(1)], Resting),
      ViewState([first, s], map[0 := Loaded(1, 0)], Resting),
      ViewState([first, s], map[0 := Loaded(1, 0)], HoldsOld(1)),
      ViewState([first, s], map[0 := Loaded(1, 0)], Prepared(1, Some(a), s)),
      ViewState([first, t], map[], Prepared(1, Some(a), s)),
      ViewState([first, t, s], map[], Resting)];
    assert Next(states[0], events[0]) == states[1];
    assert Next(states[1], events[1]) == states[2];
    assert Next(states[2], events[2]) == states[3];
    assert Next(states[3], events[3]) == states[4];
    assert Next(states[4], events[4]) == states[5];
    assert Next(states[5], events[5]) == states[6];
    assert Next(states[6], events[6]) == states[7];
    assert Next(states[7], events[7]) == states[8];
    assert Next(states[8], events[8]) == states[9];
    assert Addresses(list)[1] == b;
  }
}
