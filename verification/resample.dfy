/**
 * Replacing CIDR samples that never answered: `resample_dead`,
 * `replace_recorded_sample` and the target part of `build_candidates`.
 */
module Resampling {
  import opened Collections
  import opened Net
  import opened Networks
  import opened Naturals
  import opened Text
  import P = EndpointHealth

  datatype Target =
    | Literal(addr: IpAddr)
    | Cidr(net: IpNet, sample: Option<nat>, sampled: seq<IpAddr>)
    | Domain

  /** An address with the target that contributed it. */
  datatype Entry = Entry(addr: IpAddr, target: nat)

  /** The IPv6 projection of IPv4 candidates: which targets, by which prefixes. */
  datatype Nat64 = Nat64(from: Option<seq<nat>>, prefixes: seq<nat -> nat>)

  datatype State = State(
    health: map<IpAddr, P.Probe>,
    resampled: set<IpAddr>,
    replacements: map<nat, seq<IpAddr>>,
    order: seq<IpAddr>)

  /** One planned replacement. */
  datatype Plan = Plan(target: nat, dead: IpAddr, replacement: IpAddr)

  function ReplacedFor(replacements: map<nat, seq<IpAddr>>, t: nat): seq<IpAddr> {
    if t in replacements then replacements[t] else []
  }

  /** What is left of `s` once everything in `gone` is dropped. */
  function Excluding(s: seq<IpAddr>, gone: set<IpAddr>): seq<IpAddr> {
    if s == [] then []
    else Excluding(s[..|s| - 1], gone) + if s[|s| - 1] in gone then [] else [s[|s| - 1]]
  }

  /** The addresses a CIDR target contributes: samples not retired, replacements. */
  function Active(sampled: seq<IpAddr>, s: State, t: nat): seq<IpAddr> {
    Excluding(sampled, s.resampled) + ReplacedFor(s.replacements, t)
  }

  predicate IsSampled(targets: seq<Target>, t: nat) {
    t < |targets| && targets[t].Cidr? && targets[t].sample.Some?
  }

  // ---------------------------------------------------------------------
  // Candidates
  // ---------------------------------------------------------------------

  predicate Native(targets: seq<Target>, s: State, resolved: map<nat, seq<IpAddr>>, e: Entry) {
    && e.target < |targets|
    && match targets[e.target]
       case Literal(a) => e.addr == a
       case Cidr(_, _, sampled) => e.addr in Active(sampled, s, e.target)
       case Domain => e.addr in ReplacedFor(resolved, e.target)
  }

  predicate Participates(nat64: Nat64, t: nat) {
    nat64.from.None? || t in nat64.from.value
  }

  ghost predicate ProjectionOf(nat64: Option<Nat64>, v4: IpAddr, e: Entry) {
    && nat64.Some? && v4.V4? && Participates(nat64.value, e.target)
    && exists k :: 0 <= k < |nat64.value.prefixes| && e.addr == V6(nat64.value.prefixes[k](v4.bits))
  }

  /** The candidates: every target's addresses, and the projections of the IPv4 ones. */
  ghost predicate AreCandidates(
    targets: seq<Target>, s: State, resolved: map<nat, seq<IpAddr>>, nat64: Option<Nat64>, cands: seq<Entry>)
  {
    forall e :: e in cands <==>
      Native(targets, s, resolved, e)
      || exists v4 :: Native(targets, s, resolved, Entry(v4, e.target)) && ProjectionOf(nat64, v4, e)
  }

  /** The first `k` candidates are the targets' own addresses; the rest are projections. */
  ghost predicate NativesEndAt(
    targets: seq<Target>, s: State, resolved: map<nat, seq<IpAddr>>, cands: seq<Entry>, k: nat)
  {
    && k <= |cands| && (forall e <- cands[..k] :: Native(targets, s, resolved, e))
    && forall e <- cands :: Native(targets, s, resolved, e) ==> e in cands[..k]
  }

  ghost predicate NativesFirst(
    targets: seq<Target>, s: State, resolved: map<nat, seq<IpAddr>>, cands: seq<Entry>)
  {
    exists k: nat :: NativesEndAt(targets, s, resolved, cands, k)
  }

  // ---------------------------------------------------------------------
  // Planning
  // ---------------------------------------------------------------------

  /** A sampled endpoint that never answered and has backed off to the cap. */
  predicate Hopeless(targets: seq<Target>, s: State, interval: nat, e: Entry) {
    && e.addr in s.health && IsSampled(targets, e.target)
    && var h := s.health[e.addr]; h.degraded && !h.measured && h.backoff >= interval
  }

  function Reserved(s: State): set<IpAddr> {
    s.health.Keys + s.resampled
  }

  function Replacements(planned: seq<Plan>): set<IpAddr> {
    set p <- planned :: p.replacement
  }

  function Deads(planned: seq<Plan>): set<IpAddr> {
    set p <- planned :: p.dead
  }

  ghost predicate IsPlanned(planned: seq<Plan>, e: Entry) {
    exists i :: 0 <= i < |planned| && planned[i].target == e.target && planned[i].dead == e.addr
  }

  ghost predicate Exhausted(net: IpNet, reserved: set<IpAddr>) {
    net.hostBits < 128 ==> forall a :: InNetwork(net, a) ==> a in reserved
  }

  /** Each hopeless candidate gets one fresh address of its network, all distinct. */
  ghost predicate Sound(targets: seq<Target>, s: State, interval: nat, cands: seq<Entry>, planned: seq<Plan>) {
    && (forall i :: 0 <= i < |planned| ==>
          var p := planned[i];
          && Entry(p.dead, p.target) in cands && Hopeless(targets, s, interval, Entry(p.dead, p.target))
          && InNetwork(targets[p.target].net, p.replacement) && p.replacement !in Reserved(s))
    && forall i, j :: 0 <= i < j < |planned| ==>
         && planned[i].replacement != planned[j].replacement
         && (planned[i].target != planned[j].target || planned[i].dead != planned[j].dead)
  }

  /** A replacement is planned, or the network has no free address left. */
  ghost predicate SeenTo(targets: seq<Target>, s: State, planned: seq<Plan>, e: Entry) {
    IsPlanned(planned, e)
    || (IsSampled(targets, e.target) && Exhausted(targets[e.target].net, Reserved(s) + Replacements(planned)))
  }

  ghost predicate Complete(targets: seq<Target>, s: State, interval: nat, cands: seq<Entry>, planned: seq<Plan>) {
    forall e <- cands :: Hopeless(targets, s, interval, e) ==> SeenTo(targets, s, planned, e)
  }

  /** Hopeless, with a network whose draws never fail while an address is free. */
  predicate Contends(targets: seq<Target>, s: State, interval: nat, e: Entry) {
    Hopeless(targets, s, interval, e) && targets[e.target].net.hostBits < 128
  }

  /** A plan for a candidate first met after `k` others means one for each hopeless
      candidate of its target among those. */
  ghost predicate ServedBefore(
    targets: seq<Target>, s: State, interval: nat, cands: seq<Entry>, planned: seq<Plan>, k: nat)
    requires k <= |cands|
  {
    forall e, f | e in cands[..k] && f !in cands[..k] && f.target == e.target && Contends(targets, s, interval, e) ::
      IsPlanned(planned, f) ==> IsPlanned(planned, e)
  }

  /** Free addresses go to the candidates in their order. */
  ghost predicate InTurn(targets: seq<Target>, s: State, interval: nat, cands: seq<Entry>, planned: seq<Plan>) {
    forall k: nat :: k <= |cands| ==> ServedBefore(targets, s, interval, cands, planned, k)
  }

  // ---------------------------------------------------------------------
  // Carrying the plan out
  // ---------------------------------------------------------------------

  function Recorded(replacements: map<nat, seq<IpAddr>>, p: Plan): map<nat, seq<IpAddr>> {
    var active := Excluding(ReplacedFor(replacements, p.target), {p.dead});
    replacements[p.target := if p.replacement in active then active else active + [p.replacement]]
  }

  function RecordedAll(replacements: map<nat, seq<IpAddr>>, planned: seq<Plan>): map<nat, seq<IpAddr>> {
    if planned == [] then replacements
    else Recorded(RecordedAll(replacements, planned[..|planned| - 1]), planned[|planned| - 1])
  }

  function Resampled(s: State, planned: seq<Plan>): State {
    State(
      s.health - Deads(planned),
      s.resampled + Deads(planned),
      RecordedAll(s.replacements, planned),
      Excluding(s.order, Deads(planned)))
  }

  lemma DeadsGrow(planned: seq<Plan>, p: Plan)
    ensures Deads(planned + [p]) == Deads(planned) + {p.dead}
    ensures Replacements(planned + [p]) == Replacements(planned) + {p.replacement}
    ensures forall e :: IsPlanned(planned + [p], e) <==> IsPlanned(planned, e) || e == Entry(p.dead, p.target)
  {
    var more := planned + [p];
    forall e | IsPlanned(planned, e) ensures IsPlanned(more, e) {
      var i :| 0 <= i < |planned| && planned[i].target == e.target && planned[i].dead == e.addr;
      assert more[i] == planned[i];
    }
    assert more[|planned|] == p;
  }

  lemma SoundGrows(targets: seq<Target>, s: State, interval: nat, cands: seq<Entry>, planned: seq<Plan>, p: Plan)
    requires Sound(targets, s, interval, cands, planned)
    requires Entry(p.dead, p.target) in cands && Hopeless(targets, s, interval, Entry(p.dead, p.target))
    requires !IsPlanned(planned, Entry(p.dead, p.target))
    requires InNetwork(targets[p.target].net, p.replacement)
    requires p.replacement !in Reserved(s) && p.replacement !in Replacements(planned)
    ensures Sound(targets, s, interval, cands, planned + [p])
  {
  }

  lemma StaysSeenTo(targets: seq<Target>, s: State, planned: seq<Plan>, p: Plan, e: Entry)
    requires SeenTo(targets, s, planned, e)
    ensures SeenTo(targets, s, planned + [p], e)
  {
    DeadsGrow(planned, p);
    hide InNetwork, Reserved, IsPlanned, IsSampled, Replacements;
  }

  /** One candidate of the planning loop: what is remembered of it, what is planned. */
  ghost predicate Progress(
    targets: seq<Target>, s: State, interval: nat, cands: seq<Entry>, n: nat, planned: seq<Plan>, keys: set<Entry>)
    requires n <= |cands|
  {
    && Sound(targets, s, interval, cands, planned)
    && (forall e :: IsPlanned(planned, e) ==> e in keys)
    && (forall e <- keys :: SeenTo(targets, s, planned, e))
    && Complete(targets, s, interval, cands[..n], planned)
    && (forall e <- keys :: e in cands[..n])
    && InTurn(targets, s, interval, cands, planned)
  }

  lemma ProgressByPlanning(
    targets: seq<Target>, s: State, interval: nat, cands: seq<Entry>, n: nat, planned: seq<Plan>, keys: set<Entry>,
    p: Plan)
    requires n < |cands| && Progress(targets, s, interval, cands, n, planned, keys)
    requires Entry(p.dead, p.target) == cands[n] && cands[n] !in keys
    requires Sound(targets, s, interval, cands, planned + [p])
    requires InTurn(targets, s, interval, cands, planned + [p])
    ensures Progress(targets, s, interval, cands, n + 1, planned + [p], keys + {cands[n]})
  {
    DeadsGrow(planned, p);
    hide Sound, Hopeless, IsPlanned, InTurn;
    forall e | SeenTo(targets, s, planned, e) ensures SeenTo(targets, s, planned + [p], e) {
      StaysSeenTo(targets, s, planned, p, e);
    }
    assert SeenTo(targets, s, planned + [p], cands[n]);
    hide SeenTo;
    assert cands[..n + 1] == cands[..n] + [cands[n]];
  }

  /** A new plan serves a candidate whose predecessors all have one: one passed over
      would have left no address to draw. */
  lemma PlansInTurn(
    targets: seq<Target>, s: State, interval: nat, cands: seq<Entry>, n: nat, planned: seq<Plan>, keys: set<Entry>,
    p: Plan)
    requires n < |cands| && Progress(targets, s, interval, cands, n, planned, keys)
    requires Entry(p.dead, p.target) == cands[n] && IsSampled(targets, p.target)
    requires InNetwork(targets[p.target].net, p.replacement)
    requires p.replacement !in Reserved(s) + Replacements(planned)
    ensures InTurn(targets, s, interval, cands, planned + [p])
  {
    DeadsGrow(planned, p);
    hide Sound, Hopeless, IsPlanned, InNetwork, Reserved, Replacements;
    forall k: nat, e, f |
      k <= |cands| && e in cands[..k] && f !in cands[..k] && f.target == e.target
      && Contends(targets, s, interval, e) && IsPlanned(planned + [p], f)
      ensures IsPlanned(planned + [p], e)
    {
      if IsPlanned(planned, f) {
        assert ServedBefore(targets, s, interval, cands, planned, k);
      } else {
        var i :| 0 <= i < k && cands[i] == e;
        assert i < n;
        assert e in cands[..n];
        assert SeenTo(targets, s, planned, e);
      }
    }
  }

  lemma PlanningOne(
    targets: seq<Target>, s: State, interval: nat, cands: seq<Entry>, n: nat, planned: seq<Plan>, keys: set<Entry>,
    p: Plan)
    requires n < |cands| && Progress(targets, s, interval, cands, n, planned, keys)
    requires Entry(p.dead, p.target) == cands[n] && cands[n] !in keys && Hopeless(targets, s, interval, cands[n])
    requires InNetwork(targets[p.target].net, p.replacement)
    requires p.replacement !in Reserved(s) + Replacements(planned)
    ensures Progress(targets, s, interval, cands, n + 1, planned + [p], keys + {cands[n]})
    ensures Replacements(planned + [p]) == Replacements(planned) + {p.replacement}
  {
    DeadsGrow(planned, p);
    SoundGrows(targets, s, interval, cands, planned, p);
    PlansInTurn(targets, s, interval, cands, n, planned, keys, p);
    ProgressByPlanning(targets, s, interval, cands, n, planned, keys, p);
  }

  lemma SkippingOne(
    targets: seq<Target>, s: State, interval: nat, cands: seq<Entry>, n: nat, planned: seq<Plan>, keys: set<Entry>)
    requires n < |cands| && Progress(targets, s, interval, cands, n, planned, keys)
    requires IsSampled(targets, cands[n].target)
    requires Exhausted(targets[cands[n].target].net, Reserved(s) + Replacements(planned))
    ensures Progress(targets, s, interval, cands, n + 1, planned, keys + {cands[n]})
  {
  }

  lemma SeenBefore(
    targets: seq<Target>, s: State, interval: nat, cands: seq<Entry>, n: nat, planned: seq<Plan>, keys: set<Entry>)
    requires n < |cands| && Progress(targets, s, interval, cands, n, planned, keys)
    requires !Hopeless(targets, s, interval, cands[n]) || cands[n] in keys
    ensures Progress(targets, s, interval, cands, n + 1, planned, keys)
  {
  }

  lemma NothingPlanned(targets: seq<Target>, s: State, interval: nat, cands: seq<Entry>)
    ensures Progress(targets, s, interval, cands, 0, [], {}) && Replacements([]) == {}
  {
  }

  class Sampler {
    const targets: seq<Target>
    var health: map<IpAddr, P.Probe>
    var resampled: set<IpAddr>
    var replacements: map<nat, seq<IpAddr>>
    var order: seq<IpAddr>

    ghost predicate Valid() {
      forall t :: 0 <= t < |targets| && targets[t].Cidr? ==> IsNetwork(targets[t].net)
    }

    function Now(): State
      reads this
    {
      State(health, resampled, replacements, order)
    }

    method ResampleDead(cands: seq<Entry>, interval: nat) returns (ghost planned: seq<Plan>)
      requires Valid()
      modifies this
      ensures Sound(targets, old(Now()), interval, cands, planned)
      ensures Complete(targets, old(Now()), interval, cands, planned)
      ensures InTurn(targets, old(Now()), interval, cands, planned)
      ensures Now() == Resampled(old(Now()), planned)
    {
      var plans := PlanReplacements(cands, interval);
      planned := plans;
      hide Sound, Complete, InTurn, Recorded;
      var retired := RecordPlans(plans);
      resampled := resampled + retired;
      health := health - retired;
      order := Excluding(order, retired);
    }

    method RecordPlans(plans: seq<Plan>) returns (retired: set<IpAddr>)
      modifies this`replacements
      ensures replacements == RecordedAll(old(replacements), plans) && retired == Deads(plans)
    {
      hide Recorded;
      retired := {};
      for i := 0 to |plans|
        invariant replacements == RecordedAll(old(replacements), plans[..i])
        invariant retired == Deads(plans[..i])
      {
        assert plans[..i + 1] == plans[..i] + [plans[i]];
        DeadsGrow(plans[..i], plans[i]);
        replacements := Recorded(replacements, plans[i]);
        retired := retired + {plans[i].dead};
      }
      assert plans[..|plans|] == plans;
    }

    method PlanReplacements(cands: seq<Entry>, interval: nat) returns (planned: seq<Plan>)
      requires Valid()
      ensures Sound(targets, Now(), interval, cands, planned)
      ensures Complete(targets, Now(), interval, cands, planned)
      ensures InTurn(targets, Now(), interval, cands, planned)
    {
      hide Sound, Complete, InTurn;
      planned := [];
      var reserved := Reserved(Now());
      var keys := {};
      ghost var s := Now();
      NothingPlanned(targets, s, interval, cands);
      for i := 0 to |cands|
        invariant reserved == Reserved(s) + Replacements(planned)
        invariant Progress(targets, s, interval, cands, i, planned, keys)
      {
        var e := cands[i];
        if Hopeless(targets, Now(), interval, e) && e !in keys {
          var net := targets[e.target].net;
          var start :| 0 <= start < NetworkSize(net);
          var drawn := DrawFreshSample(net, reserved, start);
          hide Progress, Reserved, Replacements, InNetwork, NetworkSize, IsNetwork;
          if drawn.Some? {
            var p := Plan(e.target, e.addr, drawn.value);
            PlanningOne(targets, s, interval, cands, i, planned, keys, p);
            reserved := reserved + {drawn.value};
            planned := planned + [p];
          } else {
            SkippingOne(targets, s, interval, cands, i, planned, keys);
          }
          keys := keys + {e};
        } else {
          SeenBefore(targets, s, interval, cands, i, planned, keys);
        }
      }
      assert cands[..|cands|] == cands;
    }
  }

  // ---------------------------------------------------------------------
  // What one resampling does to a target's active addresses
  // ---------------------------------------------------------------------

  lemma {:induction false} ExcludingMeaning(s: seq<IpAddr>, gone: set<IpAddr>)
    ensures Elements(Excluding(s, gone)) == Elements(s) - gone
    ensures NoDuplicates(s) ==> NoDuplicates(Excluding(s, gone))
  {
    if s != [] {
      var init, last := s[..|s| - 1], s[|s| - 1];
      ExcludingMeaning(init, gone);
      assert s == init + [last];
      assert forall a :: a in Excluding(init, gone) <==> a in Elements(Excluding(init, gone));
      if NoDuplicates(s) {
        assert last !in init;
        assert last !in Elements(Excluding(init, gone));
      }
    }
  }

  lemma {:induction false} DistinctSize(s: seq<IpAddr>)
    requires NoDuplicates(s)
    ensures |Elements(s)| == |s|
  {
    if s != [] {
      var init, last := s[..|s| - 1], s[|s| - 1];
      DistinctSize(init);
      assert Elements(s) == Elements(init) + {last};
    }
  }

  lemma ElementsOfSum(s: seq<IpAddr>, t: seq<IpAddr>)
    ensures Elements(s + t) == Elements(s) + Elements(t)
  {
  }

  lemma DistinctSum(s: seq<IpAddr>, t: seq<IpAddr>)
    ensures NoDuplicates(s + t) <==> NoDuplicates(s) && NoDuplicates(t) && Elements(s) !! Elements(t)
  {
    if NoDuplicates(s + t) {
      assert forall i :: 0 <= i < |s| ==> s[i] == (s + t)[i];
      assert forall i :: 0 <= i < |t| ==> t[i] == (s + t)[|s| + i];
    }
    if Elements(s) !! Elements(t) {
      assert forall i :: 0 <= i < |s| ==> s[i] in Elements(s);
      assert forall i :: 0 <= i < |t| ==> t[i] in Elements(t);
    }
  }

  function DeadsFor(planned: seq<Plan>, t: nat): set<IpAddr> {
    set p <- planned | p.target == t :: p.dead
  }

  function ReplacementsFor(planned: seq<Plan>, t: nat): set<IpAddr> {
    set p <- planned | p.target == t :: p.replacement
  }

  /** The retired addresses of a target's plans that were not among its samples. */
  function ForeignDeads(planned: seq<Plan>, t: nat, active: seq<IpAddr>): set<IpAddr> {
    DeadsFor(planned, t) - Elements(active)
  }

  /** What the counting needs of a plan. */
  ghost predicate Distinct(planned: seq<Plan>) {
    && Deads(planned) !! Replacements(planned)
    && forall i, j :: 0 <= i < j < |planned| ==>
         && planned[i].replacement != planned[j].replacement
         && (planned[i].target != planned[j].target || planned[i].dead != planned[j].dead)
  }

  lemma SoundIsDistinct(targets: seq<Target>, s: State, interval: nat, cands: seq<Entry>, planned: seq<Plan>)
    requires Sound(targets, s, interval, cands, planned)
    ensures Distinct(planned) && Replacements(planned) !! Reserved(s) && Deads(planned) <= s.health.Keys
  {
  }

  lemma PlansFor(planned: seq<Plan>, p: Plan, t: nat)
    ensures DeadsFor(planned + [p], t) == DeadsFor(planned, t) + if p.target == t then {p.dead} else {}
    ensures ReplacementsFor(planned + [p], t) ==
            ReplacementsFor(planned, t) + if p.target == t then {p.replacement} else {}
  {
  }

  lemma LastIsNew(planned: seq<Plan>, t: nat)
    requires planned != [] && Distinct(planned)
    ensures var init, p := planned[..|planned| - 1], planned[|planned| - 1];
      Distinct(init) && p.replacement !in Replacements(init) && p.dead !in DeadsFor(init, p.target)
      && ReplacementsFor(init, t) <= Replacements(init) && p.dead !in Replacements(init)
      && p.replacement !in Deads(planned)
  {
    var init, p := planned[..|planned| - 1], planned[|planned| - 1];
    assert planned == init + [p];
    DeadsGrow(init, p);
  }

  lemma {:induction false} AsManyFreshAsDead(planned: seq<Plan>, t: nat)
    requires Distinct(planned)
    ensures |DeadsFor(planned, t)| == |ReplacementsFor(planned, t)|
  {
    if planned != [] {
      var init, p := planned[..|planned| - 1], planned[|planned| - 1];
      LastIsNew(planned, t);
      assert planned == init + [p];
      PlansFor(init, p, t);
      AsManyFreshAsDead(init, t);
    }
  }

  lemma RecordingOne(replacements: map<nat, seq<IpAddr>>, p: Plan, t: nat)
    requires NoDuplicates(ReplacedFor(replacements, t))
    ensures var after := ReplacedFor(Recorded(replacements, p), t);
      && NoDuplicates(after)
      && Elements(after) == if p.target == t
           then Elements(ReplacedFor(replacements, t)) - {p.dead} + {p.replacement}
           else Elements(ReplacedFor(replacements, t))
  {
    ExcludingMeaning(ReplacedFor(replacements, p.target), {p.dead});
    hide Excluding;
  }

  lemma {:induction false} RecordingAll(replacements: map<nat, seq<IpAddr>>, planned: seq<Plan>, t: nat)
    requires NoDuplicates(ReplacedFor(replacements, t)) && Distinct(planned)
    ensures var after := ReplacedFor(RecordedAll(replacements, planned), t);
      && NoDuplicates(after)
      && Elements(after) == Elements(ReplacedFor(replacements, t)) - DeadsFor(planned, t) + ReplacementsFor(planned, t)
  {
    hide Recorded, ReplacedFor, NoDuplicates;
    if planned != [] {
      var init, p := planned[..|planned| - 1], planned[|planned| - 1];
      LastIsNew(planned, t);
      assert planned == init + [p];
      PlansFor(init, p, t);
      RecordingAll(replacements, init, t);
      RecordingOne(RecordedAll(replacements, init), p, t);
    }
  }

  /** Any retired address that a sampled target uses was retired on its account. */
  ghost predicate OwnAccount(planned: seq<Plan>, t: nat, active: seq<IpAddr>) {
    Deads(planned) * Elements(active) <= DeadsFor(planned, t)
  }

  /** The load-time samples of a target that are retired on other targets' accounts only. */
  function Taken(sampled: seq<IpAddr>, s: State, planned: seq<Plan>, t: nat): set<IpAddr> {
    Elements(Excluding(sampled, s.resampled)) * Deads(planned) - DeadsFor(planned, t)
  }

  lemma ActiveAfter(sampled: seq<IpAddr>, s: State, planned: seq<Plan>, t: nat)
    requires NoDuplicates(Active(sampled, s, t)) && Distinct(planned)
    requires Elements(Active(sampled, s, t)) !! Replacements(planned)
    ensures var before, after := Active(sampled, s, t), Active(sampled, Resampled(s, planned), t);
      && NoDuplicates(after) && Taken(sampled, s, planned, t) <= Elements(before)
      && Elements(after) ==
         Elements(before) - DeadsFor(planned, t) - Taken(sampled, s, planned, t) + ReplacementsFor(planned, t)
  {
    var s' := Resampled(s, planned);
    var kept, before, after := Excluding(sampled, s.resampled), ReplacedFor(s.replacements, t), ReplacedFor(s'.replacements, t);
    ElementsOfSum(kept, before);
    DistinctSum(kept, before);
    RecordingAll(s.replacements, planned, t);
    WithoutTwice(sampled, s.resampled, Deads(planned));
    ExcludingMeaning(kept, Deads(planned));
    var kept' := Excluding(sampled, s'.resampled);
    assert kept' == Excluding(kept, Deads(planned));
    ElementsOfSum(kept', after);
    DistinctSum(kept', after);
    assert ReplacementsFor(planned, t) <= Replacements(planned) && DeadsFor(planned, t) <= Deads(planned);
    hide Excluding, ReplacedFor, Resampled, Recorded, RecordedAll, Elements, NoDuplicates, Deads, Replacements, DeadsFor,
      ReplacementsFor, Distinct;
  }

  lemma {:induction false} WithoutTwice(s: seq<IpAddr>, first: set<IpAddr>, second: set<IpAddr>)
    ensures Excluding(s, first + second) == Excluding(Excluding(s, first), second)
  {
    if s != [] {
      WithoutTwice(s[..|s| - 1], first, second);
      var init, last := Excluding(s[..|s| - 1], first), s[|s| - 1];
      if last !in first {
        assert (init + [last])[..|init|] == init;
      } else {
        assert init + [] == init;
      }
    }
  }

  lemma SizesAddUp(active: set<IpAddr>, deads: set<IpAddr>, taken: set<IpAddr>, drawn: set<IpAddr>)
    requires |deads| == |drawn| && active !! drawn && taken <= active && taken !! deads
    ensures |active - deads - taken + drawn| + |taken| == |active| + |deads - active|
    ensures |deads - active| == 0 <==> deads <= active
  {
    var left := active - deads - taken;
    assert |left + drawn| == |left| + |drawn|;
    assert active == left + taken + active * deads;
    assert deads == (deads - active) + (active * deads);
    EmptyDifference(deads, active);
  }

  /**
   * A resampling changes the number of a target's active addresses by exactly the
   * retired addresses of its plans that were none of its samples, less the samples
   * retired on other accounts. Without such losses it is unchanged if and only if all
   * that its plans retire are its samples.
   */
  lemma ResamplingCounts(sampled: seq<IpAddr>, s: State, planned: seq<Plan>, t: nat)
    requires NoDuplicates(Active(sampled, s, t)) && Distinct(planned)
    requires Elements(Active(sampled, s, t)) !! Replacements(planned)
    ensures var before, after := Active(sampled, s, t), Active(sampled, Resampled(s, planned), t);
      && |after| + |Taken(sampled, s, planned, t)| == |before| + |ForeignDeads(planned, t, before)|
      && (Taken(sampled, s, planned, t) == {} ==>
            (|after| == |before| <==> DeadsFor(planned, t) <= Elements(before)))
      && NoDuplicates(after)
  {
    var before, after := Active(sampled, s, t), Active(sampled, Resampled(s, planned), t);
    ActiveAfter(sampled, s, planned, t);
    AsManyFreshAsDead(planned, t);
    assert ReplacementsFor(planned, t) <= Replacements(planned);
    assert Taken(sampled, s, planned, t) !! DeadsFor(planned, t);
    hide Active, Resampled, Distinct, NoDuplicates, Elements, Replacements, DeadsFor, ReplacementsFor, Taken;
    DistinctSize(before);
    DistinctSize(after);
    SizesAddUp(Elements(before), DeadsFor(planned, t), Taken(sampled, s, planned, t), ReplacementsFor(planned, t));
  }

  // ---------------------------------------------------------------------
  // Every run
  // ---------------------------------------------------------------------

  /** What a pool fixes. */
  datatype Pool = Pool(targets: seq<Target>, nat64: Option<Nat64>, interval: nat)

  /** One pass of the probe loop: the domain answers it used, the candidates
      built, the state once they were probed, and the replacements planned. */
  datatype Cycle = Cycle(
    resolved: map<nat, seq<IpAddr>>, cands: seq<Entry>, probed: State, planned: seq<Plan>)

  function Addrs(cands: seq<Entry>): set<IpAddr> {
    set e <- cands :: e.addr
  }

  /** Health holds exactly the candidates' addresses when dead samples are replaced.
      A pass in which no probe is due replaces none. */
  ghost predicate IsCycle(pool: Pool, s: State, c: Cycle, s': State) {
    && AreCandidates(pool.targets, s, c.resolved, pool.nat64, c.cands)
    && NativesFirst(pool.targets, s, c.resolved, c.cands)
    && c.probed.health.Keys == Addrs(c.cands)
    && c.probed.resampled == s.resampled && c.probed.replacements == s.replacements
    && Sound(pool.targets, c.probed, pool.interval, c.cands, c.planned)
    && s'.resampled == Resampled(c.probed, c.planned).resampled
    && s'.replacements == Resampled(c.probed, c.planned).replacements
  }

  ghost predicate IsRun(pool: Pool, states: seq<State>, cycles: seq<Cycle>) {
    && |states| == |cycles| + 1 && states[0].resampled == {} && states[0].replacements == map[]
    && forall i :: 0 <= i < |cycles| ==> IsCycle(pool, states[i], cycles[i], states[i + 1])
  }

  /** Addresses in use: active for some CIDR target. */
  ghost predicate InUse(pool: Pool, s: State, a: IpAddr) {
    exists t: nat :: t < |pool.targets| && pool.targets[t].Cidr? && a in Active(pool.targets[t].sampled, s, t)
  }

  /** In use or retired. */
  ghost predicate Accounted(pool: Pool, s: State, a: IpAddr) {
    InUse(pool, s, a) || a in s.resampled
  }

  lemma InUseIsProbed(pool: Pool, s: State, c: Cycle, s': State, a: IpAddr)
    requires IsCycle(pool, s, c, s') && Accounted(pool, s, a)
    ensures a in Reserved(c.probed)
  {
    if InUse(pool, s, a) {
      var t: nat :| t < |pool.targets| && pool.targets[t].Cidr? && a in Active(pool.targets[t].sampled, s, t);
      assert Native(pool.targets, s, c.resolved, Entry(a, t));
      assert Entry(a, t) in c.cands;
    }
  }

  lemma MembersAreElements(s: seq<IpAddr>, a: IpAddr)
    ensures a in s <==> a in Elements(s)
  {
  }

  lemma ActiveOrRetired(sampled: seq<IpAddr>, s: State, planned: seq<Plan>, t: nat, a: IpAddr)
    requires NoDuplicates(ReplacedFor(s.replacements, t)) && Distinct(planned)
    requires a in Active(sampled, s, t) || a in ReplacementsFor(planned, t)
    requires a in ReplacementsFor(planned, t) ==> a !in Deads(planned)
    ensures var s' := Resampled(s, planned); a in Active(sampled, s', t) || a in s'.resampled
    ensures NoDuplicates(ReplacedFor(Resampled(s, planned).replacements, t))
  {
    var kept, before := Excluding(sampled, s.resampled), ReplacedFor(s.replacements, t);
    var after := ReplacedFor(Resampled(s, planned).replacements, t);
    RecordingAll(s.replacements, planned, t);
    ExcludingMeaning(sampled, s.resampled);
    ExcludingMeaning(sampled, s.resampled + Deads(planned));
    assert DeadsFor(planned, t) <= Deads(planned);
    hide Excluding, NoDuplicates, RecordedAll, Distinct;
    MembersAreElements(before, a);
    MembersAreElements(after, a);
    MembersAreElements(kept, a);
    MembersAreElements(Excluding(sampled, s.resampled + Deads(planned)), a);
  }

  /** Replacements are recorded without repeats. */
  ghost predicate Recording(s: State) {
    forall t: nat :: NoDuplicates(ReplacedFor(s.replacements, t))
  }

  lemma CyclesKeepRecording(pool: Pool, s: State, c: Cycle, s': State)
    requires IsCycle(pool, s, c, s') && Recording(s)
    ensures Recording(s') && Distinct(c.planned)
  {
    SoundIsDistinct(pool.targets, c.probed, pool.interval, c.cands, c.planned);
    hide Sound, Complete, AreCandidates, Distinct, NoDuplicates;
    forall t: nat ensures NoDuplicates(ReplacedFor(s'.replacements, t)) {
      assert NoDuplicates(ReplacedFor(s.replacements, t));
      RecordingAll(s.replacements, c.planned, t);
    }
  }

  lemma CyclesKeepAccounts(pool: Pool, s: State, c: Cycle, s': State, a: IpAddr)
    requires IsCycle(pool, s, c, s') && Recording(s)
    requires Accounted(pool, s, a) || a in Replacements(c.planned)
    ensures Accounted(pool, s', a)
  {
    SoundIsDistinct(pool.targets, c.probed, pool.interval, c.cands, c.planned);
    if a !in s.resampled {
      var t := TargetUsing(pool, s, c, s', a);
      var sampled := pool.targets[t].sampled;
      hide Sound, Complete, AreCandidates, Distinct, NoDuplicates, DeadsFor, Deads;
      assert NoDuplicates(ReplacedFor(s.replacements, t));
      SameActive(sampled, s, c.probed, t);
      assert a in ReplacementsFor(c.planned, t) ==> a in Replacements(c.planned);
      ActiveOrRetired(sampled, c.probed, c.planned, t, a);
      SameActive(sampled, s', Resampled(c.probed, c.planned), t);
    }
  }

  lemma SameActive(sampled: seq<IpAddr>, s: State, s': State, t: nat)
    requires s.resampled == s'.resampled && s.replacements == s'.replacements
    ensures Active(sampled, s, t) == Active(sampled, s', t)
  {
  }

  lemma TargetUsing(pool: Pool, s: State, c: Cycle, s': State, a: IpAddr) returns (t: nat)
    requires IsCycle(pool, s, c, s') && (InUse(pool, s, a) || a in Replacements(c.planned))
    ensures t < |pool.targets| && pool.targets[t].Cidr?
    ensures a in Active(pool.targets[t].sampled, s, t) || a in ReplacementsFor(c.planned, t)
  {
    hide Complete, AreCandidates, Active;
    if InUse(pool, s, a) {
      t :| t < |pool.targets| && pool.targets[t].Cidr? && a in Active(pool.targets[t].sampled, s, t);
    } else {
      var i :| 0 <= i < |c.planned| && c.planned[i].replacement == a;
      t := c.planned[i].target;
      assert c.planned[i] in c.planned;
    }
  }

  lemma CycleOf(pool: Pool, states: seq<State>, cycles: seq<Cycle>, i: nat)
    requires IsRun(pool, states, cycles) && |states| == |cycles| + 1 && i < |cycles|
    ensures IsCycle(pool, states[i], cycles[i], states[i + 1])
  {
  }

  lemma {:induction false} RunsKeepRecording(pool: Pool, states: seq<State>, cycles: seq<Cycle>, n: nat)
    requires IsRun(pool, states, cycles) && n < |states| == |cycles| + 1
    ensures Recording(states[n])
  {
    hide IsCycle;
    if n > 0 {
      RunsKeepRecording(pool, states, cycles, n - 1);
      hide Recording;
      CyclesKeepRecording(pool, states[n - 1], cycles[n - 1], states[n]);
    }
  }

  lemma {:induction false} StaysAccounted(pool: Pool, states: seq<State>, cycles: seq<Cycle>, a: IpAddr, m: nat, n: nat)
    requires IsRun(pool, states, cycles) && m <= n < |states| && Accounted(pool, states[m], a)
    ensures Accounted(pool, states[n], a)
    decreases n - m
  {
    hide IsCycle, Accounted, Recording;
    if m < n {
      StaysAccounted(pool, states, cycles, a, m, n - 1);
      RunsKeepRecording(pool, states, cycles, n - 1);
      CyclesKeepAccounts(pool, states[n - 1], cycles[n - 1], states[n], a);
    }
  }

  /**
   * No address is drawn twice in a run: a replacement differs from every address
   * any target ever drew before it, whether still in use or retired since, and
   * from every address retired before it.
   */
  lemma NeverDrawnTwice(pool: Pool, states: seq<State>, cycles: seq<Cycle>, i: nat, j: nat, p: Plan, q: Plan)
    requires IsRun(pool, states, cycles) && i < j < |cycles| && p in cycles[i].planned && q in cycles[j].planned
    ensures q.replacement != p.replacement && q.replacement != p.dead
    ensures forall t: nat :: t < |pool.targets| && pool.targets[t].Cidr? ==> q.replacement !in pool.targets[t].sampled
  {
    RunsKeepRecording(pool, states, cycles, i);
    assert IsCycle(pool, states[i], cycles[i], states[i + 1]);
    assert IsCycle(pool, states[j], cycles[j], states[j + 1]);
    SoundIsDistinct(pool.targets, cycles[j].probed, pool.interval, cycles[j].cands, cycles[j].planned);
    assert q.replacement in Replacements(cycles[j].planned) && p.replacement in Replacements(cycles[i].planned);
    CyclesKeepAccounts(pool, states[i], cycles[i], states[i + 1], p.replacement);
    assert p.dead in states[i + 1].resampled;
    hide IsCycle, Sound, Complete, Recording, IsRun, Reserved, Distinct;
    AccountedIsReserved(pool, states, cycles, p.replacement, i + 1, j);
    AccountedIsReserved(pool, states, cycles, p.dead, i + 1, j);
    forall t: nat, a | t < |pool.targets| && pool.targets[t].Cidr? && a in pool.targets[t].sampled
      ensures a in Reserved(cycles[j].probed)
    {
      SamplesAreAccounted(pool, states, cycles, t, a);
      AccountedIsReserved(pool, states, cycles, a, 0, j);
    }
  }

  lemma AccountedIsReserved(pool: Pool, states: seq<State>, cycles: seq<Cycle>, a: IpAddr, m: nat, j: nat)
    requires IsRun(pool, states, cycles) && m <= j < |cycles| && Accounted(pool, states[m], a)
    ensures a in Reserved(cycles[j].probed)
  {
    hide IsCycle, Accounted, Reserved;
    StaysAccounted(pool, states, cycles, a, m, j);
    InUseIsProbed(pool, states[j], cycles[j], states[j + 1], a);
  }

  lemma SamplesAreAccounted(pool: Pool, states: seq<State>, cycles: seq<Cycle>, t: nat, a: IpAddr)
    requires IsRun(pool, states, cycles) && t < |pool.targets| && pool.targets[t].Cidr?
    requires a in pool.targets[t].sampled
    ensures Accounted(pool, states[0], a)
  {
    hide IsCycle;
    var sampled := pool.targets[t].sampled;
    ExcludingMeaning(sampled, {});
    MembersAreElements(sampled, a);
    MembersAreElements(Excluding(sampled, {}), a);
    assert a in Active(sampled, states[0], t);
  }

  // ---------------------------------------------------------------------
  // Sample sizes over every run
  // ---------------------------------------------------------------------

  /** Samples drawn at load time: distinct addresses of their network. */
  ghost predicate WellSampled(pool: Pool) {
    forall t: nat :: IsSampled(pool.targets, t) ==> Tidy(pool.targets[t].net, pool.targets[t].sampled)
  }

  ghost predicate Tidy(net: IpNet, addrs: seq<IpAddr>) {
    NoDuplicates(addrs) && forall i :: 0 <= i < |addrs| ==> InNetwork(net, addrs[i])
  }

  ghost predicate DisjointNetworks(a: IpNet, b: IpNet) {
    forall x :: !(InNetwork(a, x) && InNetwork(b, x))
  }

  /** Sampled targets name pairwise disjoint networks. */
  ghost predicate Separate(pool: Pool) {
    forall t: nat, u: nat :: IsSampled(pool.targets, t) && IsSampled(pool.targets, u) && t != u ==>
      DisjointNetworks(pool.targets[t].net, pool.targets[u].net)
  }

  /** No projection of an IPv4 address lies in a sampled network. */
  ghost predicate ProjectionsOutside(pool: Pool) {
    pool.nat64.Some? ==>
      forall t: nat, k, v: nat :: IsSampled(pool.targets, t) && 0 <= k < |pool.nat64.value.prefixes| ==>
        !InNetwork(pool.targets[t].net, V6(pool.nat64.value.prefixes[k](v)))
  }

  ghost predicate AllTidy(pool: Pool, s: State) {
    forall t: nat :: IsSampled(pool.targets, t) ==>
      Tidy(pool.targets[t].net, Active(pool.targets[t].sampled, s, t))
  }

  // ---------------------------------------------------------------------
  // Whom a plan belongs to
  // ---------------------------------------------------------------------

  /** The candidates of a target that the pass is to replace: known before it plans. */
  function HopelessOf(pool: Pool, c: Cycle, t: nat): set<IpAddr> {
    set e <- c.cands | e.target == t && Hopeless(pool.targets, c.probed, pool.interval, e) :: e.addr
  }

  /** Addresses of the network that are not in use. */
  ghost predicate AreFree(net: IpNet, reserved: set<IpAddr>, free: set<IpAddr>) {
    forall a :: a in free ==> InNetwork(net, a) && a !in reserved
  }

  /** At least `n` addresses of the network are not in use. */
  ghost predicate RoomFor(net: IpNet, reserved: set<IpAddr>, n: nat) {
    net.hostBits < 128 && exists free :: |free| >= n && AreFree(net, reserved, free)
  }

  /** The pass plans for every hopeless candidate it can, and there is room for those
      of `t`; or it plans nothing. */
  ghost predicate HasRoom(pool: Pool, c: Cycle, t: nat)
    requires IsSampled(pool.targets, t)
  {
    c.planned == []
    || (Complete(pool.targets, c.probed, pool.interval, c.cands, c.planned)
        && RoomFor(pool.targets[t].net, Reserved(c.probed), |HopelessOf(pool, c, t)|))
  }

  lemma SameNetwork(pool: Pool, t: nat, u: nat, a: IpAddr)
    requires Separate(pool) && IsSampled(pool.targets, t) && IsSampled(pool.targets, u)
    requires InNetwork(pool.targets[t].net, a) && InNetwork(pool.targets[u].net, a)
    ensures t == u
  {
  }

  lemma PlannedAreHopeless(pool: Pool, s: State, c: Cycle, s': State, t: nat)
    requires IsCycle(pool, s, c, s')
    ensures DeadsFor(c.planned, t) <= HopelessOf(pool, c, t)
  {
  }

  /** Free addresses of a network that are used up went to that network's target. */
  lemma RoomGoesToItsTarget(pool: Pool, s: State, c: Cycle, s': State, t: nat, free: set<IpAddr>)
    requires IsCycle(pool, s, c, s') && Separate(pool) && IsSampled(pool.targets, t)
    requires forall a <- free :: InNetwork(pool.targets[t].net, a) && a in Replacements(c.planned)
    ensures free <= ReplacementsFor(c.planned, t)
  {
  }

  lemma NotDeadIsNotPlanned(planned: seq<Plan>, e: Entry)
    requires IsPlanned(planned, e)
    ensures e.addr in DeadsFor(planned, e.target)
  {
  }

  /** A hopeless candidate is passed over only when its network is used up. */
  lemma PassedOverMeansExhausted(pool: Pool, c: Cycle, t: nat, x: IpAddr)
    requires Complete(pool.targets, c.probed, pool.interval, c.cands, c.planned) && IsSampled(pool.targets, t)
    requires x in HopelessOf(pool, c, t) && x !in DeadsFor(c.planned, t)
    ensures Exhausted(pool.targets[t].net, Reserved(c.probed) + Replacements(c.planned))
  {
    hide Hopeless, Exhausted, Reserved, Replacements, DeadsFor, IsPlanned;
    var e :| e in c.cands && e.target == t && Hopeless(pool.targets, c.probed, pool.interval, e) && e.addr == x;
    assert SeenTo(pool.targets, c.probed, c.planned, e);
    if IsPlanned(c.planned, e) {
      NotDeadIsNotPlanned(c.planned, e);
    }
  }

  /** With room enough every hopeless candidate of the target is replaced. */
  lemma AllHopelessAreReplaced(pool: Pool, s: State, c: Cycle, s': State, t: nat)
    requires IsCycle(pool, s, c, s') && Separate(pool) && IsSampled(pool.targets, t)
    requires Complete(pool.targets, c.probed, pool.interval, c.cands, c.planned)
    requires RoomFor(pool.targets[t].net, Reserved(c.probed), |HopelessOf(pool, c, t)|)
    ensures DeadsFor(c.planned, t) == HopelessOf(pool, c, t)
  {
    SoundIsDistinct(pool.targets, c.probed, pool.interval, c.cands, c.planned);
    hide Sound, Complete, AreCandidates, Resampled, InNetwork, Reserved, Separate, IsCycle, HopelessOf, DeadsFor,
      ReplacementsFor, Replacements, Distinct, AreFree, Exhausted;
    PlannedAreHopeless(pool, s, c, s', t);
    AsManyFreshAsDead(c.planned, t);
    var net := pool.targets[t].net;
    var free :| |free| >= |HopelessOf(pool, c, t)| && AreFree(net, Reserved(c.probed), free);
    if x :| x in HopelessOf(pool, c, t) && x !in DeadsFor(c.planned, t) {
      PassedOverMeansExhausted(pool, c, t, x);
      UsedUp(net, Reserved(c.probed), Replacements(c.planned), free);
      RoomGoesToItsTarget(pool, s, c, s', t, free);
      NoneLeftOver(HopelessOf(pool, c, t), DeadsFor(c.planned, t), free, ReplacementsFor(c.planned, t));
    }
  }

  lemma UsedUp(net: IpNet, reserved: set<IpAddr>, drawn: set<IpAddr>, free: set<IpAddr>)
    requires net.hostBits < 128 && Exhausted(net, reserved + drawn) && AreFree(net, reserved, free)
    ensures forall a <- free :: InNetwork(net, a) && a in drawn
  {
    hide InNetwork;
  }

  lemma NoneLeftOver(hopeless: set<IpAddr>, deads: set<IpAddr>, free: set<IpAddr>, drawn: set<IpAddr>)
    requires deads <= hopeless && |deads| == |drawn| && free <= drawn && |free| >= |hopeless|
    ensures deads == hopeless
  {
    FewerKeys(free, drawn);
    FewerKeys(deads, hopeless);
    SameSizeSubset(deads, hopeless);
  }

  lemma RoomGivesOwnAccount(pool: Pool, s: State, c: Cycle, s': State, t: nat)
    requires IsCycle(pool, s, c, s') && Separate(pool) && IsSampled(pool.targets, t) && HasRoom(pool, c, t)
    ensures OwnAccount(c.planned, t, Active(pool.targets[t].sampled, s, t))
  {
    var active := Active(pool.targets[t].sampled, s, t);
    if c.planned != [] {
      AllHopelessAreReplaced(pool, s, c, s', t);
      forall a | a in Deads(c.planned) && a in active ensures a in HopelessOf(pool, c, t) {
        var i :| 0 <= i < |c.planned| && c.planned[i].dead == a;
        HopelessForAll(pool, s, c, s', t, i);
      }
    }
  }

  lemma HopelessForAll(pool: Pool, s: State, c: Cycle, s': State, t: nat, i: nat)
    requires IsCycle(pool, s, c, s') && IsSampled(pool.targets, t) && i < |c.planned|
    requires c.planned[i].dead in Active(pool.targets[t].sampled, s, t)
    ensures c.planned[i].dead in HopelessOf(pool, c, t)
  {
    hide Active, Resampled, InNetwork;
    var e := Entry(c.planned[i].dead, t);
    assert Native(pool.targets, s, c.resolved, e);
    assert e in c.cands && Hopeless(pool.targets, c.probed, pool.interval, e);
  }

  /** No other target's plan touches the samples of `t`: no projection lies in a
      sampled network, or the pass has room to replace what dies there. */
  ghost predicate Sheltered(pool: Pool, c: Cycle, t: nat)
    requires IsSampled(pool.targets, t)
  {
    ProjectionsOutside(pool) || HasRoom(pool, c, t)
  }

  lemma PlansAreOnOwnAccount(pool: Pool, s: State, c: Cycle, s': State, t: nat)
    requires IsCycle(pool, s, c, s') && Separate(pool) && AllTidy(pool, s)
    requires IsSampled(pool.targets, t) && Sheltered(pool, c, t)
    ensures OwnAccount(c.planned, t, Active(pool.targets[t].sampled, s, t))
  {
    var active := Active(pool.targets[t].sampled, s, t);
    if ProjectionsOutside(pool) {
      forall a | a in Deads(c.planned) && a in active ensures a in DeadsFor(c.planned, t) {
        var i :| 0 <= i < |c.planned| && c.planned[i].dead == a;
        PlannedIsOwn(pool, s, c, s', t, i);
        assert c.planned[i] in c.planned;
      }
    } else {
      RoomGivesOwnAccount(pool, s, c, s', t);
    }
  }

  lemma PlannedIsOwn(pool: Pool, s: State, c: Cycle, s': State, t: nat, i: nat)
    requires IsCycle(pool, s, c, s') && Separate(pool) && ProjectionsOutside(pool) && AllTidy(pool, s)
    requires IsSampled(pool.targets, t) && i < |c.planned|
    requires c.planned[i].dead in Active(pool.targets[t].sampled, s, t)
    ensures c.planned[i].target == t
  {
    hide Complete, Active, Recorded, RecordedAll, InNetwork;
    var p := c.planned[i];
    assert InNetwork(pool.targets[t].net, p.dead);
    var e := Entry(p.dead, p.target);
    assert e in c.cands && IsSampled(pool.targets, p.target);
    if Native(pool.targets, s, c.resolved, e) {
      SameNetwork(pool, t, p.target, p.dead);
    }
  }

  // ---------------------------------------------------------------------
  // Sizes
  // ---------------------------------------------------------------------

  lemma FreshToTheTarget(pool: Pool, s: State, c: Cycle, s': State, t: nat)
    requires IsCycle(pool, s, c, s') && IsSampled(pool.targets, t)
    ensures Elements(Active(pool.targets[t].sampled, c.probed, t)) !! Replacements(c.planned)
    ensures Distinct(c.planned)
  {
    var sampled := pool.targets[t].sampled;
    SoundIsDistinct(pool.targets, c.probed, pool.interval, c.cands, c.planned);
    SameActive(sampled, s, c.probed, t);
    forall a | a in Elements(Active(sampled, s, t)) ensures a in Reserved(c.probed) {
      assert InUse(pool, s, a);
      InUseIsProbed(pool, s, c, s', a);
    }
  }

  lemma CyclesStayTidy(pool: Pool, s: State, c: Cycle, s': State, t: nat)
    requires IsCycle(pool, s, c, s') && AllTidy(pool, s) && IsSampled(pool.targets, t)
    ensures Tidy(pool.targets[t].net, Active(pool.targets[t].sampled, s', t))
  {
    var target := pool.targets[t];
    FreshToTheTarget(pool, s, c, s', t);
    SameActive(target.sampled, s, c.probed, t);
    SameActive(target.sampled, s', Resampled(c.probed, c.planned), t);
    assert Tidy(target.net, Active(target.sampled, s, t));
    hide AllTidy, Resampled;
    ActiveAfter(target.sampled, c.probed, c.planned, t);
    ReplacementsAreInside(pool, s, c, s', t);
    StaysInside(target.net, Active(target.sampled, s, t), Active(target.sampled, s', t), ReplacementsFor(c.planned, t));
  }

  lemma CyclesCount(pool: Pool, s: State, c: Cycle, s': State, t: nat)
    requires IsCycle(pool, s, c, s') && AllTidy(pool, s) && IsSampled(pool.targets, t)
    ensures var sampled := pool.targets[t].sampled;
      |Active(sampled, s', t)| + TakenIn(pool, s, c, t) == |Active(sampled, s, t)| + ForeignIn(pool, s, c, t)
  {
    var target := pool.targets[t];
    FreshToTheTarget(pool, s, c, s', t);
    SameActive(target.sampled, s, c.probed, t);
    SameActive(target.sampled, s', Resampled(c.probed, c.planned), t);
    assert Tidy(target.net, Active(target.sampled, s, t));
    assert Taken(target.sampled, s, c.planned, t) == Taken(target.sampled, c.probed, c.planned, t);
    hide AllTidy, Resampled, IsCycle, Taken;
    ResamplingCounts(target.sampled, c.probed, c.planned, t);
  }

  lemma NothingTaken(pool: Pool, s: State, c: Cycle, s': State, t: nat)
    requires IsCycle(pool, s, c, s') && Separate(pool) && AllTidy(pool, s)
    requires IsSampled(pool.targets, t) && Sheltered(pool, c, t)
    ensures TakenIn(pool, s, c, t) == 0
  {
    PlansAreOnOwnAccount(pool, s, c, s', t);
    hide IsCycle, Separate, AllTidy, Sheltered;
    assert Taken(pool.targets[t].sampled, s, c.planned, t) == {};
  }

  /** The addresses of the network that are not in use. */
  ghost predicate AllFree(net: IpNet, reserved: set<IpAddr>, free: set<IpAddr>) {
    forall a :: a in free <==> InNetwork(net, a) && a !in reserved
  }

  /** A target has one plan for each hopeless candidate and free address it can pair. */
  lemma AsManyPlansAsPairs(pool: Pool, s: State, c: Cycle, s': State, t: nat, free: set<IpAddr>)
    requires IsCycle(pool, s, c, s') && Separate(pool) && IsSampled(pool.targets, t)
    requires Complete(pool.targets, c.probed, pool.interval, c.cands, c.planned)
    requires pool.targets[t].net.hostBits < 128 && AllFree(pool.targets[t].net, Reserved(c.probed), free)
    ensures DeadsFor(c.planned, t) <= HopelessOf(pool, c, t)
    ensures |DeadsFor(c.planned, t)| == Min(|HopelessOf(pool, c, t)|, |free|)
  {
    SoundIsDistinct(pool.targets, c.probed, pool.interval, c.cands, c.planned);
    PlannedAreHopeless(pool, s, c, s', t);
    AsManyFreshAsDead(c.planned, t);
    ReplacementsAreInside(pool, s, c, s', t);
    ReplacementsAreFree(pool, s, c, s', t, free);
    hide Sound, Complete, AreCandidates, NativesFirst, Resampled, InNetwork, Reserved, Separate, IsCycle, HopelessOf,
      DeadsFor, ReplacementsFor, Replacements, Distinct, Exhausted, AllFree;
    var hopeless, deads, drawn := HopelessOf(pool, c, t), DeadsFor(c.planned, t), ReplacementsFor(c.planned, t);
    FewerKeys(deads, hopeless);
    FewerKeys(drawn, free);
    if x :| x in hopeless && x !in deads {
      PassedOverMeansExhausted(pool, c, t, x);
      AllFreeAreFree(pool.targets[t].net, Reserved(c.probed), free);
      UsedUp(pool.targets[t].net, Reserved(c.probed), Replacements(c.planned), free);
      RoomGoesToItsTarget(pool, s, c, s', t, free);
      FewerKeys(free, drawn);
    } else {
      assert deads == hopeless;
    }
  }

  lemma ReplacementsAreFree(pool: Pool, s: State, c: Cycle, s': State, t: nat, free: set<IpAddr>)
    requires IsCycle(pool, s, c, s') && IsSampled(pool.targets, t)
    requires AllFree(pool.targets[t].net, Reserved(c.probed), free)
    ensures ReplacementsFor(c.planned, t) <= free
  {
    hide AreCandidates, NativesFirst, InNetwork, Reserved;
  }

  lemma AllFreeAreFree(net: IpNet, reserved: set<IpAddr>, free: set<IpAddr>)
    requires AllFree(net, reserved, free)
    ensures AreFree(net, reserved, free)
  {
  }

  /** A plan for a hopeless candidate that is no sample means one for each that is:
      samples come first. */
  lemma SamplesAreServedFirst(pool: Pool, s: State, c: Cycle, s': State, t: nat, a: IpAddr)
    requires IsCycle(pool, s, c, s') && IsSampled(pool.targets, t) && pool.targets[t].net.hostBits < 128
    requires InTurn(pool.targets, c.probed, pool.interval, c.cands, c.planned)
    requires a in DeadsFor(c.planned, t) && a !in Active(pool.targets[t].sampled, s, t)
    ensures HopelessOf(pool, c, t) * Elements(Active(pool.targets[t].sampled, s, t)) <= DeadsFor(c.planned, t)
  {
    hide Hopeless, AreCandidates, Sound, Resampled, Active, ServedBefore, InNetwork;
    var k: nat :| NativesEndAt(pool.targets, s, c.resolved, c.cands, k);
    assert ServedBefore(pool.targets, c.probed, pool.interval, c.cands, c.planned, k);
    var i :| 0 <= i < |c.planned| && c.planned[i].target == t && c.planned[i].dead == a;
    var f := Entry(a, t);
    assert f !in c.cands[..k] && IsPlanned(c.planned, f);
    forall b | b in HopelessOf(pool, c, t) && b in Active(pool.targets[t].sampled, s, t)
      ensures b in DeadsFor(c.planned, t)
    {
      var e := Entry(b, t);
      assert e in c.cands[..k] && Contends(pool.targets, c.probed, pool.interval, e);
      ServedToo(pool.targets, c.probed, pool.interval, c.cands, c.planned, k, e, f);
      NotDeadIsNotPlanned(c.planned, e);
    }
  }

  lemma ServedToo(
    targets: seq<Target>, s: State, interval: nat, cands: seq<Entry>, planned: seq<Plan>, k: nat, e: Entry, f: Entry)
    requires k <= |cands| && ServedBefore(targets, s, interval, cands, planned, k)
    requires e in cands[..k] && f !in cands[..k] && f.target == e.target
    requires Contends(targets, s, interval, e) && IsPlanned(planned, f)
    ensures IsPlanned(planned, e)
  {
  }

  /** How many `others` are served from the free addresses that `own` leave. */
  function Surplus(own: nat, others: nat, free: nat): nat {
    if free <= own then 0 else Min(others, free - own)
  }

  /**
   * Exactly how a pass changes the number of a target's samples, in terms of the state
   * before it. Samples are served first, so the number grows by what free addresses are
   * left for the hopeless candidates that are no samples. It is unchanged if and only if
   * there are no such candidates, or no more free addresses than hopeless samples.
   */
  lemma UnchangedExactlyWhenSamplesDie(pool: Pool, s: State, c: Cycle, s': State, t: nat, free: set<IpAddr>)
    requires IsCycle(pool, s, c, s') && Complete(pool.targets, c.probed, pool.interval, c.cands, c.planned)
    requires InTurn(pool.targets, c.probed, pool.interval, c.cands, c.planned)
    requires Separate(pool) && AllTidy(pool, s) && IsSampled(pool.targets, t)
    requires pool.targets[t].net.hostBits < 128 && AllFree(pool.targets[t].net, Reserved(c.probed), free)
    ensures var before, after := Active(pool.targets[t].sampled, s, t), Active(pool.targets[t].sampled, s', t);
      var hopeless := HopelessOf(pool, c, t);
      && |after| + TakenIn(pool, s, c, t)
         == |before| + Surplus(|hopeless * Elements(before)|, |hopeless - Elements(before)|, |free|)
      && (ProjectionsOutside(pool) || |free| >= |hopeless| ==>
            && TakenIn(pool, s, c, t) == 0
            && (|after| == |before| <==> hopeless <= Elements(before) || |free| <= |hopeless * Elements(before)|))
  {
    AsManyPlansAsPairs(pool, s, c, s', t, free);
    AllFreeAreFree(pool.targets[t].net, Reserved(c.probed), free);
    CyclesCount(pool, s, c, s', t);
    if ProjectionsOutside(pool) || |free| >= |HopelessOf(pool, c, t)| {
      assert |free| >= |HopelessOf(pool, c, t)| ==>
        RoomFor(pool.targets[t].net, Reserved(c.probed), |HopelessOf(pool, c, t)|);
      NothingTaken(pool, s, c, s', t);
    }
    var before := Active(pool.targets[t].sampled, s, t);
    var deads := DeadsFor(c.planned, t);
    hide IsCycle, Complete, InTurn, Separate, AllTidy, HopelessOf, Active, DeadsFor, AllFree, AreFree, InNetwork,
      TakenIn, ProjectionsOutside;
    if a :| a in deads && a !in before {
      SamplesAreServedFirst(pool, s, c, s', t, a);
    }
    SurplusOf(HopelessOf(pool, c, t), Elements(before), deads, |free|);
  }

  lemma SurplusOf(hopeless: set<IpAddr>, samples: set<IpAddr>, deads: set<IpAddr>, free: nat)
    requires deads <= hopeless && |deads| == Min(|hopeless|, free)
    requires deads <= samples || hopeless * samples <= deads
    ensures |deads - samples| == Surplus(|hopeless * samples|, |hopeless - samples|, free)
    ensures |deads - samples| == 0 <==> hopeless <= samples || free <= |hopeless * samples|
  {
    var own, others := hopeless * samples, hopeless - samples;
    assert hopeless == own + others;
    EmptyDifference(deads, samples);
    EmptyDifference(hopeless, samples);
    if deads <= samples {
      FewerKeys(deads, own);
      assert |deads - samples| == 0;
    } else {
      assert deads == own + (deads - samples);
    }
  }

  lemma EmptyDifference(a: set<IpAddr>, b: set<IpAddr>)
    ensures |a - b| == 0 <==> a <= b
  {
    assert |a - b| == 0 <==> a - b == {};
    assert forall x :: x in a && x !in b ==> x in a - b;
    if a <= b {
      assert a - b == {};
    }
  }

  lemma StaysInside(net: IpNet, before: seq<IpAddr>, after: seq<IpAddr>, drawn: set<IpAddr>)
    requires Tidy(net, before) && NoDuplicates(after) && Elements(after) <= Elements(before) + drawn
    requires forall a <- drawn :: InNetwork(net, a)
    ensures Tidy(net, after)
  {
    hide InNetwork;
    forall i | 0 <= i < |after| ensures InNetwork(net, after[i]) {
      assert after[i] in Elements(after);
    }
  }

  lemma ReplacementsAreInside(pool: Pool, s: State, c: Cycle, s': State, t: nat)
    requires IsCycle(pool, s, c, s') && IsSampled(pool.targets, t)
    ensures forall a <- ReplacementsFor(c.planned, t) :: InNetwork(pool.targets[t].net, a)
  {
  }

  /** The number of a target's samples one cycle retires on other accounts only. */
  function TakenIn(pool: Pool, s: State, c: Cycle, t: nat): nat
    requires IsSampled(pool.targets, t)
  {
    |Taken(pool.targets[t].sampled, s, c.planned, t)|
  }

  ghost function TakenSoFar(pool: Pool, states: seq<State>, cycles: seq<Cycle>, t: nat, n: nat): nat
    requires n <= |cycles| < |states| && IsSampled(pool.targets, t)
  {
    if n == 0 then 0
    else TakenSoFar(pool, states, cycles, t, n - 1) + TakenIn(pool, states[n - 1], cycles[n - 1], t)
  }

  /** The number of addresses one cycle retires on a target's account that were
      none of its samples. */
  function ForeignIn(pool: Pool, s: State, c: Cycle, t: nat): nat
    requires IsSampled(pool.targets, t)
  {
    |ForeignDeads(c.planned, t, Active(pool.targets[t].sampled, s, t))|
  }

  /** The retired addresses of a target's plans so far that were none of its samples. */
  ghost function ForeignSoFar(pool: Pool, states: seq<State>, cycles: seq<Cycle>, t: nat, n: nat): nat
    requires n <= |cycles| < |states| && IsSampled(pool.targets, t)
  {
    if n == 0 then 0
    else
      ForeignSoFar(pool, states, cycles, t, n - 1)
      + ForeignIn(pool, states[n - 1], cycles[n - 1], t)
  }

  lemma StartsAsSampled(pool: Pool, states: seq<State>, cycles: seq<Cycle>, t: nat)
    requires IsRun(pool, states, cycles) && |states| == |cycles| + 1 && IsSampled(pool.targets, t)
    ensures Active(pool.targets[t].sampled, states[0], t) == pool.targets[t].sampled
  {
    hide IsCycle;
    NothingWithout(pool.targets[t].sampled);
  }

  lemma {:induction false} RunsStayTidy(pool: Pool, states: seq<State>, cycles: seq<Cycle>, n: nat)
    requires IsRun(pool, states, cycles) && n < |states| == |cycles| + 1 && WellSampled(pool)
    ensures AllTidy(pool, states[n])
  {
    hide IsCycle, Tidy;
    if n == 0 {
      forall t: nat | IsSampled(pool.targets, t)
        ensures Active(pool.targets[t].sampled, states[0], t) == pool.targets[t].sampled
      {
        StartsAsSampled(pool, states, cycles, t);
      }
    } else {
      RunsStayTidy(pool, states, cycles, n - 1);
      forall t: nat | IsSampled(pool.targets, t)
        ensures Tidy(pool.targets[t].net, Active(pool.targets[t].sampled, states[n], t))
      {
        CyclesStayTidy(pool, states[n - 1], cycles[n - 1], states[n], t);
      }
    }
  }

  lemma {:induction false} NothingWithout(s: seq<IpAddr>)
    ensures Excluding(s, {}) == s
  {
    if s != [] {
      NothingWithout(s[..|s| - 1]);
    }
  }

  /**
   * Over every run, a sampled target's number of active addresses is what was drawn
   * at load time, plus one for each time an address that was none of its samples was
   * retired on its account, less its samples retired on other accounts only: nothing
   * else is gained or lost. With disjoint networks that are sheltered none is lost.
   */
  lemma {:induction false} SampleSizes(pool: Pool, states: seq<State>, cycles: seq<Cycle>, t: nat, n: nat)
    requires IsRun(pool, states, cycles) && n < |states| == |cycles| + 1 && IsSampled(pool.targets, t)
    requires WellSampled(pool)
    ensures |Active(pool.targets[t].sampled, states[n], t)| + TakenSoFar(pool, states, cycles, t, n)
            == |pool.targets[t].sampled| + ForeignSoFar(pool, states, cycles, t, n)
    ensures Separate(pool) && (forall i :: 0 <= i < n ==> Sheltered(pool, cycles[i], t)) ==>
              TakenSoFar(pool, states, cycles, t, n) == 0
  {
    hide IsRun, IsCycle, Separate, Sheltered, WellSampled, Active, AllTidy, ForeignIn, TakenIn, Tidy;
    if n == 0 {
      StartsAsSampled(pool, states, cycles, t);
    } else {
      SampleSizes(pool, states, cycles, t, n - 1);
      RunsStayTidy(pool, states, cycles, n - 1);
      CycleOf(pool, states, cycles, n - 1);
      CyclesCount(pool, states[n - 1], cycles[n - 1], states[n], t);
      if Separate(pool) && Sheltered(pool, cycles[n - 1], t) {
        NothingTaken(pool, states[n - 1], cycles[n - 1], states[n], t);
      }
    }
  }

  /** A target whose addresses are never projected: it is IPv6, or left out of NAT64. */
  predicate Unprojected(pool: Pool, t: nat)
    requires IsSampled(pool.targets, t)
  {
    pool.nat64.None? || pool.nat64.value.prefixes == [] || pool.targets[t].net.Net6?
    || !Participates(pool.nat64.value, t)
  }

  lemma UnprojectedDiesAtHome(pool: Pool, s: State, c: Cycle, s': State, t: nat)
    requires IsCycle(pool, s, c, s') && AllTidy(pool, s) && IsSampled(pool.targets, t) && Unprojected(pool, t)
    ensures ForeignIn(pool, s, c, t) == 0
  {
  }

  /** So a target that NAT64 leaves alone never grows, and keeps exactly the number of
      samples drawn if and only if none of them was retired on other accounts only:
      always, with disjoint networks that are sheltered. */
  lemma SampleSizesAreConserved(pool: Pool, states: seq<State>, cycles: seq<Cycle>, t: nat, n: nat)
    requires IsRun(pool, states, cycles) && n < |states| == |cycles| + 1 && IsSampled(pool.targets, t)
    requires WellSampled(pool) && Unprojected(pool, t)
    ensures var size := |Active(pool.targets[t].sampled, states[n], t)|;
      && size <= |pool.targets[t].sampled|
      && (size == |pool.targets[t].sampled| <==> TakenSoFar(pool, states, cycles, t, n) == 0)
      && (Separate(pool) && (forall i :: 0 <= i < n ==> Sheltered(pool, cycles[i], t)) ==>
            size == |pool.targets[t].sampled|)
  {
    hide IsRun, Separate, Sheltered, Active;
    SampleSizes(pool, states, cycles, t, n);
    NothingForeign(pool, states, cycles, t, n);
  }

  lemma {:induction false} NothingForeign(pool: Pool, states: seq<State>, cycles: seq<Cycle>, t: nat, n: nat)
    requires IsRun(pool, states, cycles) && n < |states| == |cycles| + 1 && IsSampled(pool.targets, t)
    requires WellSampled(pool) && Unprojected(pool, t)
    ensures ForeignSoFar(pool, states, cycles, t, n) == 0
  {
    hide IsRun, IsCycle, WellSampled, Unprojected, Active, AllTidy, ForeignIn;
    if n > 0 {
      NothingForeign(pool, states, cycles, t, n - 1);
      RunsStayTidy(pool, states, cycles, n - 1);
      CycleOf(pool, states, cycles, n - 1);
      UnprojectedDiesAtHome(pool, states[n - 1], cycles[n - 1], states[n], t);
    }
  }

  lemma {:induction false} RetiredStaysRetired(
    pool: Pool, states: seq<State>, cycles: seq<Cycle>, a: IpAddr, m: nat, n: nat)
    requires IsRun(pool, states, cycles) && m <= n < |states| && a in states[m].resampled
    ensures a in states[n].resampled
    decreases n - m
  {
    hide AreCandidates, Sound;
    if m < n {
      RetiredStaysRetired(pool, states, cycles, a, m, n - 1);
      assert IsCycle(pool, states[n - 1], cycles[n - 1], states[n]);
    }
  }

  /**
   * A retired projection is not filtered out, as a retired sample is: in every later
   * pass in which its IPv4 address is active the projection is a candidate, and has
   * health to die again.
   */
  lemma RetiredProjectionsReturn(
    pool: Pool, states: seq<State>, cycles: seq<Cycle>, i: nat, j: nat, p: Plan, v4: IpAddr)
    requires IsRun(pool, states, cycles) && i < j < |cycles| && p in cycles[i].planned && IsSampled(pool.targets, p.target)
    requires ProjectionOf(pool.nat64, v4, Entry(p.dead, p.target))
    requires v4 in Active(pool.targets[p.target].sampled, states[j], p.target)
    ensures p.dead in states[j].resampled
    ensures Entry(p.dead, p.target) in cycles[j].cands && p.dead in cycles[j].probed.health
  {
    assert IsCycle(pool, states[i], cycles[i], states[i + 1]) && IsCycle(pool, states[j], cycles[j], states[j + 1]);
    hide Sound, ProjectionOf, Active;
    assert p.dead in states[i + 1].resampled;
    RetiredStaysRetired(pool, states, cycles, p.dead, i + 1, j);
    assert Native(pool.targets, states[j], cycles[j].resolved, Entry(v4, p.target));
    assert Entry(p.dead, p.target) in cycles[j].cands;
    assert p.dead in Addrs(cycles[j].cands);
  }
}
