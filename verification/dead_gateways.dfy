/**
 * What a dead NAT64 gateway does to sampled targets: two runs of the probe loop, one
 * in which a sample grows without bound and one in which a sample is lost.
 */
module DeadGateways {
  import opened Collections
  import opened Net
  import opened Networks
  import opened Naturals
  import opened Text
  import opened Resampling
  import P = EndpointHealth

  // ---------------------------------------------------------------------
  // A sample that grows
  // ---------------------------------------------------------------------

  const FIRST: nat := 0x0A000001
  const FIRST_PROJECTED: nat := 0x64FF9B_00000000_00000000_0A000001

  function WellKnownPrefix(v4: nat): nat { 0x64FF9B_00000000_00000000_00000000 + v4 }

  /** `10.0.0.0/8` sampled once, with 10.0.0.1 drawn, and projected by `64:ff9b::/96`. */
  function ProjectedPool(): Pool {
    Pool([Cidr(Net4(0x0A000000, 24), Some(1), [V4(FIRST)])], Some(Nat64(None, [WellKnownPrefix])), 300)
  }

  function Sample(i: nat): IpAddr { V4(FIRST + i) }

  function Projection(i: nat): IpAddr { V6(FIRST_PROJECTED + i) }

  /** The replacements recorded after `i` passes. */
  function Replaced(i: nat): seq<IpAddr> { seq(i, j requires 0 <= j => Sample(j + 1)) }

  function RecordedAfter(i: nat): map<nat, seq<IpAddr>> {
    if i == 0 then map[] else map[0 := Replaced(i)]
  }

  /** The state after `i` passes: as many replacements, and one address retired. */
  function Grown(i: nat): State {
    State(if i == 0 then map[] else Answering(i - 1), if i == 0 then {} else {Projection(0)},
          RecordedAfter(i), [])
  }

  /** One failure degrades an endpoint, at a delay that is already the cap. */
  const QUICK: P.Timing := P.Timing(1, 300, 300)

  function Measured(): P.Probe { P.Succeeded(QUICK) }

  function NeverAnswered(): P.Probe { P.Failed(P.New(QUICK), QUICK) }

  /** A pass probes each candidate at most once, from the state it had or as a
      newcomer, and retiring an address drops its health. */
  ghost predicate Probes(t: P.Timing, s: State, c: Cycle, s': State) {
    && s'.health == Resampled(c.probed, c.planned).health
    && forall a <- c.probed.health :: ProbedOnce(t, HealthBefore(t, s, a), c.probed.health[a])
  }

  function HealthBefore(t: P.Timing, s: State, a: IpAddr): P.Probe {
    if a in s.health then s.health[a] else P.New(t)
  }

  predicate ProbedOnce(t: P.Timing, before: P.Probe, after: P.Probe) {
    after == before || after == P.Succeeded(t) || after == P.Failed(before, t)
  }

  /** The health left by pass `i`: all candidates but the retired projection. */
  function Answering(i: nat): map<IpAddr, P.Probe> {
    map a <- Addrs(GatewayCands(i)) | a != Projection(0) :: Measured()
  }

  function GatewayCands(i: nat): seq<Entry> {
    seq(i + 1, j requires 0 <= j => Entry(Sample(j), 0)) + seq(i + 1, j requires 0 <= j => Entry(Projection(j), 0))
  }

  /** Every address answers but the projection of 10.0.0.1, behind a dead gateway. */
  function GatewayDown(i: nat): Cycle {
    var health := map a <- Addrs(GatewayCands(i)) :: if a == Projection(0) then NeverAnswered() else Measured();
    Cycle(map[], GatewayCands(i), Grown(i).(health := health), [Plan(0, Projection(0), Sample(i + 1))])
  }

  predicate IsSample(a: IpAddr, i: nat) { a.V4? && FIRST <= a.bits <= FIRST + i }

  predicate IsProjection(a: IpAddr, i: nat) { a.V6? && FIRST_PROJECTED <= a.bits <= FIRST_PROJECTED + i }

  lemma GatewayPool()
    ensures var pool := ProjectedPool(); WellSampled(pool) && Separate(pool) && ProjectionsOutside(pool)
    ensures Pow2(24) == 0x100_0000
  {
    Squares(1, 2);
    Squares(2, 4);
    Squares(4, 0x10);
    Squares(8, 0x100);
    Pow2Adds(16, 8);
    hide Pow2, WellKnownPrefix;
    var pool := ProjectedPool();
    assert forall t: nat :: IsSampled(pool.targets, t) ==> t == 0;
  }

  lemma GatewayActive(i: nat)
    ensures var active := Active([V4(FIRST)], Grown(i), 0);
      |active| == i + 1 && forall a :: a in active <==> IsSample(a, i)
  {
    var rest := Replaced(i);
    assert Excluding([V4(FIRST)], Grown(i).resampled) == [V4(FIRST)];
    assert Active([V4(FIRST)], Grown(i), 0) == [V4(FIRST)] + rest;
    forall a | IsSample(a, i) ensures a in [V4(FIRST)] + rest {
      if a.bits > FIRST {
        assert rest[a.bits - FIRST - 1] == a;
      }
    }
  }

  lemma GatewayCandsMeaning(i: nat)
    ensures forall e :: e in GatewayCands(i) <==> e.target == 0 && (IsSample(e.addr, i) || IsProjection(e.addr, i))
  {
    var cands := GatewayCands(i);
    forall e: Entry | e.target == 0 && (IsSample(e.addr, i) || IsProjection(e.addr, i)) ensures e in cands {
      if IsSample(e.addr, i) {
        assert cands[e.addr.bits - FIRST] == e;
      } else {
        assert cands[i + 1 + e.addr.bits - FIRST_PROJECTED] == e;
      }
    }
  }

  lemma GatewayCandidates(i: nat)
    ensures var pool := ProjectedPool(); AreCandidates(pool.targets, Grown(i), map[], pool.nat64, GatewayCands(i))
  {
    var pool := ProjectedPool();
    GatewayActive(i);
    GatewayCandsMeaning(i);
    hide GatewayCands, Active, Grown;
    assert forall e :: Native(pool.targets, Grown(i), map[], e) <==> e.target == 0 && IsSample(e.addr, i);
    forall v4, e ensures ProjectionOf(pool.nat64, v4, e) <==> v4.V4? && e.addr == V6(WellKnownPrefix(v4.bits)) {
      OnePrefix(v4, e);
    }
    hide Native, ProjectionOf;
    forall e: Entry | e.target == 0 && IsProjection(e.addr, i)
      ensures exists v4 :: Native(pool.targets, Grown(i), map[], Entry(v4, e.target)) && ProjectionOf(pool.nat64, v4, e)
    {
      var v4 := Sample(e.addr.bits - FIRST_PROJECTED);
      assert Native(pool.targets, Grown(i), map[], Entry(v4, e.target)) && ProjectionOf(pool.nat64, v4, e);
    }
  }

  lemma GatewayNatives(i: nat)
    ensures NativesFirst(ProjectedPool().targets, Grown(i), map[], GatewayCands(i))
  {
    var targets, cands := ProjectedPool().targets, GatewayCands(i);
    GatewayActive(i);
    hide Active, Grown;
    assert forall e :: Native(targets, Grown(i), map[], e) <==> e.target == 0 && IsSample(e.addr, i);
    hide Native;
    assert forall j :: 0 <= j < |cands| ==> (IsSample(cands[j].addr, i) <==> j <= i);
    assert NativesEndAt(targets, Grown(i), map[], cands, i + 1);
  }

  lemma OnePrefix(v4: IpAddr, e: Entry)
    ensures ProjectionOf(ProjectedPool().nat64, v4, e) <==> v4.V4? && e.addr == V6(WellKnownPrefix(v4.bits))
  {
    if v4.V4? && e.addr == V6(WellKnownPrefix(v4.bits)) {
      assert ProjectedPool().nat64.value.prefixes[0](v4.bits) == WellKnownPrefix(v4.bits);
    }
  }

  lemma GatewayPlan(i: nat)
    requires i + 2 < 0x100_0000
    ensures var pool, c := ProjectedPool(), GatewayDown(i);
      && Sound(pool.targets, c.probed, pool.interval, c.cands, c.planned)
      && Complete(pool.targets, c.probed, pool.interval, c.cands, c.planned)
      && InTurn(pool.targets, c.probed, pool.interval, c.cands, c.planned)
  {
    var pool, c := ProjectedPool(), GatewayDown(i);
    GatewayPool();
    GatewayCandsMeaning(i);
    hide GatewayCands, Pow2, WellSampled, Separate, ProjectionsOutside, Exhausted;
    var dead := Entry(Projection(0), 0);
    assert dead in c.cands && dead.addr in c.probed.health;
    assert forall a :: a in c.probed.health ==> IsSample(a, i) || IsProjection(a, i);
    assert Sample(i + 1) !in Reserved(c.probed);
    assert c.planned[0].dead == dead.addr && IsPlanned(c.planned, dead);
  }

  lemma DrawingOne(i: nat)
    ensures Sample(i + 1) !in Replaced(i) && Replaced(i) + [Sample(i + 1)] == Replaced(i + 1)
    ensures Excluding(Replaced(i), {Projection(0)}) == Replaced(i)
  {
    hide Excluding;
    KeepsAll(Replaced(i), {Projection(0)});
  }

  lemma RecordedAllOfOne(replacements: map<nat, seq<IpAddr>>, p: Plan)
    ensures RecordedAll(replacements, [p]) == Recorded(replacements, p) && Deads([p]) == {p.dead}
  {
  }

  lemma RecordingReplacements(i: nat, dead: IpAddr, drawn: IpAddr)
    requires drawn !in Replaced(i) && Replaced(i) + [drawn] == Replaced(i + 1)
    requires Excluding(Replaced(i), {dead}) == Replaced(i)
    ensures Recorded(RecordedAfter(i), Plan(0, dead, drawn)) == RecordedAfter(i + 1)
  {
    NothingDrawn();
    hide Replaced, Excluding;
    assert ReplacedFor(RecordedAfter(i), 0) == Replaced(i);
  }

  lemma GatewayRecords(i: nat)
    ensures Resampled(GatewayDown(i).probed, GatewayDown(i).planned).replacements == Grown(i + 1).replacements
    ensures Resampled(GatewayDown(i).probed, GatewayDown(i).planned).resampled == Grown(i + 1).resampled
  {
    var p := Plan(0, Projection(0), Sample(i + 1));
    RecordedAllOfOne(RecordedAfter(i), p);
    DrawingOne(i);
    RecordingReplacements(i, Projection(0), Sample(i + 1));
    hide Replaced, RecordedAfter, GatewayCands, Answering, Addrs, NeverAnswered, RecordedAll, Recorded, Deads, Excluding,
      Sample, Projection;
  }

  lemma NothingDrawn()
    ensures Replaced(0) == []
  {
  }

  lemma {:induction false} KeepsAll(s: seq<IpAddr>, gone: set<IpAddr>)
    requires forall a :: a in s ==> a !in gone
    ensures Excluding(s, gone) == s
  {
    if s != [] {
      assert forall a :: a in s[..|s| - 1] ==> a in s;
      KeepsAll(s[..|s| - 1], gone);
    }
  }

  lemma GatewayProbes(i: nat)
    ensures Probes(QUICK, Grown(i), GatewayDown(i), Grown(i + 1))
  {
    var c := GatewayDown(i);
    hide GatewayCands;
    assert Deads(c.planned) == {Projection(0)};
    assert Projection(0) !in Grown(i).health;
    hide Projection;
    assert c.probed.health - {Projection(0)} == Answering(i);
  }

  lemma GatewayCycle(i: nat)
    requires i + 2 < 0x100_0000
    ensures IsCycle(ProjectedPool(), Grown(i), GatewayDown(i), Grown(i + 1))
  {
    GatewayCandidates(i);
    GatewayNatives(i);
    GatewayPlan(i);
    GatewayRecords(i);
    hide AreCandidates, NativesFirst, Sound, Grown, GatewayCands, Resampled, Addrs;
  }

  /**
   * There is no bound but the network on how a dead NAT64 gateway grows a sample:
   * in `n` passes the projection of one healthy sample dies `n` times, each time one
   * more address is drawn, and a target of one sample has `n` + 1.
   */
  lemma DeadGatewaysGrowTheSample(n: nat) returns (states: seq<State>, cycles: seq<Cycle>)
    requires n + 1 < 0x100_0000
    ensures var pool := ProjectedPool();
      && WellSampled(pool) && Separate(pool) && ProjectionsOutside(pool)
      && IsRun(pool, states, cycles) && |cycles| == n
      && (forall i :: 0 <= i < n ==>
            && Complete(pool.targets, cycles[i].probed, pool.interval, cycles[i].cands, cycles[i].planned)
            && InTurn(pool.targets, cycles[i].probed, pool.interval, cycles[i].cands, cycles[i].planned)
            && Probes(QUICK, states[i], cycles[i], states[i + 1])
            && cycles[i].planned == [Plan(0, Projection(0), Sample(i + 1))])
      && |pool.targets[0].sampled| == 1 && |Active(pool.targets[0].sampled, states[n], 0)| == n + 1
  {
    states, cycles := seq(n + 1, i requires 0 <= i => Grown(i)), seq(n, i requires 0 <= i => GatewayDown(i));
    var pool := ProjectedPool();
    assert pool.targets[0].sampled == [V4(FIRST)] && pool.interval == 300;
    assert Grown(0).resampled == {} && Grown(0).replacements == map[];
    hide IsCycle, Complete, InTurn, Probes, WellSampled, Separate, ProjectionsOutside, Active, IsSample, Grown, GatewayDown,
      ProjectedPool;
    GatewayPool();
    GatewayActive(n);
    forall i | 0 <= i < n
      ensures IsCycle(pool, states[i], cycles[i], states[i + 1])
      ensures Complete(pool.targets, cycles[i].probed, pool.interval, cycles[i].cands, cycles[i].planned)
      ensures InTurn(pool.targets, cycles[i].probed, pool.interval, cycles[i].cands, cycles[i].planned)
      ensures Probes(QUICK, states[i], cycles[i], states[i + 1])
      ensures cycles[i].planned == [Plan(0, Projection(0), Sample(i + 1))]
    {
      GatewayCycle(i);
      GatewayPlan(i);
      GatewayProbes(i);
      GatewayPlans(i);
    }
  }

  lemma GatewayPlans(i: nat)
    ensures GatewayDown(i).planned == [Plan(0, Projection(0), Sample(i + 1))]
  {
  }

  // ---------------------------------------------------------------------
  // A sample that is lost
  // ---------------------------------------------------------------------

  /** Besides `10.0.0.0/8`, the one address 10.0.0.1 is projected to is a target itself. */
  function CrossedPool(): Pool {
    Pool([Cidr(Net4(0x0A000000, 24), Some(1), [Sample(0)]), Cidr(Net6(FIRST_PROJECTED, 0), Some(1), [Projection(0)])],
         Some(Nat64(None, [WellKnownPrefix])), 300)
  }

  const NATIVE: seq<Entry> := [Entry(Sample(0), 0), Entry(Projection(0), 1)]

  const BEFORE: State := State(map[], {}, map[], [])

  /** The projection never answers; target 1 has no address left to replace it by. */
  function CrossedPass(): Cycle {
    Cycle(map[], NATIVE + [Entry(Projection(0), 0)],
          BEFORE.(health := map[Sample(0) := Measured(), Projection(0) := NeverAnswered()]),
          [Plan(0, Projection(0), Sample(1))])
  }

  lemma CrossedCandidates()
    ensures var pool, c := CrossedPool(), CrossedPass();
      && AreCandidates(pool.targets, BEFORE, c.resolved, pool.nat64, c.cands)
      && NativesFirst(pool.targets, BEFORE, c.resolved, c.cands)
  {
    var pool, c := CrossedPool(), CrossedPass();
    assert Active([Sample(0)], BEFORE, 0) == [Sample(0)] && Active([Projection(0)], BEFORE, 1) == [Projection(0)];
    hide Active;
    assert forall e :: Native(pool.targets, BEFORE, c.resolved, e) <==> e in NATIVE;
    hide Native;
    forall v4, e ensures ProjectionOf(pool.nat64, v4, e) <==> v4.V4? && e.addr == V6(WellKnownPrefix(v4.bits)) {
      OnePrefix(v4, e);
    }
    hide ProjectionOf;
    assert c.cands[..2] == NATIVE;
    assert NativesEndAt(pool.targets, BEFORE, c.resolved, c.cands, 2);
    assert ProjectionOf(pool.nat64, Sample(0), Entry(Projection(0), 0));
  }

  lemma CrossedIsSound()
    ensures var pool, c := CrossedPool(), CrossedPass();
      && Sound(pool.targets, c.probed, pool.interval, c.cands, c.planned)
      && forall e :: IsPlanned(c.planned, e) <==> e == Entry(Projection(0), 0)
  {
    var c := CrossedPass();
    GatewayPool();
    hide Pow2;
    assert c.cands[2] == Entry(Projection(0), 0);
    assert c.planned[0].target == 0 && c.planned[0].dead == Projection(0);
  }

  lemma CrossedIsUsedUp()
    ensures Exhausted(CrossedPool().targets[1].net, Reserved(CrossedPass().probed))
  {
    assert Pow2(0) == 1;
    hide Pow2;
    assert Projection(0) in Reserved(CrossedPass().probed);
  }

  lemma CrossedPlan()
    ensures var pool, c := CrossedPool(), CrossedPass();
      && Sound(pool.targets, c.probed, pool.interval, c.cands, c.planned)
      && Complete(pool.targets, c.probed, pool.interval, c.cands, c.planned)
      && InTurn(pool.targets, c.probed, pool.interval, c.cands, c.planned)
  {
    CrossedIsSound();
    CrossedIsUsedUp();
    hide Sound, IsPlanned, Reserved, InNetwork, Replacements;
  }

  lemma CrossedPoolIsSeparate()
    ensures WellSampled(CrossedPool()) && Separate(CrossedPool())
  {
    GatewayPool();
    assert Pow2(0) == 1;
    hide Pow2;
  }

  lemma CrossedProbes()
    ensures var c := CrossedPass(); Probes(QUICK, BEFORE, c, Resampled(c.probed, c.planned))
    ensures CrossedPass().probed.health.Keys == Addrs(CrossedPass().cands)
  {
    var c := CrossedPass();
    assert Addrs(c.cands) == {Sample(0), Projection(0)} by {
      assert c.cands == [Entry(Sample(0), 0), Entry(Projection(0), 1), Entry(Projection(0), 0)];
    }
  }

  lemma CrossedOutcome()
    ensures var pool, c := CrossedPool(), CrossedPass();
      && Active(pool.targets[1].sampled, BEFORE, 1) == [Projection(0)]
      && Active(pool.targets[1].sampled, Resampled(c.probed, c.planned), 1) == []
  {
    var p, after := Plan(0, Projection(0), Sample(1)), Resampled(CrossedPass().probed, CrossedPass().planned);
    RecordedAllOfOne(map[], p);
    assert after.resampled == {Projection(0)} && ReplacedFor(after.replacements, 1) == [];
    assert Excluding([Projection(0)], {Projection(0)}) == [] && Excluding([Projection(0)], {}) == [Projection(0)];
  }

  /** A target loses a sample for good: its one address is also the projection of
      another target's sample, and only that target has an address to draw. */
  lemma UsedUpTargetsLoseSamples() returns (s': State)
    ensures var pool, c := CrossedPool(), CrossedPass();
      && WellSampled(pool) && Separate(pool) && IsCycle(pool, BEFORE, c, s') && Probes(QUICK, BEFORE, c, s')
      && Complete(pool.targets, c.probed, pool.interval, c.cands, c.planned)
      && InTurn(pool.targets, c.probed, pool.interval, c.cands, c.planned)
      && |Active(pool.targets[1].sampled, BEFORE, 1)| == 1 && Active(pool.targets[1].sampled, s', 1) == []
  {
    hide WellSampled, Separate, AreCandidates, NativesFirst, Sound, Complete, InTurn, Probes, Active, Resampled, Addrs;
    CrossedPoolIsSeparate();
    CrossedCandidates();
    CrossedPlan();
    CrossedProbes();
    CrossedOutcome();
    s' := Resampled(CrossedPass().probed, CrossedPass().planned);
  }
}
