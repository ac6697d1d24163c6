/**
 * The pool's memory of endpoints: live health, parked history that survives DNS
 * rotation, and subnet priors; `observe`, `prune_history` and the health part of
 * `build_candidates`.
 */
module History {
  import opened Collections
  import opened Net
  import opened Text
  import K = Kalman
  import T = Throughput
  import P = EndpointHealth

  const PARK_DURATION: nat := 600
  const MAX_PARKED_CANDIDATES: nat := 4096
  const MAX_IDLE_SUBNET_PRIORS: nat := 1024

  /** One endpoint's state: its probe state, its round-trip filter, its throughput
      posterior. */
  datatype Health = Health(probe: P.Probe, rtt: K.Filter, nig: T.Posterior)

  datatype Parked = Parked(health: Health, expires: nat)

  datatype SubnetPrior = SubnetPrior(model: T.Posterior, lastUsed: nat)

  /** The /24 of an IPv4 address or the /48 of an IPv6 one. */
  datatype SubnetKey = Subnet4(bits: nat) | Subnet6(bits: nat)

  function SubnetOf(a: IpAddr): SubnetKey {
    match a
    case V4(bits) => Subnet4(bits / 0x100)
    case V6(bits) => Subnet6(bits / 0x1_00000000_00000000_0000)
  }

  function ExpiryOf(p: Parked): nat { p.expires }

  function LastUseOf(p: SubnetPrior): nat { p.lastUsed }

  datatype Store = Store(
    health: map<IpAddr, Health>,
    parked: map<IpAddr, Parked>,
    priors: map<SubnetKey, SubnetPrior>)

  /** What a pool fixes: the throughput prior, the discount, the probe timing, and
      the noise of the round-trip filter. */
  datatype Settings = Settings(prior: T.Prior, gamma: real, timing: P.Timing, q: real, r: real)

  predicate Usable(cfg: Settings) {
    T.Proper(cfg.prior) && cfg.q >= 0.0 && cfg.r > 0.0
  }

  function DefaultModel(cfg: Settings): T.Posterior {
    T.Posterior(cfg.prior.mu, cfg.prior.kappa, cfg.prior.alpha, cfg.prior.beta)
  }

  function Learned(cfg: Settings, m: T.Posterior, x: real): T.Posterior
    requires Usable(cfg)
  {
    T.Observed(cfg.prior, m, x, cfg.gamma)
  }

  // ---------------------------------------------------------------------
  // Oldest entries first
  // ---------------------------------------------------------------------

  ghost predicate OldestFirst<K(!new)>(stamps: map<K, nat>, s: seq<K>) {
    && NoDuplicates(s)
    && (forall k :: k in s <==> k in stamps)
    && forall i, j :: 0 <= i < j < |s| ==> stamps[s[i]] <= stamps[s[j]]
  }

  /** The keys by ascending stamp; equal stamps in any order. */
  method SortByStamp<K(==,!new)>(stamps: map<K, nat>) returns (s: seq<K>)
    ensures OldestFirst(stamps, s) && |s| == |stamps|
  {
    s := [];
    var rest := stamps.Keys;
    while rest != {}
      invariant rest <= stamps.Keys && |s| + |rest| == |stamps|
      invariant NoDuplicates(s)
      invariant forall k :: k in s <==> k in stamps && k !in rest
      invariant forall i, j :: 0 <= i < j < |s| ==> stamps[s[i]] <= stamps[s[j]]
      invariant forall i, k :: 0 <= i < |s| && k in rest ==> stamps[s[i]] <= stamps[k]
      decreases |rest|
    {
      var oldest := Oldest(stamps, rest);
      s := s + [oldest];
      rest := rest - {oldest};
    }
  }

  method Oldest<K(==)>(stamps: map<K, nat>, among: set<K>) returns (oldest: K)
    requires among != {} && among <= stamps.Keys
    ensures oldest in among && forall k <- among :: stamps[oldest] <= stamps[k]
  {
    oldest :| oldest in among;
    var rest := among - {oldest};
    while rest != {}
      invariant rest <= among && oldest in among
      invariant forall k <- among - rest :: stamps[oldest] <= stamps[k]
      decreases |rest|
    {
      var k :| k in rest;
      if stamps[k] < stamps[oldest] {
        oldest := k;
      }
      rest := rest - {k};
    }
  }

  /** `kept` is `m` without its `|m| - cap` oldest entries, if it has that many. */
  ghost predicate Capped<K, V>(m: map<K, V>, stamp: V -> nat, cap: nat, kept: map<K, V>) {
    && kept.Keys <= m.Keys
    && (forall k <- kept :: kept[k] == m[k])
    && |kept| == (if |m| > cap then cap else |m|)
    && forall k <- m, j <- kept :: k !in kept ==> stamp(m[k]) <= stamp(m[j])
  }

  /** Remove the first `n` of `keys`. */
  method RemoveFirst<K(==,!new), V>(m: map<K, V>, keys: seq<K>, n: nat) returns (kept: map<K, V>)
    requires NoDuplicates(keys) && n <= |keys| && forall i :: 0 <= i < |keys| ==> keys[i] in m
    ensures kept == map k <- m | k !in keys[..n] :: m[k]
    ensures |kept| == |m| - n
  {
    kept := m;
    for i := 0 to n
      invariant kept == map k <- m | k !in keys[..i] :: m[k]
      invariant |kept| == |m| - i
    {
      assert keys[..i + 1] == keys[..i] + [keys[i]];
      assert keys[i] in kept;
      kept := kept - {keys[i]};
    }
  }

  lemma OldestGoFirst<K(!new), V>(m: map<K, V>, stamp: V -> nat, keys: seq<K>, n: nat, kept: map<K, V>)
    requires OldestFirst(map k <- m :: stamp(m[k]), keys) && n <= |keys|
    requires kept == map k <- m | k !in keys[..n] :: m[k]
    ensures forall k <- m, j <- kept :: k !in kept ==> stamp(m[k]) <= stamp(m[j])
  {
    forall k, j | k in m && j in kept && k !in kept ensures stamp(m[k]) <= stamp(m[j]) {
      var x :| 0 <= x < n && keys[x] == k;
      assert j in keys;
      var y :| 0 <= y < |keys| && keys[y] == j;
      assert y >= n by {
        assert j !in keys[..n];
      }
      assert (map k <- m :: stamp(m[k]))[keys[x]] <= (map k <- m :: stamp(m[k]))[keys[y]];
    }
  }

  method CapOldest<K(==,!new), V>(m: map<K, V>, stamp: V -> nat, cap: nat) returns (kept: map<K, V>)
    ensures Capped(m, stamp, cap, kept)
  {
    if |m| <= cap {
      return m;
    }
    var stamps := map k <- m :: stamp(m[k]);
    assert stamps.Keys == m.Keys;
    var oldest := SortByStamp(stamps);
    assert forall i :: 0 <= i < |oldest| ==> oldest[i] in oldest;
    kept := RemoveFirst(m, oldest, |m| - cap);
    OldestGoFirst(m, stamp, oldest, |m| - cap, kept);
  }

  // ---------------------------------------------------------------------
  // The three operations
  // ---------------------------------------------------------------------

  function Subnets(addrs: set<IpAddr>): set<SubnetKey> {
    set a <- addrs :: SubnetOf(a)
  }

  function Elapsed(now: nat, since: nat): nat {
    if now > since then now - since else 0
  }

  function Unexpired(parked: map<IpAddr, Parked>, now: nat): map<IpAddr, Parked> {
    map a <- parked | parked[a].expires > now :: parked[a]
  }

  function Only<K, V>(m: map<K, V>, keys: set<K>): map<K, V> {
    map k <- m | k in keys :: m[k]
  }

  function Without<K, V>(m: map<K, V>, keys: set<K>): map<K, V> {
    map k <- m | k !in keys :: m[k]
  }

  /** Priors of a known subnet, and those used within the parking time. */
  function CurrentPriors(priors: map<SubnetKey, SubnetPrior>, known: set<SubnetKey>, now: nat)
    : map<SubnetKey, SubnetPrior>
  {
    map k <- priors | k in known || Elapsed(now, priors[k].lastUsed) < PARK_DURATION :: priors[k]
  }

  /** The subnets of everything live or parked. */
  function Known(s: Store): set<SubnetKey> {
    Subnets(s.health.Keys + s.parked.Keys)
  }

  ghost predicate Pruned(s: Store, now: nat, s': Store) {
    var current := CurrentPriors(s.priors, Known(s'), now);
    && s'.health == s.health
    && Capped(Unexpired(s.parked, now), ExpiryOf, MAX_PARKED_CANDIDATES, s'.parked)
    && Only(s'.priors, Known(s')) == Only(current, Known(s'))
    && Capped(Without(current, Known(s')), LastUseOf, MAX_IDLE_SUBNET_PRIORS,
              Without(s'.priors, Known(s')))
  }

  /** A newcomer's state: its subnet's prior when there is one. */
  function Newcomer(cfg: Settings, s: Store, a: IpAddr): Health {
    Health(P.New(cfg.timing), K.New(cfg.q, cfg.r),
           if SubnetOf(a) in s.priors then s.priors[SubnetOf(a)].model else DefaultModel(cfg))
  }

  /** Departing endpoints are parked. */
  function Departed(s: Store, live: set<IpAddr>, now: nat): Store {
    s.(health := Only(s.health, live),
       parked := s.parked + map a <- s.health | a !in live :: Parked(s.health[a], now + PARK_DURATION))
  }

  /** One candidate gets its health entry, parked history first. */
  function Arrived(cfg: Settings, s: Store, a: IpAddr): Store {
    if a in s.health then s
    else if a in s.parked then s.(health := s.health[a := s.parked[a].health], parked := s.parked - {a})
    else s.(health := s.health[a := Newcomer(cfg, s, a)])
  }

  function ArrivedAll(cfg: Settings, s: Store, candidates: seq<Candidate>): Store {
    if candidates == [] then s
    else Arrived(cfg, ArrivedAll(cfg, s, candidates[..|candidates| - 1]), candidates[|candidates| - 1].addr)
  }

  /** Pruned, then departures and arrivals, then pruned again. */
  ghost predicate Rebuilt(cfg: Settings, s: Store, candidates: seq<Candidate>, now: nat, s': Store) {
    exists pruned :: Pruned(s, now, pruned)
      && Pruned(ArrivedAll(cfg, Departed(pruned, LiveSet(candidates), now), candidates), now, s')
  }

  /** Whether a completed transfer is folded into an endpoint's own history. */
  predicate Hears(s: Store, a: IpAddr, now: nat) {
    a in s.health || (a in s.parked && s.parked[a].expires > now)
  }

  /** A completed transfer at log rate `x`, credited to the endpoint and its subnet. */
  function Observed(cfg: Settings, s: Store, a: IpAddr, x: real, now: nat): Store
    requires Usable(cfg)
  {
    if !Hears(s, a, now) then s
    else
      var key := SubnetOf(a);
      var model := if key in s.priors then s.priors[key].model else DefaultModel(cfg);
      var priors := s.priors[key := SubnetPrior(Learned(cfg, model, x), now)];
      if a in s.health then
        s.(priors := priors, health := s.health[a := s.health[a].(nig := Learned(cfg, s.health[a].nig, x))])
      else
        var h := s.parked[a].health;
        s.(priors := priors,
           parked := s.parked[a := s.parked[a].(health := h.(nig := Learned(cfg, h.nig, x)))])
  }

  class PoolMemory {
    const cfg: Settings
    var health: map<IpAddr, Health>
    var parked: map<IpAddr, Parked>
    var priors: map<SubnetKey, SubnetPrior>

    function State(): Store
      reads this
    {
      Store(health, parked, priors)
    }

    method Observe(a: IpAddr, x: real, now: nat) returns (active: bool)
      requires Usable(cfg)
      modifies this
      ensures State() == Observed(cfg, old(State()), a, x, now)
      ensures active == (a in old(health))
    {
      hide Learned;
      active := a in health;
      if a in health {
        health := health[a := health[a].(nig := Learned(cfg, health[a].nig, x))];
      } else if a in parked && parked[a].expires > now {
        var h := parked[a].health;
        parked := parked[a := parked[a].(health := h.(nig := Learned(cfg, h.nig, x)))];
      } else {
        return;
      }
      var key := SubnetOf(a);
      var model := if key in priors then priors[key].model else DefaultModel(cfg);
      priors := priors[key := SubnetPrior(Learned(cfg, model, x), now)];
    }

    method PruneHistory(now: nat)
      modifies this
      ensures Pruned(old(State()), now, State())
    {
      parked := CapOldest(Unexpired(parked, now), ExpiryOf, MAX_PARKED_CANDIDATES);
      var known := Subnets(health.Keys + parked.Keys);
      var current := CurrentPriors(priors, known, now);
      var idle := CapOldest(Without(current, known), LastUseOf, MAX_IDLE_SUBNET_PRIORS);
      priors := Only(current, known) + idle;
      PriorsSplit(current, known, idle, priors);
    }

    /** Give every candidate its health entry. */
    method Arrive(candidates: seq<Candidate>)
      modifies this
      ensures State() == ArrivedAll(cfg, old(State()), candidates)
    {
      for i := 0 to |candidates|
        invariant State() == ArrivedAll(cfg, old(State()), candidates[..i])
      {
        var a := candidates[i].addr;
        assert candidates[..i + 1][..i] == candidates[..i];
        if a !in health {
          if a in parked {
            health := health[a := parked[a].health];
            parked := parked - {a};
          } else {
            health := health[a := Newcomer(cfg, State(), a)];
          }
        }
      }
      assert candidates[..|candidates|] == candidates;
    }

    method BuildCandidates(candidates: seq<Candidate>, now: nat)
      modifies this
      ensures Rebuilt(cfg, old(State()), candidates, now, State())
    {
      var live := LiveSet(candidates);
      PruneHistory(now);
      ghost var pruned := State();
      parked := parked + map a <- health | a !in live :: Parked(health[a], now + PARK_DURATION);
      health := Only(health, live);
      assert State() == Departed(pruned, live, now);
      hide Pruned, ArrivedAll, Departed;
      Arrive(candidates);
      PruneHistory(now);
      assert Pruned(old(State()), now, pruned);
    }
  }

  lemma PriorsSplit<V>(
    current: map<SubnetKey, V>, known: set<SubnetKey>, idle: map<SubnetKey, V>, priors: map<SubnetKey, V>)
    requires idle.Keys <= Without(current, known).Keys && priors == Only(current, known) + idle
    ensures Only(priors, known) == Only(current, known) && Without(priors, known) == idle
  {
  }

  // ---------------------------------------------------------------------
  // What every state keeps
  // ---------------------------------------------------------------------

  /** No address is both live and parked. */
  ghost predicate Disjoint(s: Store) {
    s.health.Keys !! s.parked.Keys
  }

  /** `t` is `s` with every address of `live` given its health entry. */
  ghost predicate Arrivals(cfg: Settings, s: Store, live: set<IpAddr>, t: Store) {
    && Disjoint(t) && t.priors == s.priors
    && t.health.Keys == s.health.Keys + live && t.parked == Without(s.parked, live)
    && (forall a <- t.health :: t.health[a] == Resulting(cfg, s, a))
  }

  /** The state an address has once it is live: its own, parked, or a newcomer's. */
  function Resulting(cfg: Settings, s: Store, a: IpAddr): Health {
    if a in s.health then s.health[a] else if a in s.parked then s.parked[a].health else Newcomer(cfg, s, a)
  }

  lemma OneMoreArrival(cfg: Settings, s: Store, live: set<IpAddr>, t: Store, a: IpAddr)
    requires Disjoint(s) && Arrivals(cfg, s, live, t)
    ensures Arrivals(cfg, s, live + {a}, Arrived(cfg, t, a))
  {
    NewcomersDependOnPriors(cfg, s, t, a);
    hide Newcomer;
    var u := Arrived(cfg, t, a);
    assert u.parked == Without(s.parked, live + {a});
  }

  lemma {:induction false} ArrivalsMeaning(cfg: Settings, s: Store, candidates: seq<Candidate>)
    requires Disjoint(s)
    ensures Arrivals(cfg, s, LiveSet(candidates), ArrivedAll(cfg, s, candidates))
  {
    hide Newcomer, Arrived;
    if candidates == [] {
      assert Without(s.parked, {}) == s.parked;
    } else {
      hide Arrivals;
      var init, a := candidates[..|candidates| - 1], candidates[|candidates| - 1].addr;
      ArrivalsMeaning(cfg, s, init);
      assert candidates == init + [candidates[|candidates| - 1]];
      assert LiveSet(candidates) == LiveSet(init) + {a};
      OneMoreArrival(cfg, s, LiveSet(init), ArrivedAll(cfg, s, init), a);
    }
  }

  lemma NewcomersDependOnPriors(cfg: Settings, s: Store, t: Store, a: IpAddr)
    requires s.priors == t.priors
    ensures Newcomer(cfg, s, a) == Newcomer(cfg, t, a)
  {
  }

  lemma NothingCapped<K, V>(m: map<K, V>, stamp: V -> nat, cap: nat, kept: map<K, V>)
    requires Capped(m, stamp, cap, kept) && |m| <= cap
    ensures kept == m
  {
    SameSizeSubset(kept.Keys, m.Keys);
  }

  /** The bounds every state keeps. */
  ghost predicate Bounded(s: Store) {
    && Disjoint(s)
    && |s.parked| <= MAX_PARKED_CANDIDATES
  }

  /** The state a live address has after a rebuild, by what was known of it. */
  ghost predicate TurnedAt(cfg: Settings, s: Store, now: nat, a: IpAddr, h: Health) {
    && (a in s.health ==> h == s.health[a])
    && (a !in s.health && a in s.parked && s.parked[a].expires > now ==> h == s.parked[a].health)
    && (!Hears(s, a, now) ==> h.probe == P.New(cfg.timing) && h.rtt == K.New(cfg.q, cfg.r))
  }

  /** What one rebuild does to each address, in terms of the state before it. */
  ghost predicate Turned(cfg: Settings, s: Store, live: set<IpAddr>, now: nat, s': Store) {
    s'.health.Keys == live && forall a <- s'.health :: TurnedAt(cfg, s, now, a, s'.health[a])
  }

  /** The entry a departed or absent address has before the cap is applied. */
  function ParkedAfter(s: Store, live: set<IpAddr>, now: nat): map<IpAddr, Parked> {
    Without(Unexpired(s.parked, now) + map a <- s.health | a !in live :: Parked(s.health[a], now + PARK_DURATION), live)
  }

  lemma PruningKeepsUnexpired(s: Store, now: nat, pruned: Store)
    requires Bounded(s) && Pruned(s, now, pruned)
    ensures pruned.parked == Unexpired(s.parked, now) && pruned.health == s.health && Disjoint(pruned)
  {
    var unexpired := Unexpired(s.parked, now);
    assert unexpired.Keys <= s.parked.Keys;
    FewerKeys(unexpired.Keys, s.parked.Keys);
    NothingCapped(unexpired, ExpiryOf, MAX_PARKED_CANDIDATES, pruned.parked);
  }

  lemma ArrivedIsTurned(cfg: Settings, s: Store, pruned: Store, live: set<IpAddr>, now: nat, arrived: Store)
    requires Disjoint(s) && pruned.parked == Unexpired(s.parked, now) && pruned.health == s.health
    requires Arrivals(cfg, Departed(pruned, live, now), live, arrived)
    ensures Turned(cfg, s, live, now, arrived)
  {
  }

  lemma ParkedOnArrival(cfg: Settings, s: Store, pruned: Store, live: set<IpAddr>, now: nat, arrived: Store)
    requires pruned.parked == Unexpired(s.parked, now) && pruned.health == s.health
    requires Arrivals(cfg, Departed(pruned, live, now), live, arrived)
    ensures arrived.parked == ParkedAfter(s, live, now) && Unexpired(arrived.parked, now) == arrived.parked
  {
  }

  /**
   * After every rebuild health holds exactly the current candidates, no address
   * is both live and parked, at most 4096 are parked, and at most 1024 subnet
   * priors belong to no live or parked address. A live address has the state it
   * had, wherever it was kept; only one unheard of starts afresh.
   */
  lemma RebuildKeepsHistory(cfg: Settings, s: Store, candidates: seq<Candidate>, now: nat, s': Store)
    requires Bounded(s) && Rebuilt(cfg, s, candidates, now, s')
    ensures Bounded(s') && Turned(cfg, s, LiveSet(candidates), now, s')
    ensures |Without(s'.priors, Known(s'))| <= MAX_IDLE_SUBNET_PRIORS
    ensures Capped(ParkedAfter(s, LiveSet(candidates), now), ExpiryOf, MAX_PARKED_CANDIDATES, s'.parked)
  {
    hide Newcomer, ArrivedAll, Known, CurrentPriors, Turned, ParkedAfter, Departed, Unexpired;
    var live := LiveSet(candidates);
    var pruned :| Pruned(s, now, pruned) && Pruned(ArrivedAll(cfg, Departed(pruned, live, now), candidates), now, s');
    PruningKeepsUnexpired(s, now, pruned);
    DepartingStaysDisjoint(pruned, live, now);
    ArrivalsMeaning(cfg, Departed(pruned, live, now), candidates);
    var arrived := ArrivedAll(cfg, Departed(pruned, live, now), candidates);
    ArrivedIsTurned(cfg, s, pruned, live, now, arrived);
    ParkedOnArrival(cfg, s, pruned, live, now, arrived);
    TurningReadsHealthOnly(cfg, s, live, now, arrived, s');
  }

  /** Pruning keeps the priors of every subnet with a live or unexpired address, and
      invents none. */
  lemma PruningKeepsKnownPriors(s: Store, now: nat, pruned: Store, key: SubnetKey, b: IpAddr)
    requires Pruned(s, now, pruned) && pruned.parked == Unexpired(s.parked, now)
    requires key in s.priors ==> Hears(s, b, now) && SubnetOf(b) == key
    ensures key in pruned.priors <==> key in s.priors
    ensures key in s.priors ==> pruned.priors[key] == s.priors[key]
  {
    hide SubnetOf, Capped;
    var known := Known(pruned);
    var current := CurrentPriors(s.priors, known, now);
    if key in s.priors {
      assert b in pruned.health.Keys + pruned.parked.Keys;
      assert key in known;
      assert key in Only(current, known);
    } else {
      NoPriorOutOfNothing(s, now, pruned, key);
    }
  }

  lemma NoPriorOutOfNothing(s: Store, now: nat, pruned: Store, key: SubnetKey)
    requires Pruned(s, now, pruned) && key !in s.priors
    ensures key !in pruned.priors
  {
    var known := Known(pruned);
    var current := CurrentPriors(s.priors, known, now);
    hide Known, Elapsed;
    assert key !in Only(current, known) && key !in Without(current, known);
    assert key !in Without(pruned.priors, known);
  }

  /**
   * A candidate of which nothing is remembered starts with the throughput model
   * of its subnet while the pool remembers any address there, and with the
   * default one when the subnet has none.
   */
  lemma NewcomersInheritTheirSubnet(
    cfg: Settings, s: Store, candidates: seq<Candidate>, now: nat, s': Store, a: IpAddr, neighbour: IpAddr)
    requires Bounded(s) && Rebuilt(cfg, s, candidates, now, s')
    requires a in LiveSet(candidates) && !Hears(s, a, now)
    requires SubnetOf(a) in s.priors ==> Hears(s, neighbour, now) && SubnetOf(neighbour) == SubnetOf(a)
    ensures a in s'.health && s'.health[a] == Newcomer(cfg, s, a)
  {
    hide Newcomer, ArrivedAll, Known, CurrentPriors, SubnetOf, Capped;
    var live := LiveSet(candidates);
    var pruned :| Pruned(s, now, pruned) && Pruned(ArrivedAll(cfg, Departed(pruned, live, now), candidates), now, s');
    PruningKeepsUnexpired(s, now, pruned);
    PruningKeepsKnownPriors(s, now, pruned, SubnetOf(a), neighbour);
    DepartingStaysDisjoint(pruned, live, now);
    var departed := Departed(pruned, live, now);
    ArrivalsMeaning(cfg, departed, candidates);
    SameSubnetSameNewcomer(cfg, s, departed, a);
    hide Pruned;
    assert Resulting(cfg, departed, a) == Newcomer(cfg, departed, a);
  }

  lemma SameSubnetSameNewcomer(cfg: Settings, s: Store, t: Store, a: IpAddr)
    requires SubnetOf(a) in s.priors <==> SubnetOf(a) in t.priors
    requires SubnetOf(a) in s.priors ==> s.priors[SubnetOf(a)] == t.priors[SubnetOf(a)]
    ensures Newcomer(cfg, s, a) == Newcomer(cfg, t, a)
  {
  }

  lemma DepartingStaysDisjoint(s: Store, live: set<IpAddr>, now: nat)
    requires Disjoint(s)
    ensures Disjoint(Departed(s, live, now))
  {
  }

  lemma TurningReadsHealthOnly(cfg: Settings, s: Store, live: set<IpAddr>, now: nat, t: Store, u: Store)
    requires Turned(cfg, s, live, now, t) && u.health == t.health
    ensures Turned(cfg, s, live, now, u)
  {
  }

  // ---------------------------------------------------------------------
  // Every run
  // ---------------------------------------------------------------------

  datatype Event =
    | Rebuild(candidates: seq<Candidate>, now: nat)
    | Transfer(addr: IpAddr, x: real, now: nat)
    | ProbeResult(addr: IpAddr, rtt: Option<real>)
    | Retire(addr: IpAddr)

  /** A round-trip time folded in; a filter is sane from its start on. */
  ghost function Timed(f: K.Filter, rtt: real): K.Filter {
    if K.Sane(f) then K.Updated(f, rtt) else f
  }

  ghost function Probed(cfg: Settings, h: Health, rtt: Option<real>): Health {
    match rtt
    case Some(x) => h.(probe := P.Succeeded(cfg.timing), rtt := Timed(h.rtt, x))
    case None => h.(probe := P.Failed(h.probe, cfg.timing))
  }

  /** One step of the pool's task. Retiring drops an endpoint that never answered. */
  ghost predicate Step(cfg: Settings, s: Store, e: Event, s': Store)
    requires Usable(cfg)
  {
    match e
    case Rebuild(candidates, now) => Rebuilt(cfg, s, candidates, now, s')
    case Transfer(a, x, now) => s' == Observed(cfg, s, a, x, now)
    case ProbeResult(a, rtt) =>
      s' == if a in s.health then s.(health := s.health[a := Probed(cfg, s.health[a], rtt)]) else s
    case Retire(a) => s' == s.(health := s.health - {a})
  }

  /** What is remembered of an address, live or parked. */
  function Memory(s: Store, a: IpAddr): Option<Health> {
    if a in s.health then Some(s.health[a]) else if a in s.parked then Some(s.parked[a].health) else None
  }

  /** An endpoint's own history: what an event teaches about `a`, if it is heard. */
  ghost function Effect(cfg: Settings, s: Store, e: Event, a: IpAddr, h: Health): Health
    requires Usable(cfg)
  {
    match e
    case Transfer(b, x, now) => if b == a && Hears(s, a, now) then h.(nig := Learned(cfg, h.nig, x)) else h
    case ProbeResult(b, rtt) => if b == a && a in s.health then Probed(cfg, h, rtt) else h
    case _ => h
  }

  /** Its parking time has run out when the next rebuild comes. */
  predicate Lapses(s: Store, e: Event, a: IpAddr) {
    e.Rebuild? && a !in s.health && a in s.parked && s.parked[a].expires <= e.now
  }

  lemma RebuildsTeachNothing(
    cfg: Settings, s: Store, candidates: seq<Candidate>, now: nat, s': Store, a: IpAddr)
    requires Bounded(s) && Rebuilt(cfg, s, candidates, now, s')
    requires Memory(s, a).Some? && Memory(s', a).Some?
    requires a in s.health || s.parked[a].expires > now
    ensures Memory(s', a) == Memory(s, a)
  {
    hide Rebuilt, Known, Capped, Newcomer, Unexpired, ParkedAfter, Without, LiveSet, Bounded;
    RebuildKeepsHistory(cfg, s, candidates, now, s');
    if a in s'.health {
      assert TurnedAt(cfg, s, now, a, s'.health[a]);
    } else {
      ParkedCameFromBefore(s, LiveSet(candidates), now, s'.parked, a);
    }
  }

  lemma StepsKeepBounded(cfg: Settings, s: Store, e: Event, s': Store)
    requires Usable(cfg) && Bounded(s) && Step(cfg, s, e, s')
    ensures Bounded(s')
  {
    hide Learned, Probed, Rebuilt;
    match e
    case Rebuild(candidates, now) =>
      RebuildKeepsHistory(cfg, s, candidates, now, s');
    case Transfer(a, x, now) =>
      TransfersKeepBounded(cfg, s, a, x, now);
    case _ =>
      FewerKeys(s'.health.Keys, s.health.Keys);
  }

  lemma TransfersKeepBounded(cfg: Settings, s: Store, a: IpAddr, x: real, now: nat)
    requires Usable(cfg) && Bounded(s)
    ensures Bounded(Observed(cfg, s, a, x, now))
  {
  }

  lemma TransfersTeachTheirEndpoint(cfg: Settings, s: Store, b: IpAddr, x: real, now: nat, a: IpAddr)
    requires Usable(cfg) && Memory(s, a).Some?
    ensures Memory(Observed(cfg, s, b, x, now), a) == Some(Effect(cfg, s, Transfer(b, x, now), a, Memory(s, a).value))
  {
  }

  /** A step changes what is remembered of an address only by what it teaches
      about it, unless its parking lapses or it is forgotten. */
  lemma StepsTeachOnlyTheirOwn(cfg: Settings, s: Store, e: Event, s': Store, a: IpAddr)
    requires Usable(cfg) && Bounded(s) && Step(cfg, s, e, s')
    requires Memory(s, a).Some? && Memory(s', a).Some? && !Lapses(s, e, a)
    ensures Memory(s', a).value == Effect(cfg, s, e, a, Memory(s, a).value)
  {
    hide Learned, Probed, Rebuilt, Observed;
    match e
    case Rebuild(candidates, now) =>
      RebuildsTeachNothing(cfg, s, candidates, now, s', a);
    case Transfer(b, x, now) =>
      TransfersTeachTheirEndpoint(cfg, s, b, x, now, a);
    case _ =>
  }

  lemma ParkedCameFromBefore(s: Store, live: set<IpAddr>, now: nat, parked: map<IpAddr, Parked>, a: IpAddr)
    requires Capped(ParkedAfter(s, live, now), ExpiryOf, MAX_PARKED_CANDIDATES, parked) && a in parked
    ensures a in s.health ==> parked[a] == Parked(s.health[a], now + PARK_DURATION)
    ensures a !in s.health ==> a in s.parked && parked[a] == s.parked[a] && s.parked[a].expires > now
  {
  }

  ghost predicate IsRun(cfg: Settings, states: seq<Store>, events: seq<Event>)
    requires Usable(cfg)
  {
    && |states| == |events| + 1 && states[0] == Store(map[], map[], map[])
    && forall i :: 0 <= i < |events| ==> Step(cfg, states[i], events[i], states[i + 1])
  }

  lemma {:induction false} RunsStayBounded(cfg: Settings, states: seq<Store>, events: seq<Event>, n: nat)
    requires Usable(cfg) && IsRun(cfg, states, events) && n < |states|
    ensures Bounded(states[n])
  {
    hide Step;
    if n == 0 {
      assert states[0].parked.Keys == {};
    } else {
      hide Bounded;
      RunsStayBounded(cfg, states, events, n - 1);
      StepsKeepBounded(cfg, states[n - 1], events[n - 1], states[n]);
    }
  }

  /** Something is remembered of `a` all along, and its parking never lapses. */
  ghost predicate Remembered(states: seq<Store>, events: seq<Event>, a: IpAddr, m: nat, n: nat)
    requires m <= n < |states| && |states| == |events| + 1
  {
    && (forall i :: m <= i <= n ==> Memory(states[i], a).Some?)
    && forall i :: m <= i < n ==> !Lapses(states[i], events[i], a)
  }

  /** Every filter kept, live or parked, is sane. */
  ghost predicate AllSane(s: Store) {
    forall a :: Memory(s, a).Some? ==> K.Sane(Memory(s, a).value.rtt)
  }

  lemma TurnedFilterIsSane(cfg: Settings, s: Store, now: nat, a: IpAddr, h: Health)
    requires AllSane(s) && TurnedAt(cfg, s, now, a, h) && K.Sane(K.New(cfg.q, cfg.r))
    ensures K.Sane(h.rtt)
  {
    hide K.Sane, K.New, P.New;
    assert Memory(s, a).Some? ==> K.Sane(Memory(s, a).value.rtt);
  }

  lemma ParkedFilterIsSane(s: Store, live: set<IpAddr>, now: nat, parked: map<IpAddr, Parked>, a: IpAddr)
    requires AllSane(s) && a in parked
    requires Capped(ParkedAfter(s, live, now), ExpiryOf, MAX_PARKED_CANDIDATES, parked)
    ensures K.Sane(parked[a].health.rtt)
  {
    ParkedCameFromBefore(s, live, now, parked, a);
    hide K.Sane, Capped, ParkedAfter;
    assert Memory(s, a).Some? ==> K.Sane(Memory(s, a).value.rtt);
  }

  lemma RebuildsKeepSane(cfg: Settings, s: Store, candidates: seq<Candidate>, now: nat, s': Store)
    requires Usable(cfg) && Bounded(s) && Rebuilt(cfg, s, candidates, now, s') && AllSane(s)
    ensures AllSane(s')
  {
    NewFiltersAreSane(cfg);
    hide Rebuilt, Known, Capped, ParkedAfter, Without, LiveSet, Bounded, TurnedAt, K.Sane, K.New;
    RebuildKeepsHistory(cfg, s, candidates, now, s');
    forall a | Memory(s', a).Some? ensures K.Sane(Memory(s', a).value.rtt) {
      if a in s'.health {
        TurnedFilterIsSane(cfg, s, now, a, s'.health[a]);
      } else {
        ParkedFilterIsSane(s, LiveSet(candidates), now, s'.parked, a);
      }
    }
  }

  lemma NewFiltersAreSane(cfg: Settings)
    requires Usable(cfg)
    ensures K.Sane(K.New(cfg.q, cfg.r))
  {
  }

  lemma EffectsKeepSane(cfg: Settings, s: Store, e: Event, a: IpAddr, h: Health)
    requires Usable(cfg) && K.Sane(h.rtt)
    ensures K.Sane(Effect(cfg, s, e, a, h).rtt)
  {
  }

  lemma StepsKeepSane(cfg: Settings, s: Store, e: Event, s': Store)
    requires Usable(cfg) && Bounded(s) && Step(cfg, s, e, s') && AllSane(s)
    ensures AllSane(s')
  {
    if e.Rebuild? {
      RebuildsKeepSane(cfg, s, e.candidates, e.now, s');
    } else {
      forall a | Memory(s', a).Some? ensures K.Sane(Memory(s', a).value.rtt) {
        OnlyRebuildsBring(cfg, s, e, s', a);
        hide Step, Effect, Memory, K.Sane, Bounded;
        StepsTeachOnlyTheirOwn(cfg, s, e, s', a);
        EffectsKeepSane(cfg, s, e, a, Memory(s, a).value);
      }
    }
  }

  lemma OnlyRebuildsBring(cfg: Settings, s: Store, e: Event, s': Store, a: IpAddr)
    requires Usable(cfg) && Step(cfg, s, e, s') && !e.Rebuild? && Memory(s', a).Some?
    ensures Memory(s, a).Some? && !Lapses(s, e, a)
  {
  }

  /** So the guard of `Timed` never bites: in every run each probe is folded in. */
  lemma {:induction false} RunsStaySane(cfg: Settings, states: seq<Store>, events: seq<Event>, n: nat)
    requires Usable(cfg) && IsRun(cfg, states, events) && n < |states|
    ensures AllSane(states[n])
  {
    hide Step;
    if n > 0 {
      hide AllSane, Bounded;
      RunsStaySane(cfg, states, events, n - 1);
      RunsStayBounded(cfg, states, events, n - 1);
      StepsKeepSane(cfg, states[n - 1], events[n - 1], states[n]);
    }
  }

  /** An address's own history between two moments, starting from `h`. */
  ghost function Lived(cfg: Settings, states: seq<Store>, events: seq<Event>, a: IpAddr, m: nat, n: nat, h: Health): Health
    requires Usable(cfg) && m <= n <= |events| && |states| == |events| + 1
    decreases n - m
  {
    if m == n then h else Effect(cfg, states[n - 1], events[n - 1], a, Lived(cfg, states, events, a, m, n - 1, h))
  }

  /**
   * In every run an address that leaves the candidates and comes back before its
   * parking lapses or the cap evicts it has exactly the state its own probes and
   * transfers give it, those observed while it was parked included, however many
   * rebuilds, departures and returns happened in between.
   */
  lemma {:induction false} HistorySurvivesRotation(
    cfg: Settings, states: seq<Store>, events: seq<Event>, a: IpAddr, m: nat, n: nat)
    requires Usable(cfg) && IsRun(cfg, states, events) && m <= n < |states|
    requires Remembered(states, events, a, m, n)
    ensures Memory(states[n], a).value == Lived(cfg, states, events, a, m, n, Memory(states[m], a).value)
    decreases n - m
  {
    hide Step, Bounded, Memory, Effect, Lapses;
    if m < n {
      HistorySurvivesRotation(cfg, states, events, a, m, n - 1);
      RunsStayBounded(cfg, states, events, n - 1);
      hide IsRun;
      StepsTeachOnlyTheirOwn(cfg, states[n - 1], events[n - 1], states[n], a);
    }
  }

  /** The parked entry a remembered address has when it is not a candidate. */
  function EntryFor(s: Store, now: nat, a: IpAddr): Parked
    requires Memory(s, a).Some?
  {
    if a in s.health then Parked(s.health[a], now + PARK_DURATION) else s.parked[a]
  }

  /** A rebuild forgets an address only when its parking has lapsed or 4096 others
      stay parked at least as long. */
  lemma ForgettingHasACause(cfg: Settings, s: Store, e: Event, s': Store, a: IpAddr)
    requires Usable(cfg) && Bounded(s) && Step(cfg, s, e, s') && e.Rebuild?
    requires Memory(s, a).Some? && Memory(s', a).None? && !Lapses(s, e, a)
    ensures |s'.parked| == MAX_PARKED_CANDIDATES
    ensures forall b <- s'.parked :: s'.parked[b].expires >= ExpiryOf(EntryFor(s, e.now, a))
  {
    hide Rebuilt;
    RebuildKeepsHistory(cfg, s, e.candidates, e.now, s');
    var before := ParkedAfter(s, LiveSet(e.candidates), e.now);
    assert a in before;
    assert before[a] == EntryFor(s, e.now, a);
    hide ParkedAfter, Turned, Known;
    if |before| <= MAX_PARKED_CANDIDATES {
      NothingCapped(before, ExpiryOf, MAX_PARKED_CANDIDATES, s'.parked);
    }
    forall b | b in s'.parked ensures s'.parked[b].expires >= ExpiryOf(before[a]) {
      assert ExpiryOf(before[a]) <= ExpiryOf(before[b]);
    }
  }
}
