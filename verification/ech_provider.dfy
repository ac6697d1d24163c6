/**
 * `EchProvider`: the resolved ECH mode of each inner name, the client configs
 * assembled from it, and the eviction of a rejected generation. Times in seconds.
 */
module EchProvider {
  import opened Naturals
  import opened Text

  type Bytes = seq<bv8>

  /** An ALPN offer. */
  type Alpn = seq<string>

  datatype Mode = RealEch(configList: Bytes) | Grease

  /** A client config: the ECH mode it was assembled from and the ALPN it offers. */
  datatype Config = Config(mode: Mode, alpn: Alpn)

  datatype Cached = Cached(mode: Mode, configs: map<Alpn, Config>, refreshAt: nat, generation: nat)

  type Cache = map<string, Cached>

  /** The cache and the next generation number. */
  datatype State = State(cache: Cache, next: nat)

  datatype Source = Static | Doh | DohWithFallback

  /** The ECHConfigList written in the configuration. */
  datatype Inline = Absent | Undecodable | Decoded(bytes: Bytes)

  datatype Settings = Settings(source: Source, inline: Inline, requireEch: bool, refreshBound: nat)

  /** What the HTTPS lookup brought. */
  datatype Answer = Found(bytes: Bytes, ttl: Option<nat>) | Empty | LookupError

  datatype Error = NoCompatibleConfig | NoRecord | LookupFailed | BadBase64 | NotAssembled

  datatype Result<+T> = Ok(value: T) | Err(error: Error)

  /** A config with the generation it was assembled from. */
  datatype Client = Client(config: Config, generation: nat)

  /** What the outside contributes to one call: the answer to the lookup, whether
      the list is usable, whether assembling succeeds, and the time it took. */
  datatype World = World(answer: Answer, usable: bool, greases: bool, assembles: bool, built: nat)

  const MIN_REFRESH: nat := 5
  const RETRY_AFTER_FAILURE: nat := 30

  // ---------------------------------------------------------------------
  // Resolving a mode
  // ---------------------------------------------------------------------

  function FromInline(inline: Inline): Result<(Option<Bytes>, Option<nat>)> {
    match inline
    case Absent => Err(NoCompatibleConfig)
    case Undecodable => Err(BadBase64)
    case Decoded(bytes) => Ok((Some(bytes), None))
  }

  function AcquireConfigList(cfg: Settings, answer: Answer): Result<(Option<Bytes>, Option<nat>)> {
    match cfg.source
    case Static => FromInline(cfg.inline)
    case Doh =>
      (match answer
       case Found(bytes, ttl) => Ok((Some(bytes), ttl))
       case Empty => Ok((None, None))
       case LookupError => Err(LookupFailed))
    case DohWithFallback =>
      (match answer
       case Found(bytes, ttl) => Ok((Some(bytes), ttl))
       case _ => FromInline(cfg.inline))
  }

  function Refresh(cfg: Settings, ttl: Option<nat>): nat {
    Max(match ttl case Some(t) => Min(t, cfg.refreshBound) case None => cfg.refreshBound, MIN_REFRESH)
  }

  /** A resolved mode and the time until it is looked up again. */
  function Resolve(cfg: Settings, w: World): Result<(Mode, nat)> {
    match AcquireConfigList(cfg, w.answer)
    case Err(e) => Err(e)
    case Ok((Some(bytes), ttl)) =>
      if w.usable then Ok((RealEch(bytes), Refresh(cfg, ttl))) else Err(NoCompatibleConfig)
    case Ok((None, ttl)) =>
      if cfg.requireEch then Err(NoRecord)
      else if w.greases then Ok((Grease, Refresh(cfg, ttl)))
      else Err(NotAssembled)
  }

  // ---------------------------------------------------------------------
  // The calls, as functions of the state
  // ---------------------------------------------------------------------

  /** The entry once `alpn` has been asked of it, and the config handed out. */
  function ConfigFor(c: Cached, alpn: Alpn, assembles: bool): (Cached, Result<Client>) {
    if alpn in c.configs then (c, Ok(Client(c.configs[alpn], c.generation)))
    else if !assembles then (c, Err(NotAssembled))
    else
      var config := Config(c.mode, alpn);
      (c.(configs := c.configs[alpn := config]), Ok(Client(config, c.generation)))
  }

  function Handed(s: State, name: string, c: Cached, alpn: Alpn, assembles: bool): (State, Result<Client>) {
    var (c', r) := ConfigFor(c, alpn, assembles);
    (s.(cache := s.cache[name := c']), r)
  }

  /** Under the read lock: answered only from a fresh entry with this offer assembled. */
  function FastClient(s: State, name: string, alpn: Alpn, now: nat): Option<Client> {
    if name in s.cache && now < s.cache[name].refreshAt && alpn in s.cache[name].configs
    then Some(Client(s.cache[name].configs[alpn], s.cache[name].generation))
    else None
  }

  predicate IsFresh(s: State, name: string, now: nat) {
    name in s.cache && now < s.cache[name].refreshAt
  }

  /** The write-locked section. */
  function LockedClient(cfg: Settings, s: State, name: string, alpn: Alpn, now: nat, w: World)
    : (State, Result<Client>)
  {
    if IsFresh(s, name, now) then Handed(s, name, s.cache[name], alpn, w.assembles)
    else
      match Resolve(cfg, w)
      case Ok((mode, refresh)) =>
        var entry := Cached(mode, map[], w.built + refresh, s.next);
        Handed(State(s.cache[name := entry], s.next + 1), name, entry, alpn, w.assembles)
      case Err(e) =>
        if name in s.cache then
          var kept := s.cache[name].(refreshAt := w.built + RETRY_AFTER_FAILURE);
          Handed(s.(cache := s.cache[name := kept]), name, kept, alpn, w.assembles)
        else (s, Err(e))
  }

  /** Evict the rejected generation, if it is still the current one. */
  function Invalidated(s: State, name: string, generation: nat): (State, bool) {
    if name in s.cache && s.cache[name].generation == generation
    then (s.(cache := s.cache - {name}), true)
    else (s, false)
  }

  class EchProvider {
    const settings: Settings
    var cache: map<string, Cached>
    var nextGeneration: nat

    function Now(): State
      reads this
    {
      State(cache, nextGeneration)
    }

    constructor (settings: Settings)
      ensures this.settings == settings && Now() == State(map[], 1)
    {
      this.settings := settings;
      cache, nextGeneration := map[], 1;
    }

    method TryFast(name: string, alpn: Alpn, now: nat) returns (r: Option<Client>)
      ensures r == FastClient(Now(), name, alpn, now)
    {
      if name in cache {
        var c := cache[name];
        if now < c.refreshAt {
          if alpn in c.configs {
            return Some(Client(c.configs[alpn], c.generation));
          }
        }
      }
      return None;
    }

    method ClientLocked(name: string, alpn: Alpn, now: nat, w: World) returns (r: Result<Client>)
      modifies this
      ensures (Now(), r) == LockedClient(settings, old(Now()), name, alpn, now, w)
    {
      if name in cache && now < cache[name].refreshAt {
        r := HandOut(name, alpn, w.assembles);
        return;
      }
      var resolved := Build(w);
      match resolved {
        case Ok(entry) =>
          cache := cache[name := entry];
          r := HandOut(name, alpn, w.assembles);
        case Err(e) =>
          if name in cache {
            cache := cache[name := cache[name].(refreshAt := w.built + RETRY_AFTER_FAILURE)];
            r := HandOut(name, alpn, w.assembles);
          } else {
            r := Err(e);
          }
      }
    }

    /** `config_for`, memoizing the config in the entry. */
    method HandOut(name: string, alpn: Alpn, assembles: bool) returns (r: Result<Client>)
      requires name in cache
      modifies this`cache
      ensures (Now(), r) == Handed(old(Now()), name, old(cache)[name], alpn, assembles)
    {
      var c := cache[name];
      if alpn in c.configs {
        assert cache == cache[name := c];
        return Ok(Client(c.configs[alpn], c.generation));
      }
      if !assembles {
        assert cache == cache[name := c];
        return Err(NotAssembled);
      }
      var config := Config(c.mode, alpn);
      cache := cache[name := c.(configs := c.configs[alpn := config])];
      return Ok(Client(config, c.generation));
    }

    method Build(w: World) returns (r: Result<Cached>)
      modifies this`nextGeneration
      ensures match Resolve(settings, w)
              case Ok((mode, refresh)) =>
                && r == Ok(Cached(mode, map[], w.built + refresh, old(nextGeneration)))
                && nextGeneration == old(nextGeneration) + 1
              case Err(e) => r == Err(e) && nextGeneration == old(nextGeneration)
    {
      match Resolve(settings, w) {
        case Ok((mode, refresh)) =>
          r := Ok(Cached(mode, map[], w.built + refresh, nextGeneration));
          nextGeneration := nextGeneration + 1;
        case Err(e) => r := Err(e);
      }
    }

    method InvalidateAfterRejection(name: string, generation: nat) returns (evicted: bool)
      modifies this`cache
      ensures (Now(), evicted) == Invalidated(old(Now()), name, generation)
    {
      if name !in cache || cache[name].generation != generation {
        return false;
      }
      cache := cache - {name};
      return true;
    }
  }

  // ---------------------------------------------------------------------
  // Every run: any tasks' fast paths, locked sections and rejections
  // ---------------------------------------------------------------------

  datatype Event =
    | Fast(name: string, alpn: Alpn, now: nat)
    | Locked(name: string, alpn: Alpn, now: nat, world: World)
    | Reject(name: string, generation: nat, now: nat)

  function Next(cfg: Settings, s: State, e: Event): State {
    match e
    case Fast(_, _, _) => s
    case Locked(name, alpn, now, w) => LockedClient(cfg, s, name, alpn, now, w).0
    case Reject(name, generation, _) => Invalidated(s, name, generation).0
  }

  /** The client a step hands out, if it hands one out. */
  function Given(cfg: Settings, s: State, e: Event): Option<Client> {
    match e
    case Fast(name, alpn, now) => FastClient(s, name, alpn, now)
    case Locked(name, alpn, now, w) =>
      (match LockedClient(cfg, s, name, alpn, now, w).1 case Ok(c) => Some(c) case Err(_) => None)
    case Reject(_, _, _) => None
  }

  /** A rejection that evicted its generation. */
  predicate Evicts(s: State, e: Event) {
    e.Reject? && Invalidated(s, e.name, e.generation).1
  }

  /** What a generation was built for, and the mode it resolved to. */
  datatype Origin = Origin(name: string, mode: Mode)

  /** A locked section that looks a mode up, and gets one. */
  predicate LooksUp(s: State, e: Event) {
    e.Locked? && !IsFresh(s, e.name, e.now)
  }

  function Built(cfg: Settings, s: State, e: Event): Option<Origin> {
    if LooksUp(s, e) && Resolve(cfg, e.world).Ok? then Some(Origin(e.name, Resolve(cfg, e.world).value.0)) else None
  }

  /** The origin of each generation. */
  type History = map<nat, Origin>

  function Remember(cfg: Settings, h: History, s: State, e: Event): History {
    match Built(cfg, s, e)
    case Some(origin) => h[s.next := origin]
    case None => h
  }

  ghost predicate IsRun(cfg: Settings, states: seq<State>, events: seq<Event>) {
    && |states| == |events| + 1 && states[0] == State(map[], 1)
    && forall i :: 0 <= i < |events| ==> states[i + 1] == Next(cfg, states[i], events[i])
  }

  ghost function HistoryAt(cfg: Settings, states: seq<State>, events: seq<Event>, n: nat): History
    requires n <= |events| && |states| == |events| + 1
  {
    if n == 0 then map[] else Remember(cfg, HistoryAt(cfg, states, events, n - 1), states[n - 1], events[n - 1])
  }

  // ---------------------------------------------------------------------
  // What every state keeps
  // ---------------------------------------------------------------------

  ghost predicate EntryIsSound(cfg: Settings, h: History, name: string, c: Cached) {
    && c.generation in h && h[c.generation] == Origin(name, c.mode)
    && (forall alpn <- c.configs :: c.configs[alpn] == Config(c.mode, alpn))
    && (cfg.requireEch ==> c.mode.RealEch?)
  }

  /** Generations are below the counter, and every entry is what its generation built. */
  ghost predicate Sound(cfg: Settings, h: History, s: State) {
    && (forall g <- h :: g < s.next)
    && forall n <- s.cache :: EntryIsSound(cfg, h, n, s.cache[n])
  }

  lemma HandingOutIsSound(
    cfg: Settings, h: History, s: State, name: string, c: Cached, alpn: Alpn, assembles: bool)
    requires (forall g <- h :: g < s.next) && EntryIsSound(cfg, h, name, c)
    requires forall n <- s.cache :: n != name ==> EntryIsSound(cfg, h, n, s.cache[n])
    ensures var (s', r) := Handed(s, name, c, alpn, assembles);
      && Sound(cfg, h, s')
      && (r.Ok? ==> r.value == Client(Config(c.mode, alpn), c.generation))
  {
  }

  lemma SoundEntry(cfg: Settings, h: History, name: string, c: Cached)
    requires EntryIsSound(cfg, h, name, c)
    ensures c.generation in h && h[c.generation] == Origin(name, c.mode) && (cfg.requireEch ==> c.mode.RealEch?)
    ensures forall refreshAt :: EntryIsSound(cfg, h, name, c.(refreshAt := refreshAt))
  {
  }

  lemma NewGenerationsKeepEntries(cfg: Settings, h: History, name: string, c: Cached, g: nat, origin: Origin)
    requires EntryIsSound(cfg, h, name, c) && g !in h
    ensures EntryIsSound(cfg, h[g := origin], name, c)
  {
  }

  lemma NewEntryIsSound(cfg: Settings, h: History, name: string, c: Cached)
    requires c.configs == map[] && c.generation in h && h[c.generation] == Origin(name, c.mode)
    requires cfg.requireEch ==> c.mode.RealEch?
    ensures EntryIsSound(cfg, h, name, c)
  {
  }

  /** What a locked section hands out comes from the entry it leaves behind. */
  lemma LockedKeepsSound(
    cfg: Settings, h: History, s: State, name: string, alpn: Alpn, now: nat, w: World)
    requires Sound(cfg, h, s)
    ensures var e := Locked(name, alpn, now, w); Sound(cfg, Remember(cfg, h, s, e), Next(cfg, s, e))
    ensures var given := Given(cfg, s, Locked(name, alpn, now, w));
      var h' := Remember(cfg, h, s, Locked(name, alpn, now, w));
      given.Some? ==> OfItsGeneration(cfg, h', name, alpn, given.value)
  {
    hide EntryIsSound, Handed;
    if IsFresh(s, name, now) {
      SoundEntry(cfg, h, name, s.cache[name]);
      HandingOutIsSound(cfg, h, s, name, s.cache[name], alpn, w.assembles);
    } else if Resolve(cfg, w).Ok? {
      var (mode, refresh) := Resolve(cfg, w).value;
      assert cfg.requireEch ==> mode.RealEch?;
      hide Resolve;
      var entry, h' := Cached(mode, map[], w.built + refresh, s.next), h[s.next := Origin(name, mode)];
      forall n | n in s.cache ensures EntryIsSound(cfg, h', n, s.cache[n]) {
        NewGenerationsKeepEntries(cfg, h, n, s.cache[n], s.next, Origin(name, mode));
      }
      NewEntryIsSound(cfg, h', name, entry);
      HandingOutIsSound(cfg, h', State(s.cache[name := entry], s.next + 1), name, entry, alpn, w.assembles);
    } else if name in s.cache {
      hide Resolve;
      var kept := s.cache[name].(refreshAt := w.built + RETRY_AFTER_FAILURE);
      SoundEntry(cfg, h, name, s.cache[name]);
      HandingOutIsSound(cfg, h, s.(cache := s.cache[name := kept]), name, kept, alpn, w.assembles);
    }
  }

  /** The client's config was assembled from the mode its generation resolved for
      this very name, it offers exactly what was asked, and it is real ECH if required. */
  ghost predicate OfItsGeneration(cfg: Settings, h: History, name: string, alpn: Alpn, client: Client) {
    && client.generation in h && h[client.generation].name == name
    && client.config == Config(h[client.generation].mode, alpn)
    && (cfg.requireEch ==> client.config.mode.RealEch?)
  }

  lemma StepKeepsSound(cfg: Settings, h: History, s: State, e: Event)
    requires Sound(cfg, h, s)
    ensures Sound(cfg, Remember(cfg, h, s, e), Next(cfg, s, e))
    ensures var given := Given(cfg, s, e);
      given.Some? ==> OfItsGeneration(cfg, Remember(cfg, h, s, e), e.name, e.alpn, given.value)
  {
    hide LockedClient, Resolve;
    match e {
      case Fast(name, alpn, now) =>
        if name in s.cache {
          assert EntryIsSound(cfg, h, name, s.cache[name]);
        }
      case Locked(name, alpn, now, w) =>
        hide OfItsGeneration, EntryIsSound;
        LockedKeepsSound(cfg, h, s, name, alpn, now, w);
      case Reject(_, _, _) =>
    }
  }

  lemma {:induction false} RunsKeepSound(cfg: Settings, states: seq<State>, events: seq<Event>, n: nat)
    requires IsRun(cfg, states, events) && n <= |events| < |states|
    ensures Sound(cfg, HistoryAt(cfg, states, events, n), states[n])
  {
    hide Next, Remember, EntryIsSound;
    if n > 0 {
      hide Sound, OfItsGeneration, Given;
      RunsKeepSound(cfg, states, events, n - 1);
      StepKeepsSound(cfg, HistoryAt(cfg, states, events, n - 1), states[n - 1], events[n - 1]);
    }
  }

  /** A generation in the history was built by the step that took its number. */
  lemma {:induction false} HistoryIsBuilt(
    cfg: Settings, states: seq<State>, events: seq<Event>, n: nat, g: nat) returns (j: nat)
    requires |states| == |events| + 1 && n <= |events| && g in HistoryAt(cfg, states, events, n)
    ensures j < n && states[j].next == g
    ensures Built(cfg, states[j], events[j]) == Some(HistoryAt(cfg, states, events, n)[g])
  {
    hide Built;
    var before := HistoryAt(cfg, states, events, n - 1);
    if Built(cfg, states[n - 1], events[n - 1]).Some? && states[n - 1].next == g {
      j := n - 1;
    } else {
      j := HistoryIsBuilt(cfg, states, events, n - 1, g);
    }
  }

  // ---------------------------------------------------------------------
  // Results for every run
  // ---------------------------------------------------------------------

  /**
   * Every client handed out, by the fast path or under the lock, was assembled
   * from the mode that some earlier lookup for the same name resolved, under the
   * generation returned with it, and offers exactly the ALPN list asked for. With
   * ECH required it is never a GREASE placeholder.
   */
  lemma ClientsMatchTheirGeneration(cfg: Settings, states: seq<State>, events: seq<Event>, i: nat, client: Client)
    returns (j: nat)
    requires IsRun(cfg, states, events) && i < |events|
    requires Given(cfg, states[i], events[i]) == Some(client)
    ensures j <= i && states[j].next == client.generation
    ensures Built(cfg, states[j], events[j]) == Some(Origin(events[i].name, client.config.mode))
    ensures client.config.alpn == events[i].alpn
    ensures cfg.requireEch ==> client.config.mode.RealEch?
  {
    hide Next, Given, Built;
    RunsKeepSound(cfg, states, events, i);
    hide Sound;
    StepKeepsSound(cfg, HistoryAt(cfg, states, events, i), states[i], events[i]);
    hide Remember;
    j := HistoryIsBuilt(cfg, states, events, i + 1, client.generation);
  }

  lemma StepsOnlyCount(cfg: Settings, s: State, e: Event)
    ensures Next(cfg, s, e).next == s.next + if Built(cfg, s, e).Some? then 1 else 0
  {
  }

  lemma {:induction false} CounterGrows(cfg: Settings, states: seq<State>, events: seq<Event>, m: nat, n: nat)
    requires IsRun(cfg, states, events) && m <= n < |states|
    ensures states[m].next <= states[n].next
    decreases n - m
  {
    hide Next, Built;
    if m < n {
      CounterGrows(cfg, states, events, m, n - 1);
      StepsOnlyCount(cfg, states[n - 1], events[n - 1]);
    }
  }

  /** Every lookup that succeeds gets a generation larger than all before it. */
  lemma GenerationsIncrease(cfg: Settings, states: seq<State>, events: seq<Event>, i: nat, j: nat)
    requires IsRun(cfg, states, events) && i < j < |events|
    requires Built(cfg, states[i], events[i]).Some? && Built(cfg, states[j], events[j]).Some?
    ensures states[i].next < states[j].next
  {
    hide Next, Built;
    StepsOnlyCount(cfg, states[i], events[i]);
    CounterGrows(cfg, states, events, i + 1, j);
  }

  /** No entry of `name` is older than `g`. */
  predicate AtLeast(s: State, name: string, g: nat) {
    g < s.next && (name in s.cache ==> s.cache[name].generation >= g)
  }

  /** `name` has moved past `g`. */
  predicate Past(s: State, name: string, g: nat) {
    g < s.next && (name in s.cache ==> s.cache[name].generation > g)
  }

  lemma StepNeverGoesBack(cfg: Settings, s: State, e: Event, name: string, g: nat)
    ensures AtLeast(s, name, g) ==> AtLeast(Next(cfg, s, e), name, g)
    ensures Past(s, name, g) ==> Past(Next(cfg, s, e), name, g)
    ensures var given := Given(cfg, s, e);
      given.Some? && e.name == name ==>
        && (AtLeast(s, name, g) ==> given.value.generation >= g)
        && (Past(s, name, g) ==> given.value.generation > g)
  {
  }

  lemma GivenIsCurrent(cfg: Settings, h: History, s: State, e: Event)
    requires Sound(cfg, h, s) && Given(cfg, s, e).Some?
    ensures AtLeast(Next(cfg, s, e), e.name, Given(cfg, s, e).value.generation)
  {
  }

  lemma {:induction false} NeverGoesBack(
    cfg: Settings, states: seq<State>, events: seq<Event>, name: string, g: nat, m: nat, n: nat)
    requires IsRun(cfg, states, events) && m <= n < |states|
    ensures AtLeast(states[m], name, g) ==> AtLeast(states[n], name, g)
    ensures Past(states[m], name, g) ==> Past(states[n], name, g)
    decreases n - m
  {
    hide Next, Given, AtLeast, Past;
    if m < n {
      NeverGoesBack(cfg, states, events, name, g, m, n - 1);
      StepNeverGoesBack(cfg, states[n - 1], events[n - 1], name, g);
    }
  }

  /** The generations handed out for one name never decrease. */
  lemma GenerationsNeverGoBack(
    cfg: Settings, states: seq<State>, events: seq<Event>, i: nat, j: nat, older: Client, newer: Client)
    requires IsRun(cfg, states, events) && i < j < |events| && events[i].name == events[j].name
    requires Given(cfg, states[i], events[i]) == Some(older) && Given(cfg, states[j], events[j]) == Some(newer)
    ensures older.generation <= newer.generation
  {
    hide Next, Given, AtLeast, Past, Sound;
    RunsKeepSound(cfg, states, events, i);
    GivenIsCurrent(cfg, HistoryAt(cfg, states, events, i), states[i], events[i]);
    NeverGoesBack(cfg, states, events, events[i].name, older.generation, i + 1, j);
    StepNeverGoesBack(cfg, states[j], events[j], events[i].name, older.generation);
  }

  lemma EvictingMovesPast(cfg: Settings, h: History, s: State, e: Event)
    requires Sound(cfg, h, s) && Evicts(s, e)
    ensures Past(Next(cfg, s, e), e.name, e.generation)
  {
  }

  /**
   * Once a rejection has evicted a generation it never comes back: every client
   * of that name handed out later has a newer one, and no later rejection of it
   * returns true. So at most one rejection per name and generation does.
   */
  lemma EvictedForGood(cfg: Settings, states: seq<State>, events: seq<Event>, i: nat, j: nat)
    requires IsRun(cfg, states, events) && i < j < |events| && events[i].name == events[j].name
    requires Evicts(states[i], events[i])
    ensures Given(cfg, states[j], events[j]).Some? ==>
      Given(cfg, states[j], events[j]).value.generation > events[i].generation
    ensures Evicts(states[j], events[j]) ==> events[j].generation > events[i].generation
  {
    RunsKeepSound(cfg, states, events, i);
    EvictingMovesPast(cfg, HistoryAt(cfg, states, events, i), states[i], events[i]);
    hide Next, Given, Sound;
    NeverGoesBack(cfg, states, events, events[i].name, events[i].generation, i + 1, j);
    StepNeverGoesBack(cfg, states[j], events[j], events[i].name, events[i].generation);
  }

  /**
   * A late rejection never removes a newer entry: after a client of a newer
   * generation has been handed out for the name, rejecting an older one changes
   * nothing at all.
   */
  lemma LateRejectionsChangeNothing(
    cfg: Settings, states: seq<State>, events: seq<Event>, i: nat, k: nat, newer: Client)
    requires IsRun(cfg, states, events) && i < k < |events| && events[i].name == events[k].name
    requires Given(cfg, states[i], events[i]) == Some(newer)
    requires events[k].Reject? && events[k].generation < newer.generation
    ensures states[k + 1] == states[k] && !Evicts(states[k], events[k])
  {
    RunsKeepSound(cfg, states, events, i);
    GivenIsCurrent(cfg, HistoryAt(cfg, states, events, i), states[i], events[i]);
    hide Given, Sound, LockedClient;
    assert states[k + 1] == Next(cfg, states[k], events[k]);
    NeverGoesBack(cfg, states, events, events[i].name, newer.generation, i + 1, k);
    hide IsRun;
  }

  // ---------------------------------------------------------------------
  // How often a name is looked up
  // ---------------------------------------------------------------------

  function EndOf(e: Event): nat {
    if e.Locked? then e.world.built else e.now
  }

  /** The clock: a step ends no earlier than it starts, and the next starts then. */
  ghost predicate InOrder(events: seq<Event>) {
    && (forall i :: 0 <= i < |events| ==> events[i].now <= EndOf(events[i]))
    && forall i, j :: 0 <= i < j < |events| ==> EndOf(events[i]) <= events[j].now
  }

  predicate HeldUntil(s: State, name: string, t: nat) {
    name in s.cache && s.cache[name].refreshAt >= t
  }

  lemma StepHoldsUntil(cfg: Settings, s: State, e: Event, name: string, t: nat)
    requires e.Locked? && e.name == name ==> t <= e.world.built + MIN_REFRESH
    requires HeldUntil(s, name, t) && !(Evicts(s, e) && e.name == name)
    ensures HeldUntil(Next(cfg, s, e), name, t)
  {
  }

  lemma {:induction false} HoldsUntil(
    cfg: Settings, states: seq<State>, events: seq<Event>, name: string, i: nat, n: nat)
    requires IsRun(cfg, states, events) && InOrder(events) && i < n < |states|
    requires HeldUntil(states[i + 1], name, EndOf(events[i]) + MIN_REFRESH)
    requires forall k :: i < k < n ==> !(Evicts(states[k], events[k]) && events[k].name == name)
    ensures HeldUntil(states[n], name, EndOf(events[i]) + MIN_REFRESH)
    decreases n - i
  {
    hide Next, Evicts, HeldUntil;
    if i + 1 < n {
      HoldsUntil(cfg, states, events, name, i, n - 1);
      StepHoldsUntil(cfg, states[n - 1], events[n - 1], name, EndOf(events[i]) + MIN_REFRESH);
    }
  }

  lemma LookupsHold(cfg: Settings, s: State, e: Event)
    requires LooksUp(s, e) && e.name in Next(cfg, s, e).cache
    ensures HeldUntil(Next(cfg, s, e), e.name, EndOf(e) + MIN_REFRESH)
  {
  }

  /**
   * Unless a rejection evicts the entry, a name is looked up at most once every
   * five seconds, whatever ALPN offers are made and whether lookups succeed or
   * fail, as long as there is an entry to fall back on.
   */
  lemma LookupsAreSpaced(cfg: Settings, states: seq<State>, events: seq<Event>, i: nat, j: nat)
    requires IsRun(cfg, states, events) && InOrder(events) && i < j < |events|
    requires LooksUp(states[i], events[i]) && LooksUp(states[j], events[j]) && events[i].name == events[j].name
    requires events[i].name in states[i + 1].cache
    requires forall k :: i < k < j ==> !(Evicts(states[k], events[k]) && events[k].name == events[i].name)
    ensures events[j].now >= events[i].world.built + MIN_REFRESH
  {
    hide Next, Evicts;
    LookupsHold(cfg, states[i], events[i]);
    HoldsUntil(cfg, states, events, events[i].name, i, j);
  }

  // ---------------------------------------------------------------------
  // When lookups fail
  // ---------------------------------------------------------------------

  /** The step is a lookup for `name` that succeeds, or a rejection that evicts it. */
  predicate Changes(cfg: Settings, s: State, e: Event, name: string) {
    e.name == name && (Built(cfg, s, e).Some? || Evicts(s, e))
  }

  /** `name` has an entry of this mode and generation. */
  predicate Holds(s: State, name: string, mode: Mode, generation: nat) {
    name in s.cache && s.cache[name].mode == mode && s.cache[name].generation == generation
  }

  lemma StepKeepsEntry(cfg: Settings, s: State, e: Event, name: string, mode: Mode, generation: nat)
    requires Holds(s, name, mode, generation) && !Changes(cfg, s, e, name)
    ensures Holds(Next(cfg, s, e), name, mode, generation)
  {
  }

  lemma {:induction false} EntryIsKept(
    cfg: Settings, states: seq<State>, events: seq<Event>, name: string, mode: Mode, generation: nat, m: nat, n: nat)
    requires IsRun(cfg, states, events) && m <= n < |states| && Holds(states[m], name, mode, generation)
    requires forall k :: m <= k < n ==> !Changes(cfg, states[k], events[k], name)
    ensures Holds(states[n], name, mode, generation)
    decreases n - m
  {
    hide Next, Holds, Changes;
    if m < n {
      EntryIsKept(cfg, states, events, name, mode, generation, m, n - 1);
      StepKeepsEntry(cfg, states[n - 1], events[n - 1], name, mode, generation);
    }
  }

  lemma GivenLeavesItsEntry(cfg: Settings, h: History, s: State, e: Event, client: Client)
    requires Sound(cfg, h, s) && Given(cfg, s, e) == Some(client)
    ensures Holds(Next(cfg, s, e), e.name, client.config.mode, client.generation)
  {
  }

  /** With an entry and no successful lookup, an assembled config comes from it. */
  lemma HeldEntryServes(cfg: Settings, h: History, s: State, e: Event, mode: Mode, generation: nat)
    requires Sound(cfg, h, s) && Holds(s, e.name, mode, generation)
    requires e.Locked? && e.world.assembles && Built(cfg, s, e).None?
    ensures Given(cfg, s, e) == Some(Client(Config(mode, e.alpn), generation))
  {
  }

  /**
   * A failed refresh keeps the previous good entry, over every run: once a client has
   * been handed out for a name, every later call for it whose config can be assembled
   * is served, from the same mode and generation and for the ALPN list it asks, as long
   * as no lookup for the name succeeds and no rejection evicts it, however often and
   * for however long lookups fail.
   */
  lemma FailedLookupsNeverStopServing(
    cfg: Settings, states: seq<State>, events: seq<Event>, i: nat, j: nat, client: Client)
    requires IsRun(cfg, states, events) && i < j < |events| && events[i].name == events[j].name
    requires Given(cfg, states[i], events[i]) == Some(client)
    requires forall k :: i < k <= j ==> !Changes(cfg, states[k], events[k], events[i].name)
    requires events[j].Locked? && events[j].world.assembles
    ensures Given(cfg, states[j], events[j])
      == Some(Client(Config(client.config.mode, events[j].alpn), client.generation))
  {
    hide Next, Given, Sound;
    RunsKeepSound(cfg, states, events, i);
    RunsKeepSound(cfg, states, events, j);
    GivenLeavesItsEntry(cfg, HistoryAt(cfg, states, events, i), states[i], events[i], client);
    EntryIsKept(cfg, states, events, events[i].name, client.config.mode, client.generation, i + 1, j);
    HeldEntryServes(
      cfg, HistoryAt(cfg, states, events, j), states[j], events[j], client.config.mode, client.generation);
  }
}
