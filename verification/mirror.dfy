/**
 * `DynamicResolver`: the certificate cache and store that mirror what upstreams
 * were seen to present, one entry per certificate scope and host.
 */
module Mirror {
  import opened Text
  import opened Clipping
  import R = Routing

  datatype Key = Key(scope: Scope, host: string)

  /** An issued certificate's names, with the raw observation it was built from. */
  datatype Entry = Entry(sans: seq<string>, observed: Option<seq<string>>)

  /** What the world decides during one call: whether the stored pair can be read
      and its key used, whether signing succeeds, and how far saving gets. */
  datatype Fate = Fate(loads: bool, keyLoads: bool, signs: bool, saves: Save)

  /** `CertificateOnly` leaves the sidecar of an earlier save behind. */
  datatype Save = Saved | NothingWritten | CertificateOnly

  const SMOOTH: Fate := Fate(true, true, true, Saved)

  type Entries = map<Key, Entry>

  /** The file after saving `e` over what `files` holds. */
  function SaveOver(files: Entries, k: Key, e: Entry, how: Save): Entries {
    match how
    case Saved => files[k := e]
    case NothingWritten => files
    case CertificateOnly => files[k := Entry(e.sans, if k in files then files[k].observed else None)]
  }

  /** Whether a persisted entry may be served: a broad one must name what it
      mirrors, and every one must cover the host it is filed under. */
  predicate Servable(k: Key, e: Entry) {
    !(e.observed.None? && e.sans != [k.host]) && HostCoveredBy(e.sans, k.host)
  }

  datatype Decision = Load(entry: Entry) | Sign | Refuse

  /** What issuing does once the cache has missed under the lock. */
  function Decide(files: Entries, k: Key, fate: Fate): Decision {
    if fate.loads && k in files && Servable(k, files[k]) then (if fate.keyLoads then Load(files[k]) else Refuse)
    else if fate.signs then Sign else Refuse
  }

  function Exact(k: Key): Entry {
    Entry([k.host], None)
  }

  function Mirrored(l: Listener, k: Key, observed: seq<string>): Entry {
    Entry(Clip(l, k.scope, NormalizeHost(k.host), observed).kept, Some(observed))
  }

  /** The certificate scope of the route a name belongs to, if it has one. */
  function ScopeOf(l: Listener, sni: string): Option<Scope> {
    match R.MatchHost(l.router, sni)
    case Some(id) => if id < |l.scopes| then Some(l.scopes[id]) else None
    case None => None
  }

  // ---------------------------------------------------------------------
  // The calls, one at a time
  // ---------------------------------------------------------------------

  class Resolver {
    const listener: Listener
    const pinned: map<R.RouteId, seq<string>>
    var cache: Entries
    var files: Entries

    /** The certificate for a host on route `owner`: the pinned one, the cached
        one, the persisted one, or a fresh exact one. */
    method CertificateFor(sni: string, owner: R.RouteId, fate: Fate) returns (r: Option<seq<string>>)
      requires owner < |listener.scopes|
      modifies this
      ensures owner in pinned ==> r == Some(pinned[owner]) && cache == old(cache) && files == old(files)
      ensures owner !in pinned ==>
        var k := Key(listener.scopes[owner], NormalizeHost(sni));
        if k in old(cache) then r == Some(old(cache)[k].sans) && cache == old(cache) && files == old(files)
        else match Decide(old(files), k, fate)
             case Load(e) => r == Some(e.sans) && cache == old(cache)[k := e] && files == old(files)
             case Sign => r == Some([k.host]) && cache == old(cache)[k := Exact(k)]
                          && files == SaveOver(old(files), k, Exact(k), fate.saves)
             case Refuse => r == None && cache == old(cache) && files == old(files)
    {
      if owner in pinned {
        return Some(pinned[owner]);
      }
      var k := Key(listener.scopes[owner], NormalizeHost(sni));
      if k in cache {
        return Some(cache[k].sans);
      }
      if fate.loads && k in files {
        var stored := files[k];
        var unobservedButBroad := stored.observed.None? && stored.sans != [k.host];
        if !unobservedButBroad && HostCoveredBy(stored.sans, k.host) {
          if !fate.keyLoads {
            return None;
          }
          cache := cache[k := stored];
          return Some(stored.sans);
        }
      }
      if !fate.signs {
        return None;
      }
      files := SaveOver(files, k, Entry([k.host], None), fate.saves);
      cache := cache[k := Entry([k.host], None)];
      return Some([k.host]);
    }

    /** Whether recording `observed` would do nothing. */
    predicate MirrorIsCurrent(sni: string, observed: seq<string>)
      reads this
    {
      match R.MatchHost(listener.router, sni)
      case None => true
      case Some(owner) =>
        || owner in pinned
        || owner >= |listener.scopes|
        || (var k := Key(listener.scopes[owner], NormalizeHost(sni));
            k in cache && cache[k].observed == Some(observed))
    }

    /** Mirror what the upstream presented, unless that is already mirrored. */
    method RecordUpstreamSans(sni: string, observed: seq<string>, fate: Fate)
      modifies this
      ensures old(MirrorIsCurrent(sni, observed)) ==> cache == old(cache) && files == old(files)
      ensures !old(MirrorIsCurrent(sni, observed)) && !fate.signs ==> cache == old(cache) && files == old(files)
      ensures !old(MirrorIsCurrent(sni, observed)) && fate.signs ==>
        var k := Key(listener.scopes[R.MatchHost(listener.router, sni).value], NormalizeHost(sni));
        var e := Mirrored(listener, k, observed);
        cache == old(cache)[k := e] && files == SaveOver(old(files), k, e, fate.saves)
    {
      var owner := R.MatchHost(listener.router, sni);
      if owner.None? || owner.value in pinned || owner.value >= |listener.scopes| {
        return;
      }
      var k := Key(listener.scopes[owner.value], NormalizeHost(sni));
      if k in cache && cache[k].observed == Some(observed) {
        return;
      }
      var plan := ClipObserved(listener, k.scope, k.host, observed);
      if fate.signs {
        var e := Entry(plan.kept, Some(observed));
        files := SaveOver(files, k, e, fate.saves);
        cache := cache[k := e];
      }
    }
  }

  // ---------------------------------------------------------------------
  // All interleavings
  // ---------------------------------------------------------------------

  type Task = nat

  /** One call of one task, between two of its accesses to shared state. A task
      holds the lock of its key from `Issuing` and `Recording` on. */
  datatype Phase =
    | Idle
    | IssueWaiting(key: Key)
    | Issuing(key: Key)
    | IssueReady(key: Key, entry: Entry)
    | RecordWaiting(key: Key, observed: seq<string>)
    | Recording(key: Key, observed: seq<string>)
    | RecordReady(key: Key, observed: seq<string>)

  /** `saved` is the last observation saved for each key, `settled` the last one
      whose call has finished or whose process has ended. */
  datatype State = State(
    cache: Entries,
    files: Entries,
    holders: map<Key, Task>,
    phases: map<Task, Phase>,
    saved: map<Key, seq<string>>,
    settled: map<Key, seq<string>>)

  datatype Event =
    | AskCertificate(task: Task, sni: string)
    | LockToIssue(task: Task)
    | Issue(task: Task, fate: Fate)
    | InsertIssued(task: Task)
    | ReportSans(task: Task, sni: string, observed: seq<string>)
    | LockToRecord(task: Task)
    | Record(task: Task, fate: Fate)
    | InsertRecorded(task: Task)
    | Evict(key: Key)
    | Restart

  function PhaseOf(s: State, t: Task): Phase {
    if t in s.phases then s.phases[t] else Idle
  }

  predicate HoldsLock(p: Phase) {
    p.Issuing? || p.IssueReady? || p.Recording? || p.RecordReady?
  }

  /** The names asked for are host names that route somewhere. */
  predicate Asks(l: Listener, sni: string) {
    IsHostName(NormalizeHost(sni)) && !IsWildcard(NormalizeHost(sni)) && ScopeOf(l, sni).Some?
  }

  function KeyOf(l: Listener, sni: string): Key
    requires ScopeOf(l, sni).Some?
  {
    Key(ScopeOf(l, sni).value, NormalizeHost(sni))
  }

  predicate Enabled(l: Listener, s: State, e: Event) {
    match e
    case AskCertificate(t, sni) => PhaseOf(s, t).Idle? && Asks(l, sni)
    case LockToIssue(t) => PhaseOf(s, t).IssueWaiting? && PhaseOf(s, t).key !in s.holders
    case Issue(t, _) => PhaseOf(s, t).Issuing?
    case InsertIssued(t) => PhaseOf(s, t).IssueReady?
    case ReportSans(t, sni, _) => PhaseOf(s, t).Idle? && Asks(l, sni)
    case LockToRecord(t) => PhaseOf(s, t).RecordWaiting? && PhaseOf(s, t).key !in s.holders
    case Record(t, _) => PhaseOf(s, t).Recording?
    case InsertRecorded(t) => PhaseOf(s, t).RecordReady?
    case Evict(_) => true
    case Restart => true
  }

  function To(s: State, t: Task, p: Phase): State {
    s.(phases := s.phases[t := p])
  }

  function Unlock(s: State, t: Task, k: Key): State {
    s.(phases := s.phases[t := Idle], holders := s.holders - {k})
  }

  /** The locked part of `get_or_issue`, up to the cache insertion. */
  function Issued(s: State, t: Task, k: Key, fate: Fate): State {
    if k in s.cache then Unlock(s, t, k)
    else
      match Decide(s.files, k, fate)
      case Load(entry) => To(s, t, IssueReady(k, entry))
      case Sign => To(s, t, IssueReady(k, Exact(k))).(files := SaveOver(s.files, k, Exact(k), fate.saves))
      case Refuse => Unlock(s, t, k)
  }

  /** The locked part of `record_upstream_sans`, up to the cache insertion. */
  function Recorded(l: Listener, s: State, t: Task, k: Key, observed: seq<string>, fate: Fate): State {
    if k in s.cache && s.cache[k].observed == Some(observed) then Unlock(s, t, k)
    else if !fate.signs then Unlock(s, t, k)
    else
      To(s, t, RecordReady(k, observed))
        .(files := SaveOver(s.files, k, Mirrored(l, k, observed), fate.saves), saved := s.saved[k := observed])
  }

  function Next(l: Listener, s: State, e: Event): State
    requires Enabled(l, s, e)
  {
    match e
    case AskCertificate(t, sni) =>
      var k := KeyOf(l, sni);
      To(s, t, if k in s.cache then Idle else IssueWaiting(k))
    case LockToIssue(t) =>
      var k := PhaseOf(s, t).key;
      To(s, t, Issuing(k)).(holders := s.holders[k := t])
    case Issue(t, fate) =>
      Issued(s, t, PhaseOf(s, t).key, fate)
    case InsertIssued(t) =>
      var IssueReady(k, entry) := PhaseOf(s, t);
      Unlock(s, t, k).(cache := s.cache[k := entry])
    case ReportSans(t, sni, observed) =>
      var k := KeyOf(l, sni);
      To(s, t, if k in s.cache && s.cache[k].observed == Some(observed) then Idle else RecordWaiting(k, observed))
    case LockToRecord(t) =>
      var RecordWaiting(k, observed) := PhaseOf(s, t);
      To(s, t, Recording(k, observed)).(holders := s.holders[k := t])
    case Record(t, fate) =>
      var Recording(k, observed) := PhaseOf(s, t);
      Recorded(l, s, t, k, observed, fate)
    case InsertRecorded(t) =>
      var RecordReady(k, observed) := PhaseOf(s, t);
      Unlock(s, t, k).(cache := s.cache[k := Mirrored(l, k, observed)], settled := s.settled[k := observed])
    case Evict(k) => s.(cache := s.cache - {k})
    case Restart => s.(cache := map[], holders := map[], phases := map[], settled := s.saved)
  }

  /** The names a step hands to a client, with the key they were asked under. */
  function Served(l: Listener, s: State, e: Event): Option<(Key, seq<string>)>
    requires Enabled(l, s, e)
  {
    match e
    case AskCertificate(_, sni) =>
      var k := KeyOf(l, sni);
      if k in s.cache then Some((k, s.cache[k].sans)) else None
    case Issue(t, _) =>
      var k := PhaseOf(s, t).key;
      if k in s.cache then Some((k, s.cache[k].sans)) else None
    case InsertIssued(t) => Some((PhaseOf(s, t).key, PhaseOf(s, t).entry.sans))
    case _ => None
  }

  ghost predicate IsRun(l: Listener, states: seq<State>, events: seq<Event>) {
    && |states| == |events| + 1
    && states[0] == State(map[], states[0].files, map[], map[], map[], map[])
    && forall i :: 0 <= i < |events| ==>
         Enabled(l, states[i], events[i]) && states[i + 1] == Next(l, states[i], events[i])
  }

  // ---------------------------------------------------------------------
  // The locks, whatever fails
  // ---------------------------------------------------------------------

  /** A task under a lock holds that of its key, and an entry about to be issued is
      not in the cache. */
  ghost predicate UnderLock(s: State, t: Task, p: Phase) {
    && (HoldsLock(p) ==> p.key in s.holders && s.holders[p.key] == t)
    && (p.IssueReady? ==> p.key !in s.cache)
  }

  ghost predicate LockDiscipline(s: State) {
    forall t: Task :: UnderLock(s, t, PhaseOf(s, t))
  }

  lemma OwnStepKeepsDiscipline(l: Listener, s: State, e: Event)
    requires LockDiscipline(s) && Enabled(l, s, e) && !e.Restart? && !e.Evict?
    ensures UnderLock(Next(l, s, e), e.task, PhaseOf(Next(l, s, e), e.task))
  {
    hide Mirrored, Asks, KeyOf, Decide, SaveOver;
    assert UnderLock(s, e.task, PhaseOf(s, e.task));
  }

  lemma OtherStepsKeepDiscipline(l: Listener, s: State, e: Event, t: Task)
    requires LockDiscipline(s) && Enabled(l, s, e) && !e.Restart? && (e.Evict? || e.task != t)
    ensures UnderLock(Next(l, s, e), t, PhaseOf(Next(l, s, e), t))
  {
    hide Next, Mirrored, Asks, KeyOf;
    OtherTasksAreUntouched(l, s, e, t);
    var p := PhaseOf(s, t);
    assert UnderLock(s, t, p);
    if HoldsLock(p) {
      if WorksOn(s, e, p.key) {
        OnlyHoldersWork(l, s, e, p.key);
      } else {
        OtherKeysAreUntouched(l, s, e, p.key);
      }
    }
  }

  /** A locked key is worked on by its holder alone. */
  lemma OnlyHoldersWork(l: Listener, s: State, e: Event, k: Key)
    requires LockDiscipline(s) && Enabled(l, s, e) && WorksOn(s, e, k) && k in s.holders
    ensures s.holders[k] == e.task
  {
  }

  lemma {:induction false} RunsKeepDiscipline(l: Listener, states: seq<State>, events: seq<Event>, n: nat)
    requires IsRun(l, states, events) && n < |states|
    ensures LockDiscipline(states[n])
  {
    hide Next, Enabled;
    if n > 0 {
      RunsKeepDiscipline(l, states, events, n - 1);
      var s, e := states[n - 1], events[n - 1];
      assert Enabled(l, s, e) && states[n] == Next(l, s, e);
      hide UnderLock, IsRun;
      StepKeepsDiscipline(l, s, e);
    }
  }

  lemma StepKeepsDiscipline(l: Listener, s: State, e: Event)
    requires LockDiscipline(s) && Enabled(l, s, e)
    ensures LockDiscipline(Next(l, s, e))
  {
    hide Next, Enabled, UnderLock;
    forall t: Task ensures UnderLock(Next(l, s, e), t, PhaseOf(Next(l, s, e), t)) {
      if e.Restart? {
        RestartsFreeAllLocks(l, s, t);
      } else if e.Evict? || e.task != t {
        OtherStepsKeepDiscipline(l, s, e, t);
      } else {
        OwnStepKeepsDiscipline(l, s, e);
      }
    }
  }

  lemma RestartsFreeAllLocks(l: Listener, s: State, t: Task)
    ensures UnderLock(Next(l, s, Restart), t, PhaseOf(Next(l, s, Restart), t))
  {
  }

  /** In every run, whatever is stored at first and whatever fails, an issued entry,
      exact or loaded, never overwrites one: when it is inserted the cache holds
      nothing for its key. */
  lemma IssuingOverwritesNothing(l: Listener, states: seq<State>, events: seq<Event>, n: nat)
    requires IsRun(l, states, events) && n < |events| && events[n].InsertIssued?
    ensures PhaseOf(states[n], events[n].task).key !in states[n].cache
  {
    hide Next;
    RunsKeepDiscipline(l, states, events, n);
    assert Enabled(l, states[n], events[n]);
    assert UnderLock(states[n], events[n].task, PhaseOf(states[n], events[n].task));
  }

  // ---------------------------------------------------------------------
  // Coalescing safety, whatever fails
  // ---------------------------------------------------------------------

  ghost predicate SafeEntry(l: Listener, k: Key, sans: seq<string>) {
    Safe(l, k.scope, k.host, sans)
  }

  /** A key of this listener: a host name routed into its scope. */
  ghost predicate Routed(l: Listener, k: Key) {
    IsHostName(k.host) && !IsWildcard(k.host) && R.RoutesInto(l.router, k.host, ScopeTest(l, k.scope))
  }

  /** A file that records an observation is safe; one without may hold anything. */
  ghost predicate TrustedFiles(l: Listener, files: Entries) {
    forall k <- files :: files[k].observed.Some? ==> SafeEntry(l, k, files[k].sans)
  }

  ghost predicate SafePhase(l: Listener, p: Phase) {
    match p
    case Idle => true
    case IssueReady(k, entry) => Routed(l, k) && SafeEntry(l, k, entry.sans)
    case _ => Routed(l, p.key)
  }

  ghost predicate SafeState(l: Listener, s: State) {
    && TrustedFiles(l, s.files)
    && (forall k <- s.cache :: SafeEntry(l, k, s.cache[k].sans))
    && (forall t: Task :: SafePhase(l, PhaseOf(s, t)))
  }

  lemma {:induction false} TrimDotsTakesOnlyDots(s: string)
    ensures TrimDots(s) <= s && forall i :: |TrimDots(s)| <= i < |s| ==> s[i] == '.'
  {
    if s != [] && s[|s| - 1] == '.' {
      TrimDotsTakesOnlyDots(s[..|s| - 1]);
    }
  }

  /** On host names the router's normal form is the certificate's. */
  lemma NormalFormsAgree(sni: string)
    requires IsHostName(NormalizeHost(sni))
    ensures R.Normalize(sni) == NormalizeHost(sni)
  {
    var h := Trim(sni);
    var t, n := TrimDots(h), NormalizeHost(sni);
    TrimDotsTakesOnlyDots(h);
    forall i | 0 <= i < |h| ensures h[i] != ':' && h[i] != '[' {
      if i < |t| {
        assert h[i] == t[i] && n[i] == Lower(t)[i];
      }
    }
    BeforeKeeps(h, ':');
  }

  lemma SameFormSameRoute(r: R.Router, a: string, b: string)
    requires R.Normalize(a) == R.Normalize(b)
    ensures R.MatchHost(r, a) == R.MatchHost(r, b)
  {
  }

  lemma AskedKeysAreRouted(l: Listener, sni: string)
    requires Asks(l, sni)
    ensures Routed(l, KeyOf(l, sni))
  {
    hide R.MatchHost, NormalizeHost, R.Normalize, IsHostName;
    NormalFormsAgree(sni);
    R.NormalHost(NormalizeHost(sni));
    SameFormSameRoute(l.router, sni, NormalizeHost(sni));
  }

  lemma ExactIsSafe(l: Listener, k: Key)
    requires Routed(l, k)
    ensures SafeEntry(l, k, [k.host])
  {
    hide R.RoutesInto, IsHostName, IsWildcard;
    CoversItself(k.host);
    assert [k.host][0] == k.host;
    forall g | IsHostName(g) && HostCoveredBy([k.host], g) ensures R.RoutesInto(l.router, g, ScopeTest(l, k.scope)) {
      PlainNamesCoverThemselves(k.host, g);
    }
  }

  lemma MirroredIsSafe(l: Listener, k: Key, observed: seq<string>)
    requires Routed(l, k) && R.HonestScopes(l.router)
    ensures SafeEntry(l, k, Mirrored(l, k, observed).sans)
  {
    hide R.RoutesInto, R.HonestScopes, IsHostName, IsWildcard, Clip, Safe;
    HostNamesAreNormal(k.host);
    ClippedCertificatesAreSafe(l, k.scope, k.host, observed);
  }

  lemma SavingKeepsFilesTrusted(l: Listener, files: Entries, k: Key, e: Entry, how: Save)
    requires TrustedFiles(l, files) && SafeEntry(l, k, e.sans)
    ensures TrustedFiles(l, SaveOver(files, k, e, how))
  {
  }

  lemma DecidedEntriesAreSafe(l: Listener, files: Entries, k: Key, fate: Fate)
    requires TrustedFiles(l, files) && Routed(l, k)
    ensures match Decide(files, k, fate) case Load(e) => SafeEntry(l, k, e.sans) case _ => true
  {
  }

  lemma FilesStayTrusted(l: Listener, s: State, e: Event)
    requires SafeState(l, s) && Enabled(l, s, e) && R.HonestScopes(l.router)
    ensures TrustedFiles(l, Next(l, s, e).files)
  {
    hide SafeEntry, Routed, Mirrored, TrustedFiles, R.HonestScopes, SaveOver, KeyOf, Servable;
    match e {
      case Issue(t, fate) =>
        assert SafePhase(l, PhaseOf(s, t));
        ExactIsSafe(l, PhaseOf(s, t).key);
        SavingKeepsFilesTrusted(l, s.files, PhaseOf(s, t).key, Exact(PhaseOf(s, t).key), fate.saves);
      case Record(t, fate) =>
        var Recording(k, observed) := PhaseOf(s, t);
        assert SafePhase(l, PhaseOf(s, t));
        MirroredIsSafe(l, k, observed);
        SavingKeepsFilesTrusted(l, s.files, k, Mirrored(l, k, observed), fate.saves);
      case _ =>
    }
  }

  lemma CacheStaysSafe(l: Listener, s: State, e: Event)
    requires SafeState(l, s) && Enabled(l, s, e) && R.HonestScopes(l.router)
    ensures var cache := Next(l, s, e).cache; forall k <- cache :: SafeEntry(l, k, cache[k].sans)
  {
    hide SafeEntry, Routed, Mirrored, TrustedFiles, R.HonestScopes, SaveOver, KeyOf, Decide, Asks;
    match e {
      case InsertRecorded(t) =>
        assert SafePhase(l, PhaseOf(s, t));
        MirroredIsSafe(l, PhaseOf(s, t).key, PhaseOf(s, t).observed);
      case InsertIssued(t) => assert SafePhase(l, PhaseOf(s, t));
      case _ =>
    }
  }

  lemma OwnPhaseStaysSafe(l: Listener, s: State, e: Event, t: Task)
    requires SafeState(l, s) && Enabled(l, s, e)
    ensures SafePhase(l, PhaseOf(Next(l, s, e), t))
  {
    hide SafeEntry, Routed, TrustedFiles, Asks, KeyOf, Issued, Recorded;
    assert SafePhase(l, PhaseOf(s, t));
    match e {
      case AskCertificate(_, sni) => AskedKeysAreRouted(l, sni);
      case ReportSans(_, sni, _) => AskedKeysAreRouted(l, sni);
      case Issue(u, fate) =>
        if u == t {
          IssuedPhaseIsSafe(l, s, t, fate);
        } else {
          IssuingTouchesNoOther(s, u, PhaseOf(s, u).key, fate, t);
        }
      case Record(u, fate) =>
        var Recording(k, observed) := PhaseOf(s, u);
        if u == t {
          RecordingKeepsItsObservation(l, s, t, k, observed, fate);
        } else {
          RecordingTouchesNoOther(l, s, u, k, observed, fate, t);
        }
      case _ =>
    }
  }

  lemma IssuedPhaseIsSafe(l: Listener, s: State, t: Task, fate: Fate)
    requires SafeState(l, s) && PhaseOf(s, t).Issuing?
    ensures SafePhase(l, PhaseOf(Issued(s, t, PhaseOf(s, t).key, fate), t))
  {
    hide SafeEntry, Routed, TrustedFiles, Decide, SaveOver;
    var k := PhaseOf(s, t).key;
    assert SafePhase(l, PhaseOf(s, t));
    DecidedEntriesAreSafe(l, s.files, k, fate);
    ExactIsSafe(l, k);
  }

  lemma StepsStaySafe(l: Listener, s: State, e: Event)
    requires SafeState(l, s) && Enabled(l, s, e) && R.HonestScopes(l.router)
    ensures SafeState(l, Next(l, s, e))
    ensures Served(l, s, e).Some? ==> SafeEntry(l, Served(l, s, e).value.0, Served(l, s, e).value.1)
  {
    hide SafeEntry, TrustedFiles, R.HonestScopes, Next, KeyOf, PhaseOf, SafePhase, Asks;
    FilesStayTrusted(l, s, e);
    CacheStaysSafe(l, s, e);
    forall t: Task ensures SafePhase(l, PhaseOf(Next(l, s, e), t)) {
      OwnPhaseStaysSafe(l, s, e, t);
    }
    if e.InsertIssued? {
      IssuedIsSafe(l, s, e.task);
    }
  }

  lemma IssuedIsSafe(l: Listener, s: State, t: Task)
    requires SafeState(l, s) && PhaseOf(s, t).IssueReady?
    ensures SafeEntry(l, PhaseOf(s, t).key, PhaseOf(s, t).entry.sans)
  {
  }

  /**
   * Coalescing safety (RFC 9113, section 9.1.1). In every run, under every
   * interleaving and whatever fails, each certificate served for a host covers
   * it, and every host that certificate covers routes into the scope it was
   * served for. The store may start with anything in files that record no
   * observation.
   */
  lemma {:induction false} ServedCertificatesAreSafe(l: Listener, states: seq<State>, events: seq<Event>, n: nat)
    requires IsRun(l, states, events) && R.HonestScopes(l.router) && TrustedFiles(l, states[0].files)
    requires n < |events|
    ensures SafeState(l, states[n + 1])
    ensures Served(l, states[n], events[n]).Some? ==>
      var (k, sans) := Served(l, states[n], events[n]).value; Safe(l, k.scope, k.host, sans)
  {
    hide TrustedFiles, R.HonestScopes, Safe, Enabled, Next, Served;
    if n > 0 {
      ServedCertificatesAreSafe(l, states, events, n - 1);
    } else {
      assert forall t: Task :: PhaseOf(states[0], t).Idle?;
    }
    StepsStaySafe(l, states[n], events[n]);
  }

  // ---------------------------------------------------------------------
  // The cache against its specification, when nothing fails
  // ---------------------------------------------------------------------

  /** The entry a key ought to have: the clip of the last observation, or exact. */
  function Expected(l: Listener, last: map<Key, seq<string>>, k: Key): Entry {
    if k in last then Mirrored(l, k, last[k]) else Exact(k)
  }

  predicate IsSmooth(e: Event) {
    match e
    case Issue(_, fate) => fate == SMOOTH
    case Record(_, fate) => fate == SMOOTH
    case _ => true
  }

  /** Some task has saved an observation for `k` and not inserted it yet. */
  predicate Settling(s: State, k: Key) {
    k in s.holders && PhaseOf(s, s.holders[k]).RecordReady? && PhaseOf(s, s.holders[k]).key == k
  }

  ghost predicate PhaseAgrees(l: Listener, s: State, t: Task, p: Phase) {
    match p
    case Idle => true
    case IssueWaiting(k) => Routed(l, k)
    case RecordWaiting(k, _) => Routed(l, k)
    case Issuing(k) => Routed(l, k) && k in s.holders && s.holders[k] == t
    case Recording(k, _) => Routed(l, k) && k in s.holders && s.holders[k] == t
    case IssueReady(k, entry) =>
      && Routed(l, k) && k in s.holders && s.holders[k] == t
      && entry == Expected(l, s.saved, k) && k !in s.cache
    case RecordReady(k, observed) =>
      Routed(l, k) && k in s.holders && s.holders[k] == t && k in s.saved && s.saved[k] == observed
  }

  ghost predicate KeyAgrees(l: Listener, s: State, k: Key) {
    && (k in s.files ==> s.files[k] == Expected(l, s.saved, k))
    && (k in s.saved ==> k in s.files)
    && (k in s.cache ==> s.cache[k] == Expected(l, s.settled, k))
    && (!Settling(s, k) ==> (k in s.saved <==> k in s.settled) && (k in s.saved ==> s.saved[k] == s.settled[k]))
    && (k in s.holders ==> HoldsLock(PhaseOf(s, s.holders[k])) && PhaseOf(s, s.holders[k]).key == k)
  }

  ghost predicate Agrees(l: Listener, s: State) {
    && (forall k: Key :: KeyAgrees(l, s, k))
    && (forall t: Task :: PhaseAgrees(l, s, t, PhaseOf(s, t)))
  }

  /** What is expected of a routed key may be served from the store. */
  lemma ExpectedIsServable(l: Listener, last: map<Key, seq<string>>, k: Key)
    requires Routed(l, k)
    ensures Servable(k, Expected(l, last, k))
  {
    CoversItself(k.host);
    assert [k.host][0] == k.host;
    if k in last {
      HostNamesAreNormal(k.host);
      ClipCoversTheHost(l, k.scope, k.host, last[k]);
    }
  }

  lemma ClipCoversTheHost(l: Listener, scope: Scope, host: string, observed: seq<string>)
    ensures HostCoveredBy(Clip(l, scope, host, observed).kept, host)
  {
    hide Covers;
    var plan, kept := Sift(l, scope, observed), Clip(l, scope, host, observed).kept;
    CoversItself(host);
    if !HostCoveredBy(plan.kept, host) {
      assert kept[|plan.kept|] == host;
    }
  }

  /** Both states say the same of one key. */
  ghost predicate SameAt<K, V>(m: map<K, V>, n: map<K, V>, k: K) {
    (k in m <==> k in n) && (k in m ==> m[k] == n[k])
  }

  lemma UntouchedKeysAgree(l: Listener, s: State, s': State, k: Key)
    requires KeyAgrees(l, s, k)
    requires UntouchedAt(s, s', k)
    requires k in s.holders ==> PhaseOf(s', s.holders[k]) == PhaseOf(s, s.holders[k])
    ensures KeyAgrees(l, s', k)
  {
  }

  /** The task whose step `e` is, and the key it works on, if it works under a lock. */
  predicate WorksOn(s: State, e: Event, k: Key) {
    (e.LockToIssue? || e.Issue? || e.InsertIssued? || e.LockToRecord? || e.Record? || e.InsertRecorded?)
    && !PhaseOf(s, e.task).Idle? && PhaseOf(s, e.task).key == k
  }

  lemma UpdatesStayLocal<K, V>(m: map<K, V>, own: K, k: K, v: V)
    requires own != k
    ensures SameAt(m, m[own := v], k) && SameAt(m, m - {own}, k)
  {
  }

  lemma SavingStaysLocal(files: Entries, own: Key, k: Key, e: Entry, how: Save)
    requires own != k
    ensures SameAt(files, SaveOver(files, own, e, how), k)
  {
  }

  ghost predicate UntouchedAt(s: State, s': State, k: Key) {
    && SameAt(s.files, s'.files, k) && SameAt(s.holders, s'.holders, k)
    && SameAt(s.saved, s'.saved, k) && SameAt(s.settled, s'.settled, k)
    && (SameAt(s.cache, s'.cache, k) || k !in s'.cache)
  }

  lemma IssuingLeavesOtherKeys(s: State, t: Task, own: Key, fate: Fate, k: Key)
    requires own != k
    ensures UntouchedAt(s, Issued(s, t, own, fate), k)
  {
    hide Issued, SaveOver, SameAt, Exact;
    IssuingChangesLittle(s, t, own, fate);
    UntouchedBySelf(s, k);
    UpdatesStayLocal(s.holders, own, k, t);
    SavingStaysLocal(s.files, own, k, Exact(own), fate.saves);
  }

  lemma IssuingChangesLittle(s: State, t: Task, k: Key, fate: Fate)
    ensures var s' := Issued(s, t, k, fate);
      && s'.saved == s.saved && s'.settled == s.settled && s'.cache == s.cache
      && (s'.holders == s.holders || s'.holders == s.holders - {k})
      && (s'.files == s.files || s'.files == SaveOver(s.files, k, Exact(k), fate.saves))
  {
    hide SaveOver, Exact, Decide;
    if k !in s.cache {
      match Decide(s.files, k, fate)
      case Load(_) =>
      case Sign =>
      case Refuse =>
    }
  }

  lemma RecordingLeavesOtherKeys(
    l: Listener, s: State, t: Task, own: Key, observed: seq<string>, fate: Fate, k: Key)
    requires own != k
    ensures UntouchedAt(s, Recorded(l, s, t, own, observed, fate), k)
  {
    hide Mirrored, SaveOver, SameAt;
    UntouchedBySelf(s, k);
    UpdatesStayLocal(s.holders, own, k, t);
    UpdatesStayLocal(s.saved, own, k, observed);
    SavingStaysLocal(s.files, own, k, Mirrored(l, own, observed), fate.saves);
  }

  lemma OtherKeysAreUntouched(l: Listener, s: State, e: Event, k: Key)
    requires Enabled(l, s, e) && !e.Restart? && !WorksOn(s, e, k)
    ensures UntouchedAt(s, Next(l, s, e), k)
  {
    hide Issued, Recorded, Mirrored, Asks, KeyOf, Decide, SaveOver, SameAt, Exact;
    UntouchedBySelf(s, k);
    match e {
      case LockToIssue(t) => UpdatesStayLocal(s.holders, PhaseOf(s, t).key, k, t);
      case LockToRecord(t) => UpdatesStayLocal(s.holders, PhaseOf(s, t).key, k, t);
      case InsertIssued(t) =>
        UpdatesStayLocal(s.holders, PhaseOf(s, t).key, k, t);
        UpdatesStayLocal(s.cache, PhaseOf(s, t).key, k, PhaseOf(s, t).entry);
      case InsertRecorded(t) =>
        var RecordReady(own, observed) := PhaseOf(s, t);
        UpdatesStayLocal(s.holders, own, k, t);
        UpdatesStayLocal(s.settled, own, k, observed);
        UpdatesStayLocal(s.cache, own, k, Mirrored(l, own, observed));
      case Evict(own) =>
        if own != k {
          UpdatesStayLocal(s.cache, own, k, Exact(own));
        } else {
          RemovedIsGone(s.cache, k);
        }
      case Issue(t, fate) => IssuingLeavesOtherKeys(s, t, PhaseOf(s, t).key, fate, k);
      case Record(t, fate) =>
        RecordingLeavesOtherKeys(l, s, t, PhaseOf(s, t).key, PhaseOf(s, t).observed, fate, k);
      case AskCertificate(_, _) =>
      case ReportSans(_, _, _) =>
    }
  }

  lemma UntouchedBySelf(s: State, k: Key)
    ensures UntouchedAt(s, s, k)
  {
  }

  lemma RemovedIsGone<K, V>(m: map<K, V>, k: K)
    ensures k !in m - {k}
  {
  }

  lemma OtherTasksAreUntouched(l: Listener, s: State, e: Event, t: Task)
    requires Enabled(l, s, e) && !e.Restart? && (e.Evict? || e.task != t)
    ensures PhaseOf(Next(l, s, e), t) == PhaseOf(s, t)
  {
    hide Asks, KeyOf, Issued, Recorded;
    if e.Issue? {
      IssuingTouchesNoOther(s, e.task, PhaseOf(s, e.task).key, e.fate, t);
    } else if e.Record? {
      RecordingTouchesNoOther(l, s, e.task, PhaseOf(s, e.task).key, PhaseOf(s, e.task).observed, e.fate, t);
    }
  }

  lemma IssuingTouchesNoOther(s: State, u: Task, k: Key, fate: Fate, t: Task)
    requires t != u
    ensures PhaseOf(Issued(s, u, k, fate), t) == PhaseOf(s, t)
  {
    hide Decide, SaveOver;
  }

  lemma RecordingTouchesNoOther(
    l: Listener, s: State, u: Task, k: Key, observed: seq<string>, fate: Fate, t: Task)
    requires t != u
    ensures PhaseOf(Recorded(l, s, u, k, observed, fate), t) == PhaseOf(s, t)
  {
    hide Mirrored, SaveOver;
  }

  lemma OtherKeysStayAgreed(l: Listener, s: State, e: Event, k: Key)
    requires Agrees(l, s) && Enabled(l, s, e) && !e.Restart? && !WorksOn(s, e, k)
    ensures KeyAgrees(l, Next(l, s, e), k)
  {
    hide Routed, Mirrored, Asks, KeyOf, Expected, Decide, PhaseAgrees, Next, Settling;
    assert KeyAgrees(l, s, k);
    OtherKeysAreUntouched(l, s, e, k);
    if k in s.holders {
      OtherTasksAreUntouched(l, s, e, s.holders[k]);
    }
    UntouchedKeysAgree(l, s, Next(l, s, e), k);
  }

  lemma IssuedKeyAgrees(l: Listener, s: State, e: Event, k: Key)
    requires Agrees(l, s) && Enabled(l, s, e) && IsSmooth(e) && WorksOn(s, e, k)
    requires e.LockToIssue? || e.Issue? || e.InsertIssued?
    ensures KeyAgrees(l, Next(l, s, e), k)
  {
    hide Routed, Mirrored, Servable;
    assert KeyAgrees(l, s, k) && PhaseAgrees(l, s, e.task, PhaseOf(s, e.task));
    ExpectedIsServable(l, s.saved, k);
  }

  lemma RecordedKeyAgrees(l: Listener, s: State, e: Event, k: Key)
    requires Agrees(l, s) && Enabled(l, s, e) && IsSmooth(e) && WorksOn(s, e, k)
    requires e.LockToRecord? || e.Record? || e.InsertRecorded?
    ensures KeyAgrees(l, Next(l, s, e), k)
  {
    hide Routed, Mirrored, Servable;
    assert KeyAgrees(l, s, k) && PhaseAgrees(l, s, e.task, PhaseOf(s, e.task));
  }

  lemma KeysStayAgreed(l: Listener, s: State, e: Event, k: Key)
    requires Agrees(l, s) && Enabled(l, s, e) && IsSmooth(e)
    ensures KeyAgrees(l, Next(l, s, e), k)
  {
    hide Routed, Mirrored, KeyAgrees, Enabled, PhaseAgrees, Servable;
    if e.Restart? {
      RestartAgrees(l, s, k);
    } else if !WorksOn(s, e, k) {
      OtherKeysStayAgreed(l, s, e, k);
    } else if e.LockToIssue? || e.Issue? || e.InsertIssued? {
      IssuedKeyAgrees(l, s, e, k);
    } else {
      RecordedKeyAgrees(l, s, e, k);
    }
  }

  lemma RestartAgrees(l: Listener, s: State, k: Key)
    requires Agrees(l, s)
    ensures KeyAgrees(l, Next(l, s, Restart), k)
  {
    hide Routed, Mirrored;
    assert KeyAgrees(l, s, k);
  }

  /** The phase of a task other than the one stepping still agrees. */
  lemma OtherPhasesStayAgreed(l: Listener, s: State, e: Event, t: Task)
    requires Agrees(l, s) && Enabled(l, s, e) && !e.Restart? && (e.Evict? || e.task != t)
    ensures PhaseAgrees(l, Next(l, s, e), t, PhaseOf(Next(l, s, e), t))
  {
    hide Routed, Mirrored, Asks, KeyOf, Decide, Next;
    var p := PhaseOf(s, t);
    assert PhaseAgrees(l, s, t, p);
    OtherTasksAreUntouched(l, s, e, t);
    if HoldsLock(p) {
      if WorksOn(s, e, p.key) {
        assert KeyAgrees(l, s, p.key) && PhaseAgrees(l, s, e.task, PhaseOf(s, e.task));
      } else {
        OtherKeysAreUntouched(l, s, e, p.key);
      }
    }
  }

  lemma OwnPhaseStaysAgreed(l: Listener, s: State, e: Event)
    requires Agrees(l, s) && Enabled(l, s, e) && IsSmooth(e) && !e.Restart? && !e.Evict?
    ensures PhaseAgrees(l, Next(l, s, e), e.task, PhaseOf(Next(l, s, e), e.task))
  {
    hide Routed, Mirrored, Issued, Recorded, KeyOf, Expected;
    var p := PhaseOf(s, e.task);
    assert PhaseAgrees(l, s, e.task, p);
    match e {
      case AskCertificate(_, sni) => AskedKeysAreRouted(l, sni);
      case ReportSans(_, sni, _) => AskedKeysAreRouted(l, sni);
      case Issue(t, _) => IssuedPhaseAgrees(l, s, t);
      case Record(t, fate) =>
        hide PhaseAgrees;
        RecordedPhaseAgrees(l, s, t);
      case _ =>
    }
  }

  lemma IssuedPhaseAgrees(l: Listener, s: State, t: Task)
    requires Agrees(l, s) && PhaseOf(s, t).Issuing?
    ensures var s' := Issued(s, t, PhaseOf(s, t).key, SMOOTH); PhaseAgrees(l, s', t, PhaseOf(s', t))
  {
    hide Routed, Mirrored, Servable;
    var k := PhaseOf(s, t).key;
    assert PhaseAgrees(l, s, t, PhaseOf(s, t)) && KeyAgrees(l, s, k);
    ExpectedIsServable(l, s.saved, k);
  }

  lemma RecordedPhaseAgrees(l: Listener, s: State, t: Task)
    requires Agrees(l, s) && PhaseOf(s, t).Recording?
    ensures var p := PhaseOf(s, t); var s' := Recorded(l, s, t, p.key, p.observed, SMOOTH);
      PhaseAgrees(l, s', t, PhaseOf(s', t))
  {
    hide Routed, Mirrored, SaveOver;
    assert PhaseAgrees(l, s, t, PhaseOf(s, t));
  }

  lemma StepsStayAgreed(l: Listener, s: State, e: Event)
    requires Agrees(l, s) && Enabled(l, s, e) && IsSmooth(e)
    ensures Agrees(l, Next(l, s, e))
  {
    hide KeyAgrees, PhaseAgrees, Enabled, Next;
    forall k: Key ensures KeyAgrees(l, Next(l, s, e), k) {
      KeysStayAgreed(l, s, e, k);
    }
    forall t: Task ensures PhaseAgrees(l, Next(l, s, e), t, PhaseOf(Next(l, s, e), t)) {
      if e.Restart? {
        RestartedTasksAgree(l, s, t);
      } else if e.Evict? || e.task != t {
        OtherPhasesStayAgreed(l, s, e, t);
      } else {
        OwnPhaseStaysAgreed(l, s, e);
      }
    }
  }

  lemma RestartedTasksAgree(l: Listener, s: State, t: Task)
    ensures PhaseAgrees(l, Next(l, s, Restart), t, PhaseOf(Next(l, s, Restart), t))
  {
  }

  /** What is served is what is expected of the last settled observation. */
  lemma ServedIsExpected(l: Listener, s: State, e: Event)
    requires Agrees(l, s) && Enabled(l, s, e) && Served(l, s, e).Some?
    ensures var (k, sans) := Served(l, s, e).value; sans == Expected(l, s.settled, k).sans
  {
    hide Routed, Mirrored, Asks, KeyOf, Decide;
    var k := Served(l, s, e).value.0;
    assert KeyAgrees(l, s, k);
    if e.InsertIssued? {
      assert PhaseAgrees(l, s, e.task, PhaseOf(s, e.task));
    }
  }

  lemma {:induction false} RunsStayAgreed(l: Listener, states: seq<State>, events: seq<Event>, n: nat)
    requires IsRun(l, states, events) && states[0].files == map[] && n < |states|
    requires forall i :: 0 <= i < |events| ==> IsSmooth(events[i])
    ensures Agrees(l, states[n])
  {
    hide Enabled, Next, IsSmooth;
    if n == 0 {
      EmptyStateAgrees(l, states, events);
    } else {
      hide Agrees;
      RunsStayAgreed(l, states, events, n - 1);
      assert Enabled(l, states[n - 1], events[n - 1]) && IsSmooth(events[n - 1]);
      StepsStayAgreed(l, states[n - 1], events[n - 1]);
    }
  }

  lemma EmptyStateAgrees(l: Listener, states: seq<State>, events: seq<Event>)
    requires IsRun(l, states, events) && states[0].files == map[]
    ensures Agrees(l, states[0])
  {
  }

  // ---------------------------------------------------------------------
  // What one key owes to its own events
  // ---------------------------------------------------------------------

  /** The step is about `k`: a call for it, a step under its lock, its eviction, or
      a restart. */
  predicate Concerns(l: Listener, s: State, e: Event, k: Key) {
    match e
    case AskCertificate(_, sni) => Asks(l, sni) && KeyOf(l, sni) == k
    case ReportSans(_, sni, _) => Asks(l, sni) && KeyOf(l, sni) == k
    case Evict(x) => x == k
    case Restart => true
    case _ => WorksOn(s, e, k)
  }

  /** The run restricted to `k`. */
  ghost function Restricted(l: Listener, states: seq<State>, events: seq<Event>, k: Key, n: nat): seq<Event>
    requires n <= |events| < |states|
  {
    if n == 0 then []
    else
      Restricted(l, states, events, k, n - 1)
      + if Concerns(l, states[n - 1], events[n - 1], k) then [events[n - 1]] else []
  }

  /** What the events of one key leave behind: the observation each task reported
      last, the last one saved, the last one settled, and whether one is cached. */
  datatype Account = Account(
    reported: map<Task, seq<string>>, saved: Option<seq<string>>, settled: Option<seq<string>>, cached: bool)

  /** An observation settles when its call inserts it, or, once saved, at a restart. */
  function Booked(a: Account, e: Event): Account {
    match e
    case ReportSans(t, _, observed) => a.(reported := a.reported[t := observed])
    case Record(t, _) => if t in a.reported then a.(saved := Some(a.reported[t])) else a
    case InsertRecorded(t) => if t in a.reported then a.(settled := Some(a.reported[t]), cached := true) else a
    case InsertIssued(_) => a.(cached := true)
    case Evict(_) => a.(cached := false)
    case Restart => Account(map[], a.saved, a.saved, false)
    case _ => a
  }

  function Replay(events: seq<Event>): Account {
    if events == [] then Account(map[], None, None, false)
    else Booked(Replay(events[..|events| - 1]), events[|events| - 1])
  }

  function At<K, V>(m: map<K, V>, k: K): Option<V> {
    if k in m then Some(m[k]) else None
  }

  /** The names a key is due: the clip of its last settled observation, or itself. */
  function Due(l: Listener, k: Key, settled: Option<seq<string>>): seq<string> {
    match settled
    case Some(observed) => Clip(l, k.scope, NormalizeHost(k.host), observed).kept
    case None => [k.host]
  }

  /** What an event of `k` hands out, by the account of the earlier ones. */
  function DueAt(l: Listener, k: Key, a: Account, e: Event): Option<seq<string>> {
    match e
    case AskCertificate(_, _) => if a.cached then Some(Due(l, k, a.settled)) else None
    case Issue(_, _) => if a.cached then Some(Due(l, k, a.settled)) else None
    case InsertIssued(_) => Some(Due(l, k, a.settled))
    case _ => None
  }

  ghost predicate PhaseBooked(k: Key, a: Account, t: Task, p: Phase) {
    (p.RecordWaiting? || p.Recording? || p.RecordReady?) && p.key == k ==> At(a.reported, t) == Some(p.observed)
  }

  ghost predicate IsAccount(s: State, k: Key, a: Account) {
    && FieldsBooked(s, k, a)
    && forall t: Task :: PhaseBooked(k, a, t, PhaseOf(s, t))
  }

  /** What is saved, settled and cached for one key is what the account says. */
  predicate FieldsBooked(s: State, k: Key, a: Account) {
    At(s.saved, k) == a.saved && At(s.settled, k) == a.settled && (k in s.cache <==> a.cached)
  }

  lemma UnconcernedFieldsStay(l: Listener, s: State, e: Event, k: Key, a: Account)
    requires Enabled(l, s, e) && !Concerns(l, s, e, k) && FieldsBooked(s, k, a)
    ensures FieldsBooked(Next(l, s, e), k, a)
  {
    hide Issued, Recorded, Mirrored, Asks, KeyOf, Decide, SaveOver;
    OtherKeysAreUntouched(l, s, e, k);
    if !e.InsertIssued? && !e.InsertRecorded? && !e.Evict? {
      CachesStay(l, s, e);
    }
  }

  /** Only an insertion, an eviction or a restart changes the cache. */
  lemma CachesStay(l: Listener, s: State, e: Event)
    requires Enabled(l, s, e) && !e.InsertIssued? && !e.InsertRecorded? && !e.Evict? && !e.Restart?
    ensures Next(l, s, e).cache == s.cache
  {
    hide Asks, KeyOf, Issued, Recorded;
    if e.Issue? {
      IssuingChangesLittle(s, e.task, PhaseOf(s, e.task).key, e.fate);
    } else if e.Record? {
      RecordingCachesNothing(l, s, e.task, PhaseOf(s, e.task).key, PhaseOf(s, e.task).observed, e.fate);
    }
  }

  lemma RecordingCachesNothing(
    l: Listener, s: State, t: Task, k: Key, observed: seq<string>, fate: Fate)
    ensures Recorded(l, s, t, k, observed, fate).cache == s.cache
  {
    hide Mirrored, SaveOver;
  }

  lemma UnconcernedPhaseStays(l: Listener, s: State, e: Event, k: Key, a: Account)
    requires Enabled(l, s, e) && !Concerns(l, s, e, k) && !e.Evict? && PhaseBooked(k, a, e.task, PhaseOf(s, e.task))
    ensures PhaseBooked(k, a, e.task, PhaseOf(Next(l, s, e), e.task))
  {
    hide Mirrored, Asks, KeyOf, Decide, SaveOver;
  }

  lemma UnconcernedStepsKeepAccounts(l: Listener, s: State, e: Event, k: Key, a: Account)
    requires Enabled(l, s, e) && !Concerns(l, s, e, k) && IsAccount(s, k, a)
    ensures IsAccount(Next(l, s, e), k, a)
  {
    UnconcernedFieldsStay(l, s, e, k, a);
    hide Next, Enabled, Concerns, PhaseBooked;
    assert !e.Restart? by {
      RestartsConcernAll(l, s, k);
    }
    forall t: Task ensures PhaseBooked(k, a, t, PhaseOf(Next(l, s, e), t)) {
      assert PhaseBooked(k, a, t, PhaseOf(s, t));
      if e.Evict? || e.task != t {
        OtherTasksAreUntouched(l, s, e, t);
      } else {
        UnconcernedPhaseStays(l, s, e, k, a);
      }
    }
  }

  lemma RestartsConcernAll(l: Listener, s: State, k: Key)
    ensures Concerns(l, s, Restart, k)
  {
  }

  lemma OwnPhaseIsBooked(l: Listener, s: State, e: Event, k: Key, a: Account)
    requires Enabled(l, s, e) && Concerns(l, s, e, k) && !e.Restart? && !e.Evict?
    requires PhaseBooked(k, a, e.task, PhaseOf(s, e.task))
    ensures PhaseBooked(k, Booked(a, e), e.task, PhaseOf(Next(l, s, e), e.task))
  {
    hide Asks, KeyOf, Issued, Recorded;
    if e.Issue? {
      IssuingRecordsNothing(s, e.task, PhaseOf(s, e.task).key, e.fate);
    } else if e.Record? {
      RecordingKeepsItsObservation(l, s, e.task, PhaseOf(s, e.task).key, PhaseOf(s, e.task).observed, e.fate);
    }
  }

  lemma IssuingRecordsNothing(s: State, t: Task, k: Key, fate: Fate)
    ensures var p := PhaseOf(Issued(s, t, k, fate), t); p.Idle? || p.IssueReady?
  {
    hide Decide, SaveOver;
  }

  lemma RecordingKeepsItsObservation(
    l: Listener, s: State, t: Task, k: Key, observed: seq<string>, fate: Fate)
    ensures var p := PhaseOf(Recorded(l, s, t, k, observed, fate), t); p.Idle? || p == RecordReady(k, observed)
  {
    hide Mirrored, SaveOver;
  }

  lemma OtherPhasesStayBooked(a: Account, e: Event, k: Key, t: Task, p: Phase)
    requires PhaseBooked(k, a, t, p) && !e.Restart? && (e.Evict? || e.task != t)
    ensures PhaseBooked(k, Booked(a, e), t, p)
  {
  }

  lemma PhasesAreBooked(l: Listener, s: State, e: Event, k: Key, a: Account, t: Task)
    requires Enabled(l, s, e) && Concerns(l, s, e, k) && PhaseBooked(k, a, t, PhaseOf(s, t))
    ensures PhaseBooked(k, Booked(a, e), t, PhaseOf(Next(l, s, e), t))
  {
    if e.Restart? {
      RestartedTasksAgree(l, s, t);
    } else if e.Evict? || e.task != t {
      hide Next, PhaseBooked, Booked;
      OtherTasksAreUntouched(l, s, e, t);
      OtherPhasesStayBooked(a, e, k, t, PhaseOf(s, t));
    } else {
      OwnPhaseIsBooked(l, s, e, k, a);
    }
  }

  /** A record that finds its observation current books it again, which changes
      nothing: under the lock it is also the one saved and settled. */
  lemma RecordsAreBooked(l: Listener, s: State, t: Task, k: Key, a: Account)
    requires Agrees(l, s) && Enabled(l, s, Record(t, SMOOTH)) && PhaseOf(s, t).key == k && IsAccount(s, k, a)
    ensures FieldsBooked(Next(l, s, Record(t, SMOOTH)), k, Booked(a, Record(t, SMOOTH)))
  {
    hide Routed, Mirrored, SaveOver;
    assert KeyAgrees(l, s, k) && PhaseAgrees(l, s, t, PhaseOf(s, t)) && PhaseBooked(k, a, t, PhaseOf(s, t));
    if k in s.settled {
      MirrorsRecordWhatTheyMirror(l, k, s.settled[k]);
    }
  }

  lemma MirrorsRecordWhatTheyMirror(l: Listener, k: Key, observed: seq<string>)
    ensures Mirrored(l, k, observed).observed == Some(observed)
  {
  }

  lemma OtherStepsAreBooked(l: Listener, s: State, e: Event, k: Key, a: Account)
    requires Enabled(l, s, e) && Concerns(l, s, e, k) && IsAccount(s, k, a) && !e.Record?
    ensures FieldsBooked(Next(l, s, e), k, Booked(a, e))
  {
    hide Mirrored, Asks, KeyOf, Issued;
    if e.InsertRecorded? {
      assert PhaseBooked(k, a, e.task, PhaseOf(s, e.task));
    } else if e.Issue? {
      IssuingChangesLittle(s, e.task, PhaseOf(s, e.task).key, e.fate);
    }
  }

  lemma ConcernedStepsAreBooked(l: Listener, s: State, e: Event, k: Key, a: Account)
    requires Agrees(l, s) && Enabled(l, s, e) && IsSmooth(e) && Concerns(l, s, e, k) && IsAccount(s, k, a)
    ensures IsAccount(Next(l, s, e), k, Booked(a, e))
  {
    if e.Record? {
      RecordsAreBooked(l, s, e.task, k, a);
    } else {
      OtherStepsAreBooked(l, s, e, k, a);
    }
    hide Agrees, Next, Enabled, Concerns, Booked, PhaseBooked, FieldsBooked;
    forall t: Task ensures PhaseBooked(k, Booked(a, e), t, PhaseOf(Next(l, s, e), t)) {
      assert PhaseBooked(k, a, t, PhaseOf(s, t));
      PhasesAreBooked(l, s, e, k, a, t);
    }
  }

  /** In every smooth run the restricted run gives the account of the key. */
  lemma {:induction false} RunsKeepAccounts(l: Listener, states: seq<State>, events: seq<Event>, k: Key, n: nat)
    requires IsRun(l, states, events) && states[0].files == map[] && n <= |events|
    requires forall i :: 0 <= i < |events| ==> IsSmooth(events[i])
    ensures IsAccount(states[n], k, Replay(Restricted(l, states, events, k, n)))
  {
    hide Next, Enabled, IsSmooth, Concerns, Booked, Agrees;
    if n > 0 {
      hide IsAccount;
      RunsKeepAccounts(l, states, events, k, n - 1);
      RunsStayAgreed(l, states, events, n - 1);
      var s, e, before := states[n - 1], events[n - 1], Restricted(l, states, events, k, n - 1);
      assert Enabled(l, s, e) && states[n] == Next(l, s, e);
      if Concerns(l, s, e, k) {
        ConcernedStepsAreBooked(l, s, e, k, Replay(before));
        assert (before + [e])[..|before|] == before;
      } else {
        UnconcernedStepsKeepAccounts(l, s, e, k, Replay(before));
        assert before + [] == before;
      }
    }
  }

  /** What a step hands out for `k`. */
  function ServedFor(l: Listener, s: State, e: Event, k: Key): Option<seq<string>>
    requires Enabled(l, s, e)
  {
    match Served(l, s, e)
    case Some((key, sans)) => if key == k then Some(sans) else None
    case None => None
  }

  lemma ServedIsDue(l: Listener, s: State, e: Event, k: Key, a: Account)
    requires Agrees(l, s) && Enabled(l, s, e) && IsAccount(s, k, a)
    ensures ServedFor(l, s, e, k) == if Concerns(l, s, e, k) then DueAt(l, k, a, e) else None
  {
    if Served(l, s, e).Some? && Served(l, s, e).value.0 == k {
      ServedIsExpected(l, s, e);
      ExpectedIsDue(l, s, k, a);
    }
    hide Agrees, Routed, Mirrored, Asks, KeyOf, Decide, Due, PhaseBooked;
  }

  lemma ExpectedIsDue(l: Listener, s: State, k: Key, a: Account)
    requires IsAccount(s, k, a)
    ensures Expected(l, s.settled, k).sans == Due(l, k, a.settled)
  {
  }

  /**
   * The cache refines its specification. With a store that starts empty, and while
   * signatures and saves succeed, every run and every interleaving of calls,
   * evictions and restarts serves for a key exactly the clip of the observation of
   * that key its own events settled last, or its name alone if they settled none,
   * and serves it exactly when its own events say so.
   */
  lemma EveryRunServesTheSpecification(l: Listener, states: seq<State>, events: seq<Event>, k: Key, n: nat)
    requires IsRun(l, states, events) && states[0].files == map[] && n < |events|
    requires forall i :: 0 <= i < |events| ==> IsSmooth(events[i])
    ensures Enabled(l, states[n], events[n])
    ensures ServedFor(l, states[n], events[n], k) ==
      if Concerns(l, states[n], events[n], k)
      then DueAt(l, k, Replay(Restricted(l, states, events, k, n)), events[n]) else None
  {
    hide Enabled, Next, IsSmooth, Agrees, IsAccount, Concerns, DueAt, ServedFor;
    RunsKeepAccounts(l, states, events, k, n);
    RunsStayAgreed(l, states, events, n);
    assert Enabled(l, states[n], events[n]);
    ServedIsDue(l, states[n], events[n], k, Replay(Restricted(l, states, events, k, n)));
  }

  /** So what is served for a key depends on the run restricted to that key alone:
      two runs with the same events for it serve the same names at the next. */
  lemma OtherKeysDoNotMatter(
    l: Listener, states: seq<State>, events: seq<Event>, n: nat,
    states': seq<State>, events': seq<Event>, n': nat, k: Key)
    requires IsRun(l, states, events) && states[0].files == map[] && n < |events|
    requires IsRun(l, states', events') && states'[0].files == map[] && n' < |events'|
    requires forall i :: 0 <= i < |events| ==> IsSmooth(events[i])
    requires forall i :: 0 <= i < |events'| ==> IsSmooth(events'[i])
    requires Restricted(l, states, events, k, n) == Restricted(l, states', events', k, n')
    requires events[n] == events'[n']
    requires Concerns(l, states[n], events[n], k) && Concerns(l, states'[n'], events'[n'], k)
    ensures Enabled(l, states[n], events[n]) && Enabled(l, states'[n'], events'[n'])
    ensures ServedFor(l, states[n], events[n], k) == ServedFor(l, states'[n'], events'[n'], k)
  {
    hide IsRun, IsSmooth, Enabled, Concerns, DueAt, ServedFor, Restricted;
    EveryRunServesTheSpecification(l, states, events, k, n);
    EveryRunServesTheSpecification(l, states', events', k, n');
  }
}
