/**
 * `DnsResolver`: any number of tasks look names up through one live resolver,
 * and rebuild it when its endpoint rejects ECH or a timer fires. Every shared
 * access is one step, and steps of different tasks interleave freely.
 */
module RebuildProtocol {
  import opened Text

  type Task = nat

  /** A published ECHConfigList, or its absence. */
  type EchBytes = Option<seq<nat>>

  datatype Cause = Rejected | Rotation

  /** Where one task stands. `seen` is the generation it read before its query or
      on its tick; `version` counts the resolvers that were live before the one
      it holds; `floor` is the version its next query must not fall below. */
  datatype Phase =
    | Idle
    | Retrying(attempt: nat, floor: nat)
    | SawGeneration(attempt: nat, floor: nat, seen: nat)
    | Querying(attempt: nat, floor: nat, seen: nat, version: nat)
    | Waiting(attempt: nat, seen: nat, cause: Cause)
    | Checking(attempt: nat, seen: nat, cause: Cause)
    | Building(attempt: nat, seen: nat, cause: Cause)
    | Swapping(attempt: nat, seen: nat, cause: Cause, built: EchBytes)
    | WroteResolver(attempt: nat, seen: nat, cause: Cause, built: EchBytes)
    | WroteBytes(attempt: nat, seen: nat, cause: Cause)

  /** The shared fields, with the history the properties speak of: `built` lists
      the bytes each live resolver was built from, oldest first, and `swaps` the
      generation each completed swap had seen. */
  datatype State = State(
    generation: nat,
    echBytes: EchBytes,
    holder: Option<Task>,
    phases: map<Task, Phase>,
    built: seq<EchBytes>,
    swaps: seq<nat>)

  /** The number of the resolver that is live now. */
  function Version(s: State): int { |s.built| - 1 }

  function PhaseOf(s: State, t: Task): Phase {
    if t in s.phases then s.phases[t] else Idle
  }

  function Init(bytes: EchBytes): State {
    State(0, bytes, None, map[], [bytes], [])
  }

  datatype Event =
    | Start(task: Task)
    | ReadGeneration(task: Task)
    | TakeSnapshot(task: Task)
    | Answered(task: Task)
    | RejectedQuery(task: Task)
    | Tick(task: Task)
    | Lock(task: Task)
    | Check(task: Task)
    | BuildFailed(task: Task)
    | Built(task: Task, bytes: EchBytes)
    | WriteResolver(task: Task)
    | WriteBytes(task: Task)
    | Bump(task: Task)

  /** Which phase each step starts in; the lock is free when it is taken. */
  predicate Enabled(s: State, e: Event) {
    var p := PhaseOf(s, e.task);
    match e
    case Start(_) => p.Idle?
    case ReadGeneration(_) => p.Retrying?
    case TakeSnapshot(_) => p.SawGeneration?
    case Answered(_) => p.Querying?
    case RejectedQuery(_) => p.Querying?
    case Tick(_) => p.Idle?
    case Lock(_) => p.Waiting? && s.holder.None?
    case Check(_) => p.Checking?
    case BuildFailed(_) => p.Building?
    case Built(_, _) => p.Building?
    case WriteResolver(_) => p.Swapping?
    case WriteBytes(_) => p.WroteResolver?
    case Bump(_) => p.WroteBytes?
  }

  /** A rebuild is over: a rejected query is tried again, a timer tick is done. */
  function Resumed(attempt: nat, cause: Cause, floor: nat): Phase {
    if cause.Rejected? then Retrying(attempt + 1, floor) else Idle
  }

  function Released(s: State, t: Task, p: Phase): State {
    s.(holder := None, phases := s.phases[t := p])
  }

  function Moved(s: State, t: Task, p: Phase): State {
    s.(phases := s.phases[t := p])
  }

  function Next(s: State, e: Event, maxRetries: nat): State
    requires Enabled(s, e) && s.built != []
  {
    var t, p := e.task, PhaseOf(s, e.task);
    match e
    case Start(_) => Moved(s, t, Retrying(0, 0))
    case ReadGeneration(_) => Moved(s, t, SawGeneration(p.attempt, p.floor, s.generation))
    case TakeSnapshot(_) => Moved(s, t, Querying(p.attempt, p.floor, p.seen, Version(s)))
    case Answered(_) => Moved(s, t, Idle)
    case RejectedQuery(_) =>
      Moved(s, t, if p.attempt < maxRetries then Waiting(p.attempt, p.seen, Rejected) else Idle)
    case Tick(_) => Moved(s, t, Waiting(0, s.generation, Rotation))
    case Lock(_) => Moved(s, t, Checking(p.attempt, p.seen, p.cause)).(holder := Some(t))
    case Check(_) =>
      if s.generation != p.seen then Released(s, t, Resumed(p.attempt, p.cause, p.seen + 1))
      else Moved(s, t, Building(p.attempt, p.seen, p.cause))
    case BuildFailed(_) => Released(s, t, Resumed(p.attempt, p.cause, p.seen))
    case Built(_, bytes) =>
      if p.cause.Rotation? && bytes == s.echBytes then Released(s, t, Resumed(p.attempt, p.cause, p.seen))
      else Moved(s, t, Swapping(p.attempt, p.seen, p.cause, bytes))
    case WriteResolver(_) =>
      Moved(s, t, WroteResolver(p.attempt, p.seen, p.cause, p.built)).(built := s.built + [p.built])
    case WriteBytes(_) => Moved(s, t, WroteBytes(p.attempt, p.seen, p.cause)).(echBytes := p.built)
    case Bump(_) =>
      Released(s, t, Resumed(p.attempt, p.cause, p.seen + 1))
        .(generation := s.generation + 1, swaps := s.swaps + [p.seen])
  }

  ghost predicate IsRun(states: seq<State>, events: seq<Event>, maxRetries: nat) {
    && |states| == |events| + 1
    && (exists bytes :: states[0] == Init(bytes))
    && forall i :: 0 <= i < |events| ==>
         states[i].built != [] && Enabled(states[i], events[i]) && states[i + 1] == Next(states[i], events[i], maxRetries)
  }

  // ---------------------------------------------------------------------
  // The invariant
  // ---------------------------------------------------------------------

  predicate HoldsLock(p: Phase) {
    p.Checking? || p.Building? || p.Swapping? || p.WroteResolver? || p.WroteBytes?
  }

  /** The resolver is written, the generation not bumped yet. */
  predicate MidSwap(p: Phase) {
    p.WroteResolver? || p.WroteBytes?
  }

  function HolderPhase(s: State): Phase {
    if s.holder.Some? then PhaseOf(s, s.holder.value) else Idle
  }

  /** What each task may rely on about the shared fields. */
  ghost predicate Sound(s: State, p: Phase) {
    match p
    case Idle => true
    case Retrying(_, floor) => floor <= Version(s)
    case SawGeneration(_, floor, seen) => floor <= Version(s) && seen <= s.generation
    case Querying(_, floor, seen, version) => floor <= version <= Version(s) && seen <= version && seen <= s.generation
    case Waiting(_, seen, _) => seen <= s.generation
    case Checking(_, seen, _) => seen <= s.generation
    case Building(_, seen, _) => seen == s.generation
    case Swapping(_, seen, _, _) => seen == s.generation
    case WroteResolver(_, seen, _, built) => seen == s.generation && s.built != [] && built == s.built[|s.built| - 1]
    case WroteBytes(_, seen, _) => seen == s.generation
  }

  ghost predicate Invariant(s: State) {
    && s.built != []
    && (forall t: Task :: HoldsLock(PhaseOf(s, t)) <==> s.holder == Some(t))
    && (forall t: Task :: Sound(s, PhaseOf(s, t)))
    && Version(s) == s.generation + (if MidSwap(HolderPhase(s)) then 1 else 0)
    && (!HolderPhase(s).WroteResolver? ==> s.echBytes == s.built[|s.built| - 1])
    && |s.swaps| == s.generation
    && (forall i :: 0 <= i < |s.swaps| ==> s.swaps[i] == i)
  }

  /** A step does not disturb what any other task relies on. */
  lemma OthersStaySound(s: State, e: Event, maxRetries: nat, u: Task)
    requires Invariant(s) && Enabled(s, e) && u != e.task
    ensures var s' := Next(s, e, maxRetries);
      PhaseOf(s', u) == PhaseOf(s, u) && Sound(s', PhaseOf(s', u))
  {
    var s' := Next(s, e, maxRetries);
    assert PhaseOf(s', u) == PhaseOf(s, u);
    assert Sound(s, PhaseOf(s, u));
    assert HoldsLock(PhaseOf(s, u)) <==> s.holder == Some(u);
    assert HoldsLock(PhaseOf(s, e.task)) <==> s.holder == Some(e.task);
  }

  lemma OwnStaysSound(s: State, e: Event, maxRetries: nat)
    requires Invariant(s) && Enabled(s, e)
    ensures var s' := Next(s, e, maxRetries);
      Sound(s', PhaseOf(s', e.task)) && (HoldsLock(PhaseOf(s', e.task)) <==> s'.holder == Some(e.task))
  {
    assert Sound(s, PhaseOf(s, e.task));
    assert HoldsLock(PhaseOf(s, e.task)) <==> s.holder == Some(e.task);
  }

  lemma SharedFieldsAgree(s: State, e: Event, maxRetries: nat)
    requires Invariant(s) && Enabled(s, e)
    ensures var s' := Next(s, e, maxRetries);
      && s'.built != []
      && Version(s') == s'.generation + (if MidSwap(HolderPhase(s')) then 1 else 0)
      && (!HolderPhase(s').WroteResolver? ==> s'.echBytes == s'.built[|s'.built| - 1])
      && |s'.swaps| == s'.generation && forall i :: 0 <= i < |s'.swaps| ==> s'.swaps[i] == i
  {
  }

  lemma StepKeepsInvariant(s: State, e: Event, maxRetries: nat)
    requires Invariant(s) && Enabled(s, e)
    ensures Invariant(Next(s, e, maxRetries))
  {
    var s' := Next(s, e, maxRetries);
    SharedFieldsAgree(s, e, maxRetries);
    OwnStaysSound(s, e, maxRetries);
    forall u: Task
      ensures Sound(s', PhaseOf(s', u)) && (HoldsLock(PhaseOf(s', u)) <==> s'.holder == Some(u))
    {
      if u != e.task {
        OthersStaySound(s, e, maxRetries, u);
        assert HoldsLock(PhaseOf(s, u)) <==> s.holder == Some(u);
        assert HoldsLock(PhaseOf(s, e.task)) <==> s.holder == Some(e.task);
      }
    }
  }

  lemma {:induction false} RunsKeepInvariant(states: seq<State>, events: seq<Event>, maxRetries: nat, n: nat)
    requires IsRun(states, events, maxRetries) && n < |states|
    ensures Invariant(states[n])
  {
    if n > 0 {
      RunsKeepInvariant(states, events, maxRetries, n - 1);
      StepKeepsInvariant(states[n - 1], events[n - 1], maxRetries);
    }
  }

  // ---------------------------------------------------------------------
  // What every run keeps
  // ---------------------------------------------------------------------

  /** The resolver a query runs on is at least as new as the generation read
      before it, and never older than a rebuild the task already waited for. */
  lemma SnapshotsAreNeverStale(states: seq<State>, events: seq<Event>, maxRetries: nat, n: nat, t: Task)
    requires IsRun(states, events, maxRetries) && n < |states| && PhaseOf(states[n], t).Querying?
    ensures var p := PhaseOf(states[n], t); p.seen <= p.version <= Version(states[n]) && p.floor <= p.version
  {
    RunsKeepInvariant(states, events, maxRetries, n);
    assert Sound(states[n], PhaseOf(states[n], t));
  }

  /** However many tasks hit one rotation, each generation is left by one swap,
      and that swap was decided by a task which had seen exactly it. */
  lemma OneSwapPerGeneration(states: seq<State>, events: seq<Event>, maxRetries: nat, n: nat)
    requires IsRun(states, events, maxRetries) && n < |states|
    ensures var s := states[n]; |s.swaps| == s.generation && forall i :: 0 <= i < |s.swaps| ==> s.swaps[i] == i
  {
    RunsKeepInvariant(states, events, maxRetries, n);
  }

  lemma {:induction false} GenerationsOnlyGrow(states: seq<State>, events: seq<Event>, maxRetries: nat, m: nat, n: nat)
    requires IsRun(states, events, maxRetries) && m <= n < |states|
    ensures states[m].generation <= states[n].generation && states[m].built <= states[n].built
    decreases n - m
  {
    if m < n {
      GenerationsOnlyGrow(states, events, maxRetries, m, n - 1);
      var s, s' := states[n - 1], states[n];
      assert s' == Next(s, events[n - 1], maxRetries);
      assert s.built <= s'.built;
    }
  }

  /** The task's query on the snapshot of step `q` was rejected, and step `n` is its
      check, which finds the generation moved and skips the rebuild. */
  ghost predicate AtCheck(states: seq<State>, events: seq<Event>, maxRetries: nat, t: Task, q: nat, n: nat) {
    && IsRun(states, events, maxRetries) && q < n < |events|
    && events[q] == TakeSnapshot(t) && events[n] == Check(t)
    && (forall i :: q < i < n && events[i].task == t ==> events[i].RejectedQuery? || events[i].Lock?)
    && states[n].generation != PhaseOf(states[n], t).seen
  }

  /** Step `k` takes the snapshot of the next attempt. */
  ghost predicate Skips(states: seq<State>, events: seq<Event>, maxRetries: nat, t: Task, q: nat, n: nat, k: nat) {
    && AtCheck(states, events, maxRetries, t, q, n) && n < k < |events| && events[k] == TakeSnapshot(t)
    && forall i :: n < i < k && events[i].task == t ==> events[i].ReadGeneration?
  }

  /** From its snapshot to its check a task keeps the generation it read. */
  lemma {:induction false} SeenIsCarried(
    states: seq<State>, events: seq<Event>, maxRetries: nat, t: Task, q: nat, n: nat)
    requires IsRun(states, events, maxRetries) && q < n < |states| && events[q] == TakeSnapshot(t)
    requires forall i :: q < i < n && events[i].task == t ==> events[i].RejectedQuery? || events[i].Lock?
    ensures PhaseOf(states[q + 1], t).Querying?
    ensures var p := PhaseOf(states[n], t);
      (p.Querying? || p.Waiting? || p.Checking?) ==>
        p.seen == PhaseOf(states[q + 1], t).seen && (p.Querying? || p.cause.Rejected?)
    ensures var p := PhaseOf(states[n], t); p.Querying? || p.Waiting? || p.Checking? || p.Idle?
    decreases n
  {
    hide Next, Enabled;
    assert Enabled(states[q], events[q]) && states[q + 1] == Next(states[q], events[q], maxRetries);
    SnapshotsStartQueries(states[q], maxRetries, t);
    if n > q + 1 {
      SeenIsCarried(states, events, maxRetries, t, q, n - 1);
      assert Enabled(states[n - 1], events[n - 1]) && states[n] == Next(states[n - 1], events[n - 1], maxRetries);
      StepCarriesSeen(states[n - 1], events[n - 1], maxRetries, t, PhaseOf(states[q + 1], t).seen);
    }
  }

  lemma SnapshotsStartQueries(s: State, maxRetries: nat, t: Task)
    requires s.built != [] && Enabled(s, TakeSnapshot(t))
    ensures PhaseOf(Next(s, TakeSnapshot(t), maxRetries), t).Querying?
  {
  }

  /** A rejection and the lock that follows it keep the generation a query had read. */
  lemma StepCarriesSeen(s: State, e: Event, maxRetries: nat, t: Task, seen: nat)
    requires s.built != [] && Enabled(s, e) && (e.task == t ==> e.RejectedQuery? || e.Lock?)
    requires var p := PhaseOf(s, t);
      && (p.Querying? || p.Waiting? || p.Checking? || p.Idle?)
      && (!p.Idle? ==> p.seen == seen && (p.Querying? || p.cause.Rejected?))
    ensures var p := PhaseOf(Next(s, e, maxRetries), t);
      && (p.Querying? || p.Waiting? || p.Checking? || p.Idle?)
      && (!p.Idle? ==> p.seen == seen && (p.Querying? || p.cause.Rejected?))
  {
  }

  /** Between two steps a resolver was written. */
  ghost predicate Replaced(events: seq<Event>, q: nat, k: nat)
    requires k <= |events|
  {
    exists i :: q <= i < k && events[i].WriteResolver?
  }

  lemma {:induction false} VersionsGrowByWrites(
    states: seq<State>, events: seq<Event>, maxRetries: nat, q: nat, k: nat)
    requires IsRun(states, events, maxRetries) && q <= k < |states|
    ensures Version(states[q]) <= Version(states[k])
    ensures Version(states[q]) < Version(states[k]) <==> Replaced(events, q, k)
    decreases k - q
  {
    if q < k {
      VersionsGrowByWrites(states, events, maxRetries, q, k - 1);
      assert states[k] == Next(states[k - 1], events[k - 1], maxRetries);
      if events[k - 1].WriteResolver? {
        assert Replaced(events, q, k);
      } else if i :| q <= i < k && events[i].WriteResolver? {
        assert Replaced(events, q, k - 1);
      }
    }
  }

  /** The version of the resolver a task queries. */
  function QueriedVersion(s: State, t: Task): nat {
    if PhaseOf(s, t).Querying? then PhaseOf(s, t).version else 0
  }

  /** At a check that skips, the generation is the version that is live, and is
      neither older than the resolver that rejected the task nor the one it read. */
  lemma GenerationAtCheck(states: seq<State>, events: seq<Event>, maxRetries: nat, t: Task, q: nat, n: nat)
    requires AtCheck(states, events, maxRetries, t, q, n)
    ensures var failed, g := PhaseOf(states[q + 1], t), states[n].generation;
      && failed.Querying? && Version(states[n]) == g && failed.seen < g && failed.version <= g
    ensures PhaseOf(states[n], t).Checking? && PhaseOf(states[n], t).cause.Rejected?
  {
    SeenIsCarried(states, events, maxRetries, t, q, n);
    RunsKeepInvariant(states, events, maxRetries, n);
    assert Enabled(states[n], events[n]);
    assert states[q + 1] == Next(states[q], events[q], maxRetries);
    VersionsGrowByWrites(states, events, maxRetries, q, n);
    hide IsRun;
    assert HoldsLock(PhaseOf(states[n], t)) <==> states[n].holder == Some(t);
    assert Sound(states[n], PhaseOf(states[n], t));
  }

  /**
   * A task that finds the generation moved skips its rebuild, and its next query runs
   * on a resolver at least as new as that generation, so newer than the generation it
   * had read. It is newer than the resolver that rejected it exactly when that one is
   * older than the generation found, or another is written after the check.
   */
  lemma SkippingRetriesOnANewerResolver(
    states: seq<State>, events: seq<Event>, maxRetries: nat, t: Task, q: nat, n: nat, k: nat)
    requires Skips(states, events, maxRetries, t, q, n, k)
    ensures var failed, retried, g := PhaseOf(states[q + 1], t), PhaseOf(states[k + 1], t), states[n].generation;
      && failed.Querying? && retried.Querying?
      && failed.seen < g && failed.version <= g <= retried.version
      && (retried.version > failed.version <==> failed.version < g || Replaced(events, n, k))
  {
    GenerationAtCheck(states, events, maxRetries, t, q, n);
    assert Enabled(states[k], events[k]) && states[k + 1] == Next(states[k], events[k], maxRetries);
    VersionsGrowByWrites(states, events, maxRetries, n, k);
  }

  /** Whatever the tasks do after the check, the retry runs on a newer resolver. */
  ghost predicate CertainlyNewer(
    states: seq<State>, events: seq<Event>, maxRetries: nat, t: Task, q: nat, n: nat)
    requires q < n < |events| && |states| == |events| + 1
  {
    forall states', events', k | Skips(states', events', maxRetries, t, q, n, k)
      && |states'| == |events'| + 1 && states'[..n + 1] == states[..n + 1] && events'[..n + 1] == events[..n + 1] ::
      QueriedVersion(states'[k + 1], t) > QueriedVersion(states[q + 1], t)
  }

  /** The task goes straight on: it skips, reads the generation, takes its snapshot. */
  lemma DirectRetry(states: seq<State>, events: seq<Event>, maxRetries: nat, t: Task, q: nat, n: nat)
    returns (states': seq<State>, events': seq<Event>)
    requires AtCheck(states, events, maxRetries, t, q, n)
    ensures Skips(states', events', maxRetries, t, q, n, n + 2)
    ensures |states'| == |events'| + 1
    ensures states'[..n + 1] == states[..n + 1] && events'[..n + 1] == events[..n + 1]
    ensures QueriedVersion(states'[n + 3], t) == states[n].generation
  {
    hide Next, Enabled, QueriedVersion, Version;
    GenerationAtCheck(states, events, maxRetries, t, q, n);
    var s1, s2, s3 := DirectSteps(states[n], maxRetries, t);
    states', events' := states[..n + 1] + [s1, s2, s3], events[..n + 1] + [ReadGeneration(t), TakeSnapshot(t)];
    Extends(states, events, maxRetries, n, states', events');
    hide IsRun;
  }

  lemma DirectSteps(s: State, maxRetries: nat, t: Task) returns (s1: State, s2: State, s3: State)
    requires s.built != [] && PhaseOf(s, t).Checking? && PhaseOf(s, t).cause.Rejected?
    requires s.generation != PhaseOf(s, t).seen
    ensures Enabled(s, Check(t)) && s1 == Next(s, Check(t), maxRetries) && s1.built != []
    ensures Enabled(s1, ReadGeneration(t)) && s2 == Next(s1, ReadGeneration(t), maxRetries) && s2.built != []
    ensures Enabled(s2, TakeSnapshot(t)) && s3 == Next(s2, TakeSnapshot(t), maxRetries)
    ensures QueriedVersion(s3, t) == Version(s)
  {
    s1 := Next(s, Check(t), maxRetries);
    s2 := Next(s1, ReadGeneration(t), maxRetries);
    s3 := Next(s2, TakeSnapshot(t), maxRetries);
  }

  lemma Extends(
    states: seq<State>, events: seq<Event>, maxRetries: nat, n: nat, states': seq<State>, events': seq<Event>)
    requires IsRun(states, events, maxRetries) && n < |events|
    requires |states'| == |events'| + 1 && n < |events'|
    requires states'[..n + 1] == states[..n + 1] && events'[..n] == events[..n]
    requires forall i :: n <= i < |events'| ==>
      states'[i].built != [] && Enabled(states'[i], events'[i]) && states'[i + 1] == Next(states'[i], events'[i], maxRetries)
    ensures IsRun(states', events', maxRetries)
  {
    assert states'[0] == states'[..n + 1][0];
    forall i | 0 <= i <= n ensures states'[i] == states[i] {
      assert states'[i] == states'[..n + 1][i];
    }
    forall i | 0 <= i < n ensures events'[i] == events[i] {
      assert events'[i] == events'[..n][i];
    }
  }

  /**
   * Exactly when a task that skips its rebuild can count on a newer resolver, by what it
   * can see at the check: the retry runs on one newer than the resolver that rejected
   * it, whatever happens next, if and only if the generation found there is beyond that
   * resolver's version.
   */
  lemma NewerExactlyWhenTheGenerationPassed(
    states: seq<State>, events: seq<Event>, maxRetries: nat, t: Task, q: nat, n: nat)
    requires AtCheck(states, events, maxRetries, t, q, n) && |states| == |events| + 1
    ensures CertainlyNewer(states, events, maxRetries, t, q, n)
      <==> QueriedVersion(states[q + 1], t) < states[n].generation
  {
    GenerationAtCheck(states, events, maxRetries, t, q, n);
    hide AtCheck, Next;
    if QueriedVersion(states[q + 1], t) < states[n].generation {
      forall states', events', k | Skips(states', events', maxRetries, t, q, n, k)
        && |states'| == |events'| + 1 && states'[..n + 1] == states[..n + 1] && events'[..n + 1] == events[..n + 1]
        ensures QueriedVersion(states'[k + 1], t) > QueriedVersion(states[q + 1], t)
      {
        SkippingRetriesOnANewerResolver(states', events', maxRetries, t, q, n, k);
        assert states'[..n + 1][n] == states[..n + 1][n] && states'[..n + 1][q + 1] == states[..n + 1][q + 1];
      }
    } else {
      var states', events' := DirectRetry(states, events, maxRetries, t, q, n);
      hide Skips;
      assert QueriedVersion(states'[n + 3], t) <= QueriedVersion(states[q + 1], t);
    }
  }

  function One(p: Phase): map<Task, Phase> { map[0 := p] }

  function Both(p: Phase, q: Phase): map<Task, Phase> { map[0 := p, 1 := q] }

  lemma BothUpdated(p: Phase, q: Phase, r: Phase)
    ensures map[][0 := r] == One(r) && One(p)[0 := r] == One(r) && One(p)[1 := r] == Both(p, r)
    ensures Both(p, q)[0 := r] == Both(r, q) && Both(p, q)[1 := r] == Both(p, r)
  {
  }

  /** Task 1 reads the generation before task 0 writes a resolver, and takes its
      snapshot after it: both its queries run on that resolver. */
  function SameAgain(b: EchBytes, i: nat): Event {
    if i == 0 then Tick(0)
    else if i == 1 then Lock(0)
    else if i == 2 then Check(0)
    else if i == 3 then Built(0, b)
    else if i == 4 then Start(1)
    else if i == 5 then ReadGeneration(1)
    else if i == 6 then WriteResolver(0)
    else if i == 7 then TakeSnapshot(1)
    else if i == 8 then WriteBytes(0)
    else if i == 9 then Bump(0)
    else if i == 10 then RejectedQuery(1)
    else if i == 11 then Lock(1)
    else if i == 12 then Check(1)
    else if i == 13 then ReadGeneration(1)
    else TakeSnapshot(1)
  }

  function SameAgainState(b: EchBytes, i: nat): State {
    if i == 0 then State(0, None, None, map[], [None], [])
    else if i == 1 then State(0, None, None, One(Waiting(0, 0, Rotation)), [None], [])
    else if i == 2 then State(0, None, Some(0), One(Checking(0, 0, Rotation)), [None], [])
    else if i == 3 then State(0, None, Some(0), One(Building(0, 0, Rotation)), [None], [])
    else if i == 4 then State(0, None, Some(0), One(Swapping(0, 0, Rotation, b)), [None], [])
    else if i == 5 then State(0, None, Some(0), Both(Swapping(0, 0, Rotation, b), Retrying(0, 0)), [None], [])
    else if i == 6 then State(0, None, Some(0), Both(Swapping(0, 0, Rotation, b), SawGeneration(0, 0, 0)), [None], [])
    else if i == 7 then State(0, None, Some(0), Both(WroteResolver(0, 0, Rotation, b), SawGeneration(0, 0, 0)), [None, b], [])
    else if i == 8 then State(0, None, Some(0), Both(WroteResolver(0, 0, Rotation, b), Querying(0, 0, 0, 1)), [None, b], [])
    else if i == 9 then State(0, b, Some(0), Both(WroteBytes(0, 0, Rotation), Querying(0, 0, 0, 1)), [None, b], [])
    else if i == 10 then State(1, b, None, Both(Idle, Querying(0, 0, 0, 1)), [None, b], [0])
    else if i == 11 then State(1, b, None, Both(Idle, Waiting(0, 0, Rejected)), [None, b], [0])
    else if i == 12 then State(1, b, Some(1), Both(Idle, Checking(0, 0, Rejected)), [None, b], [0])
    else if i == 13 then State(1, b, None, Both(Idle, Retrying(1, 1)), [None, b], [0])
    else if i == 14 then State(1, b, None, Both(Idle, SawGeneration(1, 1, 1)), [None, b], [0])
    else State(1, b, None, Both(Idle, Querying(1, 1, 1, 1)), [None, b], [0])
  }

  predicate StepsTo(s: State, e: Event, s': State) {
    s.built != [] && Enabled(s, e) && s' == Next(s, e, 1)
  }

  lemma SameAgainWrites(b: EchBytes, i: nat)
    requires b != None && i < 8
    ensures StepsTo(SameAgainState(b, i), SameAgain(b, i), SameAgainState(b, i + 1))
  {
    var p, q := PhaseOf(SameAgainState(b, i), 0), PhaseOf(SameAgainState(b, i), 1);
    BothUpdated(p, q, PhaseOf(SameAgainState(b, i + 1), SameAgain(b, i).task));
    hide One, Both;
  }

  lemma SameAgainRetries(b: EchBytes, i: nat)
    requires b != None && 8 <= i < 15
    ensures StepsTo(SameAgainState(b, i), SameAgain(b, i), SameAgainState(b, i + 1))
  {
    var p, q := PhaseOf(SameAgainState(b, i), 0), PhaseOf(SameAgainState(b, i), 1);
    BothUpdated(p, q, PhaseOf(SameAgainState(b, i + 1), SameAgain(b, i).task));
    hide One, Both;
  }

  /** So a task that skips its rebuild can retry on the resolver that rejected it. */
  lemma SkippingCanRetryOnTheSameResolver(bytes: seq<nat>) returns (states: seq<State>, events: seq<Event>)
    ensures Skips(states, events, 1, 1, 7, 12, 14)
    ensures PhaseOf(states[8], 1) == Querying(0, 0, 0, 1) && PhaseOf(states[15], 1) == Querying(1, 1, 1, 1)
  {
    var b := Some(bytes);
    states, events := seq(16, i requires 0 <= i => SameAgainState(b, i)), seq(15, i requires 0 <= i => SameAgain(b, i));
    hide Next, Enabled, SameAgain, SameAgainState, StepsTo, IsRun;
    SameAgainShape(b);
    forall i | 0 <= i < 15 ensures StepsTo(states[i], events[i], states[i + 1]) {
      if i < 8 {
        SameAgainWrites(b, i);
      } else {
        SameAgainRetries(b, i);
      }
    }
    StepsMakeARun(states, events);
  }

  lemma StepsMakeARun(states: seq<State>, events: seq<Event>)
    requires |states| == |events| + 1 && states[0] == Init(None)
    requires forall i :: 0 <= i < |events| ==> StepsTo(states[i], events[i], states[i + 1])
    ensures IsRun(states, events, 1)
  {
    hide Next, Enabled;
    assert exists bytes :: states[0] == Init(bytes);
    forall i | 0 <= i < |events|
      ensures states[i].built != [] && Enabled(states[i], events[i]) && states[i + 1] == Next(states[i], events[i], 1)
    {
      assert StepsTo(states[i], events[i], states[i + 1]);
    }
  }

  lemma SameAgainShape(b: EchBytes)
    ensures SameAgainState(b, 0) == Init(None)
    ensures SameAgain(b, 7) == TakeSnapshot(1) && SameAgain(b, 12) == Check(1) && SameAgain(b, 14) == TakeSnapshot(1)
    ensures forall i: nat :: 7 < i < 12 && SameAgain(b, i).task == 1 ==> SameAgain(b, i).RejectedQuery? || SameAgain(b, i).Lock?
    ensures SameAgain(b, 13) == ReadGeneration(1)
    ensures SameAgainState(b, 12).generation == 1 && PhaseOf(SameAgainState(b, 12), 1) == Checking(0, 0, Rejected)
    ensures PhaseOf(SameAgainState(b, 8), 1) == Querying(0, 0, 0, 1)
    ensures PhaseOf(SameAgainState(b, 15), 1) == Querying(1, 1, 1, 1)
  {
  }

  lemma {:induction false} FloorIsCarried(
    states: seq<State>, events: seq<Event>, maxRetries: nat, n: nat, k: nat, t: Task, floor: nat)
    requires IsRun(states, events, maxRetries) && n < k < |states|
    requires var p := PhaseOf(states[n + 1], t); p.Retrying? && p.floor == floor
    requires forall i :: n < i < k && events[i].task == t ==> events[i].ReadGeneration?
    ensures var p := PhaseOf(states[k], t); (p.Retrying? || p.SawGeneration?) && p.floor == floor
    decreases k
  {
    if k > n + 1 {
      FloorIsCarried(states, events, maxRetries, n, k - 1, t, floor);
      assert states[k] == Next(states[k - 1], events[k - 1], maxRetries);
    }
  }

  /** A rotation about to swap was built from bytes the live resolver was not. */
  ghost predicate RotatesToOthers(s: State, p: Phase)
    requires s.built != []
  {
    p.Swapping? && p.cause.Rotation? ==> p.built != s.built[|s.built| - 1]
  }

  lemma StepsRotateToOthers(s: State, e: Event, maxRetries: nat, u: Task)
    requires Invariant(s) && Enabled(s, e) && RotatesToOthers(s, PhaseOf(s, u))
    ensures var s' := Next(s, e, maxRetries); s'.built != [] && RotatesToOthers(s', PhaseOf(s', u))
  {
    assert HoldsLock(PhaseOf(s, u)) <==> s.holder == Some(u);
    assert HoldsLock(PhaseOf(s, e.task)) <==> s.holder == Some(e.task);
  }

  lemma {:induction false} RunsRotateToOthers(
    states: seq<State>, events: seq<Event>, maxRetries: nat, n: nat, u: Task)
    requires IsRun(states, events, maxRetries) && n < |states|
    ensures states[n].built != [] && RotatesToOthers(states[n], PhaseOf(states[n], u))
  {
    hide Invariant, Next, RotatesToOthers;
    if n > 0 {
      RunsRotateToOthers(states, events, maxRetries, n - 1, u);
      RunsKeepInvariant(states, events, maxRetries, n - 1);
      StepsRotateToOthers(states[n - 1], events[n - 1], maxRetries, u);
    } else {
      NothingRotatesAtFirst(states[0], u);
    }
  }

  lemma NothingRotatesAtFirst(s: State, u: Task)
    requires exists bytes :: s == Init(bytes)
    ensures s.built != [] && RotatesToOthers(s, PhaseOf(s, u))
  {
  }

  /**
   * A rotation replaces the live resolver exactly when the published bytes are not
   * the ones that resolver was built from: in every run a build that finds them
   * unchanged ends the rotation, and every resolver a rotation writes differs in
   * its bytes from the one it replaces.
   */
  lemma RotationsReplaceOnlyWhatChanged(states: seq<State>, events: seq<Event>, maxRetries: nat, n: nat)
    requires IsRun(states, events, maxRetries) && n < |events|
    requires var p := PhaseOf(states[n], events[n].task);
      (events[n].Built? || events[n].WriteResolver?) ==> p.cause.Rotation?
    ensures states[n].built != [] && states[n + 1].built != []
    ensures var live := states[n].built[|states[n].built| - 1];
      && (events[n].Built? && events[n].bytes == live ==>
            PhaseOf(states[n + 1], events[n].task).Idle? && states[n + 1].holder.None?)
      && (events[n].Built? && events[n].bytes != live ==>
            PhaseOf(states[n + 1], events[n].task).Swapping?)
      && (events[n].WriteResolver? ==> states[n + 1].built[|states[n + 1].built| - 1] != live)
  {
    RunsKeepInvariant(states, events, maxRetries, n);
    var s, e := states[n], events[n];
    RunsRotateToOthers(states, events, maxRetries, n, e.task);
    assert Enabled(s, e) && states[n + 1] == Next(s, e, maxRetries);
    hide IsRun;
    assert HoldsLock(PhaseOf(s, e.task)) <==> s.holder == Some(e.task);
  }

  /** While no swap is under way, the stored bytes are the ones the live resolver
      was built from, so comparing against them compares against what is in use. */
  lemma StoredBytesDescribeTheLiveResolver(states: seq<State>, events: seq<Event>, maxRetries: nat, n: nat)
    requires IsRun(states, events, maxRetries) && n < |states|
    requires !HolderPhase(states[n]).WroteResolver?
    ensures states[n].built != [] && states[n].echBytes == states[n].built[|states[n].built| - 1]
  {
    RunsKeepInvariant(states, events, maxRetries, n);
  }

  /** A rejected task gives up after its budget: it never queries an attempt past it. */
  lemma {:induction false} AttemptsStayWithinTheBudget(
    states: seq<State>, events: seq<Event>, maxRetries: nat, n: nat, t: Task)
    requires IsRun(states, events, maxRetries) && n < |states|
    ensures var p := PhaseOf(states[n], t);
      && (!p.Idle? ==> p.attempt <= maxRetries)
      && ((p.Waiting? || HoldsLock(p)) && p.cause.Rejected? ==> p.attempt < maxRetries)
  {
    if n > 0 {
      AttemptsStayWithinTheBudget(states, events, maxRetries, n - 1, t);
      assert states[n] == Next(states[n - 1], events[n - 1], maxRetries);
    }
  }
}
