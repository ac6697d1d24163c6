/**
 * Many tasks looking names up and rebuilding resolvers at once. A rebuild holds its
 * resolver's lock while it awaits lookups through other resolvers, and those may wait
 * for locks in turn: no tasks ever wait for one another in a circle, and all finish.
 */
module RebuildLocks {
  import opened Collections
  import opened LookupRecursion
  import opened Text
  import R = Registry

  /** One pending call. A frame below the top says how its call goes on when the one
      above returns: a lookup with its next attempt, a rebuild with what it awaits. */
  datatype Frame =
    | Asking(via: R.Via, attempt: nat)
    | Asked(via: R.Via, attempt: nat, seen: nat)
    | Waiting(name: string, seen: nat)
    | Locked(name: string, seen: nat)
    | Dialling(name: string)
    | Dialled(name: string)
    | Fetching(name: string)
    | Built(name: string, good: bool)

  /** A task's pending calls, the innermost last. */
  type Stack = seq<Frame>

  datatype State = State(tasks: seq<Stack>, locks: map<string, nat>, generations: map<string, nat>)

  /** A task starts with a lookup or with a timed rebuild; it moves on; or its future
      is dropped with everything it holds. */
  datatype Event =
    | Query(via: R.Via)
    | Rotate(name: string, seen: nat)
    | Move(task: nat, outcome: Outcome, swaps: bool)
    | Drop(task: nat)

  /** A new task; tasks already there do not start one another. */
  predicate IsStart(e: Event) { e.Query? || e.Rotate? }

  predicate IsLookUp(f: Frame) { f.Asking? || f.Asked? }

  predicate IsHolding(f: Frame) { !IsLookUp(f) && !f.Waiting? }

  function Generation(s: State, n: string): nat {
    if n in s.generations then s.generations[n] else 0
  }

  function BudgetOf(w: World, via: R.Via): nat {
    if via.Named? && via.name in w.plans then Budget(w, via.name) else 0
  }

  predicate Unfinished(s: State, t: nat) {
    t < |s.tasks| && s.tasks[t] != []
  }

  function Top(s: State, t: nat): Frame
    requires Unfinished(s, t)
  {
    s.tasks[t][|s.tasks[t]| - 1]
  }

  /** Only a lock held by someone stops a task. */
  predicate CanMove(s: State, t: nat) {
    Unfinished(s, t) && !(Top(s, t).Waiting? && Top(s, t).name in s.locks)
  }

  predicate Enabled(w: World, s: State, e: Event) {
    match e
    case Query(via) => via.Named? ==> via.name in w.plans
    case Rotate(n, _) => n in w.plans
    case Move(t, _, _) => CanMove(s, t)
    case Drop(t) => Unfinished(s, t)
  }

  /** What is left of the calls when a lookup returns to the rebuild that awaited it. */
  function Returned(below: Stack, ok: bool): Stack {
    if below == [] then []
    else
      var rest, f := below[..|below| - 1], below[|below| - 1];
      if f.Dialling? then rest + [if ok then Dialled(f.name) else Built(f.name, false)]
      else if f.Fetching? then rest + [Built(f.name, true)]
      else below
  }

  /** The calls after one move; `generation` is that of the resolver on top. */
  function Moved(w: World, stack: Stack, outcome: Outcome, generation: nat): Stack
    requires stack != []
  {
    var below, f := stack[..|stack| - 1], stack[|stack| - 1];
    match f
    case Asking(via, attempt) => below + [Asked(via, attempt, generation)]
    case Asked(via, attempt, seen) =>
      if outcome == EchRejected && attempt < BudgetOf(w, via)
      then below + [Asking(via, attempt + 1), Waiting(via.name, seen)]
      else Returned(below, outcome == Answer)
    case Waiting(n, seen) => below + [Locked(n, seen)]
    case Locked(n, seen) =>
      if generation != seen then below
      else if n in w.dials && n in w.plans then below + [Dialling(n), Asking(w.plans[n].bootstrap, 0)]
      else below + [Dialled(n)]
    case Dialled(n) =>
      if n in w.fetches && n in w.plans && w.plans[n].ech.Some?
      then below + [Fetching(n), Asking(w.plans[n].ech.value, 0)]
      else below + [Built(n, true)]
    case Built(_, _) => below
    case _ => stack
  }

  function NameOf(f: Frame): string {
    if !IsLookUp(f) then f.name else if f.via.Named? then f.via.name else ""
  }

  function LocksAfter(s: State, t: nat, stack: Stack): map<string, nat>
    requires Unfinished(s, t)
  {
    var f := Top(s, t);
    if f.Waiting? then s.locks[f.name := t]
    else if f.Built? || (f.Locked? && |stack| < |s.tasks[t]|) then s.locks - {f.name}
    else s.locks
  }

  function Next(w: World, s: State, e: Event): State
    requires Enabled(w, s, e)
  {
    match e
    case Query(via) => s.(tasks := s.tasks + [[Asking(via, 0)]])
    case Rotate(n, seen) => s.(tasks := s.tasks + [[Waiting(n, seen)]])
    case Move(t, outcome, swaps) =>
      var f := Top(s, t);
      var stack := Moved(w, s.tasks[t], outcome, Generation(s, NameOf(f)));
      State(s.tasks[t := stack], LocksAfter(s, t, stack),
            if f.Built? && f.good && swaps
            then s.generations[f.name := Generation(s, f.name) + 1] else s.generations)
    case Drop(t) =>
      State(s.tasks[t := []], map n <- s.locks | s.locks[n] != t :: s.locks[n], s.generations)
  }

  const START: State := State([], map[], map[])

  ghost predicate IsRun(w: World, states: seq<State>, events: seq<Event>) {
    && |states| == |events| + 1 && states[0] == START
    && forall i :: 0 <= i < |events| ==>
         Enabled(w, states[i], events[i]) && states[i + 1] == Next(w, states[i], events[i])
  }

  // ---------------------------------------------------------------------
  // Calls nest downwards in the build order
  // ---------------------------------------------------------------------

  ghost predicate Proper(w: World, f: Frame) {
    if IsLookUp(f) then Usable(w, f.via) && f.attempt <= BudgetOf(w, f.via) else f.name in w.plans
  }

  /** `g` is a call that `f` awaits. */
  predicate Awaits(w: World, f: Frame, g: Frame) {
    match f
    case Asking(via, _) => via.Named? && !IsLookUp(g) && g.name == via.name
    case Dialling(n) => n in w.plans && IsLookUp(g) && g.via == w.plans[n].bootstrap
    case Fetching(n) => n in w.plans && IsLookUp(g) && w.plans[n].ech == Some(g.via)
    case _ => false
  }

  /** The innermost call awaits nothing but its own query or lock. */
  predicate Leaf(f: Frame) { !f.Dialling? && !f.Fetching? }

  ghost predicate Chained(w: World, stack: Stack) {
    && (forall f <- stack :: Proper(w, f))
    && forall i :: 0 <= i < |stack| - 1 ==> Awaits(w, stack[i], stack[i + 1])
  }

  ghost predicate Nested(w: World, stack: Stack) {
    Chained(w, stack) && (stack != [] ==> Leaf(stack[|stack| - 1]))
  }

  /** Twice the height in the build order, a lookup above its own rebuild. */
  ghost function Level(w: World, f: Frame): nat
    requires Layered(w) && Proper(w, f)
  {
    if IsLookUp(f) then 2 * Height(w, f.via) + 1 else 2 * (1 + Rank(w.order, f.name))
  }

  lemma AwaitingGoesDown(w: World, f: Frame, g: Frame)
    requires Layered(w) && Proper(w, f) && Proper(w, g) && Awaits(w, f, g)
    ensures Level(w, g) < Level(w, f)
  {
    hide Layered, Rank;
    if !f.Asking? {
      ViasRankLower(w, f.name);
    }
  }

  lemma {:induction false} LevelsGoDown(w: World, stack: Stack, i: nat, j: nat)
    requires Layered(w) && Nested(w, stack) && i < j < |stack|
    ensures Level(w, stack[j]) < Level(w, stack[i])
  {
    hide Layered, Level, Proper, Awaits;
    assert stack[j] in stack && stack[j - 1] in stack && stack[i] in stack;
    AwaitingGoesDown(w, stack[j - 1], stack[j]);
    if i < j - 1 {
      LevelsGoDown(w, stack, i, j - 1);
    }
  }

  // ---------------------------------------------------------------------
  // What every run keeps
  // ---------------------------------------------------------------------

  predicate Holds(stack: Stack, n: string) {
    exists f <- stack :: IsHolding(f) && f.name == n
  }

  /** A lock is taken exactly while its owner has a rebuild of that resolver under way. */
  ghost predicate OwnersHold(s: State) {
    && (forall n <- s.locks :: s.locks[n] < |s.tasks| && Holds(s.tasks[s.locks[n]], n))
    && forall t, n | 0 <= t < |s.tasks| && Holds(s.tasks[t], n) :: n in s.locks && s.locks[n] == t
  }

  ghost predicate Invariant(w: World, s: State) {
    && (forall t :: 0 <= t < |s.tasks| ==> Nested(w, s.tasks[t]))
    && OwnersHold(s)
  }

  lemma Extends(w: World, below: Stack, f: Frame)
    requires Chained(w, below) && Proper(w, f) && (below == [] || Awaits(w, below[|below| - 1], f))
    ensures Chained(w, below + [f])
  {
    hide Proper, Awaits;
    var s := below + [f];
    assert forall g <- s :: g in below || g == f;
    assert forall i :: 0 <= i < |below| ==> s[i] == below[i];
  }

  lemma Shortens(w: World, stack: Stack)
    requires Chained(w, stack) && stack != []
    ensures var below, f := stack[..|stack| - 1], stack[|stack| - 1];
      && Chained(w, below) && Proper(w, f)
      && (below != [] ==> Proper(w, below[|below| - 1]) && Awaits(w, below[|below| - 1], f))
  {
    hide Proper, Awaits;
    var below, f := stack[..|stack| - 1], stack[|stack| - 1];
    assert f in stack && forall g <- below :: g in stack;
    if below != [] {
      assert below[|below| - 1] in below;
    }
  }

  lemma ReturnedStaysNested(w: World, stack: Stack, ok: bool)
    requires Nested(w, stack) && stack != [] && IsLookUp(stack[|stack| - 1])
    ensures Nested(w, Returned(stack[..|stack| - 1], ok))
  {
    hide Chained;
    Shortens(w, stack);
    var below := stack[..|stack| - 1];
    if below != [] {
      Shortens(w, below);
      var rest, f := below[..|below| - 1], below[|below| - 1];
      var g := if f.Dialling? then if ok then Dialled(f.name) else Built(f.name, false) else Built(f.name, true);
      Extends(w, rest, g);
    } else {
      Shortens(w, stack);
    }
  }

  lemma MovedStaysNested(w: World, stack: Stack, outcome: Outcome, generation: nat)
    requires Layered(w) && Nested(w, stack) && stack != []
    ensures Nested(w, Moved(w, stack, outcome, generation))
  {
    hide Layered, Chained;
    Shortens(w, stack);
    var below, f := stack[..|stack| - 1], stack[|stack| - 1];
    match f
    case Asking(via, attempt) => Extends(w, below, Asked(via, attempt, generation));
    case Asked(via, attempt, seen) =>
      if outcome == EchRejected && attempt < BudgetOf(w, via) {
        CallsExtend(w, below, Asking(via, attempt + 1), Waiting(via.name, seen));
      } else {
        ReturnedStaysNested(w, stack, outcome == Answer);
      }
    case Waiting(n, seen) => Extends(w, below, Locked(n, seen));
    case Locked(n, seen) =>
      ViasRankLower(w, n);
      Extends(w, below, Dialled(n));
      CallsExtend(w, below, Dialling(n), Asking(w.plans[n].bootstrap, 0));
    case Dialled(n) =>
      ViasRankLower(w, n);
      Extends(w, below, Built(n, true));
      if w.plans[n].ech.Some? {
        CallsExtend(w, below, Fetching(n), Asking(w.plans[n].ech.value, 0));
      }
    case Built(_, _) =>
  }

  lemma CallsExtend(w: World, below: Stack, f: Frame, g: Frame)
    requires Chained(w, below) && Proper(w, f) && (below == [] || Awaits(w, below[|below| - 1], f))
    requires Proper(w, g) && Awaits(w, f, g) && Leaf(g)
    ensures Nested(w, below + [f, g])
  {
    hide Proper, Awaits, Leaf, Chained;
    Extends(w, below, f);
    Extends(w, below + [f], g);
    assert below + [f] + [g] == below + [f, g];
  }

  predicate HeldBy(f: Frame, n: string) {
    IsHolding(f) && f.name == n
  }

  lemma HoldsLast(below: Stack, f: Frame, n: string)
    ensures Holds(below + [f], n) <==> Holds(below, n) || HeldBy(f, n)
  {
    var s := below + [f];
    assert f in s && (forall g <- below :: g in s) && forall g <- s :: g in below || g == f;
  }

  lemma HoldsLastTwo(below: Stack, f: Frame, g: Frame, n: string)
    ensures Holds(below + [f, g], n) <==> Holds(below, n) || HeldBy(f, n) || HeldBy(g, n)
  {
    hide Holds;
    HoldsLast(below, f, n);
    HoldsLast(below + [f], g, n);
    assert below + [f] + [g] == below + [f, g];
  }

  /** No task holds a lock twice. */
  lemma HoldsOnce(w: World, stack: Stack)
    requires Layered(w) && Nested(w, stack) && stack != []
    ensures var f := stack[|stack| - 1]; IsHolding(f) ==> !Holds(stack[..|stack| - 1], f.name)
  {
    hide Layered, Proper, Awaits, Leaf;
    var f := stack[|stack| - 1];
    if IsHolding(f) && Holds(stack[..|stack| - 1], f.name) {
      var i :| 0 <= i < |stack| - 1 && IsHolding(stack[i]) && stack[i].name == f.name;
      LevelsGoDown(w, stack, i, |stack| - 1);
      assert false;
    }
  }

  predicate Releases(stack: Stack, after: Stack)
    requires stack != []
  {
    var f := stack[|stack| - 1];
    f.Built? || (f.Locked? && |after| < |stack|)
  }

  /** A move changes what a task holds only by taking or releasing one lock. */
  lemma HoldsAfterMove(w: World, stack: Stack, outcome: Outcome, generation: nat, n: string)
    requires Layered(w) && Nested(w, stack) && stack != []
    ensures var f, after := stack[|stack| - 1], Moved(w, stack, outcome, generation);
      Holds(after, n) <==>
        if f.Waiting? then Holds(stack, n) || n == f.name
        else if Releases(stack, after) then Holds(stack, n) && n != f.name
        else Holds(stack, n)
  {
    hide Layered, Holds, Chained;
    var below, f := stack[..|stack| - 1], stack[|stack| - 1];
    assert stack == below + [f];
    HoldsLast(below, f, n);
    HoldsOnce(w, stack);
    match f
    case Asking(via, attempt) => HoldsLast(below, Asked(via, attempt, generation), n);
    case Asked(via, attempt, seen) =>
      if via.Named? {
        HoldsLastTwo(below, Asking(via, attempt + 1), Waiting(via.name, seen), n);
      }
      HoldsAfterReturn(w, below, outcome == Answer, n);
    case Waiting(m, seen) => HoldsLast(below, Locked(m, seen), n);
    case Locked(m, seen) =>
      HoldsLast(below, Dialled(m), n);
      if m in w.plans {
        HoldsLastTwo(below, Dialling(m), Asking(w.plans[m].bootstrap, 0), n);
      }
    case Dialled(m) =>
      HoldsLast(below, Built(m, true), n);
      if m in w.plans && w.plans[m].ech.Some? {
        HoldsLastTwo(below, Fetching(m), Asking(w.plans[m].ech.value, 0), n);
      }
    case _ =>
  }

  lemma HoldsAfterReturn(w: World, below: Stack, ok: bool, n: string)
    ensures Holds(Returned(below, ok), n) <==> Holds(below, n)
  {
    hide Holds;
    if below != [] {
      var rest, f := below[..|below| - 1], below[|below| - 1];
      assert below == rest + [f];
      HoldsLast(rest, f, n);
      if !IsLookUp(f) {
        HoldsLast(rest, Dialled(f.name), n);
        HoldsLast(rest, Built(f.name, false), n);
        HoldsLast(rest, Built(f.name, true), n);
      }
    }
  }

  lemma MoveKeepsOwners(w: World, s: State, e: Event)
    requires Layered(w) && Invariant(w, s) && Enabled(w, s, e) && e.Move?
    ensures OwnersHold(Next(w, s, e))
  {
    hide Layered, Nested, Moved, Holds;
    var t, s' := e.task, Next(w, s, e);
    forall n {:trigger Holds(s'.tasks[t], n)}
      ensures Holds(s'.tasks[t], n) <==>
        if Top(s, t).Waiting? then Holds(s.tasks[t], n) || n == Top(s, t).name
        else if Releases(s.tasks[t], s'.tasks[t]) then Holds(s.tasks[t], n) && n != Top(s, t).name
        else Holds(s.tasks[t], n)
    {
      HoldsAfterMove(w, s.tasks[t], e.outcome, Generation(s, NameOf(Top(s, t))), n);
    }
    if IsHolding(Top(s, t)) {
      TopHolds(s, t);
    }
    assert forall u :: 0 <= u < |s.tasks| && u != t ==> s'.tasks[u] == s.tasks[u];
    forall n <- s'.locks ensures s'.locks[n] < |s'.tasks| && Holds(s'.tasks[s'.locks[n]], n) {
    }
    forall u, n | 0 <= u < |s'.tasks| && Holds(s'.tasks[u], n) ensures n in s'.locks && s'.locks[n] == u {
      if u == t {
        assert Holds(s.tasks[t], n) || n == Top(s, t).name;
      } else {
        assert Holds(s.tasks[u], n);
        assert IsHolding(Top(s, t)) ==> Top(s, t).name in s.locks && s.locks[Top(s, t).name] == t;
      }
    }
  }

  lemma TopHolds(s: State, t: nat)
    requires Unfinished(s, t) && IsHolding(Top(s, t))
    ensures Holds(s.tasks[t], Top(s, t).name)
  {
    assert Top(s, t) in s.tasks[t];
  }

  lemma StepKeepsInvariant(w: World, s: State, e: Event)
    requires Layered(w) && Invariant(w, s) && Enabled(w, s, e)
    ensures Invariant(w, Next(w, s, e))
  {
    hide Layered, Nested, Moved, OwnersHold;
    match e
    case Move(t, outcome, _) =>
      MovedStaysNested(w, s.tasks[t], outcome, Generation(s, NameOf(Top(s, t))));
      MoveKeepsOwners(w, s, e);
    case Drop(t) =>
      NothingHeld(w);
      DropKeepsOwners(w, s, e);
    case Query(via) =>
      StartsNested(w, Asking(via, 0));
      StartKeepsOwners(w, s, e);
    case Rotate(n, seen) =>
      StartsNested(w, Waiting(n, seen));
      StartKeepsOwners(w, s, e);
  }

  lemma DropKeepsOwners(w: World, s: State, e: Event)
    requires OwnersHold(s) && Enabled(w, s, e) && e.Drop?
    ensures OwnersHold(Next(w, s, e))
  {
    hide Holds;
    NothingHeld(w);
    assert forall t :: 0 <= t < |s.tasks| && t != e.task ==> Next(w, s, e).tasks[t] == s.tasks[t];
  }

  lemma StartKeepsOwners(w: World, s: State, e: Event)
    requires OwnersHold(s) && Enabled(w, s, e) && IsStart(e)
    ensures OwnersHold(Next(w, s, e))
  {
    hide Holds;
    StartsNested(w, if e.Query? then Asking(e.via, 0) else Waiting(e.name, e.seen));
    assert forall t :: 0 <= t < |s.tasks| ==> Next(w, s, e).tasks[t] == s.tasks[t];
  }

  lemma NothingHeld(w: World)
    ensures Nested(w, []) && forall n :: !Holds([], n)
  {
  }

  lemma StartsNested(w: World, f: Frame)
    requires Proper(w, f) && Leaf(f) && !IsHolding(f)
    ensures Nested(w, [f]) && forall n :: !Holds([f], n)
  {
  }

  /** In every run each task's calls nest downwards in the build order, and a lock is
      taken exactly while its owner has a rebuild of that resolver under way. */
  lemma {:induction false} RunsKeepInvariant(w: World, states: seq<State>, events: seq<Event>, n: nat)
    requires Layered(w) && IsRun(w, states, events) && n < |states|
    ensures Invariant(w, states[n])
  {
    hide Layered, Next, Enabled, Nested;
    if n > 0 {
      RunsKeepInvariant(w, states, events, n - 1);
      StepKeepsInvariant(w, states[n - 1], events[n - 1]);
    }
  }

  // ---------------------------------------------------------------------
  // No circle of waiting tasks
  // ---------------------------------------------------------------------

  /** Task `t` waits for a lock that task `u` holds. */
  predicate WaitsFor(s: State, t: nat, u: nat) {
    Unfinished(s, t) && Top(s, t).Waiting? && Top(s, t).name in s.locks && s.locks[Top(s, t).name] == u
  }

  ghost predicate IsChain(s: State, tasks: seq<nat>) {
    tasks != [] && forall i :: 0 <= i < |tasks| - 1 ==> WaitsFor(s, tasks[i], tasks[i + 1])
  }

  /** The owner of a lock that is waited for waits, if at all, for one further down. */
  lemma OwnersWaitBelow(w: World, s: State, t: nat, u: nat)
    requires Layered(w) && Invariant(w, s) && WaitsFor(s, t, u)
    ensures Unfinished(s, u) && Top(s, t).name in w.order
    ensures Top(s, u).Waiting? ==>
      Top(s, u).name in w.order && Rank(w.order, Top(s, u).name) < Rank(w.order, Top(s, t).name)
  {
    hide Layered, Awaits, Rank;
    var n := Top(s, t).name;
    assert Top(s, t) in s.tasks[t];
    InOrder(w, n);
    var stack := s.tasks[u];
    assert Holds(stack, n);
    var i :| 0 <= i < |stack| && IsHolding(stack[i]) && stack[i].name == n;
    if Top(s, u).Waiting? {
      var last := stack[|stack| - 1];
      assert last == Top(s, u) && last in stack;
      InOrder(w, last.name);
      assert !HeldBy(last, n);
      LevelsGoDown(w, stack, i, |stack| - 1);
      assert stack[i] in stack && Level(w, stack[i]) == 2 * (1 + Rank(w.order, n));
      assert Level(w, last) == 2 * (1 + Rank(w.order, last.name));
    }
  }

  lemma InOrder(w: World, n: string)
    requires Layered(w) && n in w.plans
    ensures n in w.order
  {
  }

  /**
   * In every run, each unfinished task waits, through a chain of lock owners, for one
   * that can move: no set of tasks is ever stuck.
   */
  lemma {:induction false} SomeoneCanMove(w: World, states: seq<State>, events: seq<Event>, n: nat, t: nat)
    returns (chain: seq<nat>)
    requires Layered(w) && IsRun(w, states, events) && n < |states| && Unfinished(states[n], t)
    ensures IsChain(states[n], chain) && chain[0] == t && CanMove(states[n], chain[|chain| - 1])
  {
    hide Layered, Next, Enabled;
    RunsKeepInvariant(w, states, events, n);
    chain := ChainToMover(w, states[n], t);
  }

  lemma {:induction false} ChainToMover(w: World, s: State, t: nat) returns (chain: seq<nat>)
    requires Layered(w) && Invariant(w, s) && Unfinished(s, t)
    ensures IsChain(s, chain) && chain[0] == t && CanMove(s, chain[|chain| - 1])
    decreases if Top(s, t).Waiting? && Top(s, t).name in w.order then 1 + Rank(w.order, Top(s, t).name) else 0
  {
    hide Layered, Invariant, Rank;
    if CanMove(s, t) {
      return [t];
    }
    var u := s.locks[Top(s, t).name];
    OwnersWaitBelow(w, s, t, u);
    var rest := ChainToMover(w, s, u);
    chain := [t] + rest;
    assert forall i :: 0 < i < |chain| ==> chain[i] == rest[i - 1];
  }

  /** In every run no task waits, directly or not, for itself. */
  lemma NoCircles(w: World, states: seq<State>, events: seq<Event>, n: nat, chain: seq<nat>)
    requires Layered(w) && IsRun(w, states, events) && n < |states| && IsChain(states[n], chain)
    ensures NoDuplicates(chain)
  {
    hide Layered, Next, Enabled, WaitsFor, Invariant;
    RunsKeepInvariant(w, states, events, n);
    forall i, j | 0 <= i < j < |chain| ensures chain[i] != chain[j] {
      ChainsGoDown(w, states[n], chain, i, j);
    }
  }

  /** The rank of the lock a task waits for; one that waits for none comes last. */
  ghost function WaitRank(w: World, s: State, t: nat): int {
    if Unfinished(s, t) && Top(s, t).Waiting? && Top(s, t).name in w.order
    then Rank(w.order, Top(s, t).name) else -1
  }

  lemma {:induction false} ChainsGoDown(w: World, s: State, chain: seq<nat>, i: nat, j: nat)
    requires Layered(w) && Invariant(w, s) && IsChain(s, chain) && i < j < |chain|
    ensures WaitRank(w, s, chain[j]) < WaitRank(w, s, chain[i])
    decreases j
  {
    hide Layered, Invariant, Rank;
    assert WaitsFor(s, chain[j - 1], chain[j - 1 + 1]);
    OwnersWaitBelow(w, s, chain[j - 1], chain[j]);
    if i < j - 1 {
      ChainsGoDown(w, s, chain, i, j - 1);
    }
  }

  // ---------------------------------------------------------------------
  // Every task finishes
  // ---------------------------------------------------------------------

  /** The most moves a lookup can still make, rebuilds and their lookups included. */
  ghost function LookUpCost(w: World, via: R.Via, attempt: nat): (c: nat)
    requires Layered(w) && Usable(w, via) && attempt <= BudgetOf(w, via)
    ensures c >= 2
    decreases Height(w, via), 1
  {
    var left := BudgetOf(w, via) - attempt;
    Attempts(left, if via.Named? then RebuildCost(w, via.name) else 0)
  }

  /** Two moves for each attempt, and a rebuild between one attempt and the next. */
  function Attempts(left: nat, rebuild: nat): (c: nat)
    ensures c >= 2
  {
    if left == 0 then 2 else 2 + rebuild + Attempts(left - 1, rebuild)
  }

  ghost function RebuildCost(w: World, n: string): (c: nat)
    requires Layered(w) && n in w.plans
    ensures c >= 4
    decreases 1 + Rank(w.order, n), 0
  {
    ViasRankLower(w, n);
    var p := w.plans[n];
    2 + (2 + if n in w.fetches && p.ech.Some? then LookUpCost(w, p.ech.value, 0) else 0)
    + (if n in w.dials then LookUpCost(w, p.bootstrap, 0) else 0)
  }

  /** The part of a rebuild's moves that comes after its endpoint is resolved. */
  ghost function DialledCost(w: World, n: string): nat
    requires Layered(w) && n in w.plans
  {
    ViasRankLower(w, n);
    var p := w.plans[n];
    2 + if n in w.fetches && p.ech.Some? then LookUpCost(w, p.ech.value, 0) else 0
  }

  ghost function Cost(w: World, f: Frame): (c: nat)
    requires Layered(w) && Proper(w, f)
    ensures c > 0
  {
    match f
    case Asking(via, attempt) => LookUpCost(w, via, attempt)
    case Asked(via, attempt, _) => LookUpCost(w, via, attempt) - 1
    case Waiting(n, _) => RebuildCost(w, n)
    case Locked(n, _) => RebuildCost(w, n) - 1
    case Dialling(n) => DialledCost(w, n)
    case Dialled(n) => DialledCost(w, n)
    case Fetching(_) => 1
    case Built(_, _) => 1
  }

  ghost function StackWork(w: World, stack: Stack): nat
    requires Layered(w) && Chained(w, stack)
  {
    if stack == [] then 0
    else
      Shortens(w, stack);
      StackWork(w, stack[..|stack| - 1]) + Cost(w, stack[|stack| - 1])
  }

  ghost predicate AllChained(w: World, tasks: seq<Stack>) {
    forall t :: 0 <= t < |tasks| ==> Chained(w, tasks[t])
  }

  /** The most moves all tasks together can still make. */
  ghost function Work(w: World, tasks: seq<Stack>): nat
    requires Layered(w) && AllChained(w, tasks)
  {
    if tasks == [] then 0 else Work(w, tasks[..|tasks| - 1]) + StackWork(w, tasks[|tasks| - 1])
  }

  lemma WorkOfOneMore(w: World, below: Stack, f: Frame)
    requires Layered(w) && Chained(w, below) && Proper(w, f) && (below == [] || Awaits(w, below[|below| - 1], f))
    ensures Chained(w, below + [f])
    ensures StackWork(w, below + [f]) == StackWork(w, below) + Cost(w, f)
  {
    hide Layered, Proper, Cost, Awaits, Chained;
    Extends(w, below, f);
    assert (below + [f])[..|below|] == below;
  }

  lemma WorkOfTwoMore(w: World, below: Stack, f: Frame, g: Frame)
    requires Layered(w) && Chained(w, below) && Proper(w, f) && Proper(w, g) && Awaits(w, f, g)
    requires below == [] || Awaits(w, below[|below| - 1], f)
    ensures Chained(w, below + [f, g])
    ensures StackWork(w, below + [f, g]) == StackWork(w, below) + Cost(w, f) + Cost(w, g)
  {
    hide Layered, Proper, Cost, Awaits, Chained, StackWork;
    WorkOfOneMore(w, below, f);
    WorkOfOneMore(w, below + [f], g);
    assert below + [f] + [g] == below + [f, g];
  }

  lemma ReturningCosts(w: World, stack: Stack, ok: bool)
    requires Layered(w) && Nested(w, stack) && stack != [] && IsLookUp(stack[|stack| - 1])
    ensures var after := Returned(stack[..|stack| - 1], ok);
      Chained(w, after) && StackWork(w, after) < StackWork(w, stack)
  {
    hide Layered, StackWork, Cost, Returned, Awaits, Proper;
    var below, top := stack[..|stack| - 1], stack[|stack| - 1];
    Shortens(w, stack);
    assert stack == below + [top];
    WorkOfOneMore(w, below, top);
    hide Chained;
    ReturnedWork(w, below, ok);
  }

  lemma ReturnedWork(w: World, below: Stack, ok: bool)
    requires Layered(w) && Chained(w, below)
    ensures Chained(w, Returned(below, ok)) && StackWork(w, Returned(below, ok)) <= StackWork(w, below)
  {
    hide Layered, Chained, RebuildCost, LookUpCost, Height, StackWork;
    if below != [] {
      Shortens(w, below);
      var rest, f := below[..|below| - 1], below[|below| - 1];
      assert below == rest + [f];
      WorkOfOneMore(w, rest, f);
      if f.Dialling? || f.Fetching? {
        var g := if f.Fetching? then Built(f.name, true) else if ok then Dialled(f.name) else Built(f.name, false);
        WorkOfOneMore(w, rest, g);
      }
    }
  }

  /** Whatever answers a query and whatever another task did, a move uses up some work. */
  lemma MovingCosts(w: World, stack: Stack, outcome: Outcome, generation: nat)
    requires Layered(w) && Nested(w, stack) && stack != []
    ensures var after := Moved(w, stack, outcome, generation);
      Chained(w, after) && StackWork(w, after) < StackWork(w, stack)
  {
    hide Layered, Chained, StackWork, LookUpCost, RebuildCost, Awaits, Cost, Proper, Nested, OnTop;
    TopOf(w, stack);
    var below, f := stack[..|stack| - 1], stack[|stack| - 1];
    assert stack == below + [f];
    match f
    case Asking(_, _) => AskingCosts(w, below, f, generation);
    case Asked(via, attempt, seen) =>
      if outcome == EchRejected && attempt < BudgetOf(w, via) {
        RejectionCosts(w, below, f);
      } else {
        ReturningCosts(w, stack, outcome == Answer);
      }
    case Waiting(n, seen) => LockingCosts(w, below, f);
    case Locked(n, seen) =>
      if generation == seen {
        DiallingCosts(w, below, f);
      }
    case Dialled(n) => FetchingCosts(w, below, f);
    case Built(_, _) =>
    case _ =>
  }

  /** `f` can stand on top of `below`. */
  ghost predicate OnTop(w: World, below: Stack, f: Frame) {
    Chained(w, below) && Proper(w, f) && (below == [] || Awaits(w, below[|below| - 1], f))
  }

  lemma TopOf(w: World, stack: Stack)
    requires Layered(w) && Nested(w, stack) && stack != []
    ensures var below, f := stack[..|stack| - 1], stack[|stack| - 1];
      && OnTop(w, below, f) && Chained(w, below) && Leaf(f) && (!IsLookUp(f) ==> f.name in w.plans)
      && StackWork(w, below + [f]) == StackWork(w, below) + Cost(w, f)
  {
    hide Layered, Chained, StackWork, Cost;
    Shortens(w, stack);
    WorkOfOneMore(w, stack[..|stack| - 1], stack[|stack| - 1]);
  }

  lemma AskingCosts(w: World, below: Stack, f: Frame, generation: nat)
    requires Layered(w) && OnTop(w, below, f) && f.Asking?
    ensures var after := below + [Asked(f.via, f.attempt, generation)];
      Chained(w, after) && StackWork(w, after) < StackWork(w, below) + Cost(w, f)
  {
    hide Layered, Chained, StackWork, LookUpCost, RebuildCost;
    WorkOfOneMore(w, below, Asked(f.via, f.attempt, generation));
  }

  lemma RejectionCosts(w: World, below: Stack, f: Frame)
    requires Layered(w) && OnTop(w, below, f) && f.Asked? && f.attempt < BudgetOf(w, f.via)
    ensures var after := below + [Asking(f.via, f.attempt + 1), Waiting(f.via.name, f.seen)];
      Chained(w, after) && StackWork(w, after) < StackWork(w, below) + Cost(w, f)
  {
    hide Layered, Chained, StackWork, LookUpCost, RebuildCost;
    RetryCosts(w, f.via, f.attempt);
    WorkOfTwoMore(w, below, Asking(f.via, f.attempt + 1), Waiting(f.via.name, f.seen));
  }

  lemma LockingCosts(w: World, below: Stack, f: Frame)
    requires Layered(w) && OnTop(w, below, f) && f.Waiting?
    ensures var after := below + [Locked(f.name, f.seen)];
      Chained(w, after) && StackWork(w, after) < StackWork(w, below) + Cost(w, f)
  {
    hide Layered, Chained, StackWork, LookUpCost, RebuildCost;
    WorkOfOneMore(w, below, Locked(f.name, f.seen));
  }

  lemma DiallingCosts(w: World, below: Stack, f: Frame)
    requires Layered(w) && OnTop(w, below, f) && f.Locked?
    ensures var n := f.name;
      var after :=
        if n in w.dials then below + [Dialling(n), Asking(w.plans[n].bootstrap, 0)] else below + [Dialled(n)];
      Chained(w, after) && StackWork(w, after) < StackWork(w, below) + Cost(w, f)
  {
    hide Layered, Chained, StackWork, LookUpCost, RebuildCost, DialledCost;
    var n := f.name;
    RebuildParts(w, n);
    if n in w.dials {
      WorkOfTwoMore(w, below, Dialling(n), Asking(w.plans[n].bootstrap, 0));
    } else {
      WorkOfOneMore(w, below, Dialled(n));
    }
  }

  lemma FetchingCosts(w: World, below: Stack, f: Frame)
    requires Layered(w) && OnTop(w, below, f) && f.Dialled?
    ensures var n := f.name;
      var after := if n in w.fetches && w.plans[n].ech.Some?
        then below + [Fetching(n), Asking(w.plans[n].ech.value, 0)] else below + [Built(n, true)];
      Chained(w, after) && StackWork(w, after) < StackWork(w, below) + Cost(w, f)
  {
    hide Layered, Chained, StackWork, LookUpCost, RebuildCost, DialledCost;
    var n := f.name;
    RebuildParts(w, n);
    if n in w.fetches && w.plans[n].ech.Some? {
      WorkOfTwoMore(w, below, Fetching(n), Asking(w.plans[n].ech.value, 0));
    } else {
      WorkOfOneMore(w, below, Built(n, true));
    }
  }

  lemma RetryCosts(w: World, via: R.Via, attempt: nat)
    requires Layered(w) && Usable(w, via) && attempt < BudgetOf(w, via)
    ensures LookUpCost(w, via, attempt) == 2 + RebuildCost(w, via.name) + LookUpCost(w, via, attempt + 1)
  {
    hide Layered, Height, RebuildCost;
  }

  lemma RebuildParts(w: World, n: string)
    requires Layered(w) && n in w.plans
    ensures var p := w.plans[n];
      && Usable(w, p.bootstrap) && (p.ech.Some? ==> Usable(w, p.ech.value))
      && RebuildCost(w, n) == 2 + DialledCost(w, n) + (if n in w.dials then LookUpCost(w, p.bootstrap, 0) else 0)
      && DialledCost(w, n) == 2 + if n in w.fetches && p.ech.Some? then LookUpCost(w, p.ech.value, 0) else 0
  {
    hide Layered, LookUpCost;
    ViasRankLower(w, n);
  }

  lemma {:induction false} WorkOfOneChanged(w: World, tasks: seq<Stack>, t: nat, stack: Stack)
    requires Layered(w) && AllChained(w, tasks) && t < |tasks| && Chained(w, stack)
    ensures AllChained(w, tasks[t := stack])
    ensures Work(w, tasks[t := stack]) == Work(w, tasks) - StackWork(w, tasks[t]) + StackWork(w, stack)
  {
    hide Layered, Chained, StackWork;
    var last, tasks' := |tasks| - 1, tasks[t := stack];
    if t < last {
      WorkOfOneChanged(w, tasks[..last], t, stack);
      assert tasks'[..last] == tasks[..last][t := stack];
    } else {
      assert tasks'[..last] == tasks[..last];
    }
  }

  lemma InvariantIsChained(w: World, s: State)
    requires Invariant(w, s)
    ensures AllChained(w, s.tasks)
  {
  }

  lemma StepCosts(w: World, s: State, e: Event)
    requires Layered(w) && Invariant(w, s) && Enabled(w, s, e) && !IsStart(e)
    ensures AllChained(w, s.tasks) && AllChained(w, Next(w, s, e).tasks)
    ensures Work(w, Next(w, s, e).tasks) < Work(w, s.tasks)
  {
    hide Layered, Chained, OwnersHold, Moved;
    InvariantIsChained(w, s);
    match e
    case Move(t, outcome, _) =>
      var stack := Moved(w, s.tasks[t], outcome, Generation(s, NameOf(Top(s, t))));
      MovingCosts(w, s.tasks[t], outcome, Generation(s, NameOf(Top(s, t))));
      WorkOfOneChanged(w, s.tasks, t, stack);
    case Drop(t) =>
      NothingHeld(w);
      WorkOfOneChanged(w, s.tasks, t, []);
  }

  /** Without new tasks, no run goes on for more moves than the work there is. */
  lemma {:induction false} RunsEnd(w: World, states: seq<State>, events: seq<Event>, i: nat, j: nat)
    requires Layered(w) && IsRun(w, states, events) && i <= j < |states|
    requires forall k :: i <= k < j ==> !IsStart(events[k])
    ensures AllChained(w, states[i].tasks) && AllChained(w, states[j].tasks)
    ensures j - i + Work(w, states[j].tasks) <= Work(w, states[i].tasks)
    decreases j
  {
    hide Layered, Next, Enabled, Work, Invariant, AllChained;
    RunsKeepInvariant(w, states, events, i);
    InvariantIsChained(w, states[i]);
    if i < j {
      RunsEnd(w, states, events, i, j - 1);
      RunsKeepInvariant(w, states, events, j - 1);
      StepCosts(w, states[j - 1], events[j - 1]);
    }
  }

  /**
   * However the steps interleave, a run that starts no more tasks comes to an end, and
   * the only end is that every task has finished and every lock is free.
   */
  lemma EveryTaskFinishes(w: World, states: seq<State>, events: seq<Event>, i: nat)
    requires Layered(w) && IsRun(w, states, events) && i <= |events|
    requires forall k :: i <= k < |events| ==> !IsStart(events[k])
    ensures AllChained(w, states[i].tasks) && |events| - i <= Work(w, states[i].tasks)
    ensures var last := states[|events|];
      (forall t :: !CanMove(last, t)) ==> (forall t :: !Unfinished(last, t)) && last.locks == map[]
  {
    hide Layered, Next, Enabled, Work, CanMove;
    RunsEnd(w, states, events, i, |events|);
    RunsKeepInvariant(w, states, events, |events|);
    var last := states[|events|];
    if forall t :: !CanMove(last, t) {
      forall t ensures !Unfinished(last, t) {
        if Unfinished(last, t) {
          var chain := SomeoneCanMove(w, states, events, |events|, t);
          assert false;
        }
      }
      NobodyHolds(w, last);
    }
  }

  lemma OwnersAreUnfinished(w: World, s: State, n: string)
    requires Invariant(w, s) && n in s.locks
    ensures Unfinished(s, s.locks[n])
  {
  }

  lemma NobodyHolds(w: World, s: State)
    requires Invariant(w, s) && forall t :: !Unfinished(s, t)
    ensures s.locks == map[]
  {
    hide Invariant, Unfinished;
    forall n ensures n !in s.locks {
      if n in s.locks {
        OwnersAreUnfinished(w, s, n);
        assert false;
      }
    }
  }

  // ---------------------------------------------------------------------
  // Why the plans must not be circular
  // ---------------------------------------------------------------------

  /** Two resolvers, each reached through the other, that load-time validation refuses. */
  ghost predicate Circular(w: World, a: string, b: string) {
    && a != b && a in w.plans && b in w.plans && a in w.dials && b in w.dials
    && w.plans[a].bootstrap == R.Named(b) && w.plans[b].bootstrap == R.Named(a)
    && Budget(w, a) > 0 && Budget(w, b) > 0
  }

  /** Task 0 rebuilds `a`, task 1 `b`, and every query is rejected. */
  function Colliding(a: string, b: string): seq<Event> {
    [Rotate(a, 0), Rotate(b, 0)] + seq(8, i => Move(i % 2, EchRejected, true))
  }

  /** How far the two have come after so many rounds. */
  function Halfway(a: string, b: string, moves: nat): Stack {
    if moves == 0 then [Waiting(a, 0)]
    else if moves == 1 then [Locked(a, 0)]
    else if moves == 2 then [Dialling(a), Asking(R.Named(b), 0)]
    else if moves == 3 then [Dialling(a), Asked(R.Named(b), 0, 0)]
    else [Dialling(a), Asking(R.Named(b), 1), Waiting(b, 0)]
  }

  /** The state after `i` events. */
  function Collision(a: string, b: string, i: nat): State {
    if i == 0 then START
    else if i == 1 then State([Halfway(a, b, 0)], map[], map[])
    else
      State([Halfway(a, b, (i - 1) / 2), Halfway(b, a, (i - 2) / 2)],
            if i == 2 then map[] else if i == 3 then map[a := 0] else map[a := 0, b := 1], map[])
  }

  lemma HalfwayMoves(w: World, a: string, b: string, moves: nat)
    requires Circular(w, a, b) && moves < 4
    ensures Moved(w, Halfway(a, b, moves), EchRejected, 0) == Halfway(a, b, moves + 1)
  {
    var stack := Halfway(a, b, moves);
    assert stack[..|stack| - 1] == if moves < 2 then [] else [Dialling(a)];
  }

  lemma CollisionSteps(w: World, a: string, b: string, i: nat)
    requires Circular(w, a, b) && i < 10
    ensures Enabled(w, Collision(a, b, i), Colliding(a, b)[i])
    ensures Next(w, Collision(a, b, i), Colliding(a, b)[i]) == Collision(a, b, i + 1)
  {
    hide Moved;
    if i >= 2 {
      var moves := (i - 2) / 2;
      HalfwayMoves(w, a, b, moves);
      HalfwayMoves(w, b, a, moves);
    }
  }

  /** With circular plans two rebuilds can each wait for the other for ever. */
  lemma CirclesGetStuck(w: World, a: string, b: string) returns (states: seq<State>, events: seq<Event>)
    requires Circular(w, a, b)
    ensures IsRun(w, states, events)
    ensures var last := states[|events|];
      WaitsFor(last, 0, 1) && WaitsFor(last, 1, 0) && forall t :: !CanMove(last, t)
  {
    events := Colliding(a, b);
    states := seq(11, i requires 0 <= i => Collision(a, b, i));
    forall i | 0 <= i < 10 ensures Enabled(w, states[i], events[i]) && states[i + 1] == Next(w, states[i], events[i]) {
      CollisionSteps(w, a, b, i);
    }
  }
}
