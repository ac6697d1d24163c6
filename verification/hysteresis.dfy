/**
 * `reorder_with_hysteresis`: the preference order is rebuilt from the previous
 * one, and an endpoint overtakes the one ahead of it only by a margin.
 */
module Hysteresis {
  import opened Collections
  import opened Net

  const HYSTERESIS_FRACTION: real := 0.2
  const HYSTERESIS_FLOOR: real := 0.005

  function Margin(incumbent: real): real {
    var share := incumbent * HYSTERESIS_FRACTION;
    if share > HYSTERESIS_FLOOR then share else HYSTERESIS_FLOOR
  }

  /** The challenger's score is below the incumbent's by more than the margin. */
  predicate Beats(challenger: real, incumbent: real) {
    challenger + Margin(incumbent) < incumbent
  }

  /** Seconds per address, for exactly the measured endpoints that are not degraded. */
  type Scores = map<IpAddr, real>

  predicate Overtakes(scores: Scores, b: IpAddr, a: IpAddr) {
    a in scores && b in scores && Beats(scores[b], scores[a])
  }

  // ---------------------------------------------------------------------
  // The insertion pass
  // ---------------------------------------------------------------------

  function Swap(s: seq<IpAddr>, j: nat): seq<IpAddr>
    requires 0 < j < |s|
  {
    s[j - 1 := s[j]][j := s[j - 1]]
  }

  /** The entry at `j` moves forward while it overtakes its predecessor. */
  function Sift(scores: Scores, s: seq<IpAddr>, j: nat): (r: seq<IpAddr>)
    requires j < |s|
    ensures |r| == |s|
    decreases j
  {
    if j > 0 && Overtakes(scores, s[j], s[j - 1]) then Sift(scores, Swap(s, j), j - 1) else s
  }

  function Pass(scores: Scores, s: seq<IpAddr>, i: nat): (r: seq<IpAddr>)
    ensures |r| == |s|
    decreases |s| - i
  {
    if i < |s| then Pass(scores, Sift(scores, s, i), i + 1) else s
  }

  /** No entry of `s[..n]` overtakes its predecessor. */
  ghost predicate Settled(scores: Scores, s: seq<IpAddr>, n: int) {
    forall k :: 0 < k < n <= |s| ==> !Overtakes(scores, s[k], s[k - 1])
  }

  /** Every pair of `s[..n]` that `start` had the other way round was overtaken. */
  ghost predicate InversionsEarned(scores: Scores, start: seq<IpAddr>, s: seq<IpAddr>, n: int) {
    forall p, q :: 0 <= p < q < n <= |s| && Precedes(start, s[q], s[p]) ==> Overtakes(scores, s[p], s[q])
  }

  /** What holds while the entry that started at `i` has moved down to `j`. */
  ghost predicate Sifting(scores: Scores, start: seq<IpAddr>, s: seq<IpAddr>, i: nat, j: nat) {
    && j <= i < |s| == |start|
    && multiset(s) == multiset(start)
    && s[i + 1..] == start[i + 1..]
    && (forall k :: 0 < k <= i && k != j ==> !Overtakes(scores, s[k], s[k - 1]))
    && (0 < j < i ==> !Overtakes(scores, s[j + 1], s[j - 1]))
    && InversionsEarned(scores, start, s, i + 1)
  }

  lemma SwapEarnsItsInversion(scores: Scores, start: seq<IpAddr>, s: seq<IpAddr>, n: nat, j: nat)
    requires 0 < j < n <= |s| && Overtakes(scores, s[j], s[j - 1]) && InversionsEarned(scores, start, s, n)
    ensures InversionsEarned(scores, start, Swap(s, j), n)
  {
  }

  lemma SwapKeepsSifting(scores: Scores, start: seq<IpAddr>, s: seq<IpAddr>, i: nat, j: nat)
    requires Sifting(scores, start, s, i, j) && j > 0 && Overtakes(scores, s[j], s[j - 1])
    ensures Sifting(scores, start, Swap(s, j), i, j - 1)
  {
    SwapEarnsItsInversion(scores, start, s, i + 1, j);
    assert multiset(Swap(s, j)) == multiset(s);
  }

  lemma {:induction false} SiftSettles(scores: Scores, start: seq<IpAddr>, s: seq<IpAddr>, i: nat, j: nat)
    requires Sifting(scores, start, s, i, j)
    ensures var r := Sift(scores, s, j);
      && multiset(r) == multiset(start) && r[i + 1..] == start[i + 1..]
      && Settled(scores, r, i + 1) && InversionsEarned(scores, start, r, i + 1)
    decreases j
  {
    if j > 0 && Overtakes(scores, s[j], s[j - 1]) {
      SwapKeepsSifting(scores, start, s, i, j);
      SiftSettles(scores, start, Swap(s, j), i, j - 1);
    }
  }

  lemma NewEntryHasNoInversions(scores: Scores, start: seq<IpAddr>, s: seq<IpAddr>, i: nat)
    requires i < |s| == |start| && NoDuplicates(start) && multiset(s) == multiset(start) && s[i..] == start[i..]
    requires InversionsEarned(scores, start, s, i)
    ensures InversionsEarned(scores, start, s, i + 1)
  {
    assert s[i] == start[i] by { assert s[i..][0] == start[i..][0]; }
    forall p | 0 <= p < i && Precedes(start, s[i], s[p]) ensures false {
      var x, y :| 0 <= x < y < |start| && start[x] == s[i] && start[y] == s[p];
      assert x == i && s[y..] == start[i..][y - i..] by { assert s[y..] == s[i..][y - i..]; }
      assert s[y] == start[y];
      MultisetKeepsNoDuplicates(start, s);
    }
  }

  lemma MultisetKeepsNoDuplicates<T>(s: seq<T>, t: seq<T>)
    requires NoDuplicates(s) && multiset(s) == multiset(t)
    ensures NoDuplicates(t)
  {
    forall i, j | 0 <= i < j < |t| ensures t[i] != t[j] {
      if t[i] == t[j] {
        assert t == t[..i] + [t[i]] + t[i + 1..j] + [t[j]] + t[j + 1..];
        assert multiset(t)[t[i]] >= 2;
        CountAtMostOne(s, t[i]);
      }
    }
  }

  lemma {:induction false} CountAtMostOne<T>(s: seq<T>, x: T)
    requires NoDuplicates(s)
    ensures multiset(s)[x] <= 1
  {
    if s != [] {
      assert s == [s[0]] + s[1..];
      CountAtMostOne(s[1..], x);
      if s[0] == x {
        assert x !in s[1..];
      }
    }
  }

  lemma {:induction false} PassSettles(scores: Scores, start: seq<IpAddr>, s: seq<IpAddr>, i: nat)
    requires 0 < i && |s| == |start| && NoDuplicates(start) && multiset(s) == multiset(start)
    requires i <= |s| ==> s[i..] == start[i..]
    requires i <= |s| ==> Settled(scores, s, i) && InversionsEarned(scores, start, s, i)
    requires i > |s| ==> |s| == 0
    ensures var r := Pass(scores, s, i);
      multiset(r) == multiset(start) && Settled(scores, r, |r|) && InversionsEarned(scores, start, r, |r|)
    decreases |s| - i
  {
    if i < |s| {
      NewEntryHasNoInversions(scores, start, s, i);
      assert s[i + 1..] == s[i..][1..] && start[i + 1..] == start[i..][1..];
      SiftSettles(scores, start, s, i, i);
      PassSettles(scores, start, Sift(scores, s, i), i + 1);
    }
  }

  lemma {:induction false} PassKeepsSettled(scores: Scores, s: seq<IpAddr>, i: nat)
    requires 0 < i && Settled(scores, s, |s|)
    ensures Pass(scores, s, i) == s
    decreases |s| - i
  {
    if i < |s| {
      PassKeepsSettled(scores, s, i + 1);
    }
  }

  // ---------------------------------------------------------------------
  // The order the pass starts from
  // ---------------------------------------------------------------------

  /** The entries of `prev` still live and measured, in their order. */
  function Kept(prev: seq<IpAddr>, live: set<IpAddr>, scores: Scores): seq<IpAddr> {
    if prev == [] then []
    else (if prev[0] in live && prev[0] in scores then [prev[0]] else []) + Kept(prev[1..], live, scores)
  }

  /** The measured addresses not known yet, each at its first occurrence. */
  function Fresh(candidates: seq<Candidate>, known: set<IpAddr>, scores: Scores): seq<IpAddr> {
    if candidates == [] then []
    else
      var a := candidates[0].addr;
      (if a !in known && a in scores then [a] else []) + Fresh(candidates[1..], known + {a}, scores)
  }

  predicate AllScored(s: seq<IpAddr>, scores: Scores) {
    forall i :: 0 <= i < |s| ==> s[i] in scores
  }

  /** Insert before the first entry with a score at least as large. */
  function InsertByScore(a: IpAddr, s: seq<IpAddr>, scores: Scores): seq<IpAddr>
    requires a in scores && AllScored(s, scores)
  {
    if s == [] || scores[a] <= scores[s[0]] then [a] + s
    else [s[0]] + InsertByScore(a, s[1..], scores)
  }

  /** The stable sort by ascending score. */
  function SortByScore(s: seq<IpAddr>, scores: Scores): (r: seq<IpAddr>)
    requires AllScored(s, scores)
    ensures AllScored(r, scores) && multiset(r) == multiset(s)
  {
    if s == [] then []
    else
      var rest := SortByScore(s[1..], scores);
      InsertKeepsEntries(s[0], rest, scores);
      assert s == [s[0]] + s[1..];
      InsertByScore(s[0], rest, scores)
  }

  lemma {:induction false} InsertKeepsEntries(a: IpAddr, s: seq<IpAddr>, scores: Scores)
    requires a in scores && AllScored(s, scores)
    ensures var r := InsertByScore(a, s, scores);
      AllScored(r, scores) && multiset(r) == multiset(s) + multiset{a}
  {
    if s != [] && !(scores[a] <= scores[s[0]]) {
      InsertKeepsEntries(a, s[1..], scores);
      assert s == [s[0]] + s[1..];
    }
  }

  ghost predicate SortedByScore(s: seq<IpAddr>, scores: Scores)
    requires AllScored(s, scores)
  {
    forall i, j :: 0 <= i < j < |s| ==> scores[s[i]] <= scores[s[j]]
  }

  lemma {:induction false} SortingSorts(s: seq<IpAddr>, scores: Scores)
    requires AllScored(s, scores)
    ensures SortedByScore(SortByScore(s, scores), scores)
  {
    if s != [] {
      SortingSorts(s[1..], scores);
      InsertionSorts(s[0], SortByScore(s[1..], scores), scores);
    }
  }

  lemma {:induction false} InsertionSorts(a: IpAddr, s: seq<IpAddr>, scores: Scores)
    requires a in scores && AllScored(s, scores) && SortedByScore(s, scores)
    ensures AllScored(InsertByScore(a, s, scores), scores) && SortedByScore(InsertByScore(a, s, scores), scores)
  {
    if s != [] && !(scores[a] <= scores[s[0]]) {
      InsertKeepsEntries(a, s[1..], scores);
      InsertionSorts(a, s[1..], scores);
      var r := InsertByScore(a, s[1..], scores);
      forall j | 0 <= j < |r| ensures scores[s[0]] <= scores[r[j]] {
        assert r[j] in multiset(r);
        assert r[j] == a || r[j] in s[1..];
      }
    }
  }

  function Start(prev: seq<IpAddr>, scores: Scores, candidates: seq<Candidate>): seq<IpAddr> {
    var kept := Kept(prev, LiveSet(candidates), scores);
    var newcomers := Fresh(candidates, Elements(kept), scores);
    FreshIsScored(candidates, Elements(kept), scores);
    kept + SortByScore(newcomers, scores)
  }

  function Reordered(prev: seq<IpAddr>, scores: Scores, candidates: seq<Candidate>): seq<IpAddr> {
    Pass(scores, Start(prev, scores, candidates), 1)
  }

  lemma {:induction false} FreshIsScored(candidates: seq<Candidate>, known: set<IpAddr>, scores: Scores)
    ensures AllScored(Fresh(candidates, known, scores), scores)
  {
    if candidates != [] {
      FreshIsScored(candidates[1..], known + {candidates[0].addr}, scores);
    }
  }

  lemma {:induction false} FreshMeaning(candidates: seq<Candidate>, known: set<IpAddr>, scores: Scores)
    ensures NoDuplicates(Fresh(candidates, known, scores))
    ensures forall a :: a in Fresh(candidates, known, scores)
                   <==> a in LiveSet(candidates) && a !in known && a in scores
  {
    if candidates != [] {
      var a := candidates[0].addr;
      FreshMeaning(candidates[1..], known + {a}, scores);
      assert candidates == [candidates[0]] + candidates[1..];
      assert LiveSet(candidates) == {a} + LiveSet(candidates[1..]);
    }
  }

  lemma {:induction false} KeptMeaning(prev: seq<IpAddr>, live: set<IpAddr>, scores: Scores)
    ensures forall a :: a in Kept(prev, live, scores) <==> a in prev && a in live && a in scores
    ensures NoDuplicates(prev) ==> NoDuplicates(Kept(prev, live, scores))
  {
    if prev != [] {
      KeptMeaning(prev[1..], live, scores);
      assert prev == [prev[0]] + prev[1..];
    }
  }

  lemma {:induction false} KeptKeepsOrder(prev: seq<IpAddr>, live: set<IpAddr>, scores: Scores, i: nat, j: nat)
    requires i < j < |prev| && {prev[i], prev[j]} <= live && prev[i] in scores && prev[j] in scores
    ensures Precedes(Kept(prev, live, scores), prev[i], prev[j])
  {
    var kept, rest := Kept(prev, live, scores), Kept(prev[1..], live, scores);
    if i == 0 {
      KeptMeaning(prev[1..], live, scores);
      assert prev[1..][j - 1] in rest;
      var k :| 0 <= k < |rest| && rest[k] == prev[j];
      assert kept[0] == prev[0] && kept[k + 1] == prev[j];
    } else {
      KeptKeepsOrder(prev[1..], live, scores, i - 1, j - 1);
      var x, y :| 0 <= x < y < |rest| && rest[x] == prev[i] && rest[y] == prev[j];
      var off := |kept| - |rest|;
      assert kept[x + off] == prev[i] && kept[y + off] == prev[j];
    }
  }

  lemma StartMeaning(prev: seq<IpAddr>, scores: Scores, candidates: seq<Candidate>)
    requires NoDuplicates(prev)
    ensures var s := Start(prev, scores, candidates);
      NoDuplicates(s) && forall a :: a in s <==> a in LiveSet(candidates) && a in scores
  {
    var live := LiveSet(candidates);
    var kept := Kept(prev, live, scores);
    var newcomers := Fresh(candidates, Elements(kept), scores);
    KeptMeaning(prev, live, scores);
    FreshMeaning(candidates, Elements(kept), scores);
    FreshIsScored(candidates, Elements(kept), scores);
    var sorted := SortByScore(newcomers, scores);
    MultisetKeepsNoDuplicates(newcomers, sorted);
    SameElements(newcomers, sorted);
    assert forall a :: a in kept ==> a !in sorted;
  }

  lemma SameElements<T>(s: seq<T>, t: seq<T>)
    requires multiset(s) == multiset(t)
    ensures forall x :: x in s <==> x in t
  {
    assert forall x :: x in s <==> x in multiset(s);
    assert forall x :: x in t <==> x in multiset(t);
  }

  // ---------------------------------------------------------------------
  // What the new order is worth
  // ---------------------------------------------------------------------

  /** The new order ranks exactly the live measured endpoints, each once, and no
      entry overtakes the one ahead of it. */
  lemma RankingIsExactAndSettled(prev: seq<IpAddr>, scores: Scores, candidates: seq<Candidate>)
    requires NoDuplicates(prev)
    ensures var r := Reordered(prev, scores, candidates);
      && NoDuplicates(r)
      && (forall a :: a in r <==> a in LiveSet(candidates) && a in scores)
      && Settled(scores, r, |r|)
  {
    var start := Start(prev, scores, candidates);
    StartMeaning(prev, scores, candidates);
    PassSettles(scores, start, start, 1);
    MultisetKeepsNoDuplicates(start, Pass(scores, start, 1));
    SameElements(start, Pass(scores, start, 1));
  }

  /** Two endpoints, at whatever distance, trade places only by the margin. */
  lemma PairwiseHysteresis(prev: seq<IpAddr>, scores: Scores, candidates: seq<Candidate>, a: IpAddr, b: IpAddr)
    requires NoDuplicates(prev)
    requires Precedes(Start(prev, scores, candidates), a, b)
    requires Precedes(Reordered(prev, scores, candidates), b, a)
    ensures Overtakes(scores, b, a)
  {
    var start := Start(prev, scores, candidates);
    StartMeaning(prev, scores, candidates);
    PassSettles(scores, start, start, 1);
  }

  lemma KeptStaysAhead(prev: seq<IpAddr>, scores: Scores, candidates: seq<Candidate>, a: IpAddr, b: IpAddr)
    requires Precedes(prev, a, b) && {a, b} <= LiveSet(candidates) && a in scores && b in scores
    ensures Precedes(Start(prev, scores, candidates), a, b)
  {
    hide LiveSet, Fresh;
    var i, j :| 0 <= i < j < |prev| && prev[i] == a && prev[j] == b;
    KeptKeepsOrder(prev, LiveSet(candidates), scores, i, j);
    var kept, start := Kept(prev, LiveSet(candidates), scores), Start(prev, scores, candidates);
    var x, y :| 0 <= x < y < |kept| && kept[x] == a && kept[y] == b;
    assert start[x] == a && start[y] == b;
  }

  /** In particular two endpoints ranked before and after keep their order unless
      the later one has become faster by the margin. */
  lemma NoChurnOnNoise(prev: seq<IpAddr>, scores: Scores, candidates: seq<Candidate>, a: IpAddr, b: IpAddr)
    requires NoDuplicates(prev) && Precedes(prev, a, b) && !Overtakes(scores, b, a)
    requires {a, b} <= LiveSet(candidates) && a in scores && b in scores
    ensures Precedes(Reordered(prev, scores, candidates), a, b)
  {
    KeptStaysAhead(prev, scores, candidates, a, b);
    RankingIsExactAndSettled(prev, scores, candidates);
    hide Start, Reordered, LiveSet;
    var r := Reordered(prev, scores, candidates);
    assert a in r && b in r;
    var p :| 0 <= p < |r| && r[p] == a;
    var q :| 0 <= q < |r| && r[q] == b;
    if q < p {
      PairwiseHysteresis(prev, scores, candidates, a, b);
    }
  }

  /** With nothing changed, the order reproduces itself. */
  lemma ReorderingIsIdempotent(prev: seq<IpAddr>, scores: Scores, candidates: seq<Candidate>)
    requires NoDuplicates(prev)
    ensures var r := Reordered(prev, scores, candidates);
      Reordered(r, scores, candidates) == r
  {
    var r := Reordered(prev, scores, candidates);
    RankingIsExactAndSettled(prev, scores, candidates);
    StartOfAllRanked(r, scores, candidates);
    PassKeepsSettled(scores, r, 1);
  }

  lemma EmptyOrInhabited<T(!new)>(s: seq<T>)
    ensures s == [] || exists a :: a in s
  {
    if s != [] {
      assert s[0] in s;
    }
  }

  lemma StartOfAllRanked(r: seq<IpAddr>, scores: Scores, candidates: seq<Candidate>)
    requires forall a :: a in r <==> a in LiveSet(candidates) && a in scores
    ensures Start(r, scores, candidates) == r
  {
    KeepingAll(r, LiveSet(candidates), scores);
    FreshMeaning(candidates, Elements(r), scores);
    EmptyOrInhabited(Fresh(candidates, Elements(r), scores));
  }

  lemma {:induction false} KeepingAll(s: seq<IpAddr>, live: set<IpAddr>, scores: Scores)
    requires forall a :: a in s ==> a in live && a in scores
    ensures Kept(s, live, scores) == s
  {
    if s != [] {
      KeepingAll(s[1..], live, scores);
    }
  }

  /** The score a challenger has to come in under. */
  function Bar(x: real): real {
    x - Margin(x)
  }

  function BarTimes(k: nat, x: real): real {
    if k == 0 then x else Bar(BarTimes(k - 1, x))
  }

  /** The entry ranked `k` is never better than the leader's score lowered by the
      margin `k` times, so what the order can give away is bounded by rank. */
  lemma {:induction false} RankBoundsTheLoss(scores: Scores, order: seq<IpAddr>, k: nat)
    requires k < |order| && AllScored(order, scores) && Settled(scores, order, |order|)
    ensures scores[order[k]] >= BarTimes(k, scores[order[0]])
  {
    if k > 0 {
      RankBoundsTheLoss(scores, order, k - 1);
      assert !Overtakes(scores, order[k], order[k - 1]);
      assert scores[order[k]] >= Bar(scores[order[k - 1]]) >= Bar(BarTimes(k - 1, scores[order[0]]));
    }
  }

  /** Overtaking is a strict order, but being level with is not transitive: the
      middle endpoint is level with both others, which are not level. So the pass
      is no sort, and it may keep an endpoint behind one it could overtake. */
  lemma LevelIsNotTransitive(slow: IpAddr, middle: IpAddr, quick: IpAddr, scores: Scores)
    requires scores == map[slow := 0.100, middle := 0.085, quick := 0.070]
    requires slow != middle && slow != quick && middle != quick
    ensures !Overtakes(scores, middle, slow) && !Overtakes(scores, quick, middle) && Overtakes(scores, quick, slow)
    ensures Pass(scores, [slow, middle, quick], 1) == [slow, middle, quick]
  {
    PassKeepsSettled(scores, [slow, middle, quick], 1);
  }

  lemma OvertakingIsAStrictOrder(x: real, y: real, z: real)
    ensures !Beats(x, x)
    ensures Beats(x, y) && Beats(y, z) ==> Beats(x, z)
    ensures Beats(x, y) ==> x < Bar(y) < y
  {
  }

  // ---------------------------------------------------------------------
  // The method
  // ---------------------------------------------------------------------

  method CollectNewcomers(candidates: seq<Candidate>, kept: seq<IpAddr>, scores: Scores)
    returns (newcomers: seq<IpAddr>)
    ensures newcomers == Fresh(candidates, Elements(kept), scores)
  {
    var known := Elements(kept);
    newcomers := [];
    for i := 0 to |candidates|
      invariant newcomers + Fresh(candidates[i..], known, scores) == Fresh(candidates, Elements(kept), scores)
    {
      var a := candidates[i].addr;
      assert candidates[i..][1..] == candidates[i + 1..];
      if a !in known && a in scores {
        newcomers := newcomers + [a];
      }
      known := known + {a};
    }
  }

  method InsertionPass(start: seq<IpAddr>, scores: Scores) returns (order: seq<IpAddr>)
    ensures order == Pass(scores, start, 1)
  {
    order := start;
    var i := 1;
    while i < |order|
      invariant 1 <= i && |order| == |start|
      invariant Pass(scores, order, i) == Pass(scores, start, 1)
    {
      var j := i;
      ghost var before := order;
      while j > 0
        invariant j <= i && |order| == |start|
        invariant Sift(scores, order, j) == Sift(scores, before, i)
      {
        if !Overtakes(scores, order[j], order[j - 1]) {
          break;
        }
        order := order[j - 1 := order[j]][j := order[j - 1]];
        j := j - 1;
      }
      assert order == Sift(scores, before, i);
      i := i + 1;
    }
  }

  /** Keep what is still ranked, append newcomers best first, then promote. */
  method ReorderWithHysteresis(prev: seq<IpAddr>, scores: Scores, candidates: seq<Candidate>)
    returns (order: seq<IpAddr>)
    ensures order == Reordered(prev, scores, candidates)
  {
    var live := LiveSet(candidates);
    var kept := Kept(prev, live, scores);
    var newcomers := CollectNewcomers(candidates, kept, scores);
    FreshIsScored(candidates, Elements(kept), scores);
    order := InsertionPass(kept + SortByScore(newcomers, scores), scores);
  }
}
