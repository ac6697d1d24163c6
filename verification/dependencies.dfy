/** What every build order of a graph puts first: exactly what is reachable. */
module Dependencies {
  import opened Collections
  import opened DepthFirst

  /** Through one reference or several. */
  ghost predicate DependsOn<N(!new)>(g: Graph<N>, a: N, b: N) {
    exists w: seq<N> :: |w| > 1 && IsWalk(g, w) && w[0] == a && w[|w| - 1] == b
  }

  /** `b` stands before `a` in `order`. */
  ghost predicate StandsFirst<N(!new)>(order: seq<N>, a: N, b: N) {
    forall k :: 0 <= k < |order| && order[k] == a ==> b in order[..k]
  }

  ghost predicate AlwaysFirst<N(!new)>(g: Graph<N>, a: N, b: N) {
    forall order :: IsBuildOrder(g, order) ==> StandsFirst(order, a, b)
  }

  /** `a` and everything it depends on. */
  ghost predicate Needed<N(!new)>(g: Graph<N>, a: N, n: N) {
    n == a || DependsOn(g, a, n)
  }

  lemma NeededIsClosed<N(!new)>(g: Graph<N>, a: N, n: N, d: N)
    requires Needed(g, a, n) && Edge(g, n, d)
    ensures Needed(g, a, d)
  {
    if n == a {
      assert IsWalk(g, [a, d]);
    } else {
      var w: seq<N> :| |w| > 1 && IsWalk(g, w) && w[0] == a && w[|w| - 1] == n;
      WalkExtends(g, w, d);
      assert (w + [d])[0] == a && (w + [d])[|w|] == d;
    }
  }

  /** The nodes of `order` that `a` needs, or the others, in their order. */
  ghost function Part<N(!new)>(g: Graph<N>, a: N, order: seq<N>, needed: bool): seq<N> {
    if order == [] then []
    else
      Part(g, a, order[..|order| - 1], needed)
      + if Needed(g, a, order[|order| - 1]) == needed then [order[|order| - 1]] else []
  }

  lemma {:induction false} PartMeaning<N(!new)>(g: Graph<N>, a: N, order: seq<N>, needed: bool)
    ensures forall n :: n in Part(g, a, order, needed) <==> n in order && Needed(g, a, n) == needed
    ensures NoDuplicates(order) ==> NoDuplicates(Part(g, a, order, needed))
  {
    hide Needed;
    if order != [] {
      var init, last := order[..|order| - 1], order[|order| - 1];
      PartMeaning(g, a, init, needed);
      assert order == init + [last];
    }
  }

  /** Each entry of a part stood behind the same earlier entries of that part. */
  lemma {:induction false} PartKeepsOrder<N(!new)>(g: Graph<N>, a: N, order: seq<N>, needed: bool, p: nat)
    returns (k: nat)
    requires p < |Part(g, a, order, needed)|
    ensures k < |order| && order[k] == Part(g, a, order, needed)[p]
    ensures Part(g, a, order[..k], needed) == Part(g, a, order, needed)[..p]
  {
    hide Needed;
    var init := order[..|order| - 1];
    var part := Part(g, a, init, needed);
    if p < |part| {
      k := PartKeepsOrder(g, a, init, needed, p);
      assert init[..k] == order[..k];
    } else {
      k := |order| - 1;
    }
  }

  /** What `a` needs first, then the rest: again a build order. */
  lemma NeededFirstIsABuildOrder<N(!new)>(g: Graph<N>, order: seq<N>, a: N)
    requires IsBuildOrder(g, order)
    ensures IsBuildOrder(g, Part(g, a, order, true) + Part(g, a, order, false))
  {
    var first, rest := Part(g, a, order, true), Part(g, a, order, false);
    PartMeaning(g, a, order, true);
    PartMeaning(g, a, order, false);
    hide Needed;
    var s := first + rest;
    assert forall n :: n in s <==> n in first || n in rest;
    assert NoDuplicates(s) by {
      assert forall i :: 0 <= i < |first| ==> first[i] in first;
      assert forall i :: 0 <= i < |rest| ==> rest[i] in rest;
    }
    forall k, d | 0 <= k < |s| && Edge(g, s[k], d) ensures d in s[..k] {
      EdgesStayBehind(g, order, a, k, d);
    }
  }

  lemma EdgesStayBehind<N(!new)>(g: Graph<N>, order: seq<N>, a: N, k: nat, d: N)
    requires IsBuildOrder(g, order)
    requires var s := Part(g, a, order, true) + Part(g, a, order, false); k < |s| && Edge(g, s[k], d)
    ensures d in (Part(g, a, order, true) + Part(g, a, order, false))[..k]
  {
    var first, rest := Part(g, a, order, true), Part(g, a, order, false);
    if k < |first| {
      EdgesOfTheNeeded(g, order, a, k, d);
      assert (first + rest)[..k] == first[..k];
    } else {
      EdgesOfTheRest(g, order, a, k - |first|, d);
      assert (first + rest)[..k] == first + rest[..k - |first|];
    }
  }

  lemma EdgesOfTheNeeded<N(!new)>(g: Graph<N>, order: seq<N>, a: N, k: nat, d: N)
    requires IsBuildOrder(g, order) && k < |Part(g, a, order, true)| && Edge(g, Part(g, a, order, true)[k], d)
    ensures d in Part(g, a, order, true)[..k]
  {
    PartMeaning(g, a, order, true);
    var j := PartKeepsOrder(g, a, order, true, k);
    PartMeaning(g, a, order[..j], true);
    NeededIsClosed(g, a, order[j], d);
    hide Needed;
  }

  lemma EdgesOfTheRest<N(!new)>(g: Graph<N>, order: seq<N>, a: N, k: nat, d: N)
    requires IsBuildOrder(g, order) && k < |Part(g, a, order, false)| && Edge(g, Part(g, a, order, false)[k], d)
    ensures d in Part(g, a, order, true) + Part(g, a, order, false)[..k]
  {
    var j := PartKeepsOrder(g, a, order, false, k);
    PartMeaning(g, a, order, true);
    PartMeaning(g, a, order[..j], false);
    hide Needed;
  }

  /** A node is built after another in every build order exactly when it depends on it. */
  lemma AlwaysFirstExactly<N(!new)>(g: Graph<N>, order: seq<N>, a: N, b: N)
    requires IsBuildOrder(g, order) && a in g
    ensures AlwaysFirst(g, a, b) <==> DependsOn(g, a, b)
  {
    if DependsOn(g, a, b) {
      DependenciesStandFirst(g, a, b);
    } else {
      NeededFirstIsABuildOrder(g, order, a);
      PartMeaning(g, a, order, true);
      var first, rest := Part(g, a, order, true), Part(g, a, order, false);
      var p :| 0 <= p < |first| && first[p] == a;
      var s := if b == a then order else first + rest;
      if b == a {
        var k :| 0 <= k < |order| && order[k] == a;
        assert !StandsFirst(order, a, b);
      } else {
        assert s[p] == a && s[..p] == first[..p];
        assert b !in first;
        assert !StandsFirst(s, a, b);
      }
    }
  }

  lemma DependenciesStandFirst<N(!new)>(g: Graph<N>, a: N, b: N)
    requires DependsOn(g, a, b)
    ensures AlwaysFirst(g, a, b)
  {
    var w: seq<N> :| |w| > 1 && IsWalk(g, w) && w[0] == a && w[|w| - 1] == b;
    forall order, k | IsBuildOrder(g, order) && 0 <= k < |order| && order[k] == a ensures b in order[..k] {
      WalkDescends(g, order, w, k);
    }
  }
}
