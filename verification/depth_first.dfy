/**
 * The proof state of an explicit-stack, three-colour depth-first search, over
 * any graph. `g` maps each node to the nodes it depends on.
 */
module DepthFirst {
  import opened Collections

  type Graph<!N> = map<N, set<N>>

  datatype Mark = Open | Done

  datatype Step<N> = Enter(name: N, path: seq<N>) | Exit(name: N)

  // ---------------------------------------------------------------------
  // Walks, cycles and build orders
  // ---------------------------------------------------------------------

  ghost predicate Edge<N>(g: Graph<N>, a: N, b: N) {
    a in g && b in g && b in g[a]
  }

  ghost predicate IsWalk<N>(g: Graph<N>, w: seq<N>) {
    forall i :: 0 < i < |w| ==> Edge(g, w[i - 1], w[i])
  }

  ghost predicate Acyclic<N(!new)>(g: Graph<N>) {
    !exists w: seq<N> :: |w| > 1 && IsWalk(g, w) && w[0] == w[|w| - 1]
  }

  /** A walk whose last node has occurred before. */
  ghost predicate EndsInRepeat<N>(g: Graph<N>, w: seq<N>) {
    |w| > 1 && IsWalk(g, w) && w[|w| - 1] in w[..|w| - 1]
  }

  ghost predicate DependenciesFirst<N(!new)>(g: Graph<N>, order: seq<N>) {
    forall k, d :: 0 <= k < |order| && Edge(g, order[k], d) ==> d in order[..k]
  }

  /** Every node once, each after all it depends on. */
  ghost predicate IsBuildOrder<N(!new)>(g: Graph<N>, order: seq<N>) {
    && NoDuplicates(order)
    && (forall n :: n in order <==> n in g)
    && DependenciesFirst(g, order)
  }

  lemma {:induction false} WalkDescends<N(!new)>(g: Graph<N>, order: seq<N>, w: seq<N>, k: nat)
    requires IsBuildOrder(g, order) && IsWalk(g, w) && |w| > 1
    requires k < |order| && order[k] == w[0]
    ensures w[|w| - 1] in order[..k]
    decreases |w|
  {
    assert Edge(g, w[1 - 1], w[1]);
    if |w| > 2 {
      var j :| 0 <= j < k && order[j] == w[1];
      forall i | 0 < i < |w[1..]| ensures Edge(g, w[1..][i - 1], w[1..][i]) {
        assert Edge(g, w[i + 1 - 1], w[i + 1]);
      }
      WalkDescends(g, order, w[1..], j);
    }
  }

  /** A build order exists only when no node depends on itself through others. */
  lemma BuildOrderMeansAcyclic<N(!new)>(g: Graph<N>, order: seq<N>)
    requires IsBuildOrder(g, order)
    ensures Acyclic(g)
  {
    forall w: seq<N> | |w| > 1 && IsWalk(g, w) && w[0] == w[|w| - 1] ensures false {
      assert Edge(g, w[1 - 1], w[1]);
      var k :| 0 <= k < |order| && order[k] == w[0];
      WalkDescends(g, order, w, k);
    }
  }

  lemma RepeatMeansCyclic<N(!new)>(g: Graph<N>, path: seq<N>)
    requires EndsInRepeat(g, path)
    ensures !Acyclic(g)
  {
    var i :| 0 <= i < |path| - 1 && path[i] == path[|path| - 1];
    var w := path[i..];
    forall k | 0 < k < |w| ensures Edge(g, w[k - 1], w[k]) {
      assert Edge(g, path[i + k - 1], path[i + k]);
    }
    assert IsWalk(g, w) && w[0] == w[|w| - 1];
  }

  // ---------------------------------------------------------------------
  // The stack, its last element on top
  // ---------------------------------------------------------------------

  /** The nodes waiting for their `Exit`, bottom of the stack first. */
  ghost function Exits<N>(stack: seq<Step<N>>): seq<N> {
    if stack == [] then []
    else
      var top := stack[|stack| - 1];
      Exits(stack[..|stack| - 1]) + (if top.Exit? then [top.name] else [])
  }

  ghost function Names<N>(stack: seq<Step<N>>): set<N> {
    set s <- stack :: s.name
  }

  function Enters<N>(path: seq<N>, keys: seq<N>): (r: seq<Step<N>>)
    ensures |r| == |keys|
  {
    seq(|keys|, i requires 0 <= i < |keys| => Enter(keys[i], path + [keys[i]]))
  }

  ghost predicate IsDone<N>(marks: map<N, Mark>, n: N) { n in marks && marks[n] == Done }

  ghost predicate IsOpen<N>(marks: map<N, Mark>, n: N) { n in marks && marks[n] == Open }

  /** Every `Enter` carries the open nodes below it, followed by its own. */
  ghost predicate PathsAreAncestors<N>(g: Graph<N>, stack: seq<Step<N>>) {
    stack != [] ==>
      var top, below := stack[|stack| - 1], stack[..|stack| - 1];
      && PathsAreAncestors(g, below)
      && (top.Enter? ==> top.path == Exits(below) + [top.name] && IsWalk(g, top.path))
  }

  /** An open node waits only for finished nodes and for steps above it. */
  ghost predicate Waiting<N(!new)>(g: Graph<N>, marks: map<N, Mark>, stack: seq<Step<N>>, above: set<N>) {
    stack != [] ==>
      var top, below := stack[|stack| - 1], stack[..|stack| - 1];
      && (top.Exit? ==> forall d :: Edge(g, top.name, d) ==> IsDone(marks, d) || d in above)
      && Waiting(g, marks, below, above + {top.name})
  }

  ghost predicate MarksAgree<N(!new)>(g: Graph<N>, marks: map<N, Mark>, stack: seq<Step<N>>, order: seq<N>) {
    && marks.Keys <= g.Keys
    && Names(stack) <= g.Keys
    && (forall n :: IsOpen(marks, n) <==> n in Exits(stack))
    && (forall n :: IsDone(marks, n) <==> n in order)
    && NoDuplicates(Exits(stack))
  }

  ghost predicate Invariant<N(!new)>(g: Graph<N>, marks: map<N, Mark>, stack: seq<Step<N>>, order: seq<N>) {
    && MarksAgree(g, marks, stack, order)
    && PathsAreAncestors(g, stack)
    && Waiting(g, marks, stack, {})
    && NoDuplicates(order)
    && DependenciesFirst(g, order)
  }

  lemma {:induction false} WaitingStill<N(!new)>(
    g: Graph<N>, marks: map<N, Mark>, stack: seq<Step<N>>, above: set<N>, marks': map<N, Mark>, above': set<N>)
    requires Waiting(g, marks, stack, above)
    requires forall d :: IsDone(marks, d) || d in above ==> IsDone(marks', d) || d in above'
    ensures Waiting(g, marks', stack, above')
  {
    if stack != [] {
      var top, below := stack[|stack| - 1], stack[..|stack| - 1];
      WaitingStill(g, marks, below, above + {top.name}, marks', above' + {top.name});
    }
  }

  lemma WalkExtends<N>(g: Graph<N>, w: seq<N>, n: N)
    requires w != [] && IsWalk(g, w) && Edge(g, w[|w| - 1], n)
    ensures IsWalk(g, w + [n])
  {
  }

  lemma {:induction false} PushEnters<N(!new)>(
    g: Graph<N>, marks: map<N, Mark>, base: seq<Step<N>>, path: seq<N>, keys: seq<N>, above: set<N>)
    requires PathsAreAncestors(g, base) && Waiting(g, marks, base, (set k <- keys) + above)
    requires Exits(base) == path && path != [] && IsWalk(g, path)
    requires forall i :: 0 <= i < |keys| ==> Edge(g, path[|path| - 1], keys[i])
    ensures var stack := base + Enters(path, keys);
      PathsAreAncestors(g, stack) && Waiting(g, marks, stack, above) && Exits(stack) == path
    decreases |keys|
  {
    var stack := base + Enters(path, keys);
    if keys == [] {
      assert stack == base;
      assert (set k <- keys) + above == above;
    } else {
      var init, last := keys[..|keys| - 1], keys[|keys| - 1];
      assert (set k <- keys) + above == (set k <- init) + (above + {last}) by {
        assert keys == init + [last];
      }
      PushEnters(g, marks, base, path, init, above + {last});
      assert stack[..|stack| - 1] == base + Enters(path, init);
      assert stack[|stack| - 1] == Enter(last, path + [last]);
      WalkExtends(g, path, last);
    }
  }

  lemma NamesOfEnters<N>(g: Graph<N>, base: seq<Step<N>>, path: seq<N>, keys: seq<N>)
    requires Names(base) <= g.Keys && forall i :: 0 <= i < |keys| ==> keys[i] in g
    ensures Names(base + Enters(path, keys)) <= g.Keys
  {
  }

  /** A search from a new root starts with nothing open. */
  lemma StartKeepsInvariant<N(!new)>(g: Graph<N>, marks: map<N, Mark>, root: N, order: seq<N>)
    requires Invariant(g, marks, [], order) && root in g
    ensures Invariant(g, marks, [Enter(root, [root])], order)
  {
  }

  /** Finishing the node on top: it joins the order after all it waited for. */
  lemma ExitKeepsInvariant<N(!new)>(g: Graph<N>, marks: map<N, Mark>, stack: seq<Step<N>>, order: seq<N>)
    requires stack != [] && stack[|stack| - 1].Exit?
    requires Invariant(g, marks, stack, order)
    ensures var name := stack[|stack| - 1].name;
      name in marks && Invariant(g, marks[name := Done], stack[..|stack| - 1], order + [name])
  {
    var top := |stack| - 1;
    var name, rest := stack[top].name, stack[..top];
    var order', marks' := order + [name], marks[name := Done];
    var open := Exits(rest);
    assert Exits(stack) == open + [name];
    assert forall i :: 0 <= i < |open| ==> open[i] == Exits(stack)[i];
    assert Exits(stack)[|open|] == name;
    assert IsOpen(marks, name) && !IsDone(marks, name);
    assert name !in open;
    assert forall n :: n in order' <==> n in order || n == name;
    assert forall n :: n in Exits(stack) <==> n in open || n == name;
    WaitingStill(g, marks, rest, {} + {name}, marks', {});
    forall k, d | 0 <= k < |order'| && Edge(g, order'[k], d) ensures d in order'[..k] {
      if k < |order| {
        assert order'[k] == order[k] && order'[..k] == order[..k];
      } else {
        assert order'[..k] == order;
      }
    }
  }

  /** A node on top that is already finished is dropped. */
  lemma SkipKeepsInvariant<N(!new)>(g: Graph<N>, marks: map<N, Mark>, stack: seq<Step<N>>, order: seq<N>)
    requires stack != [] && stack[|stack| - 1].Enter? && IsDone(marks, stack[|stack| - 1].name)
    requires Invariant(g, marks, stack, order)
    ensures Invariant(g, marks, stack[..|stack| - 1], order)
  {
    var top := |stack| - 1;
    assert Exits(stack) == Exits(stack[..top]);
    WaitingStill(g, marks, stack[..top], {} + {stack[top].name}, marks, {});
  }

  /** A node on top that is still open is one of its own ancestors. */
  lemma OpenOnTopIsACycle<N(!new)>(g: Graph<N>, marks: map<N, Mark>, stack: seq<Step<N>>, order: seq<N>)
    requires stack != [] && stack[|stack| - 1].Enter? && IsOpen(marks, stack[|stack| - 1].name)
    requires Invariant(g, marks, stack, order)
    ensures EndsInRepeat(g, stack[|stack| - 1].path)
  {
  }

  lemma OpenedMarksAgree<N(!new)>(
    g: Graph<N>, marks: map<N, Mark>, stack: seq<Step<N>>, order: seq<N>, after: seq<Step<N>>)
    requires stack != [] && stack[|stack| - 1].name !in marks && MarksAgree(g, marks, stack, order)
    requires Names(after) <= g.Keys && Exits(after) == Exits(stack) + [stack[|stack| - 1].name]
    requires stack[|stack| - 1].name in g
    ensures MarksAgree(g, marks[stack[|stack| - 1].name := Open], after, order)
  {
    var name := stack[|stack| - 1].name;
    assert !IsOpen(marks, name) && !IsDone(marks, name);
    assert forall n :: n in Exits(after) <==> n in Exits(stack) || n == name;
  }

  /** Opening an unseen node: its `Exit` replaces it, its dependencies go on top. */
  lemma EnterKeepsInvariant<N(!new)>(g: Graph<N>, marks: map<N, Mark>, stack: seq<Step<N>>, order: seq<N>, keys: seq<N>)
    requires stack != [] && stack[|stack| - 1].Enter? && stack[|stack| - 1].name !in marks
    requires Invariant(g, marks, stack, order)
    requires forall d :: d in keys <==> Edge(g, stack[|stack| - 1].name, d)
    ensures var Enter(name, path) := stack[|stack| - 1];
      Invariant(g, marks[name := Open], stack[..|stack| - 1] + [Exit(name)] + Enters(path, keys), order)
  {
    var top := |stack| - 1;
    var Enter(name, path) := stack[top];
    var below := stack[..top];
    var base, more := below + [Exit(name)], Enters(path, keys);
    var after, marks' := base + more, marks[name := Open];
    assert base[..top] == below;
    assert Exits(stack) == Exits(below);
    assert Exits(base) == path;
    assert !IsOpen(marks, name) && !IsDone(marks, name);
    var wanted := (set k <- keys) + {};
    WaitingStill(g, marks, below, {} + {name}, marks', wanted + {name});
    assert path[|path| - 1] == name;
    assert base[|base| - 1] == Exit(name);
    forall i | 0 <= i < |keys| ensures Edge(g, path[|path| - 1], keys[i]) {
      assert keys[i] in keys;
    }
    PushEnters(g, marks', base, path, keys, {});
    NamesOfEnters(g, base, path, keys);
    OpenedMarksAgree(g, marks, stack, order, after);
  }
}
