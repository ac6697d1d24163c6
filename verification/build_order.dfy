/**
 * `Config::resolver_build_order`: an explicit-stack, three-colour depth-first
 * search over the declared resolvers that yields a build order or a cycle.
 */
module BuildOrder {
  import opened Text
  import DF = DepthFirst

  /** Each declared name with its sorted references, as written. */
  type References = map<string, seq<string>>

  datatype OrderError =
    | Cycle(path: seq<string>)
    | InvalidReference(name: string, spec: string)
    | UnknownResolver(name: string, spec: string)

  datatype OrderResult = Ok(order: seq<string>) | Err(error: OrderError)

  /** A reference the search can follow: a bare `@` before a declared name. */
  predicate Resolves(refs: References, spec: string) {
    spec != [] && spec[0] == '@' && spec[1..] in refs
  }

  predicate AllResolve(refs: References, name: string)
    requires name in refs
  {
    var edges := refs[name];
    forall i :: 0 <= i < |edges| ==> Resolves(refs, edges[i])
  }

  /** The declared names a resolver needs to be built before it. */
  ghost function Graph(refs: References): DF.Graph<string> {
    map n <- refs :: set e <- refs[n] | Resolves(refs, e) :: e[1..]
  }

  /** An error names something really wrong with the configuration. */
  ghost predicate Justified(refs: References, e: OrderError) {
    match e
    case Cycle(path) => DF.EndsInRepeat(Graph(refs), path)
    case InvalidReference(n, s) => n in refs && s in refs[n] && !(s != [] && s[0] == '@')
    case UnknownResolver(n, s) =>
      n in refs && s in refs[n] && s != [] && s[0] == '@' && s[1..] !in refs
  }

  /** The bare names of references that all resolve. */
  function BareNames(refs: References, edges: seq<string>): (r: seq<string>)
    requires forall i :: 0 <= i < |edges| ==> Resolves(refs, edges[i])
    ensures |r| == |edges|
  {
    seq(|edges|, i requires 0 <= i < |edges| => (assert Resolves(refs, edges[i]); edges[i][1..]))
  }

  lemma BareNamesAreDependencies(refs: References, name: string)
    requires name in refs && AllResolve(refs, name)
    ensures forall d :: d in BareNames(refs, refs[name]) <==> DF.Edge(Graph(refs), name, d)
  {
    var edges := refs[name];
    var keys := BareNames(refs, edges);
    forall d | d in keys ensures DF.Edge(Graph(refs), name, d) {
      var i :| 0 <= i < |keys| && keys[i] == d;
      assert Resolves(refs, edges[i]);
    }
    forall d | DF.Edge(Graph(refs), name, d) ensures d in keys {
      var e :| e in edges && Resolves(refs, e) && e[1..] == d;
      var i :| 0 <= i < |edges| && edges[i] == e;
      assert keys[i] == d;
    }
  }

  /** Open `name`: one `Enter` per reference, unless some reference leads nowhere. */
  method PushDependencies(refs: References, name: string, path: seq<string>)
    returns (error: Option<OrderError>, steps: seq<DF.Step<string>>)
    requires name in refs
    ensures error.None? <==> AllResolve(refs, name)
    ensures error.None? ==> steps == DF.Enters(path, BareNames(refs, refs[name]))
    ensures error.Some? ==> Justified(refs, error.value)
  {
    steps := [];
    var edges := refs[name];
    for k := 0 to |edges|
      invariant forall j :: 0 <= j < k ==> Resolves(refs, edges[j])
      invariant steps == DF.Enters(path, BareNames(refs, edges[..k]))
    {
      var e := edges[k];
      assert e in refs[name];
      if e == [] || e[0] != '@' {
        return Some(InvalidReference(name, e)), [];
      }
      if e[1..] !in refs {
        return Some(UnknownResolver(name, e)), [];
      }
      steps := steps + [DF.Enter(e[1..], path + [e[1..]])];
    }
    assert edges[..|edges|] == edges;
    return None, steps;
  }

  lemma OpeningKeepsInvariant(
    refs: References, marks: map<string, DF.Mark>, stack: seq<DF.Step<string>>, order: seq<string>)
    requires stack != [] && stack[|stack| - 1].Enter? && stack[|stack| - 1].name !in marks
    requires DF.Invariant(Graph(refs), marks, stack, order)
    requires stack[|stack| - 1].name in refs && AllResolve(refs, stack[|stack| - 1].name)
    ensures var name, path := stack[|stack| - 1].name, stack[|stack| - 1].path;
      DF.Invariant(Graph(refs), marks[name := DF.Open],
                   stack[..|stack| - 1] + [DF.Exit(name)] + DF.Enters(path, BareNames(refs, refs[name])), order)
  {
    var name := stack[|stack| - 1].name;
    BareNamesAreDependencies(refs, name);
    DF.EnterKeepsInvariant(Graph(refs), marks, stack, order, BareNames(refs, refs[name]));
  }

  ghost predicate SearchState(
    refs: References, marks: map<string, DF.Mark>, stack: seq<DF.Step<string>>, order: seq<string>)
  {
    DF.Invariant(Graph(refs), marks, stack, order) && forall n <- marks :: AllResolve(refs, n)
  }

  ghost predicate NoBuildOrder(refs: References) {
    !DF.Acyclic(Graph(refs)) || exists n <- refs :: !AllResolve(refs, n)
  }

  /** Take one step off the stack. */
  method TakeStep(
    refs: References, marks: map<string, DF.Mark>, stack: seq<DF.Step<string>>, order: seq<string>)
    returns (error: Option<OrderError>, marks': map<string, DF.Mark>,
             stack': seq<DF.Step<string>>, order': seq<string>)
    requires stack != [] && SearchState(refs, marks, stack, order)
    ensures error.None? ==> SearchState(refs, marks', stack', order')
    ensures error.None? ==> marks.Keys < marks'.Keys || (marks'.Keys == marks.Keys && |stack'| < |stack|)
    ensures error.None? ==> order <= order' && DF.Names(stack) <= DF.Names(stack') + set n <- order'
    ensures error.Some? ==> Justified(refs, error.value) && NoBuildOrder(refs)
  {
    var top := |stack| - 1;
    var step := stack[top];
    assert stack == stack[..top] + [step];
    assert step.name in DF.Names(stack);
    error, marks', stack', order' := None, marks, stack[..top], order;
    if step.Exit? {
      DF.ExitKeepsInvariant(Graph(refs), marks, stack, order);
      marks' := marks[step.name := DF.Done];
      order' := order + [step.name];
      assert marks'.Keys == marks.Keys;
    } else if step.name in marks && marks[step.name] == DF.Done {
      DF.SkipKeepsInvariant(Graph(refs), marks, stack, order);
    } else if step.name in marks {
      DF.OpenOnTopIsACycle(Graph(refs), marks, stack, order);
      DF.RepeatMeansCyclic(Graph(refs), step.path);
      error := Some(Cycle(step.path));
    } else {
      var steps;
      error, steps := PushDependencies(refs, step.name, step.path);
      if error.None? {
        OpeningKeepsInvariant(refs, marks, stack, order);
        marks' := marks[step.name := DF.Open];
        stack' := stack[..top] + [DF.Exit(step.name)] + steps;
        assert DF.Exit(step.name) in stack';
      }
    }
  }

  /** Everything reachable from `root` is finished and appended to the order. */
  method Visit(refs: References, root: string, marks: map<string, DF.Mark>, order: seq<string>)
    returns (error: Option<OrderError>, marks': map<string, DF.Mark>, order': seq<string>)
    requires root in refs && !DF.IsDone(marks, root)
    requires SearchState(refs, marks, [], order)
    ensures error.None? ==> SearchState(refs, marks', [], order') && root in order' && order <= order'
    ensures error.Some? ==> Justified(refs, error.value) && NoBuildOrder(refs)
  {
    error, marks', order' := None, marks, order;
    var stack := [DF.Enter(root, [root])];
    DF.StartKeepsInvariant(Graph(refs), marks, root, order);
    assert root in DF.Names(stack);
    while stack != []
      invariant SearchState(refs, marks', stack, order') && error.None?
      invariant root in order' || root in DF.Names(stack)
      invariant order <= order'
      decreases refs.Keys - marks'.Keys, |stack|
    {
      ghost var seen := marks';
      error, marks', stack, order' := TakeStep(refs, marks', stack, order');
      if error.Some? {
        return;
      }
    }
  }

  /**
   * The declared resolvers in dependency order, or the reason there is none.
   * `names` is the sorted list of declared names; nothing depends on its order.
   */
  method ResolverBuildOrder(refs: References, names: seq<string>) returns (r: OrderResult)
    requires forall n :: n in names <==> n in refs
    ensures r.Ok? <==> DF.Acyclic(Graph(refs)) && forall n <- refs :: AllResolve(refs, n)
    ensures r.Ok? ==> DF.IsBuildOrder(Graph(refs), r.order)
    ensures r.Err? ==> Justified(refs, r.error)
  {
    var marks: map<string, DF.Mark> := map[];
    var order: seq<string> := [];
    for i := 0 to |names|
      invariant SearchState(refs, marks, [], order)
      invariant forall k :: 0 <= k < i ==> names[k] in order
    {
      var root := names[i];
      if root in marks && marks[root] == DF.Done {
        continue;
      }
      var error;
      error, marks, order := Visit(refs, root, marks, order);
      if error.Some? {
        return Err(error.value);
      }
    }
    DF.BuildOrderMeansAcyclic(Graph(refs), order);
    return Ok(order);
  }
}
