/**
 * `DynamicResolver::clip`: which of the names an upstream certificate carries
 * this listener may mirror for one host.
 */
module Clipping {
  import opened Text
  import R = Routing

  /** A certificate scope, compared only for equality. */
  type Scope = nat

  /** One listener: its routes, the scope of each, and what the suffix list and
      the address parser say of a name. */
  datatype Listener = Listener(
    router: R.Router,
    scopes: seq<Scope>,
    mintable: string -> bool,
    isIp: string -> bool)

  predicate InScope(l: Listener, scope: Scope, id: R.RouteId) {
    id < |l.scopes| && l.scopes[id] == scope
  }

  /** The route predicate one clipping decision is made against. */
  function ScopeTest(l: Listener, scope: Scope): R.RouteId -> bool {
    (id: R.RouteId) => InScope(l, scope, id)
  }

  /** Lower case, surrounding whitespace and trailing dots removed. */
  function NormalizeHost(host: string): string {
    Lower(TrimDots(Trim(host)))
  }

  predicate IsWildcard(name: string) {
    |name| >= 2 && name[..2] == "*."
  }

  /** How a TLS client matches names: the name itself, or one non-empty
      label in front of a wildcard's parent (RFC 6125, section 6.4.3). */
  predicate Covers(san: string, host: string) {
    san == host || (IsWildcard(san) && Parent(host) == Some(san[2..]) && host[0] != '.')
  }

  predicate HostCoveredBy(sans: seq<string>, host: string) {
    exists i :: 0 <= i < |sans| && Covers(sans[i], host)
  }

  datatype Reason = OutOfScope | CrossesRegistryBoundary | Unmintable

  datatype Judgement = Keep | Drop(reason: Reason)

  function Judge(l: Listener, scope: Scope, name: string): Judgement {
    if IsWildcard(name) then
      var parent := name[2..];
      if parent == [] || Has(parent, '*') then Drop(Unmintable)
      else if !l.mintable(parent) then Drop(CrossesRegistryBoundary)
      else if R.WildcardConfined(l.router, parent, ScopeTest(l, scope)) then Keep
      else Drop(OutOfScope)
    else if Has(name, '*') || l.isIp(name) then Drop(Unmintable)
    else if R.RoutesInto(l.router, name, ScopeTest(l, scope)) then Keep
    else Drop(OutOfScope)
  }

  datatype MirrorPlan = MirrorPlan(kept: seq<string>, dropped: seq<(string, Reason)>)

  function Sift(l: Listener, scope: Scope, observed: seq<string>): MirrorPlan {
    if observed == [] then MirrorPlan([], [])
    else
      var plan := Sift(l, scope, observed[..|observed| - 1]);
      var name := NormalizeHost(observed[|observed| - 1]);
      if name == [] || name in plan.kept then plan
      else match Judge(l, scope, name)
           case Keep => plan.(kept := plan.kept + [name])
           case Drop(why) => plan.(dropped := plan.dropped + [(name, why)])
  }

  /** What survives, with the requesting host added when nothing kept covers it. */
  function Clip(l: Listener, scope: Scope, host: string, observed: seq<string>): MirrorPlan {
    var plan := Sift(l, scope, observed);
    if HostCoveredBy(plan.kept, host) then plan else plan.(kept := plan.kept + [host])
  }

  method ClipObserved(l: Listener, scope: Scope, sniHost: string, observed: seq<string>)
    returns (plan: MirrorPlan)
    ensures plan == Clip(l, scope, NormalizeHost(sniHost), observed)
  {
    var host := NormalizeHost(sniHost);
    var inScope := ScopeTest(l, scope);
    var kept: seq<string>, dropped: seq<(string, Reason)> := [], [];
    for i := 0 to |observed|
      invariant MirrorPlan(kept, dropped) == Sift(l, scope, observed[..i])
    {
      assert observed[..i + 1][..i] == observed[..i];
      var name := NormalizeHost(observed[i]);
      if name == [] || name in kept {
        continue;
      }
      if IsWildcard(name) {
        var parent := name[2..];
        if parent == [] || Has(parent, '*') {
          dropped := dropped + [(name, Unmintable)];
          continue;
        }
        if !l.mintable(parent) {
          dropped := dropped + [(name, CrossesRegistryBoundary)];
          continue;
        }
        var verdict := R.CheckWildcard(l.router, parent, inScope);
        if verdict.Confined? {
          kept := kept + [name];
        } else {
          dropped := dropped + [(name, OutOfScope)];
        }
      } else {
        if Has(name, '*') || l.isIp(name) {
          dropped := dropped + [(name, Unmintable)];
          continue;
        }
        if R.RoutesInto(l.router, name, inScope) {
          kept := kept + [name];
        } else {
          dropped := dropped + [(name, OutOfScope)];
        }
      }
    }
    assert observed[..|observed|] == observed;
    if !HostCoveredBy(kept, host) {
      kept := kept + [host];
    }
    plan := MirrorPlan(kept, dropped);
  }

  // ---------------------------------------------------------------------
  // What a clipped certificate is worth
  // ---------------------------------------------------------------------

  /** The list covers the host it is served for, and whatever else it covers routes
      into the scope. */
  ghost predicate Safe(l: Listener, scope: Scope, host: string, sans: seq<string>) {
    && HostCoveredBy(sans, host)
    && forall g :: IsHostName(g) && HostCoveredBy(sans, g) ==> R.RoutesInto(l.router, g, ScopeTest(l, scope))
  }

  lemma {:induction false} ParentSplits(host: string, rest: string) returns (first: string)
    requires Parent(host) == Some(rest)
    ensures host == first + ['.'] + rest && !Has(first, '.')
    ensures first == [] <==> host[0] == '.'
  {
    if host[0] == '.' {
      first := [];
    } else {
      var tail := ParentSplits(host[1..], rest);
      first := [host[0]] + tail;
      assert host == [host[0]] + host[1..];
    }
  }

  lemma WildcardCoversOneLabel(name: string, host: string)
    requires IsWildcard(name) && Covers(name, host)
    ensures R.OneLabelAbove(host, name[2..]).Some?
  {
    var parent := name[2..];
    if name == host {
      assert name[0] == '*' && name[1] == '.';
      assert name == ['*'] + ['.'] + parent;
      R.LabelAbove(['*'], parent);
    } else {
      var first := ParentSplits(host, parent);
      R.LabelAbove(first, parent);
    }
  }

  /** A kept name covers nothing that routes out of the scope. */
  lemma KeptNamesAreSafe(l: Listener, scope: Scope, name: string, host: string)
    requires Judge(l, scope, name) == Keep && R.HonestScopes(l.router)
    requires IsHostName(host) && Covers(name, host)
    ensures R.RoutesInto(l.router, host, ScopeTest(l, scope))
  {
    hide R.WildcardConfined, R.RoutesInto, R.HonestScopes, IsHostName;
    if IsWildcard(name) {
      WildcardCoversOneLabel(name, host);
      R.HonestMeansDeclared(l.router, name[2..], ScopeTest(l, scope));
      R.ConfinedWildcardsAreSafe(l.router, name[2..], host, ScopeTest(l, scope));
    }
  }

  /** Exactly the observed names judged fit are kept, each once; every other
      observed name is listed as dropped, with its reason. */
  lemma {:induction false} SiftKeepsExactlyTheFit(l: Listener, scope: Scope, observed: seq<string>, name: string)
    ensures var plan := Sift(l, scope, observed);
      var seen := name != [] && exists i :: 0 <= i < |observed| && NormalizeHost(observed[i]) == name;
      && (name in plan.kept <==> seen && Judge(l, scope, name) == Keep)
      && forall why :: (name, why) in plan.dropped <==> seen && Judge(l, scope, name) == Drop(why)
  {
    hide Judge, NormalizeHost;
    if observed != [] {
      var init, last := observed[..|observed| - 1], NormalizeHost(observed[|observed| - 1]);
      SiftKeepsExactlyTheFit(l, scope, init, name);
      assert observed == init + [observed[|observed| - 1]];
      if last == name && name != [] {
        assert NormalizeHost(observed[|observed| - 1]) == name;
      } else {
        assert forall i :: 0 <= i < |observed| && NormalizeHost(observed[i]) == name && name != [] ==> init[i] == observed[i];
      }
    }
  }

  /**
   * The clipped certificate of a host that routes into the scope is safe: it
   * covers the host, and nothing it covers leaves the scope.
   */
  lemma ClippedCertificatesAreSafe(l: Listener, scope: Scope, host: string, observed: seq<string>)
    requires R.HonestScopes(l.router) && R.RoutesInto(l.router, host, ScopeTest(l, scope))
    requires !IsWildcard(host)
    ensures Safe(l, scope, host, Clip(l, scope, host, observed).kept)
  {
    hide R.RoutesInto, R.HonestScopes, IsHostName, Judge, Covers;
    var plan, kept := Sift(l, scope, observed), Clip(l, scope, host, observed).kept;
    CoversItself(host);
    assert HostCoveredBy(kept, host) by {
      if !HostCoveredBy(plan.kept, host) {
        assert kept[|plan.kept|] == host;
      }
    }
    forall g | IsHostName(g) && HostCoveredBy(kept, g) ensures R.RoutesInto(l.router, g, ScopeTest(l, scope)) {
      var i :| 0 <= i < |kept| && Covers(kept[i], g);
      if i < |plan.kept| {
        assert plan.kept[i] == kept[i] && kept[i] in plan.kept;
        SiftKeepsExactlyTheFit(l, scope, observed, kept[i]);
        KeptNamesAreSafe(l, scope, kept[i], g);
      } else {
        PlainNamesCoverThemselves(host, g);
      }
    }
  }

  lemma CoversItself(host: string)
    ensures Covers(host, host)
  {
  }

  lemma PlainNamesCoverThemselves(san: string, host: string)
    requires !IsWildcard(san) && Covers(san, host)
    ensures san == host
  {
  }

  /** Nothing fit is given up: a kept name stays kept, and the only name the
      upstream did not vouch for is the host itself. */
  lemma ClippingAddsOnlyTheHost(l: Listener, scope: Scope, host: string, observed: seq<string>, name: string)
    ensures var kept := Clip(l, scope, host, observed).kept;
      var fit := name != [] && Judge(l, scope, name) == Keep
        && exists i :: 0 <= i < |observed| && NormalizeHost(observed[i]) == name;
      (fit ==> name in kept) && (name in kept ==> fit || name == host)
  {
    hide Judge, NormalizeHost, HostCoveredBy;
    SiftKeepsExactlyTheFit(l, scope, observed, name);
  }
}
