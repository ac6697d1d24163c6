/**
 * The SNI router, and the check that a wildcard certificate stays within one
 * certificate scope: `match_host`, `wildcard_confined` and `name_confined`.
 */
module Routing {
  import opened Text

  type RouteId = nat

  /** A named regex with the scope suffixes its definition declares. */
  datatype RegexRoute = RegexRoute(matches: string -> bool, route: RouteId, scopes: seq<string>)

  datatype Router = Router(
    exact: map<string, RouteId>,
    wildcard: map<string, RouteId>,
    suffix: map<string, RouteId>,
    regex: seq<RegexRoute>,
    default: Option<RouteId>)

  /** Lower case, no port (outside brackets), no trailing dot. */
  function Normalize(host: string): string {
    var h := Trim(host);
    var h' := if h != [] && h[0] == '[' then h else Before(h, ':');
    Lower(TrimDots(h'))
  }

  /** The entry for the domain itself or its nearest listed ancestor. */
  function SuffixMatch(suffix: map<string, RouteId>, cur: string): Option<RouteId>
    decreases |cur|
  {
    if cur in suffix then Some(suffix[cur])
    else match Parent(cur)
         case Some(rest) => SuffixMatch(suffix, rest)
         case None => None
  }

  function RegexMatch(regex: seq<RegexRoute>, host: string): Option<RouteId> {
    if regex == [] then None
    else if regex[0].matches(host) then Some(regex[0].route)
    else RegexMatch(regex[1..], host)
  }

  /** Exact, wildcard, suffix, regex, default: the first tier that claims the host. */
  function MatchHost(r: Router, host: string): Option<RouteId> {
    var h := Normalize(host);
    if h == [] then r.default
    else if h in r.exact then Some(r.exact[h])
    else if Parent(h).Some? && Parent(h).value in r.wildcard then Some(r.wildcard[Parent(h).value])
    else if SuffixMatch(r.suffix, h).Some? then SuffixMatch(r.suffix, h)
    else if RegexMatch(r.regex, h).Some? then RegexMatch(r.regex, h)
    else r.default
  }

  /** What `key` adds to `parent`, when that is exactly one label. */
  function OneLabelAbove(key: string, parent: string): Option<string> {
    if EndsWith(key, ['.'] + parent) && IsLabel(key[..|key| - |parent| - 1])
    then Some(key[..|key| - |parent| - 1])
    else None
  }

  /** Whether a regex declaring `scope` could match a host that `*.parent` covers. */
  predicate ScopeOverlaps(scope: string, parent: string) {
    if |scope| >= 2 && scope[..2] == "*." then parent == scope[2..]
    else if |scope| >= 1 && scope[0] == '.' then
      parent == scope[1..] || EndsWith(parent, ['.'] + scope[1..]) || OneLabelAbove(scope[1..], parent).Some?
    else OneLabelAbove(scope, parent).Some?
  }

  datatype Escape =
    | Host(host: string, route: RouteId)
    | RegexTier(route: RouteId)
    | DefaultRoute(route: RouteId)
    | Unmatched

  datatype Verdict = Confined | Escapes(why: Escape)

  predicate RoutesInto(r: Router, host: string, inScope: RouteId -> bool) {
    match MatchHost(r, host)
    case Some(id) => inScope(id)
    case None => false
  }

  /** The hosts named outright that the wildcard would cover. */
  function NamedAbove(r: Router, parent: string): set<string> {
    set k <- r.exact.Keys + r.suffix.Keys | OneLabelAbove(k, parent).Some?
  }

  /** Some regex route outside the scope declares a scope the wildcard reaches. */
  predicate RegexReaches(x: RegexRoute, parent: string, inScope: RouteId -> bool) {
    !inScope(x.route) && exists s <- x.scopes :: ScopeOverlaps(s, parent)
  }

  /** The verdict shared by every covered host that is not named outright. */
  predicate OthersConfined(r: Router, parent: string, inScope: RouteId -> bool) {
    if parent in r.wildcard then inScope(r.wildcard[parent])
    else match SuffixMatch(r.suffix, parent)
         case Some(id) => inScope(id)
         case None =>
           && r.default.Some? && inScope(r.default.value)
           && forall i :: 0 <= i < |r.regex| ==> !RegexReaches(r.regex[i], parent, inScope)
  }

  predicate WildcardConfined(r: Router, parent: string, inScope: RouteId -> bool) {
    var p := Normalize(parent);
    && (forall k <- NamedAbove(r, p) :: RoutesInto(r, k, inScope))
    && OthersConfined(r, p, inScope)
  }

  /** Walk the named hosts, then settle the rest; the first escape found is reported. */
  method CheckWildcard(r: Router, parent: string, inScope: RouteId -> bool) returns (v: Verdict)
    ensures v.Confined? <==> WildcardConfined(r, parent, inScope)
  {
    var p := Normalize(parent);
    var named := NamedAbove(r, p);
    while named != {}
      invariant named <= NamedAbove(r, p)
      invariant forall k <- NamedAbove(r, p) - named :: RoutesInto(r, k, inScope)
      decreases |named|
    {
      var host :| host in named;
      match MatchHost(r, host) {
        case Some(id) =>
          if !inScope(id) {
            return Escapes(Host(host, id));
          }
        case None => return Escapes(Unmatched);
      }
      named := named - {host};
    }
    if p in r.wildcard {
      var id := r.wildcard[p];
      return if inScope(id) then Confined else Escapes(Host("*." + p, id));
    }
    var cur := p;
    var walking := true;
    while walking
      invariant SuffixMatch(r.suffix, p) == if walking then SuffixMatch(r.suffix, cur) else None
      decreases walking, |cur|
    {
      if cur in r.suffix {
        var id := r.suffix[cur];
        return if inScope(id) then Confined else Escapes(Host(['.'] + cur, id));
      }
      match Parent(cur) {
        case Some(rest) => cur := rest;
        case None => walking := false;
      }
    }
    match r.default {
      case None => return Escapes(Unmatched);
      case Some(id) =>
        if !inScope(id) {
          return Escapes(DefaultRoute(id));
        }
    }
    for i := 0 to |r.regex|
      invariant forall k :: 0 <= k < i ==> !RegexReaches(r.regex[k], p, inScope)
    {
      if !inScope(r.regex[i].route) && exists s <- r.regex[i].scopes :: ScopeOverlaps(s, p) {
        return Escapes(RegexTier(r.regex[i].route));
      }
    }
    return Confined;
  }

  // ---------------------------------------------------------------------
  // What the verdict is worth
  // ---------------------------------------------------------------------

  /** The hosts a scope declaration speaks of. */
  predicate ScopeCovers(scope: string, host: string) {
    if |scope| >= 2 && scope[..2] == "*." then OneLabelAbove(host, scope[2..]).Some?
    else if |scope| >= 1 && scope[0] == '.' then host == scope[1..] || EndsWith(host, ['.'] + scope[1..])
    else host == scope
  }

  /** A host that the wildcard `*.parent` covers. */
  predicate Covered(parent: string, host: string) {
    IsHostName(host) && OneLabelAbove(host, parent).Some?
  }

  /** A regex that matches some host the wildcard covers declares a scope that
      overlaps the wildcard. Nothing enforces this at run time. */
  ghost predicate Declared(x: RegexRoute, parent: string) {
    (exists h :: Covered(parent, h) && x.matches(h)) ==> exists s <- x.scopes :: ScopeOverlaps(s, parent)
  }

  /** Every regex out of the scope is declared at the wildcard. */
  ghost predicate AllDeclared(regex: seq<RegexRoute>, parent: string, inScope: RouteId -> bool) {
    forall i :: 0 <= i < |regex| && !inScope(regex[i].route) ==> Declared(regex[i], parent)
  }

  /** Every regex is declared at every wildcard: what declaring scopes promises. */
  ghost predicate HonestScopes(r: Router) {
    forall i, parent :: 0 <= i < |r.regex| ==> Declared(r.regex[i], parent)
  }

  lemma HonestMeansDeclared(r: Router, parent: string, inScope: RouteId -> bool)
    requires HonestScopes(r)
    ensures AllDeclared(r.regex, parent, inScope)
  {
  }

  lemma NormalHost(host: string)
    requires IsHostName(host)
    ensures Normalize(host) == host
  {
    HostNamesAreNormal(host);
  }

  lemma LabelAbove(first: string, parent: string)
    requires IsLabel(first)
    ensures OneLabelAbove(first + ['.'] + parent, parent) == Some(first)
  {
    var h := first + ['.'] + parent;
    assert h[|h| - |parent| - 1..] == ['.'] + parent;
    assert h[..|h| - |parent| - 1] == first;
  }

  lemma LabelBelow(key: string, parent: string)
    requires OneLabelAbove(key, parent).Some?
    ensures key == OneLabelAbove(key, parent).value + ['.'] + parent
    ensures IsLabel(OneLabelAbove(key, parent).value) && Parent(key) == Some(parent)
  {
  }

  /** A host one label above `parent` under `.d` puts `d` at, above or one label
      below `parent`. */
  lemma SuffixesOfOneHost(first: string, parent: string, d: string)
    requires IsLabel(first) && EndsWith(first + ['.'] + parent, ['.'] + d)
    ensures d == parent || EndsWith(parent, ['.'] + d)
  {
    var h := first + ['.'] + parent;
    var at := |h| - |d| - 1;
    assert h[at..] == ['.'] + d;
    assert h[at] == '.' by { assert h[at..][0] == '.'; }
    assert at >= |first| by {
      assert forall i :: 0 <= i < |first| ==> h[i] == first[i] && first[i] != '.';
    }
    if at == |first| {
      assert h[at + 1..] == parent && h[at..][1..] == h[at + 1..];
    } else {
      assert h[at..] == parent[at - |first| - 1..];
    }
  }

  /** The overlap test is exact: it holds just when one host lies both under
      the wildcard and in the declared scope. */
  lemma OverlapIsExact(scope: string, parent: string)
    ensures ScopeOverlaps(scope, parent)
       <==> exists first :: IsLabel(first) && ScopeCovers(scope, first + ['.'] + parent)
  {
    if first :| IsLabel(first) && ScopeCovers(scope, first + ['.'] + parent) {
      CoveredMeansOverlap(scope, parent, first);
    }
    if ScopeOverlaps(scope, parent) {
      var first := OverlapWitness(scope, parent);
    }
  }

  lemma CoveredMeansOverlap(scope: string, parent: string, first: string)
    requires IsLabel(first) && ScopeCovers(scope, first + ['.'] + parent)
    ensures ScopeOverlaps(scope, parent)
  {
    var h := first + ['.'] + parent;
    LabelAbove(first, parent);
    if |scope| >= 2 && scope[..2] == "*." {
      LabelBelow(h, scope[2..]);
      LabelBelow(h, parent);
    } else if |scope| >= 1 && scope[0] == '.' && EndsWith(h, ['.'] + scope[1..]) {
      SuffixesOfOneHost(first, parent, scope[1..]);
    }
  }

  lemma OverlapWitness(scope: string, parent: string) returns (first: string)
    requires ScopeOverlaps(scope, parent)
    ensures IsLabel(first) && ScopeCovers(scope, first + ['.'] + parent)
  {
    first := ['a'];
    var d := if |scope| >= 2 && scope[..2] == "*." then scope[2..]
             else if |scope| >= 1 && scope[0] == '.' then scope[1..] else scope;
    var h := first + ['.'] + parent;
    if OneLabelAbove(d, parent).Some? && !(|scope| >= 2 && scope[..2] == "*.") {
      LabelBelow(d, parent);
      first := OneLabelAbove(d, parent).value;
    } else if parent == d {
      LabelAbove(first, parent);
      assert h[|h| - |d| - 1..] == ['.'] + d;
    } else {
      var n := |d| + 1;
      assert h[|h| - n..] == parent[|parent| - n..];
    }
  }

  /** Truthful scopes, which cover each host the regex matches, are declared. */
  lemma CoveringScopesAreDeclared(x: RegexRoute, parent: string)
    requires forall h :: IsHostName(h) && x.matches(h) ==> exists s <- x.scopes :: ScopeCovers(s, h)
    ensures Declared(x, parent)
  {
    if h :| Covered(parent, h) && x.matches(h) {
      var s :| s in x.scopes && ScopeCovers(s, h);
      LabelBelow(h, parent);
      CoveredMeansOverlap(s, parent, OneLabelAbove(h, parent).value);
    }
  }

  lemma {:induction false} RegexTierStaysInside(
    regex: seq<RegexRoute>, parent: string, host: string, inScope: RouteId -> bool)
    requires Covered(parent, host) && AllDeclared(regex, parent, inScope)
    requires forall i :: 0 <= i < |regex| ==> !RegexReaches(regex[i], parent, inScope)
    ensures match RegexMatch(regex, host) case Some(id) => inScope(id) case None => true
  {
    hide Covered, ScopeOverlaps;
    if regex != [] {
      if regex[0].matches(host) {
        assert !inScope(regex[0].route) ==> Declared(regex[0], parent);
      } else {
        assert forall i :: 0 <= i < |regex[1..]| ==> regex[1..][i] == regex[i + 1];
        RegexTierStaysInside(regex[1..], parent, host, inScope);
      }
    }
  }

  /**
   * A confined wildcard is safe: every host it covers, named outright or not,
   * routes into the scope, if the regexes out of the scope are declared at it.
   */
  lemma ConfinedWildcardsAreSafe(r: Router, parent: string, host: string, inScope: RouteId -> bool)
    requires WildcardConfined(r, parent, inScope) && AllDeclared(r.regex, parent, inScope)
    requires Covered(parent, host)
    ensures RoutesInto(r, host, inScope)
  {
    LabelBelow(host, parent);
    ParentIsHostName(host, parent);
    NormalHost(host);
    NormalHost(parent);
    RegexesStayInside(r.regex, parent, host, inScope);
    hide Normalize, IsHostName, OneLabelAbove, Parent, AllDeclared, RegexMatch, SuffixMatch, OthersConfined;
    if host in r.exact || host in r.suffix {
      assert host in NamedAbove(r, parent);
    } else {
      hide NamedAbove;
      OthersFollowTheVerdict(r, parent, host, inScope);
    }
  }

  lemma RegexesStayInside(regex: seq<RegexRoute>, parent: string, host: string, inScope: RouteId -> bool)
    requires AllDeclared(regex, parent, inScope) && Covered(parent, host)
    ensures (forall i :: 0 <= i < |regex| ==> !RegexReaches(regex[i], parent, inScope)) ==>
              match RegexMatch(regex, host) case Some(id) => inScope(id) case None => true
  {
  }

  lemma ParentIsHostName(host: string, parent: string)
    requires IsHostName(host) && OneLabelAbove(host, parent).Some?
    ensures IsHostName(parent)
  {
    LabelBelow(host, parent);
    assert forall i :: 0 <= i < |parent| ==> parent[i] == host[|host| - |parent| + i];
  }

  lemma OthersFollowTheVerdict(r: Router, parent: string, host: string, inScope: RouteId -> bool)
    requires Parent(host) == Some(parent) && host != [] && host !in r.exact && host !in r.suffix
    requires OthersConfined(r, parent, inScope) && Normalize(host) == host
    requires (forall i :: 0 <= i < |r.regex| ==> !RegexReaches(r.regex[i], parent, inScope)) ==>
               match RegexMatch(r.regex, host) case Some(id) => inScope(id) case None => true
    ensures RoutesInto(r, host, inScope)
  {
  }

  ghost predicate KeysAreHostNames(r: Router) {
    forall k <- r.exact.Keys + r.suffix.Keys :: IsHostName(k)
  }

  lemma {:induction false} LongerThanAll(keys: set<string>) returns (n: nat)
    ensures forall k <- keys :: |k| < n
  {
    if keys == {} {
      n := 0;
    } else {
      var k :| k in keys;
      n := LongerThanAll(keys - {k});
      n := if |k| < n then n else |k| + 1;
    }
  }

  /**
   * Without regexes the verdict is exact: a wildcard is refused only when some
   * host it covers really routes out of the scope or nowhere.
   */
  lemma RefusedWildcardsAreUnsafe(r: Router, parent: string, inScope: RouteId -> bool)
    requires r.regex == [] && KeysAreHostNames(r) && IsHostName(parent)
    requires forall h :: IsHostName(h) && OneLabelAbove(h, parent).Some? ==> RoutesInto(r, h, inScope)
    ensures WildcardConfined(r, parent, inScope)
  {
    NormalHost(parent);
    var n := LongerThanAll(r.exact.Keys + r.suffix.Keys);
    var first := seq(n + 1, i => 'a');
    var h := first + ['.'] + parent;
    LabelAbove(first, parent);
    assert IsHostName(h);
    NormalHost(h);
    LabelBelow(h, parent);
    assert h !in r.exact && h !in r.suffix;
    assert RoutesInto(r, h, inScope);
  }

  /** A router of one regex and a default route. */
  function RegexOrDefault(x: RegexRoute, inside: RouteId): Router {
    Router(map[], map[], map[], [x], Some(inside))
  }

  /** With undeclared scopes the verdict can be wrong: a regex that matches a host
      the wildcard covers, but declares only scopes elsewhere, takes it away. */
  lemma DishonestScopesEscape(
    x: RegexRoute, parent: string, host: string, inside: RouteId, inScope: RouteId -> bool)
    requires Covered(parent, host) && x.matches(host) && !inScope(x.route) && inScope(inside)
    requires forall s <- x.scopes :: !ScopeOverlaps(s, parent)
    ensures WildcardConfined(RegexOrDefault(x, inside), parent, inScope)
    ensures !RoutesInto(RegexOrDefault(x, inside), host, inScope)
  {
    ParentIsHostName(host, parent);
    NormalHost(host);
    NormalHost(parent);
    SuffixOfNothing(parent);
    SuffixOfNothing(host);
    hide Normalize, IsHostName, OneLabelAbove, Parent, SuffixMatch, ScopeOverlaps;
    var r := RegexOrDefault(x, inside);
    assert RegexMatch(r.regex, host) == Some(x.route);
    assert NamedAbove(r, parent) == {};
  }

  /** Whatever else is routed, a confined wildcard is safe beside this regex. */
  ghost predicate AlwaysSafe(x: RegexRoute, parent: string, inScope: RouteId -> bool) {
    forall r: Router, h :: r.regex == [x] && WildcardConfined(r, parent, inScope) && Covered(parent, h) ==>
      RoutesInto(r, h, inScope)
  }

  /**
   * Exactly when the verdict can be trusted beside a regex of another scope: every
   * router with that regex which confines the wildcard keeps each host it covers in
   * the scope if and only if the regex is declared at the wildcard.
   */
  lemma TrustedExactlyWhenDeclared(x: RegexRoute, parent: string, inside: RouteId, inScope: RouteId -> bool)
    requires !inScope(x.route) && inScope(inside)
    ensures AlwaysSafe(x, parent, inScope) <==> Declared(x, parent)
  {
    hide WildcardConfined, RoutesInto, Covered, ScopeOverlaps, RegexOrDefault;
    if Declared(x, parent) {
      forall r: Router, h | r.regex == [x] && WildcardConfined(r, parent, inScope) && Covered(parent, h)
        ensures RoutesInto(r, h, inScope)
      {
        ConfinedWildcardsAreSafe(r, parent, h, inScope);
      }
    } else {
      var h :| Covered(parent, h) && x.matches(h);
      DishonestScopesEscape(x, parent, h, inside, inScope);
      OneRegex(x, inside);
    }
  }

  lemma OneRegex(x: RegexRoute, inside: RouteId)
    ensures RegexOrDefault(x, inside).regex == [x]
  {
  }

  lemma {:induction false} SuffixOfNothing(host: string)
    ensures SuffixMatch(map[], host) == None
    decreases |host|
  {
    match Parent(host) {
      case Some(rest) => SuffixOfNothing(rest);
      case None =>
    }
  }
}
