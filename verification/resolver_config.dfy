/** The edges of the resolver graph, read off the configuration. */
module ResolverConfig {
  import opened Collections
  import opened Text
  import BO = BuildOrder

  /** One `[resolvers.<name>]` table, reduced to the fields that carry edges.
      `ech` is `Some` when the table has an `[ech]` block. */
  datatype ResolverDef = ResolverDef(bootstrap: Option<string>, ech: Option<Option<string>>)

  type Config = map<string, ResolverDef>

  // ---------------------------------------------------------------------
  // Edges
  // ---------------------------------------------------------------------

  predicate IsResolverRef(spec: string) {
    var t := Trim(spec);
    t != [] && t[0] == '@'
  }

  function Named(spec: Option<string>): seq<string> {
    if spec.Some? && IsResolverRef(spec.value) then [spec.value] else []
  }

  /** The named references of a definition: the bootstrap, and the resolver
      that looks up its ECH config. Inline specs are leaves of the graph. */
  function References(def: ResolverDef): seq<string> {
    Named(def.bootstrap) + Named(if def.ech.Some? then def.ech.value else None)
  }

  /** The references, sorted and without repetition. */
  function Edges(def: ResolverDef): seq<string> {
    SortDedup(References(def))
  }

  /** A definition has at most two references, so one comparison sorts them. */
  function SortDedup(refs: seq<string>): seq<string> {
    if |refs| != 2 then refs
    else if refs[0] == refs[1] then [refs[0]]
    else if StringLe(refs[0], refs[1]) then refs
    else [refs[1], refs[0]]
  }

  /** Sorting and removing repetitions loses no reference and invents none. */
  lemma SortDedupSorts(refs: seq<string>)
    requires |refs| <= 2
    ensures forall e :: e in SortDedup(refs) <==> e in refs
    ensures NoDuplicates(SortDedup(refs))
    ensures forall i :: 0 < i < |SortDedup(refs)| ==> StringLe(SortDedup(refs)[i - 1], SortDedup(refs)[i])
  {
    if |refs| == 2 {
      StringLeTotal(refs[0], refs[1]);
      assert refs == [refs[0], refs[1]];
    }
  }

  lemma {:induction false} StringLeTotal(a: string, b: string)
    ensures StringLe(a, b) || StringLe(b, a)
  {
    if a != [] && b != [] && a[0] == b[0] {
      StringLeTotal(a[1..], b[1..]);
    }
  }

  function ReferencesOf(cfg: Config): BO.References {
    map n <- cfg :: Edges(cfg[n])
  }
}
