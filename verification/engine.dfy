/** The two live engine components the v0 format is built from and rebuilt
    into, with exactly the fields the conversions touch.

    Type parameters stand for structures whose internals lie outside this
    layer: `L` a `NetworkFilterList`, `N` a `NetworkFilter`, `R` a
    `RedirectResourceStorage`, `H` a `HostnameRuleDb`, `S` a
    `ScriptletResourceStorage`. Hash sets and hash maps are Dafny sets and
    maps, so iteration order is not part of the state. */
module Engine {

  /** The network-request blocker. `tagsEnabled` is runtime state: it records
      which filter tags are switched on and is never persisted. */
  datatype Blocker<L, N, R> = Blocker(
    csp: L,
    exceptions: L,
    importants: L,
    redirects: L,
    filtersTagged: L,
    filters: L,
    genericHide: L,
    tagsEnabled: set<string>,
    taggedFiltersAll: seq<N>,
    enableOptimizations: bool,
    resources: R)

  /** The cosmetic (element hiding) filter cache. */
  datatype CosmeticFilterCache<H, S> = CosmeticFilterCache(
    simpleClassRules: set<string>,
    simpleIdRules: set<string>,
    complexClassRules: map<string, seq<string>>,
    complexIdRules: map<string, seq<string>>,
    specificRules: H,
    miscGenericSelectors: set<string>,
    scriptlets: S)

  /** `Default::default()` for the tag set: no tag enabled. */
  const NoTags: set<string> := {}

  /** The blocker with its runtime-only state reset; every persisted field
      kept. */
  function WithDefaultRuntime<L, N, R>(b: Blocker<L, N, R>): (d: Blocker<L, N, R>)
    ensures d.tagsEnabled == NoTags
    ensures d.(tagsEnabled := b.tagsEnabled) == b
    ensures d == b <==> b.tagsEnabled == NoTags
  {
    b.(tagsEnabled := NoTags)
  }
}
