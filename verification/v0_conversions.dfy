/** The two `From` conversions between the live engine components and the
    v0 record. */
module V0Conversions {
  import opened Engine
  import opened V0Schema

  /** An engine field, named by the record slot it is persisted in. */
  function EngineField<L, N, R, H, S>(b: Blocker<L, N, R>, c: CosmeticFilterCache<H, S>, name: FieldName): (v: FieldValue<L, N, R, H, S>)
    ensures Fits(v, name)
  {
    match name
    case Csp => FilterListValue(b.csp)
    case Exceptions => FilterListValue(b.exceptions)
    case Importants => FilterListValue(b.importants)
    case Redirects => FilterListValue(b.redirects)
    case FiltersTagged => FilterListValue(b.filtersTagged)
    case Filters => FilterListValue(b.filters)
    case GenericHide => FilterListValue(b.genericHide)
    case TaggedFiltersAll => FilterVecValue(b.taggedFiltersAll)
    case EnableOptimizations => BoolValue(b.enableOptimizations)
    case Resources => RedirectValue(b.resources)
    case SimpleClassRules => StringSetValue(c.simpleClassRules)
    case SimpleIdRules => StringSetValue(c.simpleIdRules)
    case ComplexClassRules => SelectorMapValue(c.complexClassRules)
    case ComplexIdRules => SelectorMapValue(c.complexIdRules)
    case SpecificRules => HostnameValue(c.specificRules)
    case MiscGenericSelectors => StringSetValue(c.miscGenericSelectors)
    case Scriptlets => ScriptletValue(c.scriptlets)
  }

  /** `SerializeFormat::from((&blocker, &cfc))`: each persisted engine field
      goes into the record slot of the same name. */
  function ToFormat<L, N, R, H, S>(b: Blocker<L, N, R>, c: CosmeticFilterCache<H, S>): (f: Format<L, N, R, H, S>)
    ensures forall name :: Get(f, name) == EngineField(b, c, name)
  {
    Format(
      b.csp, b.exceptions, b.importants, b.redirects, b.filtersTagged, b.filters, b.genericHide,
      b.taggedFiltersAll,
      b.enableOptimizations,
      b.resources,
      c.simpleClassRules, c.simpleIdRules, c.complexClassRules, c.complexIdRules,
      c.specificRules,
      c.miscGenericSelectors,
      c.scriptlets)
  }

  /** `<(Blocker, CosmeticFilterCache)>::from(format)`: each record slot goes
      to the engine field of the same name, and the runtime tag set starts
      empty. */
  function FromFormat<L, N, R, H, S>(f: Format<L, N, R, H, S>): (e: (Blocker<L, N, R>, CosmeticFilterCache<H, S>))
    ensures forall name :: EngineField(e.0, e.1, name) == Get(f, name)
    ensures e.0.tagsEnabled == NoTags
  {
    (Blocker(
       f.csp, f.exceptions, f.importants, f.redirects, f.filtersTagged, f.filters, f.genericHide,
       NoTags,
       f.taggedFiltersAll,
       f.enableOptimizations,
       f.resources),
     CosmeticFilterCache(
       f.simpleClassRules, f.simpleIdRules, f.complexClassRules, f.complexIdRules,
       f.specificRules,
       f.miscGenericSelectors,
       f.scriptlets))
  }

  /** Engine to record and back keeps every persisted field and resets the
      tag set, and nothing else. */
  lemma EngineFormatEngine<L, N, R, H, S>(b: Blocker<L, N, R>, c: CosmeticFilterCache<H, S>)
    ensures FromFormat(ToFormat(b, c)) == (WithDefaultRuntime(b), c)
    ensures FromFormat(ToFormat(b, c)) == (b, c) <==> b.tagsEnabled == NoTags
  {
  }

  /** Record to engine and back is the identity: no persisted field is lost
      or moved. */
  lemma FormatEngineFormat<L, N, R, H, S>(f: Format<L, N, R, H, S>)
    ensures ToFormat(FromFormat(f).0, FromFormat(f).1) == f
  {
  }

  /** Two engine states give the same record exactly when they agree on
      every persisted field: the tag set is the only thing not persisted. */
  lemma ToFormatForgetsOnlyTags<L, N, R, H, S>(b1: Blocker<L, N, R>, c1: CosmeticFilterCache<H, S>, b2: Blocker<L, N, R>, c2: CosmeticFilterCache<H, S>)
    ensures ToFormat(b1, c1) == ToFormat(b2, c2) <==> WithDefaultRuntime(b1) == WithDefaultRuntime(b2) && c1 == c2
  {
  }
}
