/** The v0 record: its seventeen fields, their canonical (wire) order, and
    the positional view the payload codec works on.

    `SerializeFormat` (borrowing) and `DeserializeFormat` (owning) declare the
    same fields in the same order; without a borrow/own distinction both are
    the one `Format` datatype below. New fields may only be appended, because
    the payload is a positional array of the fields in this order. */
module V0Schema {
  import opened Errors

  datatype Format<L, N, R, H, S> = Format(
    csp: L,
    exceptions: L,
    importants: L,
    redirects: L,
    filtersTagged: L,
    filters: L,
    genericHide: L,
    taggedFiltersAll: seq<N>,
    enableOptimizations: bool,
    resources: R,
    simpleClassRules: set<string>,
    simpleIdRules: set<string>,
    complexClassRules: map<string, seq<string>>,
    complexIdRules: map<string, seq<string>>,
    specificRules: H,
    miscGenericSelectors: set<string>,
    scriptlets: S)

  datatype FieldName =
    | Csp | Exceptions | Importants | Redirects | FiltersTagged | Filters | GenericHide
    | TaggedFiltersAll
    | EnableOptimizations
    | Resources
    | SimpleClassRules | SimpleIdRules | ComplexClassRules | ComplexIdRules
    | SpecificRules
    | MiscGenericSelectors
    | Scriptlets

  /** The canonical field order: the binary schema of version 0. */
  const Schema: seq<FieldName> := [
    Csp, Exceptions, Importants, Redirects, FiltersTagged, Filters, GenericHide,
    TaggedFiltersAll,
    EnableOptimizations,
    Resources,
    SimpleClassRules, SimpleIdRules, ComplexClassRules, ComplexIdRules,
    SpecificRules,
    MiscGenericSelectors,
    Scriptlets]

  /** The slot a field occupies in the record. */
  function Position(name: FieldName): (i: nat)
    ensures i < |Schema| && Schema[i] == name
  {
    match name
    case Csp => 0
    case Exceptions => 1
    case Importants => 2
    case Redirects => 3
    case FiltersTagged => 4
    case Filters => 5
    case GenericHide => 6
    case TaggedFiltersAll => 7
    case EnableOptimizations => 8
    case Resources => 9
    case SimpleClassRules => 10
    case SimpleIdRules => 11
    case ComplexClassRules => 12
    case ComplexIdRules => 13
    case SpecificRules => 14
    case MiscGenericSelectors => 15
    case Scriptlets => 16
  }

  /** One element of the record as the codec sees it. */
  datatype FieldValue<L, N, R, H, S> =
    | FilterListValue(list: L)
    | FilterVecValue(filters: seq<N>)
    | BoolValue(flag: bool)
    | RedirectValue(redirectStore: R)
    | StringSetValue(strings: set<string>)
    | SelectorMapValue(selectors: map<string, seq<string>>)
    | HostnameValue(hostnameDb: H)
    | ScriptletValue(scriptletStore: S)

  /** The value shape each field declares. */
  predicate Fits<L, N, R, H, S>(v: FieldValue<L, N, R, H, S>, name: FieldName) {
    match name
    case Csp | Exceptions | Importants | Redirects | FiltersTagged | Filters | GenericHide =>
      v.FilterListValue?
    case TaggedFiltersAll => v.FilterVecValue?
    case EnableOptimizations => v.BoolValue?
    case Resources => v.RedirectValue?
    case SimpleClassRules | SimpleIdRules | MiscGenericSelectors => v.StringSetValue?
    case ComplexClassRules | ComplexIdRules => v.SelectorMapValue?
    case SpecificRules => v.HostnameValue?
    case Scriptlets => v.ScriptletValue?
  }

  /** A field of the record, looked up by name. */
  function Get<L, N, R, H, S>(f: Format<L, N, R, H, S>, name: FieldName): (v: FieldValue<L, N, R, H, S>)
    ensures Fits(v, name)
  {
    match name
    case Csp => FilterListValue(f.csp)
    case Exceptions => FilterListValue(f.exceptions)
    case Importants => FilterListValue(f.importants)
    case Redirects => FilterListValue(f.redirects)
    case FiltersTagged => FilterListValue(f.filtersTagged)
    case Filters => FilterListValue(f.filters)
    case GenericHide => FilterListValue(f.genericHide)
    case TaggedFiltersAll => FilterVecValue(f.taggedFiltersAll)
    case EnableOptimizations => BoolValue(f.enableOptimizations)
    case Resources => RedirectValue(f.resources)
    case SimpleClassRules => StringSetValue(f.simpleClassRules)
    case SimpleIdRules => StringSetValue(f.simpleIdRules)
    case ComplexClassRules => SelectorMapValue(f.complexClassRules)
    case ComplexIdRules => SelectorMapValue(f.complexIdRules)
    case SpecificRules => HostnameValue(f.specificRules)
    case MiscGenericSelectors => StringSetValue(f.miscGenericSelectors)
    case Scriptlets => ScriptletValue(f.scriptlets)
  }

  /** The record as the ordered element sequence the serializer writes:
      struct fields in declaration order. */
  function Fields<L, N, R, H, S>(f: Format<L, N, R, H, S>): (vs: seq<FieldValue<L, N, R, H, S>>)
    ensures |vs| == |Schema|
  {
    [FilterListValue(f.csp), FilterListValue(f.exceptions), FilterListValue(f.importants),
     FilterListValue(f.redirects), FilterListValue(f.filtersTagged), FilterListValue(f.filters),
     FilterListValue(f.genericHide),
     FilterVecValue(f.taggedFiltersAll),
     BoolValue(f.enableOptimizations),
     RedirectValue(f.resources),
     StringSetValue(f.simpleClassRules), StringSetValue(f.simpleIdRules),
     SelectorMapValue(f.complexClassRules), SelectorMapValue(f.complexIdRules),
     HostnameValue(f.specificRules),
     StringSetValue(f.miscGenericSelectors),
     ScriptletValue(f.scriptlets)]
  }

  /** The error the derived visitor reports for slot `i`: the record ended
      before it (serde's `invalid_length`, carrying how many elements there
      were) or the element there has another shape. */
  function SlotError<L, N, R, H, S>(vs: seq<FieldValue<L, N, R, H, S>>, i: nat): DeserializationError {
    if |vs| <= i then DecodeError(MissingField(|vs|)) else DecodeError(WrongType(i))
  }

  // The visitor's step for one field, one function per value shape: the
  // payload of the element in slot `i`, if it is present and has that shape.

  function ListAt<L, N, R, H, S>(vs: seq<FieldValue<L, N, R, H, S>>, i: nat): Result<L, DeserializationError> {
    if i < |vs| && vs[i].FilterListValue? then Success(vs[i].list) else Failure(SlotError(vs, i))
  }

  function FilterVecAt<L, N, R, H, S>(vs: seq<FieldValue<L, N, R, H, S>>, i: nat): Result<seq<N>, DeserializationError> {
    if i < |vs| && vs[i].FilterVecValue? then Success(vs[i].filters) else Failure(SlotError(vs, i))
  }

  function BoolAt<L, N, R, H, S>(vs: seq<FieldValue<L, N, R, H, S>>, i: nat): Result<bool, DeserializationError> {
    if i < |vs| && vs[i].BoolValue? then Success(vs[i].flag) else Failure(SlotError(vs, i))
  }

  function RedirectsAt<L, N, R, H, S>(vs: seq<FieldValue<L, N, R, H, S>>, i: nat): Result<R, DeserializationError> {
    if i < |vs| && vs[i].RedirectValue? then Success(vs[i].redirectStore) else Failure(SlotError(vs, i))
  }

  function StringSetAt<L, N, R, H, S>(vs: seq<FieldValue<L, N, R, H, S>>, i: nat): Result<set<string>, DeserializationError> {
    if i < |vs| && vs[i].StringSetValue? then Success(vs[i].strings) else Failure(SlotError(vs, i))
  }

  function SelectorMapAt<L, N, R, H, S>(vs: seq<FieldValue<L, N, R, H, S>>, i: nat): Result<map<string, seq<string>>, DeserializationError> {
    if i < |vs| && vs[i].SelectorMapValue? then Success(vs[i].selectors) else Failure(SlotError(vs, i))
  }

  function HostnameDbAt<L, N, R, H, S>(vs: seq<FieldValue<L, N, R, H, S>>, i: nat): Result<H, DeserializationError> {
    if i < |vs| && vs[i].HostnameValue? then Success(vs[i].hostnameDb) else Failure(SlotError(vs, i))
  }

  function ScriptletsAt<L, N, R, H, S>(vs: seq<FieldValue<L, N, R, H, S>>, i: nat): Result<S, DeserializationError> {
    if i < |vs| && vs[i].ScriptletValue? then Success(vs[i].scriptletStore) else Failure(SlotError(vs, i))
  }

  /** The derived positional deserializer of `DeserializeFormat`: visits the
      fields in declaration order, slot 0 to slot 16 of `Schema`, and stops at the first element that is
      missing or of the wrong shape. Elements after the seventeenth are not
      visited. */
  function FromFields<L, N, R, H, S>(vs: seq<FieldValue<L, N, R, H, S>>): (r: Result<Format<L, N, R, H, S>, DeserializationError>)
  {
    var csp :- ListAt(vs, 0);
    var exceptions :- ListAt(vs, 1);
    var importants :- ListAt(vs, 2);
    var redirects :- ListAt(vs, 3);
    var filtersTagged :- ListAt(vs, 4);
    var filters :- ListAt(vs, 5);
    var genericHide :- ListAt(vs, 6);
    var taggedFiltersAll :- FilterVecAt(vs, 7);
    var enableOptimizations :- BoolAt(vs, 8);
    var resources :- RedirectsAt(vs, 9);
    var simpleClassRules :- StringSetAt(vs, 10);
    var simpleIdRules :- StringSetAt(vs, 11);
    var complexClassRules :- SelectorMapAt(vs, 12);
    var complexIdRules :- SelectorMapAt(vs, 13);
    var specificRules :- HostnameDbAt(vs, 14);
    var miscGenericSelectors :- StringSetAt(vs, 15);
    var scriptlets :- ScriptletsAt(vs, 16);
    Success(Format(
      csp, exceptions, importants, redirects, filtersTagged, filters, genericHide,
      taggedFiltersAll,
      enableOptimizations,
      resources,
      simpleClassRules, simpleIdRules, complexClassRules, complexIdRules,
      specificRules,
      miscGenericSelectors,
      scriptlets))
  }

  /** Each field has exactly one slot and each slot exactly one field. */
  lemma SchemaSlotsAreFields()
    ensures |Schema| == 17
    ensures forall i :: 0 <= i < |Schema| ==> Position(Schema[i]) == i
  {
  }

  /** The serializer writes each field into the slot the schema assigns
      to its name. */
  lemma FieldsFollowSchema<L, N, R, H, S>(f: Format<L, N, R, H, S>)
    ensures forall i :: 0 <= i < |Schema| ==> Fields(f)[i] == Get(f, Schema[i])
  {
    forall i | 0 <= i < |Schema|
      ensures Fields(f)[i] == Get(f, Schema[i])
    {
      // one case per slot, so each is checked against a literal index
      if i == 0 {} else if i == 1 {} else if i == 2 {} else if i == 3 {} else if i == 4 {} else if i == 5 {} else if i == 6 {} else if i == 7 {} else if i == 8 {} else if i == 9 {} else if i == 10 {} else if i == 11 {} else if i == 12 {} else if i == 13 {} else if i == 14 {} else if i == 15 {} else {}
    }
  }

  /** Proof step: each of the visitor's seventeen steps yields the matching
      field of `f`. */
  ghost predicate SlotsHold<L, N, R, H, S>(vs: seq<FieldValue<L, N, R, H, S>>, f: Format<L, N, R, H, S>) {
    && ListAt(vs, 0) == Success(f.csp)
    && ListAt(vs, 1) == Success(f.exceptions)
    && ListAt(vs, 2) == Success(f.importants)
    && ListAt(vs, 3) == Success(f.redirects)
    && ListAt(vs, 4) == Success(f.filtersTagged)
    && ListAt(vs, 5) == Success(f.filters)
    && ListAt(vs, 6) == Success(f.genericHide)
    && FilterVecAt(vs, 7) == Success(f.taggedFiltersAll)
    && BoolAt(vs, 8) == Success(f.enableOptimizations)
    && RedirectsAt(vs, 9) == Success(f.resources)
    && StringSetAt(vs, 10) == Success(f.simpleClassRules)
    && StringSetAt(vs, 11) == Success(f.simpleIdRules)
    && SelectorMapAt(vs, 12) == Success(f.complexClassRules)
    && SelectorMapAt(vs, 13) == Success(f.complexIdRules)
    && HostnameDbAt(vs, 14) == Success(f.specificRules)
    && StringSetAt(vs, 15) == Success(f.miscGenericSelectors)
    && ScriptletsAt(vs, 16) == Success(f.scriptlets)
  }

  /** Proof step: the `:-` chain of `FromFields` succeeds with `f` exactly
      when each of its steps yields the matching field of `f`. */
  lemma FromFieldsReadsSlots<L, N, R, H, S>(vs: seq<FieldValue<L, N, R, H, S>>, f: Format<L, N, R, H, S>)
    ensures FromFields(vs) == Success(f) <==> SlotsHold(vs, f)
  {
  }

  /** The serializer's elements fill the ten network-filter slots. */
  lemma NetworkSlotsFilled<L, N, R, H, S>(f: Format<L, N, R, H, S>, extra: seq<FieldValue<L, N, R, H, S>>)
    ensures ListAt(Fields(f) + extra, 0) == Success(f.csp)
    ensures ListAt(Fields(f) + extra, 1) == Success(f.exceptions)
    ensures ListAt(Fields(f) + extra, 2) == Success(f.importants)
    ensures ListAt(Fields(f) + extra, 3) == Success(f.redirects)
    ensures ListAt(Fields(f) + extra, 4) == Success(f.filtersTagged)
    ensures ListAt(Fields(f) + extra, 5) == Success(f.filters)
    ensures ListAt(Fields(f) + extra, 6) == Success(f.genericHide)
    ensures FilterVecAt(Fields(f) + extra, 7) == Success(f.taggedFiltersAll)
    ensures BoolAt(Fields(f) + extra, 8) == Success(f.enableOptimizations)
    ensures RedirectsAt(Fields(f) + extra, 9) == Success(f.resources)
  {
    var vs := Fields(f) + extra;
    assert vs[0] == FilterListValue(f.csp);
    assert vs[1] == FilterListValue(f.exceptions);
    assert vs[2] == FilterListValue(f.importants);
    assert vs[3] == FilterListValue(f.redirects);
    assert vs[4] == FilterListValue(f.filtersTagged);
    assert vs[5] == FilterListValue(f.filters);
    assert vs[6] == FilterListValue(f.genericHide);
    assert vs[7] == FilterVecValue(f.taggedFiltersAll);
    assert vs[8] == BoolValue(f.enableOptimizations);
    assert vs[9] == RedirectValue(f.resources);
  }

  /** The serializer's elements fill the seven cosmetic-filter slots. */
  lemma CosmeticSlotsFilled<L, N, R, H, S>(f: Format<L, N, R, H, S>, extra: seq<FieldValue<L, N, R, H, S>>)
    ensures StringSetAt(Fields(f) + extra, 10) == Success(f.simpleClassRules)
    ensures StringSetAt(Fields(f) + extra, 11) == Success(f.simpleIdRules)
    ensures SelectorMapAt(Fields(f) + extra, 12) == Success(f.complexClassRules)
    ensures SelectorMapAt(Fields(f) + extra, 13) == Success(f.complexIdRules)
    ensures HostnameDbAt(Fields(f) + extra, 14) == Success(f.specificRules)
    ensures StringSetAt(Fields(f) + extra, 15) == Success(f.miscGenericSelectors)
    ensures ScriptletsAt(Fields(f) + extra, 16) == Success(f.scriptlets)
  {
  }

  /** The serializer's elements, with anything appended, fill every slot. */
  lemma FieldsFillSlots<L, N, R, H, S>(f: Format<L, N, R, H, S>, extra: seq<FieldValue<L, N, R, H, S>>)
    ensures SlotsHold(Fields(f) + extra, f)
  {
    NetworkSlotsFilled(f, extra);
    CosmeticSlotsFilled(f, extra);
  }

  /** Decoding the serializer's element sequence gives the record back, and
      elements appended after the last field (fields added by a later
      revision) are ignored. */
  lemma DecodeEncodedFields<L, N, R, H, S>(f: Format<L, N, R, H, S>, extra: seq<FieldValue<L, N, R, H, S>>)
    ensures FromFields(Fields(f) + extra) == Success(f)
  {
    FieldsFillSlots(f, extra);
    FromFieldsReadsSlots(Fields(f) + extra, f);
  }

  /** A sequence decodes only if its first seventeen elements are exactly
      the serializer's elements of the record it decodes to. */
  lemma DecodedFieldsAreEncoding<L, N, R, H, S>(vs: seq<FieldValue<L, N, R, H, S>>)
    requires FromFields(vs).Success?
    ensures |Schema| <= |vs|
    ensures vs[..|Schema|] == Fields(FromFields(vs).value)
  {
    FromFieldsReadsSlots(vs, FromFields(vs).value);
  }

  /** The derived reader accepts exactly the sequences that begin with the
      writer's elements: it returns `f` precisely when the first seventeen
      elements are `Fields(f)`, whatever follows them. */
  lemma FromFieldsAcceptsExactlyEncodings<L, N, R, H, S>(vs: seq<FieldValue<L, N, R, H, S>>, f: Format<L, N, R, H, S>)
    ensures FromFields(vs) == Success(f) <==> |Schema| <= |vs| && vs[..|Schema|] == Fields(f)
  {
    if FromFields(vs) == Success(f) {
      DecodedFieldsAreEncoding(vs);
    }
    if |Schema| <= |vs| && vs[..|Schema|] == Fields(f) {
      assert vs == Fields(f) + vs[|Schema|..];
      DecodeEncodedFields(f, vs[|Schema|..]);
    }
  }

  /** The same, slot by slot: the reader returns `f` exactly when each slot
      of the schema holds the field of `f` that the schema names there. */
  lemma FromFieldsFollowsSchema<L, N, R, H, S>(vs: seq<FieldValue<L, N, R, H, S>>, f: Format<L, N, R, H, S>)
    ensures FromFields(vs) == Success(f) <==>
              |Schema| <= |vs| && forall i :: 0 <= i < |Schema| ==> vs[i] == Get(f, Schema[i])
  {
    FromFieldsAcceptsExactlyEncodings(vs, f);
    FieldsFollowSchema(f);
    if |Schema| <= |vs| && forall i :: 0 <= i < |Schema| ==> vs[i] == Get(f, Schema[i]) {
      assert vs[..|Schema|] == Fields(f);
    }
  }
}
