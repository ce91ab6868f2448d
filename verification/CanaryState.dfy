/** What the canary fixture controller concludes from one reading of the catalog: the projections,
    the mismatches and the classification of `inspect_state`. */
module CanaryState {
  import opened PyJson

  datatype Aspect =
    | DatasetKey | DatasetProperties | SchemaMetadata | DatasetOwnership | Domains | Deprecation
    | EditableSchemaMetadata
    | DomainKey | DomainProperties | DomainOwnership
    | TagProperties

  /** The mismatches, in the code-point order of their texts. */
  datatype Mismatch =
    | DatasetDomain | DatasetOwner | DatasetPropertiesDiffer | DatasetProvenance
    | Deprecated | DomainOwner | DomainPropertiesDiffer | DomainProvenance
    | EmailPiiPresent | EmailPiiUnknown | ExactOneQueryReadback | PiiTagAbsent
    | QueryFoundUnownedResult | QueryOutsideTarget | TypedSchema

  datatype Classification = Absent | Drift | Exact
  datatype PiiState = PiiPresent | PiiAbsent | PiiUnknown

  /** A string. Those the controller spells out are numbered constants, each given with its text. */
  datatype Word = Named(code: int) | AspectWord(aspect: Aspect) | MismatchWord(mismatch: Mismatch) | Other(text: string)

  // URNs and texts of the reviewed contract
  const TARGET_URN := Named(0) // the dataset URN of the fixture
  const DOMAIN_URN := Named(1) // the domain URN of the fixture
  const PII_TAG_URN := Named(2) // urn:li:tag:PII
  const PII_TERM_URN := Named(3) // urn:li:glossaryTerm:Classification.PII
  const PLATFORM_URN := Named(4) // urn:li:dataPlatform:snowflake
  const OWNER_URN := Named(5) // urn:li:corpuser:upgradedev
  const QUERY := Named(6) // archon_governed_canary_fixture
  const DOMAIN_NAME := Named(7) // Archon Governed Canary
  const DOMAIN_DESCRIPTION := Named(8) // the domain's description
  const DATASET_DESCRIPTION := Named(9) // the dataset's description
  const DATA_OWNER := Named(10) // DATAOWNER
  const CUSTOMER_ID := Named(11) // customer_id
  const EMAIL := Named(12) // email
  const AMOUNT := Named(13) // amount
  const VARCHAR := Named(14) // VARCHAR
  const NUMBER_TYPE := Named(15) // NUMBER
  const LOGICAL_STRING := Named(16) // string
  const LOGICAL_NUMBER := Named(17) // number
  const OWNER_REPOSITORY := Named(18) // https://github.com/upgradedev/archon-datahub
  const FIXTURE_PURPOSE := Named(19) // governed-canary-write-rollback
  const FIXTURE_SCHEMA := Named(20) // archon.datahub-canary-fixture/v1

  // names of aspect members
  const VALUE_FIELD := Named(21) // value
  const NAME_FIELD := Named(23) // name
  const DESCRIPTION_FIELD := Named(24) // description
  const QUALIFIED_NAME := Named(25) // qualifiedName
  const CUSTOM_PROPERTIES := Named(26) // customProperties
  const SCHEMA_NAME := Named(27) // schemaName
  const PLATFORM_FIELD := Named(28) // platform
  const FIELDS := Named(29) // fields
  const FIELD_PATH := Named(30) // fieldPath
  const NATIVE_DATA_TYPE := Named(31) // nativeDataType
  const TYPE_FIELD := Named(32) // type
  const NULLABLE := Named(33) // nullable
  const IS_PART_OF_KEY := Named(34) // isPartOfKey
  const RECURSIVE := Named(35) // recursive
  const STRING_TYPE_CLASS := Named(36) // com.linkedin.schema.StringType
  const NUMBER_TYPE_CLASS := Named(37) // com.linkedin.schema.NumberType
  const OWNERS := Named(38) // owners
  const OWNER_FIELD := Named(39) // owner
  const DOMAINS_FIELD := Named(40) // domains
  const DEPRECATED_FIELD := Named(41) // deprecated
  const EDITABLE_SCHEMA_FIELD_INFO := Named(42) // editableSchemaFieldInfo
  const GLOBAL_TAGS := Named(43) // globalTags
  const TAGS := Named(44) // tags
  const TAG := Named(45) // tag
  const GLOSSARY_TERMS := Named(46) // glossaryTerms
  const TERMS := Named(47) // terms
  const TERM := Named(48) // term
  const ARCHON_FIXTURE_OWNER := Named(49) // archonFixtureOwner
  const ARCHON_FIXTURE_PURPOSE := Named(50) // archonFixturePurpose
  const ARCHON_FIXTURE_SCHEMA := Named(51) // archonFixtureSchema
  const CONTRACT_SHA256 := Named(52) // archonFixtureContractSha256

  // names of the projection and the snapshot
  const PATH_FIELD := Named(53) // path
  const NATIVE_TYPE := Named(54) // nativeType
  const LOGICAL_TYPE := Named(55) // logicalType
  const INVALID := Named(56) // invalid
  const DATASET_FIELD := Named(57) // dataset
  const DOMAIN_FIELD := Named(58) // domain
  const PII_TAG_FIELD := Named(59) // piiTag
  const QUERY_FIELD := Named(60) // query
  const TOTAL := Named(61) // total
  const URNS := Named(62) // urns
  const URN := Named(63) // urn
  const PRESENT := Named(64) // present
  const MARKER_EXACT := Named(65) // markerExact

  // names and values of the plan
  const SCHEMA_VERSION := Named(66) // schemaVersion
  const REPOSITORY := Named(67) // repository
  const RELEASE_SHA := Named(68) // releaseSha
  const STATE_CONTRACT_SHA256 := Named(69) // stateContractSha256
  const GMS_ENDPOINT_FINGERPRINT := Named(70) // gmsEndpointFingerprint
  const ISOLATION_MARKER_SHA256 := Named(71) // isolationMarkerSha256
  const QUERY_BINDING := Named(72) // queryBinding
  const TARGET_URN_FIELD := Named(73) // targetUrn
  const OWNED_URNS := Named(74) // ownedUrns
  const ACTION := Named(75) // action
  const OPERATION := Named(76) // operation
  const MUTATION_REQUIRED := Named(77) // mutationRequired
  const RESET_CONFIRMATION_SHA256 := Named(78) // resetConfirmationSha256
  const BEFORE := Named(79) // before
  const CLASSIFICATION_FIELD := Named(80) // classification
  const DIGEST_FIELD := Named(81) // digest
  const RAW_ASPECT_SNAPSHOT_SHA256 := Named(82) // rawAspectSnapshotSha256
  const EXACT_QUERY_MATCH_COUNT := Named(83) // exactQueryMatchCount
  const MISMATCHES_FIELD := Named(84) // mismatches
  const OWNED_URN_PRESENCE := Named(85) // ownedUrnPresence
  const PROVENANCE := Named(86) // provenance
  const PII_TAG_PRESENT_FIELD := Named(87) // piiTagPresent
  const PLAN_SCHEMA := Named(88) // archon.datahub-canary-fixture-plan/v1
  const ARCHON_REPOSITORY := Named(89) // upgradedev/archon-datahub
  const SEED := Named(90) // seed
  const RESET := Named(91) // reset
  const NOOP := Named(92) // noop
  const ABSENT_WORD := Named(93) // absent
  const DRIFT_WORD := Named(94) // drift
  const EXACT_WORD := Named(95) // exact
  const PRESENT_WORD := Named(96) // present
  const UNKNOWN_WORD := Named(97) // unknown

  // names of the digested projection
  const DATASET_PROPERTIES_FIELD := Named(98) // datasetProperties
  const DOMAIN_PROPERTIES_FIELD := Named(99) // domainProperties
  const DATASET_OWNER_FIELD := Named(100) // datasetOwner
  const DOMAIN_OWNER_FIELD := Named(101) // domainOwner
  const SCHEMA_FIELDS := Named(102) // schemaFields
  const EMAIL_PII_CLASSIFICATION_STATE := Named(103) // emailPiiClassificationState

  type Json = Value<Word>

  datatype Ref = Ref(urn: Word, aspect: Aspect)

  const DATASET_ASPECTS: seq<Aspect> :=
    [DatasetKey, DatasetProperties, SchemaMetadata, DatasetOwnership, Domains, Deprecation, EditableSchemaMetadata]

  const DOMAIN_ASPECTS: seq<Aspect> := [DomainKey, DomainProperties, DomainOwnership]

  /** The versioned aspects in the order they are read. */
  const READS: seq<Ref> := [
    Ref(TARGET_URN, DatasetKey), Ref(TARGET_URN, DatasetProperties), Ref(TARGET_URN, SchemaMetadata),
    Ref(TARGET_URN, DatasetOwnership), Ref(TARGET_URN, Domains), Ref(TARGET_URN, Deprecation),
    Ref(TARGET_URN, EditableSchemaMetadata),
    Ref(DOMAIN_URN, DomainKey), Ref(DOMAIN_URN, DomainProperties), Ref(DOMAIN_URN, DomainOwnership),
    Ref(PII_TAG_URN, TagProperties)
  ]

  /** An answered search: at most two distinct datasets. */
  datatype Search = Search(total: nat, urns: seq<Word>) {
    predicate Valid() {
      |urns| <= 2 && forall i, j | 0 <= i < j < |urns| :: urns[i] != urns[j]
    }
  }

  /** One reading of the catalog: the search and an entry per aspect, null where there is none. */
  datatype Reading = Reading(search: Search, entries: map<Ref, Json>) {
    ghost predicate Valid() {
      && search.Valid() && entries.Keys == (set ref | ref in READS)
      && forall ref :: ref in entries ==> Envelope(entries[ref])
    }

    function Entry(ref: Ref): Json {
      if ref in entries then entries[ref] else Null
    }
  }

  /** The reviewed contract's digest. The contract validation fixes the other content up to Python's equality, so a
      file may hold 0 where it lists false; `AcceptedFieldsJudgeAlike` shows that no judgement depends on that. */
  datatype Contract = Contract(digest: Json)

  // ---- Reading aspects ----------------------------------------------------------------------

  /** What an aspect read may answer: nothing, or an envelope with an object or null as its value. */
  predicate Envelope(entry: Json) {
    || entry.Null?
    || (entry.Dict? && VALUE_FIELD in entry.fields
        && (entry.fields[VALUE_FIELD].Null? || entry.fields[VALUE_FIELD].Dict?))
  }

  predicate AspectPresent(entry: Json) {
    entry.Dict? && VALUE_FIELD in entry.fields && entry.fields[VALUE_FIELD].Dict?
  }

  function AspectValue(entry: Json): (r: Json)
    ensures r.Dict?
  {
    if AspectPresent(entry) then entry.fields[VALUE_FIELD] else Dict(map[])
  }

  function LogicalTypeOf(field: Json): Json
    requires field.Dict?
  {
    var fieldType := field.Get(TYPE_FIELD);
    if !fieldType.HasKeys({TYPE_FIELD}) then Null
    else
      var union := fieldType.fields[TYPE_FIELD];
      if union == Dict(map[STRING_TYPE_CLASS := Dict(map[])]) then Str(LOGICAL_STRING)
      else if union == Dict(map[NUMBER_TYPE_CLASS := Dict(map[])]) then Str(LOGICAL_NUMBER)
      else Null
  }

  function ProjectedField(field: Json): Json {
    if !field.Dict? then Dict(map[INVALID := Bool(true)])
    else Dict(map[
      PATH_FIELD := field.Get(FIELD_PATH), NATIVE_TYPE := field.Get(NATIVE_DATA_TYPE),
      LOGICAL_TYPE := LogicalTypeOf(field),
      NULLABLE := field.Get(NULLABLE), IS_PART_OF_KEY := field.GetOr(IS_PART_OF_KEY, Bool(false))])
  }

  function ProjectedFields(fields: seq<Json>): seq<Json> {
    seq(|fields|, i requires 0 <= i < |fields| => ProjectedField(fields[i]))
  }

  function ProjectedOwner(owner: Json): Json
    requires owner.Dict?
  {
    Dict(map[OWNER_FIELD := owner.Get(OWNER_FIELD), TYPE_FIELD := owner.Get(TYPE_FIELD)])
  }

  function OwnerProjection(entry: Json): Json {
    var owners := AspectValue(entry).GetOr(OWNERS, List([]));
    if !owners.List? || exists i | 0 <= i < |owners.items| :: !owners.items[i].Dict? then
      List([Dict(map[INVALID := Bool(true)])])
    else
      List(seq(|owners.items|, i requires 0 <= i < |owners.items|
               && owners.items[i].Dict? => ProjectedOwner(owners.items[i])))
  }

  // ---- The sensitive field's classification -------------------------------------------------

  /** The text starts with urn:li:. */
  predicate IsUrn(v: Json) {
    && v.Str?
    && (|| v.s in {TARGET_URN, DOMAIN_URN, PII_TAG_URN, PII_TERM_URN, PLATFORM_URN, OWNER_URN}
        || (v.s.Other? && |v.s.text| >= 7 && v.s.text[..7] == "urn:li:"))
  }

  predicate IsReference(item: Json, reference: Word) {
    item.Dict? && IsUrn(item.Get(reference))
  }

  predicate AllReferences(items: seq<Json>, reference: Word) {
    forall i | 0 <= i < |items| :: IsReference(items[i], reference)
  }

  /** The words the items refer to. */
  function References(items: seq<Json>, reference: Word): set<Word> {
    set item | item in items && item.Dict? && item.Get(reference).Str? :: item.Get(reference).s
  }

  /** The container holds a list under the collection name. */
  predicate Collects(container: Json, collection: Word) {
    container.Dict? && collection in container.fields && container.fields[collection].List?
  }

  /** Absent, or a list of references under its collection name. */
  predicate ReferencesValid(container: Json, collection: Word, reference: Word) {
    container.Null? || (Collects(container, collection) && AllReferences(container.fields[collection].items, reference))
  }

  /** The URNs a valid container refers to; an invalid one yields none. */
  function ReferredUrns(container: Json, collection: Word, reference: Word): set<Word> {
    if Collects(container, collection) && AllReferences(container.fields[collection].items, reference)
    then References(container.fields[collection].items, reference)
    else {}
  }

  predicate Addressed(field: Json) {
    field.Dict? && field.Get(FIELD_PATH).IsText()
  }

  predicate IsEmail(field: Json) {
    field.Dict? && field.Get(FIELD_PATH) == Str(EMAIL)
  }

  predicate ClassifiedPii(field: Json) {
    && field.Dict?
    && (|| PII_TAG_URN in ReferredUrns(field.Get(GLOBAL_TAGS), TAGS, TAG)
        || PII_TERM_URN in ReferredUrns(field.Get(GLOSSARY_TERMS), TERMS, TERM))
  }

  predicate EvidenceValid(field: Json) {
    field.Dict? && ReferencesValid(field.Get(GLOBAL_TAGS), TAGS, TAG)
      && ReferencesValid(field.Get(GLOSSARY_TERMS), TERMS, TERM)
  }

  /** PRESENT when some description of the email field carries the PII tag or term; otherwise absent only
      if the field is described and nothing about any description is unreadable. */
  function PiiStateOf(schemaFields: Json, editableFields: Json): PiiState {
    if !schemaFields.List? || !editableFields.List? then PiiUnknown
    else
      var all := schemaFields.items + editableFields.items;
      if !exists f | f in all :: IsEmail(f) then PiiUnknown
      else if exists f | f in all :: IsEmail(f) && ClassifiedPii(f) then PiiPresent
      else if (forall f | f in all :: Addressed(f)) && (forall f | f in all :: IsEmail(f) ==> EvidenceValid(f)) then
        PiiAbsent
      else PiiUnknown
  }

  method CollectReferences(items: seq<Json>, reference: Word) returns (valid: bool, urns: set<Word>)
    ensures valid <==> AllReferences(items, reference)
    ensures urns == if valid then References(items, reference) else {}
  {
    hide IsUrn;
    urns := {};
    for i := 0 to |items|
      invariant forall j :: 0 <= j < i ==> IsReference(items[j], reference)
      invariant urns == References(items[..i], reference)
    {
      assert items[..i + 1] == items[..i] + [items[i]];
      if !IsReference(items[i], reference) {
        return false, {};
      }
      ReferenceIsText(items[i], reference);
      urns := urns + {items[i].Get(reference).s};
    }
    assert items[..|items|] == items;
    return true, urns;
  }

  lemma ReferenceIsText(item: Json, reference: Word)
    requires IsReference(item, reference)
    ensures item.Get(reference).Str?
  {
  }

  /** The references of a container, or that it is invalid. */
  method ReferenceUrns(container: Json, collection: Word, reference: Word) returns (valid: bool, urns: set<Word>)
    ensures valid <==> ReferencesValid(container, collection, reference)
    ensures urns == ReferredUrns(container, collection, reference)
  {
    hide AllReferences, References;
    if container.Null? {
      return true, {};
    }
    if !Collects(container, collection) {
      return false, {};
    }
    valid, urns := CollectReferences(container.fields[collection].items, reference);
  }

  method ClassifyPii(schemaFields: Json, editableFields: Json) returns (r: PiiState)
    ensures r == PiiStateOf(schemaFields, editableFields)
  {
    hide ReferencesValid, ReferredUrns;
    if !schemaFields.List? || !editableFields.List? {
      return PiiUnknown;
    }
    var all := schemaFields.items + editableFields.items;
    var matching: seq<Json> := [];
    var invalid := false;
    for i := 0 to |all|
      invariant forall f :: f in matching <==> f in all[..i] && IsEmail(f)
      invariant invalid <==> exists f :: f in all[..i] && !Addressed(f)
    {
      var f := all[i];
      assert all[..i + 1] == all[..i] + [f];
      if !Addressed(f) {
        invalid := true;
      } else if f.Get(FIELD_PATH) == Str(EMAIL) {
        matching := matching + [f];
      }
    }
    assert all[..|all|] == all;
    if matching == [] {
      return PiiUnknown;
    }
    assert matching[0] in matching;
    ghost var unaddressed := invalid;
    for i := 0 to |matching|
      invariant forall j :: 0 <= j < i ==> !ClassifiedPii(matching[j])
      invariant invalid <==> unaddressed || exists j :: 0 <= j < i && !EvidenceValid(matching[j])
    {
      var field := matching[i];
      assert field in matching && IsEmail(field);
      var tagsValid, tags := ReferenceUrns(field.Get(GLOBAL_TAGS), TAGS, TAG);
      var termsValid, terms := ReferenceUrns(field.Get(GLOSSARY_TERMS), TERMS, TERM);
      if PII_TAG_URN in tags || PII_TERM_URN in terms {
        assert ClassifiedPii(field);
        return PiiPresent;
      }
      if !tagsValid || !termsValid {
        invalid := true;
      }
    }
    r := if invalid then PiiUnknown else PiiAbsent;
  }

  // ---- Expected values of the contract ------------------------------------------------------

  function ExpectedProvenance(c: Contract): Json {
    Dict(map[
      ARCHON_FIXTURE_OWNER := Str(OWNER_REPOSITORY), ARCHON_FIXTURE_PURPOSE := Str(FIXTURE_PURPOSE),
      ARCHON_FIXTURE_SCHEMA := Str(FIXTURE_SCHEMA), CONTRACT_SHA256 := c.digest])
  }

  function ExpectedField(path: Word, native: Word, logical: Word, key: bool): Json {
    Dict(map[
      PATH_FIELD := Str(path), NATIVE_TYPE := Str(native), LOGICAL_TYPE := Str(logical),
      NULLABLE := Bool(false), IS_PART_OF_KEY := Bool(key)])
  }

  function ExpectedFields(): Json {
    List([
      ExpectedField(CUSTOMER_ID, VARCHAR, LOGICAL_STRING, true),
      ExpectedField(EMAIL, VARCHAR, LOGICAL_STRING, false),
      ExpectedField(AMOUNT, NUMBER_TYPE, LOGICAL_NUMBER, false)])
  }

  /** Whatever field list the contract validation accepts, a reading matches it exactly when it matches the listed
      one. */
  lemma AcceptedFieldsJudgeAlike(r: Reading, fields: Json)
    requires PyEq(fields, ExpectedFields())
    ensures PyEq(FieldsProjection(r), fields) <==> FieldsExact(r)
  {
    hide FieldsProjection, ExpectedFields;
    PyEqCongruent(FieldsProjection(r), fields, ExpectedFields());
  }

  function ExpectedOwner(): Json {
    List([Dict(map[OWNER_FIELD := Str(OWNER_URN), TYPE_FIELD := Str(DATA_OWNER)])])
  }

  // ---- The state ----------------------------------------------------------------------------

  predicate DatasetPresent(r: Reading) {
    exists a | a in DATASET_ASPECTS :: AspectPresent(r.Entry(Ref(TARGET_URN, a)))
  }

  predicate DomainPresent(r: Reading) {
    exists a | a in DOMAIN_ASPECTS :: AspectPresent(r.Entry(Ref(DOMAIN_URN, a)))
  }

  predicate TagPresent(r: Reading) {
    AspectPresent(r.Entry(Ref(PII_TAG_URN, TagProperties)))
  }

  function DatasetProps(r: Reading): (v: Json)
    ensures v.Dict?
  {
    AspectValue(r.Entry(Ref(TARGET_URN, DatasetProperties)))
  }

  function DomainProps(r: Reading): (v: Json)
    ensures v.Dict?
  {
    AspectValue(r.Entry(Ref(DOMAIN_URN, DomainProperties)))
  }

  function Schema(r: Reading): (v: Json)
    ensures v.Dict?
  {
    AspectValue(r.Entry(Ref(TARGET_URN, SchemaMetadata)))
  }

  function SchemaFields(r: Reading): Json {
    Schema(r).GetOr(FIELDS, List([]))
  }

  function EditableFields(r: Reading): Json {
    AspectValue(r.Entry(Ref(TARGET_URN, EditableSchemaMetadata))).GetOr(EDITABLE_SCHEMA_FIELD_INFO, List([]))
  }

  /** A field list that is no list is projected as one object without any of the field members. */
  function FieldsProjection(r: Reading): Json {
    var fields := SchemaFields(r);
    List(ProjectedFields(if fields.List? then fields.items else [Dict(map[INVALID := Bool(true)])]))
  }

  function DomainsOf(r: Reading): Json {
    AspectValue(r.Entry(Ref(TARGET_URN, Domains))).Get(DOMAINS_FIELD)
  }

  function DeprecatedOf(r: Reading): Json {
    AspectValue(r.Entry(Ref(TARGET_URN, Deprecation))).GetOr(DEPRECATED_FIELD, Bool(false))
  }

  function Pii(r: Reading): PiiState {
    PiiStateOf(SchemaFields(r), EditableFields(r))
  }

  predicate DatasetMarked(c: Contract, r: Reading) {
    DatasetPresent(r) && PyEq(DatasetProps(r).Get(CUSTOM_PROPERTIES), ExpectedProvenance(c))
  }

  predicate DomainMarked(c: Contract, r: Reading) {
    DomainPresent(r) && PyEq(DomainProps(r).Get(CUSTOM_PROPERTIES), ExpectedProvenance(c))
  }

  predicate OwnerExact(entry: Json) {
    PyEq(OwnerProjection(entry), ExpectedOwner())
  }

  predicate DomainExact(r: Reading) {
    PyEq(DomainsOf(r), List([Str(DOMAIN_URN)]))
  }

  predicate FieldsExact(r: Reading) {
    PyEq(FieldsProjection(r), ExpectedFields())
  }

  function When(condition: bool, m: Mismatch): set<Mismatch> {
    if condition then {m} else {}
  }

  function DatasetMismatches(c: Contract, r: Reading): set<Mismatch> {
    var props := DatasetProps(r);
    When(!PyEq(props.Get(NAME_FIELD), Str(QUERY)) || !PyEq(props.Get(DESCRIPTION_FIELD), Str(DATASET_DESCRIPTION))
         || !PyEq(props.Get(QUALIFIED_NAME), Str(QUERY)), DatasetPropertiesDiffer)
    + When(!DatasetMarked(c, r), DatasetProvenance)
    + When(!PyEq(Schema(r).Get(SCHEMA_NAME), Str(QUERY)) || !PyEq(Schema(r).Get(PLATFORM_FIELD), Str(PLATFORM_URN))
           || !FieldsExact(r), TypedSchema)
    + When(!OwnerExact(r.Entry(Ref(TARGET_URN, DatasetOwnership))), DatasetOwner)
    + When(!DomainExact(r), DatasetDomain)
    + When(DeprecatedOf(r) != Bool(false), Deprecated)
    + When(Pii(r) == PiiPresent, EmailPiiPresent)
    + When(Pii(r) == PiiUnknown, EmailPiiUnknown)
  }

  function DomainMismatches(c: Contract, r: Reading): set<Mismatch> {
    When(!PyEq(DomainProps(r).Get(NAME_FIELD), Str(DOMAIN_NAME))
         || !PyEq(DomainProps(r).Get(DESCRIPTION_FIELD), Str(DOMAIN_DESCRIPTION)), DomainPropertiesDiffer)
    + When(!DomainMarked(c, r), DomainProvenance)
    + When(!OwnerExact(r.Entry(Ref(DOMAIN_URN, DomainOwnership))), DomainOwner)
  }

  const FOUND := Search(1, [TARGET_URN])
  const NOTHING := Search(0, [])

  predicate OutsideTarget(search: Search) {
    search.total > 1 || (exists urn | urn in search.urns :: urn != TARGET_URN) || search.total != |search.urns|
  }

  function QueryMismatches(r: Reading): set<Mismatch> {
    When(OutsideTarget(r.search), QueryOutsideTarget)
    + When(DatasetPresent(r) && r.search != FOUND, ExactOneQueryReadback)
    + When(!DatasetPresent(r) && r.search != NOTHING, QueryFoundUnownedResult)
  }

  function MismatchesOf(c: Contract, r: Reading): set<Mismatch> {
    When(!TagPresent(r), PiiTagAbsent)
    + (if DatasetPresent(r) then DatasetMismatches(c, r) else {})
    + (if DomainPresent(r) then DomainMismatches(c, r) else {})
    + QueryMismatches(r)
  }

  function ClassificationOf(c: Contract, r: Reading): Classification {
    if !DatasetPresent(r) && !DomainPresent(r) && MismatchesOf(c, r) == {} then Absent
    else if DatasetPresent(r) && DomainPresent(r) && MismatchesOf(c, r) == {} then Exact
    else Drift
  }

  function AspectsJson(r: Reading, urn: Word, aspects: seq<Aspect>): Json {
    Dict(map a | a in aspects :: AspectWord(a) := r.Entry(Ref(urn, a)))
  }

  /** The raw snapshot that is digested: every entry read and the search. */
  function RawSnapshot(r: Reading): Json {
    Dict(map[
      DATASET_FIELD := AspectsJson(r, TARGET_URN, DATASET_ASPECTS),
      DOMAIN_FIELD := AspectsJson(r, DOMAIN_URN, DOMAIN_ASPECTS),
      PII_TAG_FIELD := AspectsJson(r, PII_TAG_URN, [TagProperties]),
      QUERY_FIELD := SearchJson(r.search)])
  }

  function UrnsJson(urns: seq<Word>): Json {
    List(seq(|urns|, i requires 0 <= i < |urns| => Str(urns[i])))
  }

  datatype State = State(
    classification: Classification, projection: Json, raw: Json, matchCount: nat, mismatches: set<Mismatch>,
    targetPresent: bool, domainPresent: bool, targetMarked: bool, domainMarked: bool, tagPresent: bool,
    g1: bool, g2: bool, g3: bool, g4: bool, g5: bool, pii: PiiState)

  function ClassificationText(c: Classification): Word {
    match c
    case Absent => ABSENT_WORD
    case Drift => DRIFT_WORD
    case Exact => EXACT_WORD
  }

  function PiiText(pii: PiiState): Word {
    match pii
    case PiiPresent => PRESENT_WORD
    case PiiAbsent => ABSENT_WORD
    case PiiUnknown => UNKNOWN_WORD
  }

  function PresenceJson(urn: Word, present: bool): Json {
    Dict(map[URN := Str(urn), PRESENT := Bool(present)])
  }

  function MarkJson(urn: Word, present: bool, marked: bool): Json {
    Dict(map[URN := Str(urn), PRESENT := Bool(present), MARKER_EXACT := Bool(marked)])
  }

  function PresenceList(target: bool, domain: bool): Json {
    List([PresenceJson(TARGET_URN, target), PresenceJson(DOMAIN_URN, domain)])
  }

  function ProvenanceList(target: bool, targetMarked: bool, domain: bool, domainMarked: bool): Json {
    List([MarkJson(TARGET_URN, target, targetMarked), MarkJson(DOMAIN_URN, domain, domainMarked)])
  }

  function SearchJson(search: Search): Json {
    Dict(map[TOTAL := Int(search.total), URNS := UrnsJson(search.urns)])
  }

  function DomainNames(r: Reading): Json {
    Dict(map[NAME_FIELD := DomainProps(r).Get(NAME_FIELD), DESCRIPTION_FIELD := DomainProps(r).Get(DESCRIPTION_FIELD)])
  }

  function DatasetOwners(r: Reading): Json {
    OwnerProjection(r.Entry(Ref(TARGET_URN, DatasetOwnership)))
  }

  function Marks(c: Contract, r: Reading): Json {
    ProvenanceList(DatasetPresent(r), DatasetMarked(c, r), DomainPresent(r), DomainMarked(c, r))
  }

  /** The projection that is digested. */
  function ProjectionOf(c: Contract, r: Reading): Json {
    Dict(map[
      CLASSIFICATION_FIELD := Str(ClassificationText(ClassificationOf(c, r))), QUERY_FIELD := SearchJson(r.search),
      OWNED_URN_PRESENCE := PresenceList(DatasetPresent(r), DomainPresent(r)),
      PII_TAG_PRESENT_FIELD := Bool(TagPresent(r)),
      DATASET_PROPERTIES_FIELD := DatasetProps(r), DOMAIN_PROPERTIES_FIELD := DomainNames(r),
      DATASET_OWNER_FIELD := DatasetOwners(r),
      DOMAIN_OWNER_FIELD := OwnerProjection(r.Entry(Ref(DOMAIN_URN, DomainOwnership))),
      DOMAINS_FIELD := DomainsOf(r), DEPRECATED_FIELD := DeprecatedOf(r), SCHEMA_FIELDS := FieldsProjection(r),
      EMAIL_PII_CLASSIFICATION_STATE := Str(PiiText(Pii(r))),
      PROVENANCE := Marks(c, r)])
  }

  function StateOf(c: Contract, r: Reading): State {
    State(
      ClassificationOf(c, r), Digest(ProjectionOf(c, r)), Digest(RawSnapshot(r)),
      if TARGET_URN in r.search.urns then 1 else 0, MismatchesOf(c, r),
      DatasetPresent(r), DomainPresent(r), DatasetMarked(c, r), DomainMarked(c, r), TagPresent(r),
      OwnerExact(r.Entry(Ref(TARGET_URN, DatasetOwnership))), DomainExact(r),
      PyEq(DatasetProps(r).Get(DESCRIPTION_FIELD), Str(DATASET_DESCRIPTION)), DeprecatedOf(r) == Bool(false),
      FieldsExact(r),
      Pii(r))
  }

  function Listed(mismatches: seq<Mismatch>): set<Mismatch> {
    set m | m in mismatches
  }

  lemma ListedAppend(a: seq<Mismatch>, b: seq<Mismatch>)
    ensures Listed(a + b) == Listed(a) + Listed(b)
  {
  }

  function OneIf(condition: bool, m: Mismatch): (r: seq<Mismatch>)
    ensures Listed(r) == When(condition, m)
  {
    if condition then [m] else []
  }

  method JudgeDataset(c: Contract, r: Reading) returns (mismatches: seq<Mismatch>)
    ensures Listed(mismatches) == DatasetMismatches(c, r)
  {
    hide Listed, When, PyEq, PiiStateOf, DatasetMarked, FieldsExact, OwnerExact, DomainExact;
    var props := DatasetProps(r);
    mismatches := OneIf(!PyEq(props.Get(NAME_FIELD), Str(QUERY))
                        || !PyEq(props.Get(DESCRIPTION_FIELD), Str(DATASET_DESCRIPTION))
                        || !PyEq(props.Get(QUALIFIED_NAME), Str(QUERY)), DatasetPropertiesDiffer);
    mismatches := Append(mismatches, !DatasetMarked(c, r), DatasetProvenance);
    mismatches := Append(mismatches, !PyEq(Schema(r).Get(SCHEMA_NAME), Str(QUERY))
                         || !PyEq(Schema(r).Get(PLATFORM_FIELD), Str(PLATFORM_URN))
                                     || !FieldsExact(r), TypedSchema);
    mismatches := Append(mismatches, !OwnerExact(r.Entry(Ref(TARGET_URN, DatasetOwnership))), DatasetOwner);
    mismatches := Append(mismatches, !DomainExact(r), DatasetDomain);
    mismatches := Append(mismatches, DeprecatedOf(r) != Bool(false), Deprecated);
    var pii := ClassifyPii(SchemaFields(r), EditableFields(r));
    mismatches := Append(mismatches, pii == PiiPresent, EmailPiiPresent);
    mismatches := Append(mismatches, pii == PiiUnknown, EmailPiiUnknown);
  }

  method Append(mismatches: seq<Mismatch>, condition: bool, m: Mismatch) returns (r: seq<Mismatch>)
    ensures Listed(r) == Listed(mismatches) + When(condition, m)
  {
    r := mismatches;
    if condition {
      r := r + [m];
      ListedAppend(mismatches, [m]);
    }
  }

  method JudgeDomain(c: Contract, r: Reading) returns (mismatches: seq<Mismatch>)
    ensures Listed(mismatches) == DomainMismatches(c, r)
  {
    hide Listed, When, PyEq, DomainMarked, OwnerExact;
    mismatches := OneIf(!PyEq(DomainProps(r).Get(NAME_FIELD), Str(DOMAIN_NAME))
                        || !PyEq(DomainProps(r).Get(DESCRIPTION_FIELD), Str(DOMAIN_DESCRIPTION)),
                           DomainPropertiesDiffer);
    mismatches := Append(mismatches, !DomainMarked(c, r), DomainProvenance);
    mismatches := Append(mismatches, !OwnerExact(r.Entry(Ref(DOMAIN_URN, DomainOwnership))), DomainOwner);
  }

  method JudgeQuery(r: Reading) returns (mismatches: seq<Mismatch>)
    ensures Listed(mismatches) == QueryMismatches(r)
  {
    hide Listed, When, OutsideTarget, DatasetPresent;
    mismatches := OneIf(OutsideTarget(r.search), QueryOutsideTarget);
    mismatches := Append(mismatches, DatasetPresent(r) && r.search != FOUND, ExactOneQueryReadback);
    mismatches := Append(mismatches, !DatasetPresent(r) && r.search != NOTHING, QueryFoundUnownedResult);
  }

  /** `inspect_state` after its reads: collect the mismatches, then classify. */
  method Judge(c: Contract, r: Reading) returns (s: State)
    ensures s == StateOf(c, r)
  {
    hide Listed, When, PyEq, PiiStateOf, DatasetMarked, DomainMarked, FieldsExact, OwnerExact, DomainExact;
    hide DatasetMismatches, DomainMismatches, QueryMismatches;
    hide DatasetPresent, DomainPresent, ProjectionOf, RawSnapshot, OutsideTarget;
    var mismatches := OneIf(!TagPresent(r), PiiTagAbsent);
    if DatasetPresent(r) {
      var found := JudgeDataset(c, r);
      ListedAppend(mismatches, found);
      mismatches := mismatches + found;
    }
    if DomainPresent(r) {
      var found := JudgeDomain(c, r);
      ListedAppend(mismatches, found);
      mismatches := mismatches + found;
    }
    var found := JudgeQuery(r);
    ListedAppend(mismatches, found);
    mismatches := mismatches + found;
    assert Listed(mismatches) == MismatchesOf(c, r);
    var classification :=
      if !DatasetPresent(r) && !DomainPresent(r) && |mismatches| == 0 then Absent
      else if DatasetPresent(r) && DomainPresent(r) && |mismatches| == 0 then Exact
      else Drift;
    EmptyListed(mismatches);
    s := State(
      classification, Digest(ProjectionOf(c, r)), Digest(RawSnapshot(r)), if TARGET_URN in r.search.urns then 1 else 0,
      Listed(mismatches),
      DatasetPresent(r), DomainPresent(r), DatasetMarked(c, r), DomainMarked(c, r), TagPresent(r),
      OwnerExact(r.Entry(Ref(TARGET_URN, DatasetOwnership))), DomainExact(r),
      PyEq(DatasetProps(r).Get(DESCRIPTION_FIELD), Str(DATASET_DESCRIPTION)), DeprecatedOf(r) == Bool(false),
      FieldsExact(r),
      Pii(r));
  }

  lemma EmptyListed(mismatches: seq<Mismatch>)
    ensures |mismatches| == 0 <==> Listed(mismatches) == {}
  {
    if mismatches != [] {
      assert mismatches[0] in Listed(mismatches);
    }
  }

  // ---- What the classes mean ----------------------------------------------------------------

  /** The dataset is the reviewed one, and its sensitive field is described and unclassified. */
  ghost predicate DatasetAsReviewed(c: Contract, r: Reading) {
    var props := DatasetProps(r);
    && PyEq(props.Get(NAME_FIELD), Str(QUERY)) && PyEq(props.Get(DESCRIPTION_FIELD), Str(DATASET_DESCRIPTION))
    && PyEq(props.Get(QUALIFIED_NAME), Str(QUERY)) && DatasetMarked(c, r)
    && PyEq(Schema(r).Get(SCHEMA_NAME), Str(QUERY)) && PyEq(Schema(r).Get(PLATFORM_FIELD), Str(PLATFORM_URN))
    && FieldsExact(r)
    && OwnerExact(r.Entry(Ref(TARGET_URN, DatasetOwnership))) && DomainExact(r) && DeprecatedOf(r) == Bool(false)
    && Pii(r) == PiiAbsent
  }

  ghost predicate DomainAsReviewed(c: Contract, r: Reading) {
    && PyEq(DomainProps(r).Get(NAME_FIELD), Str(DOMAIN_NAME))
    && PyEq(DomainProps(r).Get(DESCRIPTION_FIELD), Str(DOMAIN_DESCRIPTION))
    && DomainMarked(c, r) && OwnerExact(r.Entry(Ref(DOMAIN_URN, DomainOwnership)))
  }

  lemma NoDatasetMismatch(c: Contract, r: Reading)
    ensures DatasetMismatches(c, r) == {} <==> DatasetAsReviewed(c, r)
  {
    hide PyEq, PiiStateOf, DatasetMarked, FieldsExact, OwnerExact, DomainExact;
    var d := DatasetMismatches(c, r);
    if d == {} {
      assert DatasetPropertiesDiffer !in d && DatasetProvenance !in d && TypedSchema !in d && DatasetOwner !in d;
      assert DatasetDomain !in d && Deprecated !in d && EmailPiiPresent !in d && EmailPiiUnknown !in d;
    }
  }

  lemma NoDomainMismatch(c: Contract, r: Reading)
    ensures DomainMismatches(c, r) == {} <==> DomainAsReviewed(c, r)
  {
    hide PyEq, DomainMarked, OwnerExact;
    var d := DomainMismatches(c, r);
    if d == {} {
      assert DomainPropertiesDiffer !in d && DomainProvenance !in d && DomainOwner !in d;
    }
  }

  lemma NoQueryMismatch(r: Reading)
    ensures QueryMismatches(r) == {} <==> r.search == if DatasetPresent(r) then FOUND else NOTHING
  {
    hide DatasetPresent;
    var d := QueryMismatches(r);
    if d == {} {
      assert ExactOneQueryReadback !in d && QueryFoundUnownedResult !in d;
    }
  }

  lemma NoMismatch(c: Contract, r: Reading)
    ensures MismatchesOf(c, r) == {} <==>
              && TagPresent(r) && QueryMismatches(r) == {}
              && (DatasetPresent(r) ==> DatasetMismatches(c, r) == {})
              && (DomainPresent(r) ==> DomainMismatches(c, r) == {})
  {
    hide DatasetMismatches, DomainMismatches, QueryMismatches, DatasetPresent, DomainPresent, TagPresent;
    var all := MismatchesOf(c, r);
    assert QueryMismatches(r) <= all && When(!TagPresent(r), PiiTagAbsent) <= all;
    assert DatasetPresent(r) ==> DatasetMismatches(c, r) <= all;
    assert DomainPresent(r) ==> DomainMismatches(c, r) <= all;
  }

  /** Absent means nothing of the fixture is there; exact means all of it is, as reviewed, found once. */
  lemma ClassesMean(c: Contract, r: Reading)
    ensures ClassificationOf(c, r) == Absent <==>
              TagPresent(r) && !DatasetPresent(r) && !DomainPresent(r) && r.search == NOTHING
    ensures ClassificationOf(c, r) == Exact <==>
              && TagPresent(r) && DatasetPresent(r) && DomainPresent(r) && r.search == FOUND
              && DatasetAsReviewed(c, r) && DomainAsReviewed(c, r)
  {
    hide MismatchesOf, DatasetMismatches, DomainMismatches, QueryMismatches, DatasetPresent, DomainPresent, TagPresent;
    hide DatasetAsReviewed, DomainAsReviewed;
    NoMismatch(c, r);
    NoDatasetMismatch(c, r);
    NoDomainMismatch(c, r);
    NoQueryMismatch(r);
  }

  /** An exact state is fully governed: every G flag, the sensitive gap, one match, both marks and the tag. */
  lemma ExactIsGoverned(c: Contract, r: Reading)
    requires ClassificationOf(c, r) == Exact
    ensures var s := StateOf(c, r);
            && s.g1 && s.g2 && s.g3 && s.g4 && s.g5 && s.pii == PiiAbsent
            && s.matchCount == 1 && s.targetMarked && s.domainMarked && s.tagPresent && r.search == FOUND
  {
    hide PyEq, PiiStateOf, DatasetMarked, DomainMarked, FieldsExact, OwnerExact, DomainExact, MismatchesOf;
    hide ClassificationOf;
    hide DatasetPresent, DomainPresent, ProjectionOf, RawSnapshot;
    ClassesMean(c, r);
    assert FOUND.urns[0] == TARGET_URN;
  }

  /** Equal projection digests mean equal states, but for the raw snapshot and the mismatches: the schema's name
      and platform show in the mismatches and not in the projection. */
  lemma ProjectionDeterminesState(c: Contract, a: Reading, b: Reading)
    requires StateOf(c, a).projection == StateOf(c, b).projection
    ensures StateOf(c, a).(raw := StateOf(c, b).raw, mismatches := StateOf(c, b).mismatches) == StateOf(c, b)
  {
    hide ClassificationOf, DatasetPresent, DomainPresent, TagPresent, DatasetMarked, DomainMarked, Pii, DatasetProps;
    hide OwnerProjection, DomainsOf, DeprecatedOf, FieldsProjection, PyEq, MismatchesOf, RawSnapshot;
    SameParts(c, a, b);
    hide ProjectionOf;
    SameMarks(DatasetPresent(a), DatasetMarked(c, a), DomainPresent(a), DomainMarked(c, a),
              DatasetPresent(b), DatasetMarked(c, b), DomainPresent(b), DomainMarked(c, b));
    SameSearch(a.search, b.search);
  }

  lemma SameParts(c: Contract, a: Reading, b: Reading)
    requires ProjectionOf(c, a) == ProjectionOf(c, b)
    ensures ClassificationOf(c, a) == ClassificationOf(c, b) && SearchJson(a.search) == SearchJson(b.search)
    ensures TagPresent(a) == TagPresent(b) && DatasetProps(a) == DatasetProps(b) && DomainsOf(a) == DomainsOf(b)
    ensures DeprecatedOf(a) == DeprecatedOf(b) && FieldsProjection(a) == FieldsProjection(b) && Pii(a) == Pii(b)
    ensures DatasetOwners(a) == DatasetOwners(b) && Marks(c, a) == Marks(c, b)
  {
    hide ClassificationOf, DatasetPresent, DomainPresent, TagPresent, Pii, DatasetProps, DomainNames, DatasetOwners;
    hide Marks;
    hide DomainsOf, DeprecatedOf, FieldsProjection, PresenceList, SearchJson, OwnerProjection, DOMAIN_URN;
    var x, y := ProjectionOf(c, a).fields, ProjectionOf(c, b).fields;
    assert x[CLASSIFICATION_FIELD] == y[CLASSIFICATION_FIELD] && x[QUERY_FIELD] == y[QUERY_FIELD];
    assert x[PII_TAG_PRESENT_FIELD] == y[PII_TAG_PRESENT_FIELD];
    assert x[DATASET_PROPERTIES_FIELD] == y[DATASET_PROPERTIES_FIELD];
    assert x[DATASET_OWNER_FIELD] == y[DATASET_OWNER_FIELD] && x[DOMAINS_FIELD] == y[DOMAINS_FIELD];
    assert x[DEPRECATED_FIELD] == y[DEPRECATED_FIELD] && x[SCHEMA_FIELDS] == y[SCHEMA_FIELDS];
    assert x[EMAIL_PII_CLASSIFICATION_STATE] == y[EMAIL_PII_CLASSIFICATION_STATE] && x[PROVENANCE] == y[PROVENANCE];
  }

  lemma SameSearch(a: Search, b: Search)
    requires SearchJson(a) == SearchJson(b)
    ensures a == b
  {
    assert SearchJson(a).fields[TOTAL] == SearchJson(b).fields[TOTAL];
    assert SearchJson(a).fields[URNS] == SearchJson(b).fields[URNS];
    SameUrns(a.urns, b.urns);
  }

  lemma SameMarks(target: bool, targetMarked: bool, domain: bool, domainMarked: bool,
                  target': bool, targetMarked': bool, domain': bool, domainMarked': bool)
    requires ProvenanceList(target, targetMarked, domain, domainMarked)
             == ProvenanceList(target', targetMarked', domain', domainMarked')
    ensures target == target' && targetMarked == targetMarked' && domain == domain' && domainMarked == domainMarked'
  {
    var x, y := ProvenanceList(target, targetMarked, domain, domainMarked).items,
      ProvenanceList(target', targetMarked', domain', domainMarked').items;
    assert x[0].fields[PRESENT] == y[0].fields[PRESENT] && x[0].fields[MARKER_EXACT] == y[0].fields[MARKER_EXACT];
    assert x[1].fields[PRESENT] == y[1].fields[PRESENT] && x[1].fields[MARKER_EXACT] == y[1].fields[MARKER_EXACT];
  }

  /** The raw snapshot determines the reading, so equal snapshot digests mean nothing read has moved. */
  lemma SnapshotDeterminesReading(a: Reading, b: Reading)
    requires a.Valid() && b.Valid() && RawSnapshot(a) == RawSnapshot(b)
    ensures a == b
  {
    var x, y := RawSnapshot(a).fields, RawSnapshot(b).fields;
    forall ref | ref in READS
      ensures a.Entry(ref) == b.Entry(ref)
    {
      SameEntry(a, b, ref);
    }
    assert x[QUERY_FIELD] == y[QUERY_FIELD];
    SameSearch(a.search, b.search);
    assert a.entries == b.entries;
  }

  lemma SameUrns(a: seq<Word>, b: seq<Word>)
    requires UrnsJson(a) == UrnsJson(b)
    ensures a == b
  {
    var x, y := UrnsJson(a).items, UrnsJson(b).items;
    assert |x| == |y|;
    assert forall i :: 0 <= i < |a| ==> x[i] == Str(a[i]) && y[i] == Str(b[i]);
  }

  lemma SameAspects(a: Reading, b: Reading, urn: Word, aspects: seq<Aspect>, aspect: Aspect)
    requires AspectsJson(a, urn, aspects) == AspectsJson(b, urn, aspects) && aspect in aspects
    ensures a.Entry(Ref(urn, aspect)) == b.Entry(Ref(urn, aspect))
  {
    assert AspectsJson(a, urn, aspects).fields[AspectWord(aspect)] == a.Entry(Ref(urn, aspect));
    assert AspectsJson(b, urn, aspects).fields[AspectWord(aspect)] == b.Entry(Ref(urn, aspect));
  }

  lemma GroupOfRead(ref: Ref)
    requires ref in READS
    ensures (ref.urn == TARGET_URN && ref.aspect in DATASET_ASPECTS)
            || (ref.urn == DOMAIN_URN && ref.aspect in DOMAIN_ASPECTS)
            || (ref.urn == PII_TAG_URN && ref.aspect == TagProperties)
  {
    assert DATASET_ASPECTS[0] == DatasetKey && DATASET_ASPECTS[1] == DatasetProperties
           && DATASET_ASPECTS[2] == SchemaMetadata;
    assert DATASET_ASPECTS[3] == DatasetOwnership && DATASET_ASPECTS[4] == Domains && DATASET_ASPECTS[5] == Deprecation;
    assert DATASET_ASPECTS[6] == EditableSchemaMetadata;
    assert DOMAIN_ASPECTS[0] == DomainKey && DOMAIN_ASPECTS[1] == DomainProperties
           && DOMAIN_ASPECTS[2] == DomainOwnership;
  }

  lemma SameEntry(a: Reading, b: Reading, ref: Ref)
    requires RawSnapshot(a) == RawSnapshot(b) && ref in READS
    ensures a.Entry(ref) == b.Entry(ref)
  {
    hide AspectsJson;
    var x, y := RawSnapshot(a).fields, RawSnapshot(b).fields;
    GroupOfRead(ref);
    if ref.urn == TARGET_URN {
      assert x[DATASET_FIELD] == y[DATASET_FIELD];
      SameAspects(a, b, TARGET_URN, DATASET_ASPECTS, ref.aspect);
    } else if ref.urn == DOMAIN_URN {
      assert x[DOMAIN_FIELD] == y[DOMAIN_FIELD];
      SameAspects(a, b, DOMAIN_URN, DOMAIN_ASPECTS, ref.aspect);
    } else {
      assert x[PII_TAG_FIELD] == y[PII_TAG_FIELD];
      SameAspects(a, b, PII_TAG_URN, [TagProperties], ref.aspect);
    }
  }
}
