/** What the emitted proposals make of a store without the fixture: the exact state. */
module CanaryConvergence {
  import opened Results
  import opened PyJson
  import opened CanaryState
  import opened CanaryCatalog
  import CanaryGuard

  // ---- The proposals ------------------------------------------------------------------------

  function FieldJson(path: Word, native: Word, logicalClass: Word, key: bool): Json {
    Dict(map[
      FIELD_PATH := Str(path), TYPE_FIELD := Dict(map[TYPE_FIELD := Dict(map[logicalClass := Dict(map[])])]),
      NATIVE_DATA_TYPE := Str(native), NULLABLE := Bool(false), RECURSIVE := Bool(false), IS_PART_OF_KEY := Bool(key)])
  }

  function FieldsJson(): seq<Json> {
    [FieldJson(CUSTOMER_ID, VARCHAR, STRING_TYPE_CLASS, true),
     FieldJson(EMAIL, VARCHAR, STRING_TYPE_CLASS, false),
     FieldJson(AMOUNT, NUMBER_TYPE, NUMBER_TYPE_CLASS, false)]
  }

  function OwnershipJson(): Json {
    Dict(map[OWNERS := List([Dict(map[OWNER_FIELD := Str(OWNER_URN), TYPE_FIELD := Str(DATA_OWNER)])])])
  }

  function DomainPropertiesJson(c: Contract): Json {
    Dict(map[NAME_FIELD := Str(DOMAIN_NAME), DESCRIPTION_FIELD := Str(DOMAIN_DESCRIPTION),
             CUSTOM_PROPERTIES := ExpectedProvenance(c)])
  }

  function DatasetPropertiesJson(c: Contract): Json {
    Dict(map[
      NAME_FIELD := Str(QUERY), DESCRIPTION_FIELD := Str(DATASET_DESCRIPTION), QUALIFIED_NAME := Str(QUERY),
      CUSTOM_PROPERTIES := ExpectedProvenance(c)])
  }

  function SchemaJson(): Json {
    Dict(map[SCHEMA_NAME := Str(QUERY), PLATFORM_FIELD := Str(PLATFORM_URN), FIELDS := List(FieldsJson())])
  }

  function DomainsJson(): Json {
    Dict(map[DOMAINS_FIELD := List([Str(DOMAIN_URN)])])
  }

  /** The six proposals, in the order they are emitted. */
  function Proposals(c: Contract): (r: seq<(Ref, Json)>)
    ensures |r| == 6 && forall i :: 0 <= i < 6 ==> CanaryGuard.Owned(r[i].0.urn) && r[i].1.Dict?
  {
    [(Ref(DOMAIN_URN, DomainProperties), DomainPropertiesJson(c)),
     (Ref(DOMAIN_URN, DomainOwnership), OwnershipJson()),
     (Ref(TARGET_URN, DatasetProperties), DatasetPropertiesJson(c)),
     (Ref(TARGET_URN, SchemaMetadata), SchemaJson()),
     (Ref(TARGET_URN, Domains), DomainsJson()),
     (Ref(TARGET_URN, DatasetOwnership), OwnershipJson())]
  }

  function WithAll(s: Store, proposals: seq<(Ref, Json)>): Store {
    if proposals == [] then s
    else
      var n := |proposals| - 1;
      WithAspect(WithAll(s, proposals[..n]), proposals[n].0, proposals[n].1)
  }

  function Rebuilt(c: Contract, s: Store): Store {
    WithAll(s, Proposals(c))
  }

  // ---- The rebuilt store --------------------------------------------------------------------

  predicate DomainStored(s: Store) {
    exists a | a in DOMAIN_ASPECTS :: AspectPresent(EntryOf(s, Ref(DOMAIN_URN, a)))
  }

  lemma RebuiltSteps(c: Contract, s: Store)
    ensures var p := Proposals(c);
            Rebuilt(c, s) == WithAspect(WithAspect(WithAspect(WithAspect(WithAspect(WithAspect(
              s, p[0].0, p[0].1), p[1].0, p[1].1), p[2].0, p[2].1), p[3].0, p[3].1), p[4].0, p[4].1), p[5].0, p[5].1)
  {
    hide Proposals, WithAspect;
    var p := Proposals(c);
    assert p[..6] == p && p[..6][..5] == p[..5] && p[..5][..4] == p[..4] && p[..4][..3] == p[..3]
           && p[..3][..2] == p[..2];
    assert p[..2][..1] == p[..1] && p[..1][..0] == [];
    assert WithAll(s, p[..1]) == WithAspect(s, p[0].0, p[0].1);
    assert WithAll(s, p[..2]) == WithAspect(WithAll(s, p[..1]), p[1].0, p[1].1);
    assert WithAll(s, p[..3]) == WithAspect(WithAll(s, p[..2]), p[2].0, p[2].1);
    assert WithAll(s, p[..4]) == WithAspect(WithAll(s, p[..3]), p[3].0, p[3].1);
    assert WithAll(s, p[..5]) == WithAspect(WithAll(s, p[..4]), p[4].0, p[4].1);
  }

  /** One upsert, entry by entry. */
  lemma UpsertedEntries(s: Store, ref: Ref, value: Json, other: Ref)
    ensures EntryOf(WithAspect(s, ref, value), ref) == Wrapped(value)
    ensures other != ref && other != KeyOf(ref.urn) ==> EntryOf(WithAspect(s, ref, value), other) == EntryOf(s, other)
    ensures ref != KeyOf(ref.urn) ==> AspectPresent(EntryOf(WithAspect(s, ref, value), KeyOf(ref.urn)))
    ensures other == KeyOf(ref.urn) && other != ref && AspectPresent(EntryOf(s, other)) ==>
              EntryOf(WithAspect(s, ref, value), other) == EntryOf(s, other)
  {
  }

  lemma RebuiltEntries(c: Contract, s: Store)
    ensures var t := Rebuilt(c, s);
            && EntryOf(t, Ref(DOMAIN_URN, DomainProperties)) == Wrapped(DomainPropertiesJson(c))
            && EntryOf(t, Ref(DOMAIN_URN, DomainOwnership)) == Wrapped(OwnershipJson())
            && EntryOf(t, Ref(TARGET_URN, DatasetProperties)) == Wrapped(DatasetPropertiesJson(c))
            && EntryOf(t, Ref(TARGET_URN, SchemaMetadata)) == Wrapped(SchemaJson())
            && EntryOf(t, Ref(TARGET_URN, Domains)) == Wrapped(DomainsJson())
            && EntryOf(t, Ref(TARGET_URN, DatasetOwnership)) == Wrapped(OwnershipJson())
            && EntryOf(t, Ref(TARGET_URN, Deprecation)) == EntryOf(s, Ref(TARGET_URN, Deprecation))
            && EntryOf(t, Ref(TARGET_URN, EditableSchemaMetadata))
               == EntryOf(s, Ref(TARGET_URN, EditableSchemaMetadata))
            && EntryOf(t, Ref(PII_TAG_URN, TagProperties)) == EntryOf(s, Ref(PII_TAG_URN, TagProperties))
  {
    hide WithAspect, EntryOf, DomainPropertiesJson, OwnershipJson, DatasetPropertiesJson, SchemaJson, DomainsJson;
    hide Wrapped;
    RebuiltEntry(c, s, Ref(DOMAIN_URN, DomainProperties));
    RebuiltEntry(c, s, Ref(DOMAIN_URN, DomainOwnership));
    RebuiltEntry(c, s, Ref(TARGET_URN, DatasetProperties));
    RebuiltEntry(c, s, Ref(TARGET_URN, SchemaMetadata));
    RebuiltEntry(c, s, Ref(TARGET_URN, Domains));
    RebuiltEntry(c, s, Ref(TARGET_URN, DatasetOwnership));
    RebuiltEntry(c, s, Ref(TARGET_URN, Deprecation));
    RebuiltEntry(c, s, Ref(TARGET_URN, EditableSchemaMetadata));
    RebuiltEntry(c, s, Ref(PII_TAG_URN, TagProperties));
  }

  /** The value proposed for the aspect, if there is one. */
  function Proposed(c: Contract, ref: Ref): Option<Json> {
    var p := Proposals(c);
    if ref == p[0].0 then Some(p[0].1)
    else if ref == p[1].0 then Some(p[1].1)
    else if ref == p[2].0 then Some(p[2].1)
    else if ref == p[3].0 then Some(p[3].1)
    else if ref == p[4].0 then Some(p[4].1)
    else if ref == p[5].0 then Some(p[5].1)
    else None
  }

  lemma RebuiltEntry(c: Contract, s: Store, ref: Ref)
    requires ref != KeyOf(TARGET_URN) && ref != KeyOf(DOMAIN_URN)
    ensures EntryOf(Rebuilt(c, s), ref)
            == match Proposed(c, ref) case Some(v) => Wrapped(v) case None => EntryOf(s, ref)
  {
    hide WithAspect, EntryOf, DomainPropertiesJson, OwnershipJson, DatasetPropertiesJson, SchemaJson, DomainsJson;
    hide Wrapped;
    var p := Proposals(c);
    RebuiltSteps(c, s);
    hide Rebuilt;
    var s1 := WithAspect(s, p[0].0, p[0].1);
    UpsertedEntries(s, p[0].0, p[0].1, ref);
    var s2 := WithAspect(s1, p[1].0, p[1].1);
    UpsertedEntries(s1, p[1].0, p[1].1, ref);
    var s3 := WithAspect(s2, p[2].0, p[2].1);
    UpsertedEntries(s2, p[2].0, p[2].1, ref);
    var s4 := WithAspect(s3, p[3].0, p[3].1);
    UpsertedEntries(s3, p[3].0, p[3].1, ref);
    var s5 := WithAspect(s4, p[4].0, p[4].1);
    UpsertedEntries(s4, p[4].0, p[4].1, ref);
    UpsertedEntries(s5, p[5].0, p[5].1, ref);
  }

  lemma UpsertWellFormed(s: Store, ref: Ref, value: Json)
    requires WellFormed(s) && value.Dict?
    ensures WellFormed(WithAspect(s, ref, value))
  {
  }

  lemma {:induction false} AllWellFormed(s: Store, proposals: seq<(Ref, Json)>)
    requires WellFormed(s) && forall i :: 0 <= i < |proposals| ==> proposals[i].1.Dict?
    ensures WellFormed(WithAll(s, proposals))
  {
    hide WellFormed, WithAspect;
    if proposals != [] {
      var n := |proposals| - 1;
      AllWellFormed(s, proposals[..n]);
      UpsertWellFormed(WithAll(s, proposals[..n]), proposals[n].0, proposals[n].1);
    }
  }

  // ---- Its reading is exact -----------------------------------------------------------------

  lemma EntryRead(s: Store, others: seq<Word>, ref: Ref)
    requires ref in READS
    ensures ReadingOf(s, others).Entry(ref) == EntryOf(s, ref)
  {
    hide Mirror, READS;
  }

  lemma ReadRefs()
    ensures Ref(TARGET_URN, DatasetKey) in READS && Ref(TARGET_URN, DatasetProperties) in READS
            && Ref(TARGET_URN, SchemaMetadata) in READS
    ensures Ref(TARGET_URN, DatasetOwnership) in READS && Ref(TARGET_URN, Domains) in READS
            && Ref(TARGET_URN, Deprecation) in READS
    ensures Ref(TARGET_URN, EditableSchemaMetadata) in READS
    ensures Ref(DOMAIN_URN, DomainKey) in READS && Ref(DOMAIN_URN, DomainProperties) in READS
            && Ref(DOMAIN_URN, DomainOwnership) in READS
    ensures Ref(PII_TAG_URN, TagProperties) in READS
  {
    assert READS[0] == Ref(TARGET_URN, DatasetKey) && READS[1] == Ref(TARGET_URN, DatasetProperties);
    assert READS[2] == Ref(TARGET_URN, SchemaMetadata) && READS[3] == Ref(TARGET_URN, DatasetOwnership);
    assert READS[4] == Ref(TARGET_URN, Domains) && READS[5] == Ref(TARGET_URN, Deprecation);
    assert READS[6] == Ref(TARGET_URN, EditableSchemaMetadata) && READS[7] == Ref(DOMAIN_URN, DomainKey);
    assert READS[8] == Ref(DOMAIN_URN, DomainProperties) && READS[9] == Ref(DOMAIN_URN, DomainOwnership);
    assert READS[10] == Ref(PII_TAG_URN, TagProperties);
  }

  /** In a mirrored reading, presence is presence in the store. */
  lemma PresenceIsStored(s: Store, others: seq<Word>)
    ensures DatasetPresent(ReadingOf(s, others)) <==> TargetStored(s)
    ensures DomainPresent(ReadingOf(s, others)) <==> DomainStored(s)
    ensures TagPresent(ReadingOf(s, others)) <==> AspectPresent(EntryOf(s, Ref(PII_TAG_URN, TagProperties)))
  {
    hide Mirror, READS, AspectPresent, EntryOf;
    ReadRefs();
    forall ref | ref in READS {
      EntryRead(s, others, ref);
    }
    hide ReadingOf;
    forall a | a in DATASET_ASPECTS
      ensures Ref(TARGET_URN, a) in READS
    {
      DatasetRead(a);
    }
    forall a | a in DOMAIN_ASPECTS
      ensures Ref(DOMAIN_URN, a) in READS
    {
      DomainRead(a);
    }
  }

  lemma DatasetRead(a: Aspect)
    requires a in DATASET_ASPECTS
    ensures Ref(TARGET_URN, a) in READS
  {
    hide READS;
    ReadRefs();
  }

  lemma DomainRead(a: Aspect)
    requires a in DOMAIN_ASPECTS
    ensures Ref(DOMAIN_URN, a) in READS
  {
    hide READS;
    ReadRefs();
  }

  lemma ExpectedFieldsProjected()
    ensures ProjectedFields(FieldsJson()) == ExpectedFields().items
  {
    ProjectedFieldIs(CUSTOMER_ID, VARCHAR, STRING_TYPE_CLASS, LOGICAL_STRING, true);
    ProjectedFieldIs(EMAIL, VARCHAR, STRING_TYPE_CLASS, LOGICAL_STRING, false);
    ProjectedFieldIs(AMOUNT, NUMBER_TYPE, NUMBER_TYPE_CLASS, LOGICAL_NUMBER, false);
    hide ProjectedField, ExpectedField, FieldJson;
    var p, e := ProjectedFields(FieldsJson()), ExpectedFields().items;
    assert |p| == |e| == 3 && p[0] == e[0] && p[1] == e[1] && p[2] == e[2];
  }

  lemma ProjectedFieldIs(path: Word, native: Word, logicalClass: Word, logical: Word, key: bool)
    requires (logicalClass == STRING_TYPE_CLASS && logical == LOGICAL_STRING)
             || (logicalClass == NUMBER_TYPE_CLASS && logical == LOGICAL_NUMBER)
    ensures ProjectedField(FieldJson(path, native, logicalClass, key)) == ExpectedField(path, native, logical, key)
  {
    var f := FieldJson(path, native, logicalClass, key);
    var fieldType := Dict(map[TYPE_FIELD := Dict(map[logicalClass := Dict(map[])])]);
    assert f.Get(TYPE_FIELD) == fieldType;
    assert fieldType.HasKeys({TYPE_FIELD});
    assert LogicalTypeOf(f) == Str(logical) by {
      LogicalOf(f, logicalClass, logical);
    }
    hide LogicalTypeOf;
    assert f.Get(FIELD_PATH) == Str(path) && f.Get(NATIVE_DATA_TYPE) == Str(native);
    assert f.Get(NULLABLE) == Bool(false) && f.GetOr(IS_PART_OF_KEY, Bool(false)) == Bool(key);
  }

  lemma LogicalOf(f: Json, logicalClass: Word, logical: Word)
    requires f.Dict? && f.Get(TYPE_FIELD) == Dict(map[TYPE_FIELD := Dict(map[logicalClass := Dict(map[])])])
    requires (logicalClass == STRING_TYPE_CLASS && logical == LOGICAL_STRING)
             || (logicalClass == NUMBER_TYPE_CLASS && logical == LOGICAL_NUMBER)
    ensures LogicalTypeOf(f) == Str(logical)
  {
    var union: Json := Dict(map[logicalClass := Dict(map[])]);
    assert f.Get(TYPE_FIELD).fields[TYPE_FIELD] == union;
    if logicalClass == NUMBER_TYPE_CLASS {
      assert STRING_TYPE_CLASS !in union.fields;
      assert union != Dict(map[STRING_TYPE_CLASS := Dict(map[])]);
    }
  }

  /** The emitted schema leaves the email field described and unclassified. */
  lemma EmittedFieldsUnclassified()
    ensures PiiStateOf(List(FieldsJson()), List([])) == PiiAbsent
  {
    PlainField(CUSTOMER_ID, VARCHAR, STRING_TYPE_CLASS, true);
    PlainField(EMAIL, VARCHAR, STRING_TYPE_CLASS, false);
    PlainField(AMOUNT, NUMBER_TYPE, NUMBER_TYPE_CLASS, false);
    hide FieldJson, Addressed, IsEmail, ClassifiedPii, EvidenceValid;
    var all := FieldsJson() + [];
    assert |all| == 3;
    assert all[1] in all && all[1] == FieldJson(EMAIL, VARCHAR, STRING_TYPE_CLASS, false);
    assert all == FieldsJson();
    assert forall f :: f in all ==> f == all[0] || f == all[1] || f == all[2];
  }

  lemma PlainField(path: Word, native: Word, logicalClass: Word, key: bool)
    ensures var f := FieldJson(path, native, logicalClass, key);
            Addressed(f) && (IsEmail(f) <==> path == EMAIL) && !ClassifiedPii(f) && EvidenceValid(f)
  {
    var f := FieldJson(path, native, logicalClass, key);
    assert f.Get(FIELD_PATH) == Str(path) && f.Get(GLOBAL_TAGS) == Null && f.Get(GLOSSARY_TERMS) == Null;
  }

  lemma OwnershipIsExpected(entry: Json)
    requires entry == Wrapped(OwnershipJson())
    ensures OwnerExact(entry)
  {
    var owner: Json := Dict(map[OWNER_FIELD := Str(OWNER_URN), TYPE_FIELD := Str(DATA_OWNER)]);
    assert AspectValue(entry) == OwnershipJson();
    assert OwnershipJson().GetOr(OWNERS, List([])) == List([owner]);
    assert ProjectedOwner(owner) == owner;
    assert OwnerProjection(entry) == ExpectedOwner() by {
      assert OwnerProjection(entry).items == [ProjectedOwner(owner)];
    }
    PyEqReflexive(ExpectedOwner());
  }

  lemma WrappedValue(value: Json)
    requires value.Dict?
    ensures AspectPresent(Wrapped(value)) && AspectValue(Wrapped(value)) == value
  {
  }

  /** A reading with the emitted aspects and neither deprecation nor editable schema has no mismatch. */
  ghost predicate ReadsEmitted(c: Contract, r: Reading) {
    && r.search == FOUND && TagPresent(r)
    && r.Entry(Ref(DOMAIN_URN, DomainProperties)) == Wrapped(DomainPropertiesJson(c))
    && r.Entry(Ref(DOMAIN_URN, DomainOwnership)) == Wrapped(OwnershipJson())
    && r.Entry(Ref(TARGET_URN, DatasetProperties)) == Wrapped(DatasetPropertiesJson(c))
    && r.Entry(Ref(TARGET_URN, SchemaMetadata)) == Wrapped(SchemaJson())
    && r.Entry(Ref(TARGET_URN, Domains)) == Wrapped(DomainsJson())
    && r.Entry(Ref(TARGET_URN, DatasetOwnership)) == Wrapped(OwnershipJson())
    && !AspectPresent(r.Entry(Ref(TARGET_URN, Deprecation)))
    && !AspectPresent(r.Entry(Ref(TARGET_URN, EditableSchemaMetadata)))
  }

  lemma EmittedIsPresent(c: Contract, r: Reading)
    requires ReadsEmitted(c, r)
    ensures DatasetPresent(r) && DomainPresent(r)
    ensures DatasetProps(r) == DatasetPropertiesJson(c) && DomainProps(r) == DomainPropertiesJson(c)
            && Schema(r) == SchemaJson()
  {
    hide TagPresent;
    WrappedValue(DatasetPropertiesJson(c));
    WrappedValue(DomainPropertiesJson(c));
    WrappedValue(SchemaJson());
    hide AspectPresent, AspectValue, Wrapped, DatasetPropertiesJson, DomainPropertiesJson, SchemaJson;
    assert DATASET_ASPECTS[1] == DatasetProperties && DOMAIN_ASPECTS[1] == DomainProperties;
  }

  lemma EmittedMarks(c: Contract, r: Reading)
    requires ReadsEmitted(c, r)
    ensures DatasetMarked(c, r) && DomainMarked(c, r)
  {
    hide ReadsEmitted, ExpectedProvenance;
    EmittedIsPresent(c, r);
    PyEqReflexive(ExpectedProvenance(c));
    hide DatasetPresent, DomainPresent;
    assert DatasetPropertiesJson(c).Get(CUSTOM_PROPERTIES) == ExpectedProvenance(c);
    assert DomainPropertiesJson(c).Get(CUSTOM_PROPERTIES) == ExpectedProvenance(c);
  }

  lemma EmittedSchema(c: Contract, r: Reading)
    requires ReadsEmitted(c, r)
    ensures FieldsExact(r) && Pii(r) == PiiAbsent && DeprecatedOf(r) == Bool(false) && DomainExact(r)
    ensures Schema(r).Get(SCHEMA_NAME) == Str(QUERY) && Schema(r).Get(PLATFORM_FIELD) == Str(PLATFORM_URN)
  {
    hide FieldsJson, ProjectedFields, PiiStateOf, ExpectedFields;
    EmittedIsPresent(c, r);
    assert SchemaJson().GetOr(FIELDS, List([])) == List(FieldsJson());
    assert SchemaFields(r) == List(FieldsJson()) && EditableFields(r) == List([]);
    ExpectedFieldsProjected();
    FieldsAreList();
    PyEqReflexive(ExpectedFields());
    EmittedFieldsUnclassified();
    WrappedValue(DomainsJson());
    assert DomainsJson().Get(DOMAINS_FIELD) == List([Str(DOMAIN_URN)]);
    PyEqReflexive(DomainsOf(r));
  }

  lemma FieldsAreList()
    ensures ExpectedFields().List?
  {
  }

  lemma EmittedTexts(c: Contract, r: Reading)
    requires ReadsEmitted(c, r)
    ensures PyEq(DatasetProps(r).Get(NAME_FIELD), Str(QUERY))
            && PyEq(DatasetProps(r).Get(DESCRIPTION_FIELD), Str(DATASET_DESCRIPTION))
    ensures PyEq(DatasetProps(r).Get(QUALIFIED_NAME), Str(QUERY))
    ensures PyEq(DomainProps(r).Get(NAME_FIELD), Str(DOMAIN_NAME))
            && PyEq(DomainProps(r).Get(DESCRIPTION_FIELD), Str(DOMAIN_DESCRIPTION))
  {
    hide ReadsEmitted, ExpectedProvenance;
    EmittedIsPresent(c, r);
    hide DatasetProps, DomainProps;
  }

  lemma EmittedIsExact(c: Contract, r: Reading)
    requires ReadsEmitted(c, r)
    ensures ClassificationOf(c, r) == Exact
  {
    EmittedIsPresent(c, r);
    EmittedMarks(c, r);
    EmittedSchema(c, r);
    EmittedTexts(c, r);
    OwnershipIsExpected(r.Entry(Ref(TARGET_URN, DatasetOwnership)));
    OwnershipIsExpected(r.Entry(Ref(DOMAIN_URN, DomainOwnership)));
    ClassesMean(c, r);
    hide DatasetPresent, DomainPresent, DatasetMarked, DomainMarked, FieldsExact, DomainExact, OwnerExact, Pii;
    hide DeprecatedOf, Schema;
    hide DatasetProps, DomainProps, PyEq, ClassificationOf, TagPresent, Wrapped;
    PyEqReflexive(Schema(r).Get(SCHEMA_NAME));
    PyEqReflexive(Schema(r).Get(PLATFORM_FIELD));
  }

  lemma RebuiltFound(c: Contract, s: Store)
    ensures Mirror(Rebuilt(c, s), []) == FOUND
  {
    hide Rebuilt, DatasetPropertiesJson, EntryOf;
    RebuiltEntries(c, s);
    ProposedAreObjects(c);
    WrappedValue(DatasetPropertiesJson(c));
    hide AspectPresent, Wrapped;
    assert DATASET_ASPECTS[1] == DatasetProperties;
    assert TargetStored(Rebuilt(c, s));
  }

  lemma NotStored(s: Store)
    ensures !TargetStored(s) ==> !AspectPresent(EntryOf(s, Ref(TARGET_URN, Deprecation)))
    ensures !TargetStored(s) ==> !AspectPresent(EntryOf(s, Ref(TARGET_URN, EditableSchemaMetadata)))
  {
    hide AspectPresent, EntryOf;
    assert DATASET_ASPECTS[5] == Deprecation && DATASET_ASPECTS[6] == EditableSchemaMetadata;
  }

  /** The proposals turn any store without the fixture but with the PII tag into the exact state. */
  lemma RebuiltIsExact(c: Contract, s: Store)
    requires !TargetStored(s) && AspectPresent(EntryOf(s, Ref(PII_TAG_URN, TagProperties)))
    ensures ClassificationOf(c, ReadingOf(Rebuilt(c, s), [])) == Exact
  {
    hide DomainPropertiesJson, OwnershipJson, DatasetPropertiesJson, SchemaJson, DomainsJson, Rebuilt, READS;
    hide ClassificationOf, EntryOf;
    hide TargetStored, AspectPresent, Wrapped, Mirror;
    var t := Rebuilt(c, s);
    RebuiltEntries(c, s);
    RebuiltFound(c, s);
    NotStored(s);
    ReadRefs();
    forall ref | ref in READS {
      EntryRead(t, [], ref);
    }
    EmittedIsExact(c, ReadingOf(t, []));
  }

  lemma ProposedAreObjects(c: Contract)
    ensures DatasetPropertiesJson(c).Dict? && DomainPropertiesJson(c).Dict? && SchemaJson().Dict?
  {
  }
}
