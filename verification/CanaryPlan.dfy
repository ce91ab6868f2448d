/** Sealing a plan over the observed state, and validating one: planner and validator agree, and a
    valid plan's operation is forced by its action and its sealed classification. */
module CanaryPlan {
  import Characters
  import opened Results
  import opened PyJson
  import opened CanaryState

  /** The live endpoint and its isolation marker. */
  datatype Endpoint = Endpoint(gms: string, marker: string)

  /** The reviewed confirmation phrase of a reset; seeding takes none. */
  const RESET_PHRASE := "RESET ARCHON GOVERNED CANARY FIXTURE"
  const NO_CONFIRMATION := ""

  const BEFORE_KEYS: set<Word> := {
    CLASSIFICATION_FIELD, DIGEST_FIELD, RAW_ASPECT_SNAPSHOT_SHA256, EXACT_QUERY_MATCH_COUNT, MISMATCHES_FIELD,
    OWNED_URN_PRESENCE, PROVENANCE, PII_TAG_PRESENT_FIELD}

  const PLAN_KEYS: set<Word> := {
    SCHEMA_VERSION, REPOSITORY, RELEASE_SHA, STATE_CONTRACT_SHA256, GMS_ENDPOINT_FINGERPRINT, ISOLATION_MARKER_SHA256,
    QUERY_BINDING, OWNED_URNS, ACTION, OPERATION, MUTATION_REQUIRED, RESET_CONFIRMATION_SHA256, BEFORE}

  // ---- The sealed summary -------------------------------------------------------------------

  const ALPHABETICAL: seq<Mismatch> := [
    DatasetDomain, DatasetOwner, DatasetPropertiesDiffer, DatasetProvenance,
    Deprecated, DomainOwner, DomainPropertiesDiffer, DomainProvenance,
    EmailPiiPresent, EmailPiiUnknown, ExactOneQueryReadback, PiiTagAbsent,
    QueryFoundUnownedResult, QueryOutsideTarget, TypedSchema]

  function Rank(m: Mismatch): int {
    match m
    case DatasetDomain => 0 case DatasetOwner => 1 case DatasetPropertiesDiffer => 2 case DatasetProvenance => 3
    case Deprecated => 4 case DomainOwner => 5 case DomainPropertiesDiffer => 6 case DomainProvenance => 7
    case EmailPiiPresent => 8 case EmailPiiUnknown => 9 case ExactOneQueryReadback => 10 case PiiTagAbsent => 11
    case QueryFoundUnownedResult => 12 case QueryOutsideTarget => 13 case TypedSchema => 14
  }

  /** The place of a string in code-point order, known here for the names of mismatches only. */
  type Order = o: Word -> int |
    forall a: Mismatch, b: Mismatch :: Rank(a) < Rank(b) ==> o(MismatchWord(a)) < o(MismatchWord(b))
    ghost witness (w: Word) => if w.MismatchWord? then Rank(w.mismatch) else 0

  /** `sorted(set(mismatches))`. */
  function Sorted(mismatches: set<Mismatch>, from: seq<Mismatch>): seq<Json> {
    if from == [] then []
    else (if from[0] in mismatches then [Str(MismatchWord(from[0]))] else []) + Sorted(mismatches, from[1..])
  }

  function Summary(s: State): Json {
    Dict(map[
      CLASSIFICATION_FIELD := Str(ClassificationText(s.classification)),
      DIGEST_FIELD := s.projection,
      RAW_ASPECT_SNAPSHOT_SHA256 := s.raw,
      EXACT_QUERY_MATCH_COUNT := Int(s.matchCount),
      MISMATCHES_FIELD := List(Sorted(s.mismatches, ALPHABETICAL)),
      OWNED_URN_PRESENCE := PresenceList(s.targetPresent, s.domainPresent),
      PROVENANCE := ProvenanceList(s.targetPresent, s.targetMarked, s.domainPresent, s.domainMarked),
      PII_TAG_PRESENT_FIELD := Bool(s.tagPresent)])
  }

  // ---- Planning -----------------------------------------------------------------------------

  /** A full lower-case commit SHA. */
  predicate ReleaseValid(release: Word) {
    release.Other? && Characters.IsHexText(release.text, 40)
  }

  /** Reset refuses a present URN that does not carry the exact provenance marker. */
  predicate ResetProvenance(s: State) {
    (s.targetPresent ==> s.targetMarked) && (s.domainPresent ==> s.domainMarked)
  }

  /** The operation a plan seals, if the controller agrees to plan at all. */
  function OperationOf(action: Word, s: State): Option<Word> {
    if !s.tagPresent then None
    else if action == SEED then
      match s.classification
      case Absent => Some(SEED)
      case Exact => Some(NOOP)
      case Drift => None
    else if QueryOutsideTarget in s.mismatches || !ResetProvenance(s) then None
    else Some(RESET)
  }

  function QueryBindingJson(): Json {
    Dict(map[QUERY_FIELD := Str(QUERY), TARGET_URN_FIELD := Str(TARGET_URN)])
  }

  function OwnedUrnsJson(): Json {
    List([Str(TARGET_URN), Str(DOMAIN_URN)])
  }

  function PlanJson(c: Contract, e: Endpoint, release: Word, action: Word, operation: Word, before: Json): Json {
    Dict(map[
      SCHEMA_VERSION := Str(PLAN_SCHEMA), REPOSITORY := Str(ARCHON_REPOSITORY), RELEASE_SHA := Str(release),
      STATE_CONTRACT_SHA256 := c.digest,
      GMS_ENDPOINT_FINGERPRINT := TextDigest(e.gms), ISOLATION_MARKER_SHA256 := TextDigest(e.marker),
      QUERY_BINDING := QueryBindingJson(), OWNED_URNS := OwnedUrnsJson(),
      ACTION := Str(action), OPERATION := Str(operation), MUTATION_REQUIRED := Bool(operation != NOOP),
      RESET_CONFIRMATION_SHA256 := if action == RESET then TextDigest(RESET_PHRASE) else Null,
      BEFORE := before])
  }

  /** Seeding takes no confirmation, resetting exactly the reviewed phrase; there is no third action. */
  predicate Confirmed(action: Word, confirmation: string) {
    if action == SEED then confirmation == NO_CONFIRMATION else action == RESET && confirmation == RESET_PHRASE
  }

  /** `command_plan` over an inspected state. */
  function PlanFor(c: Contract, e: Endpoint, release: Word, action: Word, confirmation: string,
                   s: State): Option<Json> {
    if !ReleaseValid(release) || !Confirmed(action, confirmation) then None
    else
      match OperationOf(action, s)
      case None => None
      case Some(operation) => Some(PlanJson(c, e, release, action, operation, Summary(s)))
  }

  // ---- Validating ---------------------------------------------------------------------------

  predicate IsHex64(v: Json) {
    PrintsHex64(v, if v.Str? && v.s.Other? then v.s.text else "")
  }

  // Where the source compares with a value that holds no number, its comparison is structural equality
  // (PyJson.NumberlessIsStructural), and is written so here.

  predicate MarkItem(v: Json, urn: Word) {
    v.HasKeys({URN, PRESENT, MARKER_EXACT}) && v.fields[URN] == Str(urn) && v.fields[PRESENT].Bool?
      && v.fields[MARKER_EXACT].Bool?
  }

  predicate ProvenanceValid(v: Json) {
    v.List? && |v.items| == 2 && MarkItem(v.items[0], TARGET_URN) && MarkItem(v.items[1], DOMAIN_URN)
  }

  /** `isinstance` of text throughout and equal to its own sorted set, which is strict ascent. */
  predicate AscendingWords(v: Json, order: Order) {
    && v.List? && (forall i | 0 <= i < |v.items| :: v.items[i].Str?)
    && forall i, j | 0 <= i < j < |v.items| :: order(v.items[i].s) < order(v.items[j].s)
  }

  predicate BeforeValid(v: Json, order: Order) {
    && v.HasKeys(BEFORE_KEYS)
    && v.fields[CLASSIFICATION_FIELD] in {Str(ABSENT_WORD), Str(DRIFT_WORD), Str(EXACT_WORD)}
    && IsHex64(v.fields[DIGEST_FIELD]) && IsHex64(v.fields[RAW_ASPECT_SNAPSHOT_SHA256])
    && v.fields[EXACT_QUERY_MATCH_COUNT].Int? && 0 <= v.fields[EXACT_QUERY_MATCH_COUNT].i <= 1
    && AscendingWords(v.fields[MISMATCHES_FIELD], order)
    && PresencePair(v.fields[OWNED_URN_PRESENCE], URN, PRESENT, TARGET_URN, DOMAIN_URN)
    && ProvenanceValid(v.fields[PROVENANCE])
    && v.fields[PII_TAG_PRESENT_FIELD].Bool?
  }

  predicate HeaderValid(c: Contract, release: Word, v: Json)
    requires v.HasKeys(PLAN_KEYS)
  {
    && v.fields[SCHEMA_VERSION] == Str(PLAN_SCHEMA) && v.fields[REPOSITORY] == Str(ARCHON_REPOSITORY)
    && v.fields[RELEASE_SHA] == Str(release) && PyEq(v.fields[STATE_CONTRACT_SHA256], c.digest)
    && IsHex64(v.fields[GMS_ENDPOINT_FINGERPRINT]) && IsHex64(v.fields[ISOLATION_MARKER_SHA256])
    && v.fields[QUERY_BINDING] == QueryBindingJson() && v.fields[OWNED_URNS] == OwnedUrnsJson()
    && v.fields[ACTION] in {Str(SEED), Str(RESET)}
  }

  predicate TupleValid(action: Json, operation: Json, mutates: Json, confirmation: Json, classification: Json) {
    || (&& action == Str(SEED)
        && (|| (operation == Str(SEED) && mutates == Bool(true) && classification == Str(ABSENT_WORD))
            || (operation == Str(NOOP) && mutates == Bool(false) && classification == Str(EXACT_WORD)))
        && confirmation == Null)
    || (action == Str(RESET) && operation == Str(RESET) && mutates == Bool(true)
        && confirmation == TextDigest(RESET_PHRASE))
  }

  /** Each present URN of the sealed provenance carries the marker. */
  predicate ProvenanceMarked(v: Json)
    requires ProvenanceValid(v)
  {
    && (v.items[0].fields[PRESENT] == Bool(true) ==> v.items[0].fields[MARKER_EXACT] == Bool(true))
    && (v.items[1].fields[PRESENT] == Bool(true) ==> v.items[1].fields[MARKER_EXACT] == Bool(true))
  }

  /** `validate_plan` on the parsed JSON; that the bytes are canonical is the caller's check. */
  predicate ValidPlan(c: Contract, release: Word, order: Order, v: Json) {
    && v.HasKeys(PLAN_KEYS) && HeaderValid(c, release, v)
    && BeforeValid(v.fields[BEFORE], order)
    && TupleValid(v.fields[ACTION], v.fields[OPERATION], v.fields[MUTATION_REQUIRED],
                  v.fields[RESET_CONFIRMATION_SHA256],
                  v.fields[BEFORE].fields[CLASSIFICATION_FIELD])
    && v.fields[BEFORE].fields[PII_TAG_PRESENT_FIELD] == Bool(true)
    && (v.fields[ACTION] == Str(RESET) ==> ProvenanceMarked(v.fields[BEFORE].fields[PROVENANCE]))
  }

  // ---- Agreement ----------------------------------------------------------------------------

  lemma {:induction false} SortedAscends(mismatches: set<Mismatch>, from: seq<Mismatch>, order: Order)
    requires forall i, j :: 0 <= i < j < |from| ==> Rank(from[i]) < Rank(from[j])
    ensures AscendingWords(List(Sorted(mismatches, from)), order)
    ensures forall i :: 0 <= i < |Sorted(mismatches, from)| ==>
              Sorted(mismatches, from)[i].Str? && Sorted(mismatches, from)[i].s.MismatchWord?
                && Sorted(mismatches, from)[i].s.mismatch in from
  {
    if from != [] {
      var rest := Sorted(mismatches, from[1..]);
      SortedAscends(mismatches, from[1..], order);
      forall i | 0 <= i < |rest|
        ensures order(MismatchWord(from[0])) < order(rest[i].s) && rest[i].s.mismatch in from
      {
        var k :| 0 <= k < |from[1..]| && from[1..][k] == rest[i].s.mismatch;
        assert Rank(from[0]) < Rank(from[k + 1]);
      }
    }
  }

  lemma AlphabeticalByRank()
    ensures forall i, j :: 0 <= i < j < |ALPHABETICAL| ==> Rank(ALPHABETICAL[i]) < Rank(ALPHABETICAL[j])
  {
    assert forall i :: 0 <= i < |ALPHABETICAL| ==> Rank(ALPHABETICAL[i]) == i;
  }

  lemma SummaryFields(s: State)
    ensures Summary(s).HasKeys(BEFORE_KEYS)
    ensures Summary(s).fields[CLASSIFICATION_FIELD] == Str(ClassificationText(s.classification))
    ensures Summary(s).fields[DIGEST_FIELD] == s.projection && Summary(s).fields[RAW_ASPECT_SNAPSHOT_SHA256] == s.raw
    ensures Summary(s).fields[EXACT_QUERY_MATCH_COUNT] == Int(s.matchCount)
    ensures Summary(s).fields[MISMATCHES_FIELD] == List(Sorted(s.mismatches, ALPHABETICAL))
    ensures Summary(s).fields[OWNED_URN_PRESENCE]
         == PresenceList(s.targetPresent, s.domainPresent)
    ensures Summary(s).fields[PROVENANCE]
         == ProvenanceList(s.targetPresent, s.targetMarked, s.domainPresent, s.domainMarked)
    ensures Summary(s).fields[PII_TAG_PRESENT_FIELD] == Bool(s.tagPresent)
  {
    hide Sorted, PresenceJson, MarkJson;
    assert Summary(s).fields.Keys == BEFORE_KEYS;
  }

  lemma SummaryIsValid(s: State, order: Order)
    requires s.matchCount <= 1 && s.projection.Digest? && s.raw.Digest?
    ensures BeforeValid(Summary(s), order)
    ensures ProvenanceMarked(Summary(s).fields[PROVENANCE]) <==> ResetProvenance(s)
  {
    hide AscendingWords, Sorted, Rank, Summary, PresenceJson, MarkJson, PresenceItem, MarkItem;
    SummaryFields(s);
    AlphabeticalByRank();
    SortedAscends(s.mismatches, ALPHABETICAL, order);
    PresenceJsonIsItem(TARGET_URN, s.targetPresent);
    PresenceJsonIsItem(DOMAIN_URN, s.domainPresent);
    MarkJsonIsItem(TARGET_URN, s.targetPresent, s.targetMarked);
    MarkJsonIsItem(DOMAIN_URN, s.domainPresent, s.domainMarked);
  }

  lemma PresenceJsonIsItem(urn: Word, present: bool)
    ensures PresenceItem(PresenceJson(urn, present), URN, PRESENT, urn)
  {
  }

  lemma MarkJsonIsItem(urn: Word, present: bool, marked: bool)
    ensures MarkItem(MarkJson(urn, present, marked), urn)
    ensures MarkJson(urn, present, marked).fields[PRESENT] == Bool(present)
    ensures MarkJson(urn, present, marked).fields[MARKER_EXACT] == Bool(marked)
  {
  }

  /** Every plan the planner seals passes the validator for the same contract and release. */
  lemma PlannedIsValid(c: Contract, e: Endpoint, release: Word, action: Word, confirmation: string, r: Reading,
                       order: Order)
    requires PlanFor(c, e, release, action, confirmation, StateOf(c, r)).Some?
    ensures ValidPlan(c, release, order, PlanFor(c, e, release, action, confirmation, StateOf(c, r)).value)
  {
    hide BeforeValid, Summary, StateOf, ProvenanceMarked, ReleaseValid, PyEq, PlanJson, QueryBindingJson, OwnedUrnsJson;
    hide RESET_PHRASE, NO_CONFIRMATION;
    var s := StateOf(c, r);
    StateShape(c, r);
    SummaryIsValid(s, order);
    SummaryFields(s);
    PyEqReflexive(c.digest);
    PlanFields(c, e, release, action, OperationOf(action, s).value, Summary(s));
  }

  lemma StateShape(c: Contract, r: Reading)
    ensures StateOf(c, r).matchCount <= 1 && StateOf(c, r).projection.Digest? && StateOf(c, r).raw.Digest?
  {
  }

  lemma PlanFields(c: Contract, e: Endpoint, release: Word, action: Word, operation: Word, before: Json)
    ensures var v := PlanJson(c, e, release, action, operation, before);
            && v.HasKeys(PLAN_KEYS)
            && v.fields[SCHEMA_VERSION] == Str(PLAN_SCHEMA) && v.fields[REPOSITORY] == Str(ARCHON_REPOSITORY)
            && v.fields[RELEASE_SHA] == Str(release) && v.fields[STATE_CONTRACT_SHA256] == c.digest
            && v.fields[GMS_ENDPOINT_FINGERPRINT] == TextDigest(e.gms)
            && v.fields[ISOLATION_MARKER_SHA256] == TextDigest(e.marker)
            && v.fields[QUERY_BINDING] == QueryBindingJson() && v.fields[OWNED_URNS] == OwnedUrnsJson()
            && v.fields[ACTION] == Str(action) && v.fields[OPERATION] == Str(operation)
            && v.fields[MUTATION_REQUIRED] == Bool(operation != NOOP)
            && v.fields[RESET_CONFIRMATION_SHA256] == (if action == RESET then TextDigest(RESET_PHRASE) else Null)
            && v.fields[BEFORE] == before
  {
    hide QueryBindingJson, OwnedUrnsJson, RESET_PHRASE;
    assert PlanJson(c, e, release, action, operation, before).fields.Keys == PLAN_KEYS;
  }

  /** What the action and the sealed classification force; a seed over drift forces nothing and is no plan. */
  function ForcedOperation(action: Json, classification: Json): Json {
    if action == Str(RESET) then Str(RESET)
    else if classification == Str(ABSENT_WORD) then Str(SEED)
    else if classification == Str(EXACT_WORD) then Str(NOOP)
    else Null
  }

  /** In any valid plan, whoever wrote it, the operation and the mutation flag follow from action and classification. */
  lemma OperationIsForced(c: Contract, release: Word, order: Order, v: Json)
    requires ValidPlan(c, release, order, v)
    ensures v.fields[OPERATION] == ForcedOperation(v.fields[ACTION], v.fields[BEFORE].fields[CLASSIFICATION_FIELD])
    ensures v.fields[OPERATION] != Null
    ensures v.fields[MUTATION_REQUIRED] == Bool(v.fields[OPERATION] != Str(NOOP))
  {
    hide HeaderValid, ProvenanceMarked, AscendingWords, PresencePair, IsHex64, RESET_PHRASE;
  }
}
