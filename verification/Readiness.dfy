/** The fail-closed readiness decision: which blockers stop the evidence from being sealed, and
    what their absence amounts to. */
module Readiness {
  import opened Results

  datatype Standing = Pass | Fail | UserGated
  datatype Criterion = UseOfDataHub | TechnicalExecution | Originality | RealWorldUsefulness | SubmissionQuality
  datatype Axis = Engineering | Security
  datatype Role = Eligibility | OperationalMonitor | Recommended | PostSubmit

  /** A JavaScript number used as a weight. */
  datatype Weight = Finite(value: real) | NonFinite {
    predicate Valid() {
      Finite? && value > 0.0
    }
  }

  datatype Check = Check(id: string, criterion: Criterion, weight: Weight, standing: Standing, title: string,
                         evidence: string)
  datatype Capability = Capability(id: string, axis: Axis, weight: Weight, passed: bool, title: string,
                                   evidence: string)
  datatype Proof = Proof(id: string, criterion: Criterion, role: Role)

  /** What the report says about a blocker: the evidence of a failed check, or a broken structure rule. */
  datatype Blocker = Evidence(title: string, evidence: string) | Structure

  const CRITERIA: seq<Criterion> :=
    [UseOfDataHub, TechnicalExecution, Originality, RealWorldUsefulness, SubmissionQuality]

  const AXES: seq<Axis> := [Engineering, Security]

  /** The registry of external proofs. */
  const REGISTRY: seq<Proof> := [
    Proof("D4", UseOfDataHub, Eligibility),
    Proof("U3", RealWorldUsefulness, Eligibility),
    Proof("SQ3", SubmissionQuality, Eligibility),
    Proof("SQ4", SubmissionQuality, Eligibility),
    Proof("SQ5", SubmissionQuality, Eligibility),
    Proof("SQ6", SubmissionQuality, Eligibility),
    Proof("SQ7", SubmissionQuality, Eligibility),
    Proof("SQ8", SubmissionQuality, Eligibility),
    Proof("SQ9", SubmissionQuality, Recommended),
    Proof("SQ10", SubmissionQuality, OperationalMonitor),
    Proof("SQ11", SubmissionQuality, PostSubmit)
  ]

  lemma RegistryIsDistinct()
    ensures DistinctStrings(ProofIds(REGISTRY))
  {
  }

  predicate IsExternal(id: string) {
    exists p | p in REGISTRY :: p.id == id
  }

  /** The registry gives the id this role. */
  predicate HasRole(id: string, role: Role) {
    exists p | p in REGISTRY :: p.id == id && p.role == role
  }

  /** Checks that eligibility depends on: all but recommendations and post-submit confirmations. */
  predicate CountsForSubmission(c: Check) {
    !HasRole(c.id, Recommended) && !HasRole(c.id, PostSubmit)
  }

  predicate Fails(c: Check) {
    c.standing == Fail && CountsForSubmission(c)
  }

  function CheckIds(checks: seq<Check>): seq<string> {
    seq(|checks|, i requires 0 <= i < |checks| => checks[i].id)
  }

  function CapabilityIds(capabilities: seq<Capability>): seq<string> {
    seq(|capabilities|, i requires 0 <= i < |capabilities| => capabilities[i].id)
  }

  function ProofIds(proofs: seq<Proof>): seq<string> {
    seq(|proofs|, i requires 0 <= i < |proofs| => proofs[i].id)
  }

  function CriterionName(c: Criterion): string {
    match c
    case UseOfDataHub => "use-of-datahub"
    case TechnicalExecution => "technical-execution"
    case Originality => "originality"
    case RealWorldUsefulness => "real-world-usefulness"
    case SubmissionQuality => "submission-quality"
  }

  function AxisName(a: Axis): string {
    match a
    case Engineering => "engineering"
    case Security => "security"
  }

  // ---- The blockers, group by group ---------------------------------------------------------

  function AdditionalIds(additional: seq<(string, Blocker)>): set<string> {
    set b | b in additional :: b.0
  }

  function FailedIds(checks: seq<Check>): set<string> {
    set c | c in checks && Fails(c) :: c.id
  }

  function IncapableIds(capabilities: seq<Capability>): set<string> {
    set c | c in capabilities && !c.passed :: c.id
  }

  /** The ids that occur more than once. */
  function Repeated(ids: seq<string>): set<string> {
    set id | id in ids && multiset(ids)[id] > 1
  }

  function Prefixed(prefix: string, ids: set<string>): set<string> {
    set id | id in ids :: prefix + id
  }

  function SharedIds(checks: seq<Check>, capabilities: seq<Capability>): set<string> {
    set c | c in capabilities && c.id in CheckIds(checks) :: c.id
  }

  function UnweightedIds(checks: seq<Check>): set<string> {
    set c | c in checks && !c.weight.Valid() :: c.id
  }

  function UnweightedCapabilityIds(capabilities: seq<Capability>): set<string> {
    set c | c in capabilities && !c.weight.Valid() :: c.id
  }

  predicate HasCriterion(checks: seq<Check>, criterion: Criterion) {
    exists c | c in checks :: c.criterion == criterion
  }

  predicate HasAxis(capabilities: seq<Capability>, axis: Axis) {
    exists c | c in capabilities :: c.axis == axis
  }

  function MissingCriteria(checks: seq<Check>): set<string> {
    set c | c in CRITERIA && !HasCriterion(checks, c) :: CriterionName(c)
  }

  function MissingAxes(capabilities: seq<Capability>): set<string> {
    set a | a in AXES && !HasAxis(capabilities, a) :: AxisName(a)
  }

  /** The proof's only check sits under another criterion. */
  predicate Misplaced(checks: seq<Check>, p: Proof) {
    && multiset(CheckIds(checks))[p.id] == 1
    && exists c | c in checks :: c.id == p.id && c.criterion != p.criterion
  }

  function AbsentProofs(checks: seq<Check>, proofs: seq<Proof>): set<string> {
    set p | p in proofs && multiset(CheckIds(checks))[p.id] == 0 :: p.id
  }

  function MisplacedProofs(checks: seq<Check>, proofs: seq<Proof>): set<string> {
    set p | p in proofs && Misplaced(checks, p) :: p.id
  }

  /** Blockers whose evidence is a failed check or was handed in. */
  function EvidenceBlockerIds(checks: seq<Check>, capabilities: seq<Capability>,
                              additional: seq<(string, Blocker)>): set<string> {
    AdditionalIds(additional) + FailedIds(checks) + IncapableIds(capabilities)
  }

  const DUPLICATE_CHECK := "STRUCTURE:duplicate-check-id:"
  const DUPLICATE_CAPABILITY := "STRUCTURE:duplicate-capability-id:"
  const DUPLICATE_PROOF := "STRUCTURE:duplicate-external-proof-id:"
  const CROSS_REGISTRY := "STRUCTURE:cross-registry-id:"
  const CHECK_WEIGHT := "STRUCTURE:check-weight:"
  const CAPABILITY_WEIGHT := "STRUCTURE:capability-weight:"
  const CRITERION := "STRUCTURE:criterion:"
  const CAPABILITY_AXIS := "STRUCTURE:capability-axis:"
  const EXTERNAL_PROOF := "STRUCTURE:external-proof:"
  const EXTERNAL_PROOF_MAPPING := "STRUCTURE:external-proof-mapping:"

  /** Blockers about ids: within a registry and across the two. */
  function IdentityBlockerIds(checks: seq<Check>, capabilities: seq<Capability>): set<string> {
    Prefixed(DUPLICATE_CHECK, Repeated(CheckIds(checks)))
    + Prefixed(DUPLICATE_CAPABILITY, Repeated(CapabilityIds(capabilities)))
    + Prefixed(DUPLICATE_PROOF, Repeated(ProofIds(REGISTRY)))
    + Prefixed(CROSS_REGISTRY, SharedIds(checks, capabilities))
  }

  function WeightBlockerIds(checks: seq<Check>, capabilities: seq<Capability>): set<string> {
    Prefixed(CHECK_WEIGHT, UnweightedIds(checks)) + Prefixed(CAPABILITY_WEIGHT, UnweightedCapabilityIds(capabilities))
  }

  /** Blockers about what must be represented. */
  function CoverageBlockerIds(checks: seq<Check>, capabilities: seq<Capability>): set<string> {
    Prefixed(CRITERION, MissingCriteria(checks))
    + Prefixed(CAPABILITY_AXIS, MissingAxes(capabilities))
    + Prefixed(EXTERNAL_PROOF, AbsentProofs(checks, REGISTRY))
    + Prefixed(EXTERNAL_PROOF_MAPPING, MisplacedProofs(checks, REGISTRY))
  }

  /** The ids of every internal blocker. */
  function BlockerIds(checks: seq<Check>, capabilities: seq<Capability>,
                      additional: seq<(string, Blocker)>): set<string> {
    EvidenceBlockerIds(checks, capabilities, additional)
    + IdentityBlockerIds(checks, capabilities)
    + WeightBlockerIds(checks, capabilities)
    + CoverageBlockerIds(checks, capabilities)
  }

  // ---- Recording them -----------------------------------------------------------------------

  lemma TakeOne<T>(items: seq<T>, i: nat)
    requires i < |items|
    ensures forall x :: x in items[..i + 1] <==> x in items[..i] || x == items[i]
  {
    assert items[..i + 1] == items[..i] + [items[i]];
  }

  lemma TakeAll<T>(items: seq<T>)
    ensures items[..|items|] == items
  {
  }

  /** What each item adds to the blockers: its id and its text, or nothing. */
  function AdditionalNotes(additional: seq<(string, Blocker)>): seq<Option<(string, Blocker)>> {
    seq(|additional|, i requires 0 <= i < |additional| => Some(additional[i]))
  }

  function CheckNotes(checks: seq<Check>): seq<Option<(string, Blocker)>> {
    seq(|checks|, i requires 0 <= i < |checks| =>
      if Fails(checks[i]) then Some((checks[i].id, Evidence(checks[i].title, checks[i].evidence))) else None)
  }

  function CapabilityNotes(capabilities: seq<Capability>): seq<Option<(string, Blocker)>> {
    seq(|capabilities|, i requires 0 <= i < |capabilities| =>
      if capabilities[i].passed then None
      else Some((capabilities[i].id, Evidence(capabilities[i].title, capabilities[i].evidence))))
  }

  predicate About(note: Option<(string, Blocker)>, id: string) {
    note.Some? && note.value.0 == id
  }

  /** Among the first n notes the last about the id says b. */
  ghost predicate LastNote(notes: seq<Option<(string, Blocker)>>, n: nat, id: string, b: Blocker)
    requires n <= |notes|
  {
    exists i | 0 <= i < n :: notes[i] == Some((id, b)) && forall j | i < j < n :: !About(notes[j], id)
  }

  /** Among the first n notes the first about the id says b. */
  ghost predicate FirstNote(notes: seq<Option<(string, Blocker)>>, n: nat, id: string, b: Blocker)
    requires n <= |notes|
  {
    exists i | 0 <= i < n :: notes[i] == Some((id, b)) && forall j | 0 <= j < i :: !About(notes[j], id)
  }

  lemma LastNoteStep(notes: seq<Option<(string, Blocker)>>, n: nat, id: string, b: Blocker)
    requires n < |notes|
    ensures notes[n] == Some((id, b)) ==> LastNote(notes, n + 1, id, b)
    ensures LastNote(notes, n, id, b) && !About(notes[n], id) ==> LastNote(notes, n + 1, id, b)
  {
  }

  lemma FirstNoteStep(notes: seq<Option<(string, Blocker)>>, n: nat, id: string, b: Blocker)
    requires n < |notes|
    ensures FirstNote(notes, n, id, b) ==> FirstNote(notes, n + 1, id, b)
  {
  }

  /** The text of an evidence blocker: that of the last failed check with its id, without one that of the last
      item handed in, and without either that of the first incapable capability. */
  ghost predicate Told(checks: seq<Check>, capabilities: seq<Capability>, additional: seq<(string, Blocker)>,
                       id: string, b: Blocker) {
    var notes := AdditionalNotes(additional) + CheckNotes(checks);
    if id in AdditionalIds(additional) + FailedIds(checks) then LastNote(notes, |notes|, id, b)
    else FirstNote(CapabilityNotes(capabilities), |capabilities|, id, b)
  }

  lemma AdditionalStep(additional: seq<(string, Blocker)>, i: nat)
    requires i < |additional|
    ensures AdditionalIds(additional[..i + 1]) == AdditionalIds(additional[..i]) + {additional[i].0}
  {
    TakeOne(additional, i);
  }

  lemma FailedStep(checks: seq<Check>, i: nat)
    requires i < |checks|
    ensures FailedIds(checks[..i + 1]) == FailedIds(checks[..i]) + if Fails(checks[i]) then {checks[i].id} else {}
  {
    hide Fails;
    TakeOne(checks, i);
  }

  lemma IncapableStep(capabilities: seq<Capability>, i: nat)
    requires i < |capabilities|
    ensures IncapableIds(capabilities[..i + 1])
            == IncapableIds(capabilities[..i]) + if capabilities[i].passed then {} else {capabilities[i].id}
  {
    TakeOne(capabilities, i);
  }

  lemma NoIds()
    ensures AdditionalIds([]) == {} && FailedIds([]) == {} && IncapableIds([]) == {}
  {
  }

  method RecordEvidence(checks: seq<Check>, capabilities: seq<Capability>, additional: seq<(string, Blocker)>)
    returns (internal: map<string, Blocker>)
    ensures internal.Keys == EvidenceBlockerIds(checks, capabilities, additional)
    ensures forall id :: id in internal ==> Told(checks, capabilities, additional, id, internal[id])
  {
    hide Fails, LastNote, FirstNote, AdditionalIds, FailedIds, IncapableIds;
    ghost var notes, extra := AdditionalNotes(additional) + CheckNotes(checks), CapabilityNotes(capabilities);
    internal := map[];
    NoIds();
    assert additional[..0] == [] && checks[..0] == [] && capabilities[..0] == [];
    for i := 0 to |additional|
      invariant internal.Keys == AdditionalIds(additional[..i])
      invariant forall id :: id in internal ==> LastNote(notes, i, id, internal[id])
    {
      AdditionalStep(additional, i);
      internal := internal[additional[i].0 := additional[i].1];
      forall id | id in internal {
        LastNoteStep(notes, i, id, internal[id]);
      }
    }
    TakeAll(additional);
    for i := 0 to |checks|
      invariant internal.Keys == AdditionalIds(additional) + FailedIds(checks[..i])
      invariant forall id :: id in internal ==> LastNote(notes, |additional| + i, id, internal[id])
    {
      FailedStep(checks, i);
      assert notes[|additional| + i] == CheckNotes(checks)[i];
      if Fails(checks[i]) {
        internal := internal[checks[i].id := Evidence(checks[i].title, checks[i].evidence)];
      }
      forall id | id in internal {
        LastNoteStep(notes, |additional| + i, id, internal[id]);
      }
    }
    TakeAll(checks);
    ghost var recorded := internal;
    for i := 0 to |capabilities|
      invariant internal.Keys == recorded.Keys + IncapableIds(capabilities[..i])
      invariant forall id :: id in recorded ==> internal[id] == recorded[id]
      invariant forall id :: id in internal && id !in recorded ==> FirstNote(extra, i, id, internal[id])
    {
      IncapableStep(capabilities, i);
      var c := capabilities[i];
      ghost var was := internal;
      forall id | id in was && id !in recorded {
        FirstNoteStep(extra, i, id, was[id]);
      }
      if !c.passed && c.id !in internal {
        NewIsFirst(capabilities, i);
        internal := internal[c.id := Evidence(c.title, c.evidence)];
      }
    }
    TakeAll(capabilities);
  }

  lemma NewIsFirst(capabilities: seq<Capability>, i: nat)
    requires i < |capabilities| && !capabilities[i].passed && capabilities[i].id !in IncapableIds(capabilities[..i])
    ensures var c := capabilities[i];
            FirstNote(CapabilityNotes(capabilities), i + 1, c.id, Evidence(c.title, c.evidence))
  {
    var c := capabilities[i];
    assert CapabilityNotes(capabilities)[i] == Some((c.id, Evidence(c.title, c.evidence)));
    forall j | 0 <= j < i
      ensures !About(CapabilityNotes(capabilities)[j], capabilities[i].id)
    {
      assert capabilities[j] in capabilities[..i];
    }
  }

  method DuplicateIds(ids: seq<string>) returns (r: set<string>)
    ensures r == Repeated(ids)
  {
    var counts: map<string, nat> := map[];
    for i := 0 to |ids|
      invariant forall id :: id in counts <==> id in ids[..i]
      invariant forall id :: id in counts ==> counts[id] == multiset(ids[..i])[id]
    {
      assert ids[..i + 1] == ids[..i] + [ids[i]];
      counts := counts[ids[i] := (if ids[i] in counts then counts[ids[i]] else 0) + 1];
    }
    TakeAll(ids);
    r := set id | id in counts && counts[id] > 1;
  }

  /** Record a structure blocker under the prefix for each id. */
  method RecordStructure(internal: map<string, Blocker>, prefix: string, ids: set<string>)
    returns (r: map<string, Blocker>)
    ensures r.Keys == internal.Keys + Prefixed(prefix, ids)
  {
    r := internal;
    var rest := ids;
    while rest != {}
      invariant rest <= ids
      invariant r.Keys == internal.Keys + Prefixed(prefix, ids - rest)
    {
      var id :| id in rest;
      rest := rest - {id};
      assert ids - rest == (ids - rest - {id}) + {id};
      r := r[prefix + id := Structure];
    }
    assert ids - rest == ids;
  }

  method RecordIdentity(internal: map<string, Blocker>, checks: seq<Check>, capabilities: seq<Capability>)
    returns (r: map<string, Blocker>)
    ensures r.Keys == internal.Keys + IdentityBlockerIds(checks, capabilities)
  {
    hide Prefixed, Repeated, SharedIds;
    var duplicates := DuplicateIds(CheckIds(checks));
    r := RecordStructure(internal, DUPLICATE_CHECK, duplicates);
    duplicates := DuplicateIds(CapabilityIds(capabilities));
    r := RecordStructure(r, DUPLICATE_CAPABILITY, duplicates);
    duplicates := DuplicateIds(ProofIds(REGISTRY));
    r := RecordStructure(r, DUPLICATE_PROOF, duplicates);
    r := RecordStructure(r, CROSS_REGISTRY, SharedIds(checks, capabilities));
  }

  method RecordWeights(internal: map<string, Blocker>, checks: seq<Check>, capabilities: seq<Capability>)
    returns (r: map<string, Blocker>)
    ensures r.Keys == internal.Keys + WeightBlockerIds(checks, capabilities)
  {
    r := internal;
    for i := 0 to |checks|
      invariant r.Keys == internal.Keys + Prefixed(CHECK_WEIGHT, UnweightedIds(checks[..i]))
    {
      TakeOne(checks, i);
      if !checks[i].weight.Valid() {
        assert UnweightedIds(checks[..i + 1]) == UnweightedIds(checks[..i]) + {checks[i].id};
        r := r[CHECK_WEIGHT + checks[i].id := Structure];
      } else {
        assert UnweightedIds(checks[..i + 1]) == UnweightedIds(checks[..i]);
      }
    }
    TakeAll(checks);
    for i := 0 to |capabilities|
      invariant r.Keys == internal.Keys + Prefixed(CHECK_WEIGHT, UnweightedIds(checks))
                          + Prefixed(CAPABILITY_WEIGHT, UnweightedCapabilityIds(capabilities[..i]))
    {
      TakeOne(capabilities, i);
      if !capabilities[i].weight.Valid() {
        assert UnweightedCapabilityIds(capabilities[..i + 1]) == UnweightedCapabilityIds(capabilities[..i])
               + {capabilities[i].id};
        r := r[CAPABILITY_WEIGHT + capabilities[i].id := Structure];
      } else {
        assert UnweightedCapabilityIds(capabilities[..i + 1]) == UnweightedCapabilityIds(capabilities[..i]);
      }
    }
    TakeAll(capabilities);
  }

  /** What the registry loop records for the first proofs. */
  function RegistryBlockerIds(checks: seq<Check>, proofs: seq<Proof>): set<string> {
    Prefixed(EXTERNAL_PROOF, AbsentProofs(checks, proofs))
      + Prefixed(EXTERNAL_PROOF_MAPPING, MisplacedProofs(checks, proofs))
  }

  lemma RegistryStep(checks: seq<Check>, proofs: seq<Proof>, p: Proof)
    ensures RegistryBlockerIds(checks, proofs + [p]) == RegistryBlockerIds(checks, proofs)
      + (if multiset(CheckIds(checks))[p.id] == 0 then {EXTERNAL_PROOF + p.id} else {})
      + (if Misplaced(checks, p) then {EXTERNAL_PROOF_MAPPING + p.id} else {})
  {
    assert AbsentProofs(checks, proofs + [p]) == AbsentProofs(checks, proofs)
      + (if multiset(CheckIds(checks))[p.id] == 0 then {p.id} else {});
    assert MisplacedProofs(checks, proofs + [p]) == MisplacedProofs(checks, proofs)
           + (if Misplaced(checks, p) then {p.id} else {});
  }

  method RecordRegistry(internal: map<string, Blocker>, checks: seq<Check>) returns (r: map<string, Blocker>)
    ensures r.Keys == internal.Keys + RegistryBlockerIds(checks, REGISTRY)
  {
    hide RegistryBlockerIds, Misplaced;
    r := internal;
    assert RegistryBlockerIds(checks, []) == {} by {
      NoRegistryBlockers(checks);
    }
    for i := 0 to |REGISTRY|
      invariant r.Keys == internal.Keys + RegistryBlockerIds(checks, REGISTRY[..i])
    {
      var p := REGISTRY[i];
      assert REGISTRY[..i + 1] == REGISTRY[..i] + [p];
      RegistryStep(checks, REGISTRY[..i], p);
      MisplacedIsPresent(checks, p);
      if multiset(CheckIds(checks))[p.id] == 0 {
        r := r[EXTERNAL_PROOF + p.id := Structure];
      } else if Misplaced(checks, p) {
        r := r[EXTERNAL_PROOF_MAPPING + p.id := Structure];
      }
    }
    TakeAll(REGISTRY);
  }

  lemma NoRegistryBlockers(checks: seq<Check>)
    ensures RegistryBlockerIds(checks, []) == {}
  {
  }

  lemma MisplacedIsPresent(checks: seq<Check>, p: Proof)
    ensures Misplaced(checks, p) ==> multiset(CheckIds(checks))[p.id] != 0
  {
  }

  method RecordCoverage(internal: map<string, Blocker>, checks: seq<Check>, capabilities: seq<Capability>)
    returns (r: map<string, Blocker>)
    ensures r.Keys == internal.Keys + CoverageBlockerIds(checks, capabilities)
  {
    hide Prefixed, MissingCriteria, MissingAxes, AbsentProofs, MisplacedProofs;
    r := RecordStructure(internal, CRITERION, MissingCriteria(checks));
    r := RecordStructure(r, CAPABILITY_AXIS, MissingAxes(capabilities));
    r := RecordRegistry(r, checks);
  }

  datatype Submission = Submission(evidenceCompleteForSealing: bool, postSubmitEvidenceComplete: bool,
                                   internalBlockers: map<string, Blocker>)

  predicate CompleteForSealing(checks: seq<Check>, capabilities: seq<Capability>, additional: seq<(string, Blocker)>) {
    && BlockerIds(checks, capabilities, additional) == {}
    && (forall c | c in checks :: CountsForSubmission(c) ==> c.standing == Pass)
    && (forall c | c in capabilities :: c.passed)
  }

  predicate PostSubmitConfirmed(checks: seq<Check>) {
    multiset(CheckIds(checks))["SQ11"] == 1 && exists c | c in checks :: c.id == "SQ11" && c.standing == Pass
  }

  method EvaluateSubmission(checks: seq<Check>, capabilities: seq<Capability>, additional: seq<(string, Blocker)>)
    returns (r: Submission)
    ensures r.internalBlockers.Keys == BlockerIds(checks, capabilities, additional)
    ensures r.evidenceCompleteForSealing <==> Sealable(checks, capabilities, additional)
    ensures r.postSubmitEvidenceComplete <==> PostSubmitConfirmed(checks)
  {
    hide EvidenceBlockerIds, IdentityBlockerIds, WeightBlockerIds, CoverageBlockerIds, CountsForSubmission, Fails;
    hide Sealable, PostSubmitConfirmed;
    var internal := RecordEvidence(checks, capabilities, additional);
    internal := RecordIdentity(internal, checks, capabilities);
    internal := RecordWeights(internal, checks, capabilities);
    internal := RecordCoverage(internal, checks, capabilities);
    var everyCheck := forall c | c in checks :: CountsForSubmission(c) ==> c.standing == Pass;
    var everyCapability := forall c | c in capabilities :: c.passed;
    r := Submission(|internal| == 0 && everyCheck && everyCapability, PostSubmitConfirmed(checks), internal);
    assert |internal| == 0 <==> internal.Keys == {};
    SealingIsExact(checks, capabilities, additional);
  }

  // ---- Sealing is exact ---------------------------------------------------------------------

  ghost predicate DistinctStrings(ids: seq<string>) {
    forall i, j :: 0 <= i < j < |ids| ==> ids[i] != ids[j]
  }

  /** The proof has exactly one check, under its own criterion. */
  ghost predicate Represented(checks: seq<Check>, p: Proof) {
    exists k :: 0 <= k < |checks| && checks[k].id == p.id && checks[k].criterion == p.criterion &&
      forall i :: 0 <= i < |checks| && i != k ==> checks[i].id != p.id
  }

  /** No id occurs twice within a registry or in both. */
  ghost predicate Unambiguous(checks: seq<Check>, capabilities: seq<Capability>) {
    && DistinctStrings(CheckIds(checks)) && DistinctStrings(CapabilityIds(capabilities))
    && (forall c, d :: c in checks && d in capabilities ==> c.id != d.id)
  }

  ghost predicate Weighted(checks: seq<Check>, capabilities: seq<Capability>) {
    && (forall c :: c in checks ==> c.weight.Valid())
    && (forall c :: c in capabilities ==> c.weight.Valid())
  }

  /** All five criteria, both axes and every external proof are represented. */
  ghost predicate Covered(checks: seq<Check>, capabilities: seq<Capability>) {
    && (forall criterion: Criterion :: HasCriterion(checks, criterion))
    && (forall axis: Axis :: HasAxis(capabilities, axis))
    && (forall p :: p in REGISTRY ==> Represented(checks, p))
  }

  /** What sealing requires, said outright. */
  ghost predicate Sealable(checks: seq<Check>, capabilities: seq<Capability>, additional: seq<(string, Blocker)>) {
    && additional == []
    && Unambiguous(checks, capabilities)
    && Weighted(checks, capabilities)
    && Covered(checks, capabilities)
    && (forall c :: c in capabilities ==> c.passed)
    && (forall c :: c in checks && CountsForSubmission(c) ==> c.standing == Pass)
  }

  lemma EmptyUnion(a: set<string>, b: set<string>)
    ensures a + b == {} <==> a == {} && b == {}
  {
    assert a <= a + b && b <= a + b;
  }

  lemma PrefixedEmpty(prefix: string, ids: set<string>)
    ensures Prefixed(prefix, ids) == {} <==> ids == {}
  {
    if id :| id in ids {
      assert prefix + id in Prefixed(prefix, ids);
    }
  }

  /** A value counted twice sits at two places, and conversely. */
  lemma CountedTwice(ids: seq<string>, i: nat, j: nat)
    requires i < j < |ids| && ids[i] == ids[j]
    ensures multiset(ids)[ids[i]] > 1
  {
    var x := ids[i];
    assert ids == ids[..j] + ids[j..];
    assert ids[..j][i] == x && ids[j..][0] == x;
    assert x in multiset(ids[..j]) && x in multiset(ids[j..]);
  }

  lemma {:induction false} TwoPlaces(ids: seq<string>, x: string) returns (i: nat, j: nat)
    requires multiset(ids)[x] > 1
    ensures i < j < |ids| && ids[i] == ids[j] == x
  {
    var n := |ids| - 1;
    assert ids == ids[..n] + [ids[n]];
    if ids[n] == x {
      assert x in ids[..n];
      i :| 0 <= i < n && ids[..n][i] == x;
      j := n;
    } else {
      i, j := TwoPlaces(ids[..n], x);
    }
  }

  lemma NoneRepeated(ids: seq<string>)
    ensures Repeated(ids) == {} <==> DistinctStrings(ids)
  {
    if !DistinctStrings(ids) {
      var i, j :| 0 <= i < j < |ids| && ids[i] == ids[j];
      CountedTwice(ids, i, j);
      assert ids[i] in Repeated(ids);
    } else if x :| x in Repeated(ids) {
      var i, j := TwoPlaces(ids, x);
      assert false;
    }
  }

  lemma NoEvidenceBlockers(checks: seq<Check>, capabilities: seq<Capability>, additional: seq<(string, Blocker)>)
    ensures EvidenceBlockerIds(checks, capabilities, additional) == {} <==>
            additional == [] && (forall c :: c in checks ==> !Fails(c)) && (forall c :: c in capabilities ==> c.passed)
  {
    hide Fails;
    EmptyUnion(AdditionalIds(additional) + FailedIds(checks), IncapableIds(capabilities));
    EmptyUnion(AdditionalIds(additional), FailedIds(checks));
    if additional != [] {
      assert additional[0].0 in AdditionalIds(additional);
    }
    if c :| c in checks && Fails(c) {
      assert c.id in FailedIds(checks);
    }
    if c :| c in capabilities && !c.passed {
      assert c.id in IncapableIds(capabilities);
    }
  }

  lemma SharedEmpty(checks: seq<Check>, capabilities: seq<Capability>)
    ensures SharedIds(checks, capabilities) == {} <==> forall c, d :: c in checks && d in capabilities ==> c.id != d.id
  {
    var ids := CheckIds(checks);
    if c, d :| c in checks && d in capabilities && c.id == d.id {
      var k :| 0 <= k < |checks| && checks[k] == c;
      assert ids[k] == d.id;
      assert d.id in SharedIds(checks, capabilities);
    }
    forall c | c in checks
      ensures c.id in ids
    {
      IdOfMember(checks, c);
    }
  }

  lemma NoIdentityBlockers(checks: seq<Check>, capabilities: seq<Capability>)
    ensures IdentityBlockerIds(checks, capabilities) == {} <==> Unambiguous(checks, capabilities)
  {
    hide DistinctStrings, Repeated, SharedIds, Prefixed;
    var a := Prefixed(DUPLICATE_CHECK, Repeated(CheckIds(checks)));
    var b := Prefixed(DUPLICATE_CAPABILITY, Repeated(CapabilityIds(capabilities)));
    var c := Prefixed(DUPLICATE_PROOF, Repeated(ProofIds(REGISTRY)));
    var d := Prefixed(CROSS_REGISTRY, SharedIds(checks, capabilities));
    EmptyUnion(a + b + c, d);
    EmptyUnion(a + b, c);
    EmptyUnion(a, b);
    PrefixedEmpty(DUPLICATE_CHECK, Repeated(CheckIds(checks)));
    PrefixedEmpty(DUPLICATE_CAPABILITY, Repeated(CapabilityIds(capabilities)));
    PrefixedEmpty(DUPLICATE_PROOF, Repeated(ProofIds(REGISTRY)));
    PrefixedEmpty(CROSS_REGISTRY, SharedIds(checks, capabilities));
    NoneRepeated(CheckIds(checks));
    NoneRepeated(CapabilityIds(capabilities));
    NoneRepeated(ProofIds(REGISTRY));
    RegistryIsDistinct();
    SharedEmpty(checks, capabilities);
  }

  lemma NoWeightBlockers(checks: seq<Check>, capabilities: seq<Capability>)
    ensures WeightBlockerIds(checks, capabilities) == {} <==> Weighted(checks, capabilities)
  {
    EmptyUnion(Prefixed(CHECK_WEIGHT, UnweightedIds(checks)),
               Prefixed(CAPABILITY_WEIGHT, UnweightedCapabilityIds(capabilities)));
    PrefixedEmpty(CHECK_WEIGHT, UnweightedIds(checks));
    PrefixedEmpty(CAPABILITY_WEIGHT, UnweightedCapabilityIds(capabilities));
    if c :| c in checks && !c.weight.Valid() {
      assert c.id in UnweightedIds(checks);
    }
    if c :| c in capabilities && !c.weight.Valid() {
      assert c.id in UnweightedCapabilityIds(capabilities);
    }
  }

  lemma CriteriaCovered(checks: seq<Check>)
    ensures MissingCriteria(checks) == {} <==> forall criterion: Criterion :: HasCriterion(checks, criterion)
  {
    hide HasCriterion;
    forall criterion: Criterion
      ensures criterion in CRITERIA
    {
      match criterion
      case UseOfDataHub => assert CRITERIA[0] == criterion;
      case TechnicalExecution => assert CRITERIA[1] == criterion;
      case Originality => assert CRITERIA[2] == criterion;
      case RealWorldUsefulness => assert CRITERIA[3] == criterion;
      case SubmissionQuality => assert CRITERIA[4] == criterion;
    }
    if criterion: Criterion :| !HasCriterion(checks, criterion) {
      assert CriterionName(criterion) in MissingCriteria(checks);
    }
  }

  lemma AxesCovered(capabilities: seq<Capability>)
    ensures MissingAxes(capabilities) == {} <==> forall axis: Axis :: HasAxis(capabilities, axis)
  {
    hide HasAxis;
    forall axis: Axis
      ensures axis in AXES
    {
      match axis
      case Engineering => assert AXES[0] == axis;
      case Security => assert AXES[1] == axis;
    }
    if axis: Axis :| !HasAxis(capabilities, axis) {
      assert AxisName(axis) in MissingAxes(capabilities);
    }
  }

  lemma IdOfMember(checks: seq<Check>, c: Check)
    requires c in checks
    ensures c.id in CheckIds(checks)
  {
    var k :| 0 <= k < |checks| && checks[k] == c;
    assert CheckIds(checks)[k] == c.id;
  }

  /** Where check ids are distinct, a proof is represented unless it is absent or misplaced. */
  lemma RepresentedIff(checks: seq<Check>, p: Proof)
    requires DistinctStrings(CheckIds(checks))
    ensures Represented(checks, p) <==> multiset(CheckIds(checks))[p.id] != 0 && !Misplaced(checks, p)
  {
    var ids := CheckIds(checks);
    if p.id in ids {
      var k :| 0 <= k < |ids| && ids[k] == p.id;
      NoneRepeated(ids);
      assert p.id !in Repeated(ids);
      assert p.id in multiset(ids);
      assert checks[k] in checks && checks[k].id == p.id;
      forall c | c in checks && c.id == p.id
        ensures c == checks[k]
      {
        var i :| 0 <= i < |checks| && checks[i] == c;
        assert ids[i] == ids[k];
      }
      forall i | 0 <= i < |checks| && i != k
        ensures checks[i].id != p.id
      {
        assert ids[i] != ids[k];
      }
    } else {
      assert p.id !in multiset(ids);
      forall k | 0 <= k < |checks|
        ensures checks[k].id != p.id
      {
        assert ids[k] in ids;
      }
    }
  }

  lemma ProofsCovered(checks: seq<Check>)
    requires DistinctStrings(CheckIds(checks))
    ensures AbsentProofs(checks, REGISTRY) == {} && MisplacedProofs(checks, REGISTRY) == {} <==>
            forall p :: p in REGISTRY ==> Represented(checks, p)
  {
    hide Represented, Misplaced, DistinctStrings;
    forall p | p in REGISTRY
      ensures Represented(checks, p) <==> multiset(CheckIds(checks))[p.id] != 0 && !Misplaced(checks, p)
    {
      RepresentedIff(checks, p);
    }
    if p :| p in REGISTRY && multiset(CheckIds(checks))[p.id] == 0 {
      assert p.id in AbsentProofs(checks, REGISTRY);
    }
    if p :| p in REGISTRY && Misplaced(checks, p) {
      assert p.id in MisplacedProofs(checks, REGISTRY);
    }
  }

  lemma NoCoverageBlockers(checks: seq<Check>, capabilities: seq<Capability>)
    requires DistinctStrings(CheckIds(checks))
    ensures CoverageBlockerIds(checks, capabilities) == {} <==> Covered(checks, capabilities)
  {
    hide MissingCriteria, MissingAxes, AbsentProofs, MisplacedProofs, Prefixed, Represented, HasCriterion, HasAxis;
    hide DistinctStrings;
    var a := Prefixed(CRITERION, MissingCriteria(checks));
    var b := Prefixed(CAPABILITY_AXIS, MissingAxes(capabilities));
    var c := Prefixed(EXTERNAL_PROOF, AbsentProofs(checks, REGISTRY));
    var d := Prefixed(EXTERNAL_PROOF_MAPPING, MisplacedProofs(checks, REGISTRY));
    EmptyUnion(a + b + c, d);
    EmptyUnion(a + b, c);
    EmptyUnion(a, b);
    PrefixedEmpty(CRITERION, MissingCriteria(checks));
    PrefixedEmpty(CAPABILITY_AXIS, MissingAxes(capabilities));
    PrefixedEmpty(EXTERNAL_PROOF, AbsentProofs(checks, REGISTRY));
    PrefixedEmpty(EXTERNAL_PROOF_MAPPING, MisplacedProofs(checks, REGISTRY));
    CriteriaCovered(checks);
    AxesCovered(capabilities);
    ProofsCovered(checks);
  }

  /** Sealing is complete exactly when everything it requires holds: no blocker is missing and none is superfluous. */
  lemma SealingIsExact(checks: seq<Check>, capabilities: seq<Capability>, additional: seq<(string, Blocker)>)
    ensures CompleteForSealing(checks, capabilities, additional) <==> Sealable(checks, capabilities, additional)
  {
    hide EvidenceBlockerIds, IdentityBlockerIds, WeightBlockerIds, CoverageBlockerIds;
    hide CountsForSubmission, Weighted, Covered, DistinctStrings;
    var a, b := EvidenceBlockerIds(checks, capabilities, additional), IdentityBlockerIds(checks, capabilities);
    var c, d := WeightBlockerIds(checks, capabilities), CoverageBlockerIds(checks, capabilities);
    EmptyUnion(a + b + c, d);
    EmptyUnion(a + b, c);
    EmptyUnion(a, b);
    NoEvidenceBlockers(checks, capabilities, additional);
    NoIdentityBlockers(checks, capabilities);
    NoWeightBlockers(checks, capabilities);
    if DistinctStrings(CheckIds(checks)) {
      NoCoverageBlockers(checks, capabilities);
    }
  }
}
