/** External evidence manifests: validation, projection onto the checks, and what the projection
    can and cannot change. */
module ReadinessEvidence {
  import opened Results
  import opened Readiness

  /** An optional prize entry; its status is Pass or UserGated. */
  datatype Bonus = Bonus(id: string, standing: Standing, title: string, evidence: string)

  /** A registered target of evidence; bonuses have no criterion. */
  datatype Slot = Slot(id: string, criterion: Option<string>)

  /** One candidate of the manifest. A malformed one is no record, has other keys or no string id.
      The evidence text and the receipt are present when their own format checks accept them. */
  datatype Candidate =
    | Malformed
    | Candidate(id: string, criterion: string, verified: bool, evidence: Option<string>, receipt: Option<string>)

  /** A manifest that is no record with exactly its four keys is malformed; a field is absent when
      its own format check refuses it. */
  datatype Manifest =
    | MalformedManifest
    | Manifest(schemaValid: bool, binding: Option<string>, proofs: Option<seq<Candidate>>,
               bonuses: Option<seq<Candidate>>)

  datatype Input = Input(expectedBinding: Option<string>, manifest: Manifest)

  /** An accepted candidate. */
  datatype Verified = Verified(id: string, evidence: string, receipt: string)

  datatype Bundle = Bundle(proofs: seq<Verified>, bonuses: seq<Verified>)

  datatype Verdict = NotProvided | Rejected | Accepted

  datatype Projection = Projection(checks: seq<Check>, bonuses: seq<Bonus>, verdict: Verdict, proofIds: seq<string>)

  function ProofSlots(): seq<Slot> {
    seq(|REGISTRY|, i requires 0 <= i < |REGISTRY| => Slot(REGISTRY[i].id, Some(CriterionName(REGISTRY[i].criterion))))
  }

  const BONUS_SLOTS: seq<Slot> := [Slot("BONUS-OSS", None), Slot("BONUS-FEEDBACK", None)]

  // ---- Validation ---------------------------------------------------------------------------

  /** The first slot of the id, as `find` returns it. */
  function Find(slots: seq<Slot>, id: string): (r: Option<Slot>)
    ensures r.Some? ==> r.value in slots && r.value.id == id
    ensures r.None? <==> forall s | s in slots :: s.id != id
  {
    if slots == [] then None
    else if slots[0].id == id then Some(slots[0])
    else Find(slots[1..], id)
  }

  /** The candidate is acceptable on its own. */
  predicate Sound(slots: seq<Slot>, c: Candidate) {
    && c.Candidate? && Find(slots, c.id).Some?
    && (var slot := Find(slots, c.id).value; slot.criterion.None? || slot.criterion.value == c.criterion)
    && c.verified && c.evidence.Some? && c.receipt.Some?
  }

  /** Every candidate is sound and no two name the same target. */
  ghost predicate AllSound(slots: seq<Slot>, candidates: seq<Candidate>) {
    && (forall i :: 0 <= i < |candidates| ==> Sound(slots, candidates[i]))
    && (forall i, j :: 0 <= i < j < |candidates| ==> candidates[i].id != candidates[j].id)
  }

  function Taken(slots: seq<Slot>, c: Candidate): Verified
    requires Sound(slots, c)
  {
    Verified(c.id, c.evidence.value, c.receipt.value)
  }

  /** The verified entries are the candidates, in order. */
  ghost predicate Carries(slots: seq<Slot>, candidates: seq<Candidate>, verified: seq<Verified>) {
    && |verified| == |candidates|
    && forall i :: 0 <= i < |candidates| ==> Sound(slots, candidates[i]) && verified[i] == Taken(slots, candidates[i])
  }

  lemma AllSoundGrows(slots: seq<Slot>, candidates: seq<Candidate>, i: nat)
    requires i < |candidates|
    ensures AllSound(slots, candidates[..i + 1]) <==>
            AllSound(slots, candidates[..i]) && Sound(slots, candidates[i]) &&
            forall j :: 0 <= j < i ==> candidates[j].Candidate? && candidates[j].id != candidates[i].id
  {
    hide Sound;
    var before, after := candidates[..i], candidates[..i + 1];
    assert after[i] == candidates[i];
    assert forall j :: 0 <= j < i ==> after[j] == before[j] == candidates[j];
    SoundIsCandidate(slots, candidates);
  }

  lemma SoundIsCandidate(slots: seq<Slot>, candidates: seq<Candidate>)
    ensures forall i :: 0 <= i < |candidates| && Sound(slots, candidates[i]) ==> candidates[i].Candidate?
  {
  }

  lemma NoneIsSound(slots: seq<Slot>)
    ensures AllSound(slots, [])
  {
  }

  /** The loop of each list: an error for every candidate that is unregistered, repeated or unsound. */
  method CollectVerified(slots: seq<Slot>, candidates: seq<Candidate>) returns (errors: nat, verified: seq<Verified>)
    ensures errors == 0 <==> AllSound(slots, candidates)
    ensures errors == 0 ==> Carries(slots, candidates, verified)
  {
    hide AllSound;
    errors, verified := 0, [];
    var seen: set<string> := {};
    assert candidates[..0] == [];
    NoneIsSound(slots);
    for i := 0 to |candidates|
      invariant errors == 0 <==> AllSound(slots, candidates[..i])
      invariant errors == 0 ==> Carries(slots, candidates[..i], verified)
      invariant errors == 0 ==> forall id :: id in seen <==>
                  exists j :: 0 <= j < i && candidates[j].Candidate? && candidates[j].id == id
    {
      var c := candidates[i];
      AllSoundGrows(slots, candidates, i);
      if errors == 0 {
        CarriedAreCandidates(slots, candidates, i, verified);
      }
      if c.Malformed? || Find(slots, c.id).None? || c.id in seen {
        errors := errors + 1;
      } else {
        seen := seen + {c.id};
        if Sound(slots, c) {
          verified := verified + [Verified(c.id, c.evidence.value, c.receipt.value)];
        } else {
          errors := errors + 1;
        }
      }
    }
    assert candidates[..|candidates|] == candidates;
  }

  lemma CarriedAreCandidates(slots: seq<Slot>, candidates: seq<Candidate>, i: nat, verified: seq<Verified>)
    requires i <= |candidates| && Carries(slots, candidates[..i], verified)
    ensures forall j :: 0 <= j < i ==> candidates[j].Candidate?
  {
    assert forall j :: 0 <= j < i ==> candidates[..i][j] == candidates[j];
  }

  /** Bound to the independently verified run, of the right schema, with both lists present and sound. */
  ghost predicate Acceptable(input: Input) {
    var m := input.manifest;
    && m.Manifest? && m.schemaValid
    && input.expectedBinding.Some? && m.binding == input.expectedBinding
    && m.proofs.Some? && AllSound(ProofSlots(), m.proofs.value)
    && m.bonuses.Some? && AllSound(BONUS_SLOTS, m.bonuses.value)
  }

  method ValidateManifest(input: Input) returns (r: Option<Bundle>)
    ensures r.Some? <==> Acceptable(input)
    ensures r.Some? ==> Carries(ProofSlots(), input.manifest.proofs.value, r.value.proofs)
    ensures r.Some? ==> Carries(BONUS_SLOTS, input.manifest.bonuses.value, r.value.bonuses)
  {
    hide AllSound, Carries, ProofSlots;
    var errors := if input.expectedBinding.None? then 1 else 0;
    var m := input.manifest;
    if m.MalformedManifest? {
      return None;
    }
    if !m.schemaValid {
      errors := errors + 1;
    }
    if m.binding.None? {
      errors := errors + 1;
    }
    if input.expectedBinding.Some? && m.binding.Some? && m.binding != input.expectedBinding {
      errors := errors + 1;
    }
    var proofs, bonuses := [], [];
    if m.proofs.None? {
      errors := errors + 1;
    } else {
      var wrong;
      wrong, proofs := CollectVerified(ProofSlots(), m.proofs.value);
      errors := errors + wrong;
    }
    if m.bonuses.None? {
      errors := errors + 1;
    } else {
      var wrong;
      wrong, bonuses := CollectVerified(BONUS_SLOTS, m.bonuses.value);
      errors := errors + wrong;
    }
    if errors > 0 || !m.schemaValid || m.binding.None? || input.expectedBinding.None? {
      return None;
    }
    return Some(Bundle(proofs, bonuses));
  }

  // ---- Projection ---------------------------------------------------------------------------

  function Matching(checks: seq<Check>, id: string): seq<Check> {
    if checks == [] then []
    else (if checks[0].id == id then [checks[0]] else []) + Matching(checks[1..], id)
  }

  function MatchingBonuses(bonuses: seq<Bonus>, id: string): seq<Bonus> {
    if bonuses == [] then []
    else (if bonuses[0].id == id then [bonuses[0]] else []) + MatchingBonuses(bonuses[1..], id)
  }

  /** The proof has exactly one check to turn: still user-gated and under the registered criterion. */
  predicate Targets(checks: seq<Check>, v: Verified) {
    var matching := Matching(checks, v.id);
    && |matching| == 1 && matching[0].standing == UserGated
    && Find(ProofSlots(), v.id) == Some(Slot(v.id, Some(CriterionName(matching[0].criterion))))
  }

  predicate TargetsBonus(bonuses: seq<Bonus>, v: Verified) {
    var matching := MatchingBonuses(bonuses, v.id);
    |matching| == 1 && matching[0].standing == UserGated
  }

  /** The last entry of the id, as a map built from the list keeps it. */
  function Lookup(verified: seq<Verified>, id: string): (r: Option<Verified>)
    ensures r.Some? ==> r.value in verified && r.value.id == id
    ensures r.None? <==> forall v | v in verified :: v.id != id
  {
    if verified == [] then None
    else
      var n := |verified| - 1;
      assert forall v :: v in verified <==> v in verified[..n] || v == verified[n];
      if verified[n].id == id then Some(verified[n]) else Lookup(verified[..n], id)
  }

  function Turned(c: Check, verified: seq<Verified>): Check {
    match Lookup(verified, c.id)
    case None => c
    case Some(v) =>
      c.(standing := Pass, evidence := "VERIFIED EXTERNAL EVIDENCE: " + v.evidence + "; receipt=" + v.receipt)
  }

  function TurnedBonus(b: Bonus, verified: seq<Verified>): Bonus {
    match Lookup(verified, b.id)
    case None => b
    case Some(v) =>
      b.(standing := Pass, evidence := "VERIFIED BONUS EVIDENCE: " + v.evidence + "; receipt=" + v.receipt)
  }

  /** An accepted input turns exactly its targets; any other input leaves everything as it was. */
  ghost predicate Projects(checks: seq<Check>, bonuses: seq<Bonus>, input: Option<Input>, r: Projection) {
    match r.verdict
    case NotProvided => input.None? && r == Projection(checks, bonuses, NotProvided, [])
    case Rejected => input.Some? && r == Projection(checks, bonuses, Rejected, [])
    case Accepted =>
      && input.Some? && Acceptable(input.value)
      && exists evidence: Bundle :: ProjectsEvidence(checks, bonuses, input.value.manifest, evidence, r)
  }

  ghost predicate ProjectsEvidence(checks: seq<Check>, bonuses: seq<Bonus>, m: Manifest, evidence: Bundle,
                                   r: Projection)
    requires m.Manifest? && m.proofs.Some? && m.bonuses.Some?
  {
    && Carries(ProofSlots(), m.proofs.value, evidence.proofs)
    && Carries(BONUS_SLOTS, m.bonuses.value, evidence.bonuses)
    && (forall v :: v in evidence.proofs ==> Targets(checks, v))
    && (forall v :: v in evidence.bonuses ==> TargetsBonus(bonuses, v))
    && |r.checks| == |checks| && |r.bonuses| == |bonuses| && |r.proofIds| == |evidence.proofs|
    && (forall i :: 0 <= i < |checks| ==> r.checks[i] == Turned(checks[i], evidence.proofs))
    && (forall i :: 0 <= i < |bonuses| ==> r.bonuses[i] == TurnedBonus(bonuses[i], evidence.bonuses))
    && (forall i :: 0 <= i < |r.proofIds| ==> r.proofIds[i] == evidence.proofs[i].id)
  }

  /** The manifest is acceptable and each of its entries has its one user-gated target. */
  ghost predicate Applies(checks: seq<Check>, bonuses: seq<Bonus>, input: Input) {
    && Acceptable(input)
    && (forall c :: c in input.manifest.proofs.value && c.Candidate? && c.evidence.Some? && c.receipt.Some? ==>
          Targets(checks, Verified(c.id, c.evidence.value, c.receipt.value)))
    && (forall c :: c in input.manifest.bonuses.value && c.Candidate? && c.evidence.Some? && c.receipt.Some? ==>
          TargetsBonus(bonuses, Verified(c.id, c.evidence.value, c.receipt.value)))
  }

  lemma TargetsCarried(checks: seq<Check>, candidates: seq<Candidate>, verified: seq<Verified>)
    requires Carries(ProofSlots(), candidates, verified)
    ensures (forall v :: v in verified ==> Targets(checks, v)) <==>
            (forall c :: c in candidates && c.Candidate? && c.evidence.Some? && c.receipt.Some? ==>
               Targets(checks, Verified(c.id, c.evidence.value, c.receipt.value)))
  {
    hide Targets, ProofSlots, Find;
    forall i | 0 <= i < |candidates|
      ensures verified[i] in verified && candidates[i] in candidates
      ensures verified[i] == Verified(candidates[i].id, candidates[i].evidence.value, candidates[i].receipt.value)
    {
    }
  }

  lemma BonusTargetsCarried(bonuses: seq<Bonus>, candidates: seq<Candidate>, verified: seq<Verified>)
    requires Carries(BONUS_SLOTS, candidates, verified)
    ensures (forall v :: v in verified ==> TargetsBonus(bonuses, v)) <==>
            (forall c :: c in candidates && c.Candidate? && c.evidence.Some? && c.receipt.Some? ==>
               TargetsBonus(bonuses, Verified(c.id, c.evidence.value, c.receipt.value)))
  {
    hide TargetsBonus, Find;
    forall i | 0 <= i < |candidates|
      ensures verified[i] in verified && candidates[i] in candidates
      ensures verified[i] == Verified(candidates[i].id, candidates[i].evidence.value, candidates[i].receipt.value)
    {
    }
  }

  method ApplyEvidence(checks: seq<Check>, bonuses: seq<Bonus>, input: Option<Input>) returns (r: Projection)
    ensures Projects(checks, bonuses, input, r)
    ensures r.verdict == Accepted <==> input.Some? && Applies(checks, bonuses, input.value)
  {
    hide Acceptable, Carries, Targets, TargetsBonus, Turned, TurnedBonus, ProofSlots;
    if input.None? {
      return Projection(checks, bonuses, NotProvided, []);
    }
    var validated := ValidateManifest(input.value);
    if validated.None? {
      return Projection(checks, bonuses, Rejected, []);
    }
    var evidence := validated.value;
    AcceptableHasLists(input.value);
    TargetsCarried(checks, input.value.manifest.proofs.value, evidence.proofs);
    BonusTargetsCarried(bonuses, input.value.manifest.bonuses.value, evidence.bonuses);
    var wrong := 0;
    for i := 0 to |evidence.proofs|
      invariant wrong == 0 <==> forall j :: 0 <= j < i ==> Targets(checks, evidence.proofs[j])
      invariant wrong >= 0
    {
      if !Targets(checks, evidence.proofs[i]) {
        wrong := wrong + 1;
      }
    }
    ghost var wrongProofs := wrong;
    for i := 0 to |evidence.bonuses|
      invariant wrong == wrongProofs <==> forall j :: 0 <= j < i ==> TargetsBonus(bonuses, evidence.bonuses[j])
      invariant wrong >= wrongProofs
    {
      if !TargetsBonus(bonuses, evidence.bonuses[i]) {
        wrong := wrong + 1;
      }
    }
    if wrong > 0 {
      return Projection(checks, bonuses, Rejected, []);
    }
    r := Projection(
      seq(|checks|, i requires 0 <= i < |checks| => Turned(checks[i], evidence.proofs)),
      seq(|bonuses|, i requires 0 <= i < |bonuses| => TurnedBonus(bonuses[i], evidence.bonuses)),
      Accepted,
      seq(|evidence.proofs|, i requires 0 <= i < |evidence.proofs| => evidence.proofs[i].id));
    assert ProjectsEvidence(checks, bonuses, input.value.manifest, evidence, r);
  }

  lemma AcceptableHasLists(input: Input)
    requires Acceptable(input)
    ensures input.manifest.Manifest? && input.manifest.proofs.Some? && input.manifest.bonuses.Some?
  {
  }

  // ---- What evidence can change -------------------------------------------------------------

  /** Nothing but the standing and the evidence text differs, and then only from gated to passed on a registered id. */
  predicate OnlyTurned(before: Check, after: Check) {
    || after == before
    || (&& IsExternal(before.id) && before.standing == UserGated && after.standing == Pass
        && after == before.(standing := Pass, evidence := after.evidence))
  }

  ghost predicate AllOnlyTurned(before: seq<Check>, after: seq<Check>) {
    |after| == |before| && forall i :: 0 <= i < |before| ==> OnlyTurned(before[i], after[i])
  }

  lemma {:induction false} OneMatch(checks: seq<Check>, id: string, i: nat)
    requires i < |checks| && checks[i].id == id
    ensures checks[i] in Matching(checks, id)
  {
    if i > 0 {
      OneMatch(checks[1..], id, i - 1);
    }
  }

  lemma CarriedIsRegistered(candidates: seq<Candidate>, verified: seq<Verified>, v: Verified)
    requires Carries(ProofSlots(), candidates, verified) && v in verified
    ensures IsExternal(v.id)
  {
    var i :| 0 <= i < |verified| && verified[i] == v;
    var slot := Find(ProofSlots(), candidates[i].id).value;
    var k :| 0 <= k < |ProofSlots()| && ProofSlots()[k] == slot;
    assert REGISTRY[k] in REGISTRY && REGISTRY[k].id == v.id;
  }

  lemma TurnedOnlyTurns(checks: seq<Check>, i: nat, candidates: seq<Candidate>, verified: seq<Verified>)
    requires i < |checks| && Carries(ProofSlots(), candidates, verified)
    requires forall v :: v in verified ==> Targets(checks, v)
    ensures OnlyTurned(checks[i], Turned(checks[i], verified))
  {
    hide Carries, IsExternal, ProofSlots;
    match Lookup(verified, checks[i].id)
    case None =>
    case Some(v) =>
      assert Targets(checks, v);
      OneMatch(checks, v.id, i);
      CarriedIsRegistered(candidates, verified, v);
  }

  /** Whatever the input, each check is left alone or turned from user-gated to passed on a registered id. */
  lemma EvidenceOnlyTurns(checks: seq<Check>, bonuses: seq<Bonus>, input: Option<Input>, r: Projection)
    requires Projects(checks, bonuses, input, r)
    ensures AllOnlyTurned(checks, r.checks)
    ensures r.verdict == Rejected ==> r.checks == checks && r.bonuses == bonuses
  {
    hide Acceptable, Carries, Targets, TargetsBonus, Turned, TurnedBonus, OnlyTurned, ProofSlots;
    if r.verdict == Accepted {
      AcceptableHasLists(input.value);
      var m := input.value.manifest;
      var evidence :| ProjectsEvidence(checks, bonuses, m, evidence, r);
      forall i | 0 <= i < |checks|
        ensures OnlyTurned(checks[i], r.checks[i])
      {
        TurnedOnlyTurns(checks, i, m.proofs.value, evidence.proofs);
      }
    } else {
      SameIsOnlyTurned(checks);
    }
  }

  lemma SameIsOnlyTurned(checks: seq<Check>)
    ensures AllOnlyTurned(checks, checks)
  {
  }

  /** The offline capability checks: every check that is neither user-gated nor external. */
  function EngineeringCapabilities(checks: seq<Check>): seq<Capability> {
    if checks == [] then []
    else
      var c := checks[0];
      (if c.standing != UserGated && !IsExternal(c.id)
       then [Capability("ENG-" + c.id, Engineering, c.weight, c.standing == Pass, c.title, c.evidence)]
       else [])
      + EngineeringCapabilities(checks[1..])
  }

  lemma {:induction false} TurningKeepsCapabilities(before: seq<Check>, after: seq<Check>)
    requires AllOnlyTurned(before, after)
    ensures EngineeringCapabilities(after) == EngineeringCapabilities(before)
  {
    hide IsExternal;
    if before != [] {
      TurningKeepsCapabilities(before[1..], after[1..]);
      assert OnlyTurned(before[0], after[0]);
    }
  }

  /** No manifest, accepted or rejected, touches the offline metric. */
  lemma EvidenceCannotTouchOfflineMetric(checks: seq<Check>, bonuses: seq<Bonus>, input: Option<Input>, r: Projection)
    requires Projects(checks, bonuses, input, r)
    ensures EngineeringCapabilities(r.checks) == EngineeringCapabilities(checks)
  {
    EvidenceOnlyTurns(checks, bonuses, input, r);
    TurningKeepsCapabilities(checks, r.checks);
  }

  /** What the report hands to the submission decision: a rejected manifest is itself a blocker. */
  function EvidenceBlockers(r: Projection): seq<(string, Blocker)> {
    if r.verdict == Rejected
    then [("EVIDENCE:manifest", Evidence("External readiness evidence manifest rejected", ""))]
    else []
  }

  ghost predicate ReportSealable(r: Projection, security: seq<Capability>) {
    Sealable(r.checks, EngineeringCapabilities(r.checks) + security, EvidenceBlockers(r))
  }

  lemma TurningKeepsIds(before: seq<Check>, after: seq<Check>)
    requires AllOnlyTurned(before, after)
    ensures CheckIds(after) == CheckIds(before)
    ensures forall criterion :: HasCriterion(before, criterion) ==> HasCriterion(after, criterion)
  {
    hide IsExternal;
    assert forall i :: 0 <= i < |before| ==> OnlyTurned(before[i], after[i]);
    forall criterion | HasCriterion(before, criterion)
      ensures HasCriterion(after, criterion)
    {
      var i :| 0 <= i < |before| && before[i].criterion == criterion;
      assert after[i] in after && after[i].criterion == criterion;
    }
  }

  lemma TurningKeepsRepresented(before: seq<Check>, after: seq<Check>, p: Proof)
    requires AllOnlyTurned(before, after) && Represented(before, p)
    ensures Represented(after, p)
  {
    hide IsExternal;
    assert forall i :: 0 <= i < |before| ==> OnlyTurned(before[i], after[i]);
    var k :| 0 <= k < |before| && before[k].id == p.id && before[k].criterion == p.criterion &&
      forall i :: 0 <= i < |before| && i != k ==> before[i].id != p.id;
    assert after[k].id == p.id && after[k].criterion == p.criterion;
  }

  /** Every check after the turn has its counterpart before it. */
  lemma Counterpart(before: seq<Check>, after: seq<Check>, c: Check) returns (b: Check)
    requires AllOnlyTurned(before, after) && c in after
    ensures b in before && OnlyTurned(b, c)
  {
    hide OnlyTurned;
    var i :| 0 <= i < |after| && after[i] == c;
    b := before[i];
  }

  lemma TurningKeepsStructure(before: seq<Check>, after: seq<Check>, capabilities: seq<Capability>)
    requires AllOnlyTurned(before, after)
    requires Unambiguous(before, capabilities) && Weighted(before, capabilities)
    ensures Unambiguous(after, capabilities) && Weighted(after, capabilities)
  {
    hide IsExternal, AllOnlyTurned;
    TurningKeepsIds(before, after);
    forall c, d | c in after && d in capabilities
      ensures c.id != d.id
    {
      var b := Counterpart(before, after, c);
    }
    forall c | c in after
      ensures c.weight.Valid()
    {
      var b := Counterpart(before, after, c);
    }
  }

  lemma TurningKeepsSealable(before: seq<Check>, after: seq<Check>, capabilities: seq<Capability>)
    requires AllOnlyTurned(before, after)
    requires Sealable(before, capabilities, [])
    ensures Sealable(after, capabilities, [])
  {
    hide IsExternal, AllOnlyTurned, Unambiguous, Weighted, Represented, HasCriterion, HasAxis, HasRole;
    TurningKeepsStructure(before, after, capabilities);
    TurningKeepsIds(before, after);
    forall p | p in REGISTRY
      ensures Represented(after, p)
    {
      TurningKeepsRepresented(before, after, p);
    }
    forall c | c in after && CountsForSubmission(c)
      ensures c.standing == Pass
    {
      var b := Counterpart(before, after, c);
    }
  }

  /** Accepted evidence never undoes sealing, and a rejected manifest always prevents it. */
  lemma AcceptedNeverUnseals(checks: seq<Check>, bonuses: seq<Bonus>, input: Option<Input>, r: Projection,
                             security: seq<Capability>)
    requires Projects(checks, bonuses, input, r)
    ensures r.verdict == Rejected ==> !ReportSealable(r, security)
    ensures r.verdict != Rejected && Sealable(checks, EngineeringCapabilities(checks) + security, []) ==>
              ReportSealable(r, security)
  {
    hide Projects, Unambiguous, Weighted, Covered, EngineeringCapabilities, AllOnlyTurned;
    EvidenceOnlyTurns(checks, bonuses, input, r);
    TurningKeepsCapabilities(checks, r.checks);
    if r.verdict != Rejected && Sealable(checks, EngineeringCapabilities(checks) + security, []) {
      TurningKeepsSealable(checks, r.checks, EngineeringCapabilities(checks) + security);
    }
  }
}
