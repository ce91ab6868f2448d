/** The demo-state controller's receipt: what `command_apply` demands before and after it works, the
    receipt it writes, and what `command_verify_receipt` demands of that receipt later. */
module DemoReceipt {
  import opened Characters
  import opened Results
  import opened PyJson

  /** A string. Those the controller spells out are numbered constants, each given with its text. */
  datatype Word = Named(code: int) | Other(text: string)

  type Json = Value<Word>

  // values
  const ARCHON_REPOSITORY := Named(0) // upgradedev/archon-datahub
  const PLAN_SCHEMA := Named(1) // archon.datahub-demo-plan/v1
  const APPROVAL_SCHEMA := Named(2) // archon.datahub-demo-approval/v1
  const RECEIPT_SCHEMA := Named(3) // archon.datahub-demo-receipt/v1
  const BASELINE_SCHEMA := Named(4) // archon.datahub-demo-baseline/v1
  const SEED := Named(5) // seed
  const RESET := Named(6) // reset
  const NOOP := Named(7) // noop
  const UNCHANGED := Named(8) // unchanged
  const SEEDED := Named(9) // seeded
  const APPROVED := Named(10) // approved
  const DEMO_ENVIRONMENT := Named(11) // datahub-demo-seed
  const DELETED := Named(12) // deleted
  const ABSENCE_PROVED := Named(13) // absence-proved-after-cli-error
  const ALREADY_ABSENT := Named(14) // already-absent
  const ABSENT := Named(15) // absent
  const DRIFT := Named(16) // drift
  const EXACT := Named(17) // exact
  const EMAIL := Named(18) // email

  // members of nested objects
  const ID := Named(20) // id
  const NAME := Named(21) // name
  const COMMENT := Named(22) // comment
  const STATE := Named(23) // state
  const USER := Named(24) // user
  const LOGIN := Named(25) // login
  const ACTOR := Named(26) // actor
  const TRIGGERING_ACTOR := Named(27) // triggeringActor
  const QUERY := Named(28) // query
  const TARGET_URN := Named(29) // targetUrn
  const COMPLETE := Named(30) // complete
  const EXPECTED := Named(31) // expected
  const MISSING_DIGEST := Named(32) // missingDigest
  const PRESENT := Named(33) // present
  const URN := Named(34) // urn
  const OUTCOME := Named(35) // outcome
  const FIELD_PATH := Named(36) // fieldPath
  const CLASSIFICATION_ABSENT := Named(37) // classificationAbsent
  const UPSTREAM_URN := Named(38) // upstreamUrn
  const UPSTREAM_ABSENT := Named(39) // upstreamAbsent
  const ENVIRONMENT := Named(40) // environment

  // members of the baseline manifest
  const SCHEMA_VERSION := Named(50) // schemaVersion
  const STATE_CONTRACT_SHA256 := Named(51) // stateContractSha256
  const REPOSITORY := Named(52) // repository
  const COMMIT := Named(53) // commit
  const TREE := Named(54) // tree
  const COMMIT_SIGNATURE_VERIFIED := Named(55) // commitSignatureVerified
  const INDEX_VERSION := Named(56) // indexVersion
  const MCP_COUNT := Named(57) // mcpCount
  const UNIQUE_ENTITY_URN_COUNT := Named(58) // uniqueEntityUrnCount
  const FILES := Named(59) // files

  /** The repository's owner, which the approving login must match up to case. */
  const OWNER := "upgradedev"

  // ---- The documents ------------------------------------------------------------------------

  /** The reviewed contract, as far as receipts depend on it. */
  datatype Contract = Contract(
    digest: Json, target: Word, domain: Word, dangling: Word, anchors: seq<Word>, history: Json, resetPhrase: string,
    baselineName: Json, baselineRepository: Json, commit: Json, tree: Json, indexVersion: Json, mcpCount: Json,
    urnCount: Json, files: Json)

  /** The approval receipt; documents whose members differ from these are refused by both commands. */
  datatype Approval = Approval(
    action: Json, approval: Json, configuredReviewerIds: Json, environment: Json, initiators: Json, planSha256: Json,
    releaseSha: Json, repository: Json, schemaVersion: Json, workflowRunAttempt: Json, workflowRunId: Json)

  datatype Plan = Plan(
    action: Json, baselineBefore: Json, baselineContentDigest: Json, baselineManifestSha256: Json,
    classification: Json, digest: Json, ownedUrnPresence: Json, gmsEndpointFingerprint: Json, mutationRequired: Json,
    operation: Json, ownedUrns: Json, queryBinding: Json, releaseSha: Json, repository: Json,
    resetConfirmationSha256: Json, schemaVersion: Json, stateContractSha256: Json)

  /** The baseline manifest: its eleven content members and the digest it claims for them. */
  datatype Manifest = Manifest(body: Json, contentDigest: Json)

  datatype Receipt = Receipt(
    action: Json, approval: Json, approvalReceiptSha256: Json, baselineAnchors: Json, baselineAnchorsAfterLoad: Json,
    baselineCommit: Json, baselineContentDigest: Json, baselineManifestSha256: Json, baselineReloaded: Json,
    danglingLineage: Json, g6Gap: Json, gmsEndpointFingerprint: Json, observedAtValid: bool, outcome: Json,
    ownedUrns: Json,
    planSha256: Json, postStateSha256: Json, queryBinding: Json, releaseSha: Json, repository: Json, resetDeletes: Json,
    retainedOwnershipHistory: Json, schemaVersion: Json, stateContractSha256: Json, workflowRunAttempt: Json,
    workflowRunId: Json)

  /** The SHA-256 of a canonical document is that of its members in key order. */
  function ApprovalSha(a: Approval): Json {
    Digest(List([
      a.action, a.approval, a.configuredReviewerIds, a.environment, a.initiators, a.planSha256, a.releaseSha,
      a.repository,
      a.schemaVersion, a.workflowRunAttempt, a.workflowRunId]))
  }

  function PlanSha(p: Plan): Json {
    Digest(List([
      p.action, p.baselineBefore, p.baselineContentDigest, p.baselineManifestSha256, p.classification, p.digest,
      p.ownedUrnPresence, p.gmsEndpointFingerprint, p.mutationRequired, p.operation, p.ownedUrns, p.queryBinding,
      p.releaseSha, p.repository, p.resetConfirmationSha256, p.schemaVersion, p.stateContractSha256]))
  }

  function ManifestSha(m: Manifest): Json {
    Digest(List([m.body, m.contentDigest]))
  }

  predicate IsHex64(v: Json) {
    PrintsHex64(v, if v.Str? && v.s.Other? then v.s.text else "")
  }

  function QueryBinding(c: Contract): Json {
    Dict(map[QUERY := Str(c.target), TARGET_URN := Str(c.target)])
  }

  function OwnedUrns(c: Contract): Json {
    List([Str(c.target), Str(c.domain)])
  }

  /** The manifest body the contract binds. */
  function ExpectedBody(c: Contract): Json {
    Dict(map[
      SCHEMA_VERSION := Str(BASELINE_SCHEMA), STATE_CONTRACT_SHA256 := c.digest, NAME := c.baselineName,
      REPOSITORY := c.baselineRepository, COMMIT := c.commit, TREE := c.tree, COMMIT_SIGNATURE_VERIFIED := Bool(true),
      INDEX_VERSION := c.indexVersion, MCP_COUNT := c.mcpCount, UNIQUE_ENTITY_URN_COUNT := c.urnCount,
      FILES := c.files])
  }

  // ---- Run coordinates and the approval comment ----------------------------------------------

  /** `isdigit()` and a positive value: leading zeros and any length are accepted. */
  predicate IsPositiveDigits(s: string) {
    |s| > 0 && (forall i | 0 <= i < |s| :: IsDigit(s[i])) && exists i | 0 <= i < |s| :: s[i] != '0'
  }

  /** The approval comment, by the five values it is made of. */
  function Comment(runId: string, runAttempt: string, action: Json, release: Word, planSha: Json): Json {
    List([Str(Other(runId)), Str(Other(runAttempt)), action, Str(release), planSha])
  }

  /** `approval_comment` refuses anything else. */
  predicate CommentInputsValid(runId: string, runAttempt: string, action: Json, release: Word, planSha: Json) {
    && IsPositiveDigits(runId) && IsPositiveDigits(runAttempt) && action in {Str(SEED), Str(RESET)}
    && release.Other? && IsHexText(release.text, 40) && planSha.IsText() && IsHex64(planSha)
  }

  // ---- Approval -----------------------------------------------------------------------------

  function Lower(ch: char): char {
    if 'A' <= ch <= 'Z' then ch - 'A' + 'a' else ch
  }

  /** The login equals the owner up to case. */
  predicate IsOwner(login: Json) {
    login.Str? && login.s.Other? && |login.s.text| == |OWNER|
      && forall i | 0 <= i < |OWNER| :: Lower(login.s.text[i]) == OWNER[i]
  }

  /** A single configured reviewer, by an integer id. */
  predicate OneReviewer(ids: Json) {
    ids.List? && |ids.items| == 1 && ids.items[0].Int?
  }

  predicate ApprovalUser(user: Json, ids: Json)
    requires OneReviewer(ids)
  {
    user.HasKeys({ID, LOGIN}) && PyEq(user.fields[ID], ids.items[0]) && IsOwner(user.fields[LOGIN])
  }

  predicate NamedInitiators(initiators: Json) {
    initiators.HasKeys({ACTOR, TRIGGERING_ACTOR}) && NonEmptyText(initiators.fields[ACTOR])
      && NonEmptyText(initiators.fields[TRIGGERING_ACTOR])
  }

  predicate NonEmptyText(v: Json) {
    v.IsText() && v != Str(Other(""))
  }

  /** A workflow actor: 1 to 100 characters, no control character or space. */
  predicate IsLogin(s: string) {
    1 <= |s| <= 100 && forall i | 0 <= i < |s| :: s[i] > ' ' && s[i] != '\U{7f}'
  }

  /** `load_approval_receipt`. */
  predicate ApprovalLoads(a: Approval, runId: string, runAttempt: string, action: Json, release: Word, planSha: Json,
                          actor: string, triggering: string) {
    && a.schemaVersion == Str(APPROVAL_SCHEMA) && a.repository == Str(ARCHON_REPOSITORY)
    && a.workflowRunId == Str(Other(runId)) && a.workflowRunAttempt == Str(Other(runAttempt))
    && PyEq(a.action, action) && a.releaseSha == Str(release) && PyEq(a.planSha256, planSha)
    && IsLogin(actor) && IsLogin(triggering)
    && a.initiators.HasKeys({ACTOR, TRIGGERING_ACTOR})
    && a.initiators.fields[ACTOR] == Str(Other(actor))
    && a.initiators.fields[TRIGGERING_ACTOR] == Str(Other(triggering))
    && a.environment.HasKeys({ID, NAME}) && a.environment.fields[NAME] == Str(DEMO_ENVIRONMENT)
    && a.environment.fields[ID].Int? && a.environment.fields[ID].i > 0
    && OneReviewer(a.configuredReviewerIds) && a.configuredReviewerIds.items[0].i > 0
    && a.approval.HasKeys({COMMENT, STATE, USER}) && a.approval.fields[STATE] == Str(APPROVED)
    && CommentInputsValid(runId, runAttempt, action, release, planSha)
    && a.approval.fields[COMMENT] == Comment(runId, runAttempt, action, release, planSha)
    && ApprovalUser(a.approval.fields[USER], a.configuredReviewerIds) && a.approval.fields[USER].fields[ID].Int?
  }

  /** The approval checks of `command_verify_receipt`, for run coordinates already known canonical. */
  predicate ApprovalVerifies(a: Approval, runId: string, runAttempt: string, release: Word, planSha: Json) {
    && a.schemaVersion == Str(APPROVAL_SCHEMA) && a.repository == Str(ARCHON_REPOSITORY) && a.releaseSha == Str(release)
    && a.workflowRunId == Str(Other(runId)) && a.workflowRunAttempt == Str(Other(runAttempt))
    && a.action in {Str(SEED), Str(RESET)}
    && a.environment.Dict? && a.environment.Get(NAME) == Str(DEMO_ENVIRONMENT)
    && a.approval.Dict? && a.approval.Get(STATE) == Str(APPROVED)
    && CommentInputsValid(runId, runAttempt, a.action, release, planSha)
    && a.approval.Get(COMMENT) == Comment(runId, runAttempt, a.action, release, planSha)
    && OneReviewer(a.configuredReviewerIds) && ApprovalUser(a.approval.Get(USER), a.configuredReviewerIds)
    && NamedInitiators(a.initiators)
  }

  // ---- Plan ---------------------------------------------------------------------------------

  /** What `inspect_state` reports, as far as plans and receipts use it. */
  datatype Inspected = Inspected(
    classification: Word, digest: Json, targetPresent: bool, domainPresent: bool, history: Json, danglingAbsent: bool)
  {
    /** An exact state has exactly the retained history of the contract. */
    predicate Valid(c: Contract) {
      digest.Digest? && (classification == EXACT ==> PyEq(history, c.history))
    }
  }

  function PresenceJson(c: Contract, target: bool, domain: bool): Json {
    List([Dict(map[URN := Str(c.target), PRESENT := Bool(target)]),
          Dict(map[URN := Str(c.domain), PRESENT := Bool(domain)])])
  }

  const ANCHOR_KEYS: set<Word> := {COMPLETE, EXPECTED, MISSING_DIGEST, PRESENT}

  predicate AnchorsValid(c: Contract, v: Json) {
    && v.HasKeys(ANCHOR_KEYS)
    && PyEq(v.fields[EXPECTED], Int(|c.anchors|))
    && v.fields[PRESENT].Int? && 0 <= v.fields[PRESENT].i <= |c.anchors|
    && v.fields[COMPLETE] == Bool(v.fields[PRESENT].i == |c.anchors|)
    && IsHex64(v.fields[MISSING_DIGEST])
  }

  predicate BothPresent(v: Json, present: bool)
    requires v.List? && |v.items| == 2 && v.items[0].Dict? && v.items[1].Dict?
  {
    v.items[0].Get(PRESENT) == Bool(present) && v.items[1].Get(PRESENT) == Bool(present)
  }

  predicate OperationValid(c: Contract, p: Plan)
    requires PresencePair(p.ownedUrnPresence, URN, PRESENT, c.target, c.domain) && AnchorsValid(c, p.baselineBefore)
  {
    || (&& p.action == Str(SEED) && p.operation == Str(SEED) && p.mutationRequired == Bool(true)
        && p.classification == Str(ABSENT) && BothPresent(p.ownedUrnPresence, false))
    || (&& p.action == Str(SEED) && p.operation == Str(NOOP) && p.mutationRequired == Bool(false)
        && p.classification == Str(EXACT) && p.baselineBefore.fields[COMPLETE] == Bool(true)
        && BothPresent(p.ownedUrnPresence, true))
    || (p.action == Str(RESET) && p.operation == Str(RESET) && p.mutationRequired == Bool(true))
  }

  /** The plan checks of `command_apply`. */
  predicate PlanLoads(c: Contract, p: Plan, release: Word) {
    && p.schemaVersion == Str(PLAN_SCHEMA) && p.repository == Str(ARCHON_REPOSITORY)
    && PyEq(p.stateContractSha256, c.digest)
    && IsHex64(p.gmsEndpointFingerprint) && IsHex64(p.baselineManifestSha256) && IsHex64(p.baselineContentDigest)
    && p.releaseSha == Str(release) && p.queryBinding == QueryBinding(c) && p.ownedUrns == OwnedUrns(c)
    && p.action in {Str(SEED), Str(RESET)}
    && (p.action == Str(SEED) ==> p.resetConfirmationSha256 == Null)
    && (p.action == Str(RESET) ==> IsHex64(p.resetConfirmationSha256))
    && p.mutationRequired.Bool? && AnchorsValid(c, p.baselineBefore)
    && p.classification in {Str(ABSENT), Str(DRIFT), Str(EXACT)} && IsHex64(p.digest)
    && PresencePair(p.ownedUrnPresence, URN, PRESENT, c.target, c.domain) && OperationValid(c, p)
  }

  /** The plan checks of `command_verify_receipt`. */
  predicate PlanVerifies(c: Contract, p: Plan, a: Approval, m: Manifest, release: Word) {
    && p.schemaVersion == Str(PLAN_SCHEMA) && p.repository == Str(ARCHON_REPOSITORY) && p.releaseSha == Str(release)
    && PyEq(p.action, a.action) && PyEq(p.stateContractSha256, c.digest)
    && PyEq(p.baselineManifestSha256, ManifestSha(m))
    && p.queryBinding == QueryBinding(c) && p.ownedUrns == OwnedUrns(c)
    && IsHex64(p.gmsEndpointFingerprint) && p.mutationRequired.Bool? && PyEq(a.planSha256, PlanSha(p))
    && (a.action == Str(SEED) ==> p.operation in {Str(SEED), Str(NOOP)})
    && (a.action == Str(RESET) ==> p.operation == Str(RESET))
    && p.mutationRequired == Bool(p.operation != Str(NOOP))
  }

  // ---- Manifest -----------------------------------------------------------------------------

  /** `load_baseline_manifest`: equal to the expected manifest as Python compares, in canonical bytes. */
  predicate ManifestLoads(c: Contract, m: Manifest) {
    PyEq(m.body, ExpectedBody(c)) && PyEq(m.contentDigest, Digest(ExpectedBody(c)))
  }

  /** The manifest checks of `command_verify_receipt`: its digest is recomputed over what it really holds. */
  predicate ManifestVerifies(c: Contract, p: Plan, m: Manifest) {
    && m.body.HasKeys(ExpectedBody(c).fields.Keys)
    && PyEq(m.body.fields[SCHEMA_VERSION], Str(BASELINE_SCHEMA)) && PyEq(m.body.fields[STATE_CONTRACT_SHA256], c.digest)
    && PyEq(m.contentDigest, Digest(m.body)) && PyEq(p.baselineContentDigest, m.contentDigest)
    && PyEq(m.body.fields[COMMIT], c.commit) && PyEq(m.body.fields[TREE], c.tree)
    && m.body.fields[COMMIT_SIGNATURE_VERIFIED] == Bool(true)
    && PyEq(m.body.fields[MCP_COUNT], c.mcpCount) && PyEq(m.body.fields[UNIQUE_ENTITY_URN_COUNT], c.urnCount)
  }

  // ---- Baseline anchors ---------------------------------------------------------------------

  /** The identifiers of the anchors that were not found. */
  function Missing(anchors: seq<Word>, found: seq<bool>): seq<Word>
    requires |found| == |anchors|
  {
    if anchors == [] then []
    else
      var n := |anchors| - 1;
      Missing(anchors[..n], found[..n]) + (if found[n] then [] else [anchors[n]])
  }

  function Words(words: seq<Word>): Json {
    List(seq(|words|, i requires 0 <= i < |words| => Str(words[i])))
  }

  function AnchorState(anchors: seq<Word>, found: seq<bool>): (r: Json)
    requires |found| == |anchors|
    ensures r.Dict?
  {
    var missing := Missing(anchors, found);
    Dict(map[
      EXPECTED := Int(|anchors|), PRESENT := Int(|anchors| - |missing|), COMPLETE := Bool(missing == []),
      MISSING_DIGEST := Digest(Words(missing))])
  }

  /** `baseline_anchor_state` over what the anchor reads found; the anchors are listed in sorted order. */
  method BaselineAnchorState(anchors: seq<Word>, found: seq<bool>) returns (r: Json)
    requires |found| == |anchors|
    ensures r == AnchorState(anchors, found)
  {
    var present, missing: seq<Word> := [], [];
    for i := 0 to |anchors|
      invariant missing == Missing(anchors[..i], found[..i]) && |present| + |missing| == i
    {
      assert anchors[..i + 1][..i] == anchors[..i] && found[..i + 1][..i] == found[..i];
      if found[i] {
        present := present + [anchors[i]];
      } else {
        missing := missing + [anchors[i]];
      }
    }
    assert anchors[..|anchors|] == anchors && found[..|anchors|] == found;
    r := Dict(map[
      EXPECTED := Int(|anchors|), PRESENT := Int(|present|), COMPLETE := Bool(missing == []),
      MISSING_DIGEST := Digest(Words(missing))]);
  }

  /** The state with every anchor present. */
  function CompleteAnchors(c: Contract): Json {
    Dict(map[COMPLETE := Bool(true), EXPECTED := Int(|c.anchors|), MISSING_DIGEST := Digest(List([])),
             PRESENT := Int(|c.anchors|)])
  }

  lemma AnchorsComplete(c: Contract, found: seq<bool>)
    requires |found| == |c.anchors|
    ensures AnchorState(c.anchors, found).Get(COMPLETE) == Bool(true) <==>
              AnchorState(c.anchors, found) == CompleteAnchors(c)
  {
    var missing := Missing(c.anchors, found);
    assert missing == [] ==> Words(missing) == List([]);
  }

  // ---- Applying -----------------------------------------------------------------------------

  datatype Arguments = Arguments(release: Word, runId: string, runAttempt: string, planSha: Json, actor: string,
                                 triggering: string)

  /** What a run met: the states and anchors it read, what its deletes answered, and whether its other calls went
      through. */
  datatype Run = Run(
    fingerprint: Json, before: Inspected, anchorsBefore: seq<bool>,
    targetDeletion: Word, domainDeletion: Word, mutated: bool, anchorsAfterLoad: seq<bool>,
    post: Inspected, anchorsAfter: seq<bool>)
  {
    /** The states are states of the contract, the anchor reads cover its anchors, and a delete that returns
        reports one of its two outcomes. */
    predicate Valid(c: Contract) {
      && before.Valid(c) && post.Valid(c)
      && |anchorsBefore| == |anchorsAfterLoad| == |anchorsAfter| == |c.anchors|
      && targetDeletion in {DELETED, ABSENCE_PROVED} && domainDeletion in {DELETED, ABSENCE_PROVED}
    }
  }

  /** Everything `command_apply` checks before it looks at the live state. */
  predicate InputsAccepted(c: Contract, p: Plan, a: Approval, m: Manifest, args: Arguments) {
    && args.planSha == PlanSha(p) && PlanLoads(c, p, args.release)
    && ApprovalLoads(a, args.runId, args.runAttempt, p.action, args.release, args.planSha, args.actor, args.triggering)
    && ManifestLoads(c, m) && PyEq(p.baselineManifestSha256, ManifestSha(m))
    && PyEq(p.baselineContentDigest, m.contentDigest)
  }

  /** The live state is the sealed one and may be worked on. */
  predicate LiveAsSealed(c: Contract, p: Plan, run: Run)
    requires run.Valid(c)
  {
    && PyEq(run.fingerprint, p.gmsEndpointFingerprint)
    && PyEq(Str(run.before.classification), p.classification) && PyEq(run.before.digest, p.digest)
    && PyEq(PresenceJson(c, run.before.targetPresent, run.before.domainPresent), p.ownedUrnPresence)
    && PyEq(AnchorState(c.anchors, run.anchorsBefore), p.baselineBefore)
    && run.before.danglingAbsent
    && (p.operation == Str(RESET) ==> p.resetConfirmationSha256 == TextDigest(c.resetPhrase))
  }

  function AnchorsAfterLoad(c: Contract, p: Plan, run: Run): Json
    requires run.Valid(c)
  {
    AnchorState(c.anchors, if p.mutationRequired == Bool(true) then run.anchorsAfterLoad else run.anchorsBefore)
  }

  /** The mutation went through and the state read afterwards is exact. */
  predicate EndedExact(c: Contract, p: Plan, run: Run)
    requires run.Valid(c)
  {
    && (p.mutationRequired == Bool(true) ==>
        run.mutated && AnchorState(c.anchors, run.anchorsAfterLoad).Get(COMPLETE) == Bool(true))
    && AnchorState(c.anchors, run.anchorsAfter).Get(COMPLETE) == Bool(true)
    && run.post.classification == EXACT && run.post.danglingAbsent
  }

  function Removal(urn: Word, outcome: Word): Json {
    Dict(map[URN := Str(urn), OUTCOME := Str(outcome)])
  }

  /** The deletions a reset records, in the order of the owned URNs; other operations record none. */
  function ResetDeletes(c: Contract, p: Plan, run: Run): Json {
    if p.operation == Str(RESET) then List([
      Removal(c.target, if run.before.targetPresent then run.targetDeletion else ALREADY_ABSENT),
      Removal(c.domain, if run.before.domainPresent then run.domainDeletion else ALREADY_ABSENT)])
    else List([])
  }

  function OutcomeOf(p: Plan): Json {
    if p.mutationRequired == Bool(false) then Str(UNCHANGED) else if p.operation == Str(RESET) then Str(RESET)
      else Str(SEEDED)
  }

  function G6Gap(): Json {
    Dict(map[FIELD_PATH := Str(EMAIL), CLASSIFICATION_ABSENT := Bool(true)])
  }

  function DanglingLineage(c: Contract): Json {
    Dict(map[UPSTREAM_URN := Str(c.dangling), UPSTREAM_ABSENT := Bool(true)])
  }

  function ApprovalSummary(environment: Json, state: Json, user: Json): Json {
    Dict(map[ENVIRONMENT := environment, STATE := state, USER := user])
  }

  /** `command_apply`: check, work, re-read, and write the receipt. */
  method CommandApply(c: Contract, p: Plan, a: Approval, m: Manifest, args: Arguments, run: Run)
    returns (r: Option<Receipt>)
    requires run.Valid(c)
    ensures r.Some? <==> InputsAccepted(c, p, a, m, args) && LiveAsSealed(c, p, run) && EndedExact(c, p, run)
    ensures r.Some? ==> Issued(c, p, a, m, args, run, r.value)
  {
    hide InputsAccepted, LiveAsSealed, PlanSha, ManifestSha, ApprovalSha, AnchorState, QueryBinding, OwnedUrns, G6Gap;
    hide DanglingLineage, ApprovalSummary;
    if !InputsAccepted(c, p, a, m, args) || !LiveAsSealed(c, p, run) {
      return None;
    }
    ApprovalHasParts(c, p, a, m, args);
    var deletions: seq<Json> := [];
    var anchorsAfterLoad := BaselineAnchorState(c.anchors, run.anchorsBefore);
    if p.mutationRequired == Bool(true) {
      if p.operation == Str(RESET) {
        var owned := [(c.target, run.before.targetPresent, run.targetDeletion),
                      (c.domain, run.before.domainPresent, run.domainDeletion)];
        for i := 0 to 2
          invariant |deletions| == i
          invariant forall j :: 0 <= j < i ==>
                      deletions[j] == Removal(owned[j].0, if owned[j].1 then owned[j].2 else ALREADY_ABSENT)
        {
          deletions := deletions + [Removal(owned[i].0, if owned[i].1 then owned[i].2 else ALREADY_ABSENT)];
        }
        assert deletions == [deletions[0], deletions[1]];
      }
      anchorsAfterLoad := BaselineAnchorState(c.anchors, run.anchorsAfterLoad);
      if !run.mutated || anchorsAfterLoad.Get(COMPLETE) != Bool(true) {
        return None;
      }
    }
    var anchorsAfter := BaselineAnchorState(c.anchors, run.anchorsAfter);
    if run.post.classification != EXACT || !run.post.danglingAbsent || anchorsAfter.Get(COMPLETE) != Bool(true) {
      return None;
    }
    r := Some(Receipt(
      p.action, ApprovalSummary(a.environment, a.approval.fields[STATE], a.approval.fields[USER]), ApprovalSha(a),
      anchorsAfter, anchorsAfterLoad, c.commit, m.contentDigest, ManifestSha(m), Bool(p.mutationRequired == Bool(true)),
      DanglingLineage(c), G6Gap(), p.gmsEndpointFingerprint, true, OutcomeOf(p), OwnedUrns(c), args.planSha,
      run.post.digest,
      p.queryBinding, Str(args.release), p.repository, List(deletions), run.post.history, Str(RECEIPT_SCHEMA), c.digest,
      Str(Other(args.runAttempt)), Str(Other(args.runId))));
  }

  /** The receipt records these inputs and this run. */
  predicate Issued(c: Contract, p: Plan, a: Approval, m: Manifest, args: Arguments, run: Run, r: Receipt)
    requires run.Valid(c)
  {
    && a.approval.Dict? && STATE in a.approval.fields && USER in a.approval.fields
    && r.action == p.action
    && r.approval == ApprovalSummary(a.environment, a.approval.fields[STATE], a.approval.fields[USER])
    && r.approvalReceiptSha256 == ApprovalSha(a)
    && r.baselineAnchors == AnchorState(c.anchors, run.anchorsAfter)
    && r.baselineAnchorsAfterLoad == AnchorsAfterLoad(c, p, run)
    && r.baselineCommit == c.commit && r.baselineContentDigest == m.contentDigest
    && r.baselineManifestSha256 == ManifestSha(m)
    && r.baselineReloaded == Bool(p.mutationRequired == Bool(true))
    && r.danglingLineage == DanglingLineage(c) && r.g6Gap == G6Gap()
    && r.gmsEndpointFingerprint == p.gmsEndpointFingerprint && r.observedAtValid && r.outcome == OutcomeOf(p)
    && r.ownedUrns == OwnedUrns(c) && r.planSha256 == args.planSha && r.postStateSha256 == run.post.digest
    && r.queryBinding == p.queryBinding && r.releaseSha == Str(args.release) && r.repository == p.repository
    && r.resetDeletes == ResetDeletes(c, p, run) && r.retainedOwnershipHistory == run.post.history
    && r.schemaVersion == Str(RECEIPT_SCHEMA) && r.stateContractSha256 == c.digest
    && r.workflowRunAttempt == Str(Other(args.runAttempt)) && r.workflowRunId == Str(Other(args.runId))
  }

  lemma ApprovalHasParts(c: Contract, p: Plan, a: Approval, m: Manifest, args: Arguments)
    requires InputsAccepted(c, p, a, m, args)
    ensures a.approval.Dict? && STATE in a.approval.fields && USER in a.approval.fields
    ensures a.approval.fields[STATE] == Str(APPROVED)
    ensures p.operation == Str(RESET) ==> p.mutationRequired == Bool(true)
    ensures p.mutationRequired.Bool?
  {
    hide PlanSha, ManifestSha, IsHex64, PyEq, AnchorsValid, ApprovalUser, Comment;
    assert STATE in a.approval.fields.Keys && USER in a.approval.fields.Keys;
  }

  // ---- Verifying ----------------------------------------------------------------------------

  predicate RemovalValid(v: Json, urn: Word) {
    v.HasKeys({OUTCOME, URN}) && v.fields[URN] == Str(urn)
      && v.fields[OUTCOME] in {Str(DELETED), Str(ABSENCE_PROVED), Str(ALREADY_ABSENT)}
  }

  predicate DeletesVerify(c: Contract, action: Json, v: Json) {
    && v.List?
    && (action == Str(SEED) ==> v == List([]))
    && (action == Str(RESET) ==>
          && |v.items| == 2 && RemovalValid(v.items[0], c.target)
          && RemovalValid(v.items[1], c.domain))
  }

  /** The receipt checks of `command_verify_receipt`. */
  predicate ReceiptVerifies(c: Contract, p: Plan, a: Approval, m: Manifest, runId: string, runAttempt: string,
                            release: Word, r: Receipt) {
    && r.schemaVersion == Str(RECEIPT_SCHEMA) && r.repository == Str(ARCHON_REPOSITORY) && r.releaseSha == Str(release)
    && r.workflowRunId == Str(Other(runId)) && r.workflowRunAttempt == Str(Other(runAttempt))
    && PyEq(r.action, a.action)
    && r.outcome == (if p.operation == Str(NOOP) then Str(UNCHANGED) else if p.operation == Str(RESET)
                     then Str(RESET) else Str(SEEDED))
    && PyEq(r.planSha256, PlanSha(p)) && PyEq(r.approvalReceiptSha256, ApprovalSha(a))
    && PyEq(r.baselineManifestSha256, ManifestSha(m))
    && PyEq(r.stateContractSha256, c.digest) && PyEq(r.baselineContentDigest, m.contentDigest)
    && PyEq(r.baselineCommit, c.commit)
    && PyEq(r.gmsEndpointFingerprint, p.gmsEndpointFingerprint)
    && PyEq(r.queryBinding, QueryBinding(c)) && PyEq(r.ownedUrns, OwnedUrns(c))
    && PyEq(r.retainedOwnershipHistory, c.history) && PyEq(r.g6Gap, G6Gap())
    && PyEq(r.danglingLineage, DanglingLineage(c))
    && PyEq(r.baselineAnchors, CompleteAnchors(c)) && PyEq(r.baselineAnchorsAfterLoad, CompleteAnchors(c))
    && r.baselineReloaded == p.mutationRequired
    && IsHex64(r.postStateSha256) && r.observedAtValid
    && a.approval.Dict? && PyEq(r.approval, ApprovalSummary(a.environment, Str(APPROVED), a.approval.Get(USER)))
    && DeletesVerify(c, a.action, r.resetDeletes)
  }

  /** `command_verify_receipt` on the plan, approval, baseline and receipt of one sealed directory. */
  predicate Verifies(c: Contract, p: Plan, a: Approval, m: Manifest, runId: string, runAttempt: string,
                     release: Word, r: Receipt) {
    && IsRunCoordinate(runId) && IsRunCoordinate(runAttempt)
    && ApprovalVerifies(a, runId, runAttempt, release, PlanSha(p))
    && PlanVerifies(c, p, a, m, release)
    && ManifestVerifies(c, p, m)
    && ReceiptVerifies(c, p, a, m, runId, runAttempt, release, r)
  }

  // ---- Every receipt, verified --------------------------------------------------------------

  lemma LoadedApprovalVerifies(p: Plan, a: Approval, runId: string, runAttempt: string, release: Word, planSha: Json,
                               actor: string, triggering: string)
    requires ApprovalLoads(a, runId, runAttempt, p.action, release, planSha, actor, triggering)
    ensures a.action == p.action && PyEq(a.planSha256, planSha)
            && ApprovalVerifies(a, runId, runAttempt, release, planSha)
  {
    hide Comment, IsOwner, IsHexText, IsPositiveDigits, ARCHON_REPOSITORY;
    assert ACTOR in a.initiators.fields.Keys && TRIGGERING_ACTOR in a.initiators.fields.Keys;
    assert COMMENT in a.approval.fields.Keys && STATE in a.approval.fields.Keys && USER in a.approval.fields.Keys;
    assert NAME in a.environment.fields.Keys;
    assert IsLogin(actor) && IsLogin(triggering);
    assert actor != "" && triggering != "";
  }

  lemma LoadedPlanVerifies(c: Contract, p: Plan, a: Approval, m: Manifest, release: Word)
    requires PlanLoads(c, p, release) && a.action == p.action
    requires PyEq(a.planSha256, PlanSha(p)) && PyEq(p.baselineManifestSha256, ManifestSha(m))
    ensures PlanVerifies(c, p, a, m, release)
  {
    hide PlanSha, ManifestSha, QueryBinding, OwnedUrns, IsHex64, AnchorsValid, PresencePair, BothPresent;
    PyEqReflexive(p.action);
  }

  /** A loaded manifest verifies exactly when it is the expected one structurally, not just as Python compares. */
  lemma LoadedManifestVerifies(c: Contract, p: Plan, m: Manifest)
    requires ManifestLoads(c, m) && PyEq(p.baselineContentDigest, m.contentDigest)
    ensures ManifestVerifies(c, p, m) <==> m.body == ExpectedBody(c)
  {
    hide ExpectedBody;
    assert m.contentDigest == Digest(ExpectedBody(c));
    if m.body == ExpectedBody(c) {
      BodyFields(c);
      PyEqReflexive(c.digest);
      PyEqReflexive(c.commit);
      PyEqReflexive(c.tree);
      PyEqReflexive(c.mcpCount);
      PyEqReflexive(c.urnCount);
    }
  }

  lemma BodyFields(c: Contract)
    ensures ExpectedBody(c).Dict?
    ensures var f := ExpectedBody(c).fields;
            && SCHEMA_VERSION in f && f[SCHEMA_VERSION] == Str(BASELINE_SCHEMA)
            && STATE_CONTRACT_SHA256 in f && f[STATE_CONTRACT_SHA256] == c.digest
            && COMMIT in f && f[COMMIT] == c.commit && TREE in f && f[TREE] == c.tree
            && COMMIT_SIGNATURE_VERIFIED in f && f[COMMIT_SIGNATURE_VERIFIED] == Bool(true)
            && MCP_COUNT in f && f[MCP_COUNT] == c.mcpCount && UNIQUE_ENTITY_URN_COUNT in f
            && f[UNIQUE_ENTITY_URN_COUNT] == c.urnCount
  {
  }

  lemma DeletesAreValid(c: Contract, p: Plan, run: Run)
    requires run.Valid(c) && p.action in {Str(SEED), Str(RESET)}
             && (p.action == Str(RESET) <==> p.operation == Str(RESET))
    ensures DeletesVerify(c, p.action, ResetDeletes(c, p, run))
  {
    RemovalIsValid(c.target, if run.before.targetPresent then run.targetDeletion else ALREADY_ABSENT);
    RemovalIsValid(c.domain, if run.before.domainPresent then run.domainDeletion else ALREADY_ABSENT);
    hide Removal, RemovalValid, Inspected.Valid;
  }

  lemma RemovalIsValid(urn: Word, outcome: Word)
    ensures outcome in {DELETED, ABSENCE_PROVED, ALREADY_ABSENT} ==> RemovalValid(Removal(urn, outcome), urn)
  {
    assert Removal(urn, outcome).fields.Keys == {OUTCOME, URN};
  }

  lemma OperationShape(c: Contract, p: Plan, release: Word)
    requires PlanLoads(c, p, release)
    ensures p.action in {Str(SEED), Str(RESET)} && (p.action == Str(RESET) <==> p.operation == Str(RESET))
    ensures p.mutationRequired == Bool(p.operation != Str(NOOP))
    ensures p.operation == Str(NOOP) ==> p.baselineBefore.Dict? && p.baselineBefore.Get(COMPLETE) == Bool(true)
    ensures p.operation in {Str(SEED), Str(RESET), Str(NOOP)}
  {
    hide QueryBinding, OwnedUrns, IsHex64, PresencePair, BothPresent, PyEq;
  }

  /** On a no-op the anchors found before are the sealed ones, hence complete. */
  lemma NoopAnchorsComplete(c: Contract, p: Plan, run: Run)
    requires run.Valid(c) && PyEq(AnchorState(c.anchors, run.anchorsBefore), p.baselineBefore)
    requires p.baselineBefore.Dict? && p.baselineBefore.Get(COMPLETE) == Bool(true)
    ensures AnchorState(c.anchors, run.anchorsBefore) == CompleteAnchors(c)
  {
    hide CompleteAnchors, Inspected.Valid;
    var s := AnchorState(c.anchors, run.anchorsBefore);
    assert COMPLETE in s.fields.Keys;
    assert PyEq(s.fields[COMPLETE], p.baselineBefore.fields[COMPLETE]);
    assert s.fields[COMPLETE].Bool?;
    AnchorsComplete(c, run.anchorsBefore);
  }

  /** A written receipt passes the receipt checks for its own run coordinates. */
  lemma IssuedReceiptVerifies(c: Contract, p: Plan, a: Approval, m: Manifest, args: Arguments, run: Run, r: Receipt)
    requires run.Valid(c) && Issued(c, p, a, m, args, run, r)
    requires InputsAccepted(c, p, a, m, args) && LiveAsSealed(c, p, run) && EndedExact(c, p, run)
    ensures ReceiptVerifies(c, p, a, m, args.runId, args.runAttempt, args.release, r)
  {
    hide PlanSha, ManifestSha, ApprovalSha, AnchorState, CompleteAnchors, QueryBinding, OwnedUrns, ResetDeletes;
    hide DeletesVerify, G6Gap, DanglingLineage, ApprovalSummary;
    hide PyEq, IsHex64, AnchorsValid, PresencePair, PresenceJson, OperationValid, ApprovalVerifies, ManifestLoads;
    hide Comment, CommentInputsValid, ApprovalUser;
    LoadedApprovalVerifies(p, a, args.runId, args.runAttempt, args.release, args.planSha, args.actor, args.triggering);
    ApprovalHasParts(c, p, a, m, args);
    OperationShape(c, p, args.release);
    DeletesAreValid(c, p, run);
    AnchorsComplete(c, run.anchorsAfter);
    AnchorsComplete(c, run.anchorsAfterLoad);
    if p.operation == Str(NOOP) {
      NoopAnchorsComplete(c, p, run);
    }
    PyEqReflexive(r.action);
    PyEqReflexive(r.planSha256);
    PyEqReflexive(r.approvalReceiptSha256);
    PyEqReflexive(r.baselineManifestSha256);
    PyEqReflexive(r.stateContractSha256);
    PyEqReflexive(r.baselineContentDigest);
    PyEqReflexive(r.baselineCommit);
    PyEqReflexive(r.gmsEndpointFingerprint);
    PyEqReflexive(r.queryBinding);
    PyEqReflexive(r.ownedUrns);
    PyEqReflexive(r.g6Gap);
    PyEqReflexive(r.danglingLineage);
    PyEqReflexive(r.baselineAnchors);
    PyEqReflexive(r.approval);
    DigestIsHex(run.post.digest);
  }

  lemma DigestIsHex(v: Json)
    ensures v.Digest? ==> IsHex64(v)
  {
  }

  /** A written receipt passes verification for exactly its own release and coordinates, and exactly when these
      are canonical decimal and the manifest is the expected one member by member. For seed, no-op and reset alike. */
  lemma WrittenReceiptVerifiesIff(c: Contract, p: Plan, a: Approval, m: Manifest, args: Arguments, run: Run, r: Receipt,
                                  runId: string, runAttempt: string, release: Word)
    requires run.Valid(c) && Issued(c, p, a, m, args, run, r)
    requires InputsAccepted(c, p, a, m, args) && LiveAsSealed(c, p, run) && EndedExact(c, p, run)
    ensures Verifies(c, p, a, m, runId, runAttempt, release, r) <==>
              && runId == args.runId && runAttempt == args.runAttempt && release == args.release
              && IsRunCoordinate(args.runId) && IsRunCoordinate(args.runAttempt)
              && m.body == ExpectedBody(c)
  {
    hide PlanSha, ManifestSha, ApprovalSha, ExpectedBody, ReceiptVerifies, LiveAsSealed, EndedExact, Issued;
    hide PlanLoads, PlanVerifies, ManifestVerifies;
    hide ManifestLoads, IsRunCoordinate, PyEq;
    LoadedApprovalVerifies(p, a, args.runId, args.runAttempt, args.release, args.planSha, args.actor, args.triggering);
    LoadedPlanVerifies(c, p, a, m, args.release);
    LoadedManifestVerifies(c, p, m);
    IssuedReceiptVerifies(c, p, a, m, args, run, r);
    ApprovalNames(a, args.runId, args.runAttempt, args.release, PlanSha(p), runId, runAttempt, release);
  }

  /** An approval verifies for the one release and run it names. */
  lemma ApprovalNames(a: Approval, runId: string, runAttempt: string, release: Word, planSha: Json,
                      otherId: string, otherAttempt: string, otherRelease: Word)
    requires ApprovalVerifies(a, runId, runAttempt, release, planSha)
    ensures ApprovalVerifies(a, otherId, otherAttempt, otherRelease, planSha) ==>
              otherId == runId && otherAttempt == runAttempt && otherRelease == release
  {
    hide Comment, CommentInputsValid, OneReviewer, ApprovalUser, NamedInitiators;
  }

  /** The manifest whose signature flag is the number one instead of true. */
  function NumericFlag(c: Contract): Manifest {
    Manifest(Dict(ExpectedBody(c).fields[COMMIT_SIGNATURE_VERIFIED := Int(1)]), Digest(ExpectedBody(c)))
  }

  /** Applying accepts that manifest; verifying its receipt then never succeeds. */
  lemma NumericFlagLoadsButNeverVerifies(c: Contract, p: Plan)
    ensures ManifestLoads(c, NumericFlag(c)) && !ManifestVerifies(c, p, NumericFlag(c))
  {
    var e, m := ExpectedBody(c), NumericFlag(c);
    BodyFields(c);
    hide ExpectedBody;
    assert m.body.fields.Keys == e.fields.Keys;
    forall k | k in m.body.fields.Keys
      ensures PyEq(m.body.fields[k], e.fields[k])
    {
      PyEqReflexive(e.fields[k]);
    }
  }

  /** The plan sealed over that manifest instead of another one. */
  function FlaggedPlan(c: Contract, p: Plan): Plan {
    p.(baselineManifestSha256 := ManifestSha(NumericFlag(c)), baselineContentDigest := NumericFlag(c).contentDigest)
  }

  /** The same approval, given for that plan. */
  function FlaggedApproval(c: Contract, p: Plan, a: Approval, args: Arguments): Approval
    requires a.approval.Dict?
  {
    var sha := PlanSha(FlaggedPlan(c, p));
    a.(planSha256 := sha,
       approval := Dict(a.approval.fields[COMMENT := Comment(args.runId, args.runAttempt, p.action,
                                                             args.release, sha)]))
  }

  lemma FlaggedApprovalLoads(c: Contract, p: Plan, a: Approval, args: Arguments)
    requires ApprovalLoads(a, args.runId, args.runAttempt, p.action, args.release, args.planSha, args.actor,
                           args.triggering)
    ensures ApprovalLoads(FlaggedApproval(c, p, a, args), args.runId, args.runAttempt, p.action, args.release,
                          PlanSha(FlaggedPlan(c, p)), args.actor, args.triggering)
  {
    hide FlaggedPlan, Comment, ApprovalUser, IsLogin, IsPositiveDigits, IsHexText, OneReviewer;
    var b := FlaggedApproval(c, p, a, args);
    assert b.approval.fields.Keys == a.approval.fields.Keys;
    assert STATE in a.approval.fields.Keys && USER in a.approval.fields.Keys;
    PyEqReflexive(b.planSha256);
    PlanShaIsDigest(FlaggedPlan(c, p));
    hide PlanSha;
  }

  lemma PlanShaIsDigest(p: Plan)
    ensures PlanSha(p).Digest?
  {
  }

  lemma FlaggedPlanLoads(c: Contract, p: Plan, release: Word)
    requires PlanLoads(c, p, release)
    ensures PlanLoads(c, FlaggedPlan(c, p), release)
  {
    hide AnchorsValid, PresencePair, QueryBinding, OwnedUrns, ExpectedBody, PyEq, BothPresent;
  }

  /** Whenever some run is accepted, so is the same run over the numeric flag, and no receipt of it
      verifies for any coordinates: writing a receipt does not imply that it verifies. */
  lemma WrittenNeedNotVerify(c: Contract, p: Plan, a: Approval, m: Manifest, args: Arguments, run: Run, r: Receipt,
                             runId: string, runAttempt: string, release: Word)
    requires run.Valid(c) && InputsAccepted(c, p, a, m, args) && LiveAsSealed(c, p, run) && EndedExact(c, p, run)
    ensures var q, b, n := FlaggedPlan(c, p), FlaggedApproval(c, p, a, args), NumericFlag(c);
            var again := args.(planSha := PlanSha(q));
            && InputsAccepted(c, q, b, n, again) && LiveAsSealed(c, q, run) && EndedExact(c, q, run)
            && !Verifies(c, q, b, n, runId, runAttempt, release, r)
  {
    hide PlanSha, PlanLoads, ManifestLoads, ManifestVerifies, ApprovalLoads, ApprovalVerifies, PlanVerifies;
    hide ReceiptVerifies, AnchorState, ManifestSha, IsRunCoordinate;
    ApprovalHasParts(c, p, a, m, args);
    FlaggedPlanLoads(c, p, args.release);
    FlaggedApprovalLoads(c, p, a, args);
    NumericFlagLoadsButNeverVerifies(c, FlaggedPlan(c, p));
    hide NumericFlag;
    PyEqReflexive(ManifestSha(NumericFlag(c)));
    PyEqReflexive(NumericFlag(c).contentDigest);
    hide PyEq;
  }

  // ---- Runs that are accepted ---------------------------------------------------------------

  /** The manifest the contract binds. */
  function ExpectedManifest(c: Contract): Manifest {
    Manifest(ExpectedBody(c), Digest(ExpectedBody(c)))
  }

  /** A seed plan over an exact state with all anchors present. */
  function NoopPlan(c: Contract, release: Word): Plan {
    Plan(
      Str(SEED), CompleteAnchors(c), Digest(ExpectedBody(c)), ManifestSha(ExpectedManifest(c)), Str(EXACT),
      Digest(Null),
      PresenceJson(c, true, true), Digest(Null), Bool(false), Str(NOOP), OwnedUrns(c), QueryBinding(c), Str(release),
      Str(ARCHON_REPOSITORY), Null, Str(PLAN_SCHEMA), c.digest)
  }

  /** Its approval by the owner, for a run. */
  function NoopApproval(c: Contract, release: Word, runId: string, runAttempt: string): Approval {
    var sha := PlanSha(NoopPlan(c, release));
    Approval(
      Str(SEED),
      Dict(map[
        COMMENT := Comment(runId, runAttempt, Str(SEED), release, sha), STATE := Str(APPROVED),
        USER := Dict(map[ID := Int(1), LOGIN := Str(Other(OWNER))])]),
      List([Int(1)]), Dict(map[ID := Int(1), NAME := Str(DEMO_ENVIRONMENT)]),
      Dict(map[ACTOR := Str(Other(OWNER)), TRIGGERING_ACTOR := Str(Other(OWNER))]), sha, Str(release),
      Str(ARCHON_REPOSITORY), Str(APPROVAL_SCHEMA), Str(Other(runAttempt)), Str(Other(runId)))
  }

  function NoopArguments(c: Contract, release: Word, runId: string, runAttempt: string): Arguments {
    Arguments(release, runId, runAttempt, PlanSha(NoopPlan(c, release)), OWNER, OWNER)
  }

  /** The run that finds that state twice. */
  function NoopRun(c: Contract): (run: Run)
    ensures run.Valid(c)
  {
    PyEqReflexive(c.history);
    var found := seq(|c.anchors|, _ => true);
    var state := Inspected(EXACT, Digest(Null), true, true, c.history, true);
    Run(Digest(Null), state, found, DELETED, DELETED, true, found, state, found)
  }

  lemma {:induction false} AllFound(anchors: seq<Word>, found: seq<bool>)
    requires |found| == |anchors| && forall i :: 0 <= i < |found| ==> found[i]
    ensures Missing(anchors, found) == []
    decreases |anchors|
  {
    if anchors != [] {
      var n := |anchors| - 1;
      AllFound(anchors[..n], found[..n]);
    }
  }

  lemma NoopPlanLoads(c: Contract, release: Word)
    ensures PlanLoads(c, NoopPlan(c, release), release)
  {
    hide ExpectedBody, ExpectedManifest, QueryBinding, OwnedUrns;
    var p := NoopPlan(c, release);
    assert IsHex64(p.baselineManifestSha256) && IsHex64(p.baselineContentDigest);
    assert AnchorsValid(c, p.baselineBefore) by {
      assert CompleteAnchors(c).fields.Keys == ANCHOR_KEYS;
    }
    assert PresencePair(p.ownedUrnPresence, URN, PRESENT, c.target, c.domain)
           && BothPresent(p.ownedUrnPresence, true) by {
      assert p.ownedUrnPresence.items[0].fields.Keys == {PRESENT, URN};
      assert p.ownedUrnPresence.items[1].fields.Keys == {PRESENT, URN};
    }
    PyEqReflexive(c.digest);
  }

  lemma NoopApprovalLoads(c: Contract, release: Word, runId: string, runAttempt: string)
    requires IsPositiveDigits(runId) && IsPositiveDigits(runAttempt) && release.Other? && IsHexText(release.text, 40)
    ensures var sha := PlanSha(NoopPlan(c, release));
            ApprovalLoads(NoopApproval(c, release, runId, runAttempt), runId, runAttempt, Str(SEED), release, sha,
                          OWNER, OWNER)
  {
    PlanShaIsDigest(NoopPlan(c, release));
    hide NoopPlan, PlanSha, IsPositiveDigits, IsHexText, Comment;
    var a := NoopApproval(c, release, runId, runAttempt);
    PyEqReflexive(a.planSha256);
    assert a.approval.fields.Keys == {COMMENT, STATE, USER};
    assert a.approval.fields[USER].fields.Keys == {ID, LOGIN};
    assert a.environment.fields.Keys == {ID, NAME};
    assert a.initiators.fields.Keys == {ACTOR, TRIGGERING_ACTOR};
  }

  /** Applying accepts a run for every contract and release and every run in positive digits, leading zeros included. */
  lemma NoopRunAccepted(c: Contract, release: Word, runId: string, runAttempt: string)
    requires IsPositiveDigits(runId) && IsPositiveDigits(runAttempt) && release.Other? && IsHexText(release.text, 40)
    ensures var p, a, args := NoopPlan(c, release), NoopApproval(c, release, runId, runAttempt),
            NoopArguments(c, release, runId, runAttempt);
            && InputsAccepted(c, p, a, ExpectedManifest(c), args)
            && LiveAsSealed(c, p, NoopRun(c)) && EndedExact(c, p, NoopRun(c))
  {
    NoopPlanLoads(c, release);
    NoopApprovalLoads(c, release, runId, runAttempt);
    NoopRunIsLive(c, release);
    hide ExpectedBody, PlanLoads, ApprovalLoads, PlanSha, NoopApproval, LiveAsSealed, EndedExact, ManifestSha, PyEq;
    var m := ExpectedManifest(c);
    PyEqReflexive(m.body);
    PyEqReflexive(m.contentDigest);
    PyEqReflexive(ManifestSha(m));
  }

  lemma NoopRunIsLive(c: Contract, release: Word)
    ensures LiveAsSealed(c, NoopPlan(c, release), NoopRun(c)) && EndedExact(c, NoopPlan(c, release), NoopRun(c))
  {
    hide ExpectedBody, ManifestSha, QueryBinding, OwnedUrns, PresenceJson, PyEq, AnchorState;
    var run := NoopRun(c);
    PyEqReflexive(run.fingerprint);
    PyEqReflexive(Str(EXACT));
    PyEqReflexive(run.before.digest);
    PyEqReflexive(PresenceJson(c, true, true));
    AllAnchorsFound(c, run.anchorsBefore);
    PyEqReflexive(CompleteAnchors(c));
  }

  lemma AllAnchorsFound(c: Contract, found: seq<bool>)
    requires |found| == |c.anchors| && forall i :: 0 <= i < |found| ==> found[i]
    ensures AnchorState(c.anchors, found) == CompleteAnchors(c)
            && AnchorState(c.anchors, found).Get(COMPLETE) == Bool(true)
  {
    AllFound(c.anchors, found);
    assert Words([]) == List([]);
  }

  /** What that run's receipt verifies for: its own coordinates if these are canonical, and nothing otherwise. */
  lemma NoopReceiptVerifiesIff(c: Contract, release: Word, runId: string, runAttempt: string, r: Receipt,
                               otherId: string, otherAttempt: string, otherRelease: Word)
    requires IsPositiveDigits(runId) && IsPositiveDigits(runAttempt) && release.Other? && IsHexText(release.text, 40)
    requires Issued(
      c, NoopPlan(c, release), NoopApproval(c, release, runId, runAttempt),
      ExpectedManifest(c), NoopArguments(c, release, runId, runAttempt), NoopRun(c), r)
    ensures var p, a := NoopPlan(c, release), NoopApproval(c, release, runId, runAttempt);
            Verifies(c, p, a, ExpectedManifest(c), otherId, otherAttempt, otherRelease, r) <==>
              && otherId == runId && otherAttempt == runAttempt && otherRelease == release
              && IsRunCoordinate(runId) && IsRunCoordinate(runAttempt)
  {
    var p, a, args := NoopPlan(c, release), NoopApproval(c, release, runId, runAttempt),
      NoopArguments(c, release, runId, runAttempt);
    var m := ExpectedManifest(c);
    NoopRunAccepted(c, release, runId, runAttempt);
    hide NoopPlan, NoopApproval, NoopRun, ExpectedBody, Issued, InputsAccepted, LiveAsSealed, EndedExact, Verifies;
    hide IsRunCoordinate;
    WrittenReceiptVerifiesIff(c, p, a, m, args, NoopRun(c), r, otherId, otherAttempt, otherRelease);
  }

  lemma LeadingZeroIsPositive()
    ensures IsPositiveDigits("05") && IsPositiveDigits("5") && IsPositiveDigits("1") && !IsRunCoordinate("05")
  {
    assert "05"[1] == '5' && "5"[0] == '5' && "1"[0] == '1';
  }

  /** A run numbered 05 is accepted, and no receipt of it verifies, whatever the coordinates and the release. */
  lemma LeadingZeroNeverVerifies(c: Contract, release: Word, r: Receipt, otherId: string, otherAttempt: string,
                                 otherRelease: Word)
    requires release.Other? && IsHexText(release.text, 40)
    ensures var p, a, args := NoopPlan(c, release), NoopApproval(c, release, "05", "1"),
            NoopArguments(c, release, "05", "1");
            && InputsAccepted(c, p, a, ExpectedManifest(c), args)
            && LiveAsSealed(c, p, NoopRun(c)) && EndedExact(c, p, NoopRun(c))
            && !Verifies(c, p, a, ExpectedManifest(c), otherId, otherAttempt, otherRelease, r)
  {
    LeadingZeroIsPositive();
    hide NoopPlan, NoopRun, ExpectedManifest, InputsAccepted, LiveAsSealed, EndedExact, PlanSha, PlanVerifies;
    hide ManifestVerifies, ReceiptVerifies;
    hide IsRunCoordinate, CommentInputsValid, OneReviewer, NamedInitiators, ApprovalUser;
    NoopRunAccepted(c, release, "05", "1");
  }

  /** A run numbered 5 is accepted over the numeric flag, and no receipt of it verifies, whatever the coordinates and
      the release. */
  lemma NumericFlagNeverVerifies(c: Contract, release: Word, r: Receipt, runId: string, runAttempt: string,
                                 otherRelease: Word)
    requires release.Other? && IsHexText(release.text, 40)
    ensures var p, a, args := NoopPlan(c, release), NoopApproval(c, release, "5", "1"),
            NoopArguments(c, release, "5", "1");
            var q, b, n := FlaggedPlan(c, p), FlaggedApproval(c, p, a, args), NumericFlag(c);
            var again := args.(planSha := PlanSha(q));
            && InputsAccepted(c, q, b, n, again) && LiveAsSealed(c, q, NoopRun(c)) && EndedExact(c, q, NoopRun(c))
            && !Verifies(c, q, b, n, runId, runAttempt, otherRelease, r)
  {
    var p, a, args := NoopPlan(c, release), NoopApproval(c, release, "5", "1"), NoopArguments(c, release, "5", "1");
    var m := ExpectedManifest(c);
    LeadingZeroIsPositive();
    NoopRunAccepted(c, release, "5", "1");
    hide NoopPlan, NoopRun, ExpectedBody, PlanSha, InputsAccepted, LiveAsSealed, EndedExact, Verifies;
    WrittenNeedNotVerify(c, p, a, m, args, NoopRun(c), r, runId, runAttempt, otherRelease);
  }
}
