# Archon DataHub: verified models of the release controllers

This project models the parts of the Archon DataHub repository that must not go wrong half-way, and proves
what they promise. `dafny verify dfyconfig.toml` checks everything.

* **Credential rotation** (`SecretStages`, `CloudProvider`, `SecretWriter`, `TokenRevocation`, `CredentialCommit`).
  Two AWS secrets are moved to freshly staged versions and the superseded DataHub tokens are revoked, over services
  whose every call is refused, acknowledged, or applied without its acknowledgement arriving. A schedule of such
  outcomes drives each run, so every statement holds for every fault schedule. A ghost trace records revocations
  and token inventories together with the secrets at that moment.
* **The canary fixture controller** (`PyJson`, `CanaryState`, `CanaryPlan`, `CanaryCatalog`, `CanaryGuard`,
  `CanaryConvergence`, `CanaryApply`, `CanaryController`). A plan is sealed over the observed catalog; applying it
  re-reads, deletes, re-reads and emits. The catalog is a map from URN and aspect to an envelope; before every remote
  call other actors may replace it by anything, and every call may fail or lose its acknowledgement.
* **The demo-state receipt** (`DemoReceipt`). What apply demands, the receipt it writes, and what the receipt
  verifier demands.
* **Canonical forms and parsers** (`Characters`, `Text`, `JsonLexis`, `CanonicalJson`, `ChecksumInventory`, `EventStream`). The
  canonical JSON printer over UTF-16 code units with a parser for sections 2 to 7 of RFC 8259, the SHA256SUMS printer
  and loader, and the server-sent-event decoder.
* **Selection and decisions** (`ArtifactSelection`, `Pagination`, `Readiness`, `ReadinessEvidence`,
  `ReadinessRounding`).

Three claims turned out false of the code as it stands; each is given with its exact condition.

* A receipt that the demo-state controller writes need not pass its own verifier. `load_baseline_manifest` compares
  with Python's `==`, for which `1`, `1.0` and `True` are equal, while the verifier recomputes the content digest over
  the actual members; and apply accepts run coordinates with leading zeros, which the verifier refuses. A written
  receipt verifies if and only if its run coordinates are canonical decimal of at most twenty digits and the manifest
  is the expected one member by member (`DemoReceipt.WrittenReceiptVerifiesIff`). For every contract and release, the
  run 05, and the run 5 over a manifest with the number one as its signature flag, are accepted and never verify
  (`DemoReceipt.LeadingZeroNeverVerifies`, `DemoReceipt.NumericFlagNeverVerifies`).
* A printed checksum inventory that lists itself prints but does not load (`ChecksumInventory.SelfListingFails`).
* A commit that ends compensated restores the old secrets, but not always the tokens in them: the tokens that are live
  afterwards are those of the entry without the ones whose revocation took effect, for every run
  (`CredentialCommit.CommitRuntimeCredentials`). With every call acknowledged and listings that never show the generated
  pair, every superseded token is dead at the end of a compensated run (`CredentialCommit.CommitUnseen`, and
  `CredentialCommit.SupersededTokenDies` for one such run). Without a revocation of a superseded token no token but the
  generated ones is lost.

Where code and documentation part, the model follows the code. The inventory loader's check for carriage returns can
never fire, because the file is read in text mode (`ChecksumInventory.CarriageReturnsAreInvisible`). Its line
splitting also splits at the other separators that Python's `splitlines` knows. The event-stream decoder refuses three
line feeds in a row, which section 9.2.6 of the WHATWG HTML Living Standard allows. A rejected evidence manifest
leaves every check as it was but is itself a blocker, so it does undo sealing.

SHA-256 is an injective function throughout. Sequences of code units or characters stand for strings; the strings a
Python controller spells out are numbered constants, each with its text beside it.

## Model

| member | source | states |
|---|---|---|
| SecretStages.EveryRunStaysExclusive | scripts/datahub_cloud_trial_clients.py:767-933 | in every state of every run of stage, promote, rollback, drop and marker puts, whatever fails or loses its acknowledgement, no label is on two versions, so AWSCURRENT has at most one holder |
| SecretStages.RollbackUndoesPromote | scripts/datahub_cloud_trial_clients.py:891-922 | a rollback that completes after a promotion, whether or not either move was acknowledged, restores the previous AWSCURRENT and every other label except AWSPREVIOUS, which ends on the staged version if the promotion took effect on a secret that had a current version and where it was otherwise |
| SecretStages.RetriedRollbackUndoesPromote | scripts/datahub_cloud_trial_clients.py:891-922 | the same after any number of rollbacks that took effect or not without being acknowledged, followed by one that completes |
| SecretStages.RollbacksCompose | scripts/datahub_cloud_trial_clients.py:902-922 | two rollbacks in a row are one rollback: at most one move takes effect |
| SecretStages.RollbackIsIdempotent | scripts/datahub_cloud_trial_clients.py:902-922 | a second rollback changes nothing |
| SecretStages.DropIsIdempotent | scripts/datahub_cloud_trial_clients.py:924-933 | a second drop changes nothing |
| SecretStages.DropKeepsOtherLabels | scripts/datahub_cloud_trial_clients.py:924-933 | dropping the run's label moves no other label, AWSCURRENT included |
| SecretWriter.AwsSecretWriter.CurrentVersion | scripts/datahub_cloud_trial_clients.py:603-653 | the one version that carries AWSCURRENT, or none; raises if the read fails or AWSCURRENT or AWSPREVIOUS is on two versions, and only then |
| SecretWriter.AwsSecretWriter.StageDocument | scripts/datahub_cloud_trial_clients.py:767-829 | a return means exactly one new version with the document under the run's label; a failure leaves at most that one version; with every call acknowledged it returns whenever the label is unused and the document fits |
| SecretWriter.AwsSecretWriter.StageWriter | scripts/datahub_cloud_trial_clients.py:935-952 | the writer document is staged, or at most an orphan of exactly that document is left |
| SecretWriter.AwsSecretWriter.StageReader | scripts/datahub_cloud_trial_clients.py:954-975 | the reader document is staged, or at most an orphan of exactly that document is left |
| SecretWriter.AwsSecretWriter.VerifyStage | scripts/datahub_cloud_trial_clients.py:876-885 | it completes exactly when the read is acknowledged and the label is on the version as expected |
| SecretWriter.AwsSecretWriter.VerifyCurrent | scripts/datahub_cloud_trial_clients.py:887-889 | it completes exactly when the read is acknowledged and AWSCURRENT is on the staged version |
| SecretWriter.AwsSecretWriter.Promote | scripts/datahub_cloud_trial_clients.py:831-900 | only the labels of its secret move, only AWSCURRENT, only from the recorded previous version; completion means the staged version is current, and with every call acknowledged it completes |
| SecretWriter.AwsSecretWriter.Rollback | scripts/datahub_cloud_trial_clients.py:902-922 | only AWSCURRENT moves, only away from the staged version; completion means the previous version is current again, and with every call acknowledged it completes |
| SecretWriter.AwsSecretWriter.DropStage | scripts/datahub_cloud_trial_clients.py:924-933 | only the run's label is taken off, and completion means it is off the staged version |
| SecretWriter.StagingLabelIsInjective | scripts/datahub_cloud_trial_clients.py:656-663 | two different run coordinates never share a staging label |
| TokenRevocation.TrialControlPlane.ScopedTokenIds | scripts/datahub_cloud_trial.py:283-297 | returns exactly the ids of the two listings, and raises exactly when a listing fails or an id among them is empty or repeated |
| TokenRevocation.TrialControlPlane.RevokeSupersededAndVerify | scripts/datahub_cloud_trial.py:300-325 | against any inventory and any failures only old ids are revoked, the first inventory with a foreign id ends the run, at most five inventories are read, and it returns exactly when the last event was an inventory equal to the generated ids; it raises only after a foreign id, an inventory that cannot be read or five inventories, and with every call acknowledged every old id is dead and honest listings make it return |
| CredentialCommit.RevokeGenerated | scripts/datahub_cloud_trial.py:269-280 | only the two generated tokens are revoked, and completion means both are dead |
| CredentialCommit.CompensateSecretCommit | scripts/datahub_cloud_trial.py:328-350 | completion means every staged version is neither current nor labelled and both generated tokens are dead; nothing but generated tokens is revoked; it fails only if one of its own calls was not acknowledged |
| CredentialCommit.TryCommit | scripts/datahub_cloud_trial.py:369-404 | nothing is revoked before both secrets serve the new pair with the run's label gone |
| CredentialCommit.CommitRuntimeCredentials | scripts/datahub_cloud_trial.py:353-410 | all or nothing for every fault schedule: committed with only superseded tokens revoked, compensated with every secret serving what it served at entry, or reported incomplete, which takes a compensating call that was not acknowledged; the live tokens are those of the entry without the ones whose revocation took effect; superseded tokens were revoked only after the switch; every state passed through serves an entry version or a new document; with every call acknowledged a run that can stage kills the superseded tokens, and commits if the listings are honest |
| CredentialCommit.CommitHonest | scripts/datahub_cloud_trial.py:369-410 | with every call acknowledged and honest listings the run commits and just the generated tokens are left; `HonestRunCommits` is one such run |
| CredentialCommit.CommitUnseen | scripts/datahub_cloud_trial.py:313-325 | with every call acknowledged and listings that never show exactly the generated pair the run is compensated and every superseded token is dead; `SupersededTokenDies` is one such run |
| CredentialCommit.SwitchedServes | scripts/datahub_cloud_trial.py:390-397 | promoted, verified and unlabelled staged secrets serve the new documents under new versions |
| CredentialCommit.UndoneRestores | scripts/datahub_cloud_trial.py:339-348 | once both staged versions are neither current nor labelled, every secret serves what it served at entry, orphans included |
| CredentialCommit.CurrentIsOldOrNew | scripts/datahub_cloud_trial.py:353-410 | in every accounted state AWSCURRENT of each secret is its entry version or a staged one with its new document; the commit carries this for every state it passes through |
| Pagination.ReadPages | scripts/datahub_cloud_trial_graphql.py:207-251 | against any server at most 100 consecutive requests, and a return only when the records number the last reported total; against a stable server the whole collection exactly when 100 requests suffice |
| EventStream.DecodeMcp | scripts/datahub_cloud_trial_clients.py:268-315 | the decoder's loops compute the decoding function: media type, the two ways of reading bytes, line folding, blocks, fields, the one message with the request id |
| EventStream.StreamRoundTrip | scripts/datahub_cloud_trial_clients.py:276-307 | decoding a written stream, with LF or CR LF, comments and event lines, gives exactly its payloads in order |
| EventStream.ResponseRoundTrip | scripts/datahub_cloud_trial_clients.py:268-315 | a written stream decodes to the message that alone has the request id, and raises when there is none or several |
| EventStream.UniqueIsOnly | scripts/datahub_cloud_trial_clients.py:308-315 | the selection returns a message if and only if it alone matches |
| EventStream.EventOfCarries | scripts/datahub_cloud_trial_clients.py:283-304 | every text without a carriage return is the payload of some valid event |
| JsonLexis.StringRoundTrip | scripts/governed-canary.ts:126-129 | reading a printed string gives the string back, lone surrogates included, as section 7 of RFC 8259 has it |
| CanonicalJson.RoundTrip | scripts/governed-canary.ts:126-139 | parsing the canonical text gives the value back up to key order and negative zero |
| CanonicalJson.SameTextSameValue | scripts/governed-canary.ts:126-147 | texts, and so digests, are equal exactly when the values are equal up to key order and negative zero |
| CanonicalJson.TextForgetsKeyOrder | scripts/governed-canary.ts:137-138 | the order in which members were set does not show, by the order of section 3.2.3 of RFC 8785 |
| CanonicalJson.ParsedIsValid | scripts/governed-canary.ts:367-371 | what the parser returns has distinct keys and only numbers that read back |
| CanonicalJson.BoundIsPrinted | scripts/governed-canary.ts:367-372 | the check on a stored manifest accepts exactly the printed texts with a final line feed of at most 64 KiB in UTF-8 |
| ChecksumInventory.LoadChecksumInventory | scripts/validate-submission-proof-receipts.py:4835-4863 | the loader's loop computes the loading function, every refusal included |
| ChecksumInventory.ChecksumInventoryText | scripts/validate-submission-proof-receipts.py:4866-4874 | the printer's loop computes the printing function |
| ChecksumInventory.CarriageReturnsAreInvisible | scripts/validate-submission-proof-receipts.py:4842-4847 | a file loads as its translation to line feeds does, so the check for carriage returns decides nothing |
| ChecksumInventory.RowRoundTrip | scripts/validate-submission-proof-receipts.py:4853-4859 | a printed row reads back as its entry |
| ChecksumInventory.PrinterAccepts | scripts/validate-submission-proof-receipts.py:4866-4874 | the printer accepts exactly the maps of 1 to 512 safe names to digests |
| ChecksumInventory.LoadRoundTrip | scripts/validate-submission-proof-receipts.py:4835-4874 | loading a printed inventory gives the map back when it does not list itself |
| ChecksumInventory.SelfListingFails | scripts/validate-submission-proof-receipts.py:4860-4861 | an inventory that lists itself prints and never loads |
| ChecksumInventory.ReprintedIffPrinted | scripts/validate-submission-proof-receipts.py:4533-4540 | a loaded text equals its own reprint exactly when it is the printed form of some map |
| ChecksumInventory.TextDeterminesMap | scripts/validate-submission-proof-receipts.py:4877-4878 | the subject-set digest ignores row order and determines the map |
| ArtifactSelection.CollectCandidates | scripts/validate-submission-proof-receipts.py:440-482 | the page and item loops accept exactly the complete listings of acceptable, distinct items and collect the registered ones |
| ArtifactSelection.SelectRunArtifact | scripts/validate-submission-proof-receipts.py:409-549 | the whole selection computes the selection function |
| ArtifactSelection.SelectionForgetsOrder | scripts/validate-submission-proof-receipts.py:446-549 | permuting the artifacts or splitting them over other pages with the same total gives the same result or fails both times |
| ArtifactSelection.SelectionIsNamed | scripts/validate-submission-proof-receipts.py:409-549 | selection succeeds exactly when the policy names one retrievable artifact, returns that one, and outside the exact-run-id policy no registered attempt exceeds the maximum |
| Readiness.RecordEvidence | scripts/readiness.ts:1726-1751 | a blocker for each additional, failed and incapable item and for nothing else, with the text of the last failed check of that id, else of the last additional item, else of the first incapable capability |
| Readiness.DuplicateIds | scripts/readiness.ts:1758-1767 | exactly the ids that occur more than once |
| Readiness.RecordIdentity | scripts/readiness.ts:1768-1803 | a blocker for each id repeated in a registry or shared by the two |
| Readiness.RecordWeights | scripts/readiness.ts:1804-1820 | a blocker for each weight that is not finite and positive |
| Readiness.RecordCoverage | scripts/readiness.ts:1821-1861 | a blocker for each missing criterion or axis and each absent or misplaced external proof |
| Readiness.EvaluateSubmission | scripts/readiness.ts:1681-1884 | evidence is complete for sealing if and only if everything sealing requires holds |
| Readiness.SealingIsExact | scripts/readiness.ts:1862-1866 | no blockers and all checks passed is the same as: no extra blocker, unambiguous ids, valid weights, full coverage, every capability and every counting check passed |
| Readiness.RepresentedIff | scripts/readiness.ts:1843-1861 | with distinct ids a proof is represented under its own criterion exactly when it is neither absent nor misplaced |
| Readiness.RegistryIsDistinct | scripts/readiness.ts:203-224 | the registry of external proofs names no id twice |
| ReadinessEvidence.CollectVerified | scripts/readiness.ts:818-953 | a candidate list is accepted exactly when every candidate is sound and no two name the same target, and then carries every candidate in order |
| ReadinessEvidence.ValidateManifest | scripts/readiness.ts:776-963 | a manifest is accepted exactly when its schema is right, its binding is the expected one and both lists are sound |
| ReadinessEvidence.ApplyEvidence | scripts/readiness.ts:984-1073 | evidence is accepted exactly when each entry has its one user-gated target; otherwise nothing changes |
| ReadinessEvidence.EvidenceOnlyTurns | scripts/readiness.ts:1037-1056 | whatever the manifest, a check is left alone or turned from user-gated to passed on a registered id; a rejected one changes nothing |
| ReadinessEvidence.EvidenceCannotTouchOfflineMetric | scripts/readiness.ts:1891-1910 | the offline capability list is the same before and after any manifest |
| ReadinessEvidence.AcceptedNeverUnseals | scripts/readiness.ts:1966-1985 | accepted evidence never undoes sealing; a rejected manifest always prevents it |
| ReadinessRounding.JudgingIsClose | scripts/readiness.ts:1917-1942 | the judging percentage lies in 0 to 100 and within 0.1 of the exact weighted mean |
| ReadinessRounding.CompletenessIsClose | scripts/readiness.ts:1922-1930 | a criterion's percentage lies in 0 to 100 and within 0.05 of the exact share |
| ReadinessRounding.EvidenceNeverLowers | scripts/readiness.ts:1917-1942 | no manifest lowers a criterion's completeness or the judging percentage |
| ReadinessRounding.GateIsAt9495 | scripts/readiness.ts:1944-1952 | the 95% gate passes exactly for non-empty lists with at least 94.95% of the weight passed |
| ReadinessRounding.RoundIsClose | scripts/readiness.ts:2034-2036 | rounding to a tenth moves a number down by less than 0.05 and up by at most 0.05 |
| PyJson.NumberlessIsStructural | scripts/datahub-canary-fixture.py:1287-1310 | against a value without numbers Python's equality is structural |
| CanaryState.ReferenceUrns | scripts/datahub-canary-fixture.py:535-555 | a container is valid exactly when it is absent or a list of URN references, and yields exactly its references |
| CanaryState.ClassifyPii | scripts/datahub-canary-fixture.py:558-593 | the sensitive field is present, absent or unknown by a condition on all its descriptions, whatever their order |
| CanaryState.Judge | scripts/datahub-canary-fixture.py:657-820 | the appended mismatches are exactly the violated requirements, and the classification, flags and digested projection follow from them and the reading |
| CanaryState.ClassesMean | scripts/datahub-canary-fixture.py:718-764 | a state is absent exactly when nothing of the fixture is there and exact exactly when the tag, the one query match and every reviewed part of dataset and domain are there |
| CanaryState.ExactIsGoverned | scripts/datahub-canary-fixture.py:759-820 | an exact state has every G flag, the sensitive gap, one query match, both provenance marks and the tag |
| CanaryState.SnapshotDeterminesReading | scripts/datahub-canary-fixture.py:765-770 | equal raw snapshots, and so equal snapshot digests, mean equal readings |
| CanaryState.ProjectionDeterminesState | scripts/datahub-canary-fixture.py:783-820 | equal projection digests mean equal classification, presence, provenance, flags and match count; only the mismatches and the raw snapshot may differ |
| CanaryState.AcceptedFieldsJudgeAlike | scripts/datahub-canary-fixture.py:279-310 | whichever field list the contract validation accepts under Python's equality, the same readings match it |
| CanaryPlan.SummaryIsValid | scripts/datahub-canary-fixture.py:823-856 | every sealed summary passes the validator's checks on it, and its provenance check is the planner's |
| CanaryPlan.PlannedIsValid | scripts/datahub-canary-fixture.py:865-915 | every plan the planner emits passes the validator for the same contract and release |
| CanaryPlan.OperationIsForced | scripts/datahub-canary-fixture.py:1324-1347 | in any valid plan, whoever wrote it, operation and mutation flag follow from the action and the sealed classification |
| CanaryCatalog.Catalog.ReadAspect | scripts/datahub-canary-fixture.py:444-464 | a return is an absent entry or a valid envelope; undisturbed, the stored one |
| CanaryCatalog.Catalog.ExactQuery | scripts/datahub-canary-fixture.py:467-506 | a return holds at most two distinct datasets |
| CanaryCatalog.Catalog.InspectState | scripts/datahub-canary-fixture.py:618-656 | the search and the eleven reads in order, and the state they determine |
| CanaryGuard.GuardedByDelete | scripts/datahub-canary-fixture.py:1122-1169 | deleting an owned URN right after its marker was read, before any emission, keeps a trace guarded |
| CanaryGuard.GuardedByEmission | scripts/datahub-canary-fixture.py:1082-1090 | emitting on an owned URN after both keys were read absent keeps a trace guarded |
| CanaryApply.DeleteOwnedUrn | scripts/datahub-canary-fixture.py:1152-1194 | for any other actors and failures, the delete directly follows the marker read; undisturbed, it removes exactly that URN |
| CanaryApply.RequireAbsent | scripts/datahub-canary-fixture.py:1116-1119 | completion means both entity keys were read absent, one right after the other |
| CanaryApply.EmitAll | scripts/datahub-canary-fixture.py:1082-1090 | only owned URNs are written and the trace stays guarded; undisturbed, all six proposals are stored |
| CanaryApply.ResetOwned | scripts/datahub-canary-fixture.py:1410-1424 | both owned URNs in order, deleted if present; undisturbed, exactly the present ones are gone |
| CanaryApply.Mutate | scripts/datahub-canary-fixture.py:1402-1436 | nothing is sent unless the second inspection matches the sealed summary, and a seed deletes nothing |
| CanaryConvergence.RebuiltIsExact | scripts/datahub-canary-fixture.py:931-1052 | the proposals turn every store without the target but with the tag into the exact state |
| CanaryConvergence.RebuiltEntry | scripts/datahub-canary-fixture.py:984-1036 | after the proposals every entry but the two keys holds its proposed value if it has one and what it held otherwise |
| CanaryConvergence.RebuiltEntries | scripts/datahub-canary-fixture.py:984-1036 | the six proposed values, and that deprecation, field edits and the tag are left as they were |
| CanaryController.CommandPlan | scripts/datahub-canary-fixture.py:865-915 | planning only reads, and a returned plan is the plan of the state read |
| CanaryController.WaitForExact | scripts/datahub-canary-fixture.py:1197-1210 | a return means the last thing read was an exact state |
| CanaryController.CommandApply | scripts/datahub-canary-fixture.py:1353-1479 | against any other actors and failures every change is guarded, a no-op only reads, a seed deletes nothing, and a receipt means the last inspection was exact; undisturbed, every plan sealed over the store ends in the exact state |
| CanaryController.ExactPlansNoop | scripts/datahub-canary-fixture.py:882-886 | a further seed plan over an exact state is a no-op |
| CanaryController.PlanApplyPlan | scripts/datahub-canary-fixture.py:865-1479 | from every store for which planning succeeds, undisturbed: apply succeeds, the state is exact, and the next seed plan is a no-op |
| DemoReceipt.BaselineAnchorState | scripts/datahub-demo-state.py:694-716 | the present and missing lists yield the counted anchor state |
| DemoReceipt.AnchorsComplete | scripts/datahub-demo-state.py:711-716 | an anchor state is complete exactly when it is the state the verifier expects |
| DemoReceipt.CommandApply | scripts/datahub-demo-state.py:1547-1827 | a receipt is written exactly when the inputs are accepted, the live state is the sealed one and the end is exact, and it records these inputs and this run |
| DemoReceipt.LoadedApprovalVerifies | scripts/datahub-demo-state.py:499-612 | every approval that apply loads passes the verifier's approval checks for its coordinates |
| DemoReceipt.LoadedPlanVerifies | scripts/datahub-demo-state.py:2049-2092 | every plan that apply accepts passes the verifier's plan checks |
| DemoReceipt.LoadedManifestVerifies | scripts/datahub-demo-state.py:1113-1162 | a loaded manifest verifies exactly when it is the expected one member by member |
| DemoReceipt.NoopAnchorsComplete | scripts/datahub-demo-state.py:1770-1771 | on a no-op the anchors found before are the complete state the receipt must carry |
| DemoReceipt.IssuedReceiptVerifies | scripts/datahub-demo-state.py:2150-2270 | a written receipt passes the receipt checks, for seed, no-op and reset alike |
| DemoReceipt.WrittenReceiptVerifiesIff | scripts/datahub-demo-state.py:1943-2270 | a written receipt, with the files it was written from, verifies for exactly its own release and run, and exactly when these are canonical and the manifest is structurally the expected one |
| DemoReceipt.WrittenNeedNotVerify | scripts/datahub-demo-state.py:1158-1161 | for every accepted run there is an accepted run, with the number one as the manifest's signature flag, of which no receipt verifies |
| DemoReceipt.NoopRunAccepted | scripts/datahub-demo-state.py:1547-1827 | for every contract, release and run in positive digits, leading zeros included, a run is accepted |
| DemoReceipt.NoopReceiptVerifiesIff | scripts/datahub-demo-state.py:1943-2270 | its receipt verifies for its own release and run if the run is canonical, and for nothing otherwise |
| DemoReceipt.LeadingZeroNeverVerifies | scripts/datahub-demo-state.py:1943-2000 | the run numbered 05 is accepted and no receipt of it verifies |
| DemoReceipt.NumericFlagNeverVerifies | scripts/datahub-demo-state.py:1113-1162 | the run numbered 5 over the numeric signature flag is accepted and no receipt of it verifies |

## Left out

- Label moves rest on the provider: an update moves the label atomically, is refused when the label is not where the caller says, and puts AWSPREVIOUS on the version that lost AWSCURRENT; a put attaches only the given label; nobody else writes the two secrets.
- The formats of version ids and labels, and the bound of twenty labels, are part of the reads that may fail: an acknowledged read is one whose document passes them.
- Iteration over sorted sets of token ids is iteration in any order.
- A put that takes effect although staging then fails leaves a version under the run's label; it is counted in `Accounted` and not removed, as in the source.
- CredentialCommit.CommitRuntimeCredentials: does not claim that restored credentials still work once the revocation of superseded tokens has begun, because the source does not restore tokens; that honest listings make the run commit is claimed for entries whose live tokens are the old and the generated ones.
- `_create_pair`, `reconcile`, `cleanup`, `delete_owned`, `plan_receipt` and `run_live_canary`: sequences of the calls modelled here without a cross-call promise of their own, or with a cleanup that a lost acknowledgement defeats.
- UTF-8 decoding, and how JavaScript reads and prints numbers: a reader parameter with one assumption, that printed number texts read back.
- `parseRecoveryManifest`, `createRecoveryEvidence` and `recover`: field checks and environment handling around the canonical check.
- EventStream.DecodeMcp: the decoding of bytes to text, both as strict UTF-8 and in the encoding `json.loads` detects, the JSON decoding of one payload and the request-id test are parameters.
- `contains_exact` and `safe_relative_name` as separate commands; the safe-name rule is part of the inventory model.
- `validate_facts`, cross-receipt validation and the per-proof field lists: long, but each decided by one branch.
- ReadinessEvidence.ValidateManifest: the format checks of bindings, evidence texts and receipts are taken as decided; the texts of error messages are counted, not modelled.
- Readiness.EvaluateSubmission: the lists of external, recommended and post-submit blockers are plain filters and left out, as are the titles of structure blockers.
- ReadinessRounding.JudgingIsClose: real arithmetic, not binary floating point; weights are positive.
- HTTP, TLS, the DataHub SDK, files and the command line: remote calls with the outcomes above; the SDK's JSON for the six proposals is taken as written, without audit stamps, version, hash and raw schema.
- CanaryState.Contract holds the contract's digest; validation fixes the other content up to Python's equality, so the proposals of a file with the number zero for a listed false would carry that zero. Judgements do not depend on it (`CanaryState.AcceptedFieldsJudgeAlike`).
- The search index: arbitrary against other actors; for convergence it mirrors the store, that is, it lists the target exactly when one of its aspects is stored, then any other matches.
- CanaryApply.DeleteOwnedUrn: waits are bounded numbers of reads instead of deadlines; the delete response is its row count or a failure.
- CanaryPlan.PlannedIsValid: the code-point order of strings is a parameter, fixed on the mismatch names only; not-a-number and infinite floats are not values.
- The demo-state catalog work itself (`inspect_state`, deletes, datapack load, emission) enters receipts as observations; its inspection contributes only that an exact state has the contract's ownership history.
- DemoReceipt.CommandApply: run coordinates are ASCII digits; Python's `isdigit` admits further digits, for which no receipt verifies either. The control-plane file, the checksum inventory of the sealed directory and the dispatch arguments about the artifact are not part of the receipt statement.
