/** The commit of a freshly generated credential pair into two secrets, and its compensation.

    Every theorem is a postcondition over an arbitrary fault schedule, arbitrary token listings and
    an arbitrary entry state. */
module CredentialCommit {
  import opened Results
  import opened SecretStages
  import opened CloudProvider
  import opened SecretWriter
  import opened TokenRevocation

  datatype GeneratedToken = GeneratedToken(tokenId: TokenId, raw: string)

  /** The arguments of one commit. */
  datatype Rotation = Rotation(
    gmsUrl: string, readArn: Arn, writeArn: Arn, reader: GeneratedToken, writer: GeneratedToken,
    runHandleKey: string, oauthMasterKey: string, runId: string, runAttempt: string, oldIds: set<TokenId>)
  {
    function NewWriterDocument(): Document {
      WriterDocument(gmsUrl, writer.raw)
    }

    function NewReaderDocument(): Document {
      ReaderDocument(gmsUrl, reader.raw, runHandleKey, oauthMasterKey)
    }

    function GeneratedIds(): set<TokenId> {
      {reader.tokenId, writer.tokenId}
    }

    /** The documents of the first `n` staged versions. */
    function Documents(n: nat): seq<Document>
      requires n <= 2
    {
      [NewWriterDocument(), NewReaderDocument()][..n]
    }

    function Arns(): set<Arn> {
      {readArn, writeArn}
    }
  }

  datatype CommitResult = Committed(revoked: nat) | Compensated | Incomplete

  // ---- States of the two secrets ------------------------------------------------------------

  ghost predicate IsCurrent(now: map<Arn, Secret>, st: StagedSecret) {
    st.arn in now && Attached(now[st.arn].labels, st.version, CURRENT)
  }

  ghost predicate IsLabelled(now: map<Arn, Secret>, st: StagedSecret) {
    st.arn in now && Attached(now[st.arn].labels, st.version, st.stageLabel)
  }

  /** Each staged version of `staged` carries its document, in a secret of its own. */
  ghost predicate AllIn(pre: map<Arn, Secret>, now: map<Arn, Secret>, staged: seq<StagedSecret>,
                        documents: seq<Document>) {
    && |staged| == |documents| && pre.Keys == now.Keys
    && (forall i, j :: 0 <= i < j < |staged| ==> staged[i].arn != staged[j].arn)
    && (forall i :: 0 <= i < |staged| ==> StagedIn(pre, now, staged[i], documents[i]))
  }

  ghost predicate Unstaged(staged: seq<StagedSecret>, arn: Arn) {
    forall i :: 0 <= i < |staged| ==> staged[i].arn != arn
  }

  /** A put took effect although the call raised: one extra version, holding only the run's label. */
  ghost predicate Orphaned(pre: Secret, now: Secret, stageLabel: Label) {
    exists v, document :: OrphanedBy(pre, now, stageLabel, v, document)
  }

  ghost predicate OrphanedBy(pre: Secret, now: Secret, stageLabel: Label, v: Version, document: Document) {
    && v !in pre.labels && Holder(pre.labels, stageLabel).None?
    && now == Secret(Added(pre.labels, v, stageLabel), pre.documents[v := document])
  }

  /** The secrets a run can leave behind: staged ones as Rotated describes, at most one orphan (in
      the secret whose staging failed), and every other secret as it was. */
  ghost predicate Accounted(rot: Rotation, pre: map<Arn, Secret>, now: map<Arn, Secret>, staged: seq<StagedSecret>) {
    match StagingLabel(rot.runId, rot.runAttempt)
    case None => staged == [] && now == pre
    case Some(stageLabel) =>
      && |staged| <= 2
      && AllIn(pre, now, staged, rot.Documents(|staged|))
      && ProperlyStaged(rot, staged, stageLabel)
      && forall arn :: arn in pre && Unstaged(staged, arn) ==>
           now[arn] == pre[arn] || MayBeOrphaned(rot, pre, now, staged, stageLabel, arn)
  }

  /** The writer's secret is staged first, then the reader's, both under the run's label. */
  ghost predicate ProperlyStaged(rot: Rotation, staged: seq<StagedSecret>, stageLabel: Label) {
    && (|staged| > 0 ==> staged[0].arn == rot.writeArn)
    && (|staged| > 1 ==> staged[1].arn == rot.readArn)
    && (forall i :: 0 <= i < |staged| ==> staged[i].stageLabel == stageLabel)
  }

  /** `arn` is the secret whose staging came next, and its put left an orphan. */
  ghost predicate MayBeOrphaned(rot: Rotation, pre: map<Arn, Secret>, now: map<Arn, Secret>,
                                staged: seq<StagedSecret>, stageLabel: Label, arn: Arn) {
    && |staged| < 2 && arn == (if |staged| == 0 then rot.writeArn else rot.readArn)
    && arn in pre && arn in now && Orphaned(pre[arn], now[arn], stageLabel)
  }

  /** AWSCURRENT of `arn` is a version that did not exist at entry and carries `document`; the
      run's label is on no version of it. */
  ghost predicate Serves(rot: Rotation, pre: map<Arn, Secret>, now: map<Arn, Secret>, arn: Arn, document: Document) {
    && arn in pre && arn in now && StagingLabel(rot.runId, rot.runAttempt).Some?
    && Holder(now[arn].labels, CURRENT).Some?
    && Holder(now[arn].labels, CURRENT).value !in pre[arn].labels
    && Holder(now[arn].labels, CURRENT).value in now[arn].documents
    && now[arn].documents[Holder(now[arn].labels, CURRENT).value] == document
    && Holder(now[arn].labels, StagingLabel(rot.runId, rot.runAttempt).value).None?
  }

  ghost predicate BothServe(rot: Rotation, pre: map<Arn, Secret>, now: map<Arn, Secret>) {
    && rot.readArn != rot.writeArn
    && Serves(rot, pre, now, rot.writeArn, rot.NewWriterDocument())
    && Serves(rot, pre, now, rot.readArn, rot.NewReaderDocument())
  }

  /** `now` serves the version `pre` served; every version of `pre` keeps its document and its labels, except that
      AWSPREVIOUS may have ended on a version the run added, if there was a version to switch from. */
  ghost predicate RestoredSecret(pre: Secret, now: Secret) {
    && Holder(now.labels, CURRENT) == Holder(pre.labels, CURRENT)
    && (|| Holder(now.labels, PREVIOUS) == Holder(pre.labels, PREVIOUS)
        || (&& Holder(pre.labels, CURRENT).Some? && Holder(now.labels, PREVIOUS).Some?
            && Holder(now.labels, PREVIOUS).value !in pre.labels))
    && pre.labels.Keys <= now.labels.Keys
    && (forall v :: v in pre.labels ==> now.labels[v] - {PREVIOUS} == pre.labels[v] - {PREVIOUS})
    && (forall v :: v in pre.labels && v in pre.documents ==>
          v in now.documents && now.documents[v] == pre.documents[v])
  }

  ghost predicate Restored(pre: map<Arn, Secret>, now: map<Arn, Secret>) {
    && pre.Keys == now.Keys
    && forall arn :: arn in pre ==> RestoredSecret(pre[arn], now[arn])
  }

  /** No token outside the generated pair is revoked unless both secrets already serve the new pair
      with the run's label gone, and then only a superseded one. */
  ghost predicate SafeRevocations(rot: Rotation, pre: map<Arn, Secret>, events: seq<Event>) {
    forall e :: e in events && e.Revocation? ==>
      e.id in rot.GeneratedIds() || (e.id in rot.oldIds && BothServe(rot, pre, e.secrets))
  }

  /** A superseded token was asked to go. */
  ghost predicate SupersededTouched(rot: Rotation, events: seq<Event>) {
    exists e :: e in events && e.Revocation? && e.id !in rot.GeneratedIds()
  }

  // ---- Lemmas -------------------------------------------------------------------------------

  lemma MoveKeepsAll(pre: map<Arn, Secret>, now: map<Arn, Secret>, now': map<Arn, Secret>,
                     staged: seq<StagedSecret>, documents: seq<Document>, i: nat)
    requires AllIn(pre, now, staged, documents) && i < |staged|
    requires now' == now || OnlyLabels(now, now', staged[i].arn)
    requires staged[i].arn in now' && Rotated(pre[staged[i].arn].labels, now'[staged[i].arn].labels, staged[i])
    requires PreviousPlaced(pre[staged[i].arn].labels, now'[staged[i].arn].labels, staged[i])
    ensures AllIn(pre, now', staged, documents)
    ensures forall j :: 0 <= j < |staged| && j != i ==>
              IsCurrent(now', staged[j]) == IsCurrent(now, staged[j]) &&
              IsLabelled(now', staged[j]) == IsLabelled(now, staged[j])
    ensures forall arn :: arn in now && arn != staged[i].arn ==> now'[arn] == now[arn]
  {
    forall j | 0 <= j < |staged|
      ensures StagedIn(pre, now', staged[j], documents[j])
      ensures j != i ==> staged[j].arn != staged[i].arn
    {
      assert StagedIn(pre, now, staged[j], documents[j]);
    }
  }

  /** A label move within one staged secret keeps every secret accounted for. */
  lemma MoveKeepsAccounts(rot: Rotation, pre: map<Arn, Secret>, now: map<Arn, Secret>, now': map<Arn, Secret>,
                          staged: seq<StagedSecret>, i: nat)
    requires Accounted(rot, pre, now, staged) && i < |staged|
    requires now' == now || OnlyLabels(now, now', staged[i].arn)
    requires staged[i].arn in now' && Rotated(pre[staged[i].arn].labels, now'[staged[i].arn].labels, staged[i])
    requires PreviousPlaced(pre[staged[i].arn].labels, now'[staged[i].arn].labels, staged[i])
    ensures Accounted(rot, pre, now', staged)
    ensures forall j :: 0 <= j < |staged| && j != i ==>
              IsCurrent(now', staged[j]) == IsCurrent(now, staged[j]) &&
              IsLabelled(now', staged[j]) == IsLabelled(now, staged[j])
  {
    StagedAt(rot, pre, now, staged, i);
    MoveKeepsAll(pre, now, now', staged, rot.Documents(|staged|), i);
    forall arn | arn in pre && Unstaged(staged, arn)
      ensures now'[arn] == now[arn]
    {
      assert staged[i].arn != arn;
    }
  }

  lemma OrphanKeepsCurrent(pre: Secret, now: Secret, stageLabel: Label)
    requires Orphaned(pre, now, stageLabel) && stageLabel != CURRENT && stageLabel != PREVIOUS
    ensures Holder(pre.labels, CURRENT).Some? && Exclusive(pre.labels) ==>
              Holder(now.labels, CURRENT) == Holder(pre.labels, CURRENT)
    ensures Holder(pre.labels, CURRENT).None? ==> Holder(now.labels, CURRENT).None?
    ensures Exclusive(pre.labels) ==> Holder(now.labels, PREVIOUS) == Holder(pre.labels, PREVIOUS)
    ensures pre.labels.Keys <= now.labels.Keys
    ensures forall v :: v in pre.labels ==> now.labels[v] == pre.labels[v]
    ensures forall v :: v in pre.labels && v in pre.documents ==>
              v in now.documents && now.documents[v] == pre.documents[v]
  {
    var v, document :| OrphanedBy(pre, now, stageLabel, v, document);
    forall w | w in pre.labels
      ensures now.labels[w] == pre.labels[w]
    {
      assert !Attached(pre.labels, w, stageLabel);
    }
    assert now.labels[v] == {stageLabel};
    assert forall w :: Attached(now.labels, w, CURRENT) <==> Attached(pre.labels, w, CURRENT);
    assert forall w :: Attached(now.labels, w, PREVIOUS) <==> Attached(pre.labels, w, PREVIOUS);
  }

  lemma StagedAt(rot: Rotation, pre: map<Arn, Secret>, now: map<Arn, Secret>, staged: seq<StagedSecret>, i: nat)
    requires Accounted(rot, pre, now, staged) && i < |staged|
    ensures |staged| <= 2 && staged[i].arn == (if i == 0 then rot.writeArn else rot.readArn)
    ensures Some(staged[i].stageLabel) == StagingLabel(rot.runId, rot.runAttempt)
    ensures StagedIn(pre, now, staged[i], rot.Documents(2)[i])
    ensures |staged| == 2 ==> rot.readArn != rot.writeArn
  {
    assert StagedIn(pre, now, staged[i], rot.Documents(|staged|)[i]);
    if |staged| == 2 {
      assert staged[0].arn != staged[1].arn;
    }
  }

  lemma ServesAt(rot: Rotation, pre: map<Arn, Secret>, now: map<Arn, Secret>, staged: seq<StagedSecret>, i: nat)
    requires Accounted(rot, pre, now, staged) && i < |staged|
    requires IsCurrent(now, staged[i]) && !IsLabelled(now, staged[i])
    ensures |staged| <= 2 && Serves(rot, pre, now, staged[i].arn, rot.Documents(2)[i])
  {
    StagedAt(rot, pre, now, staged, i);
    RotatedHolders(pre[staged[i].arn].labels, now[staged[i].arn].labels, staged[i]);
  }

  /** With both versions current and both labels dropped, both secrets serve the new pair. */
  lemma SwitchedServes(rot: Rotation, pre: map<Arn, Secret>, now: map<Arn, Secret>, staged: seq<StagedSecret>)
    requires Accounted(rot, pre, now, staged) && |staged| == 2
    requires forall i :: 0 <= i < 2 ==> IsCurrent(now, staged[i]) && !IsLabelled(now, staged[i])
    ensures BothServe(rot, pre, now)
    ensures forall arn :: arn in pre && arn !in rot.Arns() ==> arn in now && now[arn] == pre[arn]
  {
    StagedAt(rot, pre, now, staged, 0);
    StagedAt(rot, pre, now, staged, 1);
    ServesAt(rot, pre, now, staged, 0);
    ServesAt(rot, pre, now, staged, 1);
    assert forall arn :: arn !in rot.Arns() ==> Unstaged(staged, arn);
  }

  lemma RestoredStagedAt(rot: Rotation, pre: map<Arn, Secret>, now: map<Arn, Secret>, staged: seq<StagedSecret>, i: nat)
    requires Accounted(rot, pre, now, staged) && i < |staged|
    requires !IsCurrent(now, staged[i]) && !IsLabelled(now, staged[i])
    ensures staged[i].arn in pre && staged[i].arn in now && RestoredSecret(pre[staged[i].arn], now[staged[i].arn])
    ensures Holder(now[staged[i].arn].labels, staged[i].stageLabel).None?
  {
    StagedAt(rot, pre, now, staged, i);
    RotatedHolders(pre[staged[i].arn].labels, now[staged[i].arn].labels, staged[i]);
  }

  /** With no staged version current and every label dropped, the entry state is restored. */
  lemma UndoneRestores(rot: Rotation, pre: map<Arn, Secret>, now: map<Arn, Secret>, staged: seq<StagedSecret>)
    requires Accounted(rot, pre, now, staged)
    requires forall arn :: arn in pre ==> Exclusive(pre[arn].labels)
    requires forall i :: 0 <= i < |staged| ==> !IsCurrent(now, staged[i]) && !IsLabelled(now, staged[i])
    ensures Restored(pre, now)
    ensures forall st :: st in staged ==> st.arn in now && Holder(now[st.arn].labels, st.stageLabel).None?
  {
    forall i | 0 <= i < |staged|
      ensures staged[i].arn in now && Holder(now[staged[i].arn].labels, staged[i].stageLabel).None?
    {
      RestoredStagedAt(rot, pre, now, staged, i);
    }
    forall arn | arn in pre
      ensures arn in now && RestoredSecret(pre[arn], now[arn])
    {
      if i :| 0 <= i < |staged| && staged[i].arn == arn {
        RestoredStagedAt(rot, pre, now, staged, i);
      } else {
        assert Unstaged(staged, arn);
        if now[arn] != pre[arn] {
          OrphanKeepsCurrent(pre[arn], now[arn], StagingLabel(rot.runId, rot.runAttempt).value);
        }
      }
    }
  }

  /** A secret serves what it served at entry, or the document this commit staged for it. */
  ghost predicate ServesOldOrNew(rot: Rotation, pre: map<Arn, Secret>, now: map<Arn, Secret>, arn: Arn)
    requires arn in pre
  {
    && arn in now
    && var current := Holder(now[arn].labels, CURRENT);
       || current == Holder(pre[arn].labels, CURRENT)
       || (current.Some? && current.value in now[arn].documents && (
             || (arn == rot.writeArn && now[arn].documents[current.value] == rot.NewWriterDocument())
             || (arn == rot.readArn && now[arn].documents[current.value] == rot.NewReaderDocument())))
  }

  ghost predicate AllServeOldOrNew(rot: Rotation, pre: map<Arn, Secret>, now: map<Arn, Secret>) {
    forall arn :: arn in pre ==> ServesOldOrNew(rot, pre, now, arn)
  }

  ghost predicate AllExclusive(now: map<Arn, Secret>) {
    forall arn :: arn in now ==> Exclusive(now[arn].labels)
  }

  /** No accounted state has a secret serve anything but its entry version or the staged one. */
  lemma CurrentIsOldOrNew(rot: Rotation, pre: map<Arn, Secret>, now: map<Arn, Secret>, staged: seq<StagedSecret>)
    requires Accounted(rot, pre, now, staged) && AllExclusive(pre)
    ensures AllServeOldOrNew(rot, pre, now)
  {
    forall arn | arn in pre
      ensures ServesOldOrNew(rot, pre, now, arn)
    {
      if i :| 0 <= i < |staged| && staged[i].arn == arn {
        StagedAt(rot, pre, now, staged, i);
        RotatedHolders(pre[arn].labels, now[arn].labels, staged[i]);
      } else {
        assert Unstaged(staged, arn);
        if now[arn] != pre[arn] {
          OrphanKeepsCurrent(pre[arn], now[arn], StagingLabel(rot.runId, rot.runAttempt).value);
        }
      }
    }
  }

  /** The secrets went from one record of states to a longer one, through states that serve old or new only. */
  ghost predicate Went(rot: Rotation, pre: map<Arn, Secret>, before: seq<map<Arn, Secret>>,
                       after: seq<map<Arn, Secret>>) {
    && |before| <= |after| && after[..|before|] == before
    && forall k :: |before| <= k < |after| ==> AllServeOldOrNew(rot, pre, after[k])
  }

  lemma WentNowhere(rot: Rotation, pre: map<Arn, Secret>, states: seq<map<Arn, Secret>>)
    ensures Went(rot, pre, states, states)
  {
  }

  lemma WentOn(rot: Rotation, pre: map<Arn, Secret>, a: seq<map<Arn, Secret>>, b: seq<map<Arn, Secret>>,
               c: seq<map<Arn, Secret>>)
    requires Went(rot, pre, a, b) && Went(rot, pre, b, c)
    ensures Went(rot, pre, a, c)
  {
    hide AllServeOldOrNew;
    assert c[..|a|] == c[..|b|][..|a|];
    forall k | |a| <= k < |c|
      ensures AllServeOldOrNew(rot, pre, c[k])
    {
      if k < |b| {
        assert c[k] == c[..|b|][k] == b[k];
      }
    }
  }

  lemma WentTo(rot: Rotation, pre: map<Arn, Secret>, now: map<Arn, Secret>, staged: seq<StagedSecret>,
               before: seq<map<Arn, Secret>>, after: seq<map<Arn, Secret>>, moved: bool)
    requires Accounted(rot, pre, now, staged) && AllExclusive(pre)
    requires after == before + if moved then [now] else []
    ensures Went(rot, pre, before, after)
  {
    hide Accounted, AllServeOldOrNew;
    CurrentIsOldOrNew(rot, pre, now, staged);
  }

  lemma SplitSpan(provider: Provider, from: nat, mid: nat, to: nat)
    requires from <= mid <= to
    ensures provider.Acknowledged(from, to) ==> provider.Acknowledged(from, mid) && provider.Acknowledged(mid, to)
  {
  }

  lemma OneCall(provider: Provider, from: nat, at: nat, to: nat)
    requires from <= at < to
    ensures provider.Acknowledged(from, to) ==> provider.outcomes(at).Acknowledged?
  {
  }

  // ---- Compensation -------------------------------------------------------------------------

  /** Ask for both generated tokens to be revoked; complete only if both calls were acknowledged. */
  method RevokeGenerated(control: TrialControlPlane, rot: Rotation) returns (r: Status, ghost events: seq<Event>)
    modifies control.provider`clock, control.provider`liveTokens, control.provider`trace
    ensures control.provider.clock >= old(control.provider.clock)
    ensures control.provider.liveTokens == old(control.provider.liveTokens) - AppliedIds(events)
    ensures control.provider.trace == old(control.provider.trace) + events
    ensures OnlyRevokes(events, rot.GeneratedIds(), control.provider.secrets)
    ensures forall id :: id in rot.GeneratedIds() && id != "" ==> Asked(events, id, control.provider.secrets)
    ensures r.Completed? ==> rot.GeneratedIds() <= AppliedIds(events)
    ensures "" !in rot.GeneratedIds()
            && control.provider.Acknowledged(old(control.provider.clock), control.provider.clock) ==>
              r.Completed?
  {
    hide AppliedIds, Asked;
    var generated := [rot.reader.tokenId, rot.writer.tokenId];
    var failed := false;
    events := [];
    NoneApplied({});
    for i := 0 to |generated|
      invariant control.provider.clock >= old(control.provider.clock)
      invariant control.provider.liveTokens == old(control.provider.liveTokens) - AppliedIds(events)
      invariant control.provider.trace == old(control.provider.trace) + events
      invariant OnlyRevokes(events, rot.GeneratedIds(), control.provider.secrets)
      invariant forall j :: 0 <= j < i && generated[j] != "" ==> Asked(events, generated[j], control.provider.secrets)
      invariant !failed ==> forall j :: 0 <= j < i ==> generated[j] in AppliedIds(events)
      invariant "" !in rot.GeneratedIds()
                && control.provider.Acknowledged(old(control.provider.clock), control.provider.clock) ==>
                  !failed
    {
      ghost var from := control.provider.clock;
      ghost var more;
      var revoked;
      revoked, more := control.Revoke(generated[i]);
      AppliedIdsConcat(events, more);
      AskedLonger(events, more, control.provider.secrets);
      SplitSpan(control.provider, old(control.provider.clock), from, control.provider.clock);
      events := events + more;
      failed := failed || revoked.Failed?;
    }
    assert generated[0] == rot.reader.tokenId && generated[1] == rot.writer.tokenId;
    r := if failed then Failed else Completed;
  }

  // ---- One call on one staged secret, with the others accounted for -------------------------

  ghost predicate SameElsewhere(now: map<Arn, Secret>, now': map<Arn, Secret>, staged: seq<StagedSecret>, i: nat) {
    forall j :: 0 <= j < |staged| && j != i ==>
      IsCurrent(now', staged[j]) == IsCurrent(now, staged[j])
        && IsLabelled(now', staged[j]) == IsLabelled(now, staged[j])
  }

  /** The secrets are accounted for, from an entry state without ambiguous labels. */
  ghost predicate Sound(rot: Rotation, pre: map<Arn, Secret>, provider: Provider, staged: seq<StagedSecret>)
    reads provider
  {
    provider.Valid() && AllExclusive(pre) && Accounted(rot, pre, provider.secrets, staged)
  }

  lemma ExclusiveOfRotated(entry: Labels, was: Labels, became: Labels, st: StagedSecret)
    requires Rotated(entry, was, st) && Rotated(entry, became, st)
    ensures st.version in was && st.version in became
  {
  }

  lemma PromoteStarts(rot: Rotation, pre: map<Arn, Secret>, now: map<Arn, Secret>, staged: seq<StagedSecret>, i: nat)
    requires Accounted(rot, pre, now, staged) && i < |staged|
    ensures staged[i].arn in now && (!IsCurrent(now, staged[i]) ==>
                                     PromotionOffered(now[staged[i].arn].labels, staged[i]))
  {
    StagedAt(rot, pre, now, staged, i);
    RotatedOffers(pre[staged[i].arn].labels, now[staged[i].arn].labels, staged[i]);
  }

  lemma PromoteEnds(rot: Rotation, pre: map<Arn, Secret>, before: map<Arn, Secret>, now: map<Arn, Secret>,
                 staged: seq<StagedSecret>, i: nat, done: bool, states: seq<map<Arn, Secret>>,
                 after: seq<map<Arn, Secret>>)
    requires Accounted(rot, pre, before, staged) && AllExclusive(pre) && i < |staged| && staged[i].arn in before
             && staged[i].arn in now
    requires now == before || OnlyLabels(before, now, staged[i].arn)
    requires PromoteStep(before[staged[i].arn].labels, now[staged[i].arn].labels, staged[i], done)
    requires after == states + if now == before then [] else [now]
    ensures Accounted(rot, pre, now, staged) && SameElsewhere(before, now, staged, i) && Went(rot, pre, states, after)
    ensures done ==> IsCurrent(now, staged[i])
  {
    hide Accounted, OnlyLabels, PromoteStep, Went, RollbackOffered, AllServeOldOrNew;
    StagedAt(rot, pre, before, staged, i);
    var entry, was, became := pre[staged[i].arn].labels, before[staged[i].arn].labels, now[staged[i].arn].labels;
    PromotionRotates(entry, was, became, staged[i], done);
    PromotionPlaces(entry, was, became, staged[i], done);
    ExclusiveOfRotated(entry, was, became, staged[i]);
    hide Rotated, PreviousPlaced;
    MoveKeepsAccounts(rot, pre, before, now, staged, i);
    WentTo(rot, pre, now, staged, states, after, now != before);
  }

  lemma RollbackStarts(rot: Rotation, pre: map<Arn, Secret>, now: map<Arn, Secret>, staged: seq<StagedSecret>, i: nat)
    requires Accounted(rot, pre, now, staged) && i < |staged|
    ensures staged[i].arn in now && RollbackOffered(now[staged[i].arn].labels, staged[i])
  {
    StagedAt(rot, pre, now, staged, i);
    RotatedOffers(pre[staged[i].arn].labels, now[staged[i].arn].labels, staged[i]);
  }

  lemma RollbackEnds(rot: Rotation, pre: map<Arn, Secret>, before: map<Arn, Secret>, now: map<Arn, Secret>,
                 staged: seq<StagedSecret>, i: nat, done: bool, states: seq<map<Arn, Secret>>,
                 after: seq<map<Arn, Secret>>)
    requires Accounted(rot, pre, before, staged) && AllExclusive(pre) && i < |staged| && staged[i].arn in before
             && staged[i].arn in now
    requires now == before || OnlyLabels(before, now, staged[i].arn)
    requires RollbackStep(before[staged[i].arn].labels, now[staged[i].arn].labels, staged[i], done)
    requires after == states + if now == before then [] else [now]
    ensures Accounted(rot, pre, now, staged) && SameElsewhere(before, now, staged, i) && Went(rot, pre, states, after)
    ensures done ==> !IsCurrent(now, staged[i])
  {
    hide Accounted, OnlyLabels, RollbackStep, Went, RollbackOffered, AllServeOldOrNew;
    StagedAt(rot, pre, before, staged, i);
    var entry, was, became := pre[staged[i].arn].labels, before[staged[i].arn].labels, now[staged[i].arn].labels;
    RollbackRotates(entry, was, became, staged[i], done);
    RollbackPlaces(entry, was, became, staged[i], done);
    ExclusiveOfRotated(entry, was, became, staged[i]);
    hide Rotated, PreviousPlaced;
    MoveKeepsAccounts(rot, pre, before, now, staged, i);
    WentTo(rot, pre, now, staged, states, after, now != before);
  }

  lemma DropStarts(rot: Rotation, pre: map<Arn, Secret>, now: map<Arn, Secret>, staged: seq<StagedSecret>, i: nat)
    requires Accounted(rot, pre, now, staged) && i < |staged|
    ensures staged[i].arn in now
  {
    StagedAt(rot, pre, now, staged, i);
  }

  lemma DropEnds(rot: Rotation, pre: map<Arn, Secret>, before: map<Arn, Secret>, now: map<Arn, Secret>,
                 staged: seq<StagedSecret>, i: nat, done: bool, states: seq<map<Arn, Secret>>,
                 after: seq<map<Arn, Secret>>)
    requires Accounted(rot, pre, before, staged) && AllExclusive(pre) && i < |staged| && staged[i].arn in before
             && staged[i].arn in now
    requires now == before || OnlyLabels(before, now, staged[i].arn)
    requires DropStep(before[staged[i].arn].labels, now[staged[i].arn].labels, staged[i], done)
    requires after == states + if now == before then [] else [now]
    ensures Accounted(rot, pre, now, staged) && SameElsewhere(before, now, staged, i) && Went(rot, pre, states, after)
    ensures IsCurrent(now, staged[i]) == IsCurrent(before, staged[i]) && (done ==> !IsLabelled(now, staged[i]))
  {
    hide Accounted, OnlyLabels, DropStep, Went, RollbackOffered, AllServeOldOrNew;
    StagedAt(rot, pre, before, staged, i);
    var entry, was, became := pre[staged[i].arn].labels, before[staged[i].arn].labels, now[staged[i].arn].labels;
    DropRotates(entry, was, became, staged[i], done);
    DropPlaces(entry, was, became, staged[i], done);
    ExclusiveOfRotated(entry, was, became, staged[i]);
    hide Rotated, PreviousPlaced;
    MoveKeepsAccounts(rot, pre, before, now, staged, i);
    WentTo(rot, pre, now, staged, states, after, now != before);
  }

  method PromoteOne(aws: AwsSecretWriter, rot: Rotation, staged: seq<StagedSecret>, i: nat, ghost pre: map<Arn, Secret>)
    returns (r: Status)
    requires Sound(rot, pre, aws.provider, staged) && i < |staged|
    modifies aws.provider`clock, aws.provider`secrets, aws.provider`states
    ensures Sound(rot, pre, aws.provider, staged) && aws.provider.clock >= old(aws.provider.clock)
    ensures Went(rot, pre, old(aws.provider.states), aws.provider.states)
    ensures SameElsewhere(old(aws.provider.secrets), aws.provider.secrets, staged, i)
    ensures r.Completed? ==> IsCurrent(aws.provider.secrets, staged[i])
    ensures !IsCurrent(old(aws.provider.secrets), staged[i]) ==>
              (aws.provider.Acknowledged(old(aws.provider.clock), aws.provider.clock) ==> r.Completed?)
  {
    hide Accounted, StagedIn, Rotated, PreviousPlaced, PromoteStep, Went, IsCurrent, IsLabelled, OnlyLabels;
    hide SameElsewhere, AllExclusive, PromotionOffered;
    ghost var before, states := aws.provider.secrets, aws.provider.states;
    PromoteStarts(rot, pre, before, staged, i);
    r := aws.Promote(staged[i]);
    PromoteEnds(rot, pre, before, aws.provider.secrets, staged, i, r.Completed?, states, aws.provider.states);
  }

  method RollbackOne(aws: AwsSecretWriter, rot: Rotation, staged: seq<StagedSecret>, i: nat,
                     ghost pre: map<Arn, Secret>)
    returns (r: Status)
    requires Sound(rot, pre, aws.provider, staged) && i < |staged|
    modifies aws.provider`clock, aws.provider`secrets, aws.provider`states
    ensures Sound(rot, pre, aws.provider, staged) && aws.provider.clock >= old(aws.provider.clock)
    ensures Went(rot, pre, old(aws.provider.states), aws.provider.states)
    ensures SameElsewhere(old(aws.provider.secrets), aws.provider.secrets, staged, i)
    ensures r.Completed? ==> !IsCurrent(aws.provider.secrets, staged[i])
    ensures aws.provider.Acknowledged(old(aws.provider.clock), aws.provider.clock) ==> r.Completed?
  {
    hide Accounted, StagedIn, Rotated, PreviousPlaced, RollbackStep, Went, IsCurrent, IsLabelled, OnlyLabels;
    hide SameElsewhere, AllExclusive, RollbackOffered;
    ghost var before, states := aws.provider.secrets, aws.provider.states;
    RollbackStarts(rot, pre, before, staged, i);
    r := aws.Rollback(staged[i]);
    RollbackEnds(rot, pre, before, aws.provider.secrets, staged, i, r.Completed?, states, aws.provider.states);
  }

  method DropOne(aws: AwsSecretWriter, rot: Rotation, staged: seq<StagedSecret>, i: nat, ghost pre: map<Arn, Secret>)
    returns (r: Status)
    requires Sound(rot, pre, aws.provider, staged) && i < |staged|
    modifies aws.provider`clock, aws.provider`secrets, aws.provider`states
    ensures Sound(rot, pre, aws.provider, staged) && aws.provider.clock >= old(aws.provider.clock)
    ensures Went(rot, pre, old(aws.provider.states), aws.provider.states)
    ensures SameElsewhere(old(aws.provider.secrets), aws.provider.secrets, staged, i)
    ensures IsCurrent(aws.provider.secrets, staged[i]) == IsCurrent(old(aws.provider.secrets), staged[i])
    ensures r.Completed? ==> !IsLabelled(aws.provider.secrets, staged[i])
    ensures aws.provider.Acknowledged(old(aws.provider.clock), aws.provider.clock) ==> r.Completed?
  {
    hide Accounted, StagedIn, Rotated, PreviousPlaced, DropStep, Went, IsCurrent, IsLabelled, OnlyLabels;
    hide SameElsewhere, AllExclusive;
    ghost var before, states := aws.provider.secrets, aws.provider.states;
    DropStarts(rot, pre, before, staged, i);
    r := aws.DropStage(staged[i]);
    DropEnds(rot, pre, before, aws.provider.secrets, staged, i, r.Completed?, states, aws.provider.states);
  }

  method RollbackEach(aws: AwsSecretWriter, rot: Rotation, staged: seq<StagedSecret>, ghost pre: map<Arn, Secret>)
    returns (failed: bool)
    requires Sound(rot, pre, aws.provider, staged)
    modifies aws.provider`clock, aws.provider`secrets, aws.provider`states
    ensures Sound(rot, pre, aws.provider, staged) && aws.provider.clock >= old(aws.provider.clock)
    ensures Went(rot, pre, old(aws.provider.states), aws.provider.states)
    ensures !failed ==> forall j :: 0 <= j < |staged| ==> !IsCurrent(aws.provider.secrets, staged[j])
    ensures aws.provider.Acknowledged(old(aws.provider.clock), aws.provider.clock) ==> !failed
  {
    hide Sound, Went;
    failed := false;
    var k := |staged|;
    WentNowhere(rot, pre, aws.provider.states);
    while k > 0
      invariant 0 <= k <= |staged| && aws.provider.clock >= old(aws.provider.clock)
      invariant Sound(rot, pre, aws.provider, staged) && Went(rot, pre, old(aws.provider.states), aws.provider.states)
      invariant !failed ==> forall j :: k <= j < |staged| ==> !IsCurrent(aws.provider.secrets, staged[j])
      invariant aws.provider.Acknowledged(old(aws.provider.clock), aws.provider.clock) ==> !failed
    {
      k := k - 1;
      ghost var from, states := aws.provider.clock, aws.provider.states;
      var undone := RollbackOne(aws, rot, staged, k, pre);
      WentOn(rot, pre, old(aws.provider.states), states, aws.provider.states);
      SplitSpan(aws.provider, old(aws.provider.clock), from, aws.provider.clock);
      failed := failed || undone.Failed?;
    }
  }

  method DropEach(aws: AwsSecretWriter, rot: Rotation, staged: seq<StagedSecret>, ghost pre: map<Arn, Secret>)
    returns (failed: bool)
    requires Sound(rot, pre, aws.provider, staged)
    modifies aws.provider`clock, aws.provider`secrets, aws.provider`states
    ensures Sound(rot, pre, aws.provider, staged) && aws.provider.clock >= old(aws.provider.clock)
    ensures Went(rot, pre, old(aws.provider.states), aws.provider.states)
    ensures forall j :: 0 <= j < |staged| ==>
              IsCurrent(aws.provider.secrets, staged[j]) == IsCurrent(old(aws.provider.secrets), staged[j])
    ensures !failed ==> forall j :: 0 <= j < |staged| ==> !IsLabelled(aws.provider.secrets, staged[j])
    ensures aws.provider.Acknowledged(old(aws.provider.clock), aws.provider.clock) ==> !failed
  {
    hide Sound, Went;
    failed := false;
    WentNowhere(rot, pre, aws.provider.states);
    for i := 0 to |staged|
      invariant aws.provider.clock >= old(aws.provider.clock)
      invariant Sound(rot, pre, aws.provider, staged) && Went(rot, pre, old(aws.provider.states), aws.provider.states)
      invariant forall j :: 0 <= j < |staged| ==>
                  IsCurrent(aws.provider.secrets, staged[j]) == IsCurrent(old(aws.provider.secrets), staged[j])
      invariant !failed ==> forall j :: 0 <= j < i ==> !IsLabelled(aws.provider.secrets, staged[j])
      invariant aws.provider.Acknowledged(old(aws.provider.clock), aws.provider.clock) ==> !failed
    {
      ghost var from, states := aws.provider.clock, aws.provider.states;
      var dropped := DropOne(aws, rot, staged, i, pre);
      WentOn(rot, pre, old(aws.provider.states), states, aws.provider.states);
      SplitSpan(aws.provider, old(aws.provider.clock), from, aws.provider.clock);
      failed := failed || dropped.Failed?;
    }
  }

  /** Undo a commit that failed at any point, carrying on past every call that fails. It is incomplete only if one
      of its own calls was not acknowledged. */
  method CompensateSecretCommit(control: TrialControlPlane, aws: AwsSecretWriter, rot: Rotation,
                                staged: seq<StagedSecret>, ghost pre: map<Arn, Secret>)
    returns (r: Status, ghost events: seq<Event>)
    requires aws.provider == control.provider && Sound(rot, pre, control.provider, staged)
    modifies control.provider
    ensures Sound(rot, pre, control.provider, staged) && control.provider.clock >= old(control.provider.clock)
    ensures Went(rot, pre, old(control.provider.states), control.provider.states)
    ensures control.provider.liveTokens == old(control.provider.liveTokens) - AppliedIds(events)
    ensures control.provider.trace == old(control.provider.trace) + events
    ensures OnlyRevokes(events, rot.GeneratedIds(), old(control.provider.secrets))
    ensures forall id :: id in rot.GeneratedIds() && id != "" ==> Asked(events, id, old(control.provider.secrets))
    ensures r.Completed? ==> rot.GeneratedIds() <= AppliedIds(events)
    ensures r.Completed? ==>
              forall i :: 0 <= i < |staged| ==>
                !IsCurrent(control.provider.secrets, staged[i]) && !IsLabelled(control.provider.secrets, staged[i])
    ensures "" !in rot.GeneratedIds() ==>
              (control.provider.Acknowledged(old(control.provider.clock), control.provider.clock) ==> r.Completed?)
  {
    hide Went, Accounted, AppliedIds, OnlyRevokes, Asked;
    ghost var from, states := control.provider.clock, control.provider.states;
    var revoked, revocations := RevokeGenerated(control, rot);
    events := revocations;
    ghost var mid := control.provider.clock;
    assert Sound(rot, pre, control.provider, staged);
    var rollbackFailed := RollbackEach(aws, rot, staged, pre);
    ghost var undone, statesUndone := control.provider.clock, control.provider.states;
    var dropFailed := DropEach(aws, rot, staged, pre);
    WentOn(rot, pre, states, statesUndone, control.provider.states);
    SplitSpan(control.provider, from, mid, control.provider.clock);
    SplitSpan(control.provider, mid, undone, control.provider.clock);
    r := if revoked.Failed? || rollbackFailed || dropFailed then Failed else Completed;
  }

  // ---- The commit ---------------------------------------------------------------------------

  lemma FirstOrphaned(rot: Rotation, pre: map<Arn, Secret>, now: map<Arn, Secret>, stageLabel: Label)
    requires StagingLabel(rot.runId, rot.runAttempt) == Some(stageLabel)
    requires now == pre || exists v :: PutEffect(pre, now, rot.writeArn, rot.NewWriterDocument(), stageLabel, v)
    requires now != pre ==> Holder(pre[rot.writeArn].labels, stageLabel).None?
    ensures Accounted(rot, pre, now, [])
  {
    if now != pre {
      var v :| PutEffect(pre, now, rot.writeArn, rot.NewWriterDocument(), stageLabel, v);
      assert OrphanedBy(pre[rot.writeArn], now[rot.writeArn], stageLabel, v, rot.NewWriterDocument());
    }
  }

  lemma FirstStaged(rot: Rotation, pre: map<Arn, Secret>, now: map<Arn, Secret>, st: StagedSecret)
    requires StagingLabel(rot.runId, rot.runAttempt) == Some(st.stageLabel) && st.arn == rot.writeArn
    requires PutEffect(pre, now, rot.writeArn, rot.NewWriterDocument(), st.stageLabel, st.version)
    requires Exclusive(pre[st.arn].labels) && Holder(pre[st.arn].labels, st.stageLabel).None?
    requires st.previous == Holder(pre[st.arn].labels, CURRENT)
    ensures Accounted(rot, pre, now, [st]) && !IsCurrent(now, st)
    ensures Holder(now[st.arn].labels, st.stageLabel).Some?
  {
    StagingRotates(pre[st.arn].labels, now[st.arn].labels, st);
    StagingPlaces(pre[st.arn].labels, now[st.arn].labels, st);
    assert StagedIn(pre, now, st, rot.NewWriterDocument());
    assert [st][0] == st;
    assert Attached(now[st.arn].labels, st.version, st.stageLabel);
  }

  /** The second put, acknowledged or not, changes only a secret that was not staged yet. */
  lemma SecondPut(rot: Rotation, pre: map<Arn, Secret>, mid: map<Arn, Secret>, now: map<Arn, Secret>,
                  first: StagedSecret, v: Version)
    requires Accounted(rot, pre, mid, [first]) && rot.readArn in pre && mid[rot.readArn] == pre[rot.readArn]
    requires rot.readArn != rot.writeArn
    requires PutEffect(mid, now, rot.readArn, rot.NewReaderDocument(), first.stageLabel, v)
    ensures pre.Keys == now.Keys && StagedIn(pre, now, first, rot.NewWriterDocument())
    ensures forall arn :: arn in pre && arn !in rot.Arns() ==> now[arn] == mid[arn] == pre[arn]
    ensures PutEffect(pre, pre[rot.readArn := now[rot.readArn]], rot.readArn, rot.NewReaderDocument(),
                      first.stageLabel, v)
  {
    StagedAt(rot, pre, mid, [first], 0);
    forall arn | arn in pre && arn !in rot.Arns()
      ensures mid[arn] == pre[arn]
    {
      assert Unstaged([first], arn);
    }
  }

  lemma SecondOrphaned(rot: Rotation, pre: map<Arn, Secret>, mid: map<Arn, Secret>, now: map<Arn, Secret>,
                       first: StagedSecret, v: Version)
    requires Accounted(rot, pre, mid, [first]) && rot.readArn in pre && mid[rot.readArn] == pre[rot.readArn]
    requires rot.readArn != rot.writeArn
    requires PutEffect(mid, now, rot.readArn, rot.NewReaderDocument(), first.stageLabel, v)
    requires Holder(mid[rot.readArn].labels, first.stageLabel).None?
    ensures Accounted(rot, pre, now, [first])
  {
    StagedAt(rot, pre, mid, [first], 0);
    SecondPut(rot, pre, mid, now, first, v);
    assert OrphanedBy(pre[rot.readArn], now[rot.readArn], first.stageLabel, v, rot.NewReaderDocument());
    forall arn | arn in pre && Unstaged([first], arn)
      ensures arn != rot.writeArn
    {
      assert [first][0].arn == rot.writeArn;
    }
  }

  lemma SecondStagedIn(rot: Rotation, pre: map<Arn, Secret>, mid: map<Arn, Secret>, now: map<Arn, Secret>,
                       first: StagedSecret, st: StagedSecret)
    requires Accounted(rot, pre, mid, [first]) && rot.readArn in pre && mid[rot.readArn] == pre[rot.readArn]
    requires rot.readArn != rot.writeArn && st.arn == rot.readArn && st.stageLabel == first.stageLabel
    requires PutEffect(mid, now, rot.readArn, rot.NewReaderDocument(), first.stageLabel, st.version)
    requires Exclusive(pre[st.arn].labels) && Holder(mid[rot.readArn].labels, first.stageLabel).None?
    requires st.previous == Holder(mid[st.arn].labels, CURRENT)
    ensures StagedIn(pre, now, st, rot.NewReaderDocument()) && !IsCurrent(now, st)
    ensures IsCurrent(now, first) == IsCurrent(mid, first)
  {
    StagedAt(rot, pre, mid, [first], 0);
    SecondPut(rot, pre, mid, now, first, st.version);
    StagingRotates(pre[st.arn].labels, now[st.arn].labels, st);
    StagingPlaces(pre[st.arn].labels, now[st.arn].labels, st);
  }

  lemma SecondStaged(rot: Rotation, pre: map<Arn, Secret>, mid: map<Arn, Secret>, now: map<Arn, Secret>,
                     first: StagedSecret, st: StagedSecret)
    requires Accounted(rot, pre, mid, [first]) && rot.readArn in pre && mid[rot.readArn] == pre[rot.readArn]
    requires rot.readArn != rot.writeArn && st.arn == rot.readArn && st.stageLabel == first.stageLabel
    requires PutEffect(mid, now, rot.readArn, rot.NewReaderDocument(), first.stageLabel, st.version)
    requires Exclusive(pre[st.arn].labels) && Holder(mid[rot.readArn].labels, first.stageLabel).None?
    requires st.previous == Holder(mid[st.arn].labels, CURRENT)
    ensures Accounted(rot, pre, now, [first, st])
    ensures !IsCurrent(now, st) && IsCurrent(now, first) == IsCurrent(mid, first)
  {
    hide PutEffect, StagedIn, Holder, Exclusive;
    SecondStagedIn(rot, pre, mid, now, first, st);
    SecondPut(rot, pre, mid, now, first, st.version);
    forall arn | arn in pre && Unstaged([first, st], arn)
      ensures arn !in rot.Arns()
    {
      assert [first, st][0].arn == rot.writeArn && [first, st][1].arn == rot.readArn;
    }
  }

  /** Nothing but a failing call can keep the run from staging and switching both secrets. */
  ghost predicate Switchable(rot: Rotation, pre: map<Arn, Secret>, provider: Provider) {
    && rot.readArn != rot.writeArn && StagingLabel(rot.runId, rot.runAttempt).Some?
    && StagingOffered(pre, rot.writeArn, rot.NewWriterDocument(), StagingLabel(rot.runId, rot.runAttempt).value)
    && StagingOffered(pre, rot.readArn, rot.NewReaderDocument(), StagingLabel(rot.runId, rot.runAttempt).value)
    && IsCredential(rot.writer.raw) && IsCredential(rot.reader.raw)
    && IsFernetKey(rot.runHandleKey) && IsFernetKey(rot.oauthMasterKey)
    && provider.Fresh(pre, rot.writeArn) && provider.Fresh(pre, rot.readArn)
  }

  /** What the first staging did, whether or not it returned. */
  lemma FirstPutAccounted(rot: Rotation, pre: map<Arn, Secret>, now: map<Arn, Secret>, stageLabel: Label,
                          st: Result<StagedSecret>)
    requires StagingLabel(rot.runId, rot.runAttempt) == Some(stageLabel) && AllExclusive(pre)
    requires now == pre || exists v :: PutEffect(pre, now, rot.writeArn, rot.NewWriterDocument(), stageLabel, v)
    requires now != pre ==> Holder(pre[rot.writeArn].labels, stageLabel).None?
    requires st.Returned? ==>
               && st.value.arn == rot.writeArn && st.value.stageLabel == stageLabel
               && PutEffect(pre, now, rot.writeArn, rot.NewWriterDocument(), stageLabel, st.value.version)
               && st.value.previous == Holder(pre[rot.writeArn].labels, CURRENT)
    ensures st.Raised? ==> Accounted(rot, pre, now, [])
    ensures st.Returned? ==> Accounted(rot, pre, now, [st.value]) && !IsCurrent(now, st.value)
    ensures st.Returned? ==> rot.writeArn in now && Holder(now[rot.writeArn].labels, stageLabel).Some?
    ensures rot.readArn != rot.writeArn && rot.readArn in pre ==>
              rot.readArn in now && now[rot.readArn] == pre[rot.readArn]
  {
    hide Accounted;
    if st.Returned? {
      PutChanges(pre, now, rot.writeArn, rot.NewWriterDocument(), stageLabel, st.value.version);
      FirstStaged(rot, pre, now, st.value);
    } else {
      FirstOrphaned(rot, pre, now, stageLabel);
    }
  }

  lemma PutChanges(pre: map<Arn, Secret>, now: map<Arn, Secret>, arn: Arn, document: Document, stageLabel: Label,
                   v: Version)
    requires PutEffect(pre, now, arn, document, stageLabel, v)
    ensures now != pre
  {
    assert v in now[arn].labels;
  }

  /** Stage both documents, in order, the writer's first. */
  method StageBoth(aws: AwsSecretWriter, rot: Rotation) returns (r: Status, staged: seq<StagedSecret>)
    requires aws.provider.Valid()
    modifies aws.provider`clock, aws.provider`secrets, aws.provider`states
    ensures Sound(rot, old(aws.provider.secrets), aws.provider, staged) && aws.provider.clock >= old(aws.provider.clock)
    ensures Went(rot, old(aws.provider.secrets), old(aws.provider.states), aws.provider.states)
    ensures r.Completed? ==> |staged| == 2 && forall i :: 0 <= i < 2 ==> !IsCurrent(aws.provider.secrets, staged[i])
    ensures Switchable(rot, old(aws.provider.secrets), aws.provider) ==>
              (aws.provider.Acknowledged(old(aws.provider.clock), aws.provider.clock) ==> r.Completed?)
  {
    hide Accounted, StagedIn, Went, IsCurrent, PutEffect, IsCredential, IsFernetKey, PayloadFits;
    ghost var pre, states, from := aws.provider.secrets, aws.provider.states, aws.provider.clock;
    var stageLabel := StagingLabel(rot.runId, rot.runAttempt);
    if stageLabel.None? {
      NothingStaged(rot, pre);
      WentNowhere(rot, pre, states);
      return Failed, [];
    }
    var writer := aws.StageWriter(rot.writeArn, rot.gmsUrl, rot.writer.raw, stageLabel.value);
    ghost var mid, midStates, midClock := aws.provider.secrets, aws.provider.states, aws.provider.clock;
    assert rot.NewWriterDocument() == WriterDocument(rot.gmsUrl, rot.writer.raw);
    FirstPutAccounted(rot, pre, mid, stageLabel.value, writer);
    staged := if writer.Returned? then [writer.value] else [];
    WentTo(rot, pre, mid, staged, states, midStates, mid != pre);
    if writer.Raised? {
      return Failed, staged;
    }
    r, staged := StageSecond(aws, rot, writer.value, pre, stageLabel.value);
    WentOn(rot, pre, states, midStates, aws.provider.states);
    SplitSpan(aws.provider, from, midClock, aws.provider.clock);
  }

  lemma NothingStaged(rot: Rotation, pre: map<Arn, Secret>)
    requires StagingLabel(rot.runId, rot.runAttempt).None?
    ensures Accounted(rot, pre, pre, [])
  {
  }

  /** Stage the reader's document once the writer's is staged. */
  method StageSecond(aws: AwsSecretWriter, rot: Rotation, first: StagedSecret, ghost pre: map<Arn, Secret>,
                     stageLabel: Label)
    returns (r: Status, staged: seq<StagedSecret>)
    requires Sound(rot, pre, aws.provider, [first]) && !IsCurrent(aws.provider.secrets, first)
    requires StagingLabel(rot.runId, rot.runAttempt) == Some(stageLabel) && first.stageLabel == stageLabel
    requires rot.writeArn in aws.provider.secrets && Holder(aws.provider.secrets[rot.writeArn].labels, stageLabel).Some?
    requires rot.readArn != rot.writeArn && rot.readArn in pre ==>
               rot.readArn in aws.provider.secrets && aws.provider.secrets[rot.readArn] == pre[rot.readArn]
    modifies aws.provider`clock, aws.provider`secrets, aws.provider`states
    ensures Sound(rot, pre, aws.provider, staged) && aws.provider.clock >= old(aws.provider.clock)
    ensures Went(rot, pre, old(aws.provider.states), aws.provider.states)
    ensures r.Completed? ==> |staged| == 2 && forall i :: 0 <= i < 2 ==> !IsCurrent(aws.provider.secrets, staged[i])
    ensures Switchable(rot, pre, aws.provider) ==>
              (aws.provider.Acknowledged(old(aws.provider.clock), aws.provider.clock) ==> r.Completed?)
  {
    hide StagedIn, Went, IsCredential, IsFernetKey, PayloadFits;
    ghost var mid, states := aws.provider.secrets, aws.provider.states;
    SecondIsOther(rot, pre, mid, first);
    staged := [first];
    var reader := aws.StageReader(rot.readArn, rot.gmsUrl, rot.reader.raw, rot.runHandleKey, rot.oauthMasterKey,
                                  stageLabel);
    ghost var now := aws.provider.secrets;
    hide Accounted;
    assert now != mid ==> rot.readArn != rot.writeArn && rot.readArn in pre;
    if reader.Raised? {
      if now != mid {
        var v :| PutEffect(mid, now, rot.readArn, rot.NewReaderDocument(), stageLabel, v);
        SecondOrphaned(rot, pre, mid, now, first, v);
      }
      r := Failed;
    } else {
      PutChanges(mid, now, rot.readArn, rot.NewReaderDocument(), stageLabel, reader.value.version);
      SecondStaged(rot, pre, mid, now, first, reader.value);
      staged := [first, reader.value];
      r := Completed;
    }
    WentTo(rot, pre, now, staged, states, aws.provider.states, now != mid);
  }

  /** The writer's secret carries the run's label by now, so a second put goes to another secret. */
  lemma SecondIsOther(rot: Rotation, pre: map<Arn, Secret>, mid: map<Arn, Secret>, first: StagedSecret)
    requires Accounted(rot, pre, mid, [first])
    ensures first.arn == rot.writeArn && mid.Keys == pre.Keys
  {
    StagedAt(rot, pre, mid, [first], 0);
  }

  /** Promote both, verify both, drop both labels, verify both again. */
  method SwitchBoth(aws: AwsSecretWriter, rot: Rotation, staged: seq<StagedSecret>, ghost pre: map<Arn, Secret>)
    returns (r: Status)
    requires |staged| == 2 && Sound(rot, pre, aws.provider, staged)
    modifies aws.provider`clock, aws.provider`secrets, aws.provider`states
    ensures Sound(rot, pre, aws.provider, staged) && aws.provider.clock >= old(aws.provider.clock)
    ensures Went(rot, pre, old(aws.provider.states), aws.provider.states)
    ensures r.Completed? ==>
              forall i :: 0 <= i < 2 ==>
                IsCurrent(aws.provider.secrets, staged[i]) && !IsLabelled(aws.provider.secrets, staged[i])
    ensures (forall i :: 0 <= i < 2 ==> !IsCurrent(old(aws.provider.secrets), staged[i])) ==>
              (aws.provider.Acknowledged(old(aws.provider.clock), aws.provider.clock) ==> r.Completed?)
  {
    hide Accounted, Went, IsCurrent, IsLabelled;
    ghost var c0, s0 := aws.provider.clock, aws.provider.states;
    r := PromoteEach(aws, rot, staged, pre);
    ghost var c1, s1 := aws.provider.clock, aws.provider.states;
    if r.Failed? {
      return;
    }
    r := VerifyEach(aws, staged);
    ghost var c2 := aws.provider.clock;
    SplitSpan(aws.provider, c0, c1, c2);
    if r.Failed? {
      return;
    }
    var failed := DropUntilFailure(aws, rot, staged, pre);
    ghost var c3 := aws.provider.clock;
    WentOn(rot, pre, s0, s1, aws.provider.states);
    SplitSpan(aws.provider, c0, c2, c3);
    if failed {
      return Failed;
    }
    r := VerifyEach(aws, staged);
    SplitSpan(aws.provider, c0, c3, aws.provider.clock);
  }

  method PromoteEach(aws: AwsSecretWriter, rot: Rotation, staged: seq<StagedSecret>, ghost pre: map<Arn, Secret>)
    returns (r: Status)
    requires Sound(rot, pre, aws.provider, staged)
    modifies aws.provider`clock, aws.provider`secrets, aws.provider`states
    ensures Sound(rot, pre, aws.provider, staged) && aws.provider.clock >= old(aws.provider.clock)
    ensures Went(rot, pre, old(aws.provider.states), aws.provider.states)
    ensures r.Completed? ==> forall j :: 0 <= j < |staged| ==> IsCurrent(aws.provider.secrets, staged[j])
    ensures (forall j :: 0 <= j < |staged| ==> !IsCurrent(old(aws.provider.secrets), staged[j])) ==>
              (aws.provider.Acknowledged(old(aws.provider.clock), aws.provider.clock) ==> r.Completed?)
  {
    hide Sound, Went, IsCurrent, IsLabelled;
    ghost var unpromoted := forall j :: 0 <= j < |staged| ==> !IsCurrent(aws.provider.secrets, staged[j]);
    WentNowhere(rot, pre, aws.provider.states);
    for i := 0 to |staged|
      invariant aws.provider.clock >= old(aws.provider.clock)
      invariant Sound(rot, pre, aws.provider, staged) && Went(rot, pre, old(aws.provider.states), aws.provider.states)
      invariant forall j :: 0 <= j < i ==> IsCurrent(aws.provider.secrets, staged[j])
      invariant unpromoted ==> forall j :: i <= j < |staged| ==> !IsCurrent(aws.provider.secrets, staged[j])
    {
      ghost var from, states := aws.provider.clock, aws.provider.states;
      r := PromoteOne(aws, rot, staged, i, pre);
      WentOn(rot, pre, old(aws.provider.states), states, aws.provider.states);
      SplitSpan(aws.provider, old(aws.provider.clock), from, aws.provider.clock);
      if r.Failed? {
        return;
      }
    }
    r := Completed;
  }

  method DropUntilFailure(aws: AwsSecretWriter, rot: Rotation, staged: seq<StagedSecret>, ghost pre: map<Arn, Secret>)
    returns (failed: bool)
    requires Sound(rot, pre, aws.provider, staged)
    modifies aws.provider`clock, aws.provider`secrets, aws.provider`states
    ensures Sound(rot, pre, aws.provider, staged) && aws.provider.clock >= old(aws.provider.clock)
    ensures Went(rot, pre, old(aws.provider.states), aws.provider.states)
    ensures forall j :: 0 <= j < |staged| ==>
              IsCurrent(aws.provider.secrets, staged[j]) == IsCurrent(old(aws.provider.secrets), staged[j])
    ensures !failed ==> forall j :: 0 <= j < |staged| ==> !IsLabelled(aws.provider.secrets, staged[j])
    ensures aws.provider.Acknowledged(old(aws.provider.clock), aws.provider.clock) ==> !failed
  {
    hide Sound, Went, IsCurrent, IsLabelled;
    WentNowhere(rot, pre, aws.provider.states);
    for i := 0 to |staged|
      invariant aws.provider.clock >= old(aws.provider.clock)
      invariant Sound(rot, pre, aws.provider, staged) && Went(rot, pre, old(aws.provider.states), aws.provider.states)
      invariant forall j :: 0 <= j < |staged| ==>
                  IsCurrent(aws.provider.secrets, staged[j]) == IsCurrent(old(aws.provider.secrets), staged[j])
      invariant forall j :: 0 <= j < i ==> !IsLabelled(aws.provider.secrets, staged[j])
    {
      ghost var from, states := aws.provider.clock, aws.provider.states;
      var dropped := DropOne(aws, rot, staged, i, pre);
      WentOn(rot, pre, old(aws.provider.states), states, aws.provider.states);
      SplitSpan(aws.provider, old(aws.provider.clock), from, aws.provider.clock);
      if dropped.Failed? {
        return true;
      }
    }
    failed := false;
  }

  method VerifyEach(aws: AwsSecretWriter, staged: seq<StagedSecret>) returns (r: Status)
    requires aws.provider.Valid()
    modifies aws.provider`clock
    ensures aws.provider.clock >= old(aws.provider.clock)
    ensures r.Completed? ==> forall i :: 0 <= i < |staged| ==> IsCurrent(aws.provider.secrets, staged[i])
    ensures (forall i :: 0 <= i < |staged| ==> IsCurrent(aws.provider.secrets, staged[i])) ==>
              (aws.provider.Acknowledged(old(aws.provider.clock), aws.provider.clock) ==> r.Completed?)
  {
    for i := 0 to |staged|
      invariant aws.provider.clock >= old(aws.provider.clock)
      invariant forall j :: 0 <= j < i ==> IsCurrent(aws.provider.secrets, staged[j])
    {
      ghost var from := aws.provider.clock;
      var verified := aws.VerifyCurrent(staged[i]);
      OneCall(aws.provider, old(aws.provider.clock), from, aws.provider.clock);
      if IsCurrent(aws.provider.secrets, staged[i]) {
        HolderIs(aws.provider.secrets[staged[i].arn].labels, CURRENT, staged[i].version);
      }
      if verified.Failed? {
        return Failed;
      }
    }
    r := Completed;
  }

  /** The guarded part of the commit: stage, switch, and revoke what was superseded. */
  method TryCommit(control: TrialControlPlane, aws: AwsSecretWriter, rot: Rotation)
    returns (r: Result<nat>, staged: seq<StagedSecret>, ghost events: seq<Event>)
    requires aws.provider == control.provider && control.provider.Valid()
    modifies control.provider
    ensures Sound(rot, old(control.provider.secrets), control.provider, staged)
            && control.provider.clock >= old(control.provider.clock)
    ensures Went(rot, old(control.provider.secrets), old(control.provider.states), control.provider.states)
    ensures control.provider.trace == old(control.provider.trace) + events
    ensures events == [] || BothServe(rot, old(control.provider.secrets), control.provider.secrets)
    ensures RevokesWithin(events, rot.oldIds, control.provider.secrets)
    ensures Inventories(events) <= 5
            && FromListings(control.provider, events, old(control.provider.clock), control.provider.clock)
    ensures control.provider.liveTokens == old(control.provider.liveTokens) - AppliedIds(events)
    ensures r.Returned? ==> Settled(rot, old(control.provider.secrets), control.provider.secrets, events, r.value)
    ensures Switchable(rot, old(control.provider.secrets), control.provider) ==>
              (control.provider.Acknowledged(old(control.provider.clock), control.provider.clock) ==>
                 Undisturbed(rot, control.provider, old(control.provider.liveTokens), events, r))
  {
    hide Accounted, Went, RevokesWithin, FromListings, AppliedIds, Switchable, IsCurrent, IsLabelled, Inventories;
    hide Settles, Asked, BothServe;
    ghost var pre, live := control.provider.secrets, control.provider.liveTokens;
    ghost var c0, s0 := control.provider.clock, control.provider.states;
    events := [];
    NothingDone(rot.oldIds, {}, {}, pre);
    var status;
    status, staged := StageBoth(aws, rot);
    ghost var c1, s1 := control.provider.clock, control.provider.states;
    NothingListed(control.provider, c0);
    if status.Failed? {
      NoListing(control.provider, c0, c1);
      NothingDone(rot.oldIds, {}, {}, control.provider.secrets);
      return Raised, staged, events;
    }
    status := SwitchBoth(aws, rot, staged, pre);
    ghost var c2 := control.provider.clock;
    WentOn(rot, pre, s0, s1, control.provider.states);
    SplitSpan(control.provider, c0, c1, c2);
    NoListing(control.provider, c0, c2);
    NothingDone(rot.oldIds, {}, {}, control.provider.secrets);
    if status.Failed? {
      return Raised, staged, events;
    }
    SwitchedServes(rot, pre, control.provider.secrets, staged);
    r, events := control.RevokeSupersededAndVerify(rot.oldIds, rot.GeneratedIds());
    ghost var c3 := control.provider.clock;
    ListingsWithin(control.provider, events, c0, c2, c3);
    SplitSpan(control.provider, c0, c2, c3);
  }

  lemma NoListing(provider: Provider, from: nat, to: nat)
    ensures FromListings(provider, [], from, to)
  {
  }

  lemma ListingsWithin(provider: Provider, events: seq<Event>, from: nat, mid: nat, to: nat)
    requires FromListings(provider, events, mid, to) && from <= mid
    ensures FromListings(provider, events, from, to)
  {
    forall e | e in events && e.Inventory?
      ensures ListedIn(provider, e.ids, from, to)
    {
      assert ListedIn(provider, e.ids, mid, to);
    }
  }

  /** What a run comes to once both secrets are switched and every call is acknowledged: the superseded tokens are
      dead, and the commit succeeds if listings are honest and show nothing but the old and the generated tokens. */
  ghost predicate Undisturbed(rot: Rotation, provider: Provider, live: set<TokenId>, events: seq<Event>,
                              r: Result<nat>) {
    && (rot.oldIds !! rot.GeneratedIds() && |rot.GeneratedIds()| == 2 ==> rot.oldIds - {""} <= AppliedIds(events))
    && (Settles(provider, live, rot.oldIds, rot.GeneratedIds()) ==> r.Returned?)
  }

  /** How a commit that returns leaves things: both secrets serve the new pair, the rest is as it was, every
      superseded token and no other was asked to go, and the last inventory was the generated pair. */
  ghost predicate Settled(rot: Rotation, pre: map<Arn, Secret>, now: map<Arn, Secret>, events: seq<Event>,
                          revoked: nat) {
    && BothServe(rot, pre, now)
    && (forall arn :: arn in pre && arn !in rot.Arns() ==> arn in now && now[arn] == pre[arn])
    && |events| > 0 && events[|events| - 1] == Inventory(rot.GeneratedIds())
    && revoked == |rot.oldIds| && rot.oldIds !! rot.GeneratedIds() && |rot.GeneratedIds()| == 2
    && RevokesWithin(events, rot.oldIds, now) && (forall id :: id in rot.oldIds && id != "" ==> Asked(events, id, now))
  }

  lemma SettledKeeps(rot: Rotation, pre: map<Arn, Secret>, now: map<Arn, Secret>, events: seq<Event>, revoked: nat)
    requires Settled(rot, pre, now, events, revoked)
    ensures AppliedIds(events) <= rot.oldIds
  {
    hide BothServe, Asked;
  }

  /** Commit the new pair, or undo everything.

      Committed: both secrets serve the new documents under new versions, neither carries the run's
      label, every superseded token and no other was asked to go, and the last thing the run did was read
      an inventory of exactly the generated ids.
      Compensated: every secret serves what it served at entry, recorded labels are gone, and both
      generated tokens are dead.
      Incomplete is the only other ending, and means that some call of the compensation, which starts at the
      moment `undoing`, was not acknowledged.
      In every ending the secrets are accounted for, other secrets are untouched, the live tokens are those of the
      entry without the ones whose revocation took effect, and no superseded token was asked to go before both
      secrets served the new pair. All along, every secret served its entry version or its new document.
      Undisturbed, a run that can stage kills the superseded tokens, and commits if the listings are honest. */
  method CommitRuntimeCredentials(control: TrialControlPlane, aws: AwsSecretWriter, rot: Rotation)
    returns (r: CommitResult, ghost staged: seq<StagedSecret>, ghost events: seq<Event>, ghost undoing: nat)
    requires aws.provider == control.provider && control.provider.Valid()
    modifies control.provider
    ensures control.provider.Valid()
    ensures Accounted(rot, old(control.provider.secrets), control.provider.secrets, staged)
    ensures Went(rot, old(control.provider.secrets), old(control.provider.states), control.provider.states)
    ensures control.provider.trace == old(control.provider.trace) + events
    ensures SafeRevocations(rot, old(control.provider.secrets), events)
    ensures Inventories(events) <= 5 && FromListings(control.provider, events, old(control.provider.clock), undoing)
    ensures control.provider.liveTokens == old(control.provider.liveTokens) - AppliedIds(events)
    ensures !SupersededTouched(rot, events) ==>
              old(control.provider.liveTokens) - rot.GeneratedIds() <= control.provider.liveTokens
    ensures r.Committed? ==>
              && Settled(rot, old(control.provider.secrets), control.provider.secrets, events, r.revoked)
              && old(control.provider.liveTokens) - rot.oldIds <= control.provider.liveTokens
    ensures !r.Committed? ==> forall id :: id in rot.GeneratedIds() && id != "" ==> AskedAtAll(events, id)
    ensures r.Compensated? ==>
              && Restored(old(control.provider.secrets), control.provider.secrets)
              && (forall st :: st in staged ==>
                    && st.arn in control.provider.secrets
                    && Holder(control.provider.secrets[st.arn].labels, st.stageLabel).None?)
              && rot.GeneratedIds() <= AppliedIds(events) && rot.GeneratedIds() !! control.provider.liveTokens
    ensures old(control.provider.clock) <= undoing <= control.provider.clock
    ensures r.Incomplete? && "" !in rot.GeneratedIds() ==>
              !control.provider.Acknowledged(undoing, control.provider.clock)
    ensures Switchable(rot, old(control.provider.secrets), control.provider) ==>
              (control.provider.Acknowledged(old(control.provider.clock), control.provider.clock) ==>
                 && (rot.oldIds !! rot.GeneratedIds() && |rot.GeneratedIds()| == 2 ==>
                     rot.oldIds - {""} <= AppliedIds(events))
                 && (Settles(control.provider, old(control.provider.liveTokens), rot.oldIds, rot.GeneratedIds()) ==>
                     r.Committed?))
  {
    hide Accounted, Settled, Restored, BothServe, Inventories, Went, FromListings, AppliedIds, Asked, Switchable;
    hide Settles, AskedAtAll, IsCurrent, IsLabelled;
    ghost var pre, live := control.provider.secrets, control.provider.liveTokens;
    ghost var c0, s0 := control.provider.clock, control.provider.states;
    var revoked, stagedSoFar, attempted := TryCommit(control, aws, rot);
    staged, events, undoing := stagedSoFar, attempted, control.provider.clock;
    ghost var switched, s1 := control.provider.secrets, control.provider.states;
    OnlySuperseded(rot, pre, switched, attempted);
    if revoked.Returned? {
      SettledKeeps(rot, pre, switched, attempted, revoked.value);
      return Committed(revoked.value), staged, events, undoing;
    }
    var undone, revocations := CompensateSecretCommit(control, aws, rot, stagedSoFar, pre);
    ghost var c2 := control.provider.clock;
    WentOn(rot, pre, s0, s1, control.provider.states);
    Compensating(control.provider, rot, pre, switched, attempted, revocations, c0, undoing);
    AppliedIdsConcat(attempted, revocations);
    events := attempted + revocations;
    SplitSpan(control.provider, c0, undoing, c2);
    if undone.Completed? {
      UndoneRestores(rot, pre, control.provider.secrets, staged);
      r := Compensated;
    } else {
      r := Incomplete;
    }
  }

  ghost predicate AskedAtAll(events: seq<Event>, id: TokenId) {
    exists e :: e in events && e.Revocation? && e.id == id
  }

  /** What the guarded part did to tokens is safe. */
  lemma OnlySuperseded(rot: Rotation, pre: map<Arn, Secret>, switched: map<Arn, Secret>, attempted: seq<Event>)
    requires RevokesWithin(attempted, rot.oldIds, switched) && (attempted == [] || BothServe(rot, pre, switched))
    ensures SafeRevocations(rot, pre, attempted)
    ensures !SupersededTouched(rot, attempted) ==> AppliedIds(attempted) <= rot.GeneratedIds()
  {
    hide BothServe;
    assert forall e :: e in attempted ==> attempted != [];
  }

  /** What compensation adds to the trace. */
  lemma Compensating(provider: Provider, rot: Rotation, pre: map<Arn, Secret>, switched: map<Arn, Secret>,
                     attempted: seq<Event>, revocations: seq<Event>, from: nat, mid: nat)
    requires SafeRevocations(rot, pre, attempted) && OnlyRevokes(revocations, rot.GeneratedIds(), switched)
    requires FromListings(provider, attempted, from, mid) && Inventories(attempted) <= 5
    requires forall id :: id in rot.GeneratedIds() && id != "" ==> Asked(revocations, id, switched)
    ensures var events := attempted + revocations;
            && SafeRevocations(rot, pre, events) && Inventories(events) <= 5
            && FromListings(provider, events, from, mid)
            && (forall id :: id in rot.GeneratedIds() && id != "" ==> AskedAtAll(events, id))
            && (SupersededTouched(rot, attempted) ==> SupersededTouched(rot, events))
            && AppliedIds(revocations) <= rot.GeneratedIds()
  {
    hide BothServe, Inventories, ListedIn;
    var events := attempted + revocations;
    RevocationsHoldNoInventory(revocations, rot.GeneratedIds(), switched);
    InventoriesConcat(attempted, revocations);
    ListingsLonger(provider, attempted, revocations, rot.GeneratedIds(), switched, from, mid);
    forall id | id in rot.GeneratedIds() && id != ""
      ensures AskedAtAll(events, id)
    {
      assert Asked(revocations, id, switched);
      assert Revocation(id, switched, true) in events || Revocation(id, switched, false) in events;
    }
    if SupersededTouched(rot, attempted) {
      var e :| e in attempted && e.Revocation? && e.id !in rot.GeneratedIds();
      assert e in events;
    }
  }

  lemma ListingsLonger(provider: Provider, attempted: seq<Event>, revocations: seq<Event>, ids: set<TokenId>,
                       secrets: map<Arn, Secret>, from: nat, to: nat)
    requires FromListings(provider, attempted, from, to) && OnlyRevokes(revocations, ids, secrets)
    ensures FromListings(provider, attempted + revocations, from, to)
  {
    forall e | e in attempted + revocations && e.Inventory?
      ensures ListedIn(provider, e.ids, from, to)
    {
      assert e in attempted;
    }
  }

  // ---- A compensated run whose superseded tokens are dead -----------------------------------

  /** If every call is acknowledged but no inventory ever shows the generated pair, the commit is compensated and
      the superseded tokens are dead: the restored secrets hold tokens that no longer work. */
  method CommitUnseen(control: TrialControlPlane, aws: AwsSecretWriter, rot: Rotation) returns (r: CommitResult)
    requires aws.provider == control.provider && control.provider.Valid()
    requires Switchable(rot, control.provider.secrets, control.provider)
    requires rot.oldIds !! rot.GeneratedIds() && |rot.GeneratedIds()| == 2 && "" !in rot.oldIds + rot.GeneratedIds()
    requires forall n :: control.provider.outcomes(n).Acknowledged?
    requires forall n, live :: control.provider.ScopedAt(n, live) != Returned(rot.GeneratedIds())
    modifies control.provider
    ensures r.Compensated? && Restored(old(control.provider.secrets), control.provider.secrets)
    ensures rot.oldIds !! control.provider.liveTokens
  {
    hide Switchable, Restored, AppliedIds, Accounted, Settles, Settled, FromListings, Went;
    ghost var staged, events, undoing;
    ghost var pre, from := control.provider.secrets, control.provider.clock;
    r, staged, events, undoing := CommitRuntimeCredentials(control, aws, rot);
    NeverSettled(rot, pre, control.provider.secrets, events, if r.Committed? then r.revoked else 0,
                 control.provider, from, undoing);
    assert rot.oldIds - {""} == rot.oldIds;
  }

  lemma NeverSettled(rot: Rotation, pre: map<Arn, Secret>, now: map<Arn, Secret>, events: seq<Event>, revoked: nat,
                     provider: Provider, from: nat, to: nat)
    requires forall n, live :: provider.ScopedAt(n, live) != Returned(rot.GeneratedIds())
    ensures FromListings(provider, events, from, to) ==> !Settled(rot, pre, now, events, revoked)
  {
    hide BothServe, Asked;
    if |events| > 0 {
      assert events[|events| - 1] in events;
    }
  }

  lemma JsonLengthBound(s: string)
    ensures JsonLength(s) <= 6 * |s|
  {
  }

  const WITNESS_KEY: string := seq(43, _ => 'A') + "="

  const WITNESS := Rotation("u", "reader", "writer", GeneratedToken("g1", "a"), GeneratedToken("g2", "b"),
                            WITNESS_KEY, WITNESS_KEY, "1", "1", {"old"})

  const WITNESS_ENTRY := Secret(map["v" := {CURRENT}], map["v" := OtherDocument("holds the token old")])

  const WITNESS_SECRETS: map<Arn, Secret> := map["writer" := WITNESS_ENTRY, "reader" := WITNESS_ENTRY]

  /** One such run: everything acknowledged, and listings that show nothing. */
  method SupersededTokenDies() returns (control: TrialControlPlane, r: CommitResult)
    ensures fresh(control) && r.Compensated? && "old" !in control.provider.liveTokens
    ensures Restored(WITNESS_SECRETS, control.provider.secrets)
  {
    hide Switchable, Restored;
    WitnessIsExclusive();
    var provider := new Provider(_ => Acknowledged, _ => "n", (_, _, _) => [], WITNESS_SECRETS, {"old", "g1", "g2"});
    var aws := new AwsSecretWriter(provider);
    control := new TrialControlPlane(provider);
    WitnessIsSwitchable(provider);
    assert forall n, live :: provider.Listed(n, live) == [];
    r := CommitUnseen(control, aws, WITNESS);
    assert "old" in WITNESS.oldIds;
  }

  // ---- A run that commits -------------------------------------------------------------------

  /** If every call is acknowledged and the listings are honest, the commit succeeds, and of the old and the generated
      tokens just the generated ones are left. */
  method CommitHonest(control: TrialControlPlane, aws: AwsSecretWriter, rot: Rotation) returns (r: CommitResult)
    requires aws.provider == control.provider && control.provider.Valid()
    requires Switchable(rot, control.provider.secrets, control.provider)
    requires forall n :: control.provider.outcomes(n).Acknowledged?
    requires Settles(control.provider, control.provider.liveTokens, rot.oldIds, rot.GeneratedIds())
    modifies control.provider
    ensures r == Committed(|rot.oldIds|) && BothServe(rot, old(control.provider.secrets), control.provider.secrets)
    ensures control.provider.liveTokens == rot.GeneratedIds()
  {
    hide Switchable, Restored, AppliedIds, Accounted, FromListings, Went, BothServe, SafeRevocations, Provider.Honest;
    ghost var staged, events, undoing;
    r, staged, events, undoing := CommitRuntimeCredentials(control, aws, rot);
    assert rot.oldIds - {""} == rot.oldIds;
  }

  /** One such run: the reader's listing shows the superseded token, the writer's the generated ones. */
  method HonestRunCommits() returns (control: TrialControlPlane, r: CommitResult)
    ensures fresh(control) && r == Committed(1) && control.provider.liveTokens == {"g1", "g2"}
    ensures BothServe(WITNESS, WITNESS_SECRETS, control.provider.secrets)
  {
    hide Switchable, BothServe;
    WitnessIsExclusive();
    var provider := new Provider(_ => Acknowledged, _ => "n", ListThree, WITNESS_SECRETS, {"old", "g1", "g2"});
    var aws := new AwsSecretWriter(provider);
    control := new TrialControlPlane(provider);
    WitnessIsSwitchable(provider);
    WitnessSettles(provider);
    hide Settles;
    r := CommitHonest(control, aws, WITNESS);
  }

  function ListThree(n: nat, role: Role, live: set<TokenId>): seq<TokenId> {
    if role.Reader? then (if "old" in live then ["old"] else [])
    else (if "g1" in live then ["g1"] else []) + (if "g2" in live then ["g2"] else [])
  }

  lemma WitnessSettles(provider: Provider)
    requires forall n, role, live :: provider.listings(n, role, live) == ListThree(n, role, live)
    ensures Settles(provider, {"old", "g1", "g2"}, WITNESS.oldIds, WITNESS.GeneratedIds())
  {
    assert "old" != "g1" && "old" != "g2" && "g1"[1] != "g2"[1];
    forall n: nat, live: set<TokenId> | live <= {"old", "g1", "g2"} && "" !in live
      ensures WellListed(provider.Listed(n, live)) && IdSet(provider.Listed(n, live)) == live
    {
      assert provider.Listed(n, live) == ListThree(n, Reader, live) + ListThree(n + 1, Writer, live);
    }
  }

  lemma WitnessIsExclusive()
    ensures forall arn :: arn in WITNESS_SECRETS ==> Exclusive(WITNESS_SECRETS[arn].labels)
  {
  }

  lemma WitnessIsSwitchable(provider: Provider)
    requires forall n :: provider.versionIds(n) == "n"
    ensures Switchable(WITNESS, WITNESS_SECRETS, provider)
  {
    hide StagingOffered, Provider.Fresh, IsTrialLabel, TRIAL_PREFIX;
    var stageLabel := StagingLabel("1", "1").value;
    WitnessFits();
    WitnessOffers(WITNESS_ENTRY, WITNESS_SECRETS, "writer", WITNESS.NewWriterDocument(), stageLabel);
    WitnessOffers(WITNESS_ENTRY, WITNESS_SECRETS, "reader", WITNESS.NewReaderDocument(), stageLabel);
    hide PayloadFits;
    WitnessIsFresh(WITNESS_ENTRY, WITNESS_SECRETS, "writer", provider);
    WitnessIsFresh(WITNESS_ENTRY, WITNESS_SECRETS, "reader", provider);
    hide StagingLabel;
  }

  lemma WitnessFits()
    ensures PayloadFits(WriterDocument("u", "b")) && PayloadFits(ReaderDocument("u", "a", WITNESS_KEY, WITNESS_KEY))
  {
    JsonLengthBound("u");
    JsonLengthBound("a");
    JsonLengthBound("b");
    JsonLengthBound(WITNESS_KEY);
    hide JsonLength;
  }

  lemma WitnessOffers(entry: Secret, secrets: map<Arn, Secret>, arn: Arn, document: Document, stageLabel: Label)
    requires entry.labels == map["v" := {CURRENT}] && arn in secrets && secrets[arn] == entry
    requires PayloadFits(document) && IsTrialLabel(stageLabel) && stageLabel != CURRENT
    ensures StagingOffered(secrets, arn, document, stageLabel)
  {
    hide PayloadFits, CURRENT, IsTrialLabel;
    assert forall v :: !Attached(entry.labels, v, stageLabel);
  }

  lemma WitnessIsFresh(entry: Secret, secrets: map<Arn, Secret>, arn: Arn, provider: Provider)
    requires entry.labels == map["v" := {CURRENT}] && arn in secrets && secrets[arn] == entry
    requires forall n :: provider.versionIds(n) == "n"
    ensures provider.Fresh(secrets, arn)
  {
    assert "v" != "n";
  }
}
