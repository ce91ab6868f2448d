/** The client of the secret store: stage a document under a run's own label, promote it, verify
    it, roll it back, drop the label. Each method ends with a read that confirms what it did. */
module SecretWriter {
  import Characters
  import opened Results
  import opened SecretStages
  import opened CloudProvider

  const TRIAL_PREFIX := "archon-trial-"

  predicate IsTrialLabel(l: Label) {
    && TRIAL_PREFIX <= l
    && exists k | |TRIAL_PREFIX| <= k < |l| ::
         && l[k] == '-' && Characters.IsRunCoordinate(l[|TRIAL_PREFIX|..k])
         && Characters.IsRunCoordinate(l[k + 1..])
  }

  /** The label of one attempt of one run, or nothing when a coordinate is malformed. */
  function StagingLabel(runId: string, runAttempt: string): (r: Option<Label>)
    ensures r.Some? ==> IsTrialLabel(r.value) && r.value != CURRENT && r.value != PREVIOUS
  {
    if Characters.IsRunCoordinate(runId) && Characters.IsRunCoordinate(runAttempt) then
      var l := TRIAL_PREFIX + runId + "-" + runAttempt;
      var k := |TRIAL_PREFIX| + |runId|;
      assert l[k] == '-' && l[|TRIAL_PREFIX|..k] == runId && l[k + 1..] == runAttempt;
      assert l[0] == 'a' && CURRENT[0] == 'A' && PREVIOUS[0] == 'A';
      Some(l)
    else
      None
  }

  /** Two attempts never share a label. */
  lemma StagingLabelIsInjective(id1: string, attempt1: string, id2: string, attempt2: string)
    requires StagingLabel(id1, attempt1).Some? && StagingLabel(id1, attempt1) == StagingLabel(id2, attempt2)
    ensures id1 == id2 && attempt1 == attempt2
  {
    var l := StagingLabel(id1, attempt1).value;
    var n, k1, k2 := |TRIAL_PREFIX|, |TRIAL_PREFIX| + |id1|, |TRIAL_PREFIX| + |id2|;
    assert l[k1] == '-' && l[n..k1] == id1 && l[k1 + 1..] == attempt1;
    assert l[k2] == '-' && l[n..k2] == id2 && l[k2 + 1..] == attempt2;
    assert forall i :: n <= i < k1 ==> l[i] == id1[i - n];
    assert forall i :: n <= i < k2 ==> l[i] == id2[i - n];
    assert k1 == k2;
  }

  /** Printable, non-empty, bounded. */
  predicate IsCredential(value: string) {
    0 < |value| <= 8192 && forall i | 0 <= i < |value| :: '!' <= value[i] <= '~'
  }

  /** The base64 text of 32 bytes, in either alphabet. */
  predicate IsFernetKey(value: string) {
    && |value| == 44 && value[43] == '='
    && forall i | 0 <= i < 43 ::
         var c := value[i];
         'A' <= c <= 'Z' || 'a' <= c <= 'z' || Characters.IsDigit(c) || c in {'-', '_', '+', '/'}
  }

  /** How many bytes a character takes inside a JSON string encoded as UTF-8. */
  function JsonBytes(c: char): nat {
    if c == '"' || c == '\\' || c == '\n' || c == '\r' || c == '\t' || c == '\U{8}' || c == '\U{c}' then 2
    else if c < ' ' then 6
    else if c < '\U{80}' then 1
    else if c < '\U{800}' then 2
    else if c < '\U{10000}' then 3
    else 4
  }

  function JsonLength(s: string): nat {
    if s == "" then 0 else JsonLength(s[..|s| - 1]) + JsonBytes(s[|s| - 1])
  }

  /** The size of a document's canonical bytes: its members' names, its schema and punctuation, and its texts. */
  function PayloadSize(document: Document): nat {
    match document
    case WriterDocument(gmsUrl, token) => 80 + JsonLength(gmsUrl) + JsonLength(token)
    case ReaderDocument(gmsUrl, token, runHandleKey, oauthMasterKey) =>
      124 + JsonLength(gmsUrl) + JsonLength(token) + JsonLength(runHandleKey) + JsonLength(oauthMasterKey)
    case OtherDocument(text) => JsonLength(text)
  }

  const MAX_PAYLOAD := 16 * 1024

  predicate PayloadFits(document: Document) {
    1 <= PayloadSize(document) <= MAX_PAYLOAD
  }

  /** The provider's own two labels are each on one version at most. */
  predicate UniqueStages(s: Labels) {
    forall v, w | v in s && w in s ::
      && (CURRENT in s[v] && CURRENT in s[w] ==> v == w)
      && (PREVIOUS in s[v] && PREVIOUS in s[w] ==> v == w)
  }

  lemma ExclusiveIsUnique(s: Labels)
    ensures Exclusive(s) ==> UniqueStages(s)
  {
    if Exclusive(s) {
      forall v, w | v in s && w in s
        ensures CURRENT in s[v] && CURRENT in s[w] ==> v == w
        ensures PREVIOUS in s[v] && PREVIOUS in s[w] ==> v == w
      {
        assert CURRENT in s[v] ==> Attached(s, v, CURRENT);
        assert CURRENT in s[w] ==> Attached(s, w, CURRENT);
        assert PREVIOUS in s[v] ==> Attached(s, v, PREVIOUS);
        assert PREVIOUS in s[w] ==> Attached(s, w, PREVIOUS);
      }
    }
  }

  /** `st` was staged in `now` carrying `document`, as Rotated describes, from the state `pre`. */
  ghost predicate StagedIn(pre: map<Arn, Secret>, now: map<Arn, Secret>, st: StagedSecret, document: Document) {
    && st.arn in pre && st.arn in now
    && Rotated(pre[st.arn].labels, now[st.arn].labels, st)
    && PreviousPlaced(pre[st.arn].labels, now[st.arn].labels, st)
    && now[st.arn].documents == pre[st.arn].documents[st.version := document]
  }

  lemma RotatedOffers(pre: Labels, s: Labels, st: StagedSecret)
    requires Rotated(pre, s, st)
    ensures RollbackOffered(s, st)
    ensures CURRENT !in s[st.version] ==> PromotionOffered(s, st)
  {
    RotatedHolders(pre, s, st);
  }

  /** Nothing but a failing call can keep the document from being staged. */
  ghost predicate StagingOffered(now: map<Arn, Secret>, arn: Arn, document: Document, stageLabel: Label) {
    arn in now && IsTrialLabel(stageLabel) && Holder(now[arn].labels, stageLabel).None? && PayloadFits(document)
  }

  ghost predicate PromotionOffered(s: Labels, st: StagedSecret) {
    Exclusive(s) && Holder(s, CURRENT) == st.previous && st.version in s && Some(st.version) != st.previous
  }

  ghost predicate RollbackOffered(s: Labels, st: StagedSecret) {
    && Exclusive(s) && (st.previous.Some? ==> st.previous.value in s)
    && Holder(s, CURRENT) in {st.previous, Some(st.version)}
  }

  lemma PromotionTakes(s: Labels, st: StagedSecret)
    requires PromotionOffered(s, st)
    ensures Updated(s, CURRENT, Some(st.version), st.previous).Some?
    ensures Holder(Updated(s, CURRENT, Some(st.version), st.previous).value, CURRENT) == Some(st.version)
  {
    if st.previous.None? && exists v | v in s :: CURRENT in s[v] {
      var v :| v in s && CURRENT in s[v];
      assert Attached(s, v, CURRENT);
    }
    PromotedHolder(s, Updated(s, CURRENT, Some(st.version), st.previous).value, st);
  }

  lemma RollbackTakes(s: Labels, st: StagedSecret)
    requires RollbackOffered(s, st) && Holder(s, CURRENT) == Some(st.version) != st.previous
    ensures Updated(s, CURRENT, st.previous, Some(st.version)).Some?
    ensures Holder(Updated(s, CURRENT, st.previous, Some(st.version)).value, CURRENT) == st.previous
  {
    var s' := Updated(s, CURRENT, st.previous, Some(st.version)).value;
    if st.previous.Some? {
      MoveLeavesPrevious(s, s', st.version, st.previous.value);
    } else {
      LoneMoveKeepsPrevious(s, s', None, Some(st.version));
    }
  }

  class AwsSecretWriter {
    const provider: Provider

    constructor (provider: Provider)
      ensures this.provider == provider
    {
      this.provider := provider;
    }

    /** `_version_stages`: the labels of a secret, unless its description is inconsistent. */
    method VersionStages(arn: Arn) returns (r: Result<Labels>)
      modifies provider`clock
      ensures provider.clock == old(provider.clock) + 1
      ensures r == if && provider.outcomes(old(provider.clock)).Acknowledged? && arn in provider.secrets
                      && UniqueStages(provider.secrets[arn].labels)
                   then Returned(provider.secrets[arn].labels) else Raised
      ensures provider.Valid() && arn in provider.secrets ==> UniqueStages(provider.secrets[arn].labels)
    {
      if arn in provider.secrets {
        ExclusiveIsUnique(provider.secrets[arn].labels);
      }
      var versions :- provider.DescribeSecret(arn);
      r := if UniqueStages(versions) then Returned(versions) else Raised;
    }

    /** `_current_version`: the one version that carries AWSCURRENT, or none. */
    method CurrentVersion(arn: Arn) returns (r: Result<Option<Version>>)
      modifies provider`clock
      ensures provider.clock == old(provider.clock) + 1
      ensures r == if && provider.outcomes(old(provider.clock)).Acknowledged? && arn in provider.secrets
                      && UniqueStages(provider.secrets[arn].labels)
                   then Returned(Holder(provider.secrets[arn].labels, CURRENT)) else Raised
      ensures provider.Valid() && arn in provider.secrets ==> UniqueStages(provider.secrets[arn].labels)
    {
      var versions :- VersionStages(arn);
      if v :| v in versions && CURRENT in versions[v] {
        assert Attached(versions, v, CURRENT);
        r := Returned(Some(v));
      } else {
        assert forall v :: !Attached(versions, v, CURRENT);
        r := Returned(None);
      }
    }

    method VerifyStage(st: StagedSecret, l: Label, expected: bool) returns (r: Status)
      requires provider.Valid()
      modifies provider`clock
      ensures provider.clock == old(provider.clock) + 1
      ensures r.Completed? <==>
                && provider.outcomes(old(provider.clock)).Acknowledged? && st.arn in provider.secrets
                && (Attached(provider.secrets[st.arn].labels, st.version, l) <==> expected)
    {
      var description := VersionStages(st.arn);
      if description.Raised? {
        return Failed;
      }
      var versions := description.value;
      var actual := st.version in versions && l in versions[st.version];
      r := if actual == expected then Completed else Failed;
    }

    /** `_stage_document`. Undisturbed, it succeeds whenever its label is unused and its document fits. */
    method StageDocument(arn: Arn, document: Document, stageLabel: Label) returns (r: Result<StagedSecret>)
      requires provider.Valid()
      modifies provider`clock, provider`secrets, provider`states
      ensures provider.Valid() && provider.clock >= old(provider.clock)
      ensures provider.secrets == old(provider.secrets) ||
              exists v :: PutEffect(old(provider.secrets), provider.secrets, arn, document, stageLabel, v)
      ensures provider.secrets != old(provider.secrets) ==> Holder(old(provider.secrets)[arn].labels, stageLabel).None?
      ensures provider.states == old(provider.states) + if provider.secrets == old(provider.secrets) then []
              else [provider.secrets]
      ensures r.Returned? ==>
                var st := r.value;
                && st.arn == arn && st.stageLabel == stageLabel && PayloadFits(document)
                && PutEffect(old(provider.secrets), provider.secrets, arn, document, stageLabel, st.version)
                && st.previous == Holder(old(provider.secrets)[arn].labels, CURRENT)
      ensures StagingOffered(old(provider.secrets), arn, document, stageLabel)
              && provider.Fresh(old(provider.secrets), arn) ==>
                (provider.Acknowledged(old(provider.clock), provider.clock) ==> r.Returned?)
    {
      ghost var pre, from := provider.secrets, provider.clock;
      if !IsTrialLabel(stageLabel) {
        return Raised;
      }
      var description := VersionStages(arn);
      if description.Raised? {
        assert !provider.Acknowledged(from, provider.clock) || arn !in pre;
        return Raised;
      }
      var versions := description.value;
      if exists v | v in versions :: stageLabel in versions[v] {
        var v :| v in versions && stageLabel in versions[v];
        assert Attached(versions, v, stageLabel);
        return Raised;
      }
      assert Holder(versions, stageLabel).None?;
      var previous: Option<Version> := None;
      if v :| v in versions && CURRENT in versions[v] {
        assert Attached(versions, v, CURRENT);
        previous := Some(v);
      } else {
        assert forall v :: !Attached(versions, v, CURRENT);
      }
      if !PayloadFits(document) {
        return Raised;
      }
      var put := provider.PutSecretValue(arn, document, stageLabel);
      if put.Raised? {
        assert provider.Acknowledged(from, provider.clock) ==> provider.outcomes(from + 1).Acknowledged?;
        return Raised;
      }
      var st := StagedSecret(arn, put.value, previous, stageLabel);
      assert stageLabel in provider.secrets[arn].labels[put.value];
      var verified := VerifyStage(st, stageLabel, true);
      assert provider.Acknowledged(from, provider.clock) ==> provider.outcomes(from + 2).Acknowledged?;
      r := if verified.Completed? then Returned(st) else Raised;
    }

    method StageWriter(arn: Arn, gmsUrl: string, token: string, stageLabel: Label) returns (r: Result<StagedSecret>)
      requires provider.Valid()
      modifies provider`clock, provider`secrets, provider`states
      ensures provider.Valid() && provider.clock >= old(provider.clock)
      ensures provider.secrets == old(provider.secrets) ||
              exists v :: PutEffect(old(provider.secrets), provider.secrets, arn, WriterDocument(gmsUrl, token),
                                    stageLabel, v)
      ensures provider.secrets != old(provider.secrets) ==> Holder(old(provider.secrets)[arn].labels, stageLabel).None?
      ensures provider.states == old(provider.states) + if provider.secrets == old(provider.secrets) then []
              else [provider.secrets]
      ensures r.Returned? ==>
                var st := r.value;
                && st.arn == arn && st.stageLabel == stageLabel && IsCredential(token)
                && PutEffect(old(provider.secrets), provider.secrets, arn, WriterDocument(gmsUrl, token),
                             stageLabel, st.version)
                && st.previous == Holder(old(provider.secrets)[arn].labels, CURRENT)
      ensures StagingOffered(old(provider.secrets), arn, WriterDocument(gmsUrl, token), stageLabel)
              && IsCredential(token) ==>
                (provider.Fresh(old(provider.secrets), arn)
                 && provider.Acknowledged(old(provider.clock), provider.clock) ==>
                   r.Returned?)
    {
      if !IsCredential(token) {
        return Raised;
      }
      r := StageDocument(arn, WriterDocument(gmsUrl, token), stageLabel);
    }

    method StageReader(arn: Arn, gmsUrl: string, token: string, runHandleKey: string, oauthMasterKey: string,
                       stageLabel: Label)
      returns (r: Result<StagedSecret>)
      requires provider.Valid()
      modifies provider`clock, provider`secrets, provider`states
      ensures provider.Valid() && provider.clock >= old(provider.clock)
      ensures var document := ReaderDocument(gmsUrl, token, runHandleKey, oauthMasterKey);
              provider.secrets == old(provider.secrets) ||
              exists v :: PutEffect(old(provider.secrets), provider.secrets, arn, document, stageLabel, v)
      ensures provider.secrets != old(provider.secrets) ==> Holder(old(provider.secrets)[arn].labels, stageLabel).None?
      ensures provider.states == old(provider.states) + if provider.secrets == old(provider.secrets) then []
              else [provider.secrets]
      ensures r.Returned? ==>
                var document, st := ReaderDocument(gmsUrl, token, runHandleKey, oauthMasterKey), r.value;
                && st.arn == arn && st.stageLabel == stageLabel
                && IsCredential(token) && IsFernetKey(runHandleKey) && IsFernetKey(oauthMasterKey)
                && PutEffect(old(provider.secrets), provider.secrets, arn, document, stageLabel, st.version)
                && st.previous == Holder(old(provider.secrets)[arn].labels, CURRENT)
      ensures StagingOffered(old(provider.secrets), arn,
                             ReaderDocument(gmsUrl, token, runHandleKey, oauthMasterKey), stageLabel)
              && IsCredential(token) && IsFernetKey(runHandleKey) && IsFernetKey(oauthMasterKey) ==>
                (provider.Fresh(old(provider.secrets), arn)
                 && provider.Acknowledged(old(provider.clock), provider.clock) ==>
                   r.Returned?)
    {
      if !IsCredential(token) || !IsFernetKey(runHandleKey) || !IsFernetKey(oauthMasterKey) {
        return Raised;
      }
      r := StageDocument(arn, ReaderDocument(gmsUrl, token, runHandleKey, oauthMasterKey), stageLabel);
    }

    method VerifyCurrent(st: StagedSecret) returns (r: Status)
      requires provider.Valid()
      modifies provider`clock
      ensures provider.clock == old(provider.clock) + 1
      ensures r.Completed? <==>
                && provider.outcomes(old(provider.clock)).Acknowledged? && st.arn in provider.secrets
                && Holder(provider.secrets[st.arn].labels, CURRENT) == Some(st.version)
    {
      var current := CurrentVersion(st.arn);
      r := if current == Returned(Some(st.version)) then Completed else Failed;
    }

    /** `promote`. Undisturbed, it succeeds from the version it recorded. */
    method Promote(st: StagedSecret) returns (r: Status)
      requires provider.Valid()
      modifies provider`clock, provider`secrets, provider`states
      ensures provider.Valid() && provider.clock >= old(provider.clock)
      ensures provider.secrets == old(provider.secrets) || OnlyLabels(old(provider.secrets), provider.secrets, st.arn)
      ensures st.arn in old(provider.secrets) ==>
                && st.arn in provider.secrets
                && PromoteStep(old(provider.secrets)[st.arn].labels, provider.secrets[st.arn].labels, st, r.Completed?)
      ensures r.Completed? ==> st.arn in old(provider.secrets)
      ensures provider.states == old(provider.states) + if provider.secrets == old(provider.secrets) then []
              else [provider.secrets]
      ensures st.arn in old(provider.secrets) && PromotionOffered(old(provider.secrets)[st.arn].labels, st) ==>
                (provider.Acknowledged(old(provider.clock), provider.clock) ==> r.Completed?)
    {
      ghost var pre, from := provider.secrets, provider.clock;
      var current := CurrentVersion(st.arn);
      if current != Returned(st.previous) || Some(st.version) == st.previous {
        return Failed;
      }
      if PromotionOffered(pre[st.arn].labels, st) {
        PromotionTakes(pre[st.arn].labels, st);
      }
      var moved := provider.UpdateSecretVersionStage(st.arn, CURRENT, Some(st.version), st.previous);
      assert provider.Acknowledged(from, provider.clock) ==> provider.outcomes(from + 1).Acknowledged?;
      if moved.Failed? {
        return Failed;
      }
      r := VerifyCurrent(st);
      assert provider.Acknowledged(from, provider.clock) ==> provider.outcomes(from + 2).Acknowledged?;
    }

    /** `rollback`. Undisturbed, it succeeds from the recorded version and from the staged one. */
    method Rollback(st: StagedSecret) returns (r: Status)
      requires provider.Valid()
      modifies provider`clock, provider`secrets, provider`states
      ensures provider.Valid() && provider.clock >= old(provider.clock)
      ensures provider.secrets == old(provider.secrets) || OnlyLabels(old(provider.secrets), provider.secrets, st.arn)
      ensures st.arn in old(provider.secrets) ==>
                && st.arn in provider.secrets
                && RollbackStep(old(provider.secrets)[st.arn].labels, provider.secrets[st.arn].labels, st, r.Completed?)
      ensures r.Completed? ==> st.arn in old(provider.secrets)
      ensures provider.states == old(provider.states) + if provider.secrets == old(provider.secrets) then []
              else [provider.secrets]
      ensures st.arn in old(provider.secrets) && RollbackOffered(old(provider.secrets)[st.arn].labels, st) ==>
                (provider.Acknowledged(old(provider.clock), provider.clock) ==> r.Completed?)
    {
      ghost var pre, from := provider.secrets, provider.clock;
      var current := CurrentVersion(st.arn);
      if current.Raised? {
        assert st.arn in pre ==> !provider.Acknowledged(from, provider.clock);
        return Failed;
      }
      if current.value == st.previous {
        return Completed;
      }
      if current.value != Some(st.version) {
        return Failed;
      }
      if RollbackOffered(pre[st.arn].labels, st) {
        RollbackTakes(pre[st.arn].labels, st);
      }
      var moved := provider.UpdateSecretVersionStage(st.arn, CURRENT, st.previous, Some(st.version));
      assert provider.Acknowledged(from, provider.clock) ==> provider.outcomes(from + 1).Acknowledged?;
      if moved.Failed? {
        return Failed;
      }
      current := CurrentVersion(st.arn);
      assert provider.Acknowledged(from, provider.clock) ==> provider.outcomes(from + 2).Acknowledged?;
      r := if current == Returned(st.previous) then Completed else Failed;
    }

    /** `drop_stage`. Undisturbed, it succeeds on any secret there is. */
    method DropStage(st: StagedSecret) returns (r: Status)
      requires provider.Valid()
      modifies provider`clock, provider`secrets, provider`states
      ensures provider.Valid() && provider.clock >= old(provider.clock)
      ensures provider.secrets == old(provider.secrets) || OnlyLabels(old(provider.secrets), provider.secrets, st.arn)
      ensures st.arn in old(provider.secrets) ==>
                && st.arn in provider.secrets
                && DropStep(old(provider.secrets)[st.arn].labels, provider.secrets[st.arn].labels, st, r.Completed?)
      ensures r.Completed? ==> st.arn in old(provider.secrets)
      ensures provider.states == old(provider.states) + if provider.secrets == old(provider.secrets) then []
              else [provider.secrets]
      ensures st.arn in old(provider.secrets) ==>
                (provider.Acknowledged(old(provider.clock), provider.clock) ==> r.Completed?)
    {
      ghost var from := provider.clock;
      var description := VersionStages(st.arn);
      if description.Raised? {
        assert st.arn in provider.secrets ==> !provider.Acknowledged(from, provider.clock);
        return Failed;
      }
      var versions := description.value;
      if st.version !in versions || st.stageLabel !in versions[st.version] {
        return Completed;
      }
      var moved := provider.UpdateSecretVersionStage(st.arn, st.stageLabel, None, Some(st.version));
      assert provider.Acknowledged(from, provider.clock) ==> provider.outcomes(from + 1).Acknowledged?;
      if moved.Failed? {
        return Failed;
      }
      r := VerifyStage(st, st.stageLabel, false);
      assert provider.Acknowledged(from, provider.clock) ==> provider.outcomes(from + 2).Acknowledged?;
    }
  }
}
