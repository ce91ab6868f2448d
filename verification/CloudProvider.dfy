/** The two remote services a credential rotation talks to: the secret store and the token service.

    Every call consults a fault schedule. A refused call has no effect and raises; an acknowledged
    call has its effect and returns; a lost call has its effect and raises. A read either returns
    the state or raises. Token listings answer whatever the schedule says: unless a statement asks
    for honest ones, nothing ties them to the tokens that are live. */
module CloudProvider {
  import opened Results
  import opened SecretStages

  type Arn = string
  type TokenId = string

  datatype Document =
    | WriterDocument(gmsUrl: string, token: string)
    | ReaderDocument(gmsUrl: string, token: string, runHandleKey: string, oauthMasterKey: string)
    | OtherDocument(text: string)

  datatype Secret = Secret(labels: Labels, documents: map<Version, Document>)

  /** The service account whose tokens are listed. */
  datatype Role = Reader | Writer

  /** What a run did to tokens, in order. A revocation call records every secret as it was then, and whether it
      took effect, whatever it answered. */
  datatype Event =
    | Revocation(id: TokenId, secrets: map<Arn, Secret>, applied: bool)
    | Inventory(ids: set<TokenId>)

  /** `document` was put as version `v` of `arn` under `stageLabel`, and nothing else changed. */
  ghost predicate PutEffect(pre: map<Arn, Secret>, now: map<Arn, Secret>, arn: Arn,
                            document: Document, stageLabel: Label, v: Version) {
    && arn in pre && v !in pre[arn].labels
    && now == pre[arn := Secret(Added(pre[arn].labels, v, stageLabel), pre[arn].documents[v := document])]
  }

  /** Only the labels of `arn` changed. */
  ghost predicate OnlyLabels(pre: map<Arn, Secret>, now: map<Arn, Secret>, arn: Arn) {
    && arn in pre && arn in now
    && now == pre[arn := Secret(now[arn].labels, pre[arn].documents)]
  }

  /** An inventory's ids: none empty, none repeated. */
  predicate WellListed(ids: seq<TokenId>) {
    "" !in ids && forall i, j | 0 <= i < j < |ids| :: ids[i] != ids[j]
  }

  function IdSet(ids: seq<TokenId>): set<TokenId> {
    set id | id in ids
  }

  class Provider {
    const outcomes: nat -> Outcome
    const versionIds: nat -> Version
    const listings: (nat, Role, set<TokenId>) -> seq<TokenId>

    var clock: nat
    var secrets: map<Arn, Secret>
    var liveTokens: set<TokenId>
    ghost var trace: seq<Event>

    /** Every state the secrets have passed through. */
    ghost var states: seq<map<Arn, Secret>>

    ghost predicate Valid()
      reads this
    {
      forall arn :: arn in secrets ==> Exclusive(secrets[arn].labels)
    }

    /** Every call from one moment to another was acknowledged. */
    ghost predicate Acknowledged(from: nat, to: nat) {
      forall n :: from <= n < to ==> outcomes(n).Acknowledged?
    }

    /** No version id the provider hands out is one of this secret's yet. */
    ghost predicate Fresh(now: map<Arn, Secret>, arn: Arn) {
      arn in now ==> forall n :: versionIds(n) !in now[arn].labels
    }

    /** The ids the two listings of an inventory started at `n` answer. */
    function Listed(n: nat, live: set<TokenId>): seq<TokenId> {
      listings(n, Reader, live) + listings(n + 1, Writer, live)
    }

    /** The inventory started at `n`, if it can be read. */
    function ScopedAt(n: nat, live: set<TokenId>): Result<set<TokenId>> {
      if outcomes(n).Acknowledged? && outcomes(n + 1).Acknowledged? && WellListed(Listed(n, live))
      then Returned(IdSet(Listed(n, live)))
      else Raised
    }

    /** As long as only these tokens live, listings show the live ones, each once. */
    ghost predicate Honest(tokens: set<TokenId>) {
      forall n, live :: live <= tokens && "" !in live ==> WellListed(Listed(n, live)) && IdSet(Listed(n, live)) == live
    }

    constructor (outcomes: nat -> Outcome, versionIds: nat -> Version,
                 listings: (nat, Role, set<TokenId>) -> seq<TokenId>,
                 secrets: map<Arn, Secret>, liveTokens: set<TokenId>)
      requires forall arn :: arn in secrets ==> Exclusive(secrets[arn].labels)
      ensures Valid() && clock == 0 && this.secrets == secrets && this.liveTokens == liveTokens && trace == []
      ensures this.outcomes == outcomes && this.versionIds == versionIds && this.listings == listings
      ensures states == [secrets]
    {
      this.outcomes, this.versionIds, this.listings := outcomes, versionIds, listings;
      this.clock, this.secrets, this.liveTokens, this.trace, this.states := 0, secrets, liveTokens, [], [secrets];
    }

    method DescribeSecret(arn: Arn) returns (r: Result<Labels>)
      modifies this`clock
      ensures clock == old(clock) + 1
      ensures r == if outcomes(old(clock)).Acknowledged? && arn in secrets then Returned(secrets[arn].labels)
                   else Raised
    {
      var outcome := outcomes(clock);
      clock := clock + 1;
      r := if outcome.Acknowledged? && arn in secrets then Returned(secrets[arn].labels) else Raised;
    }

    method PutSecretValue(arn: Arn, document: Document, stageLabel: Label) returns (r: Result<Version>)
      requires Valid()
      modifies this`clock, this`secrets, this`states
      ensures Valid() && clock == old(clock) + 1
      ensures r.Returned? ==> PutEffect(old(secrets), secrets, arn, document, stageLabel, r.value)
      ensures secrets == old(secrets) || exists v :: PutEffect(old(secrets), secrets, arn, document, stageLabel, v)
      ensures states == old(states) + if secrets == old(secrets) then [] else [secrets]
      ensures outcomes(old(clock)).Acknowledged? && arn in old(secrets) && Fresh(old(secrets), arn) ==> r.Returned?
    {
      var outcome, v := outcomes(clock), versionIds(clock);
      clock := clock + 1;
      if outcome.Refused? || arn !in secrets || v in secrets[arn].labels {
        return Raised;
      }
      AddedIsExclusive(secrets[arn].labels, v, stageLabel);
      ghost var pre := secrets;
      secrets := secrets[arn := Secret(Added(secrets[arn].labels, v, stageLabel),
                                       secrets[arn].documents[v := document])];
      assert PutEffect(pre, secrets, arn, document, stageLabel, v);
      assert v in secrets[arn].labels && v !in pre[arn].labels;
      states := states + [secrets];
      r := if outcome.Acknowledged? then Returned(v) else Raised;
    }

    method UpdateSecretVersionStage(arn: Arn, l: Label, moveTo: Option<Version>, removeFrom: Option<Version>)
      returns (r: Status)
      requires Valid() && moveTo != removeFrom
      modifies this`clock, this`secrets, this`states
      ensures Valid() && clock == old(clock) + 1
      ensures secrets == old(secrets) || OnlyLabels(old(secrets), secrets, arn)
      ensures arn in old(secrets) ==>
                && arn in secrets
                && UpdateStep(old(secrets)[arn].labels, secrets[arn].labels, l, moveTo, removeFrom)
                && (r.Completed? ==>
                    Updated(old(secrets)[arn].labels, l, moveTo, removeFrom) == Some(secrets[arn].labels))
      ensures r.Completed? ==> arn in old(secrets)
      ensures states == old(states) + if secrets == old(secrets) then [] else [secrets]
      ensures arn in old(secrets) && outcomes(old(clock)).Acknowledged? ==>
                (Updated(old(secrets)[arn].labels, l, moveTo, removeFrom).Some? ==> r.Completed?)
    {
      var outcome := outcomes(clock);
      clock := clock + 1;
      if outcome.Refused? || arn !in secrets {
        return Failed;
      }
      var updated := Updated(secrets[arn].labels, l, moveTo, removeFrom);
      if updated.None? {
        return Failed;
      }
      UpdateKeepsExclusive(secrets[arn].labels, updated.value, l, moveTo, removeFrom);
      ghost var pre := secrets;
      secrets := secrets[arn := Secret(updated.value, secrets[arn].documents)];
      states := states + if secrets == pre then [] else [secrets];
      r := if outcome.Acknowledged? then Completed else Failed;
    }

    method RevokeAccessToken(id: TokenId) returns (r: Status, ghost applied: bool)
      modifies this`clock, this`liveTokens, this`trace
      ensures clock == old(clock) + 1
      ensures liveTokens == old(liveTokens) - (if applied then {id} else {})
      ensures r.Completed? <==> outcomes(old(clock)).Acknowledged?
      ensures r.Completed? ==> applied
      ensures trace == old(trace) + [Revocation(id, secrets, applied)]
    {
      var outcome := outcomes(clock);
      clock := clock + 1;
      applied := !outcome.Refused?;
      trace := trace + [Revocation(id, secrets, applied)];
      if !outcome.Refused? {
        liveTokens := liveTokens - {id};
      }
      r := if outcome.Acknowledged? then Completed else Failed;
    }

    method ListAccessTokens(role: Role) returns (r: Result<seq<TokenId>>)
      modifies this`clock
      ensures clock == old(clock) + 1
      ensures r == if outcomes(old(clock)).Acknowledged? then Returned(listings(old(clock), role, liveTokens))
                   else Raised
    {
      var outcome, ids := outcomes(clock), listings(clock, role, liveTokens);
      clock := clock + 1;
      r := if outcome.Acknowledged? then Returned(ids) else Raised;
    }
  }
}
