/** Token control: the scoped inventory, and revoking every superseded token until the inventory
    shows exactly the generated pair. */
module TokenRevocation {
  import opened Results
  import opened CloudProvider

  /** The number of inventories a trace reads. */
  ghost function Inventories(events: seq<Event>): nat {
    if events == [] then 0
    else Inventories(events[..|events| - 1]) + (if events[|events| - 1].Inventory? then 1 else 0)
  }

  lemma {:induction false} InventoriesConcat(a: seq<Event>, b: seq<Event>)
    ensures Inventories(a + b) == Inventories(a) + Inventories(b)
  {
    if b == [] {
      assert a + b == a;
    } else {
      var n := |b| - 1;
      assert (a + b)[..|a + b| - 1] == a + b[..n];
      InventoriesConcat(a, b[..n]);
    }
  }

  /** Every event revokes a token of `ids`, seeing the secrets as `secrets`. */
  ghost predicate OnlyRevokes(events: seq<Event>, ids: set<TokenId>, secrets: map<Arn, Secret>) {
    forall e :: e in events ==> e.Revocation? && e.id in ids && e.secrets == secrets
  }

  /** One round: revocations of `ids`, then the inventory if it was read. */
  ghost predicate Round(events: seq<Event>, ids: set<TokenId>, secrets: map<Arn, Secret>,
                        observed: Result<set<TokenId>>) {
    match observed
    case Raised => OnlyRevokes(events, ids, secrets)
    case Returned(seen) =>
      |events| > 0 && OnlyRevokes(events[..|events| - 1], ids, secrets) && events[|events| - 1] == Inventory(seen)
  }

  /** No inventory so far ended the run. */
  ghost predicate Unsettled(events: seq<Event>, allowed: set<TokenId>, wanted: set<TokenId>) {
    forall k :: 0 <= k < |events| && events[k].Inventory? ==> events[k].ids <= allowed && events[k].ids != wanted
  }

  lemma UnsettledEnds(events: seq<Event>, allowed: set<TokenId>, wanted: set<TokenId>)
    requires Unsettled(events, allowed, wanted)
    ensures |events| > 0 ==>
              events[|events| - 1] != Inventory(wanted) && Unsettled(events[..|events| - 1], allowed, wanted)
  {
  }

  /** What one more round does to the record of the rounds before it. */
  lemma RoundExtends(events: seq<Event>, round: seq<Event>, remaining: set<TokenId>, oldIds: set<TokenId>,
                     allowed: set<TokenId>, wanted: set<TokenId>, secrets: map<Arn, Secret>,
                     observed: Result<set<TokenId>>)
    requires RevokesWithin(events, oldIds, secrets) && Unsettled(events, allowed, wanted)
    requires Round(round, remaining, secrets, observed) && remaining <= oldIds
    ensures RevokesWithin(events + round, oldIds, secrets)
    ensures Inventories(events + round) == Inventories(events) + if observed.Returned? then 1 else 0
    ensures observed.Raised? ==> Unsettled(events + round, allowed, wanted)
    ensures observed.Returned? ==>
              && |events + round| > 0 && (events + round)[|events + round| - 1] == Inventory(observed.value)
              && Unsettled((events + round)[..|events + round| - 1], allowed, wanted)
    ensures observed.Returned? && observed.value <= allowed && observed.value != wanted ==>
              Unsettled(events + round, allowed, wanted)
  {
    InventoriesConcat(events, round);
    match observed {
      case Raised =>
        RevocationsHoldNoInventory(round, remaining, secrets);
        forall k | 0 <= k < |round|
          ensures !round[k].Inventory?
        {
          assert round[k] in round;
        }
      case Returned(seen) =>
        var n := |round| - 1;
        RevocationsHoldNoInventory(round[..n], remaining, secrets);
        forall k | 0 <= k < n
          ensures !round[k].Inventory?
        {
          assert round[k] == round[..n][k] && round[..n][k] in round[..n];
        }
        forall e | e in events + round
          ensures e.Inventory? || (e.id in oldIds && e.secrets == secrets)
        {
          if e !in events && e != Inventory(seen) {
            var k :| 0 <= k < |round| && round[k] == e;
            assert round[..n][k] == e;
          }
        }
    }
  }

  lemma RaisedRoundHasNoInventory(events: seq<Event>, round: seq<Event>, remaining: set<TokenId>,
                                  allowed: set<TokenId>, wanted: set<TokenId>, secrets: map<Arn, Secret>)
    requires Unsettled(events, allowed, wanted) && Round(round, remaining, secrets, Raised)
    ensures |events + round| > 0 ==> (events + round)[|events + round| - 1] != Inventory(wanted)
    ensures |events + round| > 0 ==> Unsettled((events + round)[..|events + round| - 1], allowed, wanted)
  {
    forall k | 0 <= k < |round|
      ensures !round[k].Inventory?
    {
      assert round[k] in round;
    }
  }

  /** Revocations of `ids` and inventory reads. */
  ghost predicate RevokesWithin(events: seq<Event>, ids: set<TokenId>, secrets: map<Arn, Secret>) {
    forall e :: e in events ==> e.Inventory? || (e.id in ids && e.secrets == secrets)
  }

  lemma {:induction false} RevocationsHoldNoInventory(events: seq<Event>, ids: set<TokenId>, secrets: map<Arn, Secret>)
    requires OnlyRevokes(events, ids, secrets)
    ensures Inventories(events) == 0
  {
    if events != [] {
      assert events[|events| - 1] in events;
      RevocationsHoldNoInventory(events[..|events| - 1], ids, secrets);
    }
  }

  lemma NothingDone(oldIds: set<TokenId>, allowed: set<TokenId>, wanted: set<TokenId>, secrets: map<Arn, Secret>)
    ensures RevokesWithin([], oldIds, secrets) && Unsettled([], allowed, wanted)
    ensures Inventories([]) == 0 && AppliedIds([]) == {}
  {
  }

  /** The ids whose revocation took effect. */
  ghost function AppliedIds(events: seq<Event>): set<TokenId> {
    set e | e in events && e.Revocation? && e.applied :: e.id
  }

  lemma AppliedIdsConcat(a: seq<Event>, b: seq<Event>)
    ensures AppliedIds(a + b) == AppliedIds(a) + AppliedIds(b)
  {
    forall id | id in AppliedIds(a) + AppliedIds(b)
      ensures id in AppliedIds(a + b)
    {
      var e :| (e in a || e in b) && e.Revocation? && e.applied && e.id == id;
      assert e in a + b;
    }
  }

  lemma AppliedIdsOne(id: TokenId, secrets: map<Arn, Secret>, applied: bool)
    ensures AppliedIds([Revocation(id, secrets, applied)]) == if applied then {id} else {}
  {
    var events := [Revocation(id, secrets, applied)];
    assert events[0] in events;
  }

  lemma NoneApplied(observed: set<TokenId>)
    ensures AppliedIds([]) == {} && AppliedIds([Inventory(observed)]) == {}
  {
  }

  /** The token was asked to go, seeing the secrets as `secrets`. */
  ghost predicate Asked(events: seq<Event>, id: TokenId, secrets: map<Arn, Secret>) {
    Revocation(id, secrets, true) in events || Revocation(id, secrets, false) in events
  }

  /** Every inventory of the trace is what the listings answered at some moment of the span. */
  ghost predicate FromListings(provider: Provider, events: seq<Event>, from: nat, to: nat) {
    forall e :: e in events && e.Inventory? ==> ListedIn(provider, e.ids, from, to)
  }

  ghost predicate ListedIn(provider: Provider, ids: set<TokenId>, from: nat, to: nat) {
    exists n: nat, live :: from <= n < to && provider.ScopedAt(n, live) == Returned(ids)
  }

  /** Some inventory of the span could not be read: a listing failed, or an id was empty or repeated. */
  ghost predicate InventoryFailed(provider: Provider, from: nat, to: nat) {
    exists n: nat, live :: from <= n < to && provider.ScopedAt(n, live).Raised?
  }

  lemma FromListingsOn(provider: Provider, events: seq<Event>, round: seq<Event>, ids: set<TokenId>,
                       secrets: map<Arn, Secret>,
                       observed: Result<set<TokenId>>, from: nat, mid: nat, to: nat, n: nat, live: set<TokenId>)
    requires FromListings(provider, events, from, mid) && from <= mid <= n < to
    requires Round(round, ids, secrets, observed) && observed == provider.ScopedAt(n, live)
    ensures FromListings(provider, events + round, from, to)
  {
    forall e | e in events + round && e.Inventory?
      ensures ListedIn(provider, e.ids, from, to)
    {
      if e in events {
        assert ListedIn(provider, e.ids, from, mid);
      } else {
        RoundInventory(round, ids, secrets, observed, e);
      }
    }
  }

  lemma RoundInventory(round: seq<Event>, ids: set<TokenId>, secrets: map<Arn, Secret>,
                       observed: Result<set<TokenId>>, e: Event)
    requires Round(round, ids, secrets, observed) && e in round && e.Inventory?
    ensures observed == Returned(e.ids)
  {
    if observed.Returned? {
      assert round == round[..|round| - 1] + [round[|round| - 1]];
    }
  }

  lemma ListedOn(ids: seq<TokenId>, id: TokenId)
    ensures WellListed(ids + [id]) <==> WellListed(ids) && id != "" && id !in ids
    ensures IdSet(ids + [id]) == IdSet(ids) + {id}
  {
    var more := ids + [id];
    assert more[|ids|] == id && forall i :: 0 <= i < |ids| ==> more[i] == ids[i];
  }

  lemma ListedPrefix(ids: seq<TokenId>, n: nat)
    requires n <= |ids|
    ensures WellListed(ids) ==> WellListed(ids[..n])
  {
  }

  class TrialControlPlane {
    const provider: Provider

    constructor (provider: Provider)
      ensures this.provider == provider
    {
      this.provider := provider;
    }

    method Revoke(id: TokenId) returns (r: Status, ghost events: seq<Event>)
      modifies provider`clock, provider`liveTokens, provider`trace
      ensures provider.clock >= old(provider.clock)
      ensures provider.trace == old(provider.trace) + events
      ensures provider.liveTokens == old(provider.liveTokens) - AppliedIds(events)
      ensures OnlyRevokes(events, {id}, provider.secrets)
      ensures if id == "" then events == [] else Asked(events, id, provider.secrets)
      ensures r.Completed? ==> id in AppliedIds(events)
      ensures id != "" && provider.Acknowledged(old(provider.clock), provider.clock) ==> r.Completed?
    {
      events := [];
      NoneApplied({});
      if id == "" {
        return Failed, [];
      }
      ghost var from := provider.clock;
      ghost var applied;
      r, applied := provider.RevokeAccessToken(id);
      events := [Revocation(id, provider.secrets, applied)];
      AppliedIdsOne(id, provider.secrets, applied);
      assert events[0] in events;
      assert provider.Acknowledged(from, provider.clock) ==> provider.outcomes(from).Acknowledged?;
    }

    /** Read one account's tokens into the ids so far; no for an empty or repeated one. */
    method CollectIds(tokens: seq<TokenId>, before: seq<TokenId>) returns (ok: bool, ids: set<TokenId>)
      requires WellListed(before)
      ensures ok <==> WellListed(before + tokens)
      ensures ok ==> ids == IdSet(before + tokens)
    {
      ids := set id | id in before;
      assert before + tokens[..0] == before;
      for i := 0 to |tokens|
        invariant WellListed(before + tokens[..i]) && ids == IdSet(before + tokens[..i])
      {
        ListedOn(before + tokens[..i], tokens[i]);
        assert before + tokens[..i + 1] == before + tokens[..i] + [tokens[i]];
        if tokens[i] == "" || tokens[i] in ids {
          ListedPrefix(before + tokens, |before| + i + 1);
          assert (before + tokens)[..|before| + i + 1] == before + tokens[..i + 1];
          return false, ids;
        }
        ids := ids + {tokens[i]};
      }
      assert before + tokens[..|tokens|] == before + tokens;
      ok := true;
    }

    /** `_scoped_token_ids`: the ids both accounts' listings answer, unless one fails or an id is empty or repeated. */
    method ScopedTokenIds() returns (r: Result<set<TokenId>>)
      modifies provider`clock, provider`trace
      ensures provider.clock > old(provider.clock)
      ensures r == provider.ScopedAt(old(provider.clock), provider.liveTokens)
      ensures provider.trace == old(provider.trace) + if r.Returned? then [Inventory(r.value)] else []
      ensures WellListed(provider.Listed(old(provider.clock), provider.liveTokens)) ==>
                (provider.Acknowledged(old(provider.clock), provider.clock) ==> r.Returned?)
    {
      ghost var from := provider.clock;
      var readers :- provider.ListAccessTokens(Reader);
      var ok, ids := CollectIds(readers, []);
      assert [] + readers == readers;
      if !ok {
        ListedPrefix(provider.Listed(from, provider.liveTokens), |readers|);
        return Raised;
      }
      var writers :- provider.ListAccessTokens(Writer);
      ok, ids := CollectIds(writers, readers);
      if !ok {
        return Raised;
      }
      provider.trace := provider.trace + [Inventory(ids)];
      r := Returned(ids);
    }

    /** Ask once for the revocation of each id, whatever each call answers. */
    method RevokeEach(ids: set<TokenId>) returns (ghost events: seq<Event>)
      modifies provider`clock, provider`liveTokens, provider`trace
      ensures provider.clock >= old(provider.clock)
      ensures provider.liveTokens == old(provider.liveTokens) - AppliedIds(events)
      ensures provider.trace == old(provider.trace) + events
      ensures OnlyRevokes(events, ids, provider.secrets)
      ensures forall id :: id in ids && id != "" ==> Asked(events, id, provider.secrets)
      ensures provider.Acknowledged(old(provider.clock), provider.clock) ==> ids - {""} <= AppliedIds(events)
    {
      hide AppliedIds;
      var todo := ids;
      events := [];
      NoneApplied({});
      while todo != {}
        invariant todo <= ids && provider.clock >= old(provider.clock)
        invariant provider.liveTokens == old(provider.liveTokens) - AppliedIds(events)
        invariant provider.trace == old(provider.trace) + events
        invariant OnlyRevokes(events, ids, provider.secrets)
        invariant forall id :: id in ids - todo && id != "" ==> Asked(events, id, provider.secrets)
        invariant provider.Acknowledged(old(provider.clock), provider.clock) ==> ids - todo - {""} <= AppliedIds(events)
      {
        var id :| id in todo;
        ghost var from := provider.clock;
        ghost var more;
        var status;
        status, more := Revoke(id);
        AppliedIdsConcat(events, more);
        AskedLonger(events, more, provider.secrets);
        assert provider.Acknowledged(old(provider.clock), provider.clock) ==>
                 provider.Acknowledged(from, provider.clock);
        events := events + more;
        todo := todo - {id};
      }
    }

    /** Ask for the revocation of each remaining id, then read the inventory. */
    method RevocationRound(remaining: set<TokenId>)
      returns (r: Result<set<TokenId>>, ghost events: seq<Event>, ghost at: nat)
      modifies provider`clock, provider`liveTokens, provider`trace
      ensures old(provider.clock) <= at < provider.clock && r == provider.ScopedAt(at, provider.liveTokens)
      ensures provider.liveTokens == old(provider.liveTokens) - AppliedIds(events)
      ensures provider.trace == old(provider.trace) + events
      ensures Round(events, remaining, provider.secrets, r)
      ensures forall id :: id in remaining && id != "" ==> Asked(events, id, provider.secrets)
      ensures provider.Acknowledged(old(provider.clock), at) ==> remaining - {""} <= AppliedIds(events)
      ensures WellListed(provider.Listed(at, provider.liveTokens)) ==>
                (provider.Acknowledged(at, provider.clock) ==> r.Returned?)
    {
      hide AppliedIds;
      events := RevokeEach(remaining);
      at := provider.clock;
      r := ScopedTokenIds();
      if r.Returned? {
        AppliedIdsConcat(events, [Inventory(r.value)]);
        NoneApplied(r.value);
        events := events + [Inventory(r.value)];
      }
    }

    /** Revoke `oldIds` until an inventory shows exactly `generatedIds`, for at most five rounds.

        It returns exactly when the last thing it did was read that inventory. Whatever the
        inventories say and whichever calls fail, it revokes nothing outside `oldIds`, and the
        first inventory that shows an id of neither set is the last event of the run. It gives up only on
        such an inventory, on one that cannot be read, or after five. */
    method RevokeSupersededAndVerify(oldIds: set<TokenId>, generatedIds: set<TokenId>)
      returns (r: Result<nat>, ghost events: seq<Event>)
      modifies provider`clock, provider`liveTokens, provider`trace
      ensures provider.clock >= old(provider.clock)
      ensures provider.liveTokens == old(provider.liveTokens) - AppliedIds(events)
      ensures provider.trace == old(provider.trace) + events
      ensures RevokesWithin(events, oldIds, provider.secrets)
      ensures Inventories(events) <= 5
      ensures |events| > 0 ==> Unsettled(events[..|events| - 1], oldIds + generatedIds, generatedIds)
      ensures r.Returned? <==> |events| > 0 && events[|events| - 1] == Inventory(generatedIds)
      ensures r.Returned? ==> r.value == |oldIds| && oldIds !! generatedIds && |generatedIds| == 2
      ensures r.Returned? ==> forall id :: id in oldIds && id != "" ==> Asked(events, id, provider.secrets)
      ensures !(oldIds !! generatedIds) || |generatedIds| != 2 ==> r.Raised? && events == []
      ensures FromListings(provider, events, old(provider.clock), provider.clock)
      ensures r.Raised? && oldIds !! generatedIds && |generatedIds| == 2 ==>
                || Inventories(events) == 5
                || EndsForeign(events, oldIds + generatedIds)
                || InventoryFailed(provider, old(provider.clock), provider.clock)
      ensures oldIds !! generatedIds && |generatedIds| == 2 ==>
                (provider.Acknowledged(old(provider.clock), provider.clock) ==> oldIds - {""} <= AppliedIds(events))
      ensures Settles(provider, old(provider.liveTokens), oldIds, generatedIds) ==>
                (provider.Acknowledged(old(provider.clock), provider.clock) ==> r.Returned?)
    {
      hide RevokesWithin, Unsettled, AppliedIds, Inventories, FromListings, InventoryFailed, EndsForeign, Asked;
      hide Settles;
      hide GaveUp, Provider.Acknowledged;
      ghost var from, live := provider.clock, provider.liveTokens;
      if oldIds * generatedIds != {} || |generatedIds| != 2 {
        NothingDone(oldIds, oldIds + generatedIds, generatedIds, provider.secrets);
        NothingListed(provider, from);
        NotSettling(provider, live, oldIds, generatedIds);
        return Raised, [];
      }
      var settled;
      settled, events := RevokeRounds(oldIds, generatedIds);
      if !settled {
        GaveUpMeans(provider, events, live, oldIds, generatedIds, provider.secrets, from, provider.clock);
      }
      r := if settled then Returned(|oldIds|) else Raised;
    }

    /** The rounds themselves. */
    method RevokeRounds(oldIds: set<TokenId>, generatedIds: set<TokenId>)
      returns (settled: bool, ghost events: seq<Event>)
      requires oldIds * generatedIds == {} && |generatedIds| == 2
      modifies provider`clock, provider`liveTokens, provider`trace
      ensures provider.clock >= old(provider.clock) && oldIds !! generatedIds
      ensures provider.liveTokens == old(provider.liveTokens) - AppliedIds(events)
      ensures provider.trace == old(provider.trace) + events
      ensures settled ==>
                GotThere(provider, events, oldIds, generatedIds, provider.secrets, old(provider.clock), provider.clock)
      ensures !settled ==>
                GaveUp(provider, events, old(provider.liveTokens), oldIds, generatedIds, provider.secrets,
                       old(provider.clock), provider.clock)
    {
      hide Round, AppliedIds, Asked, Progress, GaveUp, GotThere, Provider.Acknowledged, Provider.ScopedAt, WellListed;
      ghost var from, live := provider.clock, provider.liveTokens;
      events := [];
      NoRoundYet(provider, live, oldIds, generatedIds, provider.secrets, from);
      var remaining := oldIds;
      for attempt := 1 to 6
        invariant remaining <= oldIds && (attempt == 1 ==> remaining == oldIds)
        invariant provider.clock >= from
        invariant provider.liveTokens == live - AppliedIds(events)
        invariant provider.trace == old(provider.trace) + events
        invariant Progress(provider, events, live, oldIds, generatedIds, provider.secrets, from, provider.clock,
                           attempt - 1)
      {
        ghost var start := provider.clock;
        ghost var round, at;
        var inventory;
        inventory, round, at := RevocationRound(remaining);
        AppliedIdsConcat(events, round);
        RoundDecides(provider, events, live, oldIds, generatedIds, provider.secrets, from, start, attempt - 1,
                     round, remaining, inventory, at, provider.clock);
        events := events + round;
        if inventory.Raised? || inventory.value - (oldIds + generatedIds) != {} {
          return false, events;
        }
        var observed := inventory.value;
        remaining := oldIds * observed;
        if remaining == {} && observed == generatedIds {
          return true, events;
        }
      }
      FiveRounds(provider, events, live, oldIds, generatedIds, provider.secrets, from, provider.clock);
      settled := false;
    }
  }

  /** What holds after some rounds that did not end the run. */
  ghost predicate Progress(provider: Provider, events: seq<Event>, live: set<TokenId>, oldIds: set<TokenId>,
                           generatedIds: set<TokenId>, secrets: map<Arn, Secret>, from: nat, now: nat, rounds: nat) {
    && from <= now && oldIds !! generatedIds && |generatedIds| == 2 && (rounds == 0 ==> events == [])
    && Recorded(provider, events, oldIds, secrets, from, now) && Inventories(events) == rounds
    && Unsettled(events, oldIds + generatedIds, generatedIds)
    && (rounds > 0 ==>
          && (forall id :: id in oldIds && id != "" ==> Asked(events, id, secrets))
          && (provider.Acknowledged(from, now) ==> oldIds - {""} <= AppliedIds(events))
          && (Settles(provider, live, oldIds, generatedIds) ==> !provider.Acknowledged(from, now)))
  }

  /** Only old ids were asked to go, and the inventories are what the listings answered. */
  ghost predicate Recorded(provider: Provider, events: seq<Event>, oldIds: set<TokenId>, secrets: map<Arn, Secret>,
                           from: nat, to: nat) {
    RevokesWithin(events, oldIds, secrets) && FromListings(provider, events, from, to)
  }

  /** How a run that gives up leaves things. */
  ghost predicate GaveUp(provider: Provider, events: seq<Event>, live: set<TokenId>, oldIds: set<TokenId>,
                         generatedIds: set<TokenId>, secrets: map<Arn, Secret>, from: nat, to: nat) {
    && Recorded(provider, events, oldIds, secrets, from, to) && Inventories(events) <= 5
    && (|events| > 0 ==>
          && Unsettled(events[..|events| - 1], oldIds + generatedIds, generatedIds)
          && events[|events| - 1] != Inventory(generatedIds))
    && (Inventories(events) == 5 || EndsForeign(events, oldIds + generatedIds) || InventoryFailed(provider, from, to))
    && (provider.Acknowledged(from, to) ==> oldIds - {""} <= AppliedIds(events))
    && (Settles(provider, live, oldIds, generatedIds) ==> !provider.Acknowledged(from, to))
  }

  lemma GaveUpMeans(provider: Provider, events: seq<Event>, live: set<TokenId>, oldIds: set<TokenId>,
                    generatedIds: set<TokenId>, secrets: map<Arn, Secret>, from: nat, to: nat)
    requires GaveUp(provider, events, live, oldIds, generatedIds, secrets, from, to)
    ensures RevokesWithin(events, oldIds, secrets) && FromListings(provider, events, from, to)
            && Inventories(events) <= 5
    ensures |events| > 0 ==> Unsettled(events[..|events| - 1], oldIds + generatedIds, generatedIds)
    ensures |events| > 0 ==> events[|events| - 1] != Inventory(generatedIds)
    ensures Inventories(events) == 5 || EndsForeign(events, oldIds + generatedIds)
            || InventoryFailed(provider, from, to)
    ensures provider.Acknowledged(from, to) ==> oldIds - {""} <= AppliedIds(events)
    ensures Settles(provider, live, oldIds, generatedIds) ==> !provider.Acknowledged(from, to)
  {
  }

  lemma NoRoundYet(provider: Provider, live: set<TokenId>, oldIds: set<TokenId>, generatedIds: set<TokenId>,
                   secrets: map<Arn, Secret>, from: nat)
    requires oldIds * generatedIds == {} && |generatedIds| == 2
    ensures Progress(provider, [], live, oldIds, generatedIds, secrets, from, from, 0)
    ensures AppliedIds([]) == {} && oldIds !! generatedIds
  {
    assert forall id :: id in oldIds && id in generatedIds ==> id in oldIds * generatedIds;
    NothingDone(oldIds, oldIds + generatedIds, generatedIds, secrets);
    NothingListed(provider, from);
  }

  lemma FiveRounds(provider: Provider, events: seq<Event>, live: set<TokenId>, oldIds: set<TokenId>,
                   generatedIds: set<TokenId>, secrets: map<Arn, Secret>, from: nat, now: nat)
    requires Progress(provider, events, live, oldIds, generatedIds, secrets, from, now, 5)
    ensures GaveUp(provider, events, live, oldIds, generatedIds, secrets, from, now)
  {
    hide AppliedIds, Asked, Settles, Recorded, Inventories, FromListings;
    UnsettledEnds(events, oldIds + generatedIds, generatedIds);
  }

  /** One more round either ends the run, one way or the other, or leaves it in progress. */
  lemma RoundDecides(provider: Provider, events: seq<Event>, live: set<TokenId>, oldIds: set<TokenId>,
                     generatedIds: set<TokenId>, secrets: map<Arn, Secret>, from: nat, start: nat, rounds: nat,
                     round: seq<Event>, remaining: set<TokenId>, observed: Result<set<TokenId>>, at: nat, to: nat)
    requires Progress(provider, events, live, oldIds, generatedIds, secrets, from, start, rounds) && rounds < 5
    requires remaining <= oldIds && (rounds == 0 ==> remaining == oldIds) && start <= at < to
    requires Round(round, remaining, secrets, observed)
    requires observed == provider.ScopedAt(at, live - AppliedIds(events) - AppliedIds(round))
    requires forall id :: id in remaining && id != "" ==> Asked(round, id, secrets)
    requires provider.Acknowledged(start, at) ==> remaining - {""} <= AppliedIds(round)
    requires WellListed(provider.Listed(at, live - AppliedIds(events) - AppliedIds(round))) ==>
               (provider.Acknowledged(at, to) ==> observed.Returned?)
    ensures observed.Raised? || !(observed.value <= oldIds + generatedIds) ==>
              GaveUp(provider, events + round, live, oldIds, generatedIds, secrets, from, to)
    ensures observed.Returned? && observed.value <= oldIds + generatedIds && observed.value != generatedIds ==>
              Progress(provider, events + round, live, oldIds, generatedIds, secrets, from, to, rounds + 1)
    ensures observed == Returned(generatedIds) ==>
              GotThere(provider, events + round, oldIds, generatedIds, secrets, from, to)
  {
    hide Round, Inventories, FromListings, InventoryFailed, EndsForeign, Asked, Settles, WellListed;
    hide Provider.ScopedAt, RevokesWithin, Unsettled;
    hide AppliedIds;
    var all, now := events + round, live - AppliedIds(events) - AppliedIds(round);
    RoundExtends(events, round, remaining, oldIds, oldIds + generatedIds, generatedIds, secrets, observed);
    AppliedIdsConcat(events, round);
    AskedLonger(events, round, secrets);
    FromListingsOn(provider, events, round, remaining, secrets, observed, from, start, to, at, now);
    if provider.Acknowledged(from, to) {
      assert provider.Acknowledged(from, start) && provider.Acknowledged(start, at) && provider.Acknowledged(at, to);
    }
    if rounds == 0 && Settles(provider, live, oldIds, generatedIds) && provider.Acknowledged(from, to) {
      NoneApplied({});
      assert now == live - AppliedIds(round);
      FirstRoundSettles(provider, live, oldIds, generatedIds, round, secrets, observed, at);
    }
    if observed.Raised? {
      InventoryFailedAt(provider, from, at, to, now);
      RaisedRoundHasNoInventory(events, round, remaining, oldIds + generatedIds, generatedIds, secrets);
    } else if !(observed.value <= oldIds + generatedIds) {
      ForeignEnds(all, observed.value, oldIds + generatedIds);
    }
  }

  /** How a run that gets its inventory leaves things. */
  ghost predicate GotThere(provider: Provider, events: seq<Event>, oldIds: set<TokenId>, generatedIds: set<TokenId>,
                           secrets: map<Arn, Secret>, from: nat, to: nat) {
    && RevokesWithin(events, oldIds, secrets) && FromListings(provider, events, from, to) && Inventories(events) <= 5
    && |events| > 0 && Unsettled(events[..|events| - 1], oldIds + generatedIds, generatedIds)
    && events[|events| - 1] == Inventory(generatedIds)
    && (forall id :: id in oldIds && id != "" ==> Asked(events, id, secrets))
    && (provider.Acknowledged(from, to) ==> oldIds - {""} <= AppliedIds(events))
  }

  /** Undisturbed, with honest listings and exactly the old and the generated tokens live, revocation settles. */
  ghost predicate Settles(provider: Provider, live: set<TokenId>, oldIds: set<TokenId>, generatedIds: set<TokenId>) {
    && provider.Honest(live) && oldIds !! generatedIds && |generatedIds| == 2
    && "" !in oldIds + generatedIds && live == oldIds + generatedIds
  }

  ghost predicate EndsForeign(events: seq<Event>, allowed: set<TokenId>) {
    |events| > 0 && events[|events| - 1].Inventory? && !(events[|events| - 1].ids <= allowed)
  }

  lemma ForeignEnds(events: seq<Event>, observed: set<TokenId>, allowed: set<TokenId>)
    requires |events| > 0 && events[|events| - 1] == Inventory(observed) && !(observed <= allowed)
    ensures EndsForeign(events, allowed)
  {
  }

  lemma NothingListed(provider: Provider, from: nat)
    ensures FromListings(provider, [], from, from)
  {
  }

  lemma NotSettling(provider: Provider, live: set<TokenId>, oldIds: set<TokenId>, generatedIds: set<TokenId>)
    requires oldIds * generatedIds != {} || |generatedIds| != 2
    ensures !Settles(provider, live, oldIds, generatedIds) && !(oldIds !! generatedIds && |generatedIds| == 2)
  {
  }

  lemma InventoryFailedAt(provider: Provider, from: nat, at: nat, to: nat, live: set<TokenId>)
    requires from <= at < to && provider.ScopedAt(at, live).Raised?
    ensures InventoryFailed(provider, from, to)
  {
  }

  lemma AskedLonger(events: seq<Event>, round: seq<Event>, secrets: map<Arn, Secret>)
    ensures forall id :: Asked(events, id, secrets) || Asked(round, id, secrets) ==> Asked(events + round, id, secrets)
  {
  }

  /** In an undisturbed run with honest listings the first round already shows the generated pair. */
  lemma FirstRoundSettles(provider: Provider, live: set<TokenId>, oldIds: set<TokenId>, generatedIds: set<TokenId>,
                          round: seq<Event>, secrets: map<Arn, Secret>, observed: Result<set<TokenId>>, at: nat)
    requires Settles(provider, live, oldIds, generatedIds) && oldIds - {""} <= AppliedIds(round)
    requires Round(round, oldIds, secrets, observed) && observed == provider.ScopedAt(at, live - AppliedIds(round))
    requires WellListed(provider.Listed(at, live - AppliedIds(round))) ==> observed.Returned?
    ensures observed == Returned(generatedIds)
  {
    RoundApplies(round, oldIds, secrets, observed);
    assert oldIds - {""} == oldIds;
    assert live - AppliedIds(round) == generatedIds;
  }

  lemma RoundApplies(round: seq<Event>, ids: set<TokenId>, secrets: map<Arn, Secret>, observed: Result<set<TokenId>>)
    requires Round(round, ids, secrets, observed)
    ensures AppliedIds(round) <= ids
  {
    forall e | e in round && e.Revocation?
      ensures e.id in ids
    {
      if observed.Returned? {
        var k :| 0 <= k < |round| && round[k] == e;
        assert round[..|round| - 1][k] == e;
      }
    }
  }
}
