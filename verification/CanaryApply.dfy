/** Applying a sealed plan: re-read, delete, re-read and emit, and only if nothing moved. */
module CanaryApply {
  import opened Results
  import opened PyJson
  import opened CanaryState
  import opened CanaryPlan
  import opened CanaryCatalog
  import opened CanaryGuard
  import opened CanaryConvergence

  /** The plan file: canonical bytes of a JSON value, other bytes of one, or no JSON at all. */
  datatype Document =
    | Canonical(value: Json)
    | Loose(value: Json, sha: Json)
    | Malformed(sha: Json)
  {
    function Sha(): Json {
      match this
      case Canonical(v) => Digest(v)
      case Loose(_, sha) => sha
      case Malformed(sha) => sha
    }
  }

  datatype Arguments = Arguments(release: Word, runId: string, runAttempt: string, planSha: Json, confirmation: string)

  datatype Removal = Removal(urn: Word, deleted: bool)

  datatype Receipt = Receipt(operation: Json, before: Json, post: Json, matchCount: nat, resetDeletes: seq<Removal>)

  /** The raw-snapshot digest a plan document seals, if it seals one. */
  function SealedOf(document: Document): Json {
    if document.Canonical? && document.value.HasKeys(PLAN_KEYS) && document.value.fields[BEFORE].HasKeys(BEFORE_KEYS)
    then document.value.fields[BEFORE].fields[RAW_ASPECT_SNAPSHOT_SHA256]
    else Null
  }

  // ---- Deleting -----------------------------------------------------------------------------

  /** A guarded trace, inspected as sealed, in which nothing has been emitted yet. */
  ghost predicate Ready(c: Contract, sealed: Json, t: seq<Event>) {
    Guarded(c, sealed, t) && InspectedBefore(sealed, t, |t|) && NoEmission(t, |t|)
  }

  lemma ReadyOn(c: Contract, sealed: Json, t: seq<Event>, seen: seq<Event>)
    requires Ready(c, sealed, t) && AllReads(seen)
    ensures Ready(c, sealed, t + seen)
  {
    hide Guarded, InspectedBefore, NoEmission, AllReads;
    GuardedByReads(c, sealed, t, seen);
    InspectedOn(sealed, t, seen);
    ReadsEmitNothing(t, seen);
  }

  lemma OneRead(ref: Ref, entry: Json)
    ensures AllReads([Read(ref, entry)])
  {
  }

  lemma ReadsJoin(a: seq<Event>, b: seq<Event>)
    requires AllReads(a) && AllReads(b)
    ensures AllReads(a + b)
  {
  }

  lemma ReadyDelete(c: Contract, sealed: Json, t: seq<Event>, urn: Word, entry: Json)
    requires Ready(c, sealed, t) && Owned(urn) && Marked(c, entry)
    ensures Ready(c, sealed, t + [Read(PropertiesOf(urn), entry), Deleted(urn)])
  {
    hide Guarded, InspectedBefore, NoEmission, AllReads, Marked, PropertiesOf;
    var look := [Read(PropertiesOf(urn), entry)];
    OneRead(PropertiesOf(urn), entry);
    ReadyOn(c, sealed, t, look);
    assert (t + look)[|t + look| - 1] == Read(PropertiesOf(urn), entry);
    GuardedByDelete(c, sealed, t + look, urn);
    assert t + look + [Deleted(urn)] == t + [Read(PropertiesOf(urn), entry), Deleted(urn)];
  }

  /** `delete_owned_urn`: the marker is read live right before the delete, the key until it is gone. */
  method DeleteOwnedUrn(cat: Catalog, c: Contract, urn: Word, polls: nat, ghost sealed: Json, ghost t: seq<Event>)
    returns (status: Status, ghost events: seq<Event>)
    modifies cat
    ensures cat.trace == old(cat.trace) + events
    ensures Ready(c, sealed, t) ==> Ready(c, sealed, t + events)
    ensures cat.Quiet() && WellFormed(old(cat.store)) && Owned(urn)
            && Marked(c, EntryOf(old(cat.store), PropertiesOf(urn))) ==>
              status == Completed && cat.store == WithoutUrn(old(cat.store), urn)
  {
    hide Ready, Marked, EntryOf, WellFormed, PropertiesOf, AllReads;
    events := [];
    NothingMore(t);
    if !Owned(urn) {
      return Failed, [];
    }
    var properties, look := cat.ReadAspect(PropertiesOf(urn));
    if properties.Raised? {
      return Failed, [];
    }
    if !Marked(c, properties.value) {
      OneRead(PropertiesOf(urn), properties.value);
      if Ready(c, sealed, t) {
        ReadyOn(c, sealed, t, look);
      }
      return Failed, look;
    }
    MarkedHasRows(c, cat.store, urn);
    var rows := cat.HardDelete(urn);
    events := [Read(PropertiesOf(urn), properties.value), Deleted(urn)];
    assert cat.trace == old(cat.trace) + events;
    if Ready(c, sealed, t) {
      ReadyDelete(c, sealed, t, urn, properties.value);
    }
    if rows.Raised? || rows.value == 0 {
      return Failed, events;
    }
    ghost var later;
    status, later := AwaitAbsent(cat, urn, polls);
    if Ready(c, sealed, t) {
      ReadyOn(c, sealed, t + events, later);
      assert t + events + later == t + (events + later);
    }
    events := events + later;
  }

  lemma NothingMore(t: seq<Event>)
    ensures t + [] == t
  {
  }

  lemma MarkedHasRows(c: Contract, s: Store, urn: Word)
    ensures Marked(c, EntryOf(s, PropertiesOf(urn))) ==> RowsOf(s, urn) != {}
    ensures WellFormed(s) ==> WellFormed(WithoutUrn(s, urn))
    ensures !AspectPresent(EntryOf(WithoutUrn(s, urn), KeyOf(urn)))
  {
    if Marked(c, EntryOf(s, PropertiesOf(urn))) {
      assert PropertiesOf(urn) in RowsOf(s, urn);
    }
  }

  /** Read the key until it is absent, or give up. */
  method AwaitAbsent(cat: Catalog, urn: Word, polls: nat) returns (status: Status, ghost events: seq<Event>)
    modifies cat
    ensures cat.trace == old(cat.trace) + events && AllReads(events)
    ensures cat.Quiet() && WellFormed(old(cat.store)) && !AspectPresent(EntryOf(old(cat.store), KeyOf(urn))) ==>
              status == Completed && cat.store == old(cat.store)
  {
    hide AspectPresent, EntryOf, WellFormed, KeyOf;
    events := [];
    var remaining := polls;
    while true
      invariant cat.trace == old(cat.trace) + events && AllReads(events)
      invariant cat.Quiet() && WellFormed(old(cat.store)) && !AspectPresent(EntryOf(old(cat.store), KeyOf(urn))) ==>
                  cat.store == old(cat.store)
      decreases remaining
    {
      var key, look := cat.ReadAspect(KeyOf(urn));
      if key.Raised? {
        return Failed, events;
      }
      OneRead(KeyOf(urn), key.value);
      ReadsJoin(events, look);
      events := events + look;
      if !AspectPresent(key.value) {
        return Completed, events;
      }
      if remaining == 0 {
        return Failed, events;
      }
      remaining := remaining - 1;
    }
  }

  // ---- Emitting -----------------------------------------------------------------------------

  /** `require_owned_urns_absent`: both entity keys, the target's first. */
  method RequireAbsent(cat: Catalog) returns (status: Status, ghost events: seq<Event>)
    modifies cat
    ensures cat.trace == old(cat.trace) + events && AllReads(events)
    ensures status == Completed ==> |events| == 2 && BothAbsentAt(events, 0)
    ensures cat.Quiet() && WellFormed(old(cat.store)) && !AspectPresent(EntryOf(old(cat.store), KeyOf(TARGET_URN)))
            && !AspectPresent(EntryOf(old(cat.store), KeyOf(DOMAIN_URN))) ==>
              status == Completed && cat.store == old(cat.store)
  {
    hide AspectPresent, EntryOf, WellFormed;
    var target, first := cat.ReadAspect(KeyOf(TARGET_URN));
    if target.Raised? || AspectPresent(target.value) {
      return Failed, first;
    }
    var domain, second := cat.ReadAspect(KeyOf(DOMAIN_URN));
    events := first + second;
    status := if domain.Raised? || AspectPresent(domain.value) then Failed else Completed;
  }

  lemma AbsentNow(t: seq<Event>, seen: seq<Event>)
    requires |seen| == 2 && BothAbsentAt(seen, 0)
    ensures AbsentSince(t + seen, |t + seen|)
  {
    assert (t + seen)[|t|] == seen[0] && (t + seen)[|t| + 1] == seen[1];
    assert BothAbsentAt(t + seen, |t|);
  }

  /** A guarded trace in which emission may go on. */
  ghost predicate Emitting(c: Contract, sealed: Json, t: seq<Event>) {
    Guarded(c, sealed, t) && InspectedBefore(sealed, t, |t|) && AbsentSince(t, |t|)
  }

  lemma EmittingOn(c: Contract, sealed: Json, t: seq<Event>, ref: Ref)
    requires Emitting(c, sealed, t) && Owned(ref.urn)
    ensures Emitting(c, sealed, t + [Emitted(ref)])
  {
    hide Guarded, InspectedBefore, AbsentSince;
    GuardedByEmission(c, sealed, t, ref);
  }

  /** `emit_prepared`: the proposals in order, stopping at the first that fails. */
  method EmitAll(cat: Catalog, c: Contract, ghost sealed: Json, ghost t: seq<Event>)
    returns (status: Status, ghost events: seq<Event>)
    modifies cat
    ensures cat.trace == old(cat.trace) + events
    ensures forall i :: 0 <= i < |events| ==> events[i].Emitted?
    ensures Emitting(c, sealed, t) ==> Emitting(c, sealed, t + events)
    ensures cat.Quiet() ==> status == Completed && cat.store == Rebuilt(c, old(cat.store))
  {
    hide Emitting, Proposals, WithAspect;
    var proposals := Proposals(c);
    events := [];
    NothingMore(t);
    for i := 0 to |proposals|
      invariant cat.trace == old(cat.trace) + events
      invariant forall i :: 0 <= i < |events| ==> events[i].Emitted?
      invariant Emitting(c, sealed, t) ==> Emitting(c, sealed, t + events)
      invariant cat.Quiet() ==> cat.store == WithAll(old(cat.store), proposals[..i])
    {
      var ref, value := proposals[i].0, proposals[i].1;
      var sent := cat.Emit(ref, value);
      assert proposals[..i + 1][..i] == proposals[..i];
      if Emitting(c, sealed, t) {
        EmittingOn(c, sealed, t + events, ref);
        assert t + events + [Emitted(ref)] == t + (events + [Emitted(ref)]);
      }
      events := events + [Emitted(ref)];
      if sent == Failed {
        return Failed, events;
      }
    }
    assert proposals[..|proposals|] == proposals;
    status := Completed;
  }

  // ---- The mutation -------------------------------------------------------------------------

  /** Nothing of the fixture is stored. */
  predicate Cleared(s: Store) {
    !TargetStored(s) && !DomainStored(s)
  }

  ghost predicate NoDeletion(events: seq<Event>) {
    forall i :: 0 <= i < |events| ==> !events[i].Deleted?
  }

  /** What a reset leaves of the store, deleting the present owned URNs in order. */
  function ResetStore(s: Store, target: bool, domain: bool): Store {
    var first := if target then WithoutUrn(s, TARGET_URN) else s;
    if domain then WithoutUrn(first, DOMAIN_URN) else first
  }

  /** The reset loop over the two owned URNs. */
  method ResetOwned(cat: Catalog, c: Contract, before: State, polls: nat, ghost sealed: Json, ghost t: seq<Event>)
    returns (status: Status, removals: seq<Removal>, ghost events: seq<Event>)
    modifies cat
    ensures cat.trace == old(cat.trace) + events
    ensures Ready(c, sealed, t) ==> Ready(c, sealed, t + events)
    ensures status == Completed ==>
              removals == [Removal(TARGET_URN, before.targetPresent), Removal(DOMAIN_URN, before.domainPresent)]
    ensures cat.Quiet() && WellFormed(old(cat.store)) && ResetMarked(c, old(cat.store), before) ==>
              status == Completed && cat.store == ResetStore(old(cat.store), before.targetPresent, before.domainPresent)
  {
    hide Ready, Marked, WellFormed, WithoutUrn, EntryOf;
    events, removals := [], [];
    NothingMore(t);
    if before.targetPresent {
      status, events := DeleteOwnedUrn(cat, c, TARGET_URN, polls, sealed, t);
      if status == Failed {
        return;
      }
    }
    removals := [Removal(TARGET_URN, before.targetPresent)];
    DomainUntouched(c, old(cat.store));
    if before.domainPresent {
      ghost var more;
      status, more := DeleteOwnedUrn(cat, c, DOMAIN_URN, polls, sealed, t + events);
      assert t + events + more == t + (events + more);
      events := events + more;
      if status == Failed {
        return;
      }
    }
    removals := removals + [Removal(DOMAIN_URN, before.domainPresent)];
    status := Completed;
  }

  /** Every present owned URN is marked in the store. */
  predicate ResetMarked(c: Contract, s: Store, before: State) {
    && (before.targetPresent ==> Marked(c, EntryOf(s, PropertiesOf(TARGET_URN))))
    && (before.domainPresent ==> Marked(c, EntryOf(s, PropertiesOf(DOMAIN_URN))))
  }

  lemma DomainUntouched(c: Contract, s: Store)
    ensures EntryOf(WithoutUrn(s, TARGET_URN), PropertiesOf(DOMAIN_URN)) == EntryOf(s, PropertiesOf(DOMAIN_URN))
    ensures WellFormed(s) ==> WellFormed(WithoutUrn(s, TARGET_URN))
  {
  }

  /** Inspect again and go on only from the sealed summary. */
  method InspectSealed(cat: Catalog, c: Contract, sealedBefore: Json, ghost sealed: Json, ghost t: seq<Event>)
    returns (r: Result<State>, ghost reading: Reading, ghost events: seq<Event>)
    requires sealedBefore.HasKeys(BEFORE_KEYS) && sealed == sealedBefore.fields[RAW_ASPECT_SNAPSHOT_SHA256]
    modifies cat
    ensures cat.trace == old(cat.trace) + events && AllReads(events)
    ensures r.Returned? ==>
              && r.value == StateOf(c, reading) && events == Inspection(reading)
              && PyEq(Summary(r.value), sealedBefore)
    ensures r.Returned? && Guarded(c, sealed, t) && NoEmission(t, |t|) ==> Ready(c, sealed, t + events)
    ensures cat.Quiet() && WellFormed(old(cat.store))
            && PyEq(Summary(StateOf(c, ReadingOf(old(cat.store), cat.others))), sealedBefore) ==>
              r == Returned(StateOf(c, ReadingOf(old(cat.store), cat.others))) && cat.store == old(cat.store)
  {
    hide Guarded, NoEmission, WellFormed, StateOf, Summary, ReadingOf, Inspection, AllReads, Ready;
    r, reading, events := cat.InspectState(c);
    if r.Returned? {
      if !PyEq(Summary(r.value), sealedBefore) {
        return Raised, reading, events;
      }
      ReadyNow(c, sealed, sealedBefore, t, reading);
    }
  }

  /** Check both keys absent, then emit. */
  method Reseed(cat: Catalog, c: Contract, ghost sealed: Json, ghost t: seq<Event>)
    returns (status: Status, ghost events: seq<Event>)
    modifies cat
    ensures cat.trace == old(cat.trace) + events && NoDeletion(events)
    ensures Ready(c, sealed, t) ==> Guarded(c, sealed, t + events)
    ensures cat.Quiet() && WellFormed(old(cat.store)) && Cleared(old(cat.store)) ==>
              status == Completed && cat.store == Rebuilt(c, old(cat.store))
  {
    hide Guarded, NoEmission, InspectedBefore, WellFormed, Rebuilt, Cleared, AllReads, Emitting, AbsentSince;
    hide BothAbsentAt, NoDeletion;
    ClearedKeys(cat.store);
    status, events := RequireAbsent(cat);
    GuardedRead(c, sealed, t, events);
    EmittingNow(c, sealed, t, events);
    if status == Failed {
      return;
    }
    ghost var emitted;
    status, emitted := EmitAll(cat, c, sealed, t + events);
    EmissionsDeleteNothing(events, emitted);
    EmittingIsGuarded(c, sealed, t + events + emitted);
    assert t + events + emitted == t + (events + emitted);
    events := events + emitted;
  }

  /** The mutation of an approved plan: inspect once more, delete on reset, check both keys, emit. */
  method Mutate(cat: Catalog, c: Contract, sealedBefore: Json, isReset: bool, polls: nat, ghost sealed: Json,
                ghost t: seq<Event>)
    returns (r: Result<State>, removals: seq<Removal>, ghost events: seq<Event>)
    requires sealedBefore.HasKeys(BEFORE_KEYS) && sealed == sealedBefore.fields[RAW_ASPECT_SNAPSHOT_SHA256]
    modifies cat
    ensures cat.trace == old(cat.trace) + events
    ensures Guarded(c, sealed, t) && NoEmission(t, |t|) ==> Guarded(c, sealed, t + events)
    ensures !isReset ==> NoDeletion(events)
    ensures r.Returned? ==> PyEq(Summary(r.value), sealedBefore)
    ensures r.Returned? ==>
              removals == if isReset
                then [Removal(TARGET_URN, r.value.targetPresent), Removal(DOMAIN_URN, r.value.domainPresent)] else []
    ensures cat.Quiet() && WellFormed(old(cat.store))
            && PyEq(Summary(StateOf(c, ReadingOf(old(cat.store), cat.others))), sealedBefore)
            && (if isReset then ResetProvenance(StateOf(c, ReadingOf(old(cat.store), cat.others)))
                else Cleared(old(cat.store))) ==>
              r == Returned(StateOf(c, ReadingOf(old(cat.store), cat.others)))
              && cat.store == Rebuilt(c, MutationBase(c, old(cat.store), cat.others, isReset))
  {
    hide Guarded, NoEmission, WellFormed, StateOf, Summary, Rebuilt, Cleared, ReadingOf, ResetStore, AllReads, Ready;
    hide ResetMarked, NoDeletion, PyEq;
    hide Catalog.Quiet, ResetProvenance;
    removals := [];
    ghost var reading;
    r, reading, events := InspectSealed(cat, c, sealedBefore, sealed, t);
    GuardedRead(c, sealed, t, events);
    if r.Raised? {
      return;
    }
    var before := r.value;
    ReadyIsGuarded(c, sealed, t + events);
    if isReset {
      if !ResetProvenance(before) {
        return Raised, [], events;
      }
      StoredMarks(c, cat.store, cat.others);
      ResetClears(c, cat.store, cat.others);
      var reset;
      ghost var more;
      reset, removals, more := ResetOwned(cat, c, before, polls, sealed, t + events);
      assert t + events + more == t + (events + more);
      events := events + more;
      ReadyIsGuarded(c, sealed, t + events);
      if reset == Failed {
        return Raised, removals, events;
      }
    }
    var status;
    ghost var rest;
    status, rest := Reseed(cat, c, sealed, t + events);
    assert t + events + rest == t + (events + rest);
    NoDeletionJoin(events, rest);
    events := events + rest;
    if status == Failed {
      return Raised, removals, events;
    }
  }

  lemma NoDeletionJoin(a: seq<Event>, b: seq<Event>)
    ensures NoDeletion(a) && NoDeletion(b) ==> NoDeletion(a + b)
  {
  }

  /** The store a mutation emits into. */
  function MutationBase(c: Contract, s: Store, others: seq<Word>, isReset: bool): Store {
    if isReset then
      var before := StateOf(c, ReadingOf(s, others));
      ResetStore(s, before.targetPresent, before.domainPresent)
    else s
  }

  lemma NoDeletionOn(events: seq<Event>, seen: seq<Event>)
    ensures NoDeletion(events) && AllReads(seen) ==> NoDeletion(events + seen)
    ensures AllReads(events) ==> NoDeletion(events)
  {
    forall i | 0 <= i < |events|
      ensures AllReads(events) ==> !events[i].Deleted?
    {
      assert AllReads(events) ==> IsRead(events[i]);
    }
    forall i | 0 <= i < |seen|
      ensures AllReads(seen) ==> !seen[i].Deleted?
    {
      assert AllReads(seen) ==> IsRead(seen[i]);
    }
  }

  lemma EmissionsDeleteNothing(events: seq<Event>, emitted: seq<Event>)
    requires forall i :: 0 <= i < |emitted| ==> emitted[i].Emitted?
    ensures NoDeletion(events) ==> NoDeletion(events + emitted)
  {
  }

  lemma GuardedRead(c: Contract, sealed: Json, t: seq<Event>, seen: seq<Event>)
    requires AllReads(seen)
    ensures Guarded(c, sealed, t) ==> Guarded(c, sealed, t + seen)
    ensures NoDeletion(seen)
  {
    hide Guarded;
    if Guarded(c, sealed, t) {
      GuardedByReads(c, sealed, t, seen);
    }
    NoDeletionOn(seen, []);
  }

  /** Summaries that Python calls equal seal the same raw snapshot. */
  lemma SealedSnapshot(c: Contract, sealedBefore: Json, r: Reading)
    requires sealedBefore.HasKeys(BEFORE_KEYS) && PyEq(Summary(StateOf(c, r)), sealedBefore)
    ensures sealedBefore.fields[RAW_ASPECT_SNAPSHOT_SHA256] == Digest(RawSnapshot(r))
  {
    hide RawSnapshot, ProjectionOf, MismatchesOf, Summary;
    var v := Summary(StateOf(c, r));
    SummaryFields(StateOf(c, r));
    RawOfState(c, r);
    hide StateOf;
    assert PyEq(v.fields[RAW_ASPECT_SNAPSHOT_SHA256], sealedBefore.fields[RAW_ASPECT_SNAPSHOT_SHA256]);
  }

  lemma RawOfState(c: Contract, r: Reading)
    ensures StateOf(c, r).raw == Digest(RawSnapshot(r))
  {
    hide RawSnapshot, ProjectionOf, MismatchesOf;
  }

  /** An inspection that matches the sealed summary makes the trace ready. */
  lemma ReadyNow(c: Contract, sealed: Json, sealedBefore: Json, t: seq<Event>, r: Reading)
    requires sealedBefore.HasKeys(BEFORE_KEYS) && sealed == sealedBefore.fields[RAW_ASPECT_SNAPSHOT_SHA256]
    requires r.Valid() && PyEq(Summary(StateOf(c, r)), sealedBefore)
    ensures Guarded(c, sealed, t) && NoEmission(t, |t|) ==> Ready(c, sealed, t + Inspection(r))
  {
    hide Guarded, NoEmission, InspectedBefore, Summary, RawSnapshot, StateOf, Inspection, PyEq, AllReads;
    SealedSnapshot(c, sealedBefore, r);
    InspectionReads(r);
    InspectedNow(sealed, t, r);
    if Guarded(c, sealed, t) && NoEmission(t, |t|) {
      GuardedByReads(c, sealed, t, Inspection(r));
      ReadsEmitNothing(t, Inspection(r));
    }
  }

  lemma ReadyIsGuarded(c: Contract, sealed: Json, t: seq<Event>)
    ensures Ready(c, sealed, t) ==> Guarded(c, sealed, t) && InspectedBefore(sealed, t, |t|) && NoEmission(t, |t|)
  {
  }

  lemma EmittingNow(c: Contract, sealed: Json, t: seq<Event>, keys: seq<Event>)
    requires AllReads(keys)
    ensures |keys| == 2 && BothAbsentAt(keys, 0) && Ready(c, sealed, t) ==> Emitting(c, sealed, t + keys)
  {
    hide Guarded, InspectedBefore, NoEmission, AbsentSince, BothAbsentAt, AllReads;
    if |keys| == 2 && BothAbsentAt(keys, 0) && Ready(c, sealed, t) {
      GuardedByReads(c, sealed, t, keys);
      InspectedOn(sealed, t, keys);
      AbsentNow(t, keys);
    }
  }

  lemma EmittingIsGuarded(c: Contract, sealed: Json, t: seq<Event>)
    ensures Emitting(c, sealed, t) ==> Guarded(c, sealed, t)
  {
  }

  // ---- What a quiet mutation starts from ----------------------------------------------------

  /** Where the reading shows a present URN marked, the store holds the marker. */
  lemma StoredMarks(c: Contract, s: Store, others: seq<Word>)
    ensures ResetProvenance(StateOf(c, ReadingOf(s, others))) ==> ResetMarked(c, s, StateOf(c, ReadingOf(s, others)))
  {
    hide READS, Mirror, MismatchesOf, ProjectionOf, RawSnapshot, EntryOf, ExpectedProvenance;
    var r := ReadingOf(s, others);
    ReadRefs();
    EntryRead(s, others, PropertiesOf(TARGET_URN));
    EntryRead(s, others, PropertiesOf(DOMAIN_URN));
    hide ReadingOf;
    MarkedIfEqual(c, r.Entry(PropertiesOf(TARGET_URN)));
    MarkedIfEqual(c, r.Entry(PropertiesOf(DOMAIN_URN)));
    hide PyEq, AspectValue, AspectPresent, DatasetPresent, DomainPresent;
  }

  lemma MarkedIfEqual(c: Contract, entry: Json)
    ensures PyEq(AspectValue(entry).Get(CUSTOM_PROPERTIES), ExpectedProvenance(c)) ==> Marked(c, entry)
  {
    if !AspectPresent(entry) {
      assert AspectValue(entry).Get(CUSTOM_PROPERTIES) == Null;
    }
  }

  lemma DeletedIsGone(s: Store, urn: Word)
    ensures urn == TARGET_URN ==> !TargetStored(WithoutUrn(s, urn))
    ensures urn == DOMAIN_URN ==> !DomainStored(WithoutUrn(s, urn))
    ensures urn != TARGET_URN ==> (TargetStored(WithoutUrn(s, urn)) <==> TargetStored(s))
    ensures urn != DOMAIN_URN ==> (DomainStored(WithoutUrn(s, urn)) <==> DomainStored(s))
    ensures urn != PII_TAG_URN ==>
              EntryOf(WithoutUrn(s, urn), Ref(PII_TAG_URN, TagProperties))
                == EntryOf(s, Ref(PII_TAG_URN, TagProperties))
    ensures WellFormed(s) ==> WellFormed(WithoutUrn(s, urn))
  {
    hide AspectPresent, DATASET_ASPECTS, DOMAIN_ASPECTS;
    forall ref: Ref
      ensures EntryOf(WithoutUrn(s, urn), ref) == if ref.urn == urn then Null else EntryOf(s, ref)
    {
    }
    NullIsAbsent();
  }

  lemma NullIsAbsent()
    ensures !AspectPresent(Null)
  {
  }

  /** Deleting what is present clears the store and leaves the tag. */
  lemma ResetClears(c: Contract, s: Store, others: seq<Word>)
    ensures var before := StateOf(c, ReadingOf(s, others));
            var t := ResetStore(s, before.targetPresent, before.domainPresent);
            && Cleared(t) && (WellFormed(s) ==> WellFormed(t))
            && EntryOf(t, Ref(PII_TAG_URN, TagProperties)) == EntryOf(s, Ref(PII_TAG_URN, TagProperties))
  {
    hide ReadingOf, MismatchesOf, ProjectionOf, RawSnapshot, DatasetPresent, DomainPresent, TargetStored;
    hide DomainStored, WellFormed, WithoutUrn, EntryOf;
    PresenceIsStored(s, others);
    DeletedIsGone(s, TARGET_URN);
    DeletedIsGone(s, DOMAIN_URN);
    DeletedIsGone(WithoutUrn(s, TARGET_URN), DOMAIN_URN);
  }

  lemma ClearedKeys(s: Store)
    ensures Cleared(s) ==>
              && !AspectPresent(EntryOf(s, KeyOf(TARGET_URN)))
              && !AspectPresent(EntryOf(s, KeyOf(DOMAIN_URN)))
  {
    hide AspectPresent, EntryOf;
    assert DATASET_ASPECTS[0] == DatasetKey && DOMAIN_ASPECTS[0] == DomainKey;
  }
}
