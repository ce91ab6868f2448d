/** The two commands of the canary fixture controller, and what holds over whole runs: guarded
    mutation against any other actors, and convergence when there are none. */
module CanaryController {
  import Characters
  import opened Results
  import opened PyJson
  import opened CanaryState
  import opened CanaryPlan
  import opened CanaryCatalog
  import opened CanaryGuard
  import CanaryConvergence
  import opened CanaryApply

  /** `command_plan`: inspect, then seal a plan or refuse. */
  method CommandPlan(cat: Catalog, c: Contract, e: Endpoint, release: Word, action: Word, confirmation: string)
    returns (r: Result<Json>, ghost reading: Reading, ghost events: seq<Event>)
    modifies cat
    ensures cat.trace == old(cat.trace) + events && AllReads(events)
    ensures r.Returned? ==> reading.Valid() && events == Inspection(reading)
                            && PlanFor(c, e, release, action, confirmation, StateOf(c, reading)) == Some(r.value)
    ensures cat.Quiet() && WellFormed(old(cat.store)) ==>
              cat.store == old(cat.store)
              && PlanFor(c, e, release, action, confirmation, StateOf(c, ReadingOf(cat.store, cat.others)))
                 == if r.Returned? then Some(r.value) else None
  {
    hide StateOf, Summary, PlanJson, OperationOf, WellFormed, Inspection, AllReads, ReadingOf, Confirmed, ReleaseValid;
    ghost var store := cat.store;
    RefusedEarly(c, e, release, action, confirmation, StateOf(c, ReadingOf(store, cat.others)));
    reading := Reading(NOTHING, map[]);
    events := [];
    NoReads();
    if !ReleaseValid(release) || !Confirmed(action, confirmation) {
      return Raised, reading, events;
    }
    var before;
    before, reading, events := cat.InspectState(c);
    if before.Raised? {
      return Raised, reading, events;
    }
    var plan := PlanFor(c, e, release, action, confirmation, before.value);
    r := if plan.None? then Raised else Returned(plan.value);
  }

  lemma NoReads()
    ensures AllReads([])
  {
  }

  lemma RefusedEarly(c: Contract, e: Endpoint, release: Word, action: Word, confirmation: string, s: State)
    ensures !ReleaseValid(release) || !Confirmed(action, confirmation) ==>
              PlanFor(c, e, release, action, confirmation, s).None?
  {
  }

  /** `wait_for_exact`: inspect until the state is exact, or give up. */
  method WaitForExact(cat: Catalog, c: Contract, polls: nat)
    returns (r: Result<State>, ghost final: Reading, ghost events: seq<Event>)
    modifies cat
    ensures cat.trace == old(cat.trace) + events && AllReads(events)
    ensures r.Returned? ==>
              && ClassificationOf(c, final) == Exact && r.value == StateOf(c, final)
              && EndsWith(events, Inspection(final))
    ensures cat.Quiet() && WellFormed(old(cat.store))
            && ClassificationOf(c, ReadingOf(old(cat.store), cat.others)) == Exact ==>
              r.Returned? && cat.store == old(cat.store)
  {
    hide WellFormed, Inspection, AllReads, ReadingOf, ClassificationOf, StateOf;
    events := [];
    NoReads();
    var remaining := polls;
    while true
      invariant cat.trace == old(cat.trace) + events && AllReads(events)
      invariant cat.Quiet() && WellFormed(old(cat.store)) ==> cat.store == old(cat.store)
      decreases remaining
    {
      ghost var look;
      r, final, look := cat.InspectState(c);
      ReadsJoin(events, look);
      EndsWithLast(events, look);
      events := events + look;
      if r.Raised? {
        return;
      }
      StateClass(c, final);
      StateClass(c, ReadingOf(cat.store, cat.others));
      if r.value.classification == Exact {
        return;
      }
      if remaining == 0 {
        return Raised, final, events;
      }
      remaining := remaining - 1;
    }
  }

  ghost predicate EndsWith(events: seq<Event>, end: seq<Event>) {
    |end| <= |events| && events[|events| - |end|..] == end
  }

  lemma EndsWithLast(a: seq<Event>, b: seq<Event>)
    ensures EndsWith(a + b, b)
  {
  }

  lemma EndsWithLonger(a: seq<Event>, b: seq<Event>, end: seq<Event>)
    requires EndsWith(b, end)
    ensures EndsWith(a + b, end)
  {
    var n := |a + b| - |end|;
    assert (a + b)[n..] == b[|b| - |end|..];
  }

  lemma StateClass(c: Contract, r: Reading)
    ensures StateOf(c, r).classification == ClassificationOf(c, r)
  {
    hide RawSnapshot, ProjectionOf, MismatchesOf, ClassificationOf;
  }

  /** What apply demands of its arguments and the plan file before it looks at the catalog. */
  predicate Accepted(c: Contract, e: Endpoint, args: Arguments, document: Document, order: Order) {
    && ReleaseValid(args.release) && Characters.IsRunCoordinate(args.runId)
    && Characters.IsRunCoordinate(args.runAttempt)
    && document.Sha() == args.planSha
    && document.Canonical? && ValidPlan(c, args.release, order, document.value)
    && (var plan := document.value;
        && (if plan.fields[ACTION] == Str(RESET) then args.confirmation == RESET_PHRASE
            else args.confirmation == NO_CONFIRMATION)
        && plan.fields[GMS_ENDPOINT_FINGERPRINT] == TextDigest(e.gms)
        && plan.fields[ISOLATION_MARKER_SHA256] == TextDigest(e.marker))
  }

  /** The operation a plan document names. */
  function OperationIn(document: Document): Json {
    if document.Canonical? && document.value.HasKeys(PLAN_KEYS) then document.value.fields[OPERATION] else Null
  }

  /** The final checks of apply, before it writes its receipt. */
  predicate PostExact(s: State) {
    s.classification == Exact && s.matchCount == 1 && s.g1 && s.g2 && s.g3 && s.g4 && s.g5 && s.pii == PiiAbsent
  }

  lemma ExactPasses(c: Contract, r: Reading)
    requires ClassificationOf(c, r) == Exact
    ensures PostExact(StateOf(c, r))
  {
    hide RawSnapshot, ProjectionOf, MismatchesOf, ClassificationOf;
    StateClass(c, r);
    ExactIsGoverned(c, r);
    hide StateOf;
  }

  /** The document was sealed by `command_plan` over this store, and apply is called with what it was sealed for. */
  ghost predicate Planned(c: Contract, e: Endpoint, args: Arguments, document: Document, s: Store, others: seq<Word>) {
    && document.Canonical? && args.planSha == Digest(document.value)
    && Characters.IsRunCoordinate(args.runId) && Characters.IsRunCoordinate(args.runAttempt)
    && exists action ::
         PlanFor(c, e, args.release, action, args.confirmation, StateOf(c, ReadingOf(s, others)))
           == Some(document.value)
  }

  /** The mutating branch of apply: preflight, mutate, close, wait for the exact state. */
  method ApplyMutation(cat: Catalog, c: Contract, sealedBefore: Json, isReset: bool, polls: nat, ghost sealed: Json,
                       ghost t: seq<Event>)
    returns (before: Result<State>, post: Result<State>, removals: seq<Removal>, ghost final: Reading,
             ghost events: seq<Event>)
    requires sealedBefore.HasKeys(BEFORE_KEYS) && sealed == sealedBefore.fields[RAW_ASPECT_SNAPSHOT_SHA256]
    modifies cat
    ensures cat.trace == old(cat.trace) + events
    ensures Guarded(c, sealed, t) && NoEmission(t, |t|) ==> Guarded(c, sealed, t + events)
    ensures !isReset ==> NoDeletion(events)
    ensures post.Returned? ==> before.Returned? && PyEq(Summary(before.value), sealedBefore)
    ensures post.Returned? ==>
              removals == if isReset
                then [Removal(TARGET_URN, before.value.targetPresent),
                      Removal(DOMAIN_URN, before.value.domainPresent)] else []
    ensures post.Returned? ==>
              && ClassificationOf(c, final) == Exact && post.value == StateOf(c, final)
              && EndsWith(events, Inspection(final))
    ensures cat.Quiet() && Sealed(c, old(cat.store), cat.others, sealedBefore, isReset) ==>
              post.Returned? && WellFormed(cat.store) && ClassificationOf(c, ReadingOf(cat.store, cat.others)) == Exact
  {
    hide WellFormed, Inspection, ReadingOf, ClassificationOf, StateOf, Guarded, NoDeletion, PyEq, Summary, AllReads;
    hide CanaryConvergence.Rebuilt, Cleared, EndsWith;
    hide NoEmission, MutationBase, ResetProvenance, Sealed;
    final, removals, events := Reading(NOTHING, map[]), [], [];
    before, post := Raised, Raised;
    NothingMore(t);
    NoReads();
    NoDeletionOn([], []);
    ghost var opening := cat.store;
    SealedFacts(c, opening, cat.others, sealedBefore, isReset);
    var connected := cat.Ping();
    if connected == Failed {
      return;
    }
    before, removals, events := Mutate(cat, c, sealedBefore, isReset, polls, sealed, t);
    var closed := cat.Ping();
    if before.Raised? || closed == Failed {
      return;
    }
    ghost var rest;
    post, final, rest := WaitForExact(cat, c, polls);
    GuardedRead(c, sealed, t + events, rest);
    NoDeletionJoin(events, rest);
    if post.Returned? {
      EndsWithLonger(events, rest, Inspection(final));
    }
    assert t + events + rest == t + (events + rest);
    events := events + rest;
  }

  /** The sealed summary is of this store, nothing else matches the query, and the operation suits the store. */
  ghost predicate Sealed(c: Contract, s: Store, others: seq<Word>, sealedBefore: Json, isReset: bool) {
    && WellFormed(s) && others == []
    && PyEq(Summary(StateOf(c, ReadingOf(s, others))), sealedBefore)
    && AspectPresent(EntryOf(s, Ref(PII_TAG_URN, TagProperties)))
    && if isReset then ResetProvenance(StateOf(c, ReadingOf(s, others))) else Cleared(s)
  }

  lemma SealedFacts(c: Contract, s: Store, others: seq<Word>, sealedBefore: Json, isReset: bool)
    ensures Sealed(c, s, others, sealedBefore, isReset) ==>
              && WellFormed(s)
              && PyEq(Summary(StateOf(c, ReadingOf(s, others))), sealedBefore)
              && (if isReset then ResetProvenance(StateOf(c, ReadingOf(s, others))) else Cleared(s))
              && WellFormed(CanaryConvergence.Rebuilt(c, MutationBase(c, s, others, isReset)))
              && ClassificationOf(c, ReadingOf(CanaryConvergence.Rebuilt(c, MutationBase(c, s, others, isReset)),
                                               others)) == Exact
  {
    hide WellFormed, Summary, StateOf, ReadingOf, AspectPresent, EntryOf, ResetStore, ClassificationOf;
    hide ResetProvenance, PyEq;
    if Sealed(c, s, others, sealedBefore, isReset) {
      ResetClears(c, s, others);
      var base := MutationBase(c, s, others, isReset);
      hide MutationBase;
      assert WellFormed(base) && !TargetStored(base);
      CanaryConvergence.RebuiltIsExact(c, base);
      CanaryConvergence.AllWellFormed(base, CanaryConvergence.Proposals(c));
    }
  }

  /** The plan suits this store: what it seals is what is there, and its operation leads to the exact state. */
  ghost predicate Suits(c: Contract, s: Store, others: seq<Word>, plan: Json)
    requires plan.HasKeys(PLAN_KEYS)
  {
    && WellFormed(s)
    && PyEq(Summary(StateOf(c, ReadingOf(s, others))), plan.fields[BEFORE])
    && (plan.fields[OPERATION] == Str(RESET) ==> ResetProvenance(StateOf(c, ReadingOf(s, others))))
    && (plan.fields[OPERATION] == Str(NOOP) ==> ClassificationOf(c, ReadingOf(s, others)) == Exact)
    && (plan.fields[OPERATION] != Str(NOOP) ==>
        Sealed(c, s, others, plan.fields[BEFORE], plan.fields[OPERATION] == Str(RESET)))
  }

  lemma SuitsFacts(c: Contract, s: Store, others: seq<Word>, plan: Json)
    requires plan.HasKeys(PLAN_KEYS)
    ensures Suits(c, s, others, plan) ==>
              && WellFormed(s) && PyEq(Summary(StateOf(c, ReadingOf(s, others))), plan.fields[BEFORE])
              && (plan.fields[OPERATION] == Str(RESET) ==> ResetProvenance(StateOf(c, ReadingOf(s, others))))
              && (plan.fields[OPERATION] == Str(NOOP) ==> ClassificationOf(c, ReadingOf(s, others)) == Exact)
              && (plan.fields[OPERATION] != Str(NOOP) ==>
                  Sealed(c, s, others, plan.fields[BEFORE], plan.fields[OPERATION] == Str(RESET)))
  {
    hide WellFormed, PyEq, Summary, StateOf, ReadingOf, ResetProvenance, ClassificationOf, Sealed;
  }

  /** Apply an accepted plan: re-read, then mutate or, for a no-op, take the reading as the outcome. */
  method ApplyAccepted(cat: Catalog, c: Contract, plan: Json, polls: nat, ghost sealed: Json)
    returns (before: Result<State>, post: Result<State>, removals: seq<Removal>, ghost final: Reading,
             ghost events: seq<Event>)
    requires plan.HasKeys(PLAN_KEYS) && plan.fields[BEFORE].HasKeys(BEFORE_KEYS)
    requires sealed == plan.fields[BEFORE].fields[RAW_ASPECT_SNAPSHOT_SHA256]
    requires plan.fields[MUTATION_REQUIRED] == Bool(plan.fields[OPERATION] != Str(NOOP))
    modifies cat
    ensures cat.trace == old(cat.trace) + events
    ensures Guarded(c, sealed, events)
    ensures plan.fields[OPERATION] != Str(RESET) ==> NoDeletion(events)
    ensures plan.fields[OPERATION] == Str(NOOP) ==> AllReads(events)
    ensures post.Returned? ==> before.Returned? && PyEq(Summary(before.value), plan.fields[BEFORE])
    ensures post.Returned? ==>
              removals == if plan.fields[OPERATION] == Str(RESET)
                          then [Removal(TARGET_URN, before.value.targetPresent),
                                Removal(DOMAIN_URN, before.value.domainPresent)] else []
    ensures post.Returned? ==> post.value == StateOf(c, final) && EndsWith(events, Inspection(final))
    ensures cat.Quiet() && Suits(c, old(cat.store), cat.others, plan) ==>
              post.Returned? && post.value.classification == Exact
              && WellFormed(cat.store) && ClassificationOf(c, ReadingOf(cat.store, cat.others)) == Exact
  {
    hide WellFormed, Inspection, ReadingOf, ClassificationOf, StateOf, Guarded, NoDeletion, PyEq, Summary, AllReads;
    hide EndsWith, NoEmission;
    hide Sealed, ResetProvenance, Suits, Catalog.Quiet;
    SuitsFacts(c, cat.store, cat.others, plan);
    removals, post := [], Raised;
    before, final, events := InspectSealed(cat, c, plan.fields[BEFORE], sealed, []);
    NothingBefore(events);
    GuardedEmpty(c, sealed);
    GuardedRead(c, sealed, [], events);
    NoEmissionIn(events);
    StateClass(c, ReadingOf(cat.store, cat.others));
    if before.Raised? || (plan.fields[OPERATION] == Str(RESET) && !ResetProvenance(before.value)) {
      return;
    }
    if plan.fields[MUTATION_REQUIRED] == Bool(false) {
      EndsWithLast([], events);
      return before, before, [], final, events;
    }
    ghost var more;
    before, post, removals, final, more :=
      ApplyMutation(cat, c, plan.fields[BEFORE], plan.fields[OPERATION] == Str(RESET), polls, sealed, events);
    NoDeletionJoin(events, more);
    if post.Returned? {
      EndsWithLonger(events, more, Inspection(final));
      StateClass(c, final);
    }
    events := events + more;
  }

  lemma QuietOthers(cat: Catalog)
    requires cat.Quiet()
    ensures TARGET_URN !in cat.others
  {
  }

  /** The deletions a run of this plan records: both owned URNs in order, deleted where sealed as present. */
  function SealedRemovals(document: Document): seq<Removal> {
    if OperationIn(document) == Str(RESET) && document.value.fields[BEFORE].HasKeys(BEFORE_KEYS)
       && PresencePair(document.value.fields[BEFORE].fields[OWNED_URN_PRESENCE], URN, PRESENT, TARGET_URN,
                       DOMAIN_URN) then
      var presence := document.value.fields[BEFORE].fields[OWNED_URN_PRESENCE].items;
      [Removal(TARGET_URN, presence[0].fields[PRESENT] == Bool(true)),
       Removal(DOMAIN_URN, presence[1].fields[PRESENT] == Bool(true))]
    else []
  }

  lemma SealedPresence(c: Contract, e: Endpoint, args: Arguments, document: Document, order: Order, s: State)
    requires Accepted(c, e, args, document, order) && document.value.fields[BEFORE].HasKeys(BEFORE_KEYS)
    requires PyEq(Summary(s), document.value.fields[BEFORE])
    ensures SealedRemovals(document)
         == if document.value.fields[OPERATION] == Str(RESET)
            then [Removal(TARGET_URN, s.targetPresent), Removal(DOMAIN_URN, s.domainPresent)] else []
  {
    hide Summary, PresenceJson, HeaderValid, AscendingWords, ProvenanceValid, ProvenanceMarked, TupleValid, IsHex64;
    hide ReleaseValid, Characters.IsRunCoordinate;
    SummaryFields(s);
    var v := document.value.fields[BEFORE];
    assert PyEq(Summary(s).fields[OWNED_URN_PRESENCE], v.fields[OWNED_URN_PRESENCE]);
    SamePresence(TARGET_URN, s.targetPresent, v.fields[OWNED_URN_PRESENCE].items[0]);
    SamePresence(DOMAIN_URN, s.domainPresent, v.fields[OWNED_URN_PRESENCE].items[1]);
  }

  lemma SamePresence(urn: Word, present: bool, item: Json)
    requires PresenceItem(item, URN, PRESENT, urn)
    ensures PyEq(PresenceJson(urn, present), item) ==> item.fields[PRESENT] == Bool(present)
  {
    var mine := PresenceJson(urn, present);
    if PyEq(mine, item) {
      assert PRESENT in mine.fields.Keys;
      assert PyEq(mine.fields[PRESENT], item.fields[PRESENT]);
    }
  }

  /** `command_apply` up to its receipt. */
  method CommandApply(cat: Catalog, c: Contract, e: Endpoint, args: Arguments, document: Document, order: Order,
                      polls: nat)
    returns (r: Result<Receipt>, ghost final: Reading, ghost events: seq<Event>)
    modifies cat
    ensures cat.trace == old(cat.trace) + events
    ensures Guarded(c, SealedOf(document), events)
    ensures OperationIn(document) != Str(RESET) ==> NoDeletion(events)
    ensures OperationIn(document) == Str(NOOP) ==> AllReads(events)
    ensures r.Returned? ==> ClassificationOf(c, final) == Exact && EndsWith(events, Inspection(final))
                            && r.value.post == StateOf(c, final).projection && r.value.matchCount == 1
                            && r.value.operation == OperationIn(document)
                            && r.value.resetDeletes == SealedRemovals(document)
    ensures r.Returned? ==>
              && Accepted(c, e, args, document, order)
              && PyEq(r.value.before, document.value.fields[BEFORE].fields[DIGEST_FIELD])
    ensures cat.Quiet() && WellFormed(old(cat.store)) && Planned(c, e, args, document, old(cat.store), cat.others) ==>
              r.Returned? && WellFormed(cat.store) && ClassificationOf(c, ReadingOf(cat.store, cat.others)) == Exact
  {
    hide WellFormed, Inspection, ReadingOf, ClassificationOf, StateOf, Accepted, Planned, PostExact, Guarded;
    hide NoDeletion, PyEq, Summary;
    hide AllReads, EndsWith, SealedOf, Sealed, OperationIn, Suits, Catalog.Quiet;
    ghost var store0 := cat.store;
    ghost var planned := cat.Quiet() && WellFormed(store0) && Planned(c, e, args, document, store0, cat.others);
    ghost var sealed := SealedOf(document);
    events, final := [], Reading(NOTHING, map[]);
    NoReads();
    GuardedEmpty(c, sealed);
    NoDeletionOn([], []);
    if planned {
      PlannedIsAccepted(c, e, args, document, order, store0, cat.others);
    }
    if !Accepted(c, e, args, document, order) {
      return Raised, final, events;
    }
    AcceptedShape(c, e, args, document, order);
    if planned {
      QuietOthers(cat);
      PlannedSuits(c, e, args, document, store0, cat.others);
    }
    var before, post, removals;
    before, post, removals, final, events := ApplyAccepted(cat, c, document.value, polls, sealed);
    StateClass(c, final);
    PassesIffExact(c, final);
    if post.Raised? || !PostExact(post.value) {
      return Raised, final, events;
    }
    SealedDigest(before.value, document.value.fields[BEFORE]);
    SealedPresence(c, e, args, document, order, before.value);
    r := Returned(Receipt(document.value.fields[OPERATION], before.value.projection, post.value.projection,
                          post.value.matchCount, removals));
  }

  lemma SealedDigest(s: State, sealedBefore: Json)
    requires sealedBefore.HasKeys(BEFORE_KEYS) && PyEq(Summary(s), sealedBefore)
    ensures PyEq(s.projection, sealedBefore.fields[DIGEST_FIELD])
  {
    hide Summary;
    SummaryFields(s);
    assert PyEq(Summary(s).fields[DIGEST_FIELD], sealedBefore.fields[DIGEST_FIELD]);
  }

  lemma PassesIffExact(c: Contract, r: Reading)
    ensures PostExact(StateOf(c, r)) <==> ClassificationOf(c, r) == Exact
    ensures PostExact(StateOf(c, r)) ==> StateOf(c, r).matchCount == 1
    ensures StateOf(c, r).projection.Digest?
  {
    hide StateOf, ClassificationOf;
    StateClass(c, r);
    StateShape(c, r);
    if ClassificationOf(c, r) == Exact {
      ExactPasses(c, r);
    }
  }

  lemma NoEmissionIn(seen: seq<Event>)
    requires AllReads(seen)
    ensures NoEmission(seen, |seen|)
  {
    ReadsEmitNothing([], seen);
    NothingBefore(seen);
  }

  /** What a plan sealed over this store says about it, when the index mirrors it. */
  lemma PlannedSuits(c: Contract, e: Endpoint, args: Arguments, document: Document, s: Store, others: seq<Word>)
    requires Planned(c, e, args, document, s, others) && WellFormed(s) && TARGET_URN !in others
    requires document.value.HasKeys(PLAN_KEYS)
    ensures Suits(c, s, others, document.value)
  {
    hide StateOf, ReadingOf, PlanJson, Summary, ReleaseValid, WellFormed, ClassificationOf, ResetProvenance;
    hide AspectPresent, EntryOf, Cleared, PyEq;
    var r := ReadingOf(s, others);
    var state := StateOf(c, r);
    var action :| PlanFor(c, e, args.release, action, args.confirmation, state) == Some(document.value);
    PlanFields(c, e, args.release, action, OperationOf(action, state).value, Summary(state));
    PyEqReflexive(Summary(state));
    StateClass(c, r);
    StateTag(c, s, others);
    PlannedAlone(c, s, others);
  }

  lemma StateTag(c: Contract, s: Store, others: seq<Word>)
    ensures StateOf(c, ReadingOf(s, others)).tagPresent <==> AspectPresent(EntryOf(s, Ref(PII_TAG_URN, TagProperties)))
    ensures ClassificationOf(c, ReadingOf(s, others)) == Absent ==> Cleared(s)
  {
    hide RawSnapshot, ProjectionOf, MismatchesOf, ReadingOf, AspectPresent, EntryOf, DatasetPresent, DomainPresent;
    hide TagPresent, TargetStored, CanaryConvergence.DomainStored;
    CanaryConvergence.PresenceIsStored(s, others);
  }

  /** Neither an absent state nor one without outside matches leaves room for another hit. */
  lemma PlannedAlone(c: Contract, s: Store, others: seq<Word>)
    requires TARGET_URN !in others
    ensures ClassificationOf(c, ReadingOf(s, others)) == Absent ==> others == []
    ensures QueryOutsideTarget !in StateOf(c, ReadingOf(s, others)).mismatches ==> others == []
  {
    hide RawSnapshot, ProjectionOf, DatasetMismatches, DomainMismatches, DatasetPresent, DomainPresent, TagPresent;
    hide TargetStored, READS;
    var r := ReadingOf(s, others);
    if others != [] {
      OthersShow(s, others);
      assert QueryOutsideTarget in When(OutsideTarget(r.search), QueryOutsideTarget);
      assert QueryOutsideTarget in MismatchesOf(c, r);
    }
  }

  lemma OthersShow(s: Store, others: seq<Word>)
    requires TARGET_URN !in others && others != []
    ensures OutsideTarget(Mirror(s, others))
  {
    hide TargetStored;
    var m := Mirror(s, others);
    if m.total == 1 {
      assert m.urns == others && m.urns[0] in m.urns && m.urns[0] in others;
    }
  }

  lemma NothingBefore(t: seq<Event>)
    ensures [] + t == t
  {
  }

  lemma PlannedIsAccepted(c: Contract, e: Endpoint, args: Arguments, document: Document, order: Order, s: Store,
                          others: seq<Word>)
    requires Planned(c, e, args, document, s, others)
    ensures Accepted(c, e, args, document, order)
  {
    hide StateOf, ReadingOf, ValidPlan, PlanJson, Summary, ReleaseValid;
    var action :| PlanFor(c, e, args.release, action, args.confirmation, StateOf(c, ReadingOf(s, others)))
      == Some(document.value);
    var state := StateOf(c, ReadingOf(s, others));
    PlannedIsValid(c, e, args.release, action, args.confirmation, ReadingOf(s, others), order);
    PlanFields(c, e, args.release, action, OperationOf(action, state).value, Summary(state));
  }

  lemma AcceptedShape(c: Contract, e: Endpoint, args: Arguments, document: Document, order: Order)
    requires Accepted(c, e, args, document, order)
    ensures document.Canonical? && document.value.HasKeys(PLAN_KEYS)
            && document.value.fields[BEFORE].HasKeys(BEFORE_KEYS)
    ensures SealedOf(document) == document.value.fields[BEFORE].fields[RAW_ASPECT_SNAPSHOT_SHA256]
    ensures OperationIn(document) == document.value.fields[OPERATION]
    ensures document.value.fields[OPERATION] in {Str(SEED), Str(RESET), Str(NOOP)}
    ensures document.value.fields[MUTATION_REQUIRED] == Bool(document.value.fields[OPERATION] != Str(NOOP))
  {
    hide HeaderValid, ProvenanceMarked, AscendingWords, PresencePair, ProvenanceValid, IsHex64, RESET_PHRASE;
    hide NO_CONFIRMATION, ReleaseValid, Characters.IsRunCoordinate;
    OperationIsForced(c, args.release, order, document.value);
  }

  /** Once the state is exact, a further seed plan is a no-op, whoever asks. */
  lemma ExactPlansNoop(c: Contract, e: Endpoint, release: Word, r: Reading)
    requires ClassificationOf(c, r) == Exact && ReleaseValid(release)
    ensures PlanFor(c, e, release, SEED, NO_CONFIRMATION, StateOf(c, r))
         == Some(PlanJson(c, e, release, SEED, NOOP, Summary(StateOf(c, r))))
    ensures OperationIn(Canonical(PlanJson(c, e, release, SEED, NOOP, Summary(StateOf(c, r))))) == Str(NOOP)
  {
    PlanFields(c, e, release, SEED, NOOP, Summary(StateOf(c, r)));
    hide ReleaseValid, PlanJson, Summary, ClassificationOf;
    StateClass(c, r);
    ExactIsGoverned(c, r);
    hide StateOf;
  }

  /** Plan, apply, plan again, undisturbed: from any store for which planning succeeds the fixture ends exact
      and a further seed plan has nothing to do. */
  method PlanApplyPlan(cat: Catalog, c: Contract, e: Endpoint, action: Word, args: Arguments, order: Order, polls: nat)
    returns (first: Result<Json>, receipt: Result<Receipt>, second: Result<Json>)
    requires cat.Quiet() && WellFormed(cat.store)
    requires Characters.IsRunCoordinate(args.runId) && Characters.IsRunCoordinate(args.runAttempt)
    modifies cat
    ensures first.Returned? ==> receipt.Returned? && receipt.value.matchCount == 1
    ensures first.Returned? ==> ClassificationOf(c, ReadingOf(cat.store, cat.others)) == Exact
    ensures first.Returned? ==> second.Returned? && OperationIn(Canonical(second.value)) == Str(NOOP)
  {
    hide WellFormed, ReadingOf, ClassificationOf, StateOf, Guarded, NoDeletion, Summary, AllReads, Inspection;
    hide EndsWith, PlanJson, PlanFor;
    hide Catalog.Quiet, Planned, Accepted, SealedOf, OperationIn, PyEq, Characters.IsRunCoordinate;
    receipt, second := Raised, Raised;
    ghost var reading, events;
    first, reading, events := CommandPlan(cat, c, e, args.release, action, args.confirmation);
    if first.Returned? {
      var document := Canonical(first.value);
      var approved := args.(planSha := Digest(first.value));
      PlannedNow(c, e, approved, action, document, cat.store, cat.others);
      receipt, reading, events := CommandApply(cat, c, e, approved, document, order, polls);
      ExactPlansNoop(c, e, args.release, ReadingOf(cat.store, cat.others));
      second, reading, events := CommandPlan(cat, c, e, args.release, SEED, NO_CONFIRMATION);
    }
  }

  lemma PlannedNow(c: Contract, e: Endpoint, args: Arguments, action: Word, document: Document, s: Store,
                   others: seq<Word>)
    requires document.Canonical? && args.planSha == Digest(document.value) && Characters.IsRunCoordinate(args.runId)
             && Characters.IsRunCoordinate(args.runAttempt)
    requires PlanFor(c, e, args.release, action, args.confirmation, StateOf(c, ReadingOf(s, others)))
             == Some(document.value)
    ensures Planned(c, e, args, document, s, others) && ReleaseValid(args.release)
  {
    hide StateOf, ReadingOf;
  }
}
