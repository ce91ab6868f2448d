/** The catalog as the canary controller meets it: versioned aspects that other actors may change
    between any two calls, a search index, and calls that may fail or lose their acknowledgement. */
module CanaryCatalog {
  import opened Results
  import opened PyJson
  import opened CanaryState

  type Store = map<Ref, Json>

  /** What the controller asked for and was told, in order; a change counts from the moment it is sent. */
  datatype Event =
    | Searched(search: Search)
    | Read(ref: Ref, entry: Json)
    | Deleted(urn: Word)
    | Emitted(ref: Ref)

  predicate IsRead(e: Event) {
    e.Searched? || e.Read?
  }

  ghost predicate AllReads(events: seq<Event>) {
    forall i :: 0 <= i < |events| ==> IsRead(events[i])
  }

  /** The events of one complete inspection. */
  function Inspection(r: Reading): (events: seq<Event>)
    ensures |events| == 1 + |READS|
  {
    [Searched(r.search)] + seq(|READS|, i requires 0 <= i < |READS| => Read(READS[i], r.Entry(READS[i])))
  }

  lemma InspectionReads(r: Reading)
    ensures AllReads(Inspection(r))
  {
  }

  // ---- The store ----------------------------------------------------------------------------

  function EntryOf(s: Store, ref: Ref): Json {
    if ref in s then s[ref] else Null
  }

  ghost predicate WellFormed(s: Store) {
    forall ref :: ref in s ==> Envelope(s[ref])
  }

  function Wrapped(value: Json): Json {
    Dict(map[VALUE_FIELD := value])
  }

  /** A hard delete removes every aspect of the URN. */
  function WithoutUrn(s: Store, urn: Word): Store {
    map ref | ref in s && ref.urn != urn :: s[ref]
  }

  function RowsOf(s: Store, urn: Word): set<Ref> {
    set ref | ref in s && ref.urn == urn
  }

  function KeyOf(urn: Word): Ref {
    Ref(urn, if urn == TARGET_URN then DatasetKey else DomainKey)
  }

  /** An upsert of one aspect; the first one of an entity also creates its key. */
  function WithAspect(s: Store, ref: Ref, value: Json): Store {
    var keyed := if AspectPresent(EntryOf(s, KeyOf(ref.urn))) then s else s[KeyOf(ref.urn) := Wrapped(Dict(map[]))];
    keyed[ref := Wrapped(value)]
  }

  predicate TargetStored(s: Store) {
    exists a | a in DATASET_ASPECTS :: AspectPresent(EntryOf(s, Ref(TARGET_URN, a)))
  }

  /** A search index that mirrors the store: the target if it is there, then other matches. */
  function Mirror(s: Store, others: seq<Word>): Search {
    var hits := (if TargetStored(s) then [TARGET_URN] else []) + others;
    Search(|hits|, if |hits| <= 2 then hits else hits[..2])
  }

  /** What a complete inspection reads when nothing interferes. */
  function ReadingOf(s: Store, others: seq<Word>): Reading {
    Reading(Mirror(s, others), map ref | ref in READS :: EntryOf(s, ref))
  }

  class Catalog {
    var store: Store
    var clock: nat
    ghost var trace: seq<Event>

    /** What other actors have made of the store before the call of this number. */
    const actors: (nat, Store) -> Store

    /** What becomes of the call of this number. */
    const fate: nat -> Outcome

    const index: (nat, Store) -> Search

    /** The other datasets that match the query, when the index mirrors the store. */
    const others: seq<Word>

    constructor (store: Store, actors: (nat, Store) -> Store, fate: nat -> Outcome, index: (nat, Store) -> Search,
                 others: seq<Word>)
      ensures this.store == store && clock == 0 && trace == []
      ensures this.actors == actors && this.fate == fate && this.index == index && this.others == others
    {
      this.store := store;
      this.clock := 0;
      this.trace := [];
      this.actors := actors;
      this.fate := fate;
      this.index := index;
      this.others := others;
    }

    /** No other actor, no failure, and an index that mirrors the store. */
    ghost predicate Quiet() {
      && (forall n, s :: actors(n, s) == s)
      && (forall n :: fate(n) == Acknowledged)
      && (forall n, s :: index(n, s) == Mirror(s, others))
      && TARGET_URN !in others && forall i, j :: 0 <= i < j < |others| ==> others[i] != others[j]
    }

    /** The time before the next call, in which other actors move. */
    method Advance() returns (outcome: Outcome)
      modifies this`store, this`clock
      ensures clock == old(clock) + 1
      ensures outcome == fate(old(clock)) && store == actors(old(clock), old(store))
    {
      outcome := fate(clock);
      store := actors(clock, store);
      clock := clock + 1;
    }

    /** A connection test or close: it touches nothing but may fail. */
    method Ping() returns (status: Status)
      modifies this`store, this`clock
      ensures Quiet() ==> status == Completed && store == old(store)
    {
      var outcome := Advance();
      status := if outcome == Acknowledged then Completed else Failed;
    }

    /** `read_aspect`: an entry, or a failure when the call fails or the envelope is invalid. */
    method ReadAspect(ref: Ref) returns (r: Result<Json>, ghost events: seq<Event>)
      modifies this
      ensures trace == old(trace) + events
      ensures r.Raised? ==> events == []
      ensures r.Returned? ==> Envelope(r.value) && events == [Read(ref, r.value)]
      ensures Quiet() && WellFormed(old(store)) ==> r == Returned(EntryOf(store, ref)) && store == old(store)
    {
      hide Envelope;
      events := [];
      var outcome := Advance();
      var entry := EntryOf(store, ref);
      if outcome != Acknowledged || !Envelope(entry) {
        NullIsEnvelope();
        return Raised, [];
      }
      trace := trace + [Read(ref, entry)];
      return Returned(entry), [Read(ref, entry)];
    }

    /** `exact_query`: an answer with at most two distinct datasets. */
    method ExactQuery() returns (r: Result<Search>, ghost events: seq<Event>)
      modifies this
      ensures trace == old(trace) + events
      ensures r.Raised? ==> events == []
      ensures r.Returned? ==> r.value.Valid() && events == [Searched(r.value)]
      ensures Quiet() ==> r == Returned(Mirror(store, others)) && store == old(store)
    {
      var outcome := Advance();
      var search := index(clock, store);
      if outcome != Acknowledged || !search.Valid() {
        return Raised, [];
      }
      trace := trace + [Searched(search)];
      return Returned(search), [Searched(search)];
    }

    /** The delete call: how many rows it reports removed, or a failure with or without the effect. */
    method HardDelete(urn: Word) returns (r: Result<nat>)
      modifies this
      ensures trace == old(trace) + [Deleted(urn)]
      ensures Quiet() ==> store == WithoutUrn(old(store), urn) && r.Returned?
      ensures Quiet() && RowsOf(old(store), urn) != {} ==> r.value > 0
    {
      var outcome := Advance();
      trace := trace + [Deleted(urn)];
      var rows := |RowsOf(store, urn)|;
      if outcome != Refused {
        store := WithoutUrn(store, urn);
      }
      r := if outcome == Acknowledged then Returned(rows) else Raised;
    }

    /** One emitted proposal. */
    method Emit(ref: Ref, value: Json) returns (status: Status)
      modifies this
      ensures trace == old(trace) + [Emitted(ref)]
      ensures Quiet() ==> status == Completed && store == WithAspect(old(store), ref, value)
    {
      var outcome := Advance();
      trace := trace + [Emitted(ref)];
      if outcome != Refused {
        store := WithAspect(store, ref, value);
      }
      status := if outcome == Acknowledged then Completed else Failed;
    }

    /** The eleven aspect reads of an inspection, in order. */
    method ReadEntries() returns (r: Result<map<Ref, Json>>, ghost events: seq<Event>)
      modifies this
      ensures trace == old(trace) + events && AllReads(events)
      ensures r.Returned? ==>
                r.value.Keys == (set ref | ref in READS) && forall ref :: ref in r.value ==> Envelope(r.value[ref])
      ensures r.Returned? ==>
                events == seq(|READS|, i requires 0 <= i < |READS| && READS[i] in r.value =>
                                         Read(READS[i], r.value[READS[i]]))
      ensures Quiet() && WellFormed(old(store)) ==>
                store == old(store) && r.Returned? && forall ref :: ref in READS ==> r.value[ref] == EntryOf(store, ref)
    {
      hide Envelope, READS;
      var entries: map<Ref, Json> := map[];
      events := [];
      for i := 0 to |READS|
        invariant trace == old(trace) + events && |events| == i
        invariant entries.Keys == (set ref | ref in READS[..i])
        invariant forall ref :: ref in entries ==> Envelope(entries[ref])
        invariant forall j :: 0 <= j < i ==> READS[j] in entries && events[j] == Read(READS[j], entries[READS[j]])
        invariant Quiet() && WellFormed(old(store)) ==>
                    store == old(store) && forall ref :: ref in entries ==> entries[ref] == EntryOf(store, ref)
      {
        var entry, more := ReadAspect(READS[i]);
        if entry.Raised? {
          return Raised, events;
        }
        ReadsAreDistinct(i);
        assert READS[..i + 1] == READS[..i] + [READS[i]];
        events := events + more;
        entries := entries[READS[i] := entry.value];
      }
      assert READS[..|READS|] == READS;
      r := Returned(entries);
    }

    /** `inspect_state`: the search, the eleven aspects, and the judgement over them. */
    method InspectState(c: Contract) returns (r: Result<State>, ghost reading: Reading, ghost events: seq<Event>)
      modifies this
      ensures trace == old(trace) + events && AllReads(events)
      ensures r.Returned? ==> reading.Valid() && r.value == StateOf(c, reading) && events == Inspection(reading)
      ensures Quiet() && WellFormed(old(store)) ==>
                store == old(store) && r == Returned(StateOf(c, ReadingOf(store, others)))
    {
      hide StateOf, Mirror, Envelope;
      reading := Reading(NOTHING, map[]);
      var search, first := ExactQuery();
      if search.Raised? {
        return Raised, reading, [];
      }
      var entries, rest := ReadEntries();
      events := first + rest;
      if entries.Raised? {
        return Raised, reading, events;
      }
      var observed := Reading(search.value, entries.value);
      reading := observed;
      var s := Judge(c, observed);
      assert events == Inspection(reading);
      if Quiet() && WellFormed(old(store)) {
        assert entries.value == ReadingOf(store, others).entries;
      }
      r := Returned(s);
    }
  }

  lemma NullIsEnvelope()
    ensures Envelope(Null)
  {
  }

  lemma ReadsAreDistinct(i: nat)
    requires i < |READS|
    ensures forall j :: 0 <= j < i ==> READS[j] != READS[i]
  {
  }
}
