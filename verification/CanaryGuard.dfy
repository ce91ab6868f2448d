/** Guarded mutation: what must have been read before a change may be sent, as a property of traces,
    and how each kind of step keeps it. */
module CanaryGuard {
  import opened PyJson
  import opened CanaryState
  import opened CanaryCatalog

  function PropertiesOf(urn: Word): Ref {
    Ref(urn, if urn == TARGET_URN then DatasetProperties else DomainProperties)
  }

  predicate Owned(urn: Word) {
    urn == TARGET_URN || urn == DOMAIN_URN
  }

  /** The entry carries the exact provenance marker. */
  predicate Marked(c: Contract, entry: Json) {
    AspectPresent(entry) && PyEq(AspectValue(entry).Get(CUSTOM_PROPERTIES), ExpectedProvenance(c))
  }

  /** A complete inspection whose raw snapshot has the sealed digest ended by position i. */
  ghost predicate InspectedBefore(sealed: Json, t: seq<Event>, i: nat)
    requires i <= |t|
  {
    exists j: nat, r: Reading :: InspectionAt(sealed, t, j, r) && j + |Inspection(r)| <= i
  }

  ghost predicate InspectionAt(sealed: Json, t: seq<Event>, j: nat, r: Reading) {
    && j + |Inspection(r)| <= |t| && t[j..j + |Inspection(r)|] == Inspection(r)
    && r.Valid() && Digest(RawSnapshot(r)) == sealed
  }

  /** The event just before i read the marker of the URN. */
  ghost predicate MarkerJustRead(c: Contract, t: seq<Event>, i: nat, urn: Word)
    requires i <= |t|
  {
    i > 0 && t[i - 1].Read? && t[i - 1].ref == PropertiesOf(urn) && Marked(c, t[i - 1].entry)
  }

  /** Both keys were read absent, one right after the other, and only emissions lie between that and i. */
  ghost predicate AbsentSince(t: seq<Event>, i: nat)
    requires i <= |t|
  {
    exists j: nat :: j + 2 <= i && BothAbsentAt(t, j) && forall k :: j + 2 <= k < i ==> t[k].Emitted?
  }

  ghost predicate BothAbsentAt(t: seq<Event>, j: nat) {
    && j + 2 <= |t|
    && t[j].Read? && t[j].ref == KeyOf(TARGET_URN) && !AspectPresent(t[j].entry)
    && t[j + 1].Read? && t[j + 1].ref == KeyOf(DOMAIN_URN) && !AspectPresent(t[j + 1].entry)
  }

  ghost predicate NoEmission(t: seq<Event>, i: nat)
    requires i <= |t|
  {
    forall k :: 0 <= k < i ==> !t[k].Emitted?
  }

  /** The change at i was guarded: inspected as sealed, on an owned URN, and for its kind freshly checked. */
  ghost predicate GuardedAt(c: Contract, sealed: Json, t: seq<Event>, i: nat)
    requires i < |t|
  {
    match t[i]
    case Deleted(urn) =>
      Owned(urn) && InspectedBefore(sealed, t, i) && MarkerJustRead(c, t, i, urn) && NoEmission(t, i)
    case Emitted(ref) =>
      Owned(ref.urn) && InspectedBefore(sealed, t, i) && AbsentSince(t, i)
    case _ => true
  }

  ghost predicate Guarded(c: Contract, sealed: Json, t: seq<Event>) {
    forall i: nat :: i < |t| ==> GuardedAt(c, sealed, t, i)
  }

  /** What is guarded at i depends on the trace up to i only. */
  lemma GuardedPrefix(c: Contract, sealed: Json, t: seq<Event>, more: seq<Event>, i: nat)
    requires i < |t| && GuardedAt(c, sealed, t, i)
    ensures GuardedAt(c, sealed, t + more, i)
  {
    hide Inspection, Marked;
    var u := t + more;
    assert forall k :: 0 <= k < |t| ==> u[k] == t[k];
    if t[i].Deleted? || t[i].Emitted? {
      InspectedLonger(sealed, t, more, i);
    }
    if t[i].Emitted? {
      var j: nat :| j + 2 <= i && BothAbsentAt(t, j) && forall k :: j + 2 <= k < i ==> t[k].Emitted?;
      assert BothAbsentAt(u, j);
    }
  }

  lemma InspectedLonger(sealed: Json, t: seq<Event>, more: seq<Event>, i: nat)
    requires i <= |t| && InspectedBefore(sealed, t, i)
    ensures InspectedBefore(sealed, t + more, i)
  {
    hide Inspection;
    var j: nat, r: Reading :| InspectionAt(sealed, t, j, r) && j + |Inspection(r)| <= i;
    var n := |Inspection(r)|;
    assert (t + more)[j..j + n] == t[j..j + n];
    assert InspectionAt(sealed, t + more, j, r);
  }

  lemma InspectedLater(sealed: Json, t: seq<Event>, i: nat, k: nat)
    requires i <= k <= |t| && InspectedBefore(sealed, t, i)
    ensures InspectedBefore(sealed, t, k)
  {
    hide Inspection;
    var j: nat, r: Reading :| InspectionAt(sealed, t, j, r) && j + |Inspection(r)| <= i;
    assert j + |Inspection(r)| <= k;
  }

  /** Reading on keeps a trace guarded. */
  lemma GuardedByReads(c: Contract, sealed: Json, t: seq<Event>, seen: seq<Event>)
    requires Guarded(c, sealed, t) && AllReads(seen)
    ensures Guarded(c, sealed, t + seen)
  {
    hide GuardedAt;
    var u := t + seen;
    forall i: nat | i < |u|
      ensures GuardedAt(c, sealed, u, i)
    {
      if i < |t| {
        GuardedPrefix(c, sealed, t, seen, i);
      } else {
        assert IsRead(u[i]);
        ReadIsGuarded(c, sealed, u, i);
      }
    }
  }

  lemma ReadIsGuarded(c: Contract, sealed: Json, t: seq<Event>, i: nat)
    requires i < |t| && IsRead(t[i])
    ensures GuardedAt(c, sealed, t, i)
  {
  }

  lemma GuardedByOne(c: Contract, sealed: Json, t: seq<Event>, e: Event)
    requires Guarded(c, sealed, t) && GuardedAt(c, sealed, t + [e], |t|)
    ensures Guarded(c, sealed, t + [e])
  {
    hide GuardedAt;
    forall i: nat | i < |t| + 1
      ensures GuardedAt(c, sealed, t + [e], i)
    {
      if i < |t| {
        GuardedPrefix(c, sealed, t, [e], i);
      }
    }
  }

  /** Deleting right after the marker was read keeps a trace guarded, as long as nothing was emitted. */
  lemma GuardedByDelete(c: Contract, sealed: Json, t: seq<Event>, urn: Word)
    requires Guarded(c, sealed, t) && Owned(urn) && InspectedBefore(sealed, t, |t|)
    requires MarkerJustRead(c, t, |t|, urn) && NoEmission(t, |t|)
    ensures Guarded(c, sealed, t + [Deleted(urn)])
    ensures InspectedBefore(sealed, t + [Deleted(urn)], |t| + 1) && NoEmission(t + [Deleted(urn)], |t| + 1)
  {
    hide Inspection, Marked, InspectedBefore, Guarded;
    var u := t + [Deleted(urn)];
    InspectedLonger(sealed, t, [Deleted(urn)], |t|);
    assert forall k :: 0 <= k < |t| ==> u[k] == t[k];
    GuardedByOne(c, sealed, t, Deleted(urn));
    InspectedLater(sealed, u, |t|, |u|);
  }

  /** Emitting while the keys were last read absent keeps a trace guarded, and so emitting can go on. */
  lemma GuardedByEmission(c: Contract, sealed: Json, t: seq<Event>, ref: Ref)
    requires Guarded(c, sealed, t) && Owned(ref.urn) && InspectedBefore(sealed, t, |t|) && AbsentSince(t, |t|)
    ensures Guarded(c, sealed, t + [Emitted(ref)])
    ensures InspectedBefore(sealed, t + [Emitted(ref)], |t| + 1) && AbsentSince(t + [Emitted(ref)], |t| + 1)
  {
    hide Inspection, InspectedBefore, Guarded;
    var u := t + [Emitted(ref)];
    InspectedLonger(sealed, t, [Emitted(ref)], |t|);
    assert forall k :: 0 <= k < |t| ==> u[k] == t[k];
    var j: nat :| j + 2 <= |t| && BothAbsentAt(t, j) && forall k :: j + 2 <= k < |t| ==> t[k].Emitted?;
    assert BothAbsentAt(u, j);
    GuardedByOne(c, sealed, t, Emitted(ref));
    InspectedLater(sealed, u, |t|, |u|);
  }

  lemma GuardedEmpty(c: Contract, sealed: Json)
    ensures Guarded(c, sealed, [])
  {
  }

  /** A trace of reads holds no emission. */
  lemma ReadsEmitNothing(t: seq<Event>, seen: seq<Event>)
    requires NoEmission(t, |t|) && AllReads(seen)
    ensures NoEmission(t + seen, |t + seen|)
  {
    var u := t + seen;
    forall k | 0 <= k < |u|
      ensures !u[k].Emitted?
    {
      if k >= |t| {
        assert IsRead(seen[k - |t|]);
      }
    }
  }

  /** An inspection that answers the sealed snapshot counts from its end on. */
  lemma InspectedNow(sealed: Json, t: seq<Event>, r: Reading)
    requires r.Valid() && Digest(RawSnapshot(r)) == sealed
    ensures InspectedBefore(sealed, t + Inspection(r), |t + Inspection(r)|)
  {
    hide Inspection, RawSnapshot;
    var u := t + Inspection(r);
    assert u[|t|..|t| + |Inspection(r)|] == Inspection(r);
    assert InspectionAt(sealed, u, |t|, r);
  }

  lemma InspectedOn(sealed: Json, t: seq<Event>, more: seq<Event>)
    requires InspectedBefore(sealed, t, |t|)
    ensures InspectedBefore(sealed, t + more, |t + more|)
  {
    hide InspectedBefore;
    InspectedLonger(sealed, t, more, |t|);
    InspectedLater(sealed, t + more, |t|, |t + more|);
  }
}
