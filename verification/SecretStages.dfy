/** The staging-label machine of one managed secret.

    A secret maps each version to the labels attached to it. The provider moves a label only when
    the caller names the version that holds it, and re-places AWSPREVIOUS by itself whenever
    AWSCURRENT leaves a version. The writer's operations are relations between the labels before
    and after: a step may take effect and still be reported as failed. */
module SecretStages {
  import opened Results

  type Version = string
  type Label = string
  type Labels = map<Version, set<Label>>

  const CURRENT: Label := "AWSCURRENT"
  const PREVIOUS: Label := "AWSPREVIOUS"

  /** A version the writer staged: the AWSCURRENT holder seen just before, and the run's own label. */
  datatype StagedSecret = StagedSecret(arn: string, version: Version, previous: Option<Version>, stageLabel: Label)

  // ---- Labels -------------------------------------------------------------------------------

  ghost predicate Attached(s: Labels, v: Version, l: Label) {
    v in s && l in s[v]
  }

  /** Every label sits on at most one version. */
  ghost predicate Exclusive(s: Labels) {
    forall v, w, l :: Attached(s, v, l) && Attached(s, w, l) ==> v == w
  }

  ghost function Holder(s: Labels, l: Label): (r: Option<Version>)
    ensures r.Some? ==> Attached(s, r.value, l)
    ensures r.None? ==> forall v :: !Attached(s, v, l)
  {
    if v :| Attached(s, v, l) then Some(v) else None
  }

  // ---- The provider -------------------------------------------------------------------------

  /** Take `l` off every version. */
  function Cleared(s: Labels, l: Label): Labels {
    map v | v in s :: s[v] - {l}
  }

  /** Attach `l` to `to` and to no other version; AWSPREVIOUS follows the version AWSCURRENT leaves. */
  function Placed(s: Labels, l: Label, to: Version): Labels
    requires to in s
  {
    map v | v in s ::
      var rest := s[v] - {l} + (if v == to then {l} else {});
      if l == CURRENT && exists w | w in s :: w != to && CURRENT in s[w] then
        if v != to && CURRENT in s[v] then rest + {PREVIOUS} else rest - {PREVIOUS}
      else
        rest
  }

  /** `put-secret-value`: a new version carrying `l`. */
  function Added(s: Labels, v: Version, l: Label): Labels
    requires v !in s
  {
    Placed(s[v := {}], l, v)
  }

  /** `update-secret-version-stage`: refused unless the label is where the caller says it is. */
  function Updated(s: Labels, l: Label, moveTo: Option<Version>, removeFrom: Option<Version>): Option<Labels> {
    if (removeFrom.Some? && !(removeFrom.value in s && l in s[removeFrom.value])) ||
       (removeFrom.None? && exists v | v in s :: l in s[v]) ||
       (moveTo.Some? && moveTo.value !in s) then
      None
    else if moveTo.Some? then
      Some(Placed(s, l, moveTo.value))
    else
      Some(Cleared(s, l))
  }

  // ---- The writer's operations --------------------------------------------------------------

  /** Either nothing moved, or exactly this label update happened. */
  ghost predicate UpdateStep(s: Labels, s': Labels, l: Label, moveTo: Option<Version>, removeFrom: Option<Version>) {
    s' == s || (moveTo != removeFrom && Updated(s, l, moveTo, removeFrom) == Some(s'))
  }

  ghost predicate StageStep(s: Labels, s': Labels, v: Version, l: Label, done: bool) {
    && (s' == s || (Holder(s, l).None? && v !in s && s' == Added(s, v, l)))
    && (done ==> s' != s)
  }

  ghost predicate PromoteStep(s: Labels, s': Labels, st: StagedSecret, done: bool) {
    && UpdateStep(s, s', CURRENT, Some(st.version), st.previous)
    && (s' != s ==> Holder(s, CURRENT) == st.previous)
    && (done ==> Holder(s, CURRENT) == st.previous && Attached(s', st.version, CURRENT))
  }

  ghost predicate RollbackStep(s: Labels, s': Labels, st: StagedSecret, done: bool) {
    && UpdateStep(s, s', CURRENT, st.previous, Some(st.version))
    && (s' != s ==> Holder(s, CURRENT) == Some(st.version) != st.previous)
    && (done ==> Holder(s', CURRENT) == st.previous)
  }

  ghost predicate DropStep(s: Labels, s': Labels, st: StagedSecret, done: bool) {
    && UpdateStep(s, s', st.stageLabel, None, Some(st.version))
    && (done ==> !Attached(s', st.version, st.stageLabel))
  }

  // ---- Exclusivity over every run -----------------------------------------------------------

  lemma PlacedIsExclusive(s: Labels, l: Label, to: Version)
    requires Exclusive(s) && to in s
    ensures Exclusive(Placed(s, l, to))
  {
    var t := Placed(s, l, to);
    forall v, w, m | Attached(t, v, m) && Attached(t, w, m)
      ensures v == w
    {
      if m == PREVIOUS && l == CURRENT && exists x | x in s :: x != to && CURRENT in s[x] {
        assert Attached(s, v, CURRENT) && Attached(s, w, CURRENT);
      } else if m != l {
        assert Attached(s, v, m) && Attached(s, w, m);
      }
    }
  }

  /** Moving AWSCURRENT touches, on each version, only AWSCURRENT and AWSPREVIOUS. */
  lemma PlacedCurrent(s: Labels, to: Version, v: Version)
    requires to in s && v in s
    ensures Placed(s, CURRENT, to)[v] - {PREVIOUS} == s[v] - {PREVIOUS} - {CURRENT}
            + (if v == to then {CURRENT} else {})
  {
  }

  lemma UpdateKeepsExclusive(s: Labels, s': Labels, l: Label, moveTo: Option<Version>, removeFrom: Option<Version>)
    requires Exclusive(s) && UpdateStep(s, s', l, moveTo, removeFrom)
    ensures Exclusive(s')
  {
    if s' != s {
      if moveTo.Some? {
        PlacedIsExclusive(s, l, moveTo.value);
      } else {
        forall v, w, m | Attached(s', v, m) && Attached(s', w, m)
          ensures v == w
        {
          assert Attached(s, v, m) && Attached(s, w, m);
        }
      }
    }
  }

  lemma AddedIsExclusive(s: Labels, v: Version, l: Label)
    requires Exclusive(s) && v !in s
    ensures Exclusive(Added(s, v, l))
  {
    var t := s[v := {}];
    forall x, y, m | Attached(t, x, m) && Attached(t, y, m)
      ensures x == y
    {
      assert Attached(s, x, m) && Attached(s, y, m);
    }
    PlacedIsExclusive(t, l, v);
  }

  /** One call of any of the writer's operations, completed or not. A new version may also be put
      straight under AWSCURRENT (the revoked marker). */
  datatype Call =
    | Stage(v: Version, l: Label)
    | PutCurrent(v: Version)
    | Promote(st: StagedSecret)
    | Rollback(st: StagedSecret)
    | Drop(st: StagedSecret)

  ghost predicate CallStep(s: Labels, s': Labels, c: Call, done: bool) {
    match c
    case Stage(v, l) => StageStep(s, s', v, l, done)
    case PutCurrent(v) => s' == s || (v !in s && s' == Added(s, v, CURRENT))
    case Promote(st) => PromoteStep(s, s', st, done)
    case Rollback(st) => RollbackStep(s, s', st, done)
    case Drop(st) => DropStep(s, s', st, done)
  }

  ghost predicate Run(states: seq<Labels>, calls: seq<(Call, bool)>) {
    && |states| == |calls| + 1
    && forall i :: 0 <= i < |calls| ==> CallStep(states[i], states[i + 1], calls[i].0, calls[i].1)
  }

  /** No run of writer operations, whatever fails in it, ever puts one label on two versions; in
      particular AWSCURRENT has at most one holder in every reachable state. */
  lemma {:induction false} EveryRunStaysExclusive(states: seq<Labels>, calls: seq<(Call, bool)>, n: nat)
    requires Run(states, calls) && Exclusive(states[0]) && n < |states|
    ensures Exclusive(states[n])
    ensures forall v, w :: Attached(states[n], v, CURRENT) && Attached(states[n], w, CURRENT) ==> v == w
    decreases n
  {
    if n > 0 {
      EveryRunStaysExclusive(states, calls, n - 1);
      var s, s' := states[n - 1], states[n];
      var (c, done) := calls[n - 1];
      assert CallStep(s, s', c, done);
      match c {
        case Stage(v, l) => if s' != s { AddedIsExclusive(s, v, l); }
        case PutCurrent(v) => if s' != s { AddedIsExclusive(s, v, CURRENT); }
        case Promote(st) => UpdateKeepsExclusive(s, s', CURRENT, Some(st.version), st.previous);
        case Rollback(st) => UpdateKeepsExclusive(s, s', CURRENT, st.previous, Some(st.version));
        case Drop(st) => UpdateKeepsExclusive(s, s', st.stageLabel, None, Some(st.version));
      }
    }
  }

  // ---- Undo and repeat ----------------------------------------------------------------------

  /** The labels of the provider's own bookkeeping aside, `t` attaches what `s` attaches. */
  ghost predicate SameButPrevious(s: Labels, t: Labels) {
    && s.Keys == t.Keys
    && forall v :: v in s ==> s[v] - {PREVIOUS} == t[v] - {PREVIOUS}
  }

  /** Taking AWSCURRENT off a version and giving it back to its holder changes nothing else there. */
  lemma GivenBack(s: set<Label>, t: set<Label>, holder: bool)
    requires CURRENT in s <==> holder
    requires t - {PREVIOUS} == s - {PREVIOUS} - {CURRENT} + (if holder then {CURRENT} else {})
    ensures t - {PREVIOUS} == s - {PREVIOUS}
  {
  }

  lemma RolledBackAt(s: Labels, s': Labels, st: StagedSecret, v: Version)
    requires v in s && Updated(s, CURRENT, st.previous, Some(st.version)) == Some(s')
    ensures v in s'
    ensures s'[v] - {PREVIOUS} == s[v] - {PREVIOUS} - {CURRENT} + (if st.previous == Some(v) then {CURRENT} else {})
  {
    if st.previous.Some? {
      PlacedCurrent(s, st.previous.value, v);
    }
  }

  lemma PromotedAt(s: Labels, s': Labels, st: StagedSecret, v: Version)
    requires v in s && Updated(s, CURRENT, Some(st.version), st.previous) == Some(s')
    ensures v in s'
    ensures s'[v] - {PREVIOUS} == s[v] - {PREVIOUS} - {CURRENT} + (if v == st.version then {CURRENT} else {})
  {
    PlacedCurrent(s, st.version, v);
  }

  lemma UndoneAt(s: Labels, s1: Labels, s2: Labels, st: StagedSecret, v: Version)
    requires Exclusive(s) && v in s && Some(st.version) != st.previous && Holder(s, CURRENT) == st.previous
    requires Updated(s, CURRENT, Some(st.version), st.previous) == Some(s1)
    requires Updated(s1, CURRENT, st.previous, Some(st.version)) == Some(s2)
    ensures v in s2 && s[v] - {PREVIOUS} == s2[v] - {PREVIOUS}
  {
    PromotedAt(s, s1, st, v);
    RolledBackAt(s1, s2, st, v);
    hide Updated;
    assert Attached(s, v, CURRENT) <==> st.previous == Some(v);
    hide Holder, Exclusive;
    GivenBack(s[v], s2[v], st.previous == Some(v));
  }

  lemma PromotedHolder(s: Labels, s1: Labels, st: StagedSecret)
    requires Exclusive(s) && Some(st.version) != st.previous
             && Updated(s, CURRENT, Some(st.version), st.previous) == Some(s1)
    ensures Exclusive(s1) && Holder(s1, CURRENT) == Some(st.version)
  {
    UpdateKeepsExclusive(s, s1, CURRENT, Some(st.version), st.previous);
    assert Attached(s1, st.version, CURRENT);
  }

  /** Where AWSPREVIOUS sits once `s` came from `pre` by moving AWSCURRENT to the staged version, or there and
      back: a move away from a holder takes it along, a move back leaves it on the staged version. */
  ghost predicate PreviousPlaced(pre: Labels, s: Labels, st: StagedSecret) {
    if Attached(s, st.version, CURRENT) then
      Holder(s, PREVIOUS) == if st.previous.Some? then st.previous else Holder(pre, PREVIOUS)
    else
      || Holder(s, PREVIOUS) == Holder(pre, PREVIOUS)
      || (st.previous.Some? && Holder(s, PREVIOUS) == Some(st.version))
  }

  lemma HolderIs(s: Labels, l: Label, v: Version)
    requires Exclusive(s) && Attached(s, v, l)
    ensures Holder(s, l) == Some(v)
  {
  }

  lemma SameHolder(s: Labels, t: Labels, l: Label)
    requires Exclusive(s) && Exclusive(t) && forall v :: Attached(t, v, l) <==> Attached(s, v, l)
    ensures Holder(t, l) == Holder(s, l)
  {
  }

  /** AWSCURRENT moving from one version to another takes AWSPREVIOUS to the version it leaves. */
  lemma MoveLeavesPrevious(s: Labels, s': Labels, from: Version, to: Version)
    requires Exclusive(s) && from != to && Updated(s, CURRENT, Some(to), Some(from)) == Some(s')
    ensures Exclusive(s') && Holder(s', PREVIOUS) == Some(from) && Holder(s', CURRENT) == Some(to)
  {
    PlacedIsExclusive(s, CURRENT, to);
    assert Attached(s, from, CURRENT);
    assert Attached(s', from, PREVIOUS) && Attached(s', to, CURRENT);
  }

  /** AWSCURRENT appearing where it was nowhere, or going away, leaves AWSPREVIOUS alone. */
  lemma LoneMoveKeepsPrevious(s: Labels, s': Labels, moveTo: Option<Version>, removeFrom: Option<Version>)
    requires Exclusive(s) && moveTo != removeFrom && (moveTo.None? || removeFrom.None?)
    requires Updated(s, CURRENT, moveTo, removeFrom) == Some(s')
    ensures Exclusive(s') && Holder(s', PREVIOUS) == Holder(s, PREVIOUS) && Holder(s', CURRENT) == moveTo
  {
    UpdateKeepsExclusive(s, s', CURRENT, moveTo, removeFrom);
    SameHolder(s, s', PREVIOUS);
    if moveTo.Some? {
      assert Attached(s', moveTo.value, CURRENT);
    }
  }

  lemma PromotionPlaces(pre: Labels, s: Labels, s': Labels, st: StagedSecret, done: bool)
    requires Exclusive(s) && PreviousPlaced(pre, s, st) && PromoteStep(s, s', st, done)
    ensures PreviousPlaced(pre, s', st)
    ensures s' != s ==> Holder(s', PREVIOUS) == if st.previous.Some? then st.previous else Holder(s, PREVIOUS)
  {
    hide Updated;
    if s' != s {
      if st.previous.Some? {
        MoveLeavesPrevious(s, s', st.previous.value, st.version);
      } else {
        LoneMoveKeepsPrevious(s, s', Some(st.version), None);
      }
      PlacedWhenCurrent(pre, s', st);
    }
  }

  lemma PlacedWhenCurrent(pre: Labels, s: Labels, st: StagedSecret)
    requires Holder(s, CURRENT) == Some(st.version)
    requires Holder(s, PREVIOUS) == if st.previous.Some? then st.previous else Holder(pre, PREVIOUS)
    ensures PreviousPlaced(pre, s, st)
  {
  }

  lemma RollbackPlaces(pre: Labels, s: Labels, s': Labels, st: StagedSecret, done: bool)
    requires Exclusive(s) && PreviousPlaced(pre, s, st) && RollbackStep(s, s', st, done)
    ensures PreviousPlaced(pre, s', st)
    ensures s' != s ==> Holder(s', CURRENT) == st.previous
    ensures s' != s ==> Holder(s', PREVIOUS) == if st.previous.Some? then Some(st.version) else Holder(s, PREVIOUS)
  {
    hide Updated;
    if s' != s {
      if st.previous.Some? {
        MoveLeavesPrevious(s, s', st.version, st.previous.value);
      } else {
        LoneMoveKeepsPrevious(s, s', None, Some(st.version));
      }
    }
  }

  /** A completed rollback undoes a promotion, whether or not the promotion was acknowledged: AWSCURRENT is back,
      every label but AWSPREVIOUS is where it was, and AWSPREVIOUS has moved exactly if the promotion took effect
      and took AWSCURRENT from a version; it is then on the staged version. */
  lemma RollbackUndoesPromote(s: Labels, s1: Labels, s2: Labels, st: StagedSecret, promoted: bool)
    requires Exclusive(s) && st.version in s && Some(st.version) != st.previous
    requires Holder(s, CURRENT) == st.previous
    requires PromoteStep(s, s1, st, promoted) && RollbackStep(s1, s2, st, true)
    ensures Holder(s2, CURRENT) == st.previous
    ensures SameButPrevious(s, s2)
    ensures Holder(s2, PREVIOUS) == if s1 != s && st.previous.Some? then Some(st.version) else Holder(s, PREVIOUS)
  {
    hide Updated, Exclusive, Holder, Attached;
    if s1 != s {
      PromotedHolder(s, s1, st);
      UpdateKeepsVersions(s, s1, CURRENT, Some(st.version), st.previous);
      UpdateKeepsVersions(s1, s2, CURRENT, st.previous, Some(st.version));
      forall v | v in s
        ensures s[v] - {PREVIOUS} == s2[v] - {PREVIOUS}
      {
        UndoneAt(s, s1, s2, st, v);
      }
      UnpromotedIsPlaced(s, st);
      PromotionPlaces(s, s, s1, st, promoted);
      RollbackPlaces(s, s1, s2, st, true);
    }
  }

  lemma UnpromotedIsPlaced(s: Labels, st: StagedSecret)
    requires Exclusive(s) && Holder(s, CURRENT) == st.previous && Some(st.version) != st.previous
    ensures PreviousPlaced(s, s, st)
  {
  }

  /** Rollback, then rollback again, is one rollback: whatever the first was told, at most one move takes effect. */
  lemma RollbacksCompose(s: Labels, s1: Labels, s2: Labels, st: StagedSecret, told: bool, done: bool)
    requires Exclusive(s) && RollbackStep(s, s1, st, told) && RollbackStep(s1, s2, st, done)
    ensures RollbackStep(s, s2, st, done)
  {
    hide Updated;
    if s1 != s {
      if st.previous.Some? {
        MoveLeavesPrevious(s, s1, st.version, st.previous.value);
      } else {
        LoneMoveKeepsPrevious(s, s1, None, Some(st.version));
      }
    }
  }

  /** Rollback attempts in a row; each may have taken effect or not, and only the last is known complete. */
  ghost predicate RollbackAttempts(states: seq<Labels>, st: StagedSecret) {
    && |states| > 1
    && (forall i :: 0 <= i < |states| - 1 ==> RollbackStep(states[i], states[i + 1], st, i == |states| - 2))
  }

  lemma {:induction false} AttemptsCompose(states: seq<Labels>, st: StagedSecret)
    requires RollbackAttempts(states, st) && Exclusive(states[0])
    ensures RollbackStep(states[0], states[|states| - 1], st, true)
    decreases |states|
  {
    assert RollbackStep(states[0], states[1], st, |states| == 2);
    if |states| > 2 {
      var rest := states[1..];
      assert forall i :: 0 <= i < |rest| - 1 ==> RollbackStep(rest[i], rest[i + 1], st, i == |rest| - 2);
      UpdateKeepsExclusive(states[0], states[1], CURRENT, st.previous, Some(st.version));
      AttemptsCompose(rest, st);
      RollbacksCompose(states[0], states[1], states[|states| - 1], st, false, true);
    }
  }

  /** The same holds when the rollback itself lost its acknowledgement, any number of times, before it completes. */
  lemma RetriedRollbackUndoesPromote(s: Labels, states: seq<Labels>, st: StagedSecret, promoted: bool)
    requires Exclusive(s) && st.version in s && Some(st.version) != st.previous
    requires Holder(s, CURRENT) == st.previous
    requires RollbackAttempts(states, st) && PromoteStep(s, states[0], st, promoted)
    ensures var end := states[|states| - 1];
            && Holder(end, CURRENT) == st.previous && SameButPrevious(s, end)
            && Holder(end, PREVIOUS)
               == if states[0] != s && st.previous.Some? then Some(st.version) else Holder(s, PREVIOUS)
  {
    hide Updated, Holder, Attached, SameButPrevious;
    UpdateKeepsExclusive(s, states[0], CURRENT, Some(st.version), st.previous);
    AttemptsCompose(states, st);
    RollbackUndoesPromote(s, states[0], states[|states| - 1], st, promoted);
  }

  lemma UpdateKeepsVersions(s: Labels, s': Labels, l: Label, moveTo: Option<Version>, removeFrom: Option<Version>)
    requires Updated(s, l, moveTo, removeFrom) == Some(s')
    ensures s'.Keys == s.Keys
  {
  }

  lemma RollbackIsIdempotent(s: Labels, s1: Labels, s2: Labels, st: StagedSecret, done: bool)
    requires RollbackStep(s, s1, st, true) && RollbackStep(s1, s2, st, done)
    ensures s2 == s1
  {
  }

  lemma DropIsIdempotent(s: Labels, s1: Labels, s2: Labels, st: StagedSecret, done: bool)
    requires DropStep(s, s1, st, true) && DropStep(s1, s2, st, done)
    ensures s2 == s1
  {
    assert !Attached(s1, st.version, st.stageLabel);
  }

  /** Dropping a run's label moves nothing else, whether or not it completes. */
  lemma DropKeepsOtherLabels(s: Labels, s': Labels, st: StagedSecret, done: bool, l: Label)
    requires Exclusive(s) && DropStep(s, s', st, done) && l != st.stageLabel
    ensures Holder(s', l) == Holder(s, l)
  {
    UpdateKeepsExclusive(s, s', st.stageLabel, None, Some(st.version));
    assert forall v :: Attached(s', v, l) <==> Attached(s, v, l);
  }

  // ---- The states one commit can leave a secret in ------------------------------------------

  /** `s` is the entry state `pre` plus the staged version, with AWSCURRENT on the staged version
      or where it was, and the run's label on the staged version or gone. */
  ghost predicate Rotated(pre: Labels, s: Labels, st: StagedSecret) {
    && Exclusive(pre) && Exclusive(s)
    && st.version !in pre && s.Keys == pre.Keys + {st.version}
    && st.previous == Holder(pre, CURRENT)
    && st.stageLabel != CURRENT && st.stageLabel != PREVIOUS && Holder(pre, st.stageLabel).None?
    && s[st.version] - {PREVIOUS} <= {CURRENT, st.stageLabel}
    && forall v :: v in pre ==>
         s[v] - {PREVIOUS} == pre[v] - {PREVIOUS} - (if CURRENT in s[st.version] then {CURRENT} else {})
  }

  lemma RotatedHolders(pre: Labels, s: Labels, st: StagedSecret)
    requires Rotated(pre, s, st)
    ensures Holder(s, CURRENT) == if CURRENT in s[st.version] then Some(st.version) else st.previous
    ensures Holder(s, st.stageLabel) == if st.stageLabel in s[st.version] then Some(st.version) else None
    ensures CURRENT !in s[st.version] && st.stageLabel !in s[st.version] ==> SameButPrevious(pre[st.version := {}], s)
  {
    forall v | v in pre
      ensures Attached(s, v, CURRENT) <==> Attached(pre, v, CURRENT) && CURRENT !in s[st.version]
      ensures !Attached(s, v, st.stageLabel)
    {
      assert !Attached(pre, v, st.stageLabel);
      assert CURRENT in s[v] - {PREVIOUS} <==> CURRENT in s[v];
      assert CURRENT in pre[v] - {PREVIOUS} <==> CURRENT in pre[v];
      assert st.stageLabel in s[v] - {PREVIOUS} <==> st.stageLabel in s[v];
    }
    assert Attached(s, st.version, CURRENT) <==> CURRENT in s[st.version];
    assert Attached(s, st.version, st.stageLabel) <==> st.stageLabel in s[st.version];
  }

  lemma StagingRotates(pre: Labels, s: Labels, st: StagedSecret)
    requires Exclusive(pre) && StageStep(pre, s, st.version, st.stageLabel, true)
    requires st.previous == Holder(pre, CURRENT) && st.stageLabel != CURRENT && st.stageLabel != PREVIOUS
    ensures Rotated(pre, s, st) && CURRENT !in s[st.version] && st.stageLabel in s[st.version]
  {
    AddedIsExclusive(pre, st.version, st.stageLabel);
    assert forall v :: v in pre ==> !Attached(pre, v, st.stageLabel);
  }

  lemma PromotionRotates(pre: Labels, s: Labels, s': Labels, st: StagedSecret, done: bool)
    requires Rotated(pre, s, st) && PromoteStep(s, s', st, done)
    ensures Rotated(pre, s', st) && (done ==> CURRENT in s'[st.version])
    ensures st.stageLabel in s'[st.version] <==> st.stageLabel in s[st.version]
  {
    UpdateKeepsExclusive(s, s', CURRENT, Some(st.version), st.previous);
    RotatedHolders(pre, s, st);
    if s' != s {
      assert CURRENT !in s[st.version];
      forall v | v in pre
        ensures s'[v] - {PREVIOUS} == pre[v] - {PREVIOUS} - {CURRENT}
      {
        PromotedAt(s, s', st, v);
        assert s[v] - {PREVIOUS} == pre[v] - {PREVIOUS};
      }
    }
  }

  lemma RollbackRotates(pre: Labels, s: Labels, s': Labels, st: StagedSecret, done: bool)
    requires Rotated(pre, s, st) && RollbackStep(s, s', st, done)
    ensures Rotated(pre, s', st) && (done ==> CURRENT !in s'[st.version])
    ensures st.stageLabel in s'[st.version] <==> st.stageLabel in s[st.version]
  {
    UpdateKeepsExclusive(s, s', CURRENT, st.previous, Some(st.version));
    RotatedHolders(pre, s, st);
    if s' != s {
      assert CURRENT in s[st.version];
      forall v | v in pre
        ensures s'[v] - {PREVIOUS} == pre[v] - {PREVIOUS}
      {
        RolledBackAt(s, s', st, v);
        assert Attached(pre, v, CURRENT) <==> st.previous == Some(v);
        GivenBack(pre[v], s'[v], st.previous == Some(v));
      }
    }
    assert Attached(s', st.version, CURRENT) <==> CURRENT in s'[st.version];
    assert st.previous != Some(st.version);
  }

  lemma DropRotates(pre: Labels, s: Labels, s': Labels, st: StagedSecret, done: bool)
    requires Rotated(pre, s, st) && DropStep(s, s', st, done)
    ensures Rotated(pre, s', st) && (done ==> st.stageLabel !in s'[st.version])
    ensures st.stageLabel !in s[st.version] ==> st.stageLabel !in s'[st.version]
    ensures CURRENT in s'[st.version] <==> CURRENT in s[st.version]
  {
    UpdateKeepsExclusive(s, s', st.stageLabel, None, Some(st.version));
    RotatedHolders(pre, s, st);
    assert done ==> !Attached(s', st.version, st.stageLabel);
    if s' != s {
      forall v | v in pre
        ensures s'[v] - {PREVIOUS} == s[v] - {PREVIOUS}
      {
        assert !Attached(s, v, st.stageLabel);
      }
    }
  }

  /** Staging and dropping move neither of the provider's own labels, so they keep AWSPREVIOUS placed. */
  lemma StagingPlaces(pre: Labels, s: Labels, st: StagedSecret)
    requires Exclusive(pre) && StageStep(pre, s, st.version, st.stageLabel, true)
    requires st.stageLabel != CURRENT && st.stageLabel != PREVIOUS
    ensures PreviousPlaced(pre, s, st)
  {
    AddedIsExclusive(pre, st.version, st.stageLabel);
    assert s[st.version] == {st.stageLabel};
    assert forall v :: v in pre ==> !Attached(pre, v, st.stageLabel);
    SameHolder(pre, s, PREVIOUS);
  }

  lemma DropPlaces(pre: Labels, s: Labels, s': Labels, st: StagedSecret, done: bool)
    requires Exclusive(s) && PreviousPlaced(pre, s, st) && DropStep(s, s', st, done)
    requires st.stageLabel != CURRENT && st.stageLabel != PREVIOUS
    ensures PreviousPlaced(pre, s', st)
  {
    DropKeepsOtherLabels(s, s', st, done, PREVIOUS);
    assert Attached(s', st.version, CURRENT) <==> Attached(s, st.version, CURRENT);
  }
}
