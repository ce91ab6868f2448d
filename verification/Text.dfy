/** Text as a sequence of code points (or of UTF-16 code units), its order, and sorting by key. */
module Text {

  type Code = c: int | 0 <= c < 0x11_0000
  type Text = seq<Code>

  /** The codes of a literal. */
  function T(s: string): (t: Text)
    ensures |t| == |s|
  {
    seq(|s|, i requires 0 <= i < |s| => s[i] as int)
  }

  predicate IsDigitCode(c: Code) {
    '0' as int <= c <= '9' as int
  }

  predicate IsLowerHex(c: Code) {
    IsDigitCode(c) || 'a' as int <= c <= 'f' as int
  }

  /** Strictly before, code by code; a proper prefix comes first. */
  predicate Precedes(a: Text, b: Text) {
    if b == [] then false
    else if a == [] then true
    else if a[0] != b[0] then a[0] < b[0]
    else Precedes(a[1..], b[1..])
  }

  lemma {:induction false} PrecedesTotal(a: Text, b: Text)
    ensures !Precedes(a, a)
    ensures Precedes(a, b) ==> !Precedes(b, a) && a != b
    ensures Precedes(a, b) || Precedes(b, a) || a == b
  {
    if a != [] {
      PrecedesTotal(a[1..], a[1..]);
      if b != [] && a[0] == b[0] {
        PrecedesTotal(a[1..], b[1..]);
        assert a == [a[0]] + a[1..] && b == [b[0]] + b[1..];
      }
    }
  }

  lemma {:induction false} PrecedesTransitive(a: Text, b: Text, c: Text)
    requires Precedes(a, b) && Precedes(b, c)
    ensures Precedes(a, c)
  {
    if a != [] && a[0] == b[0] == c[0] {
      PrecedesTransitive(a[1..], b[1..], c[1..]);
    }
  }

  // ---- Sorting entries by key ---------------------------------------------------------------

  function Insert<V>(p: (Text, V), ps: seq<(Text, V)>): seq<(Text, V)> {
    if ps == [] then [p]
    else if Precedes(ps[0].0, p.0) then [ps[0]] + Insert(p, ps[1..])
    else [p] + ps
  }

  /** The entries in key order, entries with equal keys in their original order. */
  function Sort<V>(ps: seq<(Text, V)>): seq<(Text, V)> {
    if ps == [] then [] else Insert(ps[0], Sort(ps[1..]))
  }

  ghost predicate DistinctKeys<V>(ps: seq<(Text, V)>) {
    forall i, j :: 0 <= i < j < |ps| ==> ps[i].0 != ps[j].0
  }

  ghost predicate Ascending<V>(ps: seq<(Text, V)>) {
    forall i, j :: 0 <= i < j < |ps| ==> Precedes(ps[i].0, ps[j].0)
  }

  lemma {:induction false} InsertMembers<V>(p: (Text, V), ps: seq<(Text, V)>)
    ensures |Insert(p, ps)| == |ps| + 1
    ensures forall q: (Text, V) :: q in Insert(p, ps) <==> q == p || q in ps
  {
    if ps != [] && Precedes(ps[0].0, p.0) {
      InsertMembers(p, ps[1..]);
      assert ps == [ps[0]] + ps[1..];
    }
  }

  lemma FirstPrecedes<V>(p: (Text, V), ps: seq<(Text, V)>, q: (Text, V))
    requires Ascending(ps) && ps != [] && Precedes(ps[0].0, p.0)
    requires q in Insert(p, ps[1..])
    ensures Precedes(ps[0].0, q.0)
  {
    InsertMembers(p, ps[1..]);
    if q != p {
      var k :| 0 <= k < |ps[1..]| && ps[1..][k] == q;
      assert ps[k + 1] == q;
    }
  }

  lemma {:induction false} InsertAscends<V>(p: (Text, V), ps: seq<(Text, V)>)
    requires Ascending(ps) && forall q: (Text, V) :: q in ps ==> q.0 != p.0
    ensures Ascending(Insert(p, ps))
  {
    if ps != [] {
      PrecedesTotal(ps[0].0, p.0);
      assert ps[0] in ps;
      if Precedes(ps[0].0, p.0) {
        assert forall q: (Text, V) :: q in ps[1..] ==> q in ps;
        InsertAscends(p, ps[1..]);
        InsertMembers(p, ps[1..]);
        var r := Insert(p, ps[1..]);
        forall i | 0 <= i < |r|
          ensures Precedes(ps[0].0, r[i].0)
        {
          FirstPrecedes(p, ps, r[i]);
        }
      } else {
        forall i | 0 <= i < |ps|
          ensures Precedes(p.0, ps[i].0)
        {
          if i > 0 {
            PrecedesTransitive(p.0, ps[0].0, ps[i].0);
          }
        }
      }
    }
  }

  lemma {:induction false} SortMembers<V>(ps: seq<(Text, V)>)
    ensures |Sort(ps)| == |ps|
    ensures forall q: (Text, V) :: q in Sort(ps) <==> q in ps
  {
    if ps != [] {
      SortMembers(ps[1..]);
      InsertMembers(ps[0], Sort(ps[1..]));
      assert ps == [ps[0]] + ps[1..];
    }
  }

  lemma SortHas<V>(ps: seq<(Text, V)>, q: (Text, V))
    ensures q in Sort(ps) <==> q in ps
  {
    SortMembers(ps);
  }

  lemma SortedAfterFirst<V>(ps: seq<(Text, V)>, q: (Text, V))
    requires DistinctKeys(ps) && ps != [] && q in Sort(ps[1..])
    ensures q.0 != ps[0].0
  {
    SortMembers(ps[1..]);
    var k :| 0 <= k < |ps[1..]| && ps[1..][k] == q;
    assert ps[k + 1] == q;
  }

  lemma {:induction false} SortAscends<V>(ps: seq<(Text, V)>)
    requires DistinctKeys(ps)
    ensures Ascending(Sort(ps))
  {
    if ps != [] {
      SortAscends(ps[1..]);
      SortMembers(ps[1..]);
      forall q: (Text, V) | q in Sort(ps[1..])
        ensures q.0 != ps[0].0
      {
        SortedAfterFirst(ps, q);
      }
      InsertAscends(ps[0], Sort(ps[1..]));
    }
  }

  lemma AscendingIsDistinct<V>(ps: seq<(Text, V)>)
    requires Ascending(ps)
    ensures DistinctKeys(ps)
  {
    forall i, j | 0 <= i < j < |ps|
      ensures ps[i].0 != ps[j].0
    {
      PrecedesTotal(ps[i].0, ps[j].0);
    }
  }

  /** Ascending entries are determined by which entries there are. */
  lemma {:induction false} AscendingUnique<V>(ps: seq<(Text, V)>, qs: seq<(Text, V)>)
    requires Ascending(ps) && Ascending(qs)
    requires forall p: (Text, V) :: p in ps <==> p in qs
    ensures ps == qs
  {
    assert (ps == [] || ps[0] in ps) && (qs == [] || qs[0] in qs);
    if ps != [] {
      var i :| 0 <= i < |qs| && qs[i] == ps[0];
      var j :| 0 <= j < |ps| && ps[j] == qs[0];
      PrecedesTotal(ps[0].0, qs[0].0);
      assert ps[0] == qs[0];
      forall p: (Text, V)
        ensures p in ps[1..] <==> p in qs[1..]
      {
        PrecedesTotal(ps[0].0, ps[0].0);
        RestLacksFirst(ps, p);
        RestLacksFirst(qs, p);
      }
      AscendingUnique(ps[1..], qs[1..]);
      assert ps == [ps[0]] + ps[1..] && qs == [qs[0]] + qs[1..];
    }
  }

  lemma RestLacksFirst<V>(ps: seq<(Text, V)>, p: (Text, V))
    requires Ascending(ps) && ps != []
    ensures p in ps[1..] <==> p in ps && p != ps[0]
  {
    assert ps == [ps[0]] + ps[1..];
    if p in ps[1..] {
      var k :| 0 <= k < |ps[1..]| && ps[1..][k] == p;
      assert ps[k + 1] == p;
      PrecedesTotal(ps[0].0, ps[k + 1].0);
    }
  }

  /** Sorting forgets the order it is given. */
  lemma SortForgetsOrder<V>(ps: seq<(Text, V)>, qs: seq<(Text, V)>)
    requires DistinctKeys(ps) && DistinctKeys(qs)
    requires forall p: (Text, V) :: p in ps <==> p in qs
    ensures Sort(ps) == Sort(qs)
  {
    SortAscends(ps);
    SortAscends(qs);
    SortMembers(ps);
    SortMembers(qs);
    AscendingUnique(Sort(ps), Sort(qs));
  }

  lemma SortFixesAscending<V>(ps: seq<(Text, V)>)
    requires Ascending(ps)
    ensures Sort(ps) == ps
  {
    AscendingIsDistinct(ps);
    SortAscends(ps);
    SortMembers(ps);
    AscendingUnique(Sort(ps), ps);
  }
}
