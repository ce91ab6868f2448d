/** Canonical JSON: keys sorted by code unit (section 3.2.3 of RFC 8785), no spaces, negative zero
    printed as zero; and the check that a text is the canonical text of what it parses to. */
module CanonicalJson {
  import opened Results
  import opened Text
  import opened JsonLexis

  datatype Json =
    | Null
    | Bool(b: bool)
    | Num(n: Number)
    | Str(s: Text)
    | Arr(items: seq<Json>)
    | Obj(members: seq<(Text, Json)>)

  // ---- Printing -----------------------------------------------------------------------------

  lemma SortedAreMembers<V>(ps: seq<(Text, V)>)
    ensures forall i :: 0 <= i < |Sort(ps)| ==> Sort(ps)[i] in ps
  {
    forall i | 0 <= i < |Sort(ps)|
      ensures Sort(ps)[i] in ps
    {
      SortHas(ps, Sort(ps)[i]);
    }
  }

  predicate AllFinite(v: Json) {
    match v
    case Num(n) => n != NonFinite
    case Arr(items) => forall i | 0 <= i < |items| :: AllFinite(items[i])
    case Obj(members) => forall i | 0 <= i < |members| :: AllFinite(members[i].1)
    case _ => true
  }

  function Print(v: Json): Text
    decreases v
  {
    match v
    case Null => T("null")
    case Bool(b) => if b then T("true") else T("false")
    case Num(n) => if n.Finite? then n.text else T("0")
    case Str(s) => Quote(s)
    case Arr(items) => [OPEN_ARRAY] + PrintItems(items, v) + [CLOSE_ARRAY]
    case Obj(members) =>
      SortedAreMembers(members);
      [OPEN_OBJECT] + PrintMembers(Sort(members), v) + [CLOSE_OBJECT]
  }

  function PrintItems(items: seq<Json>, whole: Json): Text
    requires forall i :: 0 <= i < |items| ==> items[i] < whole
    decreases whole, |items|
  {
    if items == [] then []
    else Print(items[0]) + (if |items| == 1 then [] else [COMMA] + PrintItems(items[1..], whole))
  }

  function PrintMembers(members: seq<(Text, Json)>, whole: Json): Text
    requires forall i :: 0 <= i < |members| ==> members[i].1 < whole
    decreases whole, |members|
  {
    if members == [] then []
    else
      Quote(members[0].0) + [COLON] + Print(members[0].1) +
      (if |members| == 1 then [] else [COMMA] + PrintMembers(members[1..], whole))
  }

  /** The canonical text, or nothing when a number is not finite. */
  function Canonicalize(v: Json): Option<Text> {
    if AllFinite(v) then Some(Print(v)) else None
  }

  // ---- Parsing ------------------------------------------------------------------------------

  predicate IsSpace(c: Code) {
    c == 32 || c == 9 || c == 10 || c == 13
  }

  function SkipSpace(t: Text): (r: Text)
    ensures |r| <= |t|
  {
    if t != [] && IsSpace(t[0]) then SkipSpace(t[1..]) else t
  }

  /** Set a member as JSON.parse does: a repeated key keeps its place and takes the later value. */
  function Put(members: seq<(Text, Json)>, key: Text, v: Json): seq<(Text, Json)> {
    if members == [] then [(key, v)]
    else if members[0].0 == key then [(key, v)] + members[1..]
    else [members[0]] + Put(members[1..], key, v)
  }

  type Parsed<V> = Option<(V, Text)>

  function ParseLiteral(t: Text, literal: Text, v: Json): (r: Parsed<Json>)
    requires |literal| > 0
    ensures r.Some? ==> |r.value.1| < |t|
  {
    if literal <= t then Some((v, t[|literal|..])) else None
  }

  function ParseNumber(t: Text, read: Reader): (r: Parsed<Json>)
    ensures r.Some? ==> |r.value.1| < |t|
  {
    var n := Leading(t, IsNumberCode);
    if n > 0 && IsNumberLiteral(t[..n]) then Some((Num(read(t[..n])), t[n..])) else None
  }

  function ParseValue(t: Text, read: Reader): (r: Parsed<Json>)
    ensures r.Some? ==> |r.value.1| < |t|
    decreases |t|, 2
  {
    var s := SkipSpace(t);
    if s == [] then None
    else if s[0] == QUOTE then
      var r := ParseString(s[1..]);
      if r.None? then None else Some((Str(r.value.0), r.value.1))
    else if s[0] == OPEN_ARRAY then
      var u := SkipSpace(s[1..]);
      if u != [] && u[0] == CLOSE_ARRAY then Some((Arr([]), u[1..])) else ParseItems(s[1..], [], read)
    else if s[0] == OPEN_OBJECT then
      var u := SkipSpace(s[1..]);
      if u != [] && u[0] == CLOSE_OBJECT then Some((Obj([]), u[1..])) else ParseMembers(s[1..], [], read)
    else if s[0] == 'n' as int then ParseLiteral(s, T("null"), Null)
    else if s[0] == 't' as int then ParseLiteral(s, T("true"), Bool(true))
    else if s[0] == 'f' as int then ParseLiteral(s, T("false"), Bool(false))
    else ParseNumber(s, read)
  }

  function ParseItems(t: Text, done: seq<Json>, read: Reader): (r: Parsed<Json>)
    ensures r.Some? ==> |r.value.1| < |t|
    decreases |t|, 3
  {
    var item := ParseValue(t, read);
    if item.None? then None
    else
      var items := done + [item.value.0];
      var u := SkipSpace(item.value.1);
      if u == [] then None
      else if u[0] == COMMA then ParseItems(u[1..], items, read)
      else if u[0] == CLOSE_ARRAY then Some((Arr(items), u[1..]))
      else None
  }

  function ParseMembers(t: Text, done: seq<(Text, Json)>, read: Reader): (r: Parsed<Json>)
    ensures r.Some? ==> |r.value.1| < |t|
    decreases |t|, 3
  {
    var s := SkipSpace(t);
    if s == [] || s[0] != QUOTE then None
    else
      var key := ParseString(s[1..]);
      if key.None? then None
      else
        var colon := SkipSpace(key.value.1);
        if colon == [] || colon[0] != COLON then None
        else
          var v := ParseValue(colon[1..], read);
          if v.None? then None
          else
            var members := Put(done, key.value.0, v.value.0);
            var u := SkipSpace(v.value.1);
            if u == [] then None
            else if u[0] == COMMA then ParseMembers(u[1..], members, read)
            else if u[0] == CLOSE_OBJECT then Some((Obj(members), u[1..]))
            else None
  }

  function Parse(t: Text, read: Reader): Option<Json> {
    var r := ParseValue(t, read);
    if r.Some? && SkipSpace(r.value.1) == [] then Some(r.value.0) else None
  }

  // ---- Values -------------------------------------------------------------------------------

  /** A value JavaScript can hold: object keys are distinct, and every finite number is one that
      the reader reads back from its text. */
  ghost predicate Valid(v: Json, read: Reader) {
    match v
    case Num(n) => n.Finite? ==> IsNumberLiteral(n.text) && read(n.text) == n
    case Arr(items) => forall i | 0 <= i < |items| :: Valid(items[i], read)
    case Obj(members) => DistinctKeys(members) && forall i | 0 <= i < |members| :: Valid(members[i].1, read)
    case _ => true
  }

  /** The same value with keys in order and no negative zero. */
  function Normal(v: Json): Json
    decreases v
  {
    match v
    case Num(n) => if n == NegativeZero then Num(Finite(T("0"))) else v
    case Arr(items) => Arr(NormalItems(items, v))
    case Obj(members) =>
      SortedAreMembers(members);
      Obj(NormalMembers(Sort(members), v))
    case _ => v
  }

  function NormalItems(items: seq<Json>, whole: Json): (r: seq<Json>)
    requires forall i :: 0 <= i < |items| ==> items[i] < whole
    ensures |r| == |items| && forall i :: 0 <= i < |r| ==> r[i] == Normal(items[i])
    decreases whole, |items|
  {
    if items == [] then [] else [Normal(items[0])] + NormalItems(items[1..], whole)
  }

  function NormalMembers(members: seq<(Text, Json)>, whole: Json): (r: seq<(Text, Json)>)
    requires forall i :: 0 <= i < |members| ==> members[i].1 < whole
    ensures |r| == |members| && forall i :: 0 <= i < |r| ==> r[i] == (members[i].0, Normal(members[i].1))
    decreases whole, |members|
  {
    if members == [] then []
    else [(members[0].0, Normal(members[0].1))] + NormalMembers(members[1..], whole)
  }

  // ---- Parsing what was printed -------------------------------------------------------------

  /** `rest` cannot be mistaken for more of a number. */
  ghost predicate Stops(rest: Text) {
    rest == [] || !IsNumberCode(rest[0])
  }

  lemma NumberRoundTrip(n: Number, rest: Text, read: Reader)
    requires n != NonFinite && Valid(Num(n), read) && ReadsBack(read) && Stops(rest)
    ensures ParseValue(Print(Num(n)) + rest, read) == Some((Normal(Num(n)), rest))
    ensures Print(Num(n)) != [] && (Print(Num(n))[0] == MINUS || IsDigitCode(Print(Num(n))[0]))
  {
    hide IsUnsigned, IsNumberCode, ParseString, ParseItems, ParseMembers;
    var p := Print(Num(n));
    var t := p + rest;
    NumberLiteralCodes(p);
    hide IsNumberLiteral;
    LeadingStops(p, rest, IsNumberCode);
    assert t[0] == p[0];
    assert t[..|p|] == p && t[|p|..] == rest;
  }

  lemma LiteralRoundTrip(v: Json, rest: Text, read: Reader)
    requires v.Null? || v.Bool?
    ensures ParseValue(Print(v) + rest, read) == Some((v, rest))
  {
    var p := Print(v);
    var t := p + rest;
    assert t[0] == p[0] && SkipSpace(t) == t;
    assert p <= t && t[|p|..] == rest;
  }

  lemma TextRoundTrip(s: Text, rest: Text, read: Reader)
    ensures ParseValue(Quote(s) + rest, read) == Some((Str(s), rest))
  {
    var t := Quote(s) + rest;
    StringRoundTrip(s, rest);
    assert t[1..] == Escape(s) + [QUOTE] + rest;
  }

  /** No printed value starts with a space or with a closing bracket. */
  lemma PrintStarts(v: Json, read: Reader)
    requires Valid(v, read) && ReadsBack(read) && AllFinite(v)
    ensures Print(v) != [] && !IsSpace(Print(v)[0])
    ensures Print(v)[0] != CLOSE_ARRAY && Print(v)[0] != CLOSE_OBJECT
  {
    if v.Num? {
      NumberRoundTrip(v.n, [], read);
    }
  }

  lemma ArrayRead(t: Text, read: Reader)
    requires |t| > 1 && t[0] == OPEN_ARRAY && !IsSpace(t[1])
    ensures ParseValue(t, read) == if t[1] == CLOSE_ARRAY then Some((Arr([]), t[2..])) else ParseItems(t[1..], [], read)
  {
    assert SkipSpace(t) == t && SkipSpace(t[1..]) == t[1..];
    assert t[1..][1..] == t[2..];
  }

  lemma ObjectRead(t: Text, read: Reader)
    requires |t| > 1 && t[0] == OPEN_OBJECT && !IsSpace(t[1])
    ensures ParseValue(t, read) == if t[1] == CLOSE_OBJECT then Some((Obj([]), t[2..]))
            else ParseMembers(t[1..], [], read)
  {
    assert SkipSpace(t) == t && SkipSpace(t[1..]) == t[1..];
    assert t[1..][1..] == t[2..];
  }

  lemma ItemRead(p: Text, tail: Text, v: Json, done: seq<Json>, read: Reader)
    requires ParseValue(p + tail, read) == Some((v, tail))
    requires tail != [] && (tail[0] == COMMA || tail[0] == CLOSE_ARRAY)
    ensures ParseItems(p + tail, done, read) ==
            if tail[0] == COMMA then ParseItems(tail[1..], done + [v], read)
            else Some((Arr(done + [v]), tail[1..]))
  {
    hide ParseValue;
  }

  lemma KeyRead(key: Text, rest: Text)
    ensures var t := Quote(key) + ([COLON] + rest);
            t[0] == QUOTE && ParseString(t[1..]) == Some((key, [COLON] + rest))
  {
    hide ParseString, Escape;
    var t := Quote(key) + ([COLON] + rest);
    assert t[1..] == Escape(key) + [QUOTE] + ([COLON] + rest);
    StringRoundTrip(key, [COLON] + rest);
  }

  lemma MemberRead(key: Text, p: Text, tail: Text, v: Json, done: seq<(Text, Json)>, read: Reader)
    requires ParseValue(p + tail, read) == Some((v, tail))
    requires tail != [] && (tail[0] == COMMA || tail[0] == CLOSE_OBJECT)
    ensures ParseMembers(Quote(key) + ([COLON] + (p + tail)), done, read) ==
            if tail[0] == COMMA then ParseMembers(tail[1..], Put(done, key, v), read)
            else Some((Obj(Put(done, key, v)), tail[1..]))
  {
    hide ParseValue, ParseString, Quote, Put;
    var t, colon := Quote(key) + ([COLON] + (p + tail)), [COLON] + (p + tail);
    KeyRead(key, p + tail);
    assert SkipSpace(t) == t && SkipSpace(colon) == colon && SkipSpace(tail) == tail;
    assert colon[1..] == p + tail;
  }

  ghost predicate Printable(v: Json, read: Reader) {
    Valid(v, read) && AllFinite(v)
  }

  lemma {:induction false} ValueRoundTrip(v: Json, rest: Text, read: Reader)
    requires Valid(v, read) && ReadsBack(read) && AllFinite(v) && Stops(rest)
    ensures ParseValue(Print(v) + rest, read) == Some((Normal(v), rest))
    decreases v, 1, 0
  {
    match v {
      case Null => LiteralRoundTrip(v, rest, read);
      case Bool(_) => LiteralRoundTrip(v, rest, read);
      case Num(n) => NumberRoundTrip(n, rest, read);
      case Str(s) => TextRoundTrip(s, rest, read);
      case Arr(items) => ArrayRoundTrip(items, rest, read);
      case Obj(members) => ObjectRoundTrip(members, rest, read);
    }
  }

  lemma {:induction false} ArrayRoundTrip(items: seq<Json>, rest: Text, read: Reader)
    requires Valid(Arr(items), read) && ReadsBack(read) && AllFinite(Arr(items))
    ensures ParseValue(Print(Arr(items)) + rest, read) == Some((Normal(Arr(items)), rest))
    decreases Arr(items), 0, |items| + 1
  {
    hide ParseValue, ParseItems, ReadsBack;
    var v := Arr(items);
    var t := Print(v) + rest;
    if items == [] {
      assert t == [OPEN_ARRAY] + [CLOSE_ARRAY] + rest;
      ArrayRead(t, read);
    } else {
      assert t == [OPEN_ARRAY] + (PrintItems(items, v) + [CLOSE_ARRAY] + rest);
      PrintStarts(items[0], read);
      assert t[1] == PrintItems(items, v)[0] == Print(items[0])[0];
      ArrayRead(t, read);
      forall i | 0 <= i < |items|
        ensures Printable(items[i], read)
      {
      }
      ItemsRoundTrip(items, [], v, rest, read);
      assert [] + NormalItems(items, v) == NormalItems(items, v);
      assert t[1..] == PrintItems(items, v) + [CLOSE_ARRAY] + rest;
    }
  }

  lemma Regroup<V>(done: seq<V>, x: V, rest: seq<V>)
    ensures done + [x] + rest == done + ([x] + rest)
  {
  }

  lemma ItemsSplit(items: seq<Json>, whole: Json, rest: Text)
    requires |items| > 0 && forall i :: 0 <= i < |items| ==> items[i] < whole
    ensures PrintItems(items, whole) + [CLOSE_ARRAY] + rest ==
            Print(items[0]) + (if |items| == 1 then [CLOSE_ARRAY] + rest
                               else [COMMA] + (PrintItems(items[1..], whole) + [CLOSE_ARRAY] + rest))
  {
    hide Print;
    var p := Print(items[0]);
    if |items| == 1 {
      assert PrintItems(items, whole) == p;
    } else {
      assert PrintItems(items, whole) == p + ([COMMA] + PrintItems(items[1..], whole));
    }
  }

  lemma {:induction false} ItemsRoundTrip(items: seq<Json>, done: seq<Json>, whole: Json, rest: Text, read: Reader)
    requires |items| > 0 && ReadsBack(read)
    requires forall i :: 0 <= i < |items| ==> items[i] < whole
    requires forall i :: 0 <= i < |items| ==> Printable(items[i], read)
    ensures ParseItems(PrintItems(items, whole) + [CLOSE_ARRAY] + rest, done, read) ==
            Some((Arr(done + NormalItems(items, whole)), rest))
    decreases whole, 0, |items|
  {
    hide ParseValue, ParseItems, Print, PrintItems, Normal, ReadsBack, Valid, AllFinite;
    var more := PrintItems(items[1..], whole) + [CLOSE_ARRAY] + rest;
    var tail := if |items| == 1 then [CLOSE_ARRAY] + rest else [COMMA] + more;
    ItemsSplit(items, whole, rest);
    ValueRoundTrip(items[0], tail, read);
    ItemRead(Print(items[0]), tail, Normal(items[0]), done, read);
    if |items| == 1 {
      assert tail[1..] == rest;
      assert NormalItems(items, whole) == [Normal(items[0])];
    } else {
      assert tail[1..] == more;
      ItemsRoundTrip(items[1..], done + [Normal(items[0])], whole, rest, read);
      Regroup(done, Normal(items[0]), NormalItems(items[1..], whole));
    }
  }

  lemma SortedIsPrintable(members: seq<(Text, Json)>, read: Reader)
    requires Valid(Obj(members), read) && AllFinite(Obj(members))
    ensures DistinctKeys(Sort(members)) && |Sort(members)| == |members|
    ensures forall i :: 0 <= i < |Sort(members)| ==> Sort(members)[i].1 < Obj(members)
    ensures forall i :: 0 <= i < |Sort(members)| ==> Printable(Sort(members)[i].1, read)
  {
    SortAscends(members);
    SortMembers(members);
    AscendingIsDistinct(Sort(members));
    SortedAreMembers(members);
    forall i | 0 <= i < |Sort(members)|
      ensures Sort(members)[i].1 < Obj(members) && Printable(Sort(members)[i].1, read)
    {
      var k :| 0 <= k < |members| && members[k] == Sort(members)[i];
      assert Valid(members[k].1, read) && AllFinite(members[k].1);
    }
  }

  lemma {:induction false} ObjectRoundTrip(members: seq<(Text, Json)>, rest: Text, read: Reader)
    requires Valid(Obj(members), read) && ReadsBack(read) && AllFinite(Obj(members))
    ensures ParseValue(Print(Obj(members)) + rest, read) == Some((Normal(Obj(members)), rest))
    decreases Obj(members), 0, |members| + 1
  {
    hide ParseValue, ParseMembers, ReadsBack, Valid, AllFinite, Sort;
    var v, sorted := Obj(members), Sort(members);
    SortedAreMembers(members);
    SortedIsPrintable(members, read);
    var t := Print(v) + rest;
    if sorted == [] {
      assert t == [OPEN_OBJECT] + [CLOSE_OBJECT] + rest;
      ObjectRead(t, read);
    } else {
      assert t == [OPEN_OBJECT] + (PrintMembers(sorted, v) + [CLOSE_OBJECT] + rest);
      assert t[1] == PrintMembers(sorted, v)[0] == Quote(sorted[0].0)[0] == QUOTE;
      ObjectRead(t, read);
      MembersRoundTrip(sorted, [], v, rest, read);
      assert [] + NormalMembers(sorted, v) == NormalMembers(sorted, v);
      assert t[1..] == PrintMembers(sorted, v) + [CLOSE_OBJECT] + rest;
    }
  }

  lemma MembersSplit(members: seq<(Text, Json)>, whole: Json, rest: Text)
    requires |members| > 0 && forall i :: 0 <= i < |members| ==> members[i].1 < whole
    ensures PrintMembers(members, whole) + [CLOSE_OBJECT] + rest ==
            Quote(members[0].0) + ([COLON] + (Print(members[0].1) +
              (if |members| == 1 then [CLOSE_OBJECT] + rest
               else [COMMA] + (PrintMembers(members[1..], whole) + [CLOSE_OBJECT] + rest))))
  {
    hide Print, Quote;
    var q, p := Quote(members[0].0), Print(members[0].1);
    if |members| == 1 {
      assert PrintMembers(members, whole) == q + ([COLON] + p);
    } else {
      assert PrintMembers(members, whole) == q + ([COLON] + (p + ([COMMA] + PrintMembers(members[1..], whole))));
    }
  }

  lemma {:induction false} MembersRoundTrip(members: seq<(Text, Json)>, done: seq<(Text, Json)>, whole: Json,
                                            rest: Text, read: Reader)
    requires |members| > 0 && ReadsBack(read)
    requires forall i :: 0 <= i < |members| ==> members[i].1 < whole
    requires forall i :: 0 <= i < |members| ==> Printable(members[i].1, read)
    requires DistinctKeys(members) && forall i, j :: 0 <= i < |done| && 0 <= j < |members| ==> done[i].0 != members[j].0
    ensures ParseMembers(PrintMembers(members, whole) + [CLOSE_OBJECT] + rest, done, read) ==
            Some((Obj(done + NormalMembers(members, whole)), rest))
    decreases whole, 0, |members|
  {
    hide ParseValue, ParseMembers, Print, PrintMembers, Normal, ReadsBack, Valid, AllFinite, Put, Quote;
    var key, v := members[0].0, members[0].1;
    var more := PrintMembers(members[1..], whole) + [CLOSE_OBJECT] + rest;
    var tail := if |members| == 1 then [CLOSE_OBJECT] + rest else [COMMA] + more;
    MembersSplit(members, whole, rest);
    ValueRoundTrip(v, tail, read);
    MemberRead(key, Print(v), tail, Normal(v), done, read);
    PutNew(done, key, Normal(v));
    var done' := done + [(key, Normal(v))];
    if |members| == 1 {
      assert tail[1..] == rest;
      assert NormalMembers(members, whole) == [(key, Normal(v))];
    } else {
      assert tail[1..] == more;
      MembersRoundTrip(members[1..], done', whole, rest, read);
      Regroup(done, (key, Normal(v)), NormalMembers(members[1..], whole));
    }
  }

  lemma {:induction false} PutNew(members: seq<(Text, Json)>, key: Text, v: Json)
    requires forall i :: 0 <= i < |members| ==> members[i].0 != key
    ensures Put(members, key, v) == members + [(key, v)]
  {
    if members != [] {
      PutNew(members[1..], key, v);
    }
  }

  /** Parsing the canonical text gives the value back, up to key order and negative zero. */
  lemma RoundTrip(v: Json, read: Reader)
    requires Valid(v, read) && ReadsBack(read) && Canonicalize(v).Some?
    ensures Parse(Canonicalize(v).value, read) == Some(Normal(v))
  {
    ValueRoundTrip(v, [], read);
    assert Print(v) + [] == Print(v);
  }

  // ---- Printing is a normal form ------------------------------------------------------------

  lemma {:induction false} NormalPrintsAlike(v: Json, read: Reader)
    requires Valid(v, read) && ReadsBack(read)
    ensures Print(Normal(v)) == Print(v)
    ensures Valid(Normal(v), read) && AllFinite(Normal(v)) == AllFinite(v)
    decreases v, 1, 0
  {
    match v {
      case Arr(items) =>
        forall i | 0 <= i < |items|
          ensures Print(Normal(items[i])) == Print(items[i]) && Valid(Normal(items[i]), read)
          ensures AllFinite(Normal(items[i])) == AllFinite(items[i])
        {
          NormalPrintsAlike(items[i], read);
        }
        ItemsPrintAlike(items, NormalItems(items, v), v, Normal(v));
        NormalItemsAre(items, v, read);
      case Obj(members) => NormalObjectPrintsAlike(members, read);
      case _ =>
    }
  }

  lemma NormalItemsAre(items: seq<Json>, v: Json, read: Reader)
    requires v == Arr(items)
    requires forall i :: 0 <= i < |items| ==>
               Valid(Normal(items[i]), read) && AllFinite(Normal(items[i])) == AllFinite(items[i])
    ensures Valid(Normal(v), read) && AllFinite(Normal(v)) == AllFinite(v)
  {
    var r := NormalItems(items, v);
    assert forall i :: 0 <= i < |items| ==> AllFinite(r[i]) == AllFinite(items[i]);
  }

  lemma {:induction false} ItemsPrintAlike(items: seq<Json>, others: seq<Json>, v: Json, w: Json)
    requires |items| == |others|
    requires forall i :: 0 <= i < |items| ==> items[i] < v
    requires forall i :: 0 <= i < |others| ==> others[i] < w
    requires forall i :: 0 <= i < |items| ==> Print(items[i]) == Print(others[i])
    ensures PrintItems(items, v) == PrintItems(others, w)
  {
    hide Print;
    if items != [] {
      ItemsPrintAlike(items[1..], others[1..], v, w);
    }
  }

  lemma {:induction false} MembersPrintAlike(members: seq<(Text, Json)>, others: seq<(Text, Json)>, v: Json, w: Json)
    requires |members| == |others|
    requires forall i :: 0 <= i < |members| ==> members[i].1 < v
    requires forall i :: 0 <= i < |others| ==> others[i].1 < w
    requires forall i :: 0 <= i < |members| ==> members[i].0 == others[i].0 && Print(members[i].1) == Print(others[i].1)
    ensures PrintMembers(members, v) == PrintMembers(others, w)
  {
    hide Print, Quote;
    if members != [] {
      MembersPrintAlike(members[1..], others[1..], v, w);
    }
  }

  /** The members of a normal object are already in order. */
  lemma NormalMembersAscend(members: seq<(Text, Json)>)
    requires DistinctKeys(members)
    ensures Normal(Obj(members)).Obj?
    ensures var r := Normal(Obj(members)).members;
            && |r| == |Sort(members)| && Ascending(r) && DistinctKeys(r) && Sort(r) == r
            && forall i :: 0 <= i < |r| ==> r[i] == (Sort(members)[i].0, Normal(Sort(members)[i].1))
  {
    hide Sort;
    SortedAreMembers(members);
    SortAscends(members);
    var sorted := Sort(members);
    var r := NormalMembers(sorted, Obj(members));
    assert forall i, j :: 0 <= i < j < |r| ==> Precedes(sorted[i].0, sorted[j].0);
    AscendingIsDistinct(r);
    SortFixesAscending(r);
  }

  lemma {:induction false} NormalObjectPrintsAlike(members: seq<(Text, Json)>, read: Reader)
    requires Valid(Obj(members), read) && ReadsBack(read)
    ensures Print(Normal(Obj(members))) == Print(Obj(members))
    ensures Valid(Normal(Obj(members)), read) && AllFinite(Normal(Obj(members))) == AllFinite(Obj(members))
    decreases Obj(members), 0, 0
  {
    hide Sort, DistinctKeys, Ascending, ReadsBack;
    var v, sorted := Obj(members), Sort(members);
    SortedAreMembers(members);
    NormalMembersAscend(members);
    var r := Normal(v).members;
    forall i | 0 <= i < |sorted|
      ensures sorted[i].1 < v && Print(Normal(sorted[i].1)) == Print(sorted[i].1)
      ensures Valid(Normal(sorted[i].1), read) && AllFinite(Normal(sorted[i].1)) == AllFinite(sorted[i].1)
    {
      assert sorted[i] in members;
      var k :| 0 <= k < |members| && members[k] == sorted[i];
      assert Valid(members[k].1, read);
      NormalPrintsAlike(members[k].1, read);
    }
    SortedAreMembers(r);
    MembersPrintAlike(sorted, r, v, Normal(v));
    FiniteMembers(members);
  }

  lemma SortKeepsFinite(members: seq<(Text, Json)>)
    ensures (forall i :: 0 <= i < |Sort(members)| ==> AllFinite(Sort(members)[i].1)) <==> AllFinite(Obj(members))
  {
    hide Sort;
    var sorted := Sort(members);
    SortedAreMembers(members);
    forall k | 0 <= k < |members|
      ensures exists i :: 0 <= i < |sorted| && sorted[i] == members[k]
    {
      SortHas(members, members[k]);
    }
  }

  lemma FiniteMembers(members: seq<(Text, Json)>)
    requires DistinctKeys(members)
    requires forall i :: 0 <= i < |Sort(members)| ==>
               AllFinite(Normal(Sort(members)[i].1)) == AllFinite(Sort(members)[i].1)
    ensures AllFinite(Normal(Obj(members))) == AllFinite(Obj(members))
  {
    hide Sort, Ascending, DistinctKeys, Normal;
    NormalMembersAscend(members);
    SortKeepsFinite(members);
    var sorted, r := Sort(members), Normal(Obj(members)).members;
    assert forall i :: 0 <= i < |r| ==> AllFinite(r[i].1) == AllFinite(sorted[i].1);
  }

  /** Equal texts (so, with an injective digest, equal digests) mean equal values up to key order
      and negative zero, and the other way round. */
  lemma SameTextSameValue(v: Json, w: Json, read: Reader)
    requires Valid(v, read) && Valid(w, read) && ReadsBack(read)
    requires Canonicalize(v).Some? && Canonicalize(w).Some?
    ensures Canonicalize(v) == Canonicalize(w) <==> Normal(v) == Normal(w)
  {
    RoundTrip(v, read);
    RoundTrip(w, read);
    NormalPrintsAlike(v, read);
    NormalPrintsAlike(w, read);
  }

  /** The order in which an object's members were set does not show in its text. */
  lemma TextForgetsKeyOrder(members: seq<(Text, Json)>, others: seq<(Text, Json)>)
    requires DistinctKeys(members) && DistinctKeys(others)
    requires forall p: (Text, Json) :: p in members <==> p in others
    ensures Print(Obj(members)) == Print(Obj(others))
  {
    SortForgetsOrder(members, others);
    SortedAreMembers(members);
    SortedAreMembers(others);
    MembersPrintAlike(Sort(members), Sort(others), Obj(members), Obj(others));
  }

  // ---- What the canonical check accepts -----------------------------------------------------

  lemma {:induction false} ParsedIsValid(t: Text, read: Reader)
    requires ReadsBack(read) && ParseValue(t, read).Some?
    ensures Valid(ParseValue(t, read).value.0, read)
    decreases |t|, 2
  {
    var s := SkipSpace(t);
    if s[0] == OPEN_ARRAY {
      if SkipSpace(s[1..]) == [] || SkipSpace(s[1..])[0] != CLOSE_ARRAY {
        ParsedItemsAreValid(s[1..], [], read);
      }
    } else if s[0] == OPEN_OBJECT {
      if SkipSpace(s[1..]) == [] || SkipSpace(s[1..])[0] != CLOSE_OBJECT {
        ParsedMembersAreValid(s[1..], [], read);
      }
    }
  }

  lemma {:induction false} ParsedItemsAreValid(t: Text, done: seq<Json>, read: Reader)
    requires ReadsBack(read) && ParseItems(t, done, read).Some?
    requires forall i :: 0 <= i < |done| ==> Valid(done[i], read)
    ensures Valid(ParseItems(t, done, read).value.0, read)
    decreases |t|, 3
  {
    ParsedIsValid(t, read);
    var item := ParseValue(t, read);
    var u := SkipSpace(item.value.1);
    if u[0] == COMMA {
      ParsedItemsAreValid(u[1..], done + [item.value.0], read);
    }
  }

  lemma {:induction false} PutKeepsValid(members: seq<(Text, Json)>, key: Text, v: Json, read: Reader)
    requires DistinctKeys(members) && Valid(v, read)
    requires forall i :: 0 <= i < |members| ==> Valid(members[i].1, read)
    ensures var r := Put(members, key, v);
            && DistinctKeys(r)
            && (forall i :: 0 <= i < |r| ==> Valid(r[i].1, read))
            && (forall i :: 0 <= i < |r| ==> r[i].0 == key || exists j :: 0 <= j < |members| && members[j].0 == r[i].0)
  {
    hide Valid;
    if members != [] && members[0].0 != key {
      PutKeepsValid(members[1..], key, v, read);
      var rest, r := Put(members[1..], key, v), Put(members, key, v);
      assert r == [members[0]] + rest;
      forall i | 0 <= i < |rest|
        ensures rest[i].0 != members[0].0
        ensures rest[i].0 == key || exists j :: 0 <= j < |members| && members[j].0 == rest[i].0
      {
        if rest[i].0 != key {
          var j :| 0 <= j < |members[1..]| && members[1..][j].0 == rest[i].0;
          assert members[j + 1].0 == rest[i].0;
        }
      }
    }
  }

  lemma {:induction false} ParsedMembersAreValid(t: Text, done: seq<(Text, Json)>, read: Reader)
    requires ReadsBack(read) && ParseMembers(t, done, read).Some?
    requires DistinctKeys(done) && forall i :: 0 <= i < |done| ==> Valid(done[i].1, read)
    ensures Valid(ParseMembers(t, done, read).value.0, read)
    decreases |t|, 3
  {
    var key := ParseString(SkipSpace(t)[1..]).value;
    var rest := SkipSpace(key.1)[1..];
    ParsedIsValid(rest, read);
    var v := ParseValue(rest, read).value;
    PutKeepsValid(done, key.0, v.0, read);
    var u := SkipSpace(v.1);
    if u[0] == COMMA {
      ParsedMembersAreValid(u[1..], Put(done, key.0, v.0), read);
    }
  }

  /** `Buffer.byteLength(raw, "utf8")`: four bytes for a surrogate pair, three for a lone surrogate. */
  function ByteLength(raw: Text): nat {
    if raw == [] then 0
    else if |raw| > 1 && IsHigh(raw[0]) && IsLow(raw[1]) then 4 + ByteLength(raw[2..])
    else (if raw[0] < 0x80 then 1 else if raw[0] < 0x800 then 2 else 3) + ByteLength(raw[1..])
  }

  const MAX_BYTES := 64 * 1024

  /** The check on a stored manifest: it fits, ends in a line feed, and its text is the canonical text of what it
      parses to, with that line feed. */
  predicate IsBound(raw: Text, read: Reader) {
    var v := Parse(raw, read);
    && ByteLength(raw) <= MAX_BYTES && raw != [] && raw[|raw| - 1] == 10
    && v.Some? && Canonicalize(v.value).Some? && Canonicalize(v.value).value + [10] == raw
  }

  /** The check accepts exactly the texts the printer writes in at most 64 KiB. */
  lemma BoundIsPrinted(raw: Text, read: Reader)
    requires ReadsBack(read)
    ensures IsBound(raw, read) <==>
              && ByteLength(raw) <= MAX_BYTES
              && exists v :: Valid(v, read) && Canonicalize(v).Some? && raw == Canonicalize(v).value + [10]
  {
    hide ByteLength;
    if IsBound(raw, read) {
      ParsedIsValid(raw, read);
      var v := Parse(raw, read).value;
      assert Valid(v, read) && Canonicalize(v).Some? && raw == Canonicalize(v).value + [10];
    }
    if v :| Valid(v, read) && Canonicalize(v).Some? && raw == Canonicalize(v).value + [10] {
      ValueRoundTrip(v, [10], read);
      assert SkipSpace([10]) == [];
      NormalPrintsAlike(v, read);
    }
  }
}
