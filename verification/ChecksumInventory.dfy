/** The SHA256SUMS inventory: its printer, its loader, and the digest of a subject set.

    A dictionary is the sequence of its entries in insertion order, with distinct keys. */
module ChecksumInventory {
  import opened Results
  import opened Text

  type Entries = seq<(Text, Text)>

  const LF: Code := 10
  const CR: Code := 13
  const SPACE: Code := 32
  const SLASH: Code := 47
  const DIGEST_PREFIX := T("sha256:")

  // ---- Reading a text file ------------------------------------------------------------------

  /** What reading in text mode yields: CR LF and CR both become LF. */
  function Universal(file: Text): Text {
    if file == [] then []
    else if file[0] != CR then [file[0]] + Universal(file[1..])
    else if |file| > 1 && file[1] == LF then [LF] + Universal(file[2..])
    else [LF] + Universal(file[1..])
  }

  /** Where `str.splitlines` ends a line. */
  predicate IsBoundary(c: Code) {
    c == LF || c == 11 || c == 12 || c == CR || 28 <= c <= 30 || c == 0x85 || c == 0x2028 || c == 0x2029
  }

  /** The codes of `t` before the first boundary. */
  function LineLength(t: Text): (n: nat)
    ensures n <= |t| && (n < |t| ==> IsBoundary(t[n])) && forall i :: 0 <= i < n ==> !IsBoundary(t[i])
  {
    if t == [] || IsBoundary(t[0]) then 0 else 1 + LineLength(t[1..])
  }

  function SplitLines(t: Text): seq<Text> {
    if t == [] then []
    else
      var n := LineLength(t);
      if n == |t| then [t] else [t[..n]] + SplitLines(t[n + 1..])
  }

  // ---- Names and rows -----------------------------------------------------------------------

  predicate IsAlphanumeric(c: Code) {
    IsDigitCode(c) || 'A' as int <= c <= 'Z' as int || 'a' as int <= c <= 'z' as int
  }

  predicate IsNameCode(c: Code) {
    IsAlphanumeric(c) || c == '.' as int || c == '_' as int || c == SLASH || c == '-' as int
  }

  predicate IsRowName(name: Text) {
    name != [] && IsAlphanumeric(name[0]) && forall i | 0 <= i < |name| :: IsNameCode(name[i])
  }

  function Parts(name: Text): (r: seq<Text>)
    ensures |r| > 0
  {
    if name == [] then [[]]
    else
      var rest := Parts(name[1..]);
      if name[0] == SLASH then [[]] + rest else [[name[0]] + rest[0]] + rest[1..]
  }

  /** A canonical relative file name: no empty, `.` or `..` component, at most 220 codes. */
  predicate IsSafeName(name: Text) {
    && IsRowName(name) && |name| <= 220
    && forall i | 0 <= i < |Parts(name)| ::
         Parts(name)[i] != [] && Parts(name)[i] != T(".") && Parts(name)[i] != T("..")
  }

  predicate IsHexDigest(t: Text) {
    |t| == 64 && forall i | 0 <= i < 64 :: IsLowerHex(t[i])
  }

  predicate IsDigest(t: Text) {
    DIGEST_PREFIX <= t && IsHexDigest(t[|DIGEST_PREFIX|..])
  }

  /** The entry of one row: 64 hex digits, two spaces, a safe name. */
  function RowEntry(line: Text): Option<(Text, Text)> {
    if |line| > 66 && IsHexDigest(line[..64]) && line[64] == SPACE && line[65] == SPACE &&
       IsRowName(line[66..]) && IsSafeName(line[66..]) then
      Some((line[66..], DIGEST_PREFIX + line[..64]))
    else
      None
  }

  function Row(entry: (Text, Text)): Text
    requires IsDigest(entry.1)
  {
    entry.1[|DIGEST_PREFIX|..] + [SPACE, SPACE] + entry.0
  }

  // ---- The loader ---------------------------------------------------------------------------

  predicate HasKey(entries: Entries, key: Text) {
    exists i | 0 <= i < |entries| :: entries[i].0 == key
  }

  function Rows(lines: seq<Text>, inventoryName: Text): Result<Entries> {
    if lines == [] then Returned([])
    else
      var n := |lines| - 1;
      var front, entry := Rows(lines[..n], inventoryName), RowEntry(lines[n]);
      if front.Raised? || entry.None? || entry.value.0 == inventoryName
        || HasKey(front.value, entry.value.0) then Raised
      else Returned(front.value + [entry.value])
  }

  function Loaded(file: Text, inventoryName: Text): Result<Entries> {
    var raw := Universal(file);
    var lines := SplitLines(raw);
    if raw == [] || raw[|raw| - 1] != LF || CR in raw || !(1 <= |lines| <= 512) then Raised
    else Rows(lines, inventoryName)
  }

  lemma {:induction false} RaisedRowRaisesAll(lines: seq<Text>, inventoryName: Text, n: nat)
    requires n <= |lines| && Rows(lines[..n], inventoryName).Raised?
    ensures Rows(lines, inventoryName).Raised?
    decreases |lines|
  {
    if n == |lines| {
      assert lines[..n] == lines;
    } else {
      var front := lines[..|lines| - 1];
      assert front[..n] == lines[..n];
      RaisedRowRaisesAll(front, inventoryName, n);
    }
  }

  method LoadChecksumInventory(file: Text, inventoryName: Text) returns (r: Result<Entries>)
    ensures r == Loaded(file, inventoryName)
  {
    var raw := Universal(file);
    if raw == [] || raw[|raw| - 1] != LF || CR in raw {
      return Raised;
    }
    var lines := SplitLines(raw);
    if !(1 <= |lines| <= 512) {
      return Raised;
    }
    var subjects: Entries := [];
    for i := 0 to |lines|
      invariant Rows(lines[..i], inventoryName) == Returned(subjects)
    {
      assert lines[..i + 1][..i] == lines[..i];
      var entry := RowEntry(lines[i]);
      if entry.None? || entry.value.0 == inventoryName || HasKey(subjects, entry.value.0) {
        RaisedRowRaisesAll(lines, inventoryName, i + 1);
        return Raised;
      }
      subjects := subjects + [entry.value];
    }
    assert lines[..|lines|] == lines;
    r := Returned(subjects);
  }

  // ---- The printer --------------------------------------------------------------------------

  predicate IsSubject(entry: (Text, Text)) {
    IsSafeName(entry.0) && IsDigest(entry.1)
  }

  predicate AreSubjects(entries: Entries) {
    forall i | 0 <= i < |entries| :: IsSubject(entries[i])
  }

  function PrintRows(entries: Entries): Text
    requires AreSubjects(entries)
  {
    if entries == [] then [] else PrintRows(entries[..|entries| - 1]) + Row(entries[|entries| - 1]) + [LF]
  }

  function InventoryText(subjects: Entries): Result<Text> {
    var rows := Sort(subjects);
    if !AreSubjects(rows) || !(1 <= |rows| <= 512) then Raised else Returned(PrintRows(rows))
  }

  method ChecksumInventoryText(subjects: Entries) returns (r: Result<Text>)
    ensures r == InventoryText(subjects)
  {
    var sorted := Sort(subjects);
    var text: Text := [];
    for i := 0 to |sorted|
      invariant AreSubjects(sorted[..i]) && text == PrintRows(sorted[..i])
    {
      assert sorted[..i + 1][..i] == sorted[..i];
      if !IsSubject(sorted[i]) {
        return Raised;
      }
      text := text + Row(sorted[i]) + [LF];
    }
    assert sorted[..|sorted|] == sorted;
    r := if 1 <= |sorted| <= 512 then Returned(text) else Raised;
  }

  // ---- Lemmas -------------------------------------------------------------------------------

  lemma {:induction false} UniversalHasNoCr(file: Text)
    ensures CR !in Universal(file)
  {
    if file != [] {
      UniversalHasNoCr(file[1..]);
      if |file| > 1 {
        UniversalHasNoCr(file[2..]);
      }
    }
  }

  lemma {:induction false} UniversalFixes(text: Text)
    requires CR !in text
    ensures Universal(text) == text
  {
    if text != [] {
      assert text[0] in text;
      assert forall c :: c in text[1..] ==> c in text;
      UniversalFixes(text[1..]);
    }
  }

  /** The loader's test for a carriage return never fires: a file loads exactly as the file whose
      line ends are all LF. */
  lemma CarriageReturnsAreInvisible(file: Text, inventoryName: Text)
    ensures CR !in Universal(file)
    ensures Loaded(file, inventoryName) == Loaded(Universal(file), inventoryName)
  {
    UniversalHasNoCr(file);
    UniversalFixes(Universal(file));
  }

  lemma RowRoundTrip(entry: (Text, Text))
    requires IsSubject(entry)
    ensures RowEntry(Row(entry)) == Some(entry)
    ensures forall i :: 0 <= i < |Row(entry)| ==> !IsBoundary(Row(entry)[i])
  {
    hide Parts;
    var row, hex := Row(entry), entry.1[|DIGEST_PREFIX|..];
    assert row[..64] == hex && row[66..] == entry.0;
    assert entry.1 == DIGEST_PREFIX + hex;
    forall i | 0 <= i < |row|
      ensures !IsBoundary(row[i])
    {
      if i < 64 {
        assert row[i] == hex[i];
      } else if i >= 66 {
        assert row[i] == entry.0[i - 66];
      }
    }
  }

  lemma {:induction false} LineLengthAt(a: Text, b: Text)
    requires forall i :: 0 <= i < |a| ==> !IsBoundary(a[i])
    ensures LineLength(a + [LF] + b) == |a|
  {
    var t := a + [LF] + b;
    if a != [] {
      assert t[1..] == a[1..] + [LF] + b;
      LineLengthAt(a[1..], b);
    }
  }

  lemma SplitLinesAt(a: Text, b: Text)
    requires forall i :: 0 <= i < |a| ==> !IsBoundary(a[i])
    ensures SplitLines(a + [LF] + b) == [a] + SplitLines(b)
  {
    var t := a + [LF] + b;
    LineLengthAt(a, b);
    assert t[..|a|] == a && t[|a| + 1..] == b;
  }

  function RowTexts(entries: Entries): seq<Text>
    requires AreSubjects(entries)
  {
    seq(|entries|, i requires 0 <= i < |entries| => Row(entries[i]))
  }

  lemma Reassociate(a: Text, row: Text, rest: Text)
    ensures a + row + [LF] + rest == a + (row + [LF] + rest)
  {
  }

  /** The printed rows followed by more text split into the rows followed by the rest's lines. */
  lemma {:induction false} PrintedLines(entries: Entries, rest: Text)
    requires AreSubjects(entries)
    ensures SplitLines(PrintRows(entries) + rest) == RowTexts(entries) + SplitLines(rest)
    decreases |entries|
  {
    hide IsSafeName, IsDigest, Row, SplitLines, RowEntry;
    if entries == [] {
      assert PrintRows(entries) + rest == rest;
      assert RowTexts(entries) + SplitLines(rest) == SplitLines(rest);
    } else {
      var n := |entries| - 1;
      var row := Row(entries[n]);
      Reassociate(PrintRows(entries[..n]), row, rest);
      PrintedLines(entries[..n], row + [LF] + rest);
      RowRoundTrip(entries[n]);
      SplitLinesAt(row, rest);
      assert RowTexts(entries) + SplitLines(rest) == RowTexts(entries[..n]) + ([row] + SplitLines(rest));
    }
  }

  lemma {:induction false} PrintedRowsLoad(entries: Entries, inventoryName: Text)
    requires AreSubjects(entries) && DistinctKeys(entries) && !HasKey(entries, inventoryName)
    ensures Rows(RowTexts(entries), inventoryName) == Returned(entries)
  {
    if entries != [] {
      var n := |entries| - 1;
      PrintedRowsLoad(entries[..n], inventoryName);
      RowRoundTrip(entries[n]);
      assert RowTexts(entries)[..n] == RowTexts(entries[..n]);
      assert entries == entries[..n] + [entries[n]];
    }
  }

  lemma {:induction false} PrintedHasNoCr(entries: Entries)
    requires AreSubjects(entries)
    ensures CR !in PrintRows(entries)
    ensures entries != [] ==> PrintRows(entries) != [] && PrintRows(entries)[|PrintRows(entries)| - 1] == LF
  {
    if entries != [] {
      var n := |entries| - 1;
      PrintedHasNoCr(entries[..n]);
      RowRoundTrip(entries[n]);
      assert forall c :: c in Row(entries[n]) ==> exists i :: 0 <= i < |Row(entries[n])| && Row(entries[n])[i] == c;
    }
  }

  lemma SortCovers(subjects: Entries)
    ensures |Sort(subjects)| == |subjects|
    ensures forall i :: 0 <= i < |subjects| ==> exists j :: 0 <= j < |subjects| && Sort(subjects)[j] == subjects[i]
    ensures forall i :: 0 <= i < |subjects| ==> exists j :: 0 <= j < |subjects| && subjects[j] == Sort(subjects)[i]
  {
    SortMembers(subjects);
    forall i | 0 <= i < |subjects|
      ensures exists j :: 0 <= j < |subjects| && Sort(subjects)[j] == subjects[i]
    {
      SortHas(subjects, subjects[i]);
    }
    forall i | 0 <= i < |subjects|
      ensures exists j :: 0 <= j < |subjects| && subjects[j] == Sort(subjects)[i]
    {
      SortHas(subjects, Sort(subjects)[i]);
    }
  }

  lemma SortedSubjects(subjects: Entries)
    requires DistinctKeys(subjects)
    ensures |Sort(subjects)| == |subjects| && DistinctKeys(Sort(subjects)) && Ascending(Sort(subjects))
    ensures AreSubjects(Sort(subjects)) <==> AreSubjects(subjects)
    ensures forall key :: HasKey(Sort(subjects), key) <==> HasKey(subjects, key)
  {
    hide Sort, IsSubject, Ascending, DistinctKeys;
    SortAscends(subjects);
    AscendingIsDistinct(Sort(subjects));
    SortCovers(subjects);
  }

  /** The printer accepts exactly the maps of 1 to 512 safe names to digests. */
  lemma PrinterAccepts(subjects: Entries)
    requires DistinctKeys(subjects)
    ensures InventoryText(subjects).Returned? <==> AreSubjects(subjects) && 1 <= |subjects| <= 512
  {
    SortedSubjects(subjects);
  }

  /** Loading a printed inventory gives the map back, provided the inventory does not list itself. */
  lemma LoadRoundTrip(subjects: Entries, inventoryName: Text)
    requires DistinctKeys(subjects) && InventoryText(subjects).Returned? && !HasKey(subjects, inventoryName)
    ensures Loaded(InventoryText(subjects).value, inventoryName) == Returned(Sort(subjects))
  {
    var rows := Sort(subjects);
    SortedSubjects(subjects);
    var text := PrintRows(rows);
    PrintedHasNoCr(rows);
    UniversalFixes(text);
    PrintedLines(rows, []);
    assert text + [] == text && RowTexts(rows) + SplitLines([]) == RowTexts(rows);
    PrintedRowsLoad(rows, inventoryName);
  }

  /** An inventory that lists itself prints but does not load. */
  lemma SelfListingFails(subjects: Entries, inventoryName: Text)
    requires DistinctKeys(subjects) && InventoryText(subjects).Returned? && HasKey(subjects, inventoryName)
    ensures Loaded(InventoryText(subjects).value, inventoryName).Raised?
  {
    var rows := Sort(subjects);
    SortedSubjects(subjects);
    var k :| 0 <= k < |rows| && rows[k].0 == inventoryName;
    var text := PrintRows(rows);
    PrintedHasNoCr(rows);
    UniversalFixes(text);
    PrintedLines(rows, []);
    var lines := RowTexts(rows);
    assert text + [] == text && lines + SplitLines([]) == lines;
    RowRoundTrip(rows[k]);
    assert lines[..k + 1][k] == Row(rows[k]);
    RaisedRowRaisesAll(lines, inventoryName, k + 1);
  }

  lemma {:induction false} LoadedRows(lines: seq<Text>, inventoryName: Text)
    requires Rows(lines, inventoryName).Returned?
    ensures var m := Rows(lines, inventoryName).value;
            |m| == |lines| && DistinctKeys(m) && AreSubjects(m) && !HasKey(m, inventoryName)
  {
    if lines != [] {
      var n := |lines| - 1;
      LoadedRows(lines[..n], inventoryName);
      var m, entry := Rows(lines[..n], inventoryName).value, RowEntry(lines[n]).value;
      var hex := lines[n][..64];
      assert entry.1[|DIGEST_PREFIX|..] == hex;
      assert Rows(lines, inventoryName).value == m + [entry];
    }
  }

  /** Whatever loads can be printed, and its text is its own reprint exactly when it is the printed
      form of some map. */
  lemma ReprintedIffPrinted(file: Text, inventoryName: Text)
    requires Loaded(file, inventoryName).Returned?
    ensures InventoryText(Loaded(file, inventoryName).value).Returned?
    ensures InventoryText(Loaded(file, inventoryName).value) == Returned(Universal(file)) <==>
            exists m :: DistinctKeys(m) && InventoryText(m) == Returned(Universal(file))
  {
    var text := Universal(file);
    var loaded := Loaded(file, inventoryName).value;
    LoadedRows(SplitLines(text), inventoryName);
    PrinterAccepts(loaded);
    if m :| DistinctKeys(m) && InventoryText(m) == Returned(text) {
      CarriageReturnsAreInvisible(file, inventoryName);
      if HasKey(m, inventoryName) {
        SelfListingFails(m, inventoryName);
      } else {
        LoadRoundTrip(m, inventoryName);
        SortedSubjects(m);
        SortFixesAscending(Sort(m));
      }
    }
  }

  /** The printed text, and so its digest, ignores the order of the rows and determines the map. */
  lemma TextDeterminesMap(m: Entries, m': Entries)
    requires DistinctKeys(m) && DistinctKeys(m')
    requires InventoryText(m).Returned? && InventoryText(m').Returned?
    ensures InventoryText(m) == InventoryText(m') <==> Sort(m) == Sort(m')
    ensures (forall p: (Text, Text) :: p in m <==> p in m') ==> InventoryText(m) == InventoryText(m')
  {
    if InventoryText(m) == InventoryText(m') {
      var name := T("");
      SortedSubjects(m);
      SortedSubjects(m');
      LoadRoundTrip(m, name);
      LoadRoundTrip(m', name);
    }
    if forall p: (Text, Text) :: p in m <==> p in m' {
      SortForgetsOrder(m, m');
    }
  }
}
