/**
  Recipient extraction from an uploaded file. The file's extension picks a
  reader (CSV, JSON, Excel or plain text); every reader keeps the values that
  are non-empty and contain '@' and then drops repeated addresses, keeping the
  first occurrence of each. The CSV, Excel and text readers trim each value
  first (with .NET's definition of white space); the JSON reader does not.

  What the libraries read from disk is given: the CSV header and records as
  CsvHelper's reader yields them, the JSON document as deserialisation yields
  it, the Excel rows as MiniExcel yields them, and the lines of a text file.
*/
module FileProcessor {
  import opened Wrappers

  // ---------------------------------------------------------------------------
  // White space and trimming
  // ---------------------------------------------------------------------------

  /** char.IsWhiteSpace: the Unicode space separators, line and paragraph
      separators, U+0009 to U+000D, U+0085 and U+00A0. */
  predicate IsWhiteSpace(c: char)
  {
    || ('\t' <= c <= '\r') || c == ' ' || c == '\U{0085}' || c == '\U{00A0}' || c == '\U{1680}'
    || ('\U{2000}' <= c <= '\U{200A}') || c == '\U{2028}' || c == '\U{2029}' || c == '\U{202F}'
    || c == '\U{205F}' || c == '\U{3000}'
  }

  /** The suffix of `s` after its leading white space. */
  function TrimStart(s: string): string
    decreases |s|
  {
    if |s| > 0 && IsWhiteSpace(s[0]) then TrimStart(s[1..]) else s
  }

  /** The prefix of `s` before its trailing white space. */
  function TrimEnd(s: string): string
    decreases |s|
  {
    if |s| > 0 && IsWhiteSpace(s[|s| - 1]) then TrimEnd(s[..|s| - 1]) else s
  }

  /** string.Trim(): white space dropped from both ends. */
  function Trim(s: string): (r: string)
    ensures |r| <= |s|
  {
    TrimStartSpec(s);
    TrimEndSpec(TrimStart(s));
    TrimEnd(TrimStart(s))
  }

  /** TrimStart drops exactly the leading white space. */
  lemma {:induction false} TrimStartSpec(s: string)
    ensures var r := TrimStart(s);
      && |r| <= |s| && r == s[|s| - |r|..]
      && (forall k :: 0 <= k < |s| - |r| ==> IsWhiteSpace(s[k]))
      && (|r| > 0 ==> !IsWhiteSpace(r[0]))
    decreases |s|
  {
    if |s| > 0 && IsWhiteSpace(s[0]) {
      TrimStartSpec(s[1..]);
    }
  }

  /** TrimEnd drops exactly the trailing white space. */
  lemma {:induction false} TrimEndSpec(s: string)
    ensures var r := TrimEnd(s);
      && |r| <= |s| && r == s[..|r|]
      && (forall k :: |r| <= k < |s| ==> IsWhiteSpace(s[k]))
      && (|r| > 0 ==> !IsWhiteSpace(r[|r| - 1]))
    decreases |s|
  {
    if |s| > 0 && IsWhiteSpace(s[|s| - 1]) {
      TrimEndSpec(s[..|s| - 1]);
    }
  }

  /** Trim keeps the longest slice of `s` that neither starts nor ends with white
      space: everything before and after it is white space. */
  lemma TrimSpec(s: string)
    ensures |TrimStart(s)| <= |s|
    ensures var lead, r := |s| - |TrimStart(s)|, Trim(s);
      && lead + |r| <= |s| && r == s[lead..lead + |r|]
      && (forall k :: 0 <= k < lead ==> IsWhiteSpace(s[k]))
      && (forall k :: lead + |r| <= k < |s| ==> IsWhiteSpace(s[k]))
      && (|r| > 0 ==> !IsWhiteSpace(r[0]) && !IsWhiteSpace(r[|r| - 1]))
  {
    var t := TrimStart(s);
    TrimStartSpec(s);
    TrimEndSpec(t);
    var r := TrimEnd(t);
    assert |r| > 0 ==> r[0] == t[0];
  }

  /** Trimming a trimmed value changes nothing. */
  lemma TrimIdempotent(s: string)
    ensures Trim(Trim(s)) == Trim(s)
  {
    var r := Trim(s);
    TrimSpec(s);
    if |r| > 0 {
      assert TrimStart(r) == r;
      assert TrimEnd(r) == r;
    }
  }

  /** A value made of white space only trims to the empty string, and a value
      without white space at either end trims to itself. */
  lemma TrimCases(s: string)
    ensures (forall k :: 0 <= k < |s| ==> IsWhiteSpace(s[k])) <==> Trim(s) == ""
    ensures |s| > 0 && !IsWhiteSpace(s[0]) && !IsWhiteSpace(s[|s| - 1]) ==> Trim(s) == s
  {
    TrimSpec(s);
    if |s| > 0 && !IsWhiteSpace(s[0]) && !IsWhiteSpace(s[|s| - 1]) {
      assert TrimStart(s) == s;
      assert TrimEnd(s) == s;
    }
    if Trim(s) == "" {
      var lead := |s| - |TrimStart(s)|;
      assert forall k :: 0 <= k < |s| ==> (k < lead || lead <= k) && IsWhiteSpace(s[k]);
    }
    else {
      var lead := |s| - |TrimStart(s)|;
      assert s[lead] == Trim(s)[0];
    }
  }

  // ---------------------------------------------------------------------------
  // Filtering and de-duplication
  // ---------------------------------------------------------------------------

  /** `!string.IsNullOrEmpty(v) && v.Contains("@")`, a null value read as "". */
  predicate IsCandidate(v: string)
  {
    |v| > 0 && '@' in v
  }

  /** The values that are candidates, in order. */
  function Candidates(xs: seq<string>): (r: seq<string>)
    ensures |r| <= |xs|
    ensures forall x :: x in r ==> IsCandidate(x) && x in xs
    ensures forall x :: x in xs && IsCandidate(x) ==> x in r
    decreases |xs|
  {
    if xs == [] then []
    else
      var prefix := Candidates(xs[..|xs| - 1]);
      var x := xs[|xs| - 1];
      assert xs == xs[..|xs| - 1] + [x];
      if IsCandidate(x) then prefix + [x] else prefix
  }

  lemma CandidatesSnoc(xs: seq<string>, x: string)
    ensures Candidates(xs + [x]) == Candidates(xs) + (if IsCandidate(x) then [x] else [])
  {
    assert (xs + [x])[..|xs|] == xs;
  }

  function Trimmed(xs: seq<string>): (r: seq<string>)
    ensures |r| == |xs| && forall i :: 0 <= i < |xs| ==> r[i] == Trim(xs[i])
  {
    seq(|xs|, i requires 0 <= i < |xs| => Trim(xs[i]))
  }

  /** What one value adds: its trim, when that is a candidate. */
  function Kept(v: string): (r: seq<string>)
    ensures r == [] || r == [Trim(v)]
  {
    var t := Trim(v);
    if IsCandidate(t) then [t] else []
  }

  /** The trimmed values that are candidates, in order: what the CSV, Excel and
      text readers append for a run of values. */
  function Addresses(xs: seq<string>): (r: seq<string>)
    ensures forall a :: a in r ==> IsCandidate(a)
    decreases |xs|
  {
    if xs == [] then [] else Addresses(xs[..|xs| - 1]) + Kept(xs[|xs| - 1])
  }

  /** The readers' running list is the candidates among the trimmed values. */
  lemma {:induction false} AddressesAreTrimmedCandidates(xs: seq<string>)
    ensures Addresses(xs) == Candidates(Trimmed(xs))
    decreases |xs|
  {
    if xs != [] {
      var init := xs[..|xs| - 1];
      AddressesAreTrimmedCandidates(init);
      assert Trimmed(xs) == Trimmed(init) + [Trim(xs[|xs| - 1])];
      CandidatesSnoc(Trimmed(init), Trim(xs[|xs| - 1]));
    }
  }

  /** Every address is the trim of some value, and the trim of every value that is
      a candidate once trimmed is an address. */
  lemma AddressesOfValues(xs: seq<string>)
    ensures forall a :: a in Addresses(xs) ==> IsCandidate(a) && exists i :: 0 <= i < |xs| && a == Trim(xs[i])
    ensures forall i :: 0 <= i < |xs| && IsCandidate(Trim(xs[i])) ==> Trim(xs[i]) in Addresses(xs)
  {
    var t := Trimmed(xs);
    AddressesAreTrimmedCandidates(xs);
    forall a | a in Addresses(xs)
      ensures IsCandidate(a) && exists i :: 0 <= i < |xs| && a == Trim(xs[i])
    {
      var j :| 0 <= j < |t| && t[j] == a;
      assert a == Trim(xs[j]);
    }
    forall i | 0 <= i < |xs| && IsCandidate(Trim(xs[i]))
      ensures Trim(xs[i]) in Addresses(xs)
    {
      assert t[i] == Trim(xs[i]);
    }
  }

  /** The candidates among the first `i + 1` values, from those among the first `i`. */
  lemma AddressesStep(xs: seq<string>, i: nat)
    requires i < |xs|
    ensures Addresses(xs[..i + 1]) == Addresses(xs[..i]) + Kept(xs[i])
  {
    assert xs[..i + 1][..i] == xs[..i];
  }

  predicate NoDuplicates(xs: seq<string>)
  {
    forall i, j :: 0 <= i < j < |xs| ==> xs[i] != xs[j]
  }

  /** Enumerable.Distinct: the first occurrence of every value, in order. */
  function Distinct(xs: seq<string>): (r: seq<string>)
    ensures |r| <= |xs|
    ensures forall x :: x in r <==> x in xs
    ensures NoDuplicates(r)
    decreases |xs|
  {
    if xs == [] then []
    else
      var prefix := Distinct(xs[..|xs| - 1]);
      var x := xs[|xs| - 1];
      assert xs == xs[..|xs| - 1] + [x];
      if x in prefix then prefix else prefix + [x]
  }

  /** The position of the first occurrence of `x`. */
  function FirstIndex(xs: seq<string>, x: string): (i: nat)
    requires x in xs
    ensures i < |xs| && xs[i] == x && x !in xs[..i]
  {
    if xs[0] == x then 0
    else
      assert x in xs[1..];
      var j := FirstIndex(xs[1..], x);
      assert xs[..j + 1] == [xs[0]] + xs[1..][..j];
      j + 1
  }

  lemma FirstIndexOfPrefix(xs: seq<string>, k: nat, x: string)
    requires k <= |xs| && x in xs[..k]
    ensures FirstIndex(xs, x) == FirstIndex(xs[..k], x)
  {
    var j := FirstIndex(xs[..k], x);
    assert xs[..k][..j] == xs[..j];
  }

  /** The values of `r` appear in the order of their first occurrences in `xs`. */
  predicate InFirstOccurrenceOrder(xs: seq<string>, r: seq<string>)
    requires forall x :: x in r ==> x in xs
  {
    forall i, j :: 0 <= i < j < |r| ==> FirstIndex(xs, r[i]) < FirstIndex(xs, r[j])
  }

  /** Distinct keeps values in the order of their first occurrences. */
  lemma {:induction false} DistinctKeepsFirstOccurrenceOrder(xs: seq<string>)
    ensures InFirstOccurrenceOrder(xs, Distinct(xs))
    decreases |xs|
  {
    if xs != [] {
      var init := xs[..|xs| - 1];
      var x := xs[|xs| - 1];
      var p := Distinct(init);
      DistinctKeepsFirstOccurrenceOrder(init);
      var r := Distinct(xs);
      forall i, j | 0 <= i < j < |r|
        ensures FirstIndex(xs, r[i]) < FirstIndex(xs, r[j])
      {
        assert r[i] == p[i];
        FirstIndexOfPrefix(xs, |xs| - 1, r[i]);
        if j < |p| {
          assert r[j] == p[j];
          FirstIndexOfPrefix(xs, |xs| - 1, r[j]);
          assert FirstIndex(init, p[i]) < FirstIndex(init, p[j]);
        } else {
          assert r[j] == x && x !in init;
          assert FirstIndex(xs, x) == |xs| - 1;
        }
      }
    }
  }

  /** A list without repetitions is its own Distinct. */
  lemma {:induction false} DistinctOfDistinct(xs: seq<string>)
    requires NoDuplicates(xs)
    ensures Distinct(xs) == xs
    decreases |xs|
  {
    if xs != [] {
      var init := xs[..|xs| - 1];
      assert NoDuplicates(init);
      DistinctOfDistinct(init);
      assert xs[|xs| - 1] !in init;
      assert init + [xs[|xs| - 1]] == xs;
    }
  }

  /** A list without repetitions holds each of its values exactly once. */
  lemma {:induction false} OccursOnce(xs: seq<string>, x: string)
    requires NoDuplicates(xs)
    ensures multiset(xs)[x] == if x in xs then 1 else 0
    decreases |xs|
  {
    if xs != [] {
      var init := xs[..|xs| - 1];
      assert xs == init + [xs[|xs| - 1]];
      assert NoDuplicates(init);
      OccursOnce(init, x);
    }
  }

  /** Each value of a list occurs exactly once in its Distinct. */
  lemma DistinctOccursOnce(xs: seq<string>, x: string)
    requires x in xs
    ensures multiset(Distinct(xs))[x] == 1
  {
    OccursOnce(Distinct(xs), x);
  }

  // ---------------------------------------------------------------------------
  // The four readers
  // ---------------------------------------------------------------------------

  datatype FileError =
    | FileNotFound(path: string)
    | NotSupported(extension: string)
    | MissingField(record: nat, index: nat)  // CsvHelper's MissingFieldException
    | JsonError(reason: string)              // System.Text.Json's JsonException

  /** What ReadAllLines, CsvHelper, System.Text.Json and MiniExcel yield for a file. */
  datatype CsvTable = CsvTable(header: Option<seq<string>>, records: seq<seq<string>>)

  /** A MiniExcel row: a dictionary of cell values (None for a null cell or a
      null ToString()), or a row of any other shape. */
  datatype ExcelRow = DictionaryRow(values: seq<Option<string>>) | OtherRow

  /** The text of a value of which a null is read as the empty string, which
      IsNullOrEmpty treats alike. */
  function Present(vs: seq<Option<string>>): (r: seq<string>)
    ensures |r| == |vs| && forall i :: 0 <= i < |vs| ==> r[i] == (if vs[i].Some? then vs[i].value else "")
  {
    seq(|vs|, i requires 0 <= i < |vs| => if vs[i].Some? then vs[i].value else "")
  }

  // Plain text -------------------------------------------------------------

  /** ProcessText: trim every line, keep the candidates, drop repetitions. */
  function TextEmails(lines: seq<string>): (r: seq<string>)
    ensures NoDuplicates(r) && forall a :: a in r ==> IsCandidate(a)
  {
    Distinct(Addresses(lines))
  }

  /** Every address is the trim of some line, and every line that is a candidate
      once trimmed gives an address that occurs exactly once. */
  lemma TextEmailsSpec(lines: seq<string>)
    ensures var r := TextEmails(lines);
      && NoDuplicates(r)
      && (forall a :: a in r ==> IsCandidate(a) && exists i :: 0 <= i < |lines| && a == Trim(lines[i]))
      && (forall i :: 0 <= i < |lines| && IsCandidate(Trim(lines[i])) ==> multiset(r)[Trim(lines[i])] == 1)
  {
    AddressesOfValues(lines);
    forall i | 0 <= i < |lines| && IsCandidate(Trim(lines[i]))
      ensures multiset(TextEmails(lines))[Trim(lines[i])] == 1
    {
      DistinctOccursOnce(Addresses(lines), Trim(lines[i]));
    }
  }

  // JSON -------------------------------------------------------------------

  /** ProcessJson: a JSON array of strings; values are kept untrimmed, and a null
      document gives no addresses. */
  function JsonEmails(doc: Result<Option<seq<Option<string>>>, string>): (r: Result<seq<string>, FileError>)
    ensures doc.Failure? ==> r == Failure(JsonError(doc.error))
    ensures doc.Success? && doc.value.None? ==> r == Success([])
  {
    match doc
    case Failure(reason) => Failure(JsonError(reason))
    case Success(None) => Success([])
    case Success(Some(values)) => Success(Distinct(Candidates(Present(values))))
  }

  /** The JSON addresses are exactly the non-null values that are candidates as
      they stand, each once. */
  lemma JsonEmailsSpec(values: seq<Option<string>>)
    ensures var r := JsonEmails(Success(Some(values))).value;
      && NoDuplicates(r)
      && forall a :: a in r <==> IsCandidate(a) && Some(a) in values
  {
    var p := Present(values);
    forall a | IsCandidate(a) && Some(a) in values
      ensures a in p
    {
      var i :| 0 <= i < |values| && values[i] == Some(a);
      assert p[i] == a;
    }
    forall a | a in Candidates(p)
      ensures Some(a) in values
    {
      var i :| 0 <= i < |p| && p[i] == a;
      assert values[i] == Some(a);
    }
  }

  // CSV --------------------------------------------------------------------

  /** The inner loop of ProcessCsv over the fields numbered below `width` of each
      record, in order; a record with fewer fields stops the read with
      MissingField at its first absent field. */
  function CsvCandidates(width: nat, records: seq<seq<string>>): (r: Result<seq<string>, FileError>)
    ensures r.Success? ==> forall x :: x in r.value ==> IsCandidate(x)
    decreases |records|
  {
    if records == [] then Success([])
    else
      var k := |records| - 1;
      match CsvCandidates(width, records[..k])
      case Failure(e) => Failure(e)
      case Success(prefix) =>
        if width > |records[k]| then Failure(MissingField(k, |records[k]|))
        else Success(prefix + Addresses(records[k][..width]))
  }

  /** ProcessCsv: without a header record the inner loop never runs. */
  function CsvEmails(table: CsvTable): (r: Result<seq<string>, FileError>)
    ensures r.Success? ==> NoDuplicates(r.value) && forall x :: x in r.value ==> IsCandidate(x)
  {
    if table.header.None? then Success([])
    else
      match CsvCandidates(|table.header.value|, table.records)
      case Failure(e) => Failure(e)
      case Success(found) => Success(Distinct(found))
  }

  /** Only fields numbered below the header's length are looked at. */
  lemma {:induction false} CsvLooksOnlyUnderHeader(width: nat, records: seq<seq<string>>, a: string)
    requires CsvCandidates(width, records).Success? && a in CsvCandidates(width, records).value
    ensures exists k, i :: 0 <= k < |records| && 0 <= i < width && i < |records[k]| && a == Trim(records[k][i])
    decreases |records|
  {
    var k := |records| - 1;
    var prefix := CsvCandidates(width, records[..k]).value;
    var row := records[k][..width];
    if a in prefix {
      CsvLooksOnlyUnderHeader(width, records[..k], a);
      var k', i :| 0 <= k' < k && 0 <= i < width && i < |records[..k][k']| && a == Trim(records[..k][k'][i]);
      assert records[k'] == records[..k][k'];
    } else {
      assert a in Addresses(row);
      AddressesOfValues(row);
      var i :| 0 <= i < |row| && a == Trim(row[i]);
      assert a == Trim(records[k][i]);
    }
  }

  /** Conversely, every field below the header's length whose trim is a
      candidate contributes that trim. */
  lemma {:induction false} CsvFieldIsAddress(width: nat, records: seq<seq<string>>, k: nat, i: nat)
    requires CsvCandidates(width, records).Success?
    requires k < |records| && i < width && i < |records[k]| && IsCandidate(Trim(records[k][i]))
    ensures Trim(records[k][i]) in CsvCandidates(width, records).value
    decreases |records|
  {
    var n := |records| - 1;
    var init := records[..n];
    if k < n {
      assert init[k] == records[k];
      CsvFieldIsAddress(width, init, k, i);
    } else {
      var row := records[n][..width];
      AddressesOfValues(row);
      assert row[i] == records[k][i];
    }
  }

  /** A successful CSV read returns the candidate trim of every field below the
      header's length. */
  lemma CsvFieldIsEmail(table: CsvTable, k: nat, i: nat)
    requires table.header.Some? && CsvEmails(table).Success?
    requires k < |table.records| && i < |table.header.value| && i < |table.records[k]|
    requires IsCandidate(Trim(table.records[k][i]))
    ensures Trim(table.records[k][i]) in CsvEmails(table).value
  {
    CsvFieldIsAddress(|table.header.value|, table.records, k, i);
  }

  lemma CsvCandidatesSnoc(width: nat, records: seq<seq<string>>, record: seq<string>)
    requires CsvCandidates(width, records).Success? && width <= |record|
    ensures CsvCandidates(width, records + [record]) == Success(CsvCandidates(width, records).value + Addresses(record[..width]))
  {
    assert (records + [record])[..|records|] == records;
  }

  lemma CsvCandidatesSnocFails(width: nat, records: seq<seq<string>>, record: seq<string>)
    requires CsvCandidates(width, records).Success? && width > |record|
    ensures CsvCandidates(width, records + [record]) == Failure(MissingField(|records|, |record|))
  {
    assert (records + [record])[..|records|] == records;
  }

  /** The number of fields ProcessCsv inspects per record: the inner loop's
      bound `i < csv.HeaderRecord?.Length` is false for every `i` without a header. */
  function Width(table: CsvTable): nat
  {
    if table.header.Some? then |table.header.value| else 0
  }

  lemma {:induction false} CsvZeroWidth(records: seq<seq<string>>)
    ensures CsvCandidates(0, records) == Success([])
    decreases |records|
  {
    if records != [] {
      CsvZeroWidth(records[..|records| - 1]);
      var last := records[|records| - 1];
      assert last[..0] == [];
      var found: seq<string> := [];
      assert found + Addresses(last[..0]) == found;
      assert CsvCandidates(0, records) == Success(found + Addresses(last[..0]));
    }
  }

  /** Reading every record without a missing field gives the CSV result. */
  lemma CsvAllRead(table: CsvTable, emails: seq<string>)
    requires CsvCandidates(Width(table), table.records) == Success(emails)
    ensures CsvEmails(table) == Success(Distinct(emails))
  {
    if table.header.None? {
      CsvZeroWidth(table.records);
    }
  }

  /** Record `k` extends the candidates read so far, or stops the read. */
  lemma CsvRecordRead(table: CsvTable, k: nat, before: seq<string>)
    requires k < |table.records| && CsvCandidates(Width(table), table.records[..k]) == Success(before)
    ensures var record := table.records[k];
      Width(table) <= |record| ==>
        CsvCandidates(Width(table), table.records[..k + 1]) == Success(before + Addresses(record[..Width(table)]))
    ensures Width(table) > |table.records[k]| ==> CsvEmails(table) == Failure(MissingField(k, |table.records[k]|))
  {
    var width, record := Width(table), table.records[k];
    assert table.records[..k + 1] == table.records[..k] + [record];
    if width <= |record| {
      CsvCandidatesSnoc(width, table.records[..k], record);
    } else {
      CsvCandidatesSnocFails(width, table.records[..k], record);
      CsvFailureSticks(width, table.records, k + 1);
    }
  }

  /** The inner loop of ProcessCsv over one record: the candidates among its
      first `width` fields, or `complete` false when the record is shorter. */
  method ReadFields(record: seq<string>, width: nat) returns (found: seq<string>, complete: bool)
    ensures complete <==> width <= |record|
    ensures complete ==> found == Addresses(record[..width])
  {
    found := [];
    var i := 0;
    while i < width
      invariant 0 <= i <= width && i <= |record|
      invariant found == Addresses(record[..i])
    {
      if i >= |record| {
        return found, false;
      }
      var value := Trim(record[i]);
      AddressesStep(record, i);
      if IsCandidate(value) {
        found := found + [value];
      }
      i := i + 1;
    }
    complete := true;
  }

  /** ProcessCsv as written: the nested loops append to a list, then Distinct. */
  method ProcessCsv(table: CsvTable) returns (r: Result<seq<string>, FileError>)
    ensures r == CsvEmails(table)
  {
    var width := if table.header.Some? then |table.header.value| else 0;
    var emails: seq<string> := [];
    var k := 0;
    while k < |table.records|
      invariant 0 <= k <= |table.records|
      invariant CsvCandidates(width, table.records[..k]) == Success(emails)
    {
      var record := table.records[k];
      CsvRecordRead(table, k, emails);
      var found, complete := ReadFields(record, width);
      if !complete {
        return Failure(MissingField(k, |record|));
      }
      emails := emails + found;
      k := k + 1;
    }
    assert table.records[..k] == table.records;
    CsvAllRead(table, emails);
    r := Success(Distinct(emails));
  }

  /** Once a prefix of the records fails, the whole read fails the same way. */
  lemma {:induction false} CsvFailureSticks(width: nat, records: seq<seq<string>>, k: nat)
    requires k <= |records| && CsvCandidates(width, records[..k]).Failure?
    ensures CsvCandidates(width, records) == CsvCandidates(width, records[..k])
    decreases |records| - k
  {
    if k < |records| {
      var next := records[..k + 1];
      assert next[..k] == records[..k];
      CsvFailureSticks(width, records, k + 1);
    } else {
      assert records[..k] == records;
    }
  }

  // Excel ------------------------------------------------------------------

  /** The nested loops of ProcessExcel: every value of every dictionary row,
      trimmed, in order; other rows contribute nothing. */
  function ExcelCandidates(rows: seq<ExcelRow>): (r: seq<string>)
    ensures forall x :: x in r ==> IsCandidate(x)
    decreases |rows|
  {
    if rows == [] then []
    else
      var prefix := ExcelCandidates(rows[..|rows| - 1]);
      match rows[|rows| - 1]
      case DictionaryRow(values) => prefix + Addresses(Present(values))
      case OtherRow => prefix
  }

  function ExcelEmails(rows: seq<ExcelRow>): seq<string>
  {
    Distinct(ExcelCandidates(rows))
  }

  /** Value `i` of row `k` is a non-null value of a dictionary row. */
  predicate IsCell(rows: seq<ExcelRow>, k: int, i: int)
  {
    0 <= k < |rows| && rows[k].DictionaryRow? && 0 <= i < |rows[k].values| && rows[k].values[i].Some?
  }

  /** Every address comes from a value of a dictionary row. */
  lemma {:induction false} ExcelAddressFromCell(rows: seq<ExcelRow>, a: string)
    requires a in ExcelCandidates(rows)
    ensures exists k, i :: IsCell(rows, k, i) && a == Trim(rows[k].values[i].value)
    decreases |rows|
  {
    var n := |rows| - 1;
    var init := rows[..n];
    if a in ExcelCandidates(init) {
      ExcelAddressFromCell(init, a);
      var k, i :| IsCell(init, k, i) && a == Trim(init[k].values[i].value);
      assert init[k] == rows[k];
    } else {
      var p := Present(rows[n].values);
      AddressesOfValues(p);
      var i :| 0 <= i < |p| && a == Trim(p[i]);
      assert IsCandidate(a);
      assert rows[n].values[i].Some?;
      assert IsCell(rows, n, i);
    }
  }

  /** Every value of a dictionary row that is a candidate once trimmed becomes an
      address. */
  lemma {:induction false} ExcelCellIsAddress(rows: seq<ExcelRow>, k: nat, i: nat)
    requires IsCell(rows, k, i) && IsCandidate(Trim(rows[k].values[i].value))
    ensures Trim(rows[k].values[i].value) in ExcelCandidates(rows)
    decreases |rows|
  {
    var n := |rows| - 1;
    var init := rows[..n];
    if k < n {
      assert init[k] == rows[k];
      ExcelCellIsAddress(init, k, i);
    } else {
      var p := Present(rows[n].values);
      AddressesOfValues(p);
      assert p[i] == rows[k].values[i].value;
    }
  }

  /** The Excel candidates are exactly the trimmed non-null values of dictionary
      rows that are candidates. */
  lemma ExcelCandidatesSpec(rows: seq<ExcelRow>)
    ensures forall a :: a in ExcelCandidates(rows) ==>
      IsCandidate(a) && exists k, i :: IsCell(rows, k, i) && a == Trim(rows[k].values[i].value)
    ensures forall k, i :: IsCell(rows, k, i) && IsCandidate(Trim(rows[k].values[i].value)) ==>
      Trim(rows[k].values[i].value) in ExcelCandidates(rows)
  {
    forall a | a in ExcelCandidates(rows)
      ensures exists k, i :: IsCell(rows, k, i) && a == Trim(rows[k].values[i].value)
    {
      ExcelAddressFromCell(rows, a);
    }
    forall k, i | IsCell(rows, k, i) && IsCandidate(Trim(rows[k].values[i].value))
      ensures Trim(rows[k].values[i].value) in ExcelCandidates(rows)
    {
      ExcelCellIsAddress(rows, k, i);
    }
  }

  lemma ExcelCandidatesSnoc(rows: seq<ExcelRow>, row: ExcelRow)
    ensures ExcelCandidates(rows + [row]) == ExcelCandidates(rows) + (if row.DictionaryRow? then Addresses(Present(row.values)) else [])
  {
    assert (rows + [row])[..|rows|] == rows;
  }

  /** The inner loop of ProcessExcel over one dictionary row: its values, a null
      read as "", trimmed, and the candidates kept in order. */
  method ReadValues(values: seq<Option<string>>) returns (found: seq<string>)
    ensures found == Addresses(Present(values))
  {
    ghost var p := Present(values);
    found := [];
    var i := 0;
    while i < |values|
      invariant 0 <= i <= |values|
      invariant found == Addresses(p[..i])
    {
      var email := if values[i].Some? then Trim(values[i].value) else "";
      AddressesStep(p, i);
      if IsCandidate(email) {
        found := found + [email];
      }
      i := i + 1;
    }
    assert p[..i] == p;
  }

  /** ProcessExcel as written: the nested loops append to a list, then Distinct. */
  method ProcessExcel(rows: seq<ExcelRow>) returns (r: seq<string>)
    ensures r == ExcelEmails(rows)
  {
    var emails: seq<string> := [];
    var k := 0;
    while k < |rows|
      invariant 0 <= k <= |rows|
      invariant emails == ExcelCandidates(rows[..k])
    {
      var row := rows[k];
      if row.DictionaryRow? {
        var found := ReadValues(row.values);
        emails := emails + found;
      }
      ExcelCandidatesSnoc(rows[..k], row);
      assert rows[..k + 1] == rows[..k] + [row];
      k := k + 1;
    }
    assert rows[..k] == rows;
    r := Distinct(emails);
  }

  // ---------------------------------------------------------------------------
  // Dispatch on the extension
  // ---------------------------------------------------------------------------

  /** Path.GetExtension with '/' as the only separator: the part of the last
      segment from its last '.', or "" when there is none or it ends the path. */
  function Extension(path: string): (e: string)
    ensures e != "" ==> (2 <= |e| <= |path| && e[0] == '.' && e == path[|path| - |e|..]
      && forall k :: |path| - |e| < k < |path| ==> path[k] != '.' && path[k] != '/')
  {
    ExtensionBefore(path, |path|)
  }

  function ExtensionBefore(path: string, i: nat): (e: string)
    requires i <= |path|
    requires forall k :: i <= k < |path| ==> path[k] != '.' && path[k] != '/'
    ensures e != "" ==> (2 <= |e| <= |path| && e[0] == '.' && e == path[|path| - |e|..]
      && forall k :: |path| - |e| < k < |path| ==> path[k] != '.' && path[k] != '/')
    ensures e != "" ==> |path| - |e| < i
    decreases i
  {
    if i == 0 then ""
    else if path[i - 1] == '.' then (if i == |path| then "" else path[i - 1..])
    else if path[i - 1] == '/' then ""
    else
      ExtensionBefore(path, i - 1)
  }

  /** Conversely, a '.' followed by a non-empty name without '.' or '/' starts the extension. */
  lemma {:induction false} ExtensionOfName(path: string, d: nat)
    requires d < |path| - 1 && path[d] == '.'
    requires forall k :: d < k < |path| ==> path[k] != '.' && path[k] != '/'
    ensures Extension(path) == path[d..]
  {
    ExtensionBeforeReaches(path, d, |path|);
  }

  lemma {:induction false} ExtensionBeforeReaches(path: string, d: nat, i: nat)
    requires d < i <= |path| && d < |path| - 1 && path[d] == '.'
    requires forall k :: d < k < |path| ==> path[k] != '.' && path[k] != '/'
    ensures ExtensionBefore(path, i) == path[d..]
    decreases i
  {
    if i - 1 > d {
      ExtensionBeforeReaches(path, d, i - 1);
    }
  }

  /** ToLower on ASCII letters; other characters are kept. */
  function LowerAscii(s: string): (r: string)
    ensures |r| == |s|
    ensures forall i :: 0 <= i < |r| ==> !('A' <= r[i] <= 'Z')
    ensures forall i :: 0 <= i < |s| && !('A' <= s[i] <= 'Z') ==> r[i] == s[i]
    ensures forall i :: 0 <= i < |s| && 'A' <= s[i] <= 'Z' ==>
      'a' <= r[i] <= 'z' && r[i] as int - 'a' as int == s[i] as int - 'A' as int
  {
    seq(|s|, i requires 0 <= i < |s| => if 'A' <= s[i] <= 'Z' then (s[i] as int + 32) as char else s[i])
  }

  /** Lower-casing a lower-cased string changes nothing. */
  lemma LowerAsciiIdempotent(s: string)
    ensures LowerAscii(LowerAscii(s)) == LowerAscii(s)
  {
    var r := LowerAscii(s);
    assert forall i :: 0 <= i < |r| ==> LowerAscii(r)[i] == r[i];
  }

  /** The contents each reader would yield for the file. */
  datatype FileContents = FileContents(
    csv: CsvTable,
    json: Result<Option<seq<Option<string>>>, string>,
    excel: seq<ExcelRow>,
    lines: seq<string>)

  predicate Supported(ext: string)
  {
    ext == ".csv" || ext == ".json" || ext == ".xlsx" || ext == ".xls" || ext == ".txt"
  }

  /** ReadEmailsFromFile: a missing file, an unsupported extension, or the
      addresses of the reader the lower-cased extension selects. */
  function ReadEmails(path: string, fileExists: bool, contents: FileContents): (r: Result<seq<string>, FileError>)
    ensures !fileExists ==> r == Failure(FileNotFound(path))
    ensures fileExists && !Supported(LowerAscii(Extension(path))) ==> r == Failure(NotSupported(LowerAscii(Extension(path))))
    ensures r.Success? ==> NoDuplicates(r.value) && forall x :: x in r.value ==> IsCandidate(x)
  {
    if !fileExists then Failure(FileNotFound(path))
    else
      var ext := LowerAscii(Extension(path));
      if ext == ".csv" then CsvEmails(contents.csv)
      else if ext == ".json" then JsonEmails(contents.json)
      else if ext == ".xlsx" || ext == ".xls" then Success(ExcelEmails(contents.excel))
      else if ext == ".txt" then Success(TextEmails(contents.lines))
      else Failure(NotSupported(ext))
  }

  /** Each supported extension reads with its own reader. */
  lemma ReadEmailsDispatch(path: string, contents: FileContents)
    ensures var ext := LowerAscii(Extension(path));
      && (ext == ".csv" ==> ReadEmails(path, true, contents) == CsvEmails(contents.csv))
      && (ext == ".json" ==> ReadEmails(path, true, contents) == JsonEmails(contents.json))
      && (ext == ".xlsx" || ext == ".xls" ==> ReadEmails(path, true, contents) == Success(ExcelEmails(contents.excel)))
      && (ext == ".txt" ==> ReadEmails(path, true, contents) == Success(TextEmails(contents.lines)))
  {
  }

  /** ReadEmailsFromFile with the CSV and Excel readers run as their loops. */
  method ReadEmailsFromFile(path: string, fileExists: bool, contents: FileContents) returns (r: Result<seq<string>, FileError>)
    ensures r == ReadEmails(path, fileExists, contents)
  {
    if !fileExists {
      return Failure(FileNotFound(path));
    }
    var ext := LowerAscii(Extension(path));
    if ext == ".csv" {
      r := ProcessCsv(contents.csv);
    } else if ext == ".json" {
      r := JsonEmails(contents.json);
    } else if ext == ".xlsx" || ext == ".xls" {
      var found := ProcessExcel(contents.excel);
      r := Success(found);
    } else if ext == ".txt" {
      r := Success(TextEmails(contents.lines));
    } else {
      r := Failure(NotSupported(ext));
    }
  }
}
