/**
 * The CSV export of applications (apps/api/src/application-export.ts), read back by a reader for the
 * format of RFC 4180, section 2.
 */
module ApplicationCsv {
  import opened Prelude

  /** Dates arrive as their ISO text. */
  datatype Evidence = Evidence(appliedAt: Option<string>, method_: Option<string>, confirmation: Option<string>,
                               confidence: Option<string>, source: Option<string>)

  datatype LeadRecord = LeadRecord(title: Option<string>, company: Option<string>, location: Option<string>,
                                   source: Option<string>, applyUrl: Option<string>, status: string,
                                   updatedAt: string, evidence: Option<Evidence>, notes: Option<string>)

  const CRLF: string := "\r\n"

  // ---------------------------------------------------------------------------------------------
  // Columns.

  datatype Column = JobTitle | Company | Location | Source | JobUrl | Status | UpdatedAt | AppliedAt | Method
                  | Confirmation | Confidence | EvidenceSource | Notes

  /** What a column is called, and what it shows. */
  function Label(c: Column): string {
    match c
    case JobTitle => "Job title"
    case Company => "Company"
    case Location => "Location"
    case Source => "Source"
    case JobUrl => "Official job URL"
    case Status => "Application status"
    case UpdatedAt => "Status updated at (UTC)"
    case AppliedAt => "Candidate-reported applied at (UTC)"
    case Method => "Candidate-reported method"
    case Confirmation => "Candidate-reported confirmation"
    case Confidence => "Candidate-reported confidence"
    case EvidenceSource => "Candidate-reported source"
    case Notes => "Notes"
  }

  function ValueUnder(r: LeadRecord, c: Column): Option<string> {
    match c
    case JobTitle => r.title
    case Company => r.company
    case Location => r.location
    case Source => r.source
    case JobUrl => r.applyUrl
    case Status => Some(r.status)
    case UpdatedAt => Some(r.updatedAt)
    case AppliedAt => Reported(r, (e: Evidence) => e.appliedAt)
    case Method => Reported(r, (e: Evidence) => e.method_)
    case Confirmation => Reported(r, (e: Evidence) => e.confirmation)
    case Confidence => Reported(r, (e: Evidence) => e.confidence)
    case EvidenceSource => Reported(r, (e: Evidence) => e.source)
    case Notes => r.notes
  }

  function Reported(r: LeadRecord, field: Evidence -> Option<string>): Option<string> {
    if r.evidence.Some? then field(r.evidence.value) else None
  }

  const ORDER: seq<Column> := [JobTitle, Company, Location, Source, JobUrl, Status, UpdatedAt, AppliedAt, Method,
                               Confirmation, Confidence, EvidenceSource, Notes]

  function Labels(columns: seq<Column>): (labels: seq<string>)
    ensures |labels| == |columns| && forall i :: 0 <= i < |columns| ==> labels[i] == Label(columns[i])
  {
    if columns == [] then [] else [Label(columns[0])] + Labels(columns[1..])
  }

  function Values(r: LeadRecord, columns: seq<Column>): (values: seq<string>)
    ensures |values| == |columns| && forall i :: 0 <= i < |columns| ==> values[i] == ValueUnder(r, columns[i]).GetOr("")
  {
    if columns == [] then [] else [ValueUnder(r, columns[0]).GetOr("")] + Values(r, columns[1..])
  }

  /** The header row, and the row of a record. */
  const COLUMNS: seq<string> := Labels(ORDER)

  function FieldsOf(r: LeadRecord): (f: seq<string>)
    ensures |f| == |COLUMNS|
  {
    Values(r, ORDER)
  }

  const REPORTED: string := "Candidate-reported"

  predicate IsReported(c: Column) {
    c in {AppliedAt, Method, Confirmation, Confidence, EvidenceSource}
  }

  /** The headers tell the columns apart, and say which ones come from the candidate's own claim. */
  lemma HeadersTellApart(i: nat, j: nat)
    requires i < 13 && j < 13
    ensures |COLUMNS| == |ORDER| == 13 && (COLUMNS[i] == COLUMNS[j] <==> i == j)
    ensures IsReported(ORDER[i]) <==> REPORTED <= COLUMNS[i]
  {
    hide Label, REPORTED;
    LabelsDiffer(ORDER[i], ORDER[j]);
    ReportedLabels(ORDER[i]);
    EachColumnOnce(i, j);
  }

  lemma EachColumnOnce(i: nat, j: nat)
    requires i < 13 && j < 13
    ensures |ORDER| == 13 && (ORDER[i] == ORDER[j] <==> i == j)
  {
  }

  lemma LabelsDiffer(c: Column, d: Column)
    ensures Label(c) == Label(d) ==> c == d
  {
    hide Label;
    LabelFacts(c);
    LabelFacts(d);
  }

  function LabelLength(c: Column): nat {
    match c
    case JobTitle => 9
    case Company => 7
    case Location => 8
    case Source => 6
    case JobUrl => 16
    case Status => 18
    case UpdatedAt => 23
    case AppliedAt => 35
    case Method => 25
    case Confirmation => 31
    case Confidence => 29
    case EvidenceSource => 25
    case Notes => 5
  }

  /** Lengths and a few characters are enough. */
  lemma LabelFacts(c: Column)
    ensures |Label(c)| == LabelLength(c) && 'A' <= Label(c)[0] <= 'Z'
    ensures c.Status? || c.UpdatedAt? ==> Label(c)[0] != 'C'
    ensures c.Method? ==> Label(c)[19] == 'm'
    ensures c.EvidenceSource? ==> Label(c)[19] == 's'
  {
  }

  lemma ReportedLabels(c: Column)
    ensures IsReported(c) <==> REPORTED <= Label(c)
  {
    if !IsReported(c) {
      ReportedIsLonger();
      hide Label, REPORTED;
      LabelFacts(c);
    }
  }

  lemma ReportedIsLonger()
    ensures |REPORTED| == 18 && REPORTED[0] == 'C'
  {
  }

  /**
   * Every value stands under its own header; a candidate-reported column depends on the evidence alone and is
   * empty without any, and no other column depends on it.
   */
  lemma FieldsUnderHeaders(r: LeadRecord, i: nat, other: LeadRecord)
    requires i < 13
    ensures |COLUMNS| == |ORDER| == 13
    ensures COLUMNS[i] == Label(ORDER[i]) && FieldsOf(r)[i] == ValueUnder(r, ORDER[i]).GetOr("")
    ensures IsReported(ORDER[i]) ==> FieldsOf(other.(evidence := r.evidence))[i] == FieldsOf(r)[i]
    ensures IsReported(ORDER[i]) && r.evidence.None? ==> FieldsOf(r)[i] == ""
    ensures !IsReported(ORDER[i]) ==> FieldsOf(r.(evidence := other.evidence))[i] == FieldsOf(r)[i]
  {
    hide Label, REPORTED;
    EvidenceColumns(r, ORDER[i], other);
    hide ValueUnder, IsReported;
  }

  /** The header row, and the row of a record, column by column. */
  lemma HeaderRow()
    ensures COLUMNS[..7] == ["Job title", "Company", "Location", "Source", "Official job URL", "Application status",
                             "Status updated at (UTC)"]
    ensures COLUMNS[7..] == ["Candidate-reported applied at (UTC)", "Candidate-reported method",
                             "Candidate-reported confirmation", "Candidate-reported confidence",
                             "Candidate-reported source", "Notes"]
  {
    FirstHeaders();
    LastHeaders();
  }

  lemma FirstHeaders()
    ensures COLUMNS[..7] == ["Job title", "Company", "Location", "Source", "Official job URL", "Application status",
                             "Status updated at (UTC)"]
  {
    hide Labels;
    assert |ORDER| == 13;
  }

  lemma LastHeaders()
    ensures COLUMNS[7..] == ["Candidate-reported applied at (UTC)", "Candidate-reported method",
                             "Candidate-reported confirmation", "Candidate-reported confidence",
                             "Candidate-reported source", "Notes"]
  {
    hide Labels;
    assert |ORDER| == 13;
  }

  lemma RecordRow(r: LeadRecord)
    ensures var e := r.evidence.GetOr(Evidence(None, None, None, None, None));
            FieldsOf(r) == [r.title.GetOr(""), r.company.GetOr(""), r.location.GetOr(""), r.source.GetOr(""),
                            r.applyUrl.GetOr(""), r.status, r.updatedAt, e.appliedAt.GetOr(""), e.method_.GetOr(""),
                            e.confirmation.GetOr(""), e.confidence.GetOr(""), e.source.GetOr(""), r.notes.GetOr("")]
  {
    hide Label, Labels, COLUMNS, Values;
    var row := FieldsOf(r);
    assert |ORDER| == 13;
    assert forall i :: 0 <= i < 13 ==> row[i] == ValueUnder(r, ORDER[i]).GetOr("");
  }

  lemma EvidenceColumns(r: LeadRecord, c: Column, other: LeadRecord)
    ensures IsReported(c) ==> ValueUnder(other.(evidence := r.evidence), c) == ValueUnder(r, c)
    ensures IsReported(c) && r.evidence.None? ==> ValueUnder(r, c) == None
    ensures !IsReported(c) ==> ValueUnder(r.(evidence := other.evidence), c) == ValueUnder(r, c)
  {
  }

  // ---------------------------------------------------------------------------------------------
  // Cells.

  predicate Skipped(c: char) {
    c as int <= 0x20 || c as int == 0x7f
  }

  predicate Operator(c: char) {
    c in {'=', '+', '-', '@'}
  }

  /** A spreadsheet may run this text as a formula: its first character behind spaces and controls is an operator. */
  predicate LooksLikeFormula(text: string)
    decreases |text|
  {
    text != [] && if Skipped(text[0]) then LooksLikeFormula(text[1..]) else Operator(text[0])
  }

  /** The first character that is neither a space nor a control character. */
  predicate FirstContent(text: string, k: nat) {
    && k < |text| && text[k] as int > 32 && text[k] as int != 127
    && forall i :: 0 <= i < k ==> text[i] as int <= 32 || text[i] as int == 127
  }

  /** Formulas are the texts whose first such character is `=`, `+`, `-` or `@`. */
  lemma {:induction false} FormulaIff(text: string)
    ensures LooksLikeFormula(text) <==> exists k: nat :: FirstContent(text, k) && text[k] in {'=', '+', '-', '@'}
    decreases |text|
  {
    if text != "" {
      var rest := text[1..];
      FormulaIff(rest);
      if Skipped(text[0]) {
        forall k: nat | 0 < k ensures FirstContent(text, k) <==> FirstContent(rest, k - 1) {
          assert forall i :: 0 < i < |text| ==> text[i] == rest[i - 1];
        }
        if k: nat :| FirstContent(rest, k) && rest[k] in {'=', '+', '-', '@'} {
          assert FirstContent(text, k + 1) && text[k + 1] == rest[k];
        }
      } else {
        assert FirstContent(text, 0);
      }
    }
  }

  function Safe(text: string): string {
    if LooksLikeFormula(text) then "'" + text else text
  }

  function Doubled(text: string): string
    decreases |text|
  {
    if text == "" then "" else (if text[0] == '"' then "\"\"" else [text[0]]) + Doubled(text[1..])
  }

  function Cell(text: string): string {
    "\"" + Doubled(Safe(text)) + "\""
  }

  lemma {:induction false} SkippingKeepsFormula(text: string, k: nat)
    requires k <= |text| && forall i :: 0 <= i < k ==> Skipped(text[i])
    ensures LooksLikeFormula(text) <==> LooksLikeFormula(text[k..])
    decreases k
  {
    if k > 0 {
      SkippingKeepsFormula(text[1..], k - 1);
      assert text[1..][k - 1..] == text[k..];
    }
  }

  method CsvCell(value: Option<string>) returns (cell: string)
    ensures cell == Cell(value.GetOr(""))
  {
    var text := value.GetOr("");
    var firstContent := 0;
    while firstContent < |text| && Skipped(text[firstContent])
      invariant 0 <= firstContent <= |text|
      invariant forall i :: 0 <= i < firstContent ==> Skipped(text[i])
    {
      firstContent := firstContent + 1;
    }
    SkippingKeepsFormula(text, firstContent);
    var formula := firstContent < |text| && Operator(text[firstContent]);
    var safe := if formula then "'" + text else text;
    cell := "\"" + Doubled(safe) + "\"";
  }

  /** No cell is left that a spreadsheet could run, and only such text is changed. */
  lemma SafeIsNoFormula(text: string)
    ensures !LooksLikeFormula(Safe(text)) && (Safe(text) == text <==> !LooksLikeFormula(text))
    ensures Safe(Safe(text)) == Safe(text)
  {
    if LooksLikeFormula(text) {
      assert Safe(text)[0] == '\'';
      assert |Safe(text)| == |text| + 1;
    }
  }

  // ---------------------------------------------------------------------------------------------
  // Rows.

  function Join(parts: seq<string>, separator: string): string
    decreases |parts|
  {
    if parts == [] then "" else if |parts| == 1 then parts[0] else parts[0] + separator + Join(parts[1..], separator)
  }

  function CellsOf(texts: seq<string>): seq<string>
    decreases |texts|
  {
    if texts == [] then [] else [Cell(texts[0])] + CellsOf(texts[1..])
  }

  function RowText(texts: seq<string>): string {
    Join(CellsOf(texts), ",")
  }

  function RowTexts(rows: seq<seq<string>>): seq<string>
    decreases |rows|
  {
    if rows == [] then [] else [RowText(rows[0])] + RowTexts(rows[1..])
  }

  function FileText(rows: seq<seq<string>>): string {
    Join(RowTexts(rows), CRLF) + CRLF
  }

  function RecordRows(records: seq<LeadRecord>): seq<seq<string>>
    decreases |records|
  {
    if records == [] then [] else [FieldsOf(records[0])] + RecordRows(records[1..])
  }

  function ApplicationsCsv(records: seq<LeadRecord>): string {
    FileText([COLUMNS] + RecordRows(records))
  }

  // ---------------------------------------------------------------------------------------------
  // The reader: records separated by CRLF, the last one perhaps followed by one; fields separated by
  // commas, plain or quoted, with a quote inside a quoted field doubled.

  /** Behind an opening quote. */
  function ReadQuoted(s: string): (r: Option<(string, string)>)
    ensures r.Some? ==> |r.value.1| < |s|
    decreases |s|
  {
    if s == "" then None
    else if s[0] != '"' then
      match ReadQuoted(s[1..])
      case None => None
      case Some((field, rest)) => Some(([s[0]] + field, rest))
    else if |s| > 1 && s[1] == '"' then
      match ReadQuoted(s[2..])
      case None => None
      case Some((field, rest)) => Some(("\"" + field, rest))
    else Some(("", s[1..]))
  }

  function ReadPlain(s: string): (r: (string, string))
    ensures |r.1| <= |s|
    decreases |s|
  {
    if s == "" || s[0] in {',', '"', '\r', '\n'} then ("", s)
    else var (field, rest) := ReadPlain(s[1..]); ([s[0]] + field, rest)
  }

  function ReadField(s: string): (r: Option<(string, string)>)
    ensures r.Some? ==> |r.value.1| <= |s|
  {
    if s != "" && s[0] == '"' then ReadQuoted(s[1..]) else Some(ReadPlain(s))
  }

  function ReadRecord(s: string): (r: Option<(seq<string>, string)>)
    ensures r.Some? ==> |r.value.1| <= |s|
    decreases |s|
  {
    match ReadField(s)
    case None => None
    case Some((field, rest)) =>
      if rest != "" && rest[0] == ',' then
        match ReadRecord(rest[1..])
        case None => None
        case Some((fields, behind)) => Some(([field] + fields, behind))
      else Some(([field], rest))
  }

  function ReadCsv(s: string): Option<seq<seq<string>>>
    decreases |s|
  {
    match ReadRecord(s)
    case None => None
    case Some((record, rest)) =>
      if rest == "" || rest == CRLF then Some([record])
      else if |rest| > 2 && rest[..2] == CRLF then
        match ReadCsv(rest[2..])
        case None => None
        case Some(records) => Some([record] + records)
      else None
  }

  // ---------------------------------------------------------------------------------------------
  // Round trip.

  lemma {:induction false} QuotedReadsBack(text: string, rest: string)
    requires rest == "" || rest[0] != '"'
    ensures ReadQuoted(Doubled(text) + "\"" + rest) == Some((text, rest))
    decreases |text|
  {
    var all := Doubled(text) + "\"" + rest;
    if text == "" {
      assert all == "\"" + rest;
      assert all[1..] == rest;
    } else {
      QuotedReadsBack(text[1..], rest);
      var tail := Doubled(text[1..]) + "\"" + rest;
      assert text == [text[0]] + text[1..];
      if text[0] == '"' {
        assert all == "\"\"" + tail;
        assert all[2..] == tail;
      } else {
        assert all == [text[0]] + tail;
        assert all[1..] == tail;
      }
    }
  }

  lemma CellReadsBack(text: string, rest: string)
    requires rest == "" || rest[0] != '"'
    ensures ReadField(Cell(text) + rest) == Some((Safe(text), rest))
  {
    QuotedReadsBack(Safe(text), rest);
    var s := Cell(text) + rest;
    assert s[0] == '"' && s[1..] == Doubled(Safe(text)) + "\"" + rest;
  }

  function SafeAll(texts: seq<string>): (safe: seq<string>)
    ensures |safe| == |texts| && forall i :: 0 <= i < |texts| ==> safe[i] == Safe(texts[i])
    decreases |texts|
  {
    if texts == [] then [] else [Safe(texts[0])] + SafeAll(texts[1..])
  }

  lemma Regroup(a: string, b: string, c: string, d: string)
    ensures a + b + c + d == a + (b + (c + d))
  {
  }

  /** A list of texts joined, first one out. */
  lemma JoinCons(parts: seq<string>, separator: string, rest: string)
    requires |parts| > 1
    ensures Join(parts, separator) + rest == parts[0] + (separator + (Join(parts[1..], separator) + rest))
  {
    Regroup(parts[0], separator, Join(parts[1..], separator), rest);
  }

  lemma RowTextCons(texts: seq<string>, rest: string)
    requires |texts| > 1
    ensures RowText(texts) + rest == Cell(texts[0]) + ("," + (RowText(texts[1..]) + rest))
  {
    CellsCount(texts);
    JoinCons(CellsOf(texts), ",", rest);
    hide Cell, Join;
    assert CellsOf(texts)[1..] == CellsOf(texts[1..]);
  }

  lemma {:induction false} RowReadsBack(texts: seq<string>, rest: string)
    requires texts != [] && (rest == "" || (rest[0] != '"' && rest[0] != ','))
    ensures ReadRecord(RowText(texts) + rest) == Some((SafeAll(texts), rest))
    decreases |texts|
  {
    if |texts| == 1 {
      CellReadsBack(texts[0], rest);
      hide Cell, Safe, ReadField;
      assert CellsOf(texts) == [Cell(texts[0])];
      assert SafeAll(texts) == [Safe(texts[0])];
    } else {
      hide Cell, Safe, ReadField, RowText;
      var more := "," + (RowText(texts[1..]) + rest);
      RowReadsBack(texts[1..], rest);
      CellReadsBack(texts[0], more);
      RowTextCons(texts, rest);
      assert more[0] == ',' && more[1..] == RowText(texts[1..]) + rest;
    }
  }

  lemma {:induction false} CellsCount(texts: seq<string>)
    ensures |CellsOf(texts)| == |texts|
    decreases |texts|
  {
    if texts != [] { CellsCount(texts[1..]); }
  }

  function SafeRows(rows: seq<seq<string>>): seq<seq<string>>
    decreases |rows|
  {
    if rows == [] then [] else [SafeAll(rows[0])] + SafeRows(rows[1..])
  }

  lemma FileTextCons(rows: seq<seq<string>>)
    requires rows != []
    ensures FileText(rows) == RowText(rows[0]) + (if |rows| == 1 then CRLF else CRLF + FileText(rows[1..]))
  {
    hide RowText;
    RowTextsCount(rows);
    var texts := RowTexts(rows);
    assert texts[0] == RowText(rows[0]);
    if |rows| > 1 {
      JoinCons(texts, CRLF, CRLF);
      hide Join;
      assert texts[1..] == RowTexts(rows[1..]);
    }
  }

  /** The reader's step over one record and its line break. */
  lemma ReadStep(first: seq<string>, tail: string)
    requires first != []
    ensures ReadCsv(RowText(first) + CRLF) == Some([SafeAll(first)])
    ensures tail != "" && ReadCsv(tail).Some? ==>
              ReadCsv(RowText(first) + (CRLF + tail)) == Some([SafeAll(first)] + ReadCsv(tail).value)
  {
    RowReadsBack(first, CRLF);
    RowReadsBack(first, CRLF + tail);
    assert (CRLF + tail)[..2] == CRLF && (CRLF + tail)[2..] == tail;
    hide RowText, SafeAll, ReadRecord;
  }

  lemma {:induction false} RowsReadBack(rows: seq<seq<string>>)
    requires rows != [] && forall i :: 0 <= i < |rows| ==> rows[i] != []
    ensures ReadCsv(FileText(rows)) == Some(SafeRows(rows))
    decreases |rows|
  {
    hide RowText, SafeAll, ReadCsv, FileText;
    FileTextCons(rows);
    if |rows| == 1 {
      ReadStep(rows[0], "");
      assert SafeRows(rows[1..]) == [];
      assert SafeRows(rows) == [SafeAll(rows[0])];
    } else {
      RowsReadBack(rows[1..]);
      FileTextNonEmpty(rows[1..]);
      ReadStep(rows[0], FileText(rows[1..]));
    }
  }

  lemma FileTextNonEmpty(rows: seq<seq<string>>)
    ensures FileText(rows) != ""
  {
  }

  lemma {:induction false} RowTextsCount(rows: seq<seq<string>>)
    ensures |RowTexts(rows)| == |rows|
    decreases |rows|
  {
    if rows != [] { RowTextsCount(rows[1..]); }
  }

  lemma {:induction false} RecordRowsAre(records: seq<LeadRecord>)
    ensures |RecordRows(records)| == |records|
            && forall i :: 0 <= i < |records| ==> RecordRows(records)[i] == FieldsOf(records[i])
    decreases |records|
  {
    hide FieldsOf, COLUMNS, ORDER, Labels;
    if records != [] { RecordRowsAre(records[1..]); }
  }

  lemma {:induction false} SafeRowsAre(rows: seq<seq<string>>)
    ensures |SafeRows(rows)| == |rows| && forall i :: 0 <= i < |rows| ==> SafeRows(rows)[i] == SafeAll(rows[i])
    decreases |rows|
  {
    if rows != [] { SafeRowsAre(rows[1..]); }
  }

  lemma CapitalIsSafe(text: string)
    requires text != "" && 'A' <= text[0] <= 'Z'
    ensures Safe(text) == text
  {
  }

  lemma {:induction false} PlainLabels(columns: seq<Column>)
    ensures SafeAll(Labels(columns)) == Labels(columns)
  {
    hide Label, Safe;
    var labels := Labels(columns);
    forall i | 0 <= i < |labels| ensures Safe(labels[i]) == labels[i] {
      LabelFacts(columns[i]);
      CapitalIsSafe(labels[i]);
    }
  }

  lemma PlainColumns()
    ensures |COLUMNS| == 13 && SafeAll(COLUMNS) == COLUMNS
  {
    hide Labels, Label, Safe;
    HeadersTellApart(0, 0);
    PlainLabels(ORDER);
  }

  /**
   * Whatever quotes, commas and line breaks the records hold, an RFC 4180 reader gets back the header and
   * one 13-field row per record, each field exactly the text that was passed to quoting.
   */
  lemma ExportReadsBack(records: seq<LeadRecord>)
    ensures var rows := ReadCsv(ApplicationsCsv(records));
            && rows.Some? && |rows.value| == |records| + 1 && rows.value[0] == COLUMNS
            && forall i :: 0 <= i < |records| ==>
                 |rows.value[i + 1]| == 13
                     && forall c :: 0 <= c < 13 ==> rows.value[i + 1][c] == Safe(FieldsOf(records[i])[c])
  {
    PlainColumns();
    hide COLUMNS, ORDER, Labels, Safe, FieldsOf, FileText, ReadCsv;
    var rows := [COLUMNS] + RecordRows(records);
    RecordRowsAre(records);
    RowsReadBack(rows);
    SafeRowsAre(rows);
    forall i | 0 <= i < |records|
      ensures SafeRows(rows)[i + 1] == SafeAll(FieldsOf(records[i]))
    {
      assert rows[i + 1] == RecordRows(records)[i];
    }
  }
}
