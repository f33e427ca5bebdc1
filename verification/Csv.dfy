/** The evidence report as comma-separated text, and a reader for that text by
    the rules of section 2 of RFC 4180. */
module Csv {
  import opened Basics
  import opened Numerals

  // ----- writing -----

  /** Letters, in the range that holds no special character. */
  predicate IsName(s: string) { s != "" && forall i :: 0 <= i < |s| ==> 'A' <= s[i] <= 'z' }

  /** The columns of the report, in the order of the header. */
  datatype Column =
    | GeneratedAt | PeriodFrom | PeriodTo | ObservationAt | Basis | SubjectType | SubjectId | OperationKey
    | OperationType | EMAID | WalletAddress | AmountSparkz | Status | MovementOutcome | TransactionHash | ChainId
    | TokenContractAddress | AssetProvenance | PolicySource | PolicyRevision | RulesVersion | SafePolicyFingerprint
    | SessionId | ProviderId | ReservationId | CreatedAt | SubmittedAt | ConfirmedAt | ProjectedAt | ActivityAt
    | ActivityAtSource | ExceptionCategory | AnnotationCount | SummaryIssuedMovementCount
    | SummaryReturnedMovementCount | SummaryConfirmedMovementCount | SummaryExceptionCount | SummaryTotalsByAsset
    | CoverageTotalIsLowerBound | CoverageTruncated | CoverageUnknownMovementCount | CoverageInvalidHashCount
    | CoverageUnknownAssetCount | CoverageDuplicateConflictCount | CoverageWarnings

  const PERIOD: seq<Column> := [GeneratedAt, PeriodFrom, PeriodTo, ObservationAt, Basis]
  const SUBJECT: seq<Column> := [SubjectType, SubjectId, OperationKey, OperationType, EMAID]
  const MOVEMENT: seq<Column> := [WalletAddress, AmountSparkz, Status, MovementOutcome, TransactionHash]
  const ASSET: seq<Column> := [ChainId, TokenContractAddress, AssetProvenance, PolicySource, PolicyRevision]
  const ORIGIN: seq<Column> := [RulesVersion, SafePolicyFingerprint, SessionId, ProviderId, ReservationId]
  const TIME: seq<Column> := [CreatedAt, SubmittedAt, ConfirmedAt, ProjectedAt]
  const ACTIVITY: seq<Column> := [ActivityAt, ActivityAtSource, ExceptionCategory, AnnotationCount]
  const SUMMARY: seq<Column> := [SummaryIssuedMovementCount, SummaryReturnedMovementCount,
                                 SummaryConfirmedMovementCount, SummaryExceptionCount]
  const COVERAGE: seq<Column> := [SummaryTotalsByAsset, CoverageTotalIsLowerBound, CoverageTruncated,
                                  CoverageUnknownMovementCount]
  const COUNT: seq<Column> := [CoverageInvalidHashCount, CoverageUnknownAssetCount, CoverageDuplicateConflictCount,
                               CoverageWarnings]

  const COLUMNS: seq<Column> :=
    PERIOD + SUBJECT + MOVEMENT + ASSET + ORIGIN +
    TIME + ACTIVITY + SUMMARY + COVERAGE + COUNT

  /** The name in the header. */
  function NameOf(c: Column): string {
    match c
    case GeneratedAt => "generatedAt"
    case PeriodFrom => "periodFrom"
    case PeriodTo => "periodTo"
    case ObservationAt => "observationAt"
    case Basis => "basis"
    case SubjectType => "subjectType"
    case SubjectId => "subjectId"
    case OperationKey => "operationKey"
    case OperationType => "operationType"
    case EMAID => "eMAID"
    case WalletAddress => "walletAddress"
    case AmountSparkz => "amountSparkz"
    case Status => "status"
    case MovementOutcome => "movementOutcome"
    case TransactionHash => "transactionHash"
    case ChainId => "chainId"
    case TokenContractAddress => "tokenContractAddress"
    case AssetProvenance => "assetProvenance"
    case PolicySource => "policySource"
    case PolicyRevision => "policyRevision"
    case RulesVersion => "rulesVersion"
    case SafePolicyFingerprint => "safePolicyFingerprint"
    case SessionId => "sessionId"
    case ProviderId => "providerId"
    case ReservationId => "reservationId"
    case CreatedAt => "createdAt"
    case SubmittedAt => "submittedAt"
    case ConfirmedAt => "confirmedAt"
    case ProjectedAt => "projectedAt"
    case ActivityAt => "activityAt"
    case ActivityAtSource => "activityAtSource"
    case ExceptionCategory => "exceptionCategory"
    case AnnotationCount => "annotationCount"
    case SummaryIssuedMovementCount => "summaryIssuedMovementCount"
    case SummaryReturnedMovementCount => "summaryReturnedMovementCount"
    case SummaryConfirmedMovementCount => "summaryConfirmedMovementCount"
    case SummaryExceptionCount => "summaryExceptionCount"
    case SummaryTotalsByAsset => "summaryTotalsByAsset"
    case CoverageTotalIsLowerBound => "coverageTotalIsLowerBound"
    case CoverageTruncated => "coverageTruncated"
    case CoverageUnknownMovementCount => "coverageUnknownMovementCount"
    case CoverageInvalidHashCount => "coverageInvalidHashCount"
    case CoverageUnknownAssetCount => "coverageUnknownAssetCount"
    case CoverageDuplicateConflictCount => "coverageDuplicateConflictCount"
    case CoverageWarnings => "coverageWarnings"
  }

  /** The value of each column as text, if it has one. */
  type Values = Column -> Option<string>

  /** A null value is an empty field. */
  function Shown(value: Option<string>): string { if value.Some? then value.value else "" }

  function TextOf(values: Values, column: Column): string { Shown(values(column)) }

  predicate FormulaStart(c: char) { c == '=' || c == '+' || c == '-' || c == '@' }

  predicate LooksLikeFormula(text: string) {
    var t := TrimStart(text);
    t != "" && FormulaStart(t[0])
  }

  /** A text a spreadsheet could run gets an apostrophe in front. */
  function Neutral(text: string): string { if LooksLikeFormula(text) then "'" + text else text }

  predicate IsSpecial(c: char) { c == '"' || c == ',' || c == '\r' || c == '\n' }

  predicate NeedsQuotes(s: string) { exists i :: 0 <= i < |s| && IsSpecial(s[i]) }

  function Doubled(s: string): string {
    if s == "" then "" else (if s[0] == '"' then "\"\"" else [s[0]]) + Doubled(s[1..])
  }

  /** `csvCell`. */
  function Cell(text: string): string {
    var safe := Neutral(text);
    if NeedsQuotes(safe) then "\"" + Doubled(safe) + "\"" else safe
  }

  function Join(parts: seq<string>, separator: string): string {
    if parts == [] then ""
    else if |parts| == 1 then parts[0]
    else parts[0] + separator + Join(parts[1..], separator)
  }

  function Cells(values: Values): (cells: seq<string>)
    ensures |cells| == |COLUMNS|
  {
    seq(|COLUMNS|, i requires 0 <= i < |COLUMNS| => Cell(TextOf(values, COLUMNS[i])))
  }

  /** `csvRow`. */
  function CsvRow(values: Values): string { Join(Cells(values), ",") }

  // ----- reading -----

  /** The rest of a quoted field: its text and what follows the closing quote. */
  function ReadQuoted(s: string): Option<(string, string)> {
    if s == "" then None
    else if s[0] != '"' then
      match ReadQuoted(s[1..])
      case None => None
      case Some((text, rest)) => Some(([s[0]] + text, rest))
    else if |s| > 1 && s[1] == '"' then
      match ReadQuoted(s[2..])
      case None => None
      case Some((text, rest)) => Some((['"'] + text, rest))
    else Some(("", s[1..]))
  }

  /** An unquoted field: everything up to the next special character. */
  function ReadPlain(s: string): (string, string) {
    if s == "" || IsSpecial(s[0]) then ("", s)
    else
      var (text, rest) := ReadPlain(s[1..]);
      ([s[0]] + text, rest)
  }

  function ReadField(s: string): Option<(string, string)> {
    if s != "" && s[0] == '"' then ReadQuoted(s[1..]) else Some(ReadPlain(s))
  }

  function ReadRecord(s: string): Option<(seq<string>, string)>
    decreases |s|
  {
    match ReadField(s)
    case None => None
    case Some((field, rest)) =>
      if rest == "" || rest[0] != ',' then Some(([field], rest))
      else if |rest| > |s| then None
      else
        match ReadRecord(rest[1..])
        case None => None
        case Some((fields, tail)) => Some(([field] + fields, tail))
  }

  /** Records end with CRLF; the last one need not. */
  function ReadCsv(s: string): Option<seq<seq<string>>>
    decreases |s|
  {
    if s == "" then Some([])
    else
      match ReadRecord(s)
      case None => None
      case Some((record, rest)) =>
        if rest == "" then Some([record])
        else if |rest| < 2 || rest[..2] != "\r\n" || |rest| > |s| then None
        else
          match ReadCsv(rest[2..])
          case None => None
          case Some(records) => Some([record] + records)
  }

  // ----- reading what was written -----

  predicate EndsField(rest: string) { rest != "" && (rest[0] == ',' || rest[0] == '\r') }

  lemma {:induction false} QuotedReadBack(text: string, rest: string)
    requires EndsField(rest)
    ensures ReadQuoted(Doubled(text) + "\"" + rest) == Some((text, rest))
  {
    var s := Doubled(text) + "\"" + rest;
    if text == "" {
      assert s[1..] == rest;
    } else {
      QuotedReadBack(text[1..], rest);
      var tail := Doubled(text[1..]) + "\"" + rest;
      if text[0] == '"' {
        assert s == "\"\"" + tail && s[2..] == tail;
      } else {
        assert s == [text[0]] + tail && s[1..] == tail;
      }
      assert [text[0]] + text[1..] == text;
    }
  }

  lemma {:induction false} PlainReadBack(text: string, rest: string)
    requires !NeedsQuotes(text) && EndsField(rest)
    ensures ReadPlain(text + rest) == (text, rest)
  {
    if text == "" {
      assert text + rest == rest;
    } else {
      assert !IsSpecial(text[0]) && !NeedsQuotes(text[1..]);
      PlainReadBack(text[1..], rest);
      assert (text + rest)[1..] == text[1..] + rest;
      assert [text[0]] + text[1..] == text;
    }
  }

  /** One cell reads back as its neutralised text. */
  lemma CellReadBack(text: string, rest: string)
    requires EndsField(rest)
    ensures ReadField(Cell(text) + rest) == Some((Neutral(text), rest))
  {
    hide ReadQuoted, ReadPlain, Neutral, Doubled;
    var safe := Neutral(text);
    if NeedsQuotes(safe) {
      hide NeedsQuotes;
      QuotedReadBack(safe, rest);
      var tail := Doubled(safe) + "\"" + rest;
      assert Cell(text) + rest == "\"" + tail;
      assert ("\"" + tail)[1..] == tail;
    } else {
      PlainReadBack(safe, rest);
      PlainStart(safe, rest);
    }
  }

  lemma PlainStart(safe: string, rest: string)
    requires !NeedsQuotes(safe) && EndsField(rest)
    ensures safe + rest != "" && (safe + rest)[0] != '"'
  {
    if safe != "" {
      assert !IsSpecial(safe[0]);
    }
  }

  function CellsOf(texts: seq<string>): (cells: seq<string>)
    ensures |cells| == |texts|
  {
    seq(|texts|, i requires 0 <= i < |texts| => Cell(texts[i]))
  }

  function NeutralOf(texts: seq<string>): (fields: seq<string>)
    ensures |fields| == |texts|
  {
    seq(|texts|, i requires 0 <= i < |texts| => Neutral(texts[i]))
  }

  lemma ReadOneMore(s: string, field: string, tail: string, fields: seq<string>, rest: string)
    requires ReadField(s) == Some((field, "," + tail)) && |tail| < |s|
    requires ReadRecord(tail) == Some((fields, rest))
    ensures ReadRecord(s) == Some(([field] + fields, rest))
  {
    hide ReadField;
    assert ("," + tail)[1..] == tail;
  }

  lemma {:induction false} RecordReadBack(texts: seq<string>, rest: string)
    requires texts != [] && rest != "" && rest[0] == '\r'
    ensures ReadRecord(Join(CellsOf(texts), ",") + rest) == Some((NeutralOf(texts), rest))
  {
    hide Cell, Neutral, ReadField, ReadRecord;
    var line := Join(CellsOf(texts), ",");
    if |texts| == 1 {
      assert line == Cell(texts[0]);
      CellReadBack(texts[0], rest);
      assert NeutralOf(texts) == [Neutral(texts[0])];
      ReadLast(line + rest, Neutral(texts[0]), rest);
    } else {
      var others := texts[1..];
      assert CellsOf(texts) == [Cell(texts[0])] + CellsOf(others);
      JoinCons(Cell(texts[0]), CellsOf(others), ",");
      var tail := Join(CellsOf(others), ",") + rest;
      RecordReadBack(others, rest);
      assert line + rest == Cell(texts[0]) + ("," + tail);
      CellReadBack(texts[0], "," + tail);
      ReadOneMore(line + rest, Neutral(texts[0]), tail, NeutralOf(others), rest);
      assert NeutralOf(texts) == [Neutral(texts[0])] + NeutralOf(others);
    }
  }

  lemma ReadLast(s: string, field: string, rest: string)
    requires ReadField(s) == Some((field, rest)) && rest != "" && rest[0] == '\r'
    ensures ReadRecord(s) == Some(([field], rest))
  {
    hide ReadField;
  }

  lemma JoinCons(part: string, parts: seq<string>, separator: string)
    requires parts != []
    ensures Join([part] + parts, separator) == part + separator + Join(parts, separator)
  {
    assert ([part] + parts)[1..] == parts;
  }

  /** The lines of the file, each ended. */
  function Ended(lines: seq<string>): string { Join(lines, "\r\n") + "\r\n" }

  function Lines(records: seq<seq<string>>): (lines: seq<string>)
    ensures |lines| == |records|
  {
    seq(|records|, i requires 0 <= i < |records| => Join(CellsOf(records[i]), ","))
  }

  function Neutralised(records: seq<seq<string>>): (fields: seq<seq<string>>)
    ensures |fields| == |records|
  {
    seq(|records|, i requires 0 <= i < |records| => NeutralOf(records[i]))
  }

  lemma ReadLine(s: string, record: seq<string>, more: string, records: seq<seq<string>>)
    requires ReadRecord(s) == Some((record, "\r\n" + more)) && |more| + 2 <= |s|
    requires ReadCsv(more) == Some(records)
    ensures ReadCsv(s) == Some([record] + records)
  {
    hide ReadRecord;
    assert ("\r\n" + more)[2..] == more && ("\r\n" + more)[..2] == "\r\n";
  }

  /** A file of records, none of them empty, reads back as their neutralised
      texts. */
  lemma {:induction false} FileReadBack(records: seq<seq<string>>)
    requires records != [] && forall i :: 0 <= i < |records| ==> records[i] != []
    ensures ReadCsv(Ended(Lines(records))) == Some(Neutralised(records))
  {
    hide Cell, Neutral, ReadRecord, ReadCsv, CellsOf, NeutralOf;
    var first := Join(CellsOf(records[0]), ",");
    if |records| == 1 {
      assert Ended(Lines(records)) == first + ("\r\n" + "");
      RecordReadBack(records[0], "\r\n" + "");
      EmptyFile();
      ReadLine(first + ("\r\n" + ""), NeutralOf(records[0]), "", []);
      assert Neutralised(records) == [NeutralOf(records[0])] + [];
    } else {
      var others := records[1..];
      var more := Ended(Lines(others));
      assert Lines(records) == [first] + Lines(others);
      JoinCons(first, Lines(others), "\r\n");
      assert Ended(Lines(records)) == first + ("\r\n" + more);
      RecordReadBack(records[0], "\r\n" + more);
      FileReadBack(others);
      ReadLine(first + ("\r\n" + more), NeutralOf(records[0]), more, Neutralised(others));
      assert Neutralised(records) == [NeutralOf(records[0])] + Neutralised(others);
    }
  }

  lemma EmptyFile()
    ensures ReadCsv("") == Some([])
  {}

  // ----- the apostrophe -----

  /** A spreadsheet would run it: after white space it starts with one of the four
      formula characters. */
  predicate Runs(text: string) { exists i :: 0 <= i < |text| && RunsAt(text, i) }

  predicate RunsAt(text: string, i: int) {
    0 <= i < |text| && text[i] in {'=', '+', '-', '@'} && forall j :: 0 <= j < i ==> IsSpace(text[j])
  }

  lemma SpaceBefore(c: char, text: string, i: nat)
    requires IsSpace(c)
    ensures RunsAt([c] + text, i + 1) <==> RunsAt(text, i)
  {
    hide IsSpace;
    var s := [c] + text;
    assert forall j :: 0 <= j < |text| ==> s[j + 1] == text[j];
    if RunsAt(s, i + 1) {
      forall j | 0 <= j < i ensures IsSpace(text[j]) {
        assert IsSpace(s[j + 1]);
      }
    }
  }

  lemma {:induction false} RunsIsFormula(text: string)
    ensures Runs(text) <==> LooksLikeFormula(text)
  {
    hide IsSpace;
    if text != "" {
      SymbolsAreNoSpace();
      RunsIsFormula(text[1..]);
      if IsSpace(text[0]) {
        assert text == [text[0]] + text[1..];
        hide FormulaStart, TrimStart, LooksLikeFormula;
        SpaceSkipped(text);
        hide RunsAt;
        if i :| RunsAt(text, i) {
          assert i != 0 by { NotAtStart(text); }
          SpaceBefore(text[0], text[1..], i - 1);
          assert RunsAt(text[1..], i - 1);
        }
        if i: int :| 0 <= i && RunsAt(text[1..], i) {
          SpaceBefore(text[0], text[1..], i);
          assert RunsAt(text, i + 1);
        }
      } else {
        assert RunsAt(text, 0) <==> FormulaStart(text[0]);
      }
    }
  }

  lemma NotAtStart(text: string)
    requires text != "" && IsSpace(text[0])
    ensures !RunsAt(text, 0) && forall i :: RunsAt(text, i) ==> i >= 0
  {
    SymbolsAreNoSpace();
  }

  lemma SpaceSkipped(text: string)
    requires text != "" && IsSpace(text[0])
    ensures LooksLikeFormula(text) == LooksLikeFormula(text[1..])
  {}

  lemma SymbolsAreNoSpace()
    ensures forall c :: c in {'=', '+', '-', '@'} ==> !IsSpace(c)
  {}

  /** No field that is read back can be run by a spreadsheet, and no other field is
      changed. */
  lemma NeutralIsInert(text: string)
    ensures !Runs(Neutral(text)) && (Neutral(text) == text <==> !Runs(text))
  {
    RunsIsFormula(text);
    RunsIsFormula(Neutral(text));
    ApostropheIsPlain(text);
    hide Runs, LooksLikeFormula;
    assert LooksLikeFormula(text) ==> |Neutral(text)| == |text| + 1;
  }

  lemma ApostropheIsPlain(text: string)
    ensures !LooksLikeFormula("'" + text)
  {
    assert TrimStart("'" + text) == "'" + text;
  }

  /** The apostrophe is all that can be lost: two texts read back alike only if
      they are one, or one is the other, a formula, with an apostrophe. */
  lemma NeutralCollision(a: string, b: string)
    ensures Neutral(a) == Neutral(b)
            <==> a == b || (LooksLikeFormula(b) && a == "'" + b) || (LooksLikeFormula(a) && b == "'" + a)
  {
    NeutralIsInert(a);
    NeutralIsInert(b);
    RunsIsFormula(Neutral(a));
    RunsIsFormula(Neutral(b));
    hide Runs;
    if LooksLikeFormula(a) && LooksLikeFormula(b) && Neutral(a) == Neutral(b) {
      assert ("'" + a)[1..] == a && ("'" + b)[1..] == b;
    }
  }
}
