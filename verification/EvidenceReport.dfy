/** The rows and the summary of the evidence report, and its CSV form. */
module EvidenceReport {
  import opened Basics
  import opened Numerals
  import opened Csv

  datatype AdminRow = AdminRow(
    subjectType: string, subjectId: string, operationKey: Option<string>, operationType: string,
    eMAID: Option<string>, walletAddress: Option<string>, amountSparkz: string, status: Option<string>,
    movementOutcome: Option<string>, transactionHash: Option<string>, chainId: Option<string>,
    tokenContractAddress: Option<string>, assetProvenance: string, policySource: string, policyRevision: Option<nat>,
    rulesVersion: Option<string>, safePolicyFingerprint: Option<string>, sessionId: Option<string>,
    providerId: Option<string>, reservationId: Option<string>, createdAt: Option<string>,
    submittedAt: Option<string>, confirmedAt: Option<string>, projectedAt: Option<string>,
    activityAt: Option<string>, activityAtSource: string, exceptionCategory: Option<string>, annotationCount: nat)

  /** `totalsByAsset` is the JSON text of the totals. */
  datatype Report = Report(
    generatedAt: string, periodFrom: string, periodTo: string, observationAt: string, basis: string,
    issuedMovementCount: nat, returnedMovementCount: nat, confirmedMovementCount: nat, exceptionCount: nat,
    totalsByAsset: string, totalIsLowerBound: bool, truncated: bool, unknownMovementCount: nat,
    invalidHashCount: nat, unknownAssetCount: nat, duplicateConflictCount: nat, warnings: seq<string>,
    rows: seq<AdminRow>)

  function BoolText(b: bool): string { if b then "true" else "false" }

  function NumberText(n: Option<nat>): Option<string> { if n.Some? then Some(NatText(n.value)) else None }

  /** The columns that describe the whole report; the others have no value. */
  function ReportValue(report: Report, c: Column): Option<string> {
    match c
    case GeneratedAt => Some(report.generatedAt)
    case PeriodFrom => Some(report.periodFrom)
    case PeriodTo => Some(report.periodTo)
    case ObservationAt => Some(report.observationAt)
    case Basis => Some(report.basis)
    case SummaryIssuedMovementCount => Some(NatText(report.issuedMovementCount))
    case SummaryReturnedMovementCount => Some(NatText(report.returnedMovementCount))
    case SummaryConfirmedMovementCount => Some(NatText(report.confirmedMovementCount))
    case SummaryExceptionCount => Some(NatText(report.exceptionCount))
    case SummaryTotalsByAsset => Some(report.totalsByAsset)
    case CoverageTotalIsLowerBound => Some(BoolText(report.totalIsLowerBound))
    case CoverageTruncated => Some(BoolText(report.truncated))
    case CoverageUnknownMovementCount => Some(NatText(report.unknownMovementCount))
    case CoverageInvalidHashCount => Some(NatText(report.invalidHashCount))
    case CoverageUnknownAssetCount => Some(NatText(report.unknownAssetCount))
    case CoverageDuplicateConflictCount => Some(NatText(report.duplicateConflictCount))
    case CoverageWarnings => Some(Join(report.warnings, " | "))
    case _ => None
  }

  /** The columns of one row, beside those of the whole report. */
  function RowValue(report: Report, row: AdminRow, c: Column): Option<string> {
    match c
    case SubjectType => Some(row.subjectType)
    case SubjectId => Some(row.subjectId)
    case OperationKey => row.operationKey
    case OperationType => Some(row.operationType)
    case EMAID => row.eMAID
    case WalletAddress => row.walletAddress
    case AmountSparkz => Some(row.amountSparkz)
    case Status => row.status
    case MovementOutcome => row.movementOutcome
    case TransactionHash => row.transactionHash
    case ChainId => row.chainId
    case TokenContractAddress => row.tokenContractAddress
    case AssetProvenance => Some(row.assetProvenance)
    case PolicySource => Some(row.policySource)
    case PolicyRevision => NumberText(row.policyRevision)
    case RulesVersion => row.rulesVersion
    case SafePolicyFingerprint => row.safePolicyFingerprint
    case SessionId => row.sessionId
    case ProviderId => row.providerId
    case ReservationId => row.reservationId
    case CreatedAt => row.createdAt
    case SubmittedAt => row.submittedAt
    case ConfirmedAt => row.confirmedAt
    case ProjectedAt => row.projectedAt
    case ActivityAt => row.activityAt
    case ActivityAtSource => Some(row.activityAtSource)
    case ExceptionCategory => row.exceptionCategory
    case AnnotationCount => Some(NatText(row.annotationCount))
    case _ => ReportValue(report, c)
  }

  function ReportValues(report: Report): Values { (c: Column) => ReportValue(report, c) }

  function RowValues(report: Report, row: AdminRow): Values { (c: Column) => RowValue(report, row, c) }

  function TextsOf(values: Values, columns: seq<Column>): (texts: seq<string>)
    ensures |texts| == |columns|
  {
    seq(|columns|, i requires 0 <= i < |columns| => TextOf(values, columns[i]))
  }

  /** The texts of one record, in column order. */
  function Texts(values: Values): seq<string> { TextsOf(values, COLUMNS) }

  /** One record per row, or one for the report when there are no rows. */
  function Records(report: Report): (records: seq<seq<string>>)
    ensures |records| == if report.rows == [] then 1 else |report.rows|
    ensures forall i :: 0 <= i < |records| ==> |records[i]| == |COLUMNS|
  {
    if report.rows == [] then [Texts(ReportValues(report))]
    else seq(|report.rows|,
             i requires 0 <= i < |report.rows| => Texts(RowValues(report, report.rows[i])))
  }

  // ----- the header -----

  const HEADER: seq<string> := seq(|COLUMNS|, i requires 0 <= i < |COLUMNS| => NameOf(COLUMNS[i]))

  lemma NameCell(s: string)
    requires IsName(s)
    ensures Cell(s) == s && Neutral(s) == s
  {
    assert TrimStart(s) == s;
    assert !FormulaStart(s[0]);
    assert !NeedsQuotes(s);
  }

  lemma PeriodNames()
    ensures IsName("generatedAt") && IsName("periodFrom") && IsName("periodTo") && IsName("observationAt")
    ensures IsName("basis") && IsName("subjectType") && IsName("subjectId") && IsName("operationKey")
  {}

  lemma MovementNames()
    ensures IsName("operationType") && IsName("eMAID") && IsName("walletAddress") && IsName("amountSparkz")
    ensures IsName("status") && IsName("movementOutcome")
  {}

  lemma PolicyNames()
    ensures IsName("transactionHash") && IsName("chainId") && IsName("tokenContractAddress")
    ensures IsName("assetProvenance") && IsName("policySource") && IsName("policyRevision")
  {}

  lemma TimeNames()
    ensures IsName("rulesVersion") && IsName("safePolicyFingerprint") && IsName("sessionId")
    ensures IsName("providerId") && IsName("reservationId") && IsName("createdAt") && IsName("submittedAt")
  {}

  lemma ActivityNames()
    ensures IsName("confirmedAt") && IsName("projectedAt") && IsName("activityAt") && IsName("activityAtSource")
    ensures IsName("exceptionCategory") && IsName("annotationCount")
  {}

  lemma SummaryNames()
    ensures IsName("summaryIssuedMovementCount") && IsName("summaryReturnedMovementCount")
    ensures IsName("summaryConfirmedMovementCount") && IsName("summaryExceptionCount")
  {}

  lemma CoverageNames()
    ensures IsName("summaryTotalsByAsset") && IsName("coverageTotalIsLowerBound") && IsName("coverageTruncated")
    ensures IsName("coverageUnknownMovementCount")
  {}

  lemma CountNames()
    ensures IsName("coverageInvalidHashCount") && IsName("coverageUnknownAssetCount")
    ensures IsName("coverageDuplicateConflictCount") && IsName("coverageWarnings")
  {}

  lemma NamesAreNames(c: Column)
    ensures IsName(NameOf(c))
  {
    PeriodNames();
    MovementNames();
    PolicyNames();
    TimeNames();
    ActivityNames();
    SummaryNames();
    CoverageNames();
    CountNames();
    hide IsName;
  }

  lemma HeaderCells()
    ensures CellsOf(HEADER) == HEADER && NeutralOf(HEADER) == HEADER
  {
    hide NameOf, IsName;
    forall i | 0 <= i < |HEADER| ensures Cell(HEADER[i]) == HEADER[i] && Neutral(HEADER[i]) == HEADER[i] {
      NamesAreNames(COLUMNS[i]);
      NameCell(HEADER[i]);
    }
  }

  // ----- which field stands in which column -----

  lemma ShownText()
    ensures forall text :: Shown(Some(text)) == text
  {}

  lemma TextsConcat(values: Values, a: seq<Column>, b: seq<Column>)
    ensures TextsOf(values, a + b) == TextsOf(values, a) + TextsOf(values, b)
  {}

  lemma PeriodTexts(report: Report, row: AdminRow)
    ensures TextsOf(RowValues(report, row), PERIOD)
            == [report.generatedAt, report.periodFrom, report.periodTo, report.observationAt, report.basis]
  {
    ShownText();
    hide NatText, BoolText, Join, NumberText, Shown;
  }

  lemma SubjectTexts(report: Report, row: AdminRow)
    ensures TextsOf(RowValues(report, row), SUBJECT)
            == [row.subjectType, row.subjectId, Shown(row.operationKey), row.operationType, Shown(row.eMAID)]
  {
    ShownText();
    hide NatText, BoolText, Join, NumberText, Shown;
  }

  lemma MovementTexts(report: Report, row: AdminRow)
    ensures TextsOf(RowValues(report, row), MOVEMENT)
            == [Shown(row.walletAddress), row.amountSparkz, Shown(row.status), Shown(row.movementOutcome),
                Shown(row.transactionHash)]
  {
    ShownText();
    hide NatText, BoolText, Join, NumberText, Shown;
  }

  lemma AssetTexts(report: Report, row: AdminRow)
    ensures TextsOf(RowValues(report, row), ASSET)
            == [Shown(row.chainId), Shown(row.tokenContractAddress), row.assetProvenance, row.policySource,
                Shown(NumberText(row.policyRevision))]
  {
    ShownText();
    hide NatText, BoolText, Join, NumberText, Shown;
  }

  lemma OriginTexts(report: Report, row: AdminRow)
    ensures TextsOf(RowValues(report, row), ORIGIN)
            == [Shown(row.rulesVersion), Shown(row.safePolicyFingerprint), Shown(row.sessionId),
                Shown(row.providerId), Shown(row.reservationId)]
  {
    ShownText();
    hide NatText, BoolText, Join, NumberText, Shown;
  }

  lemma TimeTexts(report: Report, row: AdminRow)
    ensures TextsOf(RowValues(report, row), TIME)
            == [Shown(row.createdAt), Shown(row.submittedAt), Shown(row.confirmedAt), Shown(row.projectedAt)]
  {
    ShownText();
    hide NatText, BoolText, Join, NumberText, Shown;
  }

  lemma ActivityTexts(report: Report, row: AdminRow)
    ensures TextsOf(RowValues(report, row), ACTIVITY)
            == [Shown(row.activityAt), row.activityAtSource, Shown(row.exceptionCategory),
                NatText(row.annotationCount)]
  {
    ShownText();
    hide NatText, BoolText, Join, NumberText, Shown;
  }

  lemma SummaryTexts(report: Report, row: AdminRow)
    ensures TextsOf(RowValues(report, row), SUMMARY)
            == [NatText(report.issuedMovementCount), NatText(report.returnedMovementCount),
                NatText(report.confirmedMovementCount), NatText(report.exceptionCount)]
  {
    ShownText();
    hide NatText, BoolText, Join, NumberText, Shown;
  }

  lemma CoverageTexts(report: Report, row: AdminRow)
    ensures TextsOf(RowValues(report, row), COVERAGE)
            == [report.totalsByAsset, BoolText(report.totalIsLowerBound), BoolText(report.truncated),
                NatText(report.unknownMovementCount)]
  {
    ShownText();
    hide NatText, BoolText, Join, NumberText, Shown;
  }

  lemma CountTexts(report: Report, row: AdminRow)
    ensures TextsOf(RowValues(report, row), COUNT)
            == [NatText(report.invalidHashCount), NatText(report.unknownAssetCount),
                NatText(report.duplicateConflictCount), Join(report.warnings, " | ")]
  {
    ShownText();
    hide NatText, BoolText, Join, NumberText, Shown;
  }

  /** The record of a row, field by field in the order of the header. */
  lemma RowRecord(report: Report, row: AdminRow)
    ensures Texts(RowValues(report, row))
            == [report.generatedAt, report.periodFrom, report.periodTo, report.observationAt, report.basis]
               + [row.subjectType, row.subjectId, Shown(row.operationKey), row.operationType, Shown(row.eMAID)]
               + [Shown(row.walletAddress), row.amountSparkz, Shown(row.status), Shown(row.movementOutcome),
                  Shown(row.transactionHash)]
               + [Shown(row.chainId), Shown(row.tokenContractAddress), row.assetProvenance, row.policySource,
                  Shown(NumberText(row.policyRevision))]
               + [Shown(row.rulesVersion), Shown(row.safePolicyFingerprint), Shown(row.sessionId),
                  Shown(row.providerId), Shown(row.reservationId)]
               + [Shown(row.createdAt), Shown(row.submittedAt), Shown(row.confirmedAt), Shown(row.projectedAt)]
               + [Shown(row.activityAt), row.activityAtSource, Shown(row.exceptionCategory),
                  NatText(row.annotationCount)]
               + [NatText(report.issuedMovementCount), NatText(report.returnedMovementCount),
                  NatText(report.confirmedMovementCount), NatText(report.exceptionCount)]
               + [report.totalsByAsset, BoolText(report.totalIsLowerBound), BoolText(report.truncated),
                  NatText(report.unknownMovementCount)]
               + [NatText(report.invalidHashCount), NatText(report.unknownAssetCount),
                  NatText(report.duplicateConflictCount), Join(report.warnings, " | ")]
  {
    hide TextsOf, RowValues, Shown, NatText, NumberText, BoolText, Join;
    var values := RowValues(report, row);
    TextsConcat(values, PERIOD, SUBJECT);
    TextsConcat(values, PERIOD + SUBJECT, MOVEMENT);
    TextsConcat(values, PERIOD + SUBJECT + MOVEMENT, ASSET);
    TextsConcat(values, PERIOD + SUBJECT + MOVEMENT + ASSET, ORIGIN);
    TextsConcat(values, PERIOD + SUBJECT + MOVEMENT + ASSET + ORIGIN, TIME);
    TextsConcat(values, PERIOD + SUBJECT + MOVEMENT + ASSET + ORIGIN + TIME, ACTIVITY);
    TextsConcat(values, PERIOD + SUBJECT + MOVEMENT + ASSET + ORIGIN + TIME + ACTIVITY, SUMMARY);
    TextsConcat(values, PERIOD + SUBJECT + MOVEMENT + ASSET + ORIGIN + TIME + ACTIVITY + SUMMARY, COVERAGE);
    TextsConcat(values, PERIOD + SUBJECT + MOVEMENT + ASSET + ORIGIN + TIME + ACTIVITY + SUMMARY + COVERAGE, COUNT);
    PeriodTexts(report, row);
    SubjectTexts(report, row);
    MovementTexts(report, row);
    AssetTexts(report, row);
    OriginTexts(report, row);
    TimeTexts(report, row);
    ActivityTexts(report, row);
    SummaryTexts(report, row);
    CoverageTexts(report, row);
    CountTexts(report, row);
  }

  /** Without rows, the columns of the whole report hold what they hold beside any
      row, and the others are empty. */
  lemma EmptyRecord(report: Report, row: AdminRow, c: Column)
    ensures TextOf(ReportValues(report), c)
              == if c in PERIOD || c in SUMMARY || c in COVERAGE || c in COUNT then TextOf(RowValues(report, row), c)
                 else ""
  {
    hide NatText, BoolText, Join, NumberText;
  }

  // ----- the file -----

  /** `renderAdminEvidenceCsv`. What it writes reads back, by the rules of
      section 2 of RFC 4180, as the header and one record per row (one for the
      report when it has no rows), every record as wide as the header and every
      field its column's text, neutralised. */
  method RenderAdminEvidenceCsv(report: Report) returns (text: string)
    ensures ReadCsv(text) == Some([HEADER] + Neutralised(Records(report)))
  {
    hide IsName, ReportValues, RowValues, TextOf, Cell, Neutral, ReadCsv, Join;
    var lines := [Join(HEADER, ",")];
    ghost var records: seq<seq<string>> := [HEADER];
    HeaderCells();
    for i := 0 to |report.rows|
      invariant |records| == i + 1 && records[0] == HEADER && lines == Lines(records)
      invariant forall j :: 0 <= j < i ==> records[j + 1] == Texts(RowValues(report, report.rows[j]))
    {
      var values := RowValues(report, report.rows[i]);
      CsvRowLine(values);
      LinesSnoc(records, Texts(values));
      lines := lines + [CsvRow(values)];
      records := records + [Texts(values)];
    }
    if report.rows == [] {
      CsvRowLine(ReportValues(report));
      LinesSnoc(records, Texts(ReportValues(report)));
      lines := lines + [CsvRow(ReportValues(report))];
      records := records + [Texts(ReportValues(report))];
    }
    assert records == [HEADER] + Records(report);
    FileReadBack(records);
    assert Neutralised(records) == [NeutralOf(HEADER)] + Neutralised(Records(report));
    text := Join(lines, "\r\n") + "\r\n";
  }

  lemma CsvRowLine(values: Values)
    ensures CsvRow(values) == Join(CellsOf(Texts(values)), ",")
  {
    hide IsName, Cell, TextOf;
    assert Cells(values) == CellsOf(Texts(values));
  }

  lemma LinesSnoc(records: seq<seq<string>>, record: seq<string>)
    ensures Lines(records + [record]) == Lines(records) + [Join(CellsOf(record), ",")]
  {}
}
