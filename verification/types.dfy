/**
 The data the report registry keeps: reports, their audit records, the fee
 transfers it has logged, and the registry state that holds them all.

 The registry compares several fields against fixed lists of strings (a
 report's status, the reporter's age group and gender, the report type).
 Here each list is a datatype, and `Parse…`/`…Name` convert between the
 string the caller passes and the value the registry stores.
 */
module ReportTypes {
  import opened Errors

  type Byte = bv8
  type Bytes = seq<Byte>

  /** The only hash length the registry accepts, for both hashes. */
  const HashLength := 32

  /* ---------- Report status ---------- */

  datatype Status = Pending | Validated | Rejected

  function StatusName(s: Status): string
  {
    match s
    case Pending => "pending"
    case Validated => "validated"
    case Rejected => "rejected"
  }

  function ParseStatus(s: string): (r: Option<Status>)
    ensures r.Some? ==> StatusName(r.value) == s
    ensures r.None? ==> forall x :: StatusName(x) != s
  {
    if s == "pending" then Some(Pending)
    else if s == "validated" then Some(Validated)
    else if s == "rejected" then Some(Rejected)
    else None
  }

  /* ---------- Age group ---------- */

  datatype AgeGroup = Age0To18 | Age19To35 | Age36To60 | Age60Plus

  function AgeGroupName(g: AgeGroup): string
  {
    match g
    case Age0To18 => "0-18"
    case Age19To35 => "19-35"
    case Age36To60 => "36-60"
    case Age60Plus => "60+"
  }

  function ParseAgeGroup(s: string): (r: Option<AgeGroup>)
    ensures r.Some? ==> AgeGroupName(r.value) == s
    ensures r.None? ==> forall x :: AgeGroupName(x) != s
  {
    if s == "0-18" then Some(Age0To18)
    else if s == "19-35" then Some(Age19To35)
    else if s == "36-60" then Some(Age36To60)
    else if s == "60+" then Some(Age60Plus)
    else None
  }

  /* ---------- Gender ---------- */

  datatype Gender = Male | Female | Other

  function GenderName(g: Gender): string
  {
    match g
    case Male => "male"
    case Female => "female"
    case Other => "other"
  }

  function ParseGender(s: string): (r: Option<Gender>)
    ensures r.Some? ==> GenderName(r.value) == s
    ensures r.None? ==> forall x :: GenderName(x) != s
  {
    if s == "male" then Some(Male)
    else if s == "female" then Some(Female)
    else if s == "other" then Some(Other)
    else None
  }

  /* ---------- Report type ---------- */

  datatype ReportType = Symptom | Outbreak | TestResult

  function ReportTypeName(t: ReportType): string
  {
    match t
    case Symptom => "symptom"
    case Outbreak => "outbreak"
    case TestResult => "test-result"
  }

  function ParseReportType(s: string): (r: Option<ReportType>)
    ensures r.Some? ==> ReportTypeName(r.value) == s
    ensures r.None? ==> forall x :: ReportTypeName(x) != s
  {
    if s == "symptom" then Some(Symptom)
    else if s == "outbreak" then Some(Outbreak)
    else if s == "test-result" then Some(TestResult)
    else None
  }

  /** Parsing a name gives back the value it names, for every list. */
  lemma ParseNameRoundTrip(s: Status, g: AgeGroup, x: Gender, t: ReportType)
    ensures ParseStatus(StatusName(s)) == Some(s)
    ensures ParseAgeGroup(AgeGroupName(g)) == Some(g)
    ensures ParseGender(GenderName(x)) == Some(x)
    ensures ParseReportType(ReportTypeName(t)) == Some(t)
  {
  }

  /* ---------- Records ---------- */

  /** A stored health report. */
  datatype Report = Report(
    reporter: string,
    symptomHash: Bytes,
    locationHash: Bytes,
    timestamp: nat,
    status: Status,
    privacyLevel: int,
    severity: int,
    category: string,
    anonymityLevel: int,
    ageGroup: AgeGroup,
    gender: Gender,
    contactInfo: Option<string>,
    verificationStatus: bool,
    reportType: ReportType
  )

  /** The audit record of the most recent hash revision of a report. */
  datatype ReportUpdate = ReportUpdate(
    symptomHash: Bytes,
    locationHash: Bytes,
    timestamp: nat,
    updater: string
  )

  /** A logged fee payment from a reporter to the authority. */
  datatype Transfer = Transfer(amount: int, sender: string, recipient: string)

  /** Everything the registry keeps between calls. */
  datatype State = State(
    nextReportId: nat,
    maxReports: int,
    submissionFee: int,
    authority: Option<string>,
    banned: set<string>,
    reports: map<int, Report>,
    reportsByReporter: map<string, seq<int>>,
    reportUpdates: map<int, ReportUpdate>,
    transfers: seq<Transfer>
  )

  const DefaultMaxReports := 10000
  const DefaultSubmissionFee := 100

  /** A freshly deployed registry: no reports, no authority, default cap and fee. */
  const Initial: State := State(0, DefaultMaxReports, DefaultSubmissionFee, None, {}, map[], map[], map[], [])

  /** The ids filed under a reporter; a reporter with no entry has none. */
  function ReportsOf(st: State, reporter: string): seq<int>
  {
    if reporter in st.reportsByReporter then st.reportsByReporter[reporter] else []
  }
}
