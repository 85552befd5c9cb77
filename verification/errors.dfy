/**
 Error codes of the report registry and the result types its entry points
 return. Every failure is a value, never an exception: an entry point either
 answers `Ok(v)` or `Err(e)`, and `Code(e)` is the numeric code the registry
 reports for `e`.
 */
module Errors {

  datatype Option<+T> = None | Some(value: T)

  /** The registry's error conditions, one per numeric code. */
  datatype Error =
    | NotAuthorized
    | InvalidSymptomHash
    | InvalidLocationHash
    | InvalidTimestamp
    | ReportAlreadyExists
    | InvalidStatus
    | ReporterBanned
    | InvalidReportId
    | InvalidPrivacyLevel
    | InvalidSeverity
    | InvalidCategory
    | MaxReportsExceeded
    | InvalidUpdateParam
    | UpdateNotAllowed
    | AuthorityNotVerified
    | InvalidAnonymityLevel
    | InvalidAgeGroup
    | InvalidGender
    | InvalidContactInfo
    | InvalidReportType

  /** The numeric code of an error; 119 is not used. */
  function Code(e: Error): (c: int)
    ensures 100 <= c <= 120 && c != 119
  {
    match e
    case NotAuthorized => 100
    case InvalidSymptomHash => 101
    case InvalidLocationHash => 102
    case InvalidTimestamp => 103
    case ReportAlreadyExists => 104
    case InvalidStatus => 105
    case ReporterBanned => 106
    case InvalidReportId => 107
    case InvalidPrivacyLevel => 108
    case InvalidSeverity => 109
    case InvalidCategory => 110
    case MaxReportsExceeded => 111
    case InvalidUpdateParam => 112
    case UpdateNotAllowed => 113
    case AuthorityNotVerified => 114
    case InvalidAnonymityLevel => 115
    case InvalidAgeGroup => 116
    case InvalidGender => 117
    case InvalidContactInfo => 118
    case InvalidReportType => 120
  }

  /** Distinct errors are reported under distinct codes. */
  lemma CodeInjective(e1: Error, e2: Error)
    ensures Code(e1) == Code(e2) <==> e1 == e2
  {
  }

  /** What an entry point answers: a value, or the error that stopped it. */
  datatype Result<+T> = Ok(value: T) | Err(error: Error)
}
