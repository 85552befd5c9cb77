/**
 The entry points of the report registry. Each is a pure function from the
 registry state, the calling environment (who calls, at which block height)
 and the call's arguments to a reply and the state after the call. A call
 that fails returns the state it was given: the registry either completes a
 call or changes nothing.
 */
module Registry {
  import opened Errors
  import opened ReportTypes
  import opened Checks

  /** Who is calling, and the block height the call runs at. */
  datatype Env = Env(caller: string, height: nat)

  /** A call's reply together with the state it leaves behind. */
  datatype Step<T> = Step(reply: Result<T>, post: State)

  /**
   The registry treats a bound authority as usable only when it is a
   non-empty principal; an empty one counts as not bound for the fee, cap
   and submission checks.
   */
  predicate AuthorityVerified(st: State)
  {
    st.authority.Some? && st.authority.value != ""
  }

  /* ---------- Administration ---------- */

  /**
   Binds the authority principal. Anyone may call it, but only while no
   authority is bound; the boolean is whether the binding happened.
   */
  function SetAuthorityContract(st: State, principal: string): (r: (bool, State))
    ensures r.0 <==> st.authority.None?
    ensures r.0 ==> r.1 == st.(authority := Some(principal))
    ensures !r.0 ==> r.1 == st
  {
    if st.authority.Some? then (false, st)
    else (true, st.(authority := Some(principal)))
  }

  /** Changes the report cap. The value is checked before the authority. */
  function SetMaxReports(st: State, newMax: int): (r: Step<bool>)
    ensures r.reply == Err(InvalidUpdateParam) <==> newMax <= 0
    ensures r.reply == Err(AuthorityNotVerified) <==> newMax > 0 && !AuthorityVerified(st)
    ensures r.reply.Ok? <==> newMax > 0 && AuthorityVerified(st)
    ensures r.reply.Ok? ==> r.reply.value && r.post == st.(maxReports := newMax)
    ensures r.reply.Err? ==> r.post == st
  {
    if newMax <= 0 then Step(Err(InvalidUpdateParam), st)
    else if !AuthorityVerified(st) then Step(Err(AuthorityNotVerified), st)
    else Step(Ok(true), st.(maxReports := newMax))
  }

  /** Changes the submission fee; zero is a legal fee. */
  function SetSubmissionFee(st: State, newFee: int): (r: Step<bool>)
    ensures r.reply == Err(InvalidUpdateParam) <==> newFee < 0
    ensures r.reply == Err(AuthorityNotVerified) <==> newFee >= 0 && !AuthorityVerified(st)
    ensures r.reply.Ok? <==> newFee >= 0 && AuthorityVerified(st)
    ensures r.reply.Ok? ==> r.reply.value && r.post == st.(submissionFee := newFee)
    ensures r.reply.Err? ==> r.post == st
  {
    if newFee < 0 then Step(Err(InvalidUpdateParam), st)
    else if !AuthorityVerified(st) then Step(Err(AuthorityNotVerified), st)
    else Step(Ok(true), st.(submissionFee := newFee))
  }

  /** Adds a principal to the ban list; only the bound authority may do so. */
  function BanReporter(st: State, env: Env, reporter: string): (r: Step<bool>)
    ensures r.reply.Ok? <==> st.authority == Some(env.caller)
    ensures r.reply.Err? ==> r.reply.error == NotAuthorized && r.post == st
    ensures r.reply.Ok? ==> r.reply.value && r.post.banned == st.banned + {reporter}
    ensures r.post == st.(banned := r.post.banned)
  {
    if st.authority != Some(env.caller) then Step(Err(NotAuthorized), st)
    else Step(Ok(true), st.(banned := st.banned + {reporter}))
  }

  /* ---------- Submission ---------- */

  /** The arguments of a submission, as the caller passes them. */
  datatype Submission = Submission(
    symptomHash: Bytes,
    locationHash: Bytes,
    privacyLevel: int,
    severity: int,
    category: string,
    anonymityLevel: int,
    ageGroup: string,
    gender: string,
    contactInfo: Option<string>,
    reportType: string
  )

  /** The report a submission that passed every check is stored as. */
  function NewReport(env: Env, a: Submission): (rep: Report)
    requires ParseAgeGroup(a.ageGroup).Some? && ParseGender(a.gender).Some?
    requires ParseReportType(a.reportType).Some?
    ensures rep.reporter == env.caller && rep.timestamp == env.height
    ensures rep.status == Pending && !rep.verificationStatus
    ensures rep.symptomHash == a.symptomHash && rep.locationHash == a.locationHash
    ensures rep.privacyLevel == a.privacyLevel && rep.severity == a.severity
    ensures rep.category == a.category && rep.anonymityLevel == a.anonymityLevel
    ensures AgeGroupName(rep.ageGroup) == a.ageGroup && GenderName(rep.gender) == a.gender
    ensures rep.contactInfo == a.contactInfo && ReportTypeName(rep.reportType) == a.reportType
  {
    Report(env.caller, a.symptomHash, a.locationHash, env.height, Pending,
           a.privacyLevel, a.severity, a.category, a.anonymityLevel,
           ParseAgeGroup(a.ageGroup).value, ParseGender(a.gender).value,
           a.contactInfo, false, ParseReportType(a.reportType).value)
  }

  /**
   The first check a submission fails, in the order the registry runs them;
   `None` when it passes them all.
   */
  function SubmitError(st: State, caller: string, a: Submission): (e: Option<Error>)
    ensures e.None? ==> ParseAgeGroup(a.ageGroup).Some? && ParseGender(a.gender).Some?
    ensures e.None? ==> ParseReportType(a.reportType).Some? && AuthorityVerified(st)
  {
    if st.nextReportId >= st.maxReports then Some(MaxReportsExceeded)
    else if caller in st.banned then Some(ReporterBanned)
    else if |a.symptomHash| != HashLength then Some(InvalidSymptomHash)
    else if |a.locationHash| != HashLength then Some(InvalidLocationHash)
    else if a.privacyLevel < 0 || a.privacyLevel > 5 then Some(InvalidPrivacyLevel)
    else if a.severity < 1 || a.severity > 10 then Some(InvalidSeverity)
    else if |a.category| == 0 || |a.category| > 50 then Some(InvalidCategory)
    else if a.anonymityLevel < 0 || a.anonymityLevel > 3 then Some(InvalidAnonymityLevel)
    else if ParseAgeGroup(a.ageGroup).None? then Some(InvalidAgeGroup)
    else if ParseGender(a.gender).None? then Some(InvalidGender)
    else if a.contactInfo.Some? && |a.contactInfo.value| > 100 then Some(InvalidContactInfo)
    else if ParseReportType(a.reportType).None? then Some(InvalidReportType)
    else if !AuthorityVerified(st) then Some(AuthorityNotVerified)
    else None
  }

  /**
   Files a report. The checks run in a fixed order and the first that fails
   is the reply; on success the caller pays the fee to the authority, the
   report is stored pending under the next id, and the id is filed under the
   caller.
   */
  function SubmitReport(st: State, env: Env, a: Submission): (r: Step<int>)
    ensures r.reply.Err? ==> r.post == st
    ensures r.reply.Ok? ==>
      && st.nextReportId < st.maxReports
      && env.caller !in st.banned
      && AuthorityVerified(st)
    ensures env.caller in st.banned ==>
      r.reply == Err(MaxReportsExceeded) || r.reply == Err(ReporterBanned)
    ensures r.reply.Ok? ==>
      var id := st.nextReportId;
      && r.reply.value == id
      && r.post.nextReportId == id + 1
      && r.post.reports.Keys == st.reports.Keys + {id}
      && r.post.reports == st.reports[id := r.post.reports[id]]
      && r.post.reports[id].reporter == env.caller
      && r.post.reports[id].timestamp == env.height
      && r.post.reports[id].status == Pending
      && !r.post.reports[id].verificationStatus
      && r.post.reports[id].symptomHash == a.symptomHash
      && r.post.reports[id].locationHash == a.locationHash
      && r.post.reports[id].privacyLevel == a.privacyLevel
      && r.post.reports[id].severity == a.severity
      && r.post.reports[id].category == a.category
      && r.post.reports[id].anonymityLevel == a.anonymityLevel
      && AgeGroupName(r.post.reports[id].ageGroup) == a.ageGroup
      && GenderName(r.post.reports[id].gender) == a.gender
      && r.post.reports[id].contactInfo == a.contactInfo
      && ReportTypeName(r.post.reports[id].reportType) == a.reportType
      && r.post.reportsByReporter == st.reportsByReporter[env.caller := ReportsOf(st, env.caller) + [id]]
      && r.post.transfers == st.transfers + [Transfer(st.submissionFee, env.caller, st.authority.value)]
      && r.post.maxReports == st.maxReports
      && r.post.submissionFee == st.submissionFee
      && r.post.authority == st.authority
      && r.post.banned == st.banned
      && r.post.reportUpdates == st.reportUpdates
  {
    match SubmitError(st, env.caller, a)
    case Some(e) => Step(Err(e), st)
    case None =>
      var id := st.nextReportId;
      var fee := Transfer(st.submissionFee, env.caller, st.authority.value);
      Step(Ok(id), st.(
        nextReportId := id + 1,
        reports := st.reports[id := NewReport(env, a)],
        reportsByReporter := st.reportsByReporter[env.caller := ReportsOf(st, env.caller) + [id]],
        transfers := st.transfers + [fee]))
  }

  /* ---------- The submission checks, as an ordered list ---------- */

  /** One validation step of a submission. */
  datatype SubmitCheck =
    | CapCheck | BanCheck | SymptomHashCheck | LocationHashCheck
    | PrivacyCheck | SeverityCheck | CategoryCheck | AnonymityCheck
    | AgeGroupCheck | GenderCheck | ContactCheck | ReportTypeCheck
    | AuthorityCheck

  /** The order in which a submission is validated. */
  const SubmitOrder: seq<SubmitCheck> := [
    CapCheck, BanCheck, SymptomHashCheck, LocationHashCheck,
    PrivacyCheck, SeverityCheck, CategoryCheck, AnonymityCheck,
    AgeGroupCheck, GenderCheck, ContactCheck, ReportTypeCheck,
    AuthorityCheck]

  /** The condition each check demands, stated on its own. */
  predicate Passes(c: SubmitCheck, st: State, caller: string, a: Submission)
  {
    match c
    case CapCheck => st.nextReportId < st.maxReports
    case BanCheck => caller !in st.banned
    case SymptomHashCheck => |a.symptomHash| == HashLength
    case LocationHashCheck => |a.locationHash| == HashLength
    case PrivacyCheck => 0 <= a.privacyLevel <= 5
    case SeverityCheck => 1 <= a.severity <= 10
    case CategoryCheck => 1 <= |a.category| <= 50
    case AnonymityCheck => 0 <= a.anonymityLevel <= 3
    case AgeGroupCheck => ParseAgeGroup(a.ageGroup).Some?
    case GenderCheck => ParseGender(a.gender).Some?
    case ContactCheck => a.contactInfo.None? || |a.contactInfo.value| <= 100
    case ReportTypeCheck => ParseReportType(a.reportType).Some?
    case AuthorityCheck => AuthorityVerified(st)
  }

  /** The error a failing check is reported as. */
  function ErrorOf(c: SubmitCheck): Error
  {
    match c
    case CapCheck => MaxReportsExceeded
    case BanCheck => ReporterBanned
    case SymptomHashCheck => InvalidSymptomHash
    case LocationHashCheck => InvalidLocationHash
    case PrivacyCheck => InvalidPrivacyLevel
    case SeverityCheck => InvalidSeverity
    case CategoryCheck => InvalidCategory
    case AnonymityCheck => InvalidAnonymityLevel
    case AgeGroupCheck => InvalidAgeGroup
    case GenderCheck => InvalidGender
    case ContactCheck => InvalidContactInfo
    case ReportTypeCheck => InvalidReportType
    case AuthorityCheck => AuthorityNotVerified
  }

  /** The verdict of each check of `SubmitOrder`, in order. */
  function Verdicts(st: State, caller: string, a: Submission): (v: seq<bool>)
    ensures |v| == |SubmitOrder|
    ensures forall i :: 0 <= i < |v| ==> v[i] == Passes(SubmitOrder[i], st, caller, a)
  {
    seq(|SubmitOrder|, i requires 0 <= i < |SubmitOrder| => Passes(SubmitOrder[i], st, caller, a))
  }

  /**
   A submission is answered with the error of the first check in
   `SubmitOrder` that it fails, and succeeds with the next id exactly when
   it passes them all.
   */
  lemma SubmitFollowsOrder(st: State, env: Env, a: Submission)
    ensures
      var first := FirstFailing(Verdicts(st, env.caller, a));
      SubmitReport(st, env, a).reply ==
        if first.Some? then Err(ErrorOf(SubmitOrder[first.value])) else Ok(st.nextReportId)
  {
    SubmitErrorFollowsOrder(st, env.caller, a);
  }

  /** Each verdict, written as the condition the guard chain tests. */
  lemma VerdictsSpelledOut(st: State, caller: string, a: Submission)
    ensures var v := Verdicts(st, caller, a);
      && v[0] == (st.nextReportId < st.maxReports)
      && v[1] == (caller !in st.banned)
      && v[2] == (|a.symptomHash| == HashLength)
      && v[3] == (|a.locationHash| == HashLength)
      && v[4] == (0 <= a.privacyLevel <= 5)
      && v[5] == (1 <= a.severity <= 10)
      && v[6] == (1 <= |a.category| <= 50)
      && v[7] == (0 <= a.anonymityLevel <= 3)
      && v[8] == ParseAgeGroup(a.ageGroup).Some?
      && v[9] == ParseGender(a.gender).Some?
      && v[10] == (a.contactInfo.None? || |a.contactInfo.value| <= 100)
      && v[11] == ParseReportType(a.reportType).Some?
      && v[12] == AuthorityVerified(st)
  {
  }

  /** The hand-written guard chain agrees with `FirstFailing` over `SubmitOrder`. */
  lemma SubmitErrorFollowsOrder(st: State, caller: string, a: Submission)
    ensures
      var first := FirstFailing(Verdicts(st, caller, a));
      SubmitError(st, caller, a) ==
        if first.Some? then Some(ErrorOf(SubmitOrder[first.value])) else None
  {
    var v := Verdicts(st, caller, a);
    VerdictsSpelledOut(st, caller, a);
    var k: nat;
    if !v[0] { k := 0; }
    else if !v[1] { k := 1; }
    else if !v[2] { k := 2; }
    else if !v[3] { k := 3; }
    else if !v[4] { k := 4; }
    else if !v[5] { k := 5; }
    else if !v[6] { k := 6; }
    else if !v[7] { k := 7; }
    else if !v[8] { k := 8; }
    else if !v[9] { k := 9; }
    else if !v[10] { k := 10; }
    else if !v[11] { k := 11; }
    else if !v[12] { k := 12; }
    else {
      assert forall j :: 0 <= j < |v| ==> v[j];
      return;
    }
    FirstFailingAt(v, k);
  }

  /* ---------- Reads ---------- */

  /** The report stored under `id`, if there is one. */
  function GetReport(st: State, id: int): (r: Option<Report>)
    ensures r.Some? <==> id in st.reports
    ensures r.Some? ==> r.value == st.reports[id]
  {
    if id in st.reports then Some(st.reports[id]) else None
  }

  /**
   How many reports have been filed: the next id to be assigned. What that
   number means is stated by `Runs.CountIsAcceptedSubmissions`.
   */
  function GetReportCount(st: State): Result<nat>
  {
    Ok(st.nextReportId)
  }

  /* ---------- Amendments ---------- */

  /**
   Lets the original reporter replace both hashes of a pending report. The
   report's timestamp becomes the current height and the revision is
   recorded as the report's latest update.
   */
  function UpdateReport(st: State, env: Env, id: int, newSymptomHash: Bytes, newLocationHash: Bytes): (r: Step<bool>)
    ensures r.reply.Err? ==> r.post == st
    ensures r.reply == Err(InvalidReportId) <==> id !in st.reports
    ensures r.reply == Err(NotAuthorized) <==>
      id in st.reports && st.reports[id].reporter != env.caller
    ensures r.reply == Err(UpdateNotAllowed) <==>
      id in st.reports && st.reports[id].reporter == env.caller && st.reports[id].status != Pending
    ensures r.reply == Err(InvalidSymptomHash) <==>
      id in st.reports && st.reports[id].reporter == env.caller && st.reports[id].status == Pending
      && |newSymptomHash| != HashLength
    ensures r.reply == Err(InvalidLocationHash) <==>
      id in st.reports && st.reports[id].reporter == env.caller && st.reports[id].status == Pending
      && |newSymptomHash| == HashLength && |newLocationHash| != HashLength
    ensures r.reply.Ok? <==>
      id in st.reports && st.reports[id].reporter == env.caller && st.reports[id].status == Pending
      && |newSymptomHash| == HashLength && |newLocationHash| == HashLength
    ensures r.reply.Ok? ==>
      && r.reply.value
      && id in st.reports
      && r.post.reports == st.reports[id := st.reports[id].(
           symptomHash := newSymptomHash, locationHash := newLocationHash, timestamp := env.height)]
      && r.post.reportUpdates == st.reportUpdates[id := ReportUpdate(newSymptomHash, newLocationHash, env.height, env.caller)]
      && r.post == st.(reports := r.post.reports, reportUpdates := r.post.reportUpdates)
  {
    if id !in st.reports then Step(Err(InvalidReportId), st)
    else
      var report := st.reports[id];
      if report.reporter != env.caller then Step(Err(NotAuthorized), st)
      else if report.status != Pending then Step(Err(UpdateNotAllowed), st)
      else if |newSymptomHash| != HashLength then Step(Err(InvalidSymptomHash), st)
      else if |newLocationHash| != HashLength then Step(Err(InvalidLocationHash), st)
      else
        var updated := report.(symptomHash := newSymptomHash, locationHash := newLocationHash, timestamp := env.height);
        var audit := ReportUpdate(newSymptomHash, newLocationHash, env.height, env.caller);
        Step(Ok(true), st.(reports := st.reports[id := updated], reportUpdates := st.reportUpdates[id := audit]))
  }

  /**
   Lets the authority set a report's status to any of the three statuses,
   from any status: there is no rule on the order of transitions.
   */
  function SetReportStatus(st: State, env: Env, id: int, newStatus: string): (r: Step<bool>)
    ensures r.reply.Err? ==> r.post == st
    ensures r.reply == Err(NotAuthorized) <==> st.authority != Some(env.caller)
    ensures r.reply == Err(InvalidStatus) <==>
      st.authority == Some(env.caller) && newStatus !in {"pending", "validated", "rejected"}
    ensures r.reply == Err(InvalidReportId) <==>
      st.authority == Some(env.caller) && newStatus in {"pending", "validated", "rejected"} && id !in st.reports
    ensures r.reply.Ok? <==>
      st.authority == Some(env.caller) && newStatus in {"pending", "validated", "rejected"} && id in st.reports
    ensures r.reply.Ok? ==>
      && r.reply.value
      && id in st.reports
      && (exists s :: StatusName(s) == newStatus
                      && r.post.reports == st.reports[id := st.reports[id].(status := s)])
      && r.post == st.(reports := r.post.reports)
  {
    if st.authority != Some(env.caller) then Step(Err(NotAuthorized), st)
    else
      match ParseStatus(newStatus)
      case None => Step(Err(InvalidStatus), st)
      case Some(status) =>
        if id !in st.reports then Step(Err(InvalidReportId), st)
        else Step(Ok(true), st.(reports := st.reports[id := st.reports[id].(status := status)]))
  }
}
