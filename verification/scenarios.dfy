/**
 Concrete call sequences with their expected replies: a registry whose
 authority is "ST2TEST", a reporter "ST1TEST", both at block height 0.
 */
module Scenarios {
  import opened Errors
  import opened ReportTypes
  import opened Registry

  const Reporter := Env("ST1TEST", 0)
  const Authority := Env("ST2TEST", 0)

  function Filled(n: nat, b: Byte): (h: Bytes)
    ensures |h| == n
  {
    seq(n, _ => b)
  }

  /** The first submission of the test suite. */
  const Fever := Submission(Filled(32, 1), Filled(32, 2), 2, 5, "fever", 1, "19-35", "male",
                            Some("contact@example.com"), "symptom")

  /** The second submission of the test suite, without contact information. */
  const Cough := Submission(Filled(32, 1), Filled(32, 2), 3, 6, "cough", 2, "36-60", "female",
                            None, "outbreak")

  /** The registry right after the authority is bound. */
  function Bound(): State
  {
    SetAuthorityContract(Initial, Authority.caller).1
  }

  lemma SubmitScenario()
    ensures
      var r := SubmitReport(Bound(), Reporter, Fever);
      && r.reply == Ok(0)
      && GetReport(r.post, 0) == Some(Report("ST1TEST", Filled(32, 1), Filled(32, 2), 0, Pending, 2, 5, "fever", 1,
                                             Age19To35, Male, Some("contact@example.com"), false, Symptom))
      && r.post.transfers == [Transfer(100, "ST1TEST", "ST2TEST")]
  {
  }

  lemma NoAuthorityScenario()
    ensures SubmitReport(Initial, Reporter, Fever).reply == Err(AuthorityNotVerified)
    ensures Code(AuthorityNotVerified) == 114
  {
  }

  lemma ShortSymptomHashScenario()
    ensures SubmitReport(Bound(), Reporter, Fever.(symptomHash := Filled(31, 1))).reply == Err(InvalidSymptomHash)
  {
  }

  lemma BannedScenario()
    ensures
      var banned := BanReporter(Bound(), Authority, "ST1TEST");
      && banned.reply == Ok(true)
      && SubmitReport(banned.post, Reporter, Fever).reply == Err(ReporterBanned)
  {
  }

  lemma UpdateScenario()
    ensures
      var s1 := SubmitReport(Bound(), Reporter, Fever).post;
      var r := UpdateReport(s1, Reporter, 0, Filled(32, 3), Filled(32, 4));
      && r.reply == Ok(true)
      && r.post.reports[0].symptomHash == Filled(32, 3)
      && r.post.reports[0].locationHash == Filled(32, 4)
  {
  }

  lemma UpdateAfterValidationScenario()
    ensures
      var s1 := SubmitReport(Bound(), Reporter, Fever).post;
      var s2 := SetReportStatus(s1, Authority, 0, "validated").post;
      UpdateReport(s2, Reporter, 0, Filled(32, 3), Filled(32, 4)).reply == Err(UpdateNotAllowed)
  {
  }

  lemma StatusScenario()
    ensures
      var s1 := SubmitReport(Bound(), Reporter, Fever).post;
      var r := SetReportStatus(s1, Authority, 0, "validated");
      && r.reply == Ok(true)
      && r.post.reports[0].status == Validated
      && SetReportStatus(s1, Reporter, 0, "validated").reply == Err(NotAuthorized)
  {
  }

  lemma CountScenario()
    ensures
      var s1 := SubmitReport(Bound(), Reporter, Fever).post;
      var s2 := SubmitReport(s1, Reporter, Cough);
      && SubmitReport(Bound(), Reporter, Fever).reply == Ok(0)
      && s2.reply == Ok(1)
      && GetReportCount(s2.post) == Ok(2)
  {
  }

  lemma MaxReportsScenario()
    ensures
      var capped := Bound().(maxReports := 1);
      var s1 := SubmitReport(capped, Reporter, Fever).post;
      SubmitReport(s1, Reporter, Cough).reply == Err(MaxReportsExceeded)
  {
  }

  lemma FeeScenario()
    ensures
      var priced := SetSubmissionFee(Bound(), 200);
      && priced.reply == Ok(true)
      && priced.post.submissionFee == 200
      && SubmitReport(priced.post, Reporter, Fever).post.transfers == [Transfer(200, "ST1TEST", "ST2TEST")]
  {
  }
}
