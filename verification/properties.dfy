/**
 Properties that relate two or more calls of the registry: the one-time
 authority binding, idempotent bans and their effect on submissions, what a
 status change does to later amendments, and reading back a filed report.
 */
module Properties {
  import opened Errors
  import opened ReportTypes
  import opened Registry
  import opened Invariants

  /**
   The authority can be bound once: after any binding attempt a second one
   fails and leaves the first binding in place.
   */
  lemma AuthorityBindsOnce(st: State, first: string, second: string)
    ensures
      var s1 := SetAuthorityContract(st, first).1;
      && s1.authority == (if st.authority.None? then Some(first) else st.authority)
      && SetAuthorityContract(s1, second) == (false, s1)
  {
  }

  /** Banning a principal twice leaves the same state as banning once. */
  lemma BanIsIdempotent(st: State, env: Env, reporter: string)
    ensures
      var once := BanReporter(st, env, reporter);
      BanReporter(once.post, env, reporter) == once
  {
  }

  /**
   Once the authority has banned a principal, every submission by that
   principal fails: with the cap error when the cap is reached, otherwise
   with the ban error.
   */
  lemma BannedSubmissionFails(st: State, authority: Env, reporter: Env, a: Submission)
    requires BanReporter(st, authority, reporter.caller).reply.Ok?
    ensures
      var banned := BanReporter(st, authority, reporter.caller).post;
      var r := SubmitReport(banned, reporter, a);
      && r.reply == (if banned.nextReportId >= banned.maxReports then Err(MaxReportsExceeded) else Err(ReporterBanned))
      && r.post == banned
  {
  }

  /**
   After the authority moves a report out of pending, nobody can amend it:
   its reporter is refused with the update-not-allowed error and anyone else
   with the not-authorized error.
   */
  lemma DecidedReportIsFrozen(st: State, authority: Env, id: int, status: string,
                              env: Env, sh: Bytes, lh: Bytes)
    requires status == "validated" || status == "rejected"
    requires SetReportStatus(st, authority, id, status).reply.Ok?
    ensures
      var decided := SetReportStatus(st, authority, id, status).post;
      var r := UpdateReport(decided, env, id, sh, lh);
      && r.reply == (if env.caller == st.reports[id].reporter then Err(UpdateNotAllowed) else Err(NotAuthorized))
      && r.post == decided
  {
    var decided := SetReportStatus(st, authority, id, status).post;
    assert decided.reports[id].status != Pending;
  }

  /**
   Status changes are not ordered: the authority can put any existing report
   back to pending, whatever its status, after which its reporter may amend
   it again.
   */
  lemma StatusCanReturnToPending(st: State, authority: Env, id: int)
    requires st.authority == Some(authority.caller) && id in st.reports
    ensures
      var r := SetReportStatus(st, authority, id, "pending");
      && r.reply == Ok(true)
      && r.post.reports[id] == st.reports[id].(status := Pending)
  {
  }

  /**
   When the stored ids are 0 up to the counter, a successful submission can
   be read back under the id it returned, with the caller as reporter,
   status pending and the submitted hashes, and it passes every submission
   check.
   */
  lemma SubmitThenGet(st: State, env: Env, a: Submission)
    requires DenseIds(st)
    requires SubmitReport(st, env, a).reply.Ok?
    ensures
      var r := SubmitReport(st, env, a);
      var got := GetReport(r.post, r.reply.value);
      && got.Some?
      && got.value.reporter == env.caller
      && got.value.status == Pending
      && got.value.symptomHash == a.symptomHash
      && got.value.locationHash == a.locationHash
      && WellFormed(got.value)
      && GetReportCount(r.post) == Ok(r.reply.value + 1)
      && GetReport(st, r.reply.value).None?
  {
    SubmitPost(st, env, a);
  }
}
