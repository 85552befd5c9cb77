/**
 The invariant every registry state reachable from deployment satisfies, and
 its preservation by each entry point.

 The invariant says: report ids are exactly 0 .. nextReportId-1; every stored
 report passed the submission checks and was never marked verified; each
 reporter's id list is the ascending list of the ids they filed; each audit
 record describes the current hashes and timestamp of its report and names
 its reporter; and the transfer log holds one fee payment per report, paid
 by that report's reporter to the bound authority.
 */
module Invariants {
  import opened Errors
  import opened ReportTypes
  import opened Registry

  /** The ids below `n` whose report was filed by `p`, in ascending order. */
  function IdsOf(reports: map<int, Report>, n: nat, p: string): seq<int>
  {
    if n == 0 then []
    else
      var last := n - 1;
      IdsOf(reports, last, p) + (if last in reports && reports[last].reporter == p then [last] else [])
  }

  /** `ids` lists exactly the stored ids below `n` filed by `p`, each once, in ascending order. */
  ghost predicate ListsExactly(ids: seq<int>, reports: map<int, Report>, n: nat, p: string)
  {
    && (forall k :: 0 <= k < |ids| ==> 0 <= ids[k] < n && ids[k] in reports && reports[ids[k]].reporter == p)
    && (forall j, k :: 0 <= j < k < |ids| ==> ids[j] < ids[k])
    && (forall i :: 0 <= i < n && i in reports && reports[i].reporter == p ==> i in ids)
  }

  /** Every id `IdsOf` lists is a stored id below `n` filed by `p`. */
  lemma {:induction false} IdsOfSound(reports: map<int, Report>, n: nat, p: string)
    ensures forall k :: 0 <= k < |IdsOf(reports, n, p)| ==>
      0 <= IdsOf(reports, n, p)[k] < n && IdsOf(reports, n, p)[k] in reports
      && reports[IdsOf(reports, n, p)[k]].reporter == p
  {
    if n > 0 {
      var last := n - 1;
      IdsOfSound(reports, last, p);
      var prefix := IdsOf(reports, last, p);
      var ids := IdsOf(reports, n, p);
      var owned := last in reports && reports[last].reporter == p;
      assert ids == prefix + (if owned then [last] else []);
      forall k | 0 <= k < |ids|
        ensures 0 <= ids[k] < n && ids[k] in reports && reports[ids[k]].reporter == p
      {
        if k < |prefix| {
          assert ids[k] == prefix[k];
          assert prefix[k] in reports && reports[prefix[k]].reporter == p && 0 <= prefix[k] < last;
        } else {
          assert owned && ids[k] == last;
        }
      }
    }
  }

  /** `IdsOf` lists its ids in strictly ascending order. */
  lemma {:induction false} IdsOfAscending(reports: map<int, Report>, n: nat, p: string)
    ensures forall j, k :: 0 <= j < k < |IdsOf(reports, n, p)| ==> IdsOf(reports, n, p)[j] < IdsOf(reports, n, p)[k]
  {
    if n > 0 {
      var last := n - 1;
      IdsOfAscending(reports, last, p);
      IdsOfSound(reports, last, p);
      var prefix := IdsOf(reports, last, p);
      var ids := IdsOf(reports, n, p);
      var owned := last in reports && reports[last].reporter == p;
      assert ids == prefix + (if owned then [last] else []);
      forall j, k | 0 <= j < k < |ids|
        ensures ids[j] < ids[k]
      {
        assert ids[j] == prefix[j];
        assert 0 <= prefix[j] < last;
        if k < |prefix| {
          assert ids[k] == prefix[k];
        }
      }
    }
  }

  /** Every stored id below `n` filed by `p` is listed by `IdsOf`. */
  lemma {:induction false} IdsOfComplete(reports: map<int, Report>, n: nat, p: string)
    ensures forall i :: 0 <= i < n && i in reports && reports[i].reporter == p ==> i in IdsOf(reports, n, p)
  {
    if n > 0 {
      var last := n - 1;
      IdsOfComplete(reports, last, p);
      var prefix := IdsOf(reports, last, p);
      var ids := IdsOf(reports, n, p);
      var owned := last in reports && reports[last].reporter == p;
      assert ids == prefix + (if owned then [last] else []);
      forall i | 0 <= i < n && i in reports && reports[i].reporter == p
        ensures i in ids
      {
        if i < last {
          assert i in prefix;
        } else {
          assert owned && ids[|prefix|] == i;
        }
      }
    }
  }

  /** `IdsOf` lists exactly the stored ids below `n` filed by `p`, in ascending order. */
  lemma IdsOfSpec(reports: map<int, Report>, n: nat, p: string)
    ensures ListsExactly(IdsOf(reports, n, p), reports, n, p)
  {
    IdsOfSound(reports, n, p);
    IdsOfAscending(reports, n, p);
    IdsOfComplete(reports, n, p);
  }

  /** A report satisfies every condition a submission is checked for. */
  predicate WellFormed(rep: Report)
  {
    && |rep.symptomHash| == HashLength
    && |rep.locationHash| == HashLength
    && 0 <= rep.privacyLevel <= 5
    && 1 <= rep.severity <= 10
    && 1 <= |rep.category| <= 50
    && 0 <= rep.anonymityLevel <= 3
    && (rep.contactInfo.None? || |rep.contactInfo.value| <= 100)
    && !rep.verificationStatus
  }

  /** An audit record describes the report's current revision, made by its reporter. */
  predicate Audits(u: ReportUpdate, rep: Report)
  {
    && u.symptomHash == rep.symptomHash
    && u.locationHash == rep.locationHash
    && u.timestamp == rep.timestamp
    && u.updater == rep.reporter
  }

  ghost predicate DenseIds(st: State)
  {
    forall i :: i in st.reports <==> 0 <= i < st.nextReportId
  }

  ghost predicate AllWellFormed(st: State)
  {
    forall i :: i in st.reports ==> WellFormed(st.reports[i])
  }

  ghost predicate IndexedByReporter(st: State)
  {
    forall p :: ReportsOf(st, p) == IdsOf(st.reports, st.nextReportId, p)
  }

  ghost predicate AuditsCurrent(st: State)
  {
    forall i :: i in st.reportUpdates ==> i in st.reports && Audits(st.reportUpdates[i], st.reports[i])
  }

  ghost predicate FeesLogged(st: State)
  {
    && |st.transfers| == st.nextReportId
    && (forall i :: 0 <= i < |st.transfers| ==> i in st.reports && st.transfers[i].sender == st.reports[i].reporter)
    && (|st.transfers| > 0 ==> AuthorityVerified(st))
    && (forall i :: 0 <= i < |st.transfers| ==> Some(st.transfers[i].recipient) == st.authority)
  }

  ghost predicate Valid(st: State)
  {
    DenseIds(st) && AllWellFormed(st) && IndexedByReporter(st) && AuditsCurrent(st) && FeesLogged(st)
  }

  /** The id lists depend only on which ids exist and who filed them. */
  lemma {:induction false} IdsOfFrame(r1: map<int, Report>, r2: map<int, Report>, n: nat, p: string)
    requires forall i :: 0 <= i < n ==> (i in r1 <==> i in r2)
    requires forall i :: 0 <= i < n && i in r1 ==> r1[i].reporter == r2[i].reporter
    ensures IdsOf(r1, n, p) == IdsOf(r2, n, p)
  {
    if n > 0 {
      IdsOfFrame(r1, r2, n - 1, p);
    }
  }

  /**
   In a valid state, the list filed under a reporter holds exactly the ids
   of that reporter's reports, each once, in ascending order.
   */
  lemma ReporterListIsExact(st: State, p: string)
    requires Valid(st)
    ensures ListsExactly(ReportsOf(st, p), st.reports, st.nextReportId, p)
  {
    IdsOfSpec(st.reports, st.nextReportId, p);
  }

  lemma InitialValid()
    ensures Valid(Initial)
  {
  }

  lemma SetAuthorityPreservesValid(st: State, principal: string)
    requires Valid(st)
    ensures Valid(SetAuthorityContract(st, principal).1)
  {
  }

  lemma SetMaxReportsPreservesValid(st: State, newMax: int)
    requires Valid(st)
    ensures Valid(SetMaxReports(st, newMax).post)
  {
  }

  lemma SetSubmissionFeePreservesValid(st: State, newFee: int)
    requires Valid(st)
    ensures Valid(SetSubmissionFee(st, newFee).post)
  {
  }

  lemma BanReporterPreservesValid(st: State, env: Env, reporter: string)
    requires Valid(st)
    ensures Valid(BanReporter(st, env, reporter).post)
  {
  }

  /** The state a successful submission leaves, written out. */
  lemma SubmitPost(st: State, env: Env, a: Submission)
    requires SubmitReport(st, env, a).reply.Ok?
    ensures SubmitError(st, env.caller, a).None?
    ensures SubmitReport(st, env, a).post == st.(
      nextReportId := st.nextReportId + 1,
      reports := st.reports[st.nextReportId := NewReport(env, a)],
      reportsByReporter := st.reportsByReporter[env.caller := ReportsOf(st, env.caller) + [st.nextReportId]],
      transfers := st.transfers + [Transfer(st.submissionFee, env.caller, st.authority.value)])
  {
  }

  lemma SubmitKeepsIndex(st: State, env: Env, a: Submission)
    requires DenseIds(st) && IndexedByReporter(st)
    requires SubmitReport(st, env, a).reply.Ok?
    ensures IndexedByReporter(SubmitReport(st, env, a).post)
  {
    SubmitPost(st, env, a);
    var post := SubmitReport(st, env, a).post;
    var n := st.nextReportId;
    var rep := NewReport(env, a);
    assert post.reports == st.reports[n := rep];
    assert n !in st.reports;
    forall p
      ensures ReportsOf(post, p) == IdsOf(post.reports, n + 1, p)
    {
      IdsOfFrame(st.reports, post.reports, n, p);
      assert IdsOf(post.reports, n + 1, p) == ReportsOf(st, p) + (if rep.reporter == p then [n] else []);
    }
  }

  lemma SubmitKeepsFees(st: State, env: Env, a: Submission)
    requires DenseIds(st) && FeesLogged(st)
    requires SubmitReport(st, env, a).reply.Ok?
    ensures FeesLogged(SubmitReport(st, env, a).post)
  {
    SubmitPost(st, env, a);
  }

  lemma SubmitPreservesValid(st: State, env: Env, a: Submission)
    requires Valid(st)
    ensures Valid(SubmitReport(st, env, a).post)
  {
    if SubmitReport(st, env, a).reply.Ok? {
      SubmitPost(st, env, a);
      SubmitKeepsIndex(st, env, a);
      SubmitKeepsFees(st, env, a);
    }
  }

  lemma UpdatePreservesValid(st: State, env: Env, id: int, sh: Bytes, lh: Bytes)
    requires Valid(st)
    ensures Valid(UpdateReport(st, env, id, sh, lh).post)
  {
    var r := UpdateReport(st, env, id, sh, lh);
    if r.reply.Ok? {
      forall p
        ensures ReportsOf(r.post, p) == IdsOf(r.post.reports, r.post.nextReportId, p)
      {
        IdsOfFrame(st.reports, r.post.reports, st.nextReportId, p);
      }
    }
  }

  lemma SetStatusPreservesValid(st: State, env: Env, id: int, status: string)
    requires Valid(st)
    ensures Valid(SetReportStatus(st, env, id, status).post)
  {
    var r := SetReportStatus(st, env, id, status);
    if r.reply.Ok? {
      forall p
        ensures ReportsOf(r.post, p) == IdsOf(r.post.reports, r.post.nextReportId, p)
      {
        IdsOfFrame(st.reports, r.post.reports, st.nextReportId, p);
      }
    }
  }
}
