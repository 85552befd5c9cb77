/**
 Sequences of calls against the registry. Calls are applied one after the
 other, each to the state the previous one left; this module states what
 holds over any such sequence: the invariant, the numbering of reports, the
 permanence of the authority binding and of bans, and the fee log.
 */
module Runs {
  import opened Errors
  import opened ReportTypes
  import opened Registry
  import opened Invariants

  /** One call of an entry point, with its arguments. */
  datatype Call =
    | BindAuthority(principal: string)
    | ChangeMaxReports(newMax: int)
    | ChangeFee(newFee: int)
    | Ban(reporter: string)
    | Submit(submission: Submission)
    | Update(id: int, symptomHash: Bytes, locationHash: Bytes)
    | ChangeStatus(id: int, status: string)
    | ReadReport(id: int)
    | ReadCount

  /** A call together with who makes it and at which height. */
  datatype Request = Request(env: Env, call: Call)

  /** The state after one request. */
  function Apply(st: State, q: Request): State
  {
    match q.call
    case BindAuthority(p) => SetAuthorityContract(st, p).1
    case ChangeMaxReports(n) => SetMaxReports(st, n).post
    case ChangeFee(f) => SetSubmissionFee(st, f).post
    case Ban(p) => BanReporter(st, q.env, p).post
    case Submit(a) => SubmitReport(st, q.env, a).post
    case Update(id, sh, lh) => UpdateReport(st, q.env, id, sh, lh).post
    case ChangeStatus(id, s) => SetReportStatus(st, q.env, id, s).post
    case ReadReport(_) => st
    case ReadCount => st
  }

  /** Whether a request is a submission the registry accepts. */
  predicate Accepted(st: State, q: Request)
  {
    q.call.Submit? && SubmitReport(st, q.env, q.call.submission).reply.Ok?
  }

  /** The state after a sequence of requests. */
  function Run(st: State, qs: seq<Request>): State
    decreases |qs|
  {
    if |qs| == 0 then st else Run(Apply(st, qs[0]), qs[1..])
  }

  /** The ids the accepted submissions of a sequence were given, in call order. */
  function Filed(st: State, qs: seq<Request>): seq<int>
    decreases |qs|
  {
    if |qs| == 0 then []
    else
      var rest := Filed(Apply(st, qs[0]), qs[1..]);
      if Accepted(st, qs[0]) then [SubmitReport(st, qs[0].env, qs[0].call.submission).reply.value] + rest
      else rest
  }

  /** The callers of the accepted submissions of a sequence, in call order. */
  function Submitters(st: State, qs: seq<Request>): seq<string>
    decreases |qs|
  {
    if |qs| == 0 then []
    else
      var rest := Submitters(Apply(st, qs[0]), qs[1..]);
      if Accepted(st, qs[0]) then [qs[0].env.caller] + rest else rest
  }

  /** The consecutive integers lo, lo+1, …, hi-1. */
  function Range(lo: int, hi: int): (r: seq<int>)
    requires lo <= hi
    ensures |r| == hi - lo
    ensures forall k :: 0 <= k < |r| ==> r[k] == lo + k
    decreases hi - lo
  {
    if lo == hi then [] else [lo] + Range(lo + 1, hi)
  }

  /** Every request keeps the invariant. */
  lemma ApplyPreservesValid(st: State, q: Request)
    requires Valid(st)
    ensures Valid(Apply(st, q))
  {
    match q.call
    case BindAuthority(p) => SetAuthorityPreservesValid(st, p);
    case ChangeMaxReports(n) => SetMaxReportsPreservesValid(st, n);
    case ChangeFee(f) => SetSubmissionFeePreservesValid(st, f);
    case Ban(p) => BanReporterPreservesValid(st, q.env, p);
    case Submit(a) => SubmitPreservesValid(st, q.env, a);
    case Update(id, sh, lh) => UpdatePreservesValid(st, q.env, id, sh, lh);
    case ChangeStatus(id, s) => SetStatusPreservesValid(st, q.env, id, s);
    case ReadReport(_) =>
    case ReadCount =>
  }

  /** Every sequence of requests keeps the invariant. */
  lemma {:induction false} RunPreservesValid(st: State, qs: seq<Request>)
    requires Valid(st)
    ensures Valid(Run(st, qs))
    decreases |qs|
  {
    if |qs| > 0 {
      ApplyPreservesValid(st, qs[0]);
      RunPreservesValid(Apply(st, qs[0]), qs[1..]);
    }
  }

  /** Only an accepted submission moves the id counter, and by exactly one. */
  lemma ApplyCounter(st: State, q: Request)
    ensures Apply(st, q).nextReportId == st.nextReportId + (if Accepted(st, q) then 1 else 0)
    ensures Accepted(st, q) ==> SubmitReport(st, q.env, q.call.submission).reply.value == st.nextReportId
    ensures st.transfers <= Apply(st, q).transfers
    ensures |Apply(st, q).transfers| == |st.transfers| + (if Accepted(st, q) then 1 else 0)
  {
    match q.call
    case Submit(a) =>
    case ChangeMaxReports(n) =>
    case ChangeFee(f) =>
    case Ban(p) =>
    case Update(id, sh, lh) =>
    case ChangeStatus(id, s) =>
    case BindAuthority(p) =>
    case ReadReport(_) =>
    case ReadCount =>
  }

  /**
   The accepted submissions of any sequence are numbered consecutively from
   the counter's starting value, in the order they were made, and the
   counter ends one past the last id given out.
   */
  lemma {:induction false} FiledIdsAreConsecutive(st: State, qs: seq<Request>)
    ensures Run(st, qs).nextReportId == st.nextReportId + |Filed(st, qs)|
    ensures Filed(st, qs) == Range(st.nextReportId, Run(st, qs).nextReportId)
    decreases |qs|
  {
    if |qs| > 0 {
      ApplyCounter(st, qs[0]);
      FiledIdsAreConsecutive(Apply(st, qs[0]), qs[1..]);
    }
  }

  /**
   From deployment, the report count is the number of accepted submissions,
   and the stored ids are exactly 0 up to that count.
   */
  lemma CountIsAcceptedSubmissions(qs: seq<Request>)
    ensures GetReportCount(Run(Initial, qs)) == Ok(|Filed(Initial, qs)|)
    ensures forall i :: i in Run(Initial, qs).reports <==> 0 <= i < |Filed(Initial, qs)|
  {
    InitialValid();
    RunPreservesValid(Initial, qs);
    FiledIdsAreConsecutive(Initial, qs);
  }

  /** Once an authority is bound, no sequence of requests changes it. */
  lemma {:induction false} AuthorityIsPermanent(st: State, qs: seq<Request>)
    requires st.authority.Some?
    ensures Run(st, qs).authority == st.authority
    decreases |qs|
  {
    if |qs| > 0 {
      AuthorityIsPermanent(Apply(st, qs[0]), qs[1..]);
    }
  }

  /** A banned principal stays banned and has no submission accepted. */
  lemma {:induction false} BannedNeverSubmits(st: State, qs: seq<Request>, p: string)
    requires p in st.banned
    ensures p in Run(st, qs).banned
    ensures p !in Submitters(st, qs)
    decreases |qs|
  {
    if |qs| > 0 {
      BannedNeverSubmits(Apply(st, qs[0]), qs[1..], p);
    }
  }

  /**
   The fee log only grows, by exactly one entry per accepted submission.
   */
  lemma {:induction false} TransfersAppendOnly(st: State, qs: seq<Request>)
    ensures st.transfers <= Run(st, qs).transfers
    ensures |Run(st, qs).transfers| == |st.transfers| + |Filed(st, qs)|
    decreases |qs|
  {
    if |qs| > 0 {
      ApplyCounter(st, qs[0]);
      TransfersAppendOnly(Apply(st, qs[0]), qs[1..]);
    }
  }

  /** One request keeps every stored report, and its reporter. */
  lemma ApplyKeepsReports(st: State, q: Request, id: int)
    requires Valid(st) && id in st.reports
    ensures id in Apply(st, q).reports
    ensures Apply(st, q).reports[id].reporter == st.reports[id].reporter
  {
    match q.call
    case Submit(a) =>
      assert id < st.nextReportId;
    case _ =>
  }

  /** Reports are never removed, and never change reporter. */
  lemma {:induction false} ReportsPersist(st: State, qs: seq<Request>, id: int)
    requires Valid(st) && id in st.reports
    ensures id in Run(st, qs).reports
    ensures Run(st, qs).reports[id].reporter == st.reports[id].reporter
    decreases |qs|
  {
    if |qs| > 0 {
      ApplyKeepsReports(st, qs[0], id);
      ApplyPreservesValid(st, qs[0]);
      ReportsPersist(Apply(st, qs[0]), qs[1..], id);
    }
  }
}
