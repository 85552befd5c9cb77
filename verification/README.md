# Health-report registry — a Dafny model

This project models the in-memory report registry of the community
health-reporting app: the `ReportSubmissionMock` class, which stands in for
the on-chain report-submission contract. Principals submit health reports
(a symptom hash, a location hash, severity, category and demographic fields).
A single authority principal is bound once. After that, the authority can
ban reporters and set a report's status. Anyone can adjust the submission
fee and the report cap. A reporter can amend the hashes of their own report
while it is still pending. Every successful submission logs one fee transfer
from the reporter to the authority.

Each entry point is a pure function of the registry `State` and the call's
arguments. The ones that look at the caller also take the calling `Env`
(caller and block height): `BanReporter`, `SubmitReport`, `UpdateReport`
and `SetReportStatus`. Those four, and `SetMaxReports` and
`SetSubmissionFee`, return a `Step`: the reply (`Ok(value)` or
`Err(error)`) and the state afterwards. A failing call returns the state it
was given unchanged. `SetAuthorityContract` returns a `(bool, State)` pair.
The reads `GetReport` and `GetReportCount` return an `Option` and a
`Result` and leave the state alone.

Files and modules:

- `errors.dfy` (`Errors`): the twenty error codes, `Option` and `Result`.
- `types.dfy` (`ReportTypes`): reports, audit records, transfers, the state,
  the deployment state `Initial`, and the fixed string lists (status, age
  group, gender, report type) as datatypes with `Parse…`/`…Name`.
- `checks.dfy` (`Checks`): `FirstFailing`, the reference meaning of "the
  first failing check decides".
- `registry.dfy` (`Registry`): the entry points, and the submission checks
  as an ordered list (`SubmitOrder`).
- `invariants.dfy` (`Invariants`): the state invariant `Valid` and its
  preservation by every entry point.
- `runs.dfy` (`Runs`): arbitrary sequences of calls, and what holds over
  them.
- `properties.dfy` (`Properties`): properties that relate two calls.
- `scenarios.dfy` (`Scenarios`): the concrete call sequences of the test
  suite, with their expected replies.

Rules of the code worth stating plainly:

- Status changes are not ordered: the authority can set any of the three
  statuses from any status, including back to pending
  (`Properties.StatusCanReturnToPending`).
- The cap and fee setters check the value before the authority (112 before
  114), and a fee of zero is accepted.
- They need a usable authority and have no caller check.

How the code treats the authority is modelled exactly as written.
`setAuthorityContract` only asks whether an authority is set. The fee, cap
and submission checks treat an empty principal as unbound
(`Registry.AuthorityVerified`). The ban and status checks compare the caller
with the bound principal.

## Model

| member | source | states |
|---|---|---|
| Errors.Code | tests/ReportSubmission.test.ts:4-23 | every error has a code in 100..120, and 119 is unused |
| Errors.CodeInjective | tests/ReportSubmission.test.ts:4-23 | two errors share a code exactly when they are the same error |
| ReportTypes.ParseStatus | tests/ReportSubmission.test.ts:209 | a string is accepted as a status exactly when it names one of pending, validated, rejected, and it parses to the status it names |
| ReportTypes.ParseAgeGroup | tests/ReportSubmission.test.ts:146 | accepted exactly for the four age-group names, and parses to the group named |
| ReportTypes.ParseGender | tests/ReportSubmission.test.ts:147 | accepted exactly for the three gender names, and parses to the gender named |
| ReportTypes.ParseReportType | tests/ReportSubmission.test.ts:149 | accepted exactly for the three report-type names, and parses to the type named |
| ReportTypes.ParseNameRoundTrip | tests/ReportSubmission.test.ts:146-149 | parsing the name of any listed value gives that value back |
| Checks.FirstFailing | tests/ReportSubmission.test.ts:138-150 | picks the position of a failed check with every earlier check passed, and picks none exactly when all checks pass |
| Registry.SetAuthorityContract | tests/ReportSubmission.test.ts:98-104 | binding succeeds exactly when no authority is bound, and then changes only the authority; otherwise nothing changes; any caller may bind |
| Registry.SetMaxReports | tests/ReportSubmission.test.ts:106-111 | a cap of 0 or less gives 112, checked before the authority; a missing or empty authority then gives 114; success changes only the cap |
| Registry.SetSubmissionFee | tests/ReportSubmission.test.ts:113-118 | a negative fee gives 112 and zero is legal; a missing or empty authority then gives 114; success changes only the fee |
| Registry.BanReporter | tests/ReportSubmission.test.ts:120-124 | succeeds with true exactly when the caller is the bound authority, else 100; it adds the principal to the ban list and changes nothing else |
| Registry.NewReport | tests/ReportSubmission.test.ts:154-170 | the stored report has the caller as reporter, the block height as timestamp, status pending, is not verified, and carries the submitted fields |
| Registry.SubmitError | tests/ReportSubmission.test.ts:138-150 | when no check fails, the age group, gender and report type parse and the authority is usable |
| Registry.SubmitReport | tests/ReportSubmission.test.ts:126-177 | a failure changes nothing; a banned caller always gets 111 or 106; success needs room under the cap, an unbanned caller and a usable authority; it returns the old counter and adds one to it; it stores exactly one new report under that id with the submitted fields, status pending and not verified; it appends the id to the caller's list only; it appends exactly one transfer of the fee from the caller to the authority; no other field changes |
| Registry.SubmitFollowsOrder | tests/ReportSubmission.test.ts:138-150 | a submission's reply is the error of the first check it fails, in the order cap 111, ban 106, symptom hash 101, location hash 102, privacy 108, severity 109, category 110, anonymity 115, age group 116, gender 117, contact 118, report type 120, authority 114; it succeeds with the next id exactly when every check passes |
| Registry.SubmitErrorFollowsOrder | tests/ReportSubmission.test.ts:138-150 | the same first-failure correspondence for the guard chain on its own |
| Registry.GetReport | tests/ReportSubmission.test.ts:179-181 | returns a report exactly when the id is stored, and then the stored report |
| Registry.UpdateReport | tests/ReportSubmission.test.ts:183-205 | the errors, in order: 107 when the id is missing, 100 when the caller is not the reporter, 113 when the report is not pending, then 101 and 102 for hash lengths other than 32; each error occurs exactly under its condition and changes nothing; success replies true, replaces the two hashes and the timestamp of that report only, and overwrites its audit record with the caller as updater |
| Registry.SetReportStatus | tests/ReportSubmission.test.ts:207-214 | the errors, in order: 100 unless the caller is the bound authority, 105 for a status outside the three names, 107 when the id is missing; success replies true, sets that report's status to the named one from any status, and changes nothing else |
| Invariants.IdsOfSound | tests/ReportSubmission.test.ts:172-174 | every id in the reference list for a reporter is a stored id below the counter that the reporter filed |
| Invariants.IdsOfAscending | tests/ReportSubmission.test.ts:172-174 | the reference list for a reporter is strictly ascending |
| Invariants.IdsOfComplete | tests/ReportSubmission.test.ts:172-174 | every stored id below the counter that a reporter filed is in that reporter's reference list |
| Invariants.IdsOfSpec | tests/ReportSubmission.test.ts:172-174 | the reference list holds exactly the reporter's ids, each once, in ascending order |
| Invariants.ReporterListIsExact | tests/ReportSubmission.test.ts:172-174 | in a valid state, the id list stored for a reporter holds exactly the ids of that reporter's reports, each once, in ascending order |
| Invariants.IdsOfFrame | tests/ReportSubmission.test.ts:172-174 | a reporter's id list depends only on which ids exist and who filed each |
| Invariants.InitialValid | tests/ReportSubmission.test.ts:64-73 | the freshly deployed registry satisfies the invariant |
| Invariants.SetAuthorityPreservesValid | tests/ReportSubmission.test.ts:98-104 | binding the authority keeps the invariant, including that every logged fee went to the bound authority |
| Invariants.SetMaxReportsPreservesValid | tests/ReportSubmission.test.ts:106-111 | changing the cap keeps the invariant, even when the new cap is below the number of reports |
| Invariants.SetSubmissionFeePreservesValid | tests/ReportSubmission.test.ts:113-118 | changing the fee keeps the invariant |
| Invariants.BanReporterPreservesValid | tests/ReportSubmission.test.ts:120-124 | banning keeps the invariant |
| Invariants.SubmitKeepsIndex | tests/ReportSubmission.test.ts:171-174 | after a submission, every reporter's list is still the ascending list of the ids they filed |
| Invariants.SubmitKeepsFees | tests/ReportSubmission.test.ts:152 | after a submission, there is still one transfer per report, paid by that report's reporter to the authority |
| Invariants.SubmitPreservesValid | tests/ReportSubmission.test.ts:126-177 | a submission keeps the invariant: ids dense, reports well formed, lists and audits consistent, fees logged |
| Invariants.UpdatePreservesValid | tests/ReportSubmission.test.ts:183-205 | an amendment keeps the invariant; its audit record matches the report's new hashes and timestamp and names the reporter |
| Invariants.SetStatusPreservesValid | tests/ReportSubmission.test.ts:207-214 | a status change keeps the invariant |
| Runs.ApplyPreservesValid | tests/ReportSubmission.test.ts:98-218 | every call of every entry point keeps the invariant |
| Runs.RunPreservesValid | tests/ReportSubmission.test.ts:98-218 | every sequence of calls keeps the invariant |
| Runs.ApplyCounter | tests/ReportSubmission.test.ts:152-175 | only an accepted submission moves the id counter or the transfer log; it moves the counter by one, is given the counter's old value, and appends exactly one transfer |
| Runs.FiledIdsAreConsecutive | tests/ReportSubmission.test.ts:154-176 | over any sequence of calls, the accepted submissions get consecutive ids in call order, and the counter ends one past the last |
| Runs.CountIsAcceptedSubmissions | tests/ReportSubmission.test.ts:216-218 | from deployment, the report count is the number of accepted submissions, and the stored ids are exactly 0 up to that count |
| Runs.AuthorityIsPermanent | tests/ReportSubmission.test.ts:98-104 | once an authority is bound, no sequence of calls changes it |
| Runs.BannedNeverSubmits | tests/ReportSubmission.test.ts:120-139 | a banned principal stays banned, and none of its submissions is accepted in any later sequence of calls |
| Runs.TransfersAppendOnly | tests/ReportSubmission.test.ts:152 | the transfer log only grows, by exactly one entry per accepted submission |
| Runs.ApplyKeepsReports | tests/ReportSubmission.test.ts:171-212 | in a valid state, no call removes a stored report or changes its reporter |
| Runs.ReportsPersist | tests/ReportSubmission.test.ts:171-212 | over any sequence of calls, stored reports stay stored and keep their reporter |
| Properties.AuthorityBindsOnce | tests/ReportSubmission.test.ts:98-104 | after any binding attempt, a second attempt fails and leaves the first binding in place |
| Properties.BanIsIdempotent | tests/ReportSubmission.test.ts:120-124 | banning the same principal twice leaves the same state and reply as banning once |
| Properties.BannedSubmissionFails | tests/ReportSubmission.test.ts:138-139 | after a successful ban, that principal's submission fails with 111 when the cap is reached and with 106 otherwise, and changes nothing |
| Properties.DecidedReportIsFrozen | tests/ReportSubmission.test.ts:186-212 | once a report is validated or rejected, its reporter's amendment gets 113, anyone else's gets 100, and nothing changes |
| Properties.StatusCanReturnToPending | tests/ReportSubmission.test.ts:207-214 | the authority can set any stored report back to pending, whatever its status |
| Properties.SubmitThenGet | tests/ReportSubmission.test.ts:154-181 | when the stored ids are 0 up to the counter, an accepted report can be read back under its id with the caller as reporter, status pending and the submitted hashes; the id was free before, and the count becomes the id plus one |
| Scenarios.SubmitScenario | tests/ReportSubmission.test.ts:229-261 | the first submission gets id 0, is stored as the whole expected report (the test checks eleven of its fields), and logs a fee of 100 from ST1TEST to ST2TEST |
| Scenarios.NoAuthorityScenario | tests/ReportSubmission.test.ts:263-280 | submitting before any authority is bound gives 114 |
| Scenarios.ShortSymptomHashScenario | tests/ReportSubmission.test.ts:282-300 | a 31-byte symptom hash gives 101 |
| Scenarios.BannedScenario | tests/ReportSubmission.test.ts:302-323 | after the authority bans ST1TEST, its submission gives 106 |
| Scenarios.UpdateScenario | tests/ReportSubmission.test.ts:325-349 | the reporter's amendment of a pending report replaces both hashes |
| Scenarios.UpdateAfterValidationScenario | tests/ReportSubmission.test.ts:351-375 | amending a validated report gives 113 |
| Scenarios.StatusScenario | tests/ReportSubmission.test.ts:377-420 | the authority validates report 0, and the reporter trying the same gets 100 |
| Scenarios.CountScenario | tests/ReportSubmission.test.ts:422-453 | two submissions give the ids 0 and 1 and a count of 2 |
| Scenarios.MaxReportsScenario | tests/ReportSubmission.test.ts:455-486 | with a cap of 1, the second submission gives 111 |
| Scenarios.FeeScenario | tests/ReportSubmission.test.ts:488-509 | the fee set to 200 is the amount of the next transfer |

## Left out

- The test harness (`describe`, `it`, `expect`, `beforeEach`), `reset` and the constructor are left out. The deployment state `Initial` plays their role.
- Reports and hashes are modelled as values. The mock stores the caller's own byte arrays as hashes and `getReport` hands back the live report object; nothing in the code depends on that aliasing.
- The `@stacks/transactions` import is unused, so it is not modelled.
- The caller and the block height are mutable fields of the mock. Here they are the `Env` parameter of each call. The block height is a `nat`.
- Real token transfers and balances are left out. The transfer log is a field of the state, holding amount, sender and recipient.
- Hash contents are modelled as byte sequences, but only their length is ever checked.
- JavaScript number quirks are left out: non-integer or NaN arguments, and numbers beyond 2^53. All numbers are unbounded integers.
- The string lists are stored as datatypes rather than strings. `…Name` gives back the exact string the caller passed.
- `contactInfo` is `Option<string>`. The length check only applies when it is present, since an empty string never exceeds 100 characters.
- In the mock, `setAuthorityContract` fails with the value `false` rather than an error code. It is modelled as a boolean paired with the new state.
- The mock's `getReport` returns `null` for a missing report. Here it returns `None`.
- Error codes 103 (invalid timestamp) and 104 (report already exists) are declared but never returned by any entry point. They are listed in `Errors.Error` only.
- String lengths are counted in characters of the model's strings. The mock counts UTF-16 code units, which differ only outside the Basic Multilingual Plane.
- GetReportCount has no contract of its own. `Runs.CountIsAcceptedSubmissions` and `Properties.SubmitThenGet` state what the count means.
- One test sets the cap by writing straight to the mock's state. `Scenarios.MaxReportsScenario` models that write as a record update.
