# Verification model of the reimbursement system

This project models four parts of the system in Dafny and proves properties of them over all inputs, all runs or all
interleavings. `dafny verify dfyconfig.toml` checks the whole project.

**The claim workflow.** The database holds claims with their item, approval and receipt rows, users, categories and the
audit log. Claims are never removed, so the claims table is a sequence: an id is a position and positions follow creation
time; the rows that belong to a claim are nested in it. Money is in whole cents in the tables and travels as decimal text
through the policy engine, as in the code.

Every request has two phases: what the handlers read and decide without a lock, and `Commit`, the one transaction that
follows, which either commits or leaves every table as it was. A submission reads with five separate statements and an
edit with two; `CheckSeen` decides on what each of them saw, and `Check` is the case in which all saw the same tables.
Two granularities follow from that:

- *Interleaved runs* (`Machine`, `Interleavings`): any number of requests are between two of their reads or before their
  transaction, in any order, with user and category maintenance in between. Lifecycle, approval, amount and audit
  properties hold here. Approvals, rejections, cancellations and payments read nothing before their locked transaction, so
  their `Check` looks at the request only.
- *Fresh runs* (`PolicyRuns`, `SpendCap`): interleavings in which each request that commits would still be planned the
  same way if its reads were repeated at that moment. Serving one whole request at a time is a special case, proved as
  such. The spending policies and the edit window hold here, since their checks run outside the row lock.

For commits with stale reads the project gives exact conditions. Only submissions and edits can break a spending policy
(`PolicyRuns.OthersAreQuiet`), and an interleaved run keeps the policies throughout if and only if each of them still meets
a stated demand when it commits (`SpendCap.InterleavedCapIff`, `PolicyRuns.InterleavedPoliciesIff`). A terminal claim is
final if and only if nothing checked earlier can still rewrite it (`Finality.TerminalFixedIff`). `Counterexamples` has
concrete runs that break a policy or the edit window.

`Service.ClaimService` is the code itself with its tables as fields, updated statement by statement; each of its methods is
proved to change the tables exactly as the two-phase specification says and to give the same answer. `Answers` and
`SpendMoves` say what that specification means without its own functions: for each request which rows make it commit,
which error it gives otherwise, the whole tables and the log entry it leaves, and how the month's money moves.

**Decimal text arithmetic** (`Decimal`, `Policy`): the split, format, compare, add and subtract functions with int64
wrap-around and saturation written out, read against an independent meaning, the exact value of a decimal text floored to
cents. The string-level submit verdict is proved equal to one on integer cents.

**The rotating refresh-token store** (`Tokens`, `Sessions`, `SessionService`, `SessionChains`, `SessionRuns`, `SessionRaces`):
session keys and family index sets with expiry, as whole operations in serialized runs with a clock, proved to be one
usable token per family with a deadline, as in-place code, and as interleaved atomic commands, where a rotation is a GETDEL and a later write and a revocation is a member listing and a later delete. Token
texts and the CSRF double-submit token are parsed and printed for any digest and any authentication code.

**The client's response interceptor** (`Interceptor`): calls, the shared refresh promise and the replay flag, with network
answers in any order.

| file | content |
|---|---|
| `Wrappers`, `Calendar`, `Decimal` | result shapes, dates and day counts, decimal text |
| `StateMachine`, `Ledger`, `Requests` | transition guard and approval chain, tables and queries, every request in two phases |
| `Policy` | the submit policy on integer cents |
| `Lifecycle`, `Replay`, `Machine` | one claim's invariant, the audit log read back, the invariant of all runs |
| `Answers`, `SpendMoves` | every request's answers and effects, told from the tables |
| `Interleavings`, `EditWindow`, `PolicyRuns`, `SpendCap`, `Finality` | the results over runs |
| `Counterexamples` | concrete runs that show what the code does not promise |
| `Service` | the code that updates the tables in place |
| `Dashboard` | the month aggregates |
| `Tokens`, `Sessions`, `SessionService`, `SessionChains`, `SessionRuns`, `SessionRaces` | token texts and the session store |
| `Interceptor` | the client |

## Assumptions

- Ids, secrets and nonces arrive as arguments; ids are fresh. Today's date, the activity of a user, the secret digest and
  the authentication code are parameters.
- A transaction is one atomic step, and so is each single read before it.
- Requests arrive authenticated, and a claim's owner is a row of the users table.
- A submitter's role, as the submitting request read it, is kept as history beside the tables: the tables do not store it.
- Thresholds are arbitrary texts where nothing else is said; results that speak of cents ask them to be non-negative
  decimals within int64 (`ConfigReadable`).

## Where code and documentation differ

The model follows the code.

- `docs/02-business-requirements.md:63` (FR-3) promises every violated rule at once. A suspected duplicate is answered
  alone and hides the violations collected before it: `Policy.AllViolationsNamedIff` gives the exact condition and
  `Counterexamples.DuplicateHidesLimit` a reached state.
- `docs/02-business-requirements.md:20` says that an administrator does not approve; the approval matrix at line 45 and the
  code give the highest tier an administrator's step (`Policy.AdminApprovesIff`).
- `docs/02-business-requirements.md:52` and the matrix promise the limit and the tier without qualification. They hold in
  fresh runs; `Counterexamples` has the interleavings that break them and `SpendCap` and `PolicyRuns` the exact conditions.
- `docs/02-business-requirements.md:55` (rule 5) restricts edits and deletions by status. The status is checked before the
  writing transaction only: `EditWindow.WindowKeptIff` gives the exact condition on what committed in between,
  `Counterexamples.OvertakenDeleteLeavesWindow` and `Counterexamples.PaidClaimRewritten` the runs.
- The audit log does not record the submitter's role, on which the number of approvals depends, so it does not always tell
  SUBMITTED from APPROVED: `Replay.LogDecidesStatusIff` says exactly when it does, `Counterexamples.OneLogTwoStatuses` has
  two runs with one log.
- `docs/02-business-requirements.md:57` sends a submitter's own step to somebody else. The code drops the step, so a
  manager's claim in the lowest tier has no approver and cannot be submitted: `Policy.NoApproverIff` says exactly when a
  submission is refused for that, `Counterexamples.ManagerHasNoApprover` has a reached state.
- `docs/06-system-architecture.md:66` lets the losers of concurrent refreshes replay their requests. In the code the
  loser is refused and revokes the family. One after the other, that ends the winner's new token too
  (`Sessions.AcceptedOnlyOnce`). Interleaved, the new token survives exactly if the index did not list it
  yet when the loser's revocation read it (`SessionRaces.SurvivesRevocationIff`); `SessionRaces.RacingRefreshes` has a run for each
  order.
- `backend/internal/modules/auth/repository.go:146-147` says that a revocation kills every live token of a chain.
  `SessionRuns.RevocationFinalIff` says exactly when it does. A rotation past its GETDEL survives it (`SessionRuns.OvertakenRevocation`), and so does a token written after the
  listing. The latter is then in no index, so that a later logout does not end it either:
  `SessionRaces.UnlistedTokenOutlivesLogout`, with `SessionRaces.IndexCoversIff` saying exactly when that cannot happen.

## Model

| member | source | states |
|---|---|---|
| Decimal.SplitIsFloor | backend/internal/modules/reimbursements/statemachine.go:91-105 | for every decimal text, the pair read equals the exact value floored to cents if and only if the whole part fits in int64 (otherwise ParseInt saturates) |
| Decimal.SplitDecimal | backend/internal/modules/reimbursements/statemachine.go:91-105 | the truncate-and-pad loop computes the pair `Split`, for every string, including the zero that an ignored parse error leaves |
| Decimal.CompareIsOrder | backend/internal/modules/reimbursements/statemachine.go:73-89 | comparison of two readable texts is the order of their exact values floored to cents |
| Decimal.AddIsExactIff | backend/internal/modules/reimbursements/statemachine.go:129-135 | the sum text is the canonical text of the exact sum if and only if the sum's whole part fits in int64; otherwise the wrapped result is a negative text |
| Decimal.SubtractIsExact | backend/internal/modules/reimbursements/statemachine.go:138-147 | exact and canonical when a >= b; whenever a < b the borrow and sign path yields a text starting with a minus sign |
| Decimal.SubtractNumeric | backend/internal/modules/reimbursements/statemachine.go:138-147 | the borrow-and-format code computes `SubtractText`, int64 wrap-around included |
| Decimal.FormatDecimal | backend/internal/modules/reimbursements/statemachine.go:107-119 | the sign-and-negate code computes `Format` on all int64 pairs |
| Decimal.Pad2 | backend/internal/modules/reimbursements/statemachine.go:121-127 | the padding loop yields the number's text with leading zeros up to width two, and any longer text unchanged |
| Decimal.SplitUndoesFormat | backend/internal/modules/reimbursements/statemachine.go:91-119 | round trip: splitting a formatted non-negative int64 amount gives the amount back |
| Decimal.SplitSigned | backend/internal/modules/reimbursements/statemachine.go:91-105 | a plus sign before a text changes nothing, a minus sign negates the whole part only |
| Decimal.FormatNegative | backend/internal/modules/reimbursements/statemachine.go:107-119 | a negative amount is shown with one minus sign before the text of its magnitude |
| Decimal.DivisionTruncates | backend/internal/modules/reimbursements/statemachine.go:129-135 | the carry's quotient and remainder truncate toward zero, on both signs |
| Decimal.MoneyTextValue | backend/internal/database/migrations/000004_reimbursements.up.sql:11 | the column's text of any amount reads back as exactly that amount |
| Decimal.MoneyTextInjective | backend/internal/modules/reimbursements/workflow.go:128 | different amounts have different texts, so the duplicate query's equality on the amount text is equality of amounts |
| Decimal.RemainingIsClamped | backend/internal/modules/reimbursements/workflow.go:115-119 | the reported remaining figure is the canonical text of max(0, limit - spent) for all readable texts |
| StateMachine.ExcludeSubmitter | backend/internal/modules/reimbursements/statemachine.go:52-60 | the filter loop computes `Without`, whose order, prefix and membership laws are proved below |
| StateMachine.NextPendingIndex | backend/internal/modules/reimbursements/statemachine.go:62-69 | the scan returns the least index of a pending step, or -1 exactly when there is none |
| StateMachine.FirstPending | backend/internal/modules/reimbursements/statemachine.go:62-69 | the result is pending and nothing before it is; -1 exactly when nothing is pending |
| StateMachine.ChainIsTier | backend/internal/modules/reimbursements/statemachine.go:39-48 | the chain chosen on texts is the documented amount matrix on exact cents |
| StateMachine.FilteredChainMonotone | backend/internal/modules/reimbursements/statemachine.go:39-60 | for amounts a <= b and any thresholds, the submitter-free chain of a is a prefix of that of b |
| StateMachine.FilteredChainClimbs | backend/internal/modules/reimbursements/statemachine.go:39-60 | for any texts the chain is strictly climbing manager < finance < admin, hence duplicate-free, omits the submitter, and is empty exactly for a manager's claim in the lowest tier |
| StateMachine.WithoutClimbs | backend/internal/modules/reimbursements/statemachine.go:52-60 | dropping the submitter's role keeps any climbing chain climbing |
| Calendar.NextDayNumber | backend/internal/modules/reimbursements/repository.go:342-357 | the day count behind the seven-day window goes up by exactly one from each valid date to the next, across months, leap and century years |
| Calendar.DaysBeforeYearClosed | backend/internal/modules/reimbursements/repository.go:342-357 | the days before a year in closed form, which is the Gregorian leap-year rule for every year from 1 |
| Ledger.ItemsTotalIsPriced | backend/internal/database/migrations/000004_reimbursements.up.sql:27-29 | the sum of generated line totals is quantity times unit price, added item by item |
| Ledger.SpentIsMoneyOut | backend/internal/modules/reimbursements/repository.go:321-338 | the spend query, nothing excluded, adds the amounts of exactly the SUBMITTED, APPROVED and PAID claims, not deleted, of that employee, category, year and month |
| Ledger.FindDuplicate | backend/internal/modules/reimbursements/repository.go:342-357 | none exactly when no row matches; otherwise the date of the earliest created matching row |
| Ledger.TotalUpdate | backend/internal/modules/reimbursements/repository.go:321-338 | changing one row changes any table sum by exactly the difference of that row's weights |
| Ledger.SpentWithout | backend/internal/modules/reimbursements/repository.go:321-338 | excluding a claim's own id takes exactly its own contribution out of the monthly spend |
| Policy.SubmitRefinesCents | backend/internal/modules/reimbursements/workflow.go:78-143 | for all tables whose figures fit int64, the string-level verdict equals the integer-cents verdict: same refusals in the same order, same violations and figures, same chain |
| Policy.ReceiptRefines | backend/internal/modules/reimbursements/workflow.go:92-103 | the textual receipt rule fires exactly when cents exceed the threshold and no receipt exists |
| Policy.LimitTextRefines | backend/internal/modules/reimbursements/workflow.go:114-119 | on any three texts of known value the limit test is spent + amount > limit and the figure is what is left, never below zero |
| Policy.LimitRefines | backend/internal/modules/reimbursements/workflow.go:105-125 | the limit rule over the tables, with its missing-limit and empty-sum cases, is the integer rule |
| Policy.ChainRefines | backend/internal/modules/reimbursements/workflow.go:140 | the planned chain is the integer matrix without the submitter |
| Policy.AllViolationsNamedIff | backend/internal/modules/reimbursements/workflow.go:76-138 | one answer names every broken rule if and only if the claim is not both a suspected duplicate and in breach of another rule; the documented promise fails exactly there |
| Policy.AdminApprovesIff | backend/internal/modules/reimbursements/statemachine.go:39-60 | an administrator is among the due approvers if and only if the amount is above both thresholds and the submitter is not an administrator |
| Policy.NoApproverIff | backend/internal/modules/reimbursements/workflow.go:136-143 | a submission that reaches the policy engine is refused for want of an approver if and only if it breaks no rule, its owner is a manager and its amount is in the lowest tier |
| Lifecycle.PendingIsCurrent | backend/internal/modules/reimbursements/workflow.go:216-220 | in a submitted claim the scan for a pending step always lands on `current_step` |
| Lifecycle.CancelWindow | backend/internal/modules/reimbursements/workflow.go:291-296 | the count of acted steps is zero exactly while `current_step` is 1 |
| Lifecycle.LineFits | backend/internal/modules/reimbursements/dto.go:7-9 | an item within the binding bounds never overflows the generated numeric(16,2) line total |
| Lifecycle.EditedSound | backend/internal/modules/reimbursements/repository.go:216-233 | replacing all items keeps a claim sound: the amount is again the sum of quantity times unit price, at least one cent, in range |
| Lifecycle.ResubmittedSound | backend/internal/modules/reimbursements/workflow.go:145-171 | regenerating the approval rows gives a sound submitted claim whose rows are the chain |
| Lifecycle.ApprovedAtSound | backend/internal/modules/reimbursements/workflow.go:230-243 | approving the due step keeps the claim sound and its role snapshot unchanged, on the last step and before it |
| Lifecycle.RejectedAtSound | backend/internal/modules/reimbursements/workflow.go:244-251 | rejecting the due step keeps the claim sound and its role snapshot unchanged |
| Replay.ApproveAgrees | backend/internal/modules/reimbursements/workflow.go:252-260 | the APPROVE entry advances the replayed history exactly as the row changes: next step number, role, actor |
| Replay.RejectAgrees | backend/internal/modules/reimbursements/workflow.go:252-260 | the REJECT entry advances the replayed history exactly as the row changes, note included |
| Replay.LogDecidesStatusIff | backend/internal/modules/audit/audit.go:36-44 | the log and the matrix give back a claim's status without the submitter's role if and only if it is not the case that every role of the chain but the last has approved and nothing followed |
| Replay.FinalEntryIsLast | backend/internal/modules/audit/audit.go:36-44 | in any log that replays, nothing about a claim follows its payment or cancellation |
| Machine.CommitKeeps | backend/internal/modules/reimbursements/workflow.go:145-345 | every transaction of every request, run on any sound tables with a plan made at any earlier time, leaves sound tables |
| Machine.StepKeepsInv | backend/internal/modules/reimbursements/workflow.go:78-345 | every event of any interleaving, each separate read of a submission or edit included, keeps the invariant; claims and owners are never lost and the log only grows |
| Machine.RunKeepsInv | backend/internal/modules/reimbursements/workflow.go:78-345 | every state of every interleaved run, with events between any two reads and before any transaction, is sound |
| Interleavings.StepsAlwaysFit | backend/internal/modules/reimbursements/workflow.go:145-345 | under every interleaving the approval rows and `current_step` fit the status: none in DRAFT, approved then pending in SUBMITTED, approved-rejected-pending in REJECTED, all approved in APPROVED and PAID, all pending in CANCELLED |
| Interleavings.AmountsAlwaysExact | backend/internal/modules/reimbursements/repository.go:201-260 | under every interleaving each stored amount is the exact sum of quantity times unit price, at least 0.01 and below 10^12, with every quantity and price in its column's range |
| Interleavings.LogReconstructs | backend/internal/modules/audit/audit.go:36-44 | under every interleaving the audit log gives back the number of decided steps and every decision's role, actor, verdict and note, with consecutive step numbers; with the matrix and the submitter's role it gives back the status |
| Interleavings.PaymentAndCancellationAreFinal | backend/internal/modules/reimbursements/workflow.go:301-338 | PAY_CLAIM and CANCEL_CLAIM occur at most once per claim and nothing about it is logged afterwards |
| Interleavings.SnapshotMatchesLoggedAmount | backend/internal/modules/reimbursements/workflow.go:140-169 | the approval rows are always the chain of the amount the last SUBMIT entry logged, without that submitter's role |
| Interleavings.DecisionExact | backend/internal/modules/reimbursements/workflow.go:192-229 | a decision commits exactly when the claim is submitted and live and the actor, not its owner, holds the role of the step due |
| Interleavings.CancellationExact | backend/internal/modules/reimbursements/workflow.go:275-303 | a cancellation commits exactly for the owner of a submitted claim whose first step is still due |
| Interleavings.PaymentExact | backend/internal/modules/reimbursements/workflow.go:315-336 | a payment is served exactly for finance and a claim, neither deleted nor paid, of which every step was approved by somebody other than the owner |
| Interleavings.EveryChangeIsLegal | docs/02-business-requirements.md:22-35 | under every interleaving an event leaves a claim untouched or makes one of the changes open to that actor, with the whole new claim spelled out; status guards included for every locked transaction, but not for edits, deletions and receipts, which re-read no status |
| Interleavings.ChangeIsDocumentedIff | docs/02-business-requirements.md:55 | a change that commits respects the documented lifecycle, edit and deletion windows included, if and only if the request's guard, repeated at commit time, would not answer that the claim is gone or in the wrong status |
| EditWindow.WindowKeptIff | docs/02-business-requirements.md:55 | under every interleaving an edit read in its window is still in it when it commits if and only if no submission without a later rejection, and no deletion, of the claim committed in between; a deletion, if and only if no submission at all and no deletion did |
| EditWindow.ReadInWindow | backend/internal/modules/reimbursements/service.go:88-97 | an edit or deletion whose guard passed was in its window at its first read, however far apart its reads were |
| Interleavings.BeginIsItsReads | backend/internal/modules/reimbursements/workflow.go:78-143 | the separate reads of a request with nothing in between are one look at the tables |
| Interleavings.TerminalIsForever | docs/02-business-requirements.md:24-33 | under every interleaving a paid, cancelled or deleted claim keeps its status, current step and approval rows forever |
| Interleavings.ApproversHoldTheRole | backend/internal/modules/reimbursements/workflow.go:216-229 | while roles stay fixed, every acted step, of one-step claims too, was acted on by a holder of its role who is not the owner, and pending steps have no approver |
| Interleavings.ApproversAreDistinct | backend/internal/modules/reimbursements/workflow.go:216-229 | while roles stay fixed, no one acts on two steps of one claim |
| Interleavings.SubmittedCanBePaid | docs/02-business-requirements.md:22-35 | no claim is stuck: from every sound state a submitted claim can be approved step by step and paid, given a holder of each role other than the owner |
| Interleavings.WholeIsServe | backend/internal/modules/reimbursements/workflow.go:77-176 | a request whose transaction follows its reads immediately is the serialized request |
| Answers.SubmissionCommits | backend/internal/modules/reimbursements/workflow.go:145-171 | whatever the age of its plan, the submission transaction commits exactly on a present claim in DRAFT or REJECTED, leaving it SUBMITTED at step 1 with a blank row per role and one entry by the owner; else NotFound or Conflict |
| Answers.SubmitChecksExactly | backend/internal/modules/reimbursements/workflow.go:77-143 | which submission is answered with which refusal: visibility, ownership, status, duplicate, receipt, limit and missing approver, each told from the rows' statuses, dates and amounts |
| Answers.SubmissionExact | backend/internal/modules/reimbursements/workflow.go:77-176 | a served submission commits exactly when the owner's claim is in DRAFT or REJECTED, breaks no rule and has an approver; it leaves the claim SUBMITTED with the chain its amount demands |
| Answers.SeparateReadsPassIff | backend/internal/modules/reimbursements/workflow.go:78-143 | with five reads at five moments, each rule is checked on the tables its own read saw |
| Answers.DecisionRefusals | backend/internal/modules/reimbursements/workflow.go:192-229 | a decision's refusals, told apart: NotFound, Conflict, Forbidden |
| Answers.ApprovalExact | backend/internal/modules/reimbursements/workflow.go:230-260 | an approval's every answer, and the whole tables it leaves: the due step, the next step or APPROVED, and one entry with actor, step and role |
| Answers.RejectionExact | backend/internal/modules/reimbursements/workflow.go:185-260 | a rejection's every answer, and the whole tables it leaves: the due step with its note, REJECTED, and one entry with actor, step, role and note |
| Answers.CancellationAnswers | backend/internal/modules/reimbursements/workflow.go:275-303 | a cancellation's every answer, and the whole tables it leaves: CANCELLED and one entry with owner and amount |
| Answers.PaymentAnswers | backend/internal/modules/reimbursements/workflow.go:315-336 | a payment's every answer, and the whole tables it leaves: PAID and one entry with payer and amount |
| Answers.CreationExact | backend/internal/modules/reimbursements/service.go:64-83 | when a creation is accepted, in numbers: date, items, quantities, prices, sum, 30 days ahead, active category; and the draft it leaves at the sum of quantity times unit price |
| Answers.EditChecksExactly | backend/internal/modules/reimbursements/service.go:88-109 | which edit is answered with which refusal, its claim read at one moment and its category at another |
| Answers.EditCommits | backend/internal/modules/reimbursements/repository.go:216-233 | when the edit transaction commits, and the whole content it leaves, priced by quantity times unit price |
| Answers.DeletionExact | backend/internal/modules/reimbursements/service.go:118-133 | a deletion's every answer: exactly the owner's draft is marked deleted |
| Answers.AttachmentExact | backend/internal/modules/reimbursements/attachments.go:29-72 | an upload's every answer: exactly the owner's claim in DRAFT, REJECTED or SUBMITTED gets one receipt |
| Answers.GuardIsExact | backend/internal/modules/reimbursements/statemachine.go:22-35 | the lifecycle guard is open exactly where some actor's transaction commits; for a cancellation, where in addition nobody has acted |
| Answers.CategoryDeletedIff | backend/internal/modules/categories/repository.go:74-93 | a category is gone after its deletion unless a claim refers to it, and nothing else changes |
| Answers.MaintenanceExact | backend/internal/modules/categories/repository.go:59-71 | maintenance writes exactly the row it names, and a category's row only with a limit its column takes |
| SpendMoves.SpendMovesExactly | backend/internal/modules/reimbursements/repository.go:321-338 | under every interleaving approvals, payments and receipts leave the money of every employee, category and month as it was; a submission raises its own bucket by its amount, a rejection or cancellation lowers it by that; deletions and edits move only what already counted |
| SpendMoves.CreationTakesNothing | backend/internal/modules/reimbursements/repository.go:201-214 | creating a claim takes no money from any bucket |
| PolicyRuns.SerializedIsFresh | backend/internal/modules/reimbursements/workflow.go:78-145 | serving whole requests one at a time is a fresh run: every commit would still be planned the same way |
| PolicyRuns.FreshIsQuiet | backend/internal/modules/reimbursements/service.go:95-97 | in a fresh run every event but a committed submission leaves each live claim's owner, category, date, items, amount and roles as they were, and makes no claim live |
| PolicyRuns.OthersAreQuiet | backend/internal/modules/reimbursements/workflow.go:180-345 | however stale its reads, no event but a committed submission or edit makes a claim live or touches a live claim's content |
| PolicyRuns.FreshRunKeepsPolicies | backend/internal/modules/reimbursements/workflow.go:89-168 | duplicate, tier and receipt policies hold in every state of every fresh run |
| PolicyRuns.NoLiveDuplicates | backend/internal/modules/reimbursements/repository.go:342-357 | in any fresh run no two distinct SUBMITTED, APPROVED or PAID claims of one employee, not deleted, have equal amounts and dates at most seven days apart |
| PolicyRuns.ApprovalsMatchAmount | backend/internal/modules/reimbursements/workflow.go:140-168 | in any fresh run a SUBMITTED, APPROVED or PAID claim's approval rows are exactly the approvers its current amount demands of its submitter; a paid claim has each of them approved by someone else than the owner |
| PolicyRuns.LargeClaimsHaveReceipts | backend/internal/modules/reimbursements/workflow.go:91-103 | in any fresh run each SUBMITTED, APPROVED or PAID claim above the receipt threshold has a receipt |
| PolicyRuns.EveryFreshChangeIsDocumented | docs/02-business-requirements.md:55 | in any fresh run every change is a documented one: edits in DRAFT or REJECTED only, deletions in DRAFT only, receipts in DRAFT, REJECTED or SUBMITTED only |
| PolicyRuns.TerminalClaimsNeverChange | backend/internal/modules/reimbursements/service.go:92-128 | in any fresh run a paid, cancelled or deleted claim is never changed in any field |
| PolicyRuns.NoTwinsSurvivesIff | backend/internal/modules/reimbursements/repository.go:342-357 | when a claim becomes live or a live claim changes, the duplicate policy survives if and only if its new content has no live twin |
| PolicyRuns.StaleSubmitKeepsPoliciesIff | backend/internal/modules/reimbursements/workflow.go:145-171 | however stale its reads, a committing submission keeps the duplicate, tier and receipt policies if and only if at commit time there is no live twin, the planned chain is still due and no receipt is missing |
| PolicyRuns.StaleEditKeepsPoliciesIff | backend/internal/modules/reimbursements/service.go:88-111 | however stale its check, a committing edit keeps the duplicate, tier and receipt policies if and only if the claim is not live, or its new amount and date have no live twin, ask for the approvers it already has, and miss no receipt |
| PolicyRuns.InterleavedPoliciesIff | backend/internal/modules/reimbursements/workflow.go:78-171 | in any interleaving the three policies hold in every state if and only if each submission and edit, when it commits, still meets what they demand |
| SpendCap.MonthlyLimitNeverExceeded | backend/internal/modules/reimbursements/workflow.go:105-125 | in every fresh run with a category active under one limit, the amounts of no employee's SUBMITTED, APPROVED and PAID claims of a year and month exceed it, through edits, rejections, resubmissions, cancellations and payments |
| SpendCap.SerializedLimitNeverExceeded | docs/02-business-requirements.md:52 | the same for requests served one at a time from the empty database |
| SpendCap.FreshRunKeepsCap | backend/internal/modules/reimbursements/repository.go:308-338 | the cap over all employees and months is kept by every fresh run from any sound state |
| SpendCap.CapSurvivesIff | backend/internal/modules/reimbursements/repository.go:321-338 | when a claim becomes live its category's cap, over all employees and months, survives if and only if its own bucket had room |
| SpendCap.StaleSubmitKeepsCapIff | backend/internal/modules/reimbursements/workflow.go:105-171 | however stale its reads, a committing submission keeps the cap if and only if there is room at commit time |
| SpendCap.CapAfterChangeIff | backend/internal/modules/reimbursements/repository.go:321-338 | when a live claim changes, a category's cap survives if and only if the claim goes to another category or its new bucket has room for its new amount |
| SpendCap.StaleEditKeepsCapIff | backend/internal/modules/reimbursements/repository.go:216-233 | however stale its check, a committing edit keeps a category's cap if and only if the claim is not live, or goes to another category, or its new amount fits into what the owner's other live claims leave |
| SpendCap.InterleavedCapIff | backend/internal/modules/reimbursements/workflow.go:78-171 | in any interleaving a category's spend stays within an amount in every state if and only if each submission and edit, when it commits, has room for what it adds |
| SpendCap.LimitStaysFixed | backend/internal/modules/categories/repository.go:66-71 | a limit stays in force through every run that writes no other row for the category |
| Finality.TerminalFixedIff | backend/internal/modules/reimbursements/service.go:88-129 | a paid, cancelled or deleted claim never changes again, in any continuation of any interleaving, if and only if no edit, deletion or receipt checked before it became terminal is still under way with something new to write |
| Counterexamples.RacingSubmissionsBreakCap | backend/internal/modules/reimbursements/workflow.go:105-145 | a concrete run: two racing submissions end with 35.00 spent under a limit of 25.00 that never changed |
| Counterexamples.OvertakenEditBreaksTier | backend/internal/modules/reimbursements/service.go:88-111 | a concrete run: an edit overtaken by a submission leaves a submitted claim of 600.00 with the manager as its only approver, where finance is due too |
| Counterexamples.OvertakenDeleteLeavesWindow | backend/internal/modules/reimbursements/service.go:118-129 | a concrete run: a deletion overtaken by a submission deletes a claim that awaits its manager |
| Counterexamples.PaidClaimRewritten | backend/internal/modules/reimbursements/service.go:88-111 | a concrete run: an edit overtaken by approval and payment turns a claim paid at 15.00, as the log says, into a paid claim of 600.00 that only the manager approved |
| Counterexamples.DuplicateHidesLimit | backend/internal/modules/reimbursements/workflow.go:127-138 | a concrete state: a draft of 30.00 under a limit of 25.00 with a twin breaks two rules and is answered with the duplicate alone |
| Counterexamples.OneLogTwoStatuses | backend/internal/modules/reimbursements/workflow.go:230-260 | two concrete runs with the same log: the claim awaits finance where its owner is an employee, and is approved where its owner is in finance |
| Counterexamples.ManagerHasNoApprover | backend/internal/modules/reimbursements/workflow.go:140-143 | a concrete state: a manager's draft of 15.00 breaks no rule and is refused for want of an approver |
| Service.ClaimService.constructor | backend/internal/database/migrations/000004_reimbursements.up.sql:4-31 | a service starts on empty tables |
| Service.ClaimService.WriteAudit | backend/internal/modules/audit/audit.go:36-44 | appends exactly one entry and touches no other table |
| Service.ClaimService.InsertItems | backend/internal/modules/reimbursements/repository.go:240-250 | the row loop succeeds exactly when the table accepts every row, and then has appended all of them in order to that claim alone |
| Service.ClaimService.RecalcAmount | backend/internal/modules/reimbursements/repository.go:254-260 | sets the header to the sum of quantity times unit price, or fails and changes nothing exactly when the column cannot hold it |
| Service.ClaimService.CreateClaim | backend/internal/modules/reimbursements/repository.go:201-214 | all or nothing: the new draft with its items and sum is appended, or any refused row or sum rolls every table back |
| Service.ClaimService.UpdateClaim | backend/internal/modules/reimbursements/repository.go:216-233 | all or nothing: header, wholesale items and sum of that claim are replaced, or every table is rolled back |
| Service.ClaimService.SoftDelete | backend/internal/modules/reimbursements/repository.go:235-238 | marks that claim deleted and changes nothing else |
| Service.ClaimService.Create | backend/internal/modules/reimbursements/service.go:64-83 | refines the two-phase request: checks in order, then the creating transaction |
| Service.ClaimService.Update | backend/internal/modules/reimbursements/service.go:87-115 | refines the two-phase request, each refusal with its error and no change |
| Service.ClaimService.Delete | backend/internal/modules/reimbursements/service.go:118-133 | refines the two-phase request: only the owner's drafts are marked deleted |
| Service.ClaimService.AddAttachment | backend/internal/modules/reimbursements/attachments.go:29-72 | refines the two-phase request: a receipt is appended exactly in DRAFT, REJECTED or SUBMITTED, for the owner |
| Service.ClaimService.Remaining | backend/internal/modules/reimbursements/workflow.go:115-119 | computes the figure proved to be max(0, limit - spent) |
| Service.ClaimService.CheckPolicies | backend/internal/modules/reimbursements/workflow.go:77-143 | the accumulating policy code gives exactly the specified verdict, refined to integer cents above, and writes nothing |
| Service.ClaimService.WriteSubmission | backend/internal/modules/reimbursements/workflow.go:145-171 | delete-and-reinsert loop: old rows out, one pending row per chain role in, status, current step and one audit entry; or refused with no change |
| Service.ClaimService.Submit | backend/internal/modules/reimbursements/workflow.go:77-176 | policy check then transaction refine the two-phase request |
| Service.ClaimService.Decide | backend/internal/modules/reimbursements/workflow.go:192-272 | the row-by-row decision code computes the decision transaction: exactly one step row, the status or the current step, and one audit entry |
| Service.ClaimService.Approve | backend/internal/modules/reimbursements/workflow.go:180-182 | refines the approval request |
| Service.ClaimService.Reject | backend/internal/modules/reimbursements/workflow.go:185-190 | refines the rejection request; an empty note is refused first |
| Service.ClaimService.Cancel | backend/internal/modules/reimbursements/workflow.go:275-312 | refines the cancellation request |
| Service.ClaimService.Pay | backend/internal/modules/reimbursements/workflow.go:315-345 | refines the payment request; other roles than finance are refused first |
| Service.StepStatuses | backend/internal/modules/reimbursements/workflow.go:371-377 | the projection loop yields the rows' statuses in order |
| Dashboard.BreakdownSumsToTotal | backend/internal/modules/dashboard/repository.go:40-107 | in every reachable state, for every scope and month, the breakdown over all categories sums to the monthly total, because a category in use cannot be deleted |
| Dashboard.SharesSumToTotal | backend/internal/modules/dashboard/repository.go:86-107 | grouping by category loses nothing whenever every claim's category is a key |
| Dashboard.EmployeeShareIsSpend | backend/internal/modules/dashboard/repository.go:86-107 | an employee's share of a category and month is what the policy engine's spend query counts: the SUBMITTED, APPROVED and PAID claims of that year and month |
| Dashboard.BreakdownWithinLimit | backend/internal/modules/dashboard/repository.go:86-107 | in every fresh run with a fixed limit no employee's dashboard shows more than the limit for the category |
| Dashboard.EmployeesSumToTotal | backend/internal/modules/dashboard/repository.go:20-53 | the employees' own monthly totals sum to what a manager, a finance user and an administrator see |
| Tokens.Split | backend/internal/pkg/csrftoken/csrf.go:48-59 | the index loop computes the parts between dots |
| Tokens.JoinUndoesSplit | backend/internal/pkg/csrftoken/csrf.go:48-59 | joining the parts with dots gives the input back |
| Tokens.PartsDotFree | backend/internal/pkg/csrftoken/csrf.go:48-59 | no part contains a dot |
| Tokens.SplitUndoesJoin | backend/internal/pkg/csrftoken/csrf.go:48-59 | any non-empty list of dot-free parts is recovered from its join |
| Tokens.ParseIff | backend/internal/modules/auth/service.go:127-133 | a text parses to exactly the token of three non-empty dot-free parts it is the text of; so every issued token is recovered and nothing else parses |
| Tokens.DecodeIff | backend/internal/pkg/csrftoken/csrf.go:36-41 | hexadecimal decoding succeeds on exactly the case variants of an encoding and undoes it |
| Tokens.VerifyIff | backend/internal/pkg/csrftoken/csrf.go:28-46 | for any authentication code, a cookie and header are accepted if and only if they are the same case variant of a token issued for some non-empty nonce |
| Tokens.IssuedEchoAccepted | backend/internal/pkg/csrftoken/csrf.go:18-46 | every issued token echoed in the header is accepted, for any non-empty nonce |
| Sessions.NextCoherent | backend/internal/modules/auth/repository.go:105-157 | login, refresh, revocation and expiry keep index sets and session keys in agreement; a refused refresh or a logout leaves its family without a live id |
| Sessions.PresentEffect | backend/internal/modules/auth/service.go:64-83 | presenting a token rotates the chain exactly when id and secret are live and the user active; every other answer ends with the family revoked |
| Sessions.IndexIsLive | backend/internal/modules/auth/repository.go:108-111 | in every serialized run, with the clock running, a family's index set is exactly its live ids, of which there is at most one |
| Sessions.DeadFamilyNeverAccepted | backend/internal/modules/auth/repository.go:148-157 | once a used family has no live id, no token of it is accepted again in any continuation |
| Sessions.RevocationIsFinal | backend/internal/modules/auth/service.go:70-103 | after a logout or any refused token of a family (reused, expired, wrong secret, inactive user) no token of it is ever accepted again |
| Sessions.UsedIdNeverAccepted | backend/internal/modules/auth/repository.go:121-132 | an id consumed, revoked or expired is never accepted again |
| Sessions.AcceptedOnlyOnce | backend/internal/modules/auth/service.go:64-77 | in serialized service an accepted token presented again, however much later, is refused, and the family then has no live id left |
| SessionChains.StoreFollowsChains | backend/internal/modules/auth/repository.go:105-157 | in every serialized run the store answers each presented token exactly as one usable token per family with a deadline demands: a sibling for that token in time and for an active user, nothing otherwise |
| SessionChains.RunMatches | backend/internal/modules/auth/repository.go:105-157 | from any coherent store every run keeps the keys those of the abstract chains: one session key and one index with one member and one expiry per family |
| SessionChains.LoginLifetime | backend/internal/modules/auth/repository.go:105-116 | a token presented d after its login is accepted exactly if d is less than the time to live and its user is active |
| SessionChains.RotationLifetime | backend/internal/modules/auth/repository.go:121-144 | the sibling a refresh hands out works for the time to live from that refresh, for the same user, and no longer |
| SessionChains.TextsAreTokens | backend/internal/modules/auth/service.go:64-103 | a token's text refreshes that token and logs its family out |
| SessionChains.OtherTextsDoNothing | backend/internal/modules/auth/service.go:64-68 | the text of no well-formed token refreshes nothing and changes no key |
| SessionService.SessionStore.constructor | backend/internal/modules/auth/repository.go:88-90 | a store starts without keys |
| SessionService.SessionStore.IssueToken | backend/internal/modules/auth/repository.go:105-116 | sets the key, lists the id and its expiry in place, and returns the token's text |
| SessionService.SessionStore.Revoke | backend/internal/modules/auth/repository.go:148-157 | the member loop deletes exactly the listed keys and the index |
| SessionService.SessionStore.RotateToken | backend/internal/modules/auth/repository.go:121-144 | the in-place code computes `Rotate`: unknown, mismatching and accepted ids each with their whole new key space |
| SessionService.SessionStore.Refreshed | backend/internal/modules/auth/service.go:64-95 | parsing, rotation and family revocation in place compute the refresh of any text |
| SessionService.SessionStore.LoggedOut | backend/internal/modules/auth/service.go:97-103 | any three-part text, even with empty parts, revokes its family; every other text changes nothing |
| SessionRuns.RotateIsTakeThenWrite | backend/internal/modules/auth/repository.go:121-144 | a successful rotation is its GETDEL followed by its write pipeline |
| SessionRuns.MismatchIsTakeThenRevoke | backend/internal/modules/auth/repository.go:127-131 | a rotation with a wrong secret is its GETDEL followed by a revocation |
| SessionRuns.RevokeIsListThenDrop | backend/internal/modules/auth/repository.go:148-157 | a revocation is its member listing followed by its delete pipeline |
| SessionRuns.EachIdRotatesOnce | backend/internal/modules/auth/repository.go:121-144 | under every interleaving and any presented tokens no id is consumed twice, no consumed id is live again, and live ids plus rotations under way never exceed the logins |
| SessionRuns.OneHolderPerFamily | backend/internal/modules/auth/repository.go:121-144 | under every interleaving of tokens presented within their own family, a family has at most one live id or rotation under way |
| SessionRuns.RevocationFinalIff | backend/internal/modules/auth/repository.go:148-157 | a completed revocation ends its family for good if and only if no rotation was between its GETDEL and its write and the member listing was still complete |
| SessionRuns.OvertakenRevocation | backend/internal/modules/auth/repository.go:121-157 | a concrete run: a logout between a refresh's GETDEL and its write leaves the family alive |
| SessionRaces.SurvivesDropIff | backend/internal/modules/auth/repository.go:148-157 | an id of the family is still held after a delete pipeline if and only if it was live and not listed, or a rotation under way is still to write it |
| SessionRaces.SurvivesRevocationIff | backend/internal/modules/auth/service.go:70-77 | in any interleaving an id still held when a revocation deletes survives it if and only if the index did not list it when that revocation read it; where the index covered its family, if and only if it was not yet live then, so a racing refresh's new token survives exactly if it is written after the loser's listing |
| SessionRaces.DoKeepsCoverIff | backend/internal/modules/auth/repository.go:105-157 | a family's index goes on covering its live ids, with at least their expiry, through every command but a delete pipeline whose listing has gone stale |
| SessionRaces.IndexCoversIff | backend/internal/modules/auth/repository.go:105-157 | in every interleaving of verbatim tokens from the empty store an index covers its family's live ids in every state if and only if no delete pipeline of the family runs with a stale listing |
| SessionRaces.UndisturbedLogoutLeaves | backend/internal/modules/auth/service.go:97-103 | a logout that nothing disturbs leaves exactly the live ids that the index does not list |
| SessionRaces.RacingRefreshes | backend/internal/modules/auth/service.go:64-77 | three concrete runs, one for each order of the winner's write and the loser's listing and delete pipeline: the new token survives the first two and dies in the third |
| SessionRaces.UnlistedTokenOutlivesLogout | backend/internal/modules/auth/repository.go:148-157 | a concrete run: the new token written between the loser's listing and its delete pipeline is in no index, and a later undisturbed logout leaves it alive |
| Interceptor.Api.constructor | frontend/src/lib/api.ts:25-27 | starts with n unsent requests and no shared promise |
| Interceptor.Api.Post | frontend/src/lib/api.ts:4-7 | one request goes out, every other call and the promise unchanged |
| Interceptor.Api.Settle | frontend/src/lib/api.ts:36-38 | settles one call; a refresh call also clears the shared promise |
| Interceptor.Api.OnResponse | frontend/src/lib/api.ts:29-51 | the answer handler makes exactly the protocol's receive step: share or start the refresh, reject, or settle |
| Interceptor.Api.AfterRefresh | frontend/src/lib/api.ts:40-46 | the continuation marks and replays the request, or rejects it, as the protocol's resume step |
| Interceptor.StepKeepsSound | frontend/src/lib/api.ts:25-51 | every event keeps the flags, send counts and the shared slot in agreement: the slot holds the refresh call in flight and there is no other |
| Interceptor.StepKeepsCost | frontend/src/lib/api.ts:34-43 | no event raises the sends made plus the sends still possible |
| Interceptor.StepComesCloser | frontend/src/lib/api.ts:34-51 | every event strictly lowers a measure on the calls |
| Interceptor.SingleFlight | frontend/src/lib/api.ts:23-51 | for any order of n requests and answers: at most one refresh in flight, each request sent at most twice, each refresh exactly once, at most 3n sends in all |
| Interceptor.ResumeFollowsRefresh | frontend/src/lib/api.ts:40-51 | a waiting request whose refresh succeeded is marked and sent again; one whose refresh failed is rejected and not sent again |
| Interceptor.OutcomesFollowAnswers | frontend/src/lib/api.ts:29-51 | for any order of n requests and answers: a call succeeds exactly if its last answer did; it has a second answer only after a 401 and a successful refresh; it is rejected only after a failure, a second 401, or a 401 whose refresh failed |
| Interceptor.NotStuck | frontend/src/lib/api.ts:29-51 | as long as some call is unsettled, some event is possible |
| Interceptor.EverythingSettles | frontend/src/lib/api.ts:25-51 | a run has at most 5n events, and where no event is possible every call is settled |

## Left out

- SpendCap.MonthlyLimitNeverExceeded: for fresh runs, because the checks run outside the row lock and the property is false of some stale commits; `SpendCap.StaleSubmitKeepsCapIff` and `SpendCap.StaleEditKeepsCapIff` say exactly which, and `SpendCap.InterleavedCapIff` which runs keep it.
- PolicyRuns.FreshRunKeepsPolicies: for fresh runs, for the same reason; `PolicyRuns.StaleSubmitKeepsPoliciesIff` and `PolicyRuns.StaleEditKeepsPoliciesIff` say exactly which commits keep the policies, and `PolicyRuns.InterleavedPoliciesIff` which runs.
- PolicyRuns.TerminalClaimsNeverChange: for fresh runs; a stale edit can still rewrite the content of a claim that became terminal after its check, as in `Counterexamples.PaidClaimRewritten`, so `Interleavings.TerminalIsForever` promises status and approval rows only and `Finality.TerminalFixedIff` says exactly when all of it is final.
- Interleavings.EveryChangeIsLegal: no status guard on edits, deletions and receipts, because the code re-reads no status in their transaction; `EditWindow.WindowKeptIff`, `Interleavings.ChangeIsDocumentedIff` and `PolicyRuns.EveryFreshChangeIsDocumented` say when the documented windows are kept.
- Interleavings.LogReconstructs: the status needs the submitter's role besides the log, because the log does not record it; `Replay.LogDecidesStatusIff` says exactly when it is not needed.
- Interleavings.ApproversHoldTheRole and ApproversAreDistinct: for runs in which a user's decision requests always carry the same role; the code takes the role from the access token and does not compare people.
- Sessions.IndexIsLive: for tokens presented within their own family; a known id presented under another family's name makes the code list the new id there.
- Sessions.AcceptedOnlyOnce: for serialized service, as are `Sessions.RevocationIsFinal` and `Sessions.IndexIsLive`; the interleaved forms, with their exact conditions, are in `SessionRuns` and `SessionRaces`.
- Policy.SubmitRefinesCents: for figures within int64, which the stored columns guarantee for amounts and limits; a longer sum wraps as `Decimal.AddIsExactIff` says.
- Decimal.SplitIsFloor: for non-negative decimal texts; negative texts and digit strings mixed with other characters are computed by the model but given no value.
- HTTP handlers, binding of titles, descriptions and notes, error texts, cookies and routing: plumbing around the requests. The item bounds, dates and the non-empty note are modelled.
- Title, description and timestamp columns, and rounding of unit prices to cents on insertion: no rule reads them.
- Database, object store and Redis failures other than a lost write or delete pipeline, and a failing audit insert: a transaction commits or rolls back.
- Requests run whole inside `Service.ClaimService` and `SessionService.SessionStore`; interleaving is proved on values, in `Machine` and `SessionRuns`.
- Notifications, mail, presigned downloads, file names and CSV export: best effort after the commit.
- JWT signing and password hashing: opaque functions.
- Dashboard ordering of rows by amount text, trend, pending counts, approval rate and caching: they add only easy members.
- List search, sorting and pagination, and user and category maintenance beyond what the runs need.
- Rate limiter: its budget logic is a library that is not part of this model.
- React pages and stores.
