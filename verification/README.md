# Verified model of the booking core

A Dafny model of the part of the tutoring service that decides who has which hour and who gets which
money: booking requests, the overlap guard, postpone negotiations, group classes, refunds, the overlap
cleanup script, and four self-contained algorithms (weekly rule expansion, the anonymous rate limiter, the
invite code encoder, the admission score). `dafny verify dfyconfig.toml` checks all of it.

## How it is organised

- `Basics`, `Runs` - instants in milliseconds, half-open spans, Bangkok midnight; induction along a run of
  any state machine.
- `WeeklyRules`, `RefundPolicy` - the day-walking expansion and the refund split.
- `Bookings` - the tables as one value `Db` and every step as a function of it: a table is a sequence, a
  row's identity is its position. Steps: create, accept, reject, cancel, report
  (`bookings.service.ts`); open intent, register slip, daily release (`payments.service.ts`); approve slip
  (`admin.service.ts`); initiate, propose, confirm, cancel, timer (`postpone.service.ts`); confirm and fail
  group, as the booking row sees them (`group-session.service.ts`); edit weekly rules.
- `BookingInvariants`, `SlipSteps`, `BookingRuns`, `Proposals`, `Settlements`, `Chains`, `Clones`, `Payouts`,
  `OutOfOrder`, `ConcurrentCreate`, `BusyList` - what holds of those steps, of whole runs, of the interleaved
  `create`, and of the list the slot picker shows.
- `Permissions`, `Refusals`, `Consents`, `Journeys` - the same steps told of people, clocks and days: who may do
  what and when, what a refusal means, whose consent is behind every class, every move and every payment, and that
  what is permitted goes through to the end.
- `AllRuns`, `Calendars` - runs without any condition on slips, with the automatic verifier's verdicts arriving
  at any time: what decides who gets a report window, and that the calendars stay clean.
- `BookingDesk` - the same services as they run: a class whose methods read and write the tables one
  statement at a time, each proved to be exactly one step and to keep the invariant.
- `GroupSessions`, `GroupPromises`, `GroupConsents`, `GroupJourneys`, `GroupOnCore`, `GroupTables`, `GroupDesk`,
  `InviteEmails` - the life of one group class, promises over its runs, who stands behind them and when its time is
  up, its steps as sequences of core steps, and the service over many groups with its one ledger, its sweeps and its
  invitation lists.
- `OverlapCleanup`, `RateLimit`, `InviteCode`, `Score`, `Projection` - the script and the algorithms.

The invariant `BookingInvariants.Inv` says of a database: rows link up one to one; on every user's calendar,
as student or as tutor, the own hours of live bookings (requested, accepted, paid, postpone pending) and the
proposals of open negotiations that belong to different bookings are disjoint; a class that is paid or under
negotiation is backed by money in escrow; for every intent, price = amount left + student and platform
shares of its at most one ledger row; every tutor's defect count is the number of that tutor's negotiations
that ended as unresponsive or tutor-initiated.

## What came out different from the comments and documentation

The model follows the code. Where the code does not keep a promise made around it, there is a lemma with a
concrete input or an exact condition.

- `computeSplit` can pay the student -1 baht: exactly when a short-notice split leaves the student nothing
  and both portions end in one half (`RefundPolicy.StudentPartNegativeIff`, `OneBahtSplitInHalves`). With
  the default 50/10 it cannot happen.
- `clampInviteExpiry` is said never to return a time in the past. It does exactly when the class is an hour
  away or less (`GroupSessions.InviteBornOpenIff`). Among the group starts that `create` admits this can happen
  only in the last hour of a Bangkok day, and at every instant of that hour it does for a class at midnight
  (`GroupSessions.BornOverOnlyBeforeMidnight`, `BornOverBeforeMidnight`).
- `approveSlip` does not look at the booking's status, `uploadSlip` not at the intent's. From a good state any
  accepted step leads to a good state if and only if it is orderly (`BookingRuns.StepKeepsIff`): a review of a
  one-on-one slip must find a booking without a postpone request whose time nobody else holds
  (`SlipSteps.ReviewKeepsInvIff`), a registration must find an intent that no paid or negotiated class counts
  on and that no ledger row has settled (`SlipSteps.UploadKeepsInvIff`). Below, a run is an orderly run unless
  it is called any run at all. `OutOfOrder.LateSlipRun` double-books a tutor, `OutOfOrder.SecondSlipUnbacks`
  leaves a paid class without escrow. The calendars need only half of that: nobody is double-booked as long as
  every slip that clears finds a booking that may be paid, whatever is registered and whenever a verdict arrives
  (`Calendars.NobodyDoubleBooked`).
- Registering a slip for a payment that was already released to the tutor is orderly and takes the payment back
  from the tutor; if that slip is approved, the same payment is released a second time (`Payouts.SecondPayout`).
  Nothing else touches released money (`Payouts.ReleasedUntilASlip`).
- A group host whose money is already held can register another slip. That keeps the core's invariant and the
  room's, but costs the refund of a failure that comes before the review (`SlipSteps.UploadCostsRefundIff`,
  `GroupPromises.PaidHostRefundedIff`), and without automatic verification it is the only way in which a host
  who paid before the tutor's approval sees the class confirmed (`GroupPromises.PaidEarlyConfirmsIff`); without a
  second slip the money waits until the group fails and is then given back in full
  (`GroupPromises.PaidTooEarlyNeverConfirms`). With automatic verification a verdict that arrives after both
  approvals confirms the class too; rooms do not model that.
  `GroupPromises.PaidEarlyRun` and `SecondSlipAfterVisit` are a run that can end either way.
- `extendInvite` is said to add a day, capped at the start of class. The code caps it an hour earlier, and the first end
  is a day before class; so an extension always moves the end to exactly an hour before class, even after the old end
  has passed, and a second one is refused (`GroupConsents.InvitationsEnd`, `RefusedJustSo`).
- `approveSlip` admits a failed payment, and the failure of a group makes its host's payment a failed one; so a payment
  for which no slip was ever registered can be approved and held (`Payouts.HeldWithoutASlip`). Otherwise money in
  escrow always follows a slip of its payer (`Payouts.HeldMoneyWasPaid`).
- A host's slip approved after the group failed is held and no later failure gives it back
  (`GroupPromises.LateGroupSlipStrands`).
- A report filed during a negotiation frees the original hour; if the negotiation is then agreed, the
  original becomes `postponed` and the guard counts its hour again. That can refuse another class's accepted
  proposal (`OutOfOrder.ReportBreaksAProposal`). Without reports an accepted proposal is kept unless one of the
  two parties saves weekly rules over it afterwards (`Proposals.ProposalIsKept`), and `Proposals.ConfirmsIff` is
  the exact condition in a run with reports.
- The documentation blames the tutor for every tutor-initiated request that fails. When the student
  answered in the chat and the timer fires, nobody is blamed (`Settlements.TimedOutNegotiation`).
- The clone of a postponed class has no report window, and in orderly runs never gets one: a paid class lacks
  a window if and only if it is a clone (`Clones.WindowlessIffClone`), it cannot be reported through
  `BookingsService.report`, and the daily job never completes it nor releases its money
  (`Clones.ClonesAreNeverReleased`). In any run at all a window opens exactly when a slip clears or a group is
  confirmed (`AllRuns.WindowOpensIff`); so nothing but another slip of the class ends this
  (`Clones.SealedUntilASlip`), and a second slip for the clone's held payment, once approved, does: then the
  clone can be reported and is released (`Clones.SecondSlipOpensWindow`).
- The cleanup script treats a postponed original as a conflict of its own clone and cancels the clone
  (`OverlapCleanup.MovedClassIsCancelled`). It writes a full refund row even for a payment that never arrived
  (`OverlapCleanup.RowExceedsEscrowIff`), so its refunds add up to what was in escrow if and only if no cancelled
  booking was unpaid (`OverlapCleanup.RefundsMatchEscrowIff`). Its dry run reports a refund once per pair, the live run once
  per booking (`OverlapCleanup.Script.ResolveAll`).

## Model

| member | source | states |
|---|---|---|
| `Basics.OverlapIsCommonInstant` | apps/api/src/bookings/bookings.service.ts:207-214 | the overlap test on non-empty spans holds exactly if some instant lies in both half-open intervals, so touching edges never clash |
| `WeeklyRules.DayHitsExact` | apps/api/src/bookings/bookings.service.ts:231-241 | one day's inner loop finds exactly that day's matching rules whose block meets the window |
| `WeeklyRules.WalkApart` | apps/api/src/bookings/bookings.service.ts:230-243 | no rule is found twice on one day, and no day is visited twice |
| `WeeklyRules.OccurrenceIsWalked` | apps/api/src/bookings/bookings.service.ts:228-242 | no block of a valid rule that meets the window lies on a day outside the walk |
| `WeeklyRules.BlockCovers` | apps/api/src/bookings/bookings.service.ts:231-241 | a rule's block on a day holds exactly the instants of that local day from its start minute up to its end minute |
| `WeeklyRules.BlockedMeans` | apps/api/src/bookings/bookings.service.ts:656-688 | a non-empty span is blocked exactly if some instant of it falls on a rule's weekday and in its minutes, by the local clock |
| `WeeklyRules.ExpansionExact` | apps/api/src/bookings/bookings.service.ts:221-245 | what the walk emits is exactly the set of all weekly occurrences, over all days, that meet the window, with no repetition |
| `WeeklyRules.ExpansionAnswersBlocked` | apps/api/src/bookings/bookings.service.ts:661-668 | expanding over any window around a span and testing each block decides whether any weekly block meets the span |
| `WeeklyRules.ExpandDay` | apps/api/src/bookings/bookings.service.ts:231-241 | the loop over the rules appends that day's blocks, in rule order |
| `WeeklyRules.ExpandWeeklyRules` | apps/api/src/bookings/bookings.service.ts:221-245 | the cursor loop terminates with exactly the blocks of the walk |
| `WeeklyRules.MatchesBound` | apps/api/src/bookings/bookings.service.ts:230-242 | how many days of a range fall on a weekday, in closed form |
| `WeeklyRules.AdmittedIff` | apps/api/src/common/availability-window.ts:12-30 | a window is admitted exactly if both dates parse, in order and at most 31 days apart, and is the time between them |
| `WeeklyRules.AtMostFivePerRule` | apps/api/src/common/availability-window.ts:12-30 | any window the parser admits makes the expansion emit at most five blocks for each rule |
| `RefundPolicy.SplitConserves` | apps/api/src/payments/refund-policy.service.ts:50-89 | for every outcome the three parts sum to the amount, tutor and platform lie between zero and it, the student's part is at least -1 |
| `RefundPolicy.RoundingTwoParts` | apps/api/src/payments/refund-policy.service.ts:79-81 | rounding two parts exceeds an integer bound on their sum by one exactly when the bound is met and both end in one half |
| `RefundPolicy.StudentPartNegativeIff` | apps/api/src/payments/refund-policy.service.ts:74-83 | the exact inputs on which the student's part is negative |
| `RefundPolicy.OneBahtSplitInHalves` | apps/api/src/payments/refund-policy.service.ts:37-41 | a concrete accepted configuration and amount with a negative student part |
| `RefundPolicy.DefaultCutsNeverNegative` | apps/api/src/payments/refund-policy.service.ts:74-83 | with the default percentages the student's part is never negative |
| `Bookings.ClassTotalIsRounded` | apps/api/src/bookings/bookings.service.ts:406-408 | the integer total is rate times hours times seats rounded to the nearest baht, halves up |
| `Permissions.NobodyIsInTwoPlaces` | apps/api/src/bookings/bookings.service.ts:566-689 | in a good state nobody is, at any instant, in two classes, or in a class and in a time proposed for another |
| `Permissions.GuardByTheClock` | apps/api/src/bookings/bookings.service.ts:566-689 | the guard lets a time through exactly if at no instant of it the user is in another class, wanted for another by an open proposal, or covered by a weekly rule of the own profile |
| `Permissions.RunKeepsLengths` | apps/api/src/bookings/postpone.service.ts:126-131 | along every orderly run classes and proposals keep lengths of 30, 60, 90 or 120 minutes |
| `Permissions.AcceptedIffPermitted` | apps/api/src/bookings/bookings.service.ts:355-426 | in every good state every step is accepted exactly if it is permitted: who, when, in what state, and on whose free time, without the step functions in sight |
| `Refusals.GuardNames` | apps/api/src/bookings/bookings.service.ts:566-689 | the clash reported is a class if one is on, else a proposal if one is open, else the weekly rules |
| `Refusals.RefusedFor` | apps/api/src/bookings/postpone.service.ts:126-219 | every refusal names the first thing wrong: malformed, missing, not for this user, not due, wrong side, and only last the calendars, the student before the tutor |
| `Consents.MovedByBoth` | apps/api/src/bookings/postpone.service.ts:152-219 | behind every agreement of a run are one of the two people of the class, who opened the negotiation and proposed the slot, and the other one, who confirmed it |
| `Consents.NoClassWithoutItsTutor` | apps/api/src/bookings/bookings.service.ts:866-912 | in every state of a run a one-on-one class that got further than a request, a refusal or the student's cancellation, and that is no clone of another, was accepted by its own tutor earlier |
| `Consents.RefusedForGood` | apps/api/src/bookings/bookings.service.ts:819-864 | a class that its tutor refused holds nobody's time and can be neither paid for nor accepted later |
| `Consents.EveryClassWasAskedFor` | apps/api/src/bookings/bookings.service.ts:355-495 | every booking of a run was asked for by its student with a permitted request, or is the outcome of an agreement |
| `Consents.TotalIsFair` | apps/api/src/bookings/bookings.service.ts:406-408 | the price is within half a baht of rate times hours times seats |
| `Journeys.PaidClass` | apps/api/src/bookings/bookings.service.ts:355-553 | every permitted request for a one-on-one class can be answered, billed, paid and approved; the tables then hold exactly that class and its escrow in addition |
| `Journeys.PayoutOfClass` | apps/api/src/payments/payments.service.ts:379-412 | a day after the approval the daily job completes it and pays out the price |
| `Journeys.ReportedClass` | apps/api/src/bookings/bookings.service.ts:987-1036 | until then the student's report freezes the money |
| `Journeys.MovedClass` | apps/api/src/bookings/postpone.service.ts:50-276 | whoever may ask for another time and proposes one that is free for both gets it with the other side's consent, and the class moves with its money |
| `BookingInvariants.GuardFree` | apps/api/src/bookings/bookings.service.ts:566-689 | a free answer means free of every span that other bookings of the user hold, own or proposed |
| `BookingInvariants.CreateKeeps` | apps/api/src/bookings/bookings.service.ts:355-553 | an accepted request keeps every invariant |
| `BookingInvariants.OpenIntentKeeps` | apps/api/src/payments/payments.service.ts:90-187 | opening the payment intent, or finding it open, keeps every invariant |
| `BookingInvariants.InitiateKeeps` | apps/api/src/bookings/postpone.service.ts:50-123 | opening a negotiation keeps every invariant |
| `BookingInvariants.ProposeKeeps` | apps/api/src/bookings/postpone.service.ts:126-186 | a proposal accepted by the guard keeps every invariant, and so reserves its slot |
| `BookingInvariants.NegotiationIsFunded` | apps/api/src/bookings/postpone.service.ts:387-389 | an open negotiation always has an intent in escrow holding the full price, so the missing-intent errors never fire |
| `BookingInvariants.AgreeNoDoubleBooking` | apps/api/src/bookings/postpone.service.ts:227-276 | the clone takes over the slot its original had reserved: no calendar clash appears, even though the check and the write are apart from the proposal |
| `BookingInvariants.AgreeKeeps` | apps/api/src/bookings/postpone.service.ts:227-276 | the agreement keeps every invariant; the money follows the class |
| `BookingInvariants.SettleConserves` | apps/api/src/bookings/postpone.service.ts:423-453 | after a failed negotiation each intent's price is what is left on it plus what its one ledger row took off |
| `BookingInvariants.SettleDefectsOf` | apps/api/src/bookings/postpone.service.ts:419-474 | the set of a tutor's blamed negotiations grows by this one exactly on a blaming outcome of that tutor |
| `BookingInvariants.SettleKeeps` | apps/api/src/bookings/postpone.service.ts:381-482 | a failed negotiation keeps every invariant |
| `BookingInvariants.FailGroupKeeps` | apps/api/src/bookings/group-session.service.ts:610-659 | failing a group, with or without a refund, keeps every invariant |
| `BookingInvariants.RestatedKeeps` | apps/api/src/bookings/bookings.service.ts:776-1036 | any step that only moves a booking's status without making it live again, and its intent's status before money left it, keeps every invariant |
| `BookingRuns.AnswerRestates` | apps/api/src/bookings/bookings.service.ts:776-912 | the tutor's acceptance and refusal and the student's cancellation each touch one row's status only |
| `BookingRuns.ReportRestates` | apps/api/src/bookings/bookings.service.ts:987-1036 | a report touches one row's status and freezes only escrow still held |
| `BookingRuns.ReleaseRestates` | apps/api/src/payments/payments.service.ts:379-412 | the daily release touches one paid row and its intent |
| `BookingRuns.GroupConfirmationRestates` | apps/api/src/bookings/group-session.service.ts:541-549 | a group confirmation touches its booking's status, phase and window only |
| `BookingRuns.TimeoutKeeps` | apps/api/src/bookings/postpone.service.ts:327-378 | a timer either settles the open negotiation of its own request or changes nothing, and keeps every invariant |
| `BookingRuns.StepKeeps` | apps/api/src/bookings/bookings.service.ts:355-1036 | every orderly step keeps every invariant |
| `BookingRuns.StepKeepsIff` | apps/api/src/admin/admin.service.ts:941-988 | from a good state an accepted step leads to a good state if and only if it is orderly |
| `BookingRuns.RunKeepsInv` | apps/api/src/bookings/postpone.service.ts:50-482 | in every state of every orderly run nobody is double-booked, money is conserved, paid classes are backed, defects are counted |
| `BookingRuns.OpeningInv` | apps/api/src/bookings/bookings.service.ts:355-356 | the empty service satisfies the invariant |
| `BookingRuns.RunEvolves` | apps/api/src/bookings/postpone.service.ts:514-528 | between any two states of a run: people, time and price of a booking stay, a request leaves the negotiation at most once and is then frozen, clone links and ledger rows stay |
| `BookingRuns.RunNeverRevives` | apps/api/src/admin/admin.service.ts:979-983 | a booking that stopped holding its time never holds it again, in runs where no review finds a dead one-on-one booking |
| `BookingRuns.TimerResolvesOnce` | apps/api/src/bookings/postpone.service.ts:327-334 | a timer of an open request always resolves it, and every firing after that changes nothing |
| `Proposals.OnlyPostponedOriginalsClash` | apps/api/src/bookings/postpone.service.ts:205-219 | what the guard can find against a proposal at confirmation is a postponed original of another booking, never a live booking or another proposal |
| `Proposals.RunKeepsCalm` | apps/api/src/bookings/postpone.service.ts:126-308 | in runs without reports, no booking that the guard counts sits on another's open proposal |
| `Proposals.ConfirmationStands` | apps/api/src/bookings/postpone.service.ts:189-308 | in such a state the counterparty's confirmation is refused exactly when a weekly rule covers the slot, and otherwise does the agreement |
| `Proposals.OnlyRulesStandInTheWay` | apps/api/src/bookings/postpone.service.ts:189-308 | the same at any point of any run without reports |
| `Proposals.BlockersWereSaved` | apps/api/src/bookings/postpone.service.ts:152-170 | reports or not, a party's weekly rules that cover a booking's open proposal were saved after the guard accepted a proposal for it |
| `Proposals.ProposalIsKept` | apps/api/src/bookings/postpone.service.ts:126-219 | without reports, the confirmation of an accepted proposal is refused, at any later point, exactly if a party has since saved weekly rules that cover the slot; otherwise it does the agreement |
| `Proposals.KeptWithoutEdits` | apps/api/src/bookings/postpone.service.ts:126-308 | it succeeds as long as nobody has edited weekly rules since the proposal |
| `Proposals.ConfirmsIff` | apps/api/src/bookings/postpone.service.ts:189-219 | with or without reports, the counterparty's confirmation succeeds exactly if on neither side a weekly rule or another class's postponed original covers the slot |
| `Settlements.SettlementPays` | apps/api/src/payments/refund-policy.service.ts:57-88 | a failed negotiation pays everything back, except a student's answered late request, which pays the configured shares; one ledger row and one intent change |
| `Settlements.Asked` | apps/api/src/bookings/postpone.service.ts:76-99 | the request records who asked, short notice as less than twelve hours, and opens one funded negotiation |
| `Settlements.StillAsAsked` | apps/api/src/bookings/postpone.service.ts:76-99 | a request still open later in a run is about the same people and price, and says who asked and on what notice, whatever happened in between |
| `Settlements.TimedOutNegotiation` | apps/api/src/bookings/postpone.service.ts:365-376 | a request, anything in between, then the timer: payments, blame, statuses and outcome by who asked, on what notice and whether the other side wrote |
| `Settlements.CalledOffNegotiation` | apps/api/src/bookings/postpone.service.ts:311-324 | a request, anything in between, then a cancel: any participant may, nobody else; payments, blame, statuses and outcome by who had asked and on what notice |
| `Settlements.AgreementMovesTheClass` | apps/api/src/bookings/postpone.service.ts:227-276 | the clone's people, price, slot, status and money, the original's, and that nothing else changes; on the calendars the clone holds exactly the proposed slot, the original nothing, everybody else what they held |
| `Chains.MoneyIsOnTheLast` | apps/api/src/bookings/postpone.service.ts:254-261 | the last booking of a moved class's chain has the same people and price and holds its one intent with the price accounted for |
| `Chains.IntentsSitOnLasts` | apps/api/src/bookings/postpone.service.ts:254-261 | no intent sits on a booking that has been moved away |
| `Chains.ChainsNeverMerge` | apps/api/src/bookings/postpone.service.ts:70-74 | two bookings whose chains end in the same booking lie on one chain |
| `Chains.ChainsInEveryState` | apps/api/src/bookings/postpone.service.ts:227-276 | in every state of every run originals and clones form disjoint chains and the last booking of a moved class holds its one intent with the price accounted for |
| `Chains.IntentFollowsItsClass` | apps/api/src/bookings/postpone.service.ts:254-261 | along a run chains only grow, and every intent is at the end of the chain of the booking it was on |
| `AllRuns.WindowOpensIff` | apps/api/src/payments/payments.service.ts:189-297 | in any run at all, verdicts at any time included, a booking gets a report window exactly if a slip of it is approved or verified, or its group confirmed |
| `Calendars.NobodyDoubleBooked` | apps/api/src/admin/admin.service.ts:941-988 | in any run at all whose clearing slips find bookings that may be paid, nobody is double-booked, whatever slips are registered and verdicts given |
| `Clones.OpeningHasNoClones` | apps/api/src/bookings/bookings.service.ts:355-356 | the empty service satisfies what the theorems on clones start from |
| `Clones.WindowlessIffClone` | apps/api/src/bookings/postpone.service.ts:239-252 | in every state of every orderly run a paid class lacks a report window if and only if it is a clone |
| `Clones.CloneIsSealed` | apps/api/src/bookings/postpone.service.ts:239-261 | no review can reach a clone whose money is in escrow |
| `Clones.SealedUntilASlip` | apps/api/src/payments/payments.service.ts:189-297 | in any run at all such a class gets no window, refuses every report and is passed by the daily release until a slip is registered for it or a verdict arrives |
| `Clones.SecondSlipOpensWindow` | apps/api/src/payments/payments.service.ts:203-228 | a second slip for a clone's held payment, once approved, gives the clone a window, after which it can be reported and is released |
| `Clones.ClonesAreNeverReleased` | apps/api/src/bookings/postpone.service.ts:239-252 | in every state of every orderly run a clone has no report window, is neither completed nor reported, refuses every report and is passed by the daily release |
| `SlipSteps.LateSlipDoubleBooksIff` | apps/api/src/admin/admin.service.ts:979-983 | clearing a one-on-one slip at any state of booking and payment double-books exactly when somebody else holds the booking's time |
| `SlipSteps.ReviewKeepsInvIff` | apps/api/src/admin/admin.service.ts:941-988 | approving any slip keeps the whole invariant exactly when it was for a group, or for a booking without a postpone request whose time nobody else holds |
| `SlipSteps.GuardAnswersLateSlip` | apps/api/src/bookings/bookings.service.ts:566-689 | a free answer of the guard for both sides means that nobody else holds the booking's time |
| `OutOfOrder.LateSlipRun` | apps/api/src/admin/admin.service.ts:979-983 | a seven-step run from the empty service that ends with two live classes in one tutor's hour |
| `Payouts.ReleasedUntilASlip` | apps/api/src/payments/payments.service.ts:379-412 | released money stays released, with the same amount, until another slip is registered for it |
| `Payouts.ReleasedAfterADay` | apps/api/src/payments/payments.service.ts:379-412 | the daily job pays out only a paid class whose window was set by an approval or a group confirmation a day or more before |
| `Payouts.HeldMoneyWasPaid` | apps/api/src/admin/admin.service.ts:941-988 | money in escrow was approved, after its payer had registered a slip or its group had failed |
| `Payouts.HeldWithoutASlip` | apps/api/src/bookings/group-session.service.ts:640-650 | a payment for which no slip was ever registered can be approved and held once its group has failed |
| `Payouts.SecondPayout` | apps/api/src/payments/payments.service.ts:203-228 | from any completed class whose hour is still free, another slip, its approval and the next daily job are three orderly steps that release the same payment twice |
| `SlipSteps.UploadKeepsInvIff` | apps/api/src/payments/payments.service.ts:189-228 | registering a slip at any intent state keeps the invariant exactly when no paid or negotiated class counts on that escrow and no ledger row settled it |
| `SlipSteps.GroupRefundIff` | apps/api/src/bookings/group-session.service.ts:618-639 | failing a gathering group's booking writes the full refund row exactly if its intent is held, and no row otherwise |
| `SlipSteps.UploadCostsRefundIff` | apps/api/src/payments/payments.service.ts:189-228 | after a registration a failing group gets no refund; it would have got one exactly if the money was held |
| `OutOfOrder.SecondSlipUnbacks` | apps/api/src/payments/payments.service.ts:206-228 | five orderly steps from the empty service, then a second slip that leaves a paid class without escrow |
| `OutOfOrder.ReportBreaksAProposal` | apps/api/src/bookings/bookings.service.ts:1031-1034 | a run in which a report makes another class's accepted proposal fail at confirmation |
| `ConcurrentCreate.GuardStillFree` | apps/api/src/bookings/bookings.service.ts:427-449 | checks that passed on the snapshot still pass at a commit that saw no conflicting insertion |
| `ConcurrentCreate.CommitIsCreate` | apps/api/src/bookings/bookings.service.ts:434-495 | an inserting commit is the atomic create at that moment |
| `ConcurrentCreate.MoveIsSerial` | apps/api/src/bookings/bookings.service.ts:434-495 | every move of the interleaved system is nothing or one step of the atomic model |
| `ConcurrentCreate.InterleavedCreatesAreSafe` | apps/api/src/bookings/bookings.service.ts:427-552 | any interleaving of any number of creates, with the other steps that claim no time, keeps every invariant |
| `ConcurrentCreate.WithoutAbortDoubleBooks` | apps/api/src/bookings/bookings.service.ts:427-432 | without the abort, two wishes for one tutor's hour that both pass their checks end in a double booking |
| `BusyList.BookingsBusyMeets` | apps/api/src/bookings/bookings.service.ts:715-745 | the listed spans meet a candidate exactly when a listed row's own slot or open proposal does |
| `BusyList.GuardAndBusyListAgree` | apps/api/src/bookings/bookings.service.ts:710-765 | inside the window the guard refuses exactly the candidates that meet the list or a proposal whose booking is not listed |
| `BookingDesk.Desk.AssertNoOverlap` | apps/api/src/bookings/bookings.service.ts:566-689 | the three queries in order give the guard's answer |
| `BookingDesk.Desk.WithinUnavailability` | apps/api/src/bookings/bookings.service.ts:656-688 | expanding the user's own rules over the span decides whether a weekly block meets it |
| `BookingDesk.Desk.CollectBusy` | apps/api/src/bookings/bookings.service.ts:710-765 | the loop builds exactly the specified list, in table order |
| `BookingDesk.Desk.CreateBooking` | apps/api/src/bookings/bookings.service.ts:355-553 | does exactly the create step, refusals included, and keeps the invariant |
| `BookingDesk.Desk.AcceptBooking` | apps/api/src/bookings/bookings.service.ts:866-912 | does exactly the accept step and keeps the invariant |
| `BookingDesk.Desk.RejectBooking` | apps/api/src/bookings/bookings.service.ts:819-864 | does exactly the reject step and keeps the invariant |
| `BookingDesk.Desk.CancelBooking` | apps/api/src/bookings/bookings.service.ts:776-817 | does exactly the cancel step and keeps the invariant |
| `BookingDesk.Desk.ReportBooking` | apps/api/src/bookings/bookings.service.ts:987-1036 | does exactly the report step and keeps the invariant |
| `BookingDesk.Desk.ApprovePaymentSlip` | apps/api/src/admin/admin.service.ts:941-988 | does exactly the approval step, and keeps the invariant if the booking was waiting for payment |
| `BookingDesk.Desk.InitiatePostpone` | apps/api/src/bookings/postpone.service.ts:50-103 | does exactly the initiate step and keeps the invariant |
| `BookingDesk.Desk.ProposeSlot` | apps/api/src/bookings/postpone.service.ts:126-174 | does exactly the propose step and keeps the invariant |
| `BookingDesk.Desk.ConfirmSlot` | apps/api/src/bookings/postpone.service.ts:189-276 | the four writes do exactly the confirm step and keep the invariant |
| `BookingDesk.Desk.CancelNegotiation` | apps/api/src/bookings/postpone.service.ts:311-324 | does exactly the cancel step and keeps the invariant |
| `BookingDesk.Desk.TimerFires` | apps/api/src/bookings/postpone.service.ts:327-378 | does exactly the timer step, late and duplicate firings included, and keeps the invariant |
| `BookingDesk.Desk.ApplyResolution` | apps/api/src/bookings/postpone.service.ts:381-475 | the five writes do exactly the settlement and keep the invariant |
| `GroupSessions.InviteBornOpenIff` | apps/api/src/bookings/bookings.service.ts:93-97 | the chosen end of invitations is in the future exactly when the class is more than an hour away, and never within an hour of it |
| `GroupSessions.BornOverOnlyBeforeMidnight` | apps/api/src/bookings/bookings.service.ts:420-424 | a group start that create admits leaves the invitations over at once only in the last hour of a Bangkok day |
| `GroupSessions.BornOverBeforeMidnight` | apps/api/src/bookings/bookings.service.ts:420-424 | at every instant of that hour create's checks admit a class at midnight whose invitations are over at once |
| `GroupSessions.GatheredInv` | apps/api/src/bookings/bookings.service.ts:462-491 | a new group satisfies the group invariant |
| `GroupSessions.AddSeatsKeeps` | apps/api/src/bookings/group-session.service.ts:137-146 | inserting invitees keeps seats distinct and existing seats as they were, and whoever is added has not answered |
| `GroupSessions.AcceptKeeps` | apps/api/src/bookings/group-session.service.ts:168-218 | an acceptance keeps the invariant; in particular the group enters review exactly when its last seat is taken |
| `GroupSessions.DeclineKeeps` | apps/api/src/bookings/group-session.service.ts:265-294 | a refusal keeps the invariant |
| `GroupSessions.SlipClearedKeeps` | apps/api/src/bookings/group-session.service.ts:461-521 | a cleared slip keeps the invariant, whatever state the group is in |
| `GroupSessions.FailKeeps` | apps/api/src/bookings/group-session.service.ts:610-659 | failing a group that is not confirmed keeps the invariant, refund included |
| `GroupSessions.GroupStepKeeps` | apps/api/src/bookings/group-session.service.ts:62-838 | every step of a group keeps the invariant, slips out of time included |
| `GroupSessions.GroupRunKeeps` | apps/api/src/bookings/group-session.service.ts:62-838 | every state of every run of a group satisfies the invariant |
| `GroupSessions.UploadKeepsPaidUpIff` | apps/api/src/payments/payments.service.ts:189-228 | registering the host's slip keeps the seat in agreement with the money exactly at an intent that awaits a slip |
| `GroupSessions.GroupStepKeepsPaidUpIff` | apps/api/src/bookings/group-session.service.ts:461-659 | a step keeps the host's seat in agreement with the money if and only if it is in time |
| `GroupSessions.TimelyRunKeepsPaidUp` | apps/api/src/bookings/group-session.service.ts:461-659 | with slips registered and reviewed in time the host's seat agrees with the money throughout, and a failed group holds nothing |
| `GroupPromises.GroupRunEvolves` | apps/api/src/bookings/group-session.service.ts:168-669 | phases only move forming, review, confirmed or to failed; from review on the seats are the same people with the same answers; declined seats and approvals stay |
| `GroupPromises.ConfirmsIff` | apps/api/src/bookings/group-session.service.ts:498-521 | a step confirms exactly if it is a cleared slip in a reviewed and approved group |
| `GroupPromises.ConfirmedMeansAgreed` | apps/api/src/bookings/group-session.service.ts:1003-1011 | a confirmed group has exactly its capacity of seats, all accepted, a paid host and an approval, and the people of its review |
| `GroupPromises.DeclinedNeverConfirms` | apps/api/src/bookings/group-session.service.ts:265-294 | a group with a declined seat never reaches review or confirmation again |
| `GroupPromises.HeldUnlessSlipWaits` | apps/api/src/payments/payments.service.ts:206-228 | until a failure, money once held is held exactly as long as every slip registered since has been cleared |
| `GroupPromises.PaidHostRefundedIff` | apps/api/src/bookings/group-session.service.ts:618-659 | in any run of a room a host who had paid gets the whole price back from a failure if and only if no slip registered since is waiting, and that stays the last word |
| `GroupPromises.PaidEarlyConfirmsIff` | apps/api/src/bookings/group-session.service.ts:498-521 | in any run of a room, a class whose host paid before its confirmation is confirmed exactly if another slip clears in a reviewed and approved group, and each such step is preceded by a second registration |
| `GroupPromises.PaidTooEarlyNeverConfirms` | apps/api/src/bookings/group-session.service.ts:349-400 | without a second slip it is never confirmed, the money stays untouched and a failure gives it back in full |
| `GroupPromises.SecondSlipConfirms` | apps/api/src/payments/payments.service.ts:189-228 | from any reviewed group holding its host's money, approval, a second slip and its review confirm the class |
| `GroupPromises.SecondSlipLosesRefund` | apps/api/src/payments/payments.service.ts:189-228 | from any open group holding its host's money, a second slip turns the full refund of a failure into none |
| `GroupPromises.PaidEarlyRun` | apps/api/src/bookings/group-session.service.ts:62-529 | a run from a new group, every slip in time, to a payment held before the approval |
| `GroupPromises.SecondSlipAfterVisit` | apps/api/src/bookings/group-session.service.ts:403-431 | from its end the class can be confirmed, and the refund can be lost or paid |
| `GroupPromises.LateGroupSlipStrands` | apps/api/src/bookings/group-session.service.ts:616 | money cleared after a failure is not given back by failing again |
| `GroupConsents.HostSatDown` | apps/api/src/bookings/bookings.service.ts:478-490 | in every state of a run the host has the first seat, accepted when the group was created |
| `GroupConsents.InvitationsEnd` | apps/api/src/bookings/group-session.service.ts:724-767 | at any point of a run invitations end a day before class, or an hour before it exactly if they were sent later than that or the host has extended them while forming |
| `GroupConsents.ExpiredIff` | apps/api/src/bookings/group-session.service.ts:779-787 | for somebody invited to a forming group the sweep finds the invitation over exactly if accepting it is refused for that, and once over it stays over |
| `GroupConsents.SweptIff` | apps/api/src/bookings/group-session.service.ts:779-798 | the invitation sweep fails a forming group of a run exactly if it runs after that end |
| `GroupConsents.SeatedIff` | apps/api/src/bookings/group-session.service.ts:168-218 | an invited user is seated by an acceptance exactly if it comes no later than that end and their calendar is free |
| `GroupConsents.OverdueIff` | apps/api/src/bookings/group-session.service.ts:807-838 | the review sweep fails a complete group of a run exactly if every acceptance was more than a day ago |
| `GroupConsents.ListedAreInvited` | apps/api/src/bookings/group-session.service.ts:137-146 | an invitation seats exactly the people listed, beside those who had a place |
| `GroupConsents.ConfirmedByAll` | apps/api/src/bookings/group-session.service.ts:62-529 | behind every confirmed class are the host's invitation and the own, timely yes of each friend on a free calendar, then the tutor's approval, and the review of a slip the host had registered |
| `GroupConsents.FailsIff` | apps/api/src/bookings/group-session.service.ts:403-431 | a step fails a group exactly if its tutor rejects it in review or a sweep finds its time up, and gives held money back in full with that reason |
| `GroupConsents.DecliningMarksTheSeat` | apps/api/src/bookings/group-session.service.ts:265-294 | whoever declines marks the own seat and changes nothing else |
| `GroupConsents.RefusedJustSo` | apps/api/src/bookings/group-session.service.ts:168-294 | every step of a group is accepted or refused just so, with that error, by person, phase and clock |
| `GroupJourneys.OrdinaryGroup` | apps/api/src/bookings/group-session.service.ts:62-529 | for groups of any size: distinct friends invited, all accepting in time, an approval and a reviewed payment confirm the class, with the price held |
| `GroupOnCore.CreatedShows` | apps/api/src/bookings/bookings.service.ts:450-492 | a created group booking's row shows a new group, which satisfies the group invariant |
| `GroupOnCore.FailureFollows` | apps/api/src/bookings/group-session.service.ts:610-659 | failing the group and failing its booking row agree, refund row included |
| `GroupOnCore.ClearedFollows` | apps/api/src/admin/admin.service.ts:941-969 | a cleared slip is an approval, followed by the confirmation exactly if the group is reviewed and approved, on the booking row |
| `GroupOnCore.GroupStepFollows` | apps/api/src/bookings/group-session.service.ts:62-838 | every step of an open group is a sequence of orderly core steps on its booking that keeps both views in step, refunds included, and keeps the core's invariant |
| `GroupTables.RefundedAtMostOnce` | apps/api/src/bookings/group-session.service.ts:618-639 | however long the service has run, a group has at most one ledger row, the full price, and only after it failed |
| `GroupTables.FailureTurns` | apps/api/src/bookings/group-session.service.ts:610-659 | failing one group changes its own room as specified, no other room, and keeps the tables in order |
| `GroupTables.PassFails` | apps/api/src/bookings/group-session.service.ts:788-836 | a failing pass over all groups makes of each room what failing it alone would, or nothing |
| `GroupTables.PassKeeps` | apps/api/src/bookings/group-session.service.ts:788-836 | a failing pass keeps the tables in order |
| `GroupTables.CountedOnceEach` | apps/api/src/bookings/group-session.service.ts:797 | the number a sweep returns is the number of groups it found due |
| `GroupDesk.Sessions.Gather` | apps/api/src/bookings/bookings.service.ts:462-491 | a created group joins the table as a new room and the tables stay in order |
| `GroupDesk.Sessions.FailGroup` | apps/api/src/bookings/group-session.service.ts:610-659 | closes one group and its intent with one full refund row exactly if the money is held, is idle on a failed group, touches no other room and keeps the tables in order |
| `GroupDesk.Sessions.RunInviteExpirySweep` | apps/api/src/bookings/group-session.service.ts:779-798 | fails exactly the forming groups past their invitations' end; every room takes the sweep step and the tables stay in order |
| `GroupDesk.Sessions.RunPaymentDeadlineSweep` | apps/api/src/bookings/group-session.service.ts:807-838 | fails exactly the reviewed groups whose invitees all answered more than a day ago; every room takes the sweep step and the tables stay in order |
| `GroupDesk.Sessions.InviteByEmail` | apps/api/src/bookings/group-session.service.ts:62-146 | cleaning, counting, looking up and seating a list of addresses do exactly the invitation step on one room, touch no other and keep the tables in order |
| `GroupDesk.Sessions.TakeSeats` | apps/api/src/bookings/group-session.service.ts:137-146 | inserting with duplicates skipped gives exactly the specified seats |
| `GroupDesk.Sessions.AcceptInvitation` | apps/api/src/bookings/group-session.service.ts:168-218 | the acceptance step on one room; no other room changes and the tables stay in order |
| `GroupDesk.Sessions.DeclineInvitation` | apps/api/src/bookings/group-session.service.ts:265-294 | the refusal step on one room; no other room changes and the tables stay in order |
| `GroupDesk.Sessions.Approve` | apps/api/src/bookings/group-session.service.ts:349-379 | the approval step on one room; no other room changes and the tables stay in order |
| `GroupDesk.Sessions.Reject` | apps/api/src/bookings/group-session.service.ts:403-431 | the rejection on one room, its refund in the common ledger; no other room changes and the tables stay in order |
| `GroupDesk.Sessions.ExtendInvitation` | apps/api/src/bookings/group-session.service.ts:732-767 | the extension step on one room; no other room changes and the tables stay in order |
| `GroupDesk.Sessions.OpenPayment` | apps/api/src/payments/payments.service.ts:113-173 | the host's intent is opened once, on one room, and the tables stay in order |
| `GroupDesk.Sessions.RegisterSlip` | apps/api/src/payments/payments.service.ts:189-214 | the registration on one room, whatever its intent's state, and the tables stay in order |
| `GroupDesk.Sessions.OnParticipantPaid` | apps/api/src/bookings/group-session.service.ts:461-521 | the approved slip and its callback on one room; no other room changes and the tables stay in order |
| `GroupDesk.SweepsFailExactlyTheDue` | apps/api/src/bookings/group-session.service.ts:779-838 | the two sweeps together fail exactly the due groups, leave every other group alone and leave nothing due |
| `GroupDesk.SecondSweepIsIdle` | apps/api/src/bookings/group-session.service.ts:777 | sweeping again at the same instant changes nothing and refunds nothing |
| `GroupDesk.SweepsRefundOnce` | apps/api/src/bookings/group-session.service.ts:623-639 | the rows the two sweeps write for a group: its one full refund if it is due and its money held, otherwise none |
| `GroupDesk.ListIsTakenIff` | apps/api/src/bookings/group-session.service.ts:62-135 | an invitation list is taken exactly if its host sends it while forming, its distinct addresses fit, and every one belongs to somebody else not on it yet who has an account and is not suspended |
| `GroupDesk.ListedGetPlaces` | apps/api/src/bookings/group-session.service.ts:103-146 | then exactly the owners of the addresses join those who have a place |
| `InviteEmails.NormalizeInviteEmails` | apps/api/src/bookings/group-session.service.ts:973-996 | succeeds exactly if no entry offends, otherwise reports the first offending entry; the result is the list of first occurrences |
| `InviteEmails.FirstsExact` | apps/api/src/bookings/group-session.service.ts:980-994 | that list has no blank, no repetition, and exactly the typed addresses |
| `InviteEmails.CleaningTwiceIsOnce` | apps/api/src/bookings/group-session.service.ts:973-996 | cleaning a clean list changes nothing |
| `InviteEmails.RepeatsAreSkipped` | apps/api/src/bookings/group-session.service.ts:991 | listing an address again changes nothing |
| `OverlapCleanup.ScanFindsTheDoomed` | apps/api/scripts/resolve-existing-overlaps.ts:49-81 | whatever the order of the pairs, the bookings on their cancel side are exactly those with a conflicting predecessor in creation order |
| `OverlapCleanup.Script.ApplyResolution` | apps/api/scripts/resolve-existing-overlaps.ts:91-151 | one pair cancels and refunds its later booking exactly if that is still active and the run is live |
| `OverlapCleanup.Script.ResolveAll` | apps/api/scripts/resolve-existing-overlaps.ts:167-175 | the loop cancels exactly the doomed, refunds each once, changes nothing in a dry run, and what each pair reports |
| `OverlapCleanup.CleanedHasNoConflict` | apps/api/scripts/resolve-existing-overlaps.ts:60-65 | afterwards no two active bookings of one student or one tutor overlap; the survivors are the bookings that were not doomed |
| `OverlapCleanup.NobodyInTwoClasses` | apps/api/scripts/resolve-existing-overlaps.ts:22-65 | after the script no student and no tutor is in two classes in use at any instant |
| `OverlapCleanup.FateOf` | apps/api/scripts/resolve-existing-overlaps.ts:60-145 | a booking in use is left alone exactly if no earlier-created one in use of the same student or tutor overlaps it; otherwise it is cancelled and its payment emptied |
| `OverlapCleanup.RefundOnce` | apps/api/scripts/resolve-existing-overlaps.ts:127-137 | every cancelled booking with an intent has exactly its own refund row |
| `OverlapCleanup.RowExceedsEscrowIff` | apps/api/scripts/resolve-existing-overlaps.ts:117-137 | the script's row gives the whole amount on the intent to the student, which is more than was in escrow exactly if that amount is positive and nothing was in escrow |
| `OverlapCleanup.RefundsMatchEscrowIff` | apps/api/scripts/resolve-existing-overlaps.ts:167-175 | over any set of cancelled bookings the refunds are at least what was in escrow, and equal to it if and only if none of them is unpaid |
| `OverlapCleanup.ReportsAddUp` | apps/api/scripts/resolve-existing-overlaps.ts:91-151 | the reports of a live run add up to the refunds it made |
| `OverlapCleanup.ReportMeans` | apps/api/scripts/resolve-existing-overlaps.ts:91-151 | what each report says about its pair, live and dry |
| `OverlapCleanup.MovedClassIsCancelled` | apps/api/scripts/resolve-existing-overlaps.ts:61-65 | a clone that overlaps its own postponed original is cancelled |
| `RateLimit.PruningIsInvisible` | apps/api/src/bug-reports/bug-report-rate-limit.service.ts:89-96 | pruning cannot be told from never forgetting, from this instant on |
| `RateLimit.Limiter.AssertCanFile` | apps/api/src/bug-reports/bug-report-rate-limit.service.ts:73-86 | with a clock that does not run backwards the answer is that of a limiter remembering every acceptance, and the record grows by exactly the accepted requests |
| `RateLimit.Limiter.PruneAnonMap` | apps/api/src/bug-reports/bug-report-rate-limit.service.ts:89-96 | the loop over a large map keeps exactly the live hits of addresses that have some |
| `RateLimit.AtMostPerWindow` | apps/api/src/bug-reports/bug-report-rate-limit.service.ts:78-79 | a record whose acceptances are spaced has at most the limit in any window of that width |
| `RateLimit.RollingLimits` | apps/api/src/bug-reports/bug-report-rate-limit.service.ts:8-10 | every address has at most the hourly limit in any hour and the daily limit in any day |
| `RateLimit.AcceptedIff` | apps/api/src/bug-reports/bug-report-rate-limit.service.ts:74-82 | a request is accepted exactly if its address has room left both in the hour and in the day that end now |
| `RateLimit.CountedTogether` | apps/api/src/bug-reports/bug-report-rate-limit.service.ts:73 | two requests are counted together exactly if they come from one address, or from none that is known |
| `InviteCode.SymbolsSpellTheAlphabet` | apps/api/src/bookings/bookings.service.ts:70 | the digit table is the alphabet of the source, character by character |
| `InviteCode.WordAgrees` | apps/api/src/bookings/bookings.service.ts:77-81 | the accumulator wrapped at 32 bits, shifted right, agrees with the true number on the bits it still has |
| `InviteCode.NextDigit` | apps/api/src/bookings/bookings.service.ts:79-82 | five bits taken off the wrapped word are the true next base-32 digit |
| `InviteCode.PushByte` | apps/api/src/bookings/bookings.service.ts:77-78 | shifting a byte in loses nothing that is still pending |
| `InviteCode.GenerateInviteCode` | apps/api/src/bookings/bookings.service.ts:71-85 | for any bytes, the code spells their big-endian number in base 32, less the bits that do not fill a digit |
| `InviteCode.BytesOfNumber` | apps/api/src/bookings/bookings.service.ts:72 | the number of some bytes determines them |
| `InviteCode.InviteCodeOfFive` | apps/api/src/bookings/bookings.service.ts:71-85 | five bytes give eight symbols, and decoding the symbols gives the bytes back |
| `Score.CheckSubjects` | packages/types/src/score-algorithm.ts:268-310 | which subjects are missing or below their minimum, and the first failure in list order after the gate |
| `Score.SumUp` | packages/types/src/score-algorithm.ts:316-337 | the sum of the normalized, weighted parts, and a row for each |
| `Score.DataWarnings` | packages/types/src/score-algorithm.ts:174-225 | the warnings, in order, of a sum off 100, a GPAX scale other than 4, and a percentage that is not a number |
| `Score.CalculateScore` | packages/types/src/score-algorithm.ts:253-367 | the reason is null exactly if eligible and otherwise the first failure in gate, list, total order; the score is null exactly if a subject is missing; every other field |
| `Score.SumIgnoresOrder` | packages/types/src/score-algorithm.ts:319-335 | a sum over a list depends only on the bag of its items |
| `Score.OrderDoesNotMatter` | packages/types/src/score-algorithm.ts:253-367 | score and eligibility do not depend on the order of the weights |
| `Score.BetterScoresNeverHurt` | packages/types/src/score-algorithm.ts:253-367 | with non-negative weights, raising or adding scores never lowers the score nor loses eligibility |
| `Score.DefaultScales` | packages/types/src/score-algorithm.ts:160-164 | a maximum left out means 4 for a grade average, however spelt, and 100 for everything else |
| `Score.ContributionIsProportional` | packages/types/src/score-algorithm.ts:166-171 | a contribution is to its percentage as the raw score is to its maximum |
| `Score.RowMeans` | packages/types/src/score-algorithm.ts:322-333 | the row shown for a subject: its score on a scale of 100, its percentage, its contribution |
| `Score.RowsAddUp` | packages/types/src/score-algorithm.ts:319-335 | the contributions of the rows add up to the score |
| `Score.FullMarksMakeTheSum` | packages/types/src/score-algorithm.ts:166-171 | full marks everywhere make the sum of the percentages |
| `Score.TotalInRange` | packages/types/src/score-algorithm.ts:319-335 | with non-negative weights, scores between nothing and the maximum keep the total between nothing and that sum |
| `Score.EligibleMeans` | packages/types/src/score-algorithm.ts:253-367 | who is eligible: every threshold, reached exactly or exceeded |
| `Score.ReasonMeans` | packages/types/src/score-algorithm.ts:253-310 | what each reason says about the gate and the first subject in the list that is missing or too low |
| `Score.MissingExact` | packages/types/src/score-algorithm.ts:268-310 | exactly which codes are reported missing |
| `Score.FailedExact` | packages/types/src/score-algorithm.ts:268-310 | exactly which subjects are reported too low, with what was required and scored |
| `Score.ScaleReportedIff` | packages/types/src/score-algorithm.ts:187-200 | exactly which grade-average scales are reported |
| `Score.PercentReportedIff` | packages/types/src/score-algorithm.ts:209-226 | exactly which percentages are reported as not a number |
| `Score.SumIsReportedIff` | packages/types/src/score-algorithm.ts:174-184 | the sum of the percentages is reported exactly if it is more than half a point from 100 |
| `Projection.FillZeros` | apps/web/lib/tcas-unified.ts:235-240 | typed scores stay, every other listed subject but GPAX becomes zero, nothing else appears |
| `Projection.FieldsAreRead` | apps/web/lib/tcas-unified.ts:223-240 | every typed field is read under its own code, and nothing else is |
| `Projection.GpaxIsRead` | apps/web/lib/tcas-unified.ts:223-231 | the first field whose code spells GPAX is the grade average |
| `Projection.CalculateWeightedScore` | apps/web/lib/tcas-unified.ts:211-265 | the total is always the canonical sum with gaps counted as nothing, and the rows follow it |
| `Projection.ShowAndSubmit` | apps/web/lib/tcas-unified.ts:206-258 | the same fields shown live and submitted: the shown number is the canonical score if and only if every subject is entered, otherwise there is no canonical score |
| `Projection.LinesAddUp` | apps/web/lib/tcas-unified.ts:245-265 | the contributions shown add up to the number shown |
| `Projection.ShownIsLowerBound` | apps/web/lib/tcas-unified.ts:232-240 | with non-negative weights it is at most the score of every completion |
| `Projection.LowerBoundIsReached` | apps/web/lib/tcas-unified.ts:232-240 | filling the gaps with zeros is a completion that reaches it |

## Left out

- RunKeepsInv: is about orderly runs; StepKeepsIff says that any other accepted step leaves the invariant.
- InterleavedCreatesAreSafe: propose, confirm, edits of weekly rules and reviews that revive a booking do not interleave with an open create, because they run outside a serializable transaction and the database does not check them against it; they are atomic steps of the other model.
- TimelyRunKeepsPaidUp: is about runs whose slips are registered and reviewed in time; GroupStepKeepsPaidUpIff says that any other slip step breaks the agreement, GroupRunKeeps what holds in all runs.
- ProposalIsKept: is about runs without reports; ConfirmsIff and BlockersWereSaved cover the others.
- PaidEarlyConfirmsIff: is about runs without automatic verification, like the other theorems on rooms.
- CalculateScore: exact reals instead of floating point, messages without their rounding; GPAX is recognised in ASCII letters only.
- AssertCanFile: the anonymous branch; the branch that counts database rows is a query.
- ExpandWeeklyRules: the local clock has a fixed distance from UTC; daylight saving is not modelled.
- Group invitees reserve no calendar time in the source, so the disjointness claim is about students and tutors of bookings; the guard's answer for an accepting invitee is a parameter.
- Automatic slip verification: in AllRuns, Calendars and the theorems of Clones on any run at all a verdict may arrive at any time and is written whatever the payment's state is. Elsewhere it is not a step of its own: a success that nothing came before equals a registered slip followed by an approval, a failure leaves the intent waiting. The verifier itself is a call to another service.
- `freezeBooking`, `rejectSlip`, edits and deletions by administrators, and payouts after the release.
- Ending a session, reviews, chat, notifications, calendar links, queues (a timer may fire at any time, any number of times), user interface, authentication, KYC.
- `movedTo` is history that the database does not store: it names the clone a postponed booking became. The one-to-one links between booking, request and intent are kept at both ends.
- In the cleanup script creation order is the pair of creation time and position; its CSV file is not modelled.
- The invite code's bytes are random in the source; the theorems are for all bytes. Collisions of codes are left to the database.
- The unified reports endpoint and the moderation that resolves its reports (they may change a booking or its intent like the other administrator overrides).
