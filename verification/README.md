# Verified model of the LIFE HOME AI service core

This project models, in Dafny 4.11, the state machines behind the LIFE HOME AI real-estate platform and proves what they keep.
Each module follows one part of `apps/api/src`. A table row or an aggregate of rows is a datatype, an operation is a
function from the old state to the new one, and a run is any sequence of operations in any order by any users. Beside
the functions stands a class (or a plain method with its loop) that does what the service does, statement by statement,
and is proved to compute exactly that function; the lemmas are about the functions and so about the services.

`dafny verify dfyconfig.toml` checks everything.

| module | models |
|---|---|
| `Common` | instants in milliseconds, half-open windows, optional values |
| `Reservations` | visit reservations: request, approve, reject, propose, accept, decline, cancel |
| `Interleavings` | the same operations with their checks and their writes in separate steps, in every order |
| `Cancellation` | cancelling a visit together with its deposit's refund |
| `Calendar` | the visit calendar's overlap sweep, travel warnings and grouping by day |
| `RouteMatrix`, `RoutePlanner` | the map provider's travel matrix, the exhaustive search for the best visiting order, the timetable |
| `Deposits`, `DepositService` | the reservation deposit and its ledger under confirmation, refund, administrator retry and provider webhooks |
| `Outbox`, `OutboxWorker` | the notification outbox shared by several workers, and the delivery of one notification |
| `Chat` | chat rooms: numbering, idempotent sending, read marks, paging back |
| `Contracts` | electronic contracts: the safety recheck, the signing session, the signature provider's webhooks |
| `Sessions` | refresh-token rotation, log-out, reuse detection |
| `Listings` | the life of a listing from draft to closed deal, ownership review, media and uploads |
| `RecentViews` | the bounded tables of recent views and searches against the unbounded history |

## What the model assumes

* Time is an `int` of milliseconds supplied to each operation; no order between the clocks of different operations is
  assumed except where a contract says so (`RecentViews.Clocked`). Money is whole won.
* A database transaction, and a conditional update, is one step, and so are the reads of one check. Where a service reads in
  one step and writes in a later one, the two halves are separate steps that interleave with everything else: deposits,
  refresh tokens, the outbox, read marks and, in `Interleavings`, visit reservations. For contracts and listings an operation
  of a run is one step, and separate lemmas say exactly when a half that comes late does harm: the claim, the session and the
  failure of a signing attempt (`LateClaimKeepsInvIff`, `LateSessionKeepsInvIff`, `LateFailureKeepsInvIff`), a webhook's
  update (`LateReportKeepsInvIff`), submissions and updates of listings (`LateSubmissionKeepsInvIff`,
  `LateUpdateKeepsInvIff`).
* The payment provider pays once per idempotency key and remembers its answer. A client's own key may be any text, one of
  the service's keys for the same deposit included, but not one made from a webhook event that does not exist yet, and
  not one made for another deposit.
* The unique index on provider references is not modelled: it can only refuse writes that the model lets through. The
  runs that show a failure use payments and cancellations with references of their own.
* Row ids, tokens and lock ids are fresh when created. The planner's property ids have one common width, as UUIDs do.
* Distances and durations are exact reals, so the planner's comparisons with an epsilon become equalities; the
  great-circle distance is an arbitrary function.
* Library sorting is taken for granted: the calendar sweep starts from a list sorted by start.
* Hashes, encrypted values and signatures appear as the values they stand for.

## What turned out not to hold

The code is modelled as it is. Where a property one might expect fails, a run from the initial state shows it, and another
lemma says exactly when the property does hold.

* A proposal may overlap the requester's other requests: `Reservations.ProposalsCanOverlap`, exactly when the check it
  omits would fail (`ProposalKeepsDiaryIff`). Firm windows stay disjoint all the same.
* Two approvals that both pass their check before either is written may confirm clashing visits of the broker:
  `Reservations.ApprovalsCanClash`, exactly when the windows overlap (`ApprovalsCheckedTogetherIff`; for acceptances
  `AcceptancesCheckedTogetherIff`, `ApprovalAndAcceptanceCheckedTogetherIff`). Of all writes that come late, only
  confirmations can do this (`Interleavings.VisitsAreDisjoint`, `WriteKeepsBrokersIff`).
* A requester's diary is safe from late writes of every kind but one (`Interleavings.DiariesAreDisjoint`): a new request
  written late may clash with another request (`Reservations.CreationsCanClash`, `CreationsCheckedTogetherIff`) or with an
  offer made and accepted in the meantime (`Interleavings.LateCreationClashes`), and with nothing else
  (`LateCreationKeepsRequestersIff`).
* A deposit confirmed after its refund becomes paid again: `Deposits.LateConfirmationReopens`. A refund status is final
  exactly when no confirmation is under way and no report of payment or abandonment read from before the payment is
  still to be written (`RefundStaysIff`). No money is paid twice for it (`PayoutsAreBounded`).
* A payment confirmed under the key of its own refund leaves the refund pending with no row to pay:
  `Deposits.RefundWithoutRow`; when queueing a refund leaves something to pay is `QueuedRefundIsPayableIff` and
  `QueuedRefundIsRetriableIff`. Without such keys a pending refund always has its row (`PendingRefundsHaveARow`), and if it
  was queued once and no cancellation was reported, the administrator can still pay it (`SoleRefundIsPayable`).
* Two cancellation webhooks that read before either writes record the first cancellation twice:
  `Deposits.CancellationsCanOverlap`, `OverlappingCancellationsDoubleCount`; `CancellationBalancesIff` is the exact
  condition, whatever the ledger held before.
* A partial cancellation at the provider drops a queued refund of the whole amount: its row counts as paid, nobody pays it
  and no retry finds it. `Deposits.PartialCancellationDropsRefund` is a run, `QueuedRefundBalancesIff` the condition. In
  runs without reported cancellations every settled refund row was paid (`SettledRefundsArePaid`).
* A webhook takes a failed contract to any other status without a new recheck, SIGNED included:
  `Contracts.SignedOnExpiredRecheck` signs a deposit lease a year after its only recheck expired; `WebhookReopensIff` says
  when.
* A transmission whose processing stopped half-way is never taken up again: in `Contracts.SignatureIsLost` the redelivered
  signature has no effect. A transmission has no further effect exactly when it is not marked as failed (`SettledIff`).
* A refused signing session is recorded whatever the contract has become: in `Contracts.LateFailureUndoesSignature` it
  overwrites SIGNED. It is harmless exactly when the status is then still SIGNING_PENDING (`LateFailureKeepsInvIff`).
* A webhook decided on an older status is written whatever the contract has become: in `Contracts.LateReportUndoesSignature`
  DECLINED overwrites SIGNED. It is harmless exactly when the status is still the one that was read
  (`LateReportKeepsInvIff`).
* Signing may open on a recheck that expired while its answer was under way: `Contracts.ClaimAfterExpiry`. The contract is
  covered exactly when some passed recheck has not expired at the claim (`LateClaimKeepsInvIff`).
* A failed notification may be tried again before its backoff is over: `Outbox.StaleClaimIgnoresBackoff`, when a second
  worker had selected it before. Only a report puts the next attempt off (`OnlyReportsReschedule`), so this takes a report
  between the selection and the claim.
* A password reset does not revoke tokens: `Sessions.ResetCanLeaveToken` is a log-in and a reset, and a refresh under way
  even issues another token (`ResetCanIssueToken`). A session of the user is rid of live tokens for good exactly when it
  had none before the reset (`ResetLeavesTokenIff`). The session itself stays revoked, and no refresh that begins
  after the reset has an effect, over every run (`RevokedSessionsStayClosed`).
* An update of a listing that was checked in draft and written after a withdrawal can republish the withdrawn listing:
  `Listings.LateUpdateRepublishes`, `LateUpdateKeepsInvIff`. A submission written after the last picture was deleted puts
  a listing without picture under review: `LateSubmissionLacksPicture`, `LateSubmissionKeepsInvIff`.
* An update ignores queued uploads, so a listing can end up with two public videos: `Listings.TwoPublicVideos`,
  `UpdateKeepsLimitsIff`.
* Deleting one recent view does not bring a trimmed one back: `RecentViews.DeletionLeavesGap` leaves one row too few for
  every limit; `StoreAfterClearIff` says when a deletion leaves the newest rows.

## Model

| member | source | states |
|---|---|---|
| Reservations.ReachableTables | apps/api/src/reservations/visit-reservations.service.ts:70-446 | after any mix of operations a requester's open requests and confirmed visits are disjoint, a broker's confirmed visits are disjoint, one active reservation per listing and requester, windows last 30 to 180 minutes |
| Reservations.StepKeepsSafe | apps/api/src/reservations/visit-reservations.service.ts:224-446 | every operation keeps these invariants and the row's history chain, although approve and propose never look at the requester's diary |
| Reservations.RunsAreSafe | apps/api/src/reservations/visit-reservations.service.ts:70-446 | the invariants hold over every run from every safe table |
| Reservations.RunsOnlyExtend | apps/api/src/reservations/visit-reservations.service.ts:474-646 | reservations are never lost, parties and requested window never change, history only grows, a closed reservation is frozen |
| Reservations.AdvanceKeepsChain | apps/api/src/reservations/visit-reservations.service.ts:587-646 | recording a legal transition keeps the history a chain of legal transitions that ends in the row's status |
| Reservations.CreationAnswers | apps/api/src/reservations/visit-reservations.service.ts:70-157 | a request is taken exactly for a window of 30 to 180 minutes, two hours to ninety days ahead, by somebody with a verified phone, for somebody else's public listing, with no open reservation of it and nothing of the requester's in the way; otherwise the first failing check answers |
| Reservations.ApprovalAnswers | apps/api/src/reservations/visit-reservations.service.ts:224-258 | an approval confirms the requested window exactly for the broker's own open request before its start and with the broker free; otherwise which error |
| Reservations.ProposalAnswers | apps/api/src/reservations/visit-reservations.service.ts:285-330 | a proposal is made exactly for the broker's own open request, a bookable window and a free broker, and lapses after a day or an hour before the window; otherwise which error |
| Reservations.AcceptanceAnswers | apps/api/src/reservations/visit-reservations.service.ts:332-381 | an acceptance confirms the offer exactly while it is open and both diaries are free; otherwise which error |
| Reservations.ClosingAnswers | apps/api/src/reservations/visit-reservations.service.ts:260-404 | a rejection closes exactly the broker's own open request, a refusal exactly the requester's own pending offer, each ending in its own status with no window held and no other row touched |
| Reservations.CancellationSucceedsIff | apps/api/src/reservations/visit-reservations.service.ts:406-446 | a cancellation succeeds exactly for the requester's own request, pending offer or confirmed visit that has not started, and leaves a cancelled row that holds nothing; otherwise which error |
| Reservations.AcceptLeavesAnHour | apps/api/src/reservations/visit-reservations.service.ts:332-381 | an offer lapses an hour before its window, so an accepted visit starts more than an hour later and the check on the window's start never decides |
| Reservations.ProposalIsAcceptedIff | apps/api/src/reservations/visit-reservations.service.ts:285-381 | an offer is open for at least an hour and at most a day; answered in that hour it is accepted exactly when the requester is free |
| Reservations.ProposalKeepsDiaryIff | apps/api/src/reservations/visit-reservations.service.ts:285-330 | a proposal keeps the requester's whole diary free of overlaps exactly when the requester check it omits would pass |
| Reservations.ProposalsCanOverlap | apps/api/src/reservations/visit-reservations.service.ts:285-330 | a run in which a proposal overlaps another request of the same requester |
| Reservations.RebookAfterCancelIff | apps/api/src/reservations/visit-reservations.service.ts:114-138 | an open request, or a confirmed visit before its start, can be cancelled, and the same window can then be booked again exactly when no pending alternative of the requester overlaps it |
| Reservations.ConfirmingKeepsBrokersIff | apps/api/src/reservations/visit-reservations.service.ts:689-710 | confirming a visit keeps the broker's visits disjoint exactly when the availability check passes |
| Reservations.ApprovalsCheckedTogetherIff | apps/api/src/reservations/visit-reservations.service.ts:236-258 | two approvals, at any two instants, that both pass their check before either writes keep the brokers' visits disjoint exactly when they are different brokers' or do not clash |
| Reservations.ConfirmationsCheckedTogetherIff | apps/api/src/reservations/visit-reservations.service.ts:689-710 | the same for any two confirmed rows that each passed the availability check first |
| Reservations.ApprovalsCanClash | apps/api/src/reservations/visit-reservations.service.ts:236-258 | a run from the empty table after which two clashing approvals both pass |
| Reservations.HoldingKeepsRequestersIff | apps/api/src/reservations/visit-reservations.service.ts:712-742 | writing a firm window keeps the requesters' diaries disjoint exactly when no firm window of the requester clashes |
| Reservations.WritesCheckedTogetherIff | apps/api/src/reservations/visit-reservations.service.ts:712-742 | two rows that each passed the requester check before either was written keep the diaries disjoint exactly when they are different requesters' or do not clash |
| Reservations.CreationsCheckedTogetherIff | apps/api/src/reservations/visit-reservations.service.ts:114-157 | the same for two requests; a second one for the same listing is stopped by the unique index |
| Reservations.CreationAndAcceptanceCheckedTogether | apps/api/src/reservations/visit-reservations.service.ts:356-381 | a request and an acceptance that both pass their checks before either is written never clash, for the requester or the broker |
| Reservations.AcceptancesCheckedTogetherIff | apps/api/src/reservations/visit-reservations.service.ts:356-381 | two such acceptances never clash for a requester, whose pending offers both checks see, and for the brokers exactly when they are one broker's and overlap |
| Reservations.ApprovalAndAcceptanceCheckedTogetherIff | apps/api/src/reservations/visit-reservations.service.ts:236-381 | an approval and an acceptance checked together never disturb a requester's diary, and the broker's exactly when one broker's windows clash |
| Reservations.CreationsCanClash | apps/api/src/reservations/visit-reservations.service.ts:114-157 | two clashing requests of one requester that both pass |
| Interleavings.InterleavingsKeepRows | apps/api/src/reservations/visit-reservations.service.ts:474-646 | in every interleaving of checks and writes rows stay in order and are never lost, statuses never return, an answered offer is the offer made, and what is pending was decided on an earlier state of its row |
| Interleavings.WritesFindWhatWasSeen | apps/api/src/reservations/visit-reservations.service.ts:487-499 | a conditional update changes a row exactly as its check had read it |
| Interleavings.WrittenIff | apps/api/src/reservations/visit-reservations.service.ts:474-585 | a late move is written exactly when its row still has the status that was read and, for an acceptance, the offer is open at that instant, so more than an hour before the visit; a late request exactly when its id and its listing are still free |
| Interleavings.OneActiveAlways | apps/api/src/reservations/visit-reservations.service.ts:140-214 | however late requests are written, a requester has one active reservation per listing |
| Interleavings.DiariesAreDisjoint | apps/api/src/reservations/visit-reservations.service.ts:332-381 | in every interleaving in which requests alone are written without a pause, the requesters' diaries stay disjoint: a pending offer guards its window until its acceptance is written |
| Interleavings.VisitsAreDisjoint | apps/api/src/reservations/visit-reservations.service.ts:236-381 | in every interleaving in which approvals and acceptances alone are written without a pause, the brokers' visits stay disjoint |
| Interleavings.WriteKeepsRequestersIff | apps/api/src/reservations/visit-reservations.service.ts:712-742 | any late write keeps the diaries disjoint exactly when it is refused, takes no window, or no firm window of the requester overlaps its own by then |
| Interleavings.WriteKeepsBrokersIff | apps/api/src/reservations/visit-reservations.service.ts:689-710 | any late write keeps the brokers' visits disjoint exactly when it is refused, confirms nothing, or would pass the availability check again |
| Interleavings.LateCreationKeepsRequestersIff | apps/api/src/reservations/visit-reservations.service.ts:114-214 | whatever happens between the check and the insert of a request, the diaries stay disjoint exactly when the insert is refused or it overlaps no request made since and no offer both made and accepted since |
| Interleavings.LateCreationClashes | apps/api/src/reservations/visit-reservations.service.ts:114-214 | a run in which one request is written late and clashes with an offer made and accepted since its check |
| Interleavings.RunsAreInterleavings | apps/api/src/reservations/visit-reservations.service.ts:70-446 | the runs of whole operations are the interleavings without a pause |
| Reservations.ReservationService.Create | apps/api/src/reservations/visit-reservations.service.ts:70-214 | the checks of a request in their order, each with its error, the row and history entry a success adds; the table stays safe |
| Reservations.ReservationService.Transition | apps/api/src/reservations/visit-reservations.service.ts:474-585 | the guarded update changes status, the given window and the history of one row and nothing else, or nothing at all when the row has moved on or the offer lapsed |
| Reservations.ReservationService.Approve | apps/api/src/reservations/visit-reservations.service.ts:224-258 | an approval confirms the requested window unless the row is not the broker's, not open, past its start, or the broker is taken, in that order; the table stays safe |
| Reservations.ReservationService.Reject | apps/api/src/reservations/visit-reservations.service.ts:260-283 | a rejection closes an open request of the broker and nothing else; the table stays safe |
| Reservations.ReservationService.ProposeAlternative | apps/api/src/reservations/visit-reservations.service.ts:285-330 | a proposal sets an offer that lapses after a day or an hour before its window; each refusal in its order; the table stays safe |
| Reservations.ReservationService.AcceptAlternative | apps/api/src/reservations/visit-reservations.service.ts:332-381 | an acceptance confirms the offered window after expiry, broker's and requester's diaries were checked in that order; the table stays safe |
| Reservations.ReservationService.DeclineAlternative | apps/api/src/reservations/visit-reservations.service.ts:383-404 | a refusal closes a pending offer of the requester and nothing else; the table stays safe |
| Reservations.ReservationService.Cancel | apps/api/src/reservations/visit-reservations.service.ts:406-446 | a cancellation closes exactly the requester's own request, offer or visit that has not started, and nothing else; the table stays safe |
| Cancellation.CancelVisit | apps/api/src/reservations/visit-reservations.service.ts:520-585 | in one transaction the reservation is cancelled and its deposit put up for refund, or neither; both invariants are kept |
| Cancellation.CancellationRefunds | apps/api/src/payments/reservation-deposit.service.ts:297-341 | a paid deposit is then under refund for the whole amount, and when that refund can be paid; any other deposit is left alone |
| Calendar.BreakIsExact | apps/api/src/reservations/visit-calendar.service.ts:51-52 | in a sorted list the first event that starts too late ends the search without losing an overlap |
| Calendar.ScanForward | apps/api/src/reservations/visit-calendar.service.ts:51-55 | the inner loop tells an event and its later partners of exactly their overlaps, in order |
| Calendar.Sweep | apps/api/src/reservations/visit-calendar.service.ts:49-64 | the sweep with its early break leaves on every event exactly the alerts of the all-pairs definition |
| Calendar.SweepIsAllPairs | apps/api/src/reservations/visit-calendar.service.ts:50-55 | an event is told of another once if the two overlap and never otherwise, and the alert always has its twin |
| Calendar.TravelWarningIff | apps/api/src/reservations/visit-calendar.service.ts:57-62 | an event is warned exactly of the visit just before it that has ended, when the whole minutes in between are fewer than the way takes |
| Calendar.AlertsInOrder | apps/api/src/reservations/visit-calendar.service.ts:50-63 | alerts about other events stand in the order of those events, with the travel warning between earlier and later ones |
| Calendar.Put | apps/api/src/reservations/visit-calendar.service.ts:66 | adding an event to the ordered map of days keeps it a grouping of the events so far |
| Calendar.GroupByDay | apps/api/src/reservations/visit-calendar.service.ts:65-67 | each date once, in order of first appearance, with exactly its events in their order, and no event lost |
| Calendar.ClashesInvolveAlternatives | apps/api/src/reservations/visit-calendar.service.ts:70-74 | the calendar shows an active reservation where the scheduler holds it; two visits of one requester clash only over a pending alternative |
| RouteMatrix.Parse | apps/api/src/reservations/map-route-provider.service.ts:117-199 | parsing succeeds exactly when every ordered pair of points has a usable row, and each leg is that of the last usable row |
| RouteMatrix.LegsAreSane | apps/api/src/reservations/map-route-provider.service.ts:138-183 | a leg joins the points it is filed under, is never negative, and rounds its seconds up by less than a minute |
| RouteMatrix.LegOfIff | apps/api/src/reservations/map-route-provider.service.ts:128-182 | a row makes a leg exactly when it names two of the points and reports a route of known length and duration; the leg has the row's kilometres, rounded minutes and traffic |
| RouteMatrix.LastRowDecides | apps/api/src/reservations/map-route-provider.service.ts:161-182 | of several usable rows for one pair of points the last decides |
| RouteMatrix.CompleteIff | apps/api/src/reservations/map-route-provider.service.ts:185-198 | an answer is complete exactly when every way between two points has a usable row |
| RoutePlanner.PermutationsAreOrders | apps/api/src/reservations/visit-route-planner.service.ts:245-254 | every candidate visits each property once |
| RoutePlanner.OrdersArePermutations | apps/api/src/reservations/visit-route-planner.service.ts:245-254 | every order is a candidate |
| RoutePlanner.PermutationsCount | apps/api/src/reservations/visit-route-planner.service.ts:245-254 | there are n! candidates and none is repeated |
| RoutePlanner.PrecedesIsTotal | apps/api/src/reservations/visit-route-planner.service.ts:230-235 | of two different orders exactly one comes first |
| RoutePlanner.PrecedesIsTransitive | apps/api/src/reservations/visit-route-planner.service.ts:230-235 | the comparison of minutes, distance and id sequence is transitive |
| RoutePlanner.SmallerKeyIsBefore | apps/api/src/reservations/visit-route-planner.service.ts:228-235 | of two orders the smaller joined key belongs to the one whose ids come first at the first difference |
| RoutePlanner.LeastIsBest | apps/api/src/reservations/visit-route-planner.service.ts:230-235 | the winner beats every other order by time, then by distance, then by the first differing id |
| RoutePlanner.ShortestPathByTravelTime | apps/api/src/reservations/visit-route-planner.service.ts:210-243 | the scan fails exactly when some order lacks a leg; otherwise its answer is the one order that comes before all others |
| RoutePlanner.ShortestPath | apps/api/src/reservations/visit-route-planner.service.ts:187-208 | without a matrix, the unique order of least length, ties decided by the id sequence |
| RoutePlanner.DistanceOf | apps/api/src/reservations/visit-route-planner.service.ts:256-267 | the length of a path from the starting point |
| RoutePlanner.PlanIgnoresInputOrder | apps/api/src/reservations/visit-route-planner.service.ts:120-154 | with a matrix: the same properties in another order, with a consistently relabelled matrix, give the same plan |
| RoutePlanner.PlanByDistanceIgnoresInputOrder | apps/api/src/reservations/visit-route-planner.service.ts:120-154 | without a matrix: the same properties in another order give the same plan |
| RoutePlanner.ParsedMatrixCovers | apps/api/src/reservations/visit-route-planner.service.ts:413-425 | with a matrix that parsed, no leg is ever missing |
| RoutePlanner.Legs | apps/api/src/reservations/visit-route-planner.service.ts:293-313 | the minutes of each leg: the provider's, or for an estimated way of some kilometres whole minutes, at least one, that suffice at the speed while one less would not, and none for no way |
| RoutePlanner.EstimatesAddUp | apps/api/src/reservations/visit-route-planner.service.ts:293-321 | estimated legs together take at least what the length of the order takes at the speed, and less than a minute a leg too much |
| RoutePlanner.ThirtyKilometres | apps/api/src/reservations/visit-route-planner.service.ts:27-34 | what the three ways of travelling make of thirty kilometres |
| RoutePlanner.TotalIsMinimised | apps/api/src/reservations/visit-route-planner.service.ts:320-321 | the total the timetable reports is the total the search minimised |
| RoutePlanner.Schedule | apps/api/src/reservations/visit-route-planner.service.ts:281-402 | each stop follows from the one before, and the plan ends after exactly its travel, visits and buffers |
| RoutePlanner.VisitsApart | apps/api/src/reservations/visit-route-planner.service.ts:289-318 | visits are disjoint and at least the buffer apart |
| RoutePlanner.Optimize | apps/api/src/reservations/visit-route-planner.service.ts:134-154 | a matrix is used exactly when the answer parses, then no leg is missing or negative and the order beats all others by time, distance and ids; otherwise it beats them by distance and ids |
| RoutePlanner.Plan | apps/api/src/reservations/visit-route-planner.service.ts:152-163 | whatever the provider answers, every stop leaves after the buffer, takes its leg's minutes and stays for the visit, every property is visited once, and the plan ends after exactly its travel, visits and buffers; with a complete answer, and only then, by the matrix, and its travel minutes are the least of all orders; otherwise no order is shorter and the minutes follow from its length |
| RoutePlanner.PlanFor | apps/api/src/reservations/visit-route-planner.service.ts:27-34 | the same for driving, public transport and walking, at their speeds and road factors |
| Deposits.DepositsConserve | apps/api/src/payments/reservation-deposit.service.ts:173-461 | in every interleaving refunded and retained parts are non-negative, add up to the amount once a refund was decided, and refund statuses imply that |
| Deposits.RunsConserve | apps/api/src/payments/payment-webhook.service.ts:162-443 | the deposit invariant holds over every interleaving of confirmation, refund, retry and webhook, and a division stays a division |
| Deposits.ReconcileImproves | apps/api/src/payments/payment-webhook.service.ts:162-443 | a webhook's write, however old its read, keeps rows, amounts and conservation |
| Deposits.PayoutsAreBounded | apps/api/src/payments/reservation-deposit.service.ts:315-407 | whatever is retried, lost or repeated, the provider pays the full amount at most once per refund reason |
| Deposits.NextKeepsPaidFor | apps/api/src/payments/admin-payments.service.ts:178-267 | every step keeps payments distinct by key and answering a queued reason |
| Deposits.LateConfirmationReopens | apps/api/src/payments/reservation-deposit.service.ts:218-271 | a run in which the refund is paid and recorded and a confirmation that ends later makes the deposit paid again |
| Deposits.RefundStaysIff | apps/api/src/payments/payment-webhook.service.ts:205-277 | a refund status stays one in every continuation exactly when no confirmation is under way and no acceptable report of payment or abandonment was decided on the deposit before it was paid |
| Deposits.QueuedRefundIsPayableIff | apps/api/src/payments/reservation-deposit.service.ts:315-328 | queueing a refund leaves the automatic attempt a row to pay exactly when no row carries its key or some refund row is pending or failed |
| Deposits.QueuedRefundIsRetriableIff | apps/api/src/payments/admin-payments.service.ts:165-188 | it leaves an administrator a row to retry exactly when no row carries its key or the newest refund row is not settled |
| Deposits.RefundWithoutRow | apps/api/src/payments/reservation-deposit.service.ts:186-222 | a run in which a payment confirmed under its refund's key leaves the refund pending with nothing to pay |
| Deposits.PendingRefundsHaveARow | apps/api/src/payments/reservation-deposit.service.ts:315-341 | when no client confirms under a refund key, a pending refund has a row for the whole amount in every interleaving |
| Deposits.SoleRefundIsPayable | apps/api/src/payments/admin-payments.service.ts:165-188 | when a refund is queued once, no client confirms under a refund key and no cancellation is reported, a pending refund can be retried in every interleaving |
| Deposits.SoleRefundIsPaid | apps/api/src/payments/admin-payments.service.ts:165-290 | under the same conditions the retry's four steps, begin, claim, pay and record, leave the key paid, the row settled and the deposit REFUNDED, unless an attempt is in processing and not ten minutes old |
| Deposits.RetryPaysIff | apps/api/src/payments/admin-payments.service.ts:165-290 | the four steps of a retry go through exactly when the newest refund row is waiting, failed or in lapsed processing; otherwise deposit and payments stay as they are |
| Deposits.ClaimSucceedsIff | apps/api/src/payments/admin-payments.service.ts:193-220 | a claim takes a row that is pending or failed, and one in processing exactly when it has lapsed |
| Deposits.ClaimsExclude | apps/api/src/payments/admin-payments.service.ts:193-220 | after one claim a second on the same row gets nowhere before it lapses, and a retry without a claim pays nothing |
| Deposits.RefundAttemptPays | apps/api/src/payments/reservation-deposit.service.ts:359-428 | the automatic attempt pays and records the newest refund row that is pending or failed |
| Deposits.FailedAttemptsCanBeRepeated | apps/api/src/payments/reservation-deposit.service.ts:448-458 | an attempt that fails leaves the refund pending and its row to be paid again |
| Deposits.QueueingAnswers | apps/api/src/payments/reservation-deposit.service.ts:297-341 | queueing concerns paid deposits only, divides the whole amount and adds the one row of its reason unless the key is in use |
| Deposits.ConfirmationBeginsIff | apps/api/src/payments/reservation-deposit.service.ts:186-222 | a confirmation gets under way exactly for a prepared deposit whose newest row under the key is not settled |
| Deposits.ConfirmationPays | apps/api/src/payments/reservation-deposit.service.ts:224-271 | a confirmation that is answered leaves the deposit paid with a settled capture row under the client's key |
| Deposits.CancellationBalancesIff | apps/api/src/payments/payment-webhook.service.ts:325-398 | exactly when a cancellation webhook, however old its read, leaves the settled refund rows equal to the refunded amount, whatever they were before: the reported amount must be what was settled plus what the write settles, the row found open unless settled meanwhile, or the growth since the read |
| Deposits.QueuedRefundBalancesIff | apps/api/src/payments/payment-webhook.service.ts:346-361 | a cancellation that meets a queued refund marks its row as paid in full: the ledger balances exactly when everything was cancelled and nothing settled before, and nothing is left to pay either way |
| Deposits.PartialCancellationDropsRefund | apps/api/src/payments/payment-webhook.service.ts:346-361 | a run in which a partial cancellation of 300 drops a queued refund of 1000 unpaid |
| Deposits.SettledRefundsArePaid | apps/api/src/payments/reservation-deposit.service.ts:383-412 | over every run without reported cancellations the provider paid each settled refund row under its key, and a refunded deposit's whole amount |
| Deposits.CancellationsStayBalanced | apps/api/src/payments/payment-webhook.service.ts:325-398 | with no refund queued and never falling cancelled amounts, the settled refund rows always equal the refunded amount |
| Deposits.ReplayChangesNothing | apps/api/src/payments/payment-webhook.service.ts:340-431 | a report under a new event adds no row and no notice |
| Deposits.UnfitReportsChangeNothing | apps/api/src/payments/payment-webhook.service.ts:162-182 | a report for another provider, currency or amount, or with parts that do not add up, changes nothing |
| Deposits.PaymentReportsAnswer | apps/api/src/payments/payment-webhook.service.ts:184-317 | a fitting report of payment makes the deposit paid exactly when it was read as prepared or failed, settling or adding the capture row; one of abandonment fails exactly a prepared one |
| Deposits.CancellationReportsAnswer | apps/api/src/payments/payment-webhook.service.ts:319-443 | a fitting report of a cancellation sets status, amounts and reference as reported and settles the open refund row or adds the difference, unless it was read as recorded already |
| Deposits.OverlappingCancellationsDoubleCount | apps/api/src/payments/payment-webhook.service.ts:325-398 | two cancellations that read before either writes record the first one twice |
| Deposits.CancellationsCanOverlap | apps/api/src/payments/payment-webhook.service.ts:325-398 | a run from a prepared deposit in which that happens |
| Deposits.Latest | apps/api/src/payments/reservation-deposit.service.ts:370-378 | the newest ledger row of a kind |
| DepositService.DepositRow.constructor | apps/api/src/payments/reservation-deposit.service.ts:92-147 | a prepared deposit is sound: nothing divided, one settled row |
| DepositService.DepositRow.BeginConfirm | apps/api/src/payments/reservation-deposit.service.ts:186-223 | the first half of a confirmation takes up or adds a capture row under any key of the client, or none when nothing is to be captured; rows and amounts are kept |
| DepositService.DepositRow.EndConfirm | apps/api/src/payments/reservation-deposit.service.ts:238-259 | the second half makes the deposit paid whatever it is by then; rows and amounts are kept |
| DepositService.DepositRow.QueueReservationRefund | apps/api/src/payments/reservation-deposit.service.ts:297-341 | a paid deposit is put up for full refund with one row per reason, any other is left alone; amounts are conserved |
| DepositService.DepositRow.BeginPendingRefund | apps/api/src/payments/reservation-deposit.service.ts:359-381 | a refund attempt picks the newest open refund row of a deposit under refund and remembers the retained amount |
| DepositService.DepositRow.BeginAdminRetry | apps/api/src/payments/admin-payments.service.ts:165-188 | a retry picks the newest refund row unless it is settled |
| DepositService.DepositRow.ClaimAdminRetry | apps/api/src/payments/admin-payments.service.ts:193-220 | a row is claimed exactly when it is pending, failed, or in lapsed processing; otherwise nothing changes |
| DepositService.DepositRow.EndRefund | apps/api/src/payments/reservation-deposit.service.ts:391-428 | a refund is recorded with the status that follows from the retained amount read before; amounts stay conserved |
| DepositService.DepositRow.AbortTransaction | apps/api/src/payments/reservation-deposit.service.ts:448-458 | a failed attempt marks its row and nothing else |
| DepositService.DepositRow.ReconcilePaid | apps/api/src/payments/payment-webhook.service.ts:238-317 | a payment report, decided on what was read, settles the newest capture row or adds one and makes the deposit paid |
| DepositService.DepositRow.ReconcileCanceled | apps/api/src/payments/payment-webhook.service.ts:319-443 | a cancellation report, decided on what was read, settles the open refund row or adds the difference, and overwrites the amounts |
| DepositService.DepositRow.ReconcileReport | apps/api/src/payments/payment-webhook.service.ts:162-236 | a report that does not fit the deposit changes nothing; any other leads to one of the writes; amounts stay conserved however old the read |
| Outbox.ReachableRows | apps/api/src/notifications/notification-outbox.worker.ts:99-159 | processing is exactly holding a lock, a lock belongs to one drain, attempts stay within the limit plus the locks that expired |
| Outbox.NextKeepsInv | apps/api/src/notifications/notification-outbox.worker.ts:99-370 | every reclaim, select, claim, fetch and mark keeps that |
| Outbox.TerminalRowsAreFrozen | apps/api/src/notifications/notification-outbox.worker.ts:281-370 | sent, skipped and failed rows never change again |
| Outbox.ExpiredWorkerIsPowerless | apps/api/src/notifications/notification-outbox.worker.ts:281-370 | a worker that lost its lock never regains it and its marks change nothing |
| Outbox.OnlyTheHolderMoves | apps/api/src/notifications/notification-outbox.worker.ts:109-119 | a row in delivery is moved only by its holder or by a reclaim after the lock ran out |
| Outbox.MovesLowerTheRank | apps/api/src/notifications/notification-outbox.worker.ts:329-370 | every move but an expiry lowers a measure that is zero exactly for finished rows |
| Outbox.MovesAreBounded | apps/api/src/notifications/notification-outbox.worker.ts:329-370 | a row makes at most its rank plus one move per expiry |
| Outbox.NoRowIsStuck | apps/api/src/notifications/notification-outbox.worker.ts:99-204 | from every reachable state an unfinished row can still be sent |
| Outbox.BackoffGrowsToAnHour | apps/api/src/notifications/notification-outbox.worker.ts:372-378 | the backoff never shrinks with attempts and never exceeds an hour |
| Outbox.BackoffDoubles | apps/api/src/notifications/notification-outbox.worker.ts:372-378 | the backoff starts at the base, doubles with every attempt and stops at an hour |
| Outbox.MarkAnswers | apps/api/src/notifications/notification-outbox.worker.ts:281-370 | the holder's report puts the row back exactly on a retryable error below the limit, fails it on any other error, skips it for want of a target and sends it on a delivery; a row put back is not due before the base delay is over |
| Outbox.EndsAreExplained | apps/api/src/notifications/notification-outbox.worker.ts:281-370 | over every run a row is sent only on a delivery, skipped only for want of a target and failed only on a permanent error or at the limit, reported by the drain that held it |
| Outbox.OtherStepsAnswer | apps/api/src/notifications/notification-outbox.worker.ts:99-151 | a new row is due at once, a row is released exactly when its lock is too old, a candidate is taken exactly when it waits unlocked, counting one attempt |
| Outbox.DrainsAnswer | apps/api/src/notifications/notification-outbox.worker.ts:121-159 | a drain starts with rows that are waiting and due, and fetches exactly what it holds |
| Outbox.OnlyReportsReschedule | apps/api/src/notifications/notification-outbox.worker.ts:345-363 | only a report on a row moves its next attempt |
| Outbox.StaleClaimIgnoresBackoff | apps/api/src/notifications/notification-outbox.worker.ts:121-151 | a run in which a second worker takes a failed row before its backoff is over |
| OutboxWorker.TryPush | apps/api/src/notifications/notification-outbox.worker.ts:206-254 | the first fatal answer decides; otherwise any accepted push is a success; otherwise the first transient error; the retired endpoints |
| OutboxWorker.MessagesInOrder | apps/api/src/notifications/notification-outbox.worker.ts:206-254 | accepted messages are kept in the order of the answers |
| OutboxWorker.CodesInOrder | apps/api/src/notifications/notification-outbox.worker.ts:206-254 | so are the codes of transient errors |
| OutboxWorker.Deliver | apps/api/src/notifications/notification-outbox.worker.ts:161-204 | a row is skipped exactly when nobody can be pushed to and SMS is not allowed; SMS is the fallback of exactly those rows, by the state of the phone number; when a push counts; what fails unexpectedly is retried |
| OutboxWorker.OutboxTable.ReclaimExpired | apps/api/src/notifications/notification-outbox.worker.ts:99-119 | rows whose lock has run out, and only those, return to pending; the table invariant is kept |
| OutboxWorker.OutboxTable.SelectCandidates | apps/api/src/notifications/notification-outbox.worker.ts:121-136 | eligible rows are remembered under a fresh lock id and no row changes |
| OutboxWorker.OutboxTable.ClaimCandidates | apps/api/src/notifications/notification-outbox.worker.ts:138-151 | of the candidates exactly those still free are locked, each counting one attempt more; the table invariant is kept |
| OutboxWorker.OutboxTable.FetchClaimed | apps/api/src/notifications/notification-outbox.worker.ts:152-159 | a worker remembers attempts and times of exactly the rows it holds |
| OutboxWorker.OutboxTable.MarkRow | apps/api/src/notifications/notification-outbox.worker.ts:281-370 | a mark moves the row only if the worker still holds it; then back to pending, failed, skipped or sent as the result and the attempts say; the table invariant is kept |
| Chat.NextKeepsInv | apps/api/src/chat/property-chat.service.ts:207-414 | sequences stay 1..last without gaps, client ids unique per sender, cursors within the history and growing |
| Chat.RunsKeepInv | apps/api/src/chat/property-chat.service.ts:207-414 | this over every run, with read marks read and written in separate steps |
| Chat.SendAnswers | apps/api/src/chat/property-chat.service.ts:207-359 | a text is taken exactly from one of the two while the listing is open, unless its identifier stands for another text; what a new one and a repeated one leave, and which error otherwise |
| Chat.ReadAnswers | apps/api/src/chat/property-chat.service.ts:361-414 | reading moves the user's own cursor forward and leaves the other's |
| Chat.ClosedListingsTakeNothing | apps/api/src/chat/property-chat.service.ts:207-230 | over every run the history of a closed listing stands still |
| Chat.RetryReturnsOriginal | apps/api/src/chat/property-chat.service.ts:219-230 | a later retry returns the original and changes nothing; another text under the same id is refused |
| Chat.ReadBackIsPrefix | apps/api/src/chat/property-chat.service.ts:177-205 | following the cursors collects every older message in order |
| Chat.PagingReadsEverythingOnce | apps/api/src/chat/property-chat.service.ts:177-205 | from the newest page on, for every page size, the whole history exactly once |
| Chat.NextPageIffOlderMessages | apps/api/src/chat/property-chat.service.ts:196-204 | a next page is announced exactly when older messages remain |
| Chat.PagesAreStable | apps/api/src/chat/property-chat.service.ts:183-194 | new messages do not disturb the pages still to come |
| Chat.ChatRoom.SendMessage | apps/api/src/chat/property-chat.service.ts:207-359 | the checks in their order, the stored original for a retry, otherwise one message more and the sender's cursor on it; the room invariant is kept |
| Chat.ChatRoom.MarkReadThrough | apps/api/src/chat/property-chat.service.ts:361-414 | the user's cursor becomes the larger of the two, nothing else changes |
| Contracts.SigningIsGated | apps/api/src/contracts/electronic-contract.service.ts:225-265 | a deposit-lease contract is out of DRAFT only if the platform opened signing at an instant a passed recheck covered; history is one chain; signed means document and hash |
| Contracts.NextKeepsInv | apps/api/src/contracts/contract-webhook.service.ts:133-272 | every recheck, signing attempt and webhook keeps these |
| Contracts.StartSigningKeepsInv | apps/api/src/contracts/electronic-contract.service.ts:225-338 | starting to sign, whether the session opens or fails, keeps these |
| Contracts.LateFailureKeepsInvIff | apps/api/src/contracts/electronic-contract.service.ts:318-338 | recording a refused session late keeps these exactly when the status is then still SIGNING_PENDING |
| Contracts.LateFailureUndoesSignature | apps/api/src/contracts/electronic-contract.service.ts:285-338 | a run, then a claimed attempt, a webhook of the earlier session that signs, and the late record that overwrites SIGNED |
| Contracts.LateClaimKeepsInvIff | apps/api/src/contracts/electronic-contract.service.ts:234-265 | a claim made when the recheck's answer has arrived keeps these exactly when some passed recheck has not expired by then |
| Contracts.ClaimAfterExpiry | apps/api/src/contracts/contract-safety-recheck.service.ts:157-164 | a claim behind a recheck that expired as it passed |
| Contracts.LateReportKeepsInvIff | apps/api/src/contracts/contract-webhook.service.ts:138-219 | a webhook's update decided on an older state keeps these exactly when the status is still the one that was read |
| Contracts.LateReportUndoesSignature | apps/api/src/contracts/contract-webhook.service.ts:138-219 | a run in which a refusal decided before a signature is written over it |
| Contracts.ClearedIsCovered | apps/api/src/contracts/contract-safety-recheck.service.ts:91-164 | a recheck that clears, fresh or reused, rests on registry evidence at most 24 hours and checks at most 60 minutes old |
| Contracts.SigningProceedsIff | apps/api/src/contracts/contract-safety-recheck.service.ts:59-164 | a contract is claimed exactly when it is a draft or failed and needs no recheck, or its latest attempt is an unexpired pass, or none is under way and a fresh one passes on evidence in order and of the right age; an older pass behind a newer failure does not count |
| Contracts.RecheckAnswers | apps/api/src/contracts/contract-safety-recheck.service.ts:59-293 | which ruling a recheck gives, when an attempt is made, on what evidence and ages it passes, and until when it is valid |
| Contracts.SigningAnswers | apps/api/src/contracts/electronic-contract.service.ts:267-338 | after the claim the opened session is stored, or the attempt is recorded as failed |
| Contracts.WebhookReopensIff | apps/api/src/contracts/contract-webhook.service.ts:320-343 | a webhook moves a failed contract exactly when it names its session and provider and reports another status, SIGNED only with its document; no recheck is made |
| Contracts.SignedOnExpiredRecheck | apps/api/src/contracts/contract-webhook.service.ts:157-232 | a run in which a deposit lease is signed a year after its only recheck expired |
| Contracts.RunsOnlyAdvance | apps/api/src/contracts/contract-webhook.service.ts:274-343 | history and attempts are append-only, parties only move up, a finished contract never changes |
| Contracts.DeliveredOnce | apps/api/src/contracts/contract-webhook.service.ts:47-75 | a processed or ignored transmission never has a further effect, nor has one whose processing stopped half-way |
| Contracts.SettledIff | apps/api/src/contracts/contract-webhook.service.ts:47-131 | a transmission has no further effect, over every run and whatever is delivered under its id, exactly when it is not marked as failed |
| Contracts.SignatureIsLost | apps/api/src/contracts/contract-webhook.service.ts:47-131 | a run in which the processing of a signature stops half-way and its redelivery has no effect |
| Contracts.SignedPartiesIff | apps/api/src/contracts/contract-webhook.service.ts:280-287 | a signed webhook without a party list signs both parties exactly when neither had declined |
| Contracts.WebhookAnswers | apps/api/src/contracts/contract-webhook.service.ts:133-232 | a webhook moves a contract exactly when it names its session and provider, the contract is open or failed and the status new, and SIGNED comes with document and hash; status, history, document, hash and parties are then as reported |
| Contracts.TransmissionAnswers | apps/api/src/contracts/contract-webhook.service.ts:47-131 | a transmission is processed and recorded exactly when it is new, or was marked as failed and comes with its own body |
| Contracts.PartiesEnd | apps/api/src/contracts/contract-webhook.service.ts:274-318 | a party that has decided stays; otherwise the first reported decision stands; otherwise it has viewed once that is reported |
| Contracts.ChangesAreReported | apps/api/src/contracts/contract-webhook.service.ts:274-318 | a party whose status changed has a status that was reported for its role |
| Contracts.PartiesDidAsReported | apps/api/src/contracts/contract-webhook.service.ts:274-318 | over every run a party has signed, declined or viewed only if a processed webhook said so of its role |
| Contracts.LowerKeepsHex | apps/api/src/contracts/contract-webhook.service.ts:211 | lower-casing a hash of 64 hexadecimal digits keeps every digit and leaves no capital |
| Contracts.ContractService.RunRecheck | apps/api/src/contracts/contract-safety-recheck.service.ts:59-293 | which ruling a recheck gets, reused, refused or fresh, and that at most one attempt is added; the contract invariant is kept |
| Contracts.ContractService.Sign | apps/api/src/contracts/electronic-contract.service.ts:225-338 | signing opens only behind a clearing recheck, and ends in a session or in FAILED, with every move in the history; the contract invariant is kept |
| Contracts.ContractService.UpdateParties | apps/api/src/contracts/contract-webhook.service.ts:274-318 | the loop over the reported parties leaves each as it had decided, as the first reported decision says, or viewed |
| Contracts.ContractService.Receive | apps/api/src/contracts/contract-webhook.service.ts:47-131 | a transmission in progress, finished or with another body is refused; otherwise it is recorded and processed to its verdict; the contract invariant is kept |
| Sessions.ReachableSessions | apps/api/src/auth/auth.service.ts:164-258 | in every interleaving a session has at most one live token, and no token is exchanged twice or live after its exchange |
| Sessions.RefreshAnswers | apps/api/src/auth/auth.service.ts:164-214 | a refresh gets under way exactly for a known, unrevoked, unexpired and unused token of such a session, with its secret and for a user who is not blocked; reuse and a block revoke the session, anything else changes nothing |
| Sessions.FlightsWereAskedFor | apps/api/src/auth/auth.service.ts:164-214 | over every run no refresh is under way that did not pass these checks |
| Sessions.ExchangeAnswers | apps/api/src/auth/auth.service.ts:226-258 | an exchange takes place exactly while the token is live, and yields one new token of the same session |
| Sessions.AccountStepsAnswer | apps/api/src/auth/auth.service.ts:266-346 | what log-in, log-out and password reset do to sessions and tokens, and to no others |
| Sessions.CommitKeepsInv | apps/api/src/auth/auth.service.ts:226-258 | a commit, however late, keeps that |
| Sessions.RevocationKills | apps/api/src/auth/auth.service.ts:266-288 | log-out and reuse of an exchanged token revoke every token of the session |
| Sessions.DeadSessionsStayDead | apps/api/src/auth/auth.service.ts:226-258 | no later commit gives such a session a live token |
| Sessions.AtMostOneTokenAfterRevocation | apps/api/src/auth/verification.service.ts:178-184 | however a session was revoked, at most one more token is issued for it, and only by a refresh already under way |
| Sessions.ResetLeavesTokenIff | apps/api/src/auth/verification.service.ts:168-184 | after a reset a session of the user has no live token in any continuation exactly when it had none before |
| Sessions.RevokedSessionsStayClosed | apps/api/src/auth/auth.service.ts:164-214 | over every run a revoked session stays revoked and no refresh of its tokens that begins from then on has an effect |
| Sessions.ResetCanLeaveToken | apps/api/src/auth/verification.service.ts:168-184 | a run in which a log-in and a reset leave a live token in a revoked session |
| Sessions.ResetCanIssueToken | apps/api/src/auth/verification.service.ts:178-184 | a run in which a refresh under way issues a token after the reset |
| Sessions.SessionStore.CreateSession | apps/api/src/auth/auth.service.ts:308-346 | a new session gets its first token and no other changes; the one-live-token invariant is kept |
| Sessions.SessionStore.Revoke | apps/api/src/auth/auth.service.ts:385-397 | the session and all its tokens are revoked and no other; the invariant is kept |
| Sessions.SessionStore.StartRefresh | apps/api/src/auth/auth.service.ts:164-214 | an expired or revoked token is refused, a used one revokes its session, a wrong secret is refused, a blocked user loses the session, in that order; otherwise the refresh is under way |
| Sessions.SessionStore.FinishRefresh | apps/api/src/auth/auth.service.ts:226-258 | the token is exchanged for the next one exactly when it is still live; the invariant is kept |
| Sessions.SessionStore.LogoutSession | apps/api/src/auth/auth.service.ts:266-288 | the user's session and its tokens are revoked; the invariant is kept |
| Listings.ReachableListings | apps/api/src/properties/properties.service.ts:503-514 | a created listing under review, public or retired shows a public image; the search filter is exactly ACTIVE; a finished deal is not active; review never meets the ownership conflict |
| Listings.NextKeepsInv | apps/api/src/properties/properties.service.ts:143-687 | update, submission, review, deal change, deactivation, upload and deletion keep these |
| Listings.CreatedInv | apps/api/src/properties/properties.service.ts:781-814 | a created listing satisfies them and has ownership evidence exactly when it brought some |
| Listings.CreationAnswers | apps/api/src/properties/properties.service.ts:781-814 | a listing is created exactly by somebody entitled, with at most 20 images and 3 videos, 10 and 1 of them public, and with declared evidence if it is direct and none otherwise |
| Listings.UpdateAnswers | apps/api/src/properties/properties.service.ts:143-259 | when an update is taken and what it leaves |
| Listings.ReviewStepsAnswer | apps/api/src/properties/properties.service.ts:261-329 | when a submission goes under review, and what approval, refusal and a report do to listing and ownership |
| Listings.DealAnswers | apps/api/src/properties/properties.service.ts:408-460 | the deal of an active listing moves to any other status until it is completed or withdrawn |
| Listings.UploadAnswers | apps/api/src/properties/media-processing.service.ts:69-202 | an upload is taken exactly while media may be changed and there is room beside the queue |
| Listings.ProcessAnswers | apps/api/src/properties/media-processing.service.ts:262-424 | what each way an attempt at processing ends does to the upload and the media |
| Listings.DeletionAnswers | apps/api/src/properties/media-processing.service.ts:524-623 | a media item is removed exactly while media may be changed, except the only public image of an active listing |
| Listings.PublishedByReview | apps/api/src/properties/properties.service.ts:628-687 | over every run a listing becomes public only by an approving review |
| Listings.DeleteKeepsPicture | apps/api/src/properties/media-processing.service.ts:593-612 | deleting from an active listing never removes its last public image |
| Listings.InactiveIsFinal | apps/api/src/properties/properties.service.ts:427-439 | an inactive listing never comes back and keeps its deal and ownership |
| Listings.RefusedStaysOut | apps/api/src/properties/properties.service.ts:279-286 | after refused evidence a direct listing stays out of review and search until an update brings new evidence |
| Listings.LateSubmissionKeepsInvIff | apps/api/src/properties/properties.service.ts:262-310 | when a submission written after a stale check is harmless |
| Listings.LateSubmissionLacksPicture | apps/api/src/properties/properties.service.ts:262-310 | a run in which a submission written late puts a listing without picture under review |
| Listings.LateUpdateKeepsInvIff | apps/api/src/properties/properties.service.ts:146-208 | when an update written after a stale check is harmless |
| Listings.LateUpdateRepublishes | apps/api/src/properties/properties.service.ts:146-208 | a run: the update passes its check on a created draft, the listing is approved and withdrawn, the update is written, and after another approval the withdrawn listing is in the search |
| Listings.MediaStaysBounded | apps/api/src/properties/media-processing.service.ts:765-808 | without updates, ready and queued media stay within their limits; with updates, within twice the limits |
| Listings.ProcessLoad | apps/api/src/properties/media-processing.service.ts:262-424 | processing takes exactly the place the upload had claimed |
| Listings.UpdateKeepsLimitsIff | apps/api/src/properties/properties.service.ts:210-220 | after an update the limits hold through any later requests, processing and deletions exactly when the update would have passed a check that counts the queue |
| Listings.TwoPublicVideos | apps/api/src/properties/properties.service.ts:210-220 | a run that leaves two public videos |
| Listings.ListingService.Edit | apps/api/src/properties/properties.service.ts:143-259 | an allowed update returns the listing to draft with the new media and, if given, unreviewed evidence; anything else changes nothing; the listing invariant is kept |
| Listings.ListingService.SubmitForReview | apps/api/src/properties/properties.service.ts:261-329 | a draft with a public picture and, if direct, unreviewed evidence goes under review, nothing else does; the invariant is kept |
| Listings.ListingService.Decide | apps/api/src/properties/properties.service.ts:628-687 | a review moves listing and ownership together and never meets the ownership conflict; the invariant is kept |
| Listings.ListingService.UpdateDealStatus | apps/api/src/properties/properties.service.ts:408-460 | an active listing takes an allowed deal status and leaves publication when the deal is over; the invariant is kept |
| Listings.ListingService.DeactivateReported | apps/api/src/properties/property-reports.service.ts:197-205 | an active listing is retired, any other is left alone; the invariant is kept |
| Listings.ListingService.Request | apps/api/src/properties/media-processing.service.ts:69-202 | an upload is queued only on an editable listing with room, and recorded as failed when the queue cannot be reached; the invariant is kept |
| Listings.ListingService.ProcessQueued | apps/api/src/properties/media-processing.service.ts:262-424 | an upload becomes one media item exactly once, or is queued again, or fails; the invariant is kept |
| Listings.ListingService.Delete | apps/api/src/properties/media-processing.service.ts:524-623 | a media item is deleted on an editable listing unless it is the last public picture of an active one; the invariant is kept |
| RecentViews.StoreIsNewest | apps/api/src/properties/property-browsing.service.ts:15-31 | over any run of views and purges the trimmed table is exactly the limit newest keys of the full history |
| RecentViews.StoreSize | apps/api/src/properties/property-browsing.service.ts:93-96 | it holds as many rows as the history, up to the limit |
| RecentViews.TablesStayBounded | apps/api/src/properties/property-browsing.service.ts:15-96 | a hundred views and fifty searches are kept, exactly so many once there are as many and nothing was cleared |
| RecentViews.PurgeKeepsNinetyDays | apps/api/src/properties/property-browsing.service.ts:85-91 | a purge drops exactly the rows older than ninety days |
| RecentViews.FullIsLastView | apps/api/src/properties/property-browsing.service.ts:21-27 | the full history maps a key to the time of its last view that no clearing or purge removed |
| RecentViews.RecordAfterTrim | apps/api/src/properties/property-browsing.service.ts:22-29 | trimming before recording the newest view makes no difference |
| RecentViews.PurgeCommutesWithTrim | apps/api/src/properties/property-browsing.service.ts:85-96 | the ninety-day purge and the trim commute |
| RecentViews.StoreIsAlwaysTheTop | apps/api/src/properties/property-browsing.service.ts:44-47 | with the user's deletions the table still holds the newest surviving rows, at most limit of them |
| RecentViews.TopIsNewest | apps/api/src/properties/property-browsing.service.ts:93-96 | such a table is the newest rows of the history, as many as it holds |
| RecentViews.ClearKeepsNewestIff | apps/api/src/properties/property-browsing.service.ts:44-47 | deleting a key keeps the table the limit newest exactly when it was not shown or nothing had been trimmed |
| RecentViews.StoreAfterClearIff | apps/api/src/properties/property-browsing.service.ts:44-47 | after any run of views and purges, deleting a key leaves the limit newest keys of the history exactly under that condition |
| RecentViews.DeletionLeavesGap | apps/api/src/properties/property-browsing.service.ts:44-47 | for every limit a run of views and one deletion after which the table holds one row fewer than the limit although the history holds that many |
| RecentViews.Trim | apps/api/src/properties/property-browsing.service.ts:93-96 | sort newest first, skip, delete: exactly limit rows remain, none older than a row deleted, also among equal times; with distinct times they are the rows with fewer than limit newer ones |
| RecentViews.PropertyBrowsing.RecordView | apps/api/src/properties/property-browsing.service.ts:15-31 | a view of a listing that is not public changes nothing; otherwise its row is the newest and the table trimmed, and the table remains what its whole log leaves |
| RecentViews.PropertyBrowsing.RecordSearch | apps/api/src/properties/property-browsing.service.ts:49-63 | the same for searches, by signature and limit 50 |
| RecentViews.PropertyBrowsing.PurgeOld | apps/api/src/properties/property-browsing.service.ts:85-91 | both tables lose exactly the rows older than ninety days and remain what their logs leave |
| RecentViews.PropertyBrowsing.ClearViews | apps/api/src/properties/property-browsing.service.ts:44-47 | the user's deletion removes one key or all, counts them, and leaves what the log leaves |

## Left out

- Audit-log rows, notification payloads and templates, presentation of rows, listing by page number: they follow the
  operations and constrain nothing.
- HTTP controllers, input validation by annotation, guards and roles; whether a broker or a phone is verified is a parameter.
- Network clients (payment, push, SMS, maps, signature and safety providers, object storage) and cryptography: their
  answers are parameters of the steps.
- Reservations: the several reads of one check are one step; the status COMPLETED is never set by the service, so no step sets it.
- Reservations.ReservationService.Cancel: does not queue the refund; `Cancellation.CancelVisit` does both. Nothing links a
  cancelled reservation to a deposit paid later (the code's confirmation never reads the reservation).
- Deposits: preparing is the start state; refund rates other than one are refused when the service is built, so a queued
  refund is the whole amount; a confirmation for another amount or currency is refused before the model starts.
- DepositService.DepositRow.ReconcileReport: does not keep the status of the webhook transmission itself; a repeated
  transmission is just a repeated report.
- Calendar: the range filter, the limit of 500 events, local dates and great-circle travel times are left to the caller.
- RoutePlanner: availability checks on the properties, the deadline flag and rounding for display.
- Outbox: which eligible rows a drain selects, and how many, is arbitrary; so is the number of drains one worker has open.
- Chat: creating rooms and unread counts; sending is one step, since the unique index makes the loser of a race return
  the winner's message.
- Contracts: in runs a signing attempt, a recheck and the handling of one webhook are each one step (their late
  halves are treated separately); retention dates, signing expiry and failure codes are not kept.
- Sessions: passwords, log-in attempts and access tokens; a blocked user and a matching secret are parameters.
- Listings: prices and descriptive fields, price changes, optimistic update stamps (a parameter), stored files and
  thumbnails; processing one upload is one step, as the queue runs one worker per upload.
- RecentViews: reading the lists. Which of several rows of the same millisecond a trim keeps is open; the theorems about
  whole logs are for views at increasing times.
- Lease-safety and feature-policy scoring, currency cache, comparisons, saved searches, broker review, verification codes:
  small branch tables that would only add easy members.
