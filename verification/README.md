# A rescue job's database rows, its payment provider and its reconciler, verified

This project models the part of the roadside-rescue service where money and deadlines meet: the
payment ledger and the three protocols that use it (payouts, refunds, collections), the dispatch of a
request to operators in rounds of offers and two bidding phases, the reconciler checks that hand a
request from one deadline to the next, the arithmetic of fees, deposits, disputes and cancellations,
and account deletion.

Each database transaction is one atomic step. A status write that does not repeat its guard in the
WHERE clause is two: the read leaves the write owed, and the write lands later, whatever has happened
since, or never. The payment provider is an environment: it keeps
transfers by reference and rejects a reused one, keeps refunds by note without deduplicating them, is
truthful about endings, and its network loses, delays and repeats messages. Everything that runs after
a commit (the follow-up of a claimed offer, the search behind an expand, the confirmation of a deposit,
the provider call after a claim) is a separate step that may come late or never.

| file | what it holds |
|---|---|
| Payments.dfy, Ledger.dfy | payment rows, provider-status mappings, references; every ledger statement, the partial unique indexes, runs; the service in place |
| Payout.dfy, Refund.dfy, Collection.dfy | the three submission protocols as state machines over rows, provider and network, with the services' methods proved against the steps |
| VerifyCheck.dfy, Refinement.dfy | the verifier's pass as a loop; each row it handles, exceptions included, as a path of its protocol |
| Polling.dfy, Escalation.dfy | how polling slows; when a row first escalates, with any number of service instances |
| RoundSearch.dfy, Dispatch.dfy, DispatchService.dfy | the radius-expansion loop; every dispatch, selection and assignment transaction; the same in place, and two reconciler passes |
| Auction.dfy | what each of those transactions leaves, row by row; where every price comes from over a whole run |
| Bidding.dfy, Handover.dfy, BiddingRuns.dfy, Activation.dfy | what every transaction keeps; the handovers between checks; the auction over whole runs; payment, activation and the end of a request over whole runs |
| Money.dfy, Settlement.dfy, Ranking.dfy | amounts; refund against cancellation settlement; ranking, and shown against charged |
| Deletion.dfy, Reminders.dfy | account deletion as a mutex; deposit reminders over reopened windows |

Where the code meets a promise only under a condition, that condition is proved exact:

- Handover gaps. Exactly the transactions of `Handover.Drops` leave a request that no check will match
  again; a declined last offer strands it until a person acts.
- `claimPayoutPayment` and the refund path read and then insert. If the two are split, they are safe
  exactly when no payout (refund) of the request succeeded in between.
- A second dispute resolution loses the original balance, and can make a cancellation share negative.
- A failed payout retried after a full refund of the deposit pays out more than the deposit.
- The radius rebuilt for the manual-candidate list is not the last radius searched when the search
  started at round 0, although the comment beside it calls the formula exact.
- An ended request is not ended for good. `confirmDeposit`, `raiseDispute`, the operator's arrival and
  the end of media capture each read a status and later write a live one unconditionally. An ended
  request stays ended exactly unless such a write lands, and such a write has always gone stale. From a
  new request a run leads there: the deposit settles, its confirmation reads WAITING_FOR_DEPOSIT, the
  deposit expiry cancels, the confirmation writes OPERATOR_ASSIGNED.
- The same write breaks account deletion: the mutex holds exactly until a stale live status lands on a
  request of a deleted party, and a run shows a deleted customer with an assigned job.
- A deposit that settles on an ended request can lead to an activation exactly when an end of media had
  been read before and is still to be written.
- A deposit confirmed once is never confirmed again. A job waiting for a deposit can still be activated
  exactly when a confirmation is owed or being written, or no deposit has succeeded yet; reassigning a job
  whose deposit was paid and confirmed leaves the other case, and its second deposit is quarantined.
- `backOff` counts a verification by id alone, and the query that found the row due is another statement.
  A row escalates to a human after 10,620.045 seconds at the earliest (540.009 when it may be unblocked)
  exactly when one instance of the service runs, so that no other verification of the row is open when
  one is begun. With n instances the exact earliest ages are 540.013 seconds for two, 180.004 for three
  to eight and 60.001 for more; and, with unblocking, 300.005 for two, 180.003 for three and four,
  120.002 for five to eight and 60.001 for more.

Two results have one direction and an input that shows the premise is needed: a collection call that
arrives later than the initial verify delay can leave money on a FAILED row, and a reminder claim that
did not name the deadline it was computed from would silence a reopened deposit window.

## Model

| member | source | states |
|---|---|---|
| Payments.MapTransferStatus | src/payment/domain/paystack-status.ts:28-46 | success is the only success; failed, reversed and abandoned are the only dead statuses; a block reason comes exactly with BLOCKED; anything else stays SUBMITTED |
| Payments.MapTransactionStatus | src/payment/domain/paystack-status.ts:55-66 | an abandoned or unknown collection is never failed or succeeded by the mapping |
| Payments.MapRefundStatus | src/payment/domain/paystack-status.ts:73-87 | processed is the only success, failed the only failure, needs-attention the only block |
| Payments.ReferenceRoundTrip | src/payment/payment-ledger.service.ts:139-142 | the webhook's pattern reads back the payment id from its reference, exactly for non-refund payments with a non-empty one-line id |
| Payments.ReferencesAreInjective | src/payment/payment.service.ts:260-266 | two payments never share a reference |
| Ledger.ApplyKeepsConsistent | src/payment/payment-ledger.service.ts:127-250 | one in-flight and one succeeded row per (request, type), block reasons exactly on BLOCKED rows, and a winner behind every duplicate, survive every ledger statement |
| Ledger.TerminalIsFinal | src/payment/payment-ledger.service.ts:203-250 | a terminal row keeps status and block reason under every later statement, no row disappears and none becomes PENDING again |
| Ledger.ConfirmedExactlyOnce | src/payment/payment.service.ts:222-257 | over every run of statements, a (request, type) that succeeds in its course is confirmed exactly once, and one that does not, or had succeeded before, not at all |
| Ledger.RejectionKeepsBlockReasonsIff | src/payment/payment-ledger.service.ts:151-166 | a rejection with a block reason would break the block-reason rule exactly on a SUBMITTED row; the parameter is optional and no caller passes one, so the rule holds |
| Ledger.RefusalMeans | src/payment/payment-ledger.service.ts:44-111 | each refusal has its own cause, told apart in the order of the source: only a payout asks after its operator, everything else after the customer; nothing is refused exactly when there is no cause |
| Ledger.PaymentLedgerService.Create | src/payment/payment-ledger.service.ts:44-111 | refuses in the order the source checks (operator, deletion, assignment, customer, slot) and otherwise inserts exactly one PENDING row |
| Ledger.PaymentLedgerService.ClaimForSubmission | src/payment/payment-ledger.service.ts:127-136 | only a PENDING row is claimed, once, with its verify delay set |
| Ledger.PaymentLedgerService.ResumeBlocked | src/payment/payment-ledger.service.ts:184-196 | only a BLOCKED row is resumed, its reason cleared and its delay restarted |
| Ledger.PaymentLedgerService.SettleTerminal | src/payment/payment-ledger.service.ts:203-308 | exactly one caller wins a settlement; a second success of the slot becomes a quarantined duplicate |
| Ledger.PaymentLedgerService.PostponeVerification | src/payment/payment-ledger.service.ts:416-433 | the next verification is twice the age away, between the delay and the cap, and the counter goes up by one |
| PayoutProtocol.NextKeepsInv | src/payout/payout.service.ts:173-231 | every step of attempts, retries, webhooks, verifier and network keeps: one holding payout per request, and each row's status agreeing with what the provider holds |
| PayoutProtocol.MoneyLeavesAtMostOnce | src/payout/payout.service.ts:288-433 | at no point of any run does the provider hold two transfers of one request that are not dead |
| PayoutProtocol.FreshReferenceOnlyAfterDeath | src/payout/payout.service.ts:173-231 | in every run, whichever step and whoever posts a reference for the first time, every other payout row of the request has a transfer at the provider and that transfer is dead |
| PayoutProtocol.LedgerTellsTheTruth | src/rescue-request/reconciler/checks/payment-verify.check.ts:430-537 | SUCCEEDED rows have completed transfers, FAILED and REVERSED rows dead ones, and a live transfer's row is never written off |
| PayoutProtocol.StaleInsertKeepsInvIff | src/payout/payout.service.ts:173-231 | splitting the read from the insert is harmless exactly when no payout of the request succeeded in between |
| PayoutProtocol.StaleInsertCanPayTwice | src/payout/payout.service.ts:173-231 | in the remaining case the provider may hold two completed transfers |
| PayoutProtocol.StaleInsertIsReached | src/payout/payout.service.ts:173-231 | a run from an empty ledger, where both attempts read that nothing holds the request, reaches that case |
| PayoutProtocol.PayoutService.ClaimPayoutPayment | src/payout/payout.service.ts:173-231 | reuses the in-flight row, resumes a blocked one, refuses after success or while submitted, and otherwise inserts and claims a fresh row |
| PayoutProtocol.PayoutService.BlockPayment | src/payout/payout.service.ts:251-280 | blocks the claimed attempt with the reason, and says whether that reason is new |
| PayoutProtocol.PayoutService.AttemptPayout | src/payout/payout.service.ts:288-372 | posts at most the claimed row; without recipient or balance it only blocks it |
| PayoutProtocol.LatestExists | src/payout/payout.service.ts:94-100 | among the payout rows of a request there is one that follows all others by creation time and then id |
| PayoutProtocol.LatestIsUnique | src/payout/payout.service.ts:94-100 | and only one, so the ordered query has a single answer |
| PayoutProtocol.BelowIsLexicographic | src/payout/payout.service.ts:94-100 | of two ids the one comes first that is a prefix of the other or has the smaller character at the first difference |
| PayoutProtocol.PayoutService.RetryPayout | src/payout/payout.service.ts:80-135 | retried exactly when the row is a payout, the newest of its request, names an operator, no payout of the request has succeeded, and it failed or is blocked for one of the eight reasons for which the provider never created a transfer; a payout waiting for an OTP or for details is left as it was; each refusal has its own cause |
| PayoutProtocol.PayoutService.ApplyTransferResult | src/payout/payout.service.ts:380-433 | the row, field by field, for every status, caller and reply: failed and abandoned end it FAILED, reversed REVERSED, success only for the verifier, a rejection blocks with its reason unless it reports a duplicate |
| PayoutProtocol.RetryableIff | src/payout/domain/payout-retry.ts:7-27 | the rows that may be tried again, listed by status and reason |
| PayoutProtocol.AttemptWrites | src/payout/payout.service.ts:173-231 | an attempt over a payout that holds the request: a pending or blocked one is submitted and may be posted, any other stops it |
| PayoutProtocol.FreshAttemptWrites | src/payout/payout.service.ts:173-231 | an attempt nothing stands in the way of inserts one row with its amount and operator, unless the operator is deleted |
| PayoutProtocol.ReplyAnswers | src/payout/payout.service.ts:380-433 | a reply changes its own row only, and to what the field table says |
| PayoutProtocol.WebhookAnswers | src/payment/payment.service.ts:222-257 | a transfer event ends its own row, blocked or submitted, in the state it reports |
| RefundProtocol.NextKeepsInv | src/rescue-request/rescue-request-admin.service.ts:420-495 | every step of admins, reconcilers, webhook, provider and network keeps the refund invariant |
| RefundProtocol.PostsOnlyOnce | src/rescue-request/rescue-request-admin.service.ts:420-495 | no run posts a refund row twice, whoever the callers are |
| RefundProtocol.RefundedAtMostOnce | src/rescue-request/rescue-request-admin.service.ts:420-495 | at most one provider record per row, and per request at most one that has not failed |
| RefundProtocol.RecoveryAdoptsOwnRecord | src/rescue-request/reconciler/checks/payment-verify.check.ts:545-656 | a row's refund number and its ending come from the record whose note is that row's id |
| RefundProtocol.WebhookFindsOwnRow | src/payment/payment.service.ts:276-293 | the two lookups of a refund event lead to the row the refund was posted for |
| RefundProtocol.StaleInsertKeepsInvIff | src/rescue-request/rescue-request-admin.service.ts:372-411 | a stale eligibility read is harmless exactly when no refund of the request succeeded in between |
| RefundProtocol.RefundDesk.SubmitDepositRefund | src/rescue-request/rescue-request-admin.service.ts:420-495 | commit, claim and call, or nothing when a refund is in flight: a SUBMITTED row of exactly the amount; the invariant is kept exactly when nothing was posted or no refund of the request had succeeded |
| RefundProtocol.RefundDesk.ClaimAndPost | src/rescue-request/reconciler/checks/payment-verify.check.ts:237-263 | only the winner of the claim calls the provider |
| RefundProtocol.RefundDesk.ApplyRefundResult | src/rescue-request/rescue-request-admin.service.ts:420-495 | the row, field by field, for every status, caller and reply: a rejection and failed end it FAILED, processed SUCCEEDED for the verifier only, needs-attention blocks it |
| RefundProtocol.ReplyAnswers | src/rescue-request/reconciler/checks/payment-verify.check.ts:620-656 | a reply changes its own row only, and to what the field table says |
| RefundProtocol.RejectionFreesTheSlot | src/rescue-request/rescue-request-admin.service.ts:420-495 | after a rejection no refund of the request is in flight or succeeded, so another can be tried |
| RefundProtocol.WebhookAnswers | src/payment/payment.service.ts:222-293 | a refund event ends the row its note names: processed as SUCCEEDED, failed as FAILED |
| CollectionProtocol.NoPayableLinkWrittenOff | src/rescue-request/reconciler/checks/payment-verify.check.ts:295-400 | on a timely network, a FAILED row holding a link was failed by the provider, and no money is ever on a FAILED row |
| CollectionProtocol.PaidMoneyIsBooked | src/payment/payment.service.ts:222-257 | at every point of every run on a timely network, the webhook of a paid transaction settles its row as the success of the request, or as a duplicate beside one, or finds it settled; never as a failure |
| CollectionProtocol.LateCallLosesMoney | src/payment/payment.constants.ts:33 | without timeliness, from any submitted row a run ends with the customer's money on a FAILED row |
| VerifyCheck.ProcessHandles | src/rescue-request/reconciler/checks/payment-verify.check.ts:95-286 | a processed row is ended, blocked or rescheduled, never due again at the same instant, with every ledger rule intact |
| VerifyCheck.PassLeavesNothingDue | src/rescue-request/reconciler/checks/payment-verify.check.ts:63-91 | after a whole pass a listed row is still due exactly when an exception left it unwritten, and no other row has moved |
| VerifyCheck.PassLogsHonestly | src/rescue-request/reconciler/checks/payment-verify.check.ts:63-91 | a pass posts refunds only for rows that were PENDING, and confirms only rows it turned SUCCEEDED |
| VerifyCheck.PassLogsWhatIsOwed | src/rescue-request/reconciler/checks/payment-verify.check.ts:95-400 | over a whole pass each action that is owed is logged exactly once and nothing else is: a collection or payout that has just succeeded is passed on, a PENDING row is posted or escalated, an unknown payout is posted again until the limit, fresh links are sent; a row's own exception cuts only its own actions short |
| VerifyCheck.PassWritesEachRow | src/rescue-request/reconciler/checks/payment-verify.check.ts:95-656 | over a whole pass every listed row becomes, field by field, what the answers about it call for, whatever the order of the rows |
| VerifyCheck.PaymentVerifyCheck.Run | src/rescue-request/reconciler/checks/payment-verify.check.ts:63-91 | the loop over at most 100 due rows: every row becomes what its answers call for, every owed action is logged once and no other, rows not listed stand; it counts the rows that did not throw, and a row that throws holds up no other |
| VerifierRefinement.PayoutRowRefines | src/rescue-request/reconciler/checks/payment-verify.check.ts:430-537 | whatever the provider answers and wherever an exception stops it, what the verifier does to a due payout is a path of payout protocol steps, so the protocol's invariant holds after it; each transfer it posts is a post of the protocol |
| VerifierRefinement.RefundRowRefines | src/rescue-request/reconciler/checks/payment-verify.check.ts:545-656 | the same of a due refund and the refund protocol |
| VerifierRefinement.CollectionRowRefines | src/rescue-request/reconciler/checks/payment-verify.check.ts:295-400 | the same of a due deposit or balance and the collection protocol, on any network |
| Polling.GapBounds | src/payment/payment-ledger.service.ts:416-433 | every gap lies between two minutes and half an hour |
| Polling.AgesTriple | src/payment/payment-ledger.service.ts:416-433 | the age at which a row is due triples until the cap, then grows by the cap |
| Escalation.EventIsMove | src/payment/payment-ledger.service.ts:416-433 | whatever ledger statement, query or back-off comes, the schedule of the row moves only as its own submission, unblocking and counted verifications say |
| Escalation.NeverEscalatesSooner | src/rescue-request/reconciler/checks/payment-verify.check.ts:446-450 | over every run with n instances whose queries, re-reads and back-offs interleave at will, with passes as stale as they like, no row escalates sooner after its creation than the age stated for n, unblocked or not |
| Escalation.EarliestIsAttained | src/payment/payment-ledger.service.ts:184-196 | for every n, and with or without unblocking, a run from any fresh row escalates at exactly that age |
| Escalation.LoneBoundHoldsIff | src/rescue-request/reconciler/reconciler.service.ts:46-48 | the bounds of 10,620.045 and 540.009 seconds hold of every run exactly when at most one instance runs |
| RoundSearch.PrepareNextRound | src/rescue-request/dispatch.service.ts:637-725 | the loop ends for every cap and reports the first attempt with any candidate, no coverage at once, or the cap after the last attempt, never an empty round |
| RoundSearch.AnswersIsFunctional | src/rescue-request/dispatch.service.ts:637-725 | that description determines the answer |
| RoundSearch.RebuiltRadiusExactIff | src/rescue-request/rescue-request-admin.service.ts:1057-1058 | on rounds-exhausted the rebuilt radius is the last one searched exactly when the search started at round 1 or later, or the cap allows one attempt |
| Bidding.NextKeepsInv | src/rescue-request/dispatch.service.ts:262-1583 | every modelled transaction by anyone, however stale the read behind a status write, keeps: rounds bound offers, deadlines bound pending offers, closing freezes, whoever was asked is on record, a deposit window is set, activation and all that follows it is paid |
| Bidding.FreshStepKeepsBacked | src/rescue-request/dispatch.service.ts:414-453 | while no status write lands stale, every transaction keeps each shortlist backed by a quote |
| Bidding.ResolverFindsBiddingOpen | src/rescue-request/reconciler/checks/batch-resolve.check.ts:91-98 | a batch whose round and null deadline still match finds bidding not yet closed, so neither check stamps twice |
| Bidding.SelectTakesExactlyOne | src/rescue-request/whatsapp-customer-flow.service.ts:1385-1451 | a selection takes exactly the chosen offer, leaves none pending or quoted, and writes its operator, its deposit row and a 30-minute window |
| Handover.HandoverKeptIff | src/rescue-request/reconciler/checks/batch-resolve.check.ts:76-203 | every transaction keeps a request held by a deadline, a live offer or staff, except exactly the listed ones |
| Handover.DeclineStrands | src/rescue-request/dispatch.service.ts:1326-1380 | declining the last live offer leaves the request stranded, before and after the early-resolve follow-up |
| BiddingRuns.StrandedIsReachable | src/rescue-request/dispatch.service.ts:1326-1380 | a run of four steps from a new request ends stranded: media, one operator asked, a decline, its follow-up |
| Handover.QuoteFollowUpRestores | src/rescue-request/dispatch.service.ts:373-453 | a quote on the last live offer is picked up again by its own follow-up |
| Handover.OnlyPeopleRescue | src/rescue-request/reconciler/checks/batch-resolve.check.ts:27-36 | however long the system runs on its own, a stranded request stays dispatching |
| Handover.WitnessMeansWork | src/rescue-request/reconciler/checks/quote-selection-timeout.check.ts:29-37 | a held request matches some check's query from a finite time on, unless staff own it |
| Handover.DueWorkActs | src/rescue-request/reconciler/checks/batch-resolve.check.ts:27-36 | as soon as something is due, some check has an act that its claim lets through |
| Handover.DueStepLowersRank | src/rescue-request/reconciler/checks/bidding-close.check.ts:59-98 | every act of a check on a due request, flagged for staff or not, strictly lowers a rank bounded by the operators not yet asked |
| BiddingRuns.UndroppedIsHeld | src/rescue-request/dispatch.service.ts:1215-1309 | over whole runs without a dropping transaction, a request is always held |
| BiddingRuns.ReconcilerFinishes | src/rescue-request/reconciler/checks/batch-resolve.check.ts:76-203 | left to the reconciler, a request needs at most 3 plus the unasked operators acts |
| BiddingRuns.RunTightens | src/rescue-request/dispatch.service.ts:414-453 | over every run no round is undone, no offer extended or reopened, no collection deadline moved later; after closing the stamp stands, nothing is pending and no quote appears |
| BiddingRuns.BiddingClosesOnce | src/rescue-request/reconciler/checks/bidding-close.check.ts:59-81 | bidding is closed at most once in the life of a request, across both checks |
| BiddingRuns.BatchesKeepOneRound | src/rescue-request/dispatch.service.ts:868-957 | the round a batch is resolved under is the round of each of its offers |
| BiddingRuns.RoundAsksOnlyFresh | src/rescue-request/dispatch.service.ts:600-726 | an automatic round asks at least one operator, records everyone it asks, and asks nobody who is on record or holds any asked offer, whatever became of it |
| BiddingRuns.NobodyIsAskedAgain | src/rescue-request/dispatch.service.ts:600-726 | in every run, whoever a round or staff ask at one step is not among those a round asks at any later step |
| BiddingRuns.RoundsAreBounded | src/rescue-request/dispatch.service.ts:600-726 | a request has at most as many automatic rounds as operators not yet asked |
| Activation.PaidBeforeActivated | src/rescue-request/payment-events.service.ts:63-242 | in every run of a new request, OPERATOR_ASSIGNED and ACCEPTED come only from a confirmation and only after the deposit succeeded |
| Activation.LateDepositNeverRevives | src/rescue-request/payment-events.service.ts:69-76 | in every run of a new request, a deposit that settles after the end leads to no OPERATOR_ASSIGNED, no ACCEPTED offer and no live status at any later step, and stays paid, as long as no write revives the request |
| Activation.LateDepositActivatesIff | src/rescue-request/payment-events.service.ts:63-158 | after such a settlement some continuation activates the job exactly when an end of media has been read and not yet written |
| Activation.LateDepositIsReached | src/rescue-request/whatsapp-customer-flow.service.ts:1097-1100 | a run from a new request reaches that case |
| Activation.ReassigningAPaidJobSpendsIt | src/rescue-request/rescue-request-admin.service.ts:134-265 | assigning a job whose deposit succeeded and is confirmed leaves it waiting for a deposit with nothing that could activate it |
| Activation.ReassignmentIsReached | src/rescue-request/rescue-request-admin.service.ts:134-265 | a run from a new request, assigned, paid and activated, reaches that input |
| Activation.ReassignedJobActivatesIff | src/rescue-request/rescue-request-admin.service.ts:134-265 | a job waiting for a deposit with an operator can be activated by some run exactly when a confirmation is owed or being written, or no deposit has succeeded |
| Activation.EndedStaysEndedIff | src/rescue-request/payment-events.service.ts:63-158 | every step keeps an ended request ended exactly unless a confirmation, an arrival, a dispute that finds none open or an end of media writes a live status it decided on earlier |
| Activation.EveryRevivalIsStale | src/rescue-request/dispute.service.ts:50-116 | in every run of a new request, what the caller of such a write had read is no longer so when it lands |
| Activation.FreshRunsNeverRevive | src/rescue-request/whatsapp-customer-flow.service.ts:301-311 | over every run in which no write lands stale, no ended request revives |
| Activation.EndedForGood | src/rescue-request/payment-events.service.ts:63-158 | and over every run in which none does, an ended request stays ended |
| Activation.ExpiryRacesConfirmation | src/rescue-request/reconciler/checks/deposit-expiry.check.ts:59-106 | from every request whose deposit settled and whose window ran out, the expiry between the read and the write of the confirmation cancels and is then overwritten |
| Activation.EndedRequestIsRevived | src/rescue-request/payment-events.service.ts:155-158 | a run from a new request in which a cancelled request becomes OPERATOR_ASSIGNED |
| Activation.RestWithoutLock | src/payment/payment-ledger.service.ts:73-98 | without the customer's row lock nothing puts a deposit, balance or refund in flight |
| Auction.AnswerWrites | src/rescue-request/dispatch.service.ts:287-371 | what an operator's answer leaves of the offer, of the others and of the follow-ups, for every offer, price and time |
| Auction.FollowUpWrites | src/rescue-request/dispatch.service.ts:373-453 | the first quote sets the deadline and cuts pending offers to it; the collection, or before any quote the batch, ends at once when nobody is left to wait for; nothing but deadlines moves |
| Auction.RoundWrites | src/rescue-request/dispatch.service.ts:600-957 | every offer, the record of who was asked and the outcome after a round's search |
| Auction.StartWrites | src/rescue-request/dispatch.service.ts:1215-1272 | dispatch opens no round on a request that has moved on, has a quote or is past its collection, and otherwise exactly one |
| Auction.ResolvingWrites | src/rescue-request/reconciler/checks/batch-resolve.check.ts:76-168 | every offer and the request after a batch is resolved |
| Auction.ClosingWrites | src/rescue-request/reconciler/checks/bidding-close.check.ts:44-75 | a collection past its end is stamped closed, the motorist gets five minutes and every pending offer times out |
| Auction.WindowsWrite | src/rescue-request/reconciler/checks/quote-selection-timeout.check.ts:47-94 | an unanswered shortlist and an unpaid deposit cancel the request, each strictly after its own window and with its own offers |
| Auction.SweepingWrites | src/rescue-request/reconciler/checks/offer-sweep.check.ts:37-67 | exactly the pending offers of a request that is not dispatching, expired or of an ended one, time out |
| Auction.ManualOfferWrites | src/rescue-request/dispatch.service.ts:1471-1583 | staff's offer is made exactly while bidding is open and the operator has neither a live offer nor a quote, until five minutes or the collection's end |
| Auction.SelectingWrites | src/rescue-request/whatsapp-customer-flow.service.ts:1385-1451 | every offer, the request and the one new deposit row after the motorist's choice, or nothing at all |
| Auction.AssigningWrites | src/rescue-request/rescue-request-admin.service.ts:134-265 | the new offer, the request and the one new deposit row after an assignment by staff, or nothing at all |
| Auction.ConfirmingWrites | src/rescue-request/payment-events.service.ts:63-158 | a statement owes a confirmation exactly when it makes a deposit of the request succeed; the confirmation activates, refuses a job without an operator, or does nothing |
| Auction.LandingWrites | src/rescue-request/payment-events.service.ts:155-242 | each status write as it lands; awarding accepts exactly the assigned operator's selected offers |
| Auction.AskingReads | src/rescue-request/whatsapp-customer-flow.service.ts:403-413 | what each write's caller must have read: no withdrawal of a job that is under way, no arrival, dispute or completion of one that was never activated |
| Auction.PaymentActivates | src/rescue-request/payment-events.service.ts:63-242 | a request waiting with an operator whose deposit succeeds is, with nothing in between, activated with its chosen offer accepted, and owes nothing more |
| Auction.PriceIsTheOperators | src/rescue-request/dispatch.service.ts:326-333 | in every run of a new request, an offer on the shortlist has the price its own operator answered with in time; a chosen or accepted one that price or the one it was assigned at |
| DispatchService.RescueRequest.ProcessQuoteOrDecline | src/rescue-request/dispatch.service.ts:262-385 | in place, claim and follow-up leave what the two transactions would; quoted exactly when the claim matched |
| DispatchService.RescueRequest.ClaimOffer | src/rescue-request/dispatch.service.ts:287-371 | a timely quote becomes QUOTED at exactly its price, a decline DECLINED without one, a late quote NOT_SELECTED with its price and no follow-up owed; every other offer and every deadline stands |
| DispatchService.RescueRequest.BeginQuoteCollectionIfFirst | src/rescue-request/dispatch.service.ts:414-453 | only the first quote sets the deadline, and pending offers are only shortened to it |
| DispatchService.RescueRequest.MaybeResolveBatchEarly | src/rescue-request/dispatch.service.ts:1326-1380 | pulls the deadline or the batch's expiry forward exactly when nothing is left pending |
| DispatchService.RescueRequest.OpenNextRound | src/rescue-request/dispatch.service.ts:600-957 | the first candidates found are asked until the window or the collection ends; with none the request goes to staff if there is a backup and is cancelled if not |
| DispatchService.RescueRequest.Start | src/rescue-request/dispatch.service.ts:1215-1272 | opens dispatch only when no quote exists, bidding is open and the request is not past it |
| DispatchService.RescueRequest.ResolveExpired | src/rescue-request/reconciler/checks/batch-resolve.check.ts:76-168 | the expired offers time out; a batch that owns the round moves the request to its shortlist or to the next round; any other batch changes nothing more |
| DispatchService.GroupByBatch | src/rescue-request/reconciler/checks/batch-resolve.check.ts:44-57 | each group holds exactly its batch's expired offers and the round of its first row; no batch is missing |
| DispatchService.BiddingCloseCheck.Run | src/rescue-request/reconciler/checks/bidding-close.check.ts:25-42 | each listed request still due is closed and counted once, even when listed twice; nothing else changes |
| Money.SplitAddsUp | src/rescue-request/whatsapp-customer-flow.service.ts:1361-1383 | deposit plus balance is quote plus fee, and the undisputed operator receives the quote |
| Money.SplitIsNearest | src/rescue-request/whatsapp-customer-flow.service.ts:1361-1383 | the fee and the deposit are their percentages to the nearest kobo, or the deposit is the provider's minimum above that |
| Money.DepositInRangeIff | src/rescue-request/domain/compute-deposit-amount.ts:17-29 | a deposit is never below the minimum and within the total exactly when the total reaches the minimum |
| Money.BalanceNonNegativeIff | src/rescue-request/whatsapp-customer-flow.service.ts:1383 | the balance is non-negative exactly then |
| Money.OneDisputeKeepsTheBooks | src/rescue-request/dispute.service.ts:301-314 | after one resolution the balance is its percentage to the nearest kobo, the payout is the quote minus the reduction, settlement total and accepted quote are still recovered, and the displayed total falls by the reduction |
| Money.OriginalRecoveredIff | src/rescue-request/rescue-request-admin.service.ts:1355-1381 | after any number of resolutions the originals are recovered exactly when all but the last left the balance unchanged |
| Money.SecondDisputeLosesTheQuote | src/rescue-request/dispute.service.ts:307-315 | two halvings of one balance make a quote read back lower |
| Deletion.DisputeEndsIff | src/rescue-request/dispute.service.ts:271-314 | a dispute ends exactly by being resolved while the balance is unpaid |
| Deletion.PaidDisputeStaysOpen | src/rescue-request/dispute.service.ts:280-299 | once the balance is paid, no step of any run resolves a dispute, so it is never asked for twice |
| Money.EveryKoboSettledIff | src/rescue-request/domain/compute-cancellation-settlement.ts:32-50 | the three shares always sum to the deposit, and are non-negative exactly when the fee share fits into it |
| Money.SharesAreNearest | src/rescue-request/domain/compute-cancellation-settlement.ts:38-49 | the fee share is proportional to the deposit and the refund to what is left, each to the nearest kobo |
| Money.SplitFollowsThePercent | src/rescue-request/domain/compute-cancellation-settlement.ts:44-49 | refund grows and payout falls with the percentage; 0 and 100 give one side nothing |
| Money.SelectedJobSettles | src/rescue-request/rescue-request-admin.service.ts:587-604 | every amount set written by a selection, and after at most one dispute, splits without a negative share |
| Money.SecondDisputeBreaksTheSplit | src/rescue-request/rescue-request-admin.service.ts:594-596 | with a fee of 20% and a deposit of 10%, two resolutions make refund and payout negative |
| Settlement.FilterAgreesIff | src/rescue-request/domain/derive-payment-state.ts:151-167 | on every row list of a cancelled request the database filter accepts exactly the ELIGIBLE and FAILED derivations |
| Settlement.DerivationsIgnoreOrder | src/rescue-request/domain/derive-payment-state.ts:53-139 | neither derivation depends on the order or repetition of rows |
| Settlement.RefundStatusMeans | src/rescue-request/domain/derive-payment-state.ts:53-98 | each refund status by the rows there are: completed when money has left or a payout is under way, pending when a refund is on its way, failed only when nothing else is |
| Settlement.SettlementStateMeans | src/rescue-request/domain/derive-payment-state.ts:100-139 | open exactly on a paid, cancelled, assigned request that is neither settled nor beside an active refund |
| Settlement.LateDepositIsRefundable | src/rescue-request/payment-events.service.ts:69-76 | in every run of a new request, a deposit that settled after the end leaves the request refundable whenever it is cancelled and nothing has been given back, even if it was revived in between; ELIGIBLE unless a refund has failed |
| Settlement.BoundKeptIff | src/rescue-request/rescue-request-admin.service.ts:528-663 | one step lifts refunds and payouts above the deposit exactly when it retries a dead payout while a full refund is live |
| Settlement.RefundAndSettlementExclude | src/rescue-request/rescue-request-admin.service.ts:372-663 | in every serial run in which no payout dies, the sum stays within the deposit |
| Settlement.DeadPayoutCanPayTwice | src/payout/payout.service.ts:80-135 | settle, failed transfer, full refund, retry: twice the deposit leaves |
| Settlement.CancellationDesk.RefundDeposit | src/rescue-request/rescue-request-admin.service.ts:372-411 | exactly while a deposit has succeeded and no refund or payout is active, one PENDING refund of the whole deposit is added |
| Settlement.CancellationDesk.ResolveCancellationSettlement | src/rescue-request/rescue-request-admin.service.ts:528-663 | claims exactly once; the rows are then the old ones, a PENDING refund of exactly its share when made and positive, and a PENDING payout of exactly its share when made, positive and none active |
| Settlement.LegsCoverTheDeposit | src/rescue-request/rescue-request-admin.service.ts:587-663 | with both legs made and no active payout the new rows sum to the deposit without the fee share, whenever neither share is negative |
| Settlement.RetryWrites | src/payout/payout.service.ts:80-135 | a retry of the newest dead payout adds one PENDING row of the same amount, and none while a payout is active |
| Ranking.SortIsStable | src/rescue-request/domain/quote-ranking.ts:38 | the ranking is a descending permutation that keeps tied quotes in reading order |
| Ranking.OrderIndependentIff | src/rescue-request/domain/quote-ranking.ts:22-39 | the ranking does not depend on reading order exactly when no two scores are equal |
| Ranking.DominantRanksAbove | src/rescue-request/domain/quote-ranking.ts:28-36 | a quote no dearer and no slower, and better in one, is ranked above |
| Ranking.ScoreOrderIff | src/rescue-request/domain/quote-ranking.ts:19-36 | one quote scores above another exactly when three times its scaled price advantage outweighs twice its scaled time disadvantage |
| Ranking.ShownIsCharged | src/rescue-request/dispatch.service.ts:1682-1762 | choice k denotes the same offer, total and deposit when shown and when charged, whatever the reading order and later percentage changes |
| Ranking.ShownIsTheSplit | src/rescue-request/dispatch.service.ts:1682-1762 | every line shown has the price with its fee as total and the deposit of the split, at the operator's own percentage where there is one |
| Ranking.ChargedIsTheSplit | src/rescue-request/whatsapp-customer-flow.service.ts:1351-1383 | every charge is of the split at the percentage frozen on the offer, or the platform's where none was |
| Deletion.WorldInvKeptIff | src/account-deletion/account-deletion.service.ts:19-129 | every act keeps, exactly unless it lands a stale live status on such a request: a deleted customer's requests are ended, undisputed and at rest; a deleted operator's are ended and undisputed |
| Deletion.BlockedUnlessQuiet | src/account-deletion/account-deletion.service.ts:19-44 | the blocking filter selects exactly the requests that are not ended, undisputed and at rest |
| Deletion.DeletedMeansAtRest | src/account-deletion/account-deletion.service.ts:53-129 | over every run without such a landing, and deletion is for ever |
| Deletion.DeletedOperatorWinsNothing | src/rescue-request/dispatch.service.ts:272-281 | no act puts an offer of a deleted operator on a shortlist, chooses it or takes its answer |
| Deletion.OpeningBlocksDeletion | src/account-deletion/account-deletion.service.ts:19-44 | a deleted user opens no request, and opening one blocks a user's deletion |
| Deletion.SettlingUnblocks | src/account-deletion/account-deletion.service.ts:200-420 | a paid, cancelled, unsettled job keeps its operator from being deleted, until it is settled |
| Deletion.LateWriteOnDeletedCustomer | src/rescue-request/payment-events.service.ts:155-158 | a run in which a customer is deleted after the expiry and then holds an assigned job |
| Deletion.AccountDeletionService.DeleteUser | src/account-deletion/account-deletion.service.ts:53-129 | deletes exactly a customer, or an operator account working for nobody, all of whose requests are ended, undisputed and at rest; nobody else is touched |
| Deletion.AccountDeletionService.DeleteOperator | src/account-deletion/account-deletion.service.ts:200-420 | deletes exactly an operator whose jobs are all over, undisputed, paid out if completed and settled if cancelled after payment, together with every account that serves nobody else and only those; or nothing at all |
| Reminders.QueryAgreesIff | src/rescue-request/reconciler/checks/deposit-reminder.check.ts:37-80 | the query selects exactly the open windows owed a reminder precisely when the marks are descending |
| Reminders.RemindersNeverRepeat | src/rescue-request/reconciler/checks/deposit-reminder.check.ts:88-112 | in every sequence of ticks with downtime, stale reads and reopened windows: each window gets one message per mark at most, for later marks only, each for exactly the marks that window had reached, none after its expiry |
| Reminders.ActLeavesNothingOwed | src/rescue-request/reconciler/checks/deposit-reminder.check.ts:37-58 | an act on the current deadline sends exactly when the query selects the request, and leaves nothing owed at that instant |
| Reminders.UnboundClaimSilencesWindow | src/rescue-request/reconciler/checks/deposit-reminder.check.ts:99-111 | without the deadline in the claim, one late act on a window that had reached all its marks silences the reopened window for good |
| Reminders.DepositReminderCheck.Run | src/rescue-request/reconciler/checks/deposit-reminder.check.ts:58-73 | each request the query returned gets one message for the latest of the marks 25, 15 and 5 minutes exactly when it still waits on the deadline that was read and is owed a mark; the others are untouched; the count is exactly the requests whose claim held |

## Left out

- PayoutProtocol.PayoutService.RetryPayout: ids are compared character by character; the database's collation is not modelled.
- VerifyCheck.PaymentVerifyCheck.Run: an exception comes before a row's writes, after its claim and perhaps its call, or after all its writes; which of the due rows the 100 are is left open.
- Escalation.NeverEscalatesSooner: the clocks of the instances agree, and an unblock carries the time at which its statement runs.
- VerifierRefinement.PayoutRowRefines: one row at a time; between two rows of a pass the provider may move, which the protocols' own steps cover.
- Money.DepositInRangeIff: a percentage that is not a number, and the rounding of JavaScript doubles, are not modelled; percentages and quotients are exact.
- Ranking.SortIsStable: scores are exact rationals, so ties created or broken by floating point are not modelled.
- Handover.WitnessMeansWork: the check's transaction is then assumed to be attempted; pages of 100 rows and a reconciler that is never started are not modelled.
- Activation.PaidBeforeActivated: the admin status override is not a step.
- Activation.EndedStaysEndedIff: an admin's expand with its search, a manual offer, a withdrawal's three updates and an offer sweep's query and update, and the new SOS's cancellation with its session, are each one step; a begun job stands for the operator's and the motorist's own sessions; completion by settlement is one unconditional write.
- Settlement.RefundAndSettlementExclude: serial runs only; the race of the two endpoints between read and claim is not modelled here.
- Deletion.WorldInvKeptIff: the contact-card account merge, adding team members during a deletion, and late deposits of a deleted operator's cancelled jobs are not modelled.
- Reading whether bidding is closed happens outside the offer's own transaction; the two are taken as one step.
- Selecting or assigning also creates and submits the deposit; the submission is in the collection protocol, and in Dispatch only its row appears.
- Provider-reference uniqueness, the text patterns that recognise a duplicate reference or a validation error, and amounts recorded by the provider: they appear as outcomes of the reply.
- The quote-selection, deposit-expiry and offer-sweep passes: their transactions are modelled, their loops have the shape of the bidding-close pass.
- HTTP clients, message texts, chat sessions other than the media session, candidate scoring and distances, admin `cancel` and `updateStatus`, the five-year purge, audit rows and media deletion.
