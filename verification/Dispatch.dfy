/** One rescue request from media to assigned operator: its row, its offers and its
    payments, and every transaction that touches them.

    A step is one committed transaction or one read that a later write relies on. What runs
    after a commit (the follow-up of a claimed offer, the search behind an admin's expand or
    the end of media capture) is a step of its own or has a flag for the process dying first.
    Status writes that do not repeat their guard in the WHERE clause are two steps: the read
    leaves the write owed, and the write lands later, whatever has happened since, or never. */
module Dispatch {
  import opened Payments
  import opened RoundSearch
  import L = Ledger

  type BatchId = string

  const QUOTE_SELECTION_WINDOW_MS := 5 * 60 * 1000
  const MANUAL_OFFER_WINDOW_MS := 5 * 60 * 1000
  const MANUAL_ASSIGN_WINDOW_MS := 30 * 60 * 1000
  const DEPOSIT_WINDOW_MS := 30 * 60 * 1000

  datatype RequestStatus =
    | WAITING_FOR_LOCATION | WAITING_FOR_ISSUE_TYPE | WAITING_FOR_MEDIA | WAITING_FOR_DEPOSIT
    | DISPATCHING | OPERATOR_ASSIGNED | IN_PROGRESS | ARRIVED | IN_DISPUTE
    | COMPLETED | CANCELLED | STALLED

  datatype OfferStatus =
    | OFFERED | QUOTED | SELECTED_PENDING_PAYMENT | ACCEPTED | DECLINED | NOT_SELECTED | TIMED_OUT

  /** A batch asks each operator once. */
  datatype OfferId = Key(batch: BatchId, operator: OperatorId)

  /** Asked: created pending, by a round or by hand; the others are created by an assignment. */
  datatype Offer = Offer(status: OfferStatus, price: Option<int>, expiresAt: int, round: nat, asked: bool)

  type Offers = map<OfferId, Offer>

  /** The work owed after a claimed answer has committed. */
  datatype FollowUp = FollowUp(offer: OfferId, quoted: bool)

  /** An unconditional status write whose guard was read earlier. */
  datatype Write =
    | Activate       // confirmDeposit, having read WAITING_FOR_DEPOSIT and an operator
    | Refuse         // confirmDeposit, having read WAITING_FOR_DEPOSIT and no operator
    | AwardOffers    // activateAssignedJob, after Activate
    | OpenDispatch   // handleMediaFinished, having read a session that collects media
    | Arrive         // the operator's ARRIVED, in an on-job session, having read a live request
    | Dispute        // raiseDispute, in a completion session, its caller having read a live request
    | Withdraw       // the motorist's CANCEL, having read a status that allows it
    | Abandon        // the motorist's new SOS, having read a request still without media

  /** Whether the job was activated once, so that the parties' sessions may be on it, and
      whether it is disputed and not resolved, which takes such a session. */
  datatype Stage = NotBegun | Begun | InDispute

  datatype Job = Job(
    id: RequestId,
    status: RequestStatus,
    round: nat,
    collectBy: Option<int>,   // quoteCollectionDeadline
    closedAt: Option<int>,    // biddingClosedAt
    chooseBy: Option<int>,    // quoteSelectionExpiresAt
    payBy: Option<int>,       // depositWindowExpiresAt
    needsManual: bool,
    offered: set<OperatorId>,
    assignedTo: Option<OperatorId>,
    awaitingMedia: bool,      // the motorist's session is still collecting media
    stage: Stage,
    offers: Offers,
    followUps: set<FollowUp>,
    rows: L.Table,
    confirms: set<PaymentId>, // deposits settled, confirmation owed
    owed: multiset<Write>)    // guards read, writes still to land

  /** One search for operators: the ranked candidates at each extra radius, the backups
      without WhatsApp, and the settings and batch id in force. */
  datatype Hunt = Hunt(find: Finder, backups: Finder, covered: bool, cap: int,
                       size: nat, window: int, batch: BatchId)

  datatype Step =
    | Answer(offer: OfferId, quote: Option<int>, now: int)
    | AfterClaim(followUp: FollowUp, window: int, now: int)
    | ResolveBatch(ids: set<OfferId>, round: nat, hunt: Hunt, now: int)
    | CloseBidding(now: int)
    | TimeOutSelection(now: int)
    | ExpireDeposit(now: int)
    | SweepOffers(ids: set<OfferId>, now: int)
    | FinishMedia(hunt: Hunt, now: int, crash: bool)
    | Expand(hunt: Hunt, now: int, crash: bool)
    | OfferManually(operator: OperatorId, batch: BatchId, now: int)
    | Select(offer: OfferId, payment: PaymentId, deposit: int, now: int)
    | Assign(operator: OperatorId, whatsapp: bool, price: int, batch: BatchId,
             payment: PaymentId, deposit: int, now: int)
    | LedgerStep(op: L.Op)
    | Confirm(payment: PaymentId)
    | Ask(write: Write)
    | Land(write: Write)
    | ResolveDispute
    | Complete

  predicate Ended(s: RequestStatus) { s == COMPLETED || s == CANCELLED }

  // ---- Offers in bulk ---------------------------------------------------------

  function Retire(offers: Offers, from: OfferStatus, to: OfferStatus): Offers {
    map k | k in offers :: if offers[k].status == from then offers[k].(status := to) else offers[k]
  }

  /** No offer stays open: pending ones time out, quoted ones are not selected. */
  function CloseOffers(offers: Offers): Offers { Retire(Retire(offers, OFFERED, TIMED_OUT), QUOTED, NOT_SELECTED) }

  function TimeOutThese(offers: Offers, ids: set<OfferId>): Offers {
    map k | k in offers ::
      if k in ids && offers[k].status == OFFERED then offers[k].(status := TIMED_OUT) else offers[k]
  }

  function ClampPending(offers: Offers, deadline: int): Offers {
    map k | k in offers ::
      if offers[k].status == OFFERED && offers[k].expiresAt > deadline
      then offers[k].(expiresAt := deadline) else offers[k]
  }

  function ExpireBatch(offers: Offers, batch: BatchId, now: int): Offers {
    map k | k in offers ::
      if k.batch == batch && offers[k].expiresAt > now
      then offers[k].(expiresAt := now) else offers[k]
  }

  function FreshOffers(batch: BatchId, who: set<OperatorId>, expiresAt: int, round: nat): Offers {
    map o | o in who :: Key(batch, o) := Offer(OFFERED, None, expiresAt, round, true)
  }

  predicate AnyWith(offers: Offers, s: OfferStatus) { exists k :: k in offers && offers[k].status == s }

  // ---- The transactions -------------------------------------------------------

  predicate BiddingClosed(j: Job, now: int) {
    j.closedAt.Some? || (j.collectBy.Some? && now >= j.collectBy.value)
  }

  function Clamped(j: Job, expiresAt: int): int {
    if j.collectBy.Some? then Min(expiresAt, j.collectBy.value) else expiresAt
  }

  /** The conditional write only matches an offer that is still pending and unexpired. */
  predicate Claims(j: Job, k: OfferId, price: Option<int>, now: int) {
    && !(price.Some? && BiddingClosed(j, now))
    && k in j.offers && j.offers[k].status == OFFERED && j.offers[k].expiresAt > now
  }

  function AnswerOffer(j: Job, k: OfferId, price: Option<int>, now: int): Job {
    if price.Some? && BiddingClosed(j, now) then
      if k in j.offers && j.offers[k].status == OFFERED
      then j.(offers := j.offers[k := j.offers[k].(status := NOT_SELECTED, price := price)])
      else j
    else if Claims(j, k, price, now) then
      j.(offers := j.offers[k := j.offers[k].(status := if price.Some? then QUOTED else DECLINED,
                                              price := price)],
         followUps := j.followUps + {FollowUp(k, price.Some?)})
    else j
  }

  /** Only the first quote sets the deadline, and it only ever shortens a pending offer. */
  function BeginCollection(j: Job, deadline: int): Job {
    if j.collectBy.Some? then j
    else j.(collectBy := Some(deadline), offers := ClampPending(j.offers, deadline))
  }

  function ResolveEarly(j: Job, batch: BatchId, now: int): Job {
    if j.collectBy.Some? then
      if AnyWith(j.offers, OFFERED) then j
      else if j.status == DISPATCHING && j.closedAt.None? && j.collectBy.value > now
      then j.(collectBy := Some(now))
      else j
    else if exists k :: k in j.offers && k.batch == batch && j.offers[k].status == OFFERED then j
    else j.(offers := ExpireBatch(j.offers, batch, now))
  }

  function RunFollowUp(j: Job, f: FollowUp, window: int, now: int): Job {
    var begun := if f.quoted then BeginCollection(j, now + window) else j;
    ResolveEarly(begun, f.offer.batch, now).(followUps := j.followUps - {f})
  }

  /** Offer rows, the record of who was asked and the round commit together. */
  function WriteRound(j: Job, who: set<OperatorId>, round: nat, batch: BatchId, expiresAt: int): Job {
    j.(needsManual := false, round := round, offered := j.offered + who,
       offers := j.offers + FreshOffers(batch, who, Clamped(j, expiresAt), round))
  }

  function ResolveExhaustion(j: Job, round: nat, backup: bool): Job {
    if backup then j.(needsManual := true, round := round)
    else j.(status := CANCELLED, needsManual := false, round := round, awaitingMedia := false,
            offers := Retire(j.offers, OFFERED, TIMED_OUT))
  }

  function Asked(who: seq<OperatorId>, size: nat): set<OperatorId> {
    set i | 0 <= i < |who| && i < size :: who[i]
  }

  /** prepareNextRound and, when it reports exhaustion, resolveExhaustion in the same
      transaction. */
  ghost function NextRound(j: Job, start: nat, h: Hunt, now: int): Job {
    match Search(h.find, h.covered, h.cap, start)
    case Candidates(r, _, who) => WriteRound(j, Asked(who, h.size), r, h.batch, now + h.window)
    case NoCoverage(r, x) => ResolveExhaustion(j, r, h.backups(x) != [])
    case RoundsExhausted(r, x) => ResolveExhaustion(j, r, h.backups(x) != [])
  }

  ghost function StartDispatch(j: Job, h: Hunt, now: int): Job {
    if j.status in {CANCELLED, COMPLETED, OPERATOR_ASSIGNED, WAITING_FOR_DEPOSIT} then j
    else if AnyWith(j.offers, QUOTED) then j
    else if BiddingClosed(j, now) then j
    else NextRound(j, j.round, h, now)
  }

  function OpenSelection(j: Job, now: int): Job {
    j.(closedAt := Some(now), chooseBy := Some(now + QUOTE_SELECTION_WINDOW_MS),
       offers := Retire(j.offers, OFFERED, TIMED_OUT))
  }

  /** Progression belongs to the batch of the current round while no deadline is set. */
  predicate ClaimsRound(j: Job, round: nat) {
    j.status == DISPATCHING && j.collectBy.None? && j.round == round
  }

  ghost function Resolve(j: Job, ids: set<OfferId>, round: nat, h: Hunt, now: int): Job {
    var expired := j.(offers := TimeOutThese(j.offers, ids));
    if !ClaimsRound(j, round) then expired
    else if AnyWith(expired.offers, QUOTED) then OpenSelection(expired.(round := round + 1), now)
    else NextRound(expired.(round := round + 1), round + 1, h, now)
  }

  predicate CloseDue(j: Job, now: int) {
    j.status == DISPATCHING && j.collectBy.Some? && j.collectBy.value < now && j.closedAt.None?
  }

  predicate SelectionDue(j: Job, now: int) {
    j.status == DISPATCHING && j.chooseBy.Some? && j.chooseBy.value < now
  }

  predicate DepositDue(j: Job, now: int) {
    j.status == WAITING_FOR_DEPOSIT && j.payBy.Some? && j.payBy.value < now
  }

  /** A pending offer on a request that is not dispatching is swept once expired, and at
      once when the request has ended. */
  predicate Sweepable(j: Job, k: OfferId, now: int) {
    && k in j.offers && j.offers[k].status == OFFERED && j.status != DISPATCHING
    && (j.offers[k].expiresAt < now || Ended(j.status))
  }

  function Cancelled(j: Job, offers: Offers): Job {
    j.(status := CANCELLED, needsManual := false, awaitingMedia := false, offers := offers)
  }

  /** An operator with an unexpired pending offer or a quote on this job is not asked again. */
  predicate Engaged(j: Job, operator: OperatorId, now: int) {
    exists k :: k in j.offers && k.operator == operator &&
      ((j.offers[k].status == OFFERED && j.offers[k].expiresAt > now) || j.offers[k].status == QUOTED)
  }

  predicate CanOfferManually(j: Job, operator: OperatorId, now: int) {
    j.status == DISPATCHING && !BiddingClosed(j, now) && !Engaged(j, operator, now)
  }

  /** The deposit row is inserted in the same transaction, so a row already in flight
      undoes the whole selection. */
  predicate CanSelect(j: Job, k: OfferId) {
    && j.status == DISPATCHING && k in j.offers && j.offers[k].status == QUOTED
    && !L.SlotTaken(j.rows, j.id, DEPOSIT)
  }

  function SelectQuote(j: Job, k: OfferId, payment: PaymentId, deposit: int, now: int): Job
    requires k in j.offers
  {
    var taken := j.offers[k := j.offers[k].(status := SELECTED_PENDING_PAYMENT)];
    j.(status := WAITING_FOR_DEPOSIT, assignedTo := Some(k.operator), payBy := Some(now + DEPOSIT_WINDOW_MS),
       offers := Retire(Retire(taken, QUOTED, NOT_SELECTED), OFFERED, TIMED_OUT),
       rows := j.rows[payment := L.NewRow(j.id, DEPOSIT, deposit, None, now)])
  }

  predicate CanAssign(j: Job, whatsapp: bool) {
    && !Ended(j.status) && (whatsapp || j.needsManual)
    && !L.SlotTaken(j.rows, j.id, DEPOSIT)
  }

  function AssignByHand(j: Job, operator: OperatorId, price: int, batch: BatchId,
                        payment: PaymentId, deposit: int, now: int): Job {
    j.(status := WAITING_FOR_DEPOSIT, needsManual := false, assignedTo := Some(operator),
       payBy := Some(now + DEPOSIT_WINDOW_MS),
       offers := j.offers[Key(batch, operator) :=
                   Offer(SELECTED_PENDING_PAYMENT, Some(price), now + MANUAL_ASSIGN_WINDOW_MS, j.round, false)],
       rows := j.rows[payment := L.NewRow(j.id, DEPOSIT, deposit, None, now)])
  }

  /** confirmDeposit reads the request: what it will write depends on what it finds now. */
  function ReadDeposit(j: Job, payment: PaymentId): Job {
    var read := j.(confirms := j.confirms - {payment});
    if j.status != WAITING_FOR_DEPOSIT then read
    else read.(owed := j.owed + multiset{if j.assignedTo.Some? then Activate else Refuse})
  }

  /** What the caller of a write reads before it writes. */
  predicate MayAsk(j: Job, w: Write) {
    match w
    case OpenDispatch => j.awaitingMedia
    case Arrive => j.stage != NotBegun && !j.awaitingMedia && !Ended(j.status)
    case Dispute => j.stage != NotBegun && !j.awaitingMedia && !Ended(j.status)
    case Withdraw => !BlockedFromSelfCancel(j.status)
    case Abandon => j.status == WAITING_FOR_MEDIA
    case _ => false
  }

  predicate BlockedFromSelfCancel(s: RequestStatus) { s in {OPERATOR_ASSIGNED, IN_PROGRESS, ARRIVED, IN_DISPUTE} }

  /** An activation goes on to award the offers. */
  function OwedAfter(owed: multiset<Write>, w: Write): multiset<Write> {
    owed - multiset{w} + if w == Activate then multiset{AwardOffers} else multiset{}
  }

  /** The write itself, with no guard but one: a second dispute finds the first still open. */
  function Written(j: Job, w: Write): Job {
    match w
    case Activate => j.(status := OPERATOR_ASSIGNED, stage := if j.stage == InDispute then InDispute else Begun)
    case AwardOffers =>
      if j.assignedTo.None? then j
      else j.(awaitingMedia := false, offers := Award(j.offers, j.assignedTo.value))
    case Refuse => Cancelled(j, CloseOffers(Retire(j.offers, SELECTED_PENDING_PAYMENT, TIMED_OUT)))
    case Arrive => j.(status := ARRIVED)
    case Dispute => if j.stage == InDispute then j else j.(status := IN_DISPUTE, stage := InDispute)
    case Withdraw => Cancelled(j, CloseOffers(j.offers))
    case Abandon => Cancelled(j, j.offers)
    case OpenDispatch => j.(status := DISPATCHING, awaitingMedia := false)
  }

  function LandWrite(j: Job, w: Write): Job { Written(j, w).(owed := OwedAfter(j.owed, w)) }

  function Award(offers: Offers, operator: OperatorId): Offers {
    map k | k in offers ::
      if k.operator == operator && offers[k].status == SELECTED_PENDING_PAYMENT
      then offers[k].(status := ACCEPTED) else offers[k]
  }

  /** The one caller whose settlement matched goes on to confirm the deposit. */
  predicate SettlesDeposit(j: Job, op: L.Op) {
    op.Settle? && L.EffectOf(j.rows, op) == [L.Confirm(op.id, j.id, DEPOSIT)]
  }

  function ApplyLedger(j: Job, op: L.Op): Job {
    j.(rows := L.Apply(j.rows, op),
       confirms := if SettlesDeposit(j, op) then j.confirms + {op.id} else j.confirms)
  }

  /** Fresh ids for what is inserted; and what each caller has just read. */
  ghost predicate Allowed(j: Job, s: Step) {
    match s
    case Answer(_, _, _) => true
    case AfterClaim(f, _, _) => f in j.followUps
    case ResolveBatch(ids, round, h, now) => Queried(j, ids, round, now) && FreshHunt(j, h)
    case FinishMedia(h, _, _) => OpenDispatch in j.owed && FreshHunt(j, h)
    case Expand(h, now, _) => FreshHunt(j, h) && j.status == DISPATCHING && !BiddingClosed(j, now)
    case OfferManually(_, batch, _) => FreshBatch(j, batch)
    case Select(_, payment, _, _) => payment !in j.rows
    case Assign(_, _, _, batch, payment, _, _) => FreshBatch(j, batch) && payment !in j.rows
    case LedgerStep(op) => L.Allowed(j.rows, op)
    case Confirm(payment) => payment in j.confirms
    case Ask(w) => MayAsk(j, w)
    case Land(w) => w in j.owed && w != OpenDispatch
    case Complete => j.stage != NotBegun && !j.awaitingMedia
    case _ => true
  }

  /** Offers the resolver's query returned, at this time or earlier: pending then, so asked,
      all of one round and expired. */
  ghost predicate Queried(j: Job, ids: set<OfferId>, round: nat, now: int) {
    ids != {} && forall k | k in ids ::
      k in j.offers && j.offers[k].asked && j.offers[k].round == round && j.offers[k].expiresAt < now
  }

  ghost predicate FreshBatch(j: Job, batch: BatchId) { forall k | k in j.offers :: k.batch != batch }

  /** The search never returns an operator already recorded as offered. */
  ghost predicate FreshHunt(j: Job, h: Hunt) {
    && h.size >= 1 && FreshBatch(j, h.batch)
    && forall x: nat, o | o in h.find(x) :: o !in j.offered
  }

  ghost function Next(j: Job, s: Step): Job
    requires Allowed(j, s)
  {
    match s
    case Answer(k, price, now) => AnswerOffer(j, k, price, now)
    case AfterClaim(f, window, now) => RunFollowUp(j, f, window, now)
    case ResolveBatch(ids, round, h, now) => Resolve(j, ids, round, h, now)
    case CloseBidding(now) => if CloseDue(j, now) then OpenSelection(j, now) else j
    case TimeOutSelection(now) =>
      if SelectionDue(j, now) then Cancelled(j, Retire(j.offers, QUOTED, TIMED_OUT)) else j
    case ExpireDeposit(now) =>
      if DepositDue(j, now) then Cancelled(j, Retire(j.offers, SELECTED_PENDING_PAYMENT, TIMED_OUT)) else j
    case SweepOffers(ids, now) =>
      j.(offers := TimeOutThese(j.offers, set k | k in ids && Sweepable(j, k, now)))
    case FinishMedia(h, now, crash) =>
      var ready := LandWrite(j, OpenDispatch);
      if crash then ready else StartDispatch(ready, h, now)
    case Expand(h, now, crash) =>
      var wider := j.(round := j.round + 1);
      if crash then wider else StartDispatch(wider, h, now)
    case OfferManually(operator, batch, now) =>
      if CanOfferManually(j, operator, now)
      then j.(offered := j.offered + {operator},
              offers := j.offers[Key(batch, operator) :=
                          Offer(OFFERED, None, Clamped(j, now + MANUAL_OFFER_WINDOW_MS), j.round, true)])
      else j
    case Select(k, payment, deposit, now) =>
      if CanSelect(j, k) then SelectQuote(j, k, payment, deposit, now) else j
    case Assign(operator, whatsapp, price, batch, payment, deposit, now) =>
      if CanAssign(j, whatsapp) then AssignByHand(j, operator, price, batch, payment, deposit, now) else j
    case LedgerStep(op) => ApplyLedger(j, op)
    case Confirm(payment) => ReadDeposit(j, payment)
    case Ask(w) => j.(owed := j.owed + multiset{w})
    case Land(w) => LandWrite(j, w)
    case ResolveDispute =>
      if j.stage == InDispute && !L.HasSucceeded(j.rows, j.id, BALANCE) then j.(stage := Begun) else j
    case Complete => j.(status := COMPLETED)
  }

  // ---- Reads that have gone stale ------------------------------------------------

  /** What the write's caller read is no longer so. */
  predicate ReadIsStale(j: Job, w: Write) {
    match w
    case Activate => j.status != WAITING_FOR_DEPOSIT
    case Refuse => j.status != WAITING_FOR_DEPOSIT
    case AwardOffers => false
    case _ => !MayAsk(j, w)
  }

  /** A write landing after its read went stale. */
  predicate StaleWrite(j: Job, s: Step) {
    (s.Land? && ReadIsStale(j, s.write)) || (s.FinishMedia? && ReadIsStale(j, OpenDispatch))
  }
}
