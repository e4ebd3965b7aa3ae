/** What every transaction keeps, however stale the read behind a status write: the facts about
    rounds, deadlines and deposits that the handovers rest on. */
module Bidding {
  import opened Payments
  import opened RoundSearch
  import opened Dispatch
  import L = Ledger

  // ---- The auction --------------------------------------------------------------

  /** The two closing stamps come together, and after them nothing is pending. */
  ghost predicate Frozen(j: Job) {
    && (j.closedAt.Some? <==> j.chooseBy.Some?)
    && (j.closedAt.Some? ==> !AnyWith(j.offers, OFFERED))
  }

  /** The collection deadline is a ceiling on every pending offer. */
  ghost predicate PendingClamped(j: Job) {
    j.collectBy.Some? ==>
      forall k | k in j.offers && j.offers[k].status == OFFERED :: j.offers[k].expiresAt <= j.collectBy.value
  }

  /** No offer is ahead of the request; once a phase-1 shortlist went out, all asked are behind. */
  ghost predicate RoundsBehind(j: Job) {
    && (forall k | k in j.offers :: j.offers[k].round <= j.round)
    && (j.closedAt.Some? && j.collectBy.None? ==>
          forall k | k in j.offers && j.offers[k].asked :: j.offers[k].round < j.round)
  }

  /** Whoever was ever asked, by a round or by hand, is on record, whatever became of it; and
      only an asked offer is pending. */
  ghost predicate AskedOnRecord(j: Job) {
    && (forall k | k in j.offers && j.offers[k].asked :: k.operator in j.offered)
    && (forall k | k in j.offers && j.offers[k].status == OFFERED :: j.offers[k].asked)
  }

  ghost predicate AuctionInv(j: Job) { Frozen(j) && PendingClamped(j) && RoundsBehind(j) && AskedOnRecord(j) }

  // ---- The deposit --------------------------------------------------------------

  ghost predicate DepositWindowSet(j: Job) {
    j.status == WAITING_FOR_DEPOSIT ==> j.payBy.Some? && j.assignedTo.Some?
  }

  predicate DepositPaid(j: Job) { L.HasSucceeded(j.rows, j.id, DEPOSIT) }

  predicate Activating(j: Job) { Activate in j.owed || AwardOffers in j.owed }

  /** The job was activated, or something only an activated job can lead to is still to land. */
  predicate UnderWay(j: Job) { j.stage != NotBegun || Arrive in j.owed || Dispute in j.owed }

  /** Activation, begun or finished, and all that follows has a succeeded deposit behind it. */
  ghost predicate PaidFirst(j: Job) {
    && (j.status == OPERATOR_ASSIGNED || AnyWith(j.offers, ACCEPTED) || Activating(j) || UnderWay(j) ==> DepositPaid(j))
    && (forall p | p in j.confirms :: p in j.rows && j.rows[p].request == j.id &&
                                      j.rows[p].kind == DEPOSIT && j.rows[p].status == SUCCEEDED)
  }

  ghost predicate DepositInv(j: Job) { DepositWindowSet(j) && PaidFirst(j) && L.Consistent(j.rows) }

  ghost predicate Inv(j: Job) { AuctionInv(j) && DepositInv(j) }

  /** A request as it is created. */
  function NewJob(id: RequestId): Job {
    Job(id, WAITING_FOR_MEDIA, 0, None, None, None, None, false, {}, None, true, NotBegun, map[], {}, map[], {}, multiset{})
  }

  // ---- The auction, transaction by transaction -----------------------------------

  lemma SameStatusesKeep(before: Offers, after: Offers)
    requires before.Keys == after.Keys && forall k | k in before :: after[k].status == before[k].status
    ensures forall s :: AnyWith(after, s) <==> AnyWith(before, s)
  {
  }

  /** Deadlines and rounds untouched, offers only leaving the pending state. */
  lemma EndingKeepsAuction(j: Job, j': Job)
    requires AuctionInv(j) && j'.offers.Keys == j.offers.Keys && j'.round >= j.round && j'.offered >= j.offered
    requires j'.collectBy == j.collectBy && j'.closedAt == j.closedAt && j'.chooseBy == j.chooseBy
    requires forall k | k in j.offers ::
      && j'.offers[k].round == j.offers[k].round && j'.offers[k].asked == j.offers[k].asked
      && j'.offers[k].expiresAt <= j.offers[k].expiresAt
      && (j'.offers[k].status == OFFERED ==> j.offers[k].status == OFFERED)
    ensures AuctionInv(j')
  {
    assert AnyWith(j'.offers, OFFERED) ==> AnyWith(j.offers, OFFERED);
  }

  lemma AnswerKeepsAuction(j: Job, k: OfferId, price: Option<int>, now: int)
    requires AuctionInv(j)
    ensures AuctionInv(AnswerOffer(j, k, price, now))
  {
    hide AuctionInv;
    EndingKeepsAuction(j, AnswerOffer(j, k, price, now));
  }

  lemma BeginKeepsAuction(j: Job, deadline: int)
    requires AuctionInv(j)
    ensures AuctionInv(BeginCollection(j, deadline))
  {
    SameStatusesKeep(j.offers, BeginCollection(j, deadline).offers);
  }

  lemma EarlyKeepsAuction(j: Job, batch: BatchId, now: int)
    requires AuctionInv(j)
    ensures AuctionInv(ResolveEarly(j, batch, now))
  {
    if j.collectBy.None? {
      EndingKeepsAuction(j, ResolveEarly(j, batch, now));
    }
  }

  lemma FollowUpKeepsAuction(j: Job, f: FollowUp, window: int, now: int)
    requires AuctionInv(j)
    ensures AuctionInv(RunFollowUp(j, f, window, now))
  {
    hide AuctionInv, BeginCollection, ResolveEarly;
    var begun := if f.quoted then BeginCollection(j, now + window) else j;
    BeginKeepsAuction(j, now + window);
    EarlyKeepsAuction(begun, f.offer.batch, now);
    EndingKeepsAuction(ResolveEarly(begun, f.offer.batch, now), RunFollowUp(j, f, window, now));
  }

  /** A follow-up moves deadlines only: no status, no session, no payment. */
  ghost predicate OnlyDeadlines(j: Job, j': Job) {
    && j'.status == j.status && j'.id == j.id && j'.rows == j.rows && j'.confirms == j.confirms && j'.owed == j.owed
    && j'.payBy == j.payBy && j'.assignedTo == j.assignedTo && j'.awaitingMedia == j.awaitingMedia && j'.stage == j.stage
    && j'.closedAt == j.closedAt && j'.chooseBy == j.chooseBy && j'.round == j.round && j'.needsManual == j.needsManual
    && j'.offers.Keys == j.offers.Keys && (j.collectBy.Some? ==> j'.collectBy.Some? && j'.collectBy.value <= j.collectBy.value)
    && forall k | k in j.offers ::
         j'.offers[k].status == j.offers[k].status && j'.offers[k].round == j.offers[k].round &&
         j'.offers[k].expiresAt <= j.offers[k].expiresAt
  }

  lemma BeginMovesDeadlines(j: Job, deadline: int)
    ensures OnlyDeadlines(j, BeginCollection(j, deadline)) && BeginCollection(j, deadline).followUps == j.followUps
    ensures BeginCollection(j, deadline).collectBy.Some?
  {
  }

  lemma EarlyMovesDeadlines(j: Job, batch: BatchId, now: int)
    ensures OnlyDeadlines(j, ResolveEarly(j, batch, now)) && ResolveEarly(j, batch, now).followUps == j.followUps
    ensures j.collectBy.None? ==> ResolveEarly(j, batch, now).collectBy.None?
  {
  }

  lemma FollowUpMovesDeadlines(j: Job, f: FollowUp, window: int, now: int)
    ensures var j' := RunFollowUp(j, f, window, now);
            OnlyDeadlines(j, j') && j'.followUps == j.followUps - {f} && (j'.collectBy.Some? <==> j.collectBy.Some? || f.quoted)
  {
    hide BeginCollection, ResolveEarly;
    var begun := if f.quoted then BeginCollection(j, now + window) else j;
    BeginMovesDeadlines(j, now + window);
    EarlyMovesDeadlines(begun, f.offer.batch, now);
  }

  lemma WriteRoundKeepsAuction(j: Job, who: set<OperatorId>, round: nat, batch: BatchId, expiresAt: int)
    requires AuctionInv(j) && FreshBatch(j, batch) && j.closedAt.None? && round >= j.round
    ensures AuctionInv(WriteRound(j, who, round, batch, expiresAt))
  {
  }

  lemma ExhaustionKeepsAuction(j: Job, round: nat, backup: bool)
    requires AuctionInv(j) && round >= j.round
    ensures AuctionInv(ResolveExhaustion(j, round, backup))
  {
    hide AuctionInv;
    EndingKeepsAuction(j, ResolveExhaustion(j, round, backup));
  }

  lemma NextRoundKeepsAuction(j: Job, start: nat, h: Hunt, now: int)
    requires AuctionInv(j) && FreshBatch(j, h.batch) && j.closedAt.None? && start >= j.round
    ensures AuctionInv(NextRound(j, start, h, now))
  {
    hide AuctionInv, WriteRound, ResolveExhaustion;
    match Search(h.find, h.covered, h.cap, start)
    case Candidates(r, _, who) => WriteRoundKeepsAuction(j, Asked(who, h.size), r, h.batch, now + h.window);
    case NoCoverage(r, x) => ExhaustionKeepsAuction(j, r, h.backups(x) != []);
    case RoundsExhausted(r, x) => ExhaustionKeepsAuction(j, r, h.backups(x) != []);
  }

  lemma OpenSelectionKeepsAuction(j: Job, now: int)
    requires AuctionInv(j) && j.closedAt.None?
    requires j.collectBy.Some? || forall k | k in j.offers && j.offers[k].asked :: j.offers[k].round < j.round
    ensures AuctionInv(OpenSelection(j, now))
  {
  }

  /** A batch that still owns the round finds the bidding open: after either close, the CAS
      on round and deadline cannot match an asked offer's round. */
  lemma ResolverFindsBiddingOpen(j: Job, ids: set<OfferId>, round: nat, now: int)
    requires AuctionInv(j) && Queried(j, ids, round, now) && ClaimsRound(j, round)
    ensures j.closedAt.None?
  {
    var k :| k in ids;
    assert j.offers[k].round == j.round;
  }

  lemma ResolveKeepsAuction(j: Job, ids: set<OfferId>, round: nat, h: Hunt, now: int)
    requires AuctionInv(j) && Queried(j, ids, round, now) && FreshBatch(j, h.batch)
    ensures AuctionInv(Resolve(j, ids, round, h, now))
  {
    hide NextRound, OpenSelection;
    var expired := j.(offers := TimeOutThese(j.offers, ids));
    EndingKeepsAuction(j, expired);
    if ClaimsRound(j, round) {
      ResolverFindsBiddingOpen(j, ids, round, now);
      var advanced := expired.(round := round + 1);
      EndingKeepsAuction(expired, advanced);
      if AnyWith(expired.offers, QUOTED) {
        OpenSelectionKeepsAuction(advanced, now);
      } else {
        NextRoundKeepsAuction(advanced, round + 1, h, now);
      }
    }
  }

  lemma StartDispatchKeepsAuction(j: Job, h: Hunt, now: int)
    requires AuctionInv(j) && FreshBatch(j, h.batch)
    ensures AuctionInv(StartDispatch(j, h, now))
  {
    hide AuctionInv;
    if StartDispatch(j, h, now) != j { NextRoundKeepsAuction(j, j.round, h, now); }
  }

  lemma ManualOfferKeepsAuction(j: Job, operator: OperatorId, batch: BatchId, now: int)
    requires AuctionInv(j) && FreshBatch(j, batch)
    ensures AuctionInv(Next(j, OfferManually(operator, batch, now)))
  {
    hide Resolve, StartDispatch;
  }

  lemma AssignKeepsAuction(j: Job, operator: OperatorId, price: int, batch: BatchId,
                           payment: PaymentId, deposit: int, now: int)
    requires AuctionInv(j) && FreshBatch(j, batch)
    ensures AuctionInv(AssignByHand(j, operator, price, batch, payment, deposit, now))
  {
    var j' := AssignByHand(j, operator, price, batch, payment, deposit, now);
    assert AnyWith(j'.offers, OFFERED) ==> AnyWith(j.offers, OFFERED);
  }

  /** Offers only change status, and only to one that ends them. */
  ghost predicate OnlyEnds(before: Offers, after: Offers) {
    && after.Keys == before.Keys
    && forall k | k in before ::
         && after[k].round == before[k].round && after[k].asked == before[k].asked && after[k].expiresAt == before[k].expiresAt
         && (after[k].status == before[k].status || after[k].status in {TIMED_OUT, NOT_SELECTED, ACCEPTED})
         && (after[k].status == ACCEPTED ==> before[k].status in {ACCEPTED, SELECTED_PENDING_PAYMENT})
  }

  lemma ClosingOnlyEnds(offers: Offers)
    ensures OnlyEnds(offers, CloseOffers(offers))
    ensures forall k | k in offers && CloseOffers(offers)[k].status == ACCEPTED :: offers[k].status == ACCEPTED
  {
  }

  lemma RefusingOnlyEnds(offers: Offers)
    ensures OnlyEnds(offers, CloseOffers(Retire(offers, SELECTED_PENDING_PAYMENT, TIMED_OUT)))
    ensures forall k | k in offers && CloseOffers(Retire(offers, SELECTED_PENDING_PAYMENT, TIMED_OUT))[k].status == ACCEPTED ::
              offers[k].status == ACCEPTED
  {
    var released := Retire(offers, SELECTED_PENDING_PAYMENT, TIMED_OUT);
    ClosingOnlyEnds(released);
    hide CloseOffers;
  }

  lemma AwardOnlyEnds(offers: Offers, operator: OperatorId)
    ensures OnlyEnds(offers, Award(offers, operator))
  {
  }

  /** What a landing write leaves of the auction and of the deposit. */
  lemma LandLeavesRest(j: Job, w: Write)
    ensures var j' := LandWrite(j, w);
            && OnlyEnds(j.offers, j'.offers) && j'.round == j.round && j'.offered == j.offered
            && j'.collectBy == j.collectBy && j'.closedAt == j.closedAt && j'.chooseBy == j.chooseBy
            && j'.followUps == j.followUps && j'.rows == j.rows && j'.id == j.id && j'.confirms == j.confirms
            && (w != AwardOffers && AnyWith(j'.offers, ACCEPTED) ==> AnyWith(j.offers, ACCEPTED))
  {
    LandEndsOffers(j, w);
    hide CloseOffers, Retire, Award, OwedAfter, AnyWith, OnlyEnds;
  }

  lemma LandEndsOffers(j: Job, w: Write)
    ensures var offers := LandWrite(j, w).offers;
            OnlyEnds(j.offers, offers) && (w != AwardOffers && AnyWith(offers, ACCEPTED) ==> AnyWith(j.offers, ACCEPTED))
  {
    hide CloseOffers, Retire, Award, OwedAfter;
    match w
    case Withdraw => ClosingOnlyEnds(j.offers);
    case Refuse => RefusingOnlyEnds(j.offers);
    case AwardOffers => if j.assignedTo.Some? { AwardOnlyEnds(j.offers, j.assignedTo.value); }
    case _ => assert LandWrite(j, w).offers == j.offers;
  }

  lemma LandKeepsAuction(j: Job, w: Write)
    requires AuctionInv(j)
    ensures AuctionInv(LandWrite(j, w))
  {
    hide AuctionInv, LandWrite;
    LandLeavesRest(j, w);
    EndingKeepsAuction(j, LandWrite(j, w));
  }

  /** A selection takes exactly the chosen offer: no other offer gains the selected state,
      none stays pending or quoted, and the operator, the deposit row and the 30-minute
      window are the chosen ones. */
  lemma SelectTakesExactlyOne(j: Job, k: OfferId, payment: PaymentId, deposit: int, now: int)
    requires CanSelect(j, k) && payment !in j.rows
    ensures var j' := SelectQuote(j, k, payment, deposit, now);
            && !AnyWith(j'.offers, OFFERED) && !AnyWith(j'.offers, QUOTED)
            && (forall o | o in j'.offers && j'.offers[o].status == SELECTED_PENDING_PAYMENT ::
                  o == k || j.offers[o].status == SELECTED_PENDING_PAYMENT)
            && j'.offers[k].status == SELECTED_PENDING_PAYMENT && j'.offers[k].price == j.offers[k].price
            && j'.assignedTo == Some(k.operator) && j'.payBy == Some(now + 30 * 60_000)
            && j'.rows.Keys == j.rows.Keys + {payment} && j'.rows[payment].amount == deposit
            && !CanSelect(j', k)
  {
  }

  lemma StepKeepsAuction(j: Job, s: Step)
    requires AuctionInv(j) && Allowed(j, s)
    ensures AuctionInv(Next(j, s))
  {
    hide AuctionInv, Resolve, StartDispatch, OpenSelection, AnswerOffer, RunFollowUp, LandWrite, CanSelect, CanAssign,
         SelectQuote, AssignByHand, BiddingClosed;
    match s
    case Answer(k, quote, now) => AnswerKeepsAuction(j, k, quote, now);
    case AfterClaim(f, window, now) => FollowUpKeepsAuction(j, f, window, now);
    case ResolveBatch(ids, round, h, now) => ResolveKeepsAuction(j, ids, round, h, now);
    case CloseBidding(now) => CloseKeepsAuction(j, now);
    case FinishMedia(h, now, _) =>
      LandKeepsAuction(j, OpenDispatch);
      MediaKeepsOffers(j);
      StartDispatchKeepsAuction(LandWrite(j, OpenDispatch), h, now);
    case Expand(h, now, _) =>
      EndingKeepsAuction(j, j.(round := j.round + 1));
      StartDispatchKeepsAuction(j.(round := j.round + 1), h, now);
    case OfferManually(operator, batch, now) => ManualOfferKeepsAuction(j, operator, batch, now);
    case Assign(operator, _, price, batch, payment, deposit, now) =>
      AssignKeepsAuction(j, operator, price, batch, payment, deposit, now);
    case Land(w) => LandKeepsAuction(j, w);
    case Select(k, payment, deposit, now) =>
      if CanSelect(j, k) { SelectingAnOffer(j, k); SelectKeepsAuction(j, k, payment, deposit, now); }
    case TimeOutSelection(_) => TimeoutKeepsAuction(j, s);
    case ExpireDeposit(_) => TimeoutKeepsAuction(j, s);
    case SweepOffers(_, _) => TimeoutKeepsAuction(j, s);
    case LedgerStep(_) => QuietKeepsAuction(j, s);
    case Confirm(_) => QuietKeepsAuction(j, s);
    case Ask(_) => QuietKeepsAuction(j, s);
    case ResolveDispute => QuietKeepsAuction(j, s);
    case Complete => QuietKeepsAuction(j, s);
  }

  lemma SelectingAnOffer(j: Job, k: OfferId)
    requires CanSelect(j, k)
    ensures k in j.offers
  {
  }

  lemma MediaKeepsOffers(j: Job)
    ensures var ready := LandWrite(j, OpenDispatch);
            ready.offers == j.offers && ready.offered == j.offered && !ready.awaitingMedia && ready.round == j.round
  {
  }

  lemma CloseKeepsAuction(j: Job, now: int)
    requires AuctionInv(j)
    ensures AuctionInv(Next(j, CloseBidding(now)))
  {
    hide AuctionInv, OpenSelection, Resolve, StartDispatch;
    if CloseDue(j, now) { OpenSelectionKeepsAuction(j, now); }
  }

  lemma SelectKeepsAuction(j: Job, k: OfferId, payment: PaymentId, deposit: int, now: int)
    requires AuctionInv(j) && k in j.offers
    ensures AuctionInv(SelectQuote(j, k, payment, deposit, now))
  {
    hide AuctionInv;
    EndingKeepsAuction(j, SelectQuote(j, k, payment, deposit, now));
  }

  lemma QuietKeepsAuction(j: Job, s: Step)
    requires AuctionInv(j) && Allowed(j, s)
    requires s.LedgerStep? || s.Confirm? || s.Ask? || s.ResolveDispute? || s.Complete?
    ensures AuctionInv(Next(j, s))
  {
    hide AuctionInv, Resolve, StartDispatch, L.Apply, L.Allowed, L.HasSucceeded, SettlesDeposit, MayAsk;
    EndingKeepsAuction(j, Next(j, s));
  }

  lemma TimeoutKeepsAuction(j: Job, s: Step)
    requires AuctionInv(j) && Allowed(j, s) && (s.TimeOutSelection? || s.ExpireDeposit? || s.SweepOffers?)
    ensures AuctionInv(Next(j, s))
  {
    hide AuctionInv, Resolve, StartDispatch, Sweepable;
    EndingKeepsAuction(j, Next(j, s));
  }

  // ---- The deposit, transaction by transaction ------------------------------------

  /** The parts of the request that say who is to be paid for, and what has been. */
  ghost predicate SameDeposit(j: Job, j': Job) {
    && j'.rows == j.rows && j'.id == j.id && j'.confirms == j.confirms
    && (j'.status == OPERATOR_ASSIGNED ==> j.status == OPERATOR_ASSIGNED)
    && (j'.status == WAITING_FOR_DEPOSIT ==> j.status == WAITING_FOR_DEPOSIT && j'.payBy == j.payBy && j'.assignedTo == j.assignedTo)
    && (AnyWith(j'.offers, ACCEPTED) ==> AnyWith(j.offers, ACCEPTED))
    && (Activating(j') ==> Activating(j)) && (UnderWay(j') ==> UnderWay(j))
  }

  lemma SameDepositKeeps(j: Job, j': Job)
    requires DepositInv(j) && SameDeposit(j, j')
    ensures DepositInv(j')
  {
    hide L.Consistent;
  }

  lemma SearchKeepsDeposit(j: Job, start: nat, h: Hunt, now: int)
    ensures SameDeposit(j, NextRound(j, start, h, now))
  {
    var j' := NextRound(j, start, h, now);
    hide Search;
    assert AnyWith(j'.offers, ACCEPTED) ==> AnyWith(j.offers, ACCEPTED);
  }

  lemma DispatchKeepsDeposit(j: Job, h: Hunt, now: int)
    ensures SameDeposit(j, StartDispatch(j, h, now))
  {
    hide NextRound, SameDeposit;
    SearchKeepsDeposit(j, j.round, h, now);
    SameDepositIsReflexive(j);
  }

  lemma SameDepositIsReflexive(j: Job)
    ensures SameDeposit(j, j)
  {
  }

  lemma ResolveKeepsDeposit(j: Job, ids: set<OfferId>, round: nat, h: Hunt, now: int)
    ensures SameDeposit(j, Resolve(j, ids, round, h, now))
  {
    hide NextRound;
    var expired := j.(offers := TimeOutThese(j.offers, ids));
    var advanced := expired.(round := round + 1);
    assert AnyWith(expired.offers, ACCEPTED) ==> AnyWith(j.offers, ACCEPTED);
    assert AnyWith(OpenSelection(advanced, now).offers, ACCEPTED) ==> AnyWith(j.offers, ACCEPTED);
    SearchKeepsDeposit(advanced, round + 1, h, now);
  }

  lemma AnswerKeepsDeposit(j: Job, k: OfferId, quote: Option<int>, now: int)
    ensures SameDeposit(j, AnswerOffer(j, k, quote, now))
  {
  }

  lemma FollowUpKeepsDeposit(j: Job, f: FollowUp, window: int, now: int)
    ensures SameDeposit(j, RunFollowUp(j, f, window, now))
  {
    hide RunFollowUp;
    FollowUpMovesDeadlines(j, f, window, now);
    SameStatusesKeep(j.offers, RunFollowUp(j, f, window, now).offers);
  }

  lemma CloseKeepsDeposit(j: Job, now: int)
    ensures SameDeposit(j, OpenSelection(j, now))
  {
  }

  lemma ManualOfferKeepsDeposit(j: Job, operator: OperatorId, batch: BatchId, now: int)
    requires FreshBatch(j, batch)
    ensures SameDeposit(j, Next(j, OfferManually(operator, batch, now)))
  {
    hide Resolve, StartDispatch;
  }

  lemma QuietKeepsDeposit(j: Job, s: Step)
    requires Allowed(j, s) && (s.ResolveDispute? || s.Complete? || s.Ask?)
    ensures SameDeposit(j, Next(j, s))
  {
    hide Resolve, StartDispatch, AnyWith, L.HasSucceeded;
  }

  lemma EndingKeepsDeposit(j: Job, s: Step)
    requires Allowed(j, s)
    requires s.TimeOutSelection? || s.ExpireDeposit? || s.SweepOffers?
    ensures SameDeposit(j, Next(j, s))
  {
    hide Resolve, StartDispatch, Sweepable;
    var j' := Next(j, s);
    forall k | k in j'.offers && j'.offers[k].status == ACCEPTED ensures k in j.offers && j.offers[k].status == ACCEPTED {
    }
  }

  lemma InsertDeposit(j: Job, payment: PaymentId, deposit: int, now: int)
    requires L.Consistent(j.rows) && payment !in j.rows && !L.SlotTaken(j.rows, j.id, DEPOSIT)
    ensures L.Consistent(j.rows[payment := L.NewRow(j.id, DEPOSIT, deposit, None, now)])
    ensures DepositPaid(j.(rows := j.rows[payment := L.NewRow(j.id, DEPOSIT, deposit, None, now)])) <==> DepositPaid(j)
  {
    var row := L.NewRow(j.id, DEPOSIT, deposit, None, now);
    L.ApplyKeepsConsistent(j.rows, L.Create(payment, row));
    if DepositPaid(j) {
      var p :| p in j.rows && j.rows[p].request == j.id && j.rows[p].kind == DEPOSIT && j.rows[p].status == SUCCEEDED;
      assert j.rows[payment := row][p].status == SUCCEEDED;
    }
  }

  lemma SelectKeepsDeposit(j: Job, k: OfferId, payment: PaymentId, deposit: int, now: int)
    requires DepositInv(j) && CanSelect(j, k) && payment !in j.rows
    ensures DepositInv(SelectQuote(j, k, payment, deposit, now))
  {
    hide L.Consistent;
    InsertDeposit(j, payment, deposit, now);
    var j' := SelectQuote(j, k, payment, deposit, now);
    assert AnyWith(j'.offers, ACCEPTED) ==> AnyWith(j.offers, ACCEPTED);
  }

  lemma AssignKeepsDeposit(j: Job, operator: OperatorId, whatsapp: bool, price: int, batch: BatchId,
                           payment: PaymentId, deposit: int, now: int)
    requires DepositInv(j) && CanAssign(j, whatsapp) && payment !in j.rows
    ensures DepositInv(AssignByHand(j, operator, price, batch, payment, deposit, now))
  {
    hide L.Consistent;
    InsertDeposit(j, payment, deposit, now);
    var j' := AssignByHand(j, operator, price, batch, payment, deposit, now);
    assert AnyWith(j'.offers, ACCEPTED) ==> AnyWith(j.offers, ACCEPTED);
  }

  lemma LedgerKeepsPaid(j: Job, op: L.Op)
    requires L.Allowed(j.rows, op)
    ensures DepositPaid(j) ==> DepositPaid(ApplyLedger(j, op))
    ensures forall p | p in j.rows ::
              && p in L.Apply(j.rows, op) && L.SameSlot(L.Apply(j.rows, op)[p], j.rows[p])
              && (j.rows[p].status == SUCCEEDED ==> L.Apply(j.rows, op)[p].status == SUCCEEDED)
  {
    forall p | p in j.rows ensures p in L.Apply(j.rows, op) && L.SameSlot(L.Apply(j.rows, op)[p], j.rows[p])
      && (j.rows[p].status == SUCCEEDED ==> L.Apply(j.rows, op)[p].status == SUCCEEDED)
    {
      L.TerminalIsFinal(j.rows, op, p);
    }
    if DepositPaid(j) {
      var p :| p in j.rows && j.rows[p].request == j.id && j.rows[p].kind == DEPOSIT && j.rows[p].status == SUCCEEDED;
      assert L.Apply(j.rows, op)[p].status == SUCCEEDED;
    }
  }

  lemma LedgerKeepsDeposit(j: Job, op: L.Op)
    requires DepositInv(j) && L.Allowed(j.rows, op)
    ensures DepositInv(ApplyLedger(j, op))
  {
    hide L.Consistent, L.Apply, L.Allowed;
    L.ApplyKeepsConsistent(j.rows, op);
    LedgerKeepsPaid(j, op);
    if SettlesDeposit(j, op) { SettledRow(j, op); }
  }

  lemma SettledRow(j: Job, op: L.Op)
    requires SettlesDeposit(j, op)
    ensures op.id in L.Apply(j.rows, op)
    ensures var row := L.Apply(j.rows, op)[op.id];
            row.request == j.id && row.kind == DEPOSIT && row.status == SUCCEEDED
  {
  }

  lemma ReadKeepsDeposit(j: Job, payment: PaymentId)
    requires DepositInv(j) && payment in j.confirms
    ensures DepositInv(ReadDeposit(j, payment))
  {
    hide L.Consistent;
    assert j.rows[payment].status == SUCCEEDED;
  }

  lemma LandKeepsDeposit(j: Job, w: Write)
    requires DepositInv(j) && w in j.owed
    ensures DepositInv(LandWrite(j, w))
  {
    LandLeavesRest(j, w);
    LandMovesActivation(j, w);
    hide LandWrite, OnlyEnds;
  }

  lemma LandMovesActivation(j: Job, w: Write)
    requires w in j.owed
    ensures var j' := LandWrite(j, w);
            && (j'.status == OPERATOR_ASSIGNED ==> j.status == OPERATOR_ASSIGNED || w == Activate)
            && (j'.status == WAITING_FOR_DEPOSIT ==> j.status == WAITING_FOR_DEPOSIT)
            && j'.payBy == j.payBy && j'.assignedTo == j.assignedTo && (Activating(j') ==> Activating(j))
            && (UnderWay(j') ==> UnderWay(j) || w == Activate)
  {
    LandingOwes(j.owed, w);
    hide CloseOffers, Retire, Award, OwedAfter;
  }

  /** A landing write owes nothing new but what an activation goes on to do. */
  lemma LandingOwes(owed: multiset<Write>, w: Write)
    ensures OwedAfter(owed, w) <= owed + multiset{AwardOffers}
    ensures forall x :: x in OwedAfter(owed, w) ==> x in owed || (x == AwardOffers && w == Activate)
  {
  }

  lemma SameDepositChains(a: Job, b: Job, c: Job)
    requires SameDeposit(a, b) && SameDeposit(b, c)
    ensures SameDeposit(a, c)
  {
  }

  lemma MediaKeepsDeposit(j: Job)
    ensures SameDeposit(j, LandWrite(j, OpenDispatch)) && SameDeposit(j, j.(round := j.round + 1))
  {
  }

  /** The steps that insert, settle or confirm a deposit, or land a write that read one. */
  predicate TouchesDeposit(s: Step) {
    s.Select? || s.Assign? || s.LedgerStep? || s.Confirm? || s.Land?
  }

  /** All the others leave everything about the deposit alone. */
  lemma OthersKeepDeposit(j: Job, s: Step)
    requires Allowed(j, s) && !TouchesDeposit(s)
    ensures SameDeposit(j, Next(j, s))
  {
    hide SameDeposit, Resolve, StartDispatch, OpenSelection, AnswerOffer, RunFollowUp, LandWrite;
    SameDepositIsReflexive(j);
    match s
    case Answer(k, quote, now) => AnswerKeepsDeposit(j, k, quote, now);
    case AfterClaim(f, window, now) => FollowUpKeepsDeposit(j, f, window, now);
    case CloseBidding(now) => CloseKeepsDeposit(j, now);
    case OfferManually(operator, batch, now) => ManualOfferKeepsDeposit(j, operator, batch, now);
    case ResolveBatch(ids, round, h, now) => ResolveKeepsDeposit(j, ids, round, h, now);
    case FinishMedia(h, now, _) =>
      MediaKeepsDeposit(j);
      DispatchKeepsDeposit(LandWrite(j, OpenDispatch), h, now);
      SameDepositChains(j, LandWrite(j, OpenDispatch), StartDispatch(LandWrite(j, OpenDispatch), h, now));
    case Expand(h, now, _) =>
      var wider := j.(round := j.round + 1);
      MediaKeepsDeposit(j);
      DispatchKeepsDeposit(wider, h, now);
      SameDepositChains(j, wider, StartDispatch(wider, h, now));
    case TimeOutSelection(_) => EndingKeepsDeposit(j, s);
    case ExpireDeposit(_) => EndingKeepsDeposit(j, s);
    case SweepOffers(_, _) => EndingKeepsDeposit(j, s);
    case ResolveDispute => QuietKeepsDeposit(j, s);
    case Complete => QuietKeepsDeposit(j, s);
    case Ask(_) => QuietKeepsDeposit(j, s);
  }

  lemma StepKeepsDeposit(j: Job, s: Step)
    requires DepositInv(j) && Allowed(j, s)
    ensures DepositInv(Next(j, s))
  {
    hide DepositInv, SameDeposit, Resolve, StartDispatch, ApplyLedger, ReadDeposit, LandWrite, SelectQuote, AssignByHand;
    if !TouchesDeposit(s) {
      OthersKeepDeposit(j, s);
      SameDepositKeeps(j, Next(j, s));
    } else {
      match s
      case Select(k, payment, deposit, now) =>
        if CanSelect(j, k) { SelectKeepsDeposit(j, k, payment, deposit, now); }
      case Assign(operator, whatsapp, price, batch, payment, deposit, now) =>
        if CanAssign(j, whatsapp) { AssignKeepsDeposit(j, operator, whatsapp, price, batch, payment, deposit, now); }
      case LedgerStep(op) => LedgerKeepsDeposit(j, op);
      case Confirm(payment) => ReadKeepsDeposit(j, payment);
      case Land(w) => LandKeepsDeposit(j, w);
    }
  }

  /** Every transaction, by anyone, at any time, however stale its guard, keeps the invariant. */
  lemma NextKeepsInv(j: Job, s: Step)
    requires Inv(j) && Allowed(j, s)
    ensures Inv(Next(j, s))
  {
    hide AuctionInv, DepositInv, Next, Allowed;
    StepKeepsAuction(j, s);
    StepKeepsDeposit(j, s);
  }

  // ---- The shortlist, while reads are fresh ----------------------------------------

  /** While media is collected nothing has been auctioned. */
  ghost predicate MediaFirst(j: Job) {
    && (j.awaitingMedia ==>
          && j.status in {WAITING_FOR_MEDIA, WAITING_FOR_DEPOSIT, OPERATOR_ASSIGNED}
          && j.collectBy.None? && j.closedAt.None? && j.followUps == {}
          && forall k | k in j.offers :: j.offers[k].status == SELECTED_PENDING_PAYMENT)
    && (Arrive in j.owed || Dispute in j.owed ==> !j.awaitingMedia)
  }

  /** A dispatching request whose collection began, closed, or is about to begin, holds a quote. */
  ghost predicate ShortlistBacked(j: Job) {
    j.status == DISPATCHING && (j.collectBy.Some? || j.closedAt.Some? || (exists f :: f in j.followUps && f.quoted)) ==>
      AnyWith(j.offers, QUOTED)
  }

  ghost predicate Backed(j: Job) { MediaFirst(j) && ShortlistBacked(j) }

  lemma QuoteRemains(before: Offers, after: Offers)
    requires forall k | k in before && before[k].status == QUOTED :: k in after && after[k].status == QUOTED
    ensures AnyWith(before, QUOTED) ==> AnyWith(after, QUOTED)
  {
    if AnyWith(before, QUOTED) {
      var k :| k in before && before[k].status == QUOTED;
      assert after[k].status == QUOTED;
    }
  }

  lemma AnswerKeepsBacked(j: Job, k: OfferId, price: Option<int>, now: int)
    requires Backed(j)
    ensures Backed(AnswerOffer(j, k, price, now))
  {
    var j' := AnswerOffer(j, k, price, now);
    QuoteRemains(j.offers, j'.offers);
    assert Claims(j, k, price, now) && price.Some? ==> j'.offers[k].status == QUOTED;
  }

  lemma FollowUpKeepsBacked(j: Job, f: FollowUp, window: int, now: int)
    requires Backed(j) && f in j.followUps
    ensures Backed(RunFollowUp(j, f, window, now))
  {
    hide RunFollowUp;
    FollowUpMovesDeadlines(j, f, window, now);
    SameStatusesKeep(j.offers, RunFollowUp(j, f, window, now).offers);
  }

  lemma WriteRoundKeepsBacked(j: Job, who: set<OperatorId>, round: nat, batch: BatchId, expiresAt: int)
    requires Backed(j) && !j.awaitingMedia && FreshBatch(j, batch)
    ensures Backed(WriteRound(j, who, round, batch, expiresAt))
  {
    QuoteRemains(j.offers, WriteRound(j, who, round, batch, expiresAt).offers);
  }

  lemma NextRoundKeepsBacked(j: Job, start: nat, h: Hunt, now: int)
    requires Backed(j) && !j.awaitingMedia && FreshBatch(j, h.batch)
    ensures Backed(NextRound(j, start, h, now))
  {
    hide WriteRound;
    match Search(h.find, h.covered, h.cap, start)
    case Candidates(r, _, who) => WriteRoundKeepsBacked(j, Asked(who, h.size), r, h.batch, now + h.window);
    case NoCoverage(r, x) =>
    case RoundsExhausted(r, x) =>
  }

  lemma StartDispatchKeepsBacked(j: Job, h: Hunt, now: int)
    requires Backed(j) && !j.awaitingMedia && FreshBatch(j, h.batch)
    ensures Backed(StartDispatch(j, h, now))
  {
    hide Backed, NextRound;
    NextRoundKeepsBacked(j, j.round, h, now);
  }

  lemma ResolveKeepsBacked(j: Job, ids: set<OfferId>, round: nat, h: Hunt, now: int)
    requires Backed(j) && FreshBatch(j, h.batch) && Queried(j, ids, round, now)
    ensures Backed(Resolve(j, ids, round, h, now))
  {
    hide NextRound;
    var expired := j.(offers := TimeOutThese(j.offers, ids));
    var advanced := expired.(round := round + 1);
    QuoteRemains(j.offers, expired.offers);
    if ClaimsRound(j, round) {
      if AnyWith(expired.offers, QUOTED) {
        QuoteRemains(expired.offers, OpenSelection(advanced, now).offers);
      } else {
        NextRoundKeepsBacked(advanced, round + 1, h, now);
      }
    }
  }

  /** A write landing while its read still holds. */
  lemma LandKeepsBacked(j: Job, w: Write)
    requires Backed(j) && w in j.owed && !ReadIsStale(j, w)
    ensures Backed(LandWrite(j, w))
  {
    LandLeavesRest(j, w);
    LandingOwes(j.owed, w);
    hide OwedAfter;
    if w in {Activate, Arrive, Dispute, OpenDispatch} { assert LandWrite(j, w).offers == j.offers; }
    hide CloseOffers, Retire, OnlyEnds;
    if w == AwardOffers && j.assignedTo.Some? { QuoteRemains(j.offers, LandWrite(j, w).offers); }
  }

  lemma ManualOfferKeepsBacked(j: Job, operator: OperatorId, batch: BatchId, now: int)
    requires Backed(j) && FreshBatch(j, batch)
    ensures Backed(Next(j, OfferManually(operator, batch, now)))
  {
    hide Resolve, StartDispatch;
    QuoteRemains(j.offers, Next(j, OfferManually(operator, batch, now)).offers);
  }

  lemma QuietKeepsBacked(j: Job, s: Step)
    requires Backed(j) && Allowed(j, s)
    requires s.LedgerStep? || s.Confirm? || s.Ask? || s.ResolveDispute? || s.Complete?
    ensures Backed(Next(j, s))
  {
    hide Resolve, StartDispatch, L.Apply, L.Allowed, L.HasSucceeded, SettlesDeposit, AnyWith;
  }

  lemma TimeoutKeepsBacked(j: Job, s: Step)
    requires Backed(j) && Allowed(j, s)
    requires s.CloseBidding? || s.TimeOutSelection? || s.ExpireDeposit? || s.SweepOffers? || s.Select? || s.Assign?
    ensures Backed(Next(j, s))
  {
    hide Resolve, StartDispatch, Sweepable, L.SlotTaken;
    var j' := Next(j, s);
    if s.CloseBidding? || s.SweepOffers? { QuoteRemains(j.offers, j'.offers); }
  }

  /** While no write lands stale, every transaction keeps each shortlist backed by a quote. */
  lemma FreshStepKeepsBacked(j: Job, s: Step)
    requires Backed(j) && Allowed(j, s) && !StaleWrite(j, s)
    ensures Backed(Next(j, s))
  {
    hide Backed, Resolve, StartDispatch, AnswerOffer, RunFollowUp, LandWrite;
    match s
    case Answer(k, quote, now) => AnswerKeepsBacked(j, k, quote, now);
    case AfterClaim(f, window, now) => FollowUpKeepsBacked(j, f, window, now);
    case ResolveBatch(ids, round, h, now) => ResolveKeepsBacked(j, ids, round, h, now);
    case FinishMedia(h, now, _) =>
      LandKeepsBacked(j, OpenDispatch);
      MediaKeepsOffers(j);
      StartDispatchKeepsBacked(LandWrite(j, OpenDispatch), h, now);
    case Expand(h, now, _) =>
      DispatchingIsPastMedia(j);
      StartDispatchKeepsBacked(j.(round := j.round + 1), h, now);
    case OfferManually(operator, batch, now) => ManualOfferKeepsBacked(j, operator, batch, now);
    case Land(w) => LandKeepsBacked(j, w);
    case Assign(_, _, _, _, _, _, _) => TimeoutKeepsBacked(j, s);
    case CloseBidding(_) => TimeoutKeepsBacked(j, s);
    case Select(_, _, _, _) => TimeoutKeepsBacked(j, s);
    case TimeOutSelection(_) => TimeoutKeepsBacked(j, s);
    case ExpireDeposit(_) => TimeoutKeepsBacked(j, s);
    case SweepOffers(_, _) => TimeoutKeepsBacked(j, s);
    case LedgerStep(_) => QuietKeepsBacked(j, s);
    case Confirm(_) => QuietKeepsBacked(j, s);
    case Ask(_) => QuietKeepsBacked(j, s);
    case ResolveDispute => QuietKeepsBacked(j, s);
    case Complete => QuietKeepsBacked(j, s);
  }

  lemma DispatchingIsPastMedia(j: Job)
    requires Backed(j) && j.status == DISPATCHING
    ensures !j.awaitingMedia && Backed(j.(round := j.round + 1))
  {
  }
}
