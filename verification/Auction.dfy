/** What each dispatch transaction leaves, row by row: every offer, every deadline and the
    request's status, told from the values that were there before. And where each price comes
    from over a whole run. */
module Auction {
  import opened Payments
  import opened RoundSearch
  import opened Dispatch
  import opened Bidding
  import opened Handover
  import L = Ledger

  predicate Pending(j: Job, k: OfferId) { k in j.offers && j.offers[k].status == OFFERED }

  // ---- An operator's answer -----------------------------------------------------------

  /** The offer is pending and unexpired, and the shortlist has not gone out. */
  predicate InTime(j: Job, k: OfferId, now: int) {
    && Pending(j, k) && now < j.offers[k].expiresAt
    && j.closedAt.None? && (j.collectBy.Some? ==> now < j.collectBy.value)
  }

  /** After bidding has closed a quote is only kept for the record; a decline still counts. */
  predicate Late(j: Job, now: int) { j.closedAt.Some? || (j.collectBy.Some? && j.collectBy.value <= now) }

  /** A timely quote joins the shortlist at exactly its price, a decline leaves, a late quote is
      recorded out of the running, and an answer to anything else changes nothing. Only the
      first two owe a follow-up; every other offer, and every deadline, stands. */
  ghost predicate Answered(j: Job, j': Job, k: OfferId, price: Option<int>, now: int) {
    var status :=
      if !Pending(j, k) then None
      else if price.Some? && Late(j, now) then Some(NOT_SELECTED)
      else if j.offers[k].expiresAt <= now then None
      else if price.Some? then Some(QUOTED)
      else Some(DECLINED);
    && j' == j.(offers := j'.offers, followUps := j'.followUps) && j'.offers.Keys == j.offers.Keys
    && (forall o | o in j.offers && o != k :: j'.offers[o] == j.offers[o])
    && (k in j.offers ==> j'.offers[k] == if status.Some? then j.offers[k].(status := status.value, price := price) else j.offers[k])
    && j'.followUps == j.followUps + if status == Some(QUOTED) || status == Some(DECLINED) then {FollowUp(k, price.Some?)} else {}
  }

  lemma AnswerWrites(j: Job, k: OfferId, price: Option<int>, now: int)
    ensures Answered(j, AnswerOffer(j, k, price, now), k, price, now)
    ensures Claims(j, k, price, now) <==> Pending(j, k) && now < j.offers[k].expiresAt && (price.Some? ==> InTime(j, k, now))
  {
  }

  // ---- What an answer is followed by ----------------------------------------------------

  /** The first quote sets the deadline and cuts pending offers to it; with nobody left to wait
      for, the collection ends at once. */
  ghost predicate Collecting(j: Job, collectBy: Option<int>, offers: Offers, deadline: int, now: int) {
    var waiting := exists k :: Pending(j, k);
    && offers.Keys == j.offers.Keys && collectBy == Some(if !waiting && j.status == DISPATCHING && j.closedAt.None? && now < deadline then now else deadline)
    && forall k | k in j.offers ::
         offers[k] == if j.collectBy.None? && Pending(j, k)
                      then j.offers[k].(expiresAt := Min(j.offers[k].expiresAt, deadline)) else j.offers[k]
  }

  /** A decline before any quote ends its batch when the batch has nobody left. */
  ghost predicate BatchLetGo(j: Job, collectBy: Option<int>, offers: Offers, batch: BatchId, now: int) {
    var waiting := exists k :: Pending(j, k) && k.batch == batch;
    && offers.Keys == j.offers.Keys && collectBy == None
    && forall k | k in j.offers ::
         offers[k] == if k.batch == batch && !waiting
                      then j.offers[k].(expiresAt := Min(j.offers[k].expiresAt, now)) else j.offers[k]
  }

  /** Only deadlines move, and the debt is paid. */
  ghost predicate FollowedUp(j: Job, j': Job, f: FollowUp, window: int, now: int) {
    && j' == j.(collectBy := j'.collectBy, offers := j'.offers, followUps := j.followUps - {f})
    && match j.collectBy
       case Some(deadline) => Collecting(j, j'.collectBy, j'.offers, deadline, now)
       case None => if f.quoted then Collecting(j, j'.collectBy, j'.offers, now + window, now)
                    else BatchLetGo(j, j'.collectBy, j'.offers, f.offer.batch, now)
  }

  lemma SomebodyWaits(j: Job, begun: Job)
    requires forall k :: Pending(begun, k) <==> Pending(j, k)
    ensures AnyWith(begun.offers, OFFERED) <==> exists k :: Pending(j, k)
  {
    if AnyWith(begun.offers, OFFERED) {
      var k :| k in begun.offers && begun.offers[k].status == OFFERED;
      assert Pending(begun, k);
    }
    if k :| Pending(j, k) { assert Pending(begun, k); }
  }

  lemma BatchWaits(j: Job, begun: Job, batch: BatchId)
    requires forall k :: Pending(begun, k) <==> Pending(j, k)
    ensures (exists k :: k in begun.offers && k.batch == batch && begun.offers[k].status == OFFERED) <==>
            exists k :: Pending(j, k) && k.batch == batch
  {
    if k :| k in begun.offers && k.batch == batch && begun.offers[k].status == OFFERED { assert Pending(begun, k); }
    if k :| Pending(j, k) && k.batch == batch { assert Pending(begun, k); }
  }

  lemma FirstQuoteWrites(j: Job, deadline: int, batch: BatchId, now: int)
    requires j.collectBy.None?
    ensures var j' := ResolveEarly(BeginCollection(j, deadline), batch, now); Collecting(j, j'.collectBy, j'.offers, deadline, now)
  {
    SomebodyWaits(j, BeginCollection(j, deadline));
    hide AnyWith;
  }

  lemma LaterAnswerWrites(j: Job, batch: BatchId, now: int)
    requires j.collectBy.Some?
    ensures var j' := ResolveEarly(j, batch, now); Collecting(j, j'.collectBy, j'.offers, j.collectBy.value, now)
  {
    SomebodyWaits(j, j);
    hide AnyWith;
  }

  lemma DeclineWrites(j: Job, batch: BatchId, now: int)
    requires j.collectBy.None?
    ensures var j' := ResolveEarly(j, batch, now); BatchLetGo(j, j'.collectBy, j'.offers, batch, now)
  {
    BatchWaits(j, j, batch);
  }

  lemma BeginChanges(j: Job, deadline: int)
    ensures var begun := BeginCollection(j, deadline);
            begun == j.(collectBy := begun.collectBy, offers := begun.offers) && (j.collectBy.Some? ==> begun == j)
  {
    hide ClampPending;
  }

  lemma OnlyTheDebt(j: Job, batch: BatchId, now: int)
    ensures var j' := ResolveEarly(j, batch, now); j' == j.(collectBy := j'.collectBy, offers := j'.offers)
  {
    hide AnyWith;
  }

  lemma FollowUpFrame(j: Job, f: FollowUp, window: int, now: int)
    ensures var early := ResolveEarly(if f.quoted then BeginCollection(j, now + window) else j, f.offer.batch, now);
            RunFollowUp(j, f, window, now) ==
              j.(collectBy := early.collectBy, offers := early.offers, followUps := j.followUps - {f})
  {
    BeginChanges(j, now + window);
    OnlyTheDebt(if f.quoted then BeginCollection(j, now + window) else j, f.offer.batch, now);
    hide BeginCollection, ResolveEarly;
  }

  lemma FollowUpWrites(j: Job, f: FollowUp, window: int, now: int)
    ensures FollowedUp(j, RunFollowUp(j, f, window, now), f, window, now)
  {
    FollowUpFrame(j, f, window, now);
    BeginChanges(j, now + window);
    hide RunFollowUp, BeginCollection, ResolveEarly, Collecting, BatchLetGo;
    if j.collectBy.Some? {
      LaterAnswerWrites(j, f.offer.batch, now);
    } else if f.quoted {
      FirstQuoteWrites(j, now + window, f.offer.batch, now);
    } else {
      DeclineWrites(j, f.offer.batch, now);
    }
  }

  // ---- A round --------------------------------------------------------------------------

  /** The first candidates found are asked, each once, until the window or the collection's end;
      when nobody is found the request goes to staff if a backup exists, and is cancelled if
      none does. */
  ghost predicate RoundOpened(j: Job, j': Job, start: nat, h: Hunt, now: int, found: Found) {
    var until := if j.collectBy.Some? then Min(now + h.window, j.collectBy.value) else now + h.window;
    && Answers(h.find, h.covered, h.cap, start, found)
    && j'.round == found.round
    && (found.Candidates? ==>
          var asked := set i | 0 <= i < |found.who| && i < h.size :: found.who[i];
          && j' == j.(round := j'.round, needsManual := false, offered := j.offered + asked, offers := j'.offers)
          && (forall k :: k in j'.offers <==> k in j.offers || (k.batch == h.batch && k.operator in asked))
          && (forall k | k in j'.offers ::
                j'.offers[k] == if k.batch == h.batch && k.operator in asked then Offer(OFFERED, None, until, found.round, true)
                                else j.offers[k]))
    && (!found.Candidates? ==>
          if h.backups(found.extraRadiusKm) != [] then j' == j.(round := j'.round, needsManual := true)
          else && j' == j.(round := j'.round, needsManual := false, status := CANCELLED, awaitingMedia := false, offers := j'.offers)
               && NobodyWaits(j, j'))
  }

  /** Every pending offer has timed out, and no other offer has changed. */
  ghost predicate NobodyWaits(j: Job, j': Job) {
    && j'.offers.Keys == j.offers.Keys
    && forall k | k in j.offers :: j'.offers[k] == if Pending(j, k) then j.offers[k].(status := TIMED_OUT) else j.offers[k]
  }

  lemma RoundWrites(j: Job, start: nat, h: Hunt, now: int)
    ensures RoundOpened(j, NextRound(j, start, h, now), start, h, now, Search(h.find, h.covered, h.cap, start))
  {
    var found := Search(h.find, h.covered, h.cap, start);
    var j' := NextRound(j, start, h, now);
    if found.Candidates? {
      var asked := Asked(found.who, h.size);
      forall k ensures k in FreshOffers(h.batch, asked, 0, 0) <==> k.batch == h.batch && k.operator in asked {
        assert k == Key(k.batch, k.operator);
      }
    }
  }

  /** A request that has moved on, has a quote, or is past its collection opens no round. */
  ghost predicate Started(j: Job, j': Job, h: Hunt, now: int, found: Found) {
    if j.status in {WAITING_FOR_DEPOSIT, OPERATOR_ASSIGNED, COMPLETED, CANCELLED} || Late(j, now) ||
       exists k :: k in j.offers && j.offers[k].status == QUOTED
    then j' == j
    else RoundOpened(j, j', j.round, h, now, found)
  }

  lemma StartWrites(j: Job, h: Hunt, now: int)
    ensures Started(j, StartDispatch(j, h, now), h, now, Search(h.find, h.covered, h.cap, j.round))
  {
    RoundWrites(j, j.round, h, now);
    hide NextRound, RoundOpened;
  }

  // ---- The checks -----------------------------------------------------------------------

  /** Bidding is stamped closed, the motorist has five minutes, and nobody is waited for. */
  ghost predicate ShortlistSent(j: Job, j': Job, now: int) {
    && j' == j.(closedAt := Some(now), chooseBy := Some(now + 300_000), offers := j'.offers)
    && NobodyWaits(j, j')
  }

  lemma OpeningWrites(j: Job, now: int)
    ensures ShortlistSent(j, OpenSelection(j, now), now)
  {
  }

  /** The listed offers that were still pending time out; the others stand. */
  ghost predicate TheseTimedOut(before: Offers, after: Offers, ids: set<OfferId>) {
    && after.Keys == before.Keys
    && forall k | k in before ::
         after[k] == if k in ids && before[k].status == OFFERED then before[k].(status := TIMED_OUT) else before[k]
  }

  /** The expired offers time out. If their batch still owns the round, the request goes one
      round on: to the motorist when somebody has quoted, else to the next operators. */
  ghost predicate BatchResolved(j: Job, j': Job, ids: set<OfferId>, round: nat, h: Hunt, now: int, expired: Offers, found: Found) {
    && TheseTimedOut(j.offers, expired, ids)
    && if j.status != DISPATCHING || j.collectBy.Some? || j.round != round then j' == j.(offers := expired)
       else if exists k :: k in j.offers && j.offers[k].status == QUOTED
       then ShortlistSent(j.(offers := expired, round := round + 1), j', now)
       else RoundOpened(j.(offers := expired, round := round + 1), j', round + 1, h, now, found)
  }

  lemma ResolvingWrites(j: Job, ids: set<OfferId>, round: nat, h: Hunt, now: int)
    ensures BatchResolved(j, Resolve(j, ids, round, h, now), ids, round, h, now, TimeOutThese(j.offers, ids),
                          Search(h.find, h.covered, h.cap, round + 1))
  {
    var advanced := j.(offers := TimeOutThese(j.offers, ids), round := round + 1);
    RoundWrites(advanced, round + 1, h, now);
    OpeningWrites(advanced, now);
    TimingOutKeepsQuotes(j.offers, ids);
    hide NextRound, OpenSelection, RoundOpened, ShortlistSent, TimeOutThese, TheseTimedOut, AnyWith;
  }

  lemma TimingOutKeepsQuotes(offers: Offers, ids: set<OfferId>)
    ensures TheseTimedOut(offers, TimeOutThese(offers, ids), ids)
    ensures AnyWith(TimeOutThese(offers, ids), QUOTED) <==> exists k :: k in offers && offers[k].status == QUOTED
  {
    var after := TimeOutThese(offers, ids);
    if AnyWith(after, QUOTED) {
      var k :| k in after && after[k].status == QUOTED;
      assert offers[k].status == QUOTED;
    }
    if k :| k in offers && offers[k].status == QUOTED { assert after[k].status == QUOTED; }
  }

  /** The request ends, and the offers that were still to lead somewhere end with it. */
  ghost predicate EndedWith(j: Job, j': Job, fate: map<OfferStatus, OfferStatus>) {
    && j' == j.(status := CANCELLED, needsManual := false, awaitingMedia := false, offers := j'.offers)
    && j'.offers.Keys == j.offers.Keys
    && forall k | k in j.offers ::
         j'.offers[k] == if j.offers[k].status in fate then j.offers[k].(status := fate[j.offers[k].status]) else j.offers[k]
  }

  /** Two windows end a request, each only on its own status and strictly after its end. */
  lemma WindowsWrite(j: Job, now: int)
    ensures var j' := Next(j, TimeOutSelection(now));
            if j.status == DISPATCHING && j.chooseBy.Some? && j.chooseBy.value < now
            then EndedWith(j, j', map[QUOTED := TIMED_OUT]) else j' == j
    ensures var j' := Next(j, ExpireDeposit(now));
            if j.status == WAITING_FOR_DEPOSIT && j.payBy.Some? && j.payBy.value < now
            then EndedWith(j, j', map[SELECTED_PENDING_PAYMENT := TIMED_OUT]) else j' == j
  {
    hide StartDispatch, Resolve;
  }

  lemma ClosingWrites(j: Job, now: int)
    ensures var j' := Next(j, CloseBidding(now));
            if j.status == DISPATCHING && j.closedAt.None? && j.collectBy.Some? && j.collectBy.value < now
            then ShortlistSent(j, j', now) else j' == j
  {
    hide StartDispatch, Resolve;
  }

  lemma SweepingWrites(j: Job, ids: set<OfferId>, now: int)
    ensures var j' := Next(j, SweepOffers(ids, now));
            && j' == j.(offers := j'.offers)
            && TheseTimedOut(j.offers, j'.offers, set k | k in ids && k in j.offers && j.status != DISPATCHING &&
                 (j.offers[k].expiresAt < now || j.status == COMPLETED || j.status == CANCELLED))
  {
    hide StartDispatch, Resolve;
  }

  // ---- Staff ----------------------------------------------------------------------------

  /** While bidding is open, an operator who neither has a quote standing nor an offer to answer
      gets one: five minutes, but not past the collection's end. */
  lemma ManualOfferWrites(j: Job, operator: OperatorId, batch: BatchId, now: int)
    requires FreshBatch(j, batch)
    ensures var j' := Next(j, OfferManually(operator, batch, now));
            if j.status == DISPATCHING && !Late(j, now) &&
               forall k | k in j.offers && k.operator == operator ::
                 j.offers[k].status != QUOTED && !(Pending(j, k) && now < j.offers[k].expiresAt)
            then
              var until := if j.collectBy.Some? then Min(now + 300_000, j.collectBy.value) else now + 300_000;
              j' == j.(offered := j.offered + {operator},
                       offers := j.offers[Key(batch, operator) := Offer(OFFERED, None, until, j.round, true)])
            else j' == j
  {
    hide StartDispatch, Resolve;
    assert Engaged(j, operator, now) <==>
           !forall k | k in j.offers && k.operator == operator ::
             j.offers[k].status != QUOTED && !(Pending(j, k) && now < j.offers[k].expiresAt);
  }

  /** A live request can be given to an operator on WhatsApp, or to any once staff own it,
      unless a deposit is in flight: the motorist has half an hour to pay the one inserted. */
  lemma AssigningWrites(j: Job, operator: OperatorId, whatsapp: bool, price: int, batch: BatchId,
                        payment: PaymentId, deposit: int, now: int)
    requires Allowed(j, Assign(operator, whatsapp, price, batch, payment, deposit, now))
    ensures var j' := Next(j, Assign(operator, whatsapp, price, batch, payment, deposit, now));
            var k := Key(batch, operator);
            var paying := exists p :: p in j.rows && j.rows[p].request == j.id && j.rows[p].kind == DEPOSIT && InFlight(j.rows[p].status);
            if j.status in {COMPLETED, CANCELLED} || (!whatsapp && !j.needsManual) || paying then j' == j
            else
              && j' == j.(status := WAITING_FOR_DEPOSIT, needsManual := false, assignedTo := Some(operator),
                          payBy := Some(now + 1_800_000), offers := j'.offers, rows := j'.rows)
              && k !in j.offers && j'.offers.Keys == j.offers.Keys + {k} && (forall o | o in j.offers :: j'.offers[o] == j.offers[o])
              && j'.offers[k] == Offer(SELECTED_PENDING_PAYMENT, Some(price), now + 1_800_000, j.round, false)
              && j'.rows.Keys == j.rows.Keys + {payment} && (forall p | p in j.rows :: j'.rows[p] == j.rows[p])
              && j'.rows[payment] == Payment(j.id, DEPOSIT, PENDING, deposit, None, None, now, 0, None, None, now)
  {
    hide StartDispatch, Resolve;
  }

  // ---- Status writes --------------------------------------------------------------------

  /** Each status write as it lands. An activation goes on to award: the assigned operator's
      selected offers, and no others, are accepted. The three endings differ in what they do
      to the offers. */
  lemma LandingWrites(j: Job, w: Write)
    ensures var j' := LandWrite(j, w).(owed := j.owed);
            match w
            case Activate => j' == j.(status := OPERATOR_ASSIGNED, stage := if j.stage == InDispute then InDispute else Begun)
            case AwardOffers =>
              if j.assignedTo.None? then j' == j
              else
                && j' == j.(awaitingMedia := false, offers := j'.offers) && j'.offers.Keys == j.offers.Keys
                && forall k | k in j.offers ::
                     j'.offers[k] == if j.assignedTo == Some(k.operator) && j.offers[k].status == SELECTED_PENDING_PAYMENT
                                     then j.offers[k].(status := ACCEPTED) else j.offers[k]
            case Refuse =>
              EndedWith(j, j', map[SELECTED_PENDING_PAYMENT := TIMED_OUT, OFFERED := TIMED_OUT, QUOTED := NOT_SELECTED])
            case Withdraw => EndedWith(j, j', map[OFFERED := TIMED_OUT, QUOTED := NOT_SELECTED])
            case Abandon => EndedWith(j, j', map[])
            case Arrive => j' == j.(status := ARRIVED)
            case Dispute => j' == if j.stage == InDispute then j else j.(status := IN_DISPUTE, stage := InDispute)
            case OpenDispatch => j' == j.(status := DISPATCHING, awaitingMedia := false)
    ensures LandWrite(j, w).owed == j.owed - multiset{w} + if w == Activate then multiset{AwardOffers} else multiset{}
  {
  }

  /** What a caller must have read to write later: a motorist withdraws no job an operator has
      begun, and nobody arrives at, disputes or completes a job that was never activated. */
  lemma AskingReads(j: Job, w: Write)
    ensures var onJob := j.stage != NotBegun && !j.awaitingMedia;
            && (Allowed(j, Ask(w)) <==>
                  (w == OpenDispatch && j.awaitingMedia) ||
                  (w in {Arrive, Dispute} && onJob && j.status != COMPLETED && j.status != CANCELLED) ||
                  (w == Withdraw && j.status !in {OPERATOR_ASSIGNED, IN_PROGRESS, ARRIVED, IN_DISPUTE}) ||
                  (w == Abandon && j.status == WAITING_FOR_MEDIA))
            && (Allowed(j, Complete) <==> onJob)
            && (onJob ==> Next(j, Complete) == j.(status := COMPLETED))
  {
    hide StartDispatch, Resolve;
  }

  // ---- Selection and payment ------------------------------------------------------------

  /** Exactly the chosen offer waits for the deposit, no other stays open, and the one new row is
      a deposit due in half an hour. */
  ghost predicate Selected(j: Job, j': Job, k: OfferId, payment: PaymentId, deposit: int, now: int) {
    && j' == j.(status := WAITING_FOR_DEPOSIT, assignedTo := Some(k.operator), payBy := Some(now + 1_800_000),
                offers := j'.offers, rows := j'.rows)
    && j'.offers.Keys == j.offers.Keys
    && (forall o | o in j.offers ::
          j'.offers[o] == j.offers[o].(status :=
            if o == k then SELECTED_PENDING_PAYMENT
            else if j.offers[o].status == QUOTED then NOT_SELECTED
            else if j.offers[o].status == OFFERED then TIMED_OUT
            else j.offers[o].status))
    && j'.rows == j.rows[payment := Payment(j.id, DEPOSIT, PENDING, deposit, None, None, now, 0, None, None, now)]
  }

  lemma TakingWrites(j: Job, k: OfferId, payment: PaymentId, deposit: int, now: int)
    requires k in j.offers
    ensures Selected(j, SelectQuote(j, k, payment, deposit, now), k, payment, deposit, now)
  {
  }

  /** The motorist's choice. A quote that is gone, or a deposit in flight, changes nothing. */
  lemma SelectingWrites(j: Job, k: OfferId, payment: PaymentId, deposit: int, now: int)
    requires payment !in j.rows
    ensures var j' := Next(j, Select(k, payment, deposit, now));
            var paying := exists p :: p in j.rows && j.rows[p].request == j.id && j.rows[p].kind == DEPOSIT && InFlight(j.rows[p].status);
            if j.status != DISPATCHING || k !in j.offers || j.offers[k].status != QUOTED || paying then j' == j
            else Selected(j, j', k, payment, deposit, now)
  {
    hide StartDispatch, Resolve, SelectQuote, Selected;
    if CanSelect(j, k) { TakingWrites(j, k, payment, deposit, now); }
  }

  /** A ledger statement owes the request a confirmation exactly when it makes one of its deposits
      succeed; the confirmation then reads what there is to do: to activate, to refuse a job
      without an operator, or nothing when the window has gone. */
  lemma ConfirmingWrites(j: Job, op: L.Op, payment: PaymentId)
    requires L.Allowed(j.rows, op)
    ensures var j' := ApplyLedger(j, op);
            && j' == j.(rows := L.Apply(j.rows, op), confirms := j'.confirms)
            && forall p :: p in j'.confirms <==>
                 || p in j.confirms
                 || (p in j.rows && j.rows[p].request == j.id && j.rows[p].kind == DEPOSIT &&
                     j.rows[p].status != SUCCEEDED && j'.rows[p].status == SUCCEEDED)
    ensures ReadDeposit(j, payment) ==
              j.(confirms := j.confirms - {payment},
                 owed := j.owed + if j.status != WAITING_FOR_DEPOSIT then multiset{}
                                  else if j.assignedTo.Some? then multiset{Activate}
                                  else multiset{Refuse})
  {
    assert j.owed + multiset{} == j.owed;
    if op.Settle? && op.id in j.rows { L.TerminalIsFinal(j.rows, op, op.id); }
  }

  function PaidSteps(payment: PaymentId): seq<Step> {
    [LedgerStep(L.Settle(payment, Plain(SUCCEEDED)))] + ([Confirm(payment)] + ([Land(Activate)] + ([Land(AwardOffers)] + [])))
  }

  /** A waiting request whose deposit succeeds in time is activated: with nothing in between, the
      settlement, the confirmation and its two writes leave the job with its operator, the
      chosen offer accepted, everything else as it was and nothing more owed. */
  lemma PaymentActivates(j: Job, payment: PaymentId)
    requires j.status == WAITING_FOR_DEPOSIT && j.assignedTo.Some? && payment in j.rows && payment !in j.confirms
    requires j.rows[payment].request == j.id && j.rows[payment].kind == DEPOSIT && j.rows[payment].status in {SUBMITTED, BLOCKED}
    requires !L.SucceededSibling(j.rows, payment)
    ensures AllowedRun(j, PaidSteps(payment))
    ensures var j' := After(j, PaidSteps(payment));
            && j' == j.(status := OPERATOR_ASSIGNED, stage := if j.stage == InDispute then InDispute else Begun, awaitingMedia := false,
                        offers := j'.offers, rows := j'.rows)
            && j'.rows == j.rows[payment := j.rows[payment].(status := SUCCEEDED, blockReason := None)]
            && j'.offers.Keys == j.offers.Keys
            && forall k | k in j.offers ::
                 j'.offers[k] == if k.operator == j.assignedTo.value && j.offers[k].status == SELECTED_PENDING_PAYMENT
                                 then j.offers[k].(status := ACCEPTED) else j.offers[k]
  {
    var settle := LedgerStep(L.Settle(payment, Plain(SUCCEEDED)));
    assert PaidSteps(payment) == [settle] + ([Confirm(payment)] + ([Land(Activate)] + ([Land(AwardOffers)] + [])));
    hide *;
    DepositSettles(j, payment);
    var j1 := Next(j, settle);
    ConfirmationReads(j1, payment);
    var j2 := Next(j1, Confirm(payment));
    assert j2 == j.(rows := j1.rows, owed := j.owed + multiset{Activate});
    ActivationLands(j2);
    var j3 := Next(j2, Land(Activate));
    assert j3.owed == j.owed + multiset{AwardOffers};
    AwardLands(j3);
    assert Next(j3, Land(AwardOffers)).owed == j.owed;
    RunOfFour(j, settle, Confirm(payment), Land(Activate), Land(AwardOffers));
  }

  lemma RunOfFour(j: Job, a: Step, b: Step, c: Step, d: Step)
    requires Allowed(j, a) && Allowed(Next(j, a), b) && Allowed(Next(Next(j, a), b), c)
    requires Allowed(Next(Next(Next(j, a), b), c), d)
    ensures AllowedRun(j, [a] + ([b] + ([c] + ([d] + []))))
    ensures After(j, [a] + ([b] + ([c] + ([d] + [])))) == Next(Next(Next(Next(j, a), b), c), d)
  {
    hide Next, Allowed;
    var j1 := Next(j, a);
    var j2 := Next(j1, b);
    Prepend(Next(j2, c), d, []);
    Prepend(j2, c, [d] + []);
    Prepend(j1, b, [c] + ([d] + []));
    Prepend(j, a, [b] + ([c] + ([d] + [])));
  }

  lemma ConfirmationReads(j: Job, payment: PaymentId)
    requires payment in j.confirms && j.status == WAITING_FOR_DEPOSIT && j.assignedTo.Some?
    ensures Allowed(j, Confirm(payment))
    ensures Next(j, Confirm(payment)) == j.(confirms := j.confirms - {payment}, owed := j.owed + multiset{Activate})
  {
    hide StartDispatch, Resolve;
  }

  lemma ActivationLands(j: Job)
    requires Activate in j.owed
    ensures Allowed(j, Land(Activate))
    ensures Next(j, Land(Activate)) ==
              j.(status := OPERATOR_ASSIGNED, stage := if j.stage == InDispute then InDispute else Begun,
                 owed := j.owed - multiset{Activate} + multiset{AwardOffers})
  {
    hide StartDispatch, Resolve;
  }

  lemma AwardLands(j: Job)
    requires AwardOffers in j.owed && j.assignedTo.Some?
    ensures Allowed(j, Land(AwardOffers))
    ensures var j' := Next(j, Land(AwardOffers));
            && j' == j.(awaitingMedia := false, offers := j'.offers, owed := j.owed - multiset{AwardOffers})
            && j'.offers.Keys == j.offers.Keys
            && forall k | k in j.offers ::
                 j'.offers[k] == if k.operator == j.assignedTo.value && j.offers[k].status == SELECTED_PENDING_PAYMENT
                                 then j.offers[k].(status := ACCEPTED) else j.offers[k]
  {
    LandingWrites(j, AwardOffers);
    assert j.owed - multiset{AwardOffers} + multiset{} == j.owed - multiset{AwardOffers};
    hide StartDispatch, Resolve, LandWrite;
  }

  lemma DepositSettles(j: Job, payment: PaymentId)
    requires payment in j.rows && payment !in j.confirms
    requires j.rows[payment].request == j.id && j.rows[payment].kind == DEPOSIT && j.rows[payment].status in {SUBMITTED, BLOCKED}
    requires !L.SucceededSibling(j.rows, payment)
    ensures var settle := L.Settle(payment, Plain(SUCCEEDED));
            && Allowed(j, LedgerStep(settle))
            && Next(j, LedgerStep(settle)) ==
                 j.(rows := j.rows[payment := j.rows[payment].(status := SUCCEEDED, blockReason := None)], confirms := j.confirms + {payment})
  {
    hide StartDispatch, Resolve;
  }

  // ---- Where a price comes from ---------------------------------------------------------

  /** A quote on the shortlist, or one that went on to be chosen. */
  predicate Standing(s: OfferStatus) { s in {QUOTED, SELECTED_PENDING_PAYMENT, ACCEPTED} }

  /** Every standing offer has a price, and a pending or declined one has none. */
  ghost predicate Priced(offers: Offers) {
    forall k | k in offers ::
      && (Standing(offers[k].status) ==> offers[k].price.Some?)
      && (offers[k].status in {OFFERED, DECLINED} ==> offers[k].price.None?)
  }

  /** The step puts this price on this offer: its operator's timely answer, or an assignment. */
  ghost predicate Prices(j: Job, s: Step, k: OfferId, price: int) {
    || (s.Answer? && s.offer == k && s.quote == Some(price) && InTime(j, k, s.now))
    || (s.Assign? && Key(s.batch, s.operator) == k && s.price == price)
  }

  /** No offer gets a price or comes into standing; a new one is pending, without a price. */
  ghost predicate PricesKept(before: Offers, after: Offers) {
    forall k | k in after ::
      if k !in before then after[k].status == OFFERED && after[k].price.None?
      else
        && after[k].price == before[k].price
        && (Standing(after[k].status) ==> Standing(before[k].status))
        && (after[k].status == QUOTED ==> before[k].status == QUOTED)
        && (after[k].status in {OFFERED, DECLINED} ==> after[k].status == before[k].status)
  }

  lemma KeptChains(a: Offers, b: Offers, c: Offers)
    requires PricesKept(a, b) && PricesKept(b, c) && a.Keys == b.Keys
    ensures PricesKept(a, c)
  {
  }

  lemma RoundKeepsPrices(j: Job, j': Job, start: nat, h: Hunt, now: int, found: Found)
    requires RoundOpened(j, j', start, h, now, found) && FreshBatch(j, h.batch)
    ensures PricesKept(j.offers, j'.offers) && j.offers.Keys <= j'.offers.Keys
  {
    hide Answers;
  }

  lemma StartKeepsPrices(j: Job, h: Hunt, now: int)
    requires FreshBatch(j, h.batch)
    ensures PricesKept(j.offers, StartDispatch(j, h, now).offers)
  {
    var found := Search(h.find, h.covered, h.cap, j.round);
    StartWrites(j, h, now);
    hide StartDispatch, RoundOpened, PricesKept;
    if StartDispatch(j, h, now) != j { RoundKeepsPrices(j, StartDispatch(j, h, now), j.round, h, now, found); }
    SamePrices(j.offers);
  }

  lemma SamePrices(offers: Offers)
    ensures PricesKept(offers, offers)
  {
  }

  lemma ShortlistKeepsPrices(j: Job, j': Job, now: int)
    requires ShortlistSent(j, j', now)
    ensures PricesKept(j.offers, j'.offers) && j.offers.Keys == j'.offers.Keys
  {
  }

  lemma TimingOutKeepsPrices(before: Offers, after: Offers, ids: set<OfferId>)
    requires TheseTimedOut(before, after, ids)
    ensures PricesKept(before, after) && before.Keys == after.Keys
  {
  }

  lemma ResolvingKeepsPrices(j: Job, ids: set<OfferId>, round: nat, h: Hunt, now: int)
    requires FreshBatch(j, h.batch)
    ensures PricesKept(j.offers, Resolve(j, ids, round, h, now).offers)
  {
    var expired, j' := TimeOutThese(j.offers, ids), Resolve(j, ids, round, h, now);
    var found, advanced := Search(h.find, h.covered, h.cap, round + 1), j.(offers := expired, round := round + 1);
    ResolvingWrites(j, ids, round, h, now);
    TimingOutKeepsPrices(j.offers, expired, ids);
    hide Resolve, TimeOutThese, RoundOpened, ShortlistSent, PricesKept, TheseTimedOut;
    if ShortlistSent(advanced, j', now) {
      ShortlistKeepsPrices(advanced, j', now);
      KeptChains(j.offers, expired, j'.offers);
    } else if RoundOpened(advanced, j', round + 1, h, now, found) {
      RoundKeepsPrices(advanced, j', round + 1, h, now, found);
      KeptChains(j.offers, expired, j'.offers);
    }
  }

  lemma FollowUpKeepsPrices(j: Job, f: FollowUp, window: int, now: int)
    ensures PricesKept(j.offers, RunFollowUp(j, f, window, now).offers)
  {
    FollowUpWrites(j, f, window, now);
    hide RunFollowUp;
  }

  lemma EndingKeepsPrices(j: Job, j': Job, fate: map<OfferStatus, OfferStatus>)
    requires EndedWith(j, j', fate) && forall s | s in fate :: fate[s] in {TIMED_OUT, NOT_SELECTED}
    ensures PricesKept(j.offers, j'.offers)
  {
  }

  lemma LandingKeepsPrices(j: Job, w: Write)
    ensures PricesKept(j.offers, LandWrite(j, w).offers)
  {
    var j' := LandWrite(j, w).(owed := j.owed);
    LandingWrites(j, w);
    SamePrices(j.offers);
    hide LandWrite, EndedWith;
    match w
    case Refuse =>
      EndingKeepsPrices(j, j', map[SELECTED_PENDING_PAYMENT := TIMED_OUT, OFFERED := TIMED_OUT, QUOTED := NOT_SELECTED]);
    case Withdraw => EndingKeepsPrices(j, j', map[OFFERED := TIMED_OUT, QUOTED := NOT_SELECTED]);
    case Abandon => EndingKeepsPrices(j, j', map[]);
    case _ =>
  }

  lemma SelectingKeepsPrices(j: Job, k: OfferId, payment: PaymentId, deposit: int, now: int)
    requires CanSelect(j, k)
    ensures PricesKept(j.offers, SelectQuote(j, k, payment, deposit, now).offers)
  {
  }

  lemma CheckKeepsPrices(j: Job, s: Step)
    requires Allowed(j, s) && (s.CloseBidding? || s.TimeOutSelection? || s.ExpireDeposit? || s.SweepOffers?)
    ensures PricesKept(j.offers, Next(j, s).offers)
  {
    SamePrices(j.offers);
    match s
    case CloseBidding(now) =>
      ClosingWrites(j, now);
      hide Next, ShortlistSent;
      if Next(j, s) != j { ShortlistKeepsPrices(j, Next(j, s), now); }
    case TimeOutSelection(now) =>
      WindowsWrite(j, now);
      hide Next, EndedWith;
      if Next(j, s) != j { EndingKeepsPrices(j, Next(j, s), map[QUOTED := TIMED_OUT]); }
    case ExpireDeposit(now) =>
      WindowsWrite(j, now);
      hide Next, EndedWith;
      if Next(j, s) != j { EndingKeepsPrices(j, Next(j, s), map[SELECTED_PENDING_PAYMENT := TIMED_OUT]); }
    case SweepOffers(ids, now) =>
      SweepingWrites(j, ids, now);
      hide Next;
  }

  lemma OthersKeepPrices(j: Job, s: Step)
    requires Allowed(j, s) && !s.Answer? && !s.Assign?
    ensures PricesKept(j.offers, Next(j, s).offers)
  {
    SamePrices(j.offers);
    hide PricesKept, Resolve, StartDispatch, RunFollowUp, LandWrite, SelectQuote, OpenSelection, BiddingClosed, Queried,
         CanSelect, L.Apply, L.Allowed, L.HasSucceeded, SettlesDeposit, MayAsk;
    match s
    case AfterClaim(f, window, now) => FollowUpKeepsPrices(j, f, window, now);
    case ResolveBatch(ids, round, h, now) => ResolvingKeepsPrices(j, ids, round, h, now);
    case CloseBidding(_) => CheckKeepsPrices(j, s);
    case TimeOutSelection(_) => CheckKeepsPrices(j, s);
    case ExpireDeposit(_) => CheckKeepsPrices(j, s);
    case SweepOffers(_, _) => CheckKeepsPrices(j, s);
    case FinishMedia(h, now, _) =>
      MediaKeepsOffers(j);
      StartKeepsPrices(LandWrite(j, OpenDispatch), h, now);
    case Expand(h, now, _) => StartKeepsPrices(j.(round := j.round + 1), h, now);
    case OfferManually(operator, batch, now) => ManualKeepsPrices(j, operator, batch, now);
    case Select(k, payment, deposit, now) => if CanSelect(j, k) { SelectingKeepsPrices(j, k, payment, deposit, now); }
    case Land(w) => LandingKeepsPrices(j, w);
    case LedgerStep(_) =>
    case Confirm(_) =>
    case Ask(_) =>
    case ResolveDispute =>
    case Complete =>
  }

  lemma ManualKeepsPrices(j: Job, operator: OperatorId, batch: BatchId, now: int)
    requires FreshBatch(j, batch)
    ensures PricesKept(j.offers, Next(j, OfferManually(operator, batch, now)).offers)
  {
    ManualOfferWrites(j, operator, batch, now);
    hide Next;
  }

  /** An offer standing after a step stood before it at the same price, or has just been priced;
      and only a timely answer puts a quote on the shortlist. */
  ghost predicate PricedBy(j: Job, s: Step, after: Offers) {
    && Priced(after)
    && forall k | k in after && Standing(after[k].status) ::
         || (k in j.offers && Standing(j.offers[k].status) && after[k].price == j.offers[k].price &&
             (after[k].status == QUOTED ==> j.offers[k].status == QUOTED))
         || (Prices(j, s, k, after[k].price.value) && (after[k].status == QUOTED ==> s.Answer?))
  }

  lemma AnswerPrices(j: Job, k: OfferId, quote: Option<int>, now: int)
    requires Priced(j.offers)
    ensures PricedBy(j, Answer(k, quote, now), AnswerOffer(j, k, quote, now).offers)
  {
    AnswerWrites(j, k, quote, now);
    hide AnswerOffer;
  }

  lemma AssigningPrices(j: Job, s: Step)
    requires Priced(j.offers) && Allowed(j, s) && s.Assign?
    ensures PricedBy(j, s, Next(j, s).offers)
  {
    AssigningWrites(j, s.operator, s.whatsapp, s.price, s.batch, s.payment, s.deposit, s.now);
    hide Next;
  }

  lemma KeepingPrices(j: Job, s: Step, after: Offers)
    requires Priced(j.offers) && PricesKept(j.offers, after)
    ensures PricedBy(j, s, after)
  {
  }

  lemma StepPrices(j: Job, s: Step)
    requires Allowed(j, s) && Priced(j.offers)
    ensures PricedBy(j, s, Next(j, s).offers)
  {
    if s.Answer? {
      AnswerPrices(j, s.offer, s.quote, s.now);
      hide AnswerOffer, PricedBy;
    } else if s.Assign? {
      AssigningPrices(j, s);
    } else {
      OthersKeepPrices(j, s);
      hide Next;
      KeepingPrices(j, s, Next(j, s).offers);
    }
  }

  /** The price was put on the offer in the course of the run. */
  ghost predicate PricedIn(j: Job, run: seq<Step>, k: OfferId, price: int, byHand: bool)
    requires AllowedRun(j, run)
    decreases |run|
  {
    run != [] &&
    ((Prices(j, run[0], k, price) && (run[0].Answer? || byHand)) || PricedIn(Next(j, run[0]), run[1..], k, price, byHand))
  }

  lemma {:induction false} RunPrices(j: Job, run: seq<Step>, k: OfferId)
    requires AllowedRun(j, run) && Priced(j.offers)
    ensures var j' := After(j, run);
            && Priced(j'.offers)
            && (k in j'.offers && Standing(j'.offers[k].status) ==>
                  || (k in j.offers && Standing(j.offers[k].status) && j'.offers[k].price == j.offers[k].price)
                  || PricedIn(j, run, k, j'.offers[k].price.value, true))
            && (k in j'.offers && j'.offers[k].status == QUOTED ==>
                  || (k in j.offers && j.offers[k].status == QUOTED && j'.offers[k].price == j.offers[k].price)
                  || PricedIn(j, run, k, j'.offers[k].price.value, false))
    decreases |run|
  {
    hide Next, Allowed, Priced, Prices;
    if run != [] {
      StepPrices(j, run[0]);
      RunPrices(Next(j, run[0]), run[1..], k);
    }
  }

  /** Over every run of a new request: an offer on the shortlist has a price, and it is the one
      its own operator answered with in time; one chosen, accepted or assigned has the price
      its operator answered with, or the one staff assigned it at. */
  lemma PriceIsTheOperators(id: RequestId, run: seq<Step>, k: OfferId)
    requires AllowedRun(NewJob(id), run) && k in After(NewJob(id), run).offers
    ensures var o := After(NewJob(id), run).offers[k];
            && (o.status == QUOTED ==> o.price.Some? && PricedIn(NewJob(id), run, k, o.price.value, false))
            && (o.status in {SELECTED_PENDING_PAYMENT, ACCEPTED} ==> o.price.Some? && PricedIn(NewJob(id), run, k, o.price.value, true))
            && (o.status in {OFFERED, DECLINED} ==> o.price.None?)
  {
    RunPrices(NewJob(id), run, k);
  }
}
