/** Deposits and activation over whole runs, and what stale reads can do to an ended request. */
module Activation {
  import opened Payments
  import opened RoundSearch
  import opened Dispatch
  import opened Bidding
  import opened Handover
  import opened BiddingRuns
  import L = Ledger

  // ---- Paid before activated --------------------------------------------------------

  predicate Activated(j: Job) { j.status == OPERATOR_ASSIGNED || AnyWith(j.offers, ACCEPTED) }

  /** The two writes of an activation. */
  predicate Activates(s: Step) { s.Land? && s.write in {Activate, AwardOffers} }

  lemma OnlyLandingActivates(j: Job, s: Step)
    requires Allowed(j, s) && !Activates(s) && !Activated(j)
    ensures !Activated(Next(j, s))
  {
    hide Resolve, StartDispatch, LandWrite;
    if !TouchesDeposit(s) {
      OthersKeepDeposit(j, s);
    } else if s.Land? {
      LandLeavesRest(j, s.write);
      LandingElsewhere(j, s.write);
    } else {
      TakingActivatesNobody(j, s);
    }
  }

  lemma LandingElsewhere(j: Job, w: Write)
    requires w !in {Activate, AwardOffers} && j.status != OPERATOR_ASSIGNED
    ensures LandWrite(j, w).status != OPERATOR_ASSIGNED
  {
  }

  lemma TakingActivatesNobody(j: Job, s: Step)
    requires Allowed(j, s) && !Activated(j) && (s.Select? || s.Assign? || s.LedgerStep? || s.Confirm?)
    ensures !Activated(Next(j, s))
  {
    hide Resolve, StartDispatch;
    var j' := Next(j, s);
    forall k | k in j'.offers && j'.offers[k].status == ACCEPTED ensures k in j.offers && j.offers[k].status == ACCEPTED {
    }
  }

  /** In every run of every new request, a step that activates the job is one of the two
      writes of a confirmation, and finds the deposit already paid. */
  lemma PaidBeforeActivated(id: RequestId, run: seq<Step>, s: Step)
    requires AllowedRun(NewJob(id), run) && Allowed(After(NewJob(id), run), s)
    ensures var j := After(NewJob(id), run);
            Activated(Next(j, s)) ==> DepositPaid(j) && (Activated(j) || Activates(s))
  {
    hide L.Consistent, Next, AllowedRun, After, Tightened;
    NewJobIsFine(id);
    RunTightens(NewJob(id), run);
    var j := After(NewJob(id), run);
    if !Activates(s) && !Activated(j) { OnlyLandingActivates(j, s); }
  }

  // ---- The end, and what can undo it ------------------------------------------------

  /** The search behind an end of media finds nobody, not even a backup, and cancels. */
  ghost predicate GivesUp(j: Job, h: Hunt, now: int) {
    var found := Search(h.find, h.covered, h.cap, j.round);
    !AnyWith(j.offers, QUOTED) && !BiddingClosed(j, now) && !found.Candidates? && h.backups(found.extraRadiusKm) == []
  }

  /** An unguarded write to a live status. */
  ghost predicate Revives(j: Job, s: Step) {
    match s
    case Land(w) => w in {Activate, Arrive} || (w == Dispute && j.stage != InDispute)
    case FinishMedia(h, now, crash) => crash || !GivesUp(LandWrite(j, OpenDispatch), h, now)
    case _ => false
  }

  /** An ended request stays ended under every step exactly unless a confirmation, an arrival,
      a dispute or an end of media writes a live status it decided on earlier. */
  lemma EndedStaysEndedIff(j: Job, s: Step)
    requires Allowed(j, s) && Ended(j.status)
    ensures Ended(Next(j, s).status) <==> !Revives(j, s)
  {
    if s.FinishMedia? {
      MediaEndsIff(LandWrite(j, OpenDispatch), s.hunt, s.now);
    } else if s.Land? {
      LandEndsIff(j, s.write);
    } else {
      hide NextRound, StartDispatch, LandWrite, AnswerOffer, RunFollowUp, Retire, TimeOutThese, L.Apply, SettlesDeposit;
      if s.Answer? || s.AfterClaim? { FollowUpSession(j, s); }
    }
  }

  lemma LandEndsIff(j: Job, w: Write)
    requires Ended(j.status) && w != OpenDispatch
    ensures Ended(LandWrite(j, w).status) <==> w !in {Activate, Arrive} && (w != Dispute || j.stage == InDispute)
  {
    hide CloseOffers, Award, Retire;
  }

  lemma MediaEndsIff(j: Job, h: Hunt, now: int)
    requires j.status == DISPATCHING
    ensures Ended(StartDispatch(j, h, now).status) <==> GivesUp(j, h, now)
  {
  }

  /** The media session of an ended or dispatching request is over. */
  predicate SessionOver(j: Job) { Ended(j.status) || j.status == DISPATCHING ==> !j.awaitingMedia }

  /** Such a write has gone stale: what its caller read is no longer so. */
  lemma RevivalIsStale(j: Job, s: Step)
    requires SessionOver(j) && Allowed(j, s) && Ended(j.status) && Revives(j, s)
    ensures StaleWrite(j, s)
  {
    hide LandWrite, GivesUp;
  }

  ghost predicate NoStaleWrite(j: Job, run: seq<Step>)
    requires AllowedRun(j, run)
    decreases |run|
  {
    run == [] || (!StaleWrite(j, run[0]) && NoStaleWrite(Next(j, run[0]), run[1..]))
  }

  ghost predicate NeverRevived(j: Job, run: seq<Step>)
    requires AllowedRun(j, run)
    decreases |run|
  {
    run == [] || (!(Ended(j.status) && Revives(j, run[0])) && NeverRevived(Next(j, run[0]), run[1..]))
  }

  /** As long as no write lands stale, shortlists stay backed and no ended request revives. */
  lemma {:induction false} FreshRunsNeverRevive(j: Job, run: seq<Step>)
    requires Backed(j) && AllowedRun(j, run) && NoStaleWrite(j, run)
    ensures Backed(After(j, run)) && NeverRevived(j, run)
    decreases |run|
  {
    hide Backed, Next, Allowed, Revives, StaleWrite;
    if run != [] {
      FreshStepKeepsBacked(j, run[0]);
      assert SessionOver(j) by { BackedSessionIsOver(j); }
      if Ended(j.status) && Revives(j, run[0]) { RevivalIsStale(j, run[0]); }
      FreshRunsNeverRevive(Next(j, run[0]), run[1..]);
    }
  }

  lemma BackedSessionIsOver(j: Job)
    requires Backed(j)
    ensures SessionOver(j)
  {
  }

  lemma {:induction false} EndedForGood(j: Job, run: seq<Step>)
    requires Ended(j.status) && AllowedRun(j, run) && NeverRevived(j, run)
    ensures Ended(After(j, run).status)
    decreases |run|
  {
    hide Next, Allowed, Revives;
    if run != [] {
      EndedStaysEndedIff(j, run[0]);
      EndedForGood(Next(j, run[0]), run[1..]);
    }
  }

  // ---- Runs built step by step --------------------------------------------------------

  lemma {:induction false} Append(j: Job, run: seq<Step>, s: Step)
    requires AllowedRun(j, run) && Allowed(After(j, run), s)
    ensures AllowedRun(j, run + [s]) && After(j, run + [s]) == Next(After(j, run), s)
    decreases |run|
  {
    hide Next, Allowed;
    if run == [] {
      assert [s][1..] == [];
    } else {
      Append(Next(j, run[0]), run[1..], s);
      assert (run + [s])[1..] == run[1..] + [s] && (run + [s])[0] == run[0];
    }
  }

  lemma {:induction false} Chain(j: Job, run: seq<Step>, more: seq<Step>)
    requires AllowedRun(j, run) && AllowedRun(After(j, run), more)
    ensures AllowedRun(j, run + more) && After(j, run + more) == After(After(j, run), more)
    decreases |run|
  {
    hide Next, Allowed;
    if run == [] {
      assert run + more == more;
    } else {
      Chain(Next(j, run[0]), run[1..], more);
      assert (run + more)[1..] == run[1..] + more && (run + more)[0] == run[0];
    }
  }

  lemma RunOfTwo(j: Job, s: Step, t: Step)
    requires Allowed(j, s) && Allowed(Next(j, s), t)
    ensures AllowedRun(j, [s, t]) && After(j, [s, t]) == Next(Next(j, s), t)
  {
    hide Next, Allowed;
    Prepend(Next(j, s), t, []);
    Prepend(j, s, [t]);
    assert [t] + [] == [t] && [s] + [t] == [s, t];
  }

  lemma ReadThenExpire(j: Job, payment: PaymentId, now: int)
    requires DepositWindowSet(j) && DepositDue(j, now) && payment in j.confirms
    ensures var j1 := Next(j, Confirm(payment)); var j2 := Next(j1, ExpireDeposit(now));
            && Allowed(j, Confirm(payment)) && Allowed(j1, ExpireDeposit(now)) && Allowed(j2, Land(Activate))
            && j2.status == CANCELLED && j2.rows == j.rows && j2.stage == j.stage && Next(j2, Land(Activate)).status == OPERATOR_ASSIGNED
  {
    hide L.Consistent, Resolve, StartDispatch;
  }

  /** The deposit expiry commits between the read and the write of a confirmation: from every
      request whose window has run out and whose deposit has settled, the request is
      cancelled and then assigned after all. */
  lemma ExpiryRacesConfirmation(j: Job, payment: PaymentId, now: int)
    requires Inv(j) && DepositDue(j, now) && payment in j.confirms
    ensures var run := [Confirm(payment), ExpireDeposit(now)];
            && AllowedRun(j, run) && After(j, run).status == CANCELLED && After(j, run).rows == j.rows && After(j, run).stage == j.stage
            && AllowedRun(j, run + [Land(Activate)]) && After(j, run + [Land(Activate)]).status == OPERATOR_ASSIGNED
  {
    ReadThenExpire(j, payment, now);
    hide *;
    RunOfTwo(j, Confirm(payment), ExpireDeposit(now));
    Append(j, [Confirm(payment), ExpireDeposit(now)], Land(Activate));
  }

  /** A new request assigned by hand and paid, its confirmation still to come. */
  function PaidRun(payment: PaymentId): seq<Step> {
    [Assign("o", true, 10000, "b", payment, 5000, 0)] +
    [LedgerStep(L.Submit(payment, 0)), LedgerStep(L.Settle(payment, Plain(SUCCEEDED)))]
  }

  lemma SettleRun(j: Job, payment: PaymentId)
    requires L.Consistent(j.rows) && payment in j.rows && j.rows[payment].request == j.id && j.rows[payment].kind == DEPOSIT
    requires InFlight(j.rows[payment].status) && !DepositPaid(j)
    ensures var run := [LedgerStep(L.Submit(payment, 0)), LedgerStep(L.Settle(payment, Plain(SUCCEEDED)))];
            && AllowedRun(j, run)
            && var j' := After(j, run);
               && j' == j.(rows := j'.rows, confirms := j'.confirms) && j'.confirms == j.confirms + {payment}
               && j'.rows.Keys == j.rows.Keys && j'.rows[payment].status == SUCCEEDED && DepositPaid(j')
  {
    var rows := SubmittedRows(j, payment);
    SettleSteps(j, payment, rows);
    hide *;
    RunOfTwo(j, LedgerStep(L.Submit(payment, 0)), LedgerStep(L.Settle(payment, Plain(SUCCEEDED))));
  }

  lemma SubmittedRows(j: Job, payment: PaymentId) returns (rows: L.Table)
    requires L.Consistent(j.rows) && payment in j.rows && j.rows[payment].request == j.id && j.rows[payment].kind == DEPOSIT
    requires InFlight(j.rows[payment].status) && !DepositPaid(j)
    ensures rows == L.Apply(j.rows, L.Submit(payment, 0)) && rows.Keys == j.rows.Keys
    ensures Claimable(rows[payment].status) && rows[payment].request == j.id && rows[payment].kind == DEPOSIT
    ensures !L.SucceededSibling(rows, payment)
    ensures Allowed(j, LedgerStep(L.Submit(payment, 0)))
  {
    hide Resolve, StartDispatch;
    rows := L.Apply(j.rows, L.Submit(payment, 0));
    assert forall q | q in rows && q != payment :: rows[q] == j.rows[q];
  }

  lemma SettleSteps(j: Job, payment: PaymentId, rows: L.Table)
    requires rows == L.Apply(j.rows, L.Submit(payment, 0)) && payment in rows
    requires rows[payment].request == j.id && rows[payment].kind == DEPOSIT
    requires Claimable(rows[payment].status) && !L.SucceededSibling(rows, payment)
    ensures var j1 := Next(j, LedgerStep(L.Submit(payment, 0)));
            && j1 == j.(rows := rows) && Allowed(j1, LedgerStep(L.Settle(payment, Plain(SUCCEEDED))))
            && var j2 := Next(j1, LedgerStep(L.Settle(payment, Plain(SUCCEEDED))));
               && j2 == j.(rows := j2.rows, confirms := j2.confirms) && j2.confirms == j.confirms + {payment}
               && j2.rows.Keys == rows.Keys && j2.rows[payment].status == SUCCEEDED && DepositPaid(j2)
  {
    hide Resolve, StartDispatch;
    var j2 := Next(j.(rows := rows), LedgerStep(L.Settle(payment, Plain(SUCCEEDED))));
    assert j2.rows[payment].request == j.id && j2.rows[payment].kind == DEPOSIT;
  }

  lemma AssigningANewJob(id: RequestId, payment: PaymentId)
    ensures var s := Assign("o", true, 10000, "b", payment, 5000, 0);
            && Allowed(NewJob(id), s)
            && var j := Next(NewJob(id), s);
               && j.status == WAITING_FOR_DEPOSIT && j.payBy == Some(DEPOSIT_WINDOW_MS) && j.id == id
               && j.confirms == {} && j.owed == multiset{} && j.awaitingMedia && j.stage == NotBegun
               && j.rows == map[payment := L.NewRow(id, DEPOSIT, 5000, None, 0)] && !DepositPaid(j) && j.rows.Keys == {payment}
  {
    hide Resolve, StartDispatch;
  }

  lemma PaidIsReachable(id: RequestId, payment: PaymentId)
    ensures AllowedRun(NewJob(id), PaidRun(payment))
    ensures var j := After(NewJob(id), PaidRun(payment));
            Inv(j) && j.status == WAITING_FOR_DEPOSIT && j.payBy == Some(DEPOSIT_WINDOW_MS) && j.confirms == {payment} &&
            DepositPaid(j) && j.stage == NotBegun && j.owed == multiset{} && j.rows.Keys == {payment} && j.rows[payment].status == SUCCEEDED
  {
    var s := Assign("o", true, 10000, "b", payment, 5000, 0);
    AssigningANewJob(id, payment);
    NewJobIsFine(id);
    NextKeepsInv(NewJob(id), s);
    SettleRun(Next(NewJob(id), s), payment);
    hide Next, Inv, Allowed, NewJob, DepositPaid;
    Prepend(NewJob(id), s, PaidRun(payment)[1..]);
    assert PaidRun(payment)[1..] == [LedgerStep(L.Submit(payment, 0)), LedgerStep(L.Settle(payment, Plain(SUCCEEDED)))];
    assert PaidRun(payment) == [s] + PaidRun(payment)[1..];
    NewJobIsFine(id);
    RunTightens(NewJob(id), PaidRun(payment));
  }

  /** The race is real: a run from a new request cancels it and then assigns it. */
  lemma EndedRequestIsRevived(id: RequestId, payment: PaymentId)
    ensures var run := PaidRun(payment) + [Confirm(payment), ExpireDeposit(DEPOSIT_WINDOW_MS + 1)];
            && AllowedRun(NewJob(id), run) && Ended(After(NewJob(id), run).status) && After(NewJob(id), run).stage == NotBegun
            && After(NewJob(id), run).rows.Keys == {payment} && After(NewJob(id), run).rows[payment].status == SUCCEEDED
            && AllowedRun(NewJob(id), run + [Land(Activate)])
            && After(NewJob(id), run + [Land(Activate)]).status == OPERATOR_ASSIGNED
  {
    PaidIsReachable(id, payment);
    var j := After(NewJob(id), PaidRun(payment));
    var race := [Confirm(payment), ExpireDeposit(DEPOSIT_WINDOW_MS + 1)];
    ExpiryRacesConfirmation(j, payment, DEPOSIT_WINDOW_MS + 1);
    hide Next, Inv, Allowed, NewJob, PaidRun;
    Chain(NewJob(id), PaidRun(payment), race);
    Chain(NewJob(id), PaidRun(payment), race + [Land(Activate)]);
    assert PaidRun(payment) + race + [Land(Activate)] == PaidRun(payment) + (race + [Land(Activate)]);
  }

  // ---- A late deposit -----------------------------------------------------------------

  lemma {:induction false} PaidStaysPaid(j: Job, run: seq<Step>)
    requires Inv(j) && DepositPaid(j) && AllowedRun(j, run)
    ensures DepositPaid(After(j, run))
    decreases |run|
  {
    hide Inv, Next, Allowed, DepositPaid;
    if run != [] {
      PaymentStands(j, run[0]);
      NextKeepsInv(j, run[0]);
      PaidStaysPaid(Next(j, run[0]), run[1..]);
    }
  }

  lemma PaymentStands(j: Job, s: Step)
    requires Inv(j) && DepositPaid(j) && Allowed(j, s)
    ensures DepositPaid(Next(j, s))
  {
    hide L.Consistent, Resolve, StartDispatch, LandWrite;
    if !TouchesDeposit(s) {
      OthersKeepDeposit(j, s);
    } else if s.LedgerStep? {
      LedgerKeepsPaid(j, s.op);
    } else if s.Land? {
      LandLeavesRest(j, s.write);
    } else if (s.Select? || s.Assign?) && Next(j, s) != j {
      InsertDeposit(j, s.payment, s.deposit, s.now);
    }
  }

  /** Ended, and no activation under way. */
  predicate Over(j: Job) { Ended(j.status) && !Activated(j) && !Activating(j) }

  lemma OverStaysOver(j: Job, s: Step)
    requires Allowed(j, s) && Over(j) && !Revives(j, s)
    ensures Over(Next(j, s))
  {
    hide Resolve, StartDispatch, LandWrite, Revives;
    EndedStaysEndedIff(j, s);
    NotTheActivation(j, s);
    OnlyLandingActivates(j, s);
    if !TouchesDeposit(s) { OthersKeepDeposit(j, s); } else { NoActivationBegins(j, s); }
  }

  lemma NotTheActivation(j: Job, s: Step)
    requires Allowed(j, s) && !Activating(j)
    ensures !Activates(s)
  {
  }

  lemma NoActivationBegins(j: Job, s: Step)
    requires Allowed(j, s) && TouchesDeposit(s) && Ended(j.status) && !Activating(j)
    ensures !Activating(Next(j, s))
  {
    hide Resolve, StartDispatch;
  }

  lemma {:induction false} OverForGood(j: Job, run: seq<Step>)
    requires Over(j) && AllowedRun(j, run) && NeverRevived(j, run)
    ensures Over(After(j, run))
    decreases |run|
  {
    hide Over, Next, Allowed, Revives;
    if run != [] {
      OverIsEnded(j);
      OverStaysOver(j, run[0]);
      OverForGood(Next(j, run[0]), run[1..]);
    }
  }

  lemma OverIsEnded(j: Job)
    requires Over(j)
    ensures Ended(j.status)
  {
  }

  /** In every run of a new request: a deposit that settles once the request has ended never
      activates it, at no later step does the request leave the ended states, no offer is
      ever accepted, and the deposit stays paid; all this as long as no write revives the
      request. */
  lemma LateDepositNeverRevives(id: RequestId, before: seq<Step>, op: L.Op, after: seq<Step>)
    requires AllowedRun(NewJob(id), before)
    requires var j := After(NewJob(id), before);
             L.Allowed(j.rows, op) && SettlesDeposit(j, op) && Ended(j.status) &&
             AllowedRun(ApplyLedger(j, op), after) && NeverRevived(ApplyLedger(j, op), after)
    ensures var end := After(ApplyLedger(After(NewJob(id), before), op), after);
            Ended(end.status) && !Activated(end) && !Activating(end) && DepositPaid(end)
  {
    NewJobIsFine(id);
    RunTightens(NewJob(id), before);
    var j := After(NewJob(id), before);
    SettlingWhenEnded(j, op);
    hide Inv, Next, DepositPaid, ApplyLedger, SettlesDeposit, Tightened, AllowedRun, After, NeverRevived;
    OverForGood(ApplyLedger(j, op), after);
    PaidStaysPaid(ApplyLedger(j, op), after);
  }

  lemma SettlingWhenEnded(j: Job, op: L.Op)
    requires Inv(j) && L.Allowed(j.rows, op) && SettlesDeposit(j, op) && Ended(j.status)
    ensures var settled := ApplyLedger(j, op);
            Inv(settled) && Over(settled) && DepositPaid(settled)
  {
    hide L.Consistent, L.Apply, Resolve, StartDispatch;
    assert !DepositPaid(j) by { SettlingWasUnpaid(j, op); }
    assert DepositPaid(ApplyLedger(j, op)) by { SettledRow(j, op); }
    hide DepositPaid, SettlesDeposit;
    assert Allowed(j, LedgerStep(op)) && Next(j, LedgerStep(op)) == ApplyLedger(j, op);
    NextKeepsInv(j, LedgerStep(op));
  }

  lemma SettlingWasUnpaid(j: Job, op: L.Op)
    requires SettlesDeposit(j, op)
    ensures !DepositPaid(j)
  {
    if DepositPaid(j) {
      var p :| p in j.rows && j.rows[p].request == j.id && j.rows[p].kind == DEPOSIT && j.rows[p].status == SUCCEEDED;
      assert p != op.id && L.SameSlot(j.rows[op.id], j.rows[p]);
    }
  }

  // ---- What a reassignment can still do -----------------------------------------------

  /** A paid deposit whose one confirmation has been read and written: nothing can activate
      the job any more. */
  predicate Spent(j: Job) { DepositPaid(j) && j.confirms == {} && Activate !in j.owed && j.status != OPERATOR_ASSIGNED }

  lemma SpentStays(j: Job, s: Step)
    requires Inv(j) && Spent(j) && Allowed(j, s)
    ensures Spent(Next(j, s))
  {
    PaymentStands(j, s);
    if s.LedgerStep? && SettlesDeposit(j, s.op) { SettlingWasUnpaid(j, s.op); }
    if !s.Ask? && !s.Confirm? { StepSession(j, s); }
    if !TouchesDeposit(s) { OthersKeepDeposit(j, s); }
    hide Inv, DepositPaid, Resolve, StartDispatch, AnswerOffer, RunFollowUp, CloseOffers, Award, Retire, L.Apply, OpenSelection;
    if TouchesDeposit(s) { SpentTokens(j, s); }
  }

  lemma SpentTokens(j: Job, s: Step)
    requires Allowed(j, s) && j.confirms == {} && Activate !in j.owed && j.status != OPERATOR_ASSIGNED
    requires TouchesDeposit(s) && (s.LedgerStep? ==> !SettlesDeposit(j, s.op))
    ensures Next(j, s).confirms == {} && Activate !in Next(j, s).owed && Next(j, s).status != OPERATOR_ASSIGNED
  {
    hide Resolve, StartDispatch, LandWrite;
    if s.Land? { LandWithoutActivation(j, s.write); } else { RestWithoutActivation(j, s); }
  }

  lemma LandWithoutActivation(j: Job, w: Write)
    requires w in j.owed && Activate !in j.owed && j.status != OPERATOR_ASSIGNED
    ensures var j' := LandWrite(j, w);
            j'.confirms == j.confirms && Activate !in j'.owed && j'.status != OPERATOR_ASSIGNED
  {
    LandingOwes(j.owed, w);
    hide CloseOffers, Award, Retire, OwedAfter;
  }

  lemma RestWithoutActivation(j: Job, s: Step)
    requires Allowed(j, s) && j.confirms == {} && Activate !in j.owed && j.status != OPERATOR_ASSIGNED
    requires s.Select? || s.Assign? || s.Confirm? || (s.LedgerStep? && !SettlesDeposit(j, s.op))
    ensures Next(j, s).confirms == {} && Activate !in Next(j, s).owed && Next(j, s).status != OPERATOR_ASSIGNED
  {
    hide Resolve, StartDispatch, L.Apply, L.Allowed, SettlesDeposit, Retire, CanSelect, CanAssign;
  }

  lemma SearchKeepsOwed(j: Job, h: Hunt, now: int)
    ensures forall start :: NextRound(j, start, h, now).owed == j.owed
    ensures forall start :: SessionStep(j, NextRound(j, start, h, now))
    ensures StartDispatch(j, h, now).owed == j.owed && SessionStep(j, StartDispatch(j, h, now))
  {
  }

  /** What a step does to the media session and to the writes owed. */
  ghost predicate SessionStep(j: Job, j': Job) {
    && (j'.awaitingMedia ==> j.awaitingMedia) && j'.owed <= j.owed + multiset{AwardOffers}
    && ((Ended(j'.status) || j'.status == DISPATCHING) && j'.status != j.status ==> !j'.awaitingMedia)
  }

  lemma AutomaticSession(j: Job, s: Step)
    requires Allowed(j, s) && Automatic(s)
    ensures SessionStep(j, Next(j, s))
  {
    hide NextRound, StartDispatch, Resolve, LandWrite, SessionStep, FreshHunt, Queried;
    match s
    case ResolveBatch(ids, round, h, now) => ResolveSession(j, ids, round, h, now);
    case FinishMedia(h, now, _) => MediaSession(j, h, now);
    case Expand(h, now, _) => WiderSession(j, h, now);
  }

  lemma ResolveSession(j: Job, ids: set<OfferId>, round: nat, h: Hunt, now: int)
    ensures SessionStep(j, Resolve(j, ids, round, h, now))
  {
    hide NextRound, TimeOutThese, Retire;
    SearchKeepsOwed(j.(offers := TimeOutThese(j.offers, ids), round := round + 1), h, now);
  }

  lemma MediaSession(j: Job, h: Hunt, now: int)
    ensures SessionStep(j, LandWrite(j, OpenDispatch)) && SessionStep(j, StartDispatch(LandWrite(j, OpenDispatch), h, now))
  {
    LandingOwes(j.owed, OpenDispatch);
    hide StartDispatch, OwedAfter;
    SearchKeepsOwed(LandWrite(j, OpenDispatch), h, now);
  }

  lemma WiderSession(j: Job, h: Hunt, now: int)
    ensures SessionStep(j, j.(round := j.round + 1)) && SessionStep(j, StartDispatch(j.(round := j.round + 1), h, now))
  {
    hide StartDispatch;
    SearchKeepsOwed(j.(round := j.round + 1), h, now);
  }

  lemma FollowUpSession(j: Job, s: Step)
    requires Allowed(j, s) && (s.AfterClaim? || s.Answer?)
    ensures SessionStep(j, Next(j, s)) && Next(j, s).status == j.status
  {
    hide Resolve, StartDispatch, RunFollowUp, AnswerOffer;
    if s.AfterClaim? { FollowUpMovesDeadlines(j, s.followUp, s.window, s.now); }
    if s.Answer? { AnswerKeepsSession(j, s.offer, s.quote, s.now); }
  }

  lemma AnswerKeepsSession(j: Job, k: OfferId, quote: Option<int>, now: int)
    ensures var j' := AnswerOffer(j, k, quote, now); j'.owed == j.owed && j'.awaitingMedia == j.awaitingMedia && j'.status == j.status
  {
  }

  lemma LandSession(j: Job, w: Write)
    requires w != OpenDispatch
    ensures SessionStep(j, LandWrite(j, w))
  {
    LandingOwes(j.owed, w);
    hide CloseOffers, Award, Retire, OwedAfter;
  }

  lemma QuietSession(j: Job, s: Step)
    requires Allowed(j, s) && !Automatic(s) && !s.Land? && !s.Ask? && !s.Confirm? && !s.AfterClaim? && !s.Answer?
    ensures SessionStep(j, Next(j, s))
  {
    hide Resolve, StartDispatch, Retire, TimeOutThese, CloseDue, SelectionDue, DepositDue, CanOfferManually, CanSelect, CanAssign,
         L.Apply, SettlesDeposit, AnyWith, Clamped;
  }

  /** Only reading the request adds a write to land, and nothing reopens a media session. */
  lemma StepSession(j: Job, s: Step)
    requires Allowed(j, s) && !s.Ask? && !s.Confirm?
    ensures SessionStep(j, Next(j, s))
  {
    hide SessionStep, Resolve, StartDispatch, LandWrite;
    if Automatic(s) {
      AutomaticSession(j, s);
    } else if s.AfterClaim? || s.Answer? {
      FollowUpSession(j, s);
    } else if s.Land? {
      LandSession(j, s.write);
    } else {
      QuietSession(j, s);
    }
  }

  lemma {:induction false} SpentForGood(j: Job, run: seq<Step>)
    requires Inv(j) && Spent(j) && AllowedRun(j, run)
    ensures Spent(After(j, run))
    decreases |run|
  {
    hide Inv, Spent, Next, Allowed;
    if run != [] {
      SpentStays(j, run[0]);
      NextKeepsInv(j, run[0]);
      SpentForGood(Next(j, run[0]), run[1..]);
    }
  }

  /** The failing input: assigning a job whose deposit was paid and confirmed before. */
  lemma ReassigningAPaidJobSpendsIt(j: Job, s: Step)
    requires Inv(j) && Allowed(j, s) && s.Assign? && CanAssign(j, s.whatsapp)
    requires DepositPaid(j) && j.confirms == {} && Activate !in j.owed
    ensures Spent(Next(j, s)) && Next(j, s).status == WAITING_FOR_DEPOSIT
  {
    hide L.Consistent, Resolve, StartDispatch;
    InsertDeposit(j, s.payment, s.deposit, s.now);
  }

  lemma ActivatingAPaidJob(j: Job, payment: PaymentId)
    requires DepositWindowSet(j) && j.status == WAITING_FOR_DEPOSIT && j.confirms == {payment} && j.owed == multiset{}
    ensures var j1 := Next(j, Confirm(payment));
            Allowed(j1, Land(Activate)) &&
            var j2 := Next(j1, Land(Activate));
            j2 == j.(status := OPERATOR_ASSIGNED, stage := j2.stage, confirms := {}, owed := multiset{AwardOffers})
  {
    hide Resolve, StartDispatch, L.Consistent;
  }

  /** That input is reached: a request is assigned, paid, confirmed and activated, and then
      assigned again. */
  lemma ReassignmentIsReached(id: RequestId, payment: PaymentId, second: PaymentId) returns (run: seq<Step>, s: Step)
    requires payment != second
    ensures AllowedRun(NewJob(id), run)
    ensures var j := After(NewJob(id), run);
            Inv(j) && Allowed(j, s) && s.Assign? && CanAssign(j, s.whatsapp) && DepositPaid(j) && j.confirms == {} && Activate !in j.owed
  {
    PaidIsReachable(id, payment);
    var j, confirmed := After(NewJob(id), PaidRun(payment)), [Confirm(payment), Land(Activate)];
    hide Next, Allowed, After, AllowedRun, Inv, PaidRun, NewJob, DepositPaid;
    assert DepositWindowSet(j) by { DepositWindowOf(j); }
    ActivatedRun(j, payment);
    var j2 := After(j, confirmed);
    assert !L.SlotTaken(j2.rows, j2.id, DEPOSIT);
    var batch := FreshBatchId(j2);
    AssigningAgain(j2, second, batch);
    hide *;
    Chain(NewJob(id), PaidRun(payment), confirmed);
    run, s := PaidRun(payment) + confirmed, Assign("o", true, 10000, batch, second, 5000, 0);
  }

  lemma DepositWindowOf(j: Job)
    requires Inv(j)
    ensures DepositWindowSet(j)
  {
    hide L.Consistent, AuctionInv, PaidFirst;
  }

  lemma ActivatedRun(j: Job, payment: PaymentId)
    requires Inv(j) && j.status == WAITING_FOR_DEPOSIT && j.confirms == {payment} && j.owed == multiset{} && DepositPaid(j)
    requires DepositWindowSet(j)
    ensures var run := [Confirm(payment), Land(Activate)];
            && AllowedRun(j, run)
            && var j2 := After(j, run);
               Inv(j2) && DepositPaid(j2) && j2.rows == j.rows && j2.id == j.id && j2.confirms == {} && Activate !in j2.owed && !Ended(j2.status)
  {
    ActivatingAPaidJob(j, payment);
    var j1 := Next(j, Confirm(payment));
    assert Allowed(j, Confirm(payment));
    hide Next, Allowed, Inv;
    NextKeepsInv(j, Confirm(payment));
    NextKeepsInv(j1, Land(Activate));
    RunOfTwo(j, Confirm(payment), Land(Activate));
  }

  ghost predicate CanReach(j: Job, status: RequestStatus) {
    exists run :: AllowedRun(j, run) && After(j, run).status == status
  }

  /** Ids never run out. */
  lemma {:induction false} LongestOf(used: set<string>) returns (n: nat)
    ensures forall u | u in used :: |u| <= n
    decreases |used|
  {
    n := 0;
    if used != {} {
      var u :| u in used;
      n := LongestOf(used - {u});
      n := Max(n, |u|);
    }
  }

  lemma FreshId(used: set<string>) returns (unused: string)
    ensures unused !in used
  {
    var n := LongestOf(used);
    unused := seq(n + 1, _ => 'x');
  }

  lemma FreshBatchId(j: Job) returns (batch: BatchId)
    ensures FreshBatch(j, batch)
  {
    batch := FreshId(set k | k in j.offers :: k.batch);
  }

  lemma ReadThenLand(j: Job, payment: PaymentId)
    requires DepositWindowSet(j) && j.status == WAITING_FOR_DEPOSIT && payment in j.confirms
    ensures Allowed(j, Confirm(payment)) && Allowed(Next(j, Confirm(payment)), Land(Activate))
    ensures Next(Next(j, Confirm(payment)), Land(Activate)).status == OPERATOR_ASSIGNED
  {
    hide Resolve, StartDispatch;
  }

  lemma ConfirmedReaches(j: Job, payment: PaymentId)
    requires DepositWindowSet(j) && j.status == WAITING_FOR_DEPOSIT && payment in j.confirms
    ensures CanReach(j, OPERATOR_ASSIGNED)
  {
    ReadThenLand(j, payment);
    hide Next, Allowed, DepositWindowSet;
    RunOfTwo(j, Confirm(payment), Land(Activate));
  }

  lemma WrittenReaches(j: Job)
    requires Activate in j.owed
    ensures CanReach(j, OPERATOR_ASSIGNED)
  {
    assert Allowed(j, Land(Activate)) && Next(j, Land(Activate)).status == OPERATOR_ASSIGNED;
    Append(j, [], Land(Activate));
    assert [] + [Land(Activate)] == [Land(Activate)];
  }

  lemma Continues(j: Job, run: seq<Step>, status: RequestStatus)
    requires AllowedRun(j, run) && CanReach(After(j, run), status)
    ensures CanReach(j, status)
  {
    var more :| AllowedRun(After(j, run), more) && After(After(j, run), more).status == status;
    Chain(j, run, more);
  }

  lemma UnpaidReaches(j: Job, payment: PaymentId)
    requires Inv(j) && j.status == WAITING_FOR_DEPOSIT && !DepositPaid(j)
    requires payment in j.rows && j.rows[payment].request == j.id && j.rows[payment].kind == DEPOSIT && InFlight(j.rows[payment].status)
    ensures CanReach(j, OPERATOR_ASSIGNED)
  {
    SettleRun(j, payment);
    var run := [LedgerStep(L.Submit(payment, 0)), LedgerStep(L.Settle(payment, Plain(SUCCEEDED)))];
    ConfirmedReaches(After(j, run), payment);
    hide *;
    Continues(j, run, OPERATOR_ASSIGNED);
  }

  lemma CreatingADeposit(j: Job, unused: PaymentId)
    requires Inv(j) && unused !in j.rows && !L.SlotTaken(j.rows, j.id, DEPOSIT)
    ensures var row := L.NewRow(j.id, DEPOSIT, 0, None, 0);
            && Allowed(j, LedgerStep(L.Create(unused, row)))
            && Next(j, LedgerStep(L.Create(unused, row))) == j.(rows := j.rows[unused := row])
            && (DepositPaid(j.(rows := j.rows[unused := row])) <==> DepositPaid(j))
  {
    hide L.Consistent, Resolve, StartDispatch;
    InsertDeposit(j, unused, 0, 0);
  }

  lemma EmptySlotReaches(j: Job)
    requires Inv(j) && j.status == WAITING_FOR_DEPOSIT && !DepositPaid(j) && !L.SlotTaken(j.rows, j.id, DEPOSIT)
    ensures CanReach(j, OPERATOR_ASSIGNED)
  {
    var unused := FreshId(j.rows.Keys);
    var s := LedgerStep(L.Create(unused, L.NewRow(j.id, DEPOSIT, 0, None, 0)));
    CreatingADeposit(j, unused);
    NextKeepsInv(j, s);
    hide Inv, DepositPaid, L.SlotTaken;
    UnpaidReaches(Next(j, s), unused);
    hide Next, Allowed;
    Append(j, [], s);
    assert [] + [s] == [s];
    Continues(j, [s], OPERATOR_ASSIGNED);
  }

  /** A job waiting for its deposit can still be activated, by some run, exactly when a
      confirmation is owed or under way, or the deposit has never been paid. So a job
      reassigned after its deposit was confirmed is lost: the second deposit's success is
      quarantined as a duplicate. */
  lemma ReassignedJobActivatesIff(j: Job)
    requires Inv(j) && j.status == WAITING_FOR_DEPOSIT
    ensures CanReach(j, OPERATOR_ASSIGNED) <==> j.confirms != {} || Activate in j.owed || !DepositPaid(j)
  {
    if Activate in j.owed {
      WrittenReaches(j);
    } else if j.confirms != {} {
      var payment :| payment in j.confirms;
      ConfirmedReaches(j, payment);
    } else if DepositPaid(j) {
      forall run | AllowedRun(j, run) ensures After(j, run).status != OPERATOR_ASSIGNED { SpentForGood(j, run); }
    } else if L.SlotTaken(j.rows, j.id, DEPOSIT) {
      var payment :| payment in j.rows && j.rows[payment].request == j.id && j.rows[payment].kind == DEPOSIT && InFlight(j.rows[payment].status);
      UnpaidReaches(j, payment);
    } else {
      EmptySlotReaches(j);
    }
  }

  // ---- When a late deposit can be brought back -----------------------------------------

  /** Over, and nobody is about to change that. */
  predicate OverAndDone(j: Job) {
    Over(j) && !j.awaitingMedia && Arrive !in j.owed && Dispute !in j.owed && OpenDispatch !in j.owed
  }

  lemma OverAndDoneStays(j: Job, s: Step)
    requires Allowed(j, s) && OverAndDone(j)
    ensures OverAndDone(Next(j, s))
  {
    hide Resolve, StartDispatch, LandWrite, Over;
    OverIsEnded(j);
    NothingToRevive(j, s);
    OverStaysOver(j, s);
    if s.Ask? || s.Confirm? { AskingWhenOver(j, s); }
    if !s.Ask? && !s.Confirm? { StepSession(j, s); }
  }

  /** Reading an ended request owes nothing but, at most, another withdrawal. */
  lemma AskingWhenOver(j: Job, s: Step)
    requires Allowed(j, s) && Ended(j.status) && !j.awaitingMedia && (s.Ask? || s.Confirm?)
    ensures Next(j, s).owed <= j.owed + multiset{Withdraw} && Next(j, s).awaitingMedia == j.awaitingMedia
  {
    hide Resolve, StartDispatch;
  }

  lemma NothingToRevive(j: Job, s: Step)
    requires Allowed(j, s) && OverAndDone(j)
    ensures !Revives(j, s)
  {
    hide GivesUp, LandWrite;
  }

  lemma {:induction false} OverAndDoneForGood(j: Job, run: seq<Step>)
    requires OverAndDone(j) && AllowedRun(j, run)
    ensures OverAndDone(After(j, run))
    decreases |run|
  {
    hide OverAndDone, Next, Allowed;
    if run != [] {
      OverAndDoneStays(j, run[0]);
      OverAndDoneForGood(Next(j, run[0]), run[1..]);
    }
  }

  /** A hunt that finds nobody, under an unused batch id. */
  function EmptyHunt(batch: BatchId): Hunt {
    Hunt((x: nat) => [], (x: nat) => [], false, 0, 1, 0, batch)
  }

  /** An end of media that is owed can land next, leaving rows and confirmations as they were
      and the request live. */
  lemma MediaRevives(j: Job) returns (s: Step)
    requires OpenDispatch in j.owed
    ensures Allowed(j, s)
    ensures var j' := Next(j, s);
            !Ended(j'.status) && j'.rows == j.rows && j'.id == j.id && j'.confirms == j.confirms
  {
    hide Resolve, StartDispatch;
    var batch := FreshBatchId(j);
    s := FinishMedia(EmptyHunt(batch), 0, true);
  }

  lemma AssigningAgain(j: Job, payment: PaymentId, batch: BatchId)
    requires !Ended(j.status) && !L.SlotTaken(j.rows, j.id, DEPOSIT) && payment !in j.rows && FreshBatch(j, batch)
    ensures var s := Assign("o", true, 10000, batch, payment, 5000, 0);
            && Allowed(j, s)
            && var j' := Next(j, s);
               CanAssign(j, true) && j'.status == WAITING_FOR_DEPOSIT && DepositWindowSet(j') && j'.confirms == j.confirms
  {
    hide Resolve, StartDispatch;
  }

  lemma RevivedReaches(j: Job, settled: PaymentId)
    requires settled in j.confirms && OpenDispatch in j.owed && !L.SlotTaken(j.rows, j.id, DEPOSIT)
    ensures CanReach(j, OPERATOR_ASSIGNED)
  {
    var s := MediaRevives(j);
    var j1 := Next(j, s);
    var payment := FreshId(j1.rows.Keys);
    var batch := FreshBatchId(j1);
    AssigningAgain(j1, payment, batch);
    var t := Assign("o", true, 10000, batch, payment, 5000, 0);
    ConfirmedReaches(Next(j1, t), settled);
    hide *;
    RunOfTwo(j, s, t);
    Continues(j, [s, t], OPERATOR_ASSIGNED);
  }

  lemma SessionStaysOver(j: Job, s: Step)
    requires Allowed(j, s) && SessionOver(j)
    ensures SessionOver(Next(j, s))
  {
    hide Resolve, StartDispatch, LandWrite, AnswerOffer, RunFollowUp, OpenSelection;
    if !s.Ask? && !s.Confirm? { StepSession(j, s); }
  }

  lemma {:induction false} SessionsEnd(j: Job, run: seq<Step>)
    requires SessionOver(j) && AllowedRun(j, run)
    ensures SessionOver(After(j, run))
    decreases |run|
  {
    hide SessionOver, Next, Allowed;
    if run != [] {
      SessionStaysOver(j, run[0]);
      SessionsEnd(Next(j, run[0]), run[1..]);
    }
  }

  /** In every run of a new request, stale writes or not, whatever revives it has gone stale. */
  lemma EveryRevivalIsStale(id: RequestId, run: seq<Step>, s: Step)
    requires AllowedRun(NewJob(id), run) && Allowed(After(NewJob(id), run), s)
    requires Ended(After(NewJob(id), run).status) && Revives(After(NewJob(id), run), s)
    ensures StaleWrite(After(NewJob(id), run), s)
  {
    SessionsEnd(NewJob(id), run);
    hide After, AllowedRun, Revives, StaleWrite, Allowed;
    RevivalIsStale(After(NewJob(id), run), s);
  }

  lemma OverActivatesIff(j: Job)
    requires Over(j) && !UnderWay(j) && !j.awaitingMedia && j.confirms != {} && !L.SlotTaken(j.rows, j.id, DEPOSIT)
    ensures CanReach(j, OPERATOR_ASSIGNED) <==> OpenDispatch in j.owed
  {
    if OpenDispatch in j.owed {
      var settled :| settled in j.confirms;
      RevivedReaches(j, settled);
    } else {
      forall run | AllowedRun(j, run) ensures After(j, run).status != OPERATOR_ASSIGNED { OverAndDoneForGood(j, run); }
    }
  }

  /** The slot a deposit held is free once it has settled. */
  lemma SettlingFreesTheSlot(j: Job, op: L.Op)
    requires L.Consistent(j.rows) && SettlesDeposit(j, op)
    ensures op.id in ApplyLedger(j, op).confirms && !L.SlotTaken(ApplyLedger(j, op).rows, j.id, DEPOSIT)
  {
    var rows := ApplyLedger(j, op).rows;
    forall q | q in rows && rows[q].request == j.id && rows[q].kind == DEPOSIT ensures !InFlight(rows[q].status) {
      if q != op.id { assert L.SameSlot(j.rows[q], j.rows[op.id]); }
    }
  }

  /** The exact condition for a late deposit: after one settles on an ended request, in any run
      of a new request, some continuation activates the job exactly when an end of media has
      been read and its write is still to land. */
  lemma LateDepositActivatesIff(id: RequestId, before: seq<Step>, op: L.Op)
    requires AllowedRun(NewJob(id), before)
    requires var j := After(NewJob(id), before);
             L.Allowed(j.rows, op) && SettlesDeposit(j, op) && Ended(j.status)
    ensures var j := After(NewJob(id), before);
            CanReach(ApplyLedger(j, op), OPERATOR_ASSIGNED) <==> OpenDispatch in j.owed
  {
    NewJobIsFine(id);
    RunTightens(NewJob(id), before);
    SessionsEnd(NewJob(id), before);
    var j := After(NewJob(id), before);
    hide L.Consistent, Tightened, AllowedRun, After, CanReach;
    SettlingWasUnpaid(j, op);
    SettlingFreesTheSlot(j, op);
    OverActivatesIff(ApplyLedger(j, op));
  }

  lemma ExpiringUnderMedia(j: Job, payment: PaymentId)
    requires j.status == WAITING_FOR_DEPOSIT && j.payBy == Some(DEPOSIT_WINDOW_MS) && j.awaitingMedia && j.owed == multiset{}
    requires j.rows == map[payment := L.NewRow(j.id, DEPOSIT, 5000, None, 0)]
    ensures var j1 := Next(j, Ask(OpenDispatch));
            var j2 := Next(j1, LedgerStep(L.Submit(payment, 0)));
            var j3 := Next(j2, ExpireDeposit(DEPOSIT_WINDOW_MS + 1));
            && Allowed(j, Ask(OpenDispatch)) && Allowed(j1, LedgerStep(L.Submit(payment, 0)))
            && Allowed(j2, ExpireDeposit(DEPOSIT_WINDOW_MS + 1))
            && Ended(j3.status) && OpenDispatch in j3.owed
            && L.Allowed(j3.rows, L.Settle(payment, Plain(SUCCEEDED))) && SettlesDeposit(j3, L.Settle(payment, Plain(SUCCEEDED)))
  {
    hide Resolve, StartDispatch;
    var rows := L.Apply(j.rows, L.Submit(payment, 0));
    assert rows.Keys == {payment} && !L.SucceededSibling(rows, payment);
  }

  /** That case is reached: the deposit window of a request assigned by hand runs out while the
      end of its media is still to be written, and the deposit settles after all. */
  lemma LateDepositIsReached(id: RequestId, payment: PaymentId) returns (before: seq<Step>, op: L.Op)
    ensures AllowedRun(NewJob(id), before)
    ensures var j := After(NewJob(id), before);
            L.Allowed(j.rows, op) && SettlesDeposit(j, op) && Ended(j.status) && OpenDispatch in j.owed
  {
    var assign := Assign("o", true, 10000, "b", payment, 5000, 0);
    AssigningANewJob(id, payment);
    var j := Next(NewJob(id), assign);
    ExpiringUnderMedia(j, payment);
    hide *;
    var ask, submit, expire := Ask(OpenDispatch), LedgerStep(L.Submit(payment, 0)), ExpireDeposit(DEPOSIT_WINDOW_MS + 1);
    RunOfTwo(j, ask, submit);
    Append(j, [ask, submit], expire);
    Prepend(NewJob(id), assign, [ask, submit] + [expire]);
    before, op := [assign] + ([ask, submit] + [expire]), L.Settle(payment, Plain(SUCCEEDED));
  }

  // ---- Without the customer's lock -------------------------------------------------------

  /** A transaction that takes the customer's row lock: it inserts a deposit, balance or
      refund row, or raises a dispute. */
  predicate LocksCustomer(s: Step) {
    s.Select? || s.Assign? || (s.LedgerStep? && s.op.Create? && s.op.row.kind != PAYOUT) || s == Land(Dispute)
  }

  /** No deposit, balance or refund of the request is still moving. */
  ghost predicate MoneyAtRest(j: Job) {
    forall p | p in j.rows && j.rows[p].kind != PAYOUT :: !InFlight(j.rows[p].status)
  }

  /** Without the customer's lock, nothing puts such a row in flight. */
  lemma RestWithoutLock(j: Job, s: Step)
    requires Allowed(j, s) && !LocksCustomer(s) && MoneyAtRest(j)
    ensures MoneyAtRest(Next(j, s))
  {
    hide Resolve, StartDispatch, LandWrite;
    if !TouchesDeposit(s) {
      OthersKeepDeposit(j, s);
    } else if s.LedgerStep? {
      RestOverLedger(j, s.op);
    } else if s.Land? {
      LandLeavesRest(j, s.write);
    }
  }

  lemma RestOverLedger(j: Job, op: L.Op)
    requires L.Allowed(j.rows, op) && MoneyAtRest(j) && !(op.Create? && op.row.kind != PAYOUT)
    ensures MoneyAtRest(ApplyLedger(j, op))
  {
  }
}
