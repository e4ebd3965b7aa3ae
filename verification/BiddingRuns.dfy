/** Whole runs of a request: deadlines only tighten, bidding freezes once, and automatic
    rounds run out of operators. */
module BiddingRuns {
  import opened Payments
  import opened RoundSearch
  import opened Dispatch
  import opened Bidding
  import opened Handover
  import L = Ledger

  // ---- Nothing is ever pushed back ----------------------------------------------

  /** No round is undone, no offer disappears, becomes pending again or is extended, no
      collection deadline moves later; and once bidding has closed, the stamp and the
      selection deadline stand, nothing is pending and no new quote appears. */
  ghost predicate Tightened(j: Job, j': Job) {
    && j'.round >= j.round && j'.id == j.id
    && (forall k | k in j.offers ::
          && k in j'.offers && j'.offers[k].round == j.offers[k].round
          && j'.offers[k].expiresAt <= j.offers[k].expiresAt
          && (j'.offers[k].status == OFFERED ==> j.offers[k].status == OFFERED))
    && (j.collectBy.Some? ==> j'.collectBy.Some? && j'.collectBy.value <= j.collectBy.value)
    && (j.closedAt.Some? ==>
          && j'.closedAt == j.closedAt && j'.chooseBy == j.chooseBy && !AnyWith(j'.offers, OFFERED)
          && forall k | k in j'.offers && j'.offers[k].status == QUOTED :: k in j.offers && j.offers[k].status == QUOTED)
  }

  lemma NextRoundTightens(j: Job, start: nat, h: Hunt, now: int)
    requires FreshBatch(j, h.batch) && j.closedAt.None? && start >= j.round
    ensures Tightened(j, NextRound(j, start, h, now))
  {
  }

  lemma ResolveTightens(j: Job, ids: set<OfferId>, round: nat, h: Hunt, now: int)
    requires Inv(j) && Allowed(j, ResolveBatch(ids, round, h, now))
    ensures Tightened(j, Resolve(j, ids, round, h, now))
  {
    hide L.Consistent, Tightened, NextRound, OpenSelection;
    if ClaimsRound(j, round) {
      ResolverFindsBiddingOpen(j, ids, round, now);
      ClaimedRoundTightens(j, ids, round, h, now);
    } else {
      EndingOffers(j, j.(offers := TimeOutThese(j.offers, ids)));
    }
  }

  lemma ClaimedRoundTightens(j: Job, ids: set<OfferId>, round: nat, h: Hunt, now: int)
    requires Frozen(j) && ClaimsRound(j, round) && j.closedAt.None? && FreshBatch(j, h.batch)
    ensures Tightened(j, Resolve(j, ids, round, h, now))
  {
    hide Tightened, NextRound, OpenSelection;
    var expired := j.(offers := TimeOutThese(j.offers, ids));
    var advanced := expired.(round := round + 1);
    EndingOffers(j, expired);
    SameBidding(expired, advanced);
    TightenedChains(j, expired, advanced);
    if AnyWith(expired.offers, QUOTED) {
      OpeningTightens(advanced, now);
    } else {
      NextRoundTightens(advanced, round + 1, h, now);
    }
    TightenedChains(j, advanced, Resolve(j, ids, round, h, now));
  }

  lemma OpeningTightens(j: Job, now: int)
    requires j.closedAt.None?
    ensures Tightened(j, OpenSelection(j, now))
  {
  }

  lemma DispatchTightens(j: Job, h: Hunt, now: int)
    requires FreshBatch(j, h.batch) && Frozen(j)
    ensures Tightened(j, StartDispatch(j, h, now))
  {
    if StartDispatch(j, h, now) != j { NextRoundTightens(j, j.round, h, now); }
  }

  lemma SearchTightens(j: Job, s: Step)
    requires Inv(j) && Allowed(j, s) && Automatic(s)
    ensures Tightened(j, Next(j, s))
  {
    hide Tightened, L.Consistent, Resolve, StartDispatch;
    match s
    case ResolveBatch(ids, round, h, now) => ResolveTightens(j, ids, round, h, now);
    case FinishMedia(h, now, crash) =>
      var ready := LandWrite(j, OpenDispatch);
      hide OwedAfter;
      SameBidding(j, ready);
      DispatchTightens(ready, h, now);
      TightenedChains(j, ready, Next(j, s));
    case Expand(h, now, crash) =>
      var wider := j.(round := j.round + 1);
      SameBidding(j, wider);
      DispatchTightens(wider, h, now);
      TightenedChains(j, wider, Next(j, s));
  }

  /** Leaving offers and deadlines alone tightens nothing and loosens nothing. */
  lemma SameBidding(j: Job, j': Job)
    requires Frozen(j) && j'.id == j.id && j'.round >= j.round
    requires j'.offers == j.offers && j'.collectBy == j.collectBy && j'.closedAt == j.closedAt && j'.chooseBy == j.chooseBy
    ensures Tightened(j, j')
  {
  }

  /** So does moving offers out of the pending and quoted states. */
  lemma EndingOffers(j: Job, j': Job)
    requires Frozen(j) && j'.id == j.id && j'.round == j.round
    requires j'.collectBy == j.collectBy && j'.closedAt == j.closedAt && j'.chooseBy == j.chooseBy
    requires forall k | k in j.offers :: k in j'.offers && j'.offers[k].round == j.offers[k].round && j'.offers[k].expiresAt == j.offers[k].expiresAt
    requires forall k | k in j'.offers :: (k in j.offers && j'.offers[k].status == j.offers[k].status) ||
                                          j'.offers[k].status !in {OFFERED, QUOTED}
    ensures Tightened(j, j')
  {
  }

  lemma AnswerTightens(j: Job, k: OfferId, quote: Option<int>, now: int)
    requires Frozen(j)
    ensures Tightened(j, AnswerOffer(j, k, quote, now))
  {
  }

  lemma ManualOfferTightens(j: Job, operator: OperatorId, batch: BatchId, now: int)
    requires FreshBatch(j, batch) && Frozen(j)
    ensures Tightened(j, Next(j, OfferManually(operator, batch, now)))
  {
  }

  lemma CancelTightens(j: Job, offers: Offers)
    requires Frozen(j) && offers.Keys == j.offers.Keys
    requires forall k | k in offers ::
      && offers[k].round == j.offers[k].round && offers[k].expiresAt == j.offers[k].expiresAt
      && (offers[k].status == j.offers[k].status || offers[k].status in {TIMED_OUT, NOT_SELECTED})
    ensures Tightened(j, Cancelled(j, offers))
  {
  }

  lemma SweepTightens(j: Job, ids: set<OfferId>)
    requires Frozen(j)
    ensures Tightened(j, j.(offers := TimeOutThese(j.offers, ids)))
  {
  }

  lemma LedgerTightens(j: Job, op: L.Op)
    requires Frozen(j)
    ensures Tightened(j, ApplyLedger(j, op))
  {
  }

  lemma SelectTightens(j: Job, k: OfferId, payment: PaymentId, deposit: int, now: int)
    requires Frozen(j) && k in j.offers
    ensures Tightened(j, SelectQuote(j, k, payment, deposit, now))
  {
  }

  lemma AssignTightens(j: Job, operator: OperatorId, price: int, batch: BatchId,
                       payment: PaymentId, deposit: int, now: int)
    requires Frozen(j) && FreshBatch(j, batch)
    ensures Tightened(j, AssignByHand(j, operator, price, batch, payment, deposit, now))
  {
  }

  lemma LandTightens(j: Job, w: Write)
    requires Frozen(j)
    ensures Tightened(j, LandWrite(j, w))
  {
    LandLeavesRest(j, w);
    hide LandWrite, Frozen, Tightened;
    EndingOffers(j, LandWrite(j, w));
  }

  lemma StepTightens(j: Job, s: Step)
    requires Inv(j) && Allowed(j, s)
    ensures Tightened(j, Next(j, s))
  {
    assert Frozen(j);
    hide Inv, Frozen, Tightened, NextRound, Resolve, StartDispatch, OpenSelection, CanSelect, AnswerOffer, RunFollowUp, SelectQuote,
         AssignByHand, ReadDeposit, LandWrite, ApplyLedger, FreshHunt, Queried, MayAsk, L.Allowed, Retire, TimeOutThese, Sweepable;
    match s
    case ResolveBatch(_, _, _, _) => SearchTightens(j, s);
    case FinishMedia(_, _, _) => SearchTightens(j, s);
    case Expand(_, _, _) => SearchTightens(j, s);
    case AfterClaim(f, window, now) => FollowUpTightens(j, f, window, now);
    case Answer(k, quote, now) => AnswerTightens(j, k, quote, now);
    case OfferManually(operator, batch, now) => ManualOfferTightens(j, operator, batch, now);
    case CloseBidding(now) => if CloseDue(j, now) { OpeningTightens(j, now); } else { SameBidding(j, j); }
    case LedgerStep(op) => LedgerTightens(j, op);
    case ResolveDispute => SameBidding(j, Next(j, s));
    case Complete => SameBidding(j, j.(status := COMPLETED));
    case Ask(w) => SameBidding(j, j.(owed := j.owed + multiset{w}));
    case Land(w) => LandTightens(j, w);
    case Confirm(payment) => ReadTightens(j, payment);
    case TimeOutSelection(_) => TakingTightens(j, s);
    case ExpireDeposit(_) => TakingTightens(j, s);
    case SweepOffers(_, _) => TakingTightens(j, s);
    case Select(_, _, _, _) => TakingTightens(j, s);
    case Assign(_, _, _, _, _, _, _) => TakingTightens(j, s);
  }

  /** The timeouts, the sweep, and the choice of an operator. */
  lemma TakingTightens(j: Job, s: Step)
    requires Inv(j) && Allowed(j, s)
    requires s.TimeOutSelection? || s.ExpireDeposit? || s.SweepOffers? || s.Select? || s.Assign?
    ensures Tightened(j, Next(j, s))
  {
    assert Frozen(j);
    hide Inv, Frozen, Tightened, NextRound, Resolve, StartDispatch, CanSelect, SelectQuote, AssignByHand, Retire, TimeOutThese, Sweepable;
    match s
    case TimeOutSelection(_) =>
      if SelectionDue(j, s.now) { CancelTightens(j, Retire(j.offers, QUOTED, TIMED_OUT)); } else { SameBidding(j, j); }
    case ExpireDeposit(_) =>
      if DepositDue(j, s.now) { CancelTightens(j, Retire(j.offers, SELECTED_PENDING_PAYMENT, TIMED_OUT)); } else { SameBidding(j, j); }
    case SweepOffers(_, _) =>
      SweepTightens(j, set k | k in s.ids && Sweepable(j, k, s.now));
    case Select(_, _, _, _) =>
      if CanSelect(j, s.offer) { SelectTightens(j, s.offer, s.payment, s.deposit, s.now); } else { SameBidding(j, j); }
    case Assign(_, _, _, _, _, _, _) =>
      if CanAssign(j, s.whatsapp) { AssignTightens(j, s.operator, s.price, s.batch, s.payment, s.deposit, s.now); } else { SameBidding(j, j); }
  }

  lemma ReadTightens(j: Job, payment: PaymentId)
    requires Frozen(j)
    ensures Tightened(j, ReadDeposit(j, payment))
  {
    SameBidding(j, ReadDeposit(j, payment));
  }

  /** Shortening offers, or the collection deadline, is the other way to tighten. */
  lemma ShorteningTightens(j: Job, j': Job)
    requires Frozen(j) && j'.id == j.id && j'.round == j.round && j'.closedAt == j.closedAt && j'.chooseBy == j.chooseBy
    requires j.collectBy.Some? ==> j'.collectBy.Some? && j'.collectBy.value <= j.collectBy.value
    requires j'.offers.Keys == j.offers.Keys
    requires forall k | k in j.offers :: j'.offers[k].round == j.offers[k].round &&
               j'.offers[k].status == j.offers[k].status && j'.offers[k].expiresAt <= j.offers[k].expiresAt
    ensures Tightened(j, j')
  {
  }

  lemma FollowUpTightens(j: Job, f: FollowUp, window: int, now: int)
    requires Frozen(j)
    ensures Tightened(j, RunFollowUp(j, f, window, now))
  {
    FollowUpMovesDeadlines(j, f, window, now);
    hide Tightened, Frozen, RunFollowUp;
    ShorteningTightens(j, RunFollowUp(j, f, window, now));
  }

  /** The invariant and the tightening, over every run of every length. */
  lemma {:induction false} RunTightens(j: Job, run: seq<Step>)
    requires Inv(j) && AllowedRun(j, run)
    ensures Inv(After(j, run)) && Tightened(j, After(j, run))
    decreases |run|
  {
    if run == [] {
    } else {
      var j1 := Next(j, run[0]);
      NextKeepsInv(j, run[0]);
      StepTightens(j, run[0]);
      RunTightens(j1, run[1..]);
      TightenedChains(j, j1, After(j1, run[1..]));
    }
  }

  lemma TightenedChains(a: Job, b: Job, c: Job)
    requires Tightened(a, b) && Tightened(b, c)
    ensures Tightened(a, c)
  {
  }

  lemma NewJobIsFine(id: RequestId)
    ensures Inv(NewJob(id)) && Backed(NewJob(id)) && Witness(NewJob(id))
  {
  }

  ghost predicate NeverDrops(j: Job, run: seq<Step>)
    requires AllowedRun(j, run)
    decreases |run|
  {
    run == [] || (!Drops(j, run[0]) && NeverDrops(Next(j, run[0]), run[1..]))
  }

  /** Over whole runs: a request that no listed transaction dropped is always held by
      something a check will match, or by staff, or is past dispatch. */
  lemma {:induction false} UndroppedIsHeld(j: Job, run: seq<Step>)
    requires Inv(j) && Witness(j) && AllowedRun(j, run) && NeverDrops(j, run)
    ensures Witness(After(j, run))
    decreases |run|
  {
    hide Inv, Witness, Drops, Next, Allowed;
    if run != [] {
      NextKeepsInv(j, run[0]);
      HandoverKeptIff(j, run[0]);
      UndroppedIsHeld(Next(j, run[0]), run[1..]);
    }
  }

  /** A search that finds one operator. */
  function HuntFor(operator: OperatorId, batch: BatchId): Hunt {
    Hunt((x: nat) => [operator], (x: nat) => [], true, 1, 1, 1, batch)
  }

  lemma OneIsAsked(j: Job, operator: OperatorId, batch: BatchId)
    requires j.awaitingMedia && j.owed == multiset{OpenDispatch} && j.offers == map[] && j.offered == {}
    requires j.collectBy.None? && j.closedAt.None?
    ensures var s := FinishMedia(HuntFor(operator, batch), 0, false); var j' := Next(j, s);
            && Allowed(j, s) && j'.status == DISPATCHING && j'.owed == multiset{} && j'.followUps == j.followUps
            && j'.collectBy.None? && j'.chooseBy == j.chooseBy && j'.closedAt.None? && !j'.needsManual
            && j'.offers == map[Key(batch, operator) := Offer(OFFERED, None, 1, j'.round, true)]
  {
    var h, ready := HuntFor(operator, batch), LandWrite(j, OpenDispatch);
    assert h.find(FirstRadius(j.round)) == [operator];
    assert Search(h.find, h.covered, h.cap, j.round).who == [operator];
    assert [operator][0] in Asked([operator], 1) && Asked([operator], 1) == {operator};
    var added := FreshOffers(batch, {operator}, 1, Search(h.find, h.covered, h.cap, j.round).round);
    assert Key(batch, operator) in added && added.Keys == {Key(batch, operator)};
    assert ready.offers + added == added;
  }

  lemma LastDeclines(j: Job, k: OfferId)
    requires j.status == DISPATCHING && j.owed == multiset{} && j.followUps == {} && j.closedAt.None? && !Held(j)
    requires j.offers == map[k := Offer(OFFERED, None, 1, j.round, true)]
    ensures var j1 := Next(j, Answer(k, None, 0));
            Allowed(j1, AfterClaim(FollowUp(k, false), 0, 0)) && Stranded(Next(j1, AfterClaim(FollowUp(k, false), 0, 0)))
  {
    hide StartDispatch, Resolve;
    var j1 := AnswerOffer(j, k, None, 0);
    var j2 := RunFollowUp(j1, FollowUp(k, false), 0, 0);
    forall o ensures !Live(j2, o) {}
  }

  /** The gap is reached: media captured, one operator asked, who declines. */
  lemma StrandedIsReachable(id: RequestId, operator: OperatorId, batch: BatchId) returns (run: seq<Step>)
    ensures AllowedRun(NewJob(id), run) && |run| == 4 && Stranded(After(NewJob(id), run))
  {
    var j, k := NewJob(id), Key(batch, operator);
    var ask, media := Ask(OpenDispatch), FinishMedia(HuntFor(operator, batch), 0, false);
    var decline, follow := Answer(k, None, 0), AfterClaim(FollowUp(k, false), 0, 0);
    var j1 := Next(j, ask);
    OneIsAsked(j1, operator, batch);
    assert Allowed(j, ask) && Allowed(Next(j1, media), decline);
    hide Next, Allowed, Stranded;
    var j2 := Next(j1, media);
    LastDeclines(j2, k);
    var j3 := Next(j2, decline);
    Prepend(j3, follow, []);
    Prepend(j2, decline, [follow] + []);
    Prepend(j1, media, [decline] + ([follow] + []));
    Prepend(j, ask, [media] + ([decline] + ([follow] + [])));
    run := [ask] + ([media] + ([decline] + ([follow] + [])));
  }

  /** Every step of the run is a check acting on a due request. */
  ghost predicate DueRun(j: Job, run: seq<Step>, operators: set<OperatorId>)
    decreases |run|
  {
    run == [] ||
    (Allowed(j, run[0]) && DueStep(j, run[0], operators) && DueRun(Next(j, run[0]), run[1..], operators))
  }

  /** Left to the reconciler, a request is settled one way or the other within as many acts as
      its rank: at most 3 plus the operators not yet asked. */
  lemma {:induction false} ReconcilerFinishes(j: Job, run: seq<Step>, operators: set<OperatorId>)
    requires Inv(j) && DueRun(j, run, operators)
    ensures |run| <= Rank(j, operators) <= 3 + |operators - j.offered|
    decreases |run|
  {
    if run != [] {
      DueStepLowersRank(j, run[0], operators);
      NextKeepsInv(j, run[0]);
      hide Inv, Rank, DueStep, Next, Allowed;
      ReconcilerFinishes(Next(j, run[0]), run[1..], operators);
    }
    RankBound(j, operators);
  }

  lemma RankBound(j: Job, operators: set<OperatorId>)
    ensures Rank(j, operators) <= 3 + |operators - j.offered|
  {
  }

  /** Bidding closes at most once in the life of a request, across both closing checks. */
  predicate Closes(j: Job, j': Job) { j'.closedAt != j.closedAt }

  ghost function Closings(j: Job, run: seq<Step>): nat
    requires AllowedRun(j, run)
    decreases |run|
  {
    if run == [] then 0
    else (if Closes(j, Next(j, run[0])) then 1 else 0) + Closings(Next(j, run[0]), run[1..])
  }

  lemma {:induction false} BiddingClosesOnce(j: Job, run: seq<Step>)
    requires Inv(j) && AllowedRun(j, run)
    ensures Closings(j, run) <= if j.closedAt.Some? then 0 else 1
    decreases |run|
  {
    if run != [] {
      NextKeepsInv(j, run[0]);
      StepTightens(j, run[0]);
      BiddingClosesOnce(Next(j, run[0]), run[1..]);
    }
  }

  // ---- A batch is one round -------------------------------------------------------

  ghost predicate OneRoundPerBatch(j: Job) {
    forall k, o | k in j.offers && o in j.offers && k.batch == o.batch :: j.offers[k].round == j.offers[o].round
  }

  /** Offers added by a step share one new batch and one round. */
  ghost predicate AddsOneBatch(j: Job, j': Job, batch: BatchId, round: nat) {
    FreshBatch(j, batch) && forall k | k in j'.offers && k !in j.offers :: k.batch == batch && j'.offers[k].round == round
  }

  lemma AddingKeepsBatches(j: Job, j': Job, batch: BatchId, round: nat)
    requires OneRoundPerBatch(j) && Tightened(j, j') && AddsOneBatch(j, j', batch, round)
    ensures OneRoundPerBatch(j')
  {
  }

  lemma SearchAddsOneBatch(j: Job, start: nat, h: Hunt, now: int)
    requires FreshBatch(j, h.batch)
    ensures forall before: Job | before.offers.Keys == j.offers.Keys ::
              AddsOneBatch(before, NextRound(j, start, h, now), h.batch, NextRound(j, start, h, now).round)
  {
  }

  /** The round a batch is resolved under is the round of every offer in it. */
  lemma BatchesKeepOneRound(j: Job, s: Step)
    requires Inv(j) && Allowed(j, s) && OneRoundPerBatch(j)
    ensures OneRoundPerBatch(Next(j, s))
  {
    hide Tightened, NextRound, Resolve, StartDispatch, Search;
    var j' := Next(j, s);
    StepTightens(j, s);
    if Automatic(s) && StartsRound(j, s) {
      RoundComesFromSearch(j, s);
      SearchAddsOneBatch(Searching(j, s), Searching(j, s).round, s.hunt, s.now);
      AddingKeepsBatches(j, j', s.hunt.batch, j'.round);
    } else if s.OfferManually? || s.Assign? {
      AddingKeepsBatches(j, j', s.batch, j.round);
    } else {
      OtherwiseSameKeys(j, s);
      SameKeysKeepBatches(j, j');
    }
  }

  lemma SameKeysKeepBatches(j: Job, j': Job)
    requires OneRoundPerBatch(j) && Tightened(j, j') && j'.offers.Keys == j.offers.Keys
    ensures OneRoundPerBatch(j')
  {
  }

  lemma OtherwiseSameKeys(j: Job, s: Step)
    requires Allowed(j, s) && !s.OfferManually? && !s.Assign? && !StartsRound(j, s)
    ensures Next(j, s).offers.Keys == j.offers.Keys
  {
    hide NextRound, Resolve, StartDispatch, SelectQuote, LandWrite, RunFollowUp, AnswerOffer,
         FreshHunt, Queried, MayAsk, SettlesDeposit, L.Apply, L.Allowed;
    match s
    case Select(k, payment, deposit, now) =>
      if CanSelect(j, k) { SelectKeepsKeys(j, k, payment, deposit, now); }
    case Land(w) => LandLeavesRest(j, w);
    case Confirm(_) =>
    case Ask(_) =>
    case ResolveDispute =>
    case Complete =>
    case AfterClaim(f, window, now) =>
      FollowUpMovesDeadlines(j, f, window, now);
    case Answer(k, price, now) => AnswerKeepsKeys(j, k, price, now);
    case ResolveBatch(_, _, _, _) =>
    case CloseBidding(_) =>
    case TimeOutSelection(_) =>
    case ExpireDeposit(_) =>
    case SweepOffers(_, _) =>
    case FinishMedia(_, _, _) =>
    case Expand(_, _, _) =>
    case LedgerStep(_) =>
  }

  lemma AnswerKeepsKeys(j: Job, k: OfferId, price: Option<int>, now: int)
    ensures AnswerOffer(j, k, price, now).offers.Keys == j.offers.Keys
  {
  }

  lemma SelectKeepsKeys(j: Job, k: OfferId, payment: PaymentId, deposit: int, now: int)
    requires k in j.offers
    ensures SelectQuote(j, k, payment, deposit, now).offers.Keys == j.offers.Keys
  {
  }

  // ---- Automatic rounds run out ---------------------------------------------------

  predicate Automatic(s: Step) { s.ResolveBatch? || s.FinishMedia? || s.Expand? }

  /** The step wrote offers for a new automatic round. */
  ghost predicate StartsRound(j: Job, s: Step)
    requires Allowed(j, s)
  {
    Automatic(s) && Next(j, s).offers.Keys != j.offers.Keys
  }

  /** Everyone newly asked by an automatic round is recorded, has never been asked before, by
      a round or by hand, and at least one operator is. */
  ghost predicate AsksOnlyFresh(j: Job, j': Job) {
    && j.offered <= j'.offered
    && (forall k | k in j'.offers && k !in j.offers :: k.operator in j'.offered && k.operator !in j.offered)
    && exists k :: k in j'.offers && k !in j.offers
  }

  lemma NextRoundAsksOnlyFresh(j: Job, start: nat, h: Hunt, now: int)
    requires FreshHunt(j, h) && NextRound(j, start, h, now).offers.Keys != j.offers.Keys
    ensures AsksOnlyFresh(j, NextRound(j, start, h, now))
    ensures forall asked: Job | asked.offered == j.offered && asked.offers.Keys == j.offers.Keys :: AsksOnlyFresh(asked, NextRound(j, start, h, now))
    ensures Search(h.find, h.covered, h.cap, start).Candidates?
  {
  }

  /** The request as the search of an automatic step finds it. */
  function Searching(j: Job, s: Step): Job
    requires Automatic(s)
  {
    match s
    case ResolveBatch(ids, round, _, _) => j.(offers := TimeOutThese(j.offers, ids), round := round + 1)
    case FinishMedia(_, _, _) => LandWrite(j, OpenDispatch)
    case Expand(_, _, _) => j.(round := j.round + 1)
  }

  lemma RoundComesFromSearch(j: Job, s: Step)
    requires Allowed(j, s) && StartsRound(j, s)
    ensures FreshHunt(Searching(j, s), s.hunt)
    ensures Next(j, s) == NextRound(Searching(j, s), Searching(j, s).round, s.hunt, s.now)
  {
    hide NextRound, Search, LandWrite;
    match s
    case ResolveBatch(ids, round, h, now) => ResolvingSearches(j, ids, round, h, now);
    case FinishMedia(h, now, _) => MediaKeepsOffers(j);
    case Expand(h, now, _) =>
  }

  lemma ResolvingSearches(j: Job, ids: set<OfferId>, round: nat, h: Hunt, now: int)
    requires Resolve(j, ids, round, h, now).offers.Keys != j.offers.Keys && FreshHunt(j, h)
    ensures var searching := j.(offers := TimeOutThese(j.offers, ids), round := round + 1);
            FreshHunt(searching, h) && Resolve(j, ids, round, h, now) == NextRound(searching, round + 1, h, now)
  {
    hide NextRound, Search;
  }

  /** An automatic round asks at least one operator, and only operators to whom no offer of
      this job was ever made, by a round or by hand, whatever became of that offer. */
  lemma RoundAsksOnlyFresh(j: Job, s: Step)
    requires Inv(j) && Allowed(j, s) && StartsRound(j, s)
    ensures AsksOnlyFresh(j, Next(j, s))
    ensures forall k, o | k in Next(j, s).offers && k !in j.offers && o in j.offers && j.offers[o].asked ::
              k.operator != o.operator
  {
    hide NextRound, Search, Resolve, StartDispatch;
    RoundComesFromSearch(j, s);
    NextRoundAsksOnlyFresh(Searching(j, s), Searching(j, s).round, s.hunt, s.now);
  }

  /** The operators a step makes a new offer to. */
  ghost function NewlyAsked(j: Job, s: Step): set<OperatorId>
    requires Allowed(j, s)
  {
    set k | k in Next(j, s).offers && k !in j.offers :: k.operator
  }

  lemma ManualOfferIsRecorded(j: Job, s: Step)
    requires Allowed(j, s) && s.OfferManually?
    ensures NewlyAsked(j, s) <= Next(j, s).offered
  {
    hide Resolve, StartDispatch;
  }

  lemma {:induction false} RecordOnlyGrows(j: Job, run: seq<Step>)
    requires AllowedRun(j, run)
    ensures j.offered <= After(j, run).offered
    decreases |run|
  {
    if run != [] {
      OfferedOnlyGrows(j, run[0]);
      RecordOnlyGrows(Next(j, run[0]), run[1..]);
    }
  }

  /** Nobody is asked again by a round: whoever one step asks, automatically or by hand, is
      not among those an automatic round asks at any later step of any run. */
  lemma NobodyIsAskedAgain(j: Job, first: Step, between: seq<Step>, later: Step)
    requires Inv(j) && Allowed(j, first) && (StartsRound(j, first) || first.OfferManually?)
    requires AllowedRun(Next(j, first), between) && Allowed(After(Next(j, first), between), later)
    requires StartsRound(After(Next(j, first), between), later)
    ensures NewlyAsked(j, first) !! NewlyAsked(After(Next(j, first), between), later)
  {
    var j1 := Next(j, first);
    var j2 := After(j1, between);
    NextKeepsInv(j, first);
    RunTightens(j1, between);
    hide Inv, Allowed, Next, Tightened;
    RecordOnlyGrows(j1, between);
    if first.OfferManually? { ManualOfferIsRecorded(j, first); } else { RoundAsksOnlyFresh(j, first); }
    RoundAsksOnlyFresh(j2, later);
  }

  ghost function AutomaticRounds(j: Job, run: seq<Step>): nat
    requires AllowedRun(j, run)
    decreases |run|
  {
    if run == [] then 0
    else (if StartsRound(j, run[0]) then 1 else 0) + AutomaticRounds(Next(j, run[0]), run[1..])
  }

  ghost predicate Within(operators: set<OperatorId>, run: seq<Step>) {
    forall i | 0 <= i < |run| && Automatic(run[i]) :: FromPool(operators, run[i].hunt)
  }

  lemma OfferedOnlyGrows(j: Job, s: Step)
    requires Allowed(j, s)
    ensures j.offered <= Next(j, s).offered
  {
    hide NextRound, StartDispatch, LandWrite;
    if Automatic(s) {
      SearchOnlyAdds(Searching(j, s), s.hunt, s.now);
    }
    if s.FinishMedia? { MediaKeepsOffers(j); }
    if s.Land? { LandLeavesRest(j, s.write); }
  }

  lemma SearchOnlyAdds(j: Job, h: Hunt, now: int)
    ensures forall start :: j.offered <= NextRound(j, start, h, now).offered
    ensures j.offered <= StartDispatch(j, h, now).offered
  {
  }

  lemma RoundUsesUpAnOperator(j: Job, s: Step, operators: set<OperatorId>)
    requires Allowed(j, s) && (Automatic(s) ==> FromPool(operators, s.hunt))
    ensures |operators - Next(j, s).offered| + (if StartsRound(j, s) then 1 else 0) <= |operators - j.offered|
  {
    hide NextRound, Search, Resolve, StartDispatch;
    var j' := Next(j, s);
    OfferedOnlyGrows(j, s);
    SmallerSet(operators - j'.offered, operators - j.offered);
    if StartsRound(j, s) {
      RoundComesFromSearch(j, s);
      NextRoundAsksOnlyFresh(Searching(j, s), Searching(j, s).round, s.hunt, s.now);
      FreshRoundShrinks(Searching(j, s), Searching(j, s).round, s.hunt, s.now, operators);
    }
  }

  /** Dispatch terminates: whatever else happens, a request has at most as many automatic
      rounds as there are operators not yet asked. */
  lemma {:induction false} RoundsAreBounded(j: Job, run: seq<Step>, operators: set<OperatorId>)
    requires AllowedRun(j, run) && Within(operators, run)
    ensures AutomaticRounds(j, run) <= |operators - j.offered|
    decreases |run|
  {
    if run != [] {
      RoundUsesUpAnOperator(j, run[0], operators);
      RoundsAreBounded(Next(j, run[0]), run[1..], operators);
    }
  }
}
