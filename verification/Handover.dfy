/** The reconciler's handovers: which transaction can leave a request that no check will
    ever match again, and why every other one leads somewhere in finite time. */
module Handover {
  import opened Payments
  import opened RoundSearch
  import opened Dispatch
  import opened Bidding
  import L = Ledger

  /** A pending offer of the current round, the one whose expiry moves the request on. */
  predicate Live(j: Job, k: OfferId) {
    k in j.offers && j.offers[k].status == OFFERED && j.offers[k].round == j.round
  }

  /** Something other than a live offer holds the request. */
  predicate Held(j: Job) { j.needsManual || j.chooseBy.Some? || j.collectBy.Some? }

  ghost predicate Witness(j: Job) {
    && (j.status == DISPATCHING ==> Held(j) || exists k :: Live(j, k))
    && (j.status == WAITING_FOR_DEPOSIT ==> j.payBy.Some?)
  }

  /** The transactions that drop the baton: an answer to the last live offer while nothing
      else holds the request, until its follow-up runs; and an end of media or an expand
      whose search never runs, because the process dies or the request already has a quote. */
  ghost predicate Drops(j: Job, s: Step) {
    !Held(j) &&
    match s
    case Answer(k, quote, now) =>
      j.status == DISPATCHING && Claims(j, k, quote, now) && forall other | Live(j, other) :: other == k
    case FinishMedia(_, _, crash) => (crash || AnyWith(j.offers, QUOTED)) && forall k :: !Live(j, k)
    case Expand(_, _, crash) => crash || AnyWith(j.offers, QUOTED)
    case _ => false
  }

  lemma SearchHandsOver(j: Job, start: nat, h: Hunt, now: int)
    requires h.size >= 1
    ensures Witness(NextRound(j, start, h, now)) || j.status != DISPATCHING
  {
    match Search(h.find, h.covered, h.cap, start)
    case Candidates(r, _, who) =>
      assert who[0] in Asked(who, h.size);
      assert Live(NextRound(j, start, h, now), Key(h.batch, who[0]));
    case NoCoverage(_, _) =>
    case RoundsExhausted(_, _) =>
  }

  lemma DispatchHandsOver(j: Job, h: Hunt, now: int)
    requires j.status == DISPATCHING && h.size >= 1 && Frozen(j)
    requires AnyWith(j.offers, QUOTED) ==> Held(j) || exists k :: Live(j, k)
    ensures Witness(StartDispatch(j, h, now))
  {
    if !AnyWith(j.offers, QUOTED) && !BiddingClosed(j, now) { SearchHandsOver(j, j.round, h, now); }
  }

  lemma AnswerHandsOverIff(j: Job, k: OfferId, quote: Option<int>, now: int)
    requires Inv(j) && Witness(j)
    ensures Witness(AnswerOffer(j, k, quote, now)) <==> !Drops(j, Answer(k, quote, now))
  {
    var j' := AnswerOffer(j, k, quote, now);
    if j.status == DISPATCHING && !Held(j) {
      assert !BiddingClosed(j, now);
      if other :| Live(j, other) && other != k {
        assert Live(j', other);
      } else {
        assert Live(j, k);
        assert forall o :: Live(j', o) ==> Live(j, o);
      }
    }
  }

  lemma ResolveHandsOver(j: Job, ids: set<OfferId>, round: nat, h: Hunt, now: int)
    requires Witness(j) && h.size >= 1 && forall k | k in ids :: k in j.offers && j.offers[k].round == round
    ensures Witness(Resolve(j, ids, round, h, now))
  {
    hide NextRound;
    var expired := j.(offers := TimeOutThese(j.offers, ids));
    if ClaimsRound(j, round) {
      if !AnyWith(expired.offers, QUOTED) {
        SearchHandsOver(expired.(round := round + 1), round + 1, h, now);
      }
    } else if j.status == DISPATCHING && !Held(j) {
      var k :| Live(j, k);
      assert Live(expired, k);
    }
  }

  lemma FollowUpHandsOver(j: Job, f: FollowUp, window: int, now: int)
    requires Witness(j)
    ensures Witness(RunFollowUp(j, f, window, now))
  {
    hide RunFollowUp;
    var j' := RunFollowUp(j, f, window, now);
    FollowUpMovesDeadlines(j, f, window, now);
    assert Held(j) ==> Held(j');
    if j.status == DISPATCHING && !Held(j) {
      var k :| Live(j, k);
      assert Live(j', k);
    }
  }

  lemma MediaHandsOverIff(j: Job, h: Hunt, now: int, crash: bool)
    requires Inv(j) && Allowed(j, FinishMedia(h, now, crash))
    ensures Witness(Next(j, FinishMedia(h, now, crash))) <==> !Drops(j, FinishMedia(h, now, crash))
  {
    hide L.Consistent;
    var ready := LandWrite(j, OpenDispatch);
    assert forall k :: Live(ready, k) <==> Live(j, k);
    if !Drops(j, FinishMedia(h, now, crash)) && !crash { DispatchHandsOver(ready, h, now); }
  }

  /** No handover gap: of all transactions, by motorist, operator, staff, reconciler, webhook
      or crash, exactly the listed ones leave a request nobody will come back to. */
  lemma HandoverKeptIff(j: Job, s: Step)
    requires Inv(j) && Witness(j) && Allowed(j, s)
    ensures Witness(Next(j, s)) <==> !Drops(j, s)
  {
    hide L.Consistent, NextRound, Resolve, AnswerOffer, RunFollowUp;
    match s
    case Answer(k, quote, now) => AnswerHandsOverIff(j, k, quote, now);
    case AfterClaim(f, window, now) => FollowUpHandsOver(j, f, window, now);
    case ResolveBatch(ids, round, h, now) => ResolveHandsOver(j, ids, round, h, now);
    case FinishMedia(h, now, crash) => MediaHandsOverIff(j, h, now, crash);
    case Expand(h, now, crash) => ExpandHandsOverIff(j, h, now, crash);
    case OfferManually(operator, batch, now) => OthersHandOver(j, s);
    case CloseBidding(_) => OthersHandOver(j, s);
    case TimeOutSelection(_) => OthersHandOver(j, s);
    case ExpireDeposit(_) => OthersHandOver(j, s);
    case SweepOffers(_, _) => OthersHandOver(j, s);
    case Select(_, _, _, _) => OthersHandOver(j, s);
    case Assign(_, _, _, _, _, _, _) => OthersHandOver(j, s);
    case LedgerStep(_) => OthersHandOver(j, s);
    case Confirm(_) => OthersHandOver(j, s);
    case Ask(_) => OthersHandOver(j, s);
    case Land(w) => LandHandsOver(j, w);
    case ResolveDispute => OthersHandOver(j, s);
    case Complete => OthersHandOver(j, s);
  }

  lemma LandHandsOver(j: Job, w: Write)
    requires Witness(j)
    ensures w != OpenDispatch ==> Witness(LandWrite(j, w))
  {
    if w in {AwardOffers, Dispute} && j.status == DISPATCHING && !Held(j) {
      var k :| Live(j, k);
      assert Live(LandWrite(j, w), k);
    }
  }

  lemma OthersHandOver(j: Job, s: Step)
    requires Inv(j) && Witness(j) && Allowed(j, s)
    requires !s.Answer? && !s.AfterClaim? && !s.ResolveBatch? && !s.FinishMedia? && !s.Expand? && !s.Land?
    ensures Witness(Next(j, s))
  {
    hide L.Consistent, L.Apply, L.Allowed, L.HasSucceeded, L.SlotTaken, SettlesDeposit, MayAsk, NextRound, Resolve, StartDispatch;
    var j' := Next(j, s);
    if j.status == DISPATCHING && !Held(j) {
      var k :| Live(j, k);
      assert Live(j', k) || j'.status != DISPATCHING || Held(j');
    }
  }

  lemma ExpandHandsOverIff(j: Job, h: Hunt, now: int, crash: bool)
    requires Inv(j) && Allowed(j, Expand(h, now, crash))
    ensures Witness(Next(j, Expand(h, now, crash))) <==> !Drops(j, Expand(h, now, crash))
  {
    hide L.Consistent, L.HasSucceeded;
    var wider := j.(round := j.round + 1);
    if !(AnyWith(j.offers, QUOTED) && !Held(j)) { DispatchHandsOver(wider, h, now); }
  }

  // ---- After a drop -------------------------------------------------------------

  /** A claimed quote's follow-up picks the baton up again. */
  lemma QuoteFollowUpRestores(j: Job, k: OfferId, price: int, window: int, now: int)
    requires Inv(j) && Drops(j, Answer(k, Some(price), now))
    ensures var claimed := AnswerOffer(j, k, Some(price), now);
            Witness(RunFollowUp(claimed, FollowUp(k, true), window, now))
  {
  }

  /** Dispatching, unheld, no live offer, no quote whose follow-up is still to come, and no
      status write on its way. */
  ghost predicate Stranded(j: Job) {
    && j.status == DISPATCHING && j.owed == multiset{} && !Held(j) && (forall k :: !Live(j, k))
    && forall f | f in j.followUps :: !f.quoted
  }

  /** What the system does on its own: the checks, payment traffic, late follow-ups. */
  predicate BySystem(s: Step) {
    s.AfterClaim? || s.ResolveBatch? || s.CloseBidding? || s.TimeOutSelection? || s.ExpireDeposit? ||
    s.SweepOffers? || s.LedgerStep? || s.Confirm?
  }

  /** Declining the last live offer strands the request, before and after its follow-up. */
  lemma DeclineStrands(j: Job, k: OfferId, window: int, now: int)
    requires Inv(j) && Drops(j, Answer(k, None, now)) && j.owed == multiset{} && forall f | f in j.followUps :: !f.quoted
    ensures var declined := AnswerOffer(j, k, None, now);
            Stranded(declined) && Stranded(RunFollowUp(declined, FollowUp(k, false), window, now))
  {
    var declined := AnswerOffer(j, k, None, now);
    forall o ensures !Live(declined, o) {
      assert Live(declined, o) ==> Live(j, o);
    }
    forall o ensures !Live(RunFollowUp(declined, FollowUp(k, false), window, now), o) {
      assert !Live(declined, o);
    }
  }

  /** A resolver that queries after the stranding only finds offers pending at that time. */
  ghost predicate QueriedSince(j0: Job, s: Step) {
    s.ResolveBatch? ==> forall k | k in s.ids :: k in j0.offers && j0.offers[k].status == OFFERED
  }

  ghost predicate StillStranded(j0: Job, j: Job) {
    && Stranded(j) && j.round == j0.round
    && forall k | k in j0.offers :: k in j.offers && j.offers[k].round == j0.offers[k].round
  }

  lemma StrandedStays(j0: Job, j: Job, s: Step)
    requires Stranded(j0) && StillStranded(j0, j)
    requires BySystem(s) && Allowed(j, s) && QueriedSince(j0, s)
    ensures StillStranded(j0, Next(j, s))
  {
    if s.ResolveBatch? {
      var k :| k in s.ids;
      assert !Live(j0, k) && !ClaimsRound(j, s.round);
    }
    var j' := Next(j, s);
    if s.ResolveBatch? {
      assert j' == j.(offers := TimeOutThese(j.offers, s.ids));
    } else {
      SystemMovesNoRound(j, s);
    }
    hide Next, Allowed, Queried, FreshHunt;
    forall k ensures !Live(j', k) {
      assert !Live(j, k);
    }
  }

  /** Nothing but a resolver's round touches rounds, the flag or the status of such a request. */
  lemma SystemMovesNoRound(j: Job, s: Step)
    requires j.status == DISPATCHING && !Held(j) && BySystem(s) && !s.ResolveBatch? && Allowed(j, s)
    requires forall f | f in j.followUps :: !f.quoted
    requires j.owed == multiset{}
    ensures var j' := Next(j, s);
            && j'.status == j.status && j'.owed == multiset{} && !Held(j') && j'.round == j.round && j'.followUps <= j.followUps
            && j'.offers.Keys == j.offers.Keys
            && forall k | k in j.offers ::
                 j'.offers[k].round == j.offers[k].round && (j'.offers[k].status == OFFERED ==> j.offers[k].status == OFFERED)
  {
    hide NextRound, Resolve, StartDispatch, L.Apply, L.Allowed, SettlesDeposit;
  }

  ghost predicate SystemRun(j0: Job, j: Job, run: seq<Step>)
    decreases |run|
  {
    run == [] ||
    (BySystem(run[0]) && Allowed(j, run[0]) && QueriedSince(j0, run[0]) && SystemRun(j0, Next(j, run[0]), run[1..]))
  }

  ghost function After(j: Job, run: seq<Step>): Job
    requires AllowedRun(j, run)
    decreases |run|
  {
    if run == [] then j else After(Next(j, run[0]), run[1..])
  }

  ghost predicate AllowedRun(j: Job, run: seq<Step>)
    decreases |run|
  {
    run == [] || (Allowed(j, run[0]) && AllowedRun(Next(j, run[0]), run[1..]))
  }

  lemma Prepend(j: Job, s: Step, rest: seq<Step>)
    requires Allowed(j, s) && AllowedRun(Next(j, s), rest)
    ensures AllowedRun(j, [s] + rest) && After(j, [s] + rest) == After(Next(j, s), rest)
  {
    assert ([s] + rest)[1..] == rest;
  }

  /** However long the system runs on its own, a stranded request stays dispatching with
      nothing due: only a person can move it. */
  lemma {:induction false} OnlyPeopleRescue(j0: Job, j: Job, run: seq<Step>)
    requires Stranded(j0) && StillStranded(j0, j) && SystemRun(j0, j, run)
    ensures AllowedRun(j, run) && StillStranded(j0, After(j, run))
    decreases |run|
  {
    if run != [] {
      StrandedStays(j0, j, run[0]);
      OnlyPeopleRescue(j0, Next(j, run[0]), run[1..]);
    }
  }

  // ---- Where the baton leads ------------------------------------------------------

  /** Some check's predicate matches at this time, and its claim will too. */
  ghost predicate SomethingDue(j: Job, now: int) {
    || CloseDue(j, now) || SelectionDue(j, now) || DepositDue(j, now)
    || (ClaimsRound(j, j.round) && exists k :: Live(j, k) && j.offers[k].expiresAt < now)
  }

  /** A held request becomes due at a finite time and stays due until someone acts, unless
      staff own it. */
  lemma WitnessMeansWork(j: Job) returns (t: int)
    requires Inv(j) && Witness(j) && j.status in {DISPATCHING, WAITING_FOR_DEPOSIT}
    ensures j.needsManual || forall now :: now > t ==> SomethingDue(j, now)
  {
    if j.status == WAITING_FOR_DEPOSIT {
      t := j.payBy.value;
    } else if j.chooseBy.Some? {
      t := j.chooseBy.value;
    } else if j.collectBy.Some? {
      t := j.collectBy.value;
    } else if j.needsManual {
      t := 0;
    } else {
      var k :| Live(j, k);
      t := j.offers[k].expiresAt;
    }
  }

  /** Someone was asked in the current round, so its batch may still be resolved. */
  ghost predicate RoundAsked(j: Job) { exists k :: k in j.offers && j.offers[k].asked && j.offers[k].round == j.round }

  /** How many acts of the reconciler are left, given all the operators there are. The checks do
      not look at the staff flag: staff's own offers are resolved like those of a round. */
  ghost function Rank(j: Job, operators: set<OperatorId>): nat {
    if j.status == WAITING_FOR_DEPOSIT then 1
    else if j.status != DISPATCHING then 0
    else if j.chooseBy.Some? then 1
    else if j.collectBy.Some? then 2
    else if RoundAsked(j) then 3 + |operators - j.offered|
    else 0
  }

  ghost predicate FromPool(operators: set<OperatorId>, h: Hunt) {
    forall x: nat, o | o in h.find(x) :: o in operators
  }

  /** A check acting on a row its predicate matched. */
  ghost predicate DueStep(j: Job, s: Step, operators: set<OperatorId>) {
    match s
    case CloseBidding(now) => CloseDue(j, now)
    case TimeOutSelection(now) => SelectionDue(j, now)
    case ExpireDeposit(now) => DepositDue(j, now)
    case ResolveBatch(ids, round, h, now) =>
      FromPool(operators, h) && ClaimsRound(j, round)
    case _ => false
  }

  /** Whatever the search would find, a check has an act to perform as soon as something is
      due. */
  lemma DueWorkActs(j: Job, now: int, h: Hunt, operators: set<OperatorId>)
    requires Inv(j) && SomethingDue(j, now) && FreshHunt(j, h) && FromPool(operators, h)
    ensures exists s :: Allowed(j, s) && DueStep(j, s, operators)
  {
    if CloseDue(j, now) {
      assert DueStep(j, CloseBidding(now), operators);
    } else if SelectionDue(j, now) {
      assert DueStep(j, TimeOutSelection(now), operators);
    } else if DepositDue(j, now) {
      assert DueStep(j, ExpireDeposit(now), operators);
    } else {
      var k :| Live(j, k) && j.offers[k].expiresAt < now;
      assert Allowed(j, ResolveBatch({k}, j.round, h, now));
      assert DueStep(j, ResolveBatch({k}, j.round, h, now), operators);
    }
  }

  lemma FreshRoundShrinks(j: Job, start: nat, h: Hunt, now: int, operators: set<OperatorId>)
    requires FreshHunt(j, h) && FromPool(operators, h)
    ensures var j' := NextRound(j, start, h, now);
            operators - j'.offered <= operators - j.offered &&
            (Search(h.find, h.covered, h.cap, start).Candidates? ==>
               |operators - j'.offered| < |operators - j.offered|)
  {
    var j' := NextRound(j, start, h, now);
    var found := Search(h.find, h.covered, h.cap, start);
    if found.Candidates? {
      var o := found.who[0];
      assert o in Asked(found.who, h.size);
      assert o in h.find(found.extraRadiusKm);
      assert operators - j'.offered <= (operators - j.offered) - {o};
      SmallerSet(operators - j'.offered, (operators - j.offered) - {o});
    }
  }

  lemma SmallerSet(a: set<OperatorId>, b: set<OperatorId>)
    requires a <= b
    ensures |a| <= |b|
  {
    assert b == a + (b - a);
  }

  /** Every act of a check on a due request leaves fewer to come: left alone, a request ends,
      waits for the motorist's deposit or reaches staff within 3 + |operators| acts. */
  lemma DueStepLowersRank(j: Job, s: Step, operators: set<OperatorId>)
    requires Inv(j) && DueStep(j, s, operators) && Allowed(j, s)
    ensures Rank(Next(j, s), operators) < Rank(j, operators)
  {
    hide NextRound, StartDispatch, Resolve, L.Consistent;
    if s.ResolveBatch? {
      ResolverFindsBiddingOpen(j, s.ids, s.round, s.now);
      var k :| k in s.ids;
      assert RoundAsked(j) by { assert j.offers[k].asked && j.offers[k].round == j.round; }
      hide FromPool, FreshHunt;
      ResolvingLowersRank(j, s.ids, s.round, s.hunt, s.now, operators);
    }
  }

  lemma ResolvingLowersRank(j: Job, ids: set<OfferId>, round: nat, h: Hunt, now: int, operators: set<OperatorId>)
    requires ClaimsRound(j, round) && j.chooseBy.None? && FreshHunt(j, h) && FromPool(operators, h)
    requires RoundAsked(j) && forall k | k in j.offers :: j.offers[k].round <= j.round
    ensures Rank(Resolve(j, ids, round, h, now), operators) < Rank(j, operators)
  {
    hide FromPool, FreshHunt, NextRound;
    var expired := j.(offers := TimeOutThese(j.offers, ids));
    var advanced := expired.(round := round + 1);
    if !AnyWith(expired.offers, QUOTED) {
      StillFresh(j, advanced, h);
      SearchLowersRank(advanced, j, round + 1, h, now, operators);
    }
  }

  lemma StillFresh(j: Job, later: Job, h: Hunt)
    requires FreshHunt(j, h) && later.offered == j.offered && later.offers.Keys == j.offers.Keys
    ensures FreshHunt(later, h)
  {
  }

  lemma SearchLowersRank(advanced: Job, j: Job, start: nat, h: Hunt, now: int, operators: set<OperatorId>)
    requires advanced.status == DISPATCHING && advanced.collectBy.None? && advanced.chooseBy.None?
    requires advanced.offered == j.offered && FreshHunt(advanced, h) && FromPool(operators, h)
    requires forall k | k in advanced.offers :: advanced.offers[k].round < start
    ensures Rank(NextRound(advanced, start, h, now), operators) < 3 + |operators - j.offered|
  {
    hide FreshHunt, FromPool;
    FreshRoundShrinks(advanced, start, h, now, operators);
    if !Search(h.find, h.covered, h.cap, start).Candidates? { assert !RoundAsked(NextRound(advanced, start, h, now)); }
  }
}
