/** Account deletion against everything that contends for the same row locks. A transaction
    is one step; taking a row lock means reading that row's deletion mark inside it. */
module Deletion {
  import opened Payments
  import opened D = Dispatch
  import opened Bidding
  import opened Handover
  import opened BiddingRuns
  import opened Activation
  import Q = Auction
  import L = Ledger

  type UserId = string

  datatype Role = CUSTOMER | OPERATOR | STAFF

  datatype User = User(role: Role, deleted: bool)

  /** A request with its owner, and whether its cancellation was settled. */
  datatype Case = Case(customer: UserId, job: Job, settled: bool)

  datatype World = World(
    users: map<UserId, User>,
    operators: map<OperatorId, bool>,      // true once deleted
    members: set<(UserId, OperatorId)>,
    requests: map<RequestId, Case>)

  datatype Act =
    | Register(user: UserId, role: Role)
    | CreateRequest(user: UserId, request: RequestId)
    | OnRequest(request: RequestId, step: D.Step)
    | SettleCancellation(request: RequestId)
    | DeleteUser(user: UserId)
    | DeleteOperator(operator: OperatorId)

  predicate UserGone(w: World, u: UserId) { u in w.users && w.users[u].deleted }

  predicate OperatorGone(w: World, o: OperatorId) { o in w.operators && w.operators[o] }

  predicate OperatorLive(w: World, o: OperatorId) { o in w.operators && !w.operators[o] }

  predicate Disputed(j: Job) { j.stage == InDispute }

  predicate Succeeded(j: Job, kind: PaymentType) {
    exists p :: p in j.rows && j.rows[p].request == j.id && j.rows[p].kind == kind && j.rows[p].status == SUCCEEDED
  }

  predicate AnyMoneyMoving(j: Job) {
    exists p :: p in j.rows && j.rows[p].kind in {DEPOSIT, BALANCE, REFUND} && InFlight(j.rows[p].status)
  }

  /** The filter that blocks deleting a customer. */
  predicate ActiveOrPending(c: Case) {
    !Ended(c.job.status) || Disputed(c.job) || AnyMoneyMoving(c.job)
  }

  predicate Blocked(w: World, u: UserId) {
    exists r :: r in w.requests && w.requests[r].customer == u && ActiveOrPending(w.requests[r])
  }

  predicate ServesElsewhere(w: World, u: UserId, but: OperatorId) {
    exists m :: m in w.members && m.0 == u && m.1 != but && OperatorLive(w, m.1)
  }

  predicate HasActiveMembership(w: World, u: UserId) {
    exists m :: m in w.members && m.0 == u && OperatorLive(w, m.1)
  }

  predicate CanDeleteUser(w: World, u: UserId) {
    && u in w.users && !w.users[u].deleted && w.users[u].role in {CUSTOMER, OPERATOR}
    && !HasActiveMembership(w, u) && !Blocked(w, u)
  }

  /** The member accounts an operator's deletion takes with it. */
  predicate Cascades(w: World, u: UserId, o: OperatorId) {
    && (u, o) in w.members && u in w.users && !w.users[u].deleted
    && !ServesElsewhere(w, u, o) && w.users[u].role == OPERATOR
  }

  /** What the operator is still owed, or still working on. */
  predicate OperatorBlocked(w: World, o: OperatorId) {
    exists r :: r in w.requests && w.requests[r].job.assignedTo == Some(o) &&
      var c := w.requests[r];
      || !Ended(c.job.status) || Disputed(c.job)
      || (c.job.status == COMPLETED && !L.HasSucceeded(c.job.rows, c.job.id, PAYOUT))
      || (c.job.status == CANCELLED && !c.settled && L.HasSucceeded(c.job.rows, c.job.id, DEPOSIT))
  }

  predicate CanDeleteOperator(w: World, o: OperatorId) {
    && OperatorLive(w, o) && !OperatorBlocked(w, o)
    && forall u | u in w.users :: Cascades(w, u, o) ==> !Blocked(w, u)
  }

  function MarkDeleted(users: map<UserId, User>, gone: set<UserId>): map<UserId, User> {
    map u | u in users :: if u in gone then users[u].(deleted := true) else users[u]
  }

  function CascadeSet(w: World, o: OperatorId): set<UserId> { set u | u in w.users && Cascades(w, u, o) }

  predicate AssigneeGone(w: World, c: Case) { c.job.assignedTo.Some? && OperatorGone(w, c.job.assignedTo.value) }

  /** The operators a step on a request locks. */
  predicate LocksDeletedOperator(w: World, c: Case, s: D.Step) {
    match s
    case Select(k, _, _, _) => OperatorGone(w, k.operator)
    case Assign(o, _, _, _, _, _, _) => OperatorGone(w, o)
    case Answer(k, _, _) => OperatorGone(w, k.operator)
    case Land(write) => write == Dispute && AssigneeGone(w, c)
    case _ => false
  }

  /** The transaction finds a row it must lock already deleted, and throws. */
  predicate Throws(w: World, c: Case, s: D.Step) {
    (LocksCustomer(s) && UserGone(w, c.customer)) || LocksDeletedOperator(w, c, s)
  }

  ghost predicate Permitted(w: World, s: Act) {
    match s
    case Register(u, _) => u !in w.users
    case CreateRequest(u, r) => u in w.users && r !in w.requests
    case OnRequest(r, step) => r in w.requests && D.Allowed(w.requests[r].job, step)
    case SettleCancellation(r) => r in w.requests
    case _ => true
  }

  ghost function Perform(w: World, s: Act): World
    requires Permitted(w, s)
  {
    match s
    case Register(u, role) => w.(users := w.users[u := User(role, false)])
    case CreateRequest(u, r) =>
      if w.users[u].deleted then w
      else w.(requests := w.requests[r := Case(u, NewJob(r), false)])
    case OnRequest(r, step) =>
      var c := w.requests[r];
      if Throws(w, c, step) then w
      else w.(requests := w.requests[r := Stepped(c, step)])
    case SettleCancellation(r) => w.(requests := w.requests[r := w.requests[r].(settled := true)])
    case DeleteUser(u) => if CanDeleteUser(w, u) then w.(users := MarkDeleted(w.users, {u})) else w
    case DeleteOperator(o) =>
      if CanDeleteOperator(w, o)
      then w.(users := MarkDeleted(w.users, CascadeSet(w, o)), operators := w.operators[o := true])
      else w
  }

  // ---- The invariant ------------------------------------------------------------------

  /** Ended, undisputed, and no deposit, balance or refund in flight. */
  ghost predicate Quiet(c: Case) { Ended(c.job.status) && !Disputed(c.job) && MoneyAtRest(c.job) }

  /** A case of a deleted customer is quiet; a case of a deleted operator is over. */
  ghost predicate CaseOk(w: World, c: Case) {
    && c.customer in w.users && Inv(c.job)
    && (UserGone(w, c.customer) ==> Quiet(c))
    && (AssigneeGone(w, c) ==> Ended(c.job.status) && !Disputed(c.job))
  }

  ghost predicate WorldInv(w: World) { forall r | r in w.requests :: CaseOk(w, w.requests[r]) }

  /** The blocking filter selects exactly the cases that are not quiet. */
  lemma BlockedUnlessQuiet(c: Case)
    ensures ActiveOrPending(c) <==> !Quiet(c)
  {
  }

  /** Only a transaction that locks the new operator's row changes the assignment. */
  lemma AssignmentLocksOperator(j: Job, s: D.Step)
    requires D.Allowed(j, s)
    ensures D.Next(j, s).assignedTo != j.assignedTo ==>
              (s.Select? && D.Next(j, s).assignedTo == Some(s.offer.operator)) ||
              (s.Assign? && D.Next(j, s).assignedTo == Some(s.operator))
  {
    hide NextRound, StartDispatch, AnswerOffer, RunFollowUp, CloseOffers, Award, Retire, L.Apply, CanSelect, CanAssign;
    if Automatic(s) { SearchKeepsAssignment(Searching(j, s), s.hunt, s.now); }
    if s.AfterClaim? { FollowUpMovesDeadlines(j, s.followUp, s.window, s.now); }
    if s.Answer? { AnswerKeepsAssignment(j, s.offer, s.quote, s.now); }
    if s.Land? { LandKeepsAssignment(j, s.write); }
  }

  lemma LandKeepsAssignment(j: Job, w: Write)
    ensures LandWrite(j, w).assignedTo == j.assignedTo
  {
    hide CloseOffers, Award, Retire;
  }

  lemma AnswerKeepsAssignment(j: Job, k: OfferId, quote: Option<int>, now: int)
    ensures AnswerOffer(j, k, quote, now).assignedTo == j.assignedTo && AnswerOffer(j, k, quote, now).stage == j.stage
  {
  }

  lemma SearchKeepsAssignment(j: Job, h: Hunt, now: int)
    ensures forall start :: NextRound(j, start, h, now).assignedTo == j.assignedTo && NextRound(j, start, h, now).stage == j.stage
    ensures StartDispatch(j, h, now).assignedTo == j.assignedTo && StartDispatch(j, h, now).stage == j.stage
  {
  }

  ghost function Stepped(c: Case, s: D.Step): Case
    requires D.Allowed(c.job, s)
  {
    c.(job := D.Next(c.job, s))
  }

  /** Only raising a dispute opens one. */
  lemma OnlyDisputingDisputes(j: Job, s: D.Step)
    requires D.Allowed(j, s)
    ensures Disputed(D.Next(j, s)) ==> Disputed(j) || s == Land(Dispute)
  {
    hide NextRound, StartDispatch, AnswerOffer, RunFollowUp, CloseOffers, Award, Retire, OwedAfter, L.Apply, CanSelect, CanAssign;
    if Automatic(s) { SearchKeepsAssignment(Searching(j, s), s.hunt, s.now); }
    if s.AfterClaim? { FollowUpMovesDeadlines(j, s.followUp, s.window, s.now); }
    if s.Answer? { AnswerKeepsAssignment(j, s.offer, s.quote, s.now); }
  }

  /** A dispute ends only by being resolved, and only while the balance is unpaid. */
  lemma DisputeEndsIff(j: Job, s: D.Step)
    requires D.Allowed(j, s) && Disputed(j)
    ensures !Disputed(D.Next(j, s)) <==> s.ResolveDispute? && !Succeeded(j, BALANCE)
  {
    hide NextRound, StartDispatch, AnswerOffer, RunFollowUp, CloseOffers, Award, Retire, OwedAfter, L.Apply, CanSelect, CanAssign;
    if Automatic(s) { SearchKeepsAssignment(Searching(j, s), s.hunt, s.now); }
    if s.AfterClaim? { FollowUpMovesDeadlines(j, s.followUp, s.window, s.now); }
    if s.Answer? { AnswerKeepsAssignment(j, s.offer, s.quote, s.now); }
  }

  lemma PaidBalanceStays(j: Job, s: D.Step)
    requires D.Allowed(j, s) && Succeeded(j, BALANCE)
    ensures Succeeded(D.Next(j, s), BALANCE)
  {
    var p :| p in j.rows && j.rows[p].request == j.id && j.rows[p].kind == BALANCE && j.rows[p].status == SUCCEEDED;
    RowStands(j, s, p);
    hide D.Next, D.Allowed;
  }

  lemma RowStands(j: Job, s: D.Step, p: PaymentId)
    requires D.Allowed(j, s) && p in j.rows && j.rows[p].status == SUCCEEDED
    ensures var j' := D.Next(j, s);
            j'.id == j.id && p in j'.rows && L.SameSlot(j'.rows[p], j.rows[p]) && j'.rows[p].status == SUCCEEDED
  {
    hide Resolve, StartDispatch, LandWrite, AnswerOffer, RunFollowUp;
    if !TouchesDeposit(s) {
      OthersKeepDeposit(j, s);
    } else if s.LedgerStep? {
      LedgerKeepsPaid(j, s.op);
    } else if s.Land? {
      LandLeavesRest(j, s.write);
    }
  }

  /** Resolving a dispute asks the motorist for the balance, so once that was paid no step of any
      run resolves it: the motorist is never asked a second time. */
  lemma {:induction false} PaidDisputeStaysOpen(j: Job, run: seq<D.Step>)
    requires AllowedRun(j, run) && Disputed(j) && Succeeded(j, BALANCE)
    ensures Disputed(After(j, run))
    decreases |run|
  {
    hide D.Next, D.Allowed, Disputed, Succeeded;
    if run != [] {
      DisputeEndsIff(j, run[0]);
      PaidBalanceStays(j, run[0]);
      PaidDisputeStaysOpen(D.Next(j, run[0]), run[1..]);
    }
  }

  /** A live status is written over a job one of whose parties is deleted. */
  ghost predicate RevivesDeleted(w: World, c: Case, s: D.Step) {
    (UserGone(w, c.customer) || AssigneeGone(w, c)) && Revives(c.job, s)
  }

  lemma RevivalsAreWrites(j: Job, s: D.Step)
    ensures Revives(j, s) ==> s.Land? || s.FinishMedia?
  {
  }

  lemma RequestStepKeepsCaseIff(w: World, c: Case, s: D.Step)
    requires CaseOk(w, c) && D.Allowed(c.job, s) && !Throws(w, c, s)
    ensures CaseOk(w, Stepped(c, s)) <==> !RevivesDeleted(w, c, s)
  {
    hide Inv, D.Next, D.Allowed, MoneyAtRest, Revives;
    NextKeepsInv(c.job, s);
    AssignmentLocksOperator(c.job, s);
    OnlyDisputingDisputes(c.job, s);
    if Ended(c.job.status) { EndedStaysEndedIff(c.job, s); }
    RevivalsAreWrites(c.job, s);
    if UserGone(w, c.customer) && MoneyAtRest(c.job) { RestWithoutLock(c.job, s); }
  }

  /** The one kind of act that breaks the rule. */
  ghost predicate Breaks(w: World, s: Act) {
    s.OnRequest? && s.request in w.requests && !Throws(w, w.requests[s.request], s.step) &&
    RevivesDeleted(w, w.requests[s.request], s.step)
  }

  /** A deleted customer never has money in flight, an open dispute or a live request, and a
      deleted operator never has a live or disputed job, after any act exactly unless it lands
      a stale write of a live status on such a job. */
  lemma WorldInvKeptIff(w: World, s: Act)
    requires WorldInv(w) && Permitted(w, s)
    ensures WorldInv(Perform(w, s)) <==> !Breaks(w, s)
  {
    hide CaseOk, D.Allowed, Throws, RevivesDeleted;
    match s
    case OnRequest(r, step) =>
      var c := w.requests[r];
      if !Throws(w, c, step) {
        RequestStepKeepsCaseIff(w, c, step);
        SameParties(w, r, Stepped(c, step));
        if CaseOk(w, Stepped(c, step)) { ChangingOneCase(w, r, Stepped(c, step)); }
      }
    case CreateRequest(u, r) =>
      if !w.users[u].deleted {
        NewCaseIsOk(w, u, r);
        ChangingOneCase(w, r, Case(u, NewJob(r), false));
      }
    case DeleteUser(u) => if CanDeleteUser(w, u) { DeletingUsersIsSafe(w, {u}); }
    case DeleteOperator(o) =>
      if CanDeleteOperator(w, o) {
        DeletingUsersIsSafe(w, CascadeSet(w, o));
        DeletingOperatorIsSafe(w, MarkDeleted(w.users, CascadeSet(w, o)), o);
      }
    case Register(u, role) => RegisteringIsSafe(w, u, role);
    case SettleCancellation(r) =>
      SettlingKeepsCase(w, w.requests[r]);
      ChangingOneCase(w, r, w.requests[r].(settled := true));
  }

  /** A case is judged by the users and operators alone. */
  lemma SameParties(w: World, r: RequestId, c: Case)
    ensures var w' := w.(requests := w.requests[r := c]);
            (CaseOk(w', c) <==> CaseOk(w, c)) && (WorldInv(w') ==> CaseOk(w', c))
  {
    hide Inv, MoneyAtRest;
    var w' := w.(requests := w.requests[r := c]);
    assert r in w'.requests && w'.requests[r] == c;
  }

  lemma ChangingOneCase(w: World, r: RequestId, c: Case)
    requires WorldInv(w) && CaseOk(w, c)
    ensures WorldInv(w.(requests := w.requests[r := c]))
  {
  }

  lemma SettlingKeepsCase(w: World, c: Case)
    requires CaseOk(w, c)
    ensures CaseOk(w, c.(settled := true))
  {
  }

  lemma NewCaseIsOk(w: World, u: UserId, r: RequestId)
    requires u in w.users && !w.users[u].deleted
    ensures CaseOk(w, Case(u, NewJob(r), false))
  {
  }

  lemma RegisteringIsSafe(w: World, u: UserId, role: Role)
    requires WorldInv(w) && u !in w.users
    ensures WorldInv(w.(users := w.users[u := User(role, false)]))
  {
  }

  lemma DeletingUsersIsSafe(w: World, gone: set<UserId>)
    requires WorldInv(w) && forall u | u in gone :: !Blocked(w, u)
    ensures WorldInv(w.(users := MarkDeleted(w.users, gone)))
  {
    hide Inv, MoneyAtRest;
    var w' := w.(users := MarkDeleted(w.users, gone));
    forall r | r in w'.requests ensures CaseOk(w', w'.requests[r]) {
      var c := w.requests[r];
      assert CaseOk(w, c);
      if c.customer in gone {
        assert !Blocked(w, c.customer);
        BlockedUnlessQuiet(c);
      }
    }
  }

  lemma DeletingOperatorIsSafe(w: World, users: map<UserId, User>, o: OperatorId)
    requires WorldInv(w.(users := users)) && !OperatorBlocked(w, o)
    ensures WorldInv(w.(users := users, operators := w.operators[o := true]))
  {
  }

  lemma DeletionIsForever(w: World, s: Act, u: UserId)
    requires Permitted(w, s) && UserGone(w, u)
    ensures UserGone(Perform(w, s), u)
  {
  }

  // ---- Runs ---------------------------------------------------------------------------

  ghost predicate PermittedRun(w: World, run: seq<Act>)
    decreases |run|
  {
    run == [] || (Permitted(w, run[0]) && PermittedRun(Perform(w, run[0]), run[1..]))
  }

  ghost function AfterAll(w: World, run: seq<Act>): World
    requires PermittedRun(w, run)
    decreases |run|
  {
    if run == [] then w else AfterAll(Perform(w, run[0]), run[1..])
  }

  ghost predicate NeverBroken(w: World, run: seq<Act>)
    requires PermittedRun(w, run)
    decreases |run|
  {
    run == [] || (!Breaks(w, run[0]) && NeverBroken(Perform(w, run[0]), run[1..]))
  }

  /** Over every run in which no such write lands: whoever is deleted is at rest, and stays
      deleted. */
  lemma {:induction false} DeletedMeansAtRest(w: World, run: seq<Act>)
    requires WorldInv(w) && PermittedRun(w, run) && NeverBroken(w, run)
    ensures WorldInv(AfterAll(w, run))
    ensures forall u :: UserGone(w, u) ==> UserGone(AfterAll(w, run), u)
    decreases |run|
  {
    hide WorldInv, Perform, Permitted, UserGone, Breaks;
    if run != [] {
      WorldInvKeptIff(w, run[0]);
      forall u | UserGone(w, u) ensures UserGone(Perform(w, run[0]), u) { DeletionIsForever(w, run[0], u); }
      DeletedMeansAtRest(Perform(w, run[0]), run[1..]);
    }
  }

  // ---- The failing run ------------------------------------------------------------------

  function OnRequests(r: RequestId, run: seq<D.Step>): seq<Act> { seq(|run|, i requires 0 <= i < |run| => OnRequest(r, run[i])) }

  /** Nobody is deleted yet, so no transaction throws. */
  ghost predicate NobodyGone(w: World) { (forall u :: !UserGone(w, u)) && forall o :: !OperatorGone(w, o) }

  lemma DriveOneStep(w: World, r: RequestId, s: D.Step)
    requires NobodyGone(w) && r in w.requests && D.Allowed(w.requests[r].job, s) && s != Land(Dispute)
    ensures Permitted(w, OnRequest(r, s))
    ensures var w' := Perform(w, OnRequest(r, s));
            NobodyGone(w') && w' == w.(requests := w.requests[r := w.requests[r].(job := D.Next(w.requests[r].job, s))])
  {
    hide D.Next, D.Allowed;
    var w' := Perform(w, OnRequest(r, s));
    assert forall u :: UserGone(w', u) <==> UserGone(w, u);
    assert forall o :: OperatorGone(w', o) <==> OperatorGone(w, o);
  }

  lemma {:induction false} DriveRequest(w: World, r: RequestId, run: seq<D.Step>)
    requires NobodyGone(w) && r in w.requests && AllowedRun(w.requests[r].job, run)
    requires forall i | 0 <= i < |run| :: run[i] != Land(Dispute)
    ensures PermittedRun(w, OnRequests(r, run))
    ensures AfterAll(w, OnRequests(r, run)) ==
              w.(requests := w.requests[r := w.requests[r].(job := After(w.requests[r].job, run))])
    decreases |run|
  {
    hide D.Next, D.Allowed;
    if run == [] {
      assert w.requests[r := w.requests[r]] == w.requests;
    } else {
      var acts := OnRequests(r, run);
      assert acts[1..] == OnRequests(r, run[1..]) && acts[0] == OnRequest(r, run[0]);
      DriveOneStep(w, r, run[0]);
      DriveRequest(Perform(w, acts[0]), r, run[1..]);
    }
  }

  /** A world with one customer and the customer's one request. */
  function Alone(u: UserId, r: RequestId, j: Job): World {
    World(map[u := User(CUSTOMER, false)], map[], {}, map[r := Case(u, j, false)])
  }

  function OneRequest(u: UserId, r: RequestId): World { Alone(u, r, NewJob(r)) }

  lemma DeletingThenLanding(w: World, u: UserId, r: RequestId)
    requires CanDeleteUser(w, u) && r in w.requests && w.requests[r].customer == u
    requires D.Allowed(w.requests[r].job, Land(Activate))
    ensures var gone := Perform(w, DeleteUser(u));
            && Permitted(gone, OnRequest(r, Land(Activate)))
            && var w' := Perform(gone, OnRequest(r, Land(Activate)));
               UserGone(w', u) && r in w'.requests && w'.requests[r].job == D.Next(w.requests[r].job, Land(Activate))
  {
    hide D.Next, D.Allowed, Blocked;
  }

  lemma EndedCustomerIsDeletable(u: UserId, r: RequestId, j: Job)
    requires Ended(j.status) && !Disputed(j) && forall p | p in j.rows :: j.rows[p].status == SUCCEEDED
    ensures var w := Alone(u, r, j); CanDeleteUser(w, u) && r in w.requests && w.requests[r] == Case(u, j, false)
  {
  }

  /** The confirmation is read, the window runs out, the customer is deleted, and then the
      write lands: a deleted customer has a job in progress. */
  lemma LateWriteOnDeletedCustomer(u: UserId, r: RequestId, payment: PaymentId)
    ensures var acts := OnRequests(r, PaidRun(payment) + [Confirm(payment), ExpireDeposit(DEPOSIT_WINDOW_MS + 1)]);
            && PermittedRun(OneRequest(u, r), acts)
            && var w := AfterAll(OneRequest(u, r), acts);
               && r in w.requests && CanDeleteUser(w, u)
               && var gone := Perform(w, DeleteUser(u));
                  && Permitted(gone, OnRequest(r, Land(Activate)))
                  && var w' := Perform(gone, OnRequest(r, Land(Activate)));
                     UserGone(w', u) && r in w'.requests && w'.requests[r].job.status == OPERATOR_ASSIGNED
  {
    var run := PaidRun(payment) + [Confirm(payment), ExpireDeposit(DEPOSIT_WINDOW_MS + 1)];
    EndedRequestIsRevived(r, payment);
    assert forall i | 0 <= i < |run| :: run[i] != Land(Dispute);
    hide *;
    DrivenAlone(u, r, run);
    var j := After(NewJob(r), run);
    LastIsAllowed(NewJob(r), run, Land(Activate));
    EndedCustomerIsDeletable(u, r, j);
    DeletingThenLanding(Alone(u, r, j), u, r);
  }

  lemma DrivenAlone(u: UserId, r: RequestId, run: seq<D.Step>)
    requires AllowedRun(NewJob(r), run) && forall i | 0 <= i < |run| :: run[i] != Land(Dispute)
    ensures PermittedRun(OneRequest(u, r), OnRequests(r, run))
    ensures AfterAll(OneRequest(u, r), OnRequests(r, run)) == Alone(u, r, After(NewJob(r), run))
  {
    hide D.Next, D.Allowed, NewJob;
    DriveRequest(OneRequest(u, r), r, run);
  }

  lemma {:induction false} LastIsAllowed(j: Job, run: seq<D.Step>, s: D.Step)
    requires AllowedRun(j, run) && AllowedRun(j, run + [s])
    ensures D.Allowed(After(j, run), s) && After(j, run + [s]) == D.Next(After(j, run), s)
    decreases |run|
  {
    hide D.Next, D.Allowed;
    if run == [] {
      assert [] + [s] == [s] && [s][1..] == [];
    } else {
      assert (run + [s])[1..] == run[1..] + [s] && (run + [s])[0] == run[0];
      LastIsAllowed(D.Next(j, run[0]), run[1..], s);
    }
  }

  /** A deleted operator wins nothing more: no act puts one of their offers on a shortlist,
      chooses it, or takes their answer to it. */
  lemma DeletedOperatorWinsNothing(w: World, r: RequestId, s: D.Step, k: OfferId)
    requires Permitted(w, OnRequest(r, s)) && OperatorGone(w, k.operator)
    ensures var w' := Perform(w, OnRequest(r, s));
            var before, after := w.requests[r].job.offers, w'.requests[r].job.offers;
            k in after && (Q.Standing(after[k].status) || after[k].status == DECLINED) ==>
              && k in before && after[k].price == before[k].price
              && (Q.Standing(before[k].status) || before[k].status == DECLINED)
              && (after[k].status == QUOTED ==> before[k].status == QUOTED)
  {
    var j := w.requests[r].job;
    if !Throws(w, w.requests[r], s) {
      hide D.Allowed;
      if s.Answer? {
        Q.AnswerWrites(j, s.offer, s.quote, s.now);
      } else if s.Assign? {
        Q.AssigningWrites(j, s.operator, s.whatsapp, s.price, s.batch, s.payment, s.deposit, s.now);
      } else {
        Q.OthersKeepPrices(j, s);
      }
      hide D.AnswerOffer, D.AssignByHand, D.Next, Throws;
    }
  }

  // ---- At the moment of deletion ----------------------------------------------------------

  /** Nothing is left to do, to argue about or to pay on a job: it is over and undisputed, its
      operator was paid if it was completed, and a paid cancelled one was settled. */
  ghost predicate Done(c: Case) {
    && c.job.status in {COMPLETED, CANCELLED} && c.job.stage != InDispute
    && (c.job.status == COMPLETED ==> Succeeded(c.job, PAYOUT))
    && (c.job.status == CANCELLED && Succeeded(c.job, DEPOSIT) ==> c.settled)
  }

  ghost predicate AllDone(w: World, o: OperatorId) {
    forall r | r in w.requests && w.requests[r].job.assignedTo == Some(o) :: Done(w.requests[r])
  }

  ghost predicate AllQuiet(w: World, u: UserId) {
    forall r | r in w.requests && w.requests[r].customer == u :: Quiet(w.requests[r])
  }

  /** A live operator account that works for this operator and for no other that is left. */
  ghost predicate ServesOnly(w: World, u: UserId, o: OperatorId) {
    && (u, o) in w.members && u in w.users && w.users[u] == User(OPERATOR, false)
    && forall m | m in w.members && m.0 == u && m.1 != o && m.1 in w.operators :: w.operators[m.1]
  }

  ghost predicate WorksForNobody(w: World, u: UserId) {
    forall m | m in w.members && m.0 == u && m.1 in w.operators :: w.operators[m.1]
  }

  lemma BlockedMeans(w: World)
    ensures forall o :: OperatorBlocked(w, o) <==> !AllDone(w, o)
    ensures forall u :: Blocked(w, u) <==> !AllQuiet(w, u)
  {
    forall o ensures OperatorBlocked(w, o) <==> !AllDone(w, o) {
      forall r | r in w.requests ensures forall kind :: L.HasSucceeded(w.requests[r].job.rows, w.requests[r].job.id, kind) <==> Succeeded(w.requests[r].job, kind) {
      }
    }
    forall u ensures Blocked(w, u) <==> !AllQuiet(w, u) {
      forall r | r in w.requests ensures ActiveOrPending(w.requests[r]) <==> !Quiet(w.requests[r]) { BlockedUnlessQuiet(w.requests[r]); }
    }
  }

  /** A deleted user opens no request; anybody else opens one that blocks their deletion. */
  lemma OpeningBlocksDeletion(w: World, u: UserId, r: RequestId)
    requires Permitted(w, CreateRequest(u, r))
    ensures var w' := Perform(w, CreateRequest(u, r));
            if w.users[u].deleted then w' == w
            else && w' == w.(requests := w.requests[r := Case(u, NewJob(r), false)])
                 && !AllQuiet(w', u) && Perform(w', DeleteUser(u)) == w'
  {
    var w' := Perform(w, CreateRequest(u, r));
    BlockedMeans(w');
    if !w.users[u].deleted { assert r in w'.requests && w'.requests[r].customer == u && !Quiet(w'.requests[r]); }
    hide Blocked, Quiet;
  }

  /** Settling a paid, cancelled and undisputed job is what its operator's deletion waits for. */
  lemma SettlingUnblocks(w: World, r: RequestId, o: OperatorId)
    requires r in w.requests && w.requests[r].job.assignedTo == Some(o) && !w.requests[r].settled
    requires var j := w.requests[r].job; j.status == CANCELLED && !Disputed(j) && Succeeded(j, DEPOSIT)
    ensures !AllDone(w, o)
    ensures var w' := Perform(w, SettleCancellation(r));
            && w' == w.(requests := w.requests[r := w.requests[r].(settled := true)])
            && (AllDone(w', o) <==> forall i | i in w.requests && i != r && w.requests[i].job.assignedTo == Some(o) :: Done(w.requests[i]))
  {
    assert !Done(w.requests[r]);
    var w' := Perform(w, SettleCancellation(r));
    assert Done(w'.requests[r]);
    hide Done, Perform;
    assert forall i | i in w.requests && i != r :: i in w'.requests && w'.requests[i] == w.requests[i];
    if AllDone(w', o) {
      forall i | i in w.requests && i != r && w.requests[i].job.assignedTo == Some(o) ensures Done(w.requests[i]) {
        assert Done(w'.requests[i]);
      }
    }
  }

  lemma CascadesMeans(w: World, u: UserId, o: OperatorId)
    ensures Cascades(w, u, o) <==> ServesOnly(w, u, o)
  {
  }

  lemma MembershipMeans(w: World, u: UserId)
    ensures !HasActiveMembership(w, u) <==> WorksForNobody(w, u)
  {
  }

  // ---- The service ----------------------------------------------------------------------

  class AccountDeletionService {
    var world: World

    constructor (w: World)
      ensures world == w
    {
      world := w;
    }

    /** A customer, or an operator account working for nobody, whose every request is at rest;
        nobody else is touched. */
    method DeleteUser(u: UserId) returns (deleted: bool)
      modifies this
      ensures deleted == CanDeleteUser(old(world), u)
      ensures world == Perform(old(world), Act.DeleteUser(u))
      ensures deleted <==>
                && u in old(world).users && old(world).users[u] in {User(CUSTOMER, false), User(OPERATOR, false)}
                && WorksForNobody(old(world), u) && AllQuiet(old(world), u)
      ensures world == if deleted then old(world).(users := old(world).users[u := old(world).users[u].(deleted := true)]) else old(world)
    {
      BlockedMeans(world);
      MembershipMeans(world, u);
      hide Blocked, AllQuiet, WorksForNobody;
      if u !in world.users || world.users[u].deleted || world.users[u].role == STAFF { return false; }
      if HasActiveMembership(world, u) { return false; }
      if Blocked(world, u) { return false; }
      world := world.(users := MarkDeleted(world.users, {u}));
      return true;
    }

    /** The cascade over the members, in order: one blocked member undoes everything, since
        nothing is written until the loop has passed them all. An operator who is deleted leaves
        nothing undone, unpaid or unsettled, and takes every account along that served nobody
        else; no other account is touched. */
    method DeleteOperator(o: OperatorId, members: seq<UserId>) returns (deleted: bool)
      requires forall u :: u in members <==> (u, o) in world.members
      requires forall m | m in world.members :: m.0 in world.users
      modifies this
      ensures deleted == CanDeleteOperator(old(world), o)
      ensures world == Perform(old(world), Act.DeleteOperator(o))
      ensures deleted <==>
                && o in old(world).operators && !old(world).operators[o] && AllDone(old(world), o)
                && forall u :: ServesOnly(old(world), u, o) ==> AllQuiet(old(world), u)
      ensures deleted ==>
                && world == old(world).(users := world.users, operators := old(world).operators[o := true])
                && world.users.Keys == old(world).users.Keys
                && forall u | u in world.users ::
                     world.users[u] == if ServesOnly(old(world), u, o) then User(OPERATOR, true) else old(world).users[u]
      ensures !deleted ==> world == old(world)
    {
      BlockedMeans(world);
      forall u ensures Cascades(world, u, o) <==> ServesOnly(world, u, o) { CascadesMeans(world, u, o); }
      hide Blocked, AllQuiet, AllDone, OperatorBlocked, ServesOnly;
      if !OperatorLive(world, o) || OperatorBlocked(world, o) { return false; }
      var gone: set<UserId> := {};
      for i := 0 to |members|
        invariant gone == set u | u in members[..i] && Cascades(world, u, o)
        invariant world == old(world)
        invariant forall u | u in gone :: !Blocked(world, u)
      {
        var u := members[i];
        assert u in members && (u, o) in world.members;
        if world.users[u].deleted { continue; }
        if ServesElsewhere(world, u, o) { continue; }
        if world.users[u].role != OPERATOR { continue; }
        if Blocked(world, u) {
          assert Cascades(world, u, o);
          return false;
        }
        gone := gone + {u};
      }
      assert gone == CascadeSet(world, o);
      world := world.(users := MarkDeleted(world.users, gone), operators := world.operators[o := true]);
      return true;
    }
  }
}
