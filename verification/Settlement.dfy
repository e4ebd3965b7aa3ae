/** Derived payment state, and the two ways staff give a cancelled job's deposit back. */
module Settlement {
  import opened Payments
  import opened Money
  import L = Ledger
  import D = Dispatch
  import B = Bidding
  import H = Handover
  import A = Activation
  import BR = BiddingRuns

  /** What the derivations read of a payment, and its amount; the list is in creation order. */
  datatype Row = Row(kind: PaymentType, status: PaymentStatus, amount: int)

  /** NONE, ELIGIBLE, PENDING, COMPLETED and FAILED of the source's refund status. */
  datatype RefundState = NONE | ELIGIBLE | REFUND_PENDING | COMPLETED | REFUND_FAILED

  datatype SettlementState = NOT_SETTLEABLE | OPEN | SETTLED

  /** An attempt that still might land, or has. */
  const ACTIVE := {PENDING, SUBMITTED, BLOCKED, SUCCEEDED}

  predicate Has(payments: seq<Row>, kind: PaymentType, statuses: set<PaymentStatus>) {
    exists i :: 0 <= i < |payments| && payments[i].kind == kind && payments[i].status in statuses
  }

  function DeriveRefundStatus(status: D.RequestStatus, payments: seq<Row>): RefundState {
    if status != D.CANCELLED || !Has(payments, DEPOSIT, {SUCCEEDED}) then NONE
    else if Has(payments, PAYOUT, ACTIVE) then COMPLETED
    else if Has(payments, REFUND, {SUCCEEDED}) then COMPLETED
    else if Has(payments, REFUND, {PENDING, SUBMITTED, BLOCKED}) then REFUND_PENDING
    else if Has(payments, REFUND, {FAILED}) then REFUND_FAILED
    else ELIGIBLE
  }

  /** The list filter: some succeeded deposit, and no row that is an active refund or payout. */
  predicate RefundEligibleFilter(payments: seq<Row>) {
    && (exists i :: 0 <= i < |payments| && payments[i].kind == DEPOSIT && payments[i].status == SUCCEEDED)
    && (forall i | 0 <= i < |payments| ::
          !(payments[i].kind == REFUND && payments[i].status in ACTIVE) &&
          !(payments[i].kind == PAYOUT && payments[i].status in ACTIVE))
  }

  function DeriveSettlement(status: D.RequestStatus, operatorAssigned: bool, settled: bool, payments: seq<Row>): SettlementState {
    if status != D.CANCELLED || !operatorAssigned || !Has(payments, DEPOSIT, {SUCCEEDED}) then NOT_SETTLEABLE
    else if settled then SETTLED
    else if Has(payments, REFUND, ACTIVE) then SETTLED
    else OPEN
  }

  /** Some row of this kind is in one of these states. */
  ghost predicate AnyRow(payments: seq<Row>, kind: PaymentType, statuses: set<PaymentStatus>) {
    exists r :: r in payments && r.kind == kind && r.status in statuses
  }

  lemma HasMeansRow(payments: seq<Row>, kind: PaymentType, statuses: set<PaymentStatus>)
    ensures Has(payments, kind, statuses) <==> AnyRow(payments, kind, statuses)
  {
    if r :| r in payments && r.kind == kind && r.status in statuses {
      var i :| 0 <= i < |payments| && payments[i] == r;
    }
  }

  /** What each answer says of the rows. A refund that is only on its way is not completed, an
      active payout is; and a failed attempt matters only when nothing else is under way. */
  lemma RefundStatusMeans(status: D.RequestStatus, payments: seq<Row>)
    ensures var paid := status == D.CANCELLED && AnyRow(payments, DEPOSIT, {SUCCEEDED});
            var gone := AnyRow(payments, PAYOUT, {PENDING, SUBMITTED, BLOCKED, SUCCEEDED}) || AnyRow(payments, REFUND, {SUCCEEDED});
            var onItsWay := AnyRow(payments, REFUND, {PENDING, SUBMITTED, BLOCKED});
            var failed := AnyRow(payments, REFUND, {FAILED});
            var answer := DeriveRefundStatus(status, payments);
            && (answer == NONE <==> !paid)
            && (answer == COMPLETED <==> paid && gone)
            && (answer == REFUND_PENDING <==> paid && !gone && onItsWay)
            && (answer == REFUND_FAILED <==> paid && !gone && !onItsWay && failed)
            && (answer == ELIGIBLE <==> paid && !gone && !onItsWay && !failed)
  {
    HasMeansRow(payments, DEPOSIT, {SUCCEEDED});
    HasMeansRow(payments, PAYOUT, {PENDING, SUBMITTED, BLOCKED, SUCCEEDED});
    HasMeansRow(payments, REFUND, {SUCCEEDED});
    HasMeansRow(payments, REFUND, {PENDING, SUBMITTED, BLOCKED});
    HasMeansRow(payments, REFUND, {FAILED});
    hide Has, AnyRow;
  }

  /** A settlement is open on a paid, cancelled job with an operator, once, and never beside an
      active refund. */
  lemma SettlementStateMeans(status: D.RequestStatus, operatorAssigned: bool, settled: bool, payments: seq<Row>)
    ensures var settleable := status == D.CANCELLED && operatorAssigned && AnyRow(payments, DEPOSIT, {SUCCEEDED});
            var taken := settled || AnyRow(payments, REFUND, {PENDING, SUBMITTED, BLOCKED, SUCCEEDED});
            var answer := DeriveSettlement(status, operatorAssigned, settled, payments);
            && (answer == NOT_SETTLEABLE <==> !settleable)
            && (answer == SETTLED <==> settleable && taken)
            && (answer == OPEN <==> settleable && !taken)
  {
    HasMeansRow(payments, DEPOSIT, {SUCCEEDED});
    HasMeansRow(payments, REFUND, {PENDING, SUBMITTED, BLOCKED, SUCCEEDED});
    hide Has, AnyRow;
  }

  /** The database filter and the derivation agree on every list of rows of a cancelled
      request: listed as refundable exactly when the derivation lets staff refund. */
  lemma FilterAgreesIff(payments: seq<Row>)
    ensures RefundEligibleFilter(payments) <==> DeriveRefundStatus(D.CANCELLED, payments) in {ELIGIBLE, REFUND_FAILED}
  {
  }

  lemma FilterMeansRows(payments: seq<Row>)
    ensures RefundEligibleFilter(payments) <==>
              && AnyRow(payments, DEPOSIT, {SUCCEEDED})
              && !AnyRow(payments, REFUND, {PENDING, SUBMITTED, BLOCKED, SUCCEEDED})
              && !AnyRow(payments, PAYOUT, {PENDING, SUBMITTED, BLOCKED, SUCCEEDED})
  {
    HasMeansRow(payments, DEPOSIT, {SUCCEEDED});
    HasMeansRow(payments, REFUND, ACTIVE);
    HasMeansRow(payments, PAYOUT, ACTIVE);
    hide AnyRow;
  }

  /** The order of the rows does not matter to any derivation. */
  lemma HasIgnoresOrder(a: seq<Row>, b: seq<Row>, kind: PaymentType, statuses: set<PaymentStatus>)
    requires forall r :: r in a <==> r in b
    ensures Has(a, kind, statuses) <==> Has(b, kind, statuses)
  {
    if Has(a, kind, statuses) {
      var i :| 0 <= i < |a| && a[i].kind == kind && a[i].status in statuses;
      assert a[i] in b;
    }
    if Has(b, kind, statuses) {
      var i :| 0 <= i < |b| && b[i].kind == kind && b[i].status in statuses;
      assert b[i] in a;
    }
  }

  lemma DerivationsIgnoreOrder(status: D.RequestStatus, operatorAssigned: bool, settled: bool, a: seq<Row>, b: seq<Row>)
    requires forall r :: r in a <==> r in b
    ensures DeriveRefundStatus(status, a) == DeriveRefundStatus(status, b)
    ensures DeriveSettlement(status, operatorAssigned, settled, a) == DeriveSettlement(status, operatorAssigned, settled, b)
  {
    HasIgnoresOrder(a, b, DEPOSIT, {SUCCEEDED});
    HasIgnoresOrder(a, b, PAYOUT, ACTIVE);
    HasIgnoresOrder(a, b, REFUND, {SUCCEEDED});
    HasIgnoresOrder(a, b, REFUND, {PENDING, SUBMITTED, BLOCKED});
    HasIgnoresOrder(a, b, REFUND, {FAILED});
    HasIgnoresOrder(a, b, REFUND, ACTIVE);
  }

  /** The rows of one request, listed. */
  ghost predicate Lists(t: L.Table, request: RequestId, payments: seq<Row>) {
    && (forall i | i in t && t[i].request == request :: Row(t[i].kind, t[i].status, t[i].amount) in payments)
    && (forall r | r in payments :: exists i :: i in t && t[i].request == request && r == Row(t[i].kind, t[i].status, t[i].amount))
  }

  /** A paid deposit on a cancelled request, with no active refund or payout, is refundable. */
  lemma PaidDepositIsRefundable(j: D.Job, payments: seq<Row>)
    requires B.DepositPaid(j) && j.status == D.CANCELLED && Lists(j.rows, j.id, payments)
    requires forall i | i in j.rows && j.rows[i].request == j.id && j.rows[i].kind in {REFUND, PAYOUT} ::
               j.rows[i].status !in ACTIVE
    ensures DeriveRefundStatus(j.status, payments) in {ELIGIBLE, REFUND_FAILED}
    ensures (forall i | i in j.rows && j.rows[i].request == j.id && j.rows[i].kind == REFUND :: j.rows[i].status != FAILED) ==>
              DeriveRefundStatus(j.status, payments) == ELIGIBLE
  {
    var paid :| paid in j.rows && j.rows[paid].request == j.id && j.rows[paid].kind == DEPOSIT && j.rows[paid].status == SUCCEEDED;
    var row := Row(DEPOSIT, SUCCEEDED, j.rows[paid].amount);
    assert row in payments;
    assert RefundEligibleFilter(payments) by {
      var d :| 0 <= d < |payments| && payments[d] == row;
      forall i | 0 <= i < |payments| && payments[i].kind in {REFUND, PAYOUT} ensures payments[i].status !in ACTIVE {
        assert payments[i] in payments;
      }
    }
    FilterAgreesIff(payments);
    if Has(payments, REFUND, {FAILED}) {
      var i :| 0 <= i < |payments| && payments[i].kind == REFUND && payments[i].status in {FAILED};
      assert payments[i] in payments;
    }
  }

  /** In every run of a new request: a deposit that settles after the request has ended leaves it
      refundable at every later point at which it is cancelled and nothing has been given back,
      whatever stale write revived it in between; ELIGIBLE unless a refund attempt has failed. */
  lemma LateDepositIsRefundable(id: RequestId, before: seq<D.Step>, op: L.Op, after: seq<D.Step>, payments: seq<Row>)
    requires H.AllowedRun(B.NewJob(id), before)
    requires var j := H.After(B.NewJob(id), before);
             L.Allowed(j.rows, op) && D.SettlesDeposit(j, op) && D.Ended(j.status) &&
             H.AllowedRun(D.ApplyLedger(j, op), after)
    requires var end := H.After(D.ApplyLedger(H.After(B.NewJob(id), before), op), after);
             end.status == D.CANCELLED && Lists(end.rows, end.id, payments) &&
             forall i | i in end.rows && end.rows[i].request == end.id && end.rows[i].kind in {REFUND, PAYOUT} ::
               end.rows[i].status !in ACTIVE
    ensures var end := H.After(D.ApplyLedger(H.After(B.NewJob(id), before), op), after);
            && DeriveRefundStatus(end.status, payments) in {ELIGIBLE, REFUND_FAILED}
            && ((forall i | i in end.rows && end.rows[i].request == end.id && end.rows[i].kind == REFUND :: end.rows[i].status != FAILED) ==>
                 DeriveRefundStatus(end.status, payments) == ELIGIBLE)
  {
    BR.NewJobIsFine(id);
    BR.RunTightens(B.NewJob(id), before);
    var j := H.After(B.NewJob(id), before);
    A.SettlingWhenEnded(j, op);
    hide H.After, H.AllowedRun, D.Next, D.SettlesDeposit, D.ApplyLedger, B.DepositPaid, B.Inv, A.Over, BR.Tightened;
    A.PaidStaysPaid(D.ApplyLedger(j, op), after);
    PaidDepositIsRefundable(H.After(D.ApplyLedger(j, op), after), payments);
  }

  // ---- A cancelled, paid request on the admin's desk --------------------------------

  /** The split is what the amounts frozen on the request give for each percentage; a claimed
      settlement remembers the shares decided on. */
  datatype Desk = Desk(deposit: int, split: int -> Shares, operatorAssigned: bool,
                       settled: Option<Shares>, payments: seq<Row>)

  /** The shares computeCancellationSettlement returns for these amounts. */
  ghost predicate SplitFrom(d: Desk, fee: int, total: int) {
    forall percent :: d.split(percent) == CancellationSettlement(d.deposit, fee, total, percent)
  }

  /** A failed or reversed attempt moved nothing and never will. */
  predicate Dead(s: PaymentStatus) { s in {FAILED, REVERSED} }

  predicate Outgoing(r: Row) { r.kind in {REFUND, PAYOUT} }

  predicate Live(r: Row) { Outgoing(r) && !Dead(r.status) }

  /** What has left or may still leave the deposit. */
  function LiveTotal(payments: seq<Row>): int {
    if payments == [] then 0
    else LiveTotal(payments[..|payments| - 1]) +
         if Live(payments[|payments| - 1]) then payments[|payments| - 1].amount else 0
  }

  datatype Step =
    | RefundDeposit
    | Resolve(percent: int, refundMade: bool, payoutMade: bool)
    | RetryPayout(row: nat)
    | Update(row: nat, status: PaymentStatus)

  function Append(payments: seq<Row>, kind: PaymentType, amount: int, made: bool): seq<Row> {
    if made then payments + [Row(kind, PENDING, amount)] else payments
  }

  predicate RefundAllowed(d: Desk) {
    DeriveRefundStatus(D.CANCELLED, d.payments) in {ELIGIBLE, REFUND_FAILED} && d.deposit != 0
  }

  predicate ResolveAllowed(d: Desk, percent: int) {
    0 <= percent <= 100 && DeriveSettlement(D.CANCELLED, d.operatorAssigned, d.settled.Some?, d.payments) == OPEN &&
    d.deposit != 0
  }

  /** The latest payout attempt, dead, with no payout succeeded or in flight: the retry that
      inserts a fresh row. (A blocked attempt is resubmitted in place, an Update here.) */
  predicate RetryInserts(d: Desk, row: nat) {
    && row < |d.payments| && d.payments[row].kind == PAYOUT && d.payments[row].status == FAILED
    && (forall later | row < later < |d.payments| :: d.payments[later].kind != PAYOUT)
    && !Has(d.payments, PAYOUT, ACTIVE)
  }

  /** Any ledger statement on a row: only a row in flight moves, and one success per kind. */
  predicate UpdateAllowed(d: Desk, row: nat, status: PaymentStatus) {
    && row < |d.payments| && InFlight(d.payments[row].status) && status != PENDING
    && (status == SUCCEEDED ==> !Has(d.payments, d.payments[row].kind, {SUCCEEDED}))
    && (status == DUPLICATE_SUCCEEDED ==> Has(d.payments, d.payments[row].kind, {SUCCEEDED}))
  }

  function Next(d: Desk, s: Step): Desk {
    match s
    case RefundDeposit =>
      if RefundAllowed(d) then d.(payments := Append(d.payments, REFUND, d.deposit, true)) else d
    case Resolve(percent, refundMade, payoutMade) =>
      if !ResolveAllowed(d, percent) then d
      else
        var share := d.split(percent);
        var refunded := Append(d.payments, REFUND, share.refund, refundMade && share.refund > 0);
        d.(settled := Some(share),
           payments := Append(refunded, PAYOUT, share.payout,
                              payoutMade && share.payout > 0 && !Has(d.payments, PAYOUT, ACTIVE)))
    case RetryPayout(row) =>
      if RetryInserts(d, row) then d.(payments := Append(d.payments, PAYOUT, d.payments[row].amount, true)) else d
    case Update(row, status) =>
      if UpdateAllowed(d, row, status) then d.(payments := d.payments[row := d.payments[row].(status := status)]) else d
  }

  // ---- What the desk keeps ------------------------------------------------------------

  ghost predicate OneLive(payments: seq<Row>, kind: PaymentType) {
    forall i, k | 0 <= i < k < |payments| && payments[i].kind == kind && payments[k].kind == kind ::
      !(Live(payments[i]) && Live(payments[k]))
  }

  ghost predicate AmountsKnown(d: Desk) {
    forall i | 0 <= i < |d.payments| && Outgoing(d.payments[i]) ::
      var r := d.payments[i];
      && r.status != DUPLICATE_SUCCEEDED
      && (r.kind == REFUND ==> r.amount == d.deposit || (d.settled.Some? && r.amount == d.settled.value.refund > 0))
      && (r.kind == PAYOUT ==> d.settled.Some? && r.amount == d.settled.value.payout > 0)
  }

  /** What may be given out of the deposit never exceeds it. */
  predicate Fits(d: Desk, s: Shares) { Max(0, s.refund) + Max(0, s.payout) <= d.deposit }

  ghost predicate Inv(d: Desk) {
    && d.deposit >= 0 && (forall percent | 0 <= percent <= 100 :: Fits(d, d.split(percent)))
    && (d.settled.Some? ==> Fits(d, d.settled.value))
    && OneLive(d.payments, REFUND) && OneLive(d.payments, PAYOUT) && AmountsKnown(d)
  }

  lemma {:induction false} NoneLive(payments: seq<Row>)
    requires forall i | 0 <= i < |payments| :: !Live(payments[i])
    ensures LiveTotal(payments) == 0
  {
    if payments != [] { NoneLive(payments[..|payments| - 1]); }
  }

  lemma {:induction false} OnlyOneLive(payments: seq<Row>, k: nat)
    requires k < |payments| && Live(payments[k]) && forall i | 0 <= i < |payments| && i != k :: !Live(payments[i])
    ensures LiveTotal(payments) == payments[k].amount
  {
    var last := |payments| - 1;
    if k == last { NoneLive(payments[..last]); } else { OnlyOneLive(payments[..last], k); }
  }

  lemma AppendAdds(payments: seq<Row>, kind: PaymentType, amount: int, made: bool)
    requires kind in {REFUND, PAYOUT}
    ensures LiveTotal(Append(payments, kind, amount, made)) == LiveTotal(payments) + if made then amount else 0
  {
  }

  lemma {:induction false} UpdateChanges(payments: seq<Row>, row: nat, status: PaymentStatus)
    requires row < |payments|
    ensures var after := payments[row := payments[row].(status := status)];
            LiveTotal(after) == LiveTotal(payments)
              - (if Live(payments[row]) then payments[row].amount else 0)
              + (if Live(after[row]) then after[row].amount else 0)
  {
    var last := |payments| - 1;
    var after := payments[row := payments[row].(status := status)];
    if row == last {
      assert after[..last] == payments[..last];
    } else {
      UpdateChanges(payments[..last], row, status);
      assert after[..last] == payments[..last][row := payments[row].(status := status)];
    }
  }

  /** Every split computed from a deposit and a non-negative fee fits, also when the fee
      share is larger than the deposit. */
  lemma SharesFit(d: Desk, fee: int, total: int, percent: int)
    requires d.deposit >= 0 && fee >= 0 && 0 <= percent <= 100
    ensures Fits(d, CancellationSettlement(d.deposit, fee, total, percent))
  {
    FeeKeptNonNegative(d.deposit, fee, total);
    var splittable := d.deposit - FeeKept(d.deposit, fee, total);
    if splittable >= 0 {
      PercentBetween(splittable, percent as real);
    } else {
      PercentOfNegative(splittable, percent as real);
    }
  }

  /** A live refund or payout is active: the duplicate state never arises for either. */
  lemma LiveIsActive(d: Desk, kind: PaymentType)
    requires Inv(d) && kind in {REFUND, PAYOUT} && !Has(d.payments, kind, ACTIVE)
    ensures forall i | 0 <= i < |d.payments| && d.payments[i].kind == kind :: !Live(d.payments[i])
  {
  }

  lemma UpdateKeepsInv(d: Desk, row: nat, status: PaymentStatus)
    requires Inv(d) && UpdateAllowed(d, row, status)
    ensures Inv(Next(d, Update(row, status)))
    ensures LiveTotal(Next(d, Update(row, status)).payments) <= LiveTotal(d.payments)
  {
    hide LiveTotal;
    UpdateChanges(d.payments, row, status);
    if Outgoing(d.payments[row]) {
      forall other | 0 <= other < |d.payments| && d.payments[other].kind == d.payments[row].kind
        ensures d.payments[other].status != SUCCEEDED
      {
        assert Live(d.payments[row]);
        assert other != row ==> !Live(d.payments[other]);
      }
    }
  }

  lemma RefundKeepsInv(d: Desk)
    requires Inv(d) && RefundAllowed(d)
    ensures Inv(Next(d, RefundDeposit)) && LiveTotal(Next(d, RefundDeposit).payments) == d.deposit
  {
    hide LiveTotal;
    FilterAgreesIff(d.payments);
    assert forall i | 0 <= i < |d.payments| && Outgoing(d.payments[i]) :: !Live(d.payments[i]);
    NoneLive(d.payments);
    AppendAdds(d.payments, REFUND, d.deposit, true);
  }

  lemma AppendKeepsInv(d: Desk, kind: PaymentType, amount: int, made: bool)
    requires Inv(d) && d.settled.Some?
    requires made ==> (kind == REFUND && amount == d.settled.value.refund > 0) || (kind == PAYOUT && amount == d.settled.value.payout > 0)
    requires forall i | 0 <= i < |d.payments| && d.payments[i].kind == kind :: !Live(d.payments[i])
    ensures Inv(d.(payments := Append(d.payments, kind, amount, made)))
  {
  }

  lemma ResolveKeepsInv(d: Desk, percent: int, refundMade: bool, payoutMade: bool)
    requires Inv(d) && ResolveAllowed(d, percent)
    ensures Inv(Next(d, Resolve(percent, refundMade, payoutMade)))
    ensures LiveTotal(Next(d, Resolve(percent, refundMade, payoutMade)).payments) <= d.deposit
  {
    hide LiveTotal;
    LiveIsActive(d, REFUND);
    assert forall i | 0 <= i < |d.payments| && Outgoing(d.payments[i]) :: !Live(d.payments[i]);
    NoneLive(d.payments);
    var share := d.split(percent);
    var marked := d.(settled := Some(share));
    assert Inv(marked);
    var refunding := refundMade && share.refund > 0;
    var paying := payoutMade && share.payout > 0 && !Has(d.payments, PAYOUT, ACTIVE);
    AppendKeepsInv(marked, REFUND, share.refund, refunding);
    AppendAdds(d.payments, REFUND, share.refund, refunding);
    var refunded := marked.(payments := Append(d.payments, REFUND, share.refund, refunding));
    assert forall i | 0 <= i < |refunded.payments| && refunded.payments[i].kind == PAYOUT :: !Live(refunded.payments[i]);
    AppendKeepsInv(refunded, PAYOUT, share.payout, paying);
    AppendAdds(refunded.payments, PAYOUT, share.payout, paying);
  }

  /** A refund of the whole deposit, issued outside the settlement, that is not dead. */
  predicate FullRefundLive(d: Desk) {
    exists i :: 0 <= i < |d.payments| && d.payments[i].kind == REFUND && Live(d.payments[i]) && d.payments[i].amount == d.deposit
  }

  lemma RetryKeepsInv(d: Desk, row: nat)
    requires Inv(d) && RetryInserts(d, row)
    ensures Inv(Next(d, RetryPayout(row)))
    ensures LiveTotal(Next(d, RetryPayout(row)).payments) <= d.deposit <==> !FullRefundLive(d)
  {
    hide LiveTotal;
    LiveIsActive(d, PAYOUT);
    AppendAdds(d.payments, PAYOUT, d.payments[row].amount, true);
    if k :| 0 <= k < |d.payments| && d.payments[k].kind == REFUND && Live(d.payments[k]) {
      OnlyOneLive(d.payments, k);
    } else {
      NoneLive(d.payments);
    }
  }

  lemma StepKeepsInv(d: Desk, s: Step)
    requires Inv(d)
    ensures Inv(Next(d, s))
  {
    match s
    case RefundDeposit => if RefundAllowed(d) { RefundKeepsInv(d); }
    case Resolve(percent, r, p) => if ResolveAllowed(d, percent) { ResolveKeepsInv(d, percent, r, p); }
    case RetryPayout(row) => if RetryInserts(d, row) { RetryKeepsInv(d, row); }
    case Update(row, status) => if UpdateAllowed(d, row, status) { UpdateKeepsInv(d, row, status); }
  }

  /** One step breaks the bound exactly when it retries a dead payout while a full refund of
      the deposit is live. */
  lemma BoundKeptIff(d: Desk, s: Step)
    requires Inv(d) && LiveTotal(d.payments) <= d.deposit
    ensures LiveTotal(Next(d, s).payments) <= d.deposit <==>
            !(s.RetryPayout? && RetryInserts(d, s.row) && FullRefundLive(d))
  {
    match s
    case RefundDeposit => if RefundAllowed(d) { RefundKeepsInv(d); }
    case Resolve(percent, r, p) => if ResolveAllowed(d, percent) { ResolveKeepsInv(d, percent, r, p); }
    case RetryPayout(row) => if RetryInserts(d, row) { RetryKeepsInv(d, row); }
    case Update(row, status) => if UpdateAllowed(d, row, status) { UpdateKeepsInv(d, row, status); }
  }

  // ---- Whole runs -----------------------------------------------------------------------

  function After(d: Desk, run: seq<Step>): Desk
    decreases |run|
  {
    if run == [] then d else After(Next(d, run[0]), run[1..])
  }

  predicate NoDoubleRetry(d: Desk, run: seq<Step>)
    decreases |run|
  {
    run == [] ||
    (!(run[0].RetryPayout? && RetryInserts(d, run[0].row) && FullRefundLive(d)) && NoDoubleRetry(Next(d, run[0]), run[1..]))
  }

  lemma {:induction false} RunKeepsBound(d: Desk, run: seq<Step>)
    requires Inv(d) && LiveTotal(d.payments) <= d.deposit && NoDoubleRetry(d, run)
    ensures Inv(After(d, run)) && LiveTotal(After(d, run).payments) <= d.deposit
    decreases |run|
  {
    if run != [] {
      StepKeepsInv(d, run[0]);
      BoundKeptIff(d, run[0]);
      RunKeepsBound(Next(d, run[0]), run[1..]);
    }
  }

  /** A cancelled request whose only payment is its succeeded deposit. */
  predicate JustCancelled(d: Desk) {
    d.deposit >= 0 && d.settled.None? && d.payments == [Row(DEPOSIT, SUCCEEDED, d.deposit)]
  }

  /** No payout attempt ever ends failed or reversed. */
  predicate PayoutsSurvive(d: Desk, run: seq<Step>)
    decreases |run|
  {
    run == [] ||
    (!(run[0].Update? && Dead(run[0].status) && run[0].row < |d.payments| && d.payments[run[0].row].kind == PAYOUT) &&
     PayoutsSurvive(Next(d, run[0]), run[1..]))
  }

  ghost predicate NoDeadPayout(d: Desk) {
    forall i | 0 <= i < |d.payments| && d.payments[i].kind == PAYOUT :: !Dead(d.payments[i].status)
  }

  lemma {:induction false} SurvivorsNeverRetry(d: Desk, run: seq<Step>)
    requires NoDeadPayout(d) && PayoutsSurvive(d, run)
    ensures NoDoubleRetry(d, run)
    decreases |run|
  {
    if run != [] {
      assert NoDeadPayout(Next(d, run[0]));
      SurvivorsNeverRetry(Next(d, run[0]), run[1..]);
    }
  }

  /** Refund and settlement exclude each other: in every serial run the refunds and payouts
      that are not dead never sum above the deposit, as long as no payout attempt dies. */
  lemma RefundAndSettlementExclude(d: Desk, fee: int, total: int, run: seq<Step>)
    requires JustCancelled(d) && fee >= 0 && SplitFrom(d, fee, total) && PayoutsSurvive(d, run)
    ensures LiveTotal(After(d, run).payments) <= d.deposit
  {
    hide CancellationSettlement;
    forall percent | 0 <= percent <= 100 ensures Fits(d, d.split(percent)) { SharesFit(d, fee, total, percent); }
    NoneLive(d.payments);
    SurvivorsNeverRetry(d, run);
    RunKeepsBound(d, run);
  }

  lemma NothingToTheCustomer()
    ensures CancellationSettlement(20000, 0, 100000, 0) == Shares(0, 0, 20000)
  {
  }

  /** And when one dies, staff can pay twice: settle all to the operator, the transfer fails,
      refund the deposit in full, retry the payout. */
  lemma DeadPayoutCanPayTwice(split: int -> Shares)
    requires SplitFrom(Desk(20000, split, true, None, []), 0, 100000)
    ensures var d := Desk(20000, split, true, None, [Row(DEPOSIT, SUCCEEDED, 20000)]);
            var run := [Resolve(0, true, true), Update(1, FAILED), RefundDeposit, RetryPayout(1)];
            JustCancelled(d) && LiveTotal(After(d, run).payments) == 40000
  {
    hide CancellationSettlement;
    var dep := Row(DEPOSIT, SUCCEEDED, 20000);
    var d := Desk(20000, split, true, None, [dep]);
    NothingToTheCustomer();
    assert split(0) == Shares(0, 0, 20000);
    var d1 := Next(d, Resolve(0, true, true));
    assert d.payments[0].kind == DEPOSIT;
    assert d1.payments == [dep, Row(PAYOUT, PENDING, 20000)];
    var d2 := Next(d1, Update(1, FAILED));
    assert d2.payments == [dep, Row(PAYOUT, FAILED, 20000)];
    assert d2.payments[0].kind == DEPOSIT;
    var d3 := Next(d2, RefundDeposit);
    assert d3.payments == [dep, Row(PAYOUT, FAILED, 20000), Row(REFUND, PENDING, 20000)];
    var d4 := Next(d3, RetryPayout(1));
    var last := d3.payments + [Row(PAYOUT, PENDING, 20000)];
    assert d4.payments == last;
    NoneLive(d2.payments);
    AppendAdds(d2.payments, REFUND, 20000, true);
    AppendAdds(d3.payments, PAYOUT, 20000, true);
    var run := [Resolve(0, true, true), Update(1, FAILED), RefundDeposit, RetryPayout(1)];
    assert run[1..] == [Update(1, FAILED), RefundDeposit, RetryPayout(1)];
    assert run[1..][1..] == [RefundDeposit, RetryPayout(1)];
    assert run[1..][1..][1..] == [RetryPayout(1)];
    assert After(d3, [RetryPayout(1)]) == d4;
  }

  // ---- The rows each act leaves ---------------------------------------------------------

  /** A claimed settlement adds its refund leg, then its payout leg, each when it was made and is
      worth something, and the payout only where none is under way or done. */
  function Legs(shares: Shares, refundMade: bool, payoutMade: bool, payable: bool): seq<Row> {
    (if refundMade && shares.refund > 0 then [Row(REFUND, PENDING, shares.refund)] else []) +
    (if payoutMade && payable && shares.payout > 0 then [Row(PAYOUT, PENDING, shares.payout)] else [])
  }

  function Sum(payments: seq<Row>): int { if payments == [] then 0 else payments[0].amount + Sum(payments[1..]) }

  lemma SumOfTwo(first: Row, rest: seq<Row>)
    ensures Sum([first] + rest) == first.amount + Sum(rest) && (|rest| == 1 ==> Sum(rest) == rest[0].amount)
  {
    assert ([first] + rest)[1..] == rest;
    if |rest| == 1 { assert rest[1..] == []; }
  }

  /** With both legs made and no payout in the way, the new rows are worth exactly the deposit
      without the fee share, whenever neither share is negative. */
  lemma LegsCoverTheDeposit(deposit: int, fee: int, total: int, percent: int)
    ensures var s := CancellationSettlement(deposit, fee, total, percent);
            s.refund >= 0 && s.payout >= 0 ==> Sum(Legs(s, true, true, true)) == deposit - s.feeKeptOut
  {
    var s := CancellationSettlement(deposit, fee, total, percent);
    assert s.payout == deposit - s.feeKeptOut - s.refund;
    hide CancellationSettlement;
    var legs := Legs(s, true, true, true);
    if |legs| > 0 {
      SumOfTwo(legs[0], legs[1..]);
      assert legs == [legs[0]] + legs[1..];
    }
    if |legs| == 2 { assert legs[1..] == [legs[1]]; }
  }

  /** An inserting retry adds one row, worth what the dead attempt was. */
  lemma RetryWrites(d: Desk, row: nat)
    ensures var d' := Next(d, RetryPayout(row));
            if row < |d.payments| && d.payments[row].kind == PAYOUT && d.payments[row].status == FAILED &&
               (forall later | row < later < |d.payments| :: d.payments[later].kind != PAYOUT) &&
               !AnyRow(d.payments, PAYOUT, {PENDING, SUBMITTED, BLOCKED, SUCCEEDED})
            then d' == d.(payments := d.payments + [Row(PAYOUT, PENDING, d.payments[row].amount)])
            else d' == d
  {
    HasMeansRow(d.payments, PAYOUT, {PENDING, SUBMITTED, BLOCKED, SUCCEEDED});
    hide Has, AnyRow;
  }

  // ---- The service, in place --------------------------------------------------------------

  class CancellationDesk {
    const deposit: int
    const fee: int
    const total: int
    const operatorAssigned: bool
    ghost const split: int -> Shares
    var settled: Option<Shares>
    var payments: seq<Row>

    ghost function View(): Desk
      reads this
    {
      Desk(deposit, split, operatorAssigned, settled, payments)
    }

    /** The shares are computed from the frozen amounts, never read from current settings. */
    ghost predicate Valid()
      reads this
    {
      SplitFrom(View(), fee, total)
    }

    constructor (d: Desk, fee: int, total: int)
      requires SplitFrom(d, fee, total)
      ensures Valid() && View() == d && this.fee == fee && this.total == total
    {
      deposit, split, operatorAssigned := d.deposit, d.split, d.operatorAssigned;
      this.fee, this.total := fee, total;
      settled, payments := d.settled, d.payments;
    }

    /** Exactly while the paid deposit is neither given back nor on its way anywhere. */
    method RefundDeposit() returns (submitted: bool)
      requires Valid()
      modifies this
      ensures Valid()
      ensures submitted == RefundAllowed(old(View())) && View() == Next(old(View()), Step.RefundDeposit)
      ensures submitted <==>
                && deposit != 0 && AnyRow(old(payments), DEPOSIT, {SUCCEEDED})
                && !AnyRow(old(payments), REFUND, {PENDING, SUBMITTED, BLOCKED, SUCCEEDED})
                && !AnyRow(old(payments), PAYOUT, {PENDING, SUBMITTED, BLOCKED, SUCCEEDED})
      ensures settled == old(settled)
      ensures payments == old(payments) + if submitted then [Row(REFUND, PENDING, deposit)] else []
    {
      FilterMeansRows(payments);
      FilterAgreesIff(payments);
      hide RefundEligibleFilter, AnyRow, DeriveRefundStatus;
      var state := DeriveRefundStatus(D.CANCELLED, payments);
      if state != ELIGIBLE && state != REFUND_FAILED { return false; }
      if deposit == 0 { return false; }
      payments := payments + [Row(REFUND, PENDING, deposit)];
      return true;
    }

    /** Claim first, then the refund leg, then the payout leg; either leg may fail to create
        its row without undoing the claim. */
    method ResolveCancellationSettlement(percent: int, refundMade: bool, payoutMade: bool) returns (shares: Option<Shares>)
      requires Valid()
      modifies this
      ensures Valid()
      ensures View() == Next(old(View()), Resolve(percent, refundMade, payoutMade))
      ensures shares == if ResolveAllowed(old(View()), percent)
                        then Some(CancellationSettlement(deposit, fee, total, percent)) else None
      ensures shares.Some? <==>
                && 0 <= percent <= 100 && deposit != 0 && operatorAssigned && old(settled).None?
                && AnyRow(old(payments), DEPOSIT, {SUCCEEDED})
                && !AnyRow(old(payments), REFUND, {PENDING, SUBMITTED, BLOCKED, SUCCEEDED})
      ensures settled == if shares.Some? then shares else old(settled)
      ensures payments == old(payments) +
                if shares.Some?
                then Legs(shares.value, refundMade, payoutMade, !AnyRow(old(payments), PAYOUT, {PENDING, SUBMITTED, BLOCKED, SUCCEEDED}))
                else []
    {
      SettlementStateMeans(D.CANCELLED, operatorAssigned, settled.Some?, payments);
      HasMeansRow(payments, PAYOUT, {PENDING, SUBMITTED, BLOCKED, SUCCEEDED});
      hide AnyRow, Has, DeriveSettlement, CancellationSettlement;
      if percent < 0 || percent > 100 { return None; }
      if DeriveSettlement(D.CANCELLED, operatorAssigned, settled.Some?, payments) != OPEN || deposit == 0 { return None; }
      var shared := CancellationSettlement(deposit, fee, total, percent);
      var payable := !Has(payments, PAYOUT, ACTIVE);
      settled := Some(shared);
      if shared.refund > 0 && refundMade { payments := payments + [Row(REFUND, PENDING, shared.refund)]; }
      if shared.payout > 0 && payoutMade && payable { payments := payments + [Row(PAYOUT, PENDING, shared.payout)]; }
      return Some(shared);
    }
  }
}
