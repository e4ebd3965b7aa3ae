/** The payment ledger: every status change is a conditional update, and the database
    keeps two partial unique indexes. The functions say what one committed statement does
    to the whole table; the class performs it in place. */
module Ledger {
  import opened Payments

  type Table = map<PaymentId, Payment>

  /** Rows that compete for one slot of a partial unique index. */
  predicate SameSlot(p: Payment, q: Payment) { p.request == q.request && p.kind == q.kind }

  ghost predicate OneInFlight(t: Table) {
    forall i, j | i in t && j in t && i != j && SameSlot(t[i], t[j]) ::
      !(InFlight(t[i].status) && InFlight(t[j].status))
  }

  ghost predicate OneSucceeded(t: Table) {
    forall i, j | i in t && j in t && i != j && SameSlot(t[i], t[j]) ::
      !(t[i].status == SUCCEEDED && t[j].status == SUCCEEDED)
  }

  ghost predicate BlockReasonsExact(t: Table) {
    forall i | i in t :: t[i].blockReason.Some? <==> t[i].status == BLOCKED
  }

  predicate SucceededSibling(t: Table, id: PaymentId)
    requires id in t
  {
    exists j :: j in t && j != id && SameSlot(t[id], t[j]) && t[j].status == SUCCEEDED
  }

  ghost predicate DuplicatesHaveWinner(t: Table) {
    forall i | i in t && t[i].status == DUPLICATE_SUCCEEDED :: SucceededSibling(t, i)
  }

  ghost predicate Consistent(t: Table) {
    OneInFlight(t) && OneSucceeded(t) && BlockReasonsExact(t) && DuplicatesHaveWinner(t)
  }

  // ---- One function per ledger statement ------------------------------------

  predicate SlotTaken(t: Table, request: RequestId, kind: PaymentType) {
    exists j :: j in t && t[j].request == request && t[j].kind == kind && InFlight(t[j].status)
  }

  function NewRow(request: RequestId, kind: PaymentType, amount: int,
                  operator: Option<OperatorId>, now: int): Payment {
    Payment(request, kind, PENDING, amount, operator, None, now, 0, None, None, now)
  }

  predicate CanClaim(t: Table, id: PaymentId) { id in t && t[id].status == PENDING }

  function Claim(t: Table, id: PaymentId, now: int): Table {
    if CanClaim(t, id)
    then t[id := t[id].(status := SUBMITTED, verifyAfter := now + INITIAL_VERIFY_DELAY_MS)]
    else t
  }

  function RecordRejection(t: Table, id: PaymentId, reason: Option<BlockReason>): Table {
    if id in t && t[id].status == SUBMITTED
    then t[id := t[id].(status := FAILED, blockReason := reason)]
    else t
  }

  function RecordBlocked(t: Table, id: PaymentId, reason: BlockReason): Table {
    if id in t && t[id].status == SUBMITTED
    then t[id := t[id].(status := BLOCKED, blockReason := Some(reason))]
    else t
  }

  predicate CanUnblock(t: Table, id: PaymentId) { id in t && t[id].status == BLOCKED }

  function Unblock(t: Table, id: PaymentId, now: int): Table {
    if CanUnblock(t, id)
    then t[id := t[id].(status := SUBMITTED, blockReason := None,
                        verifyAfter := now + INITIAL_VERIFY_DELAY_MS)]
    else t
  }

  /** True for the one caller whose update matched and did not hit the index. */
  predicate WinsTerminal(t: Table, id: PaymentId, mapped: MappedStatus) {
    id in t && Claimable(t[id].status) &&
    !(mapped.status == SUCCEEDED && SucceededSibling(t, id))
  }

  /** claimTerminal, with recordDuplicateSuccess folded in: a second success for the
      slot is quarantined instead. */
  function ClaimTerminal(t: Table, id: PaymentId, mapped: MappedStatus): Table {
    if WinsTerminal(t, id, mapped)
    then t[id := t[id].(status := mapped.status, blockReason := mapped.blockReason)]
    else if id in t && Claimable(t[id].status)
    then t[id := t[id].(status := DUPLICATE_SUCCEEDED, blockReason := None)]
    else t
  }

  /** The gap until the next verification of a row of this age. */
  function BackOffGap(age: int): int {
    Min(2 * Max(INITIAL_VERIFY_DELAY_MS, age), MAX_VERIFY_BACKOFF_MS)
  }

  function BackOff(t: Table, id: PaymentId, now: int): Table {
    if id in t
    then t[id := t[id].(verifyAfter := now + BackOffGap(now - t[id].createdAt),
                        verifyAttempts := t[id].verifyAttempts + 1)]
    else t
  }

  function StoreLink(t: Table, id: PaymentId, url: string): Table {
    if id in t then t[id := t[id].(checkoutUrl := Some(url))] else t
  }

  // ---- Every statement, as data, so that a run is a sequence ------------------

  datatype Op =
    | Create(id: PaymentId, row: Payment)
    | Submit(id: PaymentId, now: int)
    | Reject(id: PaymentId)
    | Block(id: PaymentId, reason: BlockReason)
    | Resume(id: PaymentId, now: int)
    | Settle(id: PaymentId, mapped: MappedStatus)
    | Postpone(id: PaymentId, now: int)
    | Link(id: PaymentId, url: string)

  /** Ids are fresh, and the statuses handed to claimTerminal come from the mappings. */
  predicate Allowed(t: Table, op: Op) {
    match op
    case Create(id, row) =>
      id !in t && row == NewRow(row.request, row.kind, row.amount, row.operator, row.createdAt)
    case Settle(_, mapped) =>
      WellFormed(mapped) && mapped.status != PENDING && mapped.status != DUPLICATE_SUCCEEDED
    case _ => true
  }

  function Apply(t: Table, op: Op): Table {
    match op
    case Create(id, row) => if SlotTaken(t, row.request, row.kind) then t else t[id := row]
    case Submit(id, now) => Claim(t, id, now)
    case Reject(id) => RecordRejection(t, id, None)
    case Block(id, reason) => RecordBlocked(t, id, reason)
    case Resume(id, now) => Unblock(t, id, now)
    case Settle(id, mapped) => ClaimTerminal(t, id, mapped)
    case Postpone(id, now) => BackOff(t, id, now)
    case Link(id, url) => StoreLink(t, id, url)
  }

  /** One row of a slot may change only so: in flight stays in flight or ends, success is
      new to its slot and final, and a duplicate has a winner. */
  ghost predicate Lawful(t: Table, id: PaymentId, row: Payment) {
    && (row.blockReason.Some? <==> row.status == BLOCKED)
    && (id in t ==>
          && SameSlot(t[id], row)
          && (InFlight(row.status) ==> InFlight(t[id].status))
          && (t[id].status == SUCCEEDED ==> row.status == SUCCEEDED)
          && (row.status == SUCCEEDED ==> t[id].status == SUCCEEDED || !SucceededSibling(t, id))
          && (row.status == DUPLICATE_SUCCEEDED ==> SucceededSibling(t, id)))
    && (id !in t ==> row.status == PENDING && !SlotTaken(t, row.request, row.kind))
  }

  lemma LawfulKeepsConsistent(t: Table, id: PaymentId, row: Payment)
    requires Consistent(t) && Lawful(t, id, row)
    ensures Consistent(t[id := row])
  {
    var t' := t[id := row];
    forall i | i in t' && t'[i].status == DUPLICATE_SUCCEEDED
      ensures SucceededSibling(t', i)
    {
      var j :| j in t && j != i && SameSlot(t[i], t[j]) && t[j].status == SUCCEEDED;
      assert t'[j].status == SUCCEEDED && SameSlot(t'[i], t'[j]);
    }
  }

  /** Both indexes, the block-reason rule and the quarantine rule survive every statement. */
  lemma ApplyKeepsConsistent(t: Table, op: Op)
    requires Consistent(t) && Allowed(t, op)
    ensures Consistent(Apply(t, op))
  {
    var t' := Apply(t, op);
    if t' != t {
      LawfulKeepsConsistent(t, op.id, t'[op.id]);
      assert t' == t[op.id := t'[op.id]];
    }
  }

  /** A terminal row keeps its status and its block reason whatever happens next, a row
      never disappears, and no row ever becomes PENDING again. */
  lemma TerminalIsFinal(t: Table, op: Op, id: PaymentId)
    requires Allowed(t, op) && id in t
    ensures id in Apply(t, op) && SameSlot(Apply(t, op)[id], t[id])
    ensures Terminal(t[id].status) ==>
              Apply(t, op)[id].status == t[id].status &&
              Apply(t, op)[id].blockReason == t[id].blockReason
    ensures t[id].status != PENDING ==> Apply(t, op)[id].status != PENDING
  {
  }

  /** recordRejection takes an optional block reason. The block-reason rule survives it
      exactly when the caller leaves the reason out or the row was not SUBMITTED. */
  lemma RejectionKeepsBlockReasonsIff(t: Table, id: PaymentId, reason: Option<BlockReason>)
    requires BlockReasonsExact(t)
    ensures BlockReasonsExact(RecordRejection(t, id, reason)) <==>
            reason == None || id !in t || t[id].status != SUBMITTED
  {
    if id in t && t[id].status == SUBMITTED && reason.Some? {
      var t' := RecordRejection(t, id, reason);
      assert id in t' && t'[id].blockReason.Some? && t'[id].status == FAILED;
    }
  }

  // ---- Whole runs: side effects happen once -----------------------------------

  /** confirmDeposit, confirmBalance or notifyPayoutOutcome, run by the winning caller. */
  datatype Effect = Confirm(id: PaymentId, request: RequestId, kind: PaymentType)

  function EffectOf(t: Table, op: Op): seq<Effect> {
    if op.Settle? && op.mapped.status == SUCCEEDED && WinsTerminal(t, op.id, op.mapped)
    then [Confirm(op.id, t[op.id].request, t[op.id].kind)]
    else []
  }

  ghost predicate AllowedRun(t: Table, ops: seq<Op>)
    decreases |ops|
  {
    ops == [] || (Allowed(t, ops[0]) && AllowedRun(Apply(t, ops[0]), ops[1..]))
  }

  function Effects(t: Table, ops: seq<Op>): seq<Effect>
    decreases |ops|
  {
    if ops == [] then [] else EffectOf(t, ops[0]) + Effects(Apply(t, ops[0]), ops[1..])
  }

  function CountSlot(effects: seq<Effect>, request: RequestId, kind: PaymentType): nat {
    if effects == [] then 0
    else (if effects[0].request == request && effects[0].kind == kind then 1 else 0)
         + CountSlot(effects[1..], request, kind)
  }

  predicate HasSucceeded(t: Table, request: RequestId, kind: PaymentType) {
    exists j :: j in t && t[j].request == request && t[j].kind == kind && t[j].status == SUCCEEDED
  }

  function AfterOps(t: Table, ops: seq<Op>): Table
    decreases |ops|
  {
    if ops == [] then t else AfterOps(Apply(t, ops[0]), ops[1..])
  }

  lemma SuccessStays(t: Table, op: Op, request: RequestId, kind: PaymentType)
    requires Allowed(t, op) && HasSucceeded(t, request, kind)
    ensures HasSucceeded(Apply(t, op), request, kind)
    ensures EffectOf(t, op) != [] ==> t[op.id].request != request || t[op.id].kind != kind
  {
    var j :| j in t && t[j].request == request && t[j].kind == kind && t[j].status == SUCCEEDED;
    TerminalIsFinal(t, op, j);
    assert Apply(t, op)[j].status == SUCCEEDED;
  }

  lemma SuccessIsConfirmed(t: Table, op: Op, request: RequestId, kind: PaymentType)
    requires Allowed(t, op) && !HasSucceeded(t, request, kind)
    ensures HasSucceeded(Apply(t, op), request, kind) <==>
            EffectOf(t, op) != [] && t[op.id].request == request && t[op.id].kind == kind
  {
    var t' := Apply(t, op);
    if HasSucceeded(t', request, kind) {
      var j :| j in t' && t'[j].request == request && t'[j].kind == kind && t'[j].status == SUCCEEDED;
      assert op.Settle? && op.id == j;
    }
    if EffectOf(t, op) != [] { assert t'[op.id].status == SUCCEEDED; }
  }

  /** One statement confirms a slot exactly when it is the one that makes it succeed. */
  lemma ConfirmedWhenWon(t: Table, op: Op, request: RequestId, kind: PaymentType)
    requires Allowed(t, op)
    ensures CountSlot(EffectOf(t, op), request, kind) ==
              if HasSucceeded(Apply(t, op), request, kind) && !HasSucceeded(t, request, kind) then 1 else 0
    ensures HasSucceeded(t, request, kind) ==> HasSucceeded(Apply(t, op), request, kind)
  {
    if HasSucceeded(t, request, kind) { SuccessStays(t, op, request, kind); } else { SuccessIsConfirmed(t, op, request, kind); }
    hide Apply, HasSucceeded, Allowed;
    var effect := EffectOf(t, op);
    if effect != [] { assert effect[1..] == []; }
  }

  /** However webhooks and verification race and repeat, a (request, type) that succeeds in the
      course of a run is confirmed exactly once in it, and no other is confirmed at all. */
  lemma {:induction false} ConfirmedExactlyOnce(t: Table, ops: seq<Op>, request: RequestId, kind: PaymentType)
    requires Consistent(t) && AllowedRun(t, ops)
    ensures CountSlot(Effects(t, ops), request, kind) ==
              if HasSucceeded(AfterOps(t, ops), request, kind) && !HasSucceeded(t, request, kind) then 1 else 0
    ensures HasSucceeded(t, request, kind) ==> HasSucceeded(AfterOps(t, ops), request, kind)
    decreases |ops|
  {
    if ops == [] {
    } else {
      var op, t' := ops[0], Apply(t, ops[0]);
      ApplyKeepsConsistent(t, op);
      ConfirmedWhenWon(t, op, request, kind);
      ConfirmedExactlyOnce(t', ops[1..], request, kind);
      var effect, later := EffectOf(t, op), Effects(t', ops[1..]);
      if effect == [] {
        assert effect + later == later;
      } else {
        assert effect[1..] == [] && (effect + later)[1..] == later;
      }
      hide Apply, Consistent, HasSucceeded, Allowed, EffectOf;
    }
  }

  // ---- The service, updating the table in place -------------------------------

  /** What creating a row needs to know about the parties it locks. */
  datatype Parties = Parties(requestExists: bool, operatorAssigned: bool, customerActive: bool, operatorActive: bool)

  datatype CreateResult = Created | Refused(why: Refusal)
  datatype Refusal = NO_OPERATOR | OPERATOR_DELETED | NOT_ASSIGNED | CUSTOMER_DELETED | ALREADY_IN_FLIGHT

  /** Why create throws, in the order it checks; None when the row is inserted. */
  function RefusalOf(t: Table, request: RequestId, kind: PaymentType, operator: Option<OperatorId>, who: Parties): Option<Refusal> {
    if kind == PAYOUT && operator.None? then Some(NO_OPERATOR)
    else if kind == PAYOUT && !who.operatorActive then Some(OPERATOR_DELETED)
    else if kind == DEPOSIT && who.requestExists && !who.operatorAssigned then Some(NOT_ASSIGNED)
    else if kind != PAYOUT && who.requestExists && !who.customerActive then Some(CUSTOMER_DELETED)
    else if SlotTaken(t, request, kind) then Some(ALREADY_IN_FLIGHT)
    else None
  }

  /** Each refusal has its own cause, told apart in the order the causes are looked for; only a
      payout asks after its operator, and everything else after the customer. */
  lemma RefusalMeans(t: Table, request: RequestId, kind: PaymentType, operator: Option<OperatorId>, who: Parties)
    ensures var why := RefusalOf(t, request, kind, operator, who);
            var taken := exists j :: j in t && t[j].request == request && t[j].kind == kind && t[j].status in {PENDING, SUBMITTED, BLOCKED};
            var unassigned := kind == DEPOSIT && who.requestExists && !who.operatorAssigned;
            var orphaned := kind in {DEPOSIT, BALANCE, REFUND} && who.requestExists && !who.customerActive;
            var unpayable := kind == PAYOUT && (operator.None? || !who.operatorActive);
            && (why == Some(NO_OPERATOR) <==> kind == PAYOUT && operator.None?)
            && (why == Some(OPERATOR_DELETED) <==> unpayable && operator.Some?)
            && (why == Some(NOT_ASSIGNED) <==> unassigned)
            && (why == Some(CUSTOMER_DELETED) <==> orphaned && !unassigned)
            && (why == Some(ALREADY_IN_FLIGHT) <==> taken && !unassigned && !orphaned && !unpayable)
            && (why == None <==> !taken && !unassigned && !orphaned && !unpayable)
  {
  }

  class PaymentLedgerService {
    var rows: Table

    ghost predicate Valid()
      reads this
    {
      Consistent(rows)
    }

    constructor ()
      ensures Valid() && rows == map[]
    {
      rows := map[];
    }

    method Create(id: PaymentId, request: RequestId, kind: PaymentType, amount: int,
                  operator: Option<OperatorId>, who: Parties, now: int)
      returns (result: CreateResult)
      requires Valid() && id !in rows
      modifies this
      ensures Valid()
      ensures result == (match RefusalOf(old(rows), request, kind, operator, who)
                         case Some(why) => Refused(why)
                         case None => Created)
      ensures rows == if result.Created?
                      then old(rows)[id := Payment(request, kind, PENDING, amount, operator, None, now, 0, None, None, now)]
                      else old(rows)
    {
      if kind == PAYOUT {
        if operator.None? { return Refused(NO_OPERATOR); }
        if !who.operatorActive { return Refused(OPERATOR_DELETED); }
      } else if who.requestExists {
        if kind == DEPOSIT && !who.operatorAssigned { return Refused(NOT_ASSIGNED); }
        if !who.customerActive { return Refused(CUSTOMER_DELETED); }
      }
      if SlotTaken(rows, request, kind) { return Refused(ALREADY_IN_FLIGHT); }
      ApplyKeepsConsistent(rows, Op.Create(id, NewRow(request, kind, amount, operator, now)));
      rows := rows[id := NewRow(request, kind, amount, operator, now)];
      return Created;
    }

    method ClaimForSubmission(id: PaymentId, now: int) returns (claimed: bool)
      requires Valid()
      modifies this
      ensures Valid() && claimed == CanClaim(old(rows), id) && rows == Claim(old(rows), id, now)
    {
      ApplyKeepsConsistent(rows, Submit(id, now));
      claimed := false;
      if id in rows && rows[id].status == PENDING {
        rows := rows[id := rows[id].(status := SUBMITTED, verifyAfter := now + INITIAL_VERIFY_DELAY_MS)];
        claimed := true;
      }
    }

    method Reject(id: PaymentId)
      requires Valid()
      modifies this
      ensures Valid() && rows == RecordRejection(old(rows), id, None)
    {
      ApplyKeepsConsistent(rows, Op.Reject(id));
      if id in rows && rows[id].status == SUBMITTED {
        rows := rows[id := rows[id].(status := FAILED, blockReason := None)];
      }
    }

    method BlockOn(id: PaymentId, reason: BlockReason)
      requires Valid()
      modifies this
      ensures Valid() && rows == RecordBlocked(old(rows), id, reason)
    {
      ApplyKeepsConsistent(rows, Block(id, reason));
      if id in rows && rows[id].status == SUBMITTED {
        rows := rows[id := rows[id].(status := BLOCKED, blockReason := Some(reason))];
      }
    }

    method ResumeBlocked(id: PaymentId, now: int) returns (resumed: bool)
      requires Valid()
      modifies this
      ensures Valid() && resumed == CanUnblock(old(rows), id) && rows == Unblock(old(rows), id, now)
    {
      ApplyKeepsConsistent(rows, Resume(id, now));
      resumed := false;
      if id in rows && rows[id].status == BLOCKED {
        rows := rows[id := rows[id].(status := SUBMITTED, blockReason := None,
                                     verifyAfter := now + INITIAL_VERIFY_DELAY_MS)];
        resumed := true;
      }
    }

    /** The update either matches, or hits the success index and is quarantined. */
    method SettleTerminal(id: PaymentId, mapped: MappedStatus) returns (claimed: bool)
      requires Valid() && Allowed(rows, Settle(id, mapped))
      modifies this
      ensures Valid()
      ensures claimed == WinsTerminal(old(rows), id, mapped)
      ensures rows == ClaimTerminal(old(rows), id, mapped)
    {
      ApplyKeepsConsistent(rows, Settle(id, mapped));
      claimed := false;
      if id in rows && Claimable(rows[id].status) {
        if mapped.status == SUCCEEDED && SucceededSibling(rows, id) {
          rows := rows[id := rows[id].(status := DUPLICATE_SUCCEEDED, blockReason := None)];
        } else {
          rows := rows[id := rows[id].(status := mapped.status, blockReason := mapped.blockReason)];
          claimed := true;
        }
      }
    }

    method PostponeVerification(id: PaymentId, now: int)
      requires Valid() && id in rows
      modifies this
      ensures Valid() && rows == BackOff(old(rows), id, now)
    {
      ApplyKeepsConsistent(rows, Postpone(id, now));
      var elapsed := Max(INITIAL_VERIFY_DELAY_MS, now - rows[id].createdAt);
      var next := Min(elapsed * 2, MAX_VERIFY_BACKOFF_MS);
      rows := rows[id := rows[id].(verifyAfter := now + next,
                                   verifyAttempts := rows[id].verifyAttempts + 1)];
    }
  }
}
