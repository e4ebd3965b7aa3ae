/** One pass of the payment verifier over the rows that are due: a PENDING row was never
    submitted and is initiated, a SUBMITTED row is asked after and never trusted to memory. */
module VerifyCheck {
  import opened Payments
  import opened Ledger
  import C = CollectionProtocol
  import P = PayoutProtocol
  import R = RefundProtocol

  datatype CheckoutReply = Link(url: string) | Refused | Unclear

  /** How far a row gets before an exception is thrown and logged by the loop: nowhere; past
      the claim of a PENDING row and perhaps the call to the provider; or to the end of its
      writes. */
  datatype Fate = Completes | ThrowsFirst | ThrowsAfterClaim(called: bool) | ThrowsLast

  /** What a refund's recovery finds: the deposit to ask about, and the record with the row's
      own note in the provider's list. */
  datatype RefundSearch = NoDeposit | NoReference | ListFailed | NoMatch | Match(number: nat, status: string)

  /** Everything the outside world would answer about one row during the pass. */
  datatype View = View(
    fate: Fate,
    canInitiate: bool,             // request, customer phone, recipient code or paid deposit is there
    operatorAssigned: bool,
    checkout: CheckoutReply,
    transactionKnown: bool,        // the read succeeded, or said the reference does not exist
    transaction: Option<string>,
    transferRead: P.Reply,
    transferPost: P.Reply,
    refundPost: R.Reply,
    refundSearch: RefundSearch,
    cancelled: bool)               // the request has been cancelled

  /** What the pass did besides updating the ledger. */
  datatype Action =
    | PostCheckout(id: PaymentId)
    | PostTransfer(id: PaymentId)
    | PostRefund(id: PaymentId)
    | SendLink(id: PaymentId)
    | ConfirmCollection(id: PaymentId)
    | NotifyPayout(id: PaymentId)
    | Escalate(id: PaymentId)

  datatype Outcome = Outcome(rows: Table, log: seq<Action>)

  predicate Due(t: Table, id: PaymentId, now: int) {
    id in t && t[id].status in {PENDING, SUBMITTED} && t[id].verifyAfter < now
  }

  /** Only this row differs, and it is still there. */
  ghost predicate Touches(t: Table, id: PaymentId, t': Table) {
    t'.Keys == t.Keys && forall j | j in t && j != id :: t'[j] == t[j]
  }

  // ---- One row ------------------------------------------------------------------

  function InitiateCollection(t: Table, id: PaymentId, v: View): (o: Outcome)
    requires id in t
    ensures Touches(t, id, o.rows)
  {
    if !v.canInitiate then Outcome(t, [Escalate(id)])
    else if t[id].kind == DEPOSIT && !v.operatorAssigned then
      Outcome(RecordRejection(t, id, None), [Escalate(id)])
    else match v.checkout
      case Unclear => Outcome(t, [PostCheckout(id)])
      case Refused => Outcome(RecordRejection(t, id, None), [PostCheckout(id)])
      case Link(url) => Outcome(StoreLink(t, id, url), [PostCheckout(id), SendLink(id)])
  }

  function Notices(before: Table, after: Table, id: PaymentId): seq<Action>
    requires id in before && id in after
  {
    if before[id].status == SUCCEEDED || after[id].status != SUCCEEDED then []
    else if before[id].kind == PAYOUT then [NotifyPayout(id)]
    else if before[id].kind == REFUND then []
    else [ConfirmCollection(id)]
  }

  function InitiatePayout(t: Table, id: PaymentId, v: View): (o: Outcome)
    requires id in t
    ensures Touches(t, id, o.rows)
  {
    if !v.canInitiate then Outcome(t, [Escalate(id)])
    else var t' := P.ApplyReply(t, P.Verifier, id, v.transferPost);
      Outcome(t', [PostTransfer(id)] + Notices(t, t', id))
  }

  function InitiateRefund(t: Table, id: PaymentId, v: View): (o: Outcome)
    requires id in t
    ensures Touches(t, id, o.rows)
  {
    if !v.canInitiate then Outcome(t, [Escalate(id)])
    else Outcome(R.ApplyReply(t, R.Verifier, id, v.refundPost), [PostRefund(id)])
  }

  /** The row is claimed before anything is called. */
  function Initiate(t: Table, id: PaymentId, now: int, v: View): (o: Outcome)
    requires id in t
    ensures Touches(t, id, o.rows)
  {
    var claimed := Claim(t, id, now);
    if !CanClaim(t, id) then Outcome(t, [])
    else match t[id].kind
      case DEPOSIT => InitiateCollection(claimed, id, v)
      case BALANCE => InitiateCollection(claimed, id, v)
      case PAYOUT => InitiatePayout(claimed, id, v)
      case REFUND => InitiateRefund(claimed, id, v)
  }

  /** The provider has the transaction, it is still open, and the motorist was given a link. */
  predicate Payable(row: Payment, v: View) {
    v.transactionKnown && v.transaction.Some? && v.transaction.value !in {"success", "failed", "reversed"} && row.checkoutUrl.Some?
  }

  function VerifyCollection(t: Table, id: PaymentId, now: int, v: View): (o: Outcome)
    requires id in t
    ensures Touches(t, id, o.rows)
  {
    if !v.transactionKnown then Outcome(BackOff(t, id, now), [])
    else var t' := C.VerifyCollection(t, id, now, C.Answer(v.transaction, t[id].checkoutUrl.Some?));
      Outcome(t', if t[id].kind == BALANCE && !v.cancelled && Payable(t[id], v) then [SendLink(id)] else Notices(t, t', id))
  }

  /** Applies a transfer answer and backs off while the transfer is still moving. */
  function SettleTransfer(t: Table, id: PaymentId, now: int, reply: P.Reply): (o: Outcome)
    requires id in t
    ensures Touches(t, id, o.rows)
  {
    var t' := P.ApplyReply(t, P.Verifier, id, reply);
    if reply.Ambiguous? || reply.NotFound? || (reply.Rejected? && reply.duplicate) ||
       (reply.Accepted? && MapTransferStatus(reply.status).status == SUBMITTED)
    then Outcome(BackOff(t', id, now), [])
    else Outcome(t', Notices(t, t', id))
  }

  /** Not found is never final for a payout: the same reference is posted again, until
      enough attempts have passed to tell a human instead. */
  function VerifyPayout(t: Table, id: PaymentId, now: int, v: View): (o: Outcome)
    requires id in t
    ensures Touches(t, id, o.rows)
  {
    if v.transferRead.Ambiguous? || v.transferRead.Rejected? then Outcome(BackOff(t, id, now), [])
    else if v.transferRead.NotFound? then
      if t[id].verifyAttempts >= MAX_VERIFY_ATTEMPTS || !v.canInitiate
      then Outcome(BackOff(t, id, now), [Escalate(id)])
      else var posted := SettleTransfer(t, id, now, v.transferPost);
        Outcome(posted.rows, [PostTransfer(id)] + posted.log)
    else SettleTransfer(t, id, now, v.transferRead)
  }

  /** Read-only: no branch posts. */
  function VerifyRefund(t: Table, id: PaymentId, now: int, v: View): (o: Outcome)
    requires id in t
    ensures Touches(t, id, o.rows)
  {
    var atLimit := if t[id].verifyAttempts >= MAX_VERIFY_ATTEMPTS then [Escalate(id)] else [];
    match v.refundSearch
    case NoDeposit => Outcome(BackOff(t, id, now), atLimit)
    case NoReference => Outcome(BackOff(t, id, now), [Escalate(id)])
    case ListFailed => Outcome(BackOff(t, id, now), [])
    case NoMatch => Outcome(BackOff(t, id, now), atLimit)
    case Match(number, status) =>
      var t' := R.ApplyReply(t, R.Verifier, id, R.Accepted(number, status));
      Outcome(if MapRefundStatus(status).status == SUBMITTED then BackOff(t', id, now) else t', [])
  }

  function Verify(t: Table, id: PaymentId, now: int, v: View): (o: Outcome)
    requires id in t
    ensures Touches(t, id, o.rows)
  {
    if t[id].status != SUBMITTED then Outcome(t, [])
    else match t[id].kind
      case DEPOSIT => VerifyCollection(t, id, now, v)
      case BALANCE => VerifyCollection(t, id, now, v)
      case PAYOUT => VerifyPayout(t, id, now, v)
      case REFUND => VerifyRefund(t, id, now, v)
  }

  function Process(t: Table, id: PaymentId, now: int, v: View): (o: Outcome)
    requires id in t
    ensures Touches(t, id, o.rows)
  {
    if t[id].status == PENDING then Initiate(t, id, now, v) else Verify(t, id, now, v)
  }

  predicate IsPost(a: Action) { a.PostCheckout? || a.PostTransfer? || a.PostRefund? }

  /** The calls that move money, without what follows them. */
  function Calls(log: seq<Action>): seq<Action> {
    if log == [] then [] else (if IsPost(log[0]) then [log[0]] else []) + Calls(log[1..])
  }

  lemma {:induction false} CallsAreLogged(log: seq<Action>, a: Action)
    ensures multiset(Calls(log))[a] == if IsPost(a) then multiset(log)[a] else 0
    ensures a in Calls(log) <==> a in log && IsPost(a)
  {
    if log != [] {
      CallsAreLogged(log[1..], a);
      assert log == [log[0]] + log[1..];
    }
  }

  /** The try block around one row. */
  function Attempt(t: Table, id: PaymentId, now: int, v: View): (o: Outcome)
    requires id in t
    ensures Touches(t, id, o.rows)
  {
    match v.fate
    case ThrowsFirst => Outcome(t, [])
    case ThrowsAfterClaim(called) =>
      Outcome(Claim(t, id, now), if called then Calls(Process(t, id, now, v).log) else [])
    case _ => Process(t, id, now, v)
  }

  /** The verification gets to the end of its writes. */
  predicate RunsThrough(v: View) { v.fate.Completes? || v.fate.ThrowsLast? }

  /** The exception came before the row was written. */
  predicate LeftAlone(row: Payment, v: View) {
    v.fate.ThrowsFirst? || (v.fate.ThrowsAfterClaim? && row.status != PENDING)
  }

  // ---- The pass -------------------------------------------------------------------

  const MAX_PER_PASS := 100

  ghost predicate Runnable(t: Table, due: seq<PaymentId>, views: map<PaymentId, View>, now: int) {
    && (forall id | id in due :: Due(t, id, now) && id in views)
    && (forall i, j | 0 <= i < j < |due| :: due[i] != due[j])
  }

  /** The rows and the log after the first rows of the pass. */
  function Pass(t: Table, due: seq<PaymentId>, views: map<PaymentId, View>, now: int): (o: Outcome)
    requires forall id | id in due :: id in t && id in views
    ensures o.rows.Keys == t.Keys
  {
    if due == [] then Outcome(t, [])
    else
      var id := due[|due| - 1];
      var before := Pass(t, due[..|due| - 1], views, now);
      var o := Attempt(before.rows, id, now, views[id]);
      Outcome(o.rows, before.log + o.log)
  }

  /** A settled, blocked or rescheduled row, and every ledger rule intact. */
  ghost predicate Handled(t: Table, id: PaymentId, now: int) { Consistent(t) && !Due(t, id, now) }

  lemma BackOffHandles(t: Table, id: PaymentId, now: int)
    requires Consistent(t)
    ensures Handled(BackOff(t, id, now), id, now)
  {
    ApplyKeepsConsistent(t, Op.Postpone(id, now));
  }

  lemma SettleHandles(t: Table, id: PaymentId, now: int, mapped: MappedStatus)
    requires Consistent(t) && id in t && Claimable(t[id].status) && WellFormed(mapped)
    requires mapped.status in {SUCCEEDED, FAILED, REVERSED}
    ensures Handled(ClaimTerminal(t, id, mapped), id, now)
  {
    ApplyKeepsConsistent(t, Settle(id, mapped));
  }

  lemma BlockHandles(t: Table, id: PaymentId, now: int, reason: BlockReason)
    requires Consistent(t) && id in t && t[id].status == SUBMITTED
    ensures Handled(RecordBlocked(t, id, reason), id, now)
  {
    ApplyKeepsConsistent(t, Block(id, reason));
  }

  lemma RejectHandles(t: Table, id: PaymentId, now: int)
    requires Consistent(t) && id in t && t[id].status == SUBMITTED
    ensures Handled(RecordRejection(t, id, None), id, now)
  {
    ApplyKeepsConsistent(t, Reject(id));
  }

  lemma CollectionHandled(t: Table, id: PaymentId, now: int, v: View)
    requires Consistent(t) && id in t && t[id].status == SUBMITTED
    ensures Handled(VerifyCollection(t, id, now, v).rows, id, now)
  {
    BackOffHandles(t, id, now);
    SettleHandles(t, id, now, Plain(FAILED));
    if v.transaction.Some? && MapTransactionStatus(v.transaction.value).status != SUBMITTED {
      SettleHandles(t, id, now, MapTransactionStatus(v.transaction.value));
    }
  }

  lemma TransferHandled(t: Table, id: PaymentId, now: int, reply: P.Reply)
    requires Consistent(t) && id in t && t[id].status == SUBMITTED
    ensures Handled(SettleTransfer(t, id, now, reply).rows, id, now)
  {
    BackOffHandles(t, id, now);
    if reply.Rejected? {
      BlockHandles(t, id, now, reply.reason);
    } else if reply.Accepted? {
      var mapped := MapTransferStatus(reply.status);
      if mapped.status == BLOCKED {
        BlockHandles(t, id, now, mapped.blockReason.value);
      } else if mapped.status != SUBMITTED {
        SettleHandles(t, id, now, mapped);
      }
    }
  }

  /** A refund answer keeps the ledger's rules and ends or blocks the row unless the refund
      is still moving. */
  lemma RefundReplyHandled(t: Table, id: PaymentId, now: int, number: nat, status: string)
    requires Consistent(t) && id in t && t[id].status == SUBMITTED
    ensures var t' := R.ApplyReply(t, R.Verifier, id, R.Accepted(number, status));
            Consistent(t') && (MapRefundStatus(status).status != SUBMITTED ==> !Due(t', id, now))
  {
    var adopted := R.Adopt(t, id, number);
    LawfulKeepsConsistent(t, id, adopted[id]);
    var mapped := MapRefundStatus(status);
    if mapped.status == BLOCKED {
      BlockHandles(adopted, id, now, mapped.blockReason.value);
    } else if mapped.status != SUBMITTED {
      SettleHandles(adopted, id, now, mapped);
    }
  }

  lemma VerifyHandled(t: Table, id: PaymentId, now: int, v: View)
    requires Consistent(t) && id in t && t[id].status == SUBMITTED
    ensures Handled(Verify(t, id, now, v).rows, id, now)
  {
    BackOffHandles(t, id, now);
    hide Handled, Consistent, VerifyCollection, SettleTransfer;
    match t[id].kind
    case DEPOSIT => CollectionHandled(t, id, now, v);
    case BALANCE => CollectionHandled(t, id, now, v);
    case PAYOUT =>
      TransferHandled(t, id, now, v.transferPost);
      TransferHandled(t, id, now, v.transferRead);
    case REFUND =>
      if v.refundSearch.Match? {
        var number, status := v.refundSearch.number, v.refundSearch.status;
        RefundReplyHandled(t, id, now, number, status);
        BackOffHandles(R.ApplyReply(t, R.Verifier, id, R.Accepted(number, status)), id, now);
      }
  }

  lemma InitiateHandled(t: Table, id: PaymentId, now: int, v: View)
    requires Consistent(t) && id in t && t[id].status == PENDING
    ensures Handled(Initiate(t, id, now, v).rows, id, now)
  {
    ApplyKeepsConsistent(t, Submit(id, now));
    var claimed := Claim(t, id, now);
    hide Consistent;
    match t[id].kind
    case DEPOSIT => InitiateCollectionHandled(claimed, id, now, v);
    case BALANCE => InitiateCollectionHandled(claimed, id, now, v);
    case PAYOUT => InitiatePayoutHandled(claimed, id, now, v);
    case REFUND => InitiateRefundHandled(claimed, id, now, v);
  }

  lemma InitiateCollectionHandled(t: Table, id: PaymentId, now: int, v: View)
    requires Consistent(t) && id in t && t[id].status == SUBMITTED && now <= t[id].verifyAfter
    ensures Handled(InitiateCollection(t, id, v).rows, id, now)
  {
    RejectHandles(t, id, now);
    if v.checkout.Link? { ApplyKeepsConsistent(t, Op.Link(id, v.checkout.url)); }
  }

  lemma InitiateRefundHandled(t: Table, id: PaymentId, now: int, v: View)
    requires Consistent(t) && id in t && t[id].status == SUBMITTED && now <= t[id].verifyAfter
    ensures Handled(InitiateRefund(t, id, v).rows, id, now)
  {
    RejectHandles(t, id, now);
    if v.refundPost.Accepted? { RefundReplyHandled(t, id, now, v.refundPost.number, v.refundPost.status); }
  }

  lemma InitiatePayoutHandled(t: Table, id: PaymentId, now: int, v: View)
    requires Consistent(t) && id in t && t[id].status == SUBMITTED && now <= t[id].verifyAfter
    ensures Handled(InitiatePayout(t, id, v).rows, id, now)
  {
    if v.transferPost.Rejected? {
      BlockHandles(t, id, now, v.transferPost.reason);
    } else if v.transferPost.Accepted? {
      var mapped := MapTransferStatus(v.transferPost.status);
      if mapped.status == BLOCKED {
        BlockHandles(t, id, now, mapped.blockReason.value);
      } else if mapped.status != SUBMITTED {
        SettleHandles(t, id, now, mapped);
      }
    }
  }

  /** Processing a due row leaves it ended, blocked or rescheduled: never due again at the
      same instant, with every ledger rule intact. */
  lemma ProcessHandles(t: Table, id: PaymentId, now: int, v: View)
    requires Consistent(t) && Due(t, id, now)
    ensures Handled(Process(t, id, now, v).rows, id, now)
  {
    if t[id].status == PENDING { InitiateHandled(t, id, now, v); } else { VerifyHandled(t, id, now, v); }
  }

  /** A row is due again at the same instant exactly when an exception left it alone. */
  lemma AttemptHandles(t: Table, id: PaymentId, now: int, v: View)
    requires Consistent(t) && Due(t, id, now)
    ensures var t' := Attempt(t, id, now, v).rows;
            Consistent(t') && (Due(t', id, now) <==> LeftAlone(t[id], v)) && (LeftAlone(t[id], v) ==> t' == t)
  {
    hide Process, Consistent;
    ProcessHandles(t, id, now, v);
    ApplyKeepsConsistent(t, Submit(id, now));
  }

  /** After a whole pass the rows it looked at are still due exactly where an exception left
      them alone, and nothing else moved: one bad row never holds up the others. */
  lemma {:induction false} PassLeavesNothingDue(t: Table, due: seq<PaymentId>, views: map<PaymentId, View>, now: int)
    requires Consistent(t) && Runnable(t, due, views, now)
    ensures var t' := Pass(t, due, views, now).rows;
            Consistent(t') && (forall id | id in due :: Due(t', id, now) <==> LeftAlone(t[id], views[id])) &&
            (forall id | id in t && id !in due :: t'[id] == t[id])
  {
    hide Attempt, Consistent, LeftAlone;
    if due != [] {
      var init, id := due[..|due| - 1], due[|due| - 1];
      assert forall j | j in init :: j in due;
      PassLeavesNothingDue(t, init, views, now);
      var before := Pass(t, init, views, now);
      assert id in due && id !in init && before.rows[id] == t[id];
      AttemptHandles(before.rows, id, now, views[id]);
      assert forall j | j in due :: j in init || j == id;
    }
  }

  /** What one row's processing may log: actions on that row, a refund post only when it was
      PENDING, a confirmation only when it has just succeeded. */
  ghost predicate HonestLog(t: Table, t': Table, id: PaymentId, a: Action)
    requires id in t && id in t'
  {
    && a.id == id
    && (a.PostRefund? ==> t[id].status == PENDING)
    && (a.ConfirmCollection? || a.NotifyPayout? ==> t[id].status != SUCCEEDED && t'[id].status == SUCCEEDED)
  }

  lemma AttemptLogsHonestly(t: Table, id: PaymentId, now: int, v: View)
    requires id in t
    ensures var o := Attempt(t, id, now, v); forall a | a in o.log :: HonestLog(t, o.rows, id, a)
  {
    hide Initiate, Verify, Calls;
    if t[id].status == PENDING { InitiateLogsHonestly(t, id, now, v); } else { VerifyLogsHonestly(t, id, now, v); }
    forall a | a in Calls(Process(t, id, now, v).log) ensures a in Process(t, id, now, v).log && IsPost(a) {
      CallsAreLogged(Process(t, id, now, v).log, a);
    }
  }

  lemma InitiateLogsHonestly(t: Table, id: PaymentId, now: int, v: View)
    requires id in t && t[id].status == PENDING
    ensures var o := Initiate(t, id, now, v); forall a | a in o.log :: HonestLog(t, o.rows, id, a)
  {
    hide P.ApplyReply, R.ApplyReply;
  }

  lemma VerifyLogsHonestly(t: Table, id: PaymentId, now: int, v: View)
    requires id in t && t[id].status != PENDING
    ensures var o := Verify(t, id, now, v); forall a | a in o.log :: HonestLog(t, o.rows, id, a)
  {
    hide P.ApplyReply, R.ApplyReply, C.VerifyCollection;
  }

  /** A pass posts refunds only for rows that were PENDING, confirms only rows that it turned
      SUCCEEDED, and acts on no other row. */
  lemma {:induction false} PassLogsHonestly(t: Table, due: seq<PaymentId>, views: map<PaymentId, View>, now: int)
    requires Consistent(t) && Runnable(t, due, views, now)
    ensures var o := Pass(t, due, views, now);
            forall a | a in o.log :: a.id in due && HonestLog(t, o.rows, a.id, a)
  {
    if due != [] {
      var init, id := due[..|due| - 1], due[|due| - 1];
      assert forall j | j in init :: j in due;
      PassLogsHonestly(t, init, views, now);
      PassLeavesNothingDue(t, init, views, now);
      var before := Pass(t, init, views, now);
      assert id in due && id !in init && before.rows[id] == t[id];
      AttemptLogsHonestly(before.rows, id, now, views[id]);
    }
  }

  // ---- What a pass owes ---------------------------------------------------------------

  /** What the row's answer calls for, whether or not anything logged it. A collection or payout
      that has just succeeded is passed on; a row that was never submitted is posted, or told to
      a human when it cannot be; a payout nobody knows is posted again until the limit; the
      motorist is sent every fresh link, and the balance's as long as it can still be paid. */
  ghost predicate Owed(row: Payment, row': Payment, v: View, a: Action) {
    var collection := row.kind == DEPOSIT || row.kind == BALANCE;
    var unsent := row.status == PENDING;
    var startable := v.canInitiate && (row.kind == DEPOSIT ==> v.operatorAssigned);
    var settled := row.status != SUCCEEDED && row'.status == SUCCEEDED;
    var exhausted := row.verifyAttempts >= 8;
    match a
    case PostCheckout(_) => collection && unsent && startable
    case SendLink(_) =>
      if unsent then collection && startable && v.checkout.Link? else row.kind == BALANCE && !v.cancelled && Payable(row, v)
    case PostTransfer(_) =>
      row.kind == PAYOUT && v.canInitiate && (unsent || (v.transferRead.NotFound? && !exhausted))
    case PostRefund(_) => row.kind == REFUND && unsent && v.canInitiate
    case ConfirmCollection(_) => collection && settled
    case NotifyPayout(_) => row.kind == PAYOUT && settled
    case Escalate(_) =>
      if unsent then !startable
      else if row.kind == PAYOUT then v.transferRead.NotFound? && (exhausted || !v.canInitiate)
      else row.kind == REFUND &&
           (v.refundSearch.NoReference? || (exhausted && (v.refundSearch.NoDeposit? || v.refundSearch.NoMatch?)))
  }

  /** An exception cuts this short: before anything, or to the call alone. */
  ghost predicate Logged(row: Payment, row': Payment, v: View, a: Action) {
    match v.fate
    case ThrowsFirst => false
    case ThrowsAfterClaim(called) => called && IsPost(a) && Owed(row, row', v, a)
    case _ => Owed(row, row', v, a)
  }

  /** A log holds each action of one row that is owed exactly once, and no other action of it. */
  ghost predicate LogsExactly(log: seq<Action>, id: PaymentId, row: Payment, row': Payment, v: View) {
    forall a: Action :: a.id == id ==> multiset(log)[a] == if Owed(row, row', v, a) then 1 else 0
  }

  lemma CheckoutOwes(t: Table, id: PaymentId, now: int, v: View)
    requires id in t && t[id].status == PENDING && t[id].kind in {DEPOSIT, BALANCE}
    ensures var o := Initiate(t, id, now, v); LogsExactly(o.log, id, t[id], o.rows[id], v)
  {
    hide InitiatePayout, InitiateRefund;
  }

  lemma TransferOwes(t: Table, id: PaymentId, now: int, v: View)
    requires id in t && t[id].status == PENDING && t[id].kind == PAYOUT
    ensures var o := Initiate(t, id, now, v); LogsExactly(o.log, id, t[id], o.rows[id], v)
  {
    hide InitiateCollection, InitiateRefund, P.ApplyReply;
  }

  lemma RefundOwes(t: Table, id: PaymentId, now: int, v: View)
    requires id in t && t[id].status == PENDING && t[id].kind == REFUND
    ensures var o := Initiate(t, id, now, v); LogsExactly(o.log, id, t[id], o.rows[id], v)
  {
    hide InitiateCollection, InitiatePayout, R.ApplyReply;
  }

  lemma VerifiedCollectionOwes(t: Table, id: PaymentId, now: int, v: View)
    requires id in t && t[id].status == SUBMITTED && t[id].kind in {DEPOSIT, BALANCE}
    ensures var o := Verify(t, id, now, v); LogsExactly(o.log, id, t[id], o.rows[id], v)
  {
    hide VerifyPayout, VerifyRefund;
  }

  lemma VerifiedPayoutOwes(t: Table, id: PaymentId, now: int, v: View)
    requires id in t && t[id].status == SUBMITTED && t[id].kind == PAYOUT
    ensures var o := Verify(t, id, now, v); LogsExactly(o.log, id, t[id], o.rows[id], v)
  {
    PayoutLog(t, id, now, v);
    hide Verify;
  }

  lemma PayoutLog(t: Table, id: PaymentId, now: int, v: View)
    requires id in t && t[id].status == SUBMITTED && t[id].kind == PAYOUT
    ensures var o := Verify(t, id, now, v);
            var notice := if o.rows[id].status == SUCCEEDED then [NotifyPayout(id)] else [];
            o.log == if !v.transferRead.NotFound? then notice
                     else if t[id].verifyAttempts >= 8 || !v.canInitiate then [Escalate(id)]
                     else [PostTransfer(id)] + notice
    ensures v.transferRead.NotFound? && (t[id].verifyAttempts >= 8 || !v.canInitiate) ==> Verify(t, id, now, v).rows[id].status == SUBMITTED
  {
    SettlingOwes(t, id, now, v.transferRead);
    SettlingOwes(t, id, now, v.transferPost);
    hide VerifyCollection, VerifyRefund, SettleTransfer;
  }

  /** Classifying an answer notifies exactly when the payout has just succeeded. */
  lemma SettlingOwes(t: Table, id: PaymentId, now: int, reply: P.Reply)
    requires id in t && t[id].status == SUBMITTED && t[id].kind == PAYOUT
    ensures var o := SettleTransfer(t, id, now, reply);
            o.log == if o.rows[id].status == SUCCEEDED then [NotifyPayout(id)] else []
  {
  }

  lemma VerifiedRefundOwes(t: Table, id: PaymentId, now: int, v: View)
    requires id in t && t[id].status == SUBMITTED && t[id].kind == REFUND
    ensures var o := Verify(t, id, now, v); LogsExactly(o.log, id, t[id], o.rows[id], v)
  {
    hide VerifyCollection, VerifyPayout, R.ApplyReply;
  }

  lemma InitiateOwes(t: Table, id: PaymentId, now: int, v: View)
    requires id in t && t[id].status == PENDING
    ensures var o := Initiate(t, id, now, v); LogsExactly(o.log, id, t[id], o.rows[id], v)
  {
    hide Initiate, LogsExactly;
    match t[id].kind
    case DEPOSIT => CheckoutOwes(t, id, now, v);
    case BALANCE => CheckoutOwes(t, id, now, v);
    case PAYOUT => TransferOwes(t, id, now, v);
    case REFUND => RefundOwes(t, id, now, v);
  }

  lemma VerifyOwes(t: Table, id: PaymentId, now: int, v: View)
    requires id in t && t[id].status == SUBMITTED
    ensures var o := Verify(t, id, now, v); LogsExactly(o.log, id, t[id], o.rows[id], v)
  {
    hide Verify, LogsExactly;
    match t[id].kind
    case DEPOSIT => VerifiedCollectionOwes(t, id, now, v);
    case BALANCE => VerifiedCollectionOwes(t, id, now, v);
    case PAYOUT => VerifiedPayoutOwes(t, id, now, v);
    case REFUND => VerifiedRefundOwes(t, id, now, v);
  }

  lemma ProcessOwes(t: Table, id: PaymentId, now: int, v: View)
    requires id in t && t[id].status in {PENDING, SUBMITTED}
    ensures var o := Process(t, id, now, v); LogsExactly(o.log, id, t[id], o.rows[id], v)
  {
    hide Initiate, Verify, LogsExactly;
    if t[id].status == PENDING { InitiateOwes(t, id, now, v); } else { VerifyOwes(t, id, now, v); }
  }

  /** Over a whole pass the log holds, of every listed row, each action that is owed exactly once,
      cut short only by the row's own exception, and nothing else; of other rows nothing. */
  lemma {:induction false} PassLogsWhatIsOwed(t: Table, due: seq<PaymentId>, views: map<PaymentId, View>, now: int, a: Action)
    requires Consistent(t) && Runnable(t, due, views, now)
    ensures var o := Pass(t, due, views, now);
            multiset(o.log)[a] == if a.id in due && Logged(t[a.id], o.rows[a.id], views[a.id], a) then 1 else 0
  {
    hide Attempt, Logged, Consistent;
    if due != [] {
      var init, id := due[..|due| - 1], due[|due| - 1];
      assert forall j | j in init :: j in due;
      PassLogsWhatIsOwed(t, init, views, now, a);
      PassLeavesNothingDue(t, init, views, now);
      var before := Pass(t, init, views, now);
      assert id in due && id !in init && before.rows[id] == t[id];
      var o := Attempt(before.rows, id, now, views[id]);
      assert multiset(before.log + o.log) == multiset(before.log) + multiset(o.log);
      AttemptLogsHonestly(before.rows, id, now, views[id]);
      if a.id != id {
        assert a !in o.log && multiset(o.log)[a] == 0;
      } else {
        AttemptOwes(before.rows, id, now, views[id], a);
      }
      assert forall j | j in due :: j in init || j == id;
    }
  }

  lemma AttemptOwes(t: Table, id: PaymentId, now: int, v: View, a: Action)
    requires id in t && t[id].status in {PENDING, SUBMITTED} && a.id == id
    ensures var o := Attempt(t, id, now, v);
            multiset(o.log)[a] == if Logged(t[id], o.rows[id], v, a) then 1 else 0
  {
    var whole, o := Process(t, id, now, v), Attempt(t, id, now, v);
    ProcessOwes(t, id, now, v);
    hide Process, Owed, Claim, Calls;
    if v.fate.ThrowsAfterClaim? {
      CallsAreLogged(whole.log, a);
      PostsAreOwedUpFront(t[id], whole.rows[id], o.rows[id], v, a);
      assert o.log == if v.fate.called then Calls(whole.log) else [];
    }
  }

  /** Whether a call is owed does not depend on what becomes of the row. */
  lemma PostsAreOwedUpFront(row: Payment, row1: Payment, row2: Payment, v: View, a: Action)
    ensures IsPost(a) ==> (Owed(row, row1, v, a) <==> Owed(row, row2, v, a))
  {
  }

  // ---- What a pass writes -------------------------------------------------------------

  function BackedOff(row: Payment, now: int): Payment {
    row.(verifyAfter := now + BackOffGap(now - row.createdAt), verifyAttempts := row.verifyAttempts + 1)
  }

  /** A success beside one already stored is quarantined. */
  function Won(rival: bool): PaymentStatus { if rival then DUPLICATE_SUCCEEDED else SUCCEEDED }

  function Ended(row: Payment, status: PaymentStatus): Payment { row.(status := status, blockReason := None) }

  /** A transfer's or a refund's answer to the verifier. */
  function TransferWritten(row: Payment, rival: bool, reply: P.Reply): Payment {
    if rival && reply == P.Accepted("success") && Claimable(row.status) then Ended(row, DUPLICATE_SUCCEEDED)
    else P.AfterTransfer(row, P.Verifier, reply)
  }

  function RefundWritten(row: Payment, rival: bool, reply: R.Reply): Payment {
    if rival && reply.Accepted? && reply.status == "processed" && Claimable(row.status)
    then Ended(row.(providerRef := Some(Refund(reply.number))), DUPLICATE_SUCCEEDED)
    else R.AfterRefund(row, R.Verifier, reply)
  }

  function LaterIfMoving(row: Payment, now: int): Payment { if row.status == SUBMITTED then BackedOff(row, now) else row }

  function CollectionWritten(row: Payment, rival: bool, v: View, now: int): Payment {
    var sent := row.(status := SUBMITTED, verifyAfter := now + 60_000);
    if row.status == PENDING then
      if !v.canInitiate then sent
      else if (row.kind == DEPOSIT && !v.operatorAssigned) || v.checkout.Refused? then Ended(sent, FAILED)
      else if v.checkout.Link? then sent.(checkoutUrl := Some(v.checkout.url))
      else sent
    else if !v.transactionKnown then BackedOff(row, now)
    else if v.transaction == Some("success") then Ended(row, Won(rival))
    else if v.transaction == Some("reversed") then Ended(row, REVERSED)
    else if v.transaction == None || v.transaction == Some("failed") || row.checkoutUrl == None then Ended(row, FAILED)
    else BackedOff(row, now)
  }

  function PayoutWritten(row: Payment, rival: bool, v: View, now: int): Payment {
    var sent := row.(status := SUBMITTED, verifyAfter := now + 60_000);
    if row.status == PENDING then
      if v.canInitiate then TransferWritten(sent, rival, v.transferPost) else sent
    else if v.transferRead.Ambiguous? || v.transferRead.Rejected? then BackedOff(row, now)
    else if v.transferRead.NotFound? && (row.verifyAttempts >= 8 || !v.canInitiate) then BackedOff(row, now)
    else LaterIfMoving(TransferWritten(row, rival, if v.transferRead.NotFound? then v.transferPost else v.transferRead), now)
  }

  function RefundRowWritten(row: Payment, rival: bool, v: View, now: int): Payment {
    var sent := row.(status := SUBMITTED, verifyAfter := now + 60_000);
    if row.status == PENDING then
      if v.canInitiate then RefundWritten(sent, rival, v.refundPost) else sent
    else if !v.refundSearch.Match? then BackedOff(row, now)
    else LaterIfMoving(RefundWritten(row, rival, R.Accepted(v.refundSearch.number, v.refundSearch.status)), now)
  }

  /** What one row becomes, field by field: first claimed if it was never submitted, then as the
      world answers; a row that is still moving is asked after later. */
  function RowWritten(row: Payment, rival: bool, v: View, now: int): Payment {
    match row.kind
    case DEPOSIT => CollectionWritten(row, rival, v, now)
    case BALANCE => CollectionWritten(row, rival, v, now)
    case PAYOUT => PayoutWritten(row, rival, v, now)
    case REFUND => RefundRowWritten(row, rival, v, now)
  }

  /** What one row is left as: an exception before its writes leaves it alone, or claimed. */
  function RowLeft(row: Payment, rival: bool, v: View, now: int): Payment {
    if RunsThrough(v) then RowWritten(row, rival, v, now)
    else if LeftAlone(row, v) then row
    else row.(status := SUBMITTED, verifyAfter := now + 60_000)
  }

  lemma OwnChangeKeepsRivals(t: Table, id: PaymentId, row: Payment)
    requires id in t && SameSlot(t[id], row)
    ensures SucceededSibling(t[id := row], id) <==> SucceededSibling(t, id)
  {
    var t' := t[id := row];
    if j :| j in t && j != id && SameSlot(t[id], t[j]) && t[j].status == SUCCEEDED { assert SameSlot(t'[id], t'[j]); }
    if j :| j in t' && j != id && SameSlot(t'[id], t'[j]) && t'[j].status == SUCCEEDED { assert SameSlot(t[id], t[j]); }
  }

  lemma TransferWrites(t: Table, id: PaymentId, reply: P.Reply)
    requires id in t && t[id].status == SUBMITTED && t[id].blockReason == None
    ensures var t' := P.ApplyReply(t, P.Verifier, id, reply);
            id in t' && t'[id] == TransferWritten(t[id], SucceededSibling(t, id), reply)
  {
  }

  lemma RefundWrites(t: Table, id: PaymentId, reply: R.Reply)
    requires id in t && t[id].status == SUBMITTED && t[id].blockReason == None
    ensures var t' := R.ApplyReply(t, R.Verifier, id, reply);
            id in t' && t'[id] == RefundWritten(t[id], SucceededSibling(t, id), reply)
  {
    if reply.Accepted? {
      OwnChangeKeepsRivals(t, id, R.Adopt(t, id, reply.number)[id]);
    }
    hide SucceededSibling;
  }

  lemma CheckoutWrites(t: Table, id: PaymentId, now: int, v: View)
    requires id in t && t[id].status == PENDING && t[id].blockReason == None && t[id].kind in {DEPOSIT, BALANCE}
    ensures Initiate(t, id, now, v).rows[id] == CollectionWritten(t[id], SucceededSibling(t, id), v, now)
  {
    hide SucceededSibling, InitiatePayout, InitiateRefund;
  }

  lemma PayoutStartWrites(t: Table, id: PaymentId, now: int, v: View)
    requires id in t && t[id].status == PENDING && t[id].blockReason == None && t[id].kind == PAYOUT
    ensures Initiate(t, id, now, v).rows[id] == PayoutWritten(t[id], SucceededSibling(t, id), v, now)
  {
    var claimed := Claim(t, id, now);
    OwnChangeKeepsRivals(t, id, claimed[id]);
    TransferWrites(claimed, id, v.transferPost);
    hide P.ApplyReply, TransferWritten, SucceededSibling, InitiateCollection, InitiateRefund;
  }

  lemma RefundStartWrites(t: Table, id: PaymentId, now: int, v: View)
    requires id in t && t[id].status == PENDING && t[id].blockReason == None && t[id].kind == REFUND
    ensures Initiate(t, id, now, v).rows[id] == RefundRowWritten(t[id], SucceededSibling(t, id), v, now)
  {
    var claimed := Claim(t, id, now);
    OwnChangeKeepsRivals(t, id, claimed[id]);
    RefundWrites(claimed, id, v.refundPost);
    hide R.ApplyReply, RefundWritten, SucceededSibling, InitiateCollection, InitiatePayout;
  }

  lemma InitiateWrites(t: Table, id: PaymentId, now: int, v: View)
    requires id in t && t[id].status == PENDING && t[id].blockReason == None
    ensures Initiate(t, id, now, v).rows[id] == RowWritten(t[id], SucceededSibling(t, id), v, now)
  {
    hide Initiate, CollectionWritten, PayoutWritten, RefundRowWritten, SucceededSibling;
    match t[id].kind
    case DEPOSIT => CheckoutWrites(t, id, now, v);
    case BALANCE => CheckoutWrites(t, id, now, v);
    case PAYOUT => PayoutStartWrites(t, id, now, v);
    case REFUND => RefundStartWrites(t, id, now, v);
  }

  lemma EndWrites(t: Table, id: PaymentId, status: PaymentStatus)
    requires id in t && Claimable(t[id].status)
    ensures var t' := ClaimTerminal(t, id, Plain(status));
            id in t' && t'[id] == Ended(t[id], if status == SUCCEEDED then Won(SucceededSibling(t, id)) else status)
  {
    hide SucceededSibling;
  }

  lemma AnswerWrites(t: Table, id: PaymentId, now: int, found: string, hasLink: bool)
    requires id in t && t[id].status == SUBMITTED
    ensures var t' := C.VerifyCollection(t, id, now, C.Answer(Some(found), hasLink)); var rival := SucceededSibling(t, id);
            id in t' && t'[id] ==
              if found == "success" then Ended(t[id], Won(rival))
              else if found == "reversed" then Ended(t[id], REVERSED)
              else if found == "failed" || !hasLink then Ended(t[id], FAILED)
              else BackedOff(t[id], now)
  {
    EndWrites(t, id, MapTransactionStatus(found).status);
    EndWrites(t, id, FAILED);
    hide ClaimTerminal, SucceededSibling, Ended, Won, MapTransactionStatus, BackOffGap;
  }

  lemma VerifyCollectionWrites(t: Table, id: PaymentId, now: int, v: View)
    requires id in t && t[id].status == SUBMITTED
    ensures VerifyCollection(t, id, now, v).rows[id] == CollectionWritten(t[id], SucceededSibling(t, id), v, now)
  {
    hide Notices, SucceededSibling, Ended, Won;
    if v.transactionKnown {
      if v.transaction.Some? {
        AnswerWrites(t, id, now, v.transaction.value, t[id].checkoutUrl.Some?);
        hide C.VerifyCollection;
      } else {
        EndWrites(t, id, FAILED);
        hide ClaimTerminal;
      }
    }
  }

  lemma VerifyPayoutWrites(t: Table, id: PaymentId, now: int, v: View)
    requires id in t && t[id].status == SUBMITTED && t[id].blockReason == None
    ensures VerifyPayout(t, id, now, v).rows[id] == PayoutWritten(t[id], SucceededSibling(t, id), v, now)
  {
    SettleWrites(t, id, now, v.transferRead);
    SettleWrites(t, id, now, v.transferPost);
    hide SettleTransfer, TransferWritten, LaterIfMoving, SucceededSibling;
  }

  lemma VerifyRefundWrites(t: Table, id: PaymentId, now: int, v: View)
    requires id in t && t[id].status == SUBMITTED && t[id].blockReason == None
    ensures VerifyRefund(t, id, now, v).rows[id] == RefundRowWritten(t[id], SucceededSibling(t, id), v, now)
  {
    if v.refundSearch.Match? { RefundWrites(t, id, R.Accepted(v.refundSearch.number, v.refundSearch.status)); }
    hide R.ApplyReply, SucceededSibling;
  }

  lemma VerifyWrites(t: Table, id: PaymentId, now: int, v: View)
    requires id in t && t[id].status == SUBMITTED && t[id].blockReason == None
    ensures Verify(t, id, now, v).rows[id] == RowWritten(t[id], SucceededSibling(t, id), v, now)
  {
    hide VerifyCollection, VerifyPayout, VerifyRefund, CollectionWritten, PayoutWritten, RefundRowWritten, SucceededSibling;
    match t[id].kind
    case DEPOSIT => VerifyCollectionWrites(t, id, now, v);
    case BALANCE => VerifyCollectionWrites(t, id, now, v);
    case PAYOUT => VerifyPayoutWrites(t, id, now, v);
    case REFUND => VerifyRefundWrites(t, id, now, v);
  }

  lemma SettleWrites(t: Table, id: PaymentId, now: int, reply: P.Reply)
    requires id in t && t[id].status == SUBMITTED && t[id].blockReason == None
    ensures SettleTransfer(t, id, now, reply).rows[id] == LaterIfMoving(TransferWritten(t[id], SucceededSibling(t, id), reply), now)
  {
    TransferWrites(t, id, reply);
    hide SucceededSibling;
  }

  lemma ProcessWrites(t: Table, id: PaymentId, now: int, v: View)
    requires id in t && t[id].status in {PENDING, SUBMITTED} && t[id].blockReason == None
    ensures Process(t, id, now, v).rows[id] == RowWritten(t[id], SucceededSibling(t, id), v, now)
  {
    hide Initiate, Verify, RowWritten;
    if t[id].status == PENDING { InitiateWrites(t, id, now, v); } else { VerifyWrites(t, id, now, v); }
  }

  lemma PayoutKeepsSlot(row: Payment, rival: bool, v: View, now: int)
    ensures SameSlot(row, PayoutWritten(row, rival, v, now))
  {
  }

  lemma RefundKeepsSlot(row: Payment, rival: bool, v: View, now: int)
    ensures SameSlot(row, RefundRowWritten(row, rival, v, now))
  {
  }

  lemma WrittenKeepsSlot(row: Payment, rival: bool, v: View, now: int)
    ensures SameSlot(row, RowWritten(row, rival, v, now))
  {
    PayoutKeepsSlot(row, rival, v, now);
    RefundKeepsSlot(row, rival, v, now);
    hide PayoutWritten, RefundRowWritten;
  }

  lemma AttemptKeepsSlot(t: Table, id: PaymentId, now: int, v: View)
    requires id in t && t[id].status in {PENDING, SUBMITTED} && t[id].blockReason == None
    ensures SameSlot(t[id], Attempt(t, id, now, v).rows[id])
  {
    ProcessWrites(t, id, now, v);
    WrittenKeepsSlot(t[id], SucceededSibling(t, id), v, now);
    hide Process, RowWritten, SucceededSibling;
  }

  lemma {:induction false} PassKeepsSlots(t: Table, due: seq<PaymentId>, views: map<PaymentId, View>, now: int, id: PaymentId)
    requires Consistent(t) && Runnable(t, due, views, now) && id in t
    ensures SameSlot(t[id], Pass(t, due, views, now).rows[id])
  {
    if due != [] {
      var init, last := due[..|due| - 1], due[|due| - 1];
      assert forall j | j in init :: j in due;
      PassKeepsSlots(t, init, views, now, id);
      PassLeavesNothingDue(t, init, views, now);
      var before := Pass(t, init, views, now);
      assert last in due && last !in init && before.rows[last] == t[last];
      if id == last { AttemptKeepsSlot(before.rows, last, now, views[last]); }
      hide Attempt, Consistent;
    }
  }

  /** Two rows of one slot are never both due, so what a pass writes does not depend on the order
      of its rows: each becomes what it would have become alone. */
  lemma {:induction false} PassWritesEachRow(t: Table, due: seq<PaymentId>, views: map<PaymentId, View>, now: int, id: PaymentId)
    requires Consistent(t) && Runnable(t, due, views, now) && id in due
    ensures Pass(t, due, views, now).rows[id] == RowLeft(t[id], SucceededSibling(t, id), views[id], now)
  {
    hide Attempt, RowLeft, Consistent, SucceededSibling;
    var init, last := due[..|due| - 1], due[|due| - 1];
    assert forall j | j in init :: j in due;
    if id != last {
      assert id in init;
      PassWritesEachRow(t, init, views, now, id);
    } else {
      LastWritten(t, init, views, now, id);
    }
  }

  lemma LastWritten(t: Table, init: seq<PaymentId>, views: map<PaymentId, View>, now: int, id: PaymentId)
    requires Consistent(t) && Runnable(t, init, views, now) && Due(t, id, now) && id !in init && id in views
    ensures var before := Pass(t, init, views, now).rows;
            Attempt(before, id, now, views[id]).rows[id] == RowLeft(t[id], SucceededSibling(t, id), views[id], now)
  {
    var before := Pass(t, init, views, now).rows;
    PassLeavesNothingDue(t, init, views, now);
    forall j | j in t ensures SameSlot(t[j], before[j]) { PassKeepsSlots(t, init, views, now, j); }
    assert forall j | j in init :: j in t && InFlight(t[j].status);
    SameRivals(t, before, init, id);
    assert before[id] == t[id] && t[id].blockReason == None;
    hide Attempt, RowLeft, SucceededSibling, Consistent, Pass;
    AttemptWrites(before, id, now, views[id]);
  }

  lemma AttemptWrites(t: Table, id: PaymentId, now: int, v: View)
    requires id in t && t[id].status in {PENDING, SUBMITTED} && t[id].blockReason == None
    ensures Attempt(t, id, now, v).rows[id] == RowLeft(t[id], SucceededSibling(t, id), v, now)
  {
    ProcessWrites(t, id, now, v);
    hide Process, RowWritten, SucceededSibling;
  }

  lemma SameRivals(t: Table, t': Table, moved: seq<PaymentId>, id: PaymentId)
    requires OneInFlight(t) && id in t && InFlight(t[id].status) && id !in moved && t'.Keys == t.Keys
    requires forall j | j in moved :: j in t && InFlight(t[j].status)
    requires forall j | j in t && j !in moved :: t'[j] == t[j]
    requires forall j | j in t :: SameSlot(t[j], t'[j])
    ensures SucceededSibling(t', id) <==> SucceededSibling(t, id)
  {
  }

  lemma PassOneMore(t: Table, due: seq<PaymentId>, views: map<PaymentId, View>, now: int, k: nat)
    requires k < |due| && forall id | id in due :: id in t && id in views
    ensures forall id | id in due[..k] || id in due[..k + 1] :: id in t && id in views
    ensures var before := Pass(t, due[..k], views, now);
            var o := Attempt(before.rows, due[k], now, views[due[k]]);
            Pass(t, due[..k + 1], views, now) == Outcome(o.rows, before.log + o.log)
  {
    assert due[..k + 1][..k] == due[..k];
  }

  /** How many rows were processed without an exception. */
  function Acted(due: seq<PaymentId>, views: map<PaymentId, View>): (n: nat)
    requires forall id | id in due :: id in views
    ensures n <= |due|
  {
    if due == [] then 0
    else Acted(due[..|due| - 1], views) + (if views[due[|due| - 1]].fate.Completes? then 1 else 0)
  }

  lemma NothingYet(t: Table, views: map<PaymentId, View>, now: int)
    ensures Pass(t, [], views, now) == Outcome(t, []) && Acted([], views) == 0
  {
  }

  lemma ActedOneMore(due: seq<PaymentId>, views: map<PaymentId, View>, k: nat)
    requires k < |due| && forall id | id in due :: id in views
    ensures forall id | id in due[..k] || id in due[..k + 1] :: id in views
    ensures Acted(due[..k + 1], views) == Acted(due[..k], views) + (if views[due[k]].fate.Completes? then 1 else 0)
  {
    assert due[..k + 1][..k] == due[..k];
  }

  class PaymentVerifyCheck {
    var rows: Table
    var log: seq<Action>

    /** One row inside the try; false when it throws. */
    method ProcessRow(id: PaymentId, now: int, v: View) returns (ok: bool)
      requires id in rows
      modifies this
      ensures rows == Attempt(old(rows), id, now, v).rows && ok == v.fate.Completes?
      ensures log == old(log) + Attempt(old(rows), id, now, v).log
    {
      if v.fate.ThrowsFirst? { return false; }
      var o: Outcome;
      if rows[id].status == PENDING {
        o := Initiate(rows, id, now, v);
      } else {
        o := Verify(rows, id, now, v);
      }
      if v.fate.ThrowsAfterClaim? {
        rows := Claim(rows, id, now);
        log := log + if v.fate.called then Calls(o.log) else [];
        return false;
      }
      rows := o.rows;
      log := log + o.log;
      return v.fate.Completes?;
    }

    /** The loop: every row by itself; a row that throws is not counted. */
    method ProcessAll(due: seq<PaymentId>, views: map<PaymentId, View>, now: int) returns (acted: nat)
      requires forall id | id in due :: id in rows && id in views
      modifies this
      ensures acted == Acted(due, views) && Outcome(rows, log) == Pass(old(rows), due, views, now)
    {
      hide *;
      acted := 0;
      log := [];
      NothingYet(rows, views, now);
      assert due[..0] == [];
      var k := 0;
      while k < |due|
        invariant k <= |due| && forall id | id in due[..k] :: id in due
        invariant Outcome(rows, log) == Pass(old(rows), due[..k], views, now)
        invariant acted == Acted(due[..k], views)
      {
        PassOneMore(old(rows), due, views, now, k);
        ActedOneMore(due, views, k);
        var ok := ProcessRow(due[k], now, views[due[k]]);
        if ok { acted := acted + 1; }
        k := k + 1;
      }
      assert due[..k] == due;
    }

    /** The pass over at most a hundred of the due rows: a row that throws does not stop the
        others. Every row it looked at becomes what the world's answer calls for, whatever the
        order; what is owed is logged once. log is this pass's. */
    method Run(found: seq<PaymentId>, views: map<PaymentId, View>, now: int) returns (acted: nat)
      requires Consistent(rows) && Runnable(rows, found, views, now)
      modifies this
      ensures var due := found[..Min(100, |found|)];
              && acted == Acted(due, views) && Outcome(rows, log) == Pass(old(rows), due, views, now)
              && Consistent(rows) && rows.Keys == old(rows).Keys
              && (forall id | id in due :: Due(rows, id, now) <==> LeftAlone(old(rows)[id], views[id]))
              && (forall id | id in due ::
                    rows[id] == RowLeft(old(rows)[id], SucceededSibling(old(rows), id), views[id], now))
              && (forall id | id in rows && id !in due :: rows[id] == old(rows)[id])
              && (forall a: Action ::
                    multiset(log)[a] == if a.id in due && Logged(old(rows)[a.id], rows[a.id], views[a.id], a) then 1 else 0)
    {
      hide Attempt, Consistent, LeftAlone, RowLeft, Logged, SucceededSibling;
      var due := found[..Min(MAX_PER_PASS, |found|)];
      assert forall id | id in due :: id in found;
      PassLeavesNothingDue(rows, due, views, now);
      forall id | id in due ensures Pass(rows, due, views, now).rows[id] == RowLeft(rows[id], SucceededSibling(rows, id), views[id], now) {
        PassWritesEachRow(rows, due, views, now, id);
      }
      forall a: Action { PassLogsWhatIsOwed(rows, due, views, now, a); }
      acted := ProcessAll(due, views, now);
    }
  }
}
