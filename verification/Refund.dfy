/** Refunds: the provider takes no reference of ours, so nothing there rejects a second
    post. Safety rests on never posting twice and on adopting only the refund record that
    carries the row's own id as its note. */
module RefundProtocol {
  import opened Payments
  import opened Ledger

  datatype Caller = Service | Verifier

  datatype Record = Record(note: PaymentId, status: string)

  /** An answer to a post, or to a list (which can only find). */
  datatype Reply = Accepted(number: nat, status: string) | Rejected | Ambiguous

  /** posts holds the calls ever made, wire those still to arrive, once each; a second post
      of the same row would be lost in these sets, and PostsOnlyOnce shows there is none. */
  datatype World = World(
    rows: Table,
    posts: set<PaymentId>,
    wire: set<PaymentId>,
    records: seq<Record>,
    replies: set<(Caller, PaymentId, Reply)>,
    webhooks: set<(nat, string)>)

  predicate IsRefund(t: Table, id: PaymentId) { id in t && t[id].kind == REFUND }

  predicate Holding(s: PaymentStatus) { InFlight(s) || s == SUCCEEDED }

  predicate Holds(t: Table, request: RequestId, id: PaymentId) {
    IsRefund(t, id) && t[id].request == request && Holding(t[id].status)
  }

  function Adopt(t: Table, id: PaymentId, number: nat): Table {
    if id in t then t[id := t[id].(providerRef := Some(Refund(number)))] else t
  }

  /** submitDepositRefund never concludes success from its own call; applyRefundResult does. */
  function ApplyReply(t: Table, caller: Caller, id: PaymentId, reply: Reply): Table {
    match reply
    case Ambiguous => t
    case Rejected => RecordRejection(t, id, None)
    case Accepted(number, status) =>
      var adopted := Adopt(t, id, number);
      var mapped := MapRefundStatus(status);
      if mapped.status == BLOCKED then RecordBlocked(adopted, id, mapped.blockReason.value)
      else if mapped.status == FAILED || (mapped.status == SUCCEEDED && caller == Verifier)
      then ClaimTerminal(adopted, id, mapped)
      else adopted
  }

  /** findRefund: by the recorded refund number, else by the note if that row is a refund. */
  ghost function FindRefund(t: Table, number: nat, note: PaymentId): Option<PaymentId> {
    if exists id :: id in t && t[id].providerRef == Some(Refund(number)) then
      var id :| id in t && t[id].providerRef == Some(Refund(number)); Some(id)
    else if IsRefund(t, note) then Some(note)
    else None
  }

  datatype Step =
    | Insert(id: PaymentId, request: RequestId, amount: int, now: int)
    | Submit(caller: Caller, id: PaymentId, now: int, posts: bool)
    | Postpone(id: PaymentId, now: int)
    | HandleReply(caller: Caller, id: PaymentId, reply: Reply)
    | HandleWebhook(number: nat, status: string)
    | Land(caller: Caller, id: PaymentId, created: Option<string>, answered: bool)
    | Move(number: nat, status: string)
    | List(id: PaymentId, number: nat)
    | Notify(number: nat)
    | OtherRows(rows: Table)

  /** A processed or failed refund is over. */
  predicate CanMove(from: string, to: string) { from in {"processed", "failed"} ==> to == from }

  ghost predicate Enabled(w: World, step: Step) {
    match step
    // refundDeposit and the settlement both first see no live refund.
    case Insert(id, request, _, _) => id !in w.rows && !exists j :: Holds(w.rows, request, j)
    case Submit(_, id, _, _) => IsRefund(w.rows, id)
    case Postpone(id, _) => IsRefund(w.rows, id)
    case HandleReply(caller, id, reply) => (caller, id, reply) in w.replies
    case HandleWebhook(number, status) => (number, status) in w.webhooks
    case Land(_, id, _, _) => id in w.wire
    case Move(number, status) => number < |w.records| && CanMove(w.records[number].status, status)
    case List(id, number) =>
      IsRefund(w.rows, id) && w.rows[id].status == SUBMITTED &&
      number < |w.records| && w.records[number].note == id
    case Notify(number) => number < |w.records| && w.records[number].status in {"processed", "failed"}
    case OtherRows(rows) =>
      && (forall id :: IsRefund(rows, id) <==> IsRefund(w.rows, id))
      && (forall id | IsRefund(rows, id) :: rows[id] == w.rows[id])
      && (forall id | id in rows && rows[id].kind != REFUND && rows[id].providerRef.Some? ::
            !rows[id].providerRef.value.Refund?)
  }

  ghost function Next(w: World, step: Step): World
    requires Enabled(w, step)
  {
    match step
    case Insert(id, request, amount, now) => w.(rows := w.rows[id := NewRow(request, REFUND, amount, None, now)])
    case Submit(_, id, now, posts) =>
      if !CanClaim(w.rows, id) then w
      else if posts then
        w.(rows := Claim(w.rows, id, now), posts := w.posts + {id}, wire := w.wire + {id})
      else w.(rows := Claim(w.rows, id, now))
    case Postpone(id, now) => w.(rows := BackOff(w.rows, id, now))
    case HandleReply(caller, id, reply) => w.(rows := ApplyReply(w.rows, caller, id, reply))
    case HandleWebhook(number, status) =>
      (match FindRefund(w.rows, number, if number < |w.records| then w.records[number].note else "")
       case Some(id) => w.(rows := ClaimTerminal(w.rows, id, MapRefundStatus(status)))
       case None => w)
    case Land(caller, id, created, answered) =>
      var reply := if !answered then Ambiguous
                   else if created.Some? then Accepted(|w.records|, created.value) else Rejected;
      w.(wire := w.wire - {id},
         records := if created.Some? then w.records + [Record(id, created.value)] else w.records,
         replies := w.replies + {(caller, id, reply)})
    case Move(number, status) => w.(records := w.records[number := w.records[number].(status := status)])
    case List(id, number) =>
      w.(replies := w.replies + {(Verifier, id, Accepted(number, w.records[number].status))})
    case Notify(number) => w.(webhooks := w.webhooks + {(number, w.records[number].status)})
    case OtherRows(rows) => w.(rows := rows)
  }

  // ---- The invariant ----------------------------------------------------------

  ghost predicate OneHolder(t: Table) {
    forall i, j | IsRefund(t, i) && IsRefund(t, j) && i != j && t[i].request == t[j].request ::
      !(Holding(t[i].status) && Holding(t[j].status))
  }

  /** No post of this row can still create anything, and what it created, if anything, failed. */
  ghost predicate Dead(wire: set<PaymentId>, records: seq<Record>, id: PaymentId) {
    id !in wire && forall k | 0 <= k < |records| && records[k].note == id :: records[k].status == "failed"
  }

  ghost predicate Paid(records: seq<Record>, id: PaymentId) {
    exists k :: 0 <= k < |records| && records[k].note == id && records[k].status == "processed"
  }

  /** A refund number is only ever recorded on the row its note names. */
  predicate AdoptsOwn(records: seq<Record>, id: PaymentId, row: Payment) {
    row.providerRef.Some? && row.providerRef.value.Refund? ==>
      row.kind == REFUND && row.providerRef.value.number < |records| && records[row.providerRef.value.number].note == id
  }

  ghost predicate RowOk(w: World, id: PaymentId, row: Payment) {
    && AdoptsOwn(w.records, id, row)
    && (row.kind == REFUND ==>
          && (row.status == PENDING ==> id !in w.posts)
          && (row.status == FAILED ==> Dead(w.wire, w.records, id))
          && (row.status == SUCCEEDED ==> Paid(w.records, id))
          && row.status != REVERSED && row.status != DUPLICATE_SUCCEEDED)
  }

  predicate Truthful(w: World, number: nat, id: PaymentId, status: string) {
    && number < |w.records| && w.records[number].note == id
    && (status in {"processed", "failed"} ==> w.records[number].status == status)
  }

  ghost predicate PostsOk(w: World) {
    && (forall id | id in w.posts :: IsRefund(w.rows, id))
    && w.wire <= w.posts
    && (forall k | 0 <= k < |w.records| :: w.records[k].note in w.posts && w.records[k].note !in w.wire)
    && (forall j, k | 0 <= j < k < |w.records| :: w.records[j].note != w.records[k].note)
  }

  ghost predicate MessagesOk(w: World) {
    && (forall c, id, r | (c, id, r) in w.replies :: id in w.posts && id !in w.wire)
    && (forall c, id, r | (c, id, r) in w.replies && r.Accepted? :: Truthful(w, r.number, id, r.status))
    && (forall c, id | (c, id, Rejected) in w.replies :: Dead(w.wire, w.records, id))
    && (forall n, s | (n, s) in w.webhooks ::
          n < |w.records| && Truthful(w, n, w.records[n].note, s) && s in {"processed", "failed"})
  }

  ghost predicate Inv(w: World) {
    OneHolder(w.rows) && (forall id | id in w.rows :: RowOk(w, id, w.rows[id])) && PostsOk(w) && MessagesOk(w)
  }

  ghost predicate Init(w: World) {
    && (forall id :: !IsRefund(w.rows, id))
    && (forall id | id in w.rows && w.rows[id].providerRef.Some? :: !w.rows[id].providerRef.value.Refund?)
    && w.posts == {} && w.wire == {} && w.records == [] && w.replies == {} && w.webhooks == {}
  }

  /** One refund row may change only so. */
  ghost predicate Lawful(w: World, id: PaymentId, row: Payment) {
    && row.kind == REFUND
    && (id in w.rows ==> SameSlot(w.rows[id], row) && (Holding(row.status) ==> Holding(w.rows[id].status)))
    && (id !in w.rows ==> forall j :: !Holds(w.rows, row.request, j))
    && RowOk(w, id, row)
  }

  lemma LawfulKeepsInv(w: World, id: PaymentId, row: Payment)
    requires Inv(w) && Lawful(w, id, row)
    ensures Inv(w.(rows := w.rows[id := row]))
  {
    var t := w.rows[id := row];
    var w' := w.(rows := t);
    hide Dead, Paid;
    forall i, j | IsRefund(t, i) && IsRefund(t, j) && i != j && t[i].request == t[j].request
      ensures !(Holding(t[i].status) && Holding(t[j].status))
    {
      assert !Holds(w.rows, row.request, j) || id in w.rows;
      assert !Holds(w.rows, row.request, i) || id in w.rows;
    }
    forall i | i in t
      ensures RowOk(w', i, t[i])
    {
    }
  }

  lemma RowStep(w: World, id: PaymentId, rows: Table)
    requires Inv(w) && id in rows && rows == w.rows[id := rows[id]] && Lawful(w, id, rows[id])
    ensures Inv(w.(rows := rows))
  {
    LawfulKeepsInv(w, id, rows[id]);
  }

  /** A status the provider reported for this row's own record may be claimed. */
  lemma SettleKeepsInv(w: World, id: PaymentId, number: nat, status: string)
    requires Inv(w) && IsRefund(w.rows, id) && Truthful(w, number, id, status) && status in {"processed", "failed"}
    ensures Inv(w.(rows := ClaimTerminal(w.rows, id, MapRefundStatus(status))))
  {
    var rows := ClaimTerminal(w.rows, id, MapRefundStatus(status));
    if Claimable(w.rows[id].status) {
      assert !SucceededSibling(w.rows, id);
      assert status == "failed" ==> Dead(w.wire, w.records, id);
      assert status == "processed" ==> Paid(w.records, id);
      RowStep(w, id, rows);
    }
  }

  lemma AdoptKeepsInv(w: World, id: PaymentId, number: nat, status: string)
    requires Inv(w) && IsRefund(w.rows, id) && Truthful(w, number, id, status)
    ensures Inv(w.(rows := Adopt(w.rows, id, number)))
  {
    RowStep(w, id, Adopt(w.rows, id, number));
  }

  lemma AcceptedKeepsInv(w: World, caller: Caller, id: PaymentId, number: nat, status: string)
    requires Inv(w) && IsRefund(w.rows, id) && Truthful(w, number, id, status)
    ensures Inv(w.(rows := ApplyReply(w.rows, caller, id, Accepted(number, status))))
  {
    AdoptKeepsInv(w, id, number, status);
    var w1 := w.(rows := Adopt(w.rows, id, number));
    var mapped := MapRefundStatus(status);
    if mapped.status in {FAILED, SUCCEEDED} {
      SettleKeepsInv(w1, id, number, status);
    } else if mapped.status == BLOCKED {
      RowStep(w1, id, RecordBlocked(w1.rows, id, mapped.blockReason.value));
    }
  }

  lemma ReplyKeepsInv(w: World, caller: Caller, id: PaymentId, reply: Reply)
    requires Inv(w) && (caller, id, reply) in w.replies
    ensures Inv(w.(rows := ApplyReply(w.rows, caller, id, reply)))
  {
    match reply
    case Ambiguous =>
    case Rejected => RowStep(w, id, RecordRejection(w.rows, id, None));
    case Accepted(number, status) => AcceptedKeepsInv(w, caller, id, number, status);
  }

  /** A webhook reaches the row named by the record's note, by either way of finding it. */
  lemma WebhookFindsOwnRow(w: World, number: nat)
    requires Inv(w) && number < |w.records|
    ensures FindRefund(w.rows, number, w.records[number].note) == Some(w.records[number].note)
  {
  }

  lemma SubmitKeepsInv(w: World, step: Step)
    requires Inv(w) && Enabled(w, step) && step.Submit?
    ensures Inv(Next(w, step))
  {
    var id := step.id;
    if CanClaim(w.rows, id) {
      var w1 := w.(rows := Claim(w.rows, id, step.now));
      RowStep(w, id, w1.rows);
      if step.posts {
        assert RowOk(w, id, w.rows[id]);
        PostKeepsInv(w1, id);
      }
    }
  }

  lemma PostKeepsInv(w: World, id: PaymentId)
    requires Inv(w) && IsRefund(w.rows, id) && w.rows[id].status == SUBMITTED && id !in w.posts
    ensures Inv(w.(posts := w.posts + {id}, wire := w.wire + {id}))
  {
    var w' := w.(posts := w.posts + {id}, wire := w.wire + {id});
    forall i | i in w'.rows
      ensures RowOk(w', i, w'.rows[i])
    {
      assert RowOk(w, i, w.rows[i]);
    }
  }

  /** When only the provider moves, what it already decided must stand. */
  lemma ProviderStep(w: World, w': World)
    requires Inv(w) && w'.rows == w.rows && w'.posts == w.posts && w'.wire <= w.wire
    requires |w.records| <= |w'.records|
    requires forall k | 0 <= k < |w.records| :: w'.records[k].note == w.records[k].note && CanMove(w.records[k].status, w'.records[k].status)
    requires forall k | |w.records| <= k < |w'.records| :: w'.records[k].note in w.wire && w'.records[k].note !in w'.wire
    ensures forall id | id in w'.rows :: RowOk(w', id, w'.rows[id])
    ensures forall id | Dead(w.wire, w.records, id) :: Dead(w'.wire, w'.records, id)
  {
  }

  lemma LandKeepsInv(w: World, step: Step)
    requires Inv(w) && Enabled(w, step) && step.Land?
    ensures Inv(Next(w, step))
  {
    ProviderStep(w, Next(w, step));
    LandKeepsPosts(w, step);
    LandKeepsMessages(w, step);
    hide PostsOk, MessagesOk, RowOk, Dead;
  }

  lemma LandKeepsPosts(w: World, step: Step)
    requires PostsOk(w) && Enabled(w, step) && step.Land?
    ensures PostsOk(Next(w, step))
  {
  }

  lemma LandKeepsMessages(w: World, step: Step)
    requires PostsOk(w) && MessagesOk(w) && Enabled(w, step) && step.Land?
    ensures MessagesOk(Next(w, step))
  {
  }

  /** Every step of every party keeps the invariant. */
  lemma NextKeepsInv(w: World, step: Step)
    requires Inv(w) && Enabled(w, step)
    ensures Inv(Next(w, step))
  {
    hide Inv;
    match step
    case Insert(_, _, _, _) => StoredStepKeepsInv(w, step);
    case Postpone(_, _) => StoredStepKeepsInv(w, step);
    case Submit(_, _, _, _) => SubmitKeepsInv(w, step);
    case HandleReply(caller, id, reply) => ReplyKeepsInv(w, caller, id, reply);
    case HandleWebhook(number, status) => WebhookKeepsInv(w, number, status);
    case Land(_, _, _, _) => LandKeepsInv(w, step);
    case Move(_, _) => ProviderKeepsInv(w, step);
    case List(_, _) => ProviderKeepsInv(w, step);
    case Notify(_) => ProviderKeepsInv(w, step);
    case OtherRows(rows) => OtherRowsKeepInv(w, rows);
  }

  lemma WebhookKeepsInv(w: World, number: nat, status: string)
    requires Inv(w) && Enabled(w, HandleWebhook(number, status))
    ensures Inv(Next(w, HandleWebhook(number, status)))
  {
    WebhookFindsOwnRow(w, number);
    SettleKeepsInv(w, w.records[number].note, number, status);
  }

  lemma StoredStepKeepsInv(w: World, step: Step)
    requires Inv(w) && Enabled(w, step) && (step.Insert? || step.Postpone?)
    ensures Inv(Next(w, step))
  {
    RowStep(w, step.id, Next(w, step).rows);
  }

  lemma ProviderKeepsInv(w: World, step: Step)
    requires Inv(w) && Enabled(w, step) && (step.Move? || step.List? || step.Notify?)
    ensures Inv(Next(w, step))
  {
    ProviderStep(w, Next(w, step));
  }

  lemma OtherRowsKeepInv(w: World, rows: Table)
    requires Inv(w) && Enabled(w, OtherRows(rows))
    ensures Inv(w.(rows := rows))
  {
    var w' := w.(rows := rows);
    forall id | id in rows
      ensures RowOk(w', id, rows[id])
    {
      assert IsRefund(rows, id) ==> RowOk(w, id, rows[id]);
    }
  }

  // ---- Whole runs -------------------------------------------------------------

  ghost predicate IsRun(ws: seq<World>, steps: seq<Step>) {
    && |ws| == |steps| + 1 && Init(ws[0])
    && (forall k | 0 <= k < |steps| :: Enabled(ws[k], steps[k]) && ws[k + 1] == Next(ws[k], steps[k]))
  }

  lemma {:induction false} RunKeepsInv(ws: seq<World>, steps: seq<Step>, k: nat)
    requires IsRun(ws, steps) && k < |ws|
    ensures Inv(ws[k])
  {
    if k == 0 {
      forall id | id in ws[0].rows
        ensures RowOk(ws[0], id, ws[0].rows[id])
      {
        assert !IsRefund(ws[0].rows, id);
      }
    } else {
      RunKeepsInv(ws, steps, k - 1);
      NextKeepsInv(ws[k - 1], steps[k - 1]);
    }
  }

  /** The step in which the provider is called for a row. */
  predicate Posts(w: World, step: Step, id: PaymentId) {
    step.Submit? && step.id == id && step.posts && CanClaim(w.rows, id)
  }

  lemma {:induction false} PostedStays(ws: seq<World>, steps: seq<Step>, j: nat, k: nat, id: PaymentId)
    requires IsRun(ws, steps) && j <= k < |ws| && id in ws[j].posts
    ensures id in ws[k].posts
  {
    if j < k { PostedStays(ws, steps, j, k - 1, id); }
  }

  /** A refund row is posted once: no run has two posting steps for the same row, whichever
      callers make them. */
  lemma PostsOnlyOnce(ws: seq<World>, steps: seq<Step>, j: nat, k: nat, id: PaymentId)
    requires IsRun(ws, steps) && j < k < |steps|
    requires Posts(ws[j], steps[j], id)
    ensures !Posts(ws[k], steps[k], id)
  {
    PostedStays(ws, steps, j + 1, k, id);
    RunKeepsInv(ws, steps, k);
  }

  /** However many admins, reconcilers, crashes and lost replies: the provider holds at most
      one record with a row's note, and per request at most one that has not failed. */
  lemma RefundedAtMostOnce(ws: seq<World>, steps: seq<Step>, k: nat, i: nat, j: nat)
    requires IsRun(ws, steps) && k < |ws| && i < j < |ws[k].records|
    ensures var w := ws[k]; var a, b := w.records[i].note, w.records[j].note;
            a != b && IsRefund(w.rows, a) && IsRefund(w.rows, b) &&
            (w.rows[a].request == w.rows[b].request ==> w.records[i].status == "failed" || w.records[j].status == "failed")
  {
    RunKeepsInv(ws, steps, k);
    var w := ws[k];
    var a, b := w.records[i].note, w.records[j].note;
    assert a in w.posts && b in w.posts;
    assert RowOk(w, a, w.rows[a]) && RowOk(w, b, w.rows[b]);
  }

  /** Recovery adopts only its own: a refund number on a row, and a settlement of a row,
      come from the provider record whose note is that row's id. */
  lemma RecoveryAdoptsOwnRecord(ws: seq<World>, steps: seq<Step>, k: nat, id: PaymentId)
    requires IsRun(ws, steps) && k < |ws| && IsRefund(ws[k].rows, id)
    ensures var w := ws[k]; var row := w.rows[id];
            && AdoptsOwn(w.records, id, row)
            && (row.status == SUCCEEDED ==> Paid(w.records, id))
            && (row.status == FAILED ==> Dead(w.wire, w.records, id))
  {
    RunKeepsInv(ws, steps, k);
    assert RowOk(ws[k], id, ws[k].rows[id]);
  }

  /** The eligibility read and the insert are separate statements. The insert of an attempt
      whose read is stale is harmless exactly when no refund of the request succeeded in
      between: the in-flight index does not see a SUCCEEDED row. */
  lemma StaleInsertKeepsInvIff(w: World, id: PaymentId, request: RequestId, amount: int, now: int)
    requires Inv(w) && id !in w.rows && !SlotTaken(w.rows, request, REFUND)
    ensures Inv(w.(rows := w.rows[id := NewRow(request, REFUND, amount, None, now)])) <==>
            !HasSucceeded(w.rows, request, REFUND)
  {
    var row := NewRow(request, REFUND, amount, None, now);
    if HasSucceeded(w.rows, request, REFUND) {
      var j :| j in w.rows && w.rows[j].request == request && w.rows[j].kind == REFUND && w.rows[j].status == SUCCEEDED;
      var t := w.rows[id := row];
      assert IsRefund(t, j) && IsRefund(t, id) && !OneHolder(t);
    } else {
      forall j ensures !Holds(w.rows, request, j) {}
      LawfulKeepsInv(w, id, row);
    }
  }

  /** Claimed and posted, a second refund beside a succeeded one still breaks the invariant;
      otherwise the request had no holder. */
  lemma SecondRefundBreaksInv(w: World, id: PaymentId, request: RequestId, amount: int, now: int)
    requires Inv(w) && id !in w.rows && !SlotTaken(w.rows, request, REFUND)
    ensures var inserted := w.(rows := w.rows[id := NewRow(request, REFUND, amount, None, now)]);
            if HasSucceeded(w.rows, request, REFUND) then !Inv(Next(inserted, Step.Submit(Service, id, now, true)))
            else Enabled(w, Insert(id, request, amount, now))
  {
    if HasSucceeded(w.rows, request, REFUND) {
      var j :| j in w.rows && w.rows[j].request == request && w.rows[j].kind == REFUND && w.rows[j].status == SUCCEEDED;
      var inserted := w.(rows := w.rows[id := NewRow(request, REFUND, amount, None, now)]);
      var t := Next(inserted, Step.Submit(Service, id, now, true)).rows;
      assert IsRefund(t, j) && IsRefund(t, id) && !OneHolder(t);
    } else {
      forall j ensures !Holds(w.rows, request, j) {}
    }
  }

  // ---- The callers, in place ----------------------------------------------------

  /** What a row becomes when a refund's answer is classified, field by field: a rejection
      fails it, an acceptance records the refund's number; then "failed" ends it for either
      caller and "processed" for the verifier only, and "needs-attention" blocks it. */
  function AfterRefund(row: Payment, caller: Caller, reply: Reply): Payment {
    match reply
    case Ambiguous => row
    case Rejected => if row.status == SUBMITTED then row.(status := FAILED, blockReason := None) else row
    case Accepted(number, status) =>
      var known := row.(providerRef := Some(Refund(number)));
      if row.status != SUBMITTED && row.status != BLOCKED then known
      else if status == "failed" then known.(status := FAILED, blockReason := None)
      else if status == "processed" && caller == Verifier then known.(status := SUCCEEDED, blockReason := None)
      else if status == "needs-attention" && row.status == SUBMITTED then
        known.(status := BLOCKED, blockReason := Some(NEEDS_CUSTOMER_DETAILS))
      else known
  }

  lemma ReplyAnswers(w: World, caller: Caller, id: PaymentId, reply: Reply)
    requires Inv(w) && (caller, id, reply) in w.replies
    ensures var t' := ApplyReply(w.rows, caller, id, reply);
            id in w.rows && id in t' && t' == w.rows[id := t'[id]] && t'[id] == AfterRefund(w.rows[id], caller, reply)
  {
    assert id in w.posts && IsRefund(w.rows, id);
    if reply.Accepted? && Claimable(w.rows[id].status) { assert !SucceededSibling(Adopt(w.rows, id, reply.number), id); }
  }

  /** A rejected refund gives the slot back, so that another can be tried. */
  lemma RejectionFreesTheSlot(w: World, caller: Caller, id: PaymentId)
    requires Inv(w) && (caller, id, Rejected) in w.replies && w.rows[id].status == SUBMITTED
    ensures var t' := ApplyReply(w.rows, caller, id, Rejected); var request := w.rows[id].request;
            t'[id].status == FAILED && !SlotTaken(t', request, REFUND) && !HasSucceeded(t', request, REFUND)
  {
    ReplyAnswers(w, caller, id, Rejected);
    var t' := ApplyReply(w.rows, caller, id, Rejected);
    hide ApplyReply;
    forall j | j in t' && t'[j].kind == REFUND && t'[j].request == w.rows[id].request
      ensures !Holding(t'[j].status)
    {
      assert j != id ==> t'[j] == w.rows[j] && IsRefund(w.rows, j) && IsRefund(w.rows, id);
    }
  }

  /** A refund event ends the row its note names, whoever asks: processed and failed are final. */
  lemma WebhookAnswers(w: World, number: nat, status: string)
    requires Inv(w) && (number, status) in w.webhooks
    ensures var t' := Next(w, HandleWebhook(number, status)).rows; var id := w.records[number].note;
            id in w.rows && id in t' && t' == w.rows[id := t'[id]] &&
            t'[id] == if w.rows[id].status in {SUBMITTED, BLOCKED}
                      then w.rows[id].(status := if status == "processed" then SUCCEEDED else FAILED, blockReason := None)
                      else w.rows[id]
  {
    WebhookFindsOwnRow(w, number);
    var id := w.records[number].note;
    assert id in w.posts && IsRefund(w.rows, id) && status in {"processed", "failed"};
    if Claimable(w.rows[id].status) { assert !SucceededSibling(w.rows, id); }
  }

  class RefundDesk {
    var world: World

    ghost predicate Valid()
      reads this
    {
      Inv(world)
    }

    /** Commit, claim, call: the shared tail of refundDeposit and the settlement. It refuses
        when the in-flight index does; its callers' eligibility read may be stale, and the
        invariant is kept exactly when no refund of the request has succeeded by now. */
    method SubmitDepositRefund(id: PaymentId, request: RequestId, amount: int, now: int) returns (posted: bool)
      requires Valid() && id !in world.rows
      modifies this
      ensures posted == !SlotTaken(old(world).rows, request, REFUND)
      ensures !posted ==> world == old(world)
      ensures posted ==>
                var inserted := old(world).(rows := old(world).rows[id := NewRow(request, REFUND, amount, None, now)]);
                Posts(inserted, Step.Submit(Service, id, now, true), id) &&
                world == Next(inserted, Step.Submit(Service, id, now, true))
      ensures Valid() <==> !posted || !HasSucceeded(old(world).rows, request, REFUND)
      ensures posted && Valid() ==>
                var insert := Insert(id, request, amount, now);
                Enabled(old(world), insert) &&
                world == Next(Next(old(world), insert), Step.Submit(Service, id, now, true))
      ensures posted ==>
                id in world.rows && world.rows[id] == Payment(request, REFUND, SUBMITTED, amount, None, None, now + 60_000, 0, None, None, now)
    {
      if SlotTaken(world.rows, request, REFUND) { return false; }
      StaleInsertKeepsInvIff(world, id, request, amount, now);
      SecondRefundBreaksInv(world, id, request, amount, now);
      world := world.(rows := world.rows[id := NewRow(request, REFUND, amount, None, now)]);
      posted := ClaimAndPost(Service, id, now, true);
      hide Inv;
    }

    /** Only the winner of the claim calls the provider; the reconciler's branch claims first
        and may then find no deposit to refund against. */
    method ClaimAndPost(caller: Caller, id: PaymentId, now: int, depositFound: bool) returns (posted: bool)
      requires IsRefund(world.rows, id)
      modifies this
      ensures world == Next(old(world), Step.Submit(caller, id, now, depositFound))
      ensures posted <==> Posts(old(world), Step.Submit(caller, id, now, depositFound), id)
      ensures old(Valid()) ==> Valid()
    {
      hide Inv;
      if Inv(world) { NextKeepsInv(world, Step.Submit(caller, id, now, depositFound)); }
      if world.rows[id].status != PENDING { return false; }
      world := world.(rows := Claim(world.rows, id, now));
      if !depositFound { return false; }
      world := world.(posts := world.posts + {id}, wire := world.wire + {id});
      return true;
    }

    method ApplyRefundResult(caller: Caller, id: PaymentId, reply: Reply)
      requires Valid() && (caller, id, reply) in world.replies
      modifies this
      ensures Valid() && world == Next(old(world), HandleReply(caller, id, reply))
      ensures world == old(world).(rows := old(world).rows[id := AfterRefund(old(world).rows[id], caller, reply)])
    {
      ReplyKeepsInv(world, caller, id, reply);
      ReplyAnswers(world, caller, id, reply);
      assert Next(world, HandleReply(caller, id, reply)) == world.(rows := ApplyReply(world.rows, caller, id, reply));
      hide Inv, Next, Enabled, ClaimTerminal, RecordBlocked, RecordRejection, Adopt, AfterRefund;
      if reply.Ambiguous? { return; }
      if reply.Rejected? {
        world := world.(rows := RecordRejection(world.rows, id, None));
        return;
      }
      world := world.(rows := Adopt(world.rows, id, reply.number));
      var mapped := MapRefundStatus(reply.status);
      if mapped.status == BLOCKED {
        world := world.(rows := RecordBlocked(world.rows, id, mapped.blockReason.value));
      } else if mapped.status == FAILED || (caller == Verifier && mapped.status == SUCCEEDED) {
        world := world.(rows := ClaimTerminal(world.rows, id, mapped));
      }
    }
  }
}
