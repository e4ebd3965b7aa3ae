/** Outbound money: payout attempts, admin retries, webhooks and the verifier, against a
    provider that rejects a reused reference, over a network that loses, delays and repeats
    messages. Crashes are steps that stop half way. */
module PayoutProtocol {
  import opened Payments
  import opened Ledger

  /** Who posted a transfer or read one, and so who will classify the reply. */
  datatype Caller = Service | Verifier

  datatype Reply =
    | Accepted(status: string)
    | Rejected(duplicate: bool, reason: BlockReason)
    | NotFound
    | Ambiguous

  /** Transfers are keyed by payment id: the reference is "payout_" and the id, and
      ReferencesAreInjective makes the two interchangeable. Messages are never removed,
      so each may be delivered late, again, or not at all. */
  datatype World = World(
    rows: Table,
    transfers: map<PaymentId, string>,
    posts: set<(Caller, PaymentId)>,
    replies: set<(Caller, PaymentId, Reply)>,
    webhooks: set<(PaymentId, string)>)

  predicate IsPayout(t: Table, id: PaymentId) { id in t && t[id].kind == PAYOUT }

  /** The statuses that stop a fresh attempt. */
  predicate Holding(s: PaymentStatus) { InFlight(s) || s == SUCCEEDED }

  predicate Holds(t: Table, request: RequestId, id: PaymentId) {
    IsPayout(t, id) && t[id].request == request && Holding(t[id].status)
  }

  // ---- The service's side -----------------------------------------------------

  /** How far an attempt gets before its process stops or its own guard blocks it. */
  datatype Fate = DiesAfterInsert | DiesAfterClaim | Sends

  datatype Attempt = Attempt(request: RequestId, operator: OperatorId, amount: int,
                             freshId: PaymentId, operatorActive: bool, now: int)

  function FreshRow(a: Attempt): Payment {
    NewRow(a.request, PAYOUT, a.amount, Some(a.operator), a.now)
  }

  /** claimPayoutPayment: the row this attempt may submit, claimed; None means do not call
      the provider. */
  ghost function ClaimPayout(t: Table, a: Attempt): (Table, Option<PaymentId>)
    requires a.freshId !in t
  {
    if exists id :: Holds(t, a.request, id) then
      var id :| Holds(t, a.request, id);
      match t[id].status
      case PENDING => (Claim(t, id, a.now), Some(id))
      case BLOCKED => (Unblock(t, id, a.now), Some(id))
      case _ => (t, None)
    else if a.operatorActive then
      (Claim(t[a.freshId := FreshRow(a)], a.freshId, a.now), Some(a.freshId))
    else (t, None)
  }

  /** What both classifiers do alike; only the verifier may conclude success. */
  function ApplyReply(t: Table, caller: Caller, id: PaymentId, reply: Reply): Table {
    match reply
    case Ambiguous => t
    case NotFound => t
    case Rejected(duplicate, reason) => if duplicate then t else RecordBlocked(t, id, reason)
    case Accepted(status) =>
      var mapped := MapTransferStatus(status);
      if mapped.status == BLOCKED then RecordBlocked(t, id, mapped.blockReason.value)
      else if mapped.status in {FAILED, REVERSED} then ClaimTerminal(t, id, mapped)
      else if mapped.status == SUCCEEDED && caller == Verifier then ClaimTerminal(t, id, mapped)
      else t
  }

  // ---- Steps ------------------------------------------------------------------

  datatype Step =
    | Try(attempt: Attempt, fate: Fate)
    | OwnBlock(id: PaymentId, reason: BlockReason)
    | Initiate(id: PaymentId, now: int)
    | Resubmit(id: PaymentId)
    | Postpone(id: PaymentId, now: int)
    | HandleReply(caller: Caller, id: PaymentId, reply: Reply)
    | HandleWebhook(id: PaymentId, status: string)
    | Land(caller: Caller, id: PaymentId, reply: Reply, created: Option<string>)
    | Move(id: PaymentId, status: string)
    | Read(id: PaymentId, reply: Reply)
    | Notify(id: PaymentId)
    | OtherRows(rows: Table)

  /** The provider is truthful: a dead transfer stays dead, and a completed one can only
      be reversed. */
  predicate CanMove(from: string, to: string) {
    (DeadTransfer(from) ==> to == from) && (from == "success" ==> to == "success" || to == "reversed")
  }

  predicate EndedWell(s: string) { s == "success" || s == "reversed" }

  /** The transfer events the webhook dispatcher knows. */
  predicate HasEvent(s: string) { s == "success" || s == "failed" || s == "reversed" }

  ghost predicate Enabled(w: World, step: Step) {
    match step
    case Try(a, _) => a.freshId !in w.rows
    case OwnBlock(id, _) => IsPayout(w.rows, id)
    case Initiate(id, _) => IsPayout(w.rows, id)
    case Postpone(id, _) => IsPayout(w.rows, id)
    case Resubmit(id) => (Verifier, id, NotFound) in w.replies
    case HandleReply(caller, id, reply) => (caller, id, reply) in w.replies
    case HandleWebhook(id, status) => (id, status) in w.webhooks
    // A post creates a transfer, or is rejected; a reused reference is always rejected.
    case Land(caller, id, reply, created) =>
      (caller, id) in w.posts && reply != NotFound &&
      (match created
       case Some(status) => id !in w.transfers && reply in {Accepted(status), Ambiguous}
       case None => !reply.Accepted? && (reply.Rejected? ==> (reply.duplicate <==> id in w.transfers)))
    case Move(id, status) => id in w.transfers && CanMove(w.transfers[id], status)
    // Reads may lag (not found although it exists) but never invent a status.
    case Read(id, reply) =>
      IsPayout(w.rows, id) && w.rows[id].status == SUBMITTED &&
      (reply.Accepted? ==> id in w.transfers && reply.status == w.transfers[id]) && !reply.Rejected?
    case Notify(id) => id in w.transfers && HasEvent(w.transfers[id])
    case OtherRows(rows) =>
      && (forall id :: IsPayout(rows, id) <==> IsPayout(w.rows, id))
      && (forall id | IsPayout(rows, id) :: rows[id] == w.rows[id])
  }

  ghost function Next(w: World, step: Step): World
    requires Enabled(w, step)
  {
    match step
    case Try(a, fate) =>
      var (rows, claimed) := ClaimPayout(w.rows, a);
      if fate == DiesAfterInsert && claimed == Some(a.freshId) then w.(rows := w.rows[a.freshId := FreshRow(a)])
      else if fate == DiesAfterInsert then w
      else if fate == Sends && claimed.Some? then w.(rows := rows, posts := w.posts + {(Service, claimed.value)})
      else w.(rows := rows)
    case OwnBlock(id, reason) => w.(rows := RecordBlocked(w.rows, id, reason))
    case Initiate(id, now) =>
      if CanClaim(w.rows, id) then w.(rows := Claim(w.rows, id, now), posts := w.posts + {(Verifier, id)}) else w
    case Resubmit(id) => w.(posts := w.posts + {(Verifier, id)})
    case Postpone(id, now) => w.(rows := BackOff(w.rows, id, now))
    case HandleReply(caller, id, reply) => w.(rows := ApplyReply(w.rows, caller, id, reply))
    case HandleWebhook(id, status) => w.(rows := ClaimTerminal(w.rows, id, MapTransferStatus(status)))
    case Land(caller, id, reply, created) =>
      w.(transfers := if created.Some? then w.transfers[id := created.value] else w.transfers,
         replies := w.replies + {(caller, id, reply)})
    case Move(id, status) => w.(transfers := w.transfers[id := status])
    case Read(id, reply) => w.(replies := w.replies + {(Verifier, id, reply)})
    case Notify(id) => w.(webhooks := w.webhooks + {(id, w.transfers[id])})
    case OtherRows(rows) => w.(rows := rows)
  }

  // ---- The invariant ----------------------------------------------------------

  /** At most one payout of a request is in flight or succeeded. */
  ghost predicate OneHolder(t: Table) {
    forall i, j | IsPayout(t, i) && IsPayout(t, j) && i != j && t[i].request == t[j].request ::
      !(Holding(t[i].status) && Holding(t[j].status))
  }

  /** What the provider holds for a row, by the row's status. */
  ghost predicate RowMatchesProvider(status: PaymentStatus, transfers: map<PaymentId, string>, id: PaymentId) {
    match status
    case PENDING => id !in transfers
    case FAILED => id in transfers && DeadTransfer(transfers[id])
    case REVERSED => id in transfers && DeadTransfer(transfers[id])
    case SUCCEEDED => id in transfers && EndedWell(transfers[id])
    case DUPLICATE_SUCCEEDED => false
    case _ => true
  }

  /** Only claimed payouts are ever sent. */
  predicate Sent(t: Table, id: PaymentId) { IsPayout(t, id) && t[id].status != PENDING }

  /** A message that reports an ending was true when sent, and endings do not change. */
  predicate Truthful(transfers: map<PaymentId, string>, id: PaymentId, status: string) {
    && id in transfers
    && (DeadTransfer(status) ==> DeadTransfer(transfers[id]))
    && (status == "success" ==> EndedWell(transfers[id]))
  }

  ghost predicate RowsOk(w: World) {
    && OneHolder(w.rows)
    && (forall id | IsPayout(w.rows, id) :: RowMatchesProvider(w.rows[id].status, w.transfers, id))
  }

  ghost predicate MessagesOk(w: World) {
    && (forall id | id in w.transfers :: Sent(w.rows, id))
    && (forall c, id | (c, id) in w.posts :: Sent(w.rows, id))
    && (forall c, id, r | (c, id, r) in w.replies :: Sent(w.rows, id))
    && (forall c, id, r | (c, id, r) in w.replies && r.Accepted? :: Truthful(w.transfers, id, r.status))
    && (forall id, s | (id, s) in w.webhooks :: Truthful(w.transfers, id, s) && HasEvent(s))
  }

  ghost predicate Inv(w: World) { RowsOk(w) && MessagesOk(w) }

  ghost predicate Init(w: World) {
    (forall id :: !IsPayout(w.rows, id)) && w.transfers == map[] && w.posts == {} && w.replies == {} && w.webhooks == {}
  }

  /** One payout row may change only so. */
  ghost predicate Lawful(w: World, id: PaymentId, row: Payment) {
    && row.kind == PAYOUT
    && (id in w.rows ==> SameSlot(w.rows[id], row) && (Holding(row.status) ==> Holding(w.rows[id].status)))
    && (id !in w.rows ==> forall j :: !Holds(w.rows, row.request, j))
    && (row.status == PENDING ==> id !in w.rows || w.rows[id].status == PENDING)
    && RowMatchesProvider(row.status, w.transfers, id)
  }

  lemma LawfulKeepsInv(w: World, id: PaymentId, row: Payment)
    requires Inv(w) && Lawful(w, id, row)
    ensures Inv(w.(rows := w.rows[id := row]))
  {
    var t := w.rows[id := row];
    forall i, j | IsPayout(t, i) && IsPayout(t, j) && i != j && t[i].request == t[j].request
      ensures !(Holding(t[i].status) && Holding(t[j].status))
    {
      assert !Holds(w.rows, row.request, j) || id in w.rows;
      assert !Holds(w.rows, row.request, i) || id in w.rows;
    }
    forall i | IsPayout(w.rows, i)
      ensures Sent(w.rows, i) ==> Sent(t, i)
    {
    }
  }

  lemma ClaimTerminalIsLawful(w: World, id: PaymentId, mapped: MappedStatus, status: string)
    requires Inv(w) && Sent(w.rows, id) && Truthful(w.transfers, id, status) && mapped == MapTransferStatus(status)
    requires mapped.status in {SUCCEEDED, FAILED, REVERSED}
    ensures Inv(w.(rows := ClaimTerminal(w.rows, id, mapped)))
  {
    var rows := ClaimTerminal(w.rows, id, mapped);
    if Claimable(w.rows[id].status) {
      assert !SucceededSibling(w.rows, id);
      LawfulKeepsInv(w, id, rows[id]);
      assert rows == w.rows[id := rows[id]];
    }
  }

  /** The whole protocol: every step of every party keeps the invariant. */
  lemma NextKeepsInv(w: World, step: Step)
    requires Inv(w) && Enabled(w, step)
    ensures Inv(Next(w, step))
  {
    match step
    case Try(a, fate) => TryKeepsInv(w, a, fate);
    case OwnBlock(id, reason) => RowStep(w, id, RecordBlocked(w.rows, id, reason));
    case Initiate(id, now) => RowStep(w, id, Claim(w.rows, id, now));
    case Resubmit(id) =>
    case Postpone(id, now) => RowStep(w, id, BackOff(w.rows, id, now));
    case HandleReply(caller, id, reply) => ReplyKeepsInv(w, caller, id, reply);
    case HandleWebhook(id, status) =>
      ClaimTerminalIsLawful(w, id, MapTransferStatus(status), status);
    case Land(caller, id, reply, created) => ProviderKeepsInv(w, step);
    case Move(id, status) => ProviderKeepsInv(w, step);
    case Read(id, reply) => ProviderKeepsInv(w, step);
    case Notify(id) => ProviderKeepsInv(w, step);
    case OtherRows(rows) => OtherRowsKeepInv(w, rows);
  }

  lemma ReplyKeepsInv(w: World, caller: Caller, id: PaymentId, reply: Reply)
    requires Inv(w) && (caller, id, reply) in w.replies
    ensures Inv(w.(rows := ApplyReply(w.rows, caller, id, reply)))
  {
    if reply.Accepted? && MapTransferStatus(reply.status).status in {SUCCEEDED, FAILED, REVERSED} {
      ClaimTerminalIsLawful(w, id, MapTransferStatus(reply.status), reply.status);
    } else {
      RowStep(w, id, ApplyReply(w.rows, caller, id, reply));
    }
  }

  lemma ProviderKeepsInv(w: World, step: Step)
    requires Inv(w) && Enabled(w, step) && (step.Land? || step.Move? || step.Read? || step.Notify?)
    ensures Inv(Next(w, step))
  {
    var w' := Next(w, step);
    forall id | IsPayout(w'.rows, id)
      ensures RowMatchesProvider(w'.rows[id].status, w'.transfers, id)
    {
      assert step.Land? ==> Sent(w.rows, step.id);
    }
    forall id, s | Truthful(w.transfers, id, s)
      ensures Truthful(w'.transfers, id, s)
    {
    }
  }

  lemma OtherRowsKeepInv(w: World, rows: Table)
    requires Inv(w) && Enabled(w, OtherRows(rows))
    ensures Inv(w.(rows := rows))
  {
  }

  lemma RowStep(w: World, id: PaymentId, rows: Table)
    requires Inv(w) && id in w.rows && id in rows && rows == w.rows[id := rows[id]] && Lawful(w, id, rows[id])
    ensures Inv(w.(rows := rows))
  {
    LawfulKeepsInv(w, id, rows[id]);
  }

  /** What a claim hands back: a row of this request, lawfully moved to SUBMITTED. */
  lemma ClaimPayoutIsLawful(w: World, a: Attempt)
    requires Inv(w) && a.freshId !in w.rows
    ensures var (rows, claimed) := ClaimPayout(w.rows, a);
            if claimed.None? then rows == w.rows
            else claimed.value in rows && rows == w.rows[claimed.value := rows[claimed.value]] &&
                 Lawful(w, claimed.value, rows[claimed.value]) &&
                 rows[claimed.value].status == SUBMITTED && rows[claimed.value].request == a.request &&
                 (claimed.value == a.freshId ==> Lawful(w, a.freshId, FreshRow(a)))
  {
    var (rows, claimed) := ClaimPayout(w.rows, a);
    if !exists id :: Holds(w.rows, a.request, id) {
      assert a.freshId !in w.transfers;
      if claimed.Some? {
        assert rows == w.rows[a.freshId := rows[a.freshId]];
      }
    }
  }

  lemma TryKeepsInv(w: World, a: Attempt, fate: Fate)
    requires Inv(w) && a.freshId !in w.rows
    ensures Inv(Next(w, Try(a, fate)))
  {
    ClaimPayoutIsLawful(w, a);
    var (rows, claimed) := ClaimPayout(w.rows, a);
    if claimed.Some? {
      LawfulKeepsInv(w, claimed.value, rows[claimed.value]);
      if claimed.value == a.freshId { LawfulKeepsInv(w, a.freshId, FreshRow(a)); }
    }
  }

  // ---- Whole runs -------------------------------------------------------------

  ghost predicate IsRun(ws: seq<World>, steps: seq<Step>) {
    && |ws| == |steps| + 1 && Init(ws[0])
    && (forall k | 0 <= k < |steps| :: Enabled(ws[k], steps[k]) && ws[k + 1] == Next(ws[k], steps[k]))
  }

  lemma {:induction false} RunKeepsInv(ws: seq<World>, steps: seq<Step>, k: nat)
    requires IsRun(ws, steps) && k < |ws|
    ensures Inv(ws[k])
  {
    if k > 0 {
      RunKeepsInv(ws, steps, k - 1);
      NextKeepsInv(ws[k - 1], steps[k - 1]);
    }
  }

  ghost predicate OneLiveTransfer(w: World) {
    forall i, j | i in w.transfers && j in w.transfers && i != j && i in w.rows && j in w.rows &&
                  w.rows[i].request == w.rows[j].request ::
      DeadTransfer(w.transfers[i]) || DeadTransfer(w.transfers[j])
  }

  /** Outbound money is sent at most once: at no point of any run does the provider hold
      two live transfers for one request, and every transfer belongs to a payout row. */
  lemma MoneyLeavesAtMostOnce(ws: seq<World>, steps: seq<Step>, k: nat)
    requires IsRun(ws, steps) && k < |ws|
    ensures OneLiveTransfer(ws[k])
    ensures forall id | id in ws[k].transfers :: IsPayout(ws[k].rows, id)
  {
    RunKeepsInv(ws, steps, k);
    var w := ws[k];
    forall i | i in w.transfers && !DeadTransfer(w.transfers[i])
      ensures IsPayout(w.rows, i) && Holding(w.rows[i].status)
    {
      assert Sent(w.rows, i);
    }
  }

  /** Whether a reference was ever sent to the provider, by anyone. */
  predicate Posted(w: World, id: PaymentId) { (Service, id) in w.posts || (Verifier, id) in w.posts }

  /** The provider holds nothing that was not posted. */
  lemma {:induction false} TransfersWerePosted(ws: seq<World>, steps: seq<Step>, k: nat, id: PaymentId)
    requires IsRun(ws, steps) && k < |ws| && id in ws[k].transfers
    ensures Posted(ws[k], id)
  {
    if k > 0 {
      var w, step := ws[k - 1], steps[k - 1];
      assert ws[k] == Next(w, step);
      if id in w.transfers {
        TransfersWerePosted(ws, steps, k - 1, id);
      } else {
        assert step.Land? && step.id == id;
        match step.caller case Service => case Verifier =>
      }
    }
  }

  /** A row about to be posted for the first time is either new to a request that nothing
      holds, or is the row that holds it. */
  lemma FirstPostIsByTheHolder(w: World, step: Step, id: PaymentId)
    requires Inv(w) && Enabled(w, step) && !Posted(w, id) && Posted(Next(w, step), id) && id !in w.transfers
    ensures IsPayout(Next(w, step).rows, id)
    ensures var request := Next(w, step).rows[id].request;
            if id in w.rows then Holds(w.rows, request, id) else forall j :: !Holds(w.rows, request, j)
  {
    match step
    case Try(a, _) => ClaimPayoutIsLawful(w, a);
    case Initiate(_, _) =>
    case Resubmit(_) => assert Sent(w.rows, id) && RowMatchesProvider(w.rows[id].status, w.transfers, id);
  }

  /** A reference, whoever posts it and from whatever path, is posted for the first time only
      when every other payout row of its request is already dead at the provider. */
  lemma FreshReferenceOnlyAfterDeath(ws: seq<World>, steps: seq<Step>, k: nat, id: PaymentId, earlier: PaymentId)
    requires IsRun(ws, steps) && k < |steps| && !Posted(ws[k], id) && Posted(ws[k + 1], id)
    requires IsPayout(ws[k].rows, earlier) && earlier != id
    requires id in ws[k + 1].rows && ws[k + 1].rows[id].request == ws[k].rows[earlier].request
    ensures earlier in ws[k].transfers && DeadTransfer(ws[k].transfers[earlier])
  {
    RunKeepsInv(ws, steps, k);
    var w := ws[k];
    if id in w.transfers { TransfersWerePosted(ws, steps, k, id); }
    FirstPostIsByTheHolder(w, steps[k], id);
    assert !Holds(w.rows, w.rows[earlier].request, earlier);
    assert RowMatchesProvider(w.rows[earlier].status, w.transfers, earlier);
  }

  /** The ledger never lies about a payout: a row marked SUCCEEDED has a completed transfer,
      a row marked FAILED or REVERSED has a dead one, no payout is ever quarantined as a
      duplicate, and a live transfer's row is never written off. */
  lemma LedgerTellsTheTruth(ws: seq<World>, steps: seq<Step>, k: nat, id: PaymentId)
    requires IsRun(ws, steps) && k < |ws| && IsPayout(ws[k].rows, id)
    ensures var w := ws[k]; var status := w.rows[id].status;
            && (status == SUCCEEDED ==> id in w.transfers && EndedWell(w.transfers[id]))
            && (status in {FAILED, REVERSED} ==> id in w.transfers && DeadTransfer(w.transfers[id]))
            && (status == PENDING ==> id !in w.transfers)
            && status != DUPLICATE_SUCCEEDED
            && (id in w.transfers && !DeadTransfer(w.transfers[id]) ==> status in {SUBMITTED, BLOCKED, SUCCEEDED})
  {
    RunKeepsInv(ws, steps, k);
    assert RowMatchesProvider(ws[k].rows[id].status, ws[k].transfers, id);
  }

  // ---- Without the single step ------------------------------------------------

  /** claimPayoutPayment reads and inserts in separate statements. This is the insert, claim
      and post of an attempt whose read found nothing, some time later: only the in-flight
      index still guards it. */
  ghost function StaleInsert(w: World, a: Attempt): World
    requires a.freshId !in w.rows && !SlotTaken(w.rows, a.request, PAYOUT)
  {
    w.(rows := Claim(w.rows[a.freshId := FreshRow(a)], a.freshId, a.now),
       posts := w.posts + {(Service, a.freshId)})
  }

  /** Splitting the step is harmless exactly when no payout of the request succeeded between
      the read and the insert: a SUCCEEDED row does not occupy the in-flight index. */
  lemma StaleInsertKeepsInvIff(w: World, a: Attempt)
    requires Inv(w) && a.freshId !in w.rows && !SlotTaken(w.rows, a.request, PAYOUT)
    ensures Inv(StaleInsert(w, a)) <==> !HasSucceeded(w.rows, a.request, PAYOUT)
  {
    var w' := StaleInsert(w, a);
    var row := w'.rows[a.freshId];
    if HasSucceeded(w.rows, a.request, PAYOUT) {
      var j :| j in w.rows && w.rows[j].request == a.request && w.rows[j].kind == PAYOUT && w.rows[j].status == SUCCEEDED;
      assert IsPayout(w'.rows, j) && IsPayout(w'.rows, a.freshId) && !OneHolder(w'.rows);
    } else {
      LawfulKeepsInv(w, a.freshId, row);
      assert w'.rows == w.rows[a.freshId := row];
    }
  }

  /** And in the remaining case the operator is paid twice: the stale attempt's own post can
      land beside the completed transfer. */
  lemma StaleInsertCanPayTwice(w: World, a: Attempt, paid: PaymentId)
    requires Inv(w) && a.freshId !in w.rows && !SlotTaken(w.rows, a.request, PAYOUT)
    requires IsPayout(w.rows, paid) && w.rows[paid].request == a.request
    requires w.rows[paid].status == SUCCEEDED && w.transfers[paid] == "success"
    ensures var landing := Land(Service, a.freshId, Accepted("success"), Some("success"));
            Enabled(StaleInsert(w, a), landing) && !OneLiveTransfer(Next(StaleInsert(w, a), landing))
  {
    var landing := Land(Service, a.freshId, Accepted("success"), Some("success"));
    var w1 := StaleInsert(w, a);
    assert a.freshId !in w.transfers;
    var w2 := Next(w1, landing);
    assert w2.transfers[paid] == "success" && w2.transfers[a.freshId] == "success";
  }

  /** The first attempt on an empty ledger inserts, claims and posts its own row. */
  lemma FirstAttemptPosts(w: World, a: Attempt)
    requires w.rows == map[] && a.operatorActive
    ensures Next(w, Try(a, Sends)) ==
              w.(rows := map[a.freshId := FreshRow(a).(status := SUBMITTED, verifyAfter := a.now + INITIAL_VERIFY_DELAY_MS)],
                 posts := w.posts + {(Service, a.freshId)})
  {
  }

  /** Such a state is reached: from an empty ledger, where both attempts read that nothing
      holds the request, the first is paid before the second inserts. */
  lemma StaleInsertIsReached(a: Attempt, b: Attempt) returns (ws: seq<World>, steps: seq<Step>)
    requires a.operatorActive && a.request == b.request && a.freshId != b.freshId
    ensures IsRun(ws, steps) && |ws| == 5 && forall id :: !Holds(ws[0].rows, b.request, id)
    ensures var w := ws[4];
            && Inv(w) && b.freshId !in w.rows && !SlotTaken(w.rows, b.request, PAYOUT)
            && IsPayout(w.rows, a.freshId) && w.rows[a.freshId].request == b.request
            && w.rows[a.freshId].status == SUCCEEDED && w.transfers[a.freshId] == "success"
  {
    ws, steps := FirstIsPaid(a);
    hide Next, Enabled, Inv;
    RunKeepsInv(ws, steps, 4);
  }

  ghost predicate StepsTo(w: World, step: Step, w': World) { Enabled(w, step) && w' == Next(w, step) }

  lemma FirstIsPaid(a: Attempt) returns (ws: seq<World>, steps: seq<Step>)
    requires a.operatorActive
    ensures IsRun(ws, steps) && |ws| == 5 && ws[0].rows == map[]
    ensures exists row :: ws[4].rows == map[a.freshId := row] && row.kind == PAYOUT && row.request == a.request && row.status == SUCCEEDED
    ensures ws[4].transfers == map[a.freshId := "success"]
  {
    var id, w0 := a.freshId, World(map[], map[], {}, {}, {});
    FirstAttemptPosts(w0, a);
    var w1 := Next(w0, Try(a, Sends));
    var w2, w3, w4 := LandsAndSettles(w1, id);
    ws := [w0, w1, w2, w3, w4];
    steps := [Try(a, Sends), Land(Service, id, Accepted("success"), Some("success")), Notify(id), HandleWebhook(id, "success")];
    hide Next, Enabled;
    forall k | 0 <= k < |steps|
      ensures StepsTo(ws[k], steps[k], ws[k + 1])
    {
      if k == 0 {} else if k == 1 {} else if k == 2 {} else {}
    }
  }

  /** A posted row's transfer completes, and its webhook settles the row. */
  lemma LandsAndSettles(w: World, id: PaymentId) returns (w1: World, w2: World, w3: World)
    requires (Service, id) in w.posts && id !in w.transfers
    requires w.rows.Keys == {id} && w.rows[id].status == SUBMITTED
    ensures StepsTo(w, Land(Service, id, Accepted("success"), Some("success")), w1)
    ensures StepsTo(w1, Notify(id), w2) && StepsTo(w2, HandleWebhook(id, "success"), w3)
    ensures w3.rows == map[id := w.rows[id].(status := SUCCEEDED, blockReason := None)]
    ensures w3.transfers == w.transfers[id := "success"]
  {
    w1 := Next(w, Land(Service, id, Accepted("success"), Some("success")));
    w2 := Next(w1, Notify(id));
    assert !SucceededSibling(w2.rows, id);
    w3 := Next(w2, HandleWebhook(id, "success"));
  }

  // ---- The service, in place ----------------------------------------------------

  datatype RetryAnswer = Retried | NotFoundError | NotRetryable | Superseded | NoOperator | AlreadyPaid

  predicate Below(a: string, b: string) {
    b != [] && (a == [] || a[0] < b[0] || (a[0] == b[0] && Below(a[1..], b[1..])))
  }

  /** A proper prefix comes first; otherwise the first difference decides. */
  lemma {:induction false} BelowIsLexicographic(a: string, b: string)
    ensures Below(a, b) <==> exists k: nat :: Diverge(a, b, k) && k < |b| && (k == |a| || a[k] < b[k])
  {
    if a != [] && b != [] && a[0] == b[0] {
      BelowIsLexicographic(a[1..], b[1..]);
      assert forall k: nat :: Diverge(a[1..], b[1..], k) ==> Diverge(a, b, k + 1) by {
        forall k: nat | Diverge(a[1..], b[1..], k) ensures Diverge(a, b, k + 1) {
          assert forall i | 0 < i < k + 1 :: a[i] == a[1..][i - 1] && b[i] == b[1..][i - 1];
        }
      }
      if k: nat :| Diverge(a, b, k) && k < |b| && (k == |a| || a[k] < b[k]) {
        assert k > 0 && Diverge(a[1..], b[1..], k - 1);
      }
    } else {
      assert Diverge(a, b, 0);
    }
  }

  /** The strings agree before k. */
  ghost predicate Diverge(a: string, b: string, k: nat) {
    k <= |a| && k <= |b| && forall i | 0 <= i < k :: a[i] == b[i]
  }

  lemma BelowIsTotal(a: string, b: string)
    ensures a == b || Below(a, b) || Below(b, a)
  {
    if a != [] && b != [] && a[0] == b[0] {
      BelowIsTotal(a[1..], b[1..]);
      assert a == [a[0]] + a[1..] && b == [b[0]] + b[1..];
    }
  }

  lemma BelowIsTransitive(a: string, b: string, c: string)
    requires Below(a, b) && Below(b, c)
    ensures Below(a, c)
  {
    if a != [] && a[0] == b[0] == c[0] { BelowIsTransitive(a[1..], b[1..], c[1..]); }
  }

  predicate PayoutOf(t: Table, request: RequestId, id: PaymentId) { IsPayout(t, id) && t[id].request == request }

  /** Newer, or as new with the greater id. */
  predicate Follows(t: Table, i: PaymentId, j: PaymentId)
    requires i in t && j in t
  {
    t[j].createdAt < t[i].createdAt || (t[j].createdAt == t[i].createdAt && Below(j, i))
  }

  /** The first payout row of the request, newest first, ties by descending id. */
  predicate IsLatest(t: Table, request: RequestId, id: PaymentId) {
    PayoutOf(t, request, id) && forall j | j in t && PayoutOf(t, request, j) && j != id :: Follows(t, id, j)
  }

  lemma {:induction false} LatestExists(t: Table, request: RequestId, id: PaymentId) returns (latest: PaymentId)
    requires PayoutOf(t, request, id)
    ensures IsLatest(t, request, latest)
    decreases |set j | j in t && PayoutOf(t, request, j) && Follows(t, j, id)|
  {
    if IsLatest(t, request, id) {
      latest := id;
    } else {
      var j :| j in t && PayoutOf(t, request, j) && j != id && !Follows(t, id, j);
      BelowIsTotal(id, j);
      forall k | k in t && PayoutOf(t, request, k) && Follows(t, k, j)
        ensures Follows(t, k, id) && k != j
      {
        NeverFollowsItself(t, j);
        if t[k].createdAt == t[j].createdAt == t[id].createdAt { BelowIsTransitive(id, j, k); }
      }
      var above, fewer := set k | k in t && PayoutOf(t, request, k) && Follows(t, k, id), set k | k in t && PayoutOf(t, request, k) && Follows(t, k, j);
      assert fewer <= above - {j} && j in above;
      SmallerSubset(fewer, above - {j});
      latest := LatestExists(t, request, j);
    }
  }

  lemma SmallerSubset(s: set<PaymentId>, t: set<PaymentId>)
    requires s <= t
    ensures |s| <= |t|
  {
    assert t == s + (t - s);
  }

  lemma NeverFollowsItself(t: Table, id: PaymentId)
    requires id in t
    ensures !Follows(t, id, id)
  {
    NeverBelowItself(id);
  }

  lemma NeverBelowItself(a: string)
    ensures !Below(a, a)
  {
    if a != [] { NeverBelowItself(a[1..]); }
  }

  lemma LatestIsUnique(t: Table, request: RequestId, i: PaymentId, j: PaymentId)
    requires IsLatest(t, request, i) && IsLatest(t, request, j)
    ensures i == j
  {
    if i != j {
      BelowIsTransitive(i, j, i);
      NeverBelowItself(i);
    }
  }

  /** The reasons the provider never created a transfer for. */
  const NEVER_CREATED := {NO_BANK_DETAILS, INSUFFICIENT_BALANCE, ACCOUNT_RESTRICTED, PAYOUT_ON_HOLD,
                          INVALID_RECIPIENT, INVALID_AMOUNT, INVALID_REFERENCE, PAYSTACK_VALIDATION}

  /** A row that may be tried again: it failed, or is blocked before the provider did anything. */
  predicate MayBeTriedAgain(row: Payment) {
    row.status == FAILED || (row.status == BLOCKED && row.blockReason.Some? && row.blockReason.value in NEVER_CREATED)
  }

  /** No payout of the request is newer, and of those as new none has a greater id. */
  ghost predicate Newest(t: Table, id: PaymentId)
    requires id in t
  {
    forall j | j in t && t[j].kind == PAYOUT && t[j].request == t[id].request && j != id ::
      t[j].createdAt < t[id].createdAt || (t[j].createdAt == t[id].createdAt && Below(j, id))
  }

  ghost predicate AnyPaid(t: Table, request: RequestId) {
    exists j :: j in t && t[j].kind == PAYOUT && t[j].request == request && t[j].status == SUCCEEDED
  }

  /** What an admin is answered, from the stored rows alone. */
  ghost predicate RetryAnswers(t: Table, id: PaymentId, answer: RetryAnswer) {
    if id !in t || t[id].kind != PAYOUT then answer == NotFoundError
    else if !MayBeTriedAgain(t[id]) then answer == NotRetryable
    else if !Newest(t, id) then
      exists newest :: newest in t && t[newest].kind == PAYOUT && t[newest].request == t[id].request && newest != id &&
        Newest(t, newest) && answer == if t[newest].status == SUCCEEDED then AlreadyPaid else Superseded
    else if t[id].operator.None? then answer == NoOperator
    else if AnyPaid(t, t[id].request) then answer == AlreadyPaid
    else answer == Retried
  }

  /** retryPayout's guards, in order; latest is the row its ordered query returns. */
  function RetryGuard(t: Table, id: PaymentId, latest: PaymentId): RetryAnswer {
    if !IsPayout(t, id) then NotFoundError
    else if !IsRetryablePayoutState(t[id]) then NotRetryable
    else if latest != id then if IsPayout(t, latest) && t[latest].status == SUCCEEDED then AlreadyPaid else Superseded
    else if t[id].operator.None? then NoOperator
    else if HasSucceeded(t, t[id].request, PAYOUT) then AlreadyPaid
    else Retried
  }

  lemma GuardAnswers(t: Table, id: PaymentId, latest: PaymentId)
    requires IsPayout(t, id) && IsLatest(t, t[id].request, latest)
    ensures RetryAnswers(t, id, RetryGuard(t, id, latest))
  {
    RetryableIff(t[id]);
    assert AnyPaid(t, t[id].request) <==> HasSucceeded(t, t[id].request, PAYOUT);
    if Newest(t, id) {
      assert IsLatest(t, t[id].request, id);
      LatestIsUnique(t, t[id].request, id, latest);
    } else {
      assert Newest(t, latest);
    }
    hide Newest, Follows, IsLatest, AnyPaid, HasSucceeded, IsRetryablePayoutState, MayBeTriedAgain;
  }

  lemma NotTriedAgain(t: Table, id: PaymentId, answer: RetryAnswer)
    requires RetryAnswers(t, id, answer)
    ensures id in t && t[id].blockReason in {Some(AWAITING_OTP), Some(NEEDS_CUSTOMER_DETAILS)} && t[id].status != FAILED ==>
              answer != Retried
  {
  }

  lemma RetryableIff(row: Payment)
    ensures IsRetryablePayoutState(row) <==> MayBeTriedAgain(row)
  {
    if row.blockReason.Some? {
      match row.blockReason.value
      case NO_BANK_DETAILS => case INSUFFICIENT_BALANCE => case ACCOUNT_RESTRICTED => case PAYOUT_ON_HOLD =>
      case INVALID_RECIPIENT => case INVALID_AMOUNT => case INVALID_REFERENCE => case PAYSTACK_VALIDATION =>
      case AWAITING_OTP => case NEEDS_CUSTOMER_DETAILS =>
    }
  }

  /** An attempt its own guards block: the row it may claim, or a fresh one, ends BLOCKED. */
  ghost function OwnBlocked(t: Table, a: Attempt, reason: BlockReason): Table
    requires a.freshId !in t
  {
    var (rows, claimed) := ClaimPayout(t, a);
    if claimed.Some? then RecordBlocked(rows, claimed.value, reason) else rows
  }

  /** What an attempt does to the stored rows, by what holds the request before it: at most one
      row moves, and it is the one posted. */
  lemma AttemptWrites(w: World, a: Attempt, held: PaymentId)
    requires Inv(w) && a.freshId !in w.rows && Holds(w.rows, a.request, held)
    ensures var w' := Next(w, Try(a, Sends)); var row := w.rows[held];
            if row.status == SUBMITTED || row.status == SUCCEEDED then w' == w
            else w' == w.(posts := w.posts + {(Service, held)},
                          rows := w.rows[held := row.(status := SUBMITTED, blockReason := w'.rows[held].blockReason,
                                                      verifyAfter := a.now + 60_000)])
                 && (row.status == BLOCKED ==> w'.rows[held].blockReason == None)
    ensures forall reason :: OwnBlocked(w.rows, a, reason) ==
              if w.rows[held].status == SUBMITTED || w.rows[held].status == SUCCEEDED then w.rows
              else w.rows[held := w.rows[held].(status := BLOCKED, blockReason := Some(reason), verifyAfter := a.now + 60_000)]
  {
    assert forall id :: Holds(w.rows, a.request, id) ==> id == held;
  }

  /** With nothing in the way one row is inserted, submitted and posted; a process that dies on the
      way leaves it pending or unposted. */
  lemma FreshAttemptWrites(w: World, a: Attempt)
    requires a.freshId !in w.rows && forall id :: !Holds(w.rows, a.request, id)
    ensures Next(w, Try(a, DiesAfterInsert)) ==
              if !a.operatorActive then w
              else w.(rows := w.rows[a.freshId := Payment(a.request, PAYOUT, PENDING, a.amount, Some(a.operator), None,
                                                          a.now, 0, None, None, a.now)])
    ensures Next(w, Try(a, DiesAfterClaim)) == Next(w, Try(a, Sends)).(posts := w.posts)
    ensures var w' := Next(w, Try(a, Sends));
            if !a.operatorActive then w' == w
            else w' == w.(posts := w.posts + {(Service, a.freshId)},
                          rows := w.rows[a.freshId := Payment(a.request, PAYOUT, SUBMITTED, a.amount, Some(a.operator), None,
                                                              a.now + 60_000, 0, None, None, a.now)])
    ensures forall reason :: OwnBlocked(w.rows, a, reason) ==
              if !a.operatorActive then w.rows
              else w.rows[a.freshId := Payment(a.request, PAYOUT, BLOCKED, a.amount, Some(a.operator), Some(reason),
                                               a.now + 60_000, 0, None, None, a.now)]
  {
  }

  /** What a row becomes when a transfer's answer is classified, field by field. Only SUBMITTED
      and BLOCKED rows still move; a block only ever falls on a SUBMITTED one; only the
      verifier concludes success. */
  function AfterTransfer(row: Payment, caller: Caller, reply: Reply): Payment {
    if row.status != SUBMITTED && row.status != BLOCKED then row
    else if reply == Accepted("failed") || reply == Accepted("abandoned") then row.(status := FAILED, blockReason := None)
    else if reply == Accepted("reversed") then row.(status := REVERSED, blockReason := None)
    else if reply == Accepted("success") && caller == Verifier then row.(status := SUCCEEDED, blockReason := None)
    else if row.status == BLOCKED then row
    else if reply.Rejected? && !reply.duplicate then row.(status := BLOCKED, blockReason := Some(reply.reason))
    else if reply == Accepted("otp") then row.(status := BLOCKED, blockReason := Some(AWAITING_OTP))
    else row
  }

  /** The same for a webhook, which may conclude success too. */
  ghost predicate TransferNotified(row: Payment, row': Payment, status: string) {
    var ended := if status == "success" then SUCCEEDED else if status == "reversed" then REVERSED else FAILED;
    row' == if row.status == SUBMITTED || row.status == BLOCKED then row.(status := ended, blockReason := None) else row
  }

  lemma ReplyAnswers(w: World, caller: Caller, id: PaymentId, reply: Reply)
    requires Inv(w) && (caller, id, reply) in w.replies
    ensures var t' := ApplyReply(w.rows, caller, id, reply);
            id in w.rows && id in t' && t' == w.rows[id := t'[id]] && t'[id] == AfterTransfer(w.rows[id], caller, reply)
  {
    assert Sent(w.rows, id);
    if reply == Accepted("success") && Claimable(w.rows[id].status) { assert !SucceededSibling(w.rows, id); }
  }

  lemma WebhookAnswers(w: World, id: PaymentId, status: string)
    requires Inv(w) && (id, status) in w.webhooks
    ensures var t' := Next(w, HandleWebhook(id, status)).rows;
            id in w.rows && id in t' && t' == w.rows[id := t'[id]] && TransferNotified(w.rows[id], t'[id], status)
  {
    assert Truthful(w.transfers, id, status) && Sent(w.rows, id);
    if status == "success" && Claimable(w.rows[id].status) { assert !SucceededSibling(w.rows, id); }
  }

  class PayoutService {
    var world: World

    ghost predicate Valid()
      reads this
    {
      Inv(world)
    }

    method ClaimPayoutPayment(a: Attempt) returns (claimed: Option<PaymentId>)
      requires Valid() && a.freshId !in world.rows
      modifies this
      ensures Valid()
      ensures claimed == ClaimPayout(old(world).rows, a).1
      ensures world == old(world).(rows := ClaimPayout(old(world).rows, a).0)
    {
      TryKeepsInv(world, a, DiesAfterClaim);
      ghost var before := world;
      var t := world.rows;
      if existing: PaymentId :| existing in t && Holds(t, a.request, existing) {
        assert forall id :: Holds(t, a.request, id) ==> id == existing;
        if t[existing].status == PENDING {
          world := world.(rows := Claim(t, existing, a.now));
          return Some(existing);
        }
        if t[existing].status == BLOCKED {
          world := world.(rows := Unblock(t, existing, a.now));
          return Some(existing);
        }
        return None;
      }
      assert !exists id :: Holds(t, a.request, id);
      if !a.operatorActive { return None; }
      world := world.(rows := t[a.freshId := FreshRow(a)]);
      world := world.(rows := Claim(world.rows, a.freshId, a.now));
      return Some(a.freshId);
    }

    /** Whether this is the first time the reason was recorded on the current attempt. */
    method BlockPayment(a: Attempt, reason: BlockReason) returns (firstTime: bool)
      requires Valid() && a.freshId !in world.rows
      modifies this
      ensures Valid()
      ensures world == old(world).(rows := OwnBlocked(old(world).rows, a, reason))
      ensures firstTime == (ClaimPayout(old(world).rows, a).1.Some? &&
                            !exists id :: Holds(old(world).rows, a.request, id) && old(world).rows[id].blockReason == Some(reason))
    {
      var repeated := exists id :: id in world.rows && Holds(world.rows, a.request, id) && world.rows[id].blockReason == Some(reason);
      var claimed := ClaimPayoutPayment(a);
      if claimed.None? { return false; }
      ClaimPayoutIsLawful(old(world), a);
      NextKeepsInv(world, OwnBlock(claimed.value, reason));
      world := world.(rows := RecordBlocked(world.rows, claimed.value, reason));
      return !repeated;
    }

    /** The automatic and the admin path alike: guards, then the claim, then the post. */
    method AttemptPayout(a: Attempt, hasRecipient: bool, balance: int)
      requires Valid() && a.freshId !in world.rows
      modifies this
      ensures Valid()
      ensures hasRecipient && a.amount <= balance ==> world == Next(old(world), Try(a, Sends))
      ensures !hasRecipient || balance < a.amount ==>
                world == old(world).(rows := OwnBlocked(old(world).rows, a, if hasRecipient then INSUFFICIENT_BALANCE else NO_BANK_DETAILS))
    {
      if !hasRecipient {
        var _ := BlockPayment(a, NO_BANK_DETAILS);
        return;
      }
      if balance < a.amount {
        var _ := BlockPayment(a, INSUFFICIENT_BALANCE);
        return;
      }
      TryKeepsInv(world, a, Sends);
      var claimed := ClaimPayoutPayment(a);
      if claimed.None? { return; }
      world := world.(posts := world.posts + {(Service, claimed.value)});
    }

    /** Only the latest payout of its request is retried, and only while none succeeded. */
    method RetryPayout(id: PaymentId, a: Attempt, hasRecipient: bool, balance: int) returns (answer: RetryAnswer)
      requires Valid() && a.freshId !in world.rows
      requires IsPayout(world.rows, id) && world.rows[id].operator.Some? ==>
                 a.request == world.rows[id].request && a.amount == world.rows[id].amount &&
                 a.operator == world.rows[id].operator.value
      modifies this
      ensures Valid() && RetryAnswers(old(world).rows, id, answer)
      ensures answer != Retried ==> world == old(world)
      ensures id in old(world).rows && old(world).rows[id].status == BLOCKED &&
              old(world).rows[id].blockReason in {Some(AWAITING_OTP), Some(NEEDS_CUSTOMER_DETAILS)} ==>
                world == old(world)
      ensures answer == Retried && hasRecipient && a.amount <= balance ==> world == Next(old(world), Try(a, Sends))
      ensures answer == Retried && (!hasRecipient || balance < a.amount) ==>
                world == old(world).(rows := OwnBlocked(old(world).rows, a, if hasRecipient then INSUFFICIENT_BALANCE else NO_BANK_DETAILS))
    {
      var t := world.rows;
      if !IsPayout(t, id) { return NotFoundError; }
      ghost var witnessed := LatestExists(t, t[id].request, id);
      var latest :| latest in t && IsLatest(t, t[id].request, latest);
      GuardAnswers(t, id, latest);
      answer := RetryGuard(t, id, latest);
      NotTriedAgain(t, id, answer);
      hide Inv, RetryAnswers, RetryGuard, IsLatest, ClaimPayout, Next, Enabled;
      if answer == Retried {
        AttemptPayout(a, hasRecipient, balance);
      }
    }

    /** Classifies a reply to a post or a read: any answer the network may still deliver. */
    method ApplyTransferResult(caller: Caller, id: PaymentId, reply: Reply) returns (paidNow: bool)
      requires Valid() && (caller, id, reply) in world.replies
      modifies this
      ensures Valid() && world == Next(old(world), HandleReply(caller, id, reply))
      ensures world == old(world).(rows := old(world).rows[id := AfterTransfer(old(world).rows[id], caller, reply)])
      ensures paidNow <==> old(world).rows[id].status != SUCCEEDED && world.rows[id].status == SUCCEEDED
    {
      ReplyKeepsInv(world, caller, id, reply);
      ReplyAnswers(world, caller, id, reply);
      hide Inv, AfterTransfer;
      paidNow := false;
      var t := world.rows;
      if reply.Ambiguous? || reply.NotFound? { return; }
      if reply.Rejected? {
        if reply.duplicate { return; }
        world := world.(rows := RecordBlocked(t, id, reply.reason));
        return;
      }
      var mapped := MapTransferStatus(reply.status);
      if mapped.status == BLOCKED {
        world := world.(rows := RecordBlocked(t, id, mapped.blockReason.value));
      } else if mapped.status == FAILED || mapped.status == REVERSED || (mapped.status == SUCCEEDED && caller == Verifier) {
        world := world.(rows := ClaimTerminal(t, id, mapped));
        paidNow := mapped.status == SUCCEEDED && WinsTerminal(t, id, mapped);
      }
    }
  }
}
