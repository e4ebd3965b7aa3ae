/** Inbound money: one deposit or balance row, its one checkout call, the customer who may
    hold the link, and the verifier that may write the row off. Times are milliseconds. */
module CollectionProtocol {
  import opened Payments
  import opened Ledger

  datatype Call = NoCall | OnWire | Done
  datatype CallReply = NoReply | LinkReply(url: string) | RejectReply

  /** What one verification read: the provider's answer, and whether the row it loaded
      already held a link. */
  datatype Answer = Answer(found: Option<string>, hasLink: bool)

  /** timely says whether the network keeps the promise INITIAL_VERIFY_DELAY_MS is built on:
      a checkout call that arrives, and a reply that is stored, do so within the delay. */
  datatype World = World(
    timely: bool,
    now: int,
    id: PaymentId,
    rows: Table,
    deadline: int,
    call: Call,
    reply: CallReply,
    transaction: Option<string>,
    linkOut: bool,
    paid: bool,
    answers: set<Answer>)

  function Status(w: World): PaymentStatus
    requires w.id in w.rows
  {
    w.rows[w.id].status
  }

  predicate InTime(w: World) { w.timely ==> w.now <= w.deadline }

  /** verifyCollection: fail on not found, settle on a final status, fail an unpayable row
      that never got its link, otherwise keep polling. */
  function VerifyCollection(t: Table, id: PaymentId, now: int, answer: Answer): Table {
    match answer.found
    case None => ClaimTerminal(t, id, Plain(FAILED))
    case Some(status) =>
      var mapped := MapTransactionStatus(status);
      if mapped.status != SUBMITTED then ClaimTerminal(t, id, mapped)
      else if !answer.hasLink then ClaimTerminal(t, id, Plain(FAILED))
      else BackOff(t, id, now)
  }

  datatype Step =
    | Submit(dies: bool)
    | Wait(until: int)
    | Arrive(status: string, url: string, answered: bool)
    | RefuseCall
    | LoseCall
    | LoseReply
    | HandleReply(sends: bool)
    | Pay
    | Fail
    | Reverse
    | Read
    | HandleAnswer(answer: Answer)
    | HandleWebhook
    | Postpone
    | OtherRows(rows: Table)

  /** A transaction nobody has paid and the provider has not closed. */
  predicate Open(s: string) { s !in {"success", "failed", "reversed"} }

  ghost predicate Enabled(w: World, step: Step) {
    w.id in w.rows &&
    match step
    case Submit(_) => true
    case Wait(until) => w.now <= until
    case Arrive(status, _, _) => w.call == OnWire && InTime(w) && Open(status)
    case RefuseCall => w.call == OnWire && InTime(w)
    case LoseCall => w.call == OnWire
    case LoseReply => true
    case HandleReply(_) => !w.reply.NoReply? && InTime(w)
    // Only a customer holding the link can pay.
    case Pay => w.linkOut && w.transaction.Some? && Open(w.transaction.value)
    case Fail => w.transaction.Some? && Open(w.transaction.value)
    case Reverse => w.transaction == Some("success")
    case Read => Status(w) == SUBMITTED && w.rows[w.id].verifyAfter < w.now
    case HandleAnswer(answer) => answer in w.answers
    case HandleWebhook => w.transaction.Some? && EndedPaid(w.transaction.value)
    case Postpone => w.answers != {}
    case OtherRows(rows) => w.id in rows && rows[w.id] == w.rows[w.id]
  }

  predicate EndedPaid(s: string) { s == "success" || s == "reversed" }

  ghost function Next(w: World, step: Step): World
    requires Enabled(w, step)
  {
    match step
    case Submit(dies) =>
      if !CanClaim(w.rows, w.id) then w
      else w.(rows := Claim(w.rows, w.id, w.now), deadline := w.now + INITIAL_VERIFY_DELAY_MS,
              call := if dies then Done else OnWire)
    case Wait(until) => w.(now := until)
    case Arrive(status, url, answered) =>
      w.(call := Done, transaction := Some(status), reply := if answered then LinkReply(url) else NoReply)
    case RefuseCall => w.(call := Done, reply := RejectReply)
    case LoseCall => w.(call := Done)
    case LoseReply => w.(reply := NoReply)
    case HandleReply(sends) =>
      if w.reply.RejectReply? then w.(rows := RecordRejection(w.rows, w.id, None), reply := NoReply)
      else w.(rows := StoreLink(w.rows, w.id, w.reply.url), linkOut := w.linkOut || sends, reply := NoReply)
    case Pay => w.(transaction := Some("success"), paid := true)
    case Fail => w.(transaction := Some("failed"))
    case Reverse => w.(transaction := Some("reversed"))
    case Read => w.(answers := w.answers + {Answer(w.transaction, w.rows[w.id].checkoutUrl.Some?)})
    case HandleAnswer(answer) => w.(rows := VerifyCollection(w.rows, w.id, w.now, answer))
    case HandleWebhook => w.(rows := ClaimTerminal(w.rows, w.id, Plain(SUCCEEDED)))
    case Postpone => w.(rows := BackOff(w.rows, w.id, w.now))
    case OtherRows(rows) => w.(rows := rows)
  }

  // ---- The invariant, for a timely network --------------------------------------

  /** No link will ever reach the customer. */
  predicate NoLinkEver(w: World)
    requires w.id in w.rows
  {
    !w.linkOut && w.rows[w.id].checkoutUrl == None && w.now > w.deadline
  }

  ghost predicate AnswerOk(w: World, answer: Answer)
    requires w.id in w.rows
  {
    && w.now > w.deadline
    && (answer.found == None ==> w.transaction == None)
    && (!answer.hasLink ==> w.rows[w.id].checkoutUrl == None)
    && (answer.found == Some("failed") ==> w.transaction == Some("failed"))
  }

  ghost predicate Inv(w: World) {
    && w.timely && w.id in w.rows
    && w.rows[w.id].kind in {DEPOSIT, BALANCE}
    && (Status(w) == PENDING ==>
          w.call == NoCall && w.reply.NoReply? && w.answers == {} && w.transaction == None)
    && (Status(w) != PENDING ==> w.call != NoCall && w.deadline <= w.rows[w.id].verifyAfter)
    && (w.call == OnWire ==> w.transaction == None && w.reply.NoReply?)
    && (w.reply.RejectReply? ==> w.transaction == None)
    && (w.reply.LinkReply? ==> w.transaction.Some?)
    && (w.transaction == None ==> w.rows[w.id].checkoutUrl == None)
    && (w.linkOut ==> w.rows[w.id].checkoutUrl.Some?)
    && (w.paid ==> w.linkOut && w.transaction.Some? && EndedPaid(w.transaction.value))
    && (w.transaction.Some? && EndedPaid(w.transaction.value) ==> w.paid)
    && (forall a | a in w.answers :: AnswerOk(w, a))
    && (Status(w) == FAILED ==>
          w.transaction == Some("failed") || NoLinkEver(w) || (w.transaction == None && w.call == Done && w.reply.NoReply?))
  }

  ghost predicate Init(w: World) {
    && w.timely && w.id in w.rows && w.rows[w.id].kind in {DEPOSIT, BALANCE} && Status(w) == PENDING
    && w.rows[w.id].checkoutUrl == None
    && w.call == NoCall && w.reply.NoReply? && w.transaction == None && !w.linkOut && !w.paid && w.answers == {}
  }

  lemma AnswerKeepsInv(w: World, answer: Answer)
    requires Inv(w) && answer in w.answers
    ensures Inv(w.(rows := VerifyCollection(w.rows, w.id, w.now, answer)))
  {
  }

  lemma NextKeepsInv(w: World, step: Step)
    requires Inv(w) && Enabled(w, step)
    ensures Inv(Next(w, step))
  {
    if step.HandleAnswer? {
      AnswerKeepsInv(w, step.answer);
    } else {
      var w' := Next(w, step);
      forall a | a in w'.answers
        ensures AnswerOk(w', a)
      {
        assert a in w.answers ==> AnswerOk(w, a);
      }
    }
  }

  ghost predicate IsRun(ws: seq<World>, steps: seq<Step>) {
    && |ws| == |steps| + 1
    && (forall k | 0 <= k < |steps| :: Enabled(ws[k], steps[k]) && ws[k + 1] == Next(ws[k], steps[k]))
  }

  lemma {:induction false} RunKeepsInv(ws: seq<World>, steps: seq<Step>, k: nat)
    requires IsRun(ws, steps) && Init(ws[0]) && k < |ws|
    ensures Inv(ws[k])
  {
    if k > 0 {
      RunKeepsInv(ws, steps, k - 1);
      NextKeepsInv(ws[k - 1], steps[k - 1]);
    }
  }

  /** No payable link is written off. On a timely network, at every point of every run: a
      FAILED row that holds a checkout link was failed by the provider itself, and no money
      has arrived, or ever arrives, on a FAILED row. */
  lemma NoPayableLinkWrittenOff(ws: seq<World>, steps: seq<Step>, k: nat)
    requires IsRun(ws, steps) && Init(ws[0]) && k < |ws|
    requires ws[k].id in ws[k].rows && Status(ws[k]) == FAILED
    ensures ws[k].rows[ws[k].id].checkoutUrl.Some? ==> ws[k].transaction == Some("failed")
    ensures !ws[k].paid
  {
    RunKeepsInv(ws, steps, k);
  }

  /** Money that arrives is booked. On a timely network, at every point of every run, the webhook
      of a paid transaction finds its row settled already, or settles it: as the request's
      success, or beside an earlier one as a duplicate, and never as a failure. */
  lemma PaidMoneyIsBooked(ws: seq<World>, steps: seq<Step>, k: nat)
    requires IsRun(ws, steps) && Init(ws[0]) && k < |steps| && steps[k].HandleWebhook?
    ensures var w, w' := ws[k], ws[k + 1];
            && w.id in w.rows && w'.id == w.id && w.id in w'.rows && w.paid
            && w' == w.(rows := w.rows[w.id := w'.rows[w.id]])
            && (if Status(w) in {SUBMITTED, BLOCKED}
                then w'.rows[w.id] == w.rows[w.id].(blockReason := None,
                       status := if SucceededSibling(w.rows, w.id) then DUPLICATE_SUCCEEDED else SUCCEEDED)
                else w' == w && Status(w) in {SUCCEEDED, DUPLICATE_SUCCEEDED, REVERSED})
  {
    RunKeepsInv(ws, steps, k);
    hide SucceededSibling;
    var w := ws[k];
    assert Enabled(w, steps[k]) && ws[k + 1] == Next(w, steps[k]);
    assert w.rows == w.rows[w.id := w.rows[w.id]];
  }

  /** A row is verified, failed, and then the call arrives after all: its link is stored and
      sent, the customer pays, and the webhook finds a row it cannot claim. */
  function LateSteps(w: World, url: string): seq<Step>
    requires w.id in w.rows
  {
    [Read, HandleAnswer(Answer(None, w.rows[w.id].checkoutUrl.Some?)),
     Arrive("abandoned", url, true), HandleReply(true), Pay, HandleWebhook]
  }

  ghost predicate StepsTo(w: World, step: Step, w': World) { Enabled(w, step) && w' == Next(w, step) }

  /** The promise is needed: from any submitted row whose call is still on the wire when it
      is first verified, a run ends with the customer's money on a FAILED row. */
  lemma LateCallLosesMoney(w: World, url: string)
    requires !w.timely && w.id in w.rows && Status(w) == SUBMITTED
    requires w.call == OnWire && w.transaction == None && w.rows[w.id].verifyAfter < w.now
    ensures exists ws: seq<World> :: IsRun(ws, LateSteps(w, url)) && ws[0] == w &&
              ws[6].id in ws[6].rows && Status(ws[6]) == FAILED && ws[6].paid
  {
    var steps := LateSteps(w, url);
    var w1, w2 := WriteOff(w);
    var w3, w4 := LinkArrives(w2, url);
    var w5 := Next(w4, Pay);
    var w6 := Next(w5, HandleWebhook);
    assert w6.id in w6.rows && Status(w6) == FAILED && w6.paid;
    assert StepsTo(w4, Pay, w5) && StepsTo(w5, HandleWebhook, w6);
    hide Next, Enabled;
    var ws := [w, w1, w2, w3, w4, w5, w6];
    forall k | 0 <= k < |steps|
      ensures StepsTo(ws[k], steps[k], ws[k + 1])
    {
      if k == 0 {} else if k == 1 {} else if k == 2 {} else if k == 3 {} else if k == 4 {} else {}
    }
    assert IsRun(ws, steps);
  }

  lemma WriteOff(w: World) returns (w1: World, w2: World)
    requires w.id in w.rows && Status(w) == SUBMITTED && w.rows[w.id].verifyAfter < w.now && w.transaction == None
    ensures var answer := Answer(None, w.rows[w.id].checkoutUrl.Some?);
            StepsTo(w, Read, w1) && StepsTo(w1, HandleAnswer(answer), w2)
    ensures w2.id in w2.rows && Status(w2) == FAILED && w2 == w.(rows := w2.rows, answers := w2.answers)
  {
    w1 := Next(w, Read);
    w2 := Next(w1, HandleAnswer(Answer(None, w.rows[w.id].checkoutUrl.Some?)));
  }

  lemma LinkArrives(w: World, url: string) returns (w1: World, w2: World)
    requires !w.timely && w.id in w.rows && Status(w) == FAILED && w.call == OnWire
    ensures StepsTo(w, Arrive("abandoned", url, true), w1) && StepsTo(w1, HandleReply(true), w2)
    ensures w2.id in w2.rows && Status(w2) == FAILED && w2.linkOut && w2.transaction == Some("abandoned")
  {
    w1 := Next(w, Arrive("abandoned", url, true));
    w2 := Next(w1, HandleReply(true));
  }
}
