/** What the verifier does to one row, with or without an exception on the way, is a short path
    of the row's protocol, so the protocol's invariant holds after it. */
module VerifierRefinement {
  import opened Payments
  import opened Ledger
  import V = VerifyCheck
  import C = CollectionProtocol
  import P = PayoutProtocol
  import R = RefundProtocol

  // ---- Payouts ------------------------------------------------------------------

  ghost predicate PayoutPath(w: P.World, steps: seq<P.Step>, w': P.World)
    decreases |steps|
  {
    if steps == [] then w' == w
    else P.Enabled(w, steps[0]) && PayoutPath(P.Next(w, steps[0]), steps[1..], w')
  }

  lemma {:induction false} PayoutPathKeepsInv(w: P.World, steps: seq<P.Step>, w': P.World)
    requires P.Inv(w) && PayoutPath(w, steps, w')
    ensures P.Inv(w')
    decreases |steps|
  {
    if steps != [] {
      P.NextKeepsInv(w, steps[0]);
      PayoutPathKeepsInv(P.Next(w, steps[0]), steps[1..], w');
    }
  }

  lemma PayoutPathStep(w: P.World, step: P.Step, steps: seq<P.Step>, w': P.World)
    requires P.Enabled(w, step) && PayoutPath(P.Next(w, step), steps, w')
    ensures PayoutPath(w, [step] + steps, w')
  {
    assert ([step] + steps)[1..] == steps;
  }

  /** The provider may answer a post of this row so, creating a transfer or not. */
  ghost predicate CanLand(w: P.World, id: PaymentId, reply: P.Reply, created: Option<string>) {
    P.Enabled(w.(posts := w.posts + {(P.Verifier, id)}), P.Land(P.Verifier, id, reply, created))
  }

  /** Classify a reply, and back off while the transfer is still moving. */
  lemma SettleRefines(w: P.World, id: PaymentId, now: int, reply: P.Reply) returns (steps: seq<P.Step>, w': P.World)
    requires P.IsPayout(w.rows, id) && (P.Verifier, id, reply) in w.replies
    ensures PayoutPath(w, steps, w') && w'.rows == V.SettleTransfer(w.rows, id, now, reply).rows && w'.posts == w.posts
  {
    var handle := P.HandleReply(P.Verifier, id, reply);
    var w1 := P.Next(w, handle);
    steps, w' := [], w1;
    if reply.Ambiguous? || reply.NotFound? || (reply.Rejected? && reply.duplicate) ||
       (reply.Accepted? && MapTransferStatus(reply.status).status == SUBMITTED) {
      w' := P.Next(w1, P.Postpone(id, now));
      PayoutPathStep(w1, P.Postpone(id, now), [], w');
      steps := [P.Postpone(id, now)];
    }
    PayoutPathStep(w, handle, steps, w');
    steps := [handle] + steps;
  }

  /** Post, be answered, classify. */
  lemma PostRefines(w: P.World, id: PaymentId, reply: P.Reply, created: Option<string>) returns (land: P.Step, w': P.World)
    requires (P.Verifier, id) in w.posts && CanLand(w, id, reply, created)
    ensures P.Enabled(w, land) && w' == P.Next(w, land)
    ensures w'.rows == w.rows && w'.posts == w.posts && (P.Verifier, id, reply) in w'.replies
  {
    assert w.(posts := w.posts + {(P.Verifier, id)}) == w;
    land := P.Land(P.Verifier, id, reply, created);
    w' := P.Next(w, land);
  }

  lemma InitiateRefines(w: P.World, id: PaymentId, now: int, v: V.View, created: Option<string>)
    returns (steps: seq<P.Step>, w': P.World)
    requires P.IsPayout(w.rows, id) && w.rows[id].status == PENDING
    requires v.canInitiate ==> CanLand(w, id, v.transferPost, created)
    ensures PayoutPath(w, steps, w') && w'.rows == V.Process(w.rows, id, now, v).rows && (P.Verifier, id) in w'.posts
  {
    var initiate := P.Initiate(id, now);
    var w1 := P.Next(w, initiate);
    if v.canInitiate {
      var land, w2 := PostRefines(w1, id, v.transferPost, created);
      var handle := P.HandleReply(P.Verifier, id, v.transferPost);
      w' := P.Next(w2, handle);
      PayoutPathStep(w2, handle, [], w');
      PayoutPathStep(w1, land, [handle], w');
      steps := [land] + [handle];
    } else {
      steps, w' := [], w1;
    }
    PayoutPathStep(w, initiate, steps, w');
    steps := [initiate] + steps;
  }

  lemma VerifyRefines(w: P.World, id: PaymentId, now: int, v: V.View, created: Option<string>)
    returns (steps: seq<P.Step>, w': P.World)
    requires P.IsPayout(w.rows, id) && w.rows[id].status == SUBMITTED && P.Enabled(w, P.Read(id, v.transferRead))
    requires V.PostTransfer(id) in V.Process(w.rows, id, now, v).log ==> CanLand(w, id, v.transferPost, created)
    ensures PayoutPath(w, steps, w') && w'.rows == V.Process(w.rows, id, now, v).rows
    ensures V.PostTransfer(id) in V.Process(w.rows, id, now, v).log ==> (P.Verifier, id) in w'.posts
  {
    hide V.SettleTransfer;
    var read := P.Read(id, v.transferRead);
    var w1 := P.Next(w, read);
    if v.transferRead.Accepted? {
      steps, w' := SettleRefines(w1, id, now, v.transferRead);
      assert V.PostTransfer(id) !in V.Process(w.rows, id, now, v).log by { SettlingPostsNothing(w.rows, id, now, v.transferRead); }
    } else if v.transferRead.NotFound? && w.rows[id].verifyAttempts < MAX_VERIFY_ATTEMPTS && v.canInitiate {
      assert V.Process(w.rows, id, now, v).log[0] == V.PostTransfer(id);
      steps, w' := ResubmitRefines(w1, id, now, v.transferPost, created);
    } else {
      w' := P.Next(w1, P.Postpone(id, now));
      PayoutPathStep(w1, P.Postpone(id, now), [], w');
      steps := [P.Postpone(id, now)];
    }
    PayoutPathStep(w, read, steps, w');
    steps := [read] + steps;
  }

  lemma SettlingPostsNothing(t: Table, id: PaymentId, now: int, reply: P.Reply)
    requires id in t
    ensures V.PostTransfer(id) !in V.SettleTransfer(t, id, now, reply).log
  {
  }

  /** Nothing was found, so the same reference is posted again and the answer classified. */
  lemma ResubmitRefines(w: P.World, id: PaymentId, now: int, reply: P.Reply, created: Option<string>)
    returns (steps: seq<P.Step>, w': P.World)
    requires P.IsPayout(w.rows, id) && (P.Verifier, id, P.NotFound) in w.replies && CanLand(w, id, reply, created)
    ensures PayoutPath(w, steps, w') && w'.rows == V.SettleTransfer(w.rows, id, now, reply).rows && (P.Verifier, id) in w'.posts
  {
    hide V.SettleTransfer;
    var w1 := P.Next(w, P.Resubmit(id));
    var land, w2 := PostRefines(w1, id, reply, created);
    steps, w' := SettleRefines(w2, id, now, reply);
    PayoutPathStep(w1, land, steps, w');
    PayoutPathStep(w, P.Resubmit(id), [land] + steps, w');
    steps := [P.Resubmit(id)] + ([land] + steps);
  }

  /** Whatever the provider answers and wherever an exception stops it, what the verifier does to
      a due payout row is a path of the payout protocol, and so keeps its invariant; every
      transfer it posts is a post of the protocol. */
  lemma PayoutRowRefines(w: P.World, id: PaymentId, now: int, v: V.View, created: Option<string>)
    returns (steps: seq<P.Step>, w': P.World)
    requires P.Inv(w) && P.IsPayout(w.rows, id) && V.Due(w.rows, id, now)
    requires w.rows[id].status == SUBMITTED ==> P.Enabled(w, P.Read(id, v.transferRead))
    requires V.RunsThrough(v) && V.PostTransfer(id) in V.Process(w.rows, id, now, v).log ==> CanLand(w, id, v.transferPost, created)
    ensures PayoutPath(w, steps, w') && P.Inv(w') && w'.rows == V.Attempt(w.rows, id, now, v).rows
    ensures V.PostTransfer(id) in V.Attempt(w.rows, id, now, v).log ==> (P.Verifier, id) in w'.posts
  {
    if !V.RunsThrough(v) {
      steps, w' := StoppedPayoutRefines(w, id, now, v);
    } else if w.rows[id].status == PENDING {
      if v.canInitiate { assert V.Process(w.rows, id, now, v).log[0] == V.PostTransfer(id); }
      steps, w' := InitiateRefines(w, id, now, v, created);
    } else {
      steps, w' := VerifyRefines(w, id, now, v, created);
    }
    PayoutPathKeepsInv(w, steps, w');
  }

  /** An exception leaves at most the claim, and of the calls at most one that was owed. */
  lemma StoppedWrites(t: Table, id: PaymentId, now: int, v: V.View, post: V.Action)
    requires V.Due(t, id, now) && !V.RunsThrough(v) && post.id == id
    ensures V.Attempt(t, id, now, v).rows == if v.fate.ThrowsFirst? then t else Claim(t, id, now)
    ensures post in V.Attempt(t, id, now, v).log ==>
              v.fate.ThrowsAfterClaim? && v.fate.called && V.Owed(t[id], V.Attempt(t, id, now, v).rows[id], v, post)
  {
    V.AttemptOwes(t, id, now, v, post);
    hide V.Process, V.Owed;
  }

  lemma StoppedPayoutRefines(w: P.World, id: PaymentId, now: int, v: V.View) returns (steps: seq<P.Step>, w': P.World)
    requires P.IsPayout(w.rows, id) && V.Due(w.rows, id, now) && !V.RunsThrough(v)
    requires w.rows[id].status == SUBMITTED ==> P.Enabled(w, P.Read(id, v.transferRead))
    ensures PayoutPath(w, steps, w') && w'.rows == V.Attempt(w.rows, id, now, v).rows
    ensures V.PostTransfer(id) in V.Attempt(w.rows, id, now, v).log ==> (P.Verifier, id) in w'.posts
  {
    StoppedWrites(w.rows, id, now, v, V.PostTransfer(id));
    hide V.Attempt, P.ApplyReply;
    steps, w' := [], w;
    if v.fate.ThrowsAfterClaim? && w.rows[id].status == PENDING {
      w' := P.Next(w, P.Initiate(id, now));
      PayoutPathStep(w, P.Initiate(id, now), [], w');
      steps := [P.Initiate(id, now)];
    } else if V.PostTransfer(id) in V.Attempt(w.rows, id, now, v).log {
      var w1 := P.Next(w, P.Read(id, v.transferRead));
      w' := P.Next(w1, P.Resubmit(id));
      PayoutPathStep(w1, P.Resubmit(id), [], w');
      PayoutPathStep(w, P.Read(id, v.transferRead), [P.Resubmit(id)], w');
      steps := [P.Read(id, v.transferRead)] + [P.Resubmit(id)];
    }
  }

  // ---- Refunds ------------------------------------------------------------------

  ghost predicate RefundPath(w: R.World, steps: seq<R.Step>, w': R.World)
    decreases |steps|
  {
    if steps == [] then w' == w
    else R.Enabled(w, steps[0]) && RefundPath(R.Next(w, steps[0]), steps[1..], w')
  }

  lemma {:induction false} RefundPathKeepsInv(w: R.World, steps: seq<R.Step>, w': R.World)
    requires R.Inv(w) && RefundPath(w, steps, w')
    ensures R.Inv(w')
    decreases |steps|
  {
    hide R.Inv;
    if steps != [] {
      R.NextKeepsInv(w, steps[0]);
      RefundPathKeepsInv(R.Next(w, steps[0]), steps[1..], w');
    }
  }

  lemma RefundPathStep(w: R.World, step: R.Step, steps: seq<R.Step>, w': R.World)
    requires R.Enabled(w, step) && RefundPath(R.Next(w, step), steps, w')
    ensures RefundPath(w, [step] + steps, w')
  {
    assert ([step] + steps)[1..] == steps;
  }

  /** The reply a landing post of a refund puts on its way back. */
  function PostAnswer(w: R.World, created: Option<string>, answered: bool): R.Reply {
    if !answered then R.Ambiguous else if created.Some? then R.Accepted(|w.records|, created.value) else R.Rejected
  }

  /** What the verifier does to a due refund row, wherever an exception stops it, is a path of
      the refund protocol: one claimed post when it was PENDING, a listing and nothing else
      when it was SUBMITTED. */
  lemma RefundRowRefines(w: R.World, id: PaymentId, now: int, v: V.View, created: Option<string>, answered: bool)
    returns (steps: seq<R.Step>, w': R.World)
    requires R.Inv(w) && R.IsRefund(w.rows, id) && V.Due(w.rows, id, now)
    requires V.RunsThrough(v) && w.rows[id].status == PENDING && v.canInitiate ==> v.refundPost == PostAnswer(w, created, answered)
    requires w.rows[id].status == SUBMITTED && v.refundSearch.Match? ==>
               R.Enabled(w, R.List(id, v.refundSearch.number)) &&
               v.refundSearch.status == w.records[v.refundSearch.number].status
    ensures RefundPath(w, steps, w') && R.Inv(w') && w'.rows == V.Attempt(w.rows, id, now, v).rows
    ensures V.PostRefund(id) in V.Attempt(w.rows, id, now, v).log ==> id in w'.posts
  {
    if !V.RunsThrough(v) {
      steps, w' := StoppedRefundRefines(w, id, now, v);
    } else if w.rows[id].status == PENDING {
      steps, w' := RefundInitiateRefines(w, id, now, v, created, answered);
    } else {
      steps, w' := RefundVerifyRefines(w, id, now, v);
    }
    hide R.Inv, V.Process, V.Attempt;
    RefundPathKeepsInv(w, steps, w');
  }

  lemma StoppedRefundRefines(w: R.World, id: PaymentId, now: int, v: V.View) returns (steps: seq<R.Step>, w': R.World)
    requires R.IsRefund(w.rows, id) && V.Due(w.rows, id, now) && !V.RunsThrough(v)
    ensures RefundPath(w, steps, w') && w'.rows == V.Attempt(w.rows, id, now, v).rows
    ensures V.PostRefund(id) in V.Attempt(w.rows, id, now, v).log ==> id in w'.posts
  {
    StoppedWrites(w.rows, id, now, v, V.PostRefund(id));
    hide V.Attempt, R.ApplyReply;
    steps, w' := [], w;
    if v.fate.ThrowsAfterClaim? && w.rows[id].status == PENDING {
      var submit := R.Step.Submit(R.Verifier, id, now, v.fate.called && v.canInitiate);
      w' := R.Next(w, submit);
      RefundPathStep(w, submit, [], w');
      steps := [submit];
    }
  }

  lemma RefundInitiateRefines(w: R.World, id: PaymentId, now: int, v: V.View, created: Option<string>, answered: bool)
    returns (steps: seq<R.Step>, w': R.World)
    requires R.IsRefund(w.rows, id) && w.rows[id].status == PENDING
    requires v.canInitiate ==> v.refundPost == PostAnswer(w, created, answered)
    ensures RefundPath(w, steps, w') && w'.rows == V.Process(w.rows, id, now, v).rows && (v.canInitiate ==> id in w'.posts)
  {
    var submit := R.Step.Submit(R.Verifier, id, now, v.canInitiate);
    var w1 := R.Next(w, submit);
    steps, w' := [], w1;
    if v.canInitiate {
      var land := R.Land(R.Verifier, id, created, answered);
      var w2 := R.Next(w1, land);
      var handle := R.HandleReply(R.Verifier, id, v.refundPost);
      assert (R.Verifier, id, v.refundPost) in w2.replies;
      w' := R.Next(w2, handle);
      RefundPathStep(w2, handle, [], w');
      RefundPathStep(w1, land, [handle], w');
      steps := [land] + [handle];
    }
    RefundPathStep(w, submit, steps, w');
    steps := [submit] + steps;
  }

  lemma RefundVerifyRefines(w: R.World, id: PaymentId, now: int, v: V.View)
    returns (steps: seq<R.Step>, w': R.World)
    requires R.IsRefund(w.rows, id) && w.rows[id].status == SUBMITTED
    requires v.refundSearch.Match? ==>
               R.Enabled(w, R.List(id, v.refundSearch.number)) &&
               v.refundSearch.status == w.records[v.refundSearch.number].status
    ensures RefundPath(w, steps, w') && w'.rows == V.Process(w.rows, id, now, v).rows
  {
    var postpone := R.Step.Postpone(id, now);
    if !v.refundSearch.Match? {
      w' := R.Next(w, postpone);
      RefundPathStep(w, postpone, [], w');
      steps := [postpone];
    } else {
      var number, status := v.refundSearch.number, v.refundSearch.status;
      var list, handle := R.List(id, number), R.HandleReply(R.Verifier, id, R.Accepted(number, status));
      var w1 := R.Next(w, list);
      var w2 := R.Next(w1, handle);
      steps, w' := [], w2;
      if MapRefundStatus(status).status == SUBMITTED {
        w' := R.Next(w2, postpone);
        RefundPathStep(w2, postpone, [], w');
        steps := [postpone];
      }
      RefundPathStep(w1, handle, steps, w');
      RefundPathStep(w, list, [handle] + steps, w');
      steps := [list] + ([handle] + steps);
    }
  }

  // ---- Collections ----------------------------------------------------------------

  ghost predicate CollectionPath(w: C.World, steps: seq<C.Step>, w': C.World)
    decreases |steps|
  {
    if steps == [] then w' == w
    else C.Enabled(w, steps[0]) && CollectionPath(C.Next(w, steps[0]), steps[1..], w')
  }

  lemma CollectionPathStep(w: C.World, step: C.Step, steps: seq<C.Step>, w': C.World)
    requires C.Enabled(w, step) && CollectionPath(C.Next(w, step), steps, w')
    ensures CollectionPath(w, [step] + steps, w')
  {
    assert ([step] + steps)[1..] == steps;
  }

  lemma {:induction false} CollectionPathKeepsInv(w: C.World, steps: seq<C.Step>, w': C.World)
    requires C.Inv(w) && CollectionPath(w, steps, w')
    ensures C.Inv(w')
    decreases |steps|
  {
    hide C.Inv;
    if steps != [] {
      C.NextKeepsInv(w, steps[0]);
      CollectionPathKeepsInv(C.Next(w, steps[0]), steps[1..], w');
    }
  }

  /** What the verifier does to a due deposit or balance, wherever an exception stops it, is a
      path of the collection protocol, on any network: the one checkout call, answered at once
      or never, or one read. */
  lemma CollectionRowRefines(w: C.World, v: V.View) returns (steps: seq<C.Step>, w': C.World)
    requires w.id in w.rows && w.rows[w.id].kind in {DEPOSIT, BALANCE} && V.Due(w.rows, w.id, w.now)
    requires w.rows[w.id].status == SUBMITTED && v.transactionKnown ==> v.transaction == w.transaction
    ensures CollectionPath(w, steps, w') && w'.rows == V.Attempt(w.rows, w.id, w.now, v).rows
    ensures C.Inv(w) ==> C.Inv(w')
  {
    if !V.RunsThrough(v) {
      steps, w' := StoppedCollectionRefines(w, v);
    } else if w.rows[w.id].status == PENDING {
      steps, w' := CheckoutRefines(w, v);
    } else {
      var w1 := C.Next(w, C.Read);
      var step := if v.transactionKnown then C.HandleAnswer(C.Answer(w.transaction, w.rows[w.id].checkoutUrl.Some?))
                  else C.Step.Postpone;
      w' := C.Next(w1, step);
      CollectionPathStep(w1, step, [], w');
      CollectionPathStep(w, C.Read, [step], w');
      steps := [C.Read] + [step];
    }
    hide C.Inv, V.Process, V.Attempt;
    if C.Inv(w) { CollectionPathKeepsInv(w, steps, w'); }
  }

  lemma StoppedCollectionRefines(w: C.World, v: V.View) returns (steps: seq<C.Step>, w': C.World)
    requires w.id in w.rows && w.rows[w.id].kind in {DEPOSIT, BALANCE} && V.Due(w.rows, w.id, w.now) && !V.RunsThrough(v)
    ensures CollectionPath(w, steps, w') && w'.rows == V.Attempt(w.rows, w.id, w.now, v).rows
  {
    steps, w' := [], w;
    if v.fate.ThrowsAfterClaim? && w.rows[w.id].status == PENDING {
      var submit := C.Step.Submit(!v.fate.called);
      w' := C.Next(w, submit);
      CollectionPathStep(w, submit, [], w');
      steps := [submit];
    }
  }

  lemma CheckoutRefines(w: C.World, v: V.View) returns (steps: seq<C.Step>, w': C.World)
    requires w.id in w.rows && w.rows[w.id].kind in {DEPOSIT, BALANCE} && w.rows[w.id].status == PENDING
    ensures CollectionPath(w, steps, w') && w'.rows == V.Process(w.rows, w.id, w.now, v).rows
  {
    hide V.Verify, V.InitiatePayout, V.InitiateRefund, C.VerifyCollection;
    var submit := C.Step.Submit(!v.canInitiate);
    var w1 := C.Next(w, submit);
    steps, w' := [], w1;
    if v.canInitiate {
      var refused := (w.rows[w.id].kind == DEPOSIT && !v.operatorAssigned) || v.checkout.Refused?;
      if refused || v.checkout.Link? {
        steps, w' := AnswerRefines(w1, if refused then C.RefuseCall else C.Arrive("pending", v.checkout.url, true));
      }
    }
    CollectionPathStep(w, submit, steps, w');
    steps := [submit] + steps;
  }

  /** The checkout call is answered at once, and the answer stored. */
  lemma AnswerRefines(w: C.World, answer: C.Step) returns (steps: seq<C.Step>, w': C.World)
    requires w.id in w.rows && w.call == C.OnWire && w.now <= w.deadline
    requires answer.RefuseCall? || (answer.Arrive? && answer.status == "pending" && answer.answered)
    ensures CollectionPath(w, steps, w')
    ensures w'.rows == if answer.RefuseCall? then RecordRejection(w.rows, w.id, None) else StoreLink(w.rows, w.id, answer.url)
  {
    hide C.VerifyCollection;
    var w1 := C.Next(w, answer);
    w' := C.Next(w1, C.HandleReply(true));
    CollectionPathStep(w1, C.HandleReply(true), [], w');
    CollectionPathStep(w, answer, [C.HandleReply(true)], w');
    steps := [answer] + [C.HandleReply(true)];
  }
}
