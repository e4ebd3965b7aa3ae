/** The dispatch transactions performed in place on a request's row and its offers, and the
    two reconciler passes that drive them. */
module DispatchService {
  import opened Payments
  import opened RoundSearch
  import opened Dispatch
  import A = Auction
  import B = Bidding
  import L = Ledger

  class RescueRequest {
    var row: Job
    var offers: Offers
    var collectBy: Option<int>
    var closedAt: Option<int>
    var chooseBy: Option<int>
    var status: RequestStatus
    var round: nat
    var needsManual: bool

    /** The request as one value: the fields dispatch writes, over the rest of the row. */
    function View(): Job
      reads this
    {
      row.(offers := offers, collectBy := collectBy, closedAt := closedAt, chooseBy := chooseBy,
           status := status, round := round, needsManual := needsManual)
    }

    constructor (j: Job)
      ensures View() == j
    {
      row, offers, collectBy, closedAt, chooseBy := j, j.offers, j.collectBy, j.closedAt, j.chooseBy;
      status, round, needsManual := j.status, j.round, j.needsManual;
    }

    /** The transaction: a timely quote joins the shortlist at its price, a late one is recorded
        out of the running, and nothing but that offer and the debt of a follow-up changes. */
    method ClaimOffer(k: OfferId, price: Option<int>, now: int) returns (claimed: bool)
      modifies this
      ensures claimed == Claims(old(View()), k, price, now)
      ensures View() == AnswerOffer(old(View()), k, price, now)
      ensures A.Answered(old(View()), View(), k, price, now)
      ensures claimed <==> A.Pending(old(View()), k) && now < old(View()).offers[k].expiresAt &&
                           (price.Some? ==> A.InTime(old(View()), k, now))
    {
      A.AnswerWrites(View(), k, price, now);
      hide A.Answered;
      if price.Some? && (closedAt.Some? || (collectBy.Some? && now >= collectBy.value)) {
        if k in offers && offers[k].status == OFFERED {
          offers := offers[k := offers[k].(status := NOT_SELECTED, price := price)];
        }
        return false;
      }
      if !(k in offers && offers[k].status == OFFERED && offers[k].expiresAt > now) { return false; }
      offers := offers[k := offers[k].(status := if price.Some? then QUOTED else DECLINED, price := price)];
      row := row.(followUps := row.followUps + {FollowUp(k, price.Some?)});
      return true;
    }

    method AfterOfferClaim(k: OfferId, quoted: bool, window: int, now: int)
      modifies this
      ensures View() == RunFollowUp(old(View()), FollowUp(k, quoted), window, now)
      ensures A.FollowedUp(old(View()), View(), FollowUp(k, quoted), window, now)
    {
      A.FollowUpWrites(View(), FollowUp(k, quoted), window, now);
      hide A.FollowedUp, ResolveEarly, BeginCollection;
      B.BeginMovesDeadlines(View(), now + window);
      B.EarlyMovesDeadlines(if quoted then BeginCollection(View(), now + window) else View(), k.batch, now);
      if quoted { BeginQuoteCollectionIfFirst(now + window); }
      MaybeResolveBatchEarly(k.batch, now);
      row := row.(followUps := row.followUps - {FollowUp(k, quoted)});
    }

    /** Claim, then the work the claim owes: together they leave what the two transactions
        in a row would. */
    method ProcessQuoteOrDecline(k: OfferId, price: Option<int>, window: int, now: int) returns (quoted: bool)
      modifies this
      ensures quoted == (price.Some? && Claims(old(View()), k, price, now))
      ensures var claimed := AnswerOffer(old(View()), k, price, now);
              View() == if Claims(old(View()), k, price, now)
                        then RunFollowUp(claimed, FollowUp(k, price.Some?), window, now)
                        else claimed
    {
      hide AnswerOffer, RunFollowUp, Claims;
      var claimed := ClaimOffer(k, price, now);
      if claimed { AfterOfferClaim(k, price.Some?, window, now); }
      return claimed && price.Some?;
    }

    method BeginQuoteCollectionIfFirst(deadline: int)
      modifies this
      ensures View() == BeginCollection(old(View()), deadline)
    {
      if collectBy.Some? { return; }
      collectBy := Some(deadline);
      offers := ClampPending(offers, deadline);
    }

    method MaybeResolveBatchEarly(batch: BatchId, now: int)
      modifies this
      ensures View() == ResolveEarly(old(View()), batch, now)
    {
      if collectBy.Some? {
        if AnyWith(offers, OFFERED) { return; }
        if status == DISPATCHING && closedAt.None? && collectBy.value > now {
          collectBy := Some(now);
        }
        return;
      }
      if exists k :: k in offers && k.batch == batch && offers[k].status == OFFERED { return; }
      offers := ExpireBatch(offers, batch, now);
    }

    /** prepareNextRound with resolveExhaustion: the expanding search decides between a new
        round, staff and cancellation. */
    method OpenNextRound(start: nat, h: Hunt, now: int)
      modifies this
      ensures View() == NextRound(old(View()), start, h, now)
      ensures A.RoundOpened(old(View()), View(), start, h, now, Search(h.find, h.covered, h.cap, start))
    {
      A.RoundWrites(View(), start, h, now);
      hide A.RoundOpened;
      var found := PrepareNextRound(h.find, h.covered, h.cap, start);
      AnswersIsFunctional(h.find, h.covered, h.cap, start, found, Search(h.find, h.covered, h.cap, start));
      if found.Candidates? {
        var who := Asked(found.who, h.size);
        needsManual := false;
        offers := offers + FreshOffers(h.batch, who, Clamped(View(), now + h.window), found.round);
        row := row.(offered := row.offered + who);
        round := found.round;
        return;
      }
      round := found.round;
      if h.backups(found.extraRadiusKm) != [] {
        needsManual := true;
      } else {
        status, needsManual := CANCELLED, false;
        row := row.(awaitingMedia := false);
        offers := Retire(offers, OFFERED, TIMED_OUT);
      }
    }

    method Start(h: Hunt, now: int)
      modifies this
      ensures View() == StartDispatch(old(View()), h, now)
      ensures A.Started(old(View()), View(), h, now, Search(h.find, h.covered, h.cap, old(round)))
    {
      A.StartWrites(View(), h, now);
      hide A.Started;
      if status in {CANCELLED, COMPLETED, OPERATOR_ASSIGNED, WAITING_FOR_DEPOSIT} { return; }
      if AnyWith(offers, QUOTED) { return; }
      if closedAt.Some? || (collectBy.Some? && now >= collectBy.value) { return; }
      OpenNextRound(round, h, now);
    }

    /** BatchResolveCheck's transaction. */
    method ResolveExpired(ids: set<OfferId>, batchRound: nat, h: Hunt, now: int)
      modifies this
      ensures View() == Resolve(old(View()), ids, batchRound, h, now)
      ensures A.BatchResolved(old(View()), View(), ids, batchRound, h, now, TimeOutThese(old(offers), ids),
                              Search(h.find, h.covered, h.cap, batchRound + 1))
    {
      A.ResolvingWrites(View(), ids, batchRound, h, now);
      hide A.BatchResolved, NextRound, Search, AnyWith, Retire, TimeOutThese;
      offers := TimeOutThese(offers, ids);
      if !(status == DISPATCHING && collectBy.None? && round == batchRound) { return; }
      round := batchRound + 1;
      if AnyWith(offers, QUOTED) {
        offers := Retire(offers, OFFERED, TIMED_OUT);
        closedAt, chooseBy := Some(now), Some(now + QUOTE_SELECTION_WINDOW_MS);
        return;
      }
      OpenNextRound(batchRound + 1, h, now);
    }
  }

  // ---- The passes ---------------------------------------------------------------

  /** What the expired-offer query returns of a row. */
  datatype Expired = Expired(request: RequestId, offer: OfferId, round: nat)

  datatype Batch = Batch(request: RequestId, id: BatchId)

  function OffersOf(rows: seq<Expired>, b: Batch): set<OfferId> {
    set i | 0 <= i < |rows| && rows[i].request == b.request && rows[i].offer.batch == b.id :: rows[i].offer
  }

  function BatchAt(rows: seq<Expired>, i: nat): Batch
    requires i < |rows|
  {
    Batch(rows[i].request, rows[i].offer.batch)
  }

  predicate Mentions(rows: seq<Expired>, b: Batch) { exists i :: 0 <= i < |rows| && BatchAt(rows, i) == b }

  /** The round on the first row of the batch. */
  function RoundOf(rows: seq<Expired>, b: Batch): nat {
    if rows == [] then 0
    else if BatchAt(rows, 0) == b then rows[0].round
    else RoundOf(rows[1..], b)
  }

  /** The first row of the batch. */
  ghost predicate FirstOf(rows: seq<Expired>, b: Batch, i: nat) {
    i < |rows| && BatchAt(rows, i) == b && forall k | 0 <= k < i :: BatchAt(rows, k) != b
  }

  lemma {:induction false} RoundIsTheFirst(rows: seq<Expired>, b: Batch, i: nat)
    requires FirstOf(rows, b, i)
    ensures RoundOf(rows, b) == rows[i].round
  {
    assert BatchAt(rows, 0) == b <==> i == 0;
    if i > 0 {
      forall k | 0 <= k < i - 1 ensures BatchAt(rows[1..], k) != b { assert BatchAt(rows[1..], k) == BatchAt(rows, k + 1); }
      assert BatchAt(rows[1..], i - 1) == BatchAt(rows, i);
      RoundIsTheFirst(rows[1..], b, i - 1);
    }
  }

  type Groups = map<Batch, (nat, set<OfferId>)>

  ghost predicate Grouped(rows: seq<Expired>, groups: Groups) {
    && (forall b :: b in groups <==> Mentions(rows, b))
    && (forall b | b in groups :: groups[b] == (RoundOf(rows, b), OffersOf(rows, b)))
  }

  /** BatchResolveCheck groups the expired offers by request and batch: each group is exactly
      that batch's expired offers, no batch is missing, and it carries the round of its
      first row. */
  method GroupByBatch(rows: seq<Expired>) returns (batches: Groups)
    ensures forall b :: b in batches <==> Mentions(rows, b)
    ensures forall b | b in batches :: batches[b] == (RoundOf(rows, b), OffersOf(rows, b))
    ensures forall b, i: nat | b in batches && FirstOf(rows, b, i) :: batches[b].0 == rows[i].round
    ensures forall b, o | b in batches ::
              o in batches[b].1 <==> exists i :: 0 <= i < |rows| && rows[i].request == b.request && rows[i].offer.batch == b.id && rows[i].offer == o
  {
    forall b, i: nat | FirstOf(rows, b, i) ensures RoundOf(rows, b) == rows[i].round { RoundIsTheFirst(rows, b, i); }
    batches := map[];
    for n := 0 to |rows|
      invariant Grouped(rows[..n], batches)
    {
      var b := BatchAt(rows, n);
      var entry := if b in batches then batches[b] else (rows[n].round, {});
      assert rows[..n + 1] == rows[..n] + [rows[n]];
      GroupedGrows(rows[..n], rows[n], batches);
      batches := batches[b := (entry.0, entry.1 + {rows[n].offer})];
    }
    assert rows[..|rows|] == rows;
  }

  lemma GroupedGrows(rows: seq<Expired>, row: Expired, groups: Groups)
    requires Grouped(rows, groups)
    ensures var b := BatchAt([row], 0);
            var entry := if b in groups then groups[b] else (row.round, {});
            Grouped(rows + [row], groups[b := (entry.0, entry.1 + {row.offer})])
  {
    forall b
      ensures Mentions(rows + [row], b) <==> Mentions(rows, b) || BatchAt([row], 0) == b
      ensures !Mentions(rows, b) ==> OffersOf(rows, b) == {}
      ensures Mentions(rows, b) ==> RoundOf(rows + [row], b) == RoundOf(rows, b)
      ensures !Mentions(rows, b) && BatchAt([row], 0) == b ==> RoundOf(rows + [row], b) == row.round
      ensures OffersOf(rows + [row], b) == OffersOf(rows, b) + if BatchAt([row], 0) == b then {row.offer} else {}
    {
      MentionsGrow(rows, row, b);
      RoundStays(rows, row, b);
      OffersGrow(rows, row, b);
    }
    var b0 := BatchAt([row], 0);
    var entry := if b0 in groups then groups[b0] else (row.round, {});
    var groups' := groups[b0 := (entry.0, entry.1 + {row.offer})];
    forall b | b in groups' ensures groups'[b] == (RoundOf(rows + [row], b), OffersOf(rows + [row], b)) {
      assert b in groups <==> Mentions(rows, b);
      if b in groups { assert groups[b] == (RoundOf(rows, b), OffersOf(rows, b)); }
      assert OffersOf(rows + [row], b) == groups'[b].1;
    }
    forall b ensures b in groups' <==> Mentions(rows + [row], b) {
      assert b in groups <==> Mentions(rows, b);
    }
  }

  lemma OffersGrow(rows: seq<Expired>, row: Expired, b: Batch)
    ensures OffersOf(rows + [row], b) == OffersOf(rows, b) + if BatchAt([row], 0) == b then {row.offer} else {}
  {
    var after := rows + [row];
    forall o | o in OffersOf(rows, b) ensures o in OffersOf(after, b) {
      var i :| 0 <= i < |rows| && rows[i].request == b.request && rows[i].offer.batch == b.id && rows[i].offer == o;
      assert after[i] == rows[i];
    }
    assert after[|rows|] == row;
  }

  lemma MentionsGrow(rows: seq<Expired>, row: Expired, b: Batch)
    ensures Mentions(rows + [row], b) <==> Mentions(rows, b) || BatchAt([row], 0) == b
    ensures !Mentions(rows, b) ==> OffersOf(rows, b) == {}
  {
    var after := rows + [row];
    if Mentions(rows, b) {
      var i :| 0 <= i < |rows| && BatchAt(rows, i) == b;
      assert BatchAt(after, i) == b;
    } else {
      forall i | 0 <= i < |rows| ensures !(rows[i].request == b.request && rows[i].offer.batch == b.id) {
        assert BatchAt(rows, i) != b;
      }
    }
    if BatchAt([row], 0) == b { assert BatchAt(after, |rows|) == b; }
    if i :| 0 <= i < |rows| && BatchAt(after, i) == b { assert BatchAt(rows, i) == b; }
  }

  lemma {:induction false} RoundStays(rows: seq<Expired>, row: Expired, b: Batch)
    ensures Mentions(rows, b) ==> RoundOf(rows + [row], b) == RoundOf(rows, b)
    ensures !Mentions(rows, b) && BatchAt([row], 0) == b ==> RoundOf(rows + [row], b) == row.round
  {
    if rows != [] {
      assert (rows + [row])[1..] == rows[1..] + [row];
      RoundStays(rows[1..], row, b);
      if BatchAt(rows, 0) != b {
        if i :| 0 <= i < |rows| && BatchAt(rows, i) == b { assert BatchAt(rows[1..], i - 1) == b; }
        if i :| 0 <= i < |rows[1..]| && BatchAt(rows[1..], i) == b { assert BatchAt(rows, i + 1) == b; }
      }
    }
  }

  type Requests = map<RequestId, Job>

  function Closed(j: Job, now: int): Job { if CloseDue(j, now) then OpenSelection(j, now) else j }

  /** The bidding-close pass over the ids its query returned. */
  class BiddingCloseCheck {
    var requests: Requests

    constructor (initial: Requests)
      ensures requests == initial
    {
      requests := initial;
    }

    /** Each listed request still due is closed, once, and counted; nothing else changes. */
    method Run(due: seq<RequestId>, now: int) returns (acted: nat)
      requires forall i | 0 <= i < |due| :: due[i] in requests
      modifies this
      ensures requests == AfterClosing(old(requests), (set id | id in due), now)
      ensures acted == |StillDue(old(requests), (set id | id in due), now)|
      ensures requests.Keys == old(requests).Keys
      ensures forall id | id in requests ::
                var j := old(requests)[id];
                if id in due && j.status == DISPATCHING && j.closedAt.None? && j.collectBy.Some? && j.collectBy.value < now
                then A.ShortlistSent(j, requests[id], now) else requests[id] == j
    {
      forall id | id in requests ensures A.ShortlistSent(requests[id], OpenSelection(requests[id], now), now) {
        A.OpeningWrites(requests[id], now);
      }
      hide A.ShortlistSent;
      acted := 0;
      ghost var was, seen: set<RequestId> := requests, {};
      assert requests == AfterClosing(was, {}, now);
      for n := 0 to |due|
        invariant seen == set id | id in due[..n]
        invariant acted == |StillDue(was, seen, now)|
        invariant requests == AfterClosing(was, seen, now)
      {
        var id := due[n];
        var j := requests[id];
        OneMore(was, seen, id, now);
        if j.status == DISPATCHING && j.collectBy.Some? && j.collectBy.value < now && j.closedAt.None? {
          requests := requests[id := j.(closedAt := Some(now), chooseBy := Some(now + QUOTE_SELECTION_WINDOW_MS),
                                        offers := Retire(j.offers, OFFERED, TIMED_OUT))];
          acted := acted + 1;
        }
        seen := seen + {id};
      }
      assert seen == set id | id in due;
    }
  }

  function AfterClosing(was: Requests, ids: set<RequestId>, now: int): Requests {
    map id | id in was :: if id in ids then Closed(was[id], now) else was[id]
  }

  function StillDue(was: Requests, ids: set<RequestId>, now: int): set<RequestId> {
    set id | id in ids && id in was && CloseDue(was[id], now)
  }

  /** Handling one more id: a repeated one finds its request closed and does nothing. */
  lemma OneMore(was: Requests, seen: set<RequestId>, id: RequestId, now: int)
    requires id in was
    ensures var j := AfterClosing(was, seen, now)[id];
            && AfterClosing(was, seen + {id}, now) == AfterClosing(was, seen, now)[id := Closed(j, now)]
            && |StillDue(was, seen + {id}, now)| == |StillDue(was, seen, now)| + if CloseDue(j, now) then 1 else 0
  {
    var j := AfterClosing(was, seen, now)[id];
    ClosesOnce(was[id], now);
    if CloseDue(j, now) {
      assert id !in seen;
      assert StillDue(was, seen + {id}, now) == StillDue(was, seen, now) + {id};
    } else {
      assert StillDue(was, seen + {id}, now) == StillDue(was, seen, now);
    }
  }

  /** A closed request is not due again, so a repeated id does nothing. */
  lemma ClosesOnce(j: Job, now: int)
    ensures !CloseDue(Closed(j, now), now) && Closed(Closed(j, now), now) == Closed(j, now)
  {
  }
}
