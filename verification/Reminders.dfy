/** Deposit reminders: a query that selects exactly the windows owed one, and a counter set
    to the number of marks reached, so that downtime never causes a backlog. */
module Reminders {
  import opened Payments

  const MINUTE_MS := 60_000
  const REMINDER_MARKS_MINUTES_LEFT := [25, 15, 5]

  predicate Reached(mark: int, expiresAt: int, now: int) { expiresAt - now <= mark * MINUTE_MS }

  /** How many marks have been reached. */
  function DueCount(marks: seq<int>, expiresAt: int, now: int): (n: nat)
    ensures n <= |marks|
  {
    if marks == [] then 0
    else (if Reached(marks[0], expiresAt, now) then 1 else 0) + DueCount(marks[1..], expiresAt, now)
  }

  predicate Open(expiresAt: int, now: int) { expiresAt > now }

  /** The query: the window is open and the next unsent mark has been reached. */
  predicate Selected(marks: seq<int>, expiresAt: int, sent: nat, now: int) {
    Open(expiresAt, now) && exists i :: 0 <= i < |marks| && sent == i && expiresAt <= now + marks[i] * MINUTE_MS
  }

  predicate Descending(marks: seq<int>) { forall i, j | 0 <= i < j < |marks| :: marks[i] >= marks[j] }

  /** On descending marks those reached form a prefix, as long as the count. */
  lemma {:induction false} ReachedIsPrefix(marks: seq<int>, expiresAt: int, now: int, i: nat)
    requires Descending(marks) && i < |marks|
    ensures Reached(marks[i], expiresAt, now) <==> i < DueCount(marks, expiresAt, now)
  {
    if i > 0 {
      ReachedIsPrefix(marks[1..], expiresAt, now, i - 1);
      NoneReached(marks, expiresAt, now);
    } else {
      NoneReached(marks, expiresAt, now);
    }
  }

  lemma {:induction false} NoneReached(marks: seq<int>, expiresAt: int, now: int)
    requires Descending(marks)
    ensures marks != [] && !Reached(marks[0], expiresAt, now) ==> DueCount(marks, expiresAt, now) == 0
  {
    if |marks| > 1 && !Reached(marks[0], expiresAt, now) { NoneReached(marks[1..], expiresAt, now); }
  }

  /** The query agrees with the count at one instant. */
  ghost predicate AgreesAt(marks: seq<int>, expiresAt: int, now: int) {
    forall sent: nat :: Selected(marks, expiresAt, sent, now) <==> Open(expiresAt, now) && DueCount(marks, expiresAt, now) > sent
  }

  lemma DescendingAgrees(marks: seq<int>, expiresAt: int, now: int)
    requires Descending(marks)
    ensures AgreesAt(marks, expiresAt, now)
  {
    forall sent: nat
      ensures Selected(marks, expiresAt, sent, now) <==> Open(expiresAt, now) && DueCount(marks, expiresAt, now) > sent
    {
      if sent < |marks| { ReachedIsPrefix(marks, expiresAt, now, sent); }
    }
  }

  /** The query selects exactly the open windows owed a reminder, at every instant, precisely
      when the (positive) marks are listed in descending order. */
  lemma QueryAgreesIff(marks: seq<int>)
    requires forall i | 0 <= i < |marks| :: marks[i] > 0
    ensures (forall expiresAt, now :: AgreesAt(marks, expiresAt, now)) <==> Descending(marks)
  {
    if Descending(marks) {
      forall expiresAt, now ensures AgreesAt(marks, expiresAt, now) { DescendingAgrees(marks, expiresAt, now); }
    } else {
      var i, j :| 0 <= i < j < |marks| && marks[i] < marks[j];
      var expiresAt := marks[j] * MINUTE_MS;
      assert Selected(marks, expiresAt, j, 0) && !Selected(marks, expiresAt, i, 0);
      assert !AgreesAt(marks, expiresAt, 0);
    }
  }

  // ---- One request over time ----------------------------------------------------------

  /** A message: in which window, at what time as its instance read it, for which mark. */
  datatype Message = Message(window: nat, at: int, mark: nat)

  /** deadlines are those of the windows opened so far; the last one is the column's value. */
  datatype Windows = Windows(waiting: bool, deadlines: seq<int>, sent: nat, log: seq<Message>)

  predicate Opened(w: Windows) { w.deadlines != [] }

  function Deadline(w: Windows): int
    requires Opened(w)
  {
    w.deadlines[|w.deadlines| - 1]
  }

  /** The claim: bound to the deadline the count was computed from. */
  predicate Claims(marks: seq<int>, w: Windows, expiresAt: int, now: int)
    requires Opened(w)
  {
    w.waiting && Deadline(w) == expiresAt && w.sent < DueCount(marks, expiresAt, now)
  }

  function Nudge(marks: seq<int>, w: Windows, expiresAt: int, now: int): Windows
    requires Opened(w)
  {
    var due := DueCount(marks, expiresAt, now);
    w.(sent := due, log := w.log + [Message(|w.deadlines| - 1, now, due)])
  }

  function Send(marks: seq<int>, w: Windows, expiresAt: int, now: int): (w': Windows)
    requires Opened(w)
    ensures Opened(w')
  {
    if Claims(marks, w, expiresAt, now) then Nudge(marks, w, expiresAt, now) else w
  }

  /** An instance acts on what it read, possibly long before; the request moves on; or a new
      selection or assignment opens a new window and starts the count again. */
  datatype Tick = Act(expiresAt: int, now: int) | Leave | Reopen(expiresAt: int)

  function Next(marks: seq<int>, w: Windows, t: Tick): (w': Windows)
    requires Opened(w)
    ensures Opened(w')
  {
    match t
    case Act(expiresAt, now) => if Open(expiresAt, now) then Send(marks, w, expiresAt, now) else w
    case Leave => w.(waiting := false)
    case Reopen(expiresAt) => w.(waiting := true, deadlines := w.deadlines + [expiresAt], sent := 0)
  }

  function After(marks: seq<int>, w: Windows, ticks: seq<Tick>): Windows
    requires Opened(w)
    decreases |ticks|
  {
    if ticks == [] then w else After(marks, Next(marks, w, ticks[0]), ticks[1..])
  }

  /** A message is for the marks its own window had reached when it was read, and not after
      that window's end. */
  predicate Owed(marks: seq<int>, deadlines: seq<int>, m: Message) {
    && m.window < |deadlines| && m.at < deadlines[m.window]
    && m.mark == DueCount(marks, deadlines[m.window], m.at) && m.mark >= 1
  }

  /** Within a window marks only ever go up, and the counter is at the last one sent. */
  ghost predicate Orderly(marks: seq<int>, w: Windows) {
    && Opened(w)
    && (forall i | 0 <= i < |w.log| :: Owed(marks, w.deadlines, w.log[i]))
    && (forall i | 0 <= i < |w.log| && w.log[i].window == |w.deadlines| - 1 :: w.log[i].mark <= w.sent)
    && (forall i, j | 0 <= i < j < |w.log| && w.log[i].window == w.log[j].window :: w.log[i].mark < w.log[j].mark)
  }

  function FirstWindow(expiresAt: int): Windows { Windows(true, [expiresAt], 0, []) }

  lemma TickStaysOrderly(marks: seq<int>, w: Windows, t: Tick)
    requires Orderly(marks, w)
    ensures Orderly(marks, Next(marks, w, t))
    ensures w.log <= Next(marks, w, t).log && w.deadlines <= Next(marks, w, t).deadlines
  {
    var w' := Next(marks, w, t);
    forall i | 0 <= i < |w'.log|
      ensures Owed(marks, w'.deadlines, w'.log[i])
    {
      if i < |w.log| { assert Owed(marks, w.deadlines, w.log[i]); }
    }
    assert t.Reopen? ==> forall i | 0 <= i < |w.log| :: Owed(marks, w.deadlines, w.log[i]);
  }

  lemma {:induction false} TicksStayOrderly(marks: seq<int>, w: Windows, ticks: seq<Tick>)
    requires Orderly(marks, w)
    ensures var w' := After(marks, w, ticks); Orderly(marks, w') && w.log <= w'.log && w.deadlines <= w'.deadlines
    decreases |ticks|
  {
    if ticks != [] {
      TickStaysOrderly(marks, w, ticks[0]);
      TicksStayOrderly(marks, Next(marks, w, ticks[0]), ticks[1..]);
    }
  }

  /** The messages of one window, in order. */
  function OfWindow(log: seq<Message>, window: nat): seq<Message> {
    if log == [] then []
    else var m := log[|log| - 1];
      OfWindow(log[..|log| - 1], window) + if m.window == window then [m] else []
  }

  lemma {:induction false} OfWindowIsOwn(log: seq<Message>, window: nat, m: Message)
    ensures m in OfWindow(log, window) <==> m in log && m.window == window
  {
    if log != [] {
      OfWindowIsOwn(log[..|log| - 1], window, m);
      assert log == log[..|log| - 1] + [log[|log| - 1]];
    }
  }

  lemma {:induction false} OfWindowIncreases(log: seq<Message>, window: nat)
    requires forall i, j | 0 <= i < j < |log| && log[i].window == log[j].window :: log[i].mark < log[j].mark
    ensures var own := OfWindow(log, window); forall i, j | 0 <= i < j < |own| :: own[i].mark < own[j].mark
  {
    if log != [] {
      var init, last := log[..|log| - 1], log[|log| - 1];
      OfWindowIncreases(init, window);
      var own := OfWindow(init, window);
      forall k | 0 <= k < |own| && last.window == window
        ensures own[k].mark < last.mark
      {
        OfWindowIsOwn(init, window, own[k]);
        assert own[k] in own;
        var i :| 0 <= i < |init| && init[i] == own[k];
        assert log[i].window == log[|log| - 1].window;
      }
    }
  }

  lemma {:induction false} IncreasingIsShort(log: seq<Message>, top: nat)
    requires forall i | 0 <= i < |log| :: 1 <= log[i].mark <= top
    requires forall i, j | 0 <= i < j < |log| :: log[i].mark < log[j].mark
    ensures |log| <= top
  {
    if log != [] { IncreasingIsShort(log[..|log| - 1], log[|log| - 1].mark - 1); }
  }

  /** In every sequence of ticks by any number of instances, with any downtime, stale reads and
      reopened windows: each window gets at most one message per mark, each for a later mark
      than the one before (so a skipped mark is never sent), each for exactly the marks that
      window itself had reached, and none once it has expired. */
  lemma RemindersNeverRepeat(marks: seq<int>, expiresAt: int, ticks: seq<Tick>, window: nat)
    ensures var w := After(marks, FirstWindow(expiresAt), ticks);
            var own := OfWindow(w.log, window);
            && |own| <= |marks|
            && (forall i, j | 0 <= i < j < |own| :: own[i].mark < own[j].mark)
            && (forall m | m in w.log :: Owed(marks, w.deadlines, m))
  {
    TicksStayOrderly(marks, FirstWindow(expiresAt), ticks);
    var w := After(marks, FirstWindow(expiresAt), ticks);
    OfWindowIncreases(w.log, window);
    var own := OfWindow(w.log, window);
    forall i | 0 <= i < |own|
      ensures 1 <= own[i].mark <= |marks|
    {
      OfWindowIsOwn(w.log, window, own[i]);
      assert own[i] in own && Owed(marks, w.deadlines, own[i]);
    }
    IncreasingIsShort(own, |marks|);
  }

  /** Nothing owed is lost: once an instance has acted on the current deadline, the query no
      longer selects the request at that instant, and its own act is what the window got. */
  lemma ActLeavesNothingOwed(marks: seq<int>, w: Windows, now: int)
    requires Opened(w) && w.waiting && Descending(marks)
    ensures var w' := Next(marks, w, Act(Deadline(w), now));
            && !Selected(marks, Deadline(w), w'.sent, now)
            && (Selected(marks, Deadline(w), w.sent, now) <==> w'.log != w.log)
  {
    DescendingAgrees(marks, Deadline(w), now);
  }

  /** The claim without the deadline. */
  function UnboundSend(marks: seq<int>, w: Windows, expiresAt: int, now: int): Windows
    requires Opened(w)
  {
    if w.waiting && w.sent < DueCount(marks, expiresAt, now) then Nudge(marks, w, expiresAt, now) else w
  }

  /** Once the counter is at the top, no tick short of reopening sends anything. */
  lemma {:induction false} FullCounterIsSilent(marks: seq<int>, w: Windows, ticks: seq<Tick>)
    requires Opened(w) && w.sent >= |marks| && forall t | t in ticks :: !t.Reopen?
    ensures After(marks, w, ticks).log == w.log
    decreases |ticks|
  {
    if ticks != [] {
      assert ticks[0] in ticks && forall t | t in ticks[1..] :: t in ticks;
      FullCounterIsSilent(marks, Next(marks, w, ticks[0]), ticks[1..]);
    }
  }

  /** The deadline in the claim is needed: without it, one act on a window that had reached all
      its marks, landing after any reopening, sends a message that the new window does not
      owe (unless it too has reached them all) and silences it for good. */
  lemma UnboundClaimSilencesWindow(marks: seq<int>, w: Windows, expiresAt: int, now: int, ticks: seq<Tick>)
    requires Opened(w) && marks != [] && DueCount(marks, Deadline(w), now) == |marks|
    requires forall t | t in ticks :: !t.Reopen?
    ensures var reopened := Next(marks, w, Reopen(expiresAt));
            var late := UnboundSend(marks, reopened, Deadline(w), now);
            && (DueCount(marks, expiresAt, now) < |marks| ==> !Owed(marks, late.deadlines, late.log[|late.log| - 1]))
            && After(marks, late, ticks).log == late.log
  {
    var late := UnboundSend(marks, Next(marks, w, Reopen(expiresAt)), Deadline(w), now);
    FullCounterIsSilent(marks, late, ticks);
  }

  // ---- The pass -----------------------------------------------------------------------

  /** Each reminded against the deadline its query read. */
  function AfterSending(was: map<RequestId, Windows>, ids: set<RequestId>, read: map<RequestId, int>, now: int): map<RequestId, Windows>
    requires forall id | id in was :: Opened(was[id])
    requires ids <= read.Keys
  {
    map id | id in was ::
      if id in ids then Send(REMINDER_MARKS_MINUTES_LEFT, was[id], read[id], now) else was[id]
  }

  /** The requests whose claim holds. */
  function Claimed(was: map<RequestId, Windows>, ids: set<RequestId>, read: map<RequestId, int>, now: int): set<RequestId>
    requires forall id | id in was :: Opened(was[id])
    requires ids <= read.Keys
  {
    set id | id in ids && id in was && Claims(REMINDER_MARKS_MINUTES_LEFT, was[id], read[id], now)
  }

  /** How many of the three marks, 25, 15 and 5 minutes before the end, have been reached. */
  function MarksReached(expiresAt: int, now: int): nat {
    if now < expiresAt - 1_500_000 then 0
    else if now < expiresAt - 900_000 then 1
    else if now < expiresAt - 300_000 then 2
    else 3
  }

  /** A request still waiting on the deadline that was read, and owed a mark, gets one message for
      the latest; any other is left as it is. */
  ghost predicate Reminded(w: Windows, w': Windows, read: int, now: int) {
    var due := MarksReached(read, now);
    if w.waiting && Opened(w) && w.deadlines[|w.deadlines| - 1] == read && w.sent < due
    then w' == w.(sent := due, log := w.log + [Message(|w.deadlines| - 1, now, due)])
    else w' == w
  }

  lemma SendWrites(w: Windows, read: int, now: int)
    requires Opened(w)
    ensures Reminded(w, Send(REMINDER_MARKS_MINUTES_LEFT, w, read, now), read, now)
  {
    var marks := REMINDER_MARKS_MINUTES_LEFT;
    assert marks[1..] == [15, 5] && marks[1..][1..] == [5] && marks[1..][1..][1..] == [];
    assert DueCount(marks[1..][1..], read, now) == if Reached(5, read, now) then 1 else 0;
    assert DueCount(marks, read, now) == MarksReached(read, now);
  }

  class DepositReminderCheck {
    var windows: map<RequestId, Windows>

    constructor (initial: map<RequestId, Windows>)
      ensures windows == initial
    {
      windows := initial;
    }

    /** Each request the query returned is reminded at most once, against the deadline the
        query read; the count is of those whose claim held, and the others are untouched. */
    method Run(selected: seq<RequestId>, read: map<RequestId, int>, now: int) returns (acted: nat)
      requires forall id | id in windows :: Opened(windows[id])
      requires forall id | id in selected :: id in windows && id in read && Open(read[id], now)
      modifies this
      ensures windows == AfterSending(old(windows), (set id | id in selected), read, now)
      ensures acted == |Claimed(old(windows), (set id | id in selected), read, now)|
      ensures windows.Keys == old(windows).Keys
      ensures forall id | id in windows ::
                if id in selected then Reminded(old(windows)[id], windows[id], read[id], now) else windows[id] == old(windows)[id]
    {
      forall id | id in selected
        ensures Reminded(windows[id], Send(REMINDER_MARKS_MINUTES_LEFT, windows[id], read[id], now), read[id], now)
      {
        SendWrites(windows[id], read[id], now);
      }
      hide Reminded;
      acted := 0;
      ghost var was, seen: set<RequestId> := windows, {};
      assert windows == AfterSending(was, {}, read, now);
      for n := 0 to |selected|
        invariant seen == set id | id in selected[..n]
        invariant windows == AfterSending(was, seen, read, now)
        invariant acted == |Claimed(was, seen, read, now)|
      {
        var id := selected[n];
        assert selected[..n + 1] == selected[..n] + [id];
        var w, due := windows[id], DueCount(REMINDER_MARKS_MINUTES_LEFT, read[id], now);
        SendingOnce(was, seen, id, read, now);
        if w.waiting && Deadline(w) == read[id] && w.sent < due {
          windows := windows[id := w.(sent := due, log := w.log + [Message(|w.deadlines| - 1, now, due)])];
          acted := acted + 1;
        }
        seen := seen + {id};
      }
      assert selected[..|selected|] == selected;
    }
  }

  /** Setting the counter to the count makes the claim idempotent: a request seen before is
      neither reminded nor counted again. */
  lemma SendingOnce(was: map<RequestId, Windows>, seen: set<RequestId>, id: RequestId, read: map<RequestId, int>, now: int)
    requires (forall i | i in was :: Opened(was[i])) && seen <= read.Keys && id in was && id in read
    ensures var w := AfterSending(was, seen, read, now)[id];
            && Opened(w)
            && AfterSending(was, seen + {id}, read, now) ==
               AfterSending(was, seen, read, now)[id := Send(REMINDER_MARKS_MINUTES_LEFT, w, read[id], now)]
            && |Claimed(was, seen + {id}, read, now)| ==
               |Claimed(was, seen, read, now)| + if Claims(REMINDER_MARKS_MINUTES_LEFT, w, read[id], now) then 1 else 0
  {
    hide DueCount, Send, Nudge, Claims;
    if id in seen { SendIsIdempotent(REMINDER_MARKS_MINUTES_LEFT, was[id], read[id], now); }
    var before, after := Claimed(was, seen, read, now), Claimed(was, seen + {id}, read, now);
    assert after == if id !in seen && Claims(REMINDER_MARKS_MINUTES_LEFT, was[id], read[id], now) then before + {id} else before;
  }

  lemma SendIsIdempotent(marks: seq<int>, w: Windows, expiresAt: int, now: int)
    requires Opened(w)
    ensures var sent := Send(marks, w, expiresAt, now);
            Opened(sent) && !Claims(marks, sent, expiresAt, now) && Send(marks, sent, expiresAt, now) == sent
  {
  }
}
