/** When the verifier first calls a human, with any number of service instances. Each instance
    runs one pass at a time, but nothing stops two of them from verifying the same row: the
    query that finds a row due and the back-off that counts the verification are two statements,
    and the back-off names neither a status nor the due time it was decided on. */
module Escalation {
  import opened Payments
  import opened Ledger
  import opened Polling

  /** The row's schedule, in milliseconds since its creation: when it is due (once submitted),
      how many verifications were counted, and the ones still open, with the time each pass
      compared the due time to. */
  datatype Poll = Poll(age: int, due: Option<int>, tried: nat, open: map<nat, int>)

  datatype Move =
    | Submitted(due: int)
    | Unblocked
    | Passed(age: int)
    | Found(v: nat, at: int)
    | Counted(v: nat)
    | Finished(v: nat)
    | Idle

  /** A pass compares with the time it started at, which may be long before the query. */
  predicate Possible(p: Poll, n: nat, unblocks: bool, m: Move) {
    match m
    case Submitted(due) => p.due.None? && INITIAL_VERIFY_DELAY_MS <= due <= p.age + INITIAL_VERIFY_DELAY_MS
    case Unblocked => unblocks && p.due.Some?
    case Passed(age) => p.age <= age
    case Found(v, at) => v < n && v !in p.open && p.due.Some? && p.due.value < at <= p.age
    case Counted(v) => v in p.open
    case Finished(v) => v in p.open
    case Idle => true
  }

  function Moved(p: Poll, n: nat, unblocks: bool, m: Move): Poll
    requires Possible(p, n, unblocks, m)
  {
    match m
    case Submitted(due) => p.(due := Some(due))
    case Unblocked => p.(due := Some(p.age + INITIAL_VERIFY_DELAY_MS))
    case Passed(age) => p.(age := age)
    case Found(v, at) => p.(open := p.open[v := at])
    case Counted(v) => p.(due := Some(p.open[v] + BackOffGap(p.open[v])), tried := p.tried + 1, open := p.open - {v})
    case Finished(v) => p.(open := p.open - {v})
    case Idle => p
  }

  /** A verification is open that will read a full counter. */
  predicate CallsHuman(p: Poll) { p.tried >= MAX_VERIFY_ATTEMPTS && p.open != map[] }

  function NewPoll(): Poll { Poll(0, None, 0, map[]) }

  // ---- The earliest escalation ------------------------------------------------------

  /** Unblocking makes the row due one delay later, and keeps the counter. */
  const CYCLE_MS := INITIAL_VERIFY_DELAY_MS + 1

  /** How often n instances can all be counted before the last verification. */
  function FullCycles(left: nat, n: nat): nat
    requires n > 0
  {
    if left < n then 0 else 1 + FullCycles(left - n, n)
  }

  lemma CyclesTable(n: nat)
    requires n > 0
    ensures FullCycles(MAX_VERIFY_ATTEMPTS, n) ==
              if n == 1 then 8 else if n == 2 then 4 else if n <= 4 then 2 else if n <= 8 then 1 else 0
  {
    if n == 1 {
      assert FullCycles(6, 1) == 6;
      assert FullCycles(4, 1) == 4;
    } else if n == 2 {
      assert FullCycles(4, 2) == 2;
    } else if n <= 4 {
      assert FullCycles(MAX_VERIFY_ATTEMPTS - n - n, n) == 0;
    } else if n <= 8 {
      assert FullCycles(MAX_VERIFY_ATTEMPTS - n, n) == 0;
    }
  }

  /** The age of the youngest row that can escalate, with n instances. */
  function Earliest(n: nat, unblocks: bool): int
    requires n > 0
  {
    if unblocks then (FullCycles(MAX_VERIFY_ATTEMPTS, n) + 1) * CYCLE_MS
    else if n == 1 then 10_620_045
    else if n == 2 then 540_013
    else if n <= MAX_VERIFY_ATTEMPTS then 180_004
    else CYCLE_MS
  }

  function Busy(p: Poll, v: nat): nat { if v in p.open then 1 else 0 }

  /** Whether this instance holds a verification found before the limit. */
  function Held(p: Poll, v: nat, limit: int): nat { if v in p.open && p.open[v] < limit then 1 else 0 }

  predicate Basic(p: Poll, n: nat) {
    && p.age >= 0
    && (p.due.None? ==> p.tried == 0 && p.open == map[])
    && (p.due.Some? ==> p.due.value >= INITIAL_VERIFY_DELAY_MS)
    && forall v | v in p.open :: v < n && CYCLE_MS <= p.open[v] <= p.age
  }

  /** One instance, never unblocked: each due time is as late as the schedule says. */
  predicate OnSchedule(p: Poll) {
    p.due.Some? ==>
      p.due.value >= EarliestAge(p.tried) && forall v | v in p.open :: p.open[v] > EarliestAge(p.tried)
  }

  /** Two instances, never unblocked: once something was counted, at most one verification of
      the first due time is still open, and it can make the row due again only once. */
  predicate PairBehind(p: Poll) {
    var early := Held(p, 0, 180_004) + Held(p, 1, 180_004);
    var late := Busy(p, 0) + Busy(p, 1) - early;
    p.tried > 0 && p.age < 540_013 ==>
      && p.due.Some? && p.due.value >= 180_003 && early <= 1
      && p.tried + (if p.due.value < 540_012 then 2 - early else late) + 3 * early <= 5
  }

  /** More instances, never unblocked: before the second due time nothing is found twice. */
  predicate FirstRound(p: Poll, n: nat) {
    p.tried > 0 && p.age < 180_004 ==> p.due.Some? && p.due.value >= 180_003 && p.tried + |p.open.Keys| <= n
  }

  /** One instance, unblocked at will: every counted verification took a cycle. */
  predicate Paced(p: Poll) {
    && p.age >= p.tried * CYCLE_MS
    && (p.due.Some? ==> p.due.value >= p.tried * CYCLE_MS + INITIAL_VERIFY_DELAY_MS)
    && forall v | v in p.open :: p.open[v] >= (p.tried + 1) * CYCLE_MS
  }

  function Cycle(age: int): int { age / CYCLE_MS }

  lemma CycleBounds(age: int)
    ensures Cycle(age) * CYCLE_MS <= age < (Cycle(age) + 1) * CYCLE_MS
  {
  }

  /** Two instances, unblocked at will: what was counted or is open, plus what either instance
      can still find in this cycle and in those up to the fourth. Holding on to a verification
      of the first cycle costs one find and wins another later. */
  predicate PairPaced(p: Poll) {
    var cycle := Cycle(p.age);
    var busy := Busy(p, 0) + Busy(p, 1);
    var early := Held(p, 0, 2 * CYCLE_MS) + Held(p, 1, 2 * CYCLE_MS);
    p.tried > 0 && cycle < 5 ==>
      && p.due.Some? && p.due.value + 1 >= 2 * CYCLE_MS && cycle >= 1 && early <= 1
      && p.tried + busy + (4 - cycle)
         + (if early == 0 then 4 - cycle else if cycle < 4 then 3 else 2)
         + (if p.due.value + 1 < (cycle + 1) * CYCLE_MS then 2 - busy else 0) <= 8
  }

  /** More instances, unblocked at will: each finds the row once a cycle, for two cycles. */
  predicate Rounds(p: Poll, n: nat) {
    p.tried > 0 ==>
      && p.due.Some? && p.due.value + 1 >= 2 * CYCLE_MS && p.age >= CYCLE_MS
      && (p.age < 2 * CYCLE_MS ==> p.tried + |p.open.Keys| <= n)
      && (2 * CYCLE_MS <= p.age < 3 * CYCLE_MS ==>
            p.tried + |p.open.Keys| <= 2 * n && (p.due.value + 1 < 3 * CYCLE_MS ==> p.tried <= n))
  }

  predicate Safe(p: Poll, n: nat, unblocks: bool) {
    && Basic(p, n)
    && (n == 1 && !unblocks ==> OnSchedule(p))
    && (n == 2 && !unblocks ==> PairBehind(p))
    && (n >= 3 && !unblocks ==> FirstRound(p, n))
    && (n == 1 && unblocks ==> Paced(p))
    && (n == 2 && unblocks ==> PairPaced(p))
    && (n >= 3 && unblocks ==> Rounds(p, n))
  }

  lemma {:induction false} Fits(s: set<nat>, n: nat)
    requires forall v | v in s :: v < n
    ensures |s| <= n
  {
    if n == 0 {
      assert s == {};
    } else {
      Fits(s - {n - 1}, n - 1);
    }
  }

  lemma OpenCounts(p: Poll, n: nat, unblocks: bool, m: Move)
    requires Possible(p, n, unblocks, m)
    ensures var p' := Moved(p, n, unblocks, m);
            |p'.open.Keys| == |p.open.Keys| + (if m.Found? then 1 else if m.Counted? || m.Finished? then -1 else 0)
  {
    var p' := Moved(p, n, unblocks, m);
    if m.Found? { assert p'.open.Keys == p.open.Keys + {m.v}; }
    if m.Counted? || m.Finished? { assert p.open.Keys == p'.open.Keys + {m.v} && m.v !in p'.open.Keys; }
  }

  lemma MoveKeepsBasic(p: Poll, n: nat, unblocks: bool, m: Move)
    requires Basic(p, n) && Possible(p, n, unblocks, m)
    ensures Basic(Moved(p, n, unblocks, m), n)
  {
  }

  lemma MoveKeepsSchedule(p: Poll, m: Move)
    requires Basic(p, 1) && OnSchedule(p) && Possible(p, 1, false, m)
    ensures OnSchedule(Moved(p, 1, false, m))
  {
    if m.Counted? {
      NextAgeMonotone(EarliestAge(p.tried) + 1, p.open[m.v]);
      assert EarliestAge(p.tried + 1) == EarliestAge(p.tried) + 1 + BackOffGap(EarliestAge(p.tried) + 1);
    }
  }

  lemma MoveKeepsPair(p: Poll, m: Move)
    requires Basic(p, 2) && PairBehind(p) && Possible(p, 2, false, m)
    ensures PairBehind(Moved(p, 2, false, m))
  {
  }

  lemma MoveKeepsFirstRound(p: Poll, n: nat, m: Move)
    requires Basic(p, n) && FirstRound(p, n) && Possible(p, n, false, m)
    ensures FirstRound(Moved(p, n, false, m), n)
  {
    Fits(p.open.Keys, n);
    OpenCounts(p, n, false, m);
  }

  lemma MoveKeepsPace(p: Poll, m: Move)
    requires Basic(p, 1) && Paced(p) && Possible(p, 1, true, m)
    ensures Paced(Moved(p, 1, true, m))
  {
  }

  lemma MoveKeepsPairPace(p: Poll, m: Move)
    requires Basic(p, 2) && PairPaced(p) && Possible(p, 2, true, m)
    ensures PairPaced(Moved(p, 2, true, m))
  {
    CycleBounds(p.age);
    CycleBounds(Moved(p, 2, true, m).age);
    hide Cycle;
    match m
    case Counted(v) => CountingKeepsPairPace(p, v);
    case Found(v, at) =>
    case Finished(v) =>
    case Passed(age) =>
    case Submitted(_) =>
    case Unblocked =>
    case Idle =>
  }

  lemma CountingKeepsPairPace(p: Poll, v: nat)
    requires Basic(p, 2) && PairPaced(p) && v in p.open
    ensures PairPaced(Moved(p, 2, true, Counted(v)))
  {
    CycleBounds(p.age);
    hide Cycle;
  }

  lemma MoveKeepsRounds(p: Poll, n: nat, m: Move)
    requires Basic(p, n) && Rounds(p, n) && Possible(p, n, true, m)
    ensures Rounds(Moved(p, n, true, m), n)
  {
    MoveKeepsBasic(p, n, true, m);
    Fits(p.open.Keys, n);
    Fits(Moved(p, n, true, m).open.Keys, n);
    OpenCounts(p, n, true, m);
  }

  lemma MoveKeepsSafe(p: Poll, n: nat, unblocks: bool, m: Move)
    requires Safe(p, n, unblocks) && Possible(p, n, unblocks, m)
    ensures Safe(Moved(p, n, unblocks, m), n, unblocks)
  {
    MoveKeepsBasic(p, n, unblocks, m);
    hide Moved, Possible, Basic, OnSchedule, PairBehind, FirstRound, Paced, PairPaced, Rounds;
    if n == 1 && !unblocks { MoveKeepsSchedule(p, m); }
    if n == 2 && !unblocks { MoveKeepsPair(p, m); }
    if n >= 3 && !unblocks { MoveKeepsFirstRound(p, n, m); }
    if n == 1 && unblocks { MoveKeepsPace(p, m); }
    if n == 2 && unblocks { MoveKeepsPairPace(p, m); }
    if n >= 3 && unblocks { MoveKeepsRounds(p, n, m); }
  }

  lemma SafeIsLate(p: Poll, n: nat, unblocks: bool)
    requires n > 0 && Safe(p, n, unblocks) && CallsHuman(p)
    ensures p.age >= Earliest(n, unblocks)
  {
    var v :| v in p.open;
    assert p.open.Keys == (p.open.Keys - {v}) + {v} && |p.open.Keys| >= 1;
    if unblocks { SafeCyclesAreLate(p, n, v); } else { SafeRowIsLate(p, n, v); }
  }

  lemma SafeRowIsLate(p: Poll, n: nat, v: nat)
    requires n > 0 && Safe(p, n, false) && p.tried >= MAX_VERIFY_ATTEMPTS && v in p.open && |p.open.Keys| >= 1
    ensures p.age >= Earliest(n, false)
  {
    EscalationAge();
    EarliestAgeGrows(MAX_VERIFY_ATTEMPTS, p.tried);
    hide EarliestAge, FullCycles, Cycle;
  }

  lemma SafeCyclesAreLate(p: Poll, n: nat, v: nat)
    requires n > 0 && Safe(p, n, true) && p.tried >= MAX_VERIFY_ATTEMPTS && v in p.open && |p.open.Keys| >= 1
    ensures p.age >= Earliest(n, true)
  {
    CyclesTable(n);
    CycleBounds(p.age);
    hide EarliestAge, FullCycles, Cycle;
  }

  predicate AllPossible(p: Poll, n: nat, unblocks: bool, moves: seq<Move>)
    decreases |moves|
  {
    moves == [] ||
    (Possible(p, n, unblocks, moves[0]) && AllPossible(Moved(p, n, unblocks, moves[0]), n, unblocks, moves[1..]))
  }

  function MovedAll(p: Poll, n: nat, unblocks: bool, moves: seq<Move>): Poll
    requires AllPossible(p, n, unblocks, moves)
    decreases |moves|
  {
    if moves == [] then p else MovedAll(Moved(p, n, unblocks, moves[0]), n, unblocks, moves[1..])
  }

  // ---- The bounds are attained --------------------------------------------------------

  lemma Cons(p: Poll, n: nat, unblocks: bool, m: Move, moves: seq<Move>)
    requires Possible(p, n, unblocks, m) && AllPossible(Moved(p, n, unblocks, m), n, unblocks, moves)
    ensures AllPossible(p, n, unblocks, [m] + moves)
    ensures MovedAll(p, n, unblocks, [m] + moves) == MovedAll(Moved(p, n, unblocks, m), n, unblocks, moves)
  {
    assert ([m] + moves)[1..] == moves;
  }

  lemma {:induction false} Chain(p: Poll, n: nat, unblocks: bool, moves: seq<Move>, more: seq<Move>)
    requires AllPossible(p, n, unblocks, moves) && AllPossible(MovedAll(p, n, unblocks, moves), n, unblocks, more)
    ensures AllPossible(p, n, unblocks, moves + more)
    ensures MovedAll(p, n, unblocks, moves + more) == MovedAll(MovedAll(p, n, unblocks, moves), n, unblocks, more)
    decreases |moves|
  {
    hide Possible, Moved;
    if moves == [] {
      assert moves + more == more;
    } else {
      Chain(Moved(p, n, unblocks, moves[0]), n, unblocks, moves[1..], more);
      assert (moves + more)[1..] == moves[1..] + more && (moves + more)[0] == moves[0];
    }
  }

  lemma Also(start: Poll, n: nat, unblocks: bool, moves: seq<Move>, p: Poll, m: Move) returns (moves': seq<Move>, p': Poll)
    requires AllPossible(start, n, unblocks, moves) && MovedAll(start, n, unblocks, moves) == p && Possible(p, n, unblocks, m)
    ensures moves' == moves + [m] && p' == Moved(p, n, unblocks, m)
    ensures AllPossible(start, n, unblocks, moves') && MovedAll(start, n, unblocks, moves') == p'
  {
    moves', p' := moves + [m], Moved(p, n, unblocks, m);
    hide Possible, Moved;
    Cons(p, n, unblocks, m, []);
    assert [m] + [] == [m];
    Chain(start, n, unblocks, moves, [m]);
  }

  /** Alone: a row verified as soon as it is due, each time. */
  lemma {:induction false} Prompt(p: Poll, i: nat) returns (moves: seq<Move>)
    requires i <= MAX_VERIFY_ATTEMPTS && p == Poll(p.age, Some(EarliestAge(i)), i, map[]) && p.age <= EarliestAge(i)
    ensures AllPossible(p, 1, false, moves)
    ensures var p' := MovedAll(p, 1, false, moves); CallsHuman(p') && p'.age == EarliestAge(MAX_VERIFY_ATTEMPTS) + 1
    decreases MAX_VERIFY_ATTEMPTS - i
  {
    hide EarliestAge, BackOffGap, AllPossible, MovedAll;
    var at := EarliestAge(i) + 1;
    var p2 := Poll(at, Some(EarliestAge(i)), i, map[0 := at]);
    Nothing(p2, 1, false);
    assert 0 in p2.open;
    if i == MAX_VERIFY_ATTEMPTS {
      PromptFind(p, i, []);
      moves := [Passed(at)] + ([Found(0, at)] + []);
    } else {
      NextAge(i);
      hide CallsHuman;
      var more := Prompt(Poll(at, Some(EarliestAge(i + 1)), i + 1, map[]), i + 1);
      assert p2.open - {0} == map[];
      Cons(p2, 1, false, Counted(0), more);
      PromptFind(p, i, [Counted(0)] + more);
      moves := [Passed(at)] + ([Found(0, at)] + ([Counted(0)] + more));
    }
  }

  lemma NextAge(i: nat)
    ensures var at := EarliestAge(i) + 1; EarliestAge(i + 1) == at + BackOffGap(at) && at <= EarliestAge(i + 1)
  {
    GapBounds(EarliestAge(i) + 1);
  }

  lemma Nothing(p: Poll, n: nat, unblocks: bool)
    ensures AllPossible(p, n, unblocks, []) && MovedAll(p, n, unblocks, []) == p
  {
  }

  lemma PromptFind(p: Poll, i: nat, rest: seq<Move>)
    requires p == Poll(p.age, Some(EarliestAge(i)), i, map[]) && p.age <= EarliestAge(i)
    requires AllPossible(Poll(EarliestAge(i) + 1, Some(EarliestAge(i)), i, map[0 := EarliestAge(i) + 1]), 1, false, rest)
    ensures var at := EarliestAge(i) + 1; var moves := [Passed(at)] + ([Found(0, at)] + rest);
            && AllPossible(p, 1, false, moves)
            && MovedAll(p, 1, false, moves) == MovedAll(Poll(at, Some(EarliestAge(i)), i, map[0 := at]), 1, false, rest)
  {
    hide EarliestAge, AllPossible, MovedAll;
    var at := EarliestAge(i) + 1;
    Cons(p.(age := at), 1, false, Found(0, at), rest);
    Cons(p, 1, false, Passed(at), [Found(0, at)] + rest);
  }

  /** The instances below k, all with the row found at the same time. */
  function Crowd(k: nat, at: int): (open: map<nat, int>)
    ensures forall v | v in open :: v < k
  {
    if k == 0 then map[] else Crowd(k - 1, at)[k - 1 := at]
  }

  lemma {:induction false} FindMany(p: Poll, n: nat, unblocks: bool, j: nat, k: nat, at: int) returns (moves: seq<Move>)
    requires p.open == Crowd(j, at) && j <= k <= n && p.due.Some? && p.due.value < at <= p.age
    ensures AllPossible(p, n, unblocks, moves) && MovedAll(p, n, unblocks, moves) == p.(open := Crowd(k, at))
    decreases k - j
  {
    moves := [];
    if j < k {
      assert Moved(p, n, unblocks, Found(j, at)).open == Crowd(j + 1, at);
      var rest := FindMany(Moved(p, n, unblocks, Found(j, at)), n, unblocks, j + 1, k, at);
      Cons(p, n, unblocks, Found(j, at), rest);
      moves := [Found(j, at)] + rest;
    }
  }

  lemma {:induction false} CountMany(p: Poll, n: nat, unblocks: bool, k: nat, stop: nat, at: int) returns (moves: seq<Move>)
    requires p.open == Crowd(k, at) && stop <= k
    ensures AllPossible(p, n, unblocks, moves)
    ensures MovedAll(p, n, unblocks, moves) ==
              p.(open := Crowd(stop, at), tried := p.tried + (k - stop),
                 due := if stop < k then Some(at + BackOffGap(at)) else p.due)
    decreases k
  {
    moves := [];
    if stop < k {
      assert Moved(p, n, unblocks, Counted(k - 1)).open == Crowd(k - 1, at);
      var rest := CountMany(Moved(p, n, unblocks, Counted(k - 1)), n, unblocks, k - 1, stop, at);
      Cons(p, n, unblocks, Counted(k - 1), rest);
      moves := [Counted(k - 1)] + rest;
    }
  }

  /** In the i-th cycle k instances find the row, and all but the last few count it. */
  lemma Together(p: Poll, n: nat, unblocks: bool, i: nat, k: nat, stop: nat) returns (moves: seq<Move>)
    requires p.due == Some(i * CYCLE_MS - 1) && p.age <= i * CYCLE_MS && p.open == map[] && stop <= k <= n
    ensures AllPossible(p, n, unblocks, moves)
    ensures var p' := MovedAll(p, n, unblocks, moves);
            p'.age == i * CYCLE_MS && p'.open == Crowd(stop, i * CYCLE_MS) && p'.tried == p.tried + (k - stop) && p'.due.Some?
  {
    var at := i * CYCLE_MS;
    var p1 := Moved(p, n, unblocks, Passed(at));
    assert p1.open == Crowd(0, at);
    var found := FindMany(p1, n, unblocks, 0, k, at);
    var counted := CountMany(p1.(open := Crowd(k, at)), n, unblocks, k, stop, at);
    hide Moved, Possible, Crowd;
    Chain(p1, n, unblocks, found, counted);
    Cons(p, n, unblocks, Passed(at), found + counted);
    moves := [Passed(at)] + (found + counted);
  }

  /** Unblocked after each cycle: all instances count in every cycle, until one of them reads
      the full counter in the last. */
  lemma {:induction false} CycleByCycle(p: Poll, n: nat, unblocks: bool, i: nat) returns (moves: seq<Move>)
    requires n > 0 && p.tried <= MAX_VERIFY_ATTEMPTS && (unblocks || MAX_VERIFY_ATTEMPTS - p.tried < n)
    requires p.due == Some(i * CYCLE_MS - 1) && p.age <= i * CYCLE_MS && p.open == map[]
    ensures AllPossible(p, n, unblocks, moves)
    ensures var p' := MovedAll(p, n, unblocks, moves);
            CallsHuman(p') && p'.age == (i + FullCycles(MAX_VERIFY_ATTEMPTS - p.tried, n)) * CYCLE_MS
    decreases MAX_VERIFY_ATTEMPTS - p.tried
  {
    var left := MAX_VERIFY_ATTEMPTS - p.tried;
    if left < n {
      moves := Together(p, n, unblocks, i, left + 1, 1);
      assert 0 in Crowd(1, i * CYCLE_MS);
    } else {
      var round := Together(p, n, unblocks, i, n, 0);
      var p1 := MovedAll(p, n, unblocks, round);
      var p2 := Moved(p1, n, unblocks, Unblocked);
      var rest := CycleByCycle(p2, n, unblocks, i + 1);
      hide Moved, Possible, Crowd;
      Cons(p1, n, unblocks, Unblocked, rest);
      Chain(p, n, unblocks, round, [Unblocked] + rest);
      moves := round + ([Unblocked] + rest);
    }
  }

  /** Two instances: a verification of the first due time is held until the row is due for the
      third time, and then makes it due again; so does one of the second. */
  lemma HeldByOne(p: Poll) returns (moves: seq<Move>, p': Poll)
    requires p == Poll(0, Some(60_000), 0, map[])
    ensures AllPossible(p, 2, false, moves) && MovedAll(p, 2, false, moves) == p'
    ensures p' == Poll(540_013, Some(180_003), 4, map[])
  {
    moves, p' := FirstHeld(p);
    moves, p' := Also(p, 2, false, moves, p', Found(1, 180_004));
    moves, p' := Also(p, 2, false, moves, p', Counted(1));
    moves, p' := Also(p, 2, false, moves, p', Found(1, 540_013));
    moves, p' := Also(p, 2, false, moves, p', Counted(1));
    moves, p' := Also(p, 2, false, moves, p', Counted(0));
  }

  lemma FirstHeld(p: Poll) returns (moves: seq<Move>, p': Poll)
    requires p == Poll(0, Some(60_000), 0, map[])
    ensures AllPossible(p, 2, false, moves) && MovedAll(p, 2, false, moves) == p'
    ensures p' == Poll(540_013, Some(180_003), 1, map[0 := 60_001])
  {
    moves, p' := [], p;
    moves, p' := Also(p, 2, false, moves, p', Passed(60_001));
    moves, p' := Also(p, 2, false, moves, p', Found(0, 60_001));
    moves, p' := Also(p, 2, false, moves, p', Found(1, 60_001));
    moves, p' := Also(p, 2, false, moves, p', Counted(1));
    moves, p' := Also(p, 2, false, moves, p', Passed(540_013));
  }

  lemma PairAttains(p: Poll) returns (moves: seq<Move>)
    requires p == Poll(0, Some(60_000), 0, map[])
    ensures AllPossible(p, 2, false, moves)
    ensures var p' := MovedAll(p, 2, false, moves); CallsHuman(p') && p'.age == 540_013
  {
    var p';
    moves, p' := HeldByOne(p);
    moves, p' := Also(p, 2, false, moves, p', Found(0, 180_004));
    moves, p' := Also(p, 2, false, moves, p', Found(1, 180_004));
    moves, p' := Also(p, 2, false, moves, p', Counted(1));
    moves, p' := Also(p, 2, false, moves, p', Found(1, 540_013));
    moves, p' := Also(p, 2, false, moves, p', Counted(1));
    moves, p' := Also(p, 2, false, moves, p', Counted(0));
    moves, p' := Also(p, 2, false, moves, p', Found(0, 540_013));
    moves, p' := Also(p, 2, false, moves, p', Found(1, 540_013));
    moves, p' := Also(p, 2, false, moves, p', Counted(1));
    assert 0 in p'.open;
  }

  /** Three instances: two hold a verification of the first due time until the second. */
  lemma HeldByTwo(p: Poll) returns (moves: seq<Move>, p': Poll)
    requires p == Poll(0, Some(60_000), 0, map[])
    ensures AllPossible(p, 3, false, moves) && MovedAll(p, 3, false, moves) == p'
    ensures p' == Poll(180_004, Some(180_003), 3, map[0 := 60_001])
  {
    moves, p' := FirstTwoHeld(p);
    moves, p' := Also(p, 3, false, moves, p', Found(2, 180_004));
    moves, p' := Also(p, 3, false, moves, p', Counted(2));
    moves, p' := Also(p, 3, false, moves, p', Counted(1));
  }

  lemma FirstTwoHeld(p: Poll) returns (moves: seq<Move>, p': Poll)
    requires p == Poll(0, Some(60_000), 0, map[])
    ensures AllPossible(p, 3, false, moves) && MovedAll(p, 3, false, moves) == p'
    ensures p' == Poll(180_004, Some(180_003), 1, map[0 := 60_001, 1 := 60_001])
  {
    moves, p' := [], p;
    moves, p' := Also(p, 3, false, moves, p', Passed(60_001));
    moves, p' := Also(p, 3, false, moves, p', Found(0, 60_001));
    moves, p' := Also(p, 3, false, moves, p', Found(1, 60_001));
    moves, p' := Also(p, 3, false, moves, p', Found(2, 60_001));
    moves, p' := Also(p, 3, false, moves, p', Counted(2));
    moves, p' := Also(p, 3, false, moves, p', Passed(180_004));
  }

  lemma TripleAttains(p: Poll) returns (moves: seq<Move>)
    requires p == Poll(0, Some(60_000), 0, map[])
    ensures AllPossible(p, 3, false, moves)
    ensures var p' := MovedAll(p, 3, false, moves); CallsHuman(p') && p'.age == 180_004
  {
    var p';
    moves, p' := HeldByTwo(p);
    moves, p' := Also(p, 3, false, moves, p', Found(1, 180_004));
    moves, p' := Also(p, 3, false, moves, p', Found(2, 180_004));
    moves, p' := Also(p, 3, false, moves, p', Counted(1));
    moves, p' := Also(p, 3, false, moves, p', Counted(2));
    moves, p' := Also(p, 3, false, moves, p', Counted(0));
    moves, p' := Also(p, 3, false, moves, p', Found(0, 180_004));
    moves, p' := Also(p, 3, false, moves, p', Found(1, 180_004));
    moves, p' := Also(p, 3, false, moves, p', Found(2, 180_004));
    moves, p' := Also(p, 3, false, moves, p', Counted(1));
    moves, p' := Also(p, 3, false, moves, p', Counted(2));
    assert 0 in p'.open;
  }

  /** Whatever the number of instances, some schedule escalates at exactly that age. */
  lemma MovesAttain(n: nat, unblocks: bool) returns (moves: seq<Move>)
    requires n > 0
    ensures AllPossible(NewPoll(), n, unblocks, [Submitted(INITIAL_VERIFY_DELAY_MS)] + moves)
    ensures var p' := MovedAll(NewPoll(), n, unblocks, [Submitted(INITIAL_VERIFY_DELAY_MS)] + moves);
            CallsHuman(p') && p'.age == Earliest(n, unblocks)
  {
    var p := Poll(0, Some(60_000), 0, map[]);
    assert Moved(NewPoll(), n, unblocks, Submitted(INITIAL_VERIFY_DELAY_MS)) == p;
    if unblocks || n > MAX_VERIFY_ATTEMPTS {
      CyclesTable(n);
      moves := CycleByCycle(p, n, unblocks, 1);
    } else if n == 1 {
      EscalationAge();
      moves := Prompt(p, 0);
    } else if n == 2 {
      moves := PairAttains(p);
    } else {
      moves := TripleAttains(p);
      MoreInstances(p, 3, n, false, moves);
    }
    hide Moved, FullCycles;
    Cons(NewPoll(), n, unblocks, Submitted(INITIAL_VERIFY_DELAY_MS), moves);
  }

  lemma {:induction false} MoreInstances(p: Poll, n: nat, more: nat, unblocks: bool, moves: seq<Move>)
    requires n <= more && AllPossible(p, n, unblocks, moves)
    ensures AllPossible(p, more, unblocks, moves) && MovedAll(p, more, unblocks, moves) == MovedAll(p, n, unblocks, moves)
    decreases |moves|
  {
    if moves != [] { MoreInstances(Moved(p, n, unblocks, moves[0]), n, more, unblocks, moves[1..]); }
  }

  // ---- On the ledger --------------------------------------------------------------------

  /** The ledger, the time, and the verifications of one row that instances have open. */
  datatype State = State(t: Table, clock: int, open: map<nat, int>)

  /** Any ledger statement; time passing; an instance's query finding the row due; its back-off
      landing, whatever has happened to the row since; or its verification ending otherwise. */
  datatype Event =
    | Write(op: Op)
    | Wait(until: int)
    | Find(v: nat, now: int)
    | PutOff(v: nat)
    | Drop(v: nat)

  predicate Enabled(s: State, id: PaymentId, n: nat, unblocks: bool, e: Event) {
    id in s.t &&
    match e
    case Write(op) =>
      && Allowed(s.t, op)
      && (op.id == id ==>
            && !op.Postpone?
            && (op.Submit? ==> s.t[id].createdAt <= op.now <= s.clock)
            && (op.Resume? ==> unblocks && op.now == s.clock))
    case Wait(until) => s.clock <= until
    case Find(v, now) => v < n && v !in s.open && s.t[id].status == SUBMITTED && s.t[id].verifyAfter < now <= s.clock
    case PutOff(v) => v in s.open
    case Drop(v) => v in s.open
  }

  function Next(s: State, id: PaymentId, n: nat, unblocks: bool, e: Event): State
    requires Enabled(s, id, n, unblocks, e)
  {
    match e
    case Write(op) => s.(t := Apply(s.t, op))
    case Wait(until) => s.(clock := until)
    case Find(v, now) => s.(open := s.open[v := now])
    case PutOff(v) => s.(t := Apply(s.t, Postpone(id, s.open[v])), open := s.open - {v})
    case Drop(v) => s.(open := s.open - {v})
  }

  predicate IsRun(s: State, id: PaymentId, n: nat, unblocks: bool, run: seq<Event>)
    decreases |run|
  {
    run == [] || (Enabled(s, id, n, unblocks, run[0]) && IsRun(Next(s, id, n, unblocks, run[0]), id, n, unblocks, run[1..]))
  }

  function After(s: State, id: PaymentId, n: nat, unblocks: bool, run: seq<Event>): State
    requires IsRun(s, id, n, unblocks, run)
    decreases |run|
  {
    if run == [] then s else After(Next(s, id, n, unblocks, run[0]), id, n, unblocks, run[1..])
  }

  predicate Fresh(t: Table, id: PaymentId) { id in t && t[id].status == PENDING && t[id].verifyAttempts == 0 }

  function Start(t: Table, id: PaymentId): State
    requires id in t
  {
    State(t, t[id].createdAt, map[])
  }

  /** An open verification re-reads the row, finds it SUBMITTED and its counter full. */
  predicate Escalates(s: State, id: PaymentId) {
    id in s.t && s.t[id].status == SUBMITTED && s.t[id].verifyAttempts >= MAX_VERIFY_ATTEMPTS && s.open != map[]
  }

  function Age(s: State, id: PaymentId): int
    requires id in s.t
  {
    s.clock - s.t[id].createdAt
  }

  function PollOf(s: State, id: PaymentId): Poll
    requires id in s.t
  {
    var row := s.t[id];
    Poll(s.clock - row.createdAt, if row.status == PENDING then None else Some(row.verifyAfter - row.createdAt),
         row.verifyAttempts, map v | v in s.open :: s.open[v] - row.createdAt)
  }

  /** What an event is to the row's schedule. */
  function MoveOf(s: State, id: PaymentId, e: Event): Move
    requires id in s.t
  {
    var row := s.t[id];
    match e
    case Write(op) =>
      if op.id == id && op.Submit? && row.status == PENDING then Submitted(op.now + INITIAL_VERIFY_DELAY_MS - row.createdAt)
      else if op.id == id && op.Resume? && row.status == BLOCKED then Unblocked
      else Idle
    case Wait(until) => Passed(until - row.createdAt)
    case Find(v, now) => Found(v, now - row.createdAt)
    case PutOff(v) => Counted(v)
    case Drop(v) => Finished(v)
  }

  /** The event does to the schedule what its move says, and nothing else. */
  ghost predicate Mirrors(s: State, id: PaymentId, n: nat, unblocks: bool, e: Event)
    requires Enabled(s, id, n, unblocks, e)
  {
    var m, s' := MoveOf(s, id, e), Next(s, id, n, unblocks, e);
    && id in s'.t && s'.t[id].createdAt == s.t[id].createdAt
    && Possible(PollOf(s, id), n, unblocks, m) && PollOf(s', id) == Moved(PollOf(s, id), n, unblocks, m)
  }

  lemma EventIsMove(s: State, id: PaymentId, n: nat, unblocks: bool, e: Event)
    requires Enabled(s, id, n, unblocks, e) && Basic(PollOf(s, id), n)
    ensures Mirrors(s, id, n, unblocks, e)
  {
    if e.PutOff? {
      assert e.v in PollOf(s, id).open;
      PutOffIsMove(s, id, n, unblocks, e.v);
    } else {
      hide Mirrors, Basic;
      match e
      case Write(op) => WriteIsMove(s, id, n, unblocks, op);
      case Wait(_) => OpenIsMove(s, id, n, unblocks, e);
      case Find(_, _) => OpenIsMove(s, id, n, unblocks, e);
      case Drop(_) => OpenIsMove(s, id, n, unblocks, e);
    }
  }

  lemma OpenIsMove(s: State, id: PaymentId, n: nat, unblocks: bool, e: Event)
    requires Enabled(s, id, n, unblocks, e) && (e.Wait? || e.Find? || e.Drop?)
    ensures Mirrors(s, id, n, unblocks, e)
  {
    hide Apply;
  }

  lemma WriteIsMove(s: State, id: PaymentId, n: nat, unblocks: bool, op: Op)
    requires Enabled(s, id, n, unblocks, Write(op))
    ensures Mirrors(s, id, n, unblocks, Write(op))
  {
  }

  lemma PutOffIsMove(s: State, id: PaymentId, n: nat, unblocks: bool, v: nat)
    requires id in s.t && v in s.open && s.t[id].status != PENDING
    ensures Mirrors(s, id, n, unblocks, PutOff(v))
  {
    PutOffIsCounted(s, id, v);
    hide Apply;
  }

  lemma PutOffIsCounted(s: State, id: PaymentId, v: nat)
    requires id in s.t && v in s.open && s.t[id].status != PENDING
    ensures var t := Apply(s.t, Postpone(id, s.open[v]));
            id in t && t[id] == s.t[id].(verifyAttempts := s.t[id].verifyAttempts + 1,
                                         verifyAfter := s.open[v] + BackOffGap(s.open[v] - s.t[id].createdAt))
  {
  }

  lemma {:induction false} RunKeepsSafe(s: State, id: PaymentId, n: nat, unblocks: bool, run: seq<Event>)
    requires id in s.t && Safe(PollOf(s, id), n, unblocks) && IsRun(s, id, n, unblocks, run)
    ensures var s' := After(s, id, n, unblocks, run);
            id in s'.t && s'.t[id].createdAt == s.t[id].createdAt && Safe(PollOf(s', id), n, unblocks)
    decreases |run|
  {
    if run != [] {
      EventIsMove(s, id, n, unblocks, run[0]);
      MoveKeepsSafe(PollOf(s, id), n, unblocks, MoveOf(s, id, run[0]));
      hide Enabled, Safe, PollOf, MoveOf, Possible, Moved, Next;
      RunKeepsSafe(Next(s, id, n, unblocks, run[0]), id, n, unblocks, run[1..]);
    }
  }

  /** In every run with n instances, whatever else happens to the row or to others, no row
      escalates sooner after its creation than Earliest says. */
  lemma NeverEscalatesSooner(t: Table, id: PaymentId, n: nat, unblocks: bool, run: seq<Event>)
    requires Fresh(t, id) && n > 0 && IsRun(Start(t, id), id, n, unblocks, run)
    ensures var s := After(Start(t, id), id, n, unblocks, run);
            Escalates(s, id) ==> Age(s, id) >= Earliest(n, unblocks)
  {
    RunKeepsSafe(Start(t, id), id, n, unblocks, run);
    var s := After(Start(t, id), id, n, unblocks, run);
    if Escalates(s, id) {
      var v :| v in s.open;
      assert v in PollOf(s, id).open;
      SafeIsLate(PollOf(s, id), n, unblocks);
    }
  }

  // ---- The bound is exact -----------------------------------------------------------------

  /** How a move of the schedule comes about: an unblocked row was blocked by a late reply. */
  function EventsFor(s: State, id: PaymentId, m: Move): seq<Event>
    requires id in s.t
  {
    var created := s.t[id].createdAt;
    match m
    case Submitted(due) => [Write(Submit(id, created + due - INITIAL_VERIFY_DELAY_MS))]
    case Unblocked => [Write(Block(id, INSUFFICIENT_BALANCE))] + [Write(Resume(id, s.clock))]
    case Passed(age) => [Wait(created + age)]
    case Found(v, at) => [Find(v, created + at)]
    case Counted(v) => [PutOff(v)]
    case Finished(v) => [Drop(v)]
    case Idle => []
  }

  ghost predicate Realises(s: State, id: PaymentId, n: nat, unblocks: bool, run: seq<Event>, p: Poll)
    requires id in s.t
  {
    && IsRun(s, id, n, unblocks, run)
    && var s' := After(s, id, n, unblocks, run);
       id in s'.t && s'.t[id].status == SUBMITTED && s'.t[id].createdAt == s.t[id].createdAt && PollOf(s', id) == p
  }

  lemma OneEvent(s: State, id: PaymentId, n: nat, unblocks: bool, e: Event)
    requires Enabled(s, id, n, unblocks, e)
    ensures IsRun(s, id, n, unblocks, [e]) && After(s, id, n, unblocks, [e]) == Next(s, id, n, unblocks, e)
  {
    assert [e][1..] == [];
  }

  lemma {:induction false} RunOn(s: State, id: PaymentId, n: nat, unblocks: bool, run: seq<Event>, more: seq<Event>)
    requires IsRun(s, id, n, unblocks, run) && IsRun(After(s, id, n, unblocks, run), id, n, unblocks, more)
    ensures IsRun(s, id, n, unblocks, run + more)
    ensures After(s, id, n, unblocks, run + more) == After(After(s, id, n, unblocks, run), id, n, unblocks, more)
    decreases |run|
  {
    hide Enabled, Next;
    if run == [] {
      assert run + more == more;
    } else {
      RunOn(Next(s, id, n, unblocks, run[0]), id, n, unblocks, run[1..], more);
      assert (run + more)[1..] == run[1..] + more && (run + more)[0] == run[0];
    }
  }

  lemma UnblockIsRun(s: State, id: PaymentId, n: nat)
    requires id in s.t && s.t[id].status == SUBMITTED
    ensures Realises(s, id, n, true, EventsFor(s, id, Unblocked), Moved(PollOf(s, id), n, true, Unblocked))
  {
    var block, resume := Write(Block(id, INSUFFICIENT_BALANCE)), Write(Resume(id, s.clock));
    OneEvent(s, id, n, true, block);
    OneEvent(Next(s, id, n, true, block), id, n, true, resume);
    RunOn(s, id, n, true, [block], [resume]);
  }

  lemma SubmitIsRun(s: State, id: PaymentId, n: nat, unblocks: bool, due: int)
    requires id in s.t && s.t[id].status == PENDING && Possible(PollOf(s, id), n, unblocks, Submitted(due))
    ensures Realises(s, id, n, unblocks, EventsFor(s, id, Submitted(due)), Moved(PollOf(s, id), n, unblocks, Submitted(due)))
  {
    OneEvent(s, id, n, unblocks, EventsFor(s, id, Submitted(due))[0]);
  }

  lemma MoveIsRun(s: State, id: PaymentId, n: nat, unblocks: bool, m: Move)
    requires id in s.t && s.t[id].status == SUBMITTED && Possible(PollOf(s, id), n, unblocks, m)
    ensures Realises(s, id, n, unblocks, EventsFor(s, id, m), Moved(PollOf(s, id), n, unblocks, m))
  {
    if m.Unblocked? {
      UnblockIsRun(s, id, n);
    } else if m.Counted? {
      PutOffIsCounted(s, id, m.v);
      PutOffIsMove(s, id, n, unblocks, m.v);
      hide Apply;
      OneEvent(s, id, n, unblocks, PutOff(m.v));
    } else if !m.Idle? {
      var e := EventsFor(s, id, m)[0];
      OneEvent(s, id, n, unblocks, e);
      OpenIsMove(s, id, n, unblocks, e);
    }
  }

  lemma {:induction false} MovesAreRun(s: State, id: PaymentId, n: nat, unblocks: bool, moves: seq<Move>) returns (run: seq<Event>)
    requires id in s.t && s.t[id].status == SUBMITTED && AllPossible(PollOf(s, id), n, unblocks, moves)
    ensures Realises(s, id, n, unblocks, run, MovedAll(PollOf(s, id), n, unblocks, moves))
    decreases |moves|
  {
    if moves == [] {
      run := [];
    } else {
      hide PollOf, Possible, Moved, Enabled, Next, EventsFor;
      MoveIsRun(s, id, n, unblocks, moves[0]);
      var first := EventsFor(s, id, moves[0]);
      var rest := MovesAreRun(After(s, id, n, unblocks, first), id, n, unblocks, moves[1..]);
      RunOn(s, id, n, unblocks, first, rest);
      run := first + rest;
    }
  }

  /** And some run escalates at exactly that age, for any number of instances. */
  lemma EarliestIsAttained(t: Table, id: PaymentId, n: nat, unblocks: bool) returns (run: seq<Event>)
    requires Fresh(t, id) && n > 0
    ensures IsRun(Start(t, id), id, n, unblocks, run)
    ensures var s := After(Start(t, id), id, n, unblocks, run); Escalates(s, id) && Age(s, id) == Earliest(n, unblocks)
  {
    var s, submit := Start(t, id), Submitted(INITIAL_VERIFY_DELAY_MS);
    assert PollOf(s, id) == NewPoll();
    var moves := MovesAttain(n, unblocks);
    assert ([submit] + moves)[1..] == moves;
    SubmitIsRun(s, id, n, unblocks, INITIAL_VERIFY_DELAY_MS);
    var first := EventsFor(s, id, submit);
    var s1 := After(s, id, n, unblocks, first);
    assert AllPossible(PollOf(s1, id), n, unblocks, moves);
    var rest := MovesAreRun(s1, id, n, unblocks, moves);
    RunOn(s, id, n, unblocks, first, rest);
    run := first + rest;
    var s2 := After(s1, id, n, unblocks, rest);
    assert PollOf(s2, id).open != map[];
    assert s2.open != map[];
  }

  /** The bound a lone instance keeps. */
  ghost predicate KeepsLoneBound(n: nat, unblocks: bool) {
    forall t, id, run | Fresh(t, id) && IsRun(Start(t, id), id, n, unblocks, run) && Escalates(After(Start(t, id), id, n, unblocks, run), id) ::
      Age(After(Start(t, id), id, n, unblocks, run), id) >= Earliest(1, unblocks)
  }

  lemma {:induction false} MoreInstancesRun(s: State, id: PaymentId, n: nat, more: nat, unblocks: bool, run: seq<Event>)
    requires n <= more && IsRun(s, id, n, unblocks, run)
    ensures IsRun(s, id, more, unblocks, run) && After(s, id, more, unblocks, run) == After(s, id, n, unblocks, run)
    decreases |run|
  {
    hide Apply;
    if run != [] { MoreInstancesRun(Next(s, id, n, unblocks, run[0]), id, n, more, unblocks, run[1..]); }
  }

  /** The bound of 10,620.045 seconds, and of 540.009 where rows may be unblocked, holds of every
      run exactly when the service runs as one instance, so that no other verification of
      the row is open when one is begun. */
  lemma LoneBoundHoldsIff(n: nat, unblocks: bool)
    ensures KeepsLoneBound(n, unblocks) <==> n <= 1
  {
    if n <= 1 {
      forall t, id, run | Fresh(t, id) && IsRun(Start(t, id), id, n, unblocks, run)
        ensures Escalates(After(Start(t, id), id, n, unblocks, run), id) ==>
                  Age(After(Start(t, id), id, n, unblocks, run), id) >= Earliest(1, unblocks)
      {
        MoreInstancesRun(Start(t, id), id, n, 1, unblocks, run);
        NeverEscalatesSooner(t, id, 1, unblocks, run);
      }
    } else {
      var t: Table := map["p" := NewRow("r", PAYOUT, 1, Some("o"), 0)];
      var run := EarliestIsAttained(t, "p", n, unblocks);
      CyclesTable(1);
      CyclesTable(n);
      assert Age(After(Start(t, "p"), "p", n, unblocks, run), "p") < Earliest(1, unblocks);
    }
  }
}
