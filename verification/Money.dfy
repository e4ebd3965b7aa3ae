/** The job's money: fee, deposit and balance at selection, the balance after disputes, what
    the operator is paid, and the three-way split when a paid job is cancelled.

    Kobo are integers; percentages are exact rationals, read as reals; rounding is the
    half-up rounding of a whole number of kobo. */
module Money {
  import opened Payments

  const MIN_PAYSTACK_CHARGE_KOBO := 5000

  function Round(x: real): int { (x + 0.5).Floor }

  function PercentOf(amount: int, percent: real): real { amount as real * percent / 100.0 }

  function DepositAmount(total: int, percent: real): int {
    Max(MIN_PAYSTACK_CHARGE_KOBO, Round(PercentOf(total, percent)))
  }

  /** The money columns of a request; the last one is set by a dispute resolution. */
  datatype Amounts = Amounts(fee: int, deposit: int, balance: int, originalBalance: Option<int>)

  /** The split written when a quote is selected. */
  function Split(quote: int, feePercent: real, depositPercent: real): Amounts {
    var fee := Round(PercentOf(quote, feePercent));
    var total := quote + fee;
    var deposit := DepositAmount(total, depositPercent);
    Amounts(fee, deposit, total - deposit, None)
  }

  function ResolveDispute(a: Amounts, percent: int): Amounts {
    a.(balance := Round(PercentOf(a.balance, percent as real)), originalBalance := Some(a.balance))
  }

  /** What finalizeJobSettlement pays the operator. */
  function OperatorPayout(a: Amounts): int { a.deposit + a.balance - a.fee }

  /** The balance before disputes, as both readers reconstruct it. */
  function AcceptedBalance(a: Amounts): int {
    match a.originalBalance case Some(b) => b case None => a.balance
  }

  function SettlementTotal(a: Amounts): int { a.deposit + AcceptedBalance(a) }

  /** The total the request detail shows follows the balance as it stands. */
  function DisplayedTotal(a: Amounts): int { a.deposit + a.balance }

  function AcceptedQuote(a: Amounts): int { a.deposit + AcceptedBalance(a) - a.fee }

  // ---- Rounding -----------------------------------------------------------------

  /** Rounding lands within half a kobo, ties upward: the only integer that does. */
  lemma RoundIsNearest(x: real, n: int)
    ensures Round(x) == n <==> n as real - 0.5 <= x < n as real + 0.5
  {
  }

  lemma RoundMonotone(x: real, y: real)
    requires x <= y
    ensures Round(x) <= Round(y)
  {
  }

  lemma RoundBetween(x: real, lo: int, hi: int)
    requires lo as real <= x <= hi as real
    ensures lo <= Round(x) <= hi
  {
  }

  lemma PercentBetween(amount: int, percent: real)
    requires 0 <= amount && 0.0 <= percent <= 100.0
    ensures 0.0 <= PercentOf(amount, percent) <= amount as real
    ensures 0 <= Round(PercentOf(amount, percent)) <= amount
  {
    var a := amount as real;
    assert 0.0 <= a * percent <= a * 100.0;
    RoundBetween(PercentOf(amount, percent), 0, amount);
  }

  lemma PercentOfNegative(amount: int, percent: real)
    requires amount <= 0 && 0.0 <= percent <= 100.0
    ensures amount <= Round(PercentOf(amount, percent)) <= 0
  {
    var a := amount as real;
    assert a * 100.0 <= a * percent <= 0.0;
    RoundBetween(PercentOf(amount, percent), amount, 0);
  }

  // ---- Selection ------------------------------------------------------------------

  /** Deposit and balance add up to quote plus fee, and the undisputed operator receives
      exactly the quote, whatever the percentages. */
  lemma SplitAddsUp(quote: int, feePercent: real, depositPercent: real)
    ensures var a := Split(quote, feePercent, depositPercent);
            && a.deposit + a.balance == quote + a.fee
            && OperatorPayout(a) == quote && AcceptedQuote(a) == quote && SettlementTotal(a) == quote + a.fee
  {
  }

  /** Within half a kobo, the upper half included. */
  ghost predicate Nearest(n: int, x: real) { n as real - 0.5 <= x < n as real + 0.5 }

  /** The fee is the fee percentage of the quote to the nearest kobo, and the deposit either
      the deposit percentage of the total to the nearest kobo or, when that is less, the
      provider's minimum. */
  lemma SplitIsNearest(quote: int, feePercent: real, depositPercent: real)
    ensures var a := Split(quote, feePercent, depositPercent);
            && Nearest(a.fee, PercentOf(quote, feePercent))
            && (Nearest(a.deposit, PercentOf(quote + a.fee, depositPercent)) ||
                (a.deposit == MIN_PAYSTACK_CHARGE_KOBO && PercentOf(quote + a.fee, depositPercent) < a.deposit as real - 0.5))
  {
    var a := Split(quote, feePercent, depositPercent);
    RoundIsNearest(PercentOf(quote, feePercent), a.fee);
    var exact := PercentOf(quote + a.fee, depositPercent);
    RoundIsNearest(exact, Round(exact));
  }

  /** A deposit is never below the provider's minimum, and it stays within the total exactly
      when the total is payable at all. */
  lemma DepositInRangeIff(total: int, percent: real)
    requires 0.0 <= percent <= 100.0
    ensures MIN_PAYSTACK_CHARGE_KOBO <= DepositAmount(total, percent)
    ensures DepositAmount(total, percent) <= total <==> total >= MIN_PAYSTACK_CHARGE_KOBO
  {
    if total >= 0 { PercentBetween(total, percent); }
  }

  /** So the balance of a selected quote is non-negative exactly then. */
  lemma BalanceNonNegativeIff(quote: int, feePercent: real, depositPercent: real)
    requires 0.0 <= depositPercent <= 100.0
    ensures var a := Split(quote, feePercent, depositPercent);
            a.balance >= 0 <==> quote + a.fee >= MIN_PAYSTACK_CHARGE_KOBO
  {
    DepositInRangeIff(quote + Round(PercentOf(quote, feePercent)), depositPercent);
  }

  // ---- Disputes -------------------------------------------------------------------

  function ResolveAll(a: Amounts, percents: seq<int>): Amounts {
    if percents == [] then a else ResolveDispute(ResolveAll(a, percents[..|percents| - 1]), percents[|percents| - 1])
  }

  predicate Percentages(percents: seq<int>) { forall i | 0 <= i < |percents| :: 1 <= percents[i] <= 100 }

  /** After the first resolution the operator is paid the quote minus exactly what the
      balance was reduced by, the reconstructed figures are still the original ones, and the
      displayed total falls with the balance. */
  lemma OneDisputeKeepsTheBooks(quote: int, feePercent: real, depositPercent: real, percent: int)
    ensures var a := Split(quote, feePercent, depositPercent);
            var b := ResolveDispute(a, percent);
            && OperatorPayout(b) == quote - (a.balance - b.balance)
            && SettlementTotal(b) == quote + a.fee && AcceptedQuote(b) == quote
            && DisplayedTotal(b) == quote + a.fee - (a.balance - b.balance)
            && Nearest(b.balance, PercentOf(a.balance, percent as real))
            && (1 <= percent <= 100 && a.balance >= 0 ==> 0 <= b.balance <= a.balance)
  {
    var a := Split(quote, feePercent, depositPercent);
    RoundIsNearest(PercentOf(a.balance, percent as real), ResolveDispute(a, percent).balance);
    if 1 <= percent <= 100 && a.balance >= 0 { PercentBetween(a.balance, percent as real); }
  }

  lemma {:induction false} BalanceOnlyFalls(a: Amounts, percents: seq<int>, n: nat)
    requires a.balance >= 0 && Percentages(percents) && n <= |percents|
    ensures 0 <= ResolveAll(a, percents).balance <= ResolveAll(a, percents[..n]).balance <= a.balance
    decreases |percents|
  {
    if percents == [] {
    } else {
      var last := |percents| - 1;
      var before := percents[..last];
      BalanceOnlyFalls(a, before, 0);
      PercentBetween(ResolveAll(a, before).balance, percents[last] as real);
      if n == |percents| {
        assert percents[..n] == percents;
      } else {
        assert before[..n] == percents[..n];
        BalanceOnlyFalls(a, before, n);
      }
    }
  }

  lemma {:induction false} OnlyBalanceMoves(a: Amounts, percents: seq<int>)
    ensures ResolveAll(a, percents).deposit == a.deposit && ResolveAll(a, percents).fee == a.fee
  {
    if percents != [] { OnlyBalanceMoves(a, percents[..|percents| - 1]); }
  }

  /** A later resolution overwrites the saved balance. After any number of them the original
      quote and total are recovered exactly when every resolution but the last left the
      balance as it was. */
  lemma OriginalRecoveredIff(a: Amounts, percents: seq<int>)
    requires a.originalBalance.None? && a.balance >= 0 && Percentages(percents)
    ensures SettlementTotal(ResolveAll(a, percents)) == SettlementTotal(a) <==>
            forall n: nat | n < |percents| :: ResolveAll(a, percents[..n]).balance == a.balance
    ensures AcceptedQuote(ResolveAll(a, percents)) == AcceptedQuote(a) <==>
            SettlementTotal(ResolveAll(a, percents)) == SettlementTotal(a)
  {
    OnlyBalanceMoves(a, percents);
    if percents != [] {
      var last := |percents| - 1;
      OnlyBalanceMoves(a, percents[..last]);
      forall n: nat | n < |percents|
        ensures ResolveAll(a, percents[..last]).balance <= ResolveAll(a, percents[..n]).balance <= a.balance
      {
        assert percents[..last][..n] == percents[..n];
        BalanceOnlyFalls(a, percents[..last], n);
      }
    }
  }

  /** Halving a balance twice loses the original: a quote of 100,000 kobo reads back lower. */
  lemma SecondDisputeLosesTheQuote()
    ensures var a := Split(100000, 10.0, 20.0);
            AcceptedQuote(ResolveAll(a, [50])) == 100000 && AcceptedQuote(ResolveAll(a, [50, 50])) == 56000
  {
    var a := Split(100000, 10.0, 20.0);
    assert a == Amounts(10000, 22000, 88000, None);
    assert [50, 50][..1] == [50] && [50][..0] == [];
    assert ResolveAll(a, []) == a;
    assert ResolveAll(a, [50]) == ResolveDispute(a, 50);
    assert ResolveAll(a, [50, 50]) == ResolveDispute(ResolveDispute(a, 50), 50);
  }

  // ---- Cancellation ---------------------------------------------------------------

  datatype Shares = Shares(feeKeptOut: int, refund: int, payout: int)

  function FeeKept(deposit: int, fee: int, total: int): int {
    if total > 0 then Round(deposit as real * fee as real / total as real) else 0
  }

  function CancellationSettlement(deposit: int, fee: int, total: int, percent: int): Shares {
    var feeKeptOut := FeeKept(deposit, fee, total);
    var splittable := deposit - feeKeptOut;
    var refund := Round(PercentOf(splittable, percent as real));
    Shares(feeKeptOut, refund, splittable - refund)
  }

  predicate NonNegative(s: Shares) { s.feeKeptOut >= 0 && s.refund >= 0 && s.payout >= 0 }

  /** The fee share exceeds the deposit only when the fee exceeds the total by enough. */
  lemma FeeKeptWithinDepositIff(deposit: int, fee: int, total: int)
    requires total > 0
    ensures FeeKept(deposit, fee, total) <= deposit <==> 2 * deposit * (fee - total) < total
  {
    FeeKeptIsQuotient(deposit, fee, total);
    QuotientWithin(deposit * fee, deposit, total);
    TimesDifference(deposit, fee, total);
    hide FeeKept, Round;
  }

  lemma FeeKeptIsQuotient(deposit: int, fee: int, total: int)
    requires total > 0
    ensures FeeKept(deposit, fee, total) == Round((deposit * fee) as real / total as real)
  {
    TimesAsReal(deposit, fee);
    hide Round;
  }

  lemma QuotientWithin(p: int, d: int, t: int)
    requires t > 0
    ensures Round(p as real / t as real) <= d <==> 2 * p - 2 * (d * t) < t
  {
    RoundWithin(p as real / t as real, d);
    TimesAsReal(d, t);
    QuotientBelow(p as real, (d * t) as real, d as real, t as real);
    WholeBelow(p, d * t, t);
    hide Round;
  }

  lemma RoundWithin(x: real, n: int)
    ensures Round(x) <= n <==> x < n as real + 0.5
  {
  }

  lemma TimesDifference(a: int, b: int, c: int)
    ensures 2 * a * (b - c) == 2 * (a * b) - 2 * (a * c)
  {
  }

  lemma WholeBelow(p: int, r: int, t: int)
    ensures 2.0 * p as real < 2.0 * r as real + t as real <==> 2 * p - 2 * r < t
  {
    assert (2 * p) as real == 2.0 * p as real && (2 * r + t) as real == 2.0 * r as real + t as real;
  }

  lemma TimesAsReal(a: int, b: int)
    ensures (a * b) as real == a as real * b as real
  {
  }

  lemma QuotientBelow(p: real, r: real, d: real, t: real)
    requires t > 0.0 && r == d * t
    ensures p / t < d + 0.5 <==> 2.0 * p < 2.0 * r + t
  {
    var q := p / t;
    assert q * t == p;
    TimesPositive(q, d + 0.5, t);
    assert (d + 0.5) * t == r + 0.5 * t;
  }

  lemma TimesPositive(x: real, y: real, t: real)
    requires t > 0.0
    ensures x < y <==> x * t < y * t
  {
  }

  lemma FeeKeptNonNegative(deposit: int, fee: int, total: int)
    requires deposit >= 0 && fee >= 0
    ensures FeeKept(deposit, fee, total) >= 0
  {
    if total > 0 {
      var d, f, t := deposit as real, fee as real, total as real;
      assert d * f >= 0.0;
      assert d * f / t >= 0.0;
    }
  }

  /** Every kobo of the deposit goes to exactly one of the three parties, and no share is
      negative, exactly when the fee share fits into the deposit. */
  lemma EveryKoboSettledIff(deposit: int, fee: int, total: int, percent: int)
    requires deposit >= 0 && fee >= 0 && 0 <= percent <= 100
    ensures var s := CancellationSettlement(deposit, fee, total, percent);
            && s.feeKeptOut + s.refund + s.payout == deposit
            && (NonNegative(s) <==> total <= 0 || 2 * deposit * (fee - total) < total)
            && (fee <= total ==> NonNegative(s))
  {
    FeeKeptNonNegative(deposit, fee, total);
    var splittable := deposit - FeeKept(deposit, fee, total);
    if splittable >= 0 { PercentBetween(splittable, percent as real); }
    if total > 0 {
      FeeKeptWithinDepositIff(deposit, fee, total);
      if fee <= total { assert deposit * (fee - total) <= 0; }
    }
  }

  /** The fee share is the deposit's share of the fee, nothing where there is no total, and the
      refund the percentage of what is left, each to the nearest kobo; the payout is the rest. */
  lemma SharesAreNearest(deposit: int, fee: int, total: int, percent: int)
    ensures var s := CancellationSettlement(deposit, fee, total, percent);
            && (if total > 0 then Nearest(s.feeKeptOut, deposit as real * fee as real / total as real) else s.feeKeptOut == 0)
            && Nearest(s.refund, PercentOf(deposit - s.feeKeptOut, percent as real))
            && s.payout == deposit - s.feeKeptOut - s.refund
  {
    var s := CancellationSettlement(deposit, fee, total, percent);
    if total > 0 { RoundIsNearest(deposit as real * fee as real / total as real, s.feeKeptOut); }
    RoundIsNearest(PercentOf(deposit - s.feeKeptOut, percent as real), s.refund);
  }

  /** A larger percentage never refunds less nor pays out more; the ends give one side all. */
  lemma SplitFollowsThePercent(deposit: int, fee: int, total: int, low: int, high: int)
    requires deposit >= 0 && fee >= 0 && (total <= 0 || 2 * deposit * (fee - total) < total)
    requires 0 <= low <= high <= 100
    ensures var s, s' := CancellationSettlement(deposit, fee, total, low), CancellationSettlement(deposit, fee, total, high);
            s.refund <= s'.refund && s.payout >= s'.payout && s.feeKeptOut == s'.feeKeptOut
    ensures CancellationSettlement(deposit, fee, total, 0).refund == 0
    ensures CancellationSettlement(deposit, fee, total, 100).payout == 0
  {
    if total > 0 { FeeKeptWithinDepositIff(deposit, fee, total); } else { FeeKeptNonNegative(deposit, fee, total); }
    hide FeeKept, Round;
    var splittable := deposit - FeeKept(deposit, fee, total);
    assert splittable >= 0;
    PercentFollows(splittable, low as real, high as real);
    PercentEnds(splittable);
  }

  lemma PercentFollows(amount: int, low: real, high: real)
    requires amount >= 0 && low <= high
    ensures Round(PercentOf(amount, low)) <= Round(PercentOf(amount, high))
  {
    var x := amount as real;
    assert x * low <= x * high;
    RoundMonotone(PercentOf(amount, low), PercentOf(amount, high));
  }

  lemma PercentEnds(amount: int)
    ensures Round(PercentOf(amount, 0.0)) == 0 && Round(PercentOf(amount, 100.0)) == amount
  {
    assert PercentOf(amount, 100.0) == amount as real;
    assert PercentOf(amount, 0.0) == 0.0;
  }

  /** Whatever a selection wrote, and after at most one dispute resolution, cancelling splits
      the deposit with no negative share. */
  lemma SelectedJobSettles(quote: int, feePercent: real, depositPercent: real, disputed: bool, percent: int, refundPercent: int)
    requires quote >= 0 && 0.0 <= feePercent <= 100.0 && 0 <= refundPercent <= 100
    ensures var a := Split(quote, feePercent, depositPercent);
            var b := if disputed then ResolveDispute(a, percent) else a;
            NonNegative(CancellationSettlement(b.deposit, b.fee, SettlementTotal(b), refundPercent))
  {
    var a := Split(quote, feePercent, depositPercent);
    PercentBetween(quote, feePercent);
    EveryKoboSettledIff(a.deposit, a.fee, quote + a.fee, refundPercent);
  }

  /** After a second resolution it can: with a fee of 20% and a deposit of 10%, the fee share
      alone exceeds the deposit. */
  lemma SecondDisputeBreaksTheSplit()
    ensures var a := ResolveAll(Split(100000, 20.0, 10.0), [1, 100]);
            CancellationSettlement(a.deposit, a.fee, SettlementTotal(a), 50) == Shares(18349, -3174, -3175)
  {
    var a := Split(100000, 20.0, 10.0);
    assert a == Amounts(20000, 12000, 108000, None);
    assert [1, 100][..1] == [1] && [1][..0] == [];
    assert ResolveAll(a, []) == a;
    assert ResolveAll(a, [1]) == ResolveDispute(a, 1) == Amounts(20000, 12000, 1080, Some(108000));
    assert ResolveAll(a, [1, 100]) == Amounts(20000, 12000, 1080, Some(1080));
    QuotientBetween(12000.0 * 20000.0, 13080.0, 18348.5, 18349.5);
    assert FeeKept(12000, 20000, 13080) == 18349;
    assert PercentOf(-6349, 50.0) == -3174.5;
  }

  lemma QuotientBetween(p: real, t: real, low: real, high: real)
    requires t > 0.0 && low * t <= p < high * t
    ensures low <= p / t < high
  {
    var q := p / t;
    assert q * t == p;
    TimesPositive(q, high, t);
    TimesPositive(q, low, t);
  }
}
