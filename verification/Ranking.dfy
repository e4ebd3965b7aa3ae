/** The weighted ranking of quotes, and why the price shown for a choice is the price charged
    for it. Scores are exact rationals; prices are kobo and arrival times minutes. */
module Ranking {
  import opened Payments
  import opened Money

  datatype Quote = Quote(offer: string, price: nat, eta: nat, snapshot: Option<real>)

  /** Descending stable sort: an element goes before the first one scoring no higher. */
  function Insert(score: Quote -> real, q: Quote, sorted: seq<Quote>): seq<Quote> {
    if sorted == [] || score(q) >= score(sorted[0]) then [q] + sorted
    else [sorted[0]] + Insert(score, q, sorted[1..])
  }

  function SortDescending(score: Quote -> real, quotes: seq<Quote>): seq<Quote> {
    if quotes == [] then [] else Insert(score, quotes[0], SortDescending(score, quotes[1..]))
  }

  /** The largest value, but at least 1. */
  function MaxOf(values: Quote -> nat, quotes: seq<Quote>): (m: nat)
    ensures m >= 1 && (m == 1 || exists i :: 0 <= i < |quotes| && values(quotes[i]) == m)
    ensures forall i | 0 <= i < |quotes| :: values(quotes[i]) <= m
  {
    if quotes == [] then 1
    else
      var rest := MaxOf(values, quotes[1..]);
      if values(quotes[0]) > rest then values(quotes[0]) else rest
  }

  function Score(maxPrice: nat, maxEta: nat, q: Quote): real
    requires maxPrice >= 1 && maxEta >= 1
  {
    (1.0 - q.price as real / maxPrice as real) * 0.6 + (1.0 - q.eta as real / maxEta as real) * 0.4
  }

  function Scoring(quotes: seq<Quote>): Quote -> real {
    var maxPrice, maxEta := MaxOf((q: Quote) => q.price, quotes), MaxOf((q: Quote) => q.eta, quotes);
    (q: Quote) => Score(maxPrice, maxEta, q)
  }

  function RankQuotes(quotes: seq<Quote>): seq<Quote> { SortDescending(Scoring(quotes), quotes) }

  // ---- What the sort is ---------------------------------------------------------------

  ghost predicate Descending(score: Quote -> real, s: seq<Quote>) {
    forall i, j | 0 <= i < j < |s| :: score(s[i]) >= score(s[j])
  }

  /** The elements scoring exactly v, in order. */
  function Tied(score: Quote -> real, v: real, s: seq<Quote>): seq<Quote> {
    if s == [] then [] else (if score(s[0]) == v then [s[0]] else []) + Tied(score, v, s[1..])
  }

  lemma {:induction false} InsertPermutes(score: Quote -> real, q: Quote, s: seq<Quote>)
    ensures multiset(Insert(score, q, s)) == multiset{q} + multiset(s)
  {
    if s == [] || score(q) >= score(s[0]) {
    } else {
      InsertPermutes(score, q, s[1..]);
      assert s == [s[0]] + s[1..];
    }
  }

  lemma {:induction false} InsertDescends(score: Quote -> real, q: Quote, s: seq<Quote>)
    requires Descending(score, s)
    ensures Descending(score, Insert(score, q, s))
  {
    if s == [] || score(q) >= score(s[0]) {
    } else {
      var rest := Insert(score, q, s[1..]);
      InsertDescends(score, q, s[1..]);
      InsertPermutes(score, q, s[1..]);
      forall i | 0 <= i < |rest| ensures score(s[0]) >= score(rest[i]) {
        assert rest[i] in multiset(rest);
        assert rest[i] == q || rest[i] in s[1..];
      }
    }
  }

  lemma {:induction false} InsertIsStable(score: Quote -> real, q: Quote, s: seq<Quote>, v: real)
    requires Descending(score, s)
    ensures Tied(score, v, Insert(score, q, s)) == (if score(q) == v then [q] else []) + Tied(score, v, s)
  {
    hide Tied;
    if s == [] || score(q) >= score(s[0]) {
      TiedCons(score, v, q, s);
    } else {
      var tail := s[1..];
      assert s == [s[0]] + tail;
      InsertIsStable(score, q, tail, v);
      TiedCons(score, v, s[0], tail);
      TiedCons(score, v, s[0], Insert(score, q, tail));
      if score(q) == v {
        assert [] + ([q] + Tied(score, v, tail)) == [q] + ([] + Tied(score, v, tail));
      } else {
        assert [] + Tied(score, v, tail) == Tied(score, v, tail);
      }
    }
  }

  lemma TiedCons(score: Quote -> real, v: real, q: Quote, rest: seq<Quote>)
    ensures Tied(score, v, [q] + rest) == (if score(q) == v then [q] else []) + Tied(score, v, rest)
  {
    assert ([q] + rest)[1..] == rest;
  }

  /** The ranking is a permutation in descending order that keeps tied quotes as they came. */
  lemma {:induction false} SortIsStable(score: Quote -> real, quotes: seq<Quote>, v: real)
    ensures Descending(score, SortDescending(score, quotes))
    ensures multiset(SortDescending(score, quotes)) == multiset(quotes)
    ensures Tied(score, v, SortDescending(score, quotes)) == Tied(score, v, quotes)
  {
    if quotes != [] {
      SortIsStable(score, quotes[1..], v);
      var sorted := SortDescending(score, quotes[1..]);
      InsertPermutes(score, quotes[0], sorted);
      InsertDescends(score, quotes[0], sorted);
      InsertIsStable(score, quotes[0], sorted, v);
      assert quotes == [quotes[0]] + quotes[1..];
    }
  }

  // ---- Reading order ------------------------------------------------------------------

  predicate SameRows(a: seq<Quote>, b: seq<Quote>) { multiset(a) == multiset(b) }

  ghost predicate DistinctOffers(quotes: seq<Quote>) {
    forall i, j | 0 <= i < j < |quotes| :: quotes[i].offer != quotes[j].offer
  }

  ghost predicate DistinctScores(quotes: seq<Quote>) {
    forall i, j | 0 <= i < j < |quotes| :: Scoring(quotes)(quotes[i]) != Scoring(quotes)(quotes[j])
  }

  lemma MaxIgnoresOrder(values: Quote -> nat, a: seq<Quote>, b: seq<Quote>)
    requires SameRows(a, b)
    ensures MaxOf(values, a) == MaxOf(values, b)
  {
    forall i | 0 <= i < |a| ensures values(a[i]) <= MaxOf(values, b) { assert a[i] in multiset(b); }
    forall i | 0 <= i < |b| ensures values(b[i]) <= MaxOf(values, a) { assert b[i] in multiset(a); }
  }

  lemma ScoringIgnoresOrder(a: seq<Quote>, b: seq<Quote>, q: Quote)
    requires SameRows(a, b)
    ensures Scoring(a)(q) == Scoring(b)(q)
  {
    MaxIgnoresOrder((q: Quote) => q.price, a, b);
    MaxIgnoresOrder((q: Quote) => q.eta, a, b);
  }

  /** Descending lists of the same elements with pairwise distinct scores are equal. */
  lemma {:induction false} DescendingIsUnique(score: Quote -> real, a: seq<Quote>, b: seq<Quote>)
    requires Descending(score, a) && Descending(score, b) && multiset(a) == multiset(b)
    requires forall i, j | 0 <= i < j < |a| :: score(a[i]) != score(a[j])
    ensures a == b
  {
    assert |a| == |multiset(a)| == |multiset(b)| == |b|;
    if a != [] {
      SameHead(score, a, b);
      SameTails(a, b);
      DescendingIsUnique(score, a[1..], b[1..]);
    }
  }

  lemma SameHead(score: Quote -> real, a: seq<Quote>, b: seq<Quote>)
    requires Descending(score, a) && Descending(score, b) && multiset(a) == multiset(b) && a != [] && b != []
    requires forall i, j | 0 <= i < j < |a| :: score(a[i]) != score(a[j])
    ensures a[0] == b[0]
  {
    assert a[0] in multiset(b) && b[0] in multiset(a);
    var j :| 0 <= j < |b| && b[j] == a[0];
    var i :| 0 <= i < |a| && a[i] == b[0];
    assert score(b[0]) >= score(b[j]) && score(a[0]) >= score(a[i]);
  }

  lemma SameTails(a: seq<Quote>, b: seq<Quote>)
    requires a != [] && b != [] && a[0] == b[0] && multiset(a) == multiset(b)
    ensures multiset(a[1..]) == multiset(b[1..]) && a == [a[0]] + a[1..] && b == [b[0]] + b[1..]
  {
    assert a == [a[0]] + a[1..] && b == [b[0]] + b[1..];
    assert multiset(a[1..]) == multiset(a) - multiset{a[0]};
    assert multiset(b[1..]) == multiset(b) - multiset{b[0]};
  }

  lemma {:induction false} SortDependsOnScoresOnly(f: Quote -> real, g: Quote -> real, quotes: seq<Quote>)
    requires forall q :: f(q) == g(q)
    ensures SortDescending(f, quotes) == SortDescending(g, quotes)
  {
    if quotes != [] {
      SortDependsOnScoresOnly(f, g, quotes[1..]);
      InsertDependsOnScoresOnly(f, g, quotes[0], SortDescending(f, quotes[1..]));
    }
  }

  lemma {:induction false} InsertDependsOnScoresOnly(f: Quote -> real, g: Quote -> real, q: Quote, s: seq<Quote>)
    requires forall q :: f(q) == g(q)
    ensures Insert(f, q, s) == Insert(g, q, s)
  {
    if s != [] { InsertDependsOnScoresOnly(f, g, q, s[1..]); }
  }

  lemma RankingIgnoresOrder(a: seq<Quote>, b: seq<Quote>)
    requires SameRows(a, b) && DistinctScores(a)
    ensures RankQuotes(a) == RankQuotes(b)
  {
    var score := Scoring(a);
    forall q ensures score(q) == Scoring(b)(q) { ScoringIgnoresOrder(a, b, q); }
    SortDependsOnScoresOnly(score, Scoring(b), b);
    var ra, rb := SortDescending(score, a), SortDescending(score, b);
    SortIsStable(score, a, 0.0);
    SortIsStable(score, b, 0.0);
    ScoresStayDistinct(score, a, ra);
    DescendingIsUnique(score, ra, rb);
  }

  lemma ScoresStayDistinct(score: Quote -> real, a: seq<Quote>, r: seq<Quote>)
    requires multiset(a) == multiset(r)
    requires forall i, j | 0 <= i < j < |a| :: score(a[i]) != score(a[j])
    ensures forall i, j | 0 <= i < j < |r| :: score(r[i]) != score(r[j])
  {
    forall i, j | 0 <= i < j < |r| ensures score(r[i]) != score(r[j]) {
      if score(r[i]) == score(r[j]) {
        assert r[i] in multiset(a) && r[j] in multiset(a);
        var x :| 0 <= x < |a| && a[x] == r[i];
        var y :| 0 <= y < |a| && a[y] == r[j];
        assert x == y;
        TwiceInMultiset(r, i, j);
        OnceInMultiset(a, x);
      }
    }
  }

  lemma TwiceInMultiset(r: seq<Quote>, i: nat, j: nat)
    requires i < j < |r| && r[i] == r[j]
    ensures multiset(r)[r[i]] >= 2
  {
    assert r == r[..i] + [r[i]] + r[i + 1..j] + [r[j]] + r[j + 1..];
  }

  lemma OnceInMultiset(a: seq<Quote>, x: nat)
    requires x < |a| && forall i | 0 <= i < |a| && i != x :: a[i] != a[x]
    ensures multiset(a)[a[x]] == 1
  {
    assert a == a[..x] + [a[x]] + a[x + 1..];
    assert a[x] !in a[..x] && a[x] !in a[x + 1..];
  }

  // ---- Ties do depend on it -----------------------------------------------------------

  function Reverse(s: seq<Quote>): seq<Quote> { if s == [] then [] else Reverse(s[1..]) + [s[0]] }

  lemma {:induction false} TiedSplits(score: Quote -> real, v: real, a: seq<Quote>, b: seq<Quote>)
    ensures Tied(score, v, a + b) == Tied(score, v, a) + Tied(score, v, b)
  {
    if a == [] {
      assert a + b == b;
      assert Tied(score, v, a) == [];
    } else {
      assert (a + b)[1..] == a[1..] + b && (a + b)[0] == a[0];
      TiedSplits(score, v, a[1..], b);
      var first := if score(a[0]) == v then [a[0]] else [];
      assert Tied(score, v, a + b) == first + Tied(score, v, a[1..] + b);
      assert Tied(score, v, a) == first + Tied(score, v, a[1..]);
    }
  }

  lemma {:induction false} ReversePermutes(s: seq<Quote>)
    ensures multiset(Reverse(s)) == multiset(s) && |Reverse(s)| == |s|
    ensures s != [] ==> Reverse(s)[0] == s[|s| - 1]
  {
    if s != [] {
      ReversePermutes(s[1..]);
      assert s == [s[0]] + s[1..];
    }
  }

  lemma {:induction false} ReverseTies(score: Quote -> real, v: real, s: seq<Quote>)
    ensures Tied(score, v, Reverse(s)) == Reverse(Tied(score, v, s))
  {
    if s != [] {
      ReverseTies(score, v, s[1..]);
      TiedSplits(score, v, Reverse(s[1..]), [s[0]]);
      assert Tied(score, v, [s[0]]) == if score(s[0]) == v then [s[0]] else [];
      var tied := Tied(score, v, s[1..]);
      if score(s[0]) == v {
        assert ([s[0]] + tied)[1..] == tied;
      } else {
        assert Tied(score, v, s) == tied;
      }
    }
  }

  lemma {:induction false} TiedKeeps(score: Quote -> real, v: real, s: seq<Quote>, i: nat, j: nat)
    requires i < j < |s| && score(s[i]) == v && score(s[j]) == v && DistinctOffers(s)
    ensures |Tied(score, v, s)| >= 2
  {
    if i > 0 {
      TiedKeeps(score, v, s[1..], i - 1, j - 1);
    } else {
      TiedHas(score, v, s[1..], j - 1);
    }
  }

  lemma {:induction false} TiedHas(score: Quote -> real, v: real, s: seq<Quote>, i: nat)
    requires i < |s| && score(s[i]) == v
    ensures s[i] in Tied(score, v, s)
  {
    if i > 0 { TiedHas(score, v, s[1..], i - 1); }
  }

  lemma {:induction false} TiedOffersDistinct(score: Quote -> real, v: real, s: seq<Quote>)
    requires DistinctOffers(s)
    ensures DistinctOffers(Tied(score, v, s))
    ensures forall q | q in Tied(score, v, s) :: q in s
  {
    if s != [] {
      TiedOffersDistinct(score, v, s[1..]);
      var rest := Tied(score, v, s[1..]);
      forall k | 0 <= k < |rest| ensures rest[k].offer != s[0].offer {
        assert rest[k] in s[1..];
      }
    }
  }

  /** Two tied quotes are ranked the way they were read, so reading them backwards ranks them
      the other way. */
  lemma TieDependsOnOrder(quotes: seq<Quote>, i: nat, j: nat)
    requires DistinctOffers(quotes) && i < j < |quotes|
    requires Scoring(quotes)(quotes[i]) == Scoring(quotes)(quotes[j])
    ensures SameRows(quotes, Reverse(quotes)) && RankQuotes(Reverse(quotes)) != RankQuotes(quotes)
  {
    var score, v := Scoring(quotes), Scoring(quotes)(quotes[i]);
    var back := Reverse(quotes);
    ReversePermutes(quotes);
    ReverseTies(score, v, quotes);
    forall q ensures score(q) == Scoring(back)(q) { ScoringIgnoresOrder(quotes, back, q); }
    SortDependsOnScoresOnly(score, Scoring(back), back);
    SortIsStable(score, quotes, v);
    SortIsStable(score, back, v);
    var tied := Tied(score, v, quotes);
    TiedKeeps(score, v, quotes, i, j);
    TiedOffersDistinct(score, v, quotes);
    ReversePermutes(tied);
    assert tied[0].offer != tied[|tied| - 1].offer;
  }

  /** The ranking is independent of the order the rows are read in exactly when no two
      scores are equal. */
  lemma OrderIndependentIff(quotes: seq<Quote>)
    requires DistinctOffers(quotes)
    ensures (forall other | SameRows(quotes, other) :: RankQuotes(other) == RankQuotes(quotes)) <==> DistinctScores(quotes)
  {
    if DistinctScores(quotes) {
      forall other | SameRows(quotes, other) ensures RankQuotes(other) == RankQuotes(quotes) {
        RankingIgnoresOrder(quotes, other);
      }
    } else {
      var i, j :| 0 <= i < j < |quotes| && Scoring(quotes)(quotes[i]) == Scoring(quotes)(quotes[j]);
      TieDependsOnOrder(quotes, i, j);
    }
  }

  // ---- Dominance ------------------------------------------------------------------------

  /** No dearer, no slower, and better in one. */
  predicate Dominates(a: Quote, b: Quote) {
    a.price <= b.price && a.eta <= b.eta && (a.price < b.price || a.eta < b.eta)
  }

  /** The trade-off in whole numbers: a scores above b exactly when three times its price
      advantage, scaled by the longest time, outweighs twice its time disadvantage, scaled by
      the highest price. */
  lemma ScoreOrderIff(maxPrice: nat, maxEta: nat, a: Quote, b: Quote)
    requires maxPrice >= 1 && maxEta >= 1
    ensures Score(maxPrice, maxEta, a) > Score(maxPrice, maxEta, b) <==>
            3 * (b.price - a.price) * maxEta + 2 * (b.eta - a.eta) * maxPrice > 0
  {
    var p, e := maxPrice as real, maxEta as real;
    var x, y := (b.price - a.price) as real, (b.eta - a.eta) as real;
    ScoreDifference(maxPrice, maxEta, a, b);
    var d := 3.0 * (x / p) + 2.0 * (y / e);
    assert d * (p * e) == 3.0 * x * e + 2.0 * y * p by {
      assert x / p * p == x && y / e * e == y;
      assert 3.0 * (x / p) * (p * e) == 3.0 * (x / p * p) * e;
      assert 2.0 * (y / e) * (p * e) == 2.0 * (y / e * e) * p;
    }
    PositiveTimes(d, p * e);
    assert (3 * (b.price - a.price) * maxEta) as real == 3.0 * x * e;
    assert (2 * (b.eta - a.eta) * maxPrice) as real == 2.0 * y * p;
  }

  lemma ScoreDifference(maxPrice: nat, maxEta: nat, a: Quote, b: Quote)
    requires maxPrice >= 1 && maxEta >= 1
    ensures Score(maxPrice, maxEta, a) - Score(maxPrice, maxEta, b) ==
            (3.0 * ((b.price - a.price) as real / maxPrice as real) + 2.0 * ((b.eta - a.eta) as real / maxEta as real)) / 5.0
  {
    assert (b.price - a.price) as real / maxPrice as real == b.price as real / maxPrice as real - a.price as real / maxPrice as real;
    assert (b.eta - a.eta) as real / maxEta as real == b.eta as real / maxEta as real - a.eta as real / maxEta as real;
  }

  lemma PositiveTimes(d: real, m: real)
    requires m > 0.0
    ensures d > 0.0 <==> d * m > 0.0
  {
  }

  lemma DominantScoresHigher(maxPrice: nat, maxEta: nat, a: Quote, b: Quote)
    requires maxPrice >= 1 && maxEta >= 1 && Dominates(a, b)
    ensures Score(maxPrice, maxEta, a) > Score(maxPrice, maxEta, b)
  {
    QuotientOrder(a.price, b.price, maxPrice);
    QuotientOrder(a.eta, b.eta, maxEta);
  }

  lemma QuotientOrder(x: nat, y: nat, m: nat)
    requires m >= 1
    ensures x < y ==> x as real / m as real < y as real / m as real
    ensures x == y ==> x as real / m as real == y as real / m as real
  {
  }

  /** Wherever both appear, the dominating quote is ranked above the other. */
  lemma DominantRanksAbove(quotes: seq<Quote>, i: nat, j: nat)
    requires i < |RankQuotes(quotes)| && j < |RankQuotes(quotes)|
    requires Dominates(RankQuotes(quotes)[i], RankQuotes(quotes)[j])
    ensures i < j
  {
    SortIsStable(Scoring(quotes), quotes, 0.0);
    DominantScoresHigher(MaxOf((q: Quote) => q.price, quotes), MaxOf((q: Quote) => q.eta, quotes),
                         RankQuotes(quotes)[i], RankQuotes(quotes)[j]);
  }

  // ---- Shown and charged ------------------------------------------------------------------

  /** The operators' own deposit percentages, and the platform's. */
  datatype Settings = Settings(feePercent: real, depositPercent: real, overrides: map<string, real>)

  function PercentFor(s: Settings, offer: string): real {
    if offer in s.overrides then s.overrides[offer] else s.depositPercent
  }

  /** deliverQuoteShortlist writes the percentage onto each offer before it shows anything. */
  function Freeze(s: Settings, quotes: seq<Quote>): seq<Quote> {
    seq(|quotes|, i requires 0 <= i < |quotes| => quotes[i].(snapshot := Some(PercentFor(s, quotes[i].offer))))
  }

  datatype Line = Line(offer: string, total: int, deposit: int)

  function TotalOf(s: Settings, q: Quote): int { q.price + Round(PercentOf(q.price, s.feePercent)) }

  /** The k-th line of the message, counting from 1; the percentage is the one just frozen. */
  function Shown(s: Settings, quotes: seq<Quote>, k: nat): Option<Line> {
    var ranked := RankQuotes(quotes);
    if 1 <= k <= |ranked|
    then var q := ranked[k - 1];
         Some(Line(q.offer, TotalOf(s, q), DepositAmount(TotalOf(s, q), PercentFor(s, q.offer))))
    else None
  }

  /** What choosing k charges, from the rows and settings as they are then. */
  function Charged(s: Settings, quotes: seq<Quote>, k: nat): Option<Line> {
    var ranked := RankQuotes(quotes);
    if 1 <= k <= |ranked|
    then var q := ranked[k - 1];
         var percent := match q.snapshot case Some(p) => p case None => s.depositPercent;
         Some(Line(q.offer, TotalOf(s, q), DepositAmount(TotalOf(s, q), percent)))
    else None
  }

  /** Every line shown is of the split its quote would be selected with: price and fee together,
      and the deposit at the operator's own percentage where there is one. */
  lemma ShownIsTheSplit(s: Settings, quotes: seq<Quote>, k: nat)
    ensures Shown(s, quotes, k).Some? <==> 1 <= k <= |quotes|
    ensures 1 <= k <= |quotes| ==>
              && |RankQuotes(quotes)| == |quotes|
              && var q, line := RankQuotes(quotes)[k - 1], Shown(s, quotes, k).value;
                 var own := q.offer in s.overrides;
                 && line.offer == q.offer
                 && (own ==> var a := Split(q.price, s.feePercent, s.overrides[q.offer]); line.total == q.price + a.fee && line.deposit == a.deposit)
                 && (!own ==> var a := Split(q.price, s.feePercent, s.depositPercent); line.total == q.price + a.fee && line.deposit == a.deposit)
  {
    SortIsStable(Scoring(quotes), quotes, 0.0);
    assert |RankQuotes(quotes)| == |multiset(RankQuotes(quotes))| == |multiset(quotes)| == |quotes|;
    hide Round, RankQuotes;
  }

  /** And every charge: at the percentage frozen on the offer, else at the platform's. */
  lemma ChargedIsTheSplit(s: Settings, quotes: seq<Quote>, k: nat)
    ensures Charged(s, quotes, k).Some? <==> 1 <= k <= |quotes|
    ensures 1 <= k <= |quotes| ==>
              && |RankQuotes(quotes)| == |quotes|
              && var q, line := RankQuotes(quotes)[k - 1], Charged(s, quotes, k).value;
                 && line.offer == q.offer
                 && (forall frozen :: q.snapshot == Some(frozen) ==>
                       var a := Split(q.price, s.feePercent, frozen); line.total == q.price + a.fee && line.deposit == a.deposit)
                 && (q.snapshot == None ==>
                       var a := Split(q.price, s.feePercent, s.depositPercent); line.total == q.price + a.fee && line.deposit == a.deposit)
  {
    SortIsStable(Scoring(quotes), quotes, 0.0);
    assert |RankQuotes(quotes)| == |multiset(RankQuotes(quotes))| == |multiset(quotes)| == |quotes|;
    hide Round, RankQuotes;
  }

  /** Freezing writes snapshots only: it changes no score and no position. */
  lemma {:induction false} FreezeCommutes(s: Settings, score: Quote -> real, frozen: Quote -> real, quotes: seq<Quote>)
    requires forall q: Quote :: frozen(q.(snapshot := Some(PercentFor(s, q.offer)))) == score(q)
    ensures SortDescending(frozen, Freeze(s, quotes)) == Freeze(s, SortDescending(score, quotes))
  {
    if quotes != [] {
      assert Freeze(s, quotes)[1..] == Freeze(s, quotes[1..]);
      FreezeCommutes(s, score, frozen, quotes[1..]);
      FreezeInserts(s, score, frozen, quotes[0], SortDescending(score, quotes[1..]));
    }
  }

  lemma {:induction false} FreezeInserts(s: Settings, score: Quote -> real, frozen: Quote -> real, q: Quote, sorted: seq<Quote>)
    requires forall q: Quote :: frozen(q.(snapshot := Some(PercentFor(s, q.offer)))) == score(q)
    ensures Insert(frozen, q.(snapshot := Some(PercentFor(s, q.offer))), Freeze(s, sorted)) == Freeze(s, Insert(score, q, sorted))
  {
    if sorted == [] || score(q) >= score(sorted[0]) {
    } else {
      assert Freeze(s, sorted)[1..] == Freeze(s, sorted[1..]);
      FreezeInserts(s, score, frozen, q, sorted[1..]);
    }
  }

  lemma {:induction false} FreezeKeepsMax(s: Settings, values: Quote -> nat, quotes: seq<Quote>)
    requires forall q: Quote :: values(q.(snapshot := Some(PercentFor(s, q.offer)))) == values(q)
    ensures MaxOf(values, Freeze(s, quotes)) == MaxOf(values, quotes)
  {
    if quotes != [] {
      assert Freeze(s, quotes)[1..] == Freeze(s, quotes[1..]);
      FreezeKeepsMax(s, values, quotes[1..]);
    }
  }

  lemma FreezeKeepsRanking(s: Settings, quotes: seq<Quote>)
    ensures RankQuotes(Freeze(s, quotes)) == Freeze(s, RankQuotes(quotes))
    ensures DistinctScores(quotes) ==> DistinctScores(Freeze(s, quotes))
  {
    FreezeKeepsMax(s, (q: Quote) => q.price, quotes);
    FreezeKeepsMax(s, (q: Quote) => q.eta, quotes);
    FreezeCommutes(s, Scoring(quotes), Scoring(Freeze(s, quotes)), quotes);
  }

  /** What is shown is what is charged: the same choice denotes the same offer, total and
      deposit, in whatever order the rows are read back, and however the platform's and the
      operators' deposit percentages have changed since, as long as no two scores tie and the
      service fee is unchanged. */
  lemma ShownIsCharged(s: Settings, quotes: seq<Quote>, later: Settings, readBack: seq<Quote>, k: nat)
    requires DistinctScores(quotes) && SameRows(Freeze(s, quotes), readBack)
    requires later.feePercent == s.feePercent
    ensures Charged(later, readBack, k) == Shown(s, quotes, k)
  {
    hide RankQuotes, DistinctScores, SameRows, DepositAmount, Freeze, TotalOf;
    FreezeKeepsRanking(s, quotes);
    RankingIgnoresOrder(Freeze(s, quotes), readBack);
    SameLine(s, later, RankQuotes(quotes), k);
  }

  lemma SameLine(s: Settings, later: Settings, ranked: seq<Quote>, k: nat)
    requires later.feePercent == s.feePercent
    ensures |Freeze(s, ranked)| == |ranked|
    ensures 1 <= k <= |ranked| ==>
              var q, f := ranked[k - 1], Freeze(s, ranked)[k - 1];
              f.offer == q.offer && TotalOf(later, f) == TotalOf(s, q) && f.snapshot == Some(PercentFor(s, q.offer))
  {
  }
}
