/** prepareNextRound's expanding search: widen the radius and try again in one call. */
module RoundSearch {
  import opened Payments

  const RADIUS_EXPANSION_KM: nat := 2

  /** Candidate search as a function of the extra radius; operators already offered are
      excluded by whoever supplies it. */
  type Finder = nat -> seq<OperatorId>

  datatype Found =
    | Candidates(round: nat, extraRadiusKm: nat, who: seq<OperatorId>)
    | NoCoverage(round: nat, extraRadiusKm: nat)
    | RoundsExhausted(round: nat, extraRadiusKm: nat)

  function FirstRadius(round: nat): nat {
    (if round >= 1 then round - 1 else 0) * RADIUS_EXPANSION_KM
  }

  /** The radius manualCandidatesFor rebuilds from the stored round. */
  function RebuiltRadius(storedRound: nat): nat {
    (if storedRound >= 2 then storedRound - 2 else 0) * RADIUS_EXPANSION_KM
  }

  /** The radius of the k-th attempt. */
  function RadiusAt(round: nat, k: nat): nat { FirstRadius(round) + k * RADIUS_EXPANSION_KM }

  /** Attempt k is made: every earlier one found nobody, there is coverage, and the round
      cap had not been reached. */
  ghost predicate Reaches(find: Finder, covered: bool, cap: int, round: nat, k: nat) {
    && (k > 0 ==> covered && round + k < cap)
    && forall j: nat | j < k :: find(RadiusAt(round, j)) == []
  }

  /** What the search must answer, with no reference to how it loops: the first attempt that
      finds anybody; otherwise no coverage at once, or the cap after the last attempt. */
  ghost predicate Answers(find: Finder, covered: bool, cap: int, round: nat, found: Found) {
    match found
    case Candidates(r, x, who) =>
      r >= round && Reaches(find, covered, cap, round, r - round) &&
      x == RadiusAt(round, r - round) && who == find(x) && who != []
    case NoCoverage(r, x) => !covered && r == round && x == FirstRadius(round) && find(x) == []
    case RoundsExhausted(r, x) =>
      covered && r > round && r >= cap && Reaches(find, covered, cap, round, r - 1 - round) &&
      x == RadiusAt(round, r - 1 - round) && find(x) == []
  }

  /** The specification pins the answer down. */
  lemma AnswersIsFunctional(find: Finder, covered: bool, cap: int, round: nat, f: Found, g: Found)
    requires Answers(find, covered, cap, round, f) && Answers(find, covered, cap, round, g)
    ensures f == g
  {
  }

  /** The loop always ends, whatever the cap, and its first hit is what it reports. */
  method PrepareNextRound(find: Finder, covered: bool, cap: int, round: nat) returns (found: Found)
    ensures Answers(find, covered, cap, round, found)
  {
    var attemptRound := round;
    var extraRadiusKm: nat := FirstRadius(round);
    while true
      invariant round <= attemptRound && extraRadiusKm == RadiusAt(round, attemptRound - round)
      invariant Reaches(find, covered, cap, round, attemptRound - round)
      decreases cap - attemptRound
    {
      var candidates := find(extraRadiusKm);
      if candidates != [] {
        return Candidates(attemptRound, extraRadiusKm, candidates);
      }
      if !covered {
        assert attemptRound == round;
        return NoCoverage(attemptRound, extraRadiusKm);
      }
      attemptRound := attemptRound + 1;
      if attemptRound >= cap {
        return RoundsExhausted(attemptRound, extraRadiusKm);
      }
      extraRadiusKm := extraRadiusKm + RADIUS_EXPANSION_KM;
    }
  }

  /** There is always an answer, so the specification can be used as a function. */
  lemma {:induction false} AnswerExists(find: Finder, covered: bool, cap: int, round: nat, k: nat)
    requires Reaches(find, covered, cap, round, k)
    ensures exists found :: Answers(find, covered, cap, round, found)
    decreases cap - (round + k)
  {
    var x := RadiusAt(round, k);
    if find(x) != [] {
      assert Answers(find, covered, cap, round, Candidates(round + k, x, find(x)));
    } else if !covered {
      assert Answers(find, covered, cap, round, NoCoverage(round, x));
    } else if round + k + 1 >= cap {
      assert Answers(find, covered, cap, round, RoundsExhausted(round + k + 1, x));
    } else {
      AnswerExists(find, covered, cap, round, k + 1);
    }
  }

  ghost function Search(find: Finder, covered: bool, cap: int, round: nat): (found: Found)
    ensures Answers(find, covered, cap, round, found)
  {
    AnswerExists(find, covered, cap, round, 0);
    var found :| Answers(find, covered, cap, round, found);
    found
  }

  /** On rounds-exhausted, the radius rebuilt from the stored round is the last radius
      searched exactly when the search started at round 1 or later; the first search of a
      request starts at round 0, where it holds only if the cap allows a single attempt. */
  lemma RebuiltRadiusExactIff(find: Finder, covered: bool, cap: int, round: nat, found: Found)
    requires Answers(find, covered, cap, round, found) && found.RoundsExhausted?
    ensures RebuiltRadius(found.round) == found.extraRadiusKm <==> round >= 1 || cap <= 1
  {
  }
}
