/**
  The decision policy: the difficulty level chosen from the user's win rate, and the
  three-way dispatch between a random move, the counter to the predicted move and the
  best action of the value table.
*/
module Policy {
  import opened Wrappers
  import opened Moves
  import opened QTable

  datatype Difficulty = Easy | Medium | Hard

  /** Above this win rate the user plays against random moves. */
  const EasyAbove: real := 0.7

  /** Below this win rate the user plays against the value table. */
  const HardBelow: real := 0.3

  /** The user's share of the decisive rounds, one half when there has been none. */
  function WinRate(userScore: nat, compScore: nat): (rate: real)
    ensures 0.0 <= rate <= 1.0
    ensures userScore + compScore == 0 ==> rate == 0.5
    ensures userScore + compScore > 0 ==> rate * (userScore + compScore) as real == userScore as real
  {
    if userScore + compScore > 0 then (userScore as real) / ((userScore + compScore) as real) else 0.5
  }

  /** Comparing a ratio won / total with a bound is comparing won with bound * total. */
  lemma CompareRatio(rate: real, bound: real, total: real, won: real)
    requires total > 0.0 && rate * total == won
    ensures rate > bound <==> won > bound * total
    ensures rate < bound <==> won < bound * total
  {
    if rate > bound {
      assert (rate - bound) * total > 0.0;
    } else if rate < bound {
      assert (bound - rate) * total > 0.0;
    } else {
      assert rate * total == bound * total;
    }
  }

  /** The two rate comparisons, restated over the integer scores. */
  lemma RateThresholds(userScore: nat, compScore: nat)
    requires userScore + compScore > 0
    ensures WinRate(userScore, compScore) > EasyAbove <==> 10 * userScore > 7 * (userScore + compScore)
    ensures WinRate(userScore, compScore) < HardBelow <==> 10 * userScore < 3 * (userScore + compScore)
  {
    var rate := WinRate(userScore, compScore);
    var total := (userScore + compScore) as real;
    var won := userScore as real;
    CompareRatio(rate, EasyAbove, total, won);
    CompareRatio(rate, HardBelow, total, won);
  }

  /** get_difficulty, stated over the integer scores: easy exactly when the user has won
      more than 7 in 10 decisive rounds, hard exactly when fewer than 3 in 10, and medium
      otherwise, in particular before any decisive round. */
  function GetDifficulty(userScore: nat, compScore: nat): (d: Difficulty)
    ensures userScore + compScore == 0 ==> d == Medium
    ensures d == Easy <==> 10 * userScore > 7 * (userScore + compScore)
    ensures d == Hard <==> userScore + compScore > 0 && 10 * userScore < 3 * (userScore + compScore)
  {
    if userScore + compScore > 0 then RateThresholds(userScore, compScore); Select(WinRate(userScore, compScore))
    else Select(WinRate(userScore, compScore))
  }

  /** The comparison of the win rate against the two thresholds. */
  function Select(rate: real): (d: Difficulty)
    ensures d == Easy <==> rate > EasyAbove
    ensures d == Hard <==> rate < HardBelow
  {
    if rate > EasyAbove then Easy
    else if rate < HardBelow then Hard
    else Medium
  }

  /** The move get_computer_move plays, given the difficulty, the table, the current state,
      the prediction and the random pick. */
  function ChooseMove(d: Difficulty, table: Table, state: seq<Move>, pred: Option<Move>, pick: Move): (m: Move)
    ensures d == Easy ==> m == pick
    ensures d == Hard && state in table ==> m == BestAction(table[state])
    ensures (d == Medium || (d == Hard && state !in table)) ==>
      (if pred.Some? then Beats(m, pred.value) else m == pick)
  {
    match d
    case Easy => pick
    case Medium => if pred.Some? then CounterMove(pred.value) else pick
    case Hard =>
      if state in table then BestAction(table[state])
      else if pred.Some? then CounterMove(pred.value) else pick
  }
}
