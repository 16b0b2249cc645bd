/**
  One game session: the state the engine keeps between rounds (the round history, the
  user's moves, the value table, the two scores and the classifier's fitted data and
  trained flag) and the operations that read and update it, one round at a time.
*/
module Session {
  import opened Wrappers
  import opened Moves
  import opened QTable
  import opened Predictor
  import opened Policy

  /** One entry of the round history. */
  datatype Round = Round(userMove: Move, computerMove: Move, result: Outcome)

  /** What a round reports back to the caller. */
  datatype Report = Report(userMove: Move, compMove: Move, result: Outcome, userScore: nat, compScore: nat)

  datatype Error = InvalidMove

  /** The number of rounds of the history that ended with outcome `o`. */
  function Count(h: seq<Round>, o: Outcome): (n: nat)
    ensures n <= |h|
  {
    if h == [] then 0
    else Count(h[..|h| - 1], o) + (if h[|h| - 1].result == o then 1 else 0)
  }

  /** Every round is a user win, a computer win or a draw, so the decisive rounds number
      the user's wins plus the computer's wins. */
  lemma {:induction false} OutcomesPartition(h: seq<Round>)
    ensures Count(h, User) + Count(h, Computer) + Count(h, Draw) == |h|
  {
    if h != [] {
      OutcomesPartition(h[..|h| - 1]);
    }
  }

  /** The user's moves of the history, in order. */
  function UserMovesOf(h: seq<Round>): (ms: seq<Move>)
    ensures |ms| == |h|
  {
    if h == [] then [] else UserMovesOf(h[..|h| - 1]) + [h[|h| - 1].userMove]
  }

  lemma {:induction false} UserMovesAt(h: seq<Round>, i: nat)
    requires i < |h|
    ensures UserMovesOf(h)[i] == h[i].userMove
  {
    if i < |h| - 1 {
      UserMovesAt(h[..|h| - 1], i);
    }
  }

  /** Every round of the history records the resolver's verdict on its two moves. */
  predicate Resolved(h: seq<Round>)
  {
    h == [] || (Resolved(h[..|h| - 1]) && h[|h| - 1].result == DetermineWinner(h[|h| - 1].userMove, h[|h| - 1].computerMove))
  }

  /** Appending a round appends its user move, extends the resolved history by a resolved
      round, and adds one to the win count of its winner only. */
  lemma AppendRound(h: seq<Round>, x: Round)
    ensures UserMovesOf(h + [x]) == UserMovesOf(h) + [x.userMove]
    ensures Resolved(h + [x]) <==> Resolved(h) && x.result == DetermineWinner(x.userMove, x.computerMove)
    ensures Count(h + [x], User) == Count(h, User) + (if x.result == User then 1 else 0)
    ensures Count(h + [x], Computer) == Count(h, Computer) + (if x.result == Computer then 1 else 0)
  {
    assert (h + [x])[..|h|] == h;
  }

  /** The reward fed to the value table, taken from the user's side of the round. */
  function Reward(result: Outcome): (r: int)
    ensures -1 <= r <= 1
    ensures r == 1 <==> result == User
    ensures r == -1 <==> result == Computer
  {
    match result
    case User => 1
    case Computer => -1
    case Draw => 0
  }

  /** The training windows of train_model, read off the history: for every round from the
      fourth on, the codes of the three user moves before it and the code of its own user
      move. */
  method Windows(h: seq<Round>) returns (xs: seq<seq<int>>, ys: seq<int>)
    ensures Dataset(xs, ys) == TrainingData(UserMovesOf(h))
  {
    xs, ys := [], [];
    var i := WindowLength;
    while i < |h|
      invariant WindowLength <= i
      invariant i == WindowLength || i <= |h|
      invariant |xs| == |ys| == i - WindowLength
      invariant forall k :: 0 <= k < |ys| ==>
        xs[k] == Codes(UserMovesOf(h)[k..k + WindowLength]) && ys[k] == Code(UserMovesOf(h)[k + WindowLength])
    {
      var input := seq(WindowLength, k requires 0 <= k < WindowLength => Code(h[i - WindowLength + k].userMove));
      UserMovesAt(h, i - 3);
      UserMovesAt(h, i - 2);
      UserMovesAt(h, i - 1);
      UserMovesAt(h, i);
      assert input == Codes(UserMovesOf(h)[i - WindowLength..i]);
      xs := xs + [input];
      ys := ys + [Code(h[i].userMove)];
      i := i + 1;
    }
    TrainingDataShape(UserMovesOf(h));
    assert Dataset(xs, ys) == TrainingData(UserMovesOf(h));
  }

  class Engine {
    /** The classifier, fitted on a data set and queried with an encoded window. */
    const classify: Classifier

    var isTrained: bool
    /** The data the classifier was last fitted on. */
    var fitted: Dataset
    /** The number of rounds the history had when the classifier was fitted. */
    ghost var trainedOn: nat

    var history: seq<Round>
    var userMoves: seq<Move>
    var qTable: Table
    var userScore: nat
    var compScore: nat

    /** The session invariant: the user moves mirror the history, every recorded result is
        the resolver's verdict, the scores count the user's and the computer's wins, every
        row of the table is full and bounded, and a trained classifier was fitted on the
        training data of a prefix of at least six rounds. */
    ghost predicate Valid()
      reads this
    {
      && userMoves == UserMovesOf(history)
      && Resolved(history)
      && userScore == Count(history, User)
      && compScore == Count(history, Computer)
      && WellFormed(qTable)
      && (isTrained ==> MinHistory <= trainedOn <= |history| && fitted == TrainingData(userMoves[..trainedOn]))
      && (!isTrained ==> fitted == NoData)
    }

    /** The two scores and the draws together count every round played. */
    lemma ScoresPartitionRounds()
      requires Valid()
      ensures userScore + compScore + Count(history, Draw) == |history|
    {
      OutcomesPartition(history);
    }

    /** A fresh session: nothing played, an empty table, an untrained classifier. */
    constructor (classify: Classifier)
      ensures Valid()
      ensures this.classify == classify
      ensures history == [] && userMoves == [] && qTable == map[]
      ensures userScore == 0 && compScore == 0 && !isTrained
    {
      this.classify := classify;
      isTrained := false;
      fitted := NoData;
      trainedOn := 0;
      history := [];
      userMoves := [];
      qTable := map[];
      userScore := 0;
      compScore := 0;
    }

    /** train_model: with fewer than six rounds nothing changes; otherwise the classifier is
        refitted on the windows of the whole history and marked as trained. */
    method TrainModel()
      requires Valid()
      modifies this`isTrained, this`fitted, this`trainedOn
      ensures Valid()
      ensures |history| < MinHistory ==> isTrained == old(isTrained) && fitted == old(fitted)
      ensures |history| >= MinHistory ==> isTrained && fitted == TrainingData(userMoves)
    {
      if |history| < MinHistory {
        return;
      }
      var xs, ys := Windows(history);
      assert userMoves[..|history|] == userMoves;
      if |xs| > 0 && |ys| > 0 {
        fitted := Dataset(xs, ys);
        isTrained := true;
        trainedOn := |history|;
      }
    }

    /** get_q_move: inserts an all-zero row for an unseen state, leaves the table alone
        otherwise, and returns the first maximal action of the state's row. */
    method GetQMove(state: seq<Move>) returns (a: Move)
      requires Valid()
      modifies this`qTable
      ensures Valid()
      ensures qTable == if state in old(qTable) then old(qTable) else old(qTable)[state := ZeroRow()]
      ensures a == BestAction(qTable[state])
      ensures state !in old(qTable) ==> a == S
    {
      if state !in qTable {
        qTable := qTable[state := ZeroRow()];
      }
      a := BestAction(qTable[state]);
    }

    /** update_q_table: after the lazy insertion of the state's row, only the cell of
        `action` in that row changes, by one bootstrapped update. */
    method UpdateQTable(state: seq<Move>, action: Move, reward: int)
      requires Valid()
      requires -1 <= reward <= 1
      modifies this`qTable
      ensures Valid()
      ensures qTable == UpdateTable(old(qTable), state, action, reward)
    {
      if state !in qTable {
        qTable := qTable[state := ZeroRow()];
      }
      var row := qTable[state];
      assert row == RowOf(old(qTable), state);
      var oldValue := Value(row, action);
      var updated := Assign(row, action, oldValue + LearningRate * (reward as real + Discount * MaxValue(row) - oldValue));
      assert updated == Updated(row, action, reward);
      UpdateTableKeepsWellFormed(old(qTable), state, action, reward);
      assert qTable[state := updated] == old(qTable)[state := updated];
      qTable := qTable[state := updated];
    }

    /** get_computer_move: trains the classifier on first opportunity, then plays by the
        difficulty the scores give; `pick` is the random choice among the actions. */
    method GetComputerMove(pick: Move) returns (m: Move)
      requires Valid()
      modifies this`isTrained, this`fitted, this`trainedOn, this`qTable
      ensures Valid()
      ensures qTable == old(qTable)
      ensures isTrained == (old(isTrained) || |history| >= MinHistory)
      ensures fitted == if !old(isTrained) && |history| >= MinHistory then TrainingData(userMoves) else old(fitted)
      ensures m == ChooseMove(GetDifficulty(userScore, compScore), qTable, StateOf(userMoves),
                              Predict(classify, fitted, isTrained, userMoves), pick)
    {
      var state := StateOf(userMoves);
      if !isTrained && |history| >= MinHistory {
        TrainModel();
      }
      m := Dispatch(state, pick);
    }

    /** The difficulty dispatch of get_computer_move for the current state: random on easy,
        the counter to the prediction (or random) on medium, and on hard the table when the
        state is one of its keys and the medium choice otherwise. */
    method Dispatch(state: seq<Move>, pick: Move) returns (m: Move)
      requires Valid()
      modifies this`qTable
      ensures Valid()
      ensures qTable == old(qTable)
      ensures m == ChooseMove(GetDifficulty(userScore, compScore), qTable, state,
                              Predict(classify, fitted, isTrained, userMoves), pick)
    {
      var difficulty := GetDifficulty(userScore, compScore);
      match difficulty
      case Easy =>
        m := pick;
      case Medium =>
        var pred := Predict(classify, fitted, isTrained, userMoves);
        if pred.Some? {
          m := CounterMove(pred.value);
        } else {
          m := pick;
        }
      case Hard =>
        if state in qTable {
          m := GetQMove(state);
        } else {
          var pred := Predict(classify, fitted, isTrained, userMoves);
          if pred.Some? {
            m := CounterMove(pred.value);
          } else {
            m := pick;
          }
        }
    }

    /** The second half of a round, once both moves are known: the round is resolved, the
        table is updated under the state before this round with the user's reward for the
        computer's move, the round is appended to the history and the winner's score goes up. */
    method Settle(userMove: Move, compMove: Move) returns (result: Outcome)
      requires Valid()
      modifies this`qTable, this`history, this`userMoves, this`userScore, this`compScore
      ensures Valid()
      ensures result == DetermineWinner(userMove, compMove)
      ensures qTable == UpdateTable(old(qTable), StateOf(old(userMoves)), compMove, Reward(result))
      ensures history == old(history) + [Round(userMove, compMove, result)]
      ensures userMoves == old(userMoves) + [userMove]
      ensures userScore == old(userScore) + (if result == User then 1 else 0)
      ensures compScore == old(compScore) + (if result == Computer then 1 else 0)
    {
      result := DetermineWinner(userMove, compMove);
      var reward := Reward(result);
      var state := StateOf(userMoves);
      UpdateQTable(state, compMove, reward);
      RecordRound(userMove, compMove, result);
    }

    /** The bookkeeping at the end of a round: the round joins the history, the user's move
        joins the move list and the winner's score goes up by one. */
    method RecordRound(userMove: Move, compMove: Move, result: Outcome)
      requires Valid()
      requires result == DetermineWinner(userMove, compMove)
      modifies this`history, this`userMoves, this`userScore, this`compScore
      ensures Valid()
      ensures history == old(history) + [Round(userMove, compMove, result)]
      ensures userMoves == old(userMoves) + [userMove]
      ensures userScore == old(userScore) + (if result == User then 1 else 0)
      ensures compScore == old(compScore) + (if result == Computer then 1 else 0)
    {
      AppendRound(history, Round(userMove, compMove, result));
      userMoves := userMoves + [userMove];
      history := history + [Round(userMove, compMove, result)];
      if isTrained {
        assert userMoves[..trainedOn] == old(userMoves)[..trainedOn];
      }
      if result == User {
        userScore := userScore + 1;
      } else if result == Computer {
        compScore := compScore + 1;
      }
    }

    /** A round with a valid user move: the engine picks its move, the round is settled and
        reported with the new scores. */
    method PlayMove(userMove: Move, pick: Move) returns (report: Report)
      requires Valid()
      modifies this`isTrained, this`fitted, this`trainedOn, this`qTable, this`history, this`userMoves, this`userScore, this`compScore
      ensures Valid()
      ensures report.userMove == userMove
      ensures report.compMove == ChooseMove(GetDifficulty(old(userScore), old(compScore)), old(qTable),
                                            StateOf(old(userMoves)), Predict(classify, fitted, isTrained, old(userMoves)), pick)
      ensures report.result == DetermineWinner(userMove, report.compMove)
      ensures history == old(history) + [Round(userMove, report.compMove, report.result)]
      ensures userMoves == old(userMoves) + [userMove]
      ensures qTable == UpdateTable(old(qTable), StateOf(old(userMoves)), report.compMove, Reward(report.result))
      ensures userScore == old(userScore) + (if report.result == User then 1 else 0)
      ensures compScore == old(compScore) + (if report.result == Computer then 1 else 0)
      ensures report.userScore == userScore && report.compScore == compScore
      ensures isTrained == (old(isTrained) || |old(history)| >= MinHistory)
      ensures fitted == if !old(isTrained) && |old(history)| >= MinHistory then TrainingData(old(userMoves)) else old(fitted)
    {
      var compMove := GetComputerMove(pick);
      var result := Settle(userMove, compMove);
      report := Report(userMove, compMove, result, userScore, compScore);
    }

    /** One round (the body of the move request): a move outside the three symbols is
        rejected with nothing changed; otherwise the round is played as by PlayMove. */
    method Play(input: string, pick: Move) returns (r: Result<Report, Error>)
      requires Valid()
      modifies this`isTrained, this`fitted, this`trainedOn, this`qTable, this`history, this`userMoves, this`userScore, this`compScore
      ensures Valid()
      ensures r.Success? <==> Parse(input).Some?
      ensures r.Failure? ==> r.error == InvalidMove && unchanged(this)
      ensures r.Success? ==> r.value.userMove == Parse(input).value
      ensures r.Success? ==>
        r.value.compMove == ChooseMove(GetDifficulty(old(userScore), old(compScore)), old(qTable),
                                       StateOf(old(userMoves)), Predict(classify, fitted, isTrained, old(userMoves)), pick)
      ensures r.Success? ==> r.value.result == DetermineWinner(r.value.userMove, r.value.compMove)
      ensures r.Success? ==> history == old(history) + [Round(r.value.userMove, r.value.compMove, r.value.result)]
      ensures r.Success? ==> userMoves == old(userMoves) + [r.value.userMove]
      ensures r.Success? ==>
        qTable == UpdateTable(old(qTable), StateOf(old(userMoves)), r.value.compMove, Reward(r.value.result))
      ensures r.Success? ==> userScore == old(userScore) + (if r.value.result == User then 1 else 0)
      ensures r.Success? ==> compScore == old(compScore) + (if r.value.result == Computer then 1 else 0)
      ensures r.Success? ==> r.value.userScore == userScore && r.value.compScore == compScore
      ensures r.Success? ==> isTrained == (old(isTrained) || |old(history)| >= MinHistory)
      ensures r.Success? ==>
        fitted == if !old(isTrained) && |old(history)| >= MinHistory then TrainingData(old(userMoves)) else old(fitted)
    {
      var parsed := Parse(input);
      if parsed.None? {
        return Failure(InvalidMove);
      }
      var report := PlayMove(parsed.value, pick);
      r := Success(report);
    }
  }

  /** A fresh session where the user opens with s and the random pick is g: the engine wins
      the first round, which leaves the user's reward -1 on g under the empty state and a
      zero win rate. The second round is then played on hard, and since the empty state is
      in the table the table decides: its first maximal action is s, whatever the second pick `pick2`. */
  method OpeningLossMakesRoundTwoTableDriven(classify: Classifier, pick2: Move) returns (first: Report, second: Report)
    ensures first == Report(S, G, Computer, 0, 1)
    ensures second == Report(S, S, Draw, 0, 1)
  {
    var engine := new Engine(classify);
    assert Parse("s") == Some(S);
    var r1 := engine.Play("s", G);
    var r2 := engine.Play("s", pick2);
    first := r1.value;
    second := r2.value;
  }
}
