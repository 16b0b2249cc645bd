/**
  The sequence predictor around the classifier: the training set built by sliding a
  window of three user moves over the history, the query window, and the guarded
  prediction. The classifier itself is an uninterpreted function supplied by the caller.
*/
module Predictor {
  import opened Wrappers
  import opened Moves

  /** The examples a classifier is fitted on: encoded three-move inputs and encoded labels. */
  datatype Dataset = Dataset(x: seq<seq<int>>, y: seq<int>)

  /** A fitted classifier's answer for one encoded window; None when the library fails. */
  type Classifier = (Dataset, seq<int>) -> Option<int>

  /** The number of rounds needed before the first training attempt. */
  const MinHistory: nat := 6

  /** The length of the window the classifier sees. */
  const WindowLength: nat := 3

  const NoData: Dataset := Dataset([], [])

  /** The encoding of a window of moves, move by move. */
  function Codes(w: seq<Move>): (r: seq<int>)
    ensures |r| == |w|
    ensures forall k :: 0 <= k < |w| ==> Decode(r[k]) == Some(w[k])
  {
    seq(|w|, k requires 0 <= k < |w| => Code(w[k]))
  }

  /** The training set for the user moves `moves`: for every index i from 3 on, the input
      is the encoding of moves i-3, i-2, i-1 and the label is the encoding of move i. */
  function TrainingData(moves: seq<Move>): (d: Dataset)
    ensures d == NoData <==> |moves| <= WindowLength
    decreases |moves|
  {
    if |moves| <= WindowLength then NoData
    else
      var n := |moves|;
      var prev := TrainingData(moves[..n - 1]);
      Dataset(prev.x + [Codes(moves[n - 4..n - 1])], prev.y + [Code(moves[n - 1])])
  }

  /** The training set has one example per move after the third, and example k pairs the
      window moves[k..k+3] with the label moves[k+3]. */
  lemma {:induction false} TrainingDataShape(moves: seq<Move>)
    ensures |TrainingData(moves).x| == |TrainingData(moves).y| == if |moves| >= WindowLength then |moves| - WindowLength else 0
    ensures forall k :: 0 <= k < |TrainingData(moves).y| ==>
      TrainingData(moves).x[k] == Codes(moves[k..k + WindowLength]) && TrainingData(moves).y[k] == Code(moves[k + WindowLength])
  {
    if |moves| > WindowLength {
      var n := |moves|;
      var prefix := moves[..n - 1];
      TrainingDataShape(prefix);
      var d := TrainingData(moves);
      var prev := TrainingData(prefix);
      assert d.x == prev.x + [Codes(moves[n - 4..n - 1])];
      assert d.y == prev.y + [Code(moves[n - 1])];
      forall k | 0 <= k < |d.y|
        ensures d.x[k] == Codes(moves[k..k + WindowLength]) && d.y[k] == Code(moves[k + WindowLength])
      {
        if k < n - 1 - WindowLength {
          assert d.x[k] == prev.x[k] && d.y[k] == prev.y[k];
          assert prev.x[k] == Codes(prefix[k..k + WindowLength]) && prev.y[k] == Code(prefix[k + WindowLength]);
          assert prefix[k..k + WindowLength] == moves[k..k + WindowLength];
          assert prefix[k + WindowLength] == moves[k + WindowLength];
        } else {
          assert k == n - 4;
        }
      }
    }
  }

  /** The training set for the six-round periodic history s, w, g, s, w, g. */
  lemma PeriodicTrainingData()
    ensures TrainingData([S, W, G, S, W, G]) == Dataset([[0, 1, 2], [1, 2, 0], [2, 0, 1]], [0, 1, 2])
  {
    var h := [S, W, G, S, W, G];
    TrainingDataShape(h);
    var d := TrainingData(h);
    assert d.x[0] == Codes(h[0..3]) == [0, 1, 2];
    assert d.x[1] == Codes(h[1..4]) == [1, 2, 0];
    assert d.x[2] == Codes(h[2..5]) == [2, 0, 1];
  }

  /** The window the classifier is queried with: the last three user moves, oldest first. */
  function Query(userMoves: seq<Move>): (q: seq<int>)
    requires |userMoves| >= WindowLength
    ensures q == [Code(userMoves[|userMoves| - 3]), Code(userMoves[|userMoves| - 2]), Code(userMoves[|userMoves| - 1])]
  {
    seq(WindowLength, k requires 0 <= k < WindowLength => Code(userMoves[|userMoves| - (WindowLength - k)]))
  }

  /** predict_next_move: no prediction for fewer than three user moves or an untrained
      model; otherwise the classifier's label for the query window, decoded, where a
      failure of the classifier or a label outside the move codes gives no prediction. */
  function Predict(classify: Classifier, fitted: Dataset, isTrained: bool, userMoves: seq<Move>): (r: Option<Move>)
    ensures |userMoves| < WindowLength || !isTrained ==> r == None
    ensures forall m :: r == Some(m) <==>
      |userMoves| >= WindowLength && isTrained && classify(fitted, Query(userMoves)) == Some(Code(m))
  {
    if |userMoves| < WindowLength || !isTrained then None
    else
      match classify(fitted, Query(userMoves))
      case None => None
      case Some(answer) => Decode(answer)
  }
}
