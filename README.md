# Snake-water-gun move engine, modelled in Dafny

This project models the move-decision engine behind the snake-water-gun game server in
`backend/app.py`. The user plays one of three moves: `s` (snake), `w` (water) or `g` (gun).
Snake beats water, water beats gun and gun beats snake. On every round the engine:

- trains a sequence classifier on the user's history, once, when there are six rounds;
- picks the computer's move by a difficulty level derived from the user's win rate. On easy
  it plays randomly. On medium it plays the counter to the predicted move. On hard it uses
  a Q-learning table when the current three-move state is already in it;
- resolves the round;
- updates the Q-table under the state before the round;
- appends the round to its history and bumps the winner's score.

Modules, in dependency order:

- `Wrappers` (`wrappers.dfy`): `Option` and `Result`.
- `Moves` (`moves.dfy`): the alphabet and its encoding (`move_mapping`, `reverse_map`),
  the cyclic beats relation, `determine_winner` and `counter_move`.
- `QTable` (`qtable.dfy`): the rows of the table as values, the first-maximum action, the
  bootstrapped update, and the bound every value keeps.
- `Predictor` (`predictor.dfy`): the sliding-window training set and the guarded query of
  the classifier.
- `Policy` (`policy.dfy`): `get_difficulty`, with the win-rate comparisons made exact over
  the integer scores, and the three-way dispatch of `get_computer_move` as a function.
- `Session` (`session.dfy`): class `Engine`, whose fields are the module globals
  (`history`, `user_moves`, `Q_table`, `user_score`, `comp_score`, `is_trained`).
  Its methods are `train_model`, `get_q_move`, `update_q_table`, `get_computer_move` and
  the body of the `/move` handler. Each method is proved against the functions above, and
  each keeps the session invariant `Valid()`:
  - `user_moves` mirrors the user moves of `history`;
  - every recorded result is the resolver's verdict;
  - the scores count the wins;
  - every table value lies in -20..20;
  - a trained classifier was fitted on the training set of a prefix of at least six rounds.

The RandomForest classifier is the `classify` field: an uninterpreted function from the
fitted data set and an encoded window to an optional label. `None` stands for the library
raising. Every call of `random.choice(actions)` becomes the `pick` argument of the method
that makes it. The classifier is modelled by the data it was fitted on (`fitted`), so
"the model after `fit(X, y)`" is `classify(Dataset(X, y), ·)`.

Behaviour of the code worth knowing, all of it modelled as written:

- The move is chosen by the difficulty level first (`backend/app.py:85-105`). Only hard
  mode reads the table; medium mode and hard mode on an unseen state counter the prediction;
  easy mode, and the other modes without a prediction, play randomly.
- The reward is taken from the user's side: +1 when the user wins. It is still stored
  against the computer's move (`backend/app.py:129-131`). So the table favours the moves
  the user lost to least.
- The first round's update stores a row under the empty state `""`. In hard mode, round 2
  therefore reads the table instead of playing randomly.
  `Session.OpeningLossMakesRoundTwoTableDriven` plays it out: the user opens with `s`
  and loses to `g`, and the second round is a draw on `s`, whatever the second random pick.
- The classifier is fitted once only, at the start of round 7, on the first six rounds
  (three examples), and never again, because `get_computer_move` trains only while
  `is_trained` is false (`backend/app.py:82-83`).

## Model

| member | source | states |
|---|---|---|
| Moves.Code | backend/app.py:14-16 | every move's code is its index in the action list s, w, g |
| Moves.Decode | backend/app.py:15 | a label has a move exactly when it is 0, 1 or 2, and that move encodes back to the label |
| Moves.DecodeCode | backend/app.py:14-15 | decoding a move's code gives the move back |
| Moves.Parse | backend/app.py:123 | a request string is accepted exactly when it is s, w or g, and then as the move with that symbol |
| Moves.ParseAcceptsExactlySymbols | backend/app.py:123-124 | a request string is accepted as move m exactly when it is m's one-letter symbol |
| Moves.BeatsIsCyclic | backend/app.py:111 | the beats relation is irreflexive and asymmetric, and each move beats at most one move and is beaten by at most one |
| Moves.DetermineWinner | backend/app.py:108-113 | the result is Draw iff the moves are equal, User iff the user's move beats the computer's, Computer iff the computer's beats the user's |
| Moves.WinnerAntisymmetric | backend/app.py:108-113 | swapping the players turns a user win into a computer win and back, and keeps a draw a draw |
| Moves.CounterMove | backend/app.py:48-52 | the counter beats the move, wins the round against it, and is the only move that beats it |
| Moves.CounterOfCounter | backend/app.py:48-52 | countering twice gives the move the original beats, never the original |
| QTable.Assign | backend/app.py:64 | writing one cell of a row sets that cell and leaves the other two unchanged |
| QTable.ZeroRow | backend/app.py:56 | the inserted row holds 0 for every action and is within the value bound |
| QTable.StateOf | backend/app.py:80 | the state is empty below three user moves, and otherwise the last three moves, which the history ends with |
| QTable.MaxValue | backend/app.py:65 | the maximum is at least every value of the row and is one of them |
| QTable.BestAction | backend/app.py:57 | the action's value is maximal, and every action before it in the order s, w, g has a strictly smaller value |
| QTable.BestOfFreshRow | backend/app.py:56-57 | a fresh all-zero row yields s |
| QTable.Updated | backend/app.py:64-66 | only the action's cell changes; it becomes (1 - 0.3) * old + 0.3 * (reward + 0.95 * max of the row before the update) |
| QTable.UpdateFromFreshRow | backend/app.py:62-66 | from a fresh row, the updated cell is exactly 0.3 * reward and the others stay 0 |
| QTable.UpdateKeepsBound | backend/app.py:59-66 | with a reward in -1..1, an update keeps every value of a row within -20..20 |
| QTable.UpdateTable | backend/app.py:59-66 | the keys gain the state; every other row is unchanged; in the state's row (or a fresh row) only the action's cell changes, to the bootstrapped blend |
| QTable.UpdateTableKeepsWellFormed | backend/app.py:59-66 | an update with reward in -1..1 keeps every row of the table within the bound |
| Predictor.Codes | backend/app.py:31 | the encoding has the window's length and decodes back to the window move by move |
| Predictor.TrainingData | backend/app.py:29-32 | the training set is empty exactly when there are at most three moves; its full shape is TrainingDataShape |
| Predictor.TrainingDataShape | backend/app.py:29-32 | the training set has len(moves) - 3 examples (none below three moves); example k is the encoding of moves k, k+1, k+2 with label the code of move k+3 |
| Predictor.PeriodicTrainingData | backend/app.py:29-32 | the six-round history s, w, g, s, w, g yields inputs [0,1,2], [1,2,0], [2,0,1] with labels 0, 1, 2 |
| Predictor.Query | backend/app.py:42 | the query window is the codes of user_moves[-3], [-2], [-1], oldest first |
| Predictor.Predict | backend/app.py:38-46 | no prediction for fewer than three user moves or an untrained model; otherwise m is predicted iff the classifier answers with m's code (a failure or an unknown label predicts nothing) |
| Policy.WinRate | backend/app.py:70-71 | the rate lies in 0..1; it is exactly 0.5 with no decisive round and otherwise, times the number of decisive rounds, gives the user's wins |
| Policy.CompareRatio | backend/app.py:71-75 | comparing the rate with a bound is comparing the wins with the bound times the decisive rounds |
| Policy.RateThresholds | backend/app.py:71-75 | rate > 0.7 iff 10 * user wins > 7 * decisive rounds, and rate < 0.3 iff 10 * user wins < 3 * decisive rounds |
| Policy.GetDifficulty | backend/app.py:69-76 | medium with no decisive rounds; easy iff the user won more than 7 in 10 decisive rounds; hard iff fewer than 3 in 10 |
| Policy.Select | backend/app.py:72-76 | the level is easy exactly when the rate exceeds 0.7 and hard exactly when it is below 0.3 |
| Policy.ChooseMove | backend/app.py:85-105 | easy plays the pick; hard plays the table's best action when the state is a key; otherwise a prediction is beaten, and without one the pick is played |
| Session.OutcomesPartition | backend/app.py:140-143 | user wins, computer wins and draws add up to the number of rounds |
| Session.Engine.ScoresPartitionRounds | backend/app.py:140-143 | in a valid session the two scores and the draws add up to the number of rounds played |
| Session.UserMovesAt | backend/app.py:133-138 | the i-th user move of the history is the user move of its i-th round |
| Session.AppendRound | backend/app.py:133-143 | appending a round appends its user move, keeps the history resolved exactly when the round is, and adds one to its winner's win count only |
| Session.Reward | backend/app.py:129 | the reward lies in -1..1; it is +1 exactly on a user win and -1 exactly on a computer win |
| Session.Windows | backend/app.py:29-32 | the loop's inputs and labels are exactly the training set of the history's user moves |
| Session.Engine.constructor | backend/app.py:11-22 | a fresh session has an empty history, move list and table, zero scores and an untrained classifier, and is valid |
| Session.Engine.TrainModel | backend/app.py:25-35 | below six rounds nothing changes; otherwise the classifier is fitted on the training set of all user moves and marked trained; the invariant is kept |
| Session.Engine.GetQMove | backend/app.py:54-57 | an unseen state gets an all-zero row and yields s; a known state leaves the table unchanged; the result is the row's first maximal action |
| Session.Engine.UpdateQTable | backend/app.py:59-66 | the new table is the lazy insertion followed by the one-cell bootstrapped update, and stays bounded |
| Session.Engine.GetComputerMove | backend/app.py:79-105 | trains exactly when untrained with six rounds; the move is the dispatch of the score-derived difficulty, the table, the current state and the prediction made after training; the table is unchanged |
| Session.Engine.Dispatch | backend/app.py:85-105 | the move is the dispatch for the current difficulty, state and prediction; a hard-mode read of a known state leaves the table unchanged |
| Session.Engine.Settle | backend/app.py:127-143 | the result is the resolver's verdict; the table is updated under the pre-round state with the user-side reward for the computer's move; the round and the user move are appended; exactly the winner's score goes up |
| Session.Engine.RecordRound | backend/app.py:133-143 | exactly one round and one user move are appended; the user's score goes up on a user win, the computer's on a computer win, neither on a draw |
| Session.Engine.PlayMove | backend/app.py:126-151 | a round with a valid move: the computer's move as chosen before the round, the verdict, the table update, the appends, the score change and the reported scores |
| Session.Engine.Play | backend/app.py:121-151 | an input that is not s, w or g is rejected with nothing changed; a valid one is played as by PlayMove |
| Session.OpeningLossMakesRoundTwoTableDriven | backend/app.py:79-143 | from a fresh session, "s" against pick g loses, and the second "s" is answered from the table under the empty state with s, for every second pick |

## Left out

- The Flask application, the route decorator, JSON decoding and encoding, CORS, the HTTP
  400 status and the `app.run`/`PORT` handling (`backend/app.py:1-8, 116-121, 145-156`):
  these are I/O plumbing. The request's move is a string argument of `Play`, and the
  response is the `Report` or `Error` value it returns.
- Request bodies other than a JSON object with a string `move`. A missing `move` or a
  hashable non-string value fails the membership test of `backend/app.py:123` and is
  rejected like an unknown string, which `Play` covers. A list or object as `move` makes
  that test raise (unhashable key), and a body that is not a JSON object makes `data.get`
  raise at `backend/app.py:121`; both end in a server error before any state changes, and
  neither is modelled.
- `RandomForestClassifier.fit` and `.predict` (`backend/app.py:11, 34, 43`): a foreign
  library. They are the `classify` oracle, and the model fixes nothing about its answers.
- `random.choice` (`backend/app.py:52, 88, 94, 103, 105`): the `pick` argument. No
  probabilistic property is stated.
- The fallback `random.choice` of `counter_move` (`backend/app.py:52`) and the final
  `return` of `get_computer_move` (`backend/app.py:105`). Both are unreachable once a move is
  one of three values and the difficulty one of three levels.
- Floating-point rounding in the Q-values and the win rate. Values are exact reals. A win
  rate that lands on exactly 0.7 or 0.3 only by float rounding is not modelled.
- The bare `except` of `predict_next_move` (`backend/app.py:45-46`). It is modelled only as
  "the classifier may fail, giving no prediction". A label outside 0..2, which would make
  `reverse_map` raise inside the same `try`, also gives no prediction.
- The table key `"".join(user_moves[-3:])`. It is the sequence of the last three moves
  itself, which is equivalent because every symbol is one character long.
- Session.Engine.UpdateQTable: requires a reward in -1..1. The only caller passes +1, -1
  or 0, and the table bound depends on it.
- The frontend (`frontend/src/Game.js`, `frontend/src/index.js`) with its 15-round cap:
  presentation only, and not part of this model.
- Concurrent requests on the unsynchronised globals: the model is a single sequential
  session.
