/**
  The tabular policy: a table from a history window (the state) to one value per action,
  grown lazily with all-zero rows, read by first-maximum and updated by a bootstrapped rule.
*/
module QTable {
  import opened Moves

  /** A row of the table: one value per action. The rows the engine builds always hold
      exactly the three actions, inserted in the order s, w, g. */
  datatype Row = Row(s: real, w: real, g: real)

  type Table = map<seq<Move>, Row>

  const LearningRate: real := 0.3
  const Discount: real := 0.95

  /** Every value stays within 1 / (1 - Discount) in absolute value while rewards lie in -1..1. */
  const ValueBound: real := 20.0

  /** The value of an action in a row. */
  function Value(row: Row, a: Move): real
  {
    match a
    case S => row.s
    case W => row.w
    case G => row.g
  }

  /** The row with the value of `a` replaced by `v`. */
  function Assign(row: Row, a: Move, v: real): (r: Row)
    ensures Value(r, a) == v
    ensures forall b :: b != a ==> Value(r, b) == Value(row, b)
  {
    match a
    case S => row.(s := v)
    case W => row.(w := v)
    case G => row.(g := v)
  }

  predicate Bounded(row: Row)
  {
    && -ValueBound <= row.s <= ValueBound
    && -ValueBound <= row.w <= ValueBound
    && -ValueBound <= row.g <= ValueBound
  }

  /** Every row of the table is bounded. */
  predicate WellFormed(t: Table)
  {
    forall state :: state in t ==> Bounded(t[state])
  }

  /** The row inserted for a state seen for the first time. */
  function ZeroRow(): (r: Row)
    ensures Bounded(r)
    ensures forall a :: Value(r, a) == 0.0
  {
    Row(0.0, 0.0, 0.0)
  }

  /** The number of user moves a state is made of. */
  const StateLength: nat := 3

  /** The state for a history of user moves: its last three moves, or the empty state
      while there are fewer than three. */
  function StateOf(userMoves: seq<Move>): (s: seq<Move>)
    ensures |userMoves| < StateLength ==> s == []
    ensures |userMoves| >= StateLength ==> |s| == StateLength && userMoves == userMoves[..|userMoves| - StateLength] + s
  {
    if |userMoves| >= StateLength then userMoves[|userMoves| - StateLength..] else []
  }

  /** The row for a state, after the lazy insertion of an all-zero row for an unseen one. */
  function RowOf(t: Table, state: seq<Move>): (r: Row)
    ensures state in t ==> r == t[state]
    ensures state !in t ==> r == ZeroRow()
  {
    if state in t then t[state] else ZeroRow()
  }

  /** The largest value of a row (max over Q_table[state].values()). */
  function MaxValue(row: Row): (v: real)
    ensures forall a :: Value(row, a) <= v
    ensures v == row.s || v == row.w || v == row.g
  {
    var sw := if row.s >= row.w then row.s else row.w;
    if sw >= row.g then sw else row.g
  }

  /** The action get_q_move returns: a maximal action, and the first such one in the
      order of Actions (s, w, g), since the maximum keeps the earliest of equal keys. */
  function BestAction(row: Row): (a: Move)
    ensures forall b :: Value(row, b) <= Value(row, a)
    ensures forall b :: Code(b) < Code(a) ==> Value(row, b) < Value(row, a)
  {
    if row.s >= row.w && row.s >= row.g then S
    else if row.w >= row.g then W
    else G
  }

  /** An all-zero row yields the first action. */
  lemma BestOfFreshRow()
    ensures BestAction(ZeroRow()) == S
  {
  }

  /** The row after one bootstrapped update of the value of `action`: the new value is the
      blend, in proportion LearningRate, of the old value and the target
      reward + Discount * (the row's maximum before the update); nothing else changes. */
  function Updated(row: Row, action: Move, reward: int): (r: Row)
    ensures forall b :: b != action ==> Value(r, b) == Value(row, b)
    ensures Value(r, action) == (1.0 - LearningRate) * Value(row, action)
                                + LearningRate * (reward as real + Discount * MaxValue(row))
  {
    var before := Value(row, action);
    Assign(row, action, before + LearningRate * (reward as real + Discount * MaxValue(row) - before))
  }

  /** From a fresh row one update leaves exactly LearningRate * reward in the updated cell
      and zero in the others. */
  lemma UpdateFromFreshRow(action: Move, reward: int)
    ensures Value(Updated(ZeroRow(), action, reward), action) == LearningRate * reward as real
    ensures forall b :: b != action ==> Value(Updated(ZeroRow(), action, reward), b) == 0.0
  {
  }

  /** An update with a reward in -1..1 keeps a bounded row bounded. */
  lemma UpdateKeepsBound(row: Row, action: Move, reward: int)
    requires Bounded(row)
    requires -1 <= reward <= 1
    ensures Bounded(Updated(row, action, reward))
  {
    var m := MaxValue(row);
    assert -ValueBound <= m <= ValueBound;
    assert -ValueBound <= Value(row, action) <= ValueBound;
  }

  /** The table after update_q_table: only the state's row changes, and in it only the
      cell of `action`; an unseen state enters the table. */
  function UpdateTable(t: Table, state: seq<Move>, action: Move, reward: int): (t': Table)
    ensures t'.Keys == t.Keys + {state}
    ensures forall other :: other in t && other != state ==> t'[other] == t[other]
    ensures forall b :: b != action ==> Value(t'[state], b) == Value(RowOf(t, state), b)
    ensures Value(t'[state], action) == (1.0 - LearningRate) * Value(RowOf(t, state), action)
                                        + LearningRate * (reward as real + Discount * MaxValue(RowOf(t, state)))
  {
    t[state := Updated(RowOf(t, state), action, reward)]
  }

  /** update_q_table keeps every row of the table bounded. */
  lemma UpdateTableKeepsWellFormed(t: Table, state: seq<Move>, action: Move, reward: int)
    requires WellFormed(t)
    requires -1 <= reward <= 1
    ensures WellFormed(UpdateTable(t, state, action, reward))
  {
    UpdateKeepsBound(RowOf(t, state), action, reward);
  }
}
