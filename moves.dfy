/**
  The three-symbol alphabet of the game (snake, water, gun), its integer encoding
  for the classifier, the round resolver and the counter-move.
*/
module Moves {
  import opened Wrappers

  /** s = snake, w = water, g = gun. */
  datatype Move = S | W | G

  /** The outcome of a round, named from the point of view of the two players. */
  datatype Outcome = User | Computer | Draw

  /** The action set, in the order the engine iterates it. */
  const Actions: seq<Move> := [S, W, G]

  /** The encoding move_mapping gives each move. */
  function Code(m: Move): (i: int)
    ensures 0 <= i < |Actions| && Actions[i] == m
  {
    match m
    case S => 0
    case W => 1
    case G => 2
  }

  /** The lookup reverse_map performs: a label outside 0..2 has no move. */
  function Decode(i: int): (r: Option<Move>)
    ensures r.Some? <==> 0 <= i < 3
    ensures r.Some? ==> Code(r.value) == i
  {
    if i == 0 then Some(S) else if i == 1 then Some(W) else if i == 2 then Some(G) else None
  }

  lemma DecodeCode(m: Move)
    ensures Decode(Code(m)) == Some(m)
  {
  }

  /** The one-letter symbol a client sends for a move. */
  function Symbol(m: Move): string
  {
    match m
    case S => "s"
    case W => "w"
    case G => "g"
  }

  /** Membership of a request string among the keys of move_mapping. */
  function Parse(s: string): (r: Option<Move>)
    ensures r.Some? <==> s == "s" || s == "w" || s == "g"
    ensures r.Some? ==> Symbol(r.value) == s
  {
    if s == "s" then Some(S) else if s == "w" then Some(W) else if s == "g" then Some(G) else None
  }

  /** Parsing accepts exactly the three symbols, each as its own move. */
  lemma ParseAcceptsExactlySymbols(s: string, m: Move)
    ensures Parse(s) == Some(m) <==> s == Symbol(m)
  {
  }

  /** The cyclic relation: a move beats the one whose code is one more, modulo 3. */
  predicate Beats(a: Move, b: Move)
  {
    (Code(b) - Code(a)) % 3 == 1
  }

  /** The beats relation is a cyclic order: irreflexive, asymmetric, and each move
      beats at most one move and is beaten by at most one move (CounterMove and
      CounterOfCounter give the witnesses that make it exactly one). */
  lemma BeatsIsCyclic()
    ensures forall a :: !Beats(a, a)
    ensures forall a, b :: Beats(a, b) ==> !Beats(b, a)
    ensures forall a, b, c :: Beats(a, b) && Beats(a, c) ==> b == c
    ensures forall a, b, c :: Beats(b, a) && Beats(c, a) ==> b == c
  {
    assert Beats(S, W) && Beats(W, G) && Beats(G, S);
  }

  /** The round resolver (determine_winner), deciding from the user's side. */
  function DetermineWinner(user: Move, comp: Move): (r: Outcome)
    ensures r == Draw <==> user == comp
    ensures r == User <==> Beats(user, comp)
    ensures r == Computer <==> Beats(comp, user)
  {
    if user == comp then Draw
    else if (user == S && comp == W) || (user == W && comp == G) || (user == G && comp == S) then User
    else Computer
  }

  /** Swapping the players swaps the winner; a draw stays a draw. */
  lemma WinnerAntisymmetric(a: Move, b: Move)
    ensures DetermineWinner(a, b) == User <==> DetermineWinner(b, a) == Computer
    ensures DetermineWinner(a, b) == Draw <==> DetermineWinner(b, a) == Draw
  {
  }

  /** The move that beats the given one (counter_move). */
  function CounterMove(m: Move): (r: Move)
    ensures Beats(r, m) && DetermineWinner(m, r) == Computer
    ensures forall b :: Beats(b, m) ==> b == r
  {
    match m
    case S => G
    case W => S
    case G => W
  }

  /** Countering twice is not the identity: it yields the move that the original beats. */
  lemma CounterOfCounter(m: Move)
    ensures Beats(m, CounterMove(CounterMove(m)))
    ensures CounterMove(CounterMove(m)) != m
  {
  }
}
