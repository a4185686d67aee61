/** The phase of a game of ScoreKeeper and the order in which the phase buttons move through it. */
module GameStates {

  /** Exactly one phase is active at a time; the cases carry no data. */
  datatype GameState = Setup | Playing | GameOver

  /** The phase that the single button shown in phase `s` leads to:
      Start Game, End Game and Reset Game respectively. */
  function Next(s: GameState): (r: GameState)
    ensures r != s
  {
    match s
    case Setup => Playing
    case Playing => GameOver
    case GameOver => Setup
  }

  /** `k` presses of the phase button, starting in phase `s`. */
  function Iterate(s: GameState, k: nat): (r: GameState)
  {
    if k == 0 then s else Next(Iterate(s, k - 1))
  }

  /** Taking the first press first: `k` presses from `Next(s)` are `k + 1` presses from `s`. */
  lemma {:induction false} IterateFromNext(s: GameState, k: nat)
    ensures Iterate(Next(s), k) == Iterate(s, k + 1)
  {
    if k > 0 {
      IterateFromNext(s, k - 1);
    }
  }

  /** A value of the enum is one of its three cases, and no two cases are equal. */
  lemma ExactlyOneCase(s: GameState)
    ensures s == Setup || s == Playing || s == GameOver
    ensures Setup != Playing && Playing != GameOver && GameOver != Setup
  {
  }

  /** Every phase has a predecessor, so the buttons never strand the game in a phase. */
  lemma NextIsOnto(t: GameState)
    ensures exists s :: Next(s) == t
  {
    match t
    case Setup => assert Next(GameOver) == t;
    case Playing => assert Next(Setup) == t;
    case GameOver => assert Next(Playing) == t;
  }

  /** No two phases share a successor. */
  lemma NextIsInjective(s: GameState, t: GameState)
    ensures Next(s) == Next(t) ==> s == t
  {
  }

  /** Three presses bring the game back to the phase it started in. */
  lemma NextThrice(s: GameState)
    ensures Next(Next(Next(s))) == s
  {
  }

  /** Only the number of presses modulo three matters. */
  lemma {:induction false} IterateModThree(s: GameState, k: nat)
    ensures Iterate(s, k) == Iterate(s, k % 3)
  {
    if k >= 3 {
      IterateModThree(s, k - 3);
      assert Iterate(s, k - 1) == Next(Iterate(s, k - 2));
      assert Iterate(s, k - 2) == Next(Iterate(s, k - 3));
      NextThrice(Iterate(s, k - 3));
    }
  }

  /** After `k` presses the game is back in its starting phase exactly when `k` is a multiple of three. */
  lemma {:induction false} IterateReturns(s: GameState, k: nat)
    ensures Iterate(s, k) == s <==> k % 3 == 0
  {
    IterateModThree(s, k);
    if k % 3 == 1 {
      assert Iterate(s, 1) == Next(s);
    } else if k % 3 == 2 {
      assert Iterate(s, 2) == Next(Next(s));
      assert Next(Next(s)) != s;
    }
  }
}
