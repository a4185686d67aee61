/** Properties of the scoreboard over single actions and over whole sequences of actions. */
module ScoreboardProperties {
  import opened GameStates
  import opened Players
  import opened Scoreboards

  /** The three phase buttons: Start Game, End Game and Reset Game. */
  predicate IsPhaseButton(a: Action)
  {
    a.StartPressed? || a.EndPressed? || a.ResetPressed?
  }

  /** Whether the content view shows phase button `a` in phase `s` (one `switch` arm per phase). */
  predicate Offers(s: GameState, a: Action)
    ensures Offers(s, a) ==> IsPhaseButton(a)
  {
    match a
    case StartPressed(_) => s == Setup
    case EndPressed => s == Playing
    case ResetPressed => s == GameOver
    case _ => false
  }

  /** The phase button shown in phase `s`. */
  function Offered(s: GameState, startingPoints: int): (a: Action)
    ensures IsPhaseButton(a) && Offers(s, a)
  {
    match s
    case Setup => StartPressed(startingPoints)
    case Playing => EndPressed
    case GameOver => ResetPressed
  }

  /** Each phase offers exactly one button: any phase button it offers is the one `Offered` gives. */
  lemma OneButtonPerPhase(s: GameState, a: Action)
    requires IsPhaseButton(a) && Offers(s, a)
    ensures a == Offered(s, if a.StartPressed? then a.startingPoints else 0)
  {
  }

  /** The offered phase button moves the game to the successor phase; any other phase button
      leaves the whole scoreboard unchanged. */
  lemma PhaseButtons(b: Snapshot, a: Action)
    requires IsPhaseButton(a)
    ensures Offers(b.state, a) ==> Apply(b, a).state == Next(b.state)
    ensures !Offers(b.state, a) ==> Apply(b, a) == b
  {
  }

  /** The phase buttons pressed `k` times in a row, each time the one shown in the phase then current. */
  function OfferedPresses(s: GameState, startingPoints: int, k: nat): (r: seq<Action>)
    ensures |r| == k
    decreases k
  {
    if k == 0 then [] else [Offered(s, startingPoints)] + OfferedPresses(Next(s), startingPoints, k - 1)
  }

  /** Pressing the offered phase button `k` times moves the game `k` steps along the successor
      function, so it is back in its starting phase exactly when `k` is a multiple of three. */
  lemma {:induction false} OfferedPressesIterate(b: Snapshot, startingPoints: int, k: nat)
    ensures Run(b, OfferedPresses(b.state, startingPoints, k)).state == Iterate(b.state, k)
    ensures Run(b, OfferedPresses(b.state, startingPoints, k)).state == b.state <==> k % 3 == 0
    decreases k
  {
    if k > 0 {
      var acts := OfferedPresses(b.state, startingPoints, k);
      var b1 := Apply(b, acts[0]);
      PhaseButtons(b, acts[0]);
      assert acts[1..] == OfferedPresses(b1.state, startingPoints, k - 1);
      OfferedPressesIterate(b1, startingPoints, k - 1);
      IterateFromNext(b.state, k - 1);
    }
    IterateReturns(b.state, k);
  }

  /** Every action keeps the ids distinct and below `nextId`, never lowers `nextId`, never
      removes a player, and never changes the id at any position. */
  lemma ApplyKeepsIds(b: Snapshot, a: Action)
    requires WellFormed(b)
    ensures WellFormed(Apply(b, a))
    ensures Apply(b, a).nextId >= b.nextId
    ensures |Apply(b, a).players| >= |b.players|
    ensures forall i :: 0 <= i < |b.players| ==> Apply(b, a).players[i].id == b.players[i].id
  {
  }

  /** Performing `xs` and then `ys` is performing `xs + ys`. */
  lemma {:induction false} RunAppend(b: Snapshot, xs: seq<Action>, ys: seq<Action>)
    ensures Run(b, xs + ys) == Run(Run(b, xs), ys)
    decreases |xs|
  {
    if xs == [] {
      assert xs + ys == ys;
    } else {
      assert (xs + ys)[0] == xs[0];
      assert (xs + ys)[1..] == xs[1..] + ys;
      RunAppend(Apply(b, xs[0]), xs[1..], ys);
    }
  }

  /** The invariant of `ApplyKeepsIds` holds after any sequence of actions. */
  lemma {:induction false} RunKeepsIds(b: Snapshot, acts: seq<Action>)
    requires WellFormed(b)
    ensures WellFormed(Run(b, acts))
    ensures Run(b, acts).nextId >= b.nextId
    ensures |Run(b, acts).players| >= |b.players|
    ensures forall i :: 0 <= i < |b.players| ==> Run(b, acts).players[i].id == b.players[i].id
    decreases |acts|
  {
    if acts != [] {
      ApplyKeepsIds(b, acts[0]);
      RunKeepsIds(Apply(b, acts[0]), acts[1..]);
    }
  }

  /** `xs` performed `k` times in a row. */
  function Repeat(xs: seq<Action>, k: nat): (r: seq<Action>)
    ensures |r| == k * |xs|
  {
    if k == 0 then [] else xs + Repeat(xs, k - 1)
  }

  /** `k` presses of Add Player append `k` unnamed players with score 0, in call order: the
      `j`-th new player has the `j`-th id handed out. */
  lemma {:induction false} RepeatedAdds(b: Snapshot, k: nat)
    ensures |Run(b, Repeat([AddPressed], k)).players| == |b.players| + k
    ensures Run(b, Repeat([AddPressed], k)).players[..|b.players|] == b.players
    ensures forall j :: |b.players| <= j < |b.players| + k ==>
              Run(b, Repeat([AddPressed], k)).players[j] == Player(b.nextId + (j - |b.players|), "", 0)
    ensures Run(b, Repeat([AddPressed], k)).nextId == b.nextId + k
    decreases k
  {
    if k > 0 {
      var b1 := Apply(b, AddPressed);
      assert Repeat([AddPressed], k) == [AddPressed] + Repeat([AddPressed], k - 1);
      RunAppend(b, [AddPressed], Repeat([AddPressed], k - 1));
      assert Run(b, [AddPressed]) == b1;
      RepeatedAdds(b1, k - 1);
      var r := Run(b, Repeat([AddPressed], k));
      assert r.players[..|b.players|] == r.players[..|b1.players|][..|b.players|];
    }
  }

  /** Re-baselining twice to the same value is re-baselining once. */
  lemma RebaselinedTwice(ps: seq<Player>, v: int)
    ensures Rebaselined(Rebaselined(ps, v), v) == Rebaselined(ps, v)
  {
  }

  /** Start Game, End Game and Reset Game, pressed once each. */
  function Round(startingPoints: int): seq<Action>
  {
    [StartPressed(startingPoints), EndPressed, ResetPressed]
  }

  /** One round from `Setup` returns to `Setup` with every score at the starting points. */
  lemma RoundFromSetup(b: Snapshot, startingPoints: int)
    requires b.state == Setup
    ensures Run(b, Round(startingPoints)) == b.(players := Rebaselined(b.players, startingPoints))
  {
    var r := Round(startingPoints);
    var b1 := Started(b, startingPoints);
    var b2 := Ended(b1);
    assert Run(b, r) == Run(b1, r[1..]);
    assert Run(b1, r[1..]) == Run(b2, r[2..]);
    assert Run(b2, r[2..]) == Run(Restarted(b2), []);
  }

  /** However many rounds are played from `Setup`, the game is back in `Setup` with every score
      equal to the starting points; ids, names, the win rule and `nextId` are as before. */
  lemma {:induction false} RoundsFromSetup(b: Snapshot, startingPoints: int, k: nat)
    requires b.state == Setup && k >= 1
    ensures Run(b, Repeat(Round(startingPoints), k)) == b.(players := Rebaselined(b.players, startingPoints))
    decreases k
  {
    var b1 := b.(players := Rebaselined(b.players, startingPoints));
    RunAppend(b, Round(startingPoints), Repeat(Round(startingPoints), k - 1));
    RoundFromSetup(b, startingPoints);
    if k > 1 {
      RoundsFromSetup(b1, startingPoints, k - 1);
      RebaselinedTwice(b.players, startingPoints);
    }
  }

  /** Scores have no lower bound: `k` presses of a player's Decrement lower the score by `k`,
      leaving everything else as it was. */
  lemma {:induction false} RepeatedDecrements(b: Snapshot, index: nat, k: nat)
    requires index < |b.players|
    ensures |Run(b, Repeat([ScoreStepped(index, Decrement)], k)).players| == |b.players|
    ensures Run(b, Repeat([ScoreStepped(index, Decrement)], k)).players[index] ==
              b.players[index].(score := b.players[index].score - k)
    ensures forall j :: 0 <= j < |b.players| && j != index ==>
              Run(b, Repeat([ScoreStepped(index, Decrement)], k)).players[j] == b.players[j]
    decreases k
  {
    if k > 0 {
      var step := ScoreStepped(index, Decrement);
      var b1 := Apply(b, step);
      assert Repeat([step], k) == [step] + Repeat([step], k - 1);
      RunAppend(b, [step], Repeat([step], k - 1));
      assert Run(b, [step]) == b1;
      RepeatedDecrements(b1, index, k - 1);
    }
  }
}
