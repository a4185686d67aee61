/** The scoreboard that ScoreKeeper's content view owns, and what each of its buttons and
    bound controls does to it.

    Each control is modelled twice: as a function from one `Snapshot` of the scoreboard to the
    next, and as a method of the class `Scoreboard` that updates the fields in place and is proved
    to leave exactly the snapshot that function gives. */
module Scoreboards {
  import opened GameStates
  import opened Players

  /** The value of a scoreboard at one moment. `nextId` is the first id not yet handed out;
      it stands in for the fresh `UUID()` drawn by each new `Player`. */
  datatype Snapshot = Snapshot(players: seq<Player>, state: GameState, doesHighestScoreWin: bool, nextId: nat)

  /** The scoreboard's invariant: ids are pairwise distinct and every one was handed out already.
      It makes the players of the roster pairwise different values, whatever their names and scores. */
  predicate WellFormed(b: Snapshot)
    ensures WellFormed(b) ==> forall i, j :: 0 <= i < j < |b.players| ==> b.players[i] != b.players[j]
  {
    DistinctIds(b.players) && IdsBelow(b.players, b.nextId)
  }

  /** The roster after `resetScores(to: v)`: every score is `v`; ids, names, order and length are kept. */
  function Rebaselined(ps: seq<Player>, v: int): (r: seq<Player>)
    ensures SameIds(ps, r)
    ensures forall i :: 0 <= i < |r| ==> r[i].name == ps[i].name && r[i].score == v
  {
    if ps == [] then [] else [ps[0].(score := v)] + Rebaselined(ps[1..], v)
  }

  /** Start Game. Offered only in `Setup`: the phase becomes `Playing` and every score becomes
      `startingPoints`. In any other phase the request changes nothing. */
  function Started(b: Snapshot, startingPoints: int): (r: Snapshot)
    ensures b.state == Setup ==> r.state == Playing
    ensures b.state == Setup ==> SameIds(b.players, r.players)
    ensures b.state == Setup ==> forall i :: 0 <= i < |r.players| ==>
              r.players[i].name == b.players[i].name && r.players[i].score == startingPoints
    ensures r.doesHighestScoreWin == b.doesHighestScoreWin && r.nextId == b.nextId
    ensures b.state != Setup ==> r == b
  {
    if b.state == Setup then b.(state := Playing, players := Rebaselined(b.players, startingPoints)) else b
  }

  /** End Game. Offered only in `Playing`: the phase becomes `GameOver`, nothing else changes. */
  function Ended(b: Snapshot): (r: Snapshot)
    ensures b.state == Playing ==> r.state == GameOver
    ensures r.players == b.players && r.doesHighestScoreWin == b.doesHighestScoreWin && r.nextId == b.nextId
    ensures b.state != Playing ==> r == b
  {
    if b.state == Playing then b.(state := GameOver) else b
  }

  /** Reset Game. Offered only in `GameOver`: the phase returns to `Setup`; scores are kept until
      the next Start Game re-baselines them. */
  function Restarted(b: Snapshot): (r: Snapshot)
    ensures b.state == GameOver ==> r.state == Setup
    ensures r.players == b.players && r.doesHighestScoreWin == b.doesHighestScoreWin && r.nextId == b.nextId
    ensures b.state != GameOver ==> r == b
  {
    if b.state == GameOver then b.(state := Setup) else b
  }

  /** Add Player, in any phase: an unnamed player with score 0 and a fresh id joins at the end. */
  function WithNewPlayer(b: Snapshot): (r: Snapshot)
    ensures |r.players| == |b.players| + 1
    ensures r.players[..|b.players|] == b.players
    ensures r.players[|b.players|].name == "" && r.players[|b.players|].score == 0
    ensures IdsBelow(b.players, b.nextId) ==>
              forall i :: 0 <= i < |b.players| ==> r.players[|b.players|].id != b.players[i].id
    ensures IdsBelow(b.players, b.nextId) ==> IdsBelow(r.players, r.nextId)
    ensures r.state == b.state && r.doesHighestScoreWin == b.doesHighestScoreWin
  {
    b.(players := b.players + [Player(b.nextId, "", 0)], nextId := b.nextId + 1)
  }

  /** An edit of the name field of the player at `index`. The field is disabled outside `Setup`,
      so there, as for an index off the roster, the edit changes nothing. */
  function WithName(b: Snapshot, index: nat, name: string): (r: Snapshot)
    ensures |r.players| == |b.players|
    ensures forall j :: 0 <= j < |b.players| && j != index ==> r.players[j] == b.players[j]
    ensures b.state == Setup && index < |b.players| ==>
              r.players[index].name == name &&
              r.players[index].id == b.players[index].id &&
              r.players[index].score == b.players[index].score
    ensures r.state == b.state && r.doesHighestScoreWin == b.doesHighestScoreWin && r.nextId == b.nextId
    ensures b.state != Setup || index >= |b.players| ==> r == b
  {
    if b.state == Setup && index < |b.players| then
      b.(players := b.players[index := Renamed(b.players[index], name)])
    else
      b
  }

  /** One press of the stepper of the player at `index`, in any phase: only that player's score
      moves, by exactly one. An index off the roster changes nothing. */
  function WithStep(b: Snapshot, index: nat, d: Direction): (r: Snapshot)
    ensures |r.players| == |b.players|
    ensures forall j :: 0 <= j < |b.players| && j != index ==> r.players[j] == b.players[j]
    ensures index < |b.players| ==>
              r.players[index].id == b.players[index].id &&
              r.players[index].name == b.players[index].name &&
              r.players[index].score == b.players[index].score + (if d == Increment then 1 else -1)
    ensures r.state == b.state && r.doesHighestScoreWin == b.doesHighestScoreWin && r.nextId == b.nextId
    ensures index >= |b.players| ==> r == b
  {
    if index < |b.players| then b.(players := b.players[index := Stepped(b.players[index], d)]) else b
  }

  /** The "highest score wins" toggle of the settings, which are disabled outside `Setup`. */
  function WithWinRule(b: Snapshot, doesHighestScoreWin: bool): (r: Snapshot)
    ensures r.doesHighestScoreWin == if b.state == Setup then doesHighestScoreWin else b.doesHighestScoreWin
    ensures r.players == b.players && r.state == b.state && r.nextId == b.nextId
  {
    if b.state == Setup then b.(doesHighestScoreWin := doesHighestScoreWin) else b
  }

  /** One user action on the content view. */
  datatype Action =
    | StartPressed(startingPoints: int)
    | EndPressed
    | ResetPressed
    | AddPressed
    | NameEdited(index: nat, name: string)
    | ScoreStepped(index: nat, direction: Direction)
    | WinRuleEdited(doesHighestScoreWin: bool)

  /** The scoreboard after one action. Only Add Player grows the roster and advances the id
      counter, and the only change of phase an action can make is a move to the successor phase. */
  function Apply(b: Snapshot, a: Action): (r: Snapshot)
    ensures |r.players| == |b.players| + (if a.AddPressed? then 1 else 0)
    ensures r.nextId == b.nextId + (if a.AddPressed? then 1 else 0)
    ensures r.state == b.state || r.state == Next(b.state)
    ensures r.state != b.state ==> a.StartPressed? || a.EndPressed? || a.ResetPressed?
  {
    match a
    case StartPressed(points) => Started(b, points)
    case EndPressed => Ended(b)
    case ResetPressed => Restarted(b)
    case AddPressed => WithNewPlayer(b)
    case NameEdited(i, n) => WithName(b, i, n)
    case ScoreStepped(i, d) => WithStep(b, i, d)
    case WinRuleEdited(w) => WithWinRule(b, w)
  }

  /** The scoreboard after a sequence of actions, performed in order. */
  function Run(b: Snapshot, acts: seq<Action>): (r: Snapshot)
    decreases |acts|
  {
    if acts == [] then b else Run(Apply(b, acts[0]), acts[1..])
  }

  /** The scoreboard as the content view holds it, updated in place by the controls. */
  class Scoreboard {
    var players: seq<Player>
    var state: GameState
    var doesHighestScoreWin: bool
    var nextId: nat

    /** The current value of the scoreboard. */
    function View(): Snapshot
      reads this
    {
      Snapshot(players, state, doesHighestScoreWin, nextId)
    }

    predicate Valid()
      reads this
    {
      WellFormed(View())
    }

    /** A new scoreboard in `Setup` with a starting roster whose ids are distinct and below
        `bound`, and the given win rule. */
    constructor (initial: seq<Player>, bound: nat, highestWins: bool)
      requires DistinctIds(initial) && IdsBelow(initial, bound)
      ensures Valid()
      ensures View() == Snapshot(initial, Setup, highestWins, bound)
    {
      players := initial;
      state := Setup;
      doesHighestScoreWin := highestWins;
      nextId := bound;
    }

    /** `resetScores(to:)`: every score becomes `startingPoints`, nothing else changes. */
    method ResetScores(startingPoints: int)
      requires Valid()
      modifies this
      ensures Valid()
      ensures players == Rebaselined(old(players), startingPoints)
      ensures state == old(state) && doesHighestScoreWin == old(doesHighestScoreWin) && nextId == old(nextId)
    {
      players := Rebaselined(players, startingPoints);
    }

    /** The Start Game button. */
    method StartGame(startingPoints: int)
      requires Valid()
      modifies this
      ensures Valid()
      ensures View() == Started(old(View()), startingPoints)
    {
      if state == Setup {
        state := Playing;
        ResetScores(startingPoints);
      }
    }

    /** The End Game button. */
    method EndGame()
      requires Valid()
      modifies this
      ensures Valid()
      ensures View() == Ended(old(View()))
    {
      if state == Playing {
        state := GameOver;
      }
    }

    /** The Reset Game button. */
    method ResetGame()
      requires Valid()
      modifies this
      ensures Valid()
      ensures View() == Restarted(old(View()))
    {
      if state == GameOver {
        state := Setup;
      }
    }

    /** The Add Player button: appends `Player(name: "", score: 0)` with a fresh id. */
    method AddPlayer()
      requires Valid()
      modifies this
      ensures Valid()
      ensures View() == WithNewPlayer(old(View()))
    {
      players := players + [Player(nextId, "", 0)];
      nextId := nextId + 1;
    }

    /** The name field of the player at `index`. */
    method SetName(index: nat, name: string)
      requires Valid()
      modifies this
      ensures Valid()
      ensures View() == WithName(old(View()), index, name)
    {
      if state == Setup && index < |players| {
        players := players[index := Renamed(players[index], name)];
      }
    }

    /** The stepper of the player at `index`. */
    method StepScore(index: nat, d: Direction)
      requires Valid()
      modifies this
      ensures Valid()
      ensures View() == WithStep(old(View()), index, d)
    {
      if index < |players| {
        players := players[index := Stepped(players[index], d)];
      }
    }

    /** The "highest score wins" toggle of the settings. */
    method SetDoesHighestScoreWin(highestWins: bool)
      requires Valid()
      modifies this
      ensures Valid()
      ensures View() == WithWinRule(old(View()), highestWins)
    {
      if state == Setup {
        doesHighestScoreWin := highestWins;
      }
    }
  }
}
