# ScoreKeeper scoreboard, modelled in Dafny

ScoreKeeper is a SwiftUI app that keeps score for tabletop games. Its content view owns one
`Scoreboard`. A scoreboard holds a roster of players, the phase of the game (`setup`, `playing`,
`gameOver`) and a "highest score wins" flag. The view changes the scoreboard only through its
controls:

- the Start Game / End Game / Reset Game button, one per phase;
- the Add Player button;
- each player's name field and score stepper;
- the win-rule toggle of the settings.

This project models those controls and proves what they do to the scoreboard.

- `game_state.dfy` (module `GameStates`): the phase enum and its successor function, with the cycle-of-three lemmas.
- `player.dfy` (module `Players`): the `Player` record. `id` never changes, while `name` and `score` are edited in place. The file also has the id-distinctness predicates.
- `scoreboard.dfy` (module `Scoreboards`):
  - a `Snapshot` value for the scoreboard;
  - one pure transition function per control;
  - `Apply` and `Run` over sequences of user actions;
  - the class `Scoreboard` with fields `players`, `state`, `doesHighestScoreWin` and `nextId`.

  Each class method updates the fields in place and is proved to leave exactly the snapshot that the matching transition function gives.
- `scoreboard_properties.dfy` (module `ScoreboardProperties`): lemmas over single actions and over action sequences. They cover the one-button-per-phase state machine, the id invariant, repeated rounds and repeated steps.

Swift's `UUID()` is replaced by a counter, `nextId`. Each new player takes the counter's value and
the counter goes up by one. This assumes, as the app does, that no two UUIDs collide.
The scoreboard's invariant `WellFormed` says that ids are pairwise
distinct and all below `nextId`. Every action preserves it.

How the controls reach the scoreboard:
- Players are addressed by their position in the roster, as the per-element bindings of
  `ForEach($scoreboard.players)` are. A position off the roster is a silent no-op.
- Add Player always appends an empty name (`""`); it takes no name argument.
- The score control is a stepper, so a score moves by exactly +1 or -1.
- Renaming and the win-rule toggle work only in `setup`, because the name field
  (ContentView.swift:56) and the settings (ContentView.swift:38) are `.disabled(state != .setup)`.
  The stepper and Add Player are only made transparent in `setup` (ContentView.swift:62, :73).
  Their closures have no guard, so the model lets them act in every phase.

## Model

| member | source | states |
|---|---|---|
| GameStates.Next | ScoreKeeper/ScoreKeeper/GameState.swift:10-14 | the successor of a phase (setup to playing, playing to gameOver, gameOver to setup) is total and never the phase itself |
| GameStates.ExactlyOneCase | ScoreKeeper/ScoreKeeper/GameState.swift:10-14 | a phase is one of the three cases, and the cases are pairwise different |
| GameStates.NextIsOnto | ScoreKeeper/ScoreKeeper/GameState.swift:10-14 | every phase is the successor of some phase |
| GameStates.NextIsInjective | ScoreKeeper/ScoreKeeper/GameState.swift:10-14 | different phases have different successors |
| GameStates.NextThrice | ScoreKeeper/ScoreKeeper/GameState.swift:10-14 | applying the successor three times gives back the original phase |
| GameStates.IterateFromNext | ScoreKeeper/ScoreKeeper/GameState.swift:10-14 | k successor steps from the successor of s are k + 1 steps from s |
| GameStates.IterateModThree | ScoreKeeper/ScoreKeeper/GameState.swift:10-14 | after k successor steps the phase depends only on k mod 3 |
| GameStates.IterateReturns | ScoreKeeper/ScoreKeeper/GameState.swift:10-14 | k successor steps return to the start phase if and only if k is a multiple of 3 |
| Players.Renamed | ScoreKeeper/ScoreKeeper/Player.swift:16 | editing the name sets it to the new text and leaves id and score unchanged |
| Players.Stepped | ScoreKeeper/ScoreKeeper/Player.swift:17 | a stepper press moves the score by exactly +1 or -1 with no bound, leaves id and name unchanged, and always changes the player |
| Players.StepsCancel | ScoreKeeper/ScoreKeeper/ContentView.swift:60 | an increment followed by a decrement, or the reverse, restores the player |
| Players.DistinctById | ScoreKeeper/ScoreKeeper/Player.swift:13-14 | two players with different ids are different even when their names and scores are equal |
| Players.AppendFresh | ScoreKeeper/ScoreKeeper/Player.swift:14 | appending a player with the next unused id keeps ids distinct and below the advanced counter |
| Players.SameIdsKeepInvariant | ScoreKeeper/ScoreKeeper/Player.swift:14 | a roster edit that keeps every id in place keeps ids distinct and below the counter |
| Scoreboards.WellFormed | ScoreKeeper/ScoreKeeper/Player.swift:13-14 | the id invariant (ids pairwise distinct and below the counter) makes the players of a roster pairwise different values, even with equal names and scores |
| Scoreboards.Rebaselined | ScoreKeeper/ScoreKeeper/ContentView.swift:83 | resetScores(to: v) gives the same players with the same ids and names, in the same order, each with score v |
| Scoreboards.Started | ScoreKeeper/ScoreKeeper/ContentView.swift:81-84 | in setup, Start Game leads to playing with every score at the starting points and ids, names, order, win rule and counter kept; in any other phase it changes nothing |
| Scoreboards.Ended | ScoreKeeper/ScoreKeeper/ContentView.swift:86-88 | in playing, End Game leads to gameOver; players, win rule and counter never change; in any other phase it changes nothing |
| Scoreboards.Restarted | ScoreKeeper/ScoreKeeper/ContentView.swift:90-92 | in gameOver, Reset Game leads to setup and changes no score; in any other phase it changes nothing |
| Scoreboards.WithNewPlayer | ScoreKeeper/ScoreKeeper/ContentView.swift:70-72 | Add Player, in any phase, makes the roster one longer with earlier players unchanged and an unnamed score-0 player at the end whose id differs from every existing id |
| Scoreboards.WithName | ScoreKeeper/ScoreKeeper/ContentView.swift:55-56 | in setup, a name edit changes only the named player's name; outside setup or off the roster it changes nothing |
| Scoreboards.WithStep | ScoreKeeper/ScoreKeeper/ContentView.swift:60 | a stepper press changes only the targeted player's score, by exactly +1 or -1; all other players and fields are unchanged |
| Scoreboards.WithWinRule | ScoreKeeper/ScoreKeeper/ContentView.swift:37-38 | the win-rule toggle takes effect only in setup and changes nothing else |
| Scoreboards.Apply | ScoreKeeper/ScoreKeeper/ContentView.swift:55-93 | routes each control to its closure; only Add Player grows the roster by one and advances the counter by one; the phase either stays or moves to its successor, and only a phase button moves it |
| Scoreboards.Scoreboard.constructor | ScoreKeeper/ScoreKeeper/ContentView.swift:23 | a new scoreboard starts in setup with the given roster (ids distinct and below the given counter) and win rule, and satisfies the id invariant |
| Scoreboards.Scoreboard.ResetScores | ScoreKeeper/ScoreKeeper/ContentView.swift:83 | updates the roster in place to the re-baselined roster and changes no other field |
| Scoreboards.Scoreboard.StartGame | ScoreKeeper/ScoreKeeper/ContentView.swift:81-84 | updates the state in place to exactly what Started gives, keeping the id invariant |
| Scoreboards.Scoreboard.EndGame | ScoreKeeper/ScoreKeeper/ContentView.swift:86-88 | updates the state in place to exactly what Ended gives, keeping the id invariant |
| Scoreboards.Scoreboard.ResetGame | ScoreKeeper/ScoreKeeper/ContentView.swift:90-92 | updates the state in place to exactly what Restarted gives, keeping the id invariant |
| Scoreboards.Scoreboard.AddPlayer | ScoreKeeper/ScoreKeeper/ContentView.swift:70-72 | appends in place to exactly what WithNewPlayer gives, keeping the id invariant |
| Scoreboards.Scoreboard.SetName | ScoreKeeper/ScoreKeeper/ContentView.swift:55-56 | updates in place to exactly what WithName gives, keeping the id invariant |
| Scoreboards.Scoreboard.StepScore | ScoreKeeper/ScoreKeeper/ContentView.swift:60 | updates in place to exactly what WithStep gives, keeping the id invariant |
| Scoreboards.Scoreboard.SetDoesHighestScoreWin | ScoreKeeper/ScoreKeeper/ContentView.swift:37-38 | updates in place to exactly what WithWinRule gives, keeping the id invariant |
| ScoreboardProperties.Offers | ScoreKeeper/ScoreKeeper/ContentView.swift:79-93 | the switch arms: Start Game in setup, End Game in playing, Reset Game in gameOver; only phase buttons are offered |
| ScoreboardProperties.Offered | ScoreKeeper/ScoreKeeper/ContentView.swift:79-93 | every phase shows a phase button, and that button is offered in that phase |
| ScoreboardProperties.OneButtonPerPhase | ScoreKeeper/ScoreKeeper/ContentView.swift:79-93 | a phase offers no phase button other than the one Offered gives |
| ScoreboardProperties.PhaseButtons | ScoreKeeper/ScoreKeeper/ContentView.swift:79-93 | the offered phase button moves the game to the successor phase; a phase button pressed in any other phase leaves the whole scoreboard unchanged |
| ScoreboardProperties.OfferedPressesIterate | ScoreKeeper/ScoreKeeper/ContentView.swift:79-93 | pressing the offered phase button k times moves the phase k successor steps, so it is back at its start exactly when k is a multiple of 3 |
| ScoreboardProperties.ApplyKeepsIds | ScoreKeeper/ScoreKeeper/Player.swift:14 | every action keeps ids pairwise distinct and below the counter, never lowers the counter, never removes a player and never changes the id at a position |
| ScoreboardProperties.RunKeepsIds | ScoreKeeper/ScoreKeeper/Player.swift:14 | the same holds after any sequence of actions |
| ScoreboardProperties.RunAppend | ScoreKeeper/ScoreKeeper/ContentView.swift:79-93 | performing xs and then ys is the same as performing xs + ys |
| ScoreboardProperties.RepeatedAdds | ScoreKeeper/ScoreKeeper/ContentView.swift:70-72 | k presses of Add Player append exactly k unnamed score-0 players after the existing ones, in call order, with consecutive fresh ids |
| ScoreboardProperties.RebaselinedTwice | ScoreKeeper/ScoreKeeper/ContentView.swift:83 | re-baselining twice to the same value is the same as re-baselining once |
| ScoreboardProperties.RoundFromSetup | ScoreKeeper/ScoreKeeper/ContentView.swift:79-93 | Start, End, Reset from setup gives back the same scoreboard, in setup, with every score at the starting points |
| ScoreboardProperties.RoundsFromSetup | ScoreKeeper/ScoreKeeper/ContentView.swift:79-93 | the same holds after any number k >= 1 of such rounds |
| ScoreboardProperties.RepeatedDecrements | ScoreKeeper/ScoreKeeper/Player.swift:17 | k decrement presses lower one player's score by exactly k, with no lower bound, and change no other player |

## Left out

- `winners` (used at ContentView.swift:51): Scoreboard.swift defines it and is not part of this model, so no winner rule is modelled.
- Scoreboard.swift (the type's own source) is not part of this model. Three things follow from that:
  - `resetScores(to:)` is specified only by its call site: scores set, nothing else changed.
  - The default roster and win rule of `Scoreboard()` are unknown, so the constructor takes both, with the counter's starting value.
  - `Scoreboards.Scoreboard.ResetScores` is modelled as replacing the roster by its re-baselined value, not as an element-by-element loop.
- `SettingsView` is not part of this model. The starting-points setting is view state at ContentView.swift:24, so it is a parameter of Start Game.
- `Players.Stepped`: does not model Swift's 64-bit `Int` trapping on overflow at `Int.max`/`Int.min`, because scores are treated as unbounded integers.
- `UUID()` randomness: replaced by the counter `nextId`. The counter is unique by construction; `UUID()` is unique only with overwhelming probability, and the model assumes no two collide.
- SwiftUI layout and presentation are left out: text, grid, fonts, the crown image, opacity, button styles and `#Preview`. The model also does not capture whether a transparent control still receives taps. For example, Add Player and the stepper are transparent in setup.
- `@State` and binding mechanics and the re-render cycle: each control is one synchronous update of the scoreboard.
- The commented-out earlier versions of the roster at ContentView.swift:11-21.
