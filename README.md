# Three-piece tic-tac-toe: a verified model of the rules engine

This project models the rules engine of a console tic-tac-toe game with a twist. Each
player has at most three markers on the 3x3 board. A player who already has three must
spend a turn lifting one of their own markers off before placing again.

The engine has four layers, each modelled as a Dafny class over `seq` fields, in the
form the Java code takes:

- `Coordinates.Coordinate` is an ordered association list of `(x, y, data)` entries.
  - It supports append, first-match index and lookup, and remove-first-match.
  - It also supports size and the nested-loop count of matching coordinates.
- `Boards.Board` holds one such list with an entry per cell. An empty cell stores `" "`.
  A cell is overwritten by remove-then-append.
- `Players.Player` has a fixed name and marker and the list of the cells it holds.
- `Games.Game` holds the board, the two players, the `turn` and `over` flags and the three
  winning patterns. Its methods are:
  - the move rule (`NextPlayerMove`, `AddSet`, `TakeSet`);
  - the win check (`SetChecker`, with its counting loop `CountPatterns`);
  - one pass of the start loop (`Step`);
  - the winner's name (`GameOver`);
  - the rematch reset (`Rematch`).

Each method is proved against a value-level specification in `GameRules`. There, a
`Round` is the board list plus two `Seat`s (name, marker, cells) plus `turn` and `over`:

- `Move` is the move rule, as `Judge` plus `Place` / `Lift`.
- `Check` is the win check, `Play` one loop pass, `Winner` the announced name.
- `Opening` is a new game, `Restart` a rematch.

The invariants of play are proved about these functions:

- `Sound` covers four facts:
  - the board has exactly one entry per cell;
  - each player holds at most three distinct on-board cells, all showing the player's marker;
  - the players' cells are disjoint;
  - each cell shows the marker of whoever holds it, or a blank.
- `Quiet` says that while the round runs, no player holds a complete pattern.

`Sessions` runs the start loop over a list of typed coordinates and works through one
complete round. `Input` models the range test the console applies to a typed coordinate,
both as written and as intended.

Points where the behaviour of the code differs from a plain reading of its documentation:

- **Player two moves first.** `turn` starts `true`, and `turn == true` dispatches to
  `player2` (Game.java:24, 56-58).
- **The check runs after every pass.** Game.java:53-63 calls `setChecker` after every move
  request, including refused ones and lifts. On a quiet round this ends the round exactly
  after a placement that completes a pattern (`GameRules.PlayKeeps`).
- **The winner named is the player who did not make the last move.** The completing
  placement flips `turn` before `gameOver` reads it (`GameRules.PlayKeeps`,
  `Sessions.VerticalRound`).
- **A pattern is only the two cells around the centre.** Each winning pattern is the pair
  of cells flanking the centre on one line, so a win never needs the centre. The second
  diagonal (1,1)/(3,3) is not a pattern (Game.java:221-236).

I/O is not modelled. Names, markers and coordinates are parameters. Where the code
prints, the model returns the values printed (`DisplayBoard`, `GameOver`).

## Model

| member | source | states |
|---|---|---|
| Text.Contains | Board.java:63 | definition of `String.contains` on character sequences; its properties are `Text.ContainsChar` and `Text.ContainsItself` |
| Text.ContainsChar | Board.java:63 | `String.contains` with a one-character argument holds exactly when the character occurs in the string |
| Text.ContainsItself | Player.java:69 | a string contains itself, so a cell storing the player's own marker passes the taken test |
| Coordinates.FirstIndex | Coordinate.java:49-57 | the result is -1 exactly when no entry has the coordinate; otherwise it is the smallest index whose entry has it |
| Coordinates.Lookup | Coordinate.java:77-84 | none (null) exactly when the coordinate is absent; otherwise the data of the first matching entry |
| Coordinates.CountKey | Coordinate.java:104-108 | the inner count is at most the list length, and zero exactly when the coordinate is absent |
| Coordinates.CountPairs | Coordinate.java:101-111 | the number of matching pairs is at most the product of the two lengths |
| Coordinates.AppendLookup | Coordinate.java:37-40 | after an append the coordinate is present iff it was before or is the new entry's; lookup is first-match, so an older entry shadows the new one |
| Coordinates.AppendNoDuplicates | Coordinate.java:37-40 | appending keeps coordinates distinct exactly when the new coordinate was absent |
| Coordinates.RemoveFirst | Coordinate.java:65-68 | definition of `remove`: drop the entry at the first matching index. Where no entry matches, Java's `remove(-1)` throws; the function then returns the list unchanged only to be total, and no caller reaches that case, because `Coordinates.Coordinate.Remove`, `Players.Player.RemoveMySet` and `Boards.Board.UpdateSet` all require the entry. Its properties are the `RemoveFirst…` lemmas below |
| Coordinates.RemoveFirstShift | Coordinate.java:65-68 | removal shortens the list by one; entries before the first match stay in place, later ones move down one position |
| Coordinates.RemoveFirstLookup | Coordinate.java:65-68 | removing (x, y) changes no lookup of any other coordinate |
| Coordinates.RemoveFirstSubset | Coordinate.java:65-68 | removal introduces no entry and no coordinate |
| Coordinates.RemoveFirstNoDuplicates | Coordinate.java:65-68 | on a duplicate-free list, removal drops exactly one entry, adds none, keeps the list duplicate-free and deletes exactly the coordinate (x, y) |
| Coordinates.KeysHasKey | Coordinate.java:101-111 | helper of `CountPairsShared`: the coordinate set of a list holds exactly the coordinates some entry has |
| Coordinates.KeysOfPrefix | Coordinate.java:101-111 | helper of `CountPairsShared` and `KeysCount`: the coordinates of a list are those of the list without its last entry plus that entry's |
| Coordinates.KeysCount | Coordinate.java:101-111 | a duplicate-free list has as many distinct coordinates as entries |
| Coordinates.CountKeyNoDuplicates | Coordinate.java:104-108 | against a duplicate-free list the inner loop counts 1 if the coordinate is present and 0 otherwise |
| Coordinates.CountPairsShared | Coordinate.java:101-111 | for two duplicate-free lists the count is the number of shared coordinates, at most either list's size |
| Coordinates.SubsetCard | Coordinate.java:101-111 | helper of `CountPairsShared`, for its bound by either size: a subset of coordinates is no larger than the set containing it |
| Coordinates.Coordinate.constructor | Coordinate.java:26-28 | a new list is empty |
| Coordinates.Coordinate.Add | Coordinate.java:37-40 | exactly one entry (x, y, c) is appended at the end, earlier entries unchanged |
| Coordinates.Coordinate.GetIndex | Coordinate.java:49-57 | returns the first matching index, or -1 exactly when none matches; the list is not changed |
| Coordinates.Coordinate.Remove | Coordinate.java:65-68 | deletes the first matching entry, keeping the order of the rest; size drops by one; the entry must exist |
| Coordinates.Coordinate.Get | Coordinate.java:77-84 | returns the first match's data, or none exactly when the coordinate is absent; nothing is modified |
| Coordinates.Coordinate.Size | Coordinate.java:91-93 | the number of entries |
| Coordinates.Coordinate.CountMatching | Coordinate.java:101-111 | the count of pairs with equal coordinates; for duplicate-free lists, the number of shared coordinates and at most either size; neither list is changed |
| Boards.BlankCells | Board.java:22-32 | the initial board list has nine entries |
| Boards.Overwrite | Board.java:73-76 | remove-then-append keeps the list length |
| Boards.IsFree | Board.java:62-64 | definition of `isFreeSet`: the stored string of the cell contains the blank; stated as a property by `Boards.IsFreeBlank` |
| Boards.ExactKeys | Board.java:22-32 | a well-formed board has an entry for (x, y) exactly when 1 <= x, y <= 3 |
| Boards.IsFreeBlank | Board.java:62-64 | a cell is free exactly when its stored string contains a space |
| Boards.BlankCellsExact | Board.java:22-32 | the initial board has exactly one entry per cell of (1..3)x(1..3), each blank and free |
| Boards.OverwriteCell | Board.java:73-76 | overwriting keeps one entry per cell; the cell then stores the new string, free iff that string contains a space; every other cell is unchanged |
| Boards.Board.constructor | Board.java:13-17 | a new board holds the nine blank cells |
| Boards.Board.Initialize | Board.java:22-32 | appends the nine blank cells in row order |
| Boards.Board.ResetBoard | Board.java:37-40 | a fresh list holding exactly the nine blank cells |
| Boards.Board.DisplayBoard | Board.java:45-53 | the three rows read are the nine cell lookups, and the board is not changed |
| Boards.Board.DisplayRow | Board.java:46-51 | one row's three cell lookups |
| Boards.Board.IsFreeSet | Board.java:62-64 | true iff the stored string contains a space; the cell must have an entry, since a missing entry is dereferenced |
| Boards.Board.UpdateSet | Board.java:73-76 | the cell now stores the new string, every other cell is unchanged and the board stays one entry per cell |
| Players.Taken | Player.java:64-70 | definition of `isSetTaken`: false when the cell has no entry, otherwise whether its stored string contains the player's marker; its property is `Players.TakenIffHeld` |
| Players.TakenIffHeld | Player.java:64-70 | when every entry stores the player's own marker, the taken test holds exactly when an entry for the cell exists |
| Players.Player.constructor | Player.java:15-19 | the name and marker given, an empty list |
| Players.Player.GetSizeSet | Player.java:53-55 | the number of cells held |
| Players.Player.IsSetTaken | Player.java:64-70 | false with no entry for the cell; with the player's own markers, true exactly when an entry exists |
| Players.Player.SetMySet | Player.java:78-80 | appends (x, y, marker); size grows by one |
| Players.Player.RemoveMySet | Player.java:88-90 | removes the entry for the cell; size drops by one; the entry must exist |
| Players.Player.ResetPlayer | Player.java:95-97 | a fresh empty list; name and marker untouched |
| GameRules.Mover | Game.java:56-61 | definition of the dispatch: `turn` true selects player two, false player one |
| GameRules.Judge | Game.java:97-111 | definition of the branch `nextPlayerMove` takes: place, lift or refuse; its effects are `GameRules.PlaceEffect`, `LiftEffect`, `MoveRefused` |
| GameRules.Place | Game.java:163-167 | definition of `addSet` on values: append the cell, show the marker, flip the turn; see `GameRules.PlaceEffect`, `PlaceKeeps` |
| GameRules.Lift | Game.java:176-179 | definition of `takeSet` on values: remove the cell, show it blank; see `GameRules.LiftEffect`, `LiftKeeps` |
| GameRules.Move | Game.java:97-111 | definition of `nextPlayerMove` on values; see `GameRules.MoveKeeps`, `MoveQuiet` |
| GameRules.Tally | Game.java:187-191 | definition of the count array: each pattern matched against the player's list; see `GameRules.PatternCount`, `TallyTwos` |
| GameRules.Twos | Game.java:193-198 | definition of how many counts equal 2; see `GameRules.TallyTwos`, `TwosStep` |
| GameRules.Check | Game.java:186-199 | definition of `setChecker` on values: flip `over` once per count equal to 2; see `GameRules.CheckEnds` |
| GameRules.Play | Game.java:53-63 | definition of one pass of the start loop: the dispatched player moves and is checked; see `GameRules.PlayKeeps` |
| GameRules.Winner | Game.java:131-137 | definition of the name `gameOver` announces; see `GameRules.PlayKeeps`, `Games.Game.GameOver` |
| GameRules.Opening | Game.java:204-216 | definition of a new game's state, with `turn` true and `over` false as Game.java:24-25 set them; see `GameRules.OpeningSound` |
| GameRules.Restart | Game.java:242-248 | definition of the state after `rematch`; see `GameRules.RestartResets` |
| GameRules.Patterns | Game.java:221-236 | three patterns of two cells each: vertical (1,2)/(3,2), horizontal (2,1)/(2,3), diagonal (1,3)/(3,1) |
| GameRules.PatternsShape | Game.java:226-231 | the six pattern cells are distinct on-board cells, none of them the centre |
| GameRules.TwosStep | Game.java:193-198 | helper of the toggle loop of `Games.Game.SetChecker`: scanning one more count adds one to the number of 2s exactly when that count is 2 |
| GameRules.ConsistentSymmetric | Game.java:97-111 | agreement between board and players does not depend on which player is named first |
| GameRules.MarkerNotFree | Screen.java:73 | a one-character marker other than the blank never reads as free |
| GameRules.FreeIffUnheld | Game.java:97-111 | on a consistent board a cell is free exactly when neither player holds it |
| GameRules.HeldOnBoard | Game.java:97-111 | every cell a valid player holds is on the board |
| GameRules.AppendSeat | Game.java:163-167 | a player gaining a new on-board cell stays valid and holds exactly one more coordinate |
| GameRules.RemoveSeat | Game.java:176-179 | a player giving up a held cell stays valid, has one entry fewer and no longer holds that cell |
| GameRules.AgreeAfter | Game.java:163-179 | a board changed only at the moved cell, showing there what its new holder implies, still agrees with the players |
| GameRules.PlaceKeeps | Game.java:163-167 | placing on a free cell with fewer than three pieces keeps board and players consistent |
| GameRules.LiftKeeps | Game.java:176-179 | lifting a held piece keeps board and players consistent |
| GameRules.MoveKeeps | Game.java:97-111 | every branch of the move rule keeps the round sound: one entry per cell, at most three distinct cells per player, disjoint players, board showing the holders |
| GameRules.PlaceCell | Game.java:163-167 | after a placement the cell shows the marker, is not free, and the player holds it |
| GameRules.LiftCell | Game.java:104-106 | with three pieces and a held cell, the rule lifts; the player keeps two cells, not this one, and the cell is blank and free |
| GameRules.HeldNotFree | Game.java:104-105 | a cell a player holds is never free |
| GameRules.BlankAfter | Game.java:176-179 | blanking a cell leaves it free |
| GameRules.PlaceEffect | Game.java:97-100 | fewer than three and a free cell: the piece is placed; the player gains the cell, the cell shows the marker, the turn flips, the other player is untouched |
| GameRules.LiftEffect | Game.java:104-106 | three pieces and an own cell: the piece is lifted; the player is down to two, the cell is blank and free, the turn stays, the other player is untouched |
| GameRules.MoveRefused | Game.java:101-109 | an occupied cell with fewer than three, or a free or foreign cell with three, changes nothing |
| GameRules.PatternCount | Game.java:186-191 | against a valid player a pattern counts at most 2, and 2 exactly when the player holds both its cells |
| GameRules.NoTwoPatterns | Game.java:221-236 | at most three cells cannot complete two disjoint patterns |
| GameRules.TallyTwos | Game.java:186-199 | at most one count reaches 2, and one does exactly when the player holds a complete pattern |
| GameRules.CheckEnds | Game.java:186-199 | the check flips the end flag exactly when the checked player holds a complete pattern and changes nothing else |
| GameRules.MoveQuiet | Game.java:97-111 | a move leaves the other player and the end flag alone and flips the turn exactly on a placement; only a placement can complete a pattern |
| GameRules.PlayKeeps | Game.java:53-63 | a loop pass keeps the round sound and quiet and ends it exactly when an accepted placement completes a pattern; the winner then named is the other player |
| GameRules.OpeningSound | Game.java:20-26 | a new round is sound and quiet, not over, every cell free, player two to move |
| GameRules.RestartResets | Game.java:242-248 | a rematch blanks the board, empties both players, clears the end flag and gives player two the move; names and markers stay |
| Games.Game.constructor | Game.java:204-216 | fresh board, players and lists; two players with empty lists, blank board, player two to move, the round running and quiet, the three patterns loaded, and the whole state sound |
| Games.Game.InitializeWinningSets | Game.java:221-236 | appends three fresh lists holding the vertical, horizontal and diagonal patterns in that order |
| Games.Game.NextPlayerMove | Game.java:97-111 | board, player and turn change exactly as the move rule says for this player |
| Games.Game.AddSet | Game.java:163-167 | the player records the cell, the board shows the marker, the turn flips |
| Games.Game.TakeSet | Game.java:176-179 | the player gives up the cell, the board shows it blank |
| Games.Game.SetChecker | Game.java:186-199 | the end flag flips once for every pattern counted 2, as the check specifies |
| Games.Game.CountPatterns | Game.java:187-191 | entry k of the count array is pattern k matched against the player's list |
| Games.Game.Step | Game.java:53-63 | for an accepted coordinate, the player `turn` selects moves and is checked; the state becomes one loop pass of the specification and stays sound and quiet |
| Games.Game.GameOver | Game.java:131-137 | player two's name when `turn` is true, else player one's |
| Games.Game.Rematch | Game.java:242-248 | the state is the rematch of the old one, with fresh board and player lists; it stays sound, is quiet and not over |
| Games.OpeningPass | Main.java:16-20 | a new game can run a pass of the start loop at once: the result is valid and quiet and is one pass from the opening state |
| Games.RematchPass | Main.java:19-22 | after a rematch a valid game can run a pass of the start loop: the result is valid and quiet and is one pass from the restarted state |
| Input.AcceptedAsWritten | Screen.java:167 | definition of the range test as written: refuse above 3 or below 0; see `Input.AsWrittenLetsZeroThrough`, `AsWrittenExtra` |
| Input.Accepted | Screen.java:167 | definition of the range test with the lower bound corrected to 1; see `Input.AcceptedExactlyOnBoard` |
| Input.AsWrittenLetsZeroThrough | Screen.java:167 | the range test as written accepts a coordinate with a 0, for which the board has no entry |
| Input.AsWrittenExtra | Screen.java:167 | as written the test accepts exactly the board cells plus the coordinates in 0..3 holding a 0 |
| Input.AcceptedExactlyOnBoard | Screen.java:167 | with the lower bound 1 the test accepts exactly the coordinates the board has an entry for |
| Sessions.Run | Game.java:53-63 | definition of the start loop on a finite list of coordinates typed at the console: a coordinate the range test refuses is skipped, as the console reads the next one; an accepted one without a board entry (one holding a 0) stops the loop, where the pass throws; otherwise one pass per coordinate until `over`; see `Sessions.RunKeeps`, `RunFirst`, `RunSkipsRefused`, `RunStopsAtZero` |
| Sessions.RunSkipsRefused | Screen.java:167-174 | a coordinate the range test refuses, such as (4, 1), is not played: the loop goes on with the next coordinate |
| Sessions.RunStopsAtZero | Board.java:62-64 | on a well-formed board a coordinate holding a 0 passes the range test but has no entry: the loop stops there and nothing after it is played |
| Sessions.RunKeeps | Game.java:53-63 | any number of loop passes keeps the round sound and quiet; a round that is over is left alone |
| Sessions.PlaceStep | Game.java:53-63 | placing on a cell neither player holds adds it to the mover, leaves the other player alone, flips the turn and ends the round exactly on a complete pattern |
| Sessions.RunFirst | Game.java:53-63 | while the round runs, the loop on a list is one pass on its first coordinate, then the rest |
| Sessions.PlaceQuiet | Game.java:53-63 | a placement completing no pattern keeps the round running and sound, the mover's seat gaining the cell |
| Sessions.PlaceEnds | Game.java:53-63 | a placement completing a pattern ends the round, the mover's seat gaining the cell |
| Sessions.RunFour | Game.java:53-63 | four accepted passes, the last ending the round, consume four coordinates; later ones are ignored |
| Sessions.Position | Game.java:53-63 | helper of `Sessions.VerticalPasses`: the round is sound and quiet, has the given turn and gives its seats the given cells |
| Sessions.VerticalCells | Game.java:221-236 | helper of `Sessions.VerticalPasses`: which positions of the worked round complete a pattern (only player one's (1,2)/(3,2), which does not hold the centre) |
| Sessions.VerticalFirst | Game.java:53-63 | helper of `Sessions.VerticalPasses`: player two's pass at (1, 1) keeps the round running |
| Sessions.VerticalSecond | Game.java:53-63 | helper of `Sessions.VerticalPasses`: player one's pass at (1, 2) keeps the round running |
| Sessions.VerticalThird | Game.java:53-63 | helper of `Sessions.VerticalPasses`: player two's pass at the centre keeps the round running |
| Sessions.VerticalFourth | Game.java:53-63 | helper of `Sessions.VerticalPasses`: player one's pass at (3, 2) ends the round |
| Sessions.VerticalMoves | Screen.java:167 | helper of `Sessions.VerticalPasses`: the worked round's coordinates, in order, all pass the range test |
| Sessions.VerticalPasses | Game.java:53-63 | the passes of the worked round end it with the seats holding the cells played |
| Sessions.VerticalRound | Game.java:53-63 | two plays (1,1), one (1,2), two the centre, one (3,2): the round ends, player one holds the vertical pattern without the centre, the name announced is player two's |

## Left out

- Screen.java and Main.java: these are console I/O. Names, markers and coordinates are parameters instead of reads from a scanner, and colours, screen clearing and the loading pause are not modelled. Three pieces are kept: the range test of Screen.java:167 (in `Input`, and the skipping of refused coordinates in `Sessions.Run`); the length-1 marker test of Screen.java:73 (as `GameRules.Marker`); and the new game / start / rematch sequence of Main.java:16-22 (as `Games.OpeningPass` and `Games.RematchPass`).
- Game.load, Game.restart and Game.displayCurrentPlayerTurn: these are menu and prompt I/O around the modelled operations.
- Game() and Game.initialize: these are merged into one constructor that takes the names and markers the prompts would read.
- The blocking `while (!over)` loop of Game.start: it is modelled as one pass (`Games.Game.Step`) and, on values, as `Sessions.Run` over a finite list of coordinates.
- The `System.out.println` diagnostics (Game.java:102, 108, 192), `displayMatchOver` and the string layout of `displayBoard`/`Screen.board`: `DisplayBoard` returns the nine cells it would show.
- The marker that enters the model: it is a one-character string other than `" "`. A player choosing a space as marker is not modelled, because such a marker would make the player's own cells read as free.
- `String.contains`: it is modelled on `seq<char>` (`Text.Contains`), with no Unicode subtleties.
- Java exceptions: `remove` at index -1 and `contains` on a null lookup become preconditions (`Coordinates.Coordinate.Remove`, `Boards.Board.IsFreeSet`).
- Games.Game.NextPlayerMove, AddSet, TakeSet: each states the new state as a function of the old one, but does not itself restate that the game stays `Valid`. That is carried by `GameRules.MoveKeeps` and by `Games.Game.Step`, which re-establishes `Valid`.
- Games.Game.SetChecker: it does not itself state that at most one pattern fires. That fact is `GameRules.TallyTwos`/`GameRules.CheckEnds` about the function it is proved equal to.
- Games.Game.SetChecker: the counting loop is a separate method (`CountPatterns`), and `setChecker`'s array is returned from it.
- Games.Game.Step: it requires a running, quiet round, which is what the start loop provides. It also requires `Input.Accepted(x, y)`, the range test with its lower bound corrected to 1. The loop as written can pass a 0, and the Java pass then throws inside `isFreeSet`; see the Screen.java:167 row under "## Findings".
- Sessions.Run: it stops at an accepted coordinate without a board entry. Such a coordinate holds a 0, and there the Java pass throws inside `isFreeSet` (see `Sessions.RunStopsAtZero` and the Findings row). Coordinates the range test refuses are skipped, as the console does. The exception and the program exit it causes are not modelled.

## Findings

| source | as written | input that shows it | evidently intended | confidence | as-written member | corrected member |
|---|---|---|---|---|---|---|
| Screen.java:167 | `(x > 3 \|\| y > 3) \|\| (x < 0 \|\| y < 0)` refuses only numbers below 0, so 0 is accepted | the coordinate `0, 2`: accepted, then `isFreeSet(0, 2)` calls `contains` on the null that `get` returns for a missing cell (Board.java:63, Coordinate.java:83) | refuse numbers below 1, so that exactly the nine board cells get through | not executed | Input.AsWrittenLetsZeroThrough | Input.AcceptedExactlyOnBoard |
