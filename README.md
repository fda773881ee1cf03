# Reversi board engine, modelled in Dafny

This project models package `game` of the Go repository zen-en-tonal/reversi:
the reversi (Othello) board and the three commands that change it. The model
is proved correct in Dafny.

The board is an 8x8 grid. It is stored as a map from coordinates to a colour:
`None`, `BLACK` or `WHITE`. The board also keeps a history of commands. There
are three commands:

- a placement (`PlacePiece`), which writes the mover's colour and then flips
  each captured cell;
- a single flip (`FlipPiece`);
- a pass (`Skip`).

`MakeEffect` commits a command on a clone of the board. It keeps the clone
only when the commit succeeds, and records the command when it has an actor.
`Undo(n)` rebuilds the board by replaying all but the last `n` history
entries from a new board. `Hints(c)` lists every legal placement for `c`: from
every piece of `c` it scans the eight directions over the opponent's pieces,
up to an empty cell.

The modules follow the source:

- `Geometry` covers colours, coordinates, directions, `next` and `inBound`.
- `Grid` covers the grid map, `GetPiece`, `placePiece`, the initial position
  and counts.
- `Commands` covers the command datatype, `WhoDoes`, `Describe`, `Score` and
  what each `Commit` does to the grid, as pure functions.
- `Moves` covers `scan`, `walkNext`, `intoFlips` and the hint set, with proofs
  that it is sound and complete.
- `Engine` covers the `Board` class, whose methods update `history` and
  `pieces` in place, and the `Commit` methods.
- `Properties` holds the laws that connect the operations: what playing a
  hint does to the score, and why replay and undo are consistent.
- `Scenarios` works out the three tests of `game/board_test.go` on the model.

Where the model departs from the code, or where the code is surprising:

- **The bounds check accepts every coordinate.** `inBound`
  (game/board.go:168-170) joins its four edge tests with `||`, not `&&`. So
  every coordinate passes. The "out of range" branches of `placePiece` and
  `GetPiece` can never be taken, and `scan` reads any key missing from the
  grid as `None` (a cell off the board is missing until a played hint writes
  it). The model keeps this behaviour: `InBound` is proved always true.
  `InBoundAcceptsOffBoard` shows a coordinate that the intended `&&` check
  rejects.
  - A consequence: `scan` stops because every walk eventually meets a missing
    key, never because of a bounds check. Its termination measure is
    therefore the farthest key in the walking direction.
  - Another consequence: `Hints` can offer a target off the board, for example
    at x = -1.
- **Hints are a set.** `Hints` iterates a Go map, so the order of its list is
  not determined. The model returns a set. `HintsDistinct` proves that two
  different (origin, direction) pairs always give different hints. So the
  source's list has no repeated entries and is exactly as long as the set.
- **The flip list type.** `PlacePiece` declares its flips as `[]flipPiece`,
  while `Hints` fills them from `intoFlips`, which returns `[]FlipPiece`. The
  model has one flip type, `FlipPiece`.
- **Errors.** Go's `errors.New("out of range")` and
  `errors.New("invalid operation")` are modelled as the error kinds
  `OutOfRange` and `InvalidOperation`.
- **The hints test.** The test checks `len(hints) == 3`. The set's size is 3,
  and by `HintsDistinct` that is also the length of the list.

## Model

| member | source | states |
|---|---|---|
| Geometry.ColorName | game/board.go:198-206 | the printed name is never empty, and it is "None" exactly for the empty colour |
| Geometry.Opposite | game/board.go:208-216 | the result is `None` exactly when the input is, and it differs from any player colour it is given |
| Geometry.OppositeInvolution | game/board.go:208-216 | taking the opposite twice gives back the original colour |
| Geometry.DirectionsComplete | game/board.go:115 | the direction list `Hints` tries holds each of the eight directions exactly once |
| Geometry.Next | game/board.go:223-249 | one unit step in each of the eight directions, with `UP` lowering y; what it promises is stated by `NextAdvances` and `NextInjective` |
| Geometry.NextAdvances | game/board.go:223-249 | every step moves strictly forward along its direction, so it never returns the same cell |
| Geometry.NextInjective | game/board.go:223-249 | two different directions lead from a cell to two different neighbours |
| Geometry.StepDistinct | game/board.go:223-249 | repeated steps in one direction never revisit a cell |
| Geometry.InBound | game/board.go:168-170 | the bounds check as written accepts every coordinate |
| Geometry.InBoundAcceptsOffBoard | game/board.go:168-170 | (-1, 8) passes the written check but fails the intended `&&` check |
| Grid.GetPiece | game/board.go:181-188 | reading never fails, and a missing key reads as `None` |
| Grid.Lookup | game/board.go:185 | the Go map read with its zero value: a missing key reads `None`, a present one its stored colour (`LookupPresent`) |
| Grid.SetPiece | game/board.go:172-179 | writing always succeeds, adds the key, sets that cell and leaves every other cell as it was |
| Grid.InitialGrid | game/board.go:14-29 | the keys are exactly the 64 cells of the square; the four centre cells are seeded (WHITE at (3,3) and (4,4), BLACK at (4,3) and (3,4)); every other key reads `None` |
| Grid.InitialCount | game/board.go:22-26 | the starting position has two pieces of each colour |
| Grid.CountUpdate | game/board.go:177 | a write moves one cell from the count of its old colour to the count of its new one |
| Commands.WhoDoes | game/place.go:19-21 | a flip has no actor; a placement or a pass is done by its `who` |
| Commands.NewPlacePiece | game/place.go:11-17 | the constructor gives a placement by `c` at (x, y) with no flips |
| Commands.Score | game/place.go:41-43 | the number of flips a placement carries; `HintApplies` proves it is what the mover gains beyond the placed piece and what the opponent loses |
| Commands.NatToStringRoundTrip | game/place.go:37-39 | the decimal text of a natural number (`%d`) reads back as that number |
| Commands.IntToStringRoundTrip | game/place.go:37-39 | the decimal text of any integer, negative ones included, reads back as that integer |
| Commands.Describe | game/place.go:37-39 | the log line of each command (the `Describe` methods of game/flip.go:24-26 and game/skip.go:18-20 too): a placement names its player and coordinates (`DescribePlacement`), a pass its player (`DescribeSkip`), a flip is "flips." |
| Commands.DescribePlacement | game/place.go:37-39 | a placement's log line is the player's name and the fixed text around x and y, and both coordinates read back from it |
| Commands.DescribeSkip | game/skip.go:18-20 | a pass's log line is the player's name followed by " was skipped.", and different players' passes give different lines, so the player reads back |
| Commands.FlipGrid | game/flip.go:13-22 | the grid effect of a flip; `FlipSemantics` and `FlipTwice` state its failure case, its one changed cell and that it undoes itself |
| Commands.ApplyFlips | game/place.go:28-33 | the flips of a placement in order, stopping at the first failure; `ApplyFlipsPrefix` and `ApplyOpponentFlips` state how it splits and what it does on a hint |
| Commands.CommitGrid | game/board.go:96 | the grid effect of `Commit` for each command; `SkipCommit`, `PlaceOverwrites`, `PlaceFailsOnFirstBadFlip` and `HintApplies` state its cases |
| Commands.FlipSemantics | game/flip.go:13-22 | a flip fails with the invalid-operation error exactly on an empty cell; otherwise it swaps that cell's colour and changes nothing else |
| Commands.FlipTwice | game/flip.go:13-22 | flipping a non-empty cell twice gives back the original grid |
| Commands.SkipCommit | game/skip.go:13-16 | committing a pass leaves the grid unchanged |
| Commands.PlaceOverwrites | game/place.go:23-27 | a placement without flips overwrites its cell whatever the cell held |
| Commands.PlaceFailsOnFirstBadFlip | game/place.go:28-33 | when the first k flips succeed and flip k fails, the placement fails with that flip's error |
| Commands.ApplyFlipsPrefix | game/place.go:28-34 | making the flips one by one is the same as making the first k and then the rest |
| Moves.IntoFlips | game/board.go:160-166 | one flip per cell the walk passed, in walking order |
| Moves.WalkNext | game/board.go:154-158 | log the current cell and step on; `WalkLine` states that it extends the walked line by one cell |
| Moves.Scan | game/board.go:135-147 | the recursive walk over the wanted colour; `ScanSound` and `ScanComplete` state exactly when it finds a move and which one |
| Moves.WalkLine | game/board.go:154-158 | `walkNext` records the current cell and moves one step, extending the walked line by one cell |
| Moves.ScanSound | game/board.go:135-147 | a move that `scan` finds ends a run of at least one cell of the wanted colour, on a cell that reads empty, and the path logs exactly that run |
| Moves.ScanComplete | game/board.go:135-147 | along a run of the wanted colour that ends on an empty cell, `scan` finds exactly that run |
| Moves.ScanFrom | game/board.go:117-120 | the scan `Hints` starts one step from an origin; `ScanFromLine` states that it succeeds exactly on a capture line |
| Moves.HintOf | game/board.go:121-125 | the placement built from a found path; `ScanFromLine` states that it is the capture line's placement |
| Moves.HintsAmong | game/board.go:109-113 | the hints from the origins visited so far; `HintsAmongAdd` states what one more key adds |
| Moves.HintSet | game/board.go:107-133 | every hint from every piece of `c`; `HintSetExact`, `HintSound` and `HintComplete` characterise it both ways |
| Moves.ScanFromLine | game/board.go:116-127 | the scan from an origin succeeds exactly on a capture line, and then builds that line's placement |
| Moves.HintSetExact | game/board.go:107-133 | a placement is a hint for `c` exactly when it captures along a line next to a piece of `c` (both directions) |
| Moves.HintSound | game/board.go:107-133 | every hint is by `c`, flips at least one cell, flips only opponent pieces lying in a row from a piece of `c`, and targets the empty cell after them |
| Moves.HintComplete | game/board.go:107-133 | every capture line from a piece of `c` is offered as a hint |
| Moves.HintsDistinct | game/board.go:116-127 | two different (origin, direction) pairs never give the same hint |
| Moves.OriginHintsStep | game/board.go:116-127 | trying one more direction adds exactly that direction's hint, if its scan succeeds |
| Moves.HintsAmongAdd | game/board.go:109-113 | visiting one more key adds that origin's hints exactly when it holds `c` |
| Engine.Board.NewBoard | game/board.go:14-29 | the new board is the initial grid with an empty history |
| Engine.Effect | game/board.go:94-105 | `MakeEffect` as a function of the state; `FlipNotRecorded`, `SkipEffect`, `PlacementRecordedOnce` and `EffectKeepsConsistent` state what it records and keeps |
| Engine.Replay | game/board.go:68-74 | the effects of a command list in order, stopping at the first failure; `ReplayAppend` and `ReplayRecords` state how it splits and what it records |
| Engine.Board.PlacePieceAt | game/board.go:172-179 | `placePiece` never fails; the grid becomes the written grid and the history is untouched |
| Engine.Board.Clone | game/board.go:31-42 | the clone is a new object with the same history and grid |
| Engine.Board.Pieces | game/board.go:55-57 | the returned map equals the board's grid |
| Engine.Board.WhoesTurn | game/board.go:59-61 | the player to move is the opponent of whoever made the last history entry |
| Engine.Board.Logs | game/board.go:44-53 | the log is `LogsOf(history)`: one description per entry with an actor, in order |
| Engine.LogsOf | game/board.go:44-53 | one description per entry with an actor, in order, so never longer than the history |
| Engine.LogsOfRecorded | game/board.go:44-53 | when every entry has an actor, exactly one description per entry, in order |
| Engine.Board.Score | game/board.go:79-92 | both colours are keys, and each maps to the number of cells holding it |
| Engine.Board.Hints | game/board.go:107-133 | the hints returned are exactly `HintSet` of the grid |
| Engine.Board.MakeEffect | game/board.go:94-105 | on success the board becomes `Effect` of the old state (new grid, and the command recorded when it has an actor); on failure the board is unchanged; after a recorded command it is the other player's turn |
| Engine.WrapInt | game/board.go:64 | Go's 64-bit `int` arithmetic: the result is an `int`, congruent to the exact value modulo 2^64, and equal to it when that fits |
| Engine.Board.Undo | game/board.go:63-77 | the count to keep is computed with 64-bit wrap-around; too large a count fails with `OutOfRange` and changes nothing; otherwise the board becomes the replay of the kept prefix from a new board, or stays unchanged when that replay fails |
| Engine.Commit | game/board.go:96 | the interface call commits the command's grid effect and never touches the history; a failed flip leaves the grid alone, a failed placement leaves its piece and earlier flips on it |
| Engine.CommitPlacePiece | game/place.go:23-35 | write the player, then make the flips through `MakeEffect` in order, stopping at the first failure; the result is `CommitGrid`; on failure the written piece and the flips before the failing one stay on the board (`PartlyPlaced`) |
| Engine.CommitFlipPiece | game/flip.go:13-22 | an empty cell fails with `InvalidOperation` and changes nothing; otherwise the cell takes the opposite colour |
| Properties.ApplyOpponentFlips | game/place.go:28-33 | flips over distinct opponent cells all succeed, turn exactly those cells, and move one count each from the opponent to the mover |
| Properties.HintApplies | game/place.go:23-43 | playing a hint succeeds; the target and every flipped cell hold the mover; nothing else changes; the mover gains `Score` + 1 and the opponent loses `Score` |
| Properties.PartlyPlacedFirstFlip | game/place.go:24-31 | a placement committed directly whose first flip fails leaves exactly its own piece written on the grid |
| Properties.FlipNotRecorded | game/board.go:101-103 | a flip made through `MakeEffect` is never recorded, and it fails exactly on an empty cell |
| Properties.SkipEffect | game/skip.go:13-16 | a pass leaves the grid alone; a pass by a player is recorded; a pass by `None` changes nothing at all |
| Properties.PlacementRecordedOnce | game/board.go:101-103 | a successful placement adds exactly one history entry, itself, when it has a player, because its flips have no actor |
| Properties.ReplayAppend | game/board.go:69-74 | replaying `a + b` is replaying `a`, then `b` from where it stopped |
| Properties.ReplayRecords | game/board.go:69-74 | replaying commands that all have actors appends exactly those commands to the history |
| Properties.InitialConsistent | game/board.go:14-29 | a new board's history replays to the board itself |
| Properties.EffectKeepsConsistent | game/board.go:94-105 | a successful `MakeEffect` keeps the history a replay of the board |
| Properties.UndoSucceeds | game/board.go:63-77 | on a consistent board, undoing up to the history's length never fails, keeps exactly the prefix, and leaves a consistent board |
| Properties.UndoMinCountWraps | game/board.go:64-67 | with the most negative count, `len - num` wraps below zero, so undo reports "out of range" instead of panicking |
| Properties.UndoAfterEffect | game/board_test.go:26-36 | making a command and then undoing one step gives back the state from before |
| Properties.LogsOfConsistent | game/board.go:44-53 | on a consistent board the log has one description per history entry, in order |
| Scenarios.InitialShows | game/board.go:22-26 | the initial grid shows BLACK on (4,3) and (3,4), WHITE on (3,3) and (4,4), and nothing else |
| Scenarios.SetShows | game/board.go:172-179 | `placePiece` moves one cell into the writer's picture |
| Scenarios.PlayShows | game/place.go:23-35 | playing a hint moves the target and the flipped cells into the mover's picture and out of the opponent's |
| Scenarios.Hints0 | game/board_test.go:52-53 | from the opening, BLACK has exactly the four usual moves |
| Scenarios.Hints1 | game/board_test.go:52-53 | WHITE's hints before the second move of the game, the same position as the hints test |
| Scenarios.Hints2 | game/board_test.go:52-53 | BLACK's four hints before the third move |
| Scenarios.Hints3 | game/board_test.go:52-53 | WHITE's five hints before the fourth move |
| Scenarios.Hints4 | game/board_test.go:52-53 | BLACK's nine hints before the fifth move, two pairs of them sharing a target |
| Scenarios.Turn | game/board_test.go:58-73 | before each move, the wanted cell has exactly one hint, and playing it gives the next picture |
| Scenarios.GameTest | game/board_test.go:38-80 | every step of the game test succeeds, and the final score is BLACK 8, WHITE 1 |
| Scenarios.HintsTest | game/board_test.go:9-24 | after the two writes, WHITE has exactly three hints, namely the three named ones |
| Scenarios.FailedPlacementKeepsPiece | game/place.go:23-35 | on a new board, BLACK at (0, 0) with a flip of the missing cell (9, 9) fails with `InvalidOperation` and leaves BLACK written at (0, 0) |
| Scenarios.OpeningUndone | game/board_test.go:26-36 | any of WHITE's opening hints becomes the only history entry, and replaying without it gives back the initial state |
| Scenarios.UndoTest | game/board_test.go:26-36 | making any of WHITE's opening hints and undoing one step gives back a new board's grid |

## Left out

- Go's randomised map iteration: both `Hints` and `Score` visit the keys in any order (a `:|` choice). The model shows the result does not depend on that order, but it does not model one particular order.
- Engine.Board.Hints: it requires `c != None`. In the source, `Hints(None)` starts a scan expecting `None` from every key that holds `None`. Such a scan stops without a move at the first piece it meets, so `Hints(None)` never finds a hint. On a grid with no `None` key (a full board) it returns no hints. But when some scan meets no piece before the keys run out, the scan recurses forever, because every missing key reads `None`. This already happens on the initial board.
- Engine.Board.Undo: it requires a count that fits in an `int`, and a negative one only when `len - num` wraps below zero (`math.MinInt64`, say), which the source reports as "out of range". For any other negative `num` the source slices the history beyond its length: past its capacity Go panics at once, and within its capacity the loop first replays the real entries (returning the error of the first one that fails), and after them reaches a nil `Command` and Go panics in `MakeEffect`.
- Go's 64-bit `int`: coordinates and counts are unbounded integers. Wrap-around is modelled only in `Undo`'s subtraction; a step of `next` from a coordinate of ±2^63, or a count past 2^63, would wrap in Go and does not here.
- Engine.Board.WhoesTurn: it requires a non-empty history. On an empty history the source indexes `history[-1]`, and Go panics.
- The `panic("invalid direction")` of `next`: it cannot be reached with the eight-valued direction type, so the model has no such branch.
- Error messages: `errors.New` strings are modelled as error kinds, so the text of an error is not modelled.
- Pointer aliasing of the Go value receivers: `Board` is a Go value with a slice and a map inside. The model's `Board` is a class, and every copy the source makes (`Clone`, `newBoard`) is a fresh object.
- `Color.String`: only as the name text used in log lines (`ColorName`); the `Stringer` interface and `fmt` formatting in general are not modelled.
- The test output (`t.Log`, `fmt.Println(board.Logs())`, `t.Error`): printing is not modelled. The test methods return the values the tests check.
- The `Command` interface declaration is not part of this model. The model derives its shape from the three implementations.
