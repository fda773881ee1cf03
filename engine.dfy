/** The board (game/board.go `Board`) and the `Commit` methods of the three
    commands (game/place.go, game/flip.go, game/skip.go). The board owns the grid
    and the history; every change goes through `MakeEffect`, which commits on a
    copy and keeps the copy only when the commit succeeds. */
module Engine {
  import opened Geometry
  import opened Grid
  import opened Commands
  import opened Moves

  /** What a Go `error` return carries: nothing, or an error kind. */
  datatype Outcome = Pass | Fail(error: Error)

  /** The range of Go's 64-bit `int`. */
  const IntMin: int := -0x8000_0000_0000_0000
  const IntMax: int := 0x7fff_ffff_ffff_ffff

  /** `i` fits in a Go `int`. */
  predicate IsInt(i: int)
  {
    IntMin <= i <= IntMax
  }

  /** The Go `int` an exact result wraps around to. */
  function WrapInt(i: int): (r: int)
    ensures IsInt(r)
    ensures IsInt(i) ==> r == i
    ensures (i - r) % 0x1_0000_0000_0000_0000 == 0
  {
    (i - IntMin) % 0x1_0000_0000_0000_0000 + IntMin
  }

  /** The whole state of a board, as a value. */
  datatype State = State(pieces: Pieces, history: seq<Command>)

  /** The state `NewBoard` returns. */
  const Initial: State := State(InitialGrid(), [])

  /** What `MakeEffect` does to a board state: commit `c` on the grid; on success
      keep the new grid and record `c` when it has an actor; on failure nothing. */
  function Effect(s: State, c: Command): Result<State>
  {
    match CommitGrid(c, s.pieces)
    case Err(e) => Err(e)
    case Ok(g) => Ok(State(g, if WhoDoes(c) != None then s.history + [c] else s.history))
  }

  /** `MakeEffect` applied to each of `cmds` in turn, stopping at the first failure. */
  function Replay(s: State, cmds: seq<Command>): Result<State>
    decreases |cmds|
  {
    if cmds == [] then Ok(s)
    else match Effect(s, cmds[0])
      case Err(e) => Err(e)
      case Ok(s1) => Replay(s1, cmds[1..])
  }

  /** Nesting depth of a command: a placement commits flips through `MakeEffect`. */
  function Depth(c: Command): nat
  {
    if c.PlacePiece? then 1 else 0
  }

  class Board {
    var history: seq<Command>
    var pieces: Pieces

    /** The board's state as a value. */
    function Snapshot(): State
      reads this
    {
      State(pieces, history)
    }

    /** `NewBoard`: every cell of the square written empty, row by row, then the
        four centre cells seeded; no history. */
    constructor NewBoard()
      ensures Snapshot() == Initial
    {
      history := [];
      pieces := map[];
      new;
      for y := 0 to BoardSize
        invariant history == []
        invariant pieces == map p | p in Written(y, 0) :: None
      {
        for x := 0 to BoardSize
          invariant history == []
          invariant pieces == map p | p in Written(y, x) :: None
        {
          assert Written(y, x + 1) == Written(y, x) + {Place(x, y)};
          var _ := PlacePieceAt(x, y, None);
        }
        assert Written(y, BoardSize) == Written(y + 1, 0);
      }
      assert Written(BoardSize, 0) == Square();
      var _ := PlacePieceAt(3, 3, White);
      var _ := PlacePieceAt(4, 3, Black);
      var _ := PlacePieceAt(3, 4, Black);
      var _ := PlacePieceAt(4, 4, White);
    }

    /** `placePiece`: write `c` at (x, y); the bounds check always passes, so it
        never fails, and a missing key is added. */
    method PlacePieceAt(x: int, y: int, c: Color) returns (err: Outcome)
      modifies this
      ensures err == Pass
      ensures SetPiece(old(pieces), x, y, c) == Ok(pieces)
      ensures history == old(history)
    {
      var place := Place(x, y);
      if !InBound(place) {
        return Fail(OutOfRange);
      }
      pieces := pieces[place := c];
      return Pass;
    }

    /** `Clone`: a new board with a copy of the history and of every grid entry. */
    method Clone() returns (nb: Board)
      ensures fresh(nb)
      ensures nb.Snapshot() == Snapshot()
    {
      var h := history;
      var p: Pieces := map[];
      var todo := pieces.Keys;
      while todo != {}
        invariant todo <= pieces.Keys
        invariant p == map k | k in pieces.Keys - todo :: pieces[k]
        decreases todo
      {
        var k :| k in todo;
        p := p[k := pieces[k]];
        todo := todo - {k};
      }
      nb := new Board.NewBoard();
      nb.history := h;
      nb.pieces := p;
    }

    /** `Pieces`: a copy of the grid, taken through `Clone`. */
    method Pieces() returns (m: Pieces)
      ensures m == pieces
    {
      var nb := Clone();
      m := nb.pieces;
    }

    /** `WhoesTurn`: the opponent of whoever acted last; the source indexes the
        last history entry, so an empty history is excluded. */
    function WhoesTurn(): (r: Color)
      reads this
      requires |history| > 0
      ensures Opposite(r) == WhoDoes(history[|history| - 1])
    {
      OppositeInvolution(WhoDoes(history[|history| - 1]));
      Opposite(WhoDoes(history[|history| - 1]))
    }

    /** `Logs`: the description of every history entry that has an actor. */
    method Logs() returns (logs: seq<string>)
      ensures logs == LogsOf(history)
    {
      logs := [];
      for i := 0 to |history|
        invariant logs == LogsOf(history[..i])
      {
        assert history[..i + 1][..i] == history[..i];
        var c := history[i];
        if WhoDoes(c) == None {
          continue;
        }
        logs := logs + [Describe(c)];
      }
      assert history[..|history|] == history;
    }

    /** `Score`: the number of BLACK and of WHITE cells, both keys always present. */
    method Score() returns (m: map<Color, int>)
      ensures m.Keys == {Black, White}
      ensures m[Black] == Count(pieces, Black) && m[White] == Count(pieces, White)
    {
      m := map[Black := 0, White := 0];
      var todo := pieces.Keys;
      while todo != {}
        invariant todo <= pieces.Keys
        invariant m.Keys == {Black, White}
        invariant m[Black] == |CellsAmong(pieces, pieces.Keys - todo, Black)|
        invariant m[White] == |CellsAmong(pieces, pieces.Keys - todo, White)|
        decreases todo
      {
        var k :| k in todo;
        CellsAmongAdd(pieces, pieces.Keys - todo, k, Black);
        CellsAmongAdd(pieces, pieces.Keys - todo, k, White);
        assert pieces.Keys - (todo - {k}) == (pieces.Keys - todo) + {k};
        var c := pieces[k];
        if c == Black {
          m := m[Black := m[Black] + 1];
        }
        if c == White {
          m := m[White := m[White] + 1];
        }
        todo := todo - {k};
      }
      assert pieces.Keys - todo == pieces.Keys;
      assert CellsAmong(pieces, pieces.Keys, Black) == Cells(pieces, Black);
      assert CellsAmong(pieces, pieces.Keys, White) == Cells(pieces, White);
    }

    /** `Hints`: every placement a scan finds from a piece of `c`; see `HintSet`
        for what they are. A request for `None` scans from the empty keys for
        `None`: it never finds a hint, and it does not return when one of those
        scans meets no piece before the keys run out (as on `NewBoard`). */
    method Hints(c: Color) returns (hs: set<Command>)
      requires c != None
      ensures hs == HintSet(pieces, c)
    {
      hs := {};
      var todo := pieces.Keys;
      while todo != {}
        invariant todo <= pieces.Keys
        invariant hs == HintsAmong(pieces, c, pieces.Keys - todo)
        decreases todo
      {
        var place :| place in todo;
        var color := pieces[place];
        HintsAmongAdd(pieces, c, pieces.Keys - todo, place);
        assert pieces.Keys - (todo - {place}) == (pieces.Keys - todo) + {place};
        todo := todo - {place};
        if color != c {
          continue;
        }
        ghost var before := hs;
        for i := 0 to |Directions|
          invariant hs == before + OriginHints(pieces, c, place, Directions[..i])
        {
          OriginHintsStep(pieces, c, place, Directions, i);
          var d := Directions[i];
          var res := Scan(pieces, Opposite(c), d, Path(Next(place, d), []));
          if res.Found? {
            hs := hs + {PlacePiece(c, res.path.current, IntoFlips(res.path))};
          }
        }
        assert Directions[..|Directions|] == Directions;
      }
    }

    /** `MakeEffect`: commit `c` on a clone; on success the clone becomes the board
        and `c` is recorded when it has an actor; on failure nothing changes. */
    method MakeEffect(c: Command) returns (err: Outcome)
      modifies this
      decreases Depth(c), 2
      ensures match Effect(old(Snapshot()), c)
        case Ok(s) => err == Pass && Snapshot() == s
        case Err(e) => err == Fail(e) && Snapshot() == old(Snapshot())
      ensures err == Pass && WhoDoes(c) != None ==> |history| > 0 && WhoesTurn() == Opposite(WhoDoes(c))
    {
      var nb := Clone();
      err := Commit(c, nb);
      if err.Fail? {
        return;
      }
      pieces, history := nb.pieces, nb.history;
      if WhoDoes(c) != None {
        history := history + [c];
      }
    }

    /** `Undo(num)`: rebuild from `NewBoard` by replaying all but the last `num`
        history entries; too large a `num` is an error, and so is a failing
        replay, and either leaves the board as it was. The count of entries to
        keep is computed in Go's wrapping `int` arithmetic; a negative `num` is
        admitted only where that count wraps below zero, since otherwise the
        source reads past the end of the history and panics. */
    method Undo(num: int) returns (err: Outcome)
      requires IsInt(num) && |history| <= IntMax
      requires num >= 0 || WrapInt(|history| - num) < 0
      modifies this
      ensures var kept := WrapInt(|old(history)| - num);
        if kept < 0 then err == Fail(OutOfRange) && Snapshot() == old(Snapshot())
        else match Replay(Initial, old(history)[..kept])
          case Ok(s) => err == Pass && Snapshot() == s
          case Err(e) => err == Fail(e) && Snapshot() == old(Snapshot())
    {
      var numToCommit := WrapInt(|history| - num);
      if numToCommit < 0 {
        return Fail(OutOfRange);
      }
      var newBoard := new Board.NewBoard();
      var cmds := history[..numToCommit];
      for i := 0 to |cmds|
        invariant Snapshot() == old(Snapshot())
        invariant Replay(Initial, cmds) == Replay(newBoard.Snapshot(), cmds[i..])
      {
        err := newBoard.MakeEffect(cmds[i]);
        if err.Fail? {
          return;
        }
      }
      pieces, history := newBoard.pieces, newBoard.history;
      err := Pass;
    }
  }

  /** The interface call `c.Commit(b)`: dispatch on the kind of command. A commit
      never touches the history; what it does to the grid is `CommitGrid`. A
      failed flip leaves the grid alone, but a failed placement is not undone:
      its piece and the flips before the failing one stay on the board. */
  method Commit(c: Command, b: Board) returns (err: Outcome)
    modifies b
    decreases Depth(c), 1
    ensures b.history == old(b.history)
    ensures match CommitGrid(c, old(b.pieces))
      case Ok(g) => err == Pass && b.pieces == g
      case Err(e) =>
        && err == Fail(e)
        && (c.Flip? ==> b.pieces == old(b.pieces))
        && (c.PlacePiece? ==> PartlyPlaced(old(b.pieces), c.who, c.place, c.flips, b.pieces, e))
  {
    match c
    case PlacePiece(who, place, flips) =>
      err := CommitPlacePiece(who, place, flips, b);
    case Flip(f) =>
      err := CommitFlipPiece(f, b);
    case Skip(_) =>
      // a pass changes nothing
      err := Pass;
  }

  /** What a failed placement leaves on grid `after`, starting from `before`:
      `who` written at `place` and the flips before some flip `k` made, where
      flip `k` fails with `e`. */
  ghost predicate PartlyPlaced(before: Pieces, who: Color, place: Place, flips: seq<FlipPiece>, after: Pieces, e: Error)
  {
    exists k :: 0 <= k < |flips| && ApplyFlips(before[place := who], flips[..k]) == Ok(after)
      && FlipGrid(flips[k], after) == Err(e)
  }

  /** `PlacePiece.Commit`: write `who` at `place` (whatever the cell held), then
      make each flip in turn through `MakeEffect`, returning the first failure
      and leaving the grid as far as it got. */
  method CommitPlacePiece(who: Color, place: Place, flips: seq<FlipPiece>, b: Board) returns (err: Outcome)
    modifies b
    decreases 1, 0
    ensures b.history == old(b.history)
    ensures match CommitGrid(PlacePiece(who, place, flips), old(b.pieces))
      case Ok(g) => err == Pass && b.pieces == g
      case Err(e) => err == Fail(e) && PartlyPlaced(old(b.pieces), who, place, flips, b.pieces, e)
  {
    err := b.PlacePieceAt(place.x, place.y, who);
    if err.Fail? {
      return;
    }
    ghost var placed := b.pieces;
    for i := 0 to |flips|
      invariant err == Pass
      invariant b.history == old(b.history)
      invariant ApplyFlips(placed, flips) == ApplyFlips(b.pieces, flips[i..])
      invariant ApplyFlips(placed, flips[..i]) == Ok(b.pieces)
    {
      assert flips[i..][0] == flips[i] && flips[i..][1..] == flips[i + 1..];
      ghost var current := b.pieces;
      err := b.MakeEffect(Flip(flips[i]));
      if err.Fail? {
        assert FlipGrid(flips[i], b.pieces) == Err(err.error);
        return;
      }
      ApplyFlipsPrefix(placed, flips[..i + 1], i);
      assert flips[..i + 1][..i] == flips[..i];
      assert flips[..i + 1][i..] == [flips[i]];
    }
  }

  /** `FlipPiece.Commit`: an empty cell cannot be flipped; any other takes the
      opposite colour. */
  method CommitFlipPiece(f: FlipPiece, b: Board) returns (err: Outcome)
    modifies b
    ensures b.history == old(b.history)
    ensures match FlipGrid(f, old(b.pieces))
      case Ok(g) => err == Pass && b.pieces == g
      case Err(e) => err == Fail(e) && b.pieces == old(b.pieces)
  {
    match GetPiece(b.pieces, f.place.x, f.place.y)
    case Err(e) =>
      return Fail(e);
    case Ok(color) =>
      if color == None {
        return Fail(InvalidOperation);
      }
      err := b.PlacePieceAt(f.place.x, f.place.y, Opposite(color));
  }

  /** The log lines of a history: one `Describe` per entry that has an actor. */
  function LogsOf(hs: seq<Command>): (r: seq<string>)
    ensures |r| <= |hs|
  {
    if hs == [] then []
    else
      var c := hs[|hs| - 1];
      LogsOf(hs[..|hs| - 1]) + (if WhoDoes(c) == None then [] else [Describe(c)])
  }

  /** When every entry has an actor, the log holds exactly one description per
      entry, in order. */
  lemma {:induction false} LogsOfRecorded(hs: seq<Command>)
    requires forall i :: 0 <= i < |hs| ==> WhoDoes(hs[i]) != None
    ensures |LogsOf(hs)| == |hs|
    ensures forall i :: 0 <= i < |hs| ==> LogsOf(hs)[i] == Describe(hs[i])
    decreases |hs|
  {
    if hs != [] {
      var front := hs[..|hs| - 1];
      forall i | 0 <= i < |front| ensures WhoDoes(front[i]) != None {
        assert front[i] == hs[i];
      }
      LogsOfRecorded(front);
      var last := hs[|hs| - 1];
      assert WhoDoes(last) != None;
      var logs := LogsOf(front) + [Describe(last)];
      assert LogsOf(hs) == logs;
      forall i | 0 <= i < |hs| ensures logs[i] == Describe(hs[i]) {
        if i < |front| {
          assert logs[i] == LogsOf(front)[i];
        }
      }
    }
  }
}
