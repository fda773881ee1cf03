/** Laws that relate the operations of the board engine to one another: what a
    hint does when it is played, how the score moves, and why replaying the
    history rebuilds the board (game/board.go, game/place.go, game/flip.go,
    game/skip.go). */
module Properties {
  import opened Geometry
  import opened Grid
  import opened Commands
  import opened Moves
  import opened Engine

  // ---------------------------------------------------------------------------
  // Playing a hint

  /** The cells a list of flips names. */
  function FlipCells(fs: seq<FlipPiece>): set<Place>
  {
    set i | 0 <= i < |fs| :: fs[i].place
  }

  /** Flips over pairwise different cells that all hold the opponent of `c` all
      succeed; afterwards those cells hold `c`, every other cell is unchanged, and
      each flip moves one cell from the opponent's count to `c`'s. */
  lemma {:induction false} ApplyOpponentFlips(g: Pieces, c: Color, fs: seq<FlipPiece>)
    requires c != None
    requires forall i :: 0 <= i < |fs| ==> Lookup(g, fs[i].place) == Opposite(c)
    requires forall i, j :: 0 <= i < j < |fs| ==> fs[i].place != fs[j].place
    ensures ApplyFlips(g, fs).Ok?
    ensures ApplyFlips(g, fs).value.Keys == g.Keys
    ensures forall q :: Lookup(ApplyFlips(g, fs).value, q) == if q in FlipCells(fs) then c else Lookup(g, q)
    ensures Count(ApplyFlips(g, fs).value, c) == Count(g, c) + |fs|
    ensures Count(ApplyFlips(g, fs).value, Opposite(c)) == Count(g, Opposite(c)) - |fs|
    decreases |fs|
  {
    if fs != [] {
      var p := fs[0].place;
      LookupPresent(g, p);
      OppositeInvolution(c);
      var g1 := g[p := c];
      assert FlipGrid(fs[0], g) == Ok(g1);
      CountUpdate(g, p, c, c);
      CountUpdate(g, p, c, Opposite(c));
      forall i | 0 <= i < |fs[1..]| ensures Lookup(g1, fs[1..][i].place) == Opposite(c) {
        assert fs[1..][i] == fs[i + 1];
      }
      ApplyOpponentFlips(g1, c, fs[1..]);
      assert FlipCells(fs) == {p} + FlipCells(fs[1..]);
    }
  }

  /** Playing a hint for `c` on the grid it came from succeeds: the target and
      every flipped cell then hold `c`, every other cell is unchanged, `c` gains
      the flips plus the placed piece and the opponent loses the flips. */
  lemma HintApplies(g: Pieces, c: Color, h: Command)
    requires c != None
    requires h in HintSet(g, c)
    ensures CommitGrid(h, g).Ok?
    ensures CommitGrid(h, g).value.Keys == g.Keys + {h.place}
    ensures Lookup(CommitGrid(h, g).value, h.place) == c
    ensures forall i :: 0 <= i < |h.flips| ==> Lookup(CommitGrid(h, g).value, h.flips[i].place) == c
    ensures forall q :: q != h.place && q !in FlipCells(h.flips) ==> Lookup(CommitGrid(h, g).value, q) == Lookup(g, q)
    ensures Count(CommitGrid(h, g).value, c) == Count(g, c) + Score(h) + 1
    ensures Count(CommitGrid(h, g).value, Opposite(c)) == Count(g, Opposite(c)) - Score(h)
  {
    HintSetExact(g, c, h);
    var o, d, k :| o in g && g[o] == c && CaptureLine(g, c, o, d, k) && h == LineHint(c, o, d, k);
    LineDistinct(o, d, k);
    var target := h.place;
    var g1 := g[target := c];
    assert SetPiece(g, target.x, target.y, c) == Ok(g1);
    CountUpdate(g, target, c, c);
    CountUpdate(g, target, c, Opposite(c));
    forall i | 0 <= i < |h.flips| ensures Lookup(g1, h.flips[i].place) == Opposite(c) {
      assert h.flips[i].place == Step(o, d, i + 1) != target;
    }
    ApplyOpponentFlips(g1, c, h.flips);
    forall i | 0 <= i < |h.flips| ensures h.flips[i].place in FlipCells(h.flips) {
    }
  }

  /** A placement whose first flip fails leaves exactly its own piece written. */
  lemma PartlyPlacedFirstFlip(before: Pieces, who: Color, place: Place, flips: seq<FlipPiece>, after: Pieces, e: Error)
    requires PartlyPlaced(before, who, place, flips, after, e)
    requires FlipGrid(flips[0], before[place := who]).Err?
    ensures after == before[place := who]
  {
    var k :| 0 <= k < |flips| && ApplyFlips(before[place := who], flips[..k]) == Ok(after)
      && FlipGrid(flips[k], after) == Err(e);
    if k > 0 {
      assert false;
    }
  }

  // ---------------------------------------------------------------------------
  // Single effects

  /** A flip made through `MakeEffect` is never recorded in the history. */
  lemma FlipNotRecorded(s: State, f: FlipPiece)
    ensures Effect(s, Flip(f)).Ok? ==> Effect(s, Flip(f)).value.history == s.history
    ensures Effect(s, Flip(f)).Err? <==> Lookup(s.pieces, f.place) == None
  {
    FlipSemantics(f, s.pieces);
  }

  /** A pass always succeeds and leaves the grid alone; a pass by a player is
      recorded, and a pass by `None` changes nothing at all. */
  lemma SkipEffect(s: State, who: Color)
    ensures Effect(s, Skip(who)).Ok?
    ensures Effect(s, Skip(who)).value.pieces == s.pieces
    ensures who != None ==> Effect(s, Skip(who)).value.history == s.history + [Skip(who)]
    ensures who == None ==> Effect(s, Skip(who)) == Ok(s)
  {
  }

  /** A placement's flips go through `MakeEffect` without an actor, so the only
      entry a played placement adds to the history is the placement itself, and
      only when its player is not `None`. */
  lemma PlacementRecordedOnce(s: State, h: Command)
    requires h.PlacePiece?
    requires Effect(s, h).Ok?
    ensures |Effect(s, h).value.history| == |s.history| + (if h.who != None then 1 else 0)
    ensures h.who != None ==> Effect(s, h).value.history[|s.history|] == h
  {
  }

  // ---------------------------------------------------------------------------
  // History and replay

  /** Every command in `cmds` has a player, so `MakeEffect` records each of them. */
  ghost predicate Recorded(cmds: seq<Command>)
  {
    forall i :: 0 <= i < |cmds| ==> WhoDoes(cmds[i]) != None
  }

  /** Replaying `a + b` is replaying `a`, then `b` from where `a` stopped. */
  lemma {:induction false} ReplayAppend(s: State, a: seq<Command>, b: seq<Command>)
    ensures Replay(s, a + b) ==
      match Replay(s, a)
      case Err(e) => Err(e)
      case Ok(s1) => Replay(s1, b)
    decreases |a|
  {
    if a == [] {
      assert a + b == b;
    } else {
      assert (a + b)[0] == a[0] && (a + b)[1..] == a[1..] + b;
      match Effect(s, a[0])
      case Err(e) =>
      case Ok(s1) => ReplayAppend(s1, a[1..], b);
    }
  }

  /** Replaying recorded commands appends exactly those commands to the history. */
  lemma {:induction false} ReplayRecords(s: State, cmds: seq<Command>)
    requires Recorded(cmds)
    ensures Replay(s, cmds).Ok? ==> Replay(s, cmds).value.history == s.history + cmds
    decreases |cmds|
  {
    if cmds != [] {
      match Effect(s, cmds[0])
      case Err(e) =>
      case Ok(s1) =>
        assert Recorded(cmds[1..]) by {
          forall i | 0 <= i < |cmds[1..]| ensures WhoDoes(cmds[1..][i]) != None {
            assert cmds[1..][i] == cmds[i + 1];
          }
        }
        ReplayRecords(s1, cmds[1..]);
        assert s1.history == s.history + [cmds[0]];
        assert s.history + [cmds[0]] + cmds[1..] == s.history + cmds;
    }
  }

  /** The invariant `Undo` relies on: the history holds only commands with a
      player, and replaying it from the initial board rebuilds this very state. */
  ghost predicate Consistent(s: State)
  {
    Recorded(s.history) && Replay(Initial, s.history) == Ok(s)
  }

  /** `NewBoard` is consistent. */
  lemma InitialConsistent()
    ensures Consistent(Initial)
  {
  }

  /** `MakeEffect` of a command with a player keeps the board consistent. */
  lemma EffectKeepsConsistent(s: State, c: Command)
    requires Consistent(s)
    requires WhoDoes(c) != None
    requires Effect(s, c).Ok?
    ensures Consistent(Effect(s, c).value)
  {
    var s1 := Effect(s, c).value;
    ReplayAppend(Initial, s.history, [c]);
    assert Replay(s1, []) == Ok(s1);
  }

  /** On a consistent board an undo by any `n` up to the history's length never
      fails, and leads to the consistent state whose history is the kept prefix. */
  lemma UndoSucceeds(s: State, n: nat)
    requires Consistent(s)
    requires n <= |s.history|
    ensures var kept := s.history[..|s.history| - n];
      Replay(Initial, kept).Ok? && Replay(Initial, kept).value.history == kept
      && Consistent(Replay(Initial, kept).value)
  {
    var k := |s.history| - n;
    var kept := s.history[..k];
    assert s.history == kept + s.history[k..];
    ReplayAppend(Initial, kept, s.history[k..]);
    assert Recorded(kept) by {
      forall i | 0 <= i < |kept| ensures WhoDoes(kept[i]) != None {
        assert kept[i] == s.history[i];
      }
    }
    ReplayRecords(Initial, kept);
  }

  /** The most negative count wraps around: `len(history) - num` overflows to a
      negative `int`, so the undo reports "out of range" rather than panicking. */
  lemma UndoMinCountWraps(n: nat)
    requires n <= IntMax
    ensures WrapInt(n - IntMin) == n + IntMin
    ensures WrapInt(n - IntMin) < 0
  {
    var m := 0x1_0000_0000_0000_0000;
    assert n - IntMin - IntMin == n + m;
    assert (n + m) % m == n;
  }

  /** The round trip of the source's undo test: on a consistent board, making a
      command with a player and then undoing one step gives back the state from
      before the command. */
  lemma UndoAfterEffect(s: State, c: Command)
    requires Consistent(s)
    requires WhoDoes(c) != None
    requires Effect(s, c).Ok?
    ensures var s1 := Effect(s, c).value;
      |s1.history| >= 1 && Replay(Initial, s1.history[..|s1.history| - 1]) == Ok(s)
  {
    var s1 := Effect(s, c).value;
    assert s1.history[..|s1.history| - 1] == s.history;
  }

  /** The log of a consistent board describes every history entry, in order. */
  lemma LogsOfConsistent(s: State)
    requires Consistent(s)
    ensures |LogsOf(s.history)| == |s.history|
    ensures forall i :: 0 <= i < |s.history| ==> LogsOf(s.history)[i] == Describe(s.history[i])
  {
    LogsOfRecorded(s.history);
  }
}
