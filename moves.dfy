/** Move generation (game/board.go `Hints`, `scan`, `path`): from every piece of
    the mover's colour, walk each direction over the opponent's pieces and offer
    the empty cell that ends the run. */
module Moves {
  import opened Geometry
  import opened Grid
  import opened Commands

  /** A walk in progress: the cell being looked at and the cells passed so far. */
  datatype Path = Path(current: Place, log: seq<Place>)

  /** `walkNext`: remember the current cell and move one step on. */
  function WalkNext(p: Path, d: Direction): Path
  {
    Path(Next(p.current, d), p.log + [p.current])
  }

  /** `intoFlips`: one flip for each cell the walk passed, in walking order. */
  function IntoFlips(p: Path): (r: seq<FlipPiece>)
    ensures |r| == |p.log|
    ensures forall i :: 0 <= i < |r| ==> r[i].place == p.log[i]
  {
    seq(|p.log|, i requires 0 <= i < |p.log| => FlipPiece(p.log[i]))
  }

  /** The outcome of `scan`: no move, or the path that ends on the destination. */
  datatype ScanResult = NoMove | Found(path: Path)

  /** An upper bound of `Proj(_, d)` over a finite set of cells; it bounds how far
      a walk can go while it keeps meeting pieces. */
  ghost function MaxProj(s: set<Place>, d: Direction): (m: int)
    ensures forall p :: p in s ==> Proj(p, d) <= m
  {
    if s == {} then 0
    else
      var p :| p in s;
      var rest := MaxProj(s - {p}, d);
      if Proj(p, d) > rest then Proj(p, d) else rest
  }

  /** `scan`: keep walking while the cell holds `want`; stop with a move on an
      empty cell reached after at least one such cell. Only a colour other than
      `None` can be expected: a walk expecting `None` stops without a move at
      the first piece, but runs forever when it meets no piece before the keys
      run out, since every missing key reads `None`. */
  function Scan(g: Pieces, want: Color, d: Direction, p: Path): ScanResult
    requires want != None
    decreases MaxProj(g.Keys, d) - Proj(p.current, d)
  {
    match GetPiece(g, p.current.x, p.current.y)
    case Err(_) => NoMove
    case Ok(color) =>
      if color == want then
        NextAdvances(p.current, d);
        Scan(g, want, d, WalkNext(p, d))
      else if color == None && |p.log| > 0 then Found(p)
      else NoMove
  }

  /** The scan `Hints` starts from origin `o` in direction `d` for mover `c`. */
  function ScanFrom(g: Pieces, c: Color, o: Place, d: Direction): ScanResult
    requires c != None
  {
    Scan(g, Opposite(c), d, Path(Next(o, d), []))
  }

  /** The placement `Hints` builds from a successful scan. */
  function HintOf(c: Color, p: Path): Command
  {
    PlacePiece(c, p.current, IntoFlips(p))
  }

  /** The hints for `c` grouped as `Hints` finds them: one per pair of an origin
      holding `c` among `origins` and a direction whose scan succeeds. */
  function HintsAmong(g: Pieces, c: Color, origins: set<Place>): set<Command>
    requires c != None
  {
    set o, d | o in origins && o in g && g[o] == c && d in Directions && ScanFrom(g, c, o, d).Found?
      :: HintOf(c, ScanFrom(g, c, o, d).path)
  }

  /** What `Hints(c)` returns, as a set: the source iterates a Go map, so the
      order of its list is not determined. */
  function HintSet(g: Pieces, c: Color): set<Command>
    requires c != None
  {
    HintsAmong(g, c, g.Keys)
  }

  /** The hints one origin `o` contributes over the directions `ds`. */
  function OriginHints(g: Pieces, c: Color, o: Place, ds: seq<Direction>): set<Command>
    requires c != None
  {
    set d | d in ds && ScanFrom(g, c, o, d).Found? :: HintOf(c, ScanFrom(g, c, o, d).path)
  }

  /** Trying one more direction adds that direction's hint, if its scan succeeds. */
  lemma OriginHintsStep(g: Pieces, c: Color, o: Place, ds: seq<Direction>, i: nat)
    requires c != None
    requires i < |ds|
    ensures OriginHints(g, c, o, ds[..i + 1]) == OriginHints(g, c, o, ds[..i]) +
      (if ScanFrom(g, c, o, ds[i]).Found? then {HintOf(c, ScanFrom(g, c, o, ds[i]).path)} else {})
  {
    assert ds[..i + 1] == ds[..i] + [ds[i]];
  }

  /** Visiting one more key adds that origin's hints exactly when it holds `c`. */
  lemma HintsAmongAdd(g: Pieces, c: Color, s: set<Place>, o: Place)
    requires c != None
    ensures HintsAmong(g, c, s + {o}) == HintsAmong(g, c, s) +
      (if o in g && g[o] == c then OriginHints(g, c, o, Directions) else {})
  {
  }

  // ---------------------------------------------------------------------------
  // The capture lines the scan recognises

  /** The first `k` cells after `o` in direction `d`. */
  function LineCells(o: Place, d: Direction, k: nat): (r: seq<Place>)
    ensures |r| == k
  {
    seq(k, i requires 0 <= i < k => Step(o, d, i + 1))
  }

  /** A capture line: the `k >= 1` cells after `o` in direction `d` hold the
      opponent of `c`, and the cell after them reads empty. */
  ghost predicate CaptureLine(g: Pieces, c: Color, o: Place, d: Direction, k: nat)
  {
    && k >= 1
    && (forall i :: 1 <= i <= k ==> Lookup(g, Step(o, d, i)) == Opposite(c))
    && Lookup(g, Step(o, d, k + 1)) == None
  }

  /** The placement that captures along such a line. */
  function LineHint(c: Color, o: Place, d: Direction, k: nat): Command
  {
    HintOf(c, Path(Step(o, d, k + 1), LineCells(o, d, k)))
  }

  /** Walking one step extends the line by the cell just passed. */
  lemma WalkLine(o: Place, d: Direction, j: nat)
    ensures WalkNext(Path(Step(o, d, j + 1), LineCells(o, d, j)), d) == Path(Step(o, d, j + 2), LineCells(o, d, j + 1))
  {
    assert LineCells(o, d, j) + [Step(o, d, j + 1)] == LineCells(o, d, j + 1);
  }

  /** Soundness of `scan` from a partial line of `j` cells holding `want`: a
      move it finds ends a line of `k >= j` such cells (`k` the length of its
      log) on a cell reading empty. */
  lemma {:induction false} ScanSound(g: Pieces, want: Color, o: Place, d: Direction, j: nat)
    requires want != None
    requires forall i :: 1 <= i <= j ==> Lookup(g, Step(o, d, i)) == want
    ensures var r := Scan(g, want, d, Path(Step(o, d, j + 1), LineCells(o, d, j)));
      r.Found? ==>
        var k := |r.path.log|;
        && k >= 1 && k >= j
        && r.path == Path(Step(o, d, k + 1), LineCells(o, d, k))
        && (forall i :: 1 <= i <= k ==> Lookup(g, Step(o, d, i)) == want)
        && Lookup(g, Step(o, d, k + 1)) == None
    decreases MaxProj(g.Keys, d) - Proj(Step(o, d, j + 1), d)
  {
    var p := Path(Step(o, d, j + 1), LineCells(o, d, j));
    var color := Lookup(g, p.current);
    if color == want {
      NextAdvances(p.current, d);
      WalkLine(o, d, j);
      ScanSound(g, want, o, d, j + 1);
    }
  }

  /** Completeness of `scan`: along a line of `k` cells holding `want` that ends
      on an empty cell, the scan started after `j <= k` of them finds exactly that
      line. */
  lemma {:induction false} ScanComplete(g: Pieces, want: Color, o: Place, d: Direction, j: nat, k: nat)
    requires want != None
    requires 1 <= k && j <= k
    requires forall i :: 1 <= i <= k ==> Lookup(g, Step(o, d, i)) == want
    requires Lookup(g, Step(o, d, k + 1)) == None
    ensures Scan(g, want, d, Path(Step(o, d, j + 1), LineCells(o, d, j))) ==
      Found(Path(Step(o, d, k + 1), LineCells(o, d, k)))
    decreases k - j
  {
    if j < k {
      assert Lookup(g, Step(o, d, j + 1)) == want;
      WalkLine(o, d, j);
      ScanComplete(g, want, o, d, j + 1, k);
    }
  }

  /** The scan from an origin succeeds exactly on a capture line, and then yields
      that line's placement. */
  lemma ScanFromLine(g: Pieces, c: Color, o: Place, d: Direction)
    requires c != None
    ensures ScanFrom(g, c, o, d).Found? ==>
      var k := |ScanFrom(g, c, o, d).path.log|;
      CaptureLine(g, c, o, d, k) && HintOf(c, ScanFrom(g, c, o, d).path) == LineHint(c, o, d, k)
    ensures forall k: nat :: CaptureLine(g, c, o, d, k) ==>
      ScanFrom(g, c, o, d) == Found(Path(Step(o, d, k + 1), LineCells(o, d, k)))
  {
    assert Path(Next(o, d), []) == Path(Step(o, d, 1), LineCells(o, d, 0));
    ScanSound(g, Opposite(c), o, d, 0);
    forall k: nat | CaptureLine(g, c, o, d, k)
      ensures ScanFrom(g, c, o, d) == Found(Path(Step(o, d, k + 1), LineCells(o, d, k)))
    {
      ScanComplete(g, Opposite(c), o, d, 0, k);
    }
  }

  /** `Hints` is sound and complete: a placement is a hint for `c` exactly when it
      captures along a line that starts next to a piece of `c`. */
  lemma HintSetExact(g: Pieces, c: Color, h: Command)
    requires c != None
    ensures h in HintSet(g, c) <==>
      exists o, d, k :: o in g && g[o] == c && CaptureLine(g, c, o, d, k) && h == LineHint(c, o, d, k)
  {
    if h in HintSet(g, c) {
      var o, d :| o in g && g[o] == c && d in Directions && ScanFrom(g, c, o, d).Found?
        && h == HintOf(c, ScanFrom(g, c, o, d).path);
      ScanFromLine(g, c, o, d);
      var k := |ScanFrom(g, c, o, d).path.log|;
      assert CaptureLine(g, c, o, d, k) && h == LineHint(c, o, d, k);
    }
    if exists o, d, k :: o in g && g[o] == c && CaptureLine(g, c, o, d, k) && h == LineHint(c, o, d, k) {
      var o, d, k :| o in g && g[o] == c && CaptureLine(g, c, o, d, k) && h == LineHint(c, o, d, k);
      ScanFromLine(g, c, o, d);
      DirectionsComplete(d);
      assert h == HintOf(c, ScanFrom(g, c, o, d).path);
    }
  }

  /** What every hint looks like: placed by `c`, at least one flip, every flip on a
      cell of the opponent, the flips consecutive in one direction starting next
      to a piece of `c`, and the target the next cell in that direction, reading
      empty. */
  lemma HintSound(g: Pieces, c: Color, h: Command)
    requires c != None
    requires h in HintSet(g, c)
    ensures h.PlacePiece? && h.who == c && |h.flips| > 0
    ensures forall i :: 0 <= i < |h.flips| ==> Lookup(g, h.flips[i].place) == Opposite(c)
    ensures Lookup(g, h.place) == None
    ensures exists o, d :: o in g && g[o] == c && AlongLine(h, o, d)
  {
    HintSetExact(g, c, h);
    var o, d, k :| o in g && g[o] == c && CaptureLine(g, c, o, d, k) && h == LineHint(c, o, d, k);
    assert AlongLine(h, o, d);
  }

  /** The flips of placement `h` are the consecutive cells after `o` in direction
      `d`, and its target is the cell after the last of them. */
  ghost predicate AlongLine(h: Command, o: Place, d: Direction)
    requires h.PlacePiece?
  {
    && (forall i :: 0 <= i < |h.flips| ==> h.flips[i].place == Step(o, d, i + 1))
    && h.place == Step(o, d, |h.flips| + 1)
  }

  /** Every capture line gives a hint: for each origin holding `c` and each
      direction with a run of at least one opponent piece ending on an empty
      cell, `Hints` offers that placement. */
  lemma HintComplete(g: Pieces, c: Color, o: Place, d: Direction, k: nat)
    requires c != None
    requires o in g && g[o] == c
    requires k >= 1
    requires forall i :: 1 <= i <= k ==> Lookup(g, Step(o, d, i)) == Opposite(c)
    requires Lookup(g, Step(o, d, k + 1)) == None
    ensures PlacePiece(c, Step(o, d, k + 1), IntoFlips(Path(Step(o, d, k + 1), LineCells(o, d, k)))) in HintSet(g, c)
  {
    assert CaptureLine(g, c, o, d, k);
    HintSetExact(g, c, LineHint(c, o, d, k));
  }

  /** Different origin and direction pairs never produce the same hint, so the
      list of the source has no repeated element and has as many elements as
      this set. */
  lemma HintsDistinct(g: Pieces, c: Color, o1: Place, d1: Direction, o2: Place, d2: Direction)
    requires c != None
    requires ScanFrom(g, c, o1, d1).Found? && ScanFrom(g, c, o2, d2).Found?
    requires HintOf(c, ScanFrom(g, c, o1, d1).path) == HintOf(c, ScanFrom(g, c, o2, d2).path)
    ensures o1 == o2 && d1 == d2
  {
    ScanFromLine(g, c, o1, d1);
    ScanFromLine(g, c, o2, d2);
    var h := HintOf(c, ScanFrom(g, c, o1, d1).path);
    var k := |h.flips|;
    assert Step(o1, d1, 1) == Next(o1, d1) && Step(o2, d2, 1) == Next(o2, d2);
    assert h.flips[0].place == Next(o1, d1) == Next(o2, d2);
    assert h.flips[k - 1].place == Step(o1, d1, k) == Step(o2, d2, k);
    assert Next(Step(o1, d1, k), d1) == h.place == Next(Step(o2, d2, k), d2);
    NextInjective(Step(o1, d1, k), d1, d2);
  }

  /** The cells of a capture line are pairwise distinct, and distinct from its
      origin and its target. */
  lemma LineDistinct(o: Place, d: Direction, k: nat)
    ensures forall i, j :: 0 <= i < j < k ==> LineCells(o, d, k)[i] != LineCells(o, d, k)[j]
    ensures forall i :: 0 <= i < k ==> LineCells(o, d, k)[i] != Step(o, d, k + 1)
    ensures forall i :: 0 <= i < k ==> LineCells(o, d, k)[i] != o
  {
    forall i, j | 0 <= i < j < k ensures LineCells(o, d, k)[i] != LineCells(o, d, k)[j] {
      StepDistinct(o, d, i + 1, j + 1);
    }
    forall i | 0 <= i < k ensures LineCells(o, d, k)[i] != Step(o, d, k + 1) && LineCells(o, d, k)[i] != o {
      StepDistinct(o, d, i + 1, k + 1);
      StepDistinct(o, d, 0, i + 1);
    }
  }
}
