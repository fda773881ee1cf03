/** The concrete positions of the repository's tests (game/board_test.go), worked
    out on the model: the hints test, the undo test and the five-move game. */
module Scenarios {
  import opened Geometry
  import opened Grid
  import opened Commands
  import opened Moves
  import opened Engine
  import opened Properties

  // ---------------------------------------------------------------------------
  // Pictures of a grid

  /** Grid `g` reads BLACK exactly on `blacks`, WHITE exactly on `whites`, and
      `None` everywhere else. */
  ghost predicate Shows(g: Pieces, blacks: set<Place>, whites: set<Place>)
  {
    && blacks !! whites
    && forall p :: Lookup(g, p) == if p in blacks then Black else if p in whites then White else None
  }

  /** The initial grid's picture. */
  lemma InitialShows()
    ensures Shows(InitialGrid(), Blacks0, Whites0)
  {
  }

  /** Writing a player's colour with `placePiece` moves one cell into that
      player's picture. */
  lemma SetShows(g: Pieces, blacks: set<Place>, whites: set<Place>, x: int, y: int, c: Color)
    requires Shows(g, blacks, whites)
    requires c != None
    ensures c == Black ==> Shows(SetPiece(g, x, y, c).value, blacks + {Place(x, y)}, whites - {Place(x, y)})
    ensures c == White ==> Shows(SetPiece(g, x, y, c).value, blacks - {Place(x, y)}, whites + {Place(x, y)})
  {
  }

  /** In a picture the cells holding a colour are exactly that colour's set. */
  lemma ShowsCells(g: Pieces, blacks: set<Place>, whites: set<Place>)
    requires Shows(g, blacks, whites)
    ensures Cells(g, Black) == blacks && Cells(g, White) == whites
  {
    forall p | p in blacks ensures p in g && g[p] == Black {
      LookupPresent(g, p);
    }
    forall p | p in whites ensures p in g && g[p] == White {
      LookupPresent(g, p);
    }
  }

  /** Playing a hint moves its target and its flipped cells into the mover's
      picture and out of the opponent's. */
  lemma PlayShows(g: Pieces, blacks: set<Place>, whites: set<Place>, c: Color, h: Command,
                  blacks': set<Place>, whites': set<Place>)
    requires Shows(g, blacks, whites)
    requires c != None
    requires h in HintSet(g, c)
    requires c == Black ==> blacks' == blacks + {h.place} + FlipCells(h.flips) && whites' == whites - FlipCells(h.flips)
    requires c == White ==> whites' == whites + {h.place} + FlipCells(h.flips) && blacks' == blacks - FlipCells(h.flips)
    ensures CommitGrid(h, g).Ok?
    ensures Shows(CommitGrid(h, g).value, blacks', whites')
  {
    HintApplies(g, c, h);
    HintSound(g, c, h);
    var g' := CommitGrid(h, g).value;
    forall p ensures Lookup(g', p) == if p in blacks' then Black else if p in whites' then White else None {
      if p in FlipCells(h.flips) {
        var i :| 0 <= i < |h.flips| && h.flips[i].place == p;
        assert Lookup(g', h.flips[i].place) == c;
      }
    }
  }

  // ---------------------------------------------------------------------------
  // Walking a scan over a picture

  /** A scan walks on over a cell holding the colour it wants. */
  lemma ScanWalks(g: Pieces, want: Color, d: Direction, p: Path)
    requires want != None
    requires Lookup(g, p.current) == want
    ensures Scan(g, want, d, p) == Scan(g, want, d, WalkNext(p, d))
  {
  }

  /** A scan that starts on a cell without the wanted colour finds nothing. */
  lemma Blocked(g: Pieces, want: Color, d: Direction, a: Place)
    requires want != None
    requires Lookup(g, a) != want
    ensures Scan(g, want, d, Path(a, [])) == NoMove
  {
  }

  /** A scan over one cell of the wanted colour. */
  lemma Walk1(g: Pieces, want: Color, d: Direction, a: Place)
    requires want != None
    requires Lookup(g, a) == want
    requires Lookup(g, Next(a, d)) != want
    ensures Scan(g, want, d, Path(a, [])) ==
      if Lookup(g, Next(a, d)) == None then Found(Path(Next(a, d), [a])) else NoMove
  {
    assert WalkNext(Path(a, []), d) == Path(Next(a, d), [a]);
  }

  /** A scan over two cells of the wanted colour. */
  lemma Walk2(g: Pieces, want: Color, d: Direction, a: Place)
    requires want != None
    requires Lookup(g, a) == want && Lookup(g, Next(a, d)) == want
    requires Lookup(g, Next(Next(a, d), d)) != want
    ensures var e := Next(Next(a, d), d);
      Scan(g, want, d, Path(a, [])) == if Lookup(g, e) == None then Found(Path(e, [a, Next(a, d)])) else NoMove
  {
    var b := Next(a, d);
    assert WalkNext(Path(a, []), d) == Path(b, [a]);
    assert WalkNext(Path(b, [a]), d) == Path(Next(b, d), [a, b]);
    ScanWalks(g, want, d, Path(a, []));
    ScanWalks(g, want, d, Path(b, [a]));
  }

  /** A scan over three cells of the wanted colour. */
  lemma Walk3(g: Pieces, want: Color, d: Direction, a: Place)
    requires want != None
    requires Lookup(g, a) == want && Lookup(g, Next(a, d)) == want && Lookup(g, Next(Next(a, d), d)) == want
    requires Lookup(g, Next(Next(Next(a, d), d), d)) != want
    ensures var b, c := Next(a, d), Next(Next(a, d), d);
      var e := Next(c, d);
      Scan(g, want, d, Path(a, [])) == if Lookup(g, e) == None then Found(Path(e, [a, b, c])) else NoMove
  {
    var b, c := Next(a, d), Next(Next(a, d), d);
    assert WalkNext(Path(a, []), d) == Path(b, [a]);
    assert WalkNext(Path(b, [a]), d) == Path(c, [a, b]);
    assert WalkNext(Path(c, [a, b]), d) == Path(Next(c, d), [a, b, c]);
    ScanWalks(g, want, d, Path(a, []));
    ScanWalks(g, want, d, Path(b, [a]));
    ScanWalks(g, want, d, Path(c, [a, b]));
  }

  /** When the cells holding `c` are `s`, only the origins in `s` contribute hints. */
  lemma OriginsOnly(g: Pieces, c: Color, s: set<Place>)
    requires c != None
    requires Cells(g, c) == s
    ensures HintSet(g, c) == HintsAmong(g, c, s)
  {
    forall o | o in s ensures o in g && g[o] == c {
      assert o in Cells(g, c);
    }
  }

  /** The hints of a colour held by exactly one cell, from the hints of each. */
  lemma OneOrigin(g: Pieces, c: Color, o1: Place, s1: set<Command>)
    requires c != None
    requires Cells(g, c) == {o1}
    requires OriginHints(g, c, o1, Directions) == s1
    ensures HintSet(g, c) == s1
  {
    OriginsOnly(g, c, {o1});
    assert o1 in Cells(g, c);
    HintsAmongAdd(g, c, {}, o1);
    assert {} + {o1} == {o1};
  }

  /** The hints of a colour held by exactly two cells, from the hints of each. */
  lemma TwoOrigins(g: Pieces, c: Color, o1: Place, o2: Place, s1: set<Command>, s2: set<Command>)
    requires c != None
    requires Cells(g, c) == {o1, o2}
    requires OriginHints(g, c, o1, Directions) == s1
    requires OriginHints(g, c, o2, Directions) == s2
    ensures HintSet(g, c) == s1 + s2
  {
    OriginsOnly(g, c, {o1, o2});
    assert o1 in Cells(g, c) && o2 in Cells(g, c);
    HintsAmongAdd(g, c, {}, o1);
    assert {} + {o1} == {o1};
    HintsAmongAdd(g, c, {o1}, o2);
    assert {o1} + {o2} == {o1, o2};
  }

  /** The hints of a colour held by exactly three cells, from the hints of each. */
  lemma ThreeOrigins(g: Pieces, c: Color, o1: Place, o2: Place, o3: Place, s1: set<Command>, s2: set<Command>, s3: set<Command>)
    requires c != None
    requires Cells(g, c) == {o1, o2, o3}
    requires OriginHints(g, c, o1, Directions) == s1
    requires OriginHints(g, c, o2, Directions) == s2
    requires OriginHints(g, c, o3, Directions) == s3
    ensures HintSet(g, c) == s1 + s2 + s3
  {
    OriginsOnly(g, c, {o1, o2, o3});
    assert o1 in Cells(g, c) && o2 in Cells(g, c) && o3 in Cells(g, c);
    HintsAmongAdd(g, c, {}, o1);
    assert {} + {o1} == {o1};
    HintsAmongAdd(g, c, {o1}, o2);
    assert {o1} + {o2} == {o1, o2};
    HintsAmongAdd(g, c, {o1, o2}, o3);
    assert {o1, o2} + {o3} == {o1, o2, o3};
  }

  /** The hints of a colour held by exactly four cells, from the hints of each. */
  lemma FourOrigins(g: Pieces, c: Color, o1: Place, o2: Place, o3: Place, o4: Place, s1: set<Command>, s2: set<Command>, s3: set<Command>, s4: set<Command>)
    requires c != None
    requires Cells(g, c) == {o1, o2, o3, o4}
    requires OriginHints(g, c, o1, Directions) == s1
    requires OriginHints(g, c, o2, Directions) == s2
    requires OriginHints(g, c, o3, Directions) == s3
    requires OriginHints(g, c, o4, Directions) == s4
    ensures HintSet(g, c) == s1 + s2 + s3 + s4
  {
    OriginsOnly(g, c, {o1, o2, o3, o4});
    assert o1 in Cells(g, c) && o2 in Cells(g, c) && o3 in Cells(g, c) && o4 in Cells(g, c);
    HintsAmongAdd(g, c, {}, o1);
    assert {} + {o1} == {o1};
    HintsAmongAdd(g, c, {o1}, o2);
    assert {o1} + {o2} == {o1, o2};
    HintsAmongAdd(g, c, {o1, o2}, o3);
    assert {o1, o2} + {o3} == {o1, o2, o3};
    HintsAmongAdd(g, c, {o1, o2, o3}, o4);
    assert {o1, o2, o3} + {o4} == {o1, o2, o3, o4};
  }

  /** A hint that is the only one at its cell in a known hint set is the only one
      at that cell among the grid's hints. */
  lemma PickFrom(g: Pieces, c: Color, hints: set<Command>, target: Place, h0: Command)
    requires c != None
    requires HintSet(g, c) == hints
    requires h0 in hints
    requires forall h | h in hints && h.place == target :: h == h0
    ensures h0 in HintSet(g, c)
    ensures forall h | h in HintSet(g, c) && h.place == target :: h == h0
  {
  }

  /** The cells named by one flip. */
  lemma FlipCellsOne(a: Place)
    ensures FlipCells([FlipPiece(a)]) == {a}
  {
    assert [FlipPiece(a)][0].place == a;
  }

  /** The cells named by three flips. */
  lemma FlipCellsThree(a: Place, b: Place, c: Place)
    ensures FlipCells([FlipPiece(a), FlipPiece(b), FlipPiece(c)]) == {a, b, c}
  {
    var fs := [FlipPiece(a), FlipPiece(b), FlipPiece(c)];
    assert fs[0].place == a && fs[1].place == b && fs[2].place == c;
  }

  // ---------------------------------------------------------------------------
  // The game test: five placements, each the only hint at its target
  /** The cells of each colour after 0 moves of the game test. */
  const Blacks0: set<Place> := {Place(4, 3), Place(3, 4)}
  const Whites0: set<Place> := {Place(3, 3), Place(4, 4)}

  /** The cells of each colour after 1 move of the game test. */
  const Blacks1: set<Place> := {Place(4, 3), Place(3, 4), Place(3, 2), Place(3, 3)}
  const Whites1: set<Place> := {Place(4, 4)}

  /** The cells of each colour after 2 moves of the game test. */
  const Blacks2: set<Place> := {Place(4, 3), Place(3, 4), Place(3, 2)}
  const Whites2: set<Place> := {Place(4, 4), Place(2, 2), Place(3, 3)}

  /** The cells of each colour after 3 moves of the game test. */
  const Blacks3: set<Place> := {Place(4, 3), Place(3, 4), Place(3, 2), Place(4, 5), Place(4, 4)}
  const Whites3: set<Place> := {Place(2, 2), Place(3, 3)}

  /** The cells of each colour after 4 moves of the game test. */
  const Blacks4: set<Place> := {Place(4, 3), Place(3, 2), Place(4, 5), Place(4, 4)}
  const Whites4: set<Place> := {Place(2, 2), Place(3, 3), Place(3, 5), Place(3, 4)}

  /** The cells of each colour after 5 moves of the game test. */
  const Blacks5: set<Place> := {Place(4, 3), Place(3, 2), Place(4, 5), Place(4, 4), Place(3, 6), Place(3, 3), Place(3, 4), Place(3, 5)}
  const Whites5: set<Place> := {Place(2, 2)}

  /** The hints BLACK is offered before move 1 of the game test. */
  const Offered0: set<Command> := {
    PlacePiece(Black, Place(3, 2), [FlipPiece(Place(3, 3))]),
    PlacePiece(Black, Place(5, 4), [FlipPiece(Place(4, 4))]),
    PlacePiece(Black, Place(4, 5), [FlipPiece(Place(4, 4))]),
    PlacePiece(Black, Place(2, 3), [FlipPiece(Place(3, 3))])
  }

  /** The hints WHITE is offered before move 2 of the game test. */
  const Offered1: set<Command> := {
    PlacePiece(White, Place(4, 2), [FlipPiece(Place(4, 3))]),
    PlacePiece(White, Place(2, 4), [FlipPiece(Place(3, 4))]),
    PlacePiece(White, Place(2, 2), [FlipPiece(Place(3, 3))])
  }

  /** The hints BLACK is offered before move 3 of the game test. */
  const Offered2: set<Command> := {
    PlacePiece(Black, Place(1, 2), [FlipPiece(Place(2, 2))]),
    PlacePiece(Black, Place(5, 4), [FlipPiece(Place(4, 4))]),
    PlacePiece(Black, Place(4, 5), [FlipPiece(Place(4, 4))]),
    PlacePiece(Black, Place(2, 3), [FlipPiece(Place(3, 3))])
  }

  /** The hints WHITE is offered before move 4 of the game test. */
  const Offered3: set<Command> := {
    PlacePiece(White, Place(4, 2), [FlipPiece(Place(3, 2))]),
    PlacePiece(White, Place(3, 1), [FlipPiece(Place(3, 2))]),
    PlacePiece(White, Place(3, 5), [FlipPiece(Place(3, 4))]),
    PlacePiece(White, Place(5, 3), [FlipPiece(Place(4, 3))]),
    PlacePiece(White, Place(5, 5), [FlipPiece(Place(4, 4))])
  }

  /** The hints BLACK is offered before move 5 of the game test. */
  const Offered4: set<Command> := {
    PlacePiece(Black, Place(3, 6), [FlipPiece(Place(3, 3)), FlipPiece(Place(3, 4)), FlipPiece(Place(3, 5))]),
    PlacePiece(Black, Place(1, 2), [FlipPiece(Place(2, 2))]),
    PlacePiece(Black, Place(2, 3), [FlipPiece(Place(3, 3))]),
    PlacePiece(Black, Place(2, 5), [FlipPiece(Place(3, 4))]),
    PlacePiece(Black, Place(2, 4), [FlipPiece(Place(3, 4))]),
    PlacePiece(Black, Place(1, 1), [FlipPiece(Place(3, 3)), FlipPiece(Place(2, 2))]),
    PlacePiece(Black, Place(2, 6), [FlipPiece(Place(3, 5))]),
    PlacePiece(Black, Place(2, 5), [FlipPiece(Place(3, 5))]),
    PlacePiece(Black, Place(2, 3), [FlipPiece(Place(3, 4))])
  }

  /** The four straight scans of `Scans0From34`. */
  lemma Scans0From34Straight(g: Pieces)
    requires Shows(g, Blacks0, Whites0)
    ensures ScanFrom(g, Black, Place(3, 4), Up) == Found(Path(Place(3, 2), [Place(3, 3)]))
    ensures ScanFrom(g, Black, Place(3, 4), Down) == NoMove
    ensures ScanFrom(g, Black, Place(3, 4), Left) == NoMove
    ensures ScanFrom(g, Black, Place(3, 4), Right) == Found(Path(Place(5, 4), [Place(4, 4)]))
  {
    Walk1(g, White, Up, Place(3, 3));
    Blocked(g, White, Down, Place(3, 5));
    Blocked(g, White, Left, Place(2, 4));
    Walk1(g, White, Right, Place(4, 4));
  }

  /** The four diagonal scans of `Scans0From34`. */
  lemma Scans0From34Diagonal(g: Pieces)
    requires Shows(g, Blacks0, Whites0)
    ensures ScanFrom(g, Black, Place(3, 4), UpLeft) == NoMove
    ensures ScanFrom(g, Black, Place(3, 4), UpRight) == NoMove
    ensures ScanFrom(g, Black, Place(3, 4), DownLeft) == NoMove
    ensures ScanFrom(g, Black, Place(3, 4), DownRight) == NoMove
  {
    Blocked(g, White, UpLeft, Place(2, 3));
    Blocked(g, White, UpRight, Place(4, 3));
    Blocked(g, White, DownLeft, Place(2, 5));
    Blocked(g, White, DownRight, Place(4, 5));
  }

  /** Before move 1, the hints from BLACK's piece at (3, 4). */
  lemma Origin0From34(g: Pieces)
    requires Shows(g, Blacks0, Whites0)
    ensures OriginHints(g, Black, Place(3, 4), Directions) == {PlacePiece(Black, Place(3, 2), [FlipPiece(Place(3, 3))]), PlacePiece(Black, Place(5, 4), [FlipPiece(Place(4, 4))])}
  {
    Scans0From34Straight(g);
    Scans0From34Diagonal(g);
    assert HintOf(Black, Path(Place(3, 2), [Place(3, 3)])) == PlacePiece(Black, Place(3, 2), [FlipPiece(Place(3, 3))]);
    assert HintOf(Black, Path(Place(5, 4), [Place(4, 4)])) == PlacePiece(Black, Place(5, 4), [FlipPiece(Place(4, 4))]);
  }

  /** The four straight scans of `Scans0From43`. */
  lemma Scans0From43Straight(g: Pieces)
    requires Shows(g, Blacks0, Whites0)
    ensures ScanFrom(g, Black, Place(4, 3), Up) == NoMove
    ensures ScanFrom(g, Black, Place(4, 3), Down) == Found(Path(Place(4, 5), [Place(4, 4)]))
    ensures ScanFrom(g, Black, Place(4, 3), Left) == Found(Path(Place(2, 3), [Place(3, 3)]))
    ensures ScanFrom(g, Black, Place(4, 3), Right) == NoMove
  {
    Blocked(g, White, Up, Place(4, 2));
    Walk1(g, White, Down, Place(4, 4));
    Walk1(g, White, Left, Place(3, 3));
    Blocked(g, White, Right, Place(5, 3));
  }

  /** The four diagonal scans of `Scans0From43`. */
  lemma Scans0From43Diagonal(g: Pieces)
    requires Shows(g, Blacks0, Whites0)
    ensures ScanFrom(g, Black, Place(4, 3), UpLeft) == NoMove
    ensures ScanFrom(g, Black, Place(4, 3), UpRight) == NoMove
    ensures ScanFrom(g, Black, Place(4, 3), DownLeft) == NoMove
    ensures ScanFrom(g, Black, Place(4, 3), DownRight) == NoMove
  {
    Blocked(g, White, UpLeft, Place(3, 2));
    Blocked(g, White, UpRight, Place(5, 2));
    Blocked(g, White, DownLeft, Place(3, 4));
    Blocked(g, White, DownRight, Place(5, 4));
  }

  /** Before move 1, the hints from BLACK's piece at (4, 3). */
  lemma Origin0From43(g: Pieces)
    requires Shows(g, Blacks0, Whites0)
    ensures OriginHints(g, Black, Place(4, 3), Directions) == {PlacePiece(Black, Place(4, 5), [FlipPiece(Place(4, 4))]), PlacePiece(Black, Place(2, 3), [FlipPiece(Place(3, 3))])}
  {
    Scans0From43Straight(g);
    Scans0From43Diagonal(g);
    assert HintOf(Black, Path(Place(4, 5), [Place(4, 4)])) == PlacePiece(Black, Place(4, 5), [FlipPiece(Place(4, 4))]);
    assert HintOf(Black, Path(Place(2, 3), [Place(3, 3)])) == PlacePiece(Black, Place(2, 3), [FlipPiece(Place(3, 3))]);
  }

  /** Before move 1, every hint for BLACK; only one of them is at (3, 2). */
  lemma Hints0(g: Pieces)
    requires Shows(g, Blacks0, Whites0)
    ensures HintSet(g, Black) == Offered0
  {
    ShowsCells(g, Blacks0, Whites0);
    Origin0From34(g);
    Origin0From43(g);
    TwoOrigins(g, Black, Place(3, 4), Place(4, 3),
      {PlacePiece(Black, Place(3, 2), [FlipPiece(Place(3, 3))]), PlacePiece(Black, Place(5, 4), [FlipPiece(Place(4, 4))])},
      {PlacePiece(Black, Place(4, 5), [FlipPiece(Place(4, 4))]), PlacePiece(Black, Place(2, 3), [FlipPiece(Place(3, 3))])});
    Union0();
  }

  /** Before move 1, the hints of the origins together. */
  lemma Union0()
    ensures {PlacePiece(Black, Place(3, 2), [FlipPiece(Place(3, 3))]), PlacePiece(Black, Place(5, 4), [FlipPiece(Place(4, 4))])}
      + {PlacePiece(Black, Place(4, 5), [FlipPiece(Place(4, 4))]), PlacePiece(Black, Place(2, 3), [FlipPiece(Place(3, 3))])} ==
      Offered0
  {
  }

  /** Before move 1, the hint the game test picks is the only one at its cell. */
  lemma Only0()
    ensures PlacePiece(Black, Place(3, 2), [FlipPiece(Place(3, 3))]) in Offered0
    ensures forall h | h in Offered0 && h.place == Place(3, 2) :: h == PlacePiece(Black, Place(3, 2), [FlipPiece(Place(3, 3))])
  {
  }

  /** The four straight scans of `Scans1From44`. */
  lemma Scans1From44Straight(g: Pieces)
    requires Shows(g, Blacks1, Whites1)
    ensures ScanFrom(g, White, Place(4, 4), Up) == Found(Path(Place(4, 2), [Place(4, 3)]))
    ensures ScanFrom(g, White, Place(4, 4), Down) == NoMove
    ensures ScanFrom(g, White, Place(4, 4), Left) == Found(Path(Place(2, 4), [Place(3, 4)]))
    ensures ScanFrom(g, White, Place(4, 4), Right) == NoMove
  {
    Walk1(g, Black, Up, Place(4, 3));
    Blocked(g, Black, Down, Place(4, 5));
    Walk1(g, Black, Left, Place(3, 4));
    Blocked(g, Black, Right, Place(5, 4));
  }

  /** The four diagonal scans of `Scans1From44`. */
  lemma Scans1From44Diagonal(g: Pieces)
    requires Shows(g, Blacks1, Whites1)
    ensures ScanFrom(g, White, Place(4, 4), UpLeft) == Found(Path(Place(2, 2), [Place(3, 3)]))
    ensures ScanFrom(g, White, Place(4, 4), UpRight) == NoMove
    ensures ScanFrom(g, White, Place(4, 4), DownLeft) == NoMove
    ensures ScanFrom(g, White, Place(4, 4), DownRight) == NoMove
  {
    Walk1(g, Black, UpLeft, Place(3, 3));
    Blocked(g, Black, UpRight, Place(5, 3));
    Blocked(g, Black, DownLeft, Place(3, 5));
    Blocked(g, Black, DownRight, Place(5, 5));
  }

  /** Before move 2, the hints from WHITE's piece at (4, 4). */
  lemma Origin1From44(g: Pieces)
    requires Shows(g, Blacks1, Whites1)
    ensures OriginHints(g, White, Place(4, 4), Directions) == {PlacePiece(White, Place(4, 2), [FlipPiece(Place(4, 3))]), PlacePiece(White, Place(2, 4), [FlipPiece(Place(3, 4))]), PlacePiece(White, Place(2, 2), [FlipPiece(Place(3, 3))])}
  {
    Scans1From44Straight(g);
    Scans1From44Diagonal(g);
    assert HintOf(White, Path(Place(4, 2), [Place(4, 3)])) == PlacePiece(White, Place(4, 2), [FlipPiece(Place(4, 3))]);
    assert HintOf(White, Path(Place(2, 4), [Place(3, 4)])) == PlacePiece(White, Place(2, 4), [FlipPiece(Place(3, 4))]);
    assert HintOf(White, Path(Place(2, 2), [Place(3, 3)])) == PlacePiece(White, Place(2, 2), [FlipPiece(Place(3, 3))]);
  }

  /** Before move 2, every hint for WHITE; only one of them is at (2, 2). */
  lemma Hints1(g: Pieces)
    requires Shows(g, Blacks1, Whites1)
    ensures HintSet(g, White) == Offered1
  {
    ShowsCells(g, Blacks1, Whites1);
    Origin1From44(g);
    OneOrigin(g, White, Place(4, 4),
      {PlacePiece(White, Place(4, 2), [FlipPiece(Place(4, 3))]), PlacePiece(White, Place(2, 4), [FlipPiece(Place(3, 4))]), PlacePiece(White, Place(2, 2), [FlipPiece(Place(3, 3))])});
  }

  /** Before move 2, the hint the game test picks is the only one at its cell. */
  lemma Only1()
    ensures PlacePiece(White, Place(2, 2), [FlipPiece(Place(3, 3))]) in Offered1
    ensures forall h | h in Offered1 && h.place == Place(2, 2) :: h == PlacePiece(White, Place(2, 2), [FlipPiece(Place(3, 3))])
  {
  }

  /** The four straight scans of `Scans2From32`. */
  lemma Scans2From32Straight(g: Pieces)
    requires Shows(g, Blacks2, Whites2)
    ensures ScanFrom(g, Black, Place(3, 2), Up) == NoMove
    ensures ScanFrom(g, Black, Place(3, 2), Down) == NoMove
    ensures ScanFrom(g, Black, Place(3, 2), Left) == Found(Path(Place(1, 2), [Place(2, 2)]))
    ensures ScanFrom(g, Black, Place(3, 2), Right) == NoMove
  {
    Blocked(g, White, Up, Place(3, 1));
    Walk1(g, White, Down, Place(3, 3));
    Walk1(g, White, Left, Place(2, 2));
    Blocked(g, White, Right, Place(4, 2));
  }

  /** The four diagonal scans of `Scans2From32`. */
  lemma Scans2From32Diagonal(g: Pieces)
    requires Shows(g, Blacks2, Whites2)
    ensures ScanFrom(g, Black, Place(3, 2), UpLeft) == NoMove
    ensures ScanFrom(g, Black, Place(3, 2), UpRight) == NoMove
    ensures ScanFrom(g, Black, Place(3, 2), DownLeft) == NoMove
    ensures ScanFrom(g, Black, Place(3, 2), DownRight) == NoMove
  {
    Blocked(g, White, UpLeft, Place(2, 1));
    Blocked(g, White, UpRight, Place(4, 1));
    Blocked(g, White, DownLeft, Place(2, 3));
    Blocked(g, White, DownRight, Place(4, 3));
  }

  /** Before move 3, the hints from BLACK's piece at (3, 2). */
  lemma Origin2From32(g: Pieces)
    requires Shows(g, Blacks2, Whites2)
    ensures OriginHints(g, Black, Place(3, 2), Directions) == {PlacePiece(Black, Place(1, 2), [FlipPiece(Place(2, 2))])}
  {
    Scans2From32Straight(g);
    Scans2From32Diagonal(g);
    assert HintOf(Black, Path(Place(1, 2), [Place(2, 2)])) == PlacePiece(Black, Place(1, 2), [FlipPiece(Place(2, 2))]);
  }

  /** The four straight scans of `Scans2From34`. */
  lemma Scans2From34Straight(g: Pieces)
    requires Shows(g, Blacks2, Whites2)
    ensures ScanFrom(g, Black, Place(3, 4), Up) == NoMove
    ensures ScanFrom(g, Black, Place(3, 4), Down) == NoMove
    ensures ScanFrom(g, Black, Place(3, 4), Left) == NoMove
    ensures ScanFrom(g, Black, Place(3, 4), Right) == Found(Path(Place(5, 4), [Place(4, 4)]))
  {
    Walk1(g, White, Up, Place(3, 3));
    Blocked(g, White, Down, Place(3, 5));
    Blocked(g, White, Left, Place(2, 4));
    Walk1(g, White, Right, Place(4, 4));
  }

  /** The four diagonal scans of `Scans2From34`. */
  lemma Scans2From34Diagonal(g: Pieces)
    requires Shows(g, Blacks2, Whites2)
    ensures ScanFrom(g, Black, Place(3, 4), UpLeft) == NoMove
    ensures ScanFrom(g, Black, Place(3, 4), UpRight) == NoMove
    ensures ScanFrom(g, Black, Place(3, 4), DownLeft) == NoMove
    ensures ScanFrom(g, Black, Place(3, 4), DownRight) == NoMove
  {
    Blocked(g, White, UpLeft, Place(2, 3));
    Blocked(g, White, UpRight, Place(4, 3));
    Blocked(g, White, DownLeft, Place(2, 5));
    Blocked(g, White, DownRight, Place(4, 5));
  }

  /** Before move 3, the hints from BLACK's piece at (3, 4). */
  lemma Origin2From34(g: Pieces)
    requires Shows(g, Blacks2, Whites2)
    ensures OriginHints(g, Black, Place(3, 4), Directions) == {PlacePiece(Black, Place(5, 4), [FlipPiece(Place(4, 4))])}
  {
    Scans2From34Straight(g);
    Scans2From34Diagonal(g);
    assert HintOf(Black, Path(Place(5, 4), [Place(4, 4)])) == PlacePiece(Black, Place(5, 4), [FlipPiece(Place(4, 4))]);
  }

  /** The four straight scans of `Scans2From43`. */
  lemma Scans2From43Straight(g: Pieces)
    requires Shows(g, Blacks2, Whites2)
    ensures ScanFrom(g, Black, Place(4, 3), Up) == NoMove
    ensures ScanFrom(g, Black, Place(4, 3), Down) == Found(Path(Place(4, 5), [Place(4, 4)]))
    ensures ScanFrom(g, Black, Place(4, 3), Left) == Found(Path(Place(2, 3), [Place(3, 3)]))
    ensures ScanFrom(g, Black, Place(4, 3), Right) == NoMove
  {
    Blocked(g, White, Up, Place(4, 2));
    Walk1(g, White, Down, Place(4, 4));
    Walk1(g, White, Left, Place(3, 3));
    Blocked(g, White, Right, Place(5, 3));
  }

  /** The four diagonal scans of `Scans2From43`. */
  lemma Scans2From43Diagonal(g: Pieces)
    requires Shows(g, Blacks2, Whites2)
    ensures ScanFrom(g, Black, Place(4, 3), UpLeft) == NoMove
    ensures ScanFrom(g, Black, Place(4, 3), UpRight) == NoMove
    ensures ScanFrom(g, Black, Place(4, 3), DownLeft) == NoMove
    ensures ScanFrom(g, Black, Place(4, 3), DownRight) == NoMove
  {
    Blocked(g, White, UpLeft, Place(3, 2));
    Blocked(g, White, UpRight, Place(5, 2));
    Blocked(g, White, DownLeft, Place(3, 4));
    Blocked(g, White, DownRight, Place(5, 4));
  }

  /** Before move 3, the hints from BLACK's piece at (4, 3). */
  lemma Origin2From43(g: Pieces)
    requires Shows(g, Blacks2, Whites2)
    ensures OriginHints(g, Black, Place(4, 3), Directions) == {PlacePiece(Black, Place(4, 5), [FlipPiece(Place(4, 4))]), PlacePiece(Black, Place(2, 3), [FlipPiece(Place(3, 3))])}
  {
    Scans2From43Straight(g);
    Scans2From43Diagonal(g);
    assert HintOf(Black, Path(Place(4, 5), [Place(4, 4)])) == PlacePiece(Black, Place(4, 5), [FlipPiece(Place(4, 4))]);
    assert HintOf(Black, Path(Place(2, 3), [Place(3, 3)])) == PlacePiece(Black, Place(2, 3), [FlipPiece(Place(3, 3))]);
  }

  /** Before move 3, every hint for BLACK; only one of them is at (4, 5). */
  lemma Hints2(g: Pieces)
    requires Shows(g, Blacks2, Whites2)
    ensures HintSet(g, Black) == Offered2
  {
    ShowsCells(g, Blacks2, Whites2);
    Origin2From32(g);
    Origin2From34(g);
    Origin2From43(g);
    ThreeOrigins(g, Black, Place(3, 2), Place(3, 4), Place(4, 3),
      {PlacePiece(Black, Place(1, 2), [FlipPiece(Place(2, 2))])},
      {PlacePiece(Black, Place(5, 4), [FlipPiece(Place(4, 4))])},
      {PlacePiece(Black, Place(4, 5), [FlipPiece(Place(4, 4))]), PlacePiece(Black, Place(2, 3), [FlipPiece(Place(3, 3))])});
    Union2();
  }

  /** Before move 3, the hints of the origins together. */
  lemma Union2()
    ensures {PlacePiece(Black, Place(1, 2), [FlipPiece(Place(2, 2))])}
      + {PlacePiece(Black, Place(5, 4), [FlipPiece(Place(4, 4))])}
      + {PlacePiece(Black, Place(4, 5), [FlipPiece(Place(4, 4))]), PlacePiece(Black, Place(2, 3), [FlipPiece(Place(3, 3))])} ==
      Offered2
  {
  }

  /** Before move 3, the hint the game test picks is the only one at its cell. */
  lemma Only2()
    ensures PlacePiece(Black, Place(4, 5), [FlipPiece(Place(4, 4))]) in Offered2
    ensures forall h | h in Offered2 && h.place == Place(4, 5) :: h == PlacePiece(Black, Place(4, 5), [FlipPiece(Place(4, 4))])
  {
  }

  /** The four straight scans of `Scans3From22`. */
  lemma Scans3From22Straight(g: Pieces)
    requires Shows(g, Blacks3, Whites3)
    ensures ScanFrom(g, White, Place(2, 2), Up) == NoMove
    ensures ScanFrom(g, White, Place(2, 2), Down) == NoMove
    ensures ScanFrom(g, White, Place(2, 2), Left) == NoMove
    ensures ScanFrom(g, White, Place(2, 2), Right) == Found(Path(Place(4, 2), [Place(3, 2)]))
  {
    Blocked(g, Black, Up, Place(2, 1));
    Blocked(g, Black, Down, Place(2, 3));
    Blocked(g, Black, Left, Place(1, 2));
    Walk1(g, Black, Right, Place(3, 2));
  }

  /** The four diagonal scans of `Scans3From22`. */
  lemma Scans3From22Diagonal(g: Pieces)
    requires Shows(g, Blacks3, Whites3)
    ensures ScanFrom(g, White, Place(2, 2), UpLeft) == NoMove
    ensures ScanFrom(g, White, Place(2, 2), UpRight) == NoMove
    ensures ScanFrom(g, White, Place(2, 2), DownLeft) == NoMove
    ensures ScanFrom(g, White, Place(2, 2), DownRight) == NoMove
  {
    Blocked(g, Black, UpLeft, Place(1, 1));
    Blocked(g, Black, UpRight, Place(3, 1));
    Blocked(g, Black, DownLeft, Place(1, 3));
    Blocked(g, Black, DownRight, Place(3, 3));
  }

  /** Before move 4, the hints from WHITE's piece at (2, 2). */
  lemma Origin3From22(g: Pieces)
    requires Shows(g, Blacks3, Whites3)
    ensures OriginHints(g, White, Place(2, 2), Directions) == {PlacePiece(White, Place(4, 2), [FlipPiece(Place(3, 2))])}
  {
    Scans3From22Straight(g);
    Scans3From22Diagonal(g);
    assert HintOf(White, Path(Place(4, 2), [Place(3, 2)])) == PlacePiece(White, Place(4, 2), [FlipPiece(Place(3, 2))]);
  }

  /** The four straight scans of `Scans3From33`. */
  lemma Scans3From33Straight(g: Pieces)
    requires Shows(g, Blacks3, Whites3)
    ensures ScanFrom(g, White, Place(3, 3), Up) == Found(Path(Place(3, 1), [Place(3, 2)]))
    ensures ScanFrom(g, White, Place(3, 3), Down) == Found(Path(Place(3, 5), [Place(3, 4)]))
    ensures ScanFrom(g, White, Place(3, 3), Left) == NoMove
    ensures ScanFrom(g, White, Place(3, 3), Right) == Found(Path(Place(5, 3), [Place(4, 3)]))
  {
    Walk1(g, Black, Up, Place(3, 2));
    Walk1(g, Black, Down, Place(3, 4));
    Blocked(g, Black, Left, Place(2, 3));
    Walk1(g, Black, Right, Place(4, 3));
  }

  /** The four diagonal scans of `Scans3From33`. */
  lemma Scans3From33Diagonal(g: Pieces)
    requires Shows(g, Blacks3, Whites3)
    ensures ScanFrom(g, White, Place(3, 3), UpLeft) == NoMove
    ensures ScanFrom(g, White, Place(3, 3), UpRight) == NoMove
    ensures ScanFrom(g, White, Place(3, 3), DownLeft) == NoMove
    ensures ScanFrom(g, White, Place(3, 3), DownRight) == Found(Path(Place(5, 5), [Place(4, 4)]))
  {
    Blocked(g, Black, UpLeft, Place(2, 2));
    Blocked(g, Black, UpRight, Place(4, 2));
    Blocked(g, Black, DownLeft, Place(2, 4));
    Walk1(g, Black, DownRight, Place(4, 4));
  }

  /** Before move 4, the hints from WHITE's piece at (3, 3). */
  lemma Origin3From33(g: Pieces)
    requires Shows(g, Blacks3, Whites3)
    ensures OriginHints(g, White, Place(3, 3), Directions) == {PlacePiece(White, Place(3, 1), [FlipPiece(Place(3, 2))]), PlacePiece(White, Place(3, 5), [FlipPiece(Place(3, 4))]), PlacePiece(White, Place(5, 3), [FlipPiece(Place(4, 3))]), PlacePiece(White, Place(5, 5), [FlipPiece(Place(4, 4))])}
  {
    Scans3From33Straight(g);
    Scans3From33Diagonal(g);
    assert HintOf(White, Path(Place(3, 1), [Place(3, 2)])) == PlacePiece(White, Place(3, 1), [FlipPiece(Place(3, 2))]);
    assert HintOf(White, Path(Place(3, 5), [Place(3, 4)])) == PlacePiece(White, Place(3, 5), [FlipPiece(Place(3, 4))]);
    assert HintOf(White, Path(Place(5, 3), [Place(4, 3)])) == PlacePiece(White, Place(5, 3), [FlipPiece(Place(4, 3))]);
    assert HintOf(White, Path(Place(5, 5), [Place(4, 4)])) == PlacePiece(White, Place(5, 5), [FlipPiece(Place(4, 4))]);
  }

  /** Before move 4, every hint for WHITE; only one of them is at (3, 5). */
  lemma Hints3(g: Pieces)
    requires Shows(g, Blacks3, Whites3)
    ensures HintSet(g, White) == Offered3
  {
    ShowsCells(g, Blacks3, Whites3);
    Origin3From22(g);
    Origin3From33(g);
    TwoOrigins(g, White, Place(2, 2), Place(3, 3),
      {PlacePiece(White, Place(4, 2), [FlipPiece(Place(3, 2))])},
      {PlacePiece(White, Place(3, 1), [FlipPiece(Place(3, 2))]), PlacePiece(White, Place(3, 5), [FlipPiece(Place(3, 4))]), PlacePiece(White, Place(5, 3), [FlipPiece(Place(4, 3))]), PlacePiece(White, Place(5, 5), [FlipPiece(Place(4, 4))])});
    Union3();
  }

  /** Before move 4, the hints of the origins together. */
  lemma Union3()
    ensures {PlacePiece(White, Place(4, 2), [FlipPiece(Place(3, 2))])}
      + {PlacePiece(White, Place(3, 1), [FlipPiece(Place(3, 2))]), PlacePiece(White, Place(3, 5), [FlipPiece(Place(3, 4))]), PlacePiece(White, Place(5, 3), [FlipPiece(Place(4, 3))]), PlacePiece(White, Place(5, 5), [FlipPiece(Place(4, 4))])} ==
      Offered3
  {
  }

  /** Before move 4, the hint the game test picks is the only one at its cell. */
  lemma Only3()
    ensures PlacePiece(White, Place(3, 5), [FlipPiece(Place(3, 4))]) in Offered3
    ensures forall h | h in Offered3 && h.place == Place(3, 5) :: h == PlacePiece(White, Place(3, 5), [FlipPiece(Place(3, 4))])
  {
  }

  /** The four straight scans of `Scans4From32`. */
  lemma Scans4From32Straight(g: Pieces)
    requires Shows(g, Blacks4, Whites4)
    ensures ScanFrom(g, Black, Place(3, 2), Up) == NoMove
    ensures ScanFrom(g, Black, Place(3, 2), Down) == Found(Path(Place(3, 6), [Place(3, 3), Place(3, 4), Place(3, 5)]))
    ensures ScanFrom(g, Black, Place(3, 2), Left) == Found(Path(Place(1, 2), [Place(2, 2)]))
    ensures ScanFrom(g, Black, Place(3, 2), Right) == NoMove
  {
    Blocked(g, White, Up, Place(3, 1));
    Walk3(g, White, Down, Place(3, 3));
    Walk1(g, White, Left, Place(2, 2));
    Blocked(g, White, Right, Place(4, 2));
  }

  /** The four diagonal scans of `Scans4From32`. */
  lemma Scans4From32Diagonal(g: Pieces)
    requires Shows(g, Blacks4, Whites4)
    ensures ScanFrom(g, Black, Place(3, 2), UpLeft) == NoMove
    ensures ScanFrom(g, Black, Place(3, 2), UpRight) == NoMove
    ensures ScanFrom(g, Black, Place(3, 2), DownLeft) == NoMove
    ensures ScanFrom(g, Black, Place(3, 2), DownRight) == NoMove
  {
    Blocked(g, White, UpLeft, Place(2, 1));
    Blocked(g, White, UpRight, Place(4, 1));
    Blocked(g, White, DownLeft, Place(2, 3));
    Blocked(g, White, DownRight, Place(4, 3));
  }

  /** Before move 5, the hints from BLACK's piece at (3, 2). */
  lemma Origin4From32(g: Pieces)
    requires Shows(g, Blacks4, Whites4)
    ensures OriginHints(g, Black, Place(3, 2), Directions) == {PlacePiece(Black, Place(3, 6), [FlipPiece(Place(3, 3)), FlipPiece(Place(3, 4)), FlipPiece(Place(3, 5))]), PlacePiece(Black, Place(1, 2), [FlipPiece(Place(2, 2))])}
  {
    Scans4From32Straight(g);
    Scans4From32Diagonal(g);
    assert HintOf(Black, Path(Place(3, 6), [Place(3, 3), Place(3, 4), Place(3, 5)])) == PlacePiece(Black, Place(3, 6), [FlipPiece(Place(3, 3)), FlipPiece(Place(3, 4)), FlipPiece(Place(3, 5))]);
    assert HintOf(Black, Path(Place(1, 2), [Place(2, 2)])) == PlacePiece(Black, Place(1, 2), [FlipPiece(Place(2, 2))]);
  }

  /** The four straight scans of `Scans4From43`. */
  lemma Scans4From43Straight(g: Pieces)
    requires Shows(g, Blacks4, Whites4)
    ensures ScanFrom(g, Black, Place(4, 3), Up) == NoMove
    ensures ScanFrom(g, Black, Place(4, 3), Down) == NoMove
    ensures ScanFrom(g, Black, Place(4, 3), Left) == Found(Path(Place(2, 3), [Place(3, 3)]))
    ensures ScanFrom(g, Black, Place(4, 3), Right) == NoMove
  {
    Blocked(g, White, Up, Place(4, 2));
    Blocked(g, White, Down, Place(4, 4));
    Walk1(g, White, Left, Place(3, 3));
    Blocked(g, White, Right, Place(5, 3));
  }

  /** The four diagonal scans of `Scans4From43`. */
  lemma Scans4From43Diagonal(g: Pieces)
    requires Shows(g, Blacks4, Whites4)
    ensures ScanFrom(g, Black, Place(4, 3), UpLeft) == NoMove
    ensures ScanFrom(g, Black, Place(4, 3), UpRight) == NoMove
    ensures ScanFrom(g, Black, Place(4, 3), DownLeft) == Found(Path(Place(2, 5), [Place(3, 4)]))
    ensures ScanFrom(g, Black, Place(4, 3), DownRight) == NoMove
  {
    Blocked(g, White, UpLeft, Place(3, 2));
    Blocked(g, White, UpRight, Place(5, 2));
    Walk1(g, White, DownLeft, Place(3, 4));
    Blocked(g, White, DownRight, Place(5, 4));
  }

  /** Before move 5, the hints from BLACK's piece at (4, 3). */
  lemma Origin4From43(g: Pieces)
    requires Shows(g, Blacks4, Whites4)
    ensures OriginHints(g, Black, Place(4, 3), Directions) == {PlacePiece(Black, Place(2, 3), [FlipPiece(Place(3, 3))]), PlacePiece(Black, Place(2, 5), [FlipPiece(Place(3, 4))])}
  {
    Scans4From43Straight(g);
    Scans4From43Diagonal(g);
    assert HintOf(Black, Path(Place(2, 3), [Place(3, 3)])) == PlacePiece(Black, Place(2, 3), [FlipPiece(Place(3, 3))]);
    assert HintOf(Black, Path(Place(2, 5), [Place(3, 4)])) == PlacePiece(Black, Place(2, 5), [FlipPiece(Place(3, 4))]);
  }

  /** The four straight scans of `Scans4From44`. */
  lemma Scans4From44Straight(g: Pieces)
    requires Shows(g, Blacks4, Whites4)
    ensures ScanFrom(g, Black, Place(4, 4), Up) == NoMove
    ensures ScanFrom(g, Black, Place(4, 4), Down) == NoMove
    ensures ScanFrom(g, Black, Place(4, 4), Left) == Found(Path(Place(2, 4), [Place(3, 4)]))
    ensures ScanFrom(g, Black, Place(4, 4), Right) == NoMove
  {
    Blocked(g, White, Up, Place(4, 3));
    Blocked(g, White, Down, Place(4, 5));
    Walk1(g, White, Left, Place(3, 4));
    Blocked(g, White, Right, Place(5, 4));
  }

  /** The four diagonal scans of `Scans4From44`. */
  lemma Scans4From44Diagonal(g: Pieces)
    requires Shows(g, Blacks4, Whites4)
    ensures ScanFrom(g, Black, Place(4, 4), UpLeft) == Found(Path(Place(1, 1), [Place(3, 3), Place(2, 2)]))
    ensures ScanFrom(g, Black, Place(4, 4), UpRight) == NoMove
    ensures ScanFrom(g, Black, Place(4, 4), DownLeft) == Found(Path(Place(2, 6), [Place(3, 5)]))
    ensures ScanFrom(g, Black, Place(4, 4), DownRight) == NoMove
  {
    Walk2(g, White, UpLeft, Place(3, 3));
    Blocked(g, White, UpRight, Place(5, 3));
    Walk1(g, White, DownLeft, Place(3, 5));
    Blocked(g, White, DownRight, Place(5, 5));
  }

  /** Before move 5, the hints from BLACK's piece at (4, 4). */
  lemma Origin4From44(g: Pieces)
    requires Shows(g, Blacks4, Whites4)
    ensures OriginHints(g, Black, Place(4, 4), Directions) == {PlacePiece(Black, Place(2, 4), [FlipPiece(Place(3, 4))]), PlacePiece(Black, Place(1, 1), [FlipPiece(Place(3, 3)), FlipPiece(Place(2, 2))]), PlacePiece(Black, Place(2, 6), [FlipPiece(Place(3, 5))])}
  {
    Scans4From44Straight(g);
    Scans4From44Diagonal(g);
    assert HintOf(Black, Path(Place(2, 4), [Place(3, 4)])) == PlacePiece(Black, Place(2, 4), [FlipPiece(Place(3, 4))]);
    assert HintOf(Black, Path(Place(1, 1), [Place(3, 3), Place(2, 2)])) == PlacePiece(Black, Place(1, 1), [FlipPiece(Place(3, 3)), FlipPiece(Place(2, 2))]);
    assert HintOf(Black, Path(Place(2, 6), [Place(3, 5)])) == PlacePiece(Black, Place(2, 6), [FlipPiece(Place(3, 5))]);
  }

  /** The four straight scans of `Scans4From45`. */
  lemma Scans4From45Straight(g: Pieces)
    requires Shows(g, Blacks4, Whites4)
    ensures ScanFrom(g, Black, Place(4, 5), Up) == NoMove
    ensures ScanFrom(g, Black, Place(4, 5), Down) == NoMove
    ensures ScanFrom(g, Black, Place(4, 5), Left) == Found(Path(Place(2, 5), [Place(3, 5)]))
    ensures ScanFrom(g, Black, Place(4, 5), Right) == NoMove
  {
    Blocked(g, White, Up, Place(4, 4));
    Blocked(g, White, Down, Place(4, 6));
    Walk1(g, White, Left, Place(3, 5));
    Blocked(g, White, Right, Place(5, 5));
  }

  /** The four diagonal scans of `Scans4From45`. */
  lemma Scans4From45Diagonal(g: Pieces)
    requires Shows(g, Blacks4, Whites4)
    ensures ScanFrom(g, Black, Place(4, 5), UpLeft) == Found(Path(Place(2, 3), [Place(3, 4)]))
    ensures ScanFrom(g, Black, Place(4, 5), UpRight) == NoMove
    ensures ScanFrom(g, Black, Place(4, 5), DownLeft) == NoMove
    ensures ScanFrom(g, Black, Place(4, 5), DownRight) == NoMove
  {
    Walk1(g, White, UpLeft, Place(3, 4));
    Blocked(g, White, UpRight, Place(5, 4));
    Blocked(g, White, DownLeft, Place(3, 6));
    Blocked(g, White, DownRight, Place(5, 6));
  }

  /** Before move 5, the hints from BLACK's piece at (4, 5). */
  lemma Origin4From45(g: Pieces)
    requires Shows(g, Blacks4, Whites4)
    ensures OriginHints(g, Black, Place(4, 5), Directions) == {PlacePiece(Black, Place(2, 5), [FlipPiece(Place(3, 5))]), PlacePiece(Black, Place(2, 3), [FlipPiece(Place(3, 4))])}
  {
    Scans4From45Straight(g);
    Scans4From45Diagonal(g);
    assert HintOf(Black, Path(Place(2, 5), [Place(3, 5)])) == PlacePiece(Black, Place(2, 5), [FlipPiece(Place(3, 5))]);
    assert HintOf(Black, Path(Place(2, 3), [Place(3, 4)])) == PlacePiece(Black, Place(2, 3), [FlipPiece(Place(3, 4))]);
  }

  /** Before move 5, every hint for BLACK; only one of them is at (3, 6). */
  lemma Hints4(g: Pieces)
    requires Shows(g, Blacks4, Whites4)
    ensures HintSet(g, Black) == Offered4
  {
    ShowsCells(g, Blacks4, Whites4);
    Origin4From32(g);
    Origin4From43(g);
    Origin4From44(g);
    Origin4From45(g);
    FourOrigins(g, Black, Place(3, 2), Place(4, 3), Place(4, 4), Place(4, 5),
      {PlacePiece(Black, Place(3, 6), [FlipPiece(Place(3, 3)), FlipPiece(Place(3, 4)), FlipPiece(Place(3, 5))]), PlacePiece(Black, Place(1, 2), [FlipPiece(Place(2, 2))])},
      {PlacePiece(Black, Place(2, 3), [FlipPiece(Place(3, 3))]), PlacePiece(Black, Place(2, 5), [FlipPiece(Place(3, 4))])},
      {PlacePiece(Black, Place(2, 4), [FlipPiece(Place(3, 4))]), PlacePiece(Black, Place(1, 1), [FlipPiece(Place(3, 3)), FlipPiece(Place(2, 2))]), PlacePiece(Black, Place(2, 6), [FlipPiece(Place(3, 5))])},
      {PlacePiece(Black, Place(2, 5), [FlipPiece(Place(3, 5))]), PlacePiece(Black, Place(2, 3), [FlipPiece(Place(3, 4))])});
    Union4();
  }

  /** Before move 5, the hints of the origins together. */
  lemma Union4()
    ensures {PlacePiece(Black, Place(3, 6), [FlipPiece(Place(3, 3)), FlipPiece(Place(3, 4)), FlipPiece(Place(3, 5))]), PlacePiece(Black, Place(1, 2), [FlipPiece(Place(2, 2))])}
      + {PlacePiece(Black, Place(2, 3), [FlipPiece(Place(3, 3))]), PlacePiece(Black, Place(2, 5), [FlipPiece(Place(3, 4))])}
      + {PlacePiece(Black, Place(2, 4), [FlipPiece(Place(3, 4))]), PlacePiece(Black, Place(1, 1), [FlipPiece(Place(3, 3)), FlipPiece(Place(2, 2))]), PlacePiece(Black, Place(2, 6), [FlipPiece(Place(3, 5))])}
      + {PlacePiece(Black, Place(2, 5), [FlipPiece(Place(3, 5))]), PlacePiece(Black, Place(2, 3), [FlipPiece(Place(3, 4))])} ==
      Offered4
  {
  }

  /** Before move 5, the hint the game test picks is the only one at its cell. */
  lemma Only4()
    ensures PlacePiece(Black, Place(3, 6), [FlipPiece(Place(3, 3)), FlipPiece(Place(3, 4)), FlipPiece(Place(3, 5))]) in Offered4
    ensures forall h | h in Offered4 && h.place == Place(3, 6) :: h == PlacePiece(Black, Place(3, 6), [FlipPiece(Place(3, 3)), FlipPiece(Place(3, 4)), FlipPiece(Place(3, 5))])
  {
  }

  /** Move 1 of the game test: BLACK's hint at (3, 2) is offered, and it is the
      only hint at that cell. */
  lemma Pick0(g: Pieces)
    requires Shows(g, Blacks0, Whites0)
    ensures PlacePiece(Black, Place(3, 2), [FlipPiece(Place(3, 3))]) in HintSet(g, Black)
    ensures forall h | h in HintSet(g, Black) && h.place == Place(3, 2) :: h == PlacePiece(Black, Place(3, 2), [FlipPiece(Place(3, 3))])
  {
    Hints0(g);
    Only0();
    PickFrom(g, Black, Offered0, Place(3, 2), PlacePiece(Black, Place(3, 2), [FlipPiece(Place(3, 3))]));
  }

  /** Move 1 of the game test: playing the hint gives the next picture. */
  lemma Play0(g: Pieces)
    requires Shows(g, Blacks0, Whites0)
    ensures CommitGrid(PlacePiece(Black, Place(3, 2), [FlipPiece(Place(3, 3))]), g).Ok?
    ensures Shows(CommitGrid(PlacePiece(Black, Place(3, 2), [FlipPiece(Place(3, 3))]), g).value, Blacks1, Whites1)
  {
    Pick0(g);
    FlipCellsOne(Place(3, 3));
    assert Blacks1 == Blacks0 + {Place(3, 2)} + {Place(3, 3)};
    assert Whites1 == Whites0 - {Place(3, 3)};
    PlayShows(g, Blacks0, Whites0, Black, PlacePiece(Black, Place(3, 2), [FlipPiece(Place(3, 3))]), Blacks1, Whites1);
  }

  /** Move 2 of the game test: WHITE's hint at (2, 2) is offered, and it is the
      only hint at that cell. */
  lemma Pick1(g: Pieces)
    requires Shows(g, Blacks1, Whites1)
    ensures PlacePiece(White, Place(2, 2), [FlipPiece(Place(3, 3))]) in HintSet(g, White)
    ensures forall h | h in HintSet(g, White) && h.place == Place(2, 2) :: h == PlacePiece(White, Place(2, 2), [FlipPiece(Place(3, 3))])
  {
    Hints1(g);
    Only1();
    PickFrom(g, White, Offered1, Place(2, 2), PlacePiece(White, Place(2, 2), [FlipPiece(Place(3, 3))]));
  }

  /** Move 2 of the game test: playing the hint gives the next picture. */
  lemma Play1(g: Pieces)
    requires Shows(g, Blacks1, Whites1)
    ensures CommitGrid(PlacePiece(White, Place(2, 2), [FlipPiece(Place(3, 3))]), g).Ok?
    ensures Shows(CommitGrid(PlacePiece(White, Place(2, 2), [FlipPiece(Place(3, 3))]), g).value, Blacks2, Whites2)
  {
    Pick1(g);
    FlipCellsOne(Place(3, 3));
    assert Whites2 == Whites1 + {Place(2, 2)} + {Place(3, 3)};
    assert Blacks2 == Blacks1 - {Place(3, 3)};
    PlayShows(g, Blacks1, Whites1, White, PlacePiece(White, Place(2, 2), [FlipPiece(Place(3, 3))]), Blacks2, Whites2);
  }

  /** Move 3 of the game test: BLACK's hint at (4, 5) is offered, and it is the
      only hint at that cell. */
  lemma Pick2(g: Pieces)
    requires Shows(g, Blacks2, Whites2)
    ensures PlacePiece(Black, Place(4, 5), [FlipPiece(Place(4, 4))]) in HintSet(g, Black)
    ensures forall h | h in HintSet(g, Black) && h.place == Place(4, 5) :: h == PlacePiece(Black, Place(4, 5), [FlipPiece(Place(4, 4))])
  {
    Hints2(g);
    Only2();
    PickFrom(g, Black, Offered2, Place(4, 5), PlacePiece(Black, Place(4, 5), [FlipPiece(Place(4, 4))]));
  }

  /** Move 3 of the game test: playing the hint gives the next picture. */
  lemma Play2(g: Pieces)
    requires Shows(g, Blacks2, Whites2)
    ensures CommitGrid(PlacePiece(Black, Place(4, 5), [FlipPiece(Place(4, 4))]), g).Ok?
    ensures Shows(CommitGrid(PlacePiece(Black, Place(4, 5), [FlipPiece(Place(4, 4))]), g).value, Blacks3, Whites3)
  {
    Pick2(g);
    FlipCellsOne(Place(4, 4));
    assert Blacks3 == Blacks2 + {Place(4, 5)} + {Place(4, 4)};
    assert Whites3 == Whites2 - {Place(4, 4)};
    PlayShows(g, Blacks2, Whites2, Black, PlacePiece(Black, Place(4, 5), [FlipPiece(Place(4, 4))]), Blacks3, Whites3);
  }

  /** Move 4 of the game test: WHITE's hint at (3, 5) is offered, and it is the
      only hint at that cell. */
  lemma Pick3(g: Pieces)
    requires Shows(g, Blacks3, Whites3)
    ensures PlacePiece(White, Place(3, 5), [FlipPiece(Place(3, 4))]) in HintSet(g, White)
    ensures forall h | h in HintSet(g, White) && h.place == Place(3, 5) :: h == PlacePiece(White, Place(3, 5), [FlipPiece(Place(3, 4))])
  {
    Hints3(g);
    Only3();
    PickFrom(g, White, Offered3, Place(3, 5), PlacePiece(White, Place(3, 5), [FlipPiece(Place(3, 4))]));
  }

  /** Move 4 of the game test: playing the hint gives the next picture. */
  lemma Play3(g: Pieces)
    requires Shows(g, Blacks3, Whites3)
    ensures CommitGrid(PlacePiece(White, Place(3, 5), [FlipPiece(Place(3, 4))]), g).Ok?
    ensures Shows(CommitGrid(PlacePiece(White, Place(3, 5), [FlipPiece(Place(3, 4))]), g).value, Blacks4, Whites4)
  {
    Pick3(g);
    FlipCellsOne(Place(3, 4));
    assert Whites4 == Whites3 + {Place(3, 5)} + {Place(3, 4)};
    assert Blacks4 == Blacks3 - {Place(3, 4)};
    PlayShows(g, Blacks3, Whites3, White, PlacePiece(White, Place(3, 5), [FlipPiece(Place(3, 4))]), Blacks4, Whites4);
  }

  /** Move 5 of the game test: BLACK's hint at (3, 6) is offered, and it is the
      only hint at that cell. */
  lemma Pick4(g: Pieces)
    requires Shows(g, Blacks4, Whites4)
    ensures PlacePiece(Black, Place(3, 6), [FlipPiece(Place(3, 3)), FlipPiece(Place(3, 4)), FlipPiece(Place(3, 5))]) in HintSet(g, Black)
    ensures forall h | h in HintSet(g, Black) && h.place == Place(3, 6) :: h == PlacePiece(Black, Place(3, 6), [FlipPiece(Place(3, 3)), FlipPiece(Place(3, 4)), FlipPiece(Place(3, 5))])
  {
    Hints4(g);
    Only4();
    PickFrom(g, Black, Offered4, Place(3, 6), PlacePiece(Black, Place(3, 6), [FlipPiece(Place(3, 3)), FlipPiece(Place(3, 4)), FlipPiece(Place(3, 5))]));
  }

  /** Move 5 of the game test: playing the hint gives the next picture. */
  lemma Play4(g: Pieces)
    requires Shows(g, Blacks4, Whites4)
    ensures CommitGrid(PlacePiece(Black, Place(3, 6), [FlipPiece(Place(3, 3)), FlipPiece(Place(3, 4)), FlipPiece(Place(3, 5))]), g).Ok?
    ensures Shows(CommitGrid(PlacePiece(Black, Place(3, 6), [FlipPiece(Place(3, 3)), FlipPiece(Place(3, 4)), FlipPiece(Place(3, 5))]), g).value, Blacks5, Whites5)
  {
    Pick4(g);
    FlipCellsThree(Place(3, 3), Place(3, 4), Place(3, 5));
    assert Blacks5 == Blacks4 + {Place(3, 6)} + {Place(3, 3), Place(3, 4), Place(3, 5)};
    assert Whites5 == Whites4 - {Place(3, 3), Place(3, 4), Place(3, 5)};
    PlayShows(g, Blacks4, Whites4, Black, PlacePiece(Black, Place(3, 6), [FlipPiece(Place(3, 3)), FlipPiece(Place(3, 4)), FlipPiece(Place(3, 5))]), Blacks5, Whites5);
  }

  /** The five (target, player) pairs of the game test, in order. */
  const GameMoves: seq<(Place, Color)> := [(Place(3, 2), Black), (Place(2, 2), White), (Place(4, 5), Black), (Place(3, 5), White), (Place(3, 6), Black)]

  /** The hint the game test picks at each move. */
  const GameHints: seq<Command> := [
    PlacePiece(Black, Place(3, 2), [FlipPiece(Place(3, 3))]),
    PlacePiece(White, Place(2, 2), [FlipPiece(Place(3, 3))]),
    PlacePiece(Black, Place(4, 5), [FlipPiece(Place(4, 4))]),
    PlacePiece(White, Place(3, 5), [FlipPiece(Place(3, 4))]),
    PlacePiece(Black, Place(3, 6), [FlipPiece(Place(3, 3)), FlipPiece(Place(3, 4)), FlipPiece(Place(3, 5))])
  ]

  /** The pictures before each move and after the last one. */
  const GameBlacks: seq<set<Place>> := [Blacks0, Blacks1, Blacks2, Blacks3, Blacks4, Blacks5]
  const GameWhites: seq<set<Place>> := [Whites0, Whites1, Whites2, Whites3, Whites4, Whites5]

  /** Move `i` of the game test, on any grid with the picture before it. */
  lemma Turn(i: nat, g: Pieces)
    requires i < |GameMoves|
    requires Shows(g, GameBlacks[i], GameWhites[i])
    ensures GameMoves[i].1 != None
    ensures GameHints[i] in HintSet(g, GameMoves[i].1)
    ensures forall h | h in HintSet(g, GameMoves[i].1) && h.place == GameMoves[i].0 :: h == GameHints[i]
    ensures CommitGrid(GameHints[i], g).Ok?
    ensures Shows(CommitGrid(GameHints[i], g).value, GameBlacks[i + 1], GameWhites[i + 1])
  {
    if i == 0 {
      Pick0(g);
      Play0(g);
    } else if i == 1 {
      Pick1(g);
      Play1(g);
    } else if i == 2 {
      Pick2(g);
      Play2(g);
    } else if i == 3 {
      Pick3(g);
      Play3(g);
    } else {
      Pick4(g);
      Play4(g);
    }
  }
  /** `TestGame`: from `NewBoard`, each move asks for the mover's hints, takes
      one at the wanted cell and makes it; every step succeeds, and the final
      score is eight BLACK pieces to one WHITE. */
  method GameTest() returns (score: map<Color, int>)
    ensures score.Keys == {Black, White}
    ensures score[Black] == 8 && score[White] == 1
  {
    var board := new Board.NewBoard();
    InitialShows();
    for i := 0 to |GameMoves|
      invariant Shows(board.pieces, GameBlacks[i], GameWhites[i])
    {
      var target, c := GameMoves[i].0, GameMoves[i].1;
      Turn(i, board.pieces);
      var hints := board.Hints(c);
      var command :| command in hints && command.place == target;
      assert command == GameHints[i];
      var err := board.MakeEffect(command);
      assert err == Pass;
    }
    score := board.Score();
    ShowsCells(board.pieces, Blacks5, Whites5);
    FinalCounts();
  }

  /** The final picture of the game test has eight BLACK cells and one WHITE. */
  lemma FinalCounts()
    ensures |Blacks5| == 8 && |Whites5| == 1
  {
  }

  // ---------------------------------------------------------------------------
  // The hints test and the undo test

  /** `TestHints`: on the initial board with BLACK written at (3, 2) and over the
      WHITE piece at (3, 3), WHITE, whose only piece is at (4, 4), has exactly
      three hints: up over (4, 3), left over (3, 4) and diagonally over (3, 3). */
  method HintsTest() returns (hints: set<Command>)
    ensures hints == {PlacePiece(White, Place(4, 2), [FlipPiece(Place(4, 3))]), PlacePiece(White, Place(2, 4), [FlipPiece(Place(3, 4))]),
      PlacePiece(White, Place(2, 2), [FlipPiece(Place(3, 3))])}
    ensures |hints| == 3
  {
    var b := new Board.NewBoard();
    InitialShows();
    var _ := b.PlacePieceAt(3, 2, Black);
    SetShows(InitialGrid(), Blacks0, Whites0, 3, 2, Black);
    ghost var g1 := b.pieces;
    var _ := b.PlacePieceAt(3, 3, Black);
    SetShows(g1, Blacks0 + {Place(3, 2)}, Whites0 - {Place(3, 2)}, 3, 3, Black);
    TestHintsPosition();
    hints := b.Hints(White);
    Hints1(b.pieces);
    TestHintsOffered();
  }

  /** A placement committed straight onto a board is not undone when a flip
      fails: on a new board, BLACK at (0, 0) with a flip of the missing cell
      (9, 9) fails and leaves BLACK at (0, 0). */
  method FailedPlacementKeepsPiece() returns (err: Outcome, left: Pieces)
    ensures err == Fail(InvalidOperation)
    ensures left == InitialGrid()[Place(0, 0) := Black]
  {
    var b := new Board.NewBoard();
    err := CommitPlacePiece(Black, Place(0, 0), [FlipPiece(Place(9, 9))], b);
    PartlyPlacedFirstFlip(InitialGrid(), Black, Place(0, 0), [FlipPiece(Place(9, 9))], b.pieces, InvalidOperation);
    left := b.pieces;
  }

  /** Any of WHITE's opening hints is recorded as the only history entry, and
      replaying the history without it gives back the initial state. */
  lemma OpeningUndone(h: Command)
    requires h in HintSet(InitialGrid(), White)
    ensures Effect(Initial, h).Ok?
    ensures Effect(Initial, h).value.history == [h]
    ensures Replay(Initial, Effect(Initial, h).value.history[..0]) == Ok(Initial)
  {
    HintSound(InitialGrid(), White, h);
    HintApplies(InitialGrid(), White, h);
    InitialConsistent();
    UndoAfterEffect(Initial, h);
  }

  /** The two writes of the hints test lead to the picture before move 2 of the
      game test. */
  lemma TestHintsPosition()
    ensures Blacks0 + {Place(3, 2)} + {Place(3, 3)} == Blacks1
    ensures Whites0 - {Place(3, 2)} - {Place(3, 3)} == Whites1
  {
  }

  /** The three hints of the hints test are three different placements. */
  lemma TestHintsOffered()
    ensures Offered1 == {PlacePiece(White, Place(4, 2), [FlipPiece(Place(4, 3))]), PlacePiece(White, Place(2, 4), [FlipPiece(Place(3, 4))]),
      PlacePiece(White, Place(2, 2), [FlipPiece(Place(3, 3))])}
    ensures |Offered1| == 3
  {
  }

  /** `TestUndo`: making any of WHITE's opening hints and undoing one step gives
      back the grid of a new board. */
  method UndoTest() returns (same: bool)
    ensures same
  {
    var b := new Board.NewBoard();
    var p := b.Hints(White);
    HintComplete(InitialGrid(), White, Place(3, 3), Right, 1);
    assert exists h :: h in p;
    var h :| h in p;
    OpeningUndone(h);
    var _ := b.MakeEffect(h);
    assert WrapInt(|b.history| - 1) == 0;
    var _ := b.Undo(1);
    var nb := new Board.NewBoard();
    same := b.pieces == nb.pieces;
  }
}
