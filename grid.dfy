/** The board's grid as a value: a finite map from coordinates to colours, with
    the lookup, write, initial position and per-colour count the board engine
    uses (game/board.go). */
module Grid {
  import opened Geometry

  /** The error kinds the engine reports: a bad coordinate (also a bad undo count)
      and flipping an empty cell. */
  datatype Error = OutOfRange | InvalidOperation

  /** A value or the error that prevented it. */
  datatype Result<T> = Ok(value: T) | Err(error: Error)

  /** The `pieces` map; keys outside the 8x8 square may appear (see `InBound`). */
  type Pieces = map<Place, Color>

  /** Reading a map key the way Go does: a missing key yields the zero value `None`. */
  function Lookup(g: Pieces, p: Place): Color
  {
    if p in g then g[p] else None
  }

  /** A non-empty colour can only be read from a key that is present. */
  lemma LookupPresent(g: Pieces, p: Place)
    requires Lookup(g, p) != None
    ensures p in g && g[p] == Lookup(g, p)
  {
  }

  /** `GetPiece`: since the bounds check passes everything, it never fails and
      reads a missing cell as `None`. */
  function GetPiece(g: Pieces, x: int, y: int): (r: Result<Color>)
    ensures r.Ok?
    ensures r.value == (if Place(x, y) in g then g[Place(x, y)] else None)
  {
    var place := Place(x, y);
    if !InBound(place) then Err(OutOfRange) else Ok(Lookup(g, place))
  }

  /** The grid `placePiece` leaves behind; it overwrites whatever the cell held and
      adds the key when it was missing. */
  function SetPiece(g: Pieces, x: int, y: int, c: Color): (r: Result<Pieces>)
    ensures r.Ok?
    ensures r.value.Keys == g.Keys + {Place(x, y)}
    ensures Lookup(r.value, Place(x, y)) == c
    ensures forall q :: q != Place(x, y) ==> Lookup(r.value, q) == Lookup(g, q)
  {
    var place := Place(x, y);
    if !InBound(place) then Err(OutOfRange) else Ok(g[place := c])
  }

  /** The 64 cells of the 8x8 square. */
  function Square(): set<Place>
  {
    set x: int, y: int | 0 <= x < BoardSize && 0 <= y < BoardSize :: Place(x, y)
  }

  /** The cells of the square that the first `y` rows and the first `x` cells of
      row `y` cover, i.e. what `NewBoard`'s nested loops have written so far. */
  function Written(y: int, x: int): set<Place>
  {
    set i: int, j: int | 0 <= i < BoardSize && 0 <= j < BoardSize && (j < y || (j == y && i < x)) :: Place(i, j)
  }

  /** The starting position `NewBoard` sets up: every cell of the square empty,
      then the four centre cells seeded. */
  function InitialGrid(): (g: Pieces)
    ensures g.Keys == Square()
    ensures forall p :: p in g <==> InBoundIntended(p)
    ensures g[Place(3, 3)] == White && g[Place(4, 4)] == White
    ensures g[Place(4, 3)] == Black && g[Place(3, 4)] == Black
    ensures forall p | p in g && p !in {Place(3, 3), Place(4, 4), Place(4, 3), Place(3, 4)} :: g[p] == None
  {
    var blank := map p | p in Square() :: None;
    blank[Place(3, 3) := White][Place(4, 3) := Black][Place(3, 4) := Black][Place(4, 4) := White]
  }

  /** The cells that hold colour `c`. */
  function Cells(g: Pieces, c: Color): set<Place>
  {
    set p | p in g && g[p] == c
  }

  /** How many cells hold colour `c`. */
  function Count(g: Pieces, c: Color): nat
  {
    |Cells(g, c)|
  }

  /** The cells among `s` that hold colour `c`. */
  function CellsAmong(g: Pieces, s: set<Place>, c: Color): set<Place>
  {
    set p | p in s && p in g && g[p] == c
  }

  /** Visiting one more key `k` adds one to the count of the colour it holds. */
  lemma CellsAmongAdd(g: Pieces, s: set<Place>, k: Place, c: Color)
    requires k in g && k !in s
    ensures |CellsAmong(g, s + {k}, c)| == |CellsAmong(g, s, c)| + (if g[k] == c then 1 else 0)
  {
    if g[k] == c {
      assert CellsAmong(g, s + {k}, c) == CellsAmong(g, s, c) + {k};
    } else {
      assert CellsAmong(g, s + {k}, c) == CellsAmong(g, s, c);
    }
  }

  /** Writing `v` at `p` moves `p` from the count of its old colour to the count of `v`. */
  lemma CountUpdate(g: Pieces, p: Place, v: Color, c: Color)
    ensures Count(g[p := v], c) ==
      Count(g, c) - (if p in g && g[p] == c then 1 else 0) + (if v == c then 1 else 0)
  {
    var before := Cells(g, c);
    var after := Cells(g[p := v], c);
    var rest := before - {p};
    assert after == if v == c then rest + {p} else rest;
    if p in g && g[p] == c {
      assert before == rest + {p};
    } else {
      assert before == rest;
    }
  }

  /** The starting position counts two cells of each colour. */
  lemma InitialCount()
    ensures Count(InitialGrid(), Black) == 2
    ensures Count(InitialGrid(), White) == 2
  {
    var g := InitialGrid();
    assert Cells(g, Black) == {Place(4, 3), Place(3, 4)};
    assert Cells(g, White) == {Place(3, 3), Place(4, 4)};
  }
}
