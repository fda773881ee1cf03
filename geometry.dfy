/** Colours, grid coordinates and the eight scan directions of the board engine
    (game/board.go). Everything here is a pure value. */
module Geometry {

  /** Side length of the board. */
  const BoardSize: int := 8

  /** A cell's marker: `None` is the empty cell and also the actor of a flip. */
  datatype Color = None | Black | White

  /** The colour's printed name, as `Color.String` gives it. */
  function ColorName(c: Color): (s: string)
    ensures |s| > 0
    ensures s == "None" <==> c == None
  {
    match c
    case Black => "BLACK"
    case White => "WHITE"
    case None => "None"
  }

  /** Swaps the two players and leaves `None` where it is. */
  function Opposite(c: Color): (r: Color)
    ensures (r == None) <==> (c == None)
    ensures c != None ==> r != c
  {
    match c
    case Black => White
    case White => Black
    case None => None
  }

  /** Taking the opposite twice gives back the colour one started from. */
  lemma OppositeInvolution(c: Color)
    ensures Opposite(Opposite(c)) == c
  {
  }

  /** A grid coordinate; any pair of integers, on the board or not. */
  datatype Place = Place(x: int, y: int)

  /** The eight unit steps, in the order of the source's enumeration. */
  datatype Direction = Up | Down | Left | Right | UpRight | UpLeft | DownRight | DownLeft

  /** The order in which `Hints` tries the directions. */
  const Directions: seq<Direction> := [Up, Down, Left, Right, UpLeft, UpRight, DownLeft, DownRight]

  /** Every direction is tried by `Hints`, exactly once. */
  lemma DirectionsComplete(d: Direction)
    ensures d in Directions
    ensures |Directions| == 8
    ensures forall i, j :: 0 <= i < j < |Directions| ==> Directions[i] != Directions[j]
  {
  }

  /** The neighbouring cell one step away; `Up` lowers y. */
  function Next(p: Place, d: Direction): Place
  {
    match d
    case Up => Place(p.x, p.y - 1)
    case Down => Place(p.x, p.y + 1)
    case Left => Place(p.x - 1, p.y)
    case Right => Place(p.x + 1, p.y)
    case UpLeft => Place(p.x - 1, p.y - 1)
    case UpRight => Place(p.x + 1, p.y - 1)
    case DownLeft => Place(p.x - 1, p.y + 1)
    case DownRight => Place(p.x + 1, p.y + 1)
  }

  /** How far `p` lies along `d`: grows with every step taken in direction `d`. */
  function Proj(p: Place, d: Direction): int
  {
    match d
    case Up => -p.y
    case Down => p.y
    case Left => -p.x
    case Right => p.x
    case UpLeft => -p.x - p.y
    case UpRight => p.x - p.y
    case DownLeft => -p.x + p.y
    case DownRight => p.x + p.y
  }

  /** One step in direction `d` moves strictly forward along `d` and never stays put. */
  lemma NextAdvances(p: Place, d: Direction)
    ensures Proj(Next(p, d), d) > Proj(p, d)
    ensures Next(p, d) != p
  {
  }

  /** Distinct directions lead from one cell to distinct neighbours. */
  lemma NextInjective(p: Place, d1: Direction, d2: Direction)
    ensures Next(p, d1) == Next(p, d2) ==> d1 == d2
  {
  }

  /** The cell `k` steps away from `p` in direction `d`. */
  function Step(p: Place, d: Direction, k: nat): Place
  {
    if k == 0 then p else Next(Step(p, d, k - 1), d)
  }

  /** Walking `k` steps moves at least `k` units along the direction. */
  lemma {:induction false} StepProj(p: Place, d: Direction, k: nat)
    ensures Proj(Step(p, d, k), d) >= Proj(p, d) + k
  {
    if k > 0 {
      StepProj(p, d, k - 1);
      NextAdvances(Step(p, d, k - 1), d);
    }
  }

  /** Cells at different distances along one line are different cells. */
  lemma StepDistinct(p: Place, d: Direction, i: nat, j: nat)
    requires i < j
    ensures Step(p, d, i) != Step(p, d, j)
  {
    StepProj(Step(p, d, i), d, j - i);
    StepSplit(p, d, i, j - i);
  }

  /** Walking `i` then `k` steps is walking `i + k` steps. */
  lemma {:induction false} StepSplit(p: Place, d: Direction, i: nat, k: nat)
    ensures Step(Step(p, d, i), d, k) == Step(p, d, i + k)
  {
    if k > 0 {
      StepSplit(p, d, i, k - 1);
    }
  }

  /** The bounds check exactly as the source writes it: its four edge tests are
      joined by `||`, so every coordinate passes. */
  function InBound(p: Place): (r: bool)
    ensures r
  {
    p.x >= 0 || p.x < BoardSize || p.y >= 0 || p.y < BoardSize
  }

  /** The bounds check the grid's size calls for: the four tests joined by `&&`. */
  function InBoundIntended(p: Place): (r: bool)
  {
    0 <= p.x && p.x < BoardSize && 0 <= p.y && p.y < BoardSize
  }

  /** The written check lets through a coordinate the intended one rejects. */
  lemma InBoundAcceptsOffBoard()
    ensures InBound(Place(-1, 8)) && !InBoundIntended(Place(-1, 8))
  {
  }
}
