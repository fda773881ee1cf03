/** The `Command` sum type (game/place.go, game/flip.go, game/skip.go) with its
    actor, its description, the placement's score, and the effect each command's
    `Commit` has on the grid, stated as pure functions. */
module Commands {
  import opened Geometry
  import opened Grid

  /** A single capture: turn over the piece at `place`. */
  datatype FlipPiece = FlipPiece(place: Place)

  /** The three implementers of the source's `Command` interface. */
  datatype Command =
    | PlacePiece(who: Color, place: Place, flips: seq<FlipPiece>)
    | Flip(flip: FlipPiece)
    | Skip(who: Color)

  /** `WhoDoes`: the player a command is attributed to; a flip belongs to nobody. */
  function WhoDoes(c: Command): (r: Color)
    ensures c.Flip? ==> r == None
    ensures !c.Flip? ==> r == c.who
  {
    match c
    case PlacePiece(who, _, _) => who
    case Flip(_) => None
    case Skip(who) => who
  }

  /** The `placePiece(x, y, c)` constructor: a placement with an empty flip list. */
  function NewPlacePiece(x: int, y: int, c: Color): (r: Command)
    ensures r.PlacePiece? && WhoDoes(r) == c && r.place == Place(x, y) && r.flips == []
  {
    PlacePiece(c, Place(x, y), [])
  }

  /** `PlacePiece.Score`: the number of pieces the placement turns over. */
  function Score(c: Command): (r: nat)
    requires c.PlacePiece?
  {
    |c.flips|
  }

  // ---------------------------------------------------------------------------
  // Descriptions

  /** The decimal digit for `d`. */
  function DigitChar(d: nat): char
    requires d < 10
  {
    "0123456789"[d]
  }

  /** The value of a decimal digit character. */
  function DigitValue(ch: char): int
  {
    ch as int - '0' as int
  }

  /** `%d` of a natural number: its decimal digits, most significant first. */
  function NatToString(n: nat): (s: string)
    ensures |s| > 0
    decreases n
  {
    if n < 10 then [DigitChar(n)] else NatToString(n / 10) + [DigitChar(n % 10)]
  }

  /** `%d` of any integer: a minus sign before the digits of a negative one. */
  function IntToString(i: int): (s: string)
    ensures |s| > 0
  {
    if i < 0 then "-" + NatToString(-i) else NatToString(i)
  }

  /** Reads back a string of decimal digits. */
  function DecimalValue(s: string): int
  {
    if s == [] then 0 else DecimalValue(s[..|s| - 1]) * 10 + DigitValue(s[|s| - 1])
  }

  /** Reads back what `IntToString` writes. */
  function ParseInt(s: string): int
  {
    if |s| > 0 && s[0] == '-' then -DecimalValue(s[1..]) else DecimalValue(s)
  }

  /** The digits of a natural number read back as that number, and contain no sign. */
  lemma {:induction false} NatToStringRoundTrip(n: nat)
    ensures DecimalValue(NatToString(n)) == n
    ensures NatToString(n)[0] != '-'
  {
    var s := NatToString(n);
    if n >= 10 {
      NatToStringRoundTrip(n / 10);
      assert s[..|s| - 1] == NatToString(n / 10);
    } else {
      assert s[..|s| - 1] == [];
    }
  }

  /** Every integer's decimal text reads back as that integer. */
  lemma IntToStringRoundTrip(i: int)
    ensures ParseInt(IntToString(i)) == i
  {
    if i < 0 {
      NatToStringRoundTrip(-i);
      assert IntToString(i)[1..] == NatToString(-i);
    } else {
      NatToStringRoundTrip(i);
    }
  }

  /** `Describe`: the log line of a command. */
  function Describe(c: Command): (s: string)
  {
    match c
    case PlacePiece(who, place, _) =>
      ColorName(who) + " was placed at {x: " + IntToString(place.x) + ", y: " + IntToString(place.y) + "}."
    case Flip(_) => "flips."
    case Skip(who) => ColorName(who) + " was skipped."
  }

  /** The coordinates can be read back from a placement's log line: the text between
      the fixed pieces is the decimal form of x and of y. */
  lemma DescribePlacement(who: Color, place: Place, flips: seq<FlipPiece>)
    ensures var s := Describe(PlacePiece(who, place, flips));
      var head := ColorName(who) + " was placed at {x: ";
      var xs := IntToString(place.x);
      var mid := ", y: ";
      var ys := IntToString(place.y);
      && s == head + xs + mid + ys + "}."
      && ParseInt(s[|head|..|head| + |xs|]) == place.x
      && ParseInt(s[|head| + |xs| + |mid|..|s| - 2]) == place.y
  {
    var head := ColorName(who) + " was placed at {x: ";
    var xs := IntToString(place.x);
    var mid := ", y: ";
    var ys := IntToString(place.y);
    var s := head + xs + mid + ys + "}.";
    assert s[|head|..|head| + |xs|] == xs;
    assert s[|head| + |xs| + |mid|..|s| - 2] == ys;
    IntToStringRoundTrip(place.x);
    IntToStringRoundTrip(place.y);
  }

  /** A pass is logged as its player's name followed by " was skipped.", and
      the player can be read back from the line: no two players' passes are
      logged alike. */
  lemma DescribeSkip(who: Color)
    ensures var s := Describe(Skip(who));
      && s[..|ColorName(who)|] == ColorName(who)
      && s[|ColorName(who)|..] == " was skipped."
    ensures forall other :: Describe(Skip(other)) == Describe(Skip(who)) ==> other == who
  {
    forall other | Describe(Skip(other)) == Describe(Skip(who)) ensures other == who {
      var s := Describe(Skip(who));
      assert Describe(Skip(other))[0] == s[0] && |Describe(Skip(other))| == |s|;
    }
  }

  // ---------------------------------------------------------------------------
  // What `Commit` does to the grid

  /** `FlipPiece.Commit`: an empty (or missing) cell cannot be flipped; any other
      cell takes the opposite colour. */
  function FlipGrid(f: FlipPiece, g: Pieces): (r: Result<Pieces>)
  {
    match GetPiece(g, f.place.x, f.place.y)
    case Err(e) => Err(e)
    case Ok(color) =>
      if color == None then Err(InvalidOperation)
      else SetPiece(g, f.place.x, f.place.y, Opposite(color))
  }

  /** The flips of a placement, committed one after another; the first failure
      stops the sequence and is the result. */
  function ApplyFlips(g: Pieces, flips: seq<FlipPiece>): Result<Pieces>
    decreases |flips|
  {
    if flips == [] then Ok(g)
    else match FlipGrid(flips[0], g)
      case Err(e) => Err(e)
      case Ok(g1) => ApplyFlips(g1, flips[1..])
  }

  /** The grid after `Commit`: a placement writes its colour and then its flips,
      a flip turns one piece, a pass changes nothing. */
  function CommitGrid(c: Command, g: Pieces): Result<Pieces>
  {
    match c
    case PlacePiece(who, place, flips) =>
      (match SetPiece(g, place.x, place.y, who)
       case Err(e) => Err(e)
       case Ok(g1) => ApplyFlips(g1, flips))
    case Flip(f) => FlipGrid(f, g)
    case Skip(_) => Ok(g)
  }

  /** Flipping fails exactly on a cell that reads empty, and otherwise changes that
      one cell to the opposite colour and nothing else. */
  lemma FlipSemantics(f: FlipPiece, g: Pieces)
    ensures FlipGrid(f, g).Err? <==> Lookup(g, f.place) == None
    ensures Lookup(g, f.place) == None ==> FlipGrid(f, g) == Err(InvalidOperation)
    ensures FlipGrid(f, g).Ok? ==>
      && FlipGrid(f, g).value.Keys == g.Keys
      && Lookup(FlipGrid(f, g).value, f.place) == Opposite(Lookup(g, f.place))
      && forall q :: q != f.place ==> Lookup(FlipGrid(f, g).value, q) == Lookup(g, q)
  {
  }

  /** Flipping the same cell twice gives back the grid one started from. */
  lemma FlipTwice(f: FlipPiece, g: Pieces)
    requires FlipGrid(f, g).Ok?
    ensures FlipGrid(f, FlipGrid(f, g).value) == Ok(g)
  {
    var p := f.place;
    var g1 := FlipGrid(f, g).value;
    OppositeInvolution(g[p]);
    assert g1 == g[p := Opposite(g[p])];
    assert g1[p := Opposite(g1[p])] == g;
  }

  /** A pass always succeeds and leaves the grid as it is. */
  lemma SkipCommit(who: Color, g: Pieces)
    ensures CommitGrid(Skip(who), g) == Ok(g)
  {
  }

  /** A placement overwrites its target whatever the target held; with no flips
      it changes that one cell and nothing else. */
  lemma PlaceOverwrites(who: Color, place: Place, g: Pieces)
    ensures CommitGrid(PlacePiece(who, place, []), g) == Ok(g[place := who])
  {
  }

  /** A placement whose first flip fails fails with that flip's error, even when
      later flips would succeed. */
  lemma PlaceFailsOnFirstBadFlip(who: Color, place: Place, flips: seq<FlipPiece>, g: Pieces, k: nat)
    requires k < |flips|
    requires ApplyFlips(g[place := who], flips[..k]).Ok?
    requires FlipGrid(flips[k], ApplyFlips(g[place := who], flips[..k]).value).Err?
    ensures CommitGrid(PlacePiece(who, place, flips), g) ==
      FlipGrid(flips[k], ApplyFlips(g[place := who], flips[..k]).value)
  {
    ApplyFlipsPrefix(g[place := who], flips, k);
  }

  /** Committing the flips splits at any point: the first `k`, then the rest. */
  lemma {:induction false} ApplyFlipsPrefix(g: Pieces, flips: seq<FlipPiece>, k: nat)
    requires k <= |flips|
    ensures ApplyFlips(g, flips) ==
      match ApplyFlips(g, flips[..k])
      case Err(e) => Err(e)
      case Ok(g1) => ApplyFlips(g1, flips[k..])
    decreases k
  {
    if k > 0 {
      assert flips[..k][0] == flips[0];
      assert flips[..k][1..] == flips[1..][..k - 1];
      match FlipGrid(flips[0], g)
      case Err(e) =>
      case Ok(g1) =>
        ApplyFlipsPrefix(g1, flips[1..], k - 1);
        assert flips[1..][k - 1..] == flips[k..];
    }
  }
}
