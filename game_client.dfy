/** The two pure helpers of the board display (GameClient.tsx): where a tile
    sits on the 11x11 grid and which colour class its type gets. */
module BoardView {
  import opened Types

  const BoardSide: nat := 11

  datatype Coord = Coord(row: int, col: int)

  /** Walks the perimeter: bottom row right to left, left column upwards,
      top row left to right, right column downwards. */
  function IndexToCoord(index: int): Coord
  {
    if index <= 10 then Coord(10, 10 - index)
    else if index <= 20 then Coord(10 - (index - 10), 0)
    else if index <= 30 then Coord(0, index - 20)
    else Coord(index - 30, 10)
  }

  predicate OnGrid(c: Coord)
  {
    0 <= c.row < BoardSide && 0 <= c.col < BoardSide
  }

  predicate OnBorder(c: Coord)
  {
    c.row == 0 || c.row == BoardSide - 1 || c.col == 0 || c.col == BoardSide - 1
  }

  /** The centre block the renderer fills with the decorative panel. */
  predicate InCentre(c: Coord)
  {
    3 <= c.row <= 7 && 3 <= c.col <= 7
  }

  lemma CoordOnBorder(i: int)
    requires 0 <= i < 40
    ensures OnGrid(IndexToCoord(i)) && OnBorder(IndexToCoord(i)) && !InCentre(IndexToCoord(i))
  {
  }

  lemma Corners()
    ensures IndexToCoord(0) == Coord(10, 10) && IndexToCoord(10) == Coord(10, 0)
    ensures IndexToCoord(20) == Coord(0, 0) && IndexToCoord(30) == Coord(0, 10)
  {
  }

  /** Distinct tiles get distinct cells, so the `row-col` keyed map of the
      board keeps all 40 tiles. */
  lemma CoordInjective(i: int, j: int)
    requires 0 <= i < 40 && 0 <= j < 40
    requires IndexToCoord(i) == IndexToCoord(j)
    ensures i == j
  {
  }

  /** The inverse walk: the tile index shown at a border cell. */
  function CoordToIndex(c: Coord): int
  {
    if c.row == 10 then 10 - c.col
    else if c.col == 0 then 20 - c.row
    else if c.row == 0 then 20 + c.col
    else 30 + c.row
  }

  lemma CoordRoundTrip(i: int)
    requires 0 <= i < 40
    ensures CoordToIndex(IndexToCoord(i)) == i
  {
  }

  /** Every border cell shows some tile: the 40 cells of the border are
      exactly the images of 0..39. */
  lemma BorderCovered(c: Coord)
    requires OnGrid(c) && OnBorder(c)
    ensures 0 <= CoordToIndex(c) < 40 && IndexToCoord(CoordToIndex(c)) == c
  {
  }

  /** The colour classes of the five tile types. */
  function TileTone(kind: TileType): string
  {
    match kind
    case PropertyTile => "border-cyan-400/70 bg-cyan-900/40"
    case Luck => "border-emerald-400/70 bg-emerald-900/30"
    case BadLuck => "border-rose-400/70 bg-rose-900/30"
    case SpecialEvent => "border-amber-300/70 bg-amber-900/30"
    case Neutral => "border-slate-600 bg-slate-800/80"
  }

  lemma TileToneDistinguishes(a: TileType, b: TileType)
    requires TileTone(a) == TileTone(b)
    ensures a == b
  {
  }
}
