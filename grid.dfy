/** The 8x8 playfield shared by both simulations: directions, cell coordinates and the
    clamped one-cell moves of the villager simulation. */
module Grid {

  /** Rust's `u8`. */
  type U8 = x: int | 0 <= x < 256

  const GRID_WIDTH: U8 := 8
  const GRID_HEIGHT: U8 := 8

  datatype Direction = Up | Down | Left | Right

  /** The four directions in the order the growth rule scans them. */
  const CARDINAL_DIRECTIONS: seq<Direction> := [Up, Down, Left, Right]

  /** A cell as `(x, y)`; `y` grows downwards. */
  type Coords = (U8, U8)

  /** The direction drawn from a uniform index `n` in `[0, 4)`: 0 is Up, 1 Down, 2 Left,
      anything else Right. */
  function DirectionOf(n: nat): (d: Direction)
    ensures n < 4 ==> d == CARDINAL_DIRECTIONS[n]
    ensures n >= 4 ==> d == Right
  {
    match n
    case 0 => Up
    case 1 => Down
    case 2 => Left
    case _ => Right
  }

  /** The playfield proper: the border row and column on each side are reserved. */
  predicate Interior(c: Coords) {
    1 <= c.0 <= GRID_WIDTH - 2 && 1 <= c.1 <= GRID_HEIGHT - 2
  }

  /** The cell one step away in direction `d`, without any clamping. */
  function Shifted(c: Coords, d: Direction): (int, int) {
    match d
    case Up => (c.0, c.1 - 1)
    case Down => (c.0, c.1 + 1)
    case Left => (c.0 - 1, c.1)
    case Right => (c.0 + 1, c.1)
  }

  /** `b` is one of the four orthogonal neighbours of `a`. */
  predicate Adjacent(a: Coords, b: Coords) {
    (a.0 == b.0 && (a.1 - b.1 == 1 || b.1 - a.1 == 1)) ||
    (a.1 == b.1 && (a.0 - b.0 == 1 || b.0 - a.0 == 1))
  }

  /** A villager's (or a new farm's) move: one cell in `dir`, refused when the target leaves
      the interior. From an interior cell it stays interior; it either stays put or moves
      exactly one cell in `dir`, so it changes at most one axis, by one. */
  function CoordsAfterMove(c: Coords, dir: Direction): (r: Coords)
    ensures Interior(c) ==> Interior(r)
    ensures r == c || (r == Shifted(c, dir) && Adjacent(c, r))
  {
    var (x, y) := c;
    match dir
    case Up => if y > 1 then (x, y - 1) else (x, y)
    case Down => if y < GRID_HEIGHT - 2 then (x, y + 1) else (x, y)
    case Left => if x > 1 then (x - 1, y) else (x, y)
    case Right => if x < GRID_WIDTH - 2 then (x + 1, y) else (x, y)
  }

  /** Whether a move in `dir` is allowed; it holds exactly when the move changes the cell. */
  function CanMoveInDir(c: Coords, dir: Direction): (b: bool)
    ensures b <==> CoordsAfterMove(c, dir) != c
  {
    var (x, y) := c;
    match dir
    case Up => y > 1
    case Down => y < GRID_HEIGHT - 2
    case Left => x > 1
    case Right => x < GRID_WIDTH - 2
  }
}
