/** What a square of the 14x14 four-player board can hold, and the pure
    queries on the board's storage (in_bounds, is_empty, get_piece and the
    value side of set_piece in components/board.py). */
module Cells {

  /** The four seat colours 'w', 'b', 'r' and 'g'. */
  datatype Color = W | B | R | G

  /** The piece classes of components/pieces.py, as a tag. */
  datatype Kind = Pawn | Rook | Knight | Bishop | Queen | King

  datatype Piece = Piece(kind: Kind, color: Color)

  datatype Option<T> = None | Some(value: T)

  /** A (row, column) pair; the source's tuples carry arbitrary integers. */
  datatype Pos = Pos(row: int, col: int)

  /** The board's side length: Board.__init__'s default size. */
  const Size: nat := 14

  /** The grid of rows of optional pieces. */
  type Grid = seq<seq<Option<Piece>>>

  predicate IsGrid(g: Grid)
  {
    |g| == Size && forall r :: 0 <= r < Size ==> |g[r]| == Size
  }

  predicate InBounds(p: Pos)
  {
    0 <= p.row < Size && 0 <= p.col < Size
  }

  /** get_piece */
  function At(g: Grid, p: Pos): Option<Piece>
    requires IsGrid(g) && InBounds(p)
  {
    g[p.row][p.col]
  }

  /** is_empty, guarded by in_bounds as every caller in the pieces does. */
  predicate Vacant(g: Grid, p: Pos)
    requires IsGrid(g)
  {
    InBounds(p) && At(g, p).None?
  }

  /** An in-bounds square holding a piece of another colour. */
  predicate Hostile(g: Grid, color: Color, p: Pos)
    requires IsGrid(g)
  {
    InBounds(p) && At(g, p).Some? && At(g, p).value.color != color
  }

  /** An in-bounds square a piece of `color` may end on: empty or hostile. */
  predicate Enterable(g: Grid, color: Color, p: Pos)
    requires IsGrid(g)
  {
    Vacant(g, p) || Hostile(g, color, p)
  }

  /** The grid of Board.__init__ before any piece is placed. */
  function EmptyGrid(): (g: Grid)
    ensures IsGrid(g)
    ensures forall p :: InBounds(p) ==> At(g, p) == None
  {
    seq(Size, _ => seq(Size, _ => None))
  }

  /** The grid after set_piece(p, x): cell p holds x, every other cell is as before. */
  function Set(g: Grid, p: Pos, x: Option<Piece>): (h: Grid)
    requires IsGrid(g) && InBounds(p)
    ensures IsGrid(h)
    ensures At(h, p) == x
    ensures forall q :: InBounds(q) && q != p ==> At(h, q) == At(g, q)
  {
    g[p.row := g[p.row][p.col := x]]
  }
}
