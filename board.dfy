/** The Board class of components/board.py: the 14x14 grid, the fixed
    initial setup and the validated move. */
module Boards {
  import opened Cells
  import opened Pieces

  /** back_order of _init_pieces. */
  const BackRank: seq<Kind> := [Rook, Knight, Bishop, Queen, King, Bishop, Knight, Rook]

  // ---------------------------------------------------------------------------
  // The initial setup

  /** The square on which _init_pieces puts the file-th piece of colour c on
      row `depth` counted from that colour's edge (0: back rank, 1: pawns). */
  function Home(c: Color, depth: int, file: int): Pos
  {
    match c
    case W => Pos(13 - depth, 3 + file)
    case B => Pos(depth, 3 + file)
    case R => Pos(3 + file, 13 - depth)
    case G => Pos(3 + file, depth)
  }

  /** p's distance from colour c's edge. */
  function Depth(c: Color, p: Pos): int
  {
    match c
    case W => 13 - p.row
    case B => p.row
    case R => 13 - p.col
    case G => p.col
  }

  /** p's position along colour c's edge, counted from the first back-rank file. */
  function File(c: Color, p: Pos): int
  {
    match c
    case W => p.col - 3
    case B => p.col - 3
    case R => p.row - 3
    case G => p.row - 3
  }

  /** p is one of the 16 squares colour c starts on. */
  predicate InArmy(c: Color, p: Pos)
  {
    0 <= Depth(c, p) <= 1 && 0 <= File(c, p) < |BackRank|
  }

  function ArmyPiece(c: Color, p: Pos): Piece
    requires InArmy(c, p)
  {
    Piece(if Depth(c, p) == 0 then BackRank[File(c, p)] else Pawn, c)
  }

  /** What a square holds when the board has been set up. */
  function InitialCell(p: Pos): Option<Piece>
  {
    if InArmy(W, p) then Some(ArmyPiece(W, p))
    else if InArmy(B, p) then Some(ArmyPiece(B, p))
    else if InArmy(R, p) then Some(ArmyPiece(R, p))
    else if InArmy(G, p) then Some(ArmyPiece(G, p))
    else None
  }

  function InitialGrid(): (g: Grid)
    ensures IsGrid(g)
    ensures forall p :: InBounds(p) ==> At(g, p) == InitialCell(p)
  {
    seq(Size, r => seq(Size, c => InitialCell(Pos(r, c))))
  }

  /** Where each colour's king starts. */
  function KingHome(c: Color): Pos
  {
    match c
    case W => Pos(13, 7)
    case B => Pos(0, 7)
    case R => Pos(7, 13)
    case G => Pos(7, 0)
  }

  /** The camps of two different colours do not overlap. */
  lemma ArmiesDisjoint(c1: Color, c2: Color, p: Pos)
    requires InArmy(c1, p) && InArmy(c2, p)
    ensures c1 == c2
  {
  }

  lemma HomeFacts(c: Color, depth: int, file: int)
    requires 0 <= depth <= 1 && 0 <= file < |BackRank|
    ensures InBounds(Home(c, depth, file)) && InArmy(c, Home(c, depth, file))
    ensures Depth(c, Home(c, depth, file)) == depth && File(c, Home(c, depth, file)) == file
  {
  }

  /** The 64 squares written by _init_pieces are pairwise distinct, so no
      placement overwrites another. */
  lemma HomesDistinct(c1: Color, d1: int, f1: int, c2: Color, d2: int, f2: int)
    requires 0 <= d1 <= 1 && 0 <= f1 < |BackRank| && 0 <= d2 <= 1 && 0 <= f2 < |BackRank|
    requires Home(c1, d1, f1) == Home(c2, d2, f2)
    ensures c1 == c2 && d1 == d2 && f1 == f2
  {
    HomeFacts(c1, d1, f1);
    HomeFacts(c2, d2, f2);
    ArmiesDisjoint(c1, c2, Home(c1, d1, f1));
  }

  lemma BackRankKing(i: int)
    requires 0 <= i < |BackRank|
    ensures BackRank[i] == King <==> i == 4
  {
  }

  /** Each colour has exactly one king on the initial board, on its listed square. */
  lemma InitialKings(c: Color, p: Pos)
    requires InBounds(p)
    ensures InitialCell(p) == Some(Piece(King, c)) <==> p == KingHome(c)
  {
    if InArmy(c, p) {
      BackRankKing(File(c, p));
    }
    if InitialCell(p) == Some(Piece(King, c)) {
      assert InArmy(c, p);
    }
  }

  /** The squares of one row of colour c's camp, for the first n files. */
  ghost function Squares(c: Color, depth: int, n: int): set<Pos>
  {
    set f | 0 <= f < n :: Home(c, depth, f)
  }

  lemma {:induction false} SquaresCount(c: Color, depth: int, n: nat)
    ensures |Squares(c, depth, n)| == n
  {
    if n > 0 {
      SquaresCount(c, depth, n - 1);
      assert Squares(c, depth, n) == Squares(c, depth, n - 1) + {Home(c, depth, n - 1)};
      assert File(c, Home(c, depth, n - 1)) == n - 1;
      assert forall x :: x in Squares(c, depth, n - 1) ==> File(c, x) < n - 1;
    }
  }

  /** The squares of colour c's pieces on the initial board. */
  ghost function InitialSquares(c: Color): set<Pos>
  {
    set r, f | 0 <= r < Size && 0 <= f < Size && InitialCell(Pos(r, f)).Some?
      && InitialCell(Pos(r, f)).value.color == c :: Pos(r, f)
  }

  /** The squares of colour c's pawns on the initial board. */
  ghost function InitialPawns(c: Color): set<Pos>
  {
    set r, f | 0 <= r < Size && 0 <= f < Size
      && InitialCell(Pos(r, f)) == Some(Piece(Pawn, c)) :: Pos(r, f)
  }

  /** A square holds a piece of colour c initially exactly when it is in c's camp. */
  lemma InitialOwner(c: Color, p: Pos)
    ensures InitialCell(p).Some? && InitialCell(p).value.color == c <==> InArmy(c, p)
  {
    if InArmy(c, p) {
      if InArmy(W, p) { ArmiesDisjoint(c, W, p); }
      if InArmy(B, p) { ArmiesDisjoint(c, B, p); }
      if InArmy(R, p) { ArmiesDisjoint(c, R, p); }
    }
  }

  lemma InitialSquaresAreCamp(c: Color)
    ensures InitialSquares(c) == Squares(c, 0, 8) + Squares(c, 1, 8)
  {
    forall x | x in InitialSquares(c) ensures x in Squares(c, 0, 8) + Squares(c, 1, 8) {
      InitialOwner(c, x);
      assert x == Home(c, Depth(c, x), File(c, x));
    }
    forall x | x in Squares(c, 0, 8) + Squares(c, 1, 8) ensures x in InitialSquares(c) {
      var d :| 0 <= d <= 1 && x in Squares(c, d, 8);
      var f :| 0 <= f < 8 && x == Home(c, d, f);
      HomeFacts(c, d, f);
      InitialOwner(c, x);
      assert x == Pos(x.row, x.col);
    }
  }

  lemma InitialPawnsArePawnRow(c: Color)
    ensures InitialPawns(c) == Squares(c, 1, 8)
  {
    forall x | x in InitialPawns(c) ensures x in Squares(c, 1, 8) {
      InitialOwner(c, x);
      assert x == Home(c, Depth(c, x), File(c, x));
    }
    forall x | x in Squares(c, 1, 8) ensures x in InitialPawns(c) {
      var f :| 0 <= f < 8 && x == Home(c, 1, f);
      HomeFacts(c, 1, f);
      InitialOwner(c, x);
      assert x == Pos(x.row, x.col);
    }
  }

  /** The initial board gives every colour 16 pieces, 8 of them pawns. */
  lemma InitialArmySize(c: Color)
    ensures |InitialSquares(c)| == 16
    ensures |InitialPawns(c)| == 8
  {
    InitialSquaresAreCamp(c);
    forall x | x in Squares(c, 0, 8) ensures x !in Squares(c, 1, 8) {
      var f :| 0 <= f < 8 && x == Home(c, 0, f);
      HomeFacts(c, 0, f);
    }
    SquaresCount(c, 0, 8);
    SquaresCount(c, 1, 8);
    InitialPawnsArePawnRow(c);
  }

  // ---------------------------------------------------------------------------
  // Moving a piece

  /** The grid after the two set_piece calls of a move: the piece on `from`
      goes to `to`, overwriting whatever stood there, and `from` is emptied. */
  function Relocate(g: Grid, from: Pos, to: Pos): (h: Grid)
    requires IsGrid(g) && InBounds(from) && InBounds(to)
    ensures IsGrid(h)
    ensures At(h, from) == None
    ensures to != from ==> At(h, to) == At(g, from)
    ensures forall q :: InBounds(q) && q != from && q != to ==> At(h, q) == At(g, q)
  {
    Set(Set(g, to, At(g, from)), from, None)
  }

  /** The checks of Board.move: `from` is on the board and holds a piece of
      the mover's colour, and `to` is one of that piece's legal moves. */
  predicate CanMove(g: Grid, color: Color, from: Pos, to: Pos)
    requires IsGrid(g)
  {
    InBounds(from) && At(g, from).Some? && At(g, from).value.color == color
    && to in Moves(g, At(g, from).value, from)
  }

  /** A move that passes the checks changes exactly two squares: `to` gets the
      moving piece (capturing an enemy piece or landing on an empty square,
      never on an own piece) and `from` is emptied. */
  lemma MoveEffect(g: Grid, color: Color, from: Pos, to: Pos)
    requires IsGrid(g) && CanMove(g, color, from, to)
    ensures InBounds(to) && to != from
    ensures At(g, to).None? || At(g, to).value.color != color
    ensures var h := Relocate(g, from, to);
      && At(h, to) == At(g, from)
      && At(h, from) == None
      && forall q :: InBounds(q) && q != from && q != to ==> At(h, q) == At(g, q)
  {
    MovesSafe(g, At(g, from).value, from);
  }

  class Board {
    var grid: Grid

    ghost predicate Valid()
      reads this
    {
      IsGrid(grid)
    }

    /** Board(): an empty grid, then _init_pieces. */
    constructor ()
      ensures Valid()
      ensures forall p :: InBounds(p) ==> At(grid, p) == InitialCell(p)
    {
      grid := EmptyGrid();
      new;
      InitPieces();
    }

    method SetPiece(pos: Pos, piece: Option<Piece>)
      requires Valid() && InBounds(pos)
      modifies this
      ensures Valid()
      ensures grid == Set(old(grid), pos, piece)
    {
      grid := grid[pos.row := grid[pos.row][pos.col := piece]];
    }

    /** One of the four loops of _init_pieces: colour c's back rank and pawns. */
    method PlaceArmy(c: Color)
      requires Valid()
      modifies this
      ensures Valid()
      ensures forall p :: InBounds(p) ==>
        At(grid, p) == if InArmy(c, p) then Some(ArmyPiece(c, p)) else At(old(grid), p)
    {
      for i := 0 to |BackRank|
        invariant Valid()
        invariant forall p :: InBounds(p) ==>
          At(grid, p) == if InArmy(c, p) && File(c, p) < i then Some(ArmyPiece(c, p)) else At(old(grid), p)
      {
        HomeFacts(c, 0, i);
        HomeFacts(c, 1, i);
        SetPiece(Home(c, 0, i), Some(Piece(BackRank[i], c)));
        SetPiece(Home(c, 1, i), Some(Piece(Pawn, c)));
        forall p | InBounds(p) && InArmy(c, p) && File(c, p) == i
          ensures p == Home(c, Depth(c, p), i)
        {
        }
      }
    }

    /** _init_pieces: white, black, red and green in turn. */
    method InitPieces()
      requires Valid()
      modifies this
      ensures Valid()
      ensures forall p :: InBounds(p) ==>
        At(grid, p) == if InitialCell(p).Some? then InitialCell(p) else At(old(grid), p)
    {
      PlaceArmy(W);
      PlaceArmy(B);
      PlaceArmy(R);
      PlaceArmy(G);
      forall p | InBounds(p)
        ensures At(grid, p) == if InitialCell(p).Some? then InitialCell(p) else At(old(grid), p)
      {
        if InArmy(W, p) {
          if InArmy(B, p) { ArmiesDisjoint(W, B, p); }
          if InArmy(R, p) { ArmiesDisjoint(W, R, p); }
          if InArmy(G, p) { ArmiesDisjoint(W, G, p); }
        } else if InArmy(B, p) {
          if InArmy(R, p) { ArmiesDisjoint(B, R, p); }
          if InArmy(G, p) { ArmiesDisjoint(B, G, p); }
        } else if InArmy(R, p) {
          if InArmy(G, p) { ArmiesDisjoint(R, G, p); }
        }
      }
    }

    /** Board.move, with `from` checked to be on the board (see MoveAsWritten). */
    method Move(color: Color, from: Pos, to: Pos) returns (ok: bool)
      requires Valid()
      modifies this
      ensures Valid()
      ensures ok == CanMove(old(grid), color, from, to)
      ensures ok ==> InBounds(to) && grid == Relocate(old(grid), from, to)
      ensures !ok ==> grid == old(grid)
    {
      if !InBounds(from) {
        return false;
      }
      var piece := At(grid, from);
      if piece.None? || piece.value.color != color {
        return false;
      }
      var moves := LegalMoves(grid, piece.value, from);
      if to !in moves {
        return false;
      }
      MovesSafe(grid, piece.value, from);
      SetPiece(to, piece);
      SetPiece(from, None);
      return true;
    }
  }

  // ---------------------------------------------------------------------------
  // Board.move as written

  /** Python indexing into a list of Size elements: a negative index counts
      from the end; None stands for the IndexError any other index raises. */
  function PyIndex(i: int): Option<int>
  {
    if 0 <= i < Size then Some(i)
    else if i < 0 && 0 <= i + Size then Some(i + Size)
    else None
  }

  /** The square grid[r][c] denotes in Python, if any. */
  function PyCell(p: Pos): (cell: Option<Pos>)
    ensures cell.Some? ==> InBounds(cell.value)
    ensures InBounds(p) ==> cell == Some(p)
  {
    match (PyIndex(p.row), PyIndex(p.col))
    case (Some(r), Some(c)) => Some(Pos(r, c))
    case _ => None
  }

  datatype Outcome = Raised | Returned(ok: bool, grid: Grid)

  /** Board.move exactly as the source has it: get_piece and set_piece index
      the grid with the raw `from`, while legal_moves is computed from that
      raw position. On positions on the board it agrees with CanMove and
      Relocate. */
  function MoveAsWritten(g: Grid, color: Color, from: Pos, to: Pos): (out: Outcome)
    requires IsGrid(g)
    ensures InBounds(from) ==> out.Returned? && out.ok == CanMove(g, color, from, to)
    ensures InBounds(from) && out.Returned? && out.ok ==> InBounds(to) && out.grid == Relocate(g, from, to)
    ensures InBounds(from) && out.Returned? && !out.ok ==> out.grid == g
  {
    match PyCell(from)
    case None => Raised
    case Some(cell) =>
      var piece := At(g, cell);
      if piece.None? || piece.value.color != color then Returned(false, g)
      else if to !in Moves(g, piece.value, from) then Returned(false, g)
      else
        MovesSafe(g, piece.value, from);
        Returned(true, Relocate(g, cell, to))
  }

  /** On the initial board, white's move from (-1, 7) to (0, 7) passes every
      check of Board.move as written: get_piece((-1, 7)) finds the white king
      of (13, 7), whose king steps from (-1, 7) include (0, 7). The white king
      thus jumps across the board and captures the black king. Board.Move
      rejects the same move. */
  lemma WrappedMoveCapturesKing()
    ensures var g := InitialGrid();
      var out := MoveAsWritten(g, W, Pos(-1, 7), Pos(0, 7));
      && out == Returned(true, Relocate(g, Pos(13, 7), Pos(0, 7)))
      && At(out.grid, Pos(0, 7)) == Some(Piece(King, W))
      && At(out.grid, Pos(13, 7)) == None
      && (forall p :: InBounds(p) ==> At(out.grid, p) != Some(Piece(King, B)))
      && !CanMove(g, W, Pos(-1, 7), Pos(0, 7))
  {
    var g := InitialGrid();
    InitialKings(W, Pos(13, 7));
    InitialKings(B, Pos(0, 7));
    KingMember(g, W, Pos(-1, 7), Pos(0, 7));
    var h := Relocate(g, Pos(13, 7), Pos(0, 7));
    forall p | InBounds(p) ensures At(h, p) != Some(Piece(King, B)) {
      InitialKings(B, p);
    }
  }
}
