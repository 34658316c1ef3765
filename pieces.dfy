/** Move generation of components/pieces.py. Each piece class's legal_moves
    becomes a method whose loops build the list of destinations; each is
    proved equal to a recursive specification function, and lemmas
    characterise those functions geometrically. The methods take the grid
    as a value, so none of them can change the board. */
module Pieces {
  import opened Cells

  /** A (row, column) displacement. */
  datatype Vec = Vec(dr: int, dc: int)

  function Shift(p: Pos, v: Vec): Pos
  {
    Pos(p.row + v.dr, p.col + v.dc)
  }

  function Abs(x: int): nat
  {
    if x < 0 then -x else x
  }

  /** The dirs table: the direction in which a pawn of each colour advances. */
  function Forward(c: Color): Vec
  {
    match c
    case W => Vec(-1, 0)
    case B => Vec(1, 0)
    case R => Vec(0, -1)
    case G => Vec(0, 1)
  }

  /** A non-zero displacement of at most one square in each coordinate. */
  predicate IsStep(d: Vec)
  {
    -1 <= d.dr <= 1 && -1 <= d.dc <= 1 && d != Vec(0, 0)
  }

  predicate AllSteps(dirs: seq<Vec>)
  {
    forall i :: 0 <= i < |dirs| ==> IsStep(dirs[i])
  }

  const RookDirs: seq<Vec> := [Vec(1, 0), Vec(-1, 0), Vec(0, 1), Vec(0, -1)]
  const BishopDirs: seq<Vec> := [Vec(1, 1), Vec(1, -1), Vec(-1, 1), Vec(-1, -1)]
  const KnightOffsets: seq<Vec> :=
    [Vec(2, 1), Vec(2, -1), Vec(-2, 1), Vec(-2, -1), Vec(1, 2), Vec(1, -2), Vec(-1, 2), Vec(-1, -2)]
  const KingOffsets: seq<Vec> :=
    [Vec(1, 0), Vec(-1, 0), Vec(0, 1), Vec(0, -1), Vec(1, 1), Vec(1, -1), Vec(-1, 1), Vec(-1, -1)]

  /** The two sideways offsets, taken from the square ahead, on which a pawn
      advancing along d captures. */
  function PawnSides(d: Vec): seq<Vec>
  {
    [Vec(-d.dc, d.dr), Vec(d.dc, -d.dr)]
  }

  // ---------------------------------------------------------------------------
  // Specification functions

  /** Whether a square passes the test a jumping piece applies before listing
      it: enemy-occupied for a pawn capture, otherwise empty or enemy-occupied. */
  predicate Admits(g: Grid, color: Color, q: Pos, captureOnly: bool)
    requires IsGrid(g)
  {
    if captureOnly then Hostile(g, color, q) else Enterable(g, color, q)
  }

  /** The squares `from + offsets[i]`, in table order, that pass the test. */
  function Jumps(g: Grid, color: Color, from: Pos, offsets: seq<Vec>, captureOnly: bool): seq<Pos>
    requires IsGrid(g)
    decreases |offsets|
  {
    if offsets == [] then []
    else
      var q := Shift(from, offsets[|offsets| - 1]);
      Jumps(g, color, from, offsets[..|offsets| - 1], captureOnly)
        + (if Admits(g, color, q, captureOnly) then [q] else [])
  }

  /** An upper bound on how many more in-bounds squares a ray along d meets,
      starting at p: the distance to the board's edge along the rows, or
      along the columns when d.dr == 0. On a diagonal the ray may leave the
      board sooner through the other edge. It serves as the termination
      measure of a ray, and it drops by one at each step that stays on the
      board. */
  function Reach(p: Pos, d: Vec): nat
  {
    if !InBounds(p) then 0
    else if d.dr == 1 then Size - p.row
    else if d.dr == -1 then p.row + 1
    else if d.dc == 1 then Size - p.col
    else p.col + 1
  }

  /** The square k steps along d from p. */
  function Walk(p: Pos, d: Vec, k: nat): Pos
    decreases k
  {
    if k == 0 then p else Walk(Shift(p, d), d, k - 1)
  }

  /** What a sliding piece lists along one ray whose first square is p. */
  function Slide(g: Grid, color: Color, p: Pos, d: Vec): seq<Pos>
    requires IsGrid(g) && IsStep(d)
    decreases Reach(p, d)
  {
    if !InBounds(p) then []
    else if At(g, p).None? then [p] + Slide(g, color, Shift(p, d), d)
    else if At(g, p).value.color != color then [p]
    else []
  }

  /** The rays along dirs from pos, concatenated in table order. */
  function Rays(g: Grid, color: Color, pos: Pos, dirs: seq<Vec>): seq<Pos>
    requires IsGrid(g) && AllSteps(dirs)
    decreases |dirs|
  {
    if dirs == [] then []
    else
      var d := dirs[|dirs| - 1];
      Rays(g, color, pos, dirs[..|dirs| - 1]) + Slide(g, color, Shift(pos, d), d)
  }

  function PawnMoves(g: Grid, color: Color, pos: Pos): seq<Pos>
    requires IsGrid(g)
  {
    var ahead := Shift(pos, Forward(color));
    (if Vacant(g, ahead) then [ahead] else [])
      + Jumps(g, color, ahead, PawnSides(Forward(color)), true)
  }

  function RookMoves(g: Grid, color: Color, pos: Pos): seq<Pos>
    requires IsGrid(g)
  {
    Rays(g, color, pos, RookDirs)
  }

  function BishopMoves(g: Grid, color: Color, pos: Pos): seq<Pos>
    requires IsGrid(g)
  {
    Rays(g, color, pos, BishopDirs)
  }

  function KnightMoves(g: Grid, color: Color, pos: Pos): seq<Pos>
    requires IsGrid(g)
  {
    Jumps(g, color, pos, KnightOffsets, false)
  }

  function KingMoves(g: Grid, color: Color, pos: Pos): seq<Pos>
    requires IsGrid(g)
  {
    Jumps(g, color, pos, KingOffsets, false)
  }

  /** legal_moves, dispatched on the piece's kind. */
  function Moves(g: Grid, piece: Piece, pos: Pos): seq<Pos>
    requires IsGrid(g)
  {
    match piece.kind
    case Pawn => PawnMoves(g, piece.color, pos)
    case Rook => RookMoves(g, piece.color, pos)
    case Bishop => BishopMoves(g, piece.color, pos)
    case Knight => KnightMoves(g, piece.color, pos)
    case Queen => RookMoves(g, piece.color, pos) + BishopMoves(g, piece.color, pos)
    case King => KingMoves(g, piece.color, pos)
  }

  // ---------------------------------------------------------------------------
  // Geometry used to characterise the moves

  /** How far q lies ahead of p in the direction a pawn of colour c advances. */
  function Advance(c: Color, p: Pos, q: Pos): int
  {
    match c
    case W => p.row - q.row
    case B => q.row - p.row
    case R => p.col - q.col
    case G => q.col - p.col
  }

  /** How far q lies to the side of p, across that direction. */
  function Lateral(c: Color, p: Pos, q: Pos): int
  {
    match c
    case W => q.col - p.col
    case B => q.col - p.col
    case R => q.row - p.row
    case G => q.row - p.row
  }

  predicate IsKnightJump(p: Pos, q: Pos)
  {
    var a, b := Abs(q.row - p.row), Abs(q.col - p.col);
    (a == 1 && b == 2) || (a == 2 && b == 1)
  }

  /** Chebyshev distance 1. */
  predicate IsKingStep(p: Pos, q: Pos)
  {
    Abs(q.row - p.row) <= 1 && Abs(q.col - p.col) <= 1 && p != q
  }

  /** q is reached from pos along d across empty squares only, and is itself
      empty or enemy-occupied. */
  ghost predicate SlidesTo(g: Grid, color: Color, pos: Pos, d: Vec, q: Pos)
    requires IsGrid(g)
  {
    exists k: nat :: q == Walk(Shift(pos, d), d, k) && Enterable(g, color, q)
      && forall j :: 0 <= j < k ==> Vacant(g, Walk(Shift(pos, d), d, j))
  }

  // ---------------------------------------------------------------------------
  // Lemmas about the specification functions

  /** A ray lists, in order, the squares p, p+d, p+2d, ...: all of them on the
      board, all but the last empty, the last empty or enemy-occupied; and it
      stops only at the edge, at an own piece, or just after an enemy piece. */
  lemma {:induction false} SlideShape(g: Grid, color: Color, p: Pos, d: Vec)
    requires IsGrid(g) && IsStep(d)
    ensures var s := Slide(g, color, p, d);
      && (forall k :: 0 <= k < |s| ==>
            s[k] == Walk(p, d, k) && InBounds(s[k]) && Reach(s[k], d) + k == Reach(p, d))
      && (forall k :: 0 <= k < |s| - 1 ==> At(g, s[k]).None?)
      && (|s| > 0 ==> Enterable(g, color, s[|s| - 1]))
      && ((|s| == 0 || At(g, s[|s| - 1]).None?) ==> !Enterable(g, color, Walk(p, d, |s|)))
    decreases Reach(p, d)
  {
    var s := Slide(g, color, p, d);
    if InBounds(p) && At(g, p).None? {
      var n := Shift(p, d);
      SlideShape(g, color, n, d);
      var t := Slide(g, color, n, d);
      assert s == [p] + t;
      forall k | 0 < k < |s|
        ensures s[k] == Walk(p, d, k) && InBounds(s[k]) && Reach(s[k], d) + k == Reach(p, d)
      {
        assert s[k] == t[k - 1];
      }
      assert Walk(p, d, |s|) == Walk(n, d, |t|);
    }
  }

  /** A square that is reached across empty squares and may be entered is listed. */
  lemma {:induction false} SlideCovers(g: Grid, color: Color, p: Pos, d: Vec, k: nat)
    requires IsGrid(g) && IsStep(d)
    requires forall j :: 0 <= j < k ==> Vacant(g, Walk(p, d, j))
    requires Enterable(g, color, Walk(p, d, k))
    ensures k < |Slide(g, color, p, d)|
    decreases k
  {
    if k > 0 {
      assert Vacant(g, Walk(p, d, 0));
      var n := Shift(p, d);
      forall j | 0 <= j < k - 1 ensures Vacant(g, Walk(n, d, j)) {
        assert Walk(p, d, j + 1) == Walk(n, d, j);
      }
      SlideCovers(g, color, n, d, k - 1);
    }
  }

  /** The squares a ray from pos along d lists are exactly those it slides to. */
  lemma SlideMember(g: Grid, color: Color, pos: Pos, d: Vec, q: Pos)
    requires IsGrid(g) && IsStep(d)
    ensures q in Slide(g, color, Shift(pos, d), d) <==> SlidesTo(g, color, pos, d, q)
  {
    var p := Shift(pos, d);
    var s := Slide(g, color, p, d);
    SlideShape(g, color, p, d);
    if q in s {
      var k :| 0 <= k < |s| && s[k] == q;
      forall j | 0 <= j < k ensures Vacant(g, Walk(p, d, j)) {
        assert s[j] == Walk(p, d, j);
      }
      assert q == Walk(p, d, k) && Enterable(g, color, q);
    }
    if SlidesTo(g, color, pos, d, q) {
      var k: nat :| q == Walk(p, d, k) && Enterable(g, color, q)
        && forall j :: 0 <= j < k ==> Vacant(g, Walk(p, d, j));
      SlideCovers(g, color, p, d, k);
      assert s[k] == q;
    }
  }

  /** Every square a ray lists is enterable and differs from the slider's own square. */
  lemma SlideSafe(g: Grid, color: Color, pos: Pos, d: Vec)
    requires IsGrid(g) && IsStep(d)
    ensures forall q :: q in Slide(g, color, Shift(pos, d), d) ==> Enterable(g, color, q) && q != pos
  {
    var p := Shift(pos, d);
    var s := Slide(g, color, p, d);
    SlideShape(g, color, p, d);
    forall q | q in s ensures Enterable(g, color, q) && q != pos {
      var k :| 0 <= k < |s| && s[k] == q;
      if k < |s| - 1 {
        assert At(g, s[k]).None?;
      }
      if InBounds(pos) {
        assert Reach(p, d) + 1 == Reach(pos, d);
      }
    }
  }

  lemma {:induction false} RaysMember(g: Grid, color: Color, pos: Pos, dirs: seq<Vec>, q: Pos)
    requires IsGrid(g) && AllSteps(dirs)
    ensures q in Rays(g, color, pos, dirs) <==>
      exists i :: 0 <= i < |dirs| && q in Slide(g, color, Shift(pos, dirs[i]), dirs[i])
    decreases |dirs|
  {
    if dirs != [] {
      var front := dirs[..|dirs| - 1];
      RaysMember(g, color, pos, front, q);
      if exists i :: 0 <= i < |front| && q in Slide(g, color, Shift(pos, front[i]), front[i]) {
        var i :| 0 <= i < |front| && q in Slide(g, color, Shift(pos, front[i]), front[i]);
        assert dirs[i] == front[i];
      }
      if exists i :: 0 <= i < |dirs| && q in Slide(g, color, Shift(pos, dirs[i]), dirs[i]) {
        var i :| 0 <= i < |dirs| && q in Slide(g, color, Shift(pos, dirs[i]), dirs[i]);
        if i < |front| {
          assert front[i] == dirs[i];
        }
      }
    }
  }

  lemma {:induction false} JumpsMember(g: Grid, color: Color, from: Pos, offsets: seq<Vec>, captureOnly: bool, q: Pos)
    requires IsGrid(g)
    ensures q in Jumps(g, color, from, offsets, captureOnly) <==>
      exists i :: 0 <= i < |offsets| && q == Shift(from, offsets[i]) && Admits(g, color, q, captureOnly)
    decreases |offsets|
  {
    if offsets != [] {
      var front := offsets[..|offsets| - 1];
      JumpsMember(g, color, from, front, captureOnly, q);
      if exists i :: 0 <= i < |front| && q == Shift(from, front[i]) && Admits(g, color, q, captureOnly) {
        var i :| 0 <= i < |front| && q == Shift(from, front[i]) && Admits(g, color, q, captureOnly);
        assert offsets[i] == front[i];
      }
      if exists i :: 0 <= i < |offsets| && q == Shift(from, offsets[i]) && Admits(g, color, q, captureOnly) {
        var i :| 0 <= i < |offsets| && q == Shift(from, offsets[i]) && Admits(g, color, q, captureOnly);
        if i < |front| {
          assert front[i] == offsets[i];
        }
      }
    }
  }

  /** The rook's and the bishop's direction tables: the four orthogonal and
      the four diagonal single steps. */
  lemma DirTables(d: Vec)
    ensures d in RookDirs <==> IsStep(d) && (d.dr == 0 || d.dc == 0)
    ensures d in BishopDirs <==> IsStep(d) && d.dr != 0 && d.dc != 0
  {
  }

  /** Pawn: one square straight ahead onto an empty square, or one square
      diagonally ahead onto an enemy piece; "ahead" is the colour's dirs entry. */
  lemma PawnMember(g: Grid, color: Color, pos: Pos, q: Pos)
    requires IsGrid(g)
    ensures q in PawnMoves(g, color, pos) <==>
      Advance(color, pos, q) == 1 &&
      ((Lateral(color, pos, q) == 0 && Vacant(g, q)) ||
       (Abs(Lateral(color, pos, q)) == 1 && Hostile(g, color, q)))
  {
    var d := Forward(color);
    var ahead := Shift(pos, d);
    var sides := PawnSides(d);
    JumpsMember(g, color, ahead, sides, true, q);
    if Advance(color, pos, q) == 1 && Abs(Lateral(color, pos, q)) == 1 && Hostile(g, color, q) {
      if q == Shift(ahead, sides[0]) {
      } else {
        assert q == Shift(ahead, sides[1]);
      }
    }
  }

  lemma KnightTable(pos: Pos, q: Pos)
    ensures (exists i :: 0 <= i < |KnightOffsets| && q == Shift(pos, KnightOffsets[i])) <==> IsKnightJump(pos, q)
  {
    var dr, dc := q.row - pos.row, q.col - pos.col;
    if IsKnightJump(pos, q) {
      var i := if dr == 2 && dc == 1 then 0
        else if dr == 2 && dc == -1 then 1
        else if dr == -2 && dc == 1 then 2
        else if dr == -2 && dc == -1 then 3
        else if dr == 1 && dc == 2 then 4
        else if dr == 1 && dc == -2 then 5
        else if dr == -1 && dc == 2 then 6
        else 7;
      assert q == Shift(pos, KnightOffsets[i]);
    }
  }

  lemma KingTable(pos: Pos, q: Pos)
    ensures (exists i :: 0 <= i < |KingOffsets| && q == Shift(pos, KingOffsets[i])) <==> IsKingStep(pos, q)
  {
    var dr, dc := q.row - pos.row, q.col - pos.col;
    if IsKingStep(pos, q) {
      var i := if dr == 1 && dc == 0 then 0
        else if dr == -1 && dc == 0 then 1
        else if dr == 0 && dc == 1 then 2
        else if dr == 0 && dc == -1 then 3
        else if dr == 1 && dc == 1 then 4
        else if dr == 1 && dc == -1 then 5
        else if dr == -1 && dc == 1 then 6
        else 7;
      assert q == Shift(pos, KingOffsets[i]);
    }
  }

  /** Knight: the squares at offsets {|dr|, |dc|} = {1, 2} that are empty or enemy-occupied. */
  lemma KnightMember(g: Grid, color: Color, pos: Pos, q: Pos)
    requires IsGrid(g)
    ensures q in KnightMoves(g, color, pos) <==> IsKnightJump(pos, q) && Enterable(g, color, q)
  {
    JumpsMember(g, color, pos, KnightOffsets, false, q);
    KnightTable(pos, q);
  }

  /** King: the squares at Chebyshev distance 1 that are empty or enemy-occupied. */
  lemma KingMember(g: Grid, color: Color, pos: Pos, q: Pos)
    requires IsGrid(g)
    ensures q in KingMoves(g, color, pos) <==> IsKingStep(pos, q) && Enterable(g, color, q)
  {
    JumpsMember(g, color, pos, KingOffsets, false, q);
    KingTable(pos, q);
  }

  /** Rook: the squares it slides to along an orthogonal ray. */
  lemma RookMember(g: Grid, color: Color, pos: Pos, q: Pos)
    requires IsGrid(g)
    ensures q in RookMoves(g, color, pos) <==>
      exists d :: IsStep(d) && (d.dr == 0 || d.dc == 0) && SlidesTo(g, color, pos, d, q)
  {
    RaysMember(g, color, pos, RookDirs, q);
    if q in RookMoves(g, color, pos) {
      var i :| 0 <= i < |RookDirs| && q in Slide(g, color, Shift(pos, RookDirs[i]), RookDirs[i]);
      var d := RookDirs[i];
      DirTables(d);
      SlideMember(g, color, pos, d, q);
    }
    if exists d :: IsStep(d) && (d.dr == 0 || d.dc == 0) && SlidesTo(g, color, pos, d, q) {
      var d :| IsStep(d) && (d.dr == 0 || d.dc == 0) && SlidesTo(g, color, pos, d, q);
      DirTables(d);
      var i :| 0 <= i < |RookDirs| && RookDirs[i] == d;
      SlideMember(g, color, pos, d, q);
    }
  }

  /** Bishop: the squares it slides to along a diagonal ray. */
  lemma BishopMember(g: Grid, color: Color, pos: Pos, q: Pos)
    requires IsGrid(g)
    ensures q in BishopMoves(g, color, pos) <==>
      exists d :: IsStep(d) && d.dr != 0 && d.dc != 0 && SlidesTo(g, color, pos, d, q)
  {
    RaysMember(g, color, pos, BishopDirs, q);
    if q in BishopMoves(g, color, pos) {
      var i :| 0 <= i < |BishopDirs| && q in Slide(g, color, Shift(pos, BishopDirs[i]), BishopDirs[i]);
      var d := BishopDirs[i];
      DirTables(d);
      SlideMember(g, color, pos, d, q);
    }
    if exists d :: IsStep(d) && d.dr != 0 && d.dc != 0 && SlidesTo(g, color, pos, d, q) {
      var d :| IsStep(d) && d.dr != 0 && d.dc != 0 && SlidesTo(g, color, pos, d, q);
      DirTables(d);
      var i :| 0 <= i < |BishopDirs| && BishopDirs[i] == d;
      SlideMember(g, color, pos, d, q);
    }
  }

  /** Queen: the squares it slides to along any of the eight rays. */
  lemma QueenMember(g: Grid, color: Color, pos: Pos, q: Pos)
    requires IsGrid(g)
    ensures q in Moves(g, Piece(Queen, color), pos) <==>
      exists d :: IsStep(d) && SlidesTo(g, color, pos, d, q)
  {
    RookMember(g, color, pos, q);
    BishopMember(g, color, pos, q);
    if exists d :: IsStep(d) && SlidesTo(g, color, pos, d, q) {
      var d :| IsStep(d) && SlidesTo(g, color, pos, d, q);
      if d.dr == 0 || d.dc == 0 {
        assert q in RookMoves(g, color, pos);
      } else {
        assert q in BishopMoves(g, color, pos);
      }
    }
  }

  lemma RaysSafe(g: Grid, color: Color, pos: Pos, dirs: seq<Vec>)
    requires IsGrid(g) && AllSteps(dirs)
    ensures forall q :: q in Rays(g, color, pos, dirs) ==> Enterable(g, color, q) && q != pos
  {
    forall q | q in Rays(g, color, pos, dirs) ensures Enterable(g, color, q) && q != pos {
      RaysMember(g, color, pos, dirs, q);
      var i :| 0 <= i < |dirs| && q in Slide(g, color, Shift(pos, dirs[i]), dirs[i]);
      SlideSafe(g, color, pos, dirs[i]);
    }
  }

  /** Every destination any piece lists is on the board, is empty or holds an
      enemy piece (never an own piece), and is not the piece's own square. */
  lemma MovesSafe(g: Grid, piece: Piece, pos: Pos)
    requires IsGrid(g)
    ensures forall q :: q in Moves(g, piece, pos) ==> Enterable(g, piece.color, q) && q != pos
  {
    var c := piece.color;
    match piece.kind
    case Pawn =>
      forall q | q in PawnMoves(g, c, pos) ensures Enterable(g, c, q) && q != pos {
        PawnMember(g, c, pos, q);
      }
    case Rook => RaysSafe(g, c, pos, RookDirs);
    case Bishop => RaysSafe(g, c, pos, BishopDirs);
    case Queen =>
      RaysSafe(g, c, pos, RookDirs);
      RaysSafe(g, c, pos, BishopDirs);
    case Knight =>
      forall q | q in KnightMoves(g, c, pos) ensures Enterable(g, c, q) && q != pos {
        KnightMember(g, c, pos, q);
      }
    case King =>
      forall q | q in KingMoves(g, c, pos) ensures Enterable(g, c, q) && q != pos {
        KingMember(g, c, pos, q);
      }
  }

  // ---------------------------------------------------------------------------
  // The legal_moves methods

  /** The loop shared by the pawn's captures and the knight's and king's
      offset tables: keep each `from + offset` that passes the test. */
  method JumpMoves(g: Grid, color: Color, from: Pos, offsets: seq<Vec>, captureOnly: bool)
    returns (moves: seq<Pos>)
    requires IsGrid(g)
    ensures moves == Jumps(g, color, from, offsets, captureOnly)
  {
    moves := [];
    for i := 0 to |offsets|
      invariant moves == Jumps(g, color, from, offsets[..i], captureOnly)
    {
      var q := Shift(from, offsets[i]);
      if InBounds(q) {
        var target := At(g, q);
        var keep := if captureOnly then target.Some? && target.value.color != color
                    else target.None? || target.value.color != color;
        if keep {
          moves := moves + [q];
        }
      }
      assert offsets[..i + 1][..i] == offsets[..i];
    }
    assert offsets[..|offsets|] == offsets;
  }

  /** The loop shared by Rook and Bishop: for each direction, walk while on
      the board, listing empty squares and stopping at the first occupied one,
      which is listed when it holds an enemy piece. */
  method SlidingMoves(g: Grid, color: Color, pos: Pos, dirs: seq<Vec>) returns (moves: seq<Pos>)
    requires IsGrid(g) && AllSteps(dirs)
    ensures moves == Rays(g, color, pos, dirs)
  {
    moves := [];
    for i := 0 to |dirs|
      invariant moves == Rays(g, color, pos, dirs[..i])
    {
      var d := dirs[i];
      var sq := Shift(pos, d);
      ghost var before := moves;
      while InBounds(sq)
        invariant moves + Slide(g, color, sq, d) == before + Slide(g, color, Shift(pos, d), d)
        decreases Reach(sq, d)
      {
        if At(g, sq).None? {
          moves := moves + [sq];
        } else {
          if At(g, sq).value.color != color {
            moves := moves + [sq];
          }
          break;
        }
        sq := Shift(sq, d);
      }
      assert moves == before + Slide(g, color, Shift(pos, d), d);
      assert dirs[..i + 1][..i] == dirs[..i];
    }
    assert dirs[..|dirs|] == dirs;
  }

  method PawnLegalMoves(g: Grid, color: Color, pos: Pos) returns (moves: seq<Pos>)
    requires IsGrid(g)
    ensures moves == PawnMoves(g, color, pos)
  {
    moves := [];
    var d := Forward(color);
    var ahead := Shift(pos, d);
    if InBounds(ahead) && At(g, ahead).None? {
      moves := moves + [ahead];
    }
    var captures := JumpMoves(g, color, ahead, PawnSides(d), true);
    moves := moves + captures;
  }

  method RookLegalMoves(g: Grid, color: Color, pos: Pos) returns (moves: seq<Pos>)
    requires IsGrid(g)
    ensures moves == RookMoves(g, color, pos)
  {
    moves := SlidingMoves(g, color, pos, RookDirs);
  }

  method BishopLegalMoves(g: Grid, color: Color, pos: Pos) returns (moves: seq<Pos>)
    requires IsGrid(g)
    ensures moves == BishopMoves(g, color, pos)
  {
    moves := SlidingMoves(g, color, pos, BishopDirs);
  }

  method KnightLegalMoves(g: Grid, color: Color, pos: Pos) returns (moves: seq<Pos>)
    requires IsGrid(g)
    ensures moves == KnightMoves(g, color, pos)
  {
    moves := JumpMoves(g, color, pos, KnightOffsets, false);
  }

  /** The queen lists the rook's destinations followed by the bishop's. */
  method QueenLegalMoves(g: Grid, color: Color, pos: Pos) returns (moves: seq<Pos>)
    requires IsGrid(g)
    ensures moves == RookMoves(g, color, pos) + BishopMoves(g, color, pos)
  {
    var straight := RookLegalMoves(g, color, pos);
    var diagonal := BishopLegalMoves(g, color, pos);
    moves := straight + diagonal;
  }

  method KingLegalMoves(g: Grid, color: Color, pos: Pos) returns (moves: seq<Pos>)
    requires IsGrid(g)
    ensures moves == KingMoves(g, color, pos)
  {
    moves := JumpMoves(g, color, pos, KingOffsets, false);
  }

  /** piece.legal_moves(board, pos) */
  method LegalMoves(g: Grid, piece: Piece, pos: Pos) returns (moves: seq<Pos>)
    requires IsGrid(g)
    ensures moves == Moves(g, piece, pos)
  {
    match piece.kind
    case Pawn => moves := PawnLegalMoves(g, piece.color, pos);
    case Rook => moves := RookLegalMoves(g, piece.color, pos);
    case Bishop => moves := BishopLegalMoves(g, piece.color, pos);
    case Knight => moves := KnightLegalMoves(g, piece.color, pos);
    case Queen => moves := QueenLegalMoves(g, piece.color, pos);
    case King => moves := KingLegalMoves(g, piece.color, pos);
  }
}
