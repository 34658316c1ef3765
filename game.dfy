/** The Game class of components/game.py: the turn-order state machine over
    the four seats, the local select/move pair and the application of a move
    received from another player. */
module Games {
  import opened Cells
  import opened Pieces
  import opened Boards
  import opened Turns

  /** p comes at or after square (r, col) in the row-by-row scan of the grid. */
  predicate Later(p: Pos, r: int, col: int)
  {
    p.row > r || (p.row == r && p.col >= col)
  }

  /** The scan of is_alive over the rows of the grid, from square (r, col)
      on, for the king of colour c. */
  function KingFrom(g: Grid, c: Color, r: nat, col: nat): (b: bool)
    requires IsGrid(g) && r <= Size && col <= Size
    ensures b <==> exists p :: InBounds(p) && Later(p, r, col) && At(g, p) == Some(Piece(King, c))
    decreases Size - r, Size - col
  {
    if r == Size then false
    else if col == Size then KingFrom(g, c, r + 1, 0)
    else if At(g, Pos(r, col)) == Some(Piece(King, c)) then true
    else KingFrom(g, c, r, col + 1)
  }

  /** Some square holds the king of colour c. */
  ghost predicate HasKing(g: Grid, c: Color)
    requires IsGrid(g)
  {
    exists p :: InBounds(p) && At(g, p) == Some(Piece(King, c))
  }

  /** On the initial board every colour has its king. */
  lemma InitialKingsPresent(g: Grid)
    requires IsGrid(g) && forall p :: InBounds(p) ==> At(g, p) == InitialCell(p)
    ensures forall c :: HasKing(g, c)
  {
    forall c ensures HasKing(g, c) {
      var p := KingHome(c);
      HomeFacts(c, 0, 4);
      BackRankKing(4);
      InitialKings(c, p);
      assert At(g, p) == Some(Piece(King, c));
    }
  }

  /** A seat order: the four colours, each exactly once. */
  predicate IsSeating(seats: seq<Color>)
  {
    |seats| == Seats && forall i, j :: 0 <= i < j < Seats ==> seats[i] != seats[j]
  }

  /** A seat order holds every colour. */
  lemma SeatingCovers(seats: seq<Color>, c: Color)
    requires IsSeating(seats)
    ensures c in seats
  {
    var taken := {seats[0], seats[1], seats[2], seats[3]};
    var all := {W, B, R, G};
    assert |taken| == 4;
    assert |all| == 4;
    assert all == taken + (all - taken);
    assert all - taken == {};
    assert c in all;
  }

  /** The seat of colour c. */
  function SeatOf(seats: seq<Color>, c: Color): (i: nat)
    requires IsSeating(seats)
    ensures i < Seats && seats[i] == c
  {
    SeatingCovers(seats, c);
    if seats[0] == c then 0
    else if seats[1] == c then 1
    else if seats[2] == c then 2
    else 3
  }

  /** Moving a piece of colour c onto an empty or hostile square keeps a
      king of colour c on the board. */
  lemma KingSurvives(g: Grid, c: Color, from: Pos, to: Pos)
    requires IsGrid(g) && InBounds(from) && InBounds(to) && from != to
    requires At(g, from).Some? && At(g, from).value.color == c
    requires At(g, to).None? || At(g, to).value.color != c
    requires HasKing(g, c)
    ensures HasKing(Relocate(g, from, to), c)
  {
    var h := Relocate(g, from, to);
    var p :| InBounds(p) && At(g, p) == Some(Piece(King, c));
    if p == from {
      assert At(h, to) == Some(Piece(King, c));
    } else {
      assert At(h, p) == Some(Piece(King, c));
    }
  }

  /** A move that passes Board.move's checks never removes the mover's own
      king: the mover survives its own move. */
  lemma MoverStaysAlive(g: Grid, c: Color, from: Pos, to: Pos)
    requires IsGrid(g) && CanMove(g, c, from, to) && HasKing(g, c)
    ensures InBounds(to) && HasKing(Relocate(g, from, to), c)
  {
    MoveEffect(g, c, from, to);
    KingSurvives(g, c, from, to);
  }

  class Game {
    /** players_colors: the colour of each seat, in turn order. */
    const seats: seq<Color>
    const board: Board
    var turn: nat
    var selected: Option<Pos>
    var disabled: set<Color>

    ghost predicate Valid()
      reads this, board
    {
      IsSeating(seats) && board.Valid() && turn < Seats
    }

    constructor (order: seq<Color>)
      requires IsSeating(order)
      ensures Valid() && fresh(board)
      ensures seats == order && turn == 0 && selected == None && disabled == {}
      ensures forall p :: InBounds(p) ==> At(board.grid, p) == InitialCell(p)
      ensures forall c :: IsAlive(c)
    {
      seats := order;
      board := new Board();
      turn := 0;
      selected := None;
      disabled := {};
      new;
      InitialKingsPresent(board.grid);
    }

    /** disable_color: c is out from now on; every other colour is as alive
        as it was. Disabling twice is the same as disabling once. */
    method DisableColor(c: Color)
      requires Valid()
      modifies this`disabled
      ensures Valid()
      ensures disabled == old(disabled) + {c}
      ensures !IsAlive(c)
      ensures forall d :: d != c ==> (IsAlive(d) <==> old(IsAlive(d)))
    {
      disabled := disabled + {c};
    }

    /** is_alive: c is not disabled and its king is on the board. */
    function IsAlive(c: Color): (b: bool)
      requires IsGrid(board.grid)
      reads this`disabled, board`grid
      ensures b <==> c !in disabled && HasKing(board.grid, c)
    {
      if c in disabled then false else KingFrom(board.grid, c, 0, 0)
    }

    /** Which seats are alive, seat by seat. */
    function Alive(): (alive: seq<bool>)
      requires IsSeating(seats) && IsGrid(board.grid)
      reads this`disabled, board`grid
      ensures IsAliveTable(alive)
      ensures forall s :: 0 <= s < Seats ==> alive[s] == IsAlive(seats[s])
    {
      [IsAlive(seats[0]), IsAlive(seats[1]), IsAlive(seats[2]), IsAlive(seats[3])]
    }

    /** current_player: skips at most four dead seats, settling on the first
        alive seat at or after the old turn (FirstAlive), and returns its
        colour. */
    method CurrentPlayer() returns (c: Color)
      requires Valid()
      modifies this`turn
      ensures Valid()
      ensures turn == FirstAlive(Alive(), old(turn))
      ensures c == seats[turn]
    {
      ghost var alive := Alive();
      ghost var t := turn;
      for i := 0 to Seats
        invariant turn == Seat(t, i)
        invariant Skips(alive, t, i) == Skips(alive, t, 0)
      {
        if IsAlive(seats[turn]) {
          return seats[turn];
        }
        turn := (turn + 1) % Seats;
      }
      return seats[turn];
    }

    /** advance_turn: moves to the first alive seat strictly after the old
        turn (NextAlive). Without any alive seat its loop would not end. */
    method AdvanceTurn()
      requires Valid() && AnyAlive(Alive())
      modifies this`turn
      ensures Valid()
      ensures turn == NextAlive(Alive(), old(turn))
    {
      ghost var alive := Alive();
      ghost var t := Seat(turn, 1);
      turn := (turn + 1) % Seats;
      ghost var k := 0;
      while !IsAlive(seats[turn])
        invariant Valid()
        invariant k <= Skips(alive, t, 0) < Seats
        invariant turn == Seat(t, k)
        invariant Skips(alive, t, k) == Skips(alive, t, 0)
        decreases Seats - k
      {
        turn := (turn + 1) % Seats;
        k := k + 1;
      }
    }

    /** The square p is on the board and holds a piece of colour c. */
    predicate Owns(c: Color, p: Pos)
      requires IsGrid(board.grid)
      reads board`grid
    {
      InBounds(p) && At(board.grid, p).Some? && At(board.grid, p).value.color == c
    }

    /** select: after settling the turn, selects pos and returns its piece's
        legal moves exactly when the current colour is alive and owns pos;
        otherwise returns no moves and keeps the selection. */
    method Select(pos: Pos) returns (moves: seq<Pos>)
      requires Valid()
      modifies this`turn, this`selected
      ensures Valid()
      ensures turn == FirstAlive(Alive(), old(turn))
      ensures IsAlive(seats[turn]) && Owns(seats[turn], pos) ==>
        selected == Some(pos) && moves == Moves(board.grid, At(board.grid, pos).value, pos)
      ensures !(IsAlive(seats[turn]) && Owns(seats[turn], pos)) ==>
        selected == old(selected) && moves == []
    {
      var c := CurrentPlayer();
      if !IsAlive(c) {
        return [];
      }
      if !InBounds(pos) {
        return [];
      }
      var piece := At(board.grid, pos);
      if piece.Some? && piece.value.color == c {
        selected := Some(pos);
        moves := LegalMoves(board.grid, piece.value, pos);
        return;
      }
      return [];
    }

    /** move: after settling the turn, moves the selected piece of the
        current colour to `to` when Board.move accepts it, then clears the
        selection and passes the turn on; otherwise nothing but the turn
        settling changes. */
    method Move(to: Pos) returns (ok: bool)
      requires Valid()
      modifies this`turn, this`selected, board
      ensures Valid()
      ensures var t := FirstAlive(old(Alive()), old(turn));
        (ok <==> old(IsAlive(seats[t])) && old(selected).Some?
                 && CanMove(old(board.grid), seats[t], old(selected).value, to))
      ensures ok ==>
        && InBounds(to)
        && board.grid == Relocate(old(board.grid), old(selected).value, to)
        && selected == None
        && turn == NextAlive(Alive(), FirstAlive(old(Alive()), old(turn)))
      ensures !ok ==>
        && board.grid == old(board.grid)
        && selected == old(selected)
        && turn == FirstAlive(old(Alive()), old(turn))
    {
      var c := CurrentPlayer();
      if !IsAlive(c) || selected.None? {
        return false;
      }
      ghost var g := board.grid;
      ghost var t := turn;
      ok := board.Move(c, selected.value, to);
      if ok {
        MoverStaysAlive(g, c, old(selected).value, to);
        assert IsAlive(seats[t]);
        selected := None;
        AdvanceTurn();
      }
    }

    /** The fast-forward of apply_remote_move: for an alive colour, keeps
        stepping past the settled seat until the colour to play is `color`;
        it ends because each round brings the turn closer to that seat. */
    method FastForward(color: Color)
      requires Valid() && IsAlive(color)
      modifies this`turn
      ensures Valid()
      ensures turn == SeatOf(seats, color)
    {
      ghost var alive := Alive();
      ghost var s := SeatOf(seats, color);
      var current := CurrentPlayer();
      while current != color
        invariant Valid()
        invariant current == seats[turn]
        decreases Gap(turn, s)
      {
        ghost var before := turn;
        turn := (turn + 1) % Seats;
        current := CurrentPlayer();
        FastForwardStep(alive, before, s);
      }
    }

    /** apply_remote_move: ignored for a colour that is not alive. For an
        alive colour, fast-forwards the turn to that colour's seat, attempts
        the move on the board without the selection, passes the turn to the
        next alive seat after that colour and clears the selection. */
    method ApplyRemoteMove(from: Pos, to: Pos, color: Color)
      requires Valid()
      modifies this`turn, this`selected, board
      ensures Valid()
      ensures !old(IsAlive(color)) ==>
        turn == old(turn) && selected == old(selected) && board.grid == old(board.grid)
      ensures old(IsAlive(color)) && CanMove(old(board.grid), color, from, to) ==>
        InBounds(to) && board.grid == Relocate(old(board.grid), from, to)
      ensures old(IsAlive(color)) && !CanMove(old(board.grid), color, from, to) ==>
        board.grid == old(board.grid)
      ensures old(IsAlive(color)) ==>
        turn == NextAlive(Alive(), SeatOf(seats, color)) && selected == None
    {
      if !IsAlive(color) {
        return;
      }
      FastForward(color);
      ghost var g := board.grid;
      var ok := board.Move(color, from, to);
      if ok {
        MoverStaysAlive(g, color, from, to);
      }
      AdvanceTurn();
      selected := None;
    }
  }
}
