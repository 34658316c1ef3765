# Four-player chess core, modelled in Dafny

This project models the rules core of a four-player chess game on a 14x14
board. Four colours take turns in a fixed seat order: white `w`, black `b`,
red `r` and green `g`. The model covers three parts:

- the board, with its initial set-up and its move check (`Board` in
  components/board.py);
- the move generation of the six piece kinds (components/pieces.py);
- the turn-order state machine (`Game` in components/game.py). It skips
  colours that are disabled or have lost their king. It handles local
  select/move calls and fast-forwards to the colour of a move that arrives
  from another player.

Modules, one file each:

- `Cells` (cells.dfy): colours, piece kinds, pieces, positions and the grid.
  It also holds the pure board queries: `in_bounds`, `is_empty`,
  `get_piece`, and the value side of `set_piece`. It is separate from
  `Boards` because the board and the pieces use each other.
- `Pieces` (pieces.dfy):
  - the `dirs` table (`Forward`) and the direction and offset tables of each
    piece;
  - recursive specification functions for every piece's destination list;
  - the loops of each `legal_moves`, written as methods and proved equal to
    those functions;
  - lemmas that state each list geometrically.
- `Boards` (board.dfy):
  - the `Board` class, whose `grid` field is a sequence of rows that its
    methods reassign;
  - the initial set-up and its counting lemmas;
  - the move check, and `Board.move` as written (see Findings).
- `Turns` (turns.dfy): the seat arithmetic of `current_player`,
  `advance_turn` and the fast-forward. It works on a four-entry table that
  says which seats are alive.
- `Games` (game.dfy): the `Game` class. Its fields are `turn`, `selected` and
  `disabled`, and its methods carry the loops of the source.

The seat order (`players_colors`) is a constructor parameter: any sequence
of the four colours, each exactly once. No particular permutation is
assumed.

A comment in `apply_remote_move` says legality is not re-checked there. Yet
it calls `Board.move`, and `Board.move` does check legality. The model
follows the code: a remote move that fails the check leaves the board
unchanged, but the turn still advances.

The fast-forward loop of `apply_remote_move` has no bound of its own. It ends
because the call returns early for a
colour that is not alive (components/game.py:78). `Turns.FastForwardStep`
shows that each round gets strictly closer to the seat of an alive colour.
`Turns.DeadSeatNeverCurrent` shows the loop would never reach a dead colour,
unless nobody is alive and the turn is already on that colour's seat.

## Model

| member | source | states |
|---|---|---|
| Cells.InBounds | components/board.py:10-12 | in_bounds: both coordinates lie in 0..13 |
| Cells.Vacant | components/board.py:14-16 | is_empty, as the pieces use it after in_bounds (components/pieces.py:31, 50, 68): the square is on the board and holds no piece |
| Cells.At | components/board.py:18-20 | get_piece: the piece or None stored at row r, column c of the grid, for a square on the board |
| Cells.EmptyGrid | components/board.py:7 | the fresh grid is 14x14 and every square is empty |
| Cells.Set | components/board.py:22-24 | after set_piece the square holds the new value and every other square is as before |
| Pieces.Forward | components/pieces.py:4-9 | the dirs table: w advances (-1, 0), b (1, 0), r (0, -1), g (0, 1) |
| Pieces.SlideShape | components/pieces.py:48-57 | one ray lists p, p+d, p+2d, ... in that order. Every listed square is on the board, every one but the last is empty, and the list is no longer than the bound `Reach` on the squares the ray meets |
| Pieces.SlideCovers | components/pieces.py:50-56 | a square at the end of a run of empty squares along the ray that is empty or holds an enemy is listed |
| Pieces.SlideMember | components/pieces.py:48-57 | a square is in a ray's list iff the piece slides to it: empty squares up to it, and it is empty or enemy-occupied |
| Pieces.SlideSafe | components/pieces.py:50-56 | every square a ray lists may be entered and is not the slider's own square |
| Pieces.RaysMember | components/pieces.py:48-57 | a square is in the concatenated list iff it is in the ray of some table direction |
| Pieces.JumpsMember | components/pieces.py:84-90 | a square is in a jumping piece's list iff some table offset leads to it and it passes the piece's test |
| Pieces.DirTables | components/pieces.py:48 | the rook's table is exactly the four orthogonal unit steps and the bishop's (line 66) exactly the four diagonal ones |
| Pieces.PawnMember | components/pieces.py:25-40 | a pawn goes one square forward (per the dirs table) onto an empty square, or one square forward and one sideways onto an enemy piece, and nowhere else |
| Pieces.KnightTable | components/pieces.py:84 | the eight offsets are exactly the moves with {abs(dr), abs(dc)} = {1, 2} |
| Pieces.KingTable | components/pieces.py:105 | the eight offsets are exactly the moves to Chebyshev distance 1 |
| Pieces.KnightMember | components/pieces.py:81-90 | a knight's destinations are exactly the knight jumps onto in-bounds squares that are empty or hold an enemy piece |
| Pieces.KingMember | components/pieces.py:102-111 | a king's destinations are exactly the adjacent in-bounds squares that are empty or hold an enemy piece |
| Pieces.RookMember | components/pieces.py:45-58 | a rook's destinations are exactly the squares it slides to along an orthogonal direction |
| Pieces.BishopMember | components/pieces.py:63-76 | a bishop's destinations are exactly the squares it slides to along a diagonal direction |
| Pieces.QueenMember | components/pieces.py:95-97 | a queen's destinations are exactly the squares it slides to along any of the eight directions |
| Pieces.RaysSafe | components/pieces.py:45-76 | every square a sliding piece lists may be entered and is not its own square |
| Pieces.MovesSafe | components/pieces.py:25-111 | every destination of every piece is on the board, is empty or holds an enemy piece (never an own piece), and differs from the piece's square |
| Pieces.JumpMoves | components/pieces.py:84-90 | the offset loop of the knight, the king and the pawn captures returns the in-order list Jumps of the squares passing the test |
| Pieces.SlidingMoves | components/pieces.py:48-57 | the direction loop with its inner while/break returns the rays of all directions concatenated in table order |
| Pieces.PawnLegalMoves | components/pieces.py:25-40 | Pawn.legal_moves returns PawnMoves: the forward square, then the two captures |
| Pieces.RookLegalMoves | components/pieces.py:45-58 | Rook.legal_moves returns RookMoves |
| Pieces.BishopLegalMoves | components/pieces.py:63-76 | Bishop.legal_moves returns BishopMoves |
| Pieces.KnightLegalMoves | components/pieces.py:81-90 | Knight.legal_moves returns KnightMoves |
| Pieces.QueenLegalMoves | components/pieces.py:95-97 | the queen's list is the rook's list followed by the bishop's |
| Pieces.KingLegalMoves | components/pieces.py:102-111 | King.legal_moves returns KingMoves |
| Pieces.LegalMoves | components/pieces.py:17-20 | legal_moves dispatches on the piece kind and returns Moves. It takes the grid as a value, so it cannot change the board |
| Boards.InitialGrid | components/board.py:26-43 | the set-up grid is 14x14 and each square holds InitialCell: the four armies in their camps, everything else empty |
| Boards.ArmiesDisjoint | components/board.py:29-43 | no square belongs to two armies |
| Boards.HomeFacts | components/board.py:29-43 | each back-rank and pawn-row square of each colour is on the board and belongs to that colour's army |
| Boards.HomesDistinct | components/board.py:29-43 | distinct (colour, row, file) triples place pieces on distinct squares, so no placement overwrites another |
| Boards.BackRankKing | components/board.py:27 | the king is the fifth entry of back_order and the only king there |
| Boards.InitialKings | components/board.py:26-43 | on the initial board a square holds the king of colour c iff it is (13,7) for w, (0,7) for b, (7,13) for r, (7,0) for g |
| Boards.SquaresCount | components/board.py:29-31 | an army's row of n files covers n distinct squares |
| Boards.InitialOwner | components/board.py:26-43 | an initial square holds a piece of colour c iff it lies in c's camp |
| Boards.InitialSquaresAreCamp | components/board.py:26-43 | the squares initially holding c's pieces are exactly c's back rank and pawn row |
| Boards.InitialPawnsArePawnRow | components/board.py:26-43 | the squares initially holding c's pawns are exactly c's pawn row |
| Boards.InitialArmySize | components/board.py:26-43 | each colour starts with exactly 16 pieces, 8 of them pawns |
| Boards.CanMove | components/board.py:46-50 | the checks of Board.move: `from` is on the board and holds a piece of the mover's colour, and `to` is in that piece's legal moves |
| Boards.Relocate | components/board.py:51-53 | after a move the target holds the moving piece, the origin is empty, and every other square is unchanged |
| Boards.MoveEffect | components/board.py:45-54 | a move that passes the checks lands on the board, not on its own square, and never on an own piece; it changes exactly those two squares |
| Boards.Board.constructor | components/board.py:5-8 | a new board holds the initial set-up |
| Boards.Board.SetPiece | components/board.py:22-24 | set_piece changes exactly the one square |
| Boards.Board.PlaceArmy | components/board.py:29-31 | one colour's loop places its back rank and pawn row and leaves every other square as it was |
| Boards.Board.InitPieces | components/board.py:26-43 | _init_pieces fills every camp square with its initial piece and leaves the rest as it was |
| Boards.Board.Move | components/board.py:45-54 | move succeeds iff `from` is on the board, holds a piece of the mover's colour, and `to` is one of its legal moves. On success the grid is the relocation; on failure it is unchanged |
| Boards.PyCell | components/board.py:18-20 | grid[r][c] with Python indexing: positions on the board denote themselves, and anything else denotes an in-bounds square or raises |
| Boards.MoveAsWritten | components/board.py:45-54 | Board.move exactly as written. It agrees with Board.Move whenever `from` is on the board |
| Boards.WrappedMoveCapturesKing | components/board.py:45-54 | as written, white's move from (-1,7) to (0,7) on the initial board succeeds: the white king on (13,7) captures the black king |
| Turns.Skips | components/game.py:31-37 | the count of dead seats skipped is at most four. Every skipped seat is dead, and the seat reached, if under four, is alive |
| Turns.FirstAlive | components/game.py:29-39 | current_player's seat: alive whenever any seat is; nearest cyclically at or after the turn among alive seats; the turn itself when none is alive |
| Turns.NextAlive | components/game.py:43-46 | the seat advance_turn lands on: the first alive seat at or after the seat following the old turn; always one of the four seats |
| Turns.FirstAliveSkipsDead | components/game.py:32-37 | every seat passed over on the way to the settled seat is dead |
| Turns.NextAliveIsNext | components/game.py:41-46 | advance_turn lands on an alive seat. It lands on the old seat only when that is the only alive one, and otherwise on the nearest alive seat strictly after it |
| Turns.FullRotation | components/game.py:41-46 | with all four seats alive the turn goes 0, 1, 2, 3, 0 |
| Turns.RotationWithout | components/game.py:41-46 | with exactly one seat out, the turn goes round the other three and skips it |
| Turns.DeadSeatNeverCurrent | components/game.py:78-83 | current_player never settles on a dead seat unless nobody is alive and the turn is already there, so the fast-forward could not end for a dead colour |
| Turns.FastForwardStep | components/game.py:82-83 | one fast-forward round strictly shortens the cyclic distance to the seat of an alive colour not yet reached |
| Games.KingFrom | components/game.py:23-27 | the row-by-row scan finds a king of the colour iff one stands on a square not yet scanned |
| Games.InitialKingsPresent | components/board.py:26-43 | on the initial board every colour has its king |
| Games.MoverStaysAlive | components/game.py:67-69 | a move that passes Board.move's checks keeps the mover's king on the board, so advance_turn then has an alive seat to stop at |
| Games.Game.constructor | components/game.py:5-13 | a new game has turn 0, nothing selected, nothing disabled, the initial board, and every colour alive |
| Games.Game.DisableColor | components/game.py:15-17 | the colour is added to the disabled set, so it is no longer alive; every other colour's aliveness is unchanged, and disabling twice is the same as once |
| Games.Game.IsAlive | components/game.py:19-27 | a colour is alive iff it is not disabled and its king is on the board |
| Games.Game.CurrentPlayer | components/game.py:29-39 | the turn becomes FirstAlive of the old turn and the returned colour is that seat's |
| Games.Game.AdvanceTurn | components/game.py:41-46 | given some alive seat, the turn becomes NextAlive of the old turn |
| Games.Game.Select | components/game.py:48-57 | after settling the turn, selects pos and returns its piece's legal moves exactly when the current colour is alive and owns pos; otherwise returns no moves and keeps the selection |
| Games.Game.Move | components/game.py:59-71 | succeeds iff the current colour is alive, something is selected and Board.move accepts the move. On success the grid is relocated, the selection cleared and the turn passed to NextAlive; on failure board and selection are unchanged and the turn is only settled |
| Games.Game.FastForward | components/game.py:81-83 | for an alive colour, the fast-forward ends with the turn on that colour's seat |
| Games.Game.ApplyRemoteMove | components/game.py:73-90 | a colour that is not alive changes nothing. For an alive colour the move is applied iff it passes Board.move's checks (board unchanged otherwise), the turn ends at NextAlive of that colour's seat, and the selection is cleared |

## Left out

- components/net.py, main.py and gui.py: networking, signatures, threads, drawing and mouse handling. So are the `on_remote_move` callback and the GUI's corner filter `_is_forbidden`; Board.in_bounds does not exclude the corners, so neither does the model.
- components/player.py is not part of this model. A player is reduced to its colour, and the seat order `players_colors` is a constructor parameter.
- The board size is fixed at Board's default of 14; the `size` parameter is not modelled.
- Piece classes and their `symbol` attribute are a kind tag. is_alive's test `symbol == 'K'` is the test for kind King.
- legal_moves receives the grid as a value rather than the Board object. That it never changes the board is then true by construction.
- Boards.Board.Move: rejects a `from` that is off the board. Python would wrap a negative index or raise IndexError; that behaviour is modelled only in Boards.MoveAsWritten (see Findings).
- Games.Game.ApplyRemoteMove: uses the corrected Boards.Board.Move, so a remote move with an off-board `from` changes no square. As written, a peer's `move` from (-1, 7) to (0, 7) for w on the initial board moves the white king from (13, 7) onto (0, 7) and captures the black king (components/board.py:46-53). advance_turn then skips the now dead black seat; in the model black keeps its king, so the turn can pass to black. The as-written board outcome is Boards.MoveAsWritten.
- Games.Game.Select: an off-board `pos` is treated as a square with no piece. Python would wrap a negative index or raise IndexError. GUI clicks come from on-screen squares only.
- Games.Game.AdvanceTurn: requires some alive seat, because the loop at components/game.py:45 does not end without one.
- Exceptions in general (IndexError on rows or columns of 14 or more) are not modelled outside Boards.MoveAsWritten.

## Findings

| source | as written | input that shows it | evidently intended | confidence | as-written member | corrected member |
|---|---|---|---|---|---|---|
| components/board.py:45-54 | Board.move reads and clears `grid[r][c]` with the raw `from`, where negative indices wrap around. It computes the legal moves from that raw, off-board position | on the initial board, `move('w', (-1, 7), (0, 7))`, which a remote peer can send through apply_remote_move: the white king on (13, 7) passes the check as if standing on (-1, 7), moves to (0, 7) and captures the black king | a `from` that is off the board is rejected and the grid is unchanged | not executed | Boards.WrappedMoveCapturesKing | Boards.Board.Move |
