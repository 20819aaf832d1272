/** Grid cells and the four orthogonal moves shared by both search engines
    (game_logic.py and interstellar_mission.py). */
module Grid {

  /** A (row, column) pair; coordinates may lie outside the grid until checked. */
  type Cell = (int, int)

  /** The move list of both engines, in order: Right, Left, Down, Up. */
  const Moves: seq<(int, int)> := [(0, 1), (0, -1), (1, 0), (-1, 0)]

  function Shift(p: Cell, d: (int, int)): Cell
  {
    (p.0 + d.0, p.1 + d.1)
  }

  /** `0 <= r < rows and 0 <= c < cols`. */
  predicate InBounds(rows: int, cols: int, p: Cell)
  {
    0 <= p.0 < rows && 0 <= p.1 < cols
  }

  /** q is one orthogonal step away from p. */
  predicate Adjacent(p: Cell, q: Cell)
  {
    (p.0 == q.0 && (q.1 == p.1 + 1 || q.1 == p.1 - 1)) ||
    (p.1 == q.1 && (q.0 == p.0 + 1 || q.0 == p.0 - 1))
  }

  /** Every move leads to an adjacent cell, and every adjacent cell is reached by exactly one move. */
  lemma MovesAdjacent(p: Cell, q: Cell)
    ensures Adjacent(p, q) <==> exists k :: 0 <= k < 4 && q == Shift(p, Moves[k])
    ensures forall k, m :: 0 <= k < m < 4 ==> Shift(p, Moves[k]) != Shift(p, Moves[m])
  {
    if Adjacent(p, q) {
      if q == Shift(p, Moves[0]) {
      } else if q == Shift(p, Moves[1]) {
      } else if q == Shift(p, Moves[2]) {
      } else {
        assert q == Shift(p, Moves[3]);
      }
    }
  }

  /** All cells of a rows x cols grid. */
  function Cells(rows: int, cols: int): (s: set<Cell>)
    ensures forall p :: p in s <==> InBounds(rows, cols, p)
  {
    set r: int, c: int | 0 <= r < rows && 0 <= c < cols :: (r, c)
  }
}
