/**
  * The board model: a 10x10 grid of cells, the ships placed on it, and the
  * invariants that tie the two together.
  *
  * The source keeps a reference to the ship object in every cell it covers;
  * here a cell holds the index of that ship in the board's ship list.
  */
module Grid {
  import opened Wrappers

  const GridSize: int := 10

  /** A square of the board, rows and columns counted from 0. */
  datatype Pos = Pos(row: int, col: int)

  /** One square: the ship on it (an index into the ship list) and whether it was fired at. */
  datatype Cell = Cell(ship: Option<nat>, hit: bool, miss: bool)

  /** A placed ship: `hits` counts the hits it took, `positions` lists the squares it covers. */
  datatype Ship = Ship(name: string, size: nat, hits: nat, sunk: bool, positions: seq<Pos>)

  datatype ShipTemplate = ShipTemplate(name: string, size: nat)

  /** The fleet, in the order in which every placement routine places it. */
  const Fleet: seq<ShipTemplate> := [
    ShipTemplate("Carrier", 5),
    ShipTemplate("Battleship", 4),
    ShipTemplate("Cruiser", 3),
    ShipTemplate("Submarine", 3),
    ShipTemplate("Destroyer", 2)
  ]

  type Board = seq<seq<Cell>>

  const EmptyCell: Cell := Cell(None, false, false)

  /** The board `createEmptyBoard` builds. */
  const EmptyBoard: Board := EmptyRows(GridSize)

  /** `n` rows of ten squares with no ship and no shot. */
  function EmptyRows(n: nat): Board {
    seq(n, _ => seq(GridSize, _ => EmptyCell))
  }

  predicate InBounds(p: Pos) {
    0 <= p.row < GridSize && 0 <= p.col < GridSize
  }

  predicate IsBoard(b: Board) {
    |b| == GridSize && forall r :: 0 <= r < GridSize ==> |b[r]| == GridSize
  }

  function At(b: Board, p: Pos): Cell
    requires IsBoard(b) && InBounds(p)
  {
    b[p.row][p.col]
  }

  /** A square that was already fired at. */
  predicate Tried(c: Cell) {
    c.hit || c.miss
  }

  /** The board with one square replaced. */
  function SetCell(b: Board, p: Pos, x: Cell): (b': Board)
    requires IsBoard(b) && InBounds(p)
    ensures IsBoard(b')
    ensures At(b', p) == x
    ensures forall r, c :: 0 <= r < GridSize && 0 <= c < GridSize && Pos(r, c) != p ==> b'[r][c] == b[r][c]
  {
    b[p.row := b[p.row][p.col := x]]
  }

  /** Two boards that agree on every square are the same board. */
  lemma BoardsEqual(a: Board, b: Board)
    requires IsBoard(a) && IsBoard(b)
    requires forall r, c :: 0 <= r < GridSize && 0 <= c < GridSize ==> a[r][c] == b[r][c]
    ensures a == b
  {
    forall r | 0 <= r < GridSize
      ensures a[r] == b[r]
    {
      assert |a[r]| == |b[r]|;
    }
  }

  /** `createEmptyBoard`: ten rows of ten squares with no ship and no shot. */
  method CreateEmptyBoard() returns (board: Board)
    ensures IsBoard(board)
    ensures forall r, c :: 0 <= r < GridSize && 0 <= c < GridSize ==> board[r][c] == EmptyCell
    ensures board == EmptyBoard
  {
    board := [];
    var row := 0;
    while row < GridSize
      invariant 0 <= row <= GridSize && |board| == row
      invariant forall r :: 0 <= r < row ==> |board[r]| == GridSize
      invariant forall r, c :: 0 <= r < row && 0 <= c < GridSize ==> board[r][c] == EmptyCell
    {
      var line: seq<Cell> := [];
      var col := 0;
      while col < GridSize
        invariant 0 <= col <= GridSize && |line| == col
        invariant forall c :: 0 <= c < col ==> line[c] == EmptyCell
      {
        line := line + [EmptyCell];
        col := col + 1;
      }
      board := board + [line];
      row := row + 1;
    }
    BoardsEqual(board, EmptyBoard);
  }

  // ---------------------------------------------------------------------------
  // Segments: the squares a ship of a given size covers from its first square.
  // ---------------------------------------------------------------------------

  /** The `size` squares covered from (row, col), rightwards or downwards. */
  function Segment(row: int, col: int, size: nat, horizontal: bool): (s: seq<Pos>)
    ensures |s| == size
  {
    seq(size, i => if horizontal then Pos(row, col + i) else Pos(row + i, col))
  }

  predicate OnSegment(row: int, col: int, size: nat, horizontal: bool, p: Pos) {
    if horizontal then p.row == row && col <= p.col < col + size
    else p.col == col && row <= p.row < row + size
  }

  lemma OnSegmentIff(row: int, col: int, size: nat, horizontal: bool, p: Pos)
    ensures p in Segment(row, col, size, horizontal) <==> OnSegment(row, col, size, horizontal, p)
  {
    var s := Segment(row, col, size, horizontal);
    if OnSegment(row, col, size, horizontal, p) {
      var i := if horizontal then p.col - col else p.row - row;
      assert s[i] == p;
    }
  }

  /** The whole segment lies on the board. */
  predicate Fits(row: int, col: int, size: nat, horizontal: bool) {
    0 <= row && 0 <= col &&
    if horizontal then row < GridSize && col + size <= GridSize
    else col < GridSize && row + size <= GridSize
  }

  lemma FitsInBounds(row: int, col: int, size: nat, horizontal: bool, p: Pos)
    requires Fits(row, col, size, horizontal) && OnSegment(row, col, size, horizontal, p)
    ensures InBounds(p)
  {
  }

  /** `canPlaceShip`'s scan, from the i-th square of the segment on. */
  predicate SegmentFree(b: Board, row: int, col: int, size: nat, horizontal: bool, i: nat)
    requires IsBoard(b) && Fits(row, col, size, horizontal) && i <= size
    decreases size - i
  {
    i == size ||
    (b[if horizontal then row else row + i][if horizontal then col + i else col].ship.None? &&
     SegmentFree(b, row, col, size, horizontal, i + 1))
  }

  lemma {:induction false} SegmentFreeIff(b: Board, row: int, col: int, size: nat, horizontal: bool, i: nat)
    requires IsBoard(b) && Fits(row, col, size, horizontal) && i <= size
    ensures SegmentFree(b, row, col, size, horizontal, i) <==>
            forall p :: OnSegment(row, col, size, horizontal, p) && (if horizontal then p.col >= col + i else p.row >= row + i)
                        ==> b[p.row][p.col].ship.None?
    decreases size - i
  {
    if i < size {
      SegmentFreeIff(b, row, col, size, horizontal, i + 1);
      var q := if horizontal then Pos(row, col + i) else Pos(row + i, col);
      assert OnSegment(row, col, size, horizontal, q);
      forall p | OnSegment(row, col, size, horizontal, p) && (if horizontal then p.col >= col + i else p.row >= row + i)
        ensures p == q || (if horizontal then p.col >= col + i + 1 else p.row >= row + i + 1)
      {
      }
    }
  }

  /**
    * `canPlaceShip`: the ship must end on the board, and every square it would
    * cover must be free of ships. The caller supplies an on-board first square.
    */
  function CanPlaceShip(b: Board, row: int, col: int, size: nat, horizontal: bool): (ok: bool)
    requires IsBoard(b) && 0 <= row < GridSize && 0 <= col < GridSize
    ensures ok <==> Fits(row, col, size, horizontal) &&
                    forall p :: OnSegment(row, col, size, horizontal, p) ==> b[p.row][p.col].ship.None?
  {
    var inside := if horizontal then col + size <= GridSize else row + size <= GridSize;
    if !inside then false
    else
      SegmentFreeIff(b, row, col, size, horizontal, 0);
      SegmentFree(b, row, col, size, horizontal, 0)
  }

  // ---------------------------------------------------------------------------
  // The invariants of a board and its ship list.
  // ---------------------------------------------------------------------------

  /** The squares of a ship: `size` contiguous, axis-aligned, on-board squares. */
  predicate Laid(ps: seq<Pos>, size: nat) {
    size > 0 && |ps| == size &&
    ((Fits(ps[0].row, ps[0].col, size, true) && ps == Segment(ps[0].row, ps[0].col, size, true)) ||
     (Fits(ps[0].row, ps[0].col, size, false) && ps == Segment(ps[0].row, ps[0].col, size, false)))
  }

  lemma LaidInBounds(ps: seq<Pos>, size: nat, i: int)
    requires Laid(ps, size) && 0 <= i < |ps|
    ensures InBounds(ps[i])
  {
  }

  /** The squares of a laid ship are pairwise distinct. */
  lemma LaidDistinct(ps: seq<Pos>, size: nat, i: int, j: int)
    requires Laid(ps, size) && 0 <= i < |ps| && 0 <= j < |ps| && i != j
    ensures ps[i] != ps[j]
  {
  }

  predicate CellOk(c: Cell) {
    !(c.hit && c.miss) && (c.hit ==> c.ship.Some?) && (c.miss ==> c.ship.None?)
  }

  /** Every ship reference names a ship that lists the square. */
  predicate RefsValid(b: Board, ships: seq<Ship>)
    requires IsBoard(b)
  {
    forall r, c :: 0 <= r < GridSize && 0 <= c < GridSize && b[r][c].ship.Some? ==>
      b[r][c].ship.value < |ships| && Pos(r, c) in ships[b[r][c].ship.value].positions
  }

  /** Every ship is laid out and each of its squares refers back to it. */
  predicate ShipsLaid(b: Board, ships: seq<Ship>)
    requires IsBoard(b)
  {
    forall k :: 0 <= k < |ships| ==>
      Laid(ships[k].positions, ships[k].size) &&
      forall p :: p in ships[k].positions ==> InBounds(p) && b[p.row][p.col].ship == Some(k)
  }

  predicate ShotsConsistent(b: Board)
    requires IsBoard(b)
  {
    forall r, c :: 0 <= r < GridSize && 0 <= c < GridSize ==> CellOk(b[r][c])
  }

  /** The number of squares in `ps` that were hit. */
  function HitCount(b: Board, ps: seq<Pos>): (n: nat)
    requires IsBoard(b)
    ensures n <= |ps|
  {
    if ps == [] then 0
    else (if InBounds(ps[0]) && At(b, ps[0]).hit then 1 else 0) + HitCount(b, ps[1..])
  }

  /** Hit counts only look at the hit flags of the squares. */
  lemma {:induction false} HitCountFrame(a: Board, b: Board, ps: seq<Pos>)
    requires IsBoard(a) && IsBoard(b)
    requires forall r, c :: 0 <= r < GridSize && 0 <= c < GridSize ==> a[r][c].hit == b[r][c].hit
    ensures HitCount(a, ps) == HitCount(b, ps)
  {
    if ps != [] {
      HitCountFrame(a, b, ps[1..]);
    }
  }

  /** Each ship's hit counter matches its hit squares, and it is sunk exactly when all of them are hit. */
  predicate DamageTracked(b: Board, ships: seq<Ship>)
    requires IsBoard(b)
  {
    forall k :: 0 <= k < |ships| ==>
      ships[k].hits == HitCount(b, ships[k].positions) &&
      (ships[k].sunk <==> ships[k].hits == ships[k].size)
  }

  predicate Wf(b: Board, ships: seq<Ship>) {
    IsBoard(b) && RefsValid(b, ships) && ShipsLaid(b, ships) && ShotsConsistent(b) && DamageTracked(b, ships)
  }

  /** Every ship reference is an index into the ship list (what the target scans need). */
  predicate Indexed(b: Board, ships: seq<Ship>) {
    IsBoard(b) &&
    forall r, c :: 0 <= r < GridSize && 0 <= c < GridSize && b[r][c].ship.Some? ==> b[r][c].ship.value < |ships|
  }

  lemma WfIndexed(b: Board, ships: seq<Ship>)
    requires Wf(b, ships)
    ensures Indexed(b, ships)
  {
  }

  /** No two ships of a well-formed board share a square. */
  lemma NoOverlap(b: Board, ships: seq<Ship>, j: nat, k: nat, p: Pos)
    requires Wf(b, ships) && j < |ships| && k < |ships| && j != k
    requires p in ships[j].positions
    ensures p !in ships[k].positions
  {
    assert b[p.row][p.col].ship == Some(j);
  }

  /** No square of the board has been fired at. */
  predicate NoShots(b: Board)
    requires IsBoard(b)
  {
    forall r, c :: 0 <= r < GridSize && 0 <= c < GridSize ==> !Tried(b[r][c])
  }

  lemma {:induction false} HitCountNoShots(b: Board, ps: seq<Pos>)
    requires IsBoard(b) && NoShots(b)
    ensures HitCount(b, ps) == 0
  {
    if ps != [] {
      HitCountNoShots(b, ps[1..]);
    }
  }

  /** A board fresh from `createEmptyBoard` is well formed with an empty ship list. */
  lemma EmptyBoardWf(b: Board)
    requires IsBoard(b)
    requires forall r, c :: 0 <= r < GridSize && 0 <= c < GridSize ==> b[r][c] == EmptyCell
    ensures Wf(b, []) && NoShots(b)
  {
  }

  // ---------------------------------------------------------------------------
  // Counting shots: what the shot and hit counters of a side stand for.
  // ---------------------------------------------------------------------------

  function Mark(c: Cell, hitsOnly: bool): nat {
    if (if hitsOnly then c.hit else Tried(c)) then 1 else 0
  }

  function RowTally(row: seq<Cell>, hitsOnly: bool): nat {
    if row == [] then 0 else Mark(row[0], hitsOnly) + RowTally(row[1..], hitsOnly)
  }

  function Tally(rows: seq<seq<Cell>>, hitsOnly: bool): nat {
    if rows == [] then 0 else RowTally(rows[0], hitsOnly) + Tally(rows[1..], hitsOnly)
  }

  /** Squares fired at. */
  function Shots(b: Board): nat { Tally(b, false) }

  /** Squares hit. */
  function Hits(b: Board): nat { Tally(b, true) }

  lemma {:induction false} RowTallyUpdate(row: seq<Cell>, c: int, x: Cell, hitsOnly: bool)
    requires 0 <= c < |row|
    ensures RowTally(row[c := x], hitsOnly) + Mark(row[c], hitsOnly) == RowTally(row, hitsOnly) + Mark(x, hitsOnly)
  {
    if c > 0 {
      assert row[c := x][1..] == row[1..][c - 1 := x];
      RowTallyUpdate(row[1..], c - 1, x, hitsOnly);
    } else {
      assert row[c := x][1..] == row[1..];
    }
  }

  lemma {:induction false} TallyUpdate(rows: seq<seq<Cell>>, r: int, c: int, x: Cell, hitsOnly: bool)
    requires 0 <= r < |rows| && 0 <= c < |rows[r]|
    ensures Tally(rows[r := rows[r][c := x]], hitsOnly) + Mark(rows[r][c], hitsOnly)
         == Tally(rows, hitsOnly) + Mark(x, hitsOnly)
  {
    var rows' := rows[r := rows[r][c := x]];
    if r > 0 {
      assert rows'[1..] == rows[1..][r - 1 := rows[1..][r - 1][c := x]];
      TallyUpdate(rows[1..], r - 1, c, x, hitsOnly);
    } else {
      assert rows'[1..] == rows[1..];
      RowTallyUpdate(rows[0], c, x, hitsOnly);
    }
  }

  /** Firing at one untried square adds one shot, and one hit exactly when the square is now hit. */
  lemma ShotCounts(b: Board, p: Pos, x: Cell)
    requires IsBoard(b) && InBounds(p) && !Tried(At(b, p)) && !At(b, p).hit && Tried(x)
    ensures Shots(SetCell(b, p, x)) == Shots(b) + 1
    ensures Hits(SetCell(b, p, x)) == Hits(b) + (if x.hit then 1 else 0)
  {
    TallyUpdate(b, p.row, p.col, x, false);
    TallyUpdate(b, p.row, p.col, x, true);
  }

  lemma {:induction false} RowHitsAtMostShots(row: seq<Cell>)
    ensures RowTally(row, true) <= RowTally(row, false)
  {
    if row != [] {
      RowHitsAtMostShots(row[1..]);
    }
  }

  /** A hit square is a square fired at, so hits never exceed shots. */
  lemma {:induction false} HitsAtMostShots(rows: seq<seq<Cell>>)
    ensures Tally(rows, true) <= Tally(rows, false)
  {
    if rows != [] {
      RowHitsAtMostShots(rows[0]);
      HitsAtMostShots(rows[1..]);
    }
  }

  lemma {:induction false} RowTallyZero(row: seq<Cell>, hitsOnly: bool)
    requires forall i :: 0 <= i < |row| ==> !Tried(row[i])
    ensures RowTally(row, hitsOnly) == 0
  {
    if row != [] {
      RowTallyZero(row[1..], hitsOnly);
    }
  }

  lemma {:induction false} TallyZero(rows: seq<seq<Cell>>, hitsOnly: bool)
    requires forall r, c :: 0 <= r < |rows| && 0 <= c < |rows[r]| ==> !Tried(rows[r][c])
    ensures Tally(rows, hitsOnly) == 0
  {
    if rows != [] {
      RowTallyZero(rows[0], hitsOnly);
      TallyZero(rows[1..], hitsOnly);
    }
  }

  /** A board nobody fired at has no shots and no hits. */
  lemma NoShotsCounts(b: Board)
    requires IsBoard(b) && NoShots(b)
    ensures Shots(b) == 0 && Hits(b) == 0
  {
    TallyZero(b, false);
    TallyZero(b, true);
  }
}
