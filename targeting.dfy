/**
  * The opponent's untargeted choices: `getEasyModeTarget` (any untried square)
  * and the hunt branch of `getMediumModeTarget` (untried squares of even
  * parity first). The random tie-break `Math.floor(Math.random() * n)` is
  * `Pick(u, n)` for a supplied `u` in [0, 1).
  */
module Targeting {
  import opened Wrappers
  import opened Grid

  /** A value of `Math.random()`. */
  type Unit = x: real | 0.0 <= x < 1.0

  /** `Math.floor(u * n)`: an index into a non-empty list of `n` choices. */
  function Pick(u: Unit, n: nat): (i: nat)
    requires n > 0
    ensures i < n
  {
    assert 0.0 <= u * n as real < n as real by {
      assert u * n as real <= u * n as real + (1.0 - u) * n as real == n as real;
      assert (1.0 - u) * n as real > 0.0;
    }
    (u * n as real).Floor
  }

  /** The untried squares of row `r` left of column `c`, left to right. */
  function UntriedInRow(b: Board, r: int, c: int): seq<Pos>
    requires IsBoard(b) && 0 <= r < GridSize && 0 <= c <= GridSize
  {
    if c == 0 then []
    else UntriedInRow(b, r, c - 1) + (if !Tried(b[r][c - 1]) then [Pos(r, c - 1)] else [])
  }

  /** The untried squares of the first `r` rows, in row-major order. */
  function Untried(b: Board, r: int): seq<Pos>
    requires IsBoard(b) && 0 <= r <= GridSize
  {
    if r == 0 then [] else Untried(b, r - 1) + UntriedInRow(b, r - 1, GridSize)
  }

  /** The row scan lists exactly the untried squares of row `r` left of column `c`. */
  lemma {:induction false} UntriedInRowSpec(b: Board, r: int, c: int)
    requires IsBoard(b) && 0 <= r < GridSize && 0 <= c <= GridSize
    ensures forall p :: p in UntriedInRow(b, r, c) <==> p.row == r && 0 <= p.col < c && !Tried(b[r][p.col])
  {
    if c > 0 {
      UntriedInRowSpec(b, r, c - 1);
    }
  }

  /** The scan lists exactly the untried squares of the first `r` rows. */
  lemma {:induction false} UntriedSpec(b: Board, r: int)
    requires IsBoard(b) && 0 <= r <= GridSize
    ensures forall p :: p in Untried(b, r) <==> InBounds(p) && p.row < r && !Tried(At(b, p))
  {
    if r > 0 {
      UntriedSpec(b, r - 1);
      UntriedInRowSpec(b, r - 1, GridSize);
    }
  }

  /** The scan covers the whole board: a square is listed exactly when it is untried. */
  lemma UntriedAll(b: Board)
    requires IsBoard(b)
    ensures forall p :: p in Untried(b, GridSize) ==> InBounds(p)
    ensures forall p :: InBounds(p) ==> (p in Untried(b, GridSize) <==> !Tried(At(b, p)))
  {
    UntriedSpec(b, GridSize);
  }

  /** `getEasyModeTarget`: a random untried square, or none when all are tried. */
  function EasyTarget(b: Board, u: Unit): Option<Pos>
    requires IsBoard(b)
  {
    var cells := Untried(b, GridSize);
    if cells == [] then None else Some(cells[Pick(u, |cells|)])
  }

  /** Easy mode never picks a tried square, and gives up only when every square is tried. */
  lemma EasyTargetSound(b: Board, u: Unit)
    requires IsBoard(b)
    ensures var t := EasyTarget(b, u);
            (t.Some? ==> InBounds(t.value) && !Tried(At(b, t.value))) &&
            (t.None? <==> forall p :: InBounds(p) ==> Tried(At(b, p)))
  {
    UntriedAll(b);
    var cells := Untried(b, GridSize);
    if cells != [] {
      assert cells[Pick(u, |cells|)] in cells;
      assert cells[0] in cells;
    }
  }

  /** The scan of `getEasyModeTarget`, collecting the untried squares row by row. */
  method GetEasyModeTarget(board: Board, u: Unit) returns (target: Option<Pos>)
    requires IsBoard(board)
    ensures target == EasyTarget(board, u)
  {
    var availableCells: seq<Pos> := [];
    for row := 0 to GridSize
      invariant availableCells == Untried(board, row)
    {
      for col := 0 to GridSize
        invariant availableCells == Untried(board, row) + UntriedInRow(board, row, col)
      {
        var cell := board[row][col];
        if !cell.hit && !cell.miss {
          availableCells := availableCells + [Pos(row, col)];
        }
      }
    }
    if |availableCells| == 0 {
      return None;
    }
    target := Some(availableCells[Pick(u, |availableCells|)]);
  }

  // ---------------------------------------------------------------------------
  // Hunt mode.
  // ---------------------------------------------------------------------------

  /** A square whose coordinate sum is even: the colour the hunt prefers. */
  predicate Checkerboard(p: Pos) {
    (p.row + p.col) % 2 == 0
  }

  /** The checkerboard priority: 1 for an even square, 0 for an odd one. */
  function Priority(p: Pos): int {
    if Checkerboard(p) then 1 else 0
  }

  datatype Ranked = Ranked(cell: Pos, priority: int)

  /** The squares of a scan, each with its priority. */
  function Rank(cs: seq<Pos>): seq<Ranked> {
    seq(|cs|, i requires 0 <= i < |cs| => Ranked(cs[i], Priority(cs[i])))
  }

  lemma RankSnoc(cs: seq<Pos>, p: Pos)
    ensures Rank(cs + [p]) == Rank(cs) + [Ranked(p, Priority(p))]
  {
  }

  lemma RankAt(cs: seq<Pos>)
    ensures |Rank(cs)| == |cs|
    ensures forall i :: 0 <= i < |cs| ==> Rank(cs)[i] == Ranked(cs[i], Priority(cs[i]))
  {
  }

  function MaxPriority(cs: seq<Ranked>): (m: int)
    requires |cs| > 0
    ensures (exists i :: 0 <= i < |cs| && cs[i].priority == m) && forall i :: 0 <= i < |cs| ==> cs[i].priority <= m
  {
    if |cs| == 1 then cs[0].priority
    else
      var rest := MaxPriority(cs[1..]);
      assert forall i :: 1 <= i < |cs| ==> cs[i] == cs[1..][i - 1];
      if cs[0].priority >= rest then cs[0].priority else rest
  }

  function WithPriority(cs: seq<Ranked>, prio: int): (top: seq<Ranked>)
    ensures forall x :: x in top <==> x in cs && x.priority == prio
  {
    if cs == [] then [] else (if cs[0].priority == prio then [cs[0]] else []) + WithPriority(cs[1..], prio)
  }

  /**
    * The squares of the first priority group after the stable sort by
    * descending priority: those of the highest priority, in scan order.
    */
  function TopGroup(cs: seq<Ranked>): seq<Ranked>
    requires |cs| > 0
  {
    WithPriority(cs, MaxPriority(cs))
  }

  /** The hunt branch of `getMediumModeTarget`. */
  function HuntTarget(b: Board, u: Unit): Option<Pos>
    requires IsBoard(b)
  {
    var available := Rank(Untried(b, GridSize));
    if available == [] then None
    else
      var top := TopGroup(available);
      if top == [] then None else Some(top[Pick(u, |top|)].cell)
  }

  /** Every square of the top group is a square of the scan. */
  lemma TopGroupFrom(cs: seq<Pos>, x: Ranked)
    requires |cs| > 0 && x in TopGroup(Rank(cs))
    ensures x.cell in cs
  {
    var rs := Rank(cs);
    RankAt(cs);
    var j :| 0 <= j < |rs| && rs[j] == x;
    assert cs[j] == x.cell;
  }

  /** The top group is never empty. */
  lemma TopGroupNonEmpty(rs: seq<Ranked>)
    requires |rs| > 0
    ensures |TopGroup(rs)| > 0
  {
    var i :| 0 <= i < |rs| && rs[i].priority == MaxPriority(rs);
    assert rs[i] in TopGroup(rs);
  }

  /** When the scan holds an even square, the top group holds even squares only. */
  lemma TopGroupEven(cs: seq<Pos>, p: Pos, x: Ranked)
    requires p in cs && Checkerboard(p) && x in TopGroup(Rank(cs))
    ensures Checkerboard(x.cell)
  {
    var rs := Rank(cs);
    var k :| 0 <= k < |cs| && cs[k] == p;
    assert rs[k].priority == 1;
    var top := MaxPriority(rs);
    assert x in rs && x.priority == top >= 1;
    var j :| 0 <= j < |rs| && rs[j] == x;
    assert x.cell == cs[j] && x.priority == Priority(cs[j]);
    EvenPriority(x.cell);
  }

  lemma EvenPriority(c: Pos)
    requires Priority(c) >= 1
    ensures Checkerboard(c)
  {
  }

  /** The pick from the top group is a square of the scan. */
  lemma TopPick(cs: seq<Pos>, u: Unit)
    requires |cs| > 0
    ensures |Rank(cs)| == |cs| && |TopGroup(Rank(cs))| > 0
    ensures var top := TopGroup(Rank(cs)); top[Pick(u, |top|)].cell in cs
  {
    RankAt(cs);
    TopGroupNonEmpty(Rank(cs));
    var top := TopGroup(Rank(cs));
    TopGroupFrom(cs, top[Pick(u, |top|)]);
  }

  /** When the scan holds an even square `p`, the pick from the top group is even. */
  lemma TopPickEven(cs: seq<Pos>, u: Unit, p: Pos)
    requires p in cs && Checkerboard(p)
    ensures |Rank(cs)| == |cs| && |TopGroup(Rank(cs))| > 0
    ensures var top := TopGroup(Rank(cs)); var x := top[Pick(u, |top|)].cell; Checkerboard(x)
  {
    TopPick(cs, u);
    var top := TopGroup(Rank(cs));
    TopGroupEven(cs, p, top[Pick(u, |top|)]);
  }


  /** Hunting gives up exactly when every square is tried. */
  lemma HuntTargetNone(b: Board, u: Unit)
    requires IsBoard(b)
    ensures HuntTarget(b, u).None? <==> forall p :: InBounds(p) ==> Tried(At(b, p))
  {
    UntriedAll(b);
    var cells := Untried(b, GridSize);
    RankAt(cells);
    if cells != [] {
      TopPick(cells, u);
      assert cells[0] in cells;
    }
  }

  /** Hunting never picks a tried square. */
  lemma HuntTargetUntried(b: Board, u: Unit)
    requires IsBoard(b) && HuntTarget(b, u).Some?
    ensures InBounds(HuntTarget(b, u).value) && !Tried(At(b, HuntTarget(b, u).value))
  {
    UntriedAll(b);
    var cells := Untried(b, GridSize);
    RankAt(cells);
    TopPick(cells, u);
  }

  /** While an untried square of even parity `q` remains, hunting picks an even square. */
  lemma HuntTargetEven(b: Board, u: Unit, q: Pos)
    requires IsBoard(b) && InBounds(q) && !Tried(At(b, q)) && Checkerboard(q)
    ensures HuntTarget(b, u).Some?
    ensures Checkerboard(HuntTarget(b, u).value)
  {
    UntriedAll(b);
    var cells := Untried(b, GridSize);
    assert q in cells;
    TopPickEven(cells, u, q);
    var top := TopGroup(Rank(cells));
    var x := top[Pick(u, |top|)];
    assert HuntTarget(b, u) == Some(x.cell);
  }


  /** The scan of the hunt branch: the untried squares with their checkerboard priority. */
  method GetHuntTarget(board: Board, u: Unit) returns (target: Option<Pos>)
    requires IsBoard(board)
    ensures target == HuntTarget(board, u)
  {
    var availableCells: seq<Ranked> := [];
    ghost var scanned: seq<Pos> := [];
    for row := 0 to GridSize
      invariant scanned == Untried(board, row)
      invariant availableCells == Rank(scanned)
    {
      assert scanned + UntriedInRow(board, row, 0) == scanned;
      for col := 0 to GridSize
        invariant scanned == Untried(board, row) + UntriedInRow(board, row, col)
        invariant availableCells == Rank(scanned)
      {
        var cell := board[row][col];
        if !cell.hit && !cell.miss {
          var isCheckerboard := (row + col) % 2 == 0;
          RankSnoc(scanned, Pos(row, col));
          scanned := scanned + [Pos(row, col)];
          availableCells := availableCells + [Ranked(Pos(row, col), if isCheckerboard then 1 else 0)];
        }
      }
    }
    if |availableCells| == 0 {
      return None;
    }
    var highPriorityCells := TopGroup(availableCells);
    if |highPriorityCells| == 0 {
      return None;
    }
    target := Some(highPriorityCells[Pick(u, |highPriorityCells|)].cell);
  }
}
