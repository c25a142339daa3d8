/**
  * The opponent's hard mode, `getHardModeProbabilityTarget`: every placement
  * of every ship still afloat that is consistent with the shots so far adds a
  * weight to the squares it covers, line extensions and neighbours of
  * unresolved hits get fixed bonuses, and the untried square of highest score
  * is fired at.
  */
module Probability {
  import opened Wrappers
  import opened Grid
  import opened Analysis
  import opened Queue
  import opened Targeting

  /** Bonus for an untried endpoint of an aligned line of hits. */
  const LineBonus: nat := 10000
  /** Bonus for an untried neighbour of an unresolved hit. */
  const AdjacentBonus: nat := 500

  /** A score per square, indexed by row then column. */
  type Scores = seq<seq<int>>

  predicate IsScores(m: Scores) {
    |m| == GridSize && forall r :: 0 <= r < GridSize ==> |m[r]| == GridSize
  }

  /** The all-zero grid `scoreMap` starts from. */
  function ZeroScores(): (m: Scores)
    ensures IsScores(m) && forall r, c :: 0 <= r < GridSize && 0 <= c < GridSize ==> m[r][c] == 0
  {
    seq(GridSize, r => seq(GridSize, c => 0))
  }

  /** Two score grids that agree on every square are equal. */
  lemma ScoresEqual(m: Scores, n: Scores)
    requires IsScores(m) && IsScores(n)
    requires forall r, c :: 0 <= r < GridSize && 0 <= c < GridSize ==> m[r][c] == n[r][c]
    ensures m == n
  {
    forall r | 0 <= r < GridSize ensures m[r] == n[r] {
    }
  }

  /** `m` with `w` added to every square of a placement. */
  function AddAlong(m: Scores, row: int, col: int, size: nat, horizontal: bool, w: int): (m': Scores)
    requires IsScores(m)
    ensures IsScores(m')
    ensures forall r, c :: 0 <= r < GridSize && 0 <= c < GridSize ==>
              m'[r][c] == m[r][c] + (if OnSegment(row, col, size, horizontal, Pos(r, c)) then w else 0)
  {
    seq(GridSize, r requires 0 <= r < GridSize =>
      seq(GridSize, c requires 0 <= c < GridSize =>
        m[r][c] + (if OnSegment(row, col, size, horizontal, Pos(r, c)) then w else 0)))
  }

  /** `m` with `w` added to one square. */
  function Bump(m: Scores, p: Pos, w: int): (m': Scores)
    requires IsScores(m) && InBounds(p)
    ensures IsScores(m')
    ensures forall r, c :: 0 <= r < GridSize && 0 <= c < GridSize ==>
              m'[r][c] == m[r][c] + (if Pos(r, c) == p then w else 0)
  {
    m[p.row := m[p.row][p.col := m[p.row][p.col] + w]]
  }

  // ---------------------------------------------------------------------------
  // The density pass.
  // ---------------------------------------------------------------------------

  /**
    * What one placement adds to the squares it covers: nothing when it leaves
    * the board or is not possible; 1 when no hit is unresolved; otherwise
    * 100 per unresolved hit it covers.
    */
  function PlacementWeight(b: Board, ships: seq<Ship>, active: bool, row: int, col: int, size: nat, horizontal: bool): int
    requires Indexed(b, ships)
  {
    if !Fits(row, col, size, horizontal) then 0
    else
      var info := ProbePlacement(b, ships, row, col, size, horizontal);
      if !info.valid then 0
      else if !active then 1
      else if info.includesHits then 100 * info.hitCount
      else 0
  }

  /**
    * The weight of a placement is never negative; a positive weight means the
    * placement is on the board and covers neither a miss nor a sunk ship; a
    * possible placement weighs 1 while no hit is unresolved and 100 per
    * covered unresolved hit otherwise.
    */
  lemma WeightMeaning(b: Board, ships: seq<Ship>, active: bool, row: int, col: int, size: nat, horizontal: bool)
    requires Indexed(b, ships)
    ensures var w := PlacementWeight(b, ships, active, row, col, size, horizontal);
            w >= 0 &&
            (w > 0 ==> Fits(row, col, size, horizontal) &&
                       forall p :: OnSegment(row, col, size, horizontal, p) ==> InBounds(p) && !Blocked(b, ships, p)) &&
            (Fits(row, col, size, horizontal) && ProbePlacement(b, ships, row, col, size, horizontal).valid ==>
               w == if active then 100 * |CoveredHits(b, ships, row, col, size, horizontal)| else 1)
  {
    if Fits(row, col, size, horizontal) {
      ProbeCount(b, ships, row, col, size, horizontal);
      ProbeValid(b, ships, row, col, size, horizontal);
      forall p | OnSegment(row, col, size, horizontal, p) ensures p in Segment(row, col, size, horizontal) {
        OnSegmentIff(row, col, size, horizontal, p);
      }
    }
  }

  /** Both placements with first square (row, col): horizontal, then vertical. */
  function Consider(m: Scores, b: Board, ships: seq<Ship>, active: bool, size: nat, row: int, col: int): (m': Scores)
    requires IsScores(m) && Indexed(b, ships)
    ensures IsScores(m')
  {
    var wh := PlacementWeight(b, ships, active, row, col, size, true);
    var m1 := if wh > 0 then AddAlong(m, row, col, size, true, wh) else m;
    var wv := PlacementWeight(b, ships, active, row, col, size, false);
    if wv > 0 then AddAlong(m1, row, col, size, false, wv) else m1
  }

  /**
    * The density pass from first square (r, c) of the first size on, then over
    * every first square for each further size.
    */
  function DensityFrom(m: Scores, b: Board, ships: seq<Ship>, active: bool, sizes: seq<nat>, r: int, c: int): (m': Scores)
    requires IsScores(m) && Indexed(b, ships) && 0 <= r <= GridSize && 0 <= c <= GridSize
    ensures IsScores(m')
    decreases |sizes|, GridSize - r, GridSize - c
  {
    if sizes == [] then m
    else if r == GridSize then DensityFrom(m, b, ships, active, sizes[1..], 0, 0)
    else if c == GridSize then DensityFrom(m, b, ships, active, sizes, r + 1, 0)
    else DensityFrom(Consider(m, b, ships, active, sizes[0], r, c), b, ships, active, sizes, r, c + 1)
  }

  /** The sizes of the ships still afloat, in fleet order. */
  function RemainingSizes(ships: seq<Ship>): (sizes: seq<nat>)
    ensures |sizes| == 0 <==> forall k :: 0 <= k < |ships| ==> ships[k].sunk
  {
    if ships == [] then []
    else
      var rest := RemainingSizes(ships[1..]);
      assert forall k :: 1 <= k < |ships| ==> ships[k] == ships[1..][k - 1];
      (if ships[0].sunk then [] else [ships[0].size]) + rest
  }

  // ---------------------------------------------------------------------------
  // The bonuses.
  // ---------------------------------------------------------------------------

  /** `amount` added to each listed square that is on the board and untried. */
  function BoostCells(m: Scores, b: Board, ps: seq<Pos>, amount: int): (m': Scores)
    requires IsScores(m) && IsBoard(b)
    ensures IsScores(m')
    decreases |ps|
  {
    if ps == [] then m
    else
      var p := ps[0];
      var m1 := if InBounds(p) && !Tried(At(b, p)) then Bump(m, p, amount) else m;
      BoostCells(m1, b, ps[1..], amount)
  }

  /** The line bonus on the endpoints of each aligned line. */
  function BoostLines(m: Scores, b: Board, lines: seq<Line>): (m': Scores)
    requires IsScores(m) && IsBoard(b)
    ensures IsScores(m')
    decreases |lines|
  {
    if lines == [] then m
    else BoostLines(BoostCells(m, b, lines[0].endpoints, LineBonus), b, lines[1..])
  }

  /** The adjacency bonus on the four neighbours of each unresolved hit. */
  function BoostAdjacent(m: Scores, b: Board, hs: seq<HitRef>): (m': Scores)
    requires IsScores(m) && IsBoard(b)
    ensures IsScores(m')
    decreases |hs|
  {
    if hs == [] then m
    else BoostAdjacent(BoostCells(m, b, Neighbours(hs[0].row, hs[0].col), AdjacentBonus), b, hs[1..])
  }

  /** The score grid of `getHardModeProbabilityTarget`. */
  function ScoreMap(b: Board, ships: seq<Ship>): Scores
    requires Indexed(b, ships)
  {
    var hs := FindUnresolvedHits(b, ships);
    var active := |hs| > 0;
    var density := DensityFrom(ZeroScores(), b, ships, active, RemainingSizes(ships), 0, 0);
    var lined := if |hs| >= 2 then BoostLines(density, b, FindAlignedHitLines(hs)) else density;
    if active then BoostAdjacent(lined, b, hs) else lined
  }

  // ---------------------------------------------------------------------------
  // Selection.
  // ---------------------------------------------------------------------------

  /** The best score so far and the untried squares that have it. */
  datatype Best = Best(maxScore: int, cells: seq<Pos>)

  /** One square of the selection scan. */
  function SelectStep(m: Scores, b: Board, acc: Best, r: int, c: int): Best
    requires IsScores(m) && IsBoard(b) && 0 <= r < GridSize && 0 <= c < GridSize
  {
    if Tried(b[r][c]) then acc
    else if m[r][c] > acc.maxScore then Best(m[r][c], [Pos(r, c)])
    else if m[r][c] == acc.maxScore && m[r][c] > 0 then Best(acc.maxScore, acc.cells + [Pos(r, c)])
    else acc
  }

  /** The selection scan from square (r, c) on, in row-major order. */
  function SelectFrom(m: Scores, b: Board, acc: Best, r: int, c: int): Best
    requires IsScores(m) && IsBoard(b) && 0 <= r <= GridSize && 0 <= c <= GridSize
    decreases GridSize - r, GridSize - c
  {
    if r == GridSize then acc
    else if c == GridSize then SelectFrom(m, b, acc, r + 1, 0)
    else SelectFrom(m, b, SelectStep(m, b, acc, r, c), r, c + 1)
  }

  /** The first untried square from (r, c) on, in row-major order. */
  function FirstFrom(b: Board, r: int, c: int): Option<Pos>
    requires IsBoard(b) && 0 <= r <= GridSize && 0 <= c <= GridSize
    decreases GridSize - r, GridSize - c
  {
    if r == GridSize then None
    else if c == GridSize then FirstFrom(b, r + 1, 0)
    else if !Tried(b[r][c]) then Some(Pos(r, c))
    else FirstFrom(b, r, c + 1)
  }

  /** `getHardModeProbabilityTarget`, with `u` as the tie-break draw. */
  function HardTarget(b: Board, ships: seq<Ship>, u: Unit): Option<Pos>
    requires Indexed(b, ships)
  {
    if RemainingSizes(ships) == [] then None else Choose(ScoreMap(b, ships), b, u)
  }

  /** The selection: a random square among the best, else the first untried square. */
  function Choose(m: Scores, b: Board, u: Unit): Option<Pos>
    requires IsScores(m) && IsBoard(b)
  {
    var best := SelectFrom(m, b, Best(0, []), 0, 0);
    if |best.cells| > 0 then Some(best.cells[Pick(u, |best.cells|)])
    else FirstFrom(b, 0, 0)
  }

  // ---------------------------------------------------------------------------
  // What the score grid promises.
  // ---------------------------------------------------------------------------

  predicate AtLeast(m: Scores, n: Scores)
    requires IsScores(m) && IsScores(n)
  {
    forall r, c :: 0 <= r < GridSize && 0 <= c < GridSize ==> m[r][c] >= n[r][c]
  }

  /** The density pass only adds, and never to a miss or a square of a sunk ship. */
  lemma {:induction false} DensityGrows(m: Scores, b: Board, ships: seq<Ship>, active: bool, sizes: seq<nat>, r: int, c: int)
    requires IsScores(m) && Indexed(b, ships) && 0 <= r <= GridSize && 0 <= c <= GridSize
    ensures AtLeast(DensityFrom(m, b, ships, active, sizes, r, c), m)
    ensures forall p :: InBounds(p) && Blocked(b, ships, p) ==>
              DensityFrom(m, b, ships, active, sizes, r, c)[p.row][p.col] == m[p.row][p.col]
    decreases |sizes|, GridSize - r, GridSize - c
  {
    if sizes == [] {
    } else if r == GridSize {
      DensityGrows(m, b, ships, active, sizes[1..], 0, 0);
    } else if c == GridSize {
      DensityGrows(m, b, ships, active, sizes, r + 1, 0);
    } else {
      var m1 := Consider(m, b, ships, active, sizes[0], r, c);
      ConsiderGrows(m, b, ships, active, sizes[0], r, c);
      DensityGrows(m1, b, ships, active, sizes, r, c + 1);
      var d := DensityFrom(m1, b, ships, active, sizes, r, c + 1);
      assert DensityFrom(m, b, ships, active, sizes, r, c) == d;
      AtLeastTrans(d, m1, m);
    }
  }

  lemma AtLeastTrans(a: Scores, b: Scores, c: Scores)
    requires IsScores(a) && IsScores(b) && IsScores(c) && AtLeast(a, b) && AtLeast(b, c)
    ensures AtLeast(a, c)
  {
  }

  /** Both placements from one square only add, and never to a miss or a square of a sunk ship. */
  lemma ConsiderGrows(m: Scores, b: Board, ships: seq<Ship>, active: bool, size: nat, r: int, c: int)
    requires IsScores(m) && Indexed(b, ships)
    ensures AtLeast(Consider(m, b, ships, active, size, r, c), m)
    ensures forall p :: InBounds(p) && Blocked(b, ships, p) ==>
              Consider(m, b, ships, active, size, r, c)[p.row][p.col] == m[p.row][p.col]
  {
    WeightMeaning(b, ships, active, r, c, size, true);
    WeightMeaning(b, ships, active, r, c, size, false);
  }

  /** A non-negative bonus only adds, and adds it at least once to each listed untried square. */
  lemma {:induction false} BoostCellsGrows(m: Scores, b: Board, ps: seq<Pos>, amount: int)
    requires IsScores(m) && IsBoard(b) && amount >= 0
    ensures AtLeast(BoostCells(m, b, ps, amount), m)
    ensures forall q :: q in ps && InBounds(q) && !Tried(At(b, q)) ==>
              BoostCells(m, b, ps, amount)[q.row][q.col] >= m[q.row][q.col] + amount
    decreases |ps|
  {
    if ps != [] {
      var p := ps[0];
      var m1 := if InBounds(p) && !Tried(At(b, p)) then Bump(m, p, amount) else m;
      BoostCellsGrows(m1, b, ps[1..], amount);
      assert forall q :: q in ps ==> q == p || q in ps[1..];
    }
  }

  lemma {:induction false} BoostLinesGrows(m: Scores, b: Board, lines: seq<Line>)
    requires IsScores(m) && IsBoard(b)
    ensures AtLeast(BoostLines(m, b, lines), m)
    ensures forall i, e :: 0 <= i < |lines| && e in lines[i].endpoints && InBounds(e) && !Tried(At(b, e)) ==>
              BoostLines(m, b, lines)[e.row][e.col] >= m[e.row][e.col] + LineBonus
    decreases |lines|
  {
    if lines != [] {
      var m1 := BoostCells(m, b, lines[0].endpoints, LineBonus);
      BoostCellsGrows(m, b, lines[0].endpoints, LineBonus);
      BoostLinesGrows(m1, b, lines[1..]);
      assert forall i :: 1 <= i < |lines| ==> lines[i] == lines[1..][i - 1];
    }
  }

  lemma {:induction false} BoostAdjacentGrows(m: Scores, b: Board, hs: seq<HitRef>)
    requires IsScores(m) && IsBoard(b)
    ensures AtLeast(BoostAdjacent(m, b, hs), m)
    ensures forall h, q :: h in hs && q in Neighbours(h.row, h.col) && InBounds(q) && !Tried(At(b, q)) ==>
              BoostAdjacent(m, b, hs)[q.row][q.col] >= m[q.row][q.col] + AdjacentBonus
    decreases |hs|
  {
    if hs != [] {
      var m1 := BoostCells(m, b, Neighbours(hs[0].row, hs[0].col), AdjacentBonus);
      BoostCellsGrows(m, b, Neighbours(hs[0].row, hs[0].col), AdjacentBonus);
      BoostAdjacentGrows(m1, b, hs[1..]);
      assert forall h :: h in hs ==> h == hs[0] || h in hs[1..];
    }
  }

  /** No square scores below zero. */
  lemma ScoreMapNonNegative(b: Board, ships: seq<Ship>)
    requires Indexed(b, ships)
    ensures IsScores(ScoreMap(b, ships))
    ensures forall r, c :: 0 <= r < GridSize && 0 <= c < GridSize ==> ScoreMap(b, ships)[r][c] >= 0
  {
    var hs := FindUnresolvedHits(b, ships);
    var density := DensityFrom(ZeroScores(), b, ships, |hs| > 0, RemainingSizes(ships), 0, 0);
    DensityGrows(ZeroScores(), b, ships, |hs| > 0, RemainingSizes(ships), 0, 0);
    var lined := if |hs| >= 2 then BoostLines(density, b, FindAlignedHitLines(hs)) else density;
    if |hs| >= 2 {
      BoostLinesGrows(density, b, FindAlignedHitLines(hs));
    }
    if |hs| > 0 {
      BoostAdjacentGrows(lined, b, hs);
    }
  }

  /** An untried on-board neighbour of an unresolved hit scores at least the adjacency bonus. */
  lemma ScoreMapAdjacent(b: Board, ships: seq<Ship>, r: int, c: int, q: Pos)
    requires Indexed(b, ships) && 0 <= r < GridSize && 0 <= c < GridSize && Unresolved(b, ships, r, c)
    requires q in Neighbours(r, c) && InBounds(q) && !Tried(At(b, q))
    ensures IsScores(ScoreMap(b, ships)) && ScoreMap(b, ships)[q.row][q.col] >= AdjacentBonus
  {
    var hs := FindUnresolvedHits(b, ships);
    assert HitRef(r, c, b[r][c].ship.value) in hs;
    var density := DensityFrom(ZeroScores(), b, ships, true, RemainingSizes(ships), 0, 0);
    DensityGrows(ZeroScores(), b, ships, true, RemainingSizes(ships), 0, 0);
    var lined := if |hs| >= 2 then BoostLines(density, b, FindAlignedHitLines(hs)) else density;
    if |hs| >= 2 {
      BoostLinesGrows(density, b, FindAlignedHitLines(hs));
    }
    BoostAdjacentGrows(lined, b, hs);
  }

  /** With two or more unresolved hits, an untried endpoint of an aligned line scores at least the line bonus. */
  lemma ScoreMapEndpoint(b: Board, ships: seq<Ship>, i: int, e: Pos)
    requires Indexed(b, ships) && |FindUnresolvedHits(b, ships)| >= 2
    requires 0 <= i < |FindAlignedHitLines(FindUnresolvedHits(b, ships))|
    requires e in FindAlignedHitLines(FindUnresolvedHits(b, ships))[i].endpoints && InBounds(e) && !Tried(At(b, e))
    ensures IsScores(ScoreMap(b, ships)) && ScoreMap(b, ships)[e.row][e.col] >= LineBonus
  {
    var hs := FindUnresolvedHits(b, ships);
    var density := DensityFrom(ZeroScores(), b, ships, true, RemainingSizes(ships), 0, 0);
    DensityGrows(ZeroScores(), b, ships, true, RemainingSizes(ships), 0, 0);
    var lined := BoostLines(density, b, FindAlignedHitLines(hs));
    BoostLinesGrows(density, b, FindAlignedHitLines(hs));
    BoostAdjacentGrows(lined, b, hs);
  }

  /** A miss or a square of a sunk ship gains no placement weight. */
  lemma DensitySkipsBlocked(b: Board, ships: seq<Ship>, p: Pos)
    requires Indexed(b, ships) && InBounds(p) && Blocked(b, ships, p)
    ensures var hs := FindUnresolvedHits(b, ships);
            DensityFrom(ZeroScores(), b, ships, |hs| > 0, RemainingSizes(ships), 0, 0)[p.row][p.col] == 0
  {
    var hs := FindUnresolvedHits(b, ships);
    DensityGrows(ZeroScores(), b, ships, |hs| > 0, RemainingSizes(ships), 0, 0);
  }

  /** Square `p` comes before (r, c) in row-major order. */
  predicate Scanned(p: Pos, r: int, c: int) {
    p.row < r || (p.row == r && p.col < c)
  }

  /**
    * What the selection scan keeps about the squares before (r, c): the best
    * score among the untried ones (zero if none scores above zero), and exactly
    * those untried squares that reach it when it is positive.
    */
  predicate SelectInv(m: Scores, b: Board, acc: Best, r: int, c: int)
    requires IsScores(m) && IsBoard(b)
  {
    acc.maxScore >= 0 &&
    (|acc.cells| > 0 <==> acc.maxScore > 0) &&
    (forall p :: p in acc.cells ==> InBounds(p) && !Tried(At(b, p)) && Scanned(p, r, c) && m[p.row][p.col] == acc.maxScore) &&
    (forall i, j :: 0 <= i < GridSize && 0 <= j < GridSize && Scanned(Pos(i, j), r, c) && !Tried(b[i][j]) ==>
       m[i][j] <= acc.maxScore) &&
    (acc.maxScore > 0 ==>
       forall i, j :: 0 <= i < GridSize && 0 <= j < GridSize && Scanned(Pos(i, j), r, c) && !Tried(b[i][j]) && m[i][j] == acc.maxScore ==>
         Pos(i, j) in acc.cells)
  }

  lemma SelectStepInv(m: Scores, b: Board, acc: Best, r: int, c: int)
    requires IsScores(m) && IsBoard(b) && 0 <= r < GridSize && 0 <= c < GridSize
    requires SelectInv(m, b, acc, r, c)
    ensures SelectInv(m, b, SelectStep(m, b, acc, r, c), r, c + 1)
  {
    var acc' := SelectStep(m, b, acc, r, c);
    forall i, j | 0 <= i < GridSize && 0 <= j < GridSize && Scanned(Pos(i, j), r, c + 1)
      ensures Scanned(Pos(i, j), r, c) || (i == r && j == c)
    {
    }
  }

  lemma {:induction false} SelectFromInv(m: Scores, b: Board, acc: Best, r: int, c: int)
    requires IsScores(m) && IsBoard(b) && 0 <= r <= GridSize && 0 <= c <= GridSize
    requires SelectInv(m, b, acc, r, c)
    ensures SelectInv(m, b, SelectFrom(m, b, acc, r, c), GridSize, 0)
    decreases GridSize - r, GridSize - c
  {
    if r == GridSize {
    } else if c == GridSize {
      assert SelectInv(m, b, acc, r + 1, 0) by {
        forall p | InBounds(p) ensures Scanned(p, r, c) <==> Scanned(p, r + 1, 0) {
        }
      }
      SelectFromInv(m, b, acc, r + 1, 0);
    } else {
      SelectStepInv(m, b, acc, r, c);
      SelectFromInv(m, b, SelectStep(m, b, acc, r, c), r, c + 1);
    }
  }

  /** The best list of the full scan: untried squares of the top positive score, and all of them. */
  lemma SelectAll(m: Scores, b: Board)
    requires IsScores(m) && IsBoard(b)
    ensures var best := SelectFrom(m, b, Best(0, []), 0, 0);
            best.maxScore >= 0 &&
            (|best.cells| > 0 <==> best.maxScore > 0) &&
            (forall p :: p in best.cells ==> InBounds(p) && !Tried(At(b, p)) && m[p.row][p.col] == best.maxScore) &&
            (forall p :: InBounds(p) && !Tried(At(b, p)) ==> m[p.row][p.col] <= best.maxScore) &&
            (forall p :: InBounds(p) && !Tried(At(b, p)) && m[p.row][p.col] == best.maxScore && best.maxScore > 0 ==>
               p in best.cells)
  {
    SelectFromInv(m, b, Best(0, []), 0, 0);
    var best := SelectFrom(m, b, Best(0, []), 0, 0);
    forall p | InBounds(p) && !Tried(At(b, p)) ensures m[p.row][p.col] <= best.maxScore {
      assert Scanned(Pos(p.row, p.col), GridSize, 0);
    }
    forall p | InBounds(p) && !Tried(At(b, p)) && m[p.row][p.col] == best.maxScore && best.maxScore > 0
      ensures p in best.cells
    {
      assert Scanned(Pos(p.row, p.col), GridSize, 0);
    }
  }

  /** The fallback scan finds an untried square, and finds none only when every later square is tried. */
  lemma {:induction false} FirstFromSound(b: Board, r: int, c: int)
    requires IsBoard(b) && 0 <= r <= GridSize && 0 <= c <= GridSize
    ensures var t := FirstFrom(b, r, c);
            (t.Some? ==> InBounds(t.value) && !Tried(At(b, t.value))) &&
            (t.None? <==> forall p :: InBounds(p) && !Scanned(p, r, c) ==> Tried(At(b, p)))
    decreases GridSize - r, GridSize - c
  {
    if r == GridSize {
    } else if c == GridSize {
      FirstFromSound(b, r + 1, 0);
      forall p | InBounds(p) ensures Scanned(p, r, c) <==> Scanned(p, r + 1, 0) {
      }
    } else if !Tried(b[r][c]) {
      assert InBounds(Pos(r, c)) && !Scanned(Pos(r, c), r, c);
    } else {
      FirstFromSound(b, r, c + 1);
      forall p | InBounds(p) ensures !Scanned(p, r, c) <==> !Scanned(p, r, c + 1) || p == Pos(r, c) {
      }
    }
  }

  /**
    * On a grid without negative scores the selection picks an untried square
    * of the highest score among the untried squares, and picks none exactly
    * when every square is tried.
    */
  lemma ChooseSound(m: Scores, b: Board, u: Unit)
    requires IsScores(m) && IsBoard(b)
    requires forall r, c :: 0 <= r < GridSize && 0 <= c < GridSize ==> m[r][c] >= 0
    ensures var t := Choose(m, b, u);
            (t.Some? ==> InBounds(t.value) && !Tried(At(b, t.value)) &&
                         forall p :: InBounds(p) && !Tried(At(b, p)) ==> m[p.row][p.col] <= m[t.value.row][t.value.col]) &&
            (t.None? <==> forall p :: InBounds(p) ==> Tried(At(b, p)))
  {
    SelectAll(m, b);
    FirstFromSound(b, 0, 0);
    var best := SelectFrom(m, b, Best(0, []), 0, 0);
    if |best.cells| > 0 {
      var p := best.cells[Pick(u, |best.cells|)];
      assert p in best.cells;
    }
  }

  /** Hard mode never picks a tried square, and picks one of the highest score among the untried squares. */
  lemma HardTargetBest(b: Board, ships: seq<Ship>, u: Unit)
    requires Indexed(b, ships) && HardTarget(b, ships, u).Some?
    ensures IsScores(ScoreMap(b, ships))
    ensures var t := HardTarget(b, ships, u).value;
            InBounds(t) && !Tried(At(b, t)) &&
            forall p :: InBounds(p) && !Tried(At(b, p)) ==> ScoreMap(b, ships)[p.row][p.col] <= ScoreMap(b, ships)[t.row][t.col]
  {
    var m := ScoreMap(b, ships);
    ScoreMapNonNegative(b, ships);
    assert HardTarget(b, ships, u) == Choose(m, b, u);
    ChooseSound(m, b, u);
  }

  /** Hard mode gives up exactly when every ship is sunk or every square is tried. */
  lemma HardTargetNone(b: Board, ships: seq<Ship>, u: Unit)
    requires Indexed(b, ships)
    ensures HardTarget(b, ships, u).None? <==>
            (forall k :: 0 <= k < |ships| ==> ships[k].sunk) || (forall p :: InBounds(p) ==> Tried(At(b, p)))
  {
    if RemainingSizes(ships) != [] {
      var m := ScoreMap(b, ships);
      ScoreMapNonNegative(b, ships);
      assert HardTarget(b, ships, u) == Choose(m, b, u);
      ChooseSound(m, b, u);
    }
  }

  /**
    * While an unresolved hit has an untried neighbour on the board, hard mode
    * fires at a square scoring at least the adjacency bonus.
    */
  lemma HardTargetFinishesShips(b: Board, ships: seq<Ship>, u: Unit, r: int, c: int, q: Pos)
    requires Indexed(b, ships) && 0 <= r < GridSize && 0 <= c < GridSize && Unresolved(b, ships, r, c)
    requires q in Neighbours(r, c) && InBounds(q) && !Tried(At(b, q))
    ensures HardTarget(b, ships, u).Some?
    ensures IsScores(ScoreMap(b, ships))
    ensures var t := HardTarget(b, ships, u).value; InBounds(t) && ScoreMap(b, ships)[t.row][t.col] >= AdjacentBonus
  {
    assert !ships[b[r][c].ship.value].sunk;
    HardTargetNone(b, ships, u);
    HardTargetBest(b, ships, u);
    ScoreMapAdjacent(b, ships, r, c, q);
  }

  // ---------------------------------------------------------------------------
  // The scan itself, over a mutable score grid.
  // ---------------------------------------------------------------------------

  /** The score array holds the grid `m`. */
  predicate Holds(a: array2<int>, m: Scores)
    reads a
  {
    a.Length0 == GridSize && a.Length1 == GridSize && IsScores(m) &&
    forall r, c :: 0 <= r < GridSize && 0 <= c < GridSize ==> a[r, c] == m[r][c]
  }

  /** Extending a placement by its next square adds the weight to that square alone. */
  lemma AddAlongNext(m: Scores, row: int, col: int, i: nat, horizontal: bool, w: int, p: Pos)
    requires IsScores(m) && InBounds(p) && p == (if horizontal then Pos(row, col + i) else Pos(row + i, col))
    ensures AddAlong(m, row, col, i + 1, horizontal, w) == Bump(AddAlong(m, row, col, i, horizontal, w), p, w)
  {
    ScoresEqual(AddAlong(m, row, col, i + 1, horizontal, w), Bump(AddAlong(m, row, col, i, horizontal, w), p, w));
  }

  /** Adds `w` to one square of the score map. */
  method BumpSquare(scoreMap: array2<int>, ghost m: Scores, p: Pos, w: int)
    requires Holds(scoreMap, m) && InBounds(p)
    modifies scoreMap
    ensures Holds(scoreMap, Bump(m, p, w))
  {
    scoreMap[p.row, p.col] := scoreMap[p.row, p.col] + w;
  }

  /** Adds `weight` to the squares of one placement, one square at a time. */
  method AddPlacement(scoreMap: array2<int>, ghost m: Scores, row: int, col: int, size: nat, horizontal: bool, weight: int)
    requires Holds(scoreMap, m) && Fits(row, col, size, horizontal)
    modifies scoreMap
    ensures Holds(scoreMap, AddAlong(m, row, col, size, horizontal, weight))
  {
    ghost var cur := AddAlong(m, row, col, 0, horizontal, weight);
    ScoresEqual(cur, m);
    for i := 0 to size
      invariant cur == AddAlong(m, row, col, i, horizontal, weight)
      invariant Holds(scoreMap, cur)
    {
      var p := if horizontal then Pos(row, col + i) else Pos(row + i, col);
      AddAlongNext(m, row, col, i, horizontal, weight, p);
      BumpSquare(scoreMap, cur, p, weight);
      cur := Bump(cur, p, weight);
    }
  }

  /** Adds `amount` to each listed square that is on the board and untried. */
  method BoostSquares(scoreMap: array2<int>, ghost m: Scores, board: Board, squares: seq<Pos>, amount: int)
    requires Holds(scoreMap, m) && IsBoard(board)
    modifies scoreMap
    ensures Holds(scoreMap, BoostCells(m, board, squares, amount))
  {
    ghost var cur := m;
    for k := 0 to |squares|
      invariant Holds(scoreMap, cur)
      invariant BoostCells(cur, board, squares[k..], amount) == BoostCells(m, board, squares, amount)
    {
      var p := squares[k];
      assert squares[k..][1..] == squares[k + 1..];
      if 0 <= p.row < GridSize && 0 <= p.col < GridSize {
        var cell := board[p.row][p.col];
        if !cell.hit && !cell.miss {
          scoreMap[p.row, p.col] := scoreMap[p.row, p.col] + amount;
          cur := Bump(cur, p, amount);
        }
      }
    }
  }

  /** The weight loop body of `getHardModeProbabilityTarget` for one first square and orientation. */
  method Place(scoreMap: array2<int>, ghost m: Scores, board: Board, ships: seq<Ship>, hasActiveHits: bool,
               row: int, col: int, shipSize: nat, horizontal: bool) returns (ghost m': Scores)
    requires Holds(scoreMap, m) && Indexed(board, ships) && 0 <= row < GridSize && 0 <= col < GridSize
    modifies scoreMap
    ensures var w := PlacementWeight(board, ships, hasActiveHits, row, col, shipSize, horizontal);
            m' == (if w > 0 then AddAlong(m, row, col, shipSize, horizontal, w) else m)
    ensures Holds(scoreMap, m')
  {
    m' := m;
    if (if horizontal then col + shipSize <= GridSize else row + shipSize <= GridSize) {
      var placementInfo := ProbePlacement(board, ships, row, col, shipSize, horizontal);
      if placementInfo.valid {
        var weight := 1;
        if hasActiveHits {
          if placementInfo.includesHits {
            weight := 100 * placementInfo.hitCount;
          } else {
            weight := 0;
          }
        }
        if weight > 0 {
          AddPlacement(scoreMap, m, row, col, shipSize, horizontal, weight);
          m' := AddAlong(m, row, col, shipSize, horizontal, weight);
        }
      }
    }
  }

  lemma DensityNextSquare(m: Scores, b: Board, ships: seq<Ship>, active: bool, sizes: seq<nat>, r: int, c: int)
    requires IsScores(m) && Indexed(b, ships) && 0 <= r < GridSize && 0 <= c < GridSize && sizes != []
    ensures DensityFrom(m, b, ships, active, sizes, r, c) ==
            DensityFrom(Consider(m, b, ships, active, sizes[0], r, c), b, ships, active, sizes, r, c + 1)
  {
  }

  lemma DensityNextRow(m: Scores, b: Board, ships: seq<Ship>, active: bool, sizes: seq<nat>, r: int)
    requires IsScores(m) && Indexed(b, ships) && 0 <= r < GridSize && sizes != []
    ensures DensityFrom(m, b, ships, active, sizes, r, GridSize) == DensityFrom(m, b, ships, active, sizes, r + 1, 0)
  {
  }

  lemma DensityNextShip(m: Scores, b: Board, ships: seq<Ship>, active: bool, sizes: seq<nat>)
    requires IsScores(m) && Indexed(b, ships) && sizes != []
    ensures DensityFrom(m, b, ships, active, sizes, GridSize, 0) == DensityFrom(m, b, ships, active, sizes[1..], 0, 0)
  {
  }

  /** Both placements from one first square: horizontal, then vertical. */
  method ConsiderSquare(scoreMap: array2<int>, ghost m: Scores, board: Board, ships: seq<Ship>, hasActiveHits: bool,
                        row: int, col: int, shipSize: nat) returns (ghost m': Scores)
    requires Holds(scoreMap, m) && Indexed(board, ships) && 0 <= row < GridSize && 0 <= col < GridSize
    modifies scoreMap
    ensures m' == Consider(m, board, ships, hasActiveHits, shipSize, row, col)
    ensures Holds(scoreMap, m')
  {
    m' := Place(scoreMap, m, board, ships, hasActiveHits, row, col, shipSize, true);
    m' := Place(scoreMap, m', board, ships, hasActiveHits, row, col, shipSize, false);
  }

  /** The column loop of the density pass for one ship size and one row. */
  method DensityRow(scoreMap: array2<int>, ghost m: Scores, board: Board, ships: seq<Ship>, hasActiveHits: bool,
                    sizes: seq<nat>, row: int) returns (ghost m': Scores)
    requires Holds(scoreMap, m) && Indexed(board, ships) && 0 <= row < GridSize && sizes != []
    modifies scoreMap
    ensures Holds(scoreMap, m')
    ensures DensityFrom(m', board, ships, hasActiveHits, sizes, row + 1, 0) ==
            DensityFrom(m, board, ships, hasActiveHits, sizes, row, 0)
  {
    m' := m;
    for col := 0 to GridSize
      invariant Holds(scoreMap, m')
      invariant DensityFrom(m', board, ships, hasActiveHits, sizes, row, col) ==
                DensityFrom(m, board, ships, hasActiveHits, sizes, row, 0)
    {
      DensityNextSquare(m', board, ships, hasActiveHits, sizes, row, col);
      m' := ConsiderSquare(scoreMap, m', board, ships, hasActiveHits, row, col, sizes[0]);
    }
    DensityNextRow(m', board, ships, hasActiveHits, sizes, row);
  }

  /** The row loop of the density pass for one ship size. */
  method DensityShip(scoreMap: array2<int>, ghost m: Scores, board: Board, ships: seq<Ship>, hasActiveHits: bool,
                     sizes: seq<nat>) returns (ghost m': Scores)
    requires Holds(scoreMap, m) && Indexed(board, ships) && sizes != []
    modifies scoreMap
    ensures Holds(scoreMap, m')
    ensures DensityFrom(m', board, ships, hasActiveHits, sizes[1..], 0, 0) ==
            DensityFrom(m, board, ships, hasActiveHits, sizes, 0, 0)
  {
    m' := m;
    for row := 0 to GridSize
      invariant Holds(scoreMap, m')
      invariant DensityFrom(m', board, ships, hasActiveHits, sizes, row, 0) ==
                DensityFrom(m, board, ships, hasActiveHits, sizes, 0, 0)
    {
      m' := DensityRow(scoreMap, m', board, ships, hasActiveHits, sizes, row);
    }
    DensityNextShip(m', board, ships, hasActiveHits, sizes);
  }

  /** The density loops of `getHardModeProbabilityTarget`, on a fresh zero grid. */
  method Density(board: Board, ships: seq<Ship>, remainingShips: seq<nat>, hasActiveHits: bool) returns (scoreMap: array2<int>)
    requires Indexed(board, ships)
    ensures fresh(scoreMap)
    ensures Holds(scoreMap, DensityFrom(ZeroScores(), board, ships, hasActiveHits, remainingShips, 0, 0))
  {
    scoreMap := new int[GridSize, GridSize]((_, _) => 0);
    ghost var cur := ZeroScores();
    ghost var final := DensityFrom(cur, board, ships, hasActiveHits, remainingShips, 0, 0);
    assert remainingShips[0..] == remainingShips;
    for s := 0 to |remainingShips|
      invariant Holds(scoreMap, cur)
      invariant DensityFrom(cur, board, ships, hasActiveHits, remainingShips[s..], 0, 0) == final
    {
      assert remainingShips[s..][1..] == remainingShips[s + 1..];
      cur := DensityShip(scoreMap, cur, board, ships, hasActiveHits, remainingShips[s..]);
    }
  }

  /** The line bonus loop: each in-bounds untried endpoint of each line gains `LineBonus`. */
  method BoostLineEndpoints(scoreMap: array2<int>, ghost m: Scores, board: Board, alignedLines: seq<Line>)
    returns (ghost m': Scores)
    requires Holds(scoreMap, m) && IsBoard(board)
    modifies scoreMap
    ensures m' == BoostLines(m, board, alignedLines) && Holds(scoreMap, m')
  {
    m' := m;
    for li := 0 to |alignedLines|
      invariant Holds(scoreMap, m')
      invariant BoostLines(m', board, alignedLines[li..]) == BoostLines(m, board, alignedLines)
    {
      assert alignedLines[li..][1..] == alignedLines[li + 1..];
      BoostSquares(scoreMap, m', board, alignedLines[li].endpoints, LineBonus);
      m' := BoostCells(m', board, alignedLines[li].endpoints, LineBonus);
    }
  }

  /** The adjacency bonus loop: each in-bounds untried neighbour of each hit gains `AdjacentBonus`. */
  method BoostHitNeighbours(scoreMap: array2<int>, ghost m: Scores, board: Board, unresolvedHits: seq<HitRef>)
    returns (ghost m': Scores)
    requires Holds(scoreMap, m) && IsBoard(board)
    modifies scoreMap
    ensures m' == BoostAdjacent(m, board, unresolvedHits) && Holds(scoreMap, m')
  {
    m' := m;
    for k := 0 to |unresolvedHits|
      invariant Holds(scoreMap, m')
      invariant BoostAdjacent(m', board, unresolvedHits[k..]) == BoostAdjacent(m, board, unresolvedHits)
    {
      assert unresolvedHits[k..][1..] == unresolvedHits[k + 1..];
      var hit := unresolvedHits[k];
      var adjacentCells := Neighbours(hit.row, hit.col);
      BoostSquares(scoreMap, m', board, adjacentCells, AdjacentBonus);
      m' := BoostCells(m', board, adjacentCells, AdjacentBonus);
    }
  }

  /** The selection loops: the best score over untried squares and the squares that reach it. */
  method SelectBest(scoreMap: array2<int>, ghost m: Scores, board: Board) returns (maxScore: int, bestCells: seq<Pos>)
    requires Holds(scoreMap, m) && IsBoard(board)
    ensures Best(maxScore, bestCells) == SelectFrom(m, board, Best(0, []), 0, 0)
  {
    maxScore := 0;
    bestCells := [];
    for row := 0 to GridSize
      invariant SelectFrom(m, board, Best(maxScore, bestCells), row, 0) == SelectFrom(m, board, Best(0, []), 0, 0)
    {
      for col := 0 to GridSize
        invariant SelectFrom(m, board, Best(maxScore, bestCells), row, col) == SelectFrom(m, board, Best(0, []), 0, 0)
      {
        var cell := board[row][col];
        if cell.hit || cell.miss {
          continue;
        }
        var score := scoreMap[row, col];
        if score > maxScore {
          maxScore := score;
          bestCells := [Pos(row, col)];
        } else if score == maxScore && score > 0 {
          bestCells := bestCells + [Pos(row, col)];
        }
      }
    }
  }

  /** The fallback loop: the first untried square in row-major order. */
  method FirstUntried(board: Board) returns (target: Option<Pos>)
    requires IsBoard(board)
    ensures target == FirstFrom(board, 0, 0)
  {
    for row := 0 to GridSize
      invariant FirstFrom(board, row, 0) == FirstFrom(board, 0, 0)
    {
      for col := 0 to GridSize
        invariant FirstFrom(board, row, col) == FirstFrom(board, 0, 0)
      {
        var cell := board[row][col];
        if !cell.hit && !cell.miss {
          return Some(Pos(row, col));
        }
      }
    }
    return None;
  }

  /** `getHardModeProbabilityTarget`: the score grid built in place, then the selection. */
  method GetHardModeProbabilityTarget(board: Board, ships: seq<Ship>, u: Unit) returns (target: Option<Pos>)
    requires Indexed(board, ships)
    ensures target == HardTarget(board, ships, u)
  {
    var remainingShips := RemainingSizes(ships);
    if |remainingShips| == 0 {
      return None;
    }
    var unresolvedHits := FindUnresolvedHits(board, ships);
    var hasActiveHits := |unresolvedHits| > 0;
    var scoreMap := Density(board, ships, remainingShips, hasActiveHits);
    ghost var m := DensityFrom(ZeroScores(), board, ships, hasActiveHits, remainingShips, 0, 0);
    if |unresolvedHits| >= 2 {
      var alignedLines := FindAlignedHitLines(unresolvedHits);
      m := BoostLineEndpoints(scoreMap, m, board, alignedLines);
    }
    if hasActiveHits {
      m := BoostHitNeighbours(scoreMap, m, board, unresolvedHits);
    }
    assert m == ScoreMap(board, ships);
    var maxScore, bestCells := SelectBest(scoreMap, m, board);
    if |bestCells| > 0 {
      return Some(bestCells[Pick(u, |bestCells|)]);
    }
    target := FirstUntried(board);
  }
}
