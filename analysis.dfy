/**
  * The read-only scans the opponent uses on the player's board:
  * `findUnresolvedHits`, `findAlignedHitLines`,
  * `isValidPlacementForProbabilityWithInfo` and `checkAllShipsSunk`.
  */
module Analysis {
  import opened Wrappers
  import opened Grid

  /** A hit square and the ship it hit. */
  datatype HitRef = HitRef(row: int, col: int, ship: nat)

  /** A hit square whose ship is still afloat. */
  predicate Unresolved(b: Board, ships: seq<Ship>, r: int, c: int)
    requires Indexed(b, ships) && 0 <= r < GridSize && 0 <= c < GridSize
  {
    b[r][c].hit && b[r][c].ship.Some? && !ships[b[r][c].ship.value].sunk
  }

  /** `h` names an unresolved hit square and the ship on it. */
  predicate IsUnresolvedRef(b: Board, ships: seq<Ship>, h: HitRef)
    requires Indexed(b, ships)
  {
    0 <= h.row < GridSize && 0 <= h.col < GridSize &&
    Unresolved(b, ships, h.row, h.col) && b[h.row][h.col].ship == Some(h.ship)
  }

  /** Every hit of the list names an on-board square. */
  predicate OnBoard(hs: seq<HitRef>) {
    forall h :: h in hs ==> 0 <= h.row < GridSize && 0 <= h.col < GridSize
  }

  /** Row-major order of squares. */
  predicate Before(h: HitRef, g: HitRef) {
    h.row < g.row || (h.row == g.row && h.col < g.col)
  }

  /** Row-major order, strictly increasing. */
  predicate Sorted(hs: seq<HitRef>) {
    forall k, l :: 0 <= k < l < |hs| ==> Before(hs[k], hs[l])
  }

  /** The unresolved hits of row `r` from column `c` on. */
  function RowHits(b: Board, ships: seq<Ship>, r: int, c: int): (hs: seq<HitRef>)
    requires Indexed(b, ships) && 0 <= r < GridSize && 0 <= c <= GridSize
    ensures forall h :: h in hs ==> h.row == r && c <= h.col && IsUnresolvedRef(b, ships, h)
    ensures Sorted(hs)
    ensures forall c' :: c <= c' < GridSize && Unresolved(b, ships, r, c') ==> HitRef(r, c', b[r][c'].ship.value) in hs
    decreases GridSize - c
  {
    if c == GridSize then []
    else
      var rest := RowHits(b, ships, r, c + 1);
      if Unresolved(b, ships, r, c) then [HitRef(r, c, b[r][c].ship.value)] + rest else rest
  }

  /** A sorted run of one row followed by a sorted run of later rows is sorted. */
  lemma SortedConcat(front: seq<HitRef>, rest: seq<HitRef>, r: int)
    requires Sorted(front) && Sorted(rest)
    requires forall h :: h in front ==> h.row == r
    requires forall h :: h in rest ==> r < h.row
    ensures Sorted(front + rest)
  {
    var hs := front + rest;
    forall k, l | 0 <= k < l < |hs| ensures Before(hs[k], hs[l]) {
      if l < |front| {
        assert hs[k] == front[k] && hs[l] == front[l];
      } else if k < |front| {
        assert hs[k] == front[k] && hs[k] in front;
        assert hs[l] == rest[l - |front|] && hs[l] in rest;
      } else {
        assert hs[k] == rest[k - |front|] && hs[l] == rest[l - |front|];
      }
    }
  }

  /** The unresolved hits of rows `r` to 9, in row-major order. */
  function RowsHits(b: Board, ships: seq<Ship>, r: int): (hs: seq<HitRef>)
    requires Indexed(b, ships) && 0 <= r <= GridSize
    ensures forall h :: h in hs ==> r <= h.row && IsUnresolvedRef(b, ships, h)
    ensures Sorted(hs)
    ensures forall r', c' :: r <= r' < GridSize && 0 <= c' < GridSize && Unresolved(b, ships, r', c') ==>
              HitRef(r', c', b[r'][c'].ship.value) in hs
    decreases GridSize - r
  {
    if r == GridSize then []
    else
      var front := RowHits(b, ships, r, 0);
      var rest := RowsHits(b, ships, r + 1);
      SortedConcat(front, rest, r);
      front + rest
  }

  /**
    * `findUnresolvedHits`: every hit square whose ship is afloat, each once,
    * in row-major order, and nothing else.
    */
  function FindUnresolvedHits(b: Board, ships: seq<Ship>): (hs: seq<HitRef>)
    requires Indexed(b, ships)
    ensures forall h :: h in hs ==> IsUnresolvedRef(b, ships, h)
    ensures Sorted(hs)
    ensures forall r, c :: 0 <= r < GridSize && 0 <= c < GridSize && Unresolved(b, ships, r, c) ==>
              HitRef(r, c, b[r][c].ship.value) in hs
  {
    RowsHits(b, ships, 0)
  }

  /** With no unresolved hit on the board, the scan finds nothing, and conversely. */
  lemma NoUnresolvedHits(b: Board, ships: seq<Ship>)
    requires Indexed(b, ships)
    ensures FindUnresolvedHits(b, ships) == [] <==>
            forall r, c :: 0 <= r < GridSize && 0 <= c < GridSize ==> !Unresolved(b, ships, r, c)
  {
    var hs := FindUnresolvedHits(b, ships);
    if hs != [] {
      assert IsUnresolvedRef(b, ships, hs[0]);
    }
  }

  // ---------------------------------------------------------------------------
  // Aligned hit lines.
  // ---------------------------------------------------------------------------

  /** The position of a least element. */
  function ArgMin(xs: seq<int>): (i: nat)
    requires |xs| > 0
    ensures i < |xs| && forall j :: 0 <= j < |xs| ==> xs[i] <= xs[j]
  {
    if |xs| == 1 then 0
    else
      var k := ArgMin(xs[1..]) + 1;
      assert forall j :: 1 <= j < |xs| ==> xs[j] == xs[1..][j - 1];
      if xs[0] <= xs[k] then 0 else k
  }

  /** The position of a greatest element. */
  function ArgMax(xs: seq<int>): (i: nat)
    requires |xs| > 0
    ensures i < |xs| && forall j :: 0 <= j < |xs| ==> xs[j] <= xs[i]
  {
    if |xs| == 1 then 0
    else
      var k := ArgMax(xs[1..]) + 1;
      assert forall j :: 1 <= j < |xs| ==> xs[j] == xs[1..][j - 1];
      if xs[0] >= xs[k] then 0 else k
  }

  /** `Math.min(...xs)`. */
  function MinOf(xs: seq<int>): int
    requires |xs| > 0
  {
    xs[ArgMin(xs)]
  }

  /** `Math.max(...xs)`. */
  function MaxOf(xs: seq<int>): int
    requires |xs| > 0
  {
    xs[ArgMax(xs)]
  }

  function Rows(hs: seq<HitRef>): (xs: seq<int>)
    ensures |xs| == |hs| && forall i :: 0 <= i < |hs| ==> xs[i] == hs[i].row
  {
    seq(|hs|, i requires 0 <= i < |hs| => hs[i].row)
  }

  function Cols(hs: seq<HitRef>): (xs: seq<int>)
    ensures |xs| == |hs| && forall i :: 0 <= i < |hs| ==> xs[i] == hs[i].col
  {
    seq(|hs|, i requires 0 <= i < |hs| => hs[i].col)
  }

  predicate AllSameRow(hs: seq<HitRef>)
    requires |hs| > 0
  {
    forall i :: 0 <= i < |hs| ==> hs[i].row == hs[0].row
  }

  predicate AllSameCol(hs: seq<HitRef>)
    requires |hs| > 0
  {
    forall i :: 0 <= i < |hs| ==> hs[i].col == hs[0].col
  }

  /** Two or more hits of one ship on one row or column, and the squares that would extend them. */
  datatype Line = Line(ship: nat, horizontal: bool, hits: seq<HitRef>, endpoints: seq<Pos>)

  /** The square at `x` along row (or column) `fixed`. */
  function Along(fixed: int, x: int, horizontal: bool): Pos {
    if horizontal then Pos(fixed, x) else Pos(x, fixed)
  }

  /** The squares just beyond the extremes `lo` and `hi` of a run along a row (or a column), where on the board. */
  function Extensions(fixed: int, lo: int, hi: int, horizontal: bool): (eps: seq<Pos>)
    ensures forall e :: e in eps ==>
              (lo > 0 && e == Along(fixed, lo - 1, horizontal)) || (hi < GridSize - 1 && e == Along(fixed, hi + 1, horizontal))
    ensures |eps| == 0 <==> lo <= 0 && hi >= GridSize - 1
  {
    (if lo > 0 then [Along(fixed, lo - 1, horizontal)] else []) +
    (if hi < GridSize - 1 then [Along(fixed, hi + 1, horizontal)] else [])
  }

  /** The line for one ship's hits: two or more, all on one row (tried first) or all on one column, with an endpoint on the board. */
  function LineFor(k: nat, hits: seq<HitRef>): (r: Option<Line>)
    ensures r.Some? ==> r.value.ship == k && r.value.hits == hits
  {
    if |hits| < 2 then None
    else if AllSameRow(hits) then
      var eps := Extensions(hits[0].row, MinOf(Cols(hits)), MaxOf(Cols(hits)), true);
      if eps == [] then None else Some(Line(k, true, hits, eps))
    else if AllSameCol(hits) then
      var eps := Extensions(hits[0].col, MinOf(Rows(hits)), MaxOf(Rows(hits)), false);
      if eps == [] then None else Some(Line(k, false, hits, eps))
    else None
  }

  /** The hits on ship `k`, in their order. */
  function HitsOn(hs: seq<HitRef>, k: nat): (r: seq<HitRef>)
    ensures forall h :: h in r <==> h in hs && h.ship == k
  {
    if hs == [] then []
    else (if hs[0].ship == k then [hs[0]] else []) + HitsOn(hs[1..], k)
  }

  /** The ships hit, each once, in the order of their first hit. */
  function ShipsInOrder(hs: seq<HitRef>): (ks: seq<nat>)
    ensures forall k :: k in ks <==> exists h :: h in hs && h.ship == k
    ensures forall i, j :: 0 <= i < j < |ks| ==> ks[i] != ks[j]
  {
    if hs == [] then []
    else
      var front := ShipsInOrder(hs[..|hs| - 1]);
      assert forall h :: h in hs <==> h in hs[..|hs| - 1] || h == hs[|hs| - 1];
      if hs[|hs| - 1].ship in front then front else front + [hs[|hs| - 1].ship]
  }

  /** `f` is the index of the first hit on ship `k` in `hs`. */
  predicate IsFirstHit(hs: seq<HitRef>, k: nat, f: int) {
    0 <= f < |hs| && hs[f].ship == k && forall j :: 0 <= j < f ==> hs[j].ship != k
  }

  /** A first hit found in a prefix is the first hit of the whole list, and conversely when it lies in the prefix. */
  lemma FirstHitPrefix(hs: seq<HitRef>, k: nat, f: int)
    requires |hs| > 0 && 0 <= f < |hs| - 1
    ensures IsFirstHit(hs, k, f) <==> IsFirstHit(hs[..|hs| - 1], k, f)
  {
  }

  /**
    * The ships come in the order of their first hits, which is the insertion
    * order of the `hitsByShip` map: ship `ks[i]` is listed before ship `ks[j]`
    * exactly when its first hit comes first.
    */
  lemma {:induction false} ShipsInOrderFirstHit(hs: seq<HitRef>, i: int, j: int, fi: int, fj: int)
    requires 0 <= i < |ShipsInOrder(hs)| && 0 <= j < |ShipsInOrder(hs)|
    requires IsFirstHit(hs, ShipsInOrder(hs)[i], fi) && IsFirstHit(hs, ShipsInOrder(hs)[j], fj)
    ensures i < j <==> fi < fj
  {
    var ks := ShipsInOrder(hs);
    var front := hs[..|hs| - 1];
    var last := hs[|hs| - 1];
    var fks := ShipsInOrder(front);
    // A ship listed by the prefix has its first hit in the prefix.
    forall x, f | 0 <= x < |fks| && IsFirstHit(hs, fks[x], f)
      ensures f < |hs| - 1 && IsFirstHit(front, fks[x], f)
    {
      var h :| h in front && h.ship == fks[x];
      var m :| 0 <= m < |front| && front[m] == h;
      assert hs[m] == h;
      FirstHitPrefix(hs, fks[x], f);
    }
    if last.ship in fks {
      ShipsInOrderFirstHit(front, i, j, fi, fj);
    } else {
      assert ks == fks + [last.ship];
      if i < |fks| && j < |fks| {
        ShipsInOrderFirstHit(front, i, j, fi, fj);
      }
    }
  }

  /** The line of ship `k`'s hits, if they form one. */
  function LineOf(hs: seq<HitRef>, k: nat): (r: Option<Line>)
    ensures r.Some? ==> r.value.ship == k
  {
    LineFor(k, HitsOn(hs, k))
  }

  /** The candidate line of each ship of `ks`, in that order. */
  function Candidates(hs: seq<HitRef>, ks: seq<nat>): (os: seq<Option<Line>>)
    ensures |os| == |ks| && forall i :: 0 <= i < |ks| ==> os[i] == LineOf(hs, ks[i])
  {
    seq(|ks|, i requires 0 <= i < |ks| => LineOf(hs, ks[i]))
  }

  /** The lines present among the candidates, in order. */
  function Somes(os: seq<Option<Line>>): (lines: seq<Line>)
    ensures forall l :: l in lines <==> Some(l) in os
    decreases |os|
  {
    if os == [] then []
    else
      var rest := Somes(os[1..]);
      assert forall o :: o in os <==> o == os[0] || o in os[1..];
      if os[0].Some? then [os[0].value] + rest else rest
  }

  /** The candidates present are for pairwise different ships. */
  predicate ShipsDistinct(os: seq<Option<Line>>) {
    forall i, j :: 0 <= i < j < |os| && os[i].Some? && os[j].Some? ==> os[i].value.ship != os[j].value.ship
  }

  /** Keeping the present candidates keeps their ships distinct. */
  lemma {:induction false} SomesDistinct(os: seq<Option<Line>>)
    requires ShipsDistinct(os)
    ensures forall i, j :: 0 <= i < j < |Somes(os)| ==> Somes(os)[i].ship != Somes(os)[j].ship
    decreases |os|
  {
    if os != [] {
      var tail := os[1..];
      assert ShipsDistinct(tail) by {
        forall i, j | 0 <= i < j < |tail| && tail[i].Some? && tail[j].Some?
          ensures tail[i].value.ship != tail[j].value.ship
        {
          assert tail[i] == os[i + 1] && tail[j] == os[j + 1];
        }
      }
      SomesDistinct(tail);
      var rest := Somes(tail);
      if os[0].Some? {
        var lines := [os[0].value] + rest;
        assert Somes(os) == lines;
        forall i, j | 0 <= i < j < |lines| ensures lines[i].ship != lines[j].ship {
          assert lines[j] == rest[j - 1] && lines[j] in rest;
          if i > 0 {
            assert lines[i] == rest[i - 1];
          } else {
            assert Some(lines[j]) in tail;
            var k :| 0 <= k < |tail| && tail[k] == Some(lines[j]);
            assert os[k + 1] == tail[k];
            assert os[0].value.ship != os[k + 1].value.ship;
          }
        }
      } else {
        assert Somes(os) == rest;
      }
    }
  }

  /** Candidates for distinct ships are for distinct ships. */
  lemma CandidatesDistinct(hs: seq<HitRef>, ks: seq<nat>)
    requires forall i, j :: 0 <= i < j < |ks| ==> ks[i] != ks[j]
    ensures ShipsDistinct(Candidates(hs, ks))
  {
  }

  /** `findAlignedHitLines`: the hits grouped by ship, one line per aligned group. */
  function FindAlignedHitLines(hs: seq<HitRef>): seq<Line>
  {
    Somes(Candidates(hs, ShipsInOrder(hs)))
  }

  function Abs(x: int): nat {
    if x < 0 then -x else x
  }

  /** An endpoint: on the board, next to a hit of the line, and none of its hits. */
  predicate EndpointOk(hits: seq<HitRef>, e: Pos) {
    InBounds(e) &&
    (exists k :: 0 <= k < |hits| && Abs(hits[k].row - e.row) + Abs(hits[k].col - e.col) == 1) &&
    (forall k :: 0 <= k < |hits| ==> Pos(hits[k].row, hits[k].col) != e)
  }

  /**
    * What a line promises: it holds all the hits on its ship, two or more, on
    * one row (for a horizontal line) or one column, and it has an endpoint;
    * each endpoint is an on-board square of that row or column just beyond the
    * hits.
    */
  predicate LineSound(hs: seq<HitRef>, line: Line) {
    line.hits == HitsOn(hs, line.ship) && |line.hits| >= 2 &&
    (if line.horizontal then AllSameRow(line.hits) else AllSameCol(line.hits)) &&
    |line.endpoints| > 0 &&
    forall e :: e in line.endpoints ==> EndpointOk(line.hits, e)
  }

  /** A square next to hit `k` and on none of the hits is an endpoint. */
  lemma Beside(hits: seq<HitRef>, k: int, e: Pos)
    requires 0 <= k < |hits| && InBounds(e)
    requires Abs(hits[k].row - e.row) + Abs(hits[k].col - e.col) == 1
    requires forall m :: 0 <= m < |hits| ==> Pos(hits[m].row, hits[m].col) != e
    ensures EndpointOk(hits, e)
  {
  }

  /** The hits on one row lie between columns `hits[i].col` and `hits[j].col`, the least and the greatest. */
  lemma RowRun(hits: seq<HitRef>) returns (i: nat, j: nat)
    requires |hits| > 0 && AllSameRow(hits) && OnBoard(hits)
    ensures i < |hits| && j < |hits| && hits[i].col == MinOf(Cols(hits)) && hits[j].col == MaxOf(Cols(hits))
    ensures hits[i].row == hits[0].row && hits[j].row == hits[0].row
    ensures 0 <= hits[0].row < GridSize && 0 <= hits[i].col <= hits[j].col < GridSize
    ensures forall m :: 0 <= m < |hits| ==> hits[i].col <= hits[m].col <= hits[j].col
  {
    var cols := Cols(hits);
    i, j := ArgMin(cols), ArgMax(cols);
    assert hits[0] in hits && hits[i] in hits && hits[j] in hits;
    forall m | 0 <= m < |hits| ensures hits[i].col <= hits[m].col <= hits[j].col {
      assert cols[m] == hits[m].col;
    }
  }

  /** The hits on one column lie between rows `hits[i].row` and `hits[j].row`, the least and the greatest. */
  lemma ColRun(hits: seq<HitRef>) returns (i: nat, j: nat)
    requires |hits| > 0 && AllSameCol(hits) && OnBoard(hits)
    ensures i < |hits| && j < |hits| && hits[i].row == MinOf(Rows(hits)) && hits[j].row == MaxOf(Rows(hits))
    ensures hits[i].col == hits[0].col && hits[j].col == hits[0].col
    ensures 0 <= hits[0].col < GridSize && 0 <= hits[i].row <= hits[j].row < GridSize
    ensures forall m :: 0 <= m < |hits| ==> hits[i].row <= hits[m].row <= hits[j].row
  {
    var rows := Rows(hits);
    i, j := ArgMin(rows), ArgMax(rows);
    assert hits[0] in hits && hits[i] in hits && hits[j] in hits;
    forall m | 0 <= m < |hits| ensures hits[i].row <= hits[m].row <= hits[j].row {
      assert rows[m] == hits[m].row;
    }
  }

  /** The endpoints of hits along one row extend them by one square at either end. */
  lemma RowEndpoints(hits: seq<HitRef>)
    requires |hits| >= 2 && AllSameRow(hits) && OnBoard(hits)
    ensures forall e :: e in Extensions(hits[0].row, MinOf(Cols(hits)), MaxOf(Cols(hits)), true) ==> EndpointOk(hits, e)
  {
    var i, j := RowRun(hits);
    var r, lo, hi := hits[0].row, hits[i].col, hits[j].col;
    forall e | e in Extensions(r, lo, hi, true) ensures EndpointOk(hits, e) {
      if lo > 0 && e == Pos(r, lo - 1) {
        Beside(hits, i, e);
      } else {
        Beside(hits, j, e);
      }
    }
  }

  /** The endpoints of hits along one column extend them by one square at either end. */
  lemma ColEndpoints(hits: seq<HitRef>)
    requires |hits| >= 2 && AllSameCol(hits) && OnBoard(hits)
    ensures forall e :: e in Extensions(hits[0].col, MinOf(Rows(hits)), MaxOf(Rows(hits)), false) ==> EndpointOk(hits, e)
  {
    var i, j := ColRun(hits);
    var c, lo, hi := hits[0].col, hits[i].row, hits[j].row;
    forall e | e in Extensions(c, lo, hi, false) ensures EndpointOk(hits, e) {
      if lo > 0 && e == Pos(lo - 1, c) {
        Beside(hits, i, e);
      } else {
        Beside(hits, j, e);
      }
    }
  }

  lemma LineForSound(hs: seq<HitRef>, k: nat)
    requires OnBoard(hs) && LineOf(hs, k).Some?
    ensures LineSound(hs, LineOf(hs, k).value)
  {
    var hits := HitsOn(hs, k);
    if AllSameRow(hits) {
      RowEndpoints(hits);
    } else {
      ColEndpoints(hits);
    }
  }

  /** Every line `findAlignedHitLines` reports on on-board hits is sound. */
  lemma AlignedLinesSound(hs: seq<HitRef>)
    requires OnBoard(hs)
    ensures forall l :: l in FindAlignedHitLines(hs) ==> LineSound(hs, l)
  {
    var ks := ShipsInOrder(hs);
    var os := Candidates(hs, ks);
    forall l | l in Somes(os) ensures LineSound(hs, l) {
      var i :| 0 <= i < |os| && os[i] == Some(l);
      LineForSound(hs, ks[i]);
    }
  }

  /** `findAlignedHitLines` reports at most one line per ship. */
  lemma AlignedLinesDistinct(hs: seq<HitRef>)
    ensures forall i, j :: 0 <= i < j < |FindAlignedHitLines(hs)| ==>
              FindAlignedHitLines(hs)[i].ship != FindAlignedHitLines(hs)[j].ship
  {
    var os := Candidates(hs, ShipsInOrder(hs));
    assert FindAlignedHitLines(hs) == Somes(os);
    CandidatesDistinct(hs, ShipsInOrder(hs));
    SomesDistinct(os);
  }

  /** Every ship whose hits form a line has its line reported. */
  lemma AlignedLinesComplete(hs: seq<HitRef>, h: HitRef)
    requires h in hs && LineOf(hs, h.ship).Some?
    ensures LineOf(hs, h.ship).value in FindAlignedHitLines(hs)
  {
    var ks := ShipsInOrder(hs);
    assert h.ship in ks;
    var i :| 0 <= i < |ks| && ks[i] == h.ship;
    var os := Candidates(hs, ks);
    assert os[i] == LineOf(hs, h.ship) && os[i] in os;
  }

  // ---------------------------------------------------------------------------
  // Candidate placements of the hard-mode probability map.
  // ---------------------------------------------------------------------------

  /** `isValidPlacementForProbabilityWithInfo`'s answer. */
  datatype PlacementInfo = PlacementInfo(valid: bool, includesHits: bool, hitCount: nat)

  const Invalid: PlacementInfo := PlacementInfo(false, false, 0)

  predicate AllInBounds(seg: seq<Pos>) {
    forall p :: p in seg ==> InBounds(p)
  }

  /** The squares of a placement that fits are on the board. */
  lemma SegmentOnBoard(row: int, col: int, size: nat, horizontal: bool)
    requires Fits(row, col, size, horizontal)
    ensures AllInBounds(Segment(row, col, size, horizontal))
  {
    forall p | p in Segment(row, col, size, horizontal) ensures InBounds(p) {
      OnSegmentIff(row, col, size, horizontal, p);
    }
  }

  /** A square no ship can still occupy: a miss, or a hit on a sunk ship. */
  predicate Blocked(b: Board, ships: seq<Ship>, p: Pos)
    requires Indexed(b, ships) && InBounds(p)
  {
    b[p.row][p.col].miss || (b[p.row][p.col].hit && b[p.row][p.col].ship.Some? && ships[b[p.row][p.col].ship.value].sunk)
  }

  /** The unresolved hits among the squares, in their order. */
  function HitsAlong(b: Board, ships: seq<Ship>, seg: seq<Pos>): (hs: seq<HitRef>)
    requires Indexed(b, ships) && AllInBounds(seg)
    ensures forall h :: h in hs ==> IsUnresolvedRef(b, ships, h) && Pos(h.row, h.col) in seg
  {
    if seg == [] then []
    else
      var p := seg[0];
      assert p in seg && forall q :: q in seg[1..] ==> q in seg;
      (if Unresolved(b, ships, p.row, p.col) then [HitRef(p.row, p.col, b[p.row][p.col].ship.value)] else []) +
      HitsAlong(b, ships, seg[1..])
  }

  predicate OneShip(hs: seq<HitRef>) {
    forall i :: 0 <= i < |hs| ==> hs[i].ship == hs[0].ship
  }

  /**
    * `isValidPlacementForProbabilityWithInfo` for a placement that fits: it is
    * invalid when it covers a miss or a hit on a sunk ship, or unresolved hits
    * of two ships; otherwise it counts the unresolved hits it covers.
    */
  function ProbePlacement(b: Board, ships: seq<Ship>, row: int, col: int, size: nat, horizontal: bool): (info: PlacementInfo)
    requires Indexed(b, ships) && Fits(row, col, size, horizontal)
    ensures !info.valid ==> info == Invalid
    ensures info.includesHits <==> info.hitCount > 0
  {
    var seg := Segment(row, col, size, horizontal);
    SegmentOnBoard(row, col, size, horizontal);
    if exists p :: p in seg && Blocked(b, ships, p) then Invalid
    else
      var hs := HitsAlong(b, ships, seg);
      if |hs| > 0 && !OneShip(hs) then Invalid
      else PlacementInfo(true, |hs| > 0, |hs|)
  }

  /** The squares of `seg` that are unresolved hits. */
  function HitSquares(b: Board, ships: seq<Ship>, seg: seq<Pos>): set<Pos>
    requires Indexed(b, ships) && AllInBounds(seg)
  {
    set p | p in seg && Unresolved(b, ships, p.row, p.col)
  }

  lemma {:induction false} HitsAlongHas(b: Board, ships: seq<Ship>, seg: seq<Pos>, p: Pos)
    requires Indexed(b, ships) && AllInBounds(seg)
    requires p in seg && Unresolved(b, ships, p.row, p.col)
    ensures HitRef(p.row, p.col, b[p.row][p.col].ship.value) in HitsAlong(b, ships, seg)
  {
    assert forall q :: q in seg[1..] ==> q in seg;
    if seg[0] != p {
      assert p in seg[1..];
      HitsAlongHas(b, ships, seg[1..], p);
    }
  }

  lemma HitSquaresCons(b: Board, ships: seq<Ship>, seg: seq<Pos>)
    requires Indexed(b, ships) && AllInBounds(seg) && seg != []
    ensures InBounds(seg[0]) && AllInBounds(seg[1..])
    ensures HitSquares(b, ships, seg) ==
            (if Unresolved(b, ships, seg[0].row, seg[0].col) then {seg[0]} else {}) + HitSquares(b, ships, seg[1..])
  {
    assert seg[0] in seg;
    assert forall q :: q in seg <==> q == seg[0] || q in seg[1..];
  }

  lemma DistinctTail(seg: seq<Pos>)
    requires seg != [] && forall i, j :: 0 <= i < j < |seg| ==> seg[i] != seg[j]
    ensures seg[0] !in seg[1..]
    ensures forall i, j :: 0 <= i < j < |seg[1..]| ==> seg[1..][i] != seg[1..][j]
  {
    forall i | 0 <= i < |seg[1..]| ensures seg[1..][i] != seg[0] { assert seg[1..][i] == seg[i + 1]; }
    forall i, j | 0 <= i < j < |seg[1..]| ensures seg[1..][i] != seg[1..][j] {
      assert seg[1..][i] == seg[i + 1] && seg[1..][j] == seg[j + 1];
    }
  }

  /** Along pairwise distinct squares, the hit scan finds each unresolved square once. */
  lemma {:induction false} HitsAlongCount(b: Board, ships: seq<Ship>, seg: seq<Pos>)
    requires Indexed(b, ships) && AllInBounds(seg)
    requires forall i, j :: 0 <= i < j < |seg| ==> seg[i] != seg[j]
    ensures |HitsAlong(b, ships, seg)| == |HitSquares(b, ships, seg)|
  {
    if seg != [] {
      HitSquaresCons(b, ships, seg);
      DistinctTail(seg);
      HitsAlongCount(b, ships, seg[1..]);
      assert seg[0] !in HitSquares(b, ships, seg[1..]);
    }
  }

  /** The unresolved-hit squares a placement covers. */
  function CoveredHits(b: Board, ships: seq<Ship>, row: int, col: int, size: nat, horizontal: bool): set<Pos>
    requires Indexed(b, ships)
  {
    set r, c | 0 <= r < GridSize && 0 <= c < GridSize && OnSegment(row, col, size, horizontal, Pos(r, c)) &&
               Unresolved(b, ships, r, c) :: Pos(r, c)
  }

  lemma CoveredHitSquares(b: Board, ships: seq<Ship>, row: int, col: int, size: nat, horizontal: bool)
    requires Indexed(b, ships) && Fits(row, col, size, horizontal)
    ensures AllInBounds(Segment(row, col, size, horizontal))
    ensures HitSquares(b, ships, Segment(row, col, size, horizontal)) == CoveredHits(b, ships, row, col, size, horizontal)
  {
    SegmentOnBoard(row, col, size, horizontal);
    var seg := Segment(row, col, size, horizontal);
    forall p ensures p in seg <==> OnSegment(row, col, size, horizontal, p) {
      OnSegmentIff(row, col, size, horizontal, p);
    }
  }

  /**
    * A valid placement's hit count is the number of unresolved-hit squares it
    * covers, and it includes hits exactly when it covers one.
    */
  lemma ProbeCount(b: Board, ships: seq<Ship>, row: int, col: int, size: nat, horizontal: bool)
    requires Indexed(b, ships) && Fits(row, col, size, horizontal)
    ensures var info := ProbePlacement(b, ships, row, col, size, horizontal);
            info.valid ==> info.hitCount == |CoveredHits(b, ships, row, col, size, horizontal)|
  {
    var seg := Segment(row, col, size, horizontal);
    CoveredHitSquares(b, ships, row, col, size, horizontal);
    HitsAlongCount(b, ships, seg);
  }

  /** The hits found along the squares lie on one ship exactly when the unresolved squares there do. */
  lemma HitsOneShip(b: Board, ships: seq<Ship>, seg: seq<Pos>)
    requires Indexed(b, ships) && AllInBounds(seg)
    ensures |HitsAlong(b, ships, seg)| == 0 || OneShip(HitsAlong(b, ships, seg)) <==>
            forall p, q :: p in HitSquares(b, ships, seg) && q in HitSquares(b, ships, seg) ==>
              b[p.row][p.col].ship == b[q.row][q.col].ship
  {
    var hs := HitsAlong(b, ships, seg);
    var hit := HitSquares(b, ships, seg);
    if |hs| > 0 && !OneShip(hs) {
      var i :| 0 <= i < |hs| && hs[i].ship != hs[0].ship;
      assert hs[0] in hs && hs[i] in hs;
      assert Pos(hs[0].row, hs[0].col) in hit && Pos(hs[i].row, hs[i].col) in hit;
    } else {
      forall p | p in hit ensures b[p.row][p.col].ship == Some(if hs == [] then 0 else hs[0].ship) {
        HitsAlongHas(b, ships, seg, p);
      }
    }
  }

  /**
    * A placement is valid exactly when none of its squares is a miss or a hit
    * on a sunk ship, and all the unresolved hits it covers lie on one ship.
    */
  lemma ProbeValid(b: Board, ships: seq<Ship>, row: int, col: int, size: nat, horizontal: bool)
    requires Indexed(b, ships) && Fits(row, col, size, horizontal)
    ensures var seg := Segment(row, col, size, horizontal);
            var covered := CoveredHits(b, ships, row, col, size, horizontal);
            ProbePlacement(b, ships, row, col, size, horizontal).valid <==>
              (forall p :: p in seg ==> InBounds(p) && !Blocked(b, ships, p)) &&
              (forall p, q :: p in covered && q in covered ==> b[p.row][p.col].ship == b[q.row][q.col].ship)
  {
    var seg := Segment(row, col, size, horizontal);
    CoveredHitSquares(b, ships, row, col, size, horizontal);
    HitsOneShip(b, ships, seg);
  }

  // ---------------------------------------------------------------------------
  // Win detection.
  // ---------------------------------------------------------------------------

  /** `checkAllShipsSunk`. */
  function AllSunk(ships: seq<Ship>): (r: bool)
    ensures r <==> forall k :: 0 <= k < |ships| ==> ships[k].sunk
  {
    ships == [] || (ships[0].sunk && AllSunk(ships[1..]))
  }

  /** Every square of the list was hit exactly when all of them count in the hit count. */
  lemma {:induction false} HitCountFull(b: Board, ps: seq<Pos>)
    requires IsBoard(b) && forall i :: 0 <= i < |ps| ==> InBounds(ps[i])
    ensures HitCount(b, ps) == |ps| <==> forall i :: 0 <= i < |ps| ==> At(b, ps[i]).hit
  {
    if ps != [] {
      HitCountFull(b, ps[1..]);
      assert forall i :: 1 <= i < |ps| ==> ps[i] == ps[1..][i - 1];
    }
  }

  /** On a well-formed board the fleet is sunk exactly when every square of every ship was hit. */
  lemma AllSunkIffAllHit(b: Board, ships: seq<Ship>)
    requires Wf(b, ships)
    ensures AllSunk(ships) <==>
            forall k, i :: 0 <= k < |ships| && 0 <= i < |ships[k].positions| ==> At(b, ships[k].positions[i]).hit
  {
    forall k | 0 <= k < |ships|
      ensures ships[k].sunk <==> forall i :: 0 <= i < |ships[k].positions| ==> At(b, ships[k].positions[i]).hit
    {
      forall i | 0 <= i < |ships[k].positions| ensures InBounds(ships[k].positions[i]) {
        LaidInBounds(ships[k].positions, ships[k].size, i);
      }
      HitCountFull(b, ships[k].positions);
    }
  }
}
