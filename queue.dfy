/**
  * The medium opponent's target queue: `addTargetIfValid`,
  * `addAdjacentTargets`, `rebuildTargetQueue` and the shifting of stale
  * entries, as functions from the old queue to the new one. The game state
  * applies them to its queue field.
  */
module Queue {
  import opened Wrappers
  import opened Grid
  import opened Analysis

  /** No square is queued twice. */
  predicate NoDup(q: seq<Pos>) {
    forall i, j :: 0 <= i < j < |q| ==> q[i] != q[j]
  }

  /** What the queue always satisfies: duplicate-free and on the board. */
  predicate QueueOk(q: seq<Pos>) {
    NoDup(q) && AllInBounds(q)
  }

  /** `addTargetIfValid`: append the square if it is on the board, untried and not queued yet. */
  function AddTarget(b: Board, q: seq<Pos>, p: Pos): seq<Pos>
    requires IsBoard(b)
  {
    if InBounds(p) && !Tried(At(b, p)) && p !in q then q + [p] else q
  }

  /** `addTargetIfValid` applied to each square in turn. */
  function AddAll(b: Board, q: seq<Pos>, ps: seq<Pos>): seq<Pos>
    requires IsBoard(b)
    decreases |ps|
  {
    if ps == [] then q else AddAll(b, AddTarget(b, q, ps[0]), ps[1..])
  }

  /** The four squares around (row, col): up, down, left, right. */
  function Neighbours(row: int, col: int): (ns: seq<Pos>)
    ensures forall n :: n in ns ==> Abs(n.row - row) + Abs(n.col - col) == 1
  {
    [Pos(row - 1, col), Pos(row + 1, col), Pos(row, col - 1), Pos(row, col + 1)]
  }

  /** `addAdjacentTargets`. */
  function AddAdjacent(b: Board, q: seq<Pos>, row: int, col: int): seq<Pos>
    requires IsBoard(b)
  {
    AddAll(b, q, Neighbours(row, col))
  }

  /** `addAdjacentTargets` for each hit in turn. */
  function AddAdjacentAll(b: Board, q: seq<Pos>, hs: seq<HitRef>): seq<Pos>
    requires IsBoard(b)
    decreases |hs|
  {
    if hs == [] then q else AddAdjacentAll(b, AddAdjacent(b, q, hs[0].row, hs[0].col), hs[1..])
  }

  /**
    * `rebuildTargetQueue`: only the ship of the first unresolved hit is looked
    * at. When it has two or more hits on one row (or else one column), the
    * queue holds the free squares just beyond them; otherwise (and when the
    * first hit's ship has a single hit) the neighbours of every hit are
    * queued.
    */
  function Rebuilt(b: Board, hs: seq<HitRef>): seq<Pos>
    requires IsBoard(b)
  {
    if |hs| >= 2 then
      var same := HitsOn(hs, hs[0].ship);
      if |same| >= 2 && AllSameRow(same) then
        AddAll(b, [], Extensions(same[0].row, MinOf(Cols(same)), MaxOf(Cols(same)), true))
      else if |same| >= 2 && AllSameCol(same) then
        AddAll(b, [], Extensions(same[0].col, MinOf(Rows(same)), MaxOf(Rows(same)), false))
      else AddAdjacentAll(b, [], hs)
    else if |hs| == 1 then AddAdjacent(b, [], hs[0].row, hs[0].col)
    else []
  }

  /**
    * The shift loop of the medium target choice: drop entries from the front
    * until an untried one comes out; it returns that square and the rest of
    * the queue.
    */
  function PopUntried(b: Board, q: seq<Pos>): (r: (Option<Pos>, seq<Pos>))
    requires IsBoard(b) && AllInBounds(q)
    ensures r.0.Some? ==> r.0.value in q && !Tried(At(b, r.0.value))
    ensures r.0.None? <==> forall p :: p in q ==> Tried(At(b, p))
    ensures r.0.None? ==> r.1 == []
    ensures |r.1| <= |q| && r.1 == q[|q| - |r.1|..]
  {
    if q == [] then
      (None, [])
    else
      assert q[0] in q && forall p :: p in q <==> p == q[0] || p in q[1..];
      if !Tried(At(b, q[0])) then (Some(q[0]), q[1..])
      else
        var r := PopUntried(b, q[1..]);
        assert q[1..][|q[1..]| - |r.1|..] == q[|q| - |r.1|..];
        r
  }

  // ---------------------------------------------------------------------------
  // The queue invariant.
  // ---------------------------------------------------------------------------

  /** `x` is next to (orthogonally adjacent to) one of the hits. */
  predicate NextToHit(hs: seq<HitRef>, x: Pos) {
    exists h :: h in hs && Abs(x.row - h.row) + Abs(x.col - h.col) == 1
  }

  lemma AddTargetOk(b: Board, q: seq<Pos>, p: Pos)
    requires IsBoard(b) && QueueOk(q)
    ensures var q' := AddTarget(b, q, p);
            QueueOk(q') && |q| <= |q'| && q'[..|q|] == q &&
            forall x :: x in q'[|q|..] ==> x == p && InBounds(p) && !Tried(At(b, p))
  {
    var q' := AddTarget(b, q, p);
    assert q'[..|q|] == q;
    if q' != q {
      assert q'[|q|..] == [p];
    } else {
      assert q'[|q|..] == [];
    }
  }

  /**
    * `addTargetIfValid` applied to a list keeps the queue duplicate-free and on
    * the board, keeps what was queued, and appends only untried squares of the
    * list.
    */
  lemma {:induction false} AddAllOk(b: Board, q: seq<Pos>, ps: seq<Pos>)
    requires IsBoard(b) && QueueOk(q)
    ensures QueueOk(AddAll(b, q, ps)) && |q| <= |AddAll(b, q, ps)| && AddAll(b, q, ps)[..|q|] == q
    ensures forall x :: x in AddAll(b, q, ps)[|q|..] ==> x in ps && InBounds(x) && !Tried(At(b, x))
    decreases |ps|
  {
    if ps != [] {
      var q1 := AddTarget(b, q, ps[0]);
      AddTargetOk(b, q, ps[0]);
      AddAllOk(b, q1, ps[1..]);
      var q' := AddAll(b, q1, ps[1..]);
      assert q'[..|q|] == q1[..|q|];
      forall x | x in q'[|q|..] ensures x in ps && InBounds(x) && !Tried(At(b, x)) {
        AppendedSplit(q, q1, q', x);
        if x !in q1[|q|..] {
          assert x in ps[1..];
        }
      }
    }
  }

  /** `addTargetIfValid` over a list loses nothing queued and queues every untried on-board square of the list. */
  lemma {:induction false} AddAllCovers(b: Board, q: seq<Pos>, ps: seq<Pos>)
    requires IsBoard(b)
    ensures forall x :: x in q ==> x in AddAll(b, q, ps)
    ensures forall x :: x in ps && InBounds(x) && !Tried(At(b, x)) ==> x in AddAll(b, q, ps)
    decreases |ps|
  {
    if ps != [] {
      AddAllCovers(b, AddTarget(b, q, ps[0]), ps[1..]);
      forall x | x in ps && InBounds(x) && !Tried(At(b, x))
        ensures x in AddAll(b, q, ps)
      {
        if x != ps[0] {
          assert x in ps[1..];
        }
      }
    }
  }

  /** After `addAdjacentTargets(row, col)` every untried on-board neighbour of the square is queued. */
  lemma AddAdjacentCovers(b: Board, q: seq<Pos>, row: int, col: int)
    requires IsBoard(b)
    ensures forall x :: x in q ==> x in AddAdjacent(b, q, row, col)
    ensures forall x :: InBounds(x) && !Tried(At(b, x)) && Abs(x.row - row) + Abs(x.col - col) == 1 ==>
              x in AddAdjacent(b, q, row, col)
  {
    AddAllCovers(b, q, Neighbours(row, col));
    forall x | InBounds(x) && Abs(x.row - row) + Abs(x.col - col) == 1
      ensures x in Neighbours(row, col)
    {
    }
  }

  /** A square appended across two steps was appended by the first or by the second. */
  lemma AppendedSplit(q: seq<Pos>, q1: seq<Pos>, q2: seq<Pos>, x: Pos)
    requires |q| <= |q1| <= |q2| && q2[..|q1|] == q1 && x in q2[|q|..]
    ensures x in q1[|q|..] || x in q2[|q1|..]
  {
    var i :| |q| <= i < |q2| && q2[i] == x;
    if i < |q1| {
      assert q1[i] == x;
    } else {
      assert q2[|q1|..][i - |q1|] == x;
    }
  }

  /** `addAdjacentTargets` keeps the queue invariant and appends only untried neighbours of the square. */
  lemma AddAdjacentOk(b: Board, q: seq<Pos>, row: int, col: int)
    requires IsBoard(b) && QueueOk(q)
    ensures var q' := AddAdjacent(b, q, row, col);
            QueueOk(q') && |q| <= |q'| && q'[..|q|] == q &&
            forall x :: x in q'[|q|..] ==> Abs(x.row - row) + Abs(x.col - col) == 1 && InBounds(x) && !Tried(At(b, x))
  {
    AddAllOk(b, q, Neighbours(row, col));
  }

  /** Every hit's neighbours: what the fallback of the rebuild appends, and nothing else. */
  lemma {:induction false} AddAdjacentAllOk(b: Board, q: seq<Pos>, hs: seq<HitRef>)
    requires IsBoard(b) && QueueOk(q)
    ensures QueueOk(AddAdjacentAll(b, q, hs)) && |q| <= |AddAdjacentAll(b, q, hs)| && AddAdjacentAll(b, q, hs)[..|q|] == q
    ensures forall x :: x in AddAdjacentAll(b, q, hs)[|q|..] ==> InBounds(x) && !Tried(At(b, x)) && NextToHit(hs, x)
    decreases |hs|
  {
    if hs != [] {
      var q1 := AddAdjacent(b, q, hs[0].row, hs[0].col);
      AddAdjacentOk(b, q, hs[0].row, hs[0].col);
      AddAdjacentAllOk(b, q1, hs[1..]);
      var q' := AddAdjacentAll(b, q1, hs[1..]);
      assert q'[..|q|] == q1[..|q|];
      forall x | x in q'[|q|..]
        ensures InBounds(x) && !Tried(At(b, x)) && NextToHit(hs, x)
      {
        AppendedSplit(q, q1, q', x);
        if x in q1[|q|..] {
          assert hs[0] in hs;
        } else {
          var h :| h in hs[1..] && Abs(x.row - h.row) + Abs(x.col - h.col) == 1;
          assert h in hs;
        }
      }
    }
  }

  /** Queueing squares that all neighbour a hit, from an empty queue. */
  lemma AddAllNextTo(b: Board, ps: seq<Pos>, hs: seq<HitRef>)
    requires IsBoard(b) && forall p :: p in ps ==> NextToHit(hs, p)
    ensures var q := AddAll(b, [], ps);
            QueueOk(q) && forall x :: x in q ==> !Tried(At(b, x)) && NextToHit(hs, x)
  {
    assert QueueOk([]);
    AddAllOk(b, [], ps);
    var q := AddAll(b, [], ps);
    assert q[0..] == q;
  }

  /** The endpoints of an aligned group of the hits neighbour a hit. */
  lemma EndpointsNextTo(same: seq<HitRef>, hs: seq<HitRef>, eps: seq<Pos>)
    requires forall h :: h in same ==> h in hs
    requires forall e :: e in eps ==> EndpointOk(same, e)
    ensures forall e :: e in eps ==> NextToHit(hs, e)
  {
    forall e | e in eps ensures NextToHit(hs, e) {
      assert EndpointOk(same, e);
      var h :| h in same && Abs(h.row - e.row) + Abs(h.col - e.col) == 1;
      assert h in hs && Abs(e.row - h.row) + Abs(e.col - h.col) == 1;
    }
  }

  lemma RebuiltAligned(b: Board, hs: seq<HitRef>)
    requires IsBoard(b) && OnBoard(hs) && |hs| >= 2
    requires var same := HitsOn(hs, hs[0].ship); |same| >= 2 && (AllSameRow(same) || AllSameCol(same))
    ensures var q := Rebuilt(b, hs);
            QueueOk(q) && forall x :: x in q ==> !Tried(At(b, x)) && NextToHit(hs, x)
  {
    var same := HitsOn(hs, hs[0].ship);
    assert OnBoard(same);
    if AllSameRow(same) {
      var eps := Extensions(same[0].row, MinOf(Cols(same)), MaxOf(Cols(same)), true);
      RowEndpoints(same);
      EndpointsNextTo(same, hs, eps);
      AddAllNextTo(b, eps, hs);
    } else {
      var eps := Extensions(same[0].col, MinOf(Rows(same)), MaxOf(Rows(same)), false);
      ColEndpoints(same);
      EndpointsNextTo(same, hs, eps);
      AddAllNextTo(b, eps, hs);
    }
  }

  lemma RebuiltAdjacent(b: Board, hs: seq<HitRef>)
    requires IsBoard(b) && hs != []
    ensures var q := AddAdjacentAll(b, [], hs);
            QueueOk(q) && forall x :: x in q ==> !Tried(At(b, x)) && NextToHit(hs, x)
  {
    assert QueueOk([]);
    AddAdjacentAllOk(b, [], hs);
    var q := AddAdjacentAll(b, [], hs);
    assert q[0..] == q;
  }

  /**
    * The rebuilt queue is duplicate-free and holds only untried on-board
    * squares next to one of the unresolved hits it was built from.
    */
  lemma RebuiltOk(b: Board, hs: seq<HitRef>)
    requires IsBoard(b) && OnBoard(hs)
    ensures var q := Rebuilt(b, hs);
            QueueOk(q) && forall x :: x in q ==> !Tried(At(b, x)) && NextToHit(hs, x)
  {
    if |hs| >= 2 {
      var same := HitsOn(hs, hs[0].ship);
      if |same| >= 2 && (AllSameRow(same) || AllSameCol(same)) {
        RebuiltAligned(b, hs);
      } else {
        RebuiltAdjacent(b, hs);
      }
    } else if |hs| == 1 {
      assert AddAdjacentAll(b, [], hs) == AddAdjacent(b, [], hs[0].row, hs[0].col);
      RebuiltAdjacent(b, hs);
    } else {
      assert QueueOk([]);
    }
  }

  // ---------------------------------------------------------------------------
  // A worked case.
  // ---------------------------------------------------------------------------

  /**
    * On a fresh board with a single hit at (5, 5), `addAdjacentTargets(5, 5)`
    * queues its four neighbours in the order up, down, left, right.
    */
  lemma SingleHitNeighbours(ship: nat)
    ensures var b := SetCell(EmptyBoard, Pos(5, 5), Cell(Some(ship), true, false));
            AddAdjacent(b, [], 5, 5) == [Pos(4, 5), Pos(6, 5), Pos(5, 4), Pos(5, 6)]
  {
    var b := SetCell(EmptyBoard, Pos(5, 5), Cell(Some(ship), true, false));
    assert !Tried(At(b, Pos(4, 5))) && !Tried(At(b, Pos(6, 5)));
    assert !Tried(At(b, Pos(5, 4))) && !Tried(At(b, Pos(5, 6)));
  }
}
