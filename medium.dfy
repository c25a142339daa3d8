/**
  * The medium opponent: `getMediumModeTarget` (consult the target queue while
  * unresolved hits remain, otherwise hunt on the checkerboard) and the
  * bookkeeping `handleAITurn` does for it after a hit.
  */
module MediumMode {
  import opened Wrappers
  import opened Grid
  import opened Analysis
  import opened Targeting
  import opened Queue

  /** Every unresolved hit the scan reports is on the board. */
  lemma UnresolvedOnBoard(b: Board, ships: seq<Ship>)
    requires Indexed(b, ships)
    ensures OnBoard(FindUnresolvedHits(b, ships))
  {
    var hs := FindUnresolvedHits(b, ships);
    forall h | h in hs
      ensures 0 <= h.row < GridSize && 0 <= h.col < GridSize
    {
      assert IsUnresolvedRef(b, ships, h);
    }
  }

  /**
    * `getMediumModeTarget` on values: the square chosen (None when the board
    * is full) and the queue it leaves. With unresolved hits, an empty queue is
    * first rebuilt; stale entries are shifted off; an exhausted queue is
    * rebuilt and shifted once more; only then does the choice fall back to the
    * hunt.
    */
  function MediumTarget(b: Board, ships: seq<Ship>, q: seq<Pos>, u: Unit): (Option<Pos>, seq<Pos>)
    requires Indexed(b, ships) && AllInBounds(q)
  {
    UnresolvedOnBoard(b, ships);
    MediumPick(b, FindUnresolvedHits(b, ships), q, u)
  }

  /** The medium choice once the unresolved hits `hs` are known. */
  function MediumPick(b: Board, hs: seq<HitRef>, q: seq<Pos>, u: Unit): (Option<Pos>, seq<Pos>)
    requires IsBoard(b) && OnBoard(hs) && AllInBounds(q)
  {
    if hs == [] then (HuntTarget(b, u), q)
    else
      RebuiltOk(b, hs);
      var first := PopUntried(b, if q == [] then Rebuilt(b, hs) else q);
      if first.0.Some? then first
      else
        var second := PopUntried(b, Rebuilt(b, hs));
        if second.0.Some? then second else (HuntTarget(b, u), second.1)
  }

  /** A suffix of a duplicate-free on-board queue is one too. */
  lemma SuffixOk(q: seq<Pos>, k: int)
    requires QueueOk(q) && 0 <= k <= |q|
    ensures QueueOk(q[k..])
  {
    forall i, j | 0 <= i < j < |q[k..]|
      ensures q[k..][i] != q[k..][j]
    {
      assert q[k..][i] == q[k + i] && q[k..][j] == q[k + j];
    }
  }

  /** What the shift loop leaves of a queue that satisfies the invariant still satisfies it. */
  lemma PopUntriedOk(b: Board, q: seq<Pos>)
    requires IsBoard(b) && QueueOk(q)
    ensures QueueOk(PopUntried(b, q).1)
  {
    SuffixOk(q, |q| - |PopUntried(b, q).1|);
  }

  /** The hunt fallback: an untried on-board square, None exactly when the board is full. */
  lemma HuntSound(b: Board, u: Unit)
    requires IsBoard(b)
    ensures HuntTarget(b, u).Some? ==> InBounds(HuntTarget(b, u).value) && !Tried(At(b, HuntTarget(b, u).value))
    ensures HuntTarget(b, u).None? <==> forall p :: InBounds(p) ==> Tried(At(b, p))
  {
    HuntTargetNone(b, u);
    if HuntTarget(b, u).Some? {
      HuntTargetUntried(b, u);
    }
  }

  lemma PickSound(b: Board, hs: seq<HitRef>, q: seq<Pos>, u: Unit)
    requires IsBoard(b) && OnBoard(hs) && QueueOk(q)
    ensures var r := MediumPick(b, hs, q, u);
            (r.0.Some? ==> InBounds(r.0.value) && !Tried(At(b, r.0.value))) &&
            (r.0.None? <==> forall p :: InBounds(p) ==> Tried(At(b, p))) &&
            QueueOk(r.1)
  {
    if hs == [] {
      HuntSound(b, u);
    } else {
      RebuiltOk(b, hs);
      var q1 := if q == [] then Rebuilt(b, hs) else q;
      var first := PopUntried(b, q1);
      PopUntriedOk(b, q1);
      if first.0.Some? {
        assert InBounds(first.0.value);
      } else {
        var second := PopUntried(b, Rebuilt(b, hs));
        PopUntriedOk(b, Rebuilt(b, hs));
        if second.0.Some? {
          assert InBounds(second.0.value);
        } else {
          HuntSound(b, u);
        }
      }
    }
  }

  /**
    * The medium choice is an untried square on the board, it is None exactly
    * when every square has been fired at, and the queue it leaves is still
    * duplicate-free and on the board.
    */
  lemma MediumTargetSound(b: Board, ships: seq<Ship>, q: seq<Pos>, u: Unit)
    requires Indexed(b, ships) && QueueOk(q)
    ensures var r := MediumTarget(b, ships, q, u);
            (r.0.Some? ==> InBounds(r.0.value) && !Tried(At(b, r.0.value))) &&
            (r.0.None? <==> forall p :: InBounds(p) ==> Tried(At(b, p))) &&
            QueueOk(r.1)
  {
    UnresolvedOnBoard(b, ships);
    PickSound(b, FindUnresolvedHits(b, ships), q, u);
  }

  /**
    * While unresolved hits remain, a queued untried square is taken before
    * anything else: the choice comes from the queue.
    */
  lemma MediumQueueFirst(b: Board, ships: seq<Ship>, q: seq<Pos>, u: Unit, p: Pos)
    requires Indexed(b, ships) && AllInBounds(q)
    requires FindUnresolvedHits(b, ships) != [] && p in q && !Tried(At(b, p))
    ensures MediumTarget(b, ships, q, u).0.Some? && MediumTarget(b, ships, q, u).0.value in q
  {
    UnresolvedOnBoard(b, ships);
    var hs := FindUnresolvedHits(b, ships);
    assert MediumTarget(b, ships, q, u) == MediumPick(b, hs, q, u);
  }

  lemma PickRebuiltNext(b: Board, hs: seq<HitRef>, q: seq<Pos>, u: Unit, p: Pos)
    requires IsBoard(b) && OnBoard(hs) && AllInBounds(q) && hs != []
    requires forall x :: x in q ==> Tried(At(b, x))
    requires p in Rebuilt(b, hs) && InBounds(p) && !Tried(At(b, p))
    ensures MediumPick(b, hs, q, u).0.Some?
    ensures NextToHit(hs, MediumPick(b, hs, q, u).0.value)
  {
    RebuiltOk(b, hs);
  }

  /**
    * When the queue holds nothing untried but unresolved hits remain, the
    * choice is a square next to one of those hits, provided such a square is
    * still free.
    */
  lemma MediumRebuiltNext(b: Board, ships: seq<Ship>, q: seq<Pos>, u: Unit, p: Pos)
    requires Indexed(b, ships) && AllInBounds(q)
    requires forall x :: x in q ==> Tried(At(b, x))
    requires FindUnresolvedHits(b, ships) != [] && p in Rebuilt(b, FindUnresolvedHits(b, ships))
    requires InBounds(p) && !Tried(At(b, p))
    ensures MediumTarget(b, ships, q, u).0.Some?
    ensures NextToHit(FindUnresolvedHits(b, ships), MediumTarget(b, ships, q, u).0.value)
  {
    UnresolvedOnBoard(b, ships);
    PickRebuiltNext(b, FindUnresolvedHits(b, ships), q, u, p);
  }

  /** Without unresolved hits the medium choice is the hunt's and the queue is left alone. */
  lemma MediumHunts(b: Board, ships: seq<Ship>, q: seq<Pos>, u: Unit)
    requires Indexed(b, ships) && AllInBounds(q) && FindUnresolvedHits(b, ships) == []
    ensures MediumTarget(b, ships, q, u) == (HuntTarget(b, u), q)
  {
    UnresolvedOnBoard(b, ships);
  }

  /**
    * Without unresolved hits the medium opponent hunts: whenever a square
    * with an even coordinate sum is free, it fires at one of those.
    */
  lemma MediumHuntEven(b: Board, ships: seq<Ship>, q: seq<Pos>, u: Unit, p: Pos)
    requires Indexed(b, ships) && AllInBounds(q) && FindUnresolvedHits(b, ships) == []
    requires InBounds(p) && !Tried(At(b, p)) && Checkerboard(p)
    ensures MediumTarget(b, ships, q, u).0.Some?
    ensures Checkerboard(MediumTarget(b, ships, q, u).0.value)
  {
    MediumHunts(b, ships, q, u);
    HuntTargetEven(b, u, p);
  }

  /** The shift loop of `getMediumModeTarget`: take entries off the front until an untried one comes out. */
  method ShiftUntried(board: Board, queue: seq<Pos>) returns (target: Option<Pos>, rest: seq<Pos>)
    requires IsBoard(board) && AllInBounds(queue)
    ensures (target, rest) == PopUntried(board, queue)
  {
    rest := queue;
    while |rest| > 0
      invariant AllInBounds(rest) && PopUntried(board, rest) == PopUntried(board, queue)
      decreases |rest|
    {
      var t := rest[0];
      assert t in rest;
      rest := rest[1..];
      if !Tried(At(board, t)) {
        return Some(t), rest;
      }
    }
    return None, [];
  }

  // ---------------------------------------------------------------------------
  // Tracking after a hit.
  // ---------------------------------------------------------------------------

  /** What the medium opponent remembers between turns. */
  datatype Tracking = Tracking(targetMode: bool, queue: seq<Pos>, hitSeq: seq<Pos>)

  /** The hit sequence filtered down to squares whose ship is still afloat. */
  function Afloat(b: Board, ships: seq<Ship>, hits: seq<Pos>): (r: seq<Pos>)
    requires Indexed(b, ships) && AllInBounds(hits)
    ensures |r| <= |hits|
    ensures forall p :: p in r <==> p in hits && At(b, p).ship.Some? && !ships[At(b, p).ship.value].sunk
  {
    if hits == [] then []
    else
      assert hits[0] in hits && forall p :: p in hits[1..] ==> p in hits;
      (if At(b, hits[0]).ship.Some? && !ships[At(b, hits[0]).ship.value].sunk then [hits[0]] else []) +
      Afloat(b, ships, hits[1..])
  }

  /**
    * The medium bookkeeping of `handleAITurn` after a hit at `p`, given the
    * board and ship list once the shot is resolved: target mode on, `p`
    * appended to the hit sequence, its neighbours queued; and if the ship
    * sank, either everything is reset (no unresolved hit left) or the hit
    * sequence keeps only hits on ships still afloat and the queue is rebuilt.
    */
  function AfterHit(b: Board, ships: seq<Ship>, t: Tracking, p: Pos, sank: bool): Tracking
    requires Indexed(b, ships) && AllInBounds(t.hitSeq) && InBounds(p)
  {
    var q := AddAdjacent(b, t.queue, p.row, p.col);
    var hitSeq := t.hitSeq + [p];
    if !sank then Tracking(true, q, hitSeq)
    else
      var hs := FindUnresolvedHits(b, ships);
      if hs == [] then Tracking(false, [], [])
      else Tracking(true, Rebuilt(b, hs), Afloat(b, ships, hitSeq))
  }

  /** The bookkeeping after a hit keeps the queue duplicate-free and on the board, and the hit sequence on the board. */
  lemma AfterHitOk(b: Board, ships: seq<Ship>, t: Tracking, p: Pos, sank: bool)
    requires Indexed(b, ships) && QueueOk(t.queue) && AllInBounds(t.hitSeq) && InBounds(p)
    ensures QueueOk(AfterHit(b, ships, t, p, sank).queue) && AllInBounds(AfterHit(b, ships, t, p, sank).hitSeq)
  {
    var hitSeq := t.hitSeq + [p];
    assert AllInBounds(hitSeq);
    if !sank {
      AddAdjacentOk(b, t.queue, p.row, p.col);
      assert AfterHit(b, ships, t, p, sank) == Tracking(true, AddAdjacent(b, t.queue, p.row, p.col), hitSeq);
    } else if FindUnresolvedHits(b, ships) != [] {
      UnresolvedOnBoard(b, ships);
      RebuiltOk(b, FindUnresolvedHits(b, ships));
    }
  }

  /**
    * A hit that does not sink leaves target mode on, records `p` at the end of
    * the hit sequence and queues every free neighbour of `p` behind what was
    * queued before.
    */
  lemma AfterHitTracks(b: Board, ships: seq<Ship>, t: Tracking, p: Pos)
    requires Indexed(b, ships) && AllInBounds(t.hitSeq) && InBounds(p)
    ensures AfterHit(b, ships, t, p, false).targetMode
    ensures AfterHit(b, ships, t, p, false).hitSeq == t.hitSeq + [p]
    ensures forall x :: x in t.queue ==> x in AfterHit(b, ships, t, p, false).queue
    ensures forall x :: InBounds(x) && !Tried(At(b, x)) && Abs(x.row - p.row) + Abs(x.col - p.col) == 1 ==>
              x in AfterHit(b, ships, t, p, false).queue
  {
    AddAdjacentCovers(b, t.queue, p.row, p.col);
  }

  /**
    * After a sinking, target mode stays on exactly when unresolved hits
    * remain; if none remain the queue and the hit sequence are emptied, and
    * otherwise every recorded hit lies on a ship still afloat.
    */
  lemma AfterSinkTracks(b: Board, ships: seq<Ship>, t: Tracking, p: Pos)
    requires Indexed(b, ships) && AllInBounds(t.hitSeq) && InBounds(p)
    ensures var t' := AfterHit(b, ships, t, p, true);
            (t'.targetMode <==> FindUnresolvedHits(b, ships) != []) &&
            (!t'.targetMode ==> t'.queue == [] && t'.hitSeq == []) &&
            forall x :: x in t'.hitSeq ==> At(b, x).ship.Some? && !ships[At(b, x).ship.value].sunk
  {
  }

  // ---------------------------------------------------------------------------
  // The whole medium step, with the tracking it leaves.
  // ---------------------------------------------------------------------------

  /**
    * `getMediumModeTarget` on values: the square comes from the queue logic
    * or the hunt; target mode is on exactly when the board has unresolved
    * hits, and without them the hit sequence is forgotten.
    */
  function MediumStep(b: Board, ships: seq<Ship>, t: Tracking, u: Unit): (Option<Pos>, Tracking)
    requires Indexed(b, ships) && AllInBounds(t.queue)
  {
    var r := MediumTarget(b, ships, t.queue, u);
    var engaged := FindUnresolvedHits(b, ships) != [];
    (r.0, Tracking(engaged, r.1, if engaged then t.hitSeq else []))
  }

  /**
    * The medium opponent aims at an untried square, finds none exactly when
    * the board is full, and leaves a tracking that is still on the board and
    * duplicate-free.
    */
  lemma MediumStepOk(b: Board, ships: seq<Ship>, t: Tracking, u: Unit)
    requires Indexed(b, ships) && QueueOk(t.queue) && AllInBounds(t.hitSeq)
    ensures var (target, t') := MediumStep(b, ships, t, u);
            (target.Some? ==> InBounds(target.value) && !Tried(At(b, target.value))) &&
            (target.None? <==> forall p :: InBounds(p) ==> Tried(At(b, p))) &&
            QueueOk(t'.queue) && AllInBounds(t'.hitSeq)
  {
    MediumTargetSound(b, ships, t.queue, u);
  }

  /**
    * `getMediumModeTarget`: with unresolved hits, target mode is on and the
    * queue is consulted (rebuilt when empty, shifted past stale entries,
    * rebuilt once more when exhausted); without them target mode is off and
    * the hit sequence is forgotten; either way the hunt is the fallback.
    */
  method GetMediumModeTarget(board: Board, ships: seq<Ship>, tracking: Tracking, u: Unit)
    returns (target: Option<Pos>, tracking': Tracking)
    requires Indexed(board, ships) && AllInBounds(tracking.queue)
    ensures (target, tracking') == MediumStep(board, ships, tracking, u)
  {
    var unresolvedHits := FindUnresolvedHits(board, ships);
    UnresolvedOnBoard(board, ships);
    assert MediumTarget(board, ships, tracking.queue, u) == MediumPick(board, unresolvedHits, tracking.queue, u);
    if |unresolvedHits| > 0 {
      var queue := tracking.queue;
      if |queue| == 0 {
        queue := Rebuilt(board, unresolvedHits);
      }
      RebuiltOk(board, unresolvedHits);
      target, queue := ShiftUntried(board, queue);
      if target.None? {
        target, queue := ShiftUntried(board, Rebuilt(board, unresolvedHits));
      }
      if target.None? {
        target := GetHuntTarget(board, u);
      }
      tracking' := Tracking(true, queue, tracking.hitSeq);
    } else {
      target := GetHuntTarget(board, u);
      tracking' := Tracking(false, tracking.queue, []);
    }
  }
}
