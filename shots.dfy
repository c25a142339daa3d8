/**
  * Shot resolution, shared by the player's shot and the opponent's turn: the
  * square is marked hit or miss, a hit ship counts the hit and is sunk when
  * its hits reach its size.
  */
module Shooting {
  import opened Wrappers
  import opened Grid
  import opened Analysis

  datatype Outcome = Missed | Hit(ship: nat) | Sank(ship: nat)

  /** One shot at square `p` of a board and the ship list laid on it. */
  function Fire(b: Board, ships: seq<Ship>, p: Pos): (r: (Board, seq<Ship>, Outcome))
    requires Indexed(b, ships) && InBounds(p)
    ensures IsBoard(r.0) && |r.1| == |ships|
  {
    var cell := At(b, p);
    match cell.ship
    case None => (SetCell(b, p, cell.(miss := true)), ships, Missed)
    case Some(k) =>
      var hits := ships[k].hits + 1;
      var sinks := hits == ships[k].size;
      (SetCell(b, p, cell.(hit := true)),
       ships[k := ships[k].(hits := hits, sunk := ships[k].sunk || sinks)],
       if sinks then Sank(k) else Hit(k))
  }

  /** A shot changes no ship reference and no list length, so every reference stays an index into the list. */
  lemma FireIndexed(b: Board, ships: seq<Ship>, p: Pos)
    requires Indexed(b, ships) && InBounds(p)
    ensures Indexed(Fire(b, ships, p).0, Fire(b, ships, p).1)
  {
  }

  /** The square shot at is tried afterwards. */
  lemma FireTried(b: Board, ships: seq<Ship>, p: Pos)
    requires Indexed(b, ships) && InBounds(p)
    ensures Tried(At(Fire(b, ships, p).0, p))
  {
  }

  /** Setting the hit flag of an unhit square adds one to the hit count of a list of distinct squares holding it. */
  lemma {:induction false} HitCountSet(b: Board, ps: seq<Pos>, p: Pos, x: Cell)
    requires IsBoard(b) && InBounds(p) && x.hit && !At(b, p).hit
    requires forall i, j :: 0 <= i < j < |ps| ==> ps[i] != ps[j]
    ensures HitCount(SetCell(b, p, x), ps) == HitCount(b, ps) + (if p in ps then 1 else 0)
  {
    if ps != [] {
      assert forall i, j :: 0 <= i < j < |ps[1..]| ==> ps[1..][i] != ps[1..][j] by {
        forall i, j | 0 <= i < j < |ps[1..]| ensures ps[1..][i] != ps[1..][j] {
          assert ps[1..][i] == ps[i + 1] && ps[1..][j] == ps[j + 1];
        }
      }
      HitCountSet(b, ps[1..], p, x);
      assert p in ps <==> p == ps[0] || p in ps[1..];
      if p == ps[0] {
        assert p !in ps[1..] by {
          forall i | 0 <= i < |ps[1..]| ensures ps[1..][i] != p { assert ps[1..][i] == ps[i + 1]; }
        }
      }
    }
  }

  /** A list with an unhit on-board square is not fully hit. */
  lemma {:induction false} HitCountBelow(b: Board, ps: seq<Pos>, p: Pos)
    requires IsBoard(b) && InBounds(p) && p in ps && !At(b, p).hit
    ensures HitCount(b, ps) < |ps|
  {
    if ps[0] != p {
      assert p in ps[1..];
      HitCountBelow(b, ps[1..], p);
    }
  }

  /** A miss changes no hit flag, so the ships' damage stays tracked. */
  lemma FireMissWf(b: Board, ships: seq<Ship>, p: Pos)
    requires Wf(b, ships) && InBounds(p) && !Tried(At(b, p)) && At(b, p).ship.None?
    ensures Wf(Fire(b, ships, p).0, ships)
  {
    var b' := Fire(b, ships, p).0;
    forall k | 0 <= k < |ships| ensures HitCount(b', ships[k].positions) == HitCount(b, ships[k].positions) {
      HitCountFrame(b', b, ships[k].positions);
    }
  }

  /** A hit adds one hit to the ship on the square and to no other ship. */
  lemma FireHitWf(b: Board, ships: seq<Ship>, p: Pos)
    requires Wf(b, ships) && InBounds(p) && !Tried(At(b, p)) && At(b, p).ship.Some?
    ensures Wf(Fire(b, ships, p).0, Fire(b, ships, p).1)
  {
    var k := At(b, p).ship.value;
    var r := Fire(b, ships, p);
    var b', ships' := r.0, r.1;
    assert p in ships[k].positions;
    forall j | 0 <= j < |ships|
      ensures ships'[j].hits == HitCount(b', ships'[j].positions)
      ensures ships'[j].sunk <==> ships'[j].hits == ships'[j].size
    {
      var ps := ships[j].positions;
      forall i, m | 0 <= i < m < |ps| ensures ps[i] != ps[m] {
        LaidDistinct(ps, ships[j].size, i, m);
      }
      HitCountSet(b, ps, p, At(b, p).(hit := true));
      if j == k {
        HitCountBelow(b, ps, p);
      } else {
        NoOverlap(b, ships, k, j, p);
      }
    }
  }

  /** A shot at an untried square keeps the board well formed. */
  lemma FireWf(b: Board, ships: seq<Ship>, p: Pos)
    requires Wf(b, ships) && InBounds(p) && !Tried(At(b, p))
    ensures Wf(Fire(b, ships, p).0, Fire(b, ships, p).1)
  {
    if At(b, p).ship.None? {
      FireMissWf(b, ships, p);
    } else {
      FireHitWf(b, ships, p);
    }
  }

  /**
    * What a shot at an untried square does: it hits exactly when a ship is
    * there, the square becomes tried and no other square changes, only that
    * ship changes, and it sinks exactly when its last square is hit.
    */
  lemma FireEffect(b: Board, ships: seq<Ship>, p: Pos)
    requires Wf(b, ships) && InBounds(p) && !Tried(At(b, p))
    ensures var (b', ships', out) := Fire(b, ships, p);
            (out.Missed? <==> At(b, p).ship.None?) &&
            (!out.Missed? ==> At(b, p).ship == Some(out.ship) && At(b', p).hit && !At(b', p).miss) &&
            (out.Missed? ==> At(b', p).miss && !At(b', p).hit) &&
            At(b', p).ship == At(b, p).ship &&
            (!out.Missed? ==>
               ships'[out.ship] == ships[out.ship].(hits := ships[out.ship].hits + 1,
                                                    sunk := ships[out.ship].sunk || ships[out.ship].hits + 1 == ships[out.ship].size)) &&
            (forall r, c :: 0 <= r < GridSize && 0 <= c < GridSize && Pos(r, c) != p ==> b'[r][c] == b[r][c]) &&
            (forall k :: 0 <= k < |ships| && (out.Missed? || k != out.ship) ==> ships'[k] == ships[k]) &&
            (out.Sank? <==> !out.Missed? && ships'[out.ship].sunk && !ships[out.ship].sunk) &&
            Shots(b') == Shots(b) + 1 && Hits(b') == Hits(b) + (if out.Missed? then 0 else 1)
  {
    var cell := At(b, p);
    if cell.ship.Some? {
      var k := cell.ship.value;
      assert p in ships[k].positions;
      HitCountBelow(b, ships[k].positions, p);
      ShotCounts(b, p, cell.(hit := true));
    } else {
      ShotCounts(b, p, cell.(miss := true));
    }
  }

  /**
    * A fleet not yet sunk can only become sunk through a shot that sinks a
    * ship, which is why the win check follows a sink only.
    */
  lemma WinOnlyOnSink(b: Board, ships: seq<Ship>, p: Pos)
    requires Indexed(b, ships) && InBounds(p)
    requires !AllSunk(ships) && !Fire(b, ships, p).2.Sank?
    ensures !AllSunk(Fire(b, ships, p).1)
  {
    var k :| 0 <= k < |ships| && !ships[k].sunk;
    assert !Fire(b, ships, p).1[k].sunk;
  }
}
