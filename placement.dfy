/**
  * Random fleet placement (`placeAllShips`) and the pieces it shares with the
  * player's "Random" button and with the hard-mode placement: committing a ship
  * to the board, and the bounded sampling loop.
  *
  * Every call of `Math.random` is replaced by a value drawn beforehand: each
  * ship template gets its own stream of sampled first squares and orientations.
  */
module Placement {
  import opened Wrappers
  import opened Grid

  /** `Math.floor(Math.random() * GRID_SIZE)`: a row or column on the board. */
  type Coord = x: int | 0 <= x < GridSize

  /** One sampled placement: a first square and an orientation. */
  datatype Candidate = Candidate(row: Coord, col: Coord, horizontal: bool)

  /** The attempt budget per ship of the random placement. */
  const RandomAttempts: nat := 100

  /** Every ship template of the list has a positive size. */
  predicate PositiveSizes(templates: seq<ShipTemplate>) {
    forall i :: 0 <= i < |templates| ==> templates[i].size > 0
  }

  /** The board once the squares of the segment refer to ship `k`. */
  function Stamp(b: Board, row: int, col: int, size: nat, horizontal: bool, k: nat): (b': Board)
    requires IsBoard(b)
    ensures IsBoard(b')
  {
    seq(GridSize, r requires 0 <= r < GridSize =>
      seq(GridSize, c requires 0 <= c < GridSize =>
        if OnSegment(row, col, size, horizontal, Pos(r, c)) then b[r][c].(ship := Some(k)) else b[r][c]))
  }

  /** The board and ship list after a new, undamaged ship is put at the segment. */
  function PlaceShip(b: Board, ships: seq<Ship>, t: ShipTemplate, row: int, col: int, horizontal: bool): (Board, seq<Ship>)
    requires IsBoard(b)
  {
    (Stamp(b, row, col, t.size, horizontal, |ships|),
     ships + [Ship(t.name, t.size, 0, false, Segment(row, col, t.size, horizontal))])
  }

  /**
    * `b'` differs from `b` only in squares that now refer to a ship whose
    * index is `n` or more; those squares had no ship before.
    */
  predicate Extends(b: Board, b': Board, n: nat)
    requires IsBoard(b) && IsBoard(b')
  {
    forall r, c :: 0 <= r < GridSize && 0 <= c < GridSize ==>
      if b'[r][c].ship.Some? && b'[r][c].ship.value >= n then b[r][c] == b'[r][c].(ship := None)
      else b'[r][c] == b[r][c]
  }

  lemma ExtendsTrans(b0: Board, b1: Board, b2: Board, n: nat, m: nat)
    requires IsBoard(b0) && IsBoard(b1) && IsBoard(b2) && n <= m
    requires Extends(b0, b1, n) && Extends(b1, b2, m)
    ensures Extends(b0, b2, n)
  {
  }

  lemma StampFrame(b: Board, row: int, col: int, size: nat, horizontal: bool, k: nat)
    requires IsBoard(b)
    requires 0 <= row < GridSize && 0 <= col < GridSize && CanPlaceShip(b, row, col, size, horizontal)
    ensures var b' := Stamp(b, row, col, size, horizontal, k);
            (forall r, c :: 0 <= r < GridSize && 0 <= c < GridSize ==> b'[r][c].hit == b[r][c].hit && b'[r][c].miss == b[r][c].miss) &&
            (forall r, c :: 0 <= r < GridSize && 0 <= c < GridSize && b[r][c].ship.Some? ==> b'[r][c] == b[r][c])
  {
  }

  lemma StampRefs(b: Board, ships: seq<Ship>, t: ShipTemplate, row: int, col: int, horizontal: bool)
    requires IsBoard(b) && RefsValid(b, ships)
    ensures var (b', ships') := PlaceShip(b, ships, t, row, col, horizontal);
            RefsValid(b', ships')
  {
    var (b', ships') := PlaceShip(b, ships, t, row, col, horizontal);
    forall r, c | 0 <= r < GridSize && 0 <= c < GridSize && b'[r][c].ship.Some?
      ensures b'[r][c].ship.value < |ships'| && Pos(r, c) in ships'[b'[r][c].ship.value].positions
    {
      OnSegmentIff(row, col, t.size, horizontal, Pos(r, c));
    }
  }

  lemma StampLaid(b: Board, ships: seq<Ship>, t: ShipTemplate, row: int, col: int, horizontal: bool)
    requires IsBoard(b) && ShipsLaid(b, ships) && t.size > 0
    requires 0 <= row < GridSize && 0 <= col < GridSize && CanPlaceShip(b, row, col, t.size, horizontal)
    ensures var (b', ships') := PlaceShip(b, ships, t, row, col, horizontal);
            ShipsLaid(b', ships')
  {
    var (b', ships') := PlaceShip(b, ships, t, row, col, horizontal);
    var k := |ships|;
    var seg := Segment(row, col, t.size, horizontal);
    forall p | p in seg
      ensures InBounds(p) && b'[p.row][p.col].ship == Some(k)
    {
      OnSegmentIff(row, col, t.size, horizontal, p);
    }
    assert seg[0] == Pos(row, col);
    assert Laid(seg, t.size);
    forall j | 0 <= j < |ships|
      ensures forall p :: p in ships'[j].positions ==> InBounds(p) && b'[p.row][p.col].ship == Some(j)
    {
      forall p | p in ships'[j].positions
        ensures InBounds(p) && b'[p.row][p.col].ship == Some(j)
      {
        assert b[p.row][p.col].ship == Some(j);
      }
    }
  }

  lemma StampDamage(b: Board, ships: seq<Ship>, t: ShipTemplate, row: int, col: int, horizontal: bool)
    requires IsBoard(b) && DamageTracked(b, ships) && NoShots(b) && t.size > 0
    requires 0 <= row < GridSize && 0 <= col < GridSize && CanPlaceShip(b, row, col, t.size, horizontal)
    ensures var (b', ships') := PlaceShip(b, ships, t, row, col, horizontal);
            DamageTracked(b', ships') && ShotsConsistent(b') && NoShots(b')
  {
    var (b', ships') := PlaceShip(b, ships, t, row, col, horizontal);
    StampFrame(b, row, col, t.size, horizontal, |ships|);
    forall j | 0 <= j < |ships'|
      ensures ships'[j].hits == HitCount(b', ships'[j].positions)
    {
      HitCountFrame(b, b', ships'[j].positions);
      HitCountNoShots(b, ships'[j].positions);
    }
  }

  /**
    * Committing a ship where `canPlaceShip` allows it keeps the board well
    * formed: the new ship covers exactly its segment, every covered square
    * refers to it, and no other square changes.
    */
  lemma PlaceShipWf(b: Board, ships: seq<Ship>, t: ShipTemplate, row: int, col: int, horizontal: bool)
    requires Wf(b, ships) && NoShots(b) && t.size > 0
    requires 0 <= row < GridSize && 0 <= col < GridSize && CanPlaceShip(b, row, col, t.size, horizontal)
    ensures var (b', ships') := PlaceShip(b, ships, t, row, col, horizontal);
            Wf(b', ships') && NoShots(b') && Extends(b, b', |ships|) &&
            ships' == ships + [Ship(t.name, t.size, 0, false, Segment(row, col, t.size, horizontal))]
  {
    StampRefs(b, ships, t, row, col, horizontal);
    StampLaid(b, ships, t, row, col, horizontal);
    StampDamage(b, ships, t, row, col, horizontal);
  }

  /** A segment one square longer ends with that square. */
  lemma SegmentNext(row: int, col: int, i: nat, horizontal: bool)
    ensures Segment(row, col, i + 1, horizontal) ==
            Segment(row, col, i, horizontal) + [if horizontal then Pos(row, col + i) else Pos(row + i, col)]
  {
  }

  /** `placeShip`'s loop: writes the ship index into each square of the segment. */
  method CommitShip(board: Board, ships: seq<Ship>, t: ShipTemplate, row: int, col: int, horizontal: bool)
    returns (board': Board, ships': seq<Ship>)
    requires IsBoard(board) && Fits(row, col, t.size, horizontal)
    ensures (board', ships') == PlaceShip(board, ships, t, row, col, horizontal)
  {
    var k := |ships|;
    var positions: seq<Pos> := [];
    board' := board;
    for i := 0 to t.size
      invariant IsBoard(board') && positions == Segment(row, col, i, horizontal)
      invariant forall r, c :: 0 <= r < GridSize && 0 <= c < GridSize ==>
        board'[r][c] == if OnSegment(row, col, i, horizontal, Pos(r, c)) then board[r][c].(ship := Some(k)) else board[r][c]
    {
      var p := if horizontal then Pos(row, col + i) else Pos(row + i, col);
      board' := SetCell(board', p, At(board', p).(ship := Some(k)));
      SegmentNext(row, col, i, horizontal);
      positions := positions + [p];
    }
    ships' := ships + [Ship(t.name, t.size, 0, false, positions)];
    BoardsEqual(board', Stamp(board, row, col, t.size, horizontal, k));
  }

  /** The index of the first sampled candidate that `canPlaceShip` accepts, or |cands| if none. */
  function FirstFit(b: Board, size: nat, cands: seq<Candidate>): (i: nat)
    requires IsBoard(b)
    ensures i <= |cands|
    ensures i < |cands| ==> CanPlaceShip(b, cands[i].row, cands[i].col, size, cands[i].horizontal)
    ensures forall j :: 0 <= j < i ==> !CanPlaceShip(b, cands[j].row, cands[j].col, size, cands[j].horizontal)
  {
    if cands == [] then 0
    else if CanPlaceShip(b, cands[0].row, cands[0].col, size, cands[0].horizontal) then 0
    else 1 + FirstFit(b, size, cands[1..])
  }

  /**
    * The sampling loop of `placeAllShips` and `randomPlaceAllPlayerShips`:
    * try the sampled candidates in order, at most `RandomAttempts` of them,
    * and commit the first one that fits.
    */
  method TryPlace(board: Board, ships: seq<Ship>, t: ShipTemplate, cands: seq<Candidate>)
    returns (board': Board, ships': seq<Ship>, placed: bool)
    requires IsBoard(board) && |cands| == RandomAttempts
    ensures var i := FirstFit(board, t.size, cands);
            placed == (i < RandomAttempts) &&
            (board', ships') == if placed then PlaceShip(board, ships, t, cands[i].row, cands[i].col, cands[i].horizontal)
                                else (board, ships)
  {
    ghost var i := FirstFit(board, t.size, cands);
    board', ships', placed := board, ships, false;
    var attempts := 0;
    while !placed && attempts < RandomAttempts
      invariant 0 <= attempts <= RandomAttempts
      invariant !placed ==> attempts <= i && board' == board && ships' == ships
      invariant placed ==> attempts == i + 1
      invariant placed ==> (board', ships') == PlaceShip(board, ships, t, cands[i].row, cands[i].col, cands[i].horizontal)
    {
      var c := cands[attempts];
      if CanPlaceShip(board', c.row, c.col, t.size, c.horizontal) {
        board', ships' := CommitShip(board', ships', t, c.row, c.col, c.horizontal);
        placed := true;
      }
      attempts := attempts + 1;
    }
  }

  /**
    * The fleet placement loop over the templates. `stopOnFailure` selects the
    * failure policy: `placeAllShips` skips a template whose attempts all fail
    * and goes on; `randomPlaceAllPlayerShips` stops at the first such template.
    */
  function PlaceFleet(b: Board, ships: seq<Ship>, templates: seq<ShipTemplate>, draws: seq<seq<Candidate>>,
                      stopOnFailure: bool): (r: (Board, seq<Ship>))
    requires IsBoard(b) && |draws| == |templates|
    ensures IsBoard(r.0)
    decreases |templates|
  {
    if templates == [] then (b, ships)
    else
      var i := FirstFit(b, templates[0].size, draws[0]);
      if i < |draws[0]| then
        var c := draws[0][i];
        var (b', ships') := PlaceShip(b, ships, templates[0], c.row, c.col, c.horizontal);
        PlaceFleet(b', ships', templates[1..], draws[1..], stopOnFailure)
      else if stopOnFailure then (b, ships)
      else PlaceFleet(b, ships, templates[1..], draws[1..], stopOnFailure)
  }

  /** The ship was made from template `t` and laid at one of the candidates sampled for it. */
  predicate MadeFrom(s: Ship, t: ShipTemplate, cands: seq<Candidate>) {
    s.name == t.name && s.size == t.size &&
    exists c :: c in cands && s.positions == Segment(c.row, c.col, t.size, c.horizontal)
  }

  /**
    * The new ships come from distinct templates, in template order (at most
    * one ship per template), each laid at one of its own sampled candidates.
    */
  predicate DrawnFrom(newShips: seq<Ship>, templates: seq<ShipTemplate>, draws: seq<seq<Candidate>>)
    requires |draws| == |templates|
    decreases |templates|
  {
    newShips == [] ||
    (templates != [] &&
     ((MadeFrom(newShips[0], templates[0], draws[0]) && DrawnFrom(newShips[1..], templates[1..], draws[1..])) ||
      DrawnFrom(newShips, templates[1..], draws[1..])))
  }

  lemma {:induction false} DrawnFromLength(newShips: seq<Ship>, templates: seq<ShipTemplate>, draws: seq<seq<Candidate>>)
    requires |draws| == |templates| && DrawnFrom(newShips, templates, draws)
    ensures |newShips| <= |templates|
    decreases |templates|
  {
    if newShips != [] {
      if MadeFrom(newShips[0], templates[0], draws[0]) && DrawnFrom(newShips[1..], templates[1..], draws[1..]) {
        DrawnFromLength(newShips[1..], templates[1..], draws[1..]);
      } else {
        DrawnFromLength(newShips, templates[1..], draws[1..]);
      }
    }
  }

  /**
    * Whatever the samples, fleet placement on a board nobody fired at keeps
    * the board well formed (in bounds, contiguous, no shared square) and
    * changes only the squares the new ships cover.
    */
  lemma {:induction false} PlaceFleetWf(b: Board, ships: seq<Ship>, templates: seq<ShipTemplate>,
                                        draws: seq<seq<Candidate>>, stopOnFailure: bool)
    requires Wf(b, ships) && NoShots(b) && |draws| == |templates| && PositiveSizes(templates)
    ensures var r := PlaceFleet(b, ships, templates, draws, stopOnFailure);
            Wf(r.0, r.1) && NoShots(r.0) && Extends(b, r.0, |ships|)
    decreases |templates|
  {
    if templates != [] {
      assert PositiveSizes(templates[1..]);
      var i := FirstFit(b, templates[0].size, draws[0]);
      if i < |draws[0]| {
        var c := draws[0][i];
        var next := PlaceShip(b, ships, templates[0], c.row, c.col, c.horizontal);
        PlaceShipWf(b, ships, templates[0], c.row, c.col, c.horizontal);
        PlaceFleetWf(next.0, next.1, templates[1..], draws[1..], stopOnFailure);
        ExtendsTrans(b, next.0, PlaceFleet(b, ships, templates, draws, stopOnFailure).0, |ships|, |next.1|);
      } else if !stopOnFailure {
        PlaceFleetWf(b, ships, templates[1..], draws[1..], stopOnFailure);
      }
    }
  }

  /**
    * Fleet placement keeps the earlier ships and appends at most one ship per
    * template, in template order, each from its own template and laid at one
    * of the candidates sampled for it.
    */
  lemma {:induction false} PlaceFleetDrawn(b: Board, ships: seq<Ship>, templates: seq<ShipTemplate>,
                                           draws: seq<seq<Candidate>>, stopOnFailure: bool)
    requires IsBoard(b) && |draws| == |templates|
    ensures |ships| <= |PlaceFleet(b, ships, templates, draws, stopOnFailure).1|
    ensures PlaceFleet(b, ships, templates, draws, stopOnFailure).1[..|ships|] == ships
    ensures DrawnFrom(PlaceFleet(b, ships, templates, draws, stopOnFailure).1[|ships|..], templates, draws)
    decreases |templates|
  {
    var r := PlaceFleet(b, ships, templates, draws, stopOnFailure).1;
    if templates == [] {
      assert r[|ships|..] == [];
    } else {
      var i := FirstFit(b, templates[0].size, draws[0]);
      if i < |draws[0]| {
        var c := draws[0][i];
        var next := PlaceShip(b, ships, templates[0], c.row, c.col, c.horizontal);
        assert r == PlaceFleet(next.0, next.1, templates[1..], draws[1..], stopOnFailure).1;
        PlaceFleetDrawn(next.0, next.1, templates[1..], draws[1..], stopOnFailure);
        var added := r[|ships|..];
        assert r[..|next.1|] == next.1;
        assert next.1 == ships + [next.1[|ships|]];
        assert r[..|ships|] == next.1[..|ships|] == ships;
        assert added[0] == next.1[|ships|];
        assert added[1..] == r[|next.1|..];
        assert MadeFrom(added[0], templates[0], draws[0]) by {
          assert c in draws[0];
        }
        assert DrawnFrom(added, templates, draws);
      } else if stopOnFailure {
        assert r[|ships|..] == [];
      } else {
        PlaceFleetDrawn(b, ships, templates[1..], draws[1..], stopOnFailure);
        assert DrawnFrom(r[|ships|..], templates, draws);
      }
    }
  }

  /**
    * `placeAllShips`: for each template in fleet order, sample up to
    * `RandomAttempts` candidates and commit the first that fits; a template
    * whose attempts all fail is silently skipped.
    */
  method PlaceAllShips(board: Board, draws: seq<seq<Candidate>>) returns (board': Board, ships: seq<Ship>)
    requires IsBoard(board) && |draws| == |Fleet|
    requires forall t :: 0 <= t < |draws| ==> |draws[t]| == RandomAttempts
    ensures (board', ships) == PlaceFleet(board, [], Fleet, draws, false)
  {
    board', ships := board, [];
    for t := 0 to |Fleet|
      invariant IsBoard(board')
      invariant PlaceFleet(board', ships, Fleet[t..], draws[t..], false) == PlaceFleet(board, [], Fleet, draws, false)
    {
      assert Fleet[t..][1..] == Fleet[t + 1..] && draws[t..][1..] == draws[t + 1..];
      var placed;
      board', ships, placed := TryPlace(board', ships, Fleet[t], draws[t]);
    }
  }
}
