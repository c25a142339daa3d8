/**
  * Hard-mode fleet placement (`placeAllShipsHardMode`): up to 200 sampled
  * candidates per ship, each fitting candidate scored by the heuristics chosen
  * for the game, the best-scoring one committed unless a good one is accepted
  * early.
  *
  * The random values are drawn beforehand: the four heuristic switches, and for
  * every attempt the sampled candidate, the jitter added to its score and the
  * coin that decides an early accept.
  */
module HardPlacement {
  import opened Wrappers
  import opened Grid
  import opened Placement
  import opened Analysis

  /** `Math.random() * 10`: the jitter every score starts from. */
  type Jitter = x: real | 0.0 <= x < 10.0

  /** One attempt's random values; `accept` is `Math.random() > 0.3`. */
  datatype HardDraw = HardDraw(spot: Candidate, jitter: Jitter, accept: bool)

  /** The heuristics switched on for the game, sampled once per fleet. */
  datatype Heuristics = Heuristics(preferInterior: bool, avoidParallel: bool, spreadQuadrants: bool, avoidSymmetry: bool)

  /** The attempt budget per ship of the hard-mode placement. */
  const HardAttempts: nat := 200

  /** A score above this may be accepted at once. */
  const EarlyAcceptScore: real := 20.0

  function Min(a: int, b: int): int {
    if a <= b then a else b
  }

  /** How many squares separate `p` from the nearest edge. */
  function EdgeDistance(p: Pos): int {
    Min(Min(p.row, p.col), Min(GridSize - 1 - p.row, GridSize - 1 - p.col))
  }

  /** The sum of the edge distances of the squares. */
  function InteriorScore(ps: seq<Pos>): int {
    if ps == [] then 0 else EdgeDistance(ps[0]) + InteriorScore(ps[1..])
  }

  predicate Occupied(b: Board, r: int, c: int)
    requires IsBoard(b)
  {
    0 <= r < GridSize && 0 <= c < GridSize && b[r][c].ship.Some?
  }

  /** A ship lies beside `p` across the axis: above or below a horizontal ship, left or right of a vertical one. */
  predicate SideOccupied(b: Board, p: Pos, horizontal: bool)
    requires IsBoard(b)
  {
    if horizontal then Occupied(b, p.row - 1, p.col) || Occupied(b, p.row + 1, p.col)
    else Occupied(b, p.row, p.col - 1) || Occupied(b, p.row, p.col + 1)
  }

  /** The scan of the parallel-adjacency heuristic over the squares of the candidate. */
  predicate HasParallelAdjacent(b: Board, seg: seq<Pos>, horizontal: bool)
    requires IsBoard(b)
  {
    seg != [] && (SideOccupied(b, seg[0], horizontal) || HasParallelAdjacent(b, seg[1..], horizontal))
  }

  /** The quadrant (0 to 3) of the ship's middle square. */
  function Quadrant(row: int, col: int, size: nat, horizontal: bool): (q: nat)
    ensures q < 4
  {
    var midRow := row + (if horizontal then 0 else size / 2);
    var midCol := col + (if horizontal then size / 2 else 0);
    (if midRow < 5 then 0 else 2) + (if midCol < 5 then 0 else 1)
  }

  /** `Math.round`: half-way values round up. */
  function Round(x: real): int {
    (x + 0.5).Floor
  }

  /** The coordinate mirrored through the board's centre 4.5. */
  function Mirror(x: int): int {
    Round(2.0 * 4.5 - x as real)
  }

  /** On the board's integer coordinates the rounding does nothing: the mirror of x is 9 - x. */
  lemma MirrorExact(x: int)
    ensures Mirror(x) == GridSize - 1 - x
    ensures Mirror(Mirror(x)) == x
  {
    assert 2.0 * 4.5 - x as real + 0.5 == (9 - x) as real + 0.5;
    assert 2.0 * 4.5 - (9 - x) as real + 0.5 == x as real + 0.5;
  }

  /**
    * The candidate starts within one square of the 180-degree rotation of the
    * existing ship's first square and has the same orientation. The existing
    * ship counts as horizontal when its first and last squares share a row.
    */
  predicate Mirrors(existing: Ship, c: Candidate) {
    |existing.positions| > 0 &&
    var first := existing.positions[0];
    var horizontal := first.row == existing.positions[|existing.positions| - 1].row;
    Abs(Mirror(first.row) - c.row) <= 1 && Abs(Mirror(first.col) - c.col) <= 1 && horizontal == c.horizontal
  }

  predicate IsSymmetric(ships: seq<Ship>, c: Candidate) {
    ships != [] && (Mirrors(ships[0], c) || IsSymmetric(ships[1..], c))
  }

  /**
    * The score of a fitting candidate: the jitter, plus twice the interior
    * score, plus 15 or minus 10 for parallel adjacency, minus 5 per ship
    * already in its quadrant, plus 10 or minus 15 for symmetry, each term
    * only when its heuristic is on (and the two ship-relative terms only once
    * a ship of this fleet was placed).
    */
  function PlacementScore(b: Board, ships: seq<Ship>, counts: seq<int>, heur: Heuristics, size: nat, d: HardDraw): real
    requires IsBoard(b) && |counts| == 4
  {
    var c := d.spot;
    var seg := Segment(c.row, c.col, size, c.horizontal);
    d.jitter
    + (if heur.preferInterior then (InteriorScore(seg) * 2) as real else 0.0)
    + (if heur.avoidParallel && |ships| > 0 then (if HasParallelAdjacent(b, seg, c.horizontal) then -10.0 else 15.0) else 0.0)
    - (if heur.spreadQuadrants then (counts[Quadrant(c.row, c.col, size, c.horizontal)] * 5) as real else 0.0)
    + (if heur.avoidSymmetry && |ships| > 0 then (if IsSymmetric(ships, c) then -15.0 else 10.0) else 0.0)
  }

  predicate Placeable(b: Board, size: nat, d: HardDraw)
    requires IsBoard(b)
  {
    CanPlaceShip(b, d.spot.row, d.spot.col, size, d.spot.horizontal)
  }

  /**
    * The attempt loop for one ship, from a state holding the best draw so far
    * (`bestScore` is meaningless while `best` is None, which stands for the
    * source's minus infinity).
    */
  function Select(b: Board, ships: seq<Ship>, counts: seq<int>, heur: Heuristics, size: nat,
                  ds: seq<HardDraw>, best: Option<HardDraw>, bestScore: real): Option<HardDraw>
    requires IsBoard(b) && |counts| == 4
    decreases |ds|
  {
    if ds == [] then best
    else
      var d := ds[0];
      if !Placeable(b, size, d) then Select(b, ships, counts, heur, size, ds[1..], best, bestScore)
      else
        var score := PlacementScore(b, ships, counts, heur, size, d);
        if score > EarlyAcceptScore && d.accept then Some(d)
        else if best.None? || score > bestScore then Select(b, ships, counts, heur, size, ds[1..], Some(d), score)
        else Select(b, ships, counts, heur, size, ds[1..], best, bestScore)
  }

  /** No fitting draw of the list scores above the threshold with its accept coin up. */
  predicate NoEarlyAccept(b: Board, ships: seq<Ship>, counts: seq<int>, heur: Heuristics, size: nat, ds: seq<HardDraw>)
    requires IsBoard(b) && |counts| == 4
  {
    forall i :: 0 <= i < |ds| && Placeable(b, size, ds[i]) ==>
      !(PlacementScore(b, ships, counts, heur, size, ds[i]) > EarlyAcceptScore && ds[i].accept)
  }

  /**
    * The attempt loop commits only a draw that fits, and commits one exactly
    * when some sampled draw fits (or a best one was already held).
    */
  lemma {:induction false} SelectFits(b: Board, ships: seq<Ship>, counts: seq<int>, heur: Heuristics, size: nat,
                                      ds: seq<HardDraw>, best: Option<HardDraw>, bestScore: real)
    requires IsBoard(b) && |counts| == 4
    ensures var r := Select(b, ships, counts, heur, size, ds, best, bestScore);
            (r.Some? <==> best.Some? || exists i :: 0 <= i < |ds| && Placeable(b, size, ds[i])) &&
            (r.Some? ==> r == best || exists i :: 0 <= i < |ds| && ds[i] == r.value && Placeable(b, size, ds[i]))
    decreases |ds|
  {
    if ds != [] {
      var d := ds[0];
      var score := PlacementScore(b, ships, counts, heur, size, d);
      if !Placeable(b, size, d) {
        SelectFits(b, ships, counts, heur, size, ds[1..], best, bestScore);
        assert forall i :: 0 < i < |ds| ==> ds[i] == ds[1..][i - 1];
      } else if score > EarlyAcceptScore && d.accept {
      } else if best.None? || score > bestScore {
        SelectFits(b, ships, counts, heur, size, ds[1..], Some(d), score);
        assert forall i :: 0 < i < |ds| ==> ds[i] == ds[1..][i - 1];
      } else {
        SelectFits(b, ships, counts, heur, size, ds[1..], best, bestScore);
        assert forall i :: 0 < i < |ds| ==> ds[i] == ds[1..][i - 1];
      }
    }
  }

  /** The attempt loop never yields a draw that does not fit, given that the best one held fits. */
  lemma {:induction false} SelectPlaceable(b: Board, ships: seq<Ship>, counts: seq<int>, heur: Heuristics, size: nat,
                                           ds: seq<HardDraw>, best: Option<HardDraw>, bestScore: real)
    requires IsBoard(b) && |counts| == 4
    requires best.Some? ==> Placeable(b, size, best.value)
    ensures var r := Select(b, ships, counts, heur, size, ds, best, bestScore);
            r.Some? ==> Placeable(b, size, r.value)
    decreases |ds|
  {
    if ds != [] {
      var d := ds[0];
      var score := PlacementScore(b, ships, counts, heur, size, d);
      if !Placeable(b, size, d) {
        SelectPlaceable(b, ships, counts, heur, size, ds[1..], best, bestScore);
      } else if best.None? || score > bestScore {
        SelectPlaceable(b, ships, counts, heur, size, ds[1..], Some(d), score);
      } else {
        SelectPlaceable(b, ships, counts, heur, size, ds[1..], best, bestScore);
      }
    }
  }

  /**
    * Best-score tracking: when no draw is accepted early, the committed draw
    * scores at least as much as every fitting draw and as the best one held.
    */
  lemma {:induction false} SelectBest(b: Board, ships: seq<Ship>, counts: seq<int>, heur: Heuristics, size: nat,
                                      ds: seq<HardDraw>, best: Option<HardDraw>, bestScore: real)
    requires IsBoard(b) && |counts| == 4
    requires NoEarlyAccept(b, ships, counts, heur, size, ds)
    requires best.Some? ==> bestScore == PlacementScore(b, ships, counts, heur, size, best.value)
    ensures var r := Select(b, ships, counts, heur, size, ds, best, bestScore);
            (r.Some? && best.Some? ==> PlacementScore(b, ships, counts, heur, size, r.value) >= bestScore) &&
            (r.Some? ==> forall i :: 0 <= i < |ds| && Placeable(b, size, ds[i]) ==>
               PlacementScore(b, ships, counts, heur, size, ds[i]) <= PlacementScore(b, ships, counts, heur, size, r.value))
    decreases |ds|
  {
    if ds != [] {
      var d := ds[0];
      assert NoEarlyAccept(b, ships, counts, heur, size, ds[1..]) by {
        forall i | 0 <= i < |ds[1..]| && Placeable(b, size, ds[1..][i])
          ensures !(PlacementScore(b, ships, counts, heur, size, ds[1..][i]) > EarlyAcceptScore && ds[1..][i].accept)
        {
          assert ds[1..][i] == ds[i + 1];
        }
      }
      assert forall i :: 0 < i < |ds| ==> ds[i] == ds[1..][i - 1];
      if !Placeable(b, size, d) {
        SelectBest(b, ships, counts, heur, size, ds[1..], best, bestScore);
      } else {
        var score := PlacementScore(b, ships, counts, heur, size, d);
        assert !(score > EarlyAcceptScore && d.accept) by { assert ds[0] == d; }
        if best.None? || score > bestScore {
          SelectBest(b, ships, counts, heur, size, ds[1..], Some(d), score);
        } else {
          SelectBest(b, ships, counts, heur, size, ds[1..], best, bestScore);
        }
      }
    }
  }

  /** The sampled candidates of each template's draws. */
  function SpotsOf(ds: seq<HardDraw>): (cs: seq<Candidate>)
    ensures |cs| == |ds| && forall j :: 0 <= j < |ds| ==> cs[j] == ds[j].spot
  {
    seq(|ds|, j requires 0 <= j < |ds| => ds[j].spot)
  }

  function Spots(draws: seq<seq<HardDraw>>): (cs: seq<seq<Candidate>>)
    ensures |cs| == |draws|
  {
    if draws == [] then [] else [SpotsOf(draws[0])] + Spots(draws[1..])
  }

  /**
    * One ship of the hard-mode placement: the attempt loop's choice is
    * committed, and its quadrant counted when the quadrant heuristic is on;
    * when no attempt fits, nothing changes.
    */
  function HardStep(b: Board, ships: seq<Ship>, counts: seq<int>, heur: Heuristics,
                    t: ShipTemplate, ds: seq<HardDraw>): (r: (Board, seq<Ship>, seq<int>))
    requires IsBoard(b) && |counts| == 4
    ensures IsBoard(r.0) && |r.2| == 4
  {
    match Select(b, ships, counts, heur, t.size, ds, None, 0.0)
    case None => (b, ships, counts)
    case Some(d) =>
      var next := PlaceShip(b, ships, t, d.spot.row, d.spot.col, d.spot.horizontal);
      var q := Quadrant(d.spot.row, d.spot.col, t.size, d.spot.horizontal);
      (next.0, next.1, if heur.spreadQuadrants then counts[q := counts[q] + 1] else counts)
  }

  /** The fleet loop of the hard-mode placement; `counts` holds the committed ships per quadrant. */
  function PlaceFleetHard(b: Board, ships: seq<Ship>, counts: seq<int>, heur: Heuristics,
                          templates: seq<ShipTemplate>, draws: seq<seq<HardDraw>>): (r: (Board, seq<Ship>, seq<int>))
    requires IsBoard(b) && |counts| == 4 && |draws| == |templates|
    ensures IsBoard(r.0) && |r.2| == 4
    decreases |templates|
  {
    if templates == [] then (b, ships, counts)
    else
      var s := HardStep(b, ships, counts, heur, templates[0], draws[0]);
      PlaceFleetHard(s.0, s.1, s.2, heur, templates[1..], draws[1..])
  }

  /** One hard-mode step keeps the board well formed and adds at most one ship, laid at a sampled candidate. */
  lemma HardStepWf(b: Board, ships: seq<Ship>, counts: seq<int>, heur: Heuristics, t: ShipTemplate, ds: seq<HardDraw>)
    requires Wf(b, ships) && NoShots(b) && |counts| == 4 && t.size > 0
    ensures var s := HardStep(b, ships, counts, heur, t, ds);
            Wf(s.0, s.1) && NoShots(s.0) && Extends(b, s.0, |ships|)
  {
    SelectPlaceable(b, ships, counts, heur, t.size, ds, None, 0.0);
    match Select(b, ships, counts, heur, t.size, ds, None, 0.0)
    case None =>
    case Some(d) =>
      PlaceShipWf(b, ships, t, d.spot.row, d.spot.col, d.spot.horizontal);
  }

  /**
    * Hard-mode placement commits only candidates that `canPlaceShip`
    * accepted, so it keeps the board well formed and changes only the
    * squares of the new ships.
    */
  lemma {:induction false} PlaceFleetHardWf(b: Board, ships: seq<Ship>, counts: seq<int>, heur: Heuristics,
                                            templates: seq<ShipTemplate>, draws: seq<seq<HardDraw>>)
    requires Wf(b, ships) && NoShots(b) && |counts| == 4 && |draws| == |templates| && PositiveSizes(templates)
    ensures var r := PlaceFleetHard(b, ships, counts, heur, templates, draws);
            Wf(r.0, r.1) && NoShots(r.0) && Extends(b, r.0, |ships|)
    decreases |templates|
  {
    if templates != [] {
      assert PositiveSizes(templates[1..]);
      var s := HardStep(b, ships, counts, heur, templates[0], draws[0]);
      HardStepWf(b, ships, counts, heur, templates[0], draws[0]);
      PlaceFleetHardWf(s.0, s.1, s.2, heur, templates[1..], draws[1..]);
      ExtendsTrans(b, s.0, PlaceFleetHard(b, ships, counts, heur, templates, draws).0, |ships|, |s.1|);
    }
  }

  /** One hard-mode step appends either nothing or one ship made from the template at one of the sampled candidates. */
  lemma HardStepDrawn(b: Board, ships: seq<Ship>, counts: seq<int>, heur: Heuristics, t: ShipTemplate, ds: seq<HardDraw>)
    requires IsBoard(b) && |counts| == 4
    ensures var s := HardStep(b, ships, counts, heur, t, ds);
            s.1 == ships || (|s.1| == |ships| + 1 && s.1[..|ships|] == ships && MadeFrom(s.1[|ships|], t, SpotsOf(ds)))
  {
    SelectFits(b, ships, counts, heur, t.size, ds, None, 0.0);
    match Select(b, ships, counts, heur, t.size, ds, None, 0.0)
    case None =>
    case Some(d) =>
      var i :| 0 <= i < |ds| && ds[i] == d;
      assert SpotsOf(ds)[i] == d.spot;
  }

  /**
    * Hard-mode placement keeps the earlier ships and appends at most one ship
    * per template, in template order, each laid at one of its sampled
    * candidates.
    */
  lemma {:induction false} PlaceFleetHardDrawn(b: Board, ships: seq<Ship>, counts: seq<int>, heur: Heuristics,
                                               templates: seq<ShipTemplate>, draws: seq<seq<HardDraw>>)
    requires IsBoard(b) && |counts| == 4 && |draws| == |templates|
    ensures var r := PlaceFleetHard(b, ships, counts, heur, templates, draws);
            |ships| <= |r.1| && r.1[..|ships|] == ships && DrawnFrom(r.1[|ships|..], templates, Spots(draws))
    decreases |templates|
  {
    var r := PlaceFleetHard(b, ships, counts, heur, templates, draws);
    if templates == [] {
      assert r.1[|ships|..] == [];
    } else {
      var s := HardStep(b, ships, counts, heur, templates[0], draws[0]);
      assert Spots(draws)[1..] == Spots(draws[1..]) && Spots(draws)[0] == SpotsOf(draws[0]);
      HardStepDrawn(b, ships, counts, heur, templates[0], draws[0]);
      PlaceFleetHardDrawn(s.0, s.1, s.2, heur, templates[1..], draws[1..]);
      if s.1 != ships {
        assert r.1[..|s.1|] == s.1;
        assert r.1[|ships|] == s.1[|ships|];
        assert r.1[|ships|..][1..] == r.1[|s.1|..];
      }
    }
  }

  function Sum4(counts: seq<int>): int
    requires |counts| == 4
  {
    counts[0] + counts[1] + counts[2] + counts[3]
  }

  /** The quadrant counts grow by one per committed ship when the heuristic is on, and never otherwise. */
  lemma {:induction false} PlaceFleetHardCounts(b: Board, ships: seq<Ship>, counts: seq<int>, heur: Heuristics,
                                                templates: seq<ShipTemplate>, draws: seq<seq<HardDraw>>)
    requires IsBoard(b) && |counts| == 4 && |draws| == |templates|
    ensures var r := PlaceFleetHard(b, ships, counts, heur, templates, draws);
            if heur.spreadQuadrants then Sum4(r.2) == Sum4(counts) + |r.1| - |ships| else r.2 == counts
    decreases |templates|
  {
    if templates != [] {
      var s := HardStep(b, ships, counts, heur, templates[0], draws[0]);
      PlaceFleetHardCounts(s.0, s.1, s.2, heur, templates[1..], draws[1..]);
    }
  }

  /** The attempt loop for one ship: sample, score the candidates that fit, keep the best, stop on an early accept. */
  method ChooseSpot(board: Board, ships: seq<Ship>, counts: seq<int>, heur: Heuristics, size: nat, ds: seq<HardDraw>)
    returns (best: Option<HardDraw>)
    requires IsBoard(board) && |counts| == 4 && |ds| == HardAttempts
    ensures best == Select(board, ships, counts, heur, size, ds, None, 0.0)
  {
    var attempts := 0;
    best := None;
    var bestScore: real := 0.0;
    while attempts < HardAttempts
      invariant 0 <= attempts <= HardAttempts
      invariant Select(board, ships, counts, heur, size, ds[attempts..], best, bestScore)
             == Select(board, ships, counts, heur, size, ds, None, 0.0)
    {
      var d := ds[attempts];
      assert ds[attempts..][0] == d && ds[attempts..][1..] == ds[attempts + 1..];
      if CanPlaceShip(board, d.spot.row, d.spot.col, size, d.spot.horizontal) {
        var score := PlacementScore(board, ships, counts, heur, size, d);
        if best.None? || score > bestScore {
          best, bestScore := Some(d), score;
        }
        if score > EarlyAcceptScore && d.accept {
          best := Some(d);
          return;
        }
      }
      attempts := attempts + 1;
    }
  }

  /** One pass of the fleet loop of `placeAllShipsHardMode`: sample, commit the best spot, count its quadrant. */
  method PlaceOneHard(board: Board, ships: seq<Ship>, quadrantCounts: array<int>, heur: Heuristics,
                      template: ShipTemplate, ds: seq<HardDraw>)
    returns (board': Board, ships': seq<Ship>)
    requires IsBoard(board) && quadrantCounts.Length == 4 && |ds| == HardAttempts
    modifies quadrantCounts
    ensures var s := HardStep(board, ships, old(quadrantCounts[..]), heur, template, ds);
            board' == s.0 && ships' == s.1 && quadrantCounts[..] == s.2
  {
    board', ships' := board, ships;
    var best := ChooseSpot(board, ships, quadrantCounts[..], heur, template.size, ds);
    SelectPlaceable(board, ships, quadrantCounts[..], heur, template.size, ds, None, 0.0);
    if best.Some? {
      var d := best.value;
      board', ships' := CommitShip(board, ships, template, d.spot.row, d.spot.col, d.spot.horizontal);
      if heur.spreadQuadrants {
        var q := Quadrant(d.spot.row, d.spot.col, template.size, d.spot.horizontal);
        quadrantCounts[q] := quadrantCounts[q] + 1;
      }
    }
  }

  /** `placeAllShipsHardMode`: the fleet loop with its quadrant counters held in a four-element array. */
  method PlaceAllShipsHardMode(board: Board, heur: Heuristics, draws: seq<seq<HardDraw>>)
    returns (board': Board, ships: seq<Ship>)
    requires IsBoard(board) && |draws| == |Fleet|
    requires forall t :: 0 <= t < |draws| ==> |draws[t]| == HardAttempts
    ensures var r := PlaceFleetHard(board, [], [0, 0, 0, 0], heur, Fleet, draws);
            board' == r.0 && ships == r.1
  {
    board', ships := board, [];
    var quadrantCounts := new int[4](_ => 0);
    assert quadrantCounts[..] == [0, 0, 0, 0];
    for t := 0 to |Fleet|
      invariant IsBoard(board')
      invariant PlaceFleetHard(board', ships, quadrantCounts[..], heur, Fleet[t..], draws[t..])
             == PlaceFleetHard(board, [], [0, 0, 0, 0], heur, Fleet, draws)
    {
      assert Fleet[t..][1..] == Fleet[t + 1..] && draws[t..][1..] == draws[t + 1..];
      board', ships := PlaceOneHard(board', ships, quadrantCounts, heur, Fleet[t], draws[t]);
    }
  }
}
