/**
  * The `gameState` object and the handlers that change it: choosing a
  * difficulty and starting the placement phase, the player's manual and
  * random placement, the start of play, the player's shot and the opponent's
  * turn. Each handler is first stated as a function from the old record to
  * the new one, with a lemma that it keeps the state invariant; the class
  * `Game` holds the record and its methods carry the handlers out.
  */
module Engine {
  import opened Wrappers
  import opened Grid
  import opened Analysis
  import opened Placement
  import opened HardPlacement
  import opened Shooting
  import opened Targeting
  import opened Queue
  import opened Probability
  import opened Manual
  import opened MediumMode

  /** `gameState.difficulty` once chosen: 'easy', 'medium' or 'hard'. */
  datatype Level = Easy | Medium | Hard

  /** One side's waters: `playerBoard` with `playerShips`, or `aiBoard` with `aiShips`. */
  datatype Side = Side(board: Board, ships: seq<Ship>)

  /**
    * The `gameState` record. `horizontal` stands for `currentOrientation ===
    * 'horizontal'`; `tracking` holds `aiTargetMode`, `aiTargetQueue` and
    * `aiHitSequence`.
    */
  datatype GameState = GameState(
    player: Side, ai: Side,
    gameActive: bool, playerTurn: bool, placementPhase: bool, horizontal: bool,
    placedShips: set<string>, difficulty: Option<Level>, tracking: Tracking,
    playerShotsTaken: nat, playerHits: nat, aiShotsTaken: nat, aiHits: nat)


  const NoTracking: Tracking := Tracking(false, [], [])

  /** The names of the fleet's templates among the first `n`. */
  function FleetNames(n: nat): set<string>
    requires n <= |Fleet|
  {
    set j | 0 <= j < n :: Fleet[j].name
  }

  /**
    * A side in play: a well-formed board and ship list, and the two counters
    * of the shots fired at that board, which agree with its flags.
    */
  predicate SideOk(s: Side, shots: nat, hits: nat) {
    Wf(s.board, s.ships) && shots == Shots(s.board) && hits == Hits(s.board)
  }

  /**
    * The state invariant: both boards are well formed for their ship lists,
    * each shot counter is the number of squares fired at on the board it
    * targets, the medium opponent's queue is duplicate-free and on the board,
    * no shot is fired during placement, and the placed-ship names are the
    * distinct names of the player's ships.
    */
  predicate StateOk(s: GameState) {
    SideOk(s.player, s.aiShotsTaken, s.aiHits) &&
    SideOk(s.ai, s.playerShotsTaken, s.playerHits) &&
    QueueOk(s.tracking.queue) && AllInBounds(s.tracking.hitSeq) &&
    (s.placementPhase ==> !s.gameActive && NoShots(s.player.board) && NoShots(s.ai.board)) &&
    NamesDistinct(s.player.ships) && s.placedShips == NamesOf(s.player.ships)
  }

  /** A fresh board with no ships is a side with zero counters and no shot. */
  lemma EmptySideOk()
    ensures SideOk(Side(EmptyBoard, []), 0, 0) && NoShots(Side(EmptyBoard, []).board)
  {
    EmptyBoardWf(EmptyBoard);
    NoShotsCounts(EmptyBoard);
  }

  /** A shot at an untried square keeps the side well formed and moves its counters by the outcome. */
  lemma FireSideOk(s: Side, shots: nat, hits: nat, p: Pos)
    requires SideOk(s, shots, hits) && InBounds(p) && !Tried(At(s.board, p))
    ensures Indexed(s.board, s.ships)
    ensures var r := Fire(s.board, s.ships, p);
            SideOk(Side(r.0, r.1), shots + 1, hits + if r.2.Missed? then 0 else 1)
  {
    WfIndexed(s.board, s.ships);
    FireWf(s.board, s.ships, p);
    FireEffect(s.board, s.ships, p);
  }

  // ---------------------------------------------------------------------------
  // Rounds and placement
  // ---------------------------------------------------------------------------

  /** The record the page starts with, empty boards standing for the empty arrays. */
  const Initial: GameState :=
    GameState(Side(EmptyBoard, []), Side(EmptyBoard, []), false, true, false, true, {}, None, NoTracking, 0, 0, 0, 0)

  lemma InitialOk()
    ensures StateOk(Initial)
  {
    EmptySideOk();
  }

  /**
    * The opponent's fleet as `startPlacementPhase` lays it: by the hard-mode
    * heuristics when the difficulty is hard, by plain sampling (skipping a
    * template that finds no room) otherwise.
    */
  function AiFleet(level: Option<Level>, draws: seq<seq<Candidate>>, heur: Heuristics,
                   hardDraws: seq<seq<HardDraw>>): Side
    requires |draws| == |Fleet| && |hardDraws| == |Fleet|
  {
    if level == Some(Hard) then
      var r := PlaceFleetHard(EmptyBoard, [], [0, 0, 0, 0], heur, Fleet, hardDraws); Side(r.0, r.1)
    else
      var r := PlaceFleet(EmptyBoard, [], Fleet, draws, false); Side(r.0, r.1)
  }

  /** Whatever the samples, the opponent's fleet is well formed and nobody has fired at it. */
  lemma AiFleetOk(level: Option<Level>, draws: seq<seq<Candidate>>, heur: Heuristics, hardDraws: seq<seq<HardDraw>>)
    requires |draws| == |Fleet| && |hardDraws| == |Fleet|
    ensures SideOk(AiFleet(level, draws, heur, hardDraws), 0, 0)
    ensures NoShots(AiFleet(level, draws, heur, hardDraws).board)
  {
    EmptySideOk();
    assert PositiveSizes(Fleet);
    if level == Some(Hard) {
      PlaceFleetHardWf(EmptyBoard, [], [0, 0, 0, 0], heur, Fleet, hardDraws);
    } else {
      PlaceFleetWf(EmptyBoard, [], Fleet, draws, false);
    }
    NoShotsCounts(AiFleet(level, draws, heur, hardDraws).board);
  }

  /** `startPlacementPhase`'s fresh record: only the difficulty survives, the opponent's fleet is `ai`. */
  function NewRound(level: Option<Level>, ai: Side): GameState {
    GameState(Side(EmptyBoard, []), ai, false, true, true, true, {}, level, NoTracking, 0, 0, 0, 0)
  }

  lemma NewRoundOk(level: Option<Level>, ai: Side)
    requires SideOk(ai, 0, 0) && NoShots(ai.board)
    ensures StateOk(NewRound(level, ai)) && NewRound(level, ai).placementPhase
  {
    EmptySideOk();
  }

  /**
    * The drop handler: the ship is laid with its first square at (row, col)
    * in the current orientation when `canPlaceShip` allows it, and its name
    * joins the placed names; otherwise nothing changes.
    */
  function Drop(s: GameState, t: ShipTemplate, row: int, col: int): (bool, GameState)
    requires IsBoard(s.player.board) && 0 <= row < GridSize && 0 <= col < GridSize
  {
    if CanPlaceShip(s.player.board, row, col, t.size, s.horizontal) then
      var r := PlaceShip(s.player.board, s.player.ships, t, row, col, s.horizontal);
      (true, s.(player := Side(r.0, r.1), placedShips := s.placedShips + {t.name}))
    else (false, s)
  }

  /**
    * Dropping a fleet ship not yet placed keeps the invariant; a dropped ship
    * adds exactly one ship, at the end of the list, with its name.
    */
  lemma DropOk(s: GameState, t: ShipTemplate, row: int, col: int)
    requires StateOk(s) && s.placementPhase && t in Fleet && t.name !in s.placedShips
    requires 0 <= row < GridSize && 0 <= col < GridSize
    ensures var (placed, s') := Drop(s, t, row, col);
            StateOk(s') && s'.placementPhase &&
            (placed ==> |s'.player.ships| == |s.player.ships| + 1 && s'.player.ships[|s.player.ships|].name == t.name)
  {
    if CanPlaceShip(s.player.board, row, col, t.size, s.horizontal) {
      var (b, ships) := (s.player.board, s.player.ships);
      NoShotsCounts(b);
      assert PositiveSizes(Fleet);
      PlaceShipWf(b, ships, t, row, col, s.horizontal);
      NoShotsCounts(PlaceShip(b, ships, t, row, col, s.horizontal).0);
      AddName(ships, Ship(t.name, t.size, 0, false, Segment(row, col, t.size, s.horizontal)));
    }
  }

  /**
    * `removeShip` for the player's ship `k`: its squares lose their
    * reference, it leaves the list (later ships move down one index), and its
    * name leaves the placed names.
    */
  function Remove(s: GameState, k: nat): GameState
    requires IsBoard(s.player.board) && k < |s.player.ships|
  {
    var ship := s.player.ships[k];
    s.(player := Side(Renumber(Cleared(s.player.board, ship.positions), k),
                      s.player.ships[..k] + s.player.ships[k + 1..]),
       placedShips := s.placedShips - {ship.name})
  }

  /** Removing a placed ship keeps the invariant and frees exactly its name. */
  lemma RemoveOk(s: GameState, k: nat)
    requires StateOk(s) && s.placementPhase && k < |s.player.ships|
    ensures StateOk(Remove(s, k)) && Remove(s, k).placementPhase
    ensures |Remove(s, k).player.ships| == |s.player.ships| - 1
    ensures s.player.ships[k].name !in Remove(s, k).placedShips
  {
    var (b, ships) := (s.player.board, s.player.ships);
    NoShotsCounts(b);
    RemoveShipWf(b, ships, k);
    NoShotsCounts(Renumber(Cleared(b, ships[k].positions), k));
    RemoveName(ships, k);
  }

  /** `resetPlacement`: an empty board, no ships, no placed names, horizontal orientation. */
  function Reset(s: GameState): GameState {
    s.(player := Side(EmptyBoard, []), placedShips := {}, horizontal := true)
  }

  lemma ResetOk(s: GameState)
    requires StateOk(s) && s.placementPhase
    ensures StateOk(Reset(s)) && Reset(s).placementPhase && Reset(s).player.ships == []
  {
    EmptySideOk();
    NoShotsCounts(s.player.board);
  }

  /**
    * `randomPlaceAllPlayerShips`: the player's fleet is placed afresh in
    * order, stopping at the first template that finds no room; the placed
    * names are the names of the ships laid.
    */
  function RandomPlaced(s: GameState, draws: seq<seq<Candidate>>): GameState
    requires |draws| == |Fleet|
  {
    var r := PlaceFleet(EmptyBoard, [], Fleet, draws, true);
    s.(player := Side(r.0, r.1), placedShips := NamesOf(r.1))
  }

  /** Placing the fleet from template `t` on: the first fitting sample lays template `t` and the rest follow; with none, the placement stops. */
  lemma PlaceFleetStep(b: Board, ships: seq<Ship>, draws: seq<seq<Candidate>>, t: nat)
    requires IsBoard(b) && t < |Fleet| && |draws| == |Fleet| && |draws[t]| == RandomAttempts
    ensures var i := FirstFit(b, Fleet[t].size, draws[t]);
            PlaceFleet(b, ships, Fleet[t..], draws[t..], true) ==
              if i < RandomAttempts then
                var c := draws[t][i];
                var r := PlaceShip(b, ships, Fleet[t], c.row, c.col, c.horizontal);
                PlaceFleet(r.0, r.1, Fleet[t + 1..], draws[t + 1..], true)
              else (b, ships)
  {
    assert Fleet[t..][0] == Fleet[t] && draws[t..][0] == draws[t];
    assert Fleet[t..][1..] == Fleet[t + 1..] && draws[t..][1..] == draws[t + 1..];
  }

  /**
    * A ship made from template `t`, added to ships made from earlier
    * templates only, brings a new name, and the names stay distinct.
    */
  lemma TemplateName(ships: seq<Ship>, t: nat, ship: Ship)
    requires t < |Fleet| && ship.name == Fleet[t].name
    requires NamesDistinct(ships) && NamesOf(ships) <= FleetNames(t)
    ensures NamesDistinct(ships + [ship]) && NamesOf(ships + [ship]) == NamesOf(ships) + {ship.name}
    ensures NamesOf(ships + [ship]) <= FleetNames(t + 1)
  {
    FleetNamesDistinct();
    assert ship.name !in FleetNames(t);
    AddName(ships, ship);
    assert FleetNames(t + 1) == FleetNames(t) + {ship.name};
  }

  /**
    * Random placement of the player's fleet keeps the invariant: the ships
    * it lays carry distinct fleet names.
    */
  lemma RandomPlacedOk(s: GameState, draws: seq<seq<Candidate>>)
    requires StateOk(s) && s.placementPhase
    requires |draws| == |Fleet| && forall t :: 0 <= t < |draws| ==> |draws[t]| == RandomAttempts
    ensures StateOk(RandomPlaced(s, draws)) && RandomPlaced(s, draws).placementPhase
    ensures NamesOf(RandomPlaced(s, draws).player.ships) <= FleetNames(|Fleet|)
  {
    EmptySideOk();
    NoShotsCounts(s.player.board);
    assert PositiveSizes(Fleet);
    PlaceFleetWf(EmptyBoard, [], Fleet, draws, true);
    RandomPlacedFrom(EmptyBoard, [], draws, 0);
    assert Fleet[0..] == Fleet && draws[0..] == draws;
    NoShotsCounts(RandomPlaced(s, draws).player.board);
  }

  /** The ships random placement lays from template `t` on carry distinct fleet names. */
  lemma {:induction false} RandomPlacedFrom(b: Board, ships: seq<Ship>, draws: seq<seq<Candidate>>, t: nat)
    requires t <= |Fleet| && |draws| == |Fleet| && forall j :: 0 <= j < |draws| ==> |draws[j]| == RandomAttempts
    requires IsBoard(b) && NamesDistinct(ships) && NamesOf(ships) <= FleetNames(t)
    ensures var r := PlaceFleet(b, ships, Fleet[t..], draws[t..], true);
            NamesDistinct(r.1) && NamesOf(r.1) <= FleetNames(|Fleet|)
    decreases |Fleet| - t
  {
    if t == |Fleet| {
      assert Fleet[t..] == [] && draws[t..] == [];
    } else {
      PlaceFleetStep(b, ships, draws, t);
      var i := FirstFit(b, Fleet[t].size, draws[t]);
      if i < RandomAttempts {
        var c := draws[t][i];
        TemplateName(ships, t, Ship(Fleet[t].name, Fleet[t].size, 0, false, Segment(c.row, c.col, Fleet[t].size, c.horizontal)));
        var r := PlaceShip(b, ships, Fleet[t], c.row, c.col, c.horizontal);
        RandomPlacedFrom(r.0, r.1, draws, t + 1);
      } else {
        assert FleetNames(t) <= FleetNames(|Fleet|);
      }
    }
  }

  /** `startGameplay`: leave the placement phase and open play. */
  function Start(s: GameState): GameState {
    s.(placementPhase := false, gameActive := true)
  }

  lemma StartOk(s: GameState)
    requires StateOk(s)
    ensures StateOk(Start(s)) && Start(s).gameActive && !Start(s).placementPhase
  {
  }

  // ---------------------------------------------------------------------------
  // Play
  // ---------------------------------------------------------------------------

  /**
    * The accepted part of `handlePlayerShot`: the shot is resolved on the
    * opponent's board, the turn passes, the player's counters move, and the
    * game ends when the shot sank the opponent's last ship afloat.
    */
  function PlayerShot(s: GameState, p: Pos): (GameState, Outcome)
    requires Indexed(s.ai.board, s.ai.ships) && InBounds(p)
  {
    var r := Fire(s.ai.board, s.ai.ships, p);
    (s.(ai := Side(r.0, r.1), playerTurn := false,
        gameActive := s.gameActive && !(r.2.Sank? && AllSunk(r.1)),
        playerShotsTaken := s.playerShotsTaken + 1,
        playerHits := s.playerHits + if r.2.Missed? then 0 else 1),
     r.2)
  }

  /**
    * `handlePlayerShot(row, col)`: rejected, with nothing changed, when the
    * game is over, it is not the player's turn, or the square was already
    * fired at; otherwise the accepted shot.
    */
  function PlayerTurn(s: GameState, p: Pos): (Option<Outcome>, GameState)
    requires StateOk(s) && InBounds(p)
  {
    if !s.gameActive || !s.playerTurn || Tried(At(s.ai.board, p)) then (None, s)
    else
      WfIndexed(s.ai.board, s.ai.ships);
      var r := PlayerShot(s, p);
      (Some(r.1), r.0)
  }

  /**
    * The player's turn keeps the invariant; an accepted shot fires at an
    * untried square, passes the turn, leaves the player's own board alone,
    * and adds one to the shots and, on a hit, one to the hits.
    */
  lemma PlayerTurnOk(s: GameState, p: Pos)
    requires StateOk(s) && InBounds(p)
    ensures var (result, s') := PlayerTurn(s, p);
            StateOk(s') &&
            (result.None? <==> !s.gameActive || !s.playerTurn || Tried(At(s.ai.board, p))) &&
            (result.None? ==> s' == s) &&
            (result.Some? ==>
               !s'.playerTurn && s'.player == s.player && Tried(At(s'.ai.board, p)) &&
               s'.playerShotsTaken == s.playerShotsTaken + 1 &&
               s'.playerHits == s.playerHits + (if result.value.Missed? then 0 else 1))
  {
    if s.gameActive && s.playerTurn && !Tried(At(s.ai.board, p)) {
      PlayerShotSide(s, p);
    }
  }

  /** The opponent's side after the player's shot, with the player's counters. */
  lemma PlayerShotSide(s: GameState, p: Pos)
    requires SideOk(s.ai, s.playerShotsTaken, s.playerHits) && InBounds(p) && !Tried(At(s.ai.board, p))
    ensures Indexed(s.ai.board, s.ai.ships)
    ensures var (s', outcome) := PlayerShot(s, p);
            SideOk(s'.ai, s'.playerShotsTaken, s'.playerHits) && Tried(At(s'.ai.board, p)) &&
            s'.playerHits == s.playerHits + (if outcome.Missed? then 0 else 1)
  {
    FireSideOk(s.ai, s.playerShotsTaken, s.playerHits, p);
    FireTried(s.ai.board, s.ai.ships, p);
  }

  /**
    * While the opponent still has a ship afloat, the game ends on the
    * player's shot exactly when that shot leaves none afloat.
    */
  lemma PlayerShotEnds(s: GameState, p: Pos)
    requires Indexed(s.ai.board, s.ai.ships) && InBounds(p) && s.gameActive && !AllSunk(s.ai.ships)
    ensures !PlayerShot(s, p).0.gameActive <==> AllSunk(PlayerShot(s, p).0.ai.ships)
  {
    if !Fire(s.ai.board, s.ai.ships, p).2.Sank? {
      WinOnlyOnSink(s.ai.board, s.ai.ships, p);
    }
  }

  /** In every valid record each side's hits are at most its shots. */
  lemma HitsWithinShots(s: GameState)
    requires StateOk(s)
    ensures s.playerHits <= s.playerShotsTaken && s.aiHits <= s.aiShotsTaken
  {
    HitsAtMostShots(s.ai.board);
    HitsAtMostShots(s.player.board);
  }

  /**
    * What the opponent's targeting needs of the record: ship references that
    * index the player's ship list, and an on-board tracking queue and hit
    * sequence.
    */
  predicate Aimable(s: GameState) {
    Indexed(s.player.board, s.player.ships) && QueueOk(s.tracking.queue) && AllInBounds(s.tracking.hitSeq)
  }

  /** The difficulty dispatch at the head of `handleAITurn`: the square chosen and the tracking after choosing. */
  function AiTarget(s: GameState, u: Unit): (Option<Pos>, Tracking)
    requires Indexed(s.player.board, s.player.ships) && AllInBounds(s.tracking.queue)
  {
    if s.difficulty == Some(Hard) then (HardTarget(s.player.board, s.player.ships, u), s.tracking)
    else if s.difficulty == Some(Medium) then MediumStep(s.player.board, s.player.ships, s.tracking, u)
    else (EasyTarget(s.player.board, u), s.tracking)
  }

  /**
    * Whatever the difficulty, the opponent only aims at an untried square of
    * the player's board, and the tracking stays on the board and
    * duplicate-free.
    */
  lemma AiTargetSound(s: GameState, u: Unit)
    requires Aimable(s)
    ensures var (target, t') := AiTarget(s, u);
            (target.Some? ==> InBounds(target.value) && !Tried(At(s.player.board, target.value))) &&
            QueueOk(t'.queue) && AllInBounds(t'.hitSeq)
  {
    var b, ships := s.player.board, s.player.ships;
    if s.difficulty == Some(Hard) {
      if HardTarget(b, ships, u).Some? {
        HardTargetBest(b, ships, u);
      }
    } else if s.difficulty == Some(Medium) {
      MediumStepOk(b, ships, s.tracking, u);
    } else {
      EasyTargetSound(b, u);
    }
  }

  /**
    * The opponent's shot at `p`: resolved on the player's board, the
    * opponent's counters move, the medium opponent updates its tracking
    * after a hit, and the game ends when the shot sank the player's last ship
    * afloat; otherwise the turn returns to the player.
    */
  function AiShot(s: GameState, p: Pos): (GameState, Outcome)
    requires Indexed(s.player.board, s.player.ships) && AllInBounds(s.tracking.hitSeq) && InBounds(p)
  {
    FireIndexed(s.player.board, s.player.ships, p);
    var r := Fire(s.player.board, s.player.ships, p);
    var active := s.gameActive && !(r.2.Sank? && AllSunk(r.1));
    (s.(player := Side(r.0, r.1),
        aiShotsTaken := s.aiShotsTaken + 1,
        aiHits := s.aiHits + if r.2.Missed? then 0 else 1,
        tracking := if !r.2.Missed? && s.difficulty == Some(Medium)
                    then AfterHit(r.0, r.1, s.tracking, p, r.2.Sank?) else s.tracking,
        gameActive := active,
        playerTurn := if active then true else s.playerTurn),
     r.2)
  }

  /**
    * The opponent's shot at an untried square keeps the invariant, leaves
    * the opponent's own board alone, marks the square tried, adds one to the
    * shots and, on a hit, one to the hits, and gives the turn back while the
    * game goes on.
    */
  lemma AiShotOk(s: GameState, p: Pos)
    requires StateOk(s) && s.gameActive && InBounds(p) && !Tried(At(s.player.board, p))
    ensures Indexed(s.player.board, s.player.ships)
    ensures var (s', outcome) := AiShot(s, p);
            StateOk(s') && s'.ai == s.ai && Tried(At(s'.player.board, p)) &&
            s'.aiShotsTaken == s.aiShotsTaken + 1 &&
            s'.aiHits == s.aiHits + (if outcome.Missed? then 0 else 1) &&
            (s'.gameActive ==> s'.playerTurn)
  {
    AiShotSide(s, p);
    AiShotTracking(s, p);
    FireKeepsNames(s.player.board, s.player.ships, p);
  }

  /** The player's side after the opponent's shot, with the opponent's counters. */
  lemma AiShotSide(s: GameState, p: Pos)
    requires SideOk(s.player, s.aiShotsTaken, s.aiHits) && AllInBounds(s.tracking.hitSeq)
    requires InBounds(p) && !Tried(At(s.player.board, p))
    ensures Indexed(s.player.board, s.player.ships)
    ensures var s' := AiShot(s, p).0;
            SideOk(s'.player, s'.aiShotsTaken, s'.aiHits) && Tried(At(s'.player.board, p))
  {
    FireSideOk(s.player, s.aiShotsTaken, s.aiHits, p);
    FireTried(s.player.board, s.player.ships, p);
  }

  /** A shot changes hit counts and sunk flags, never names. */
  lemma FireKeepsNames(b: Board, ships: seq<Ship>, p: Pos)
    requires Indexed(b, ships) && InBounds(p)
    ensures NamesOf(Fire(b, ships, p).1) == NamesOf(ships)
    ensures NamesDistinct(ships) ==> NamesDistinct(Fire(b, ships, p).1)
  {
    var ships' := Fire(b, ships, p).1;
    assert forall k :: 0 <= k < |ships| ==> ships'[k].name == ships[k].name;
  }

  /** After the opponent's shot the tracking is still on the board and duplicate-free. */
  lemma AiShotTracking(s: GameState, p: Pos)
    requires Aimable(s) && InBounds(p)
    ensures QueueOk(AiShot(s, p).0.tracking.queue) && AllInBounds(AiShot(s, p).0.tracking.hitSeq)
  {
    var r := Fire(s.player.board, s.player.ships, p);
    if !r.2.Missed? && s.difficulty == Some(Medium) {
      FireIndexed(s.player.board, s.player.ships, p);
      AfterHitOk(r.0, r.1, s.tracking, p, r.2.Sank?);
    }
  }

  /**
    * `handleAITurn`: nothing happens once the game is over; otherwise the
    * opponent chooses by its difficulty and, when a square is left, fires at
    * it.
    */
  function AiTurn(s: GameState, u: Unit): (Option<(Pos, Outcome)>, GameState)
    requires Aimable(s)
  {
    if !s.gameActive then (None, s)
    else
      AiTargetSound(s, u);
      var choice := AiTarget(s, u);
      var chosen := s.(tracking := choice.1);
      if choice.0.None? then (None, chosen)
      else
        var r := AiShot(chosen, choice.0.value);
        (Some((choice.0.value, r.1)), r.0)
  }

  /** Choosing changes only the tracking, so a valid record stays valid. */
  lemma ChosenOk(s: GameState, t: Tracking)
    requires StateOk(s) && QueueOk(t.queue) && AllInBounds(t.hitSeq)
    ensures StateOk(s.(tracking := t))
  {
  }

  /**
    * The opponent's turn keeps the invariant; a shot is at an untried square
    * of the player's board, leaves the opponent's own board alone, adds one
    * to the opponent's shots and, on a hit, one to its hits, and gives the
    * turn back while the game goes on.
    */
  lemma AiTurnOk(s: GameState, u: Unit)
    requires StateOk(s)
    ensures Aimable(s)
    ensures var (shot, s') := AiTurn(s, u);
            StateOk(s') && s'.ai == s.ai &&
            (!s.gameActive ==> shot.None? && s' == s) &&
            (shot.Some? ==>
               InBounds(shot.value.0) && !Tried(At(s.player.board, shot.value.0)) &&
               Tried(At(s'.player.board, shot.value.0)) &&
               s'.aiShotsTaken == s.aiShotsTaken + 1 &&
               s'.aiHits == s.aiHits + (if shot.value.1.Missed? then 0 else 1) &&
               (s'.gameActive ==> s'.playerTurn))
  {
    WfIndexed(s.player.board, s.player.ships);
    if s.gameActive {
      AiTargetSound(s, u);
      var choice := AiTarget(s, u);
      ChosenOk(s, choice.1);
      if choice.0.Some? {
        AiShotOk(s.(tracking := choice.1), choice.0.value);
      }
    }
  }

  /**
    * While the player still has a ship afloat, the game ends on the
    * opponent's shot exactly when that shot leaves none afloat.
    */
  lemma AiShotEnds(s: GameState, p: Pos)
    requires Indexed(s.player.board, s.player.ships) && AllInBounds(s.tracking.hitSeq) && InBounds(p)
    requires s.gameActive && !AllSunk(s.player.ships)
    ensures !AiShot(s, p).0.gameActive <==> AllSunk(AiShot(s, p).0.player.ships)
  {
    if !Fire(s.player.board, s.player.ships, p).2.Sank? {
      WinOnlyOnSink(s.player.board, s.player.ships, p);
    }
  }

  /** The difficulty dispatch at the head of `handleAITurn`. */
  method ChooseAiTarget(s: GameState, u: Unit) returns (target: Option<Pos>, tracking: Tracking)
    requires Indexed(s.player.board, s.player.ships) && AllInBounds(s.tracking.queue)
    ensures (target, tracking) == AiTarget(s, u)
  {
    tracking := s.tracking;
    if s.difficulty == Some(Hard) {
      target := GetHardModeProbabilityTarget(s.player.board, s.player.ships, u);
    } else if s.difficulty == Some(Medium) {
      target, tracking := GetMediumModeTarget(s.player.board, s.player.ships, s.tracking, u);
    } else {
      target := GetEasyModeTarget(s.player.board, u);
    }
  }

  /**
    * `handleAITurn` on the record: nothing happens once the game is over;
    * otherwise the opponent chooses a square by its difficulty and, if it
    * found one, fires at it.
    */
  method AiTurnStep(s: GameState, u: Unit) returns (shot: Option<(Pos, Outcome)>, s': GameState)
    requires Aimable(s)
    ensures (shot, s') == AiTurn(s, u)
  {
    if !s.gameActive {
      return None, s;
    }
    AiTargetSound(s, u);
    var target, tracking := ChooseAiTarget(s, u);
    if target.None? {
      return None, s.(tracking := tracking);
    }
    var p := target.value;
    var (board', ships', outcome) := Fire(s.player.board, s.player.ships, p);
    FireIndexed(s.player.board, s.player.ships, p);
    if !outcome.Missed? && s.difficulty == Some(Medium) {
      tracking := AfterHit(board', ships', tracking, p, outcome.Sank?);
    }
    var over := outcome.Sank? && AllSunk(ships');
    s' := s.(player := Side(board', ships'), aiShotsTaken := s.aiShotsTaken + 1,
             aiHits := s.aiHits + if outcome.Missed? then 0 else 1,
             tracking := tracking, gameActive := !over, playerTurn := if over then s.playerTurn else true);
    shot := Some((p, outcome));
  }

  class Game {
    var state: GameState

    predicate Valid()
      reads this
    {
      StateOk(state)
    }

    /** The initial `gameState`. */
    constructor()
      ensures Valid() && state == Initial
    {
      var empty := CreateEmptyBoard();
      InitialOk();
      state := GameState(Side(empty, []), Side(empty, []), false, true, false, true, {}, None,
                         Tracking(false, [], []), 0, 0, 0, 0);
    }

    /**
      * `startPlacementPhase`: a fresh record that keeps the difficulty, with
      * the opponent's fleet placed by the difficulty's routine.
      */
    method StartPlacementPhase(draws: seq<seq<Candidate>>, heur: Heuristics, hardDraws: seq<seq<HardDraw>>)
      requires |draws| == |Fleet| && forall t :: 0 <= t < |draws| ==> |draws[t]| == RandomAttempts
      requires |hardDraws| == |Fleet| && forall t :: 0 <= t < |hardDraws| ==> |hardDraws[t]| == HardAttempts
      modifies this
      ensures Valid()
      ensures state == NewRound(old(state).difficulty, AiFleet(old(state).difficulty, draws, heur, hardDraws))
    {
      var empty := CreateEmptyBoard();
      var level := state.difficulty;
      var aiBoard, aiShips;
      if level == Some(Hard) {
        aiBoard, aiShips := PlaceAllShipsHardMode(empty, heur, hardDraws);
      } else {
        aiBoard, aiShips := PlaceAllShips(empty, draws);
      }
      AiFleetOk(level, draws, heur, hardDraws);
      NewRoundOk(level, Side(aiBoard, aiShips));
      state := GameState(Side(empty, []), Side(aiBoard, aiShips), false, true, true, true, {}, level,
                         Tracking(false, [], []), 0, 0, 0, 0);
    }

    /** A difficulty button: record the level and start the placement phase. */
    method ChooseDifficulty(level: Level, draws: seq<seq<Candidate>>, heur: Heuristics, hardDraws: seq<seq<HardDraw>>)
      requires |draws| == |Fleet| && forall t :: 0 <= t < |draws| ==> |draws[t]| == RandomAttempts
      requires |hardDraws| == |Fleet| && forall t :: 0 <= t < |hardDraws| ==> |hardDraws[t]| == HardAttempts
      modifies this
      ensures Valid()
      ensures state == NewRound(Some(level), AiFleet(Some(level), draws, heur, hardDraws))
    {
      state := state.(difficulty := Some(level));
      StartPlacementPhase(draws, heur, hardDraws);
    }

    /** `startGameplay`. */
    method StartGameplay()
      requires Valid()
      modifies this
      ensures Valid() && state == Start(old(state))
    {
      StartOk(state);
      state := state.(placementPhase := false, gameActive := true);
    }

    /** `toggleOrientation`: only the orientation flips. */
    method ToggleOrientation()
      requires Valid()
      modifies this
      ensures Valid() && state == old(state).(horizontal := !old(state).horizontal)
    {
      state := state.(horizontal := !state.horizontal);
    }

    /** The drop handler of the placement grid, for a fleet ship not yet placed. */
    method DropShip(t: ShipTemplate, row: int, col: int) returns (placed: bool)
      requires Valid() && state.placementPhase && t in Fleet && t.name !in state.placedShips
      requires 0 <= row < GridSize && 0 <= col < GridSize
      modifies this
      ensures Valid() && (placed, state) == Drop(old(state), t, row, col)
    {
      DropOk(state, t, row, col);
      var horizontal := state.horizontal;
      placed := CanPlaceShip(state.player.board, row, col, t.size, horizontal);
      if placed {
        var board, ships := CommitShip(state.player.board, state.player.ships, t, row, col, horizontal);
        state := state.(player := Side(board, ships), placedShips := state.placedShips + {t.name});
      }
    }

    /**
      * `removeShip` for the ship the player clicked (index `k`): its squares
      * are cleared, it is looked up by name and spliced out of the list, and
      * its name leaves the placed names.
      */
    method RemoveShip(k: nat)
      requires Valid() && state.placementPhase && k < |state.player.ships|
      modifies this
      ensures Valid() && state == Remove(old(state), k)
    {
      RemoveOk(state, k);
      var board, ships := state.player.board, state.player.ships;
      var ship := ships[k];
      assert AllInBounds(ship.positions);
      FindClicked(ships, k);
      board := ClearSquares(board, ship.positions);
      var shipIndex := FindByName(ships, ship.name);
      if shipIndex != -1 {
        ships := ships[..shipIndex] + ships[shipIndex + 1..];
        board := Renumber(board, shipIndex);
      }
      state := state.(player := Side(board, ships), placedShips := state.placedShips - {ship.name});
    }

    /** `resetPlacement`. */
    method ResetPlacement()
      requires Valid() && state.placementPhase
      modifies this
      ensures Valid() && state == Reset(old(state))
    {
      ResetOk(state);
      var empty := CreateEmptyBoard();
      state := state.(player := Side(empty, []), placedShips := {}, horizontal := true);
    }

    /**
      * `randomPlaceAllPlayerShips`: clear every placed ship's squares, forget
      * the ships, then place the fleet in order with up to 100 samples each,
      * giving up at the first ship that finds no room.
      */
    method RandomPlaceAllPlayerShips(draws: seq<seq<Candidate>>)
      requires Valid() && state.placementPhase
      requires |draws| == |Fleet| && forall t :: 0 <= t < |draws| ==> |draws[t]| == RandomAttempts
      modifies this
      ensures Valid() && state == RandomPlaced(old(state), draws)
    {
      RandomPlacedOk(state, draws);
      var s := state;
      var board := ClearShips(s.player.board, s.player.ships);
      ClearedAllEmpty(s.player.board, s.player.ships);
      var ships: seq<Ship> := [];
      var names: set<string> := {};
      assert Fleet[0..] == Fleet && draws[0..] == draws;
      for t := 0 to |Fleet|
        invariant IsBoard(board) && names == NamesOf(ships)
        invariant PlaceFleet(board, ships, Fleet[t..], draws[t..], true) == PlaceFleet(EmptyBoard, [], Fleet, draws, true)
      {
        PlaceFleetStep(board, ships, draws, t);
        var i := FirstFit(board, Fleet[t].size, draws[t]);
        if i < RandomAttempts {
          var c := draws[t][i];
          NamesOfAppend(ships, Ship(Fleet[t].name, Fleet[t].size, 0, false, Segment(c.row, c.col, Fleet[t].size, c.horizontal)));
        }
        var placed;
        board, ships, placed := TryPlace(board, ships, Fleet[t], draws[t]);
        if !placed {
          state := s.(player := Side(board, ships), placedShips := names);
          return;
        }
        names := names + {Fleet[t].name};
      }
      assert Fleet[|Fleet|..] == [] && draws[|Fleet|..] == [];
      state := s.(player := Side(board, ships), placedShips := names);
    }

    /** `handlePlayerShot(row, col)`: the outcome of the shot, or `None` when it is rejected. */
    method HandlePlayerShot(row: int, col: int) returns (result: Option<Outcome>)
      requires Valid() && 0 <= row < GridSize && 0 <= col < GridSize
      modifies this
      ensures Valid() && (result, state) == PlayerTurn(old(state), Pos(row, col))
    {
      PlayerTurnOk(state, Pos(row, col));
      if !state.gameActive || !state.playerTurn {
        return None;
      }
      if Tried(state.ai.board[row][col]) {
        return None;
      }
      WfIndexed(state.ai.board, state.ai.ships);
      var (board', ships', outcome) := Fire(state.ai.board, state.ai.ships, Pos(row, col));
      var over := outcome.Sank? && AllSunk(ships');
      state := state.(ai := Side(board', ships'), playerTurn := false, gameActive := !over,
                      playerShotsTaken := state.playerShotsTaken + 1,
                      playerHits := state.playerHits + if outcome.Missed? then 0 else 1);
      return Some(outcome);
    }

    /** `handleAITurn`: the square fired at and the outcome, or `None` when no shot is fired. */
    method HandleAITurn(u: Unit) returns (shot: Option<(Pos, Outcome)>)
      requires Valid()
      modifies this
      ensures Valid() && (shot, state) == AiTurn(old(state), u)
    {
      AiTurnOk(state, u);
      var s';
      shot, s' := AiTurnStep(state, u);
      state := s';
    }
  }
}
