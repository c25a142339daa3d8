/**
  * The board side of the player's manual placement: clearing the squares of
  * placed ships (`removeShip`, `randomPlaceAllPlayerShips`), splicing a ship
  * out of the ship list, and the ship names the placement tray tracks.
  */
module Manual {
  import opened Wrappers
  import opened Grid
  import opened Analysis

  /** `b` with the ship reference dropped from every square listed in `ps`. */
  function Cleared(b: Board, ps: seq<Pos>): (b': Board)
    requires IsBoard(b)
    ensures IsBoard(b')
  {
    seq(GridSize, r requires 0 <= r < GridSize =>
      seq(GridSize, c requires 0 <= c < GridSize =>
        if Pos(r, c) in ps then b[r][c].(ship := None) else b[r][c]))
  }

  /** The `positions.forEach(pos => ... .ship = null)` loop of `removeShip` and `randomPlaceAllPlayerShips`. */
  method ClearSquares(board: Board, ps: seq<Pos>) returns (board': Board)
    requires IsBoard(board) && AllInBounds(ps)
    ensures board' == Cleared(board, ps)
  {
    board' := board;
    for i := 0 to |ps|
      invariant IsBoard(board')
      invariant forall r, c :: 0 <= r < GridSize && 0 <= c < GridSize ==>
                  board'[r][c] == if Pos(r, c) in ps[..i] then board[r][c].(ship := None) else board[r][c]
    {
      var p := ps[i];
      assert ps[..i + 1] == ps[..i] + [p];
      board' := SetCell(board', p, At(board', p).(ship := None));
    }
    assert ps[..|ps|] == ps;
    BoardsEqual(board', Cleared(board, ps));
  }

  /** Clearing two lists in turn clears their concatenation. */
  lemma ClearedTwice(b: Board, ps: seq<Pos>, qs: seq<Pos>)
    requires IsBoard(b)
    ensures Cleared(Cleared(b, ps), qs) == Cleared(b, ps + qs)
  {
    BoardsEqual(Cleared(Cleared(b, ps), qs), Cleared(b, ps + qs));
  }

  /** The squares of every ship of the list, ship by ship. */
  function AllPositions(ships: seq<Ship>): seq<Pos> {
    if ships == [] then [] else AllPositions(ships[..|ships| - 1]) + ships[|ships| - 1].positions
  }

  lemma {:induction false} InAllPositions(ships: seq<Ship>, k: nat, p: Pos)
    requires k < |ships| && p in ships[k].positions
    ensures p in AllPositions(ships)
  {
    if k < |ships| - 1 {
      InAllPositions(ships[..|ships| - 1], k, p);
    }
  }

  /**
    * Clearing the squares of every placed ship of a well-formed board nobody
    * fired at leaves the board `createEmptyBoard` builds.
    */
  lemma ClearedAllEmpty(b: Board, ships: seq<Ship>)
    requires Wf(b, ships) && NoShots(b)
    ensures Cleared(b, AllPositions(ships)) == EmptyBoard
  {
    var b' := Cleared(b, AllPositions(ships));
    forall r, c | 0 <= r < GridSize && 0 <= c < GridSize ensures b'[r][c] == EmptyCell {
      if b[r][c].ship.Some? {
        InAllPositions(ships, b[r][c].ship.value, Pos(r, c));
      }
    }
    BoardsEqual(b', EmptyBoard);
  }

  /** Clearing no square leaves the board as it was. */
  lemma ClearedNothing(b: Board)
    requires IsBoard(b)
    ensures Cleared(b, []) == b
  {
    BoardsEqual(Cleared(b, []), b);
  }

  /**
    * The `playerShips.forEach(ship => ...)` loop of `randomPlaceAllPlayerShips`:
    * the squares of every ship are cleared in turn.
    */
  method ClearShips(board: Board, ships: seq<Ship>) returns (board': Board)
    requires IsBoard(board) && forall k :: 0 <= k < |ships| ==> AllInBounds(ships[k].positions)
    ensures board' == Cleared(board, AllPositions(ships))
  {
    ClearedNothing(board);
    board' := board;
    for i := 0 to |ships|
      invariant board' == Cleared(board, AllPositions(ships[..i]))
    {
      assert ships[..i + 1][..i] == ships[..i];
      ClearedTwice(board, AllPositions(ships[..i]), ships[i].positions);
      board' := ClearSquares(board', ships[i].positions);
    }
    assert ships[..|ships|] == ships;
  }

  /** The ship references once ship `k` is spliced out of the list: later ships move down one index. */
  function Renumber(b: Board, k: nat): (b': Board)
    requires IsBoard(b)
    ensures IsBoard(b')
  {
    seq(GridSize, r requires 0 <= r < GridSize =>
      seq(GridSize, c requires 0 <= c < GridSize =>
        if b[r][c].ship.Some? && b[r][c].ship.value > k then b[r][c].(ship := Some(b[r][c].ship.value - 1))
        else b[r][c]))
  }

  /** One square after `removeShip`: its shot flags stay, and its ship reference is dropped or renumbered. */
  lemma RemovedCell(b: Board, ships: seq<Ship>, k: nat, r: int, c: int)
    requires IsBoard(b) && RefsValid(b, ships) && k < |ships| && 0 <= r < GridSize && 0 <= c < GridSize
    ensures var x := Renumber(Cleared(b, ships[k].positions), k)[r][c];
            x.hit == b[r][c].hit && x.miss == b[r][c].miss &&
            (Pos(r, c) in ships[k].positions ==> x.ship.None?) &&
            (Pos(r, c) !in ships[k].positions ==>
               (x.ship.Some? <==> b[r][c].ship.Some?) &&
               (b[r][c].ship.Some? ==>
                  b[r][c].ship.value != k &&
                  x.ship.value == if b[r][c].ship.value > k then b[r][c].ship.value - 1 else b[r][c].ship.value))
  {
    if b[r][c].ship.Some? && Pos(r, c) !in ships[k].positions {
      assert Pos(r, c) in ships[b[r][c].ship.value].positions;
    }
  }

  /** Splicing ship `k` out moves every later ship down one index. */
  lemma SplicedAt(ships: seq<Ship>, k: nat, j: nat)
    requires k < |ships| && j < |ships| && j != k
    ensures var j' := if j > k then j - 1 else j;
            j' < |ships| - 1 && (ships[..k] + ships[k + 1..])[j'] == ships[j]
  {
  }

  /**
    * `removeShip` on a placement board: the removed ship's squares become
    * free, every other square still refers to the same ship as before (at
    * its index in the shortened list), and shot flags do not change.
    */
  lemma RemoveShipFrame(b: Board, ships: seq<Ship>, k: nat)
    requires Wf(b, ships) && k < |ships|
    ensures forall p :: p in ships[k].positions ==>
              InBounds(p) && At(Renumber(Cleared(b, ships[k].positions), k), p).ship.None?
    ensures forall r, c :: 0 <= r < GridSize && 0 <= c < GridSize && Pos(r, c) !in ships[k].positions ==>
              var x := Renumber(Cleared(b, ships[k].positions), k)[r][c];
              x.hit == b[r][c].hit && x.miss == b[r][c].miss && (x.ship.Some? <==> b[r][c].ship.Some?) &&
              (b[r][c].ship.Some? ==>
                 x.ship.value < |ships| - 1 && (ships[..k] + ships[k + 1..])[x.ship.value] == ships[b[r][c].ship.value])
  {
    forall p | p in ships[k].positions
      ensures InBounds(p) && At(Renumber(Cleared(b, ships[k].positions), k), p).ship.None?
    {
      RemovedCell(b, ships, k, p.row, p.col);
    }
    forall r, c | 0 <= r < GridSize && 0 <= c < GridSize && Pos(r, c) !in ships[k].positions
      ensures var x := Renumber(Cleared(b, ships[k].positions), k)[r][c];
              x.hit == b[r][c].hit && x.miss == b[r][c].miss && (x.ship.Some? <==> b[r][c].ship.Some?) &&
              (b[r][c].ship.Some? ==>
                 x.ship.value < |ships| - 1 && (ships[..k] + ships[k + 1..])[x.ship.value] == ships[b[r][c].ship.value])
    {
      RemovedCell(b, ships, k, r, c);
      if b[r][c].ship.Some? {
        SplicedAt(ships, k, b[r][c].ship.value);
      }
    }
  }

  /** One square after `removeShip`: not fired at, and its reference names a ship listing it. */
  lemma RemovedRef(b: Board, ships: seq<Ship>, k: nat, r: int, c: int)
    requires IsBoard(b) && RefsValid(b, ships) && NoShots(b) && k < |ships|
    requires 0 <= r < GridSize && 0 <= c < GridSize
    ensures !Tried(Renumber(Cleared(b, ships[k].positions), k)[r][c])
    ensures CellOk(Renumber(Cleared(b, ships[k].positions), k)[r][c])
    ensures Renumber(Cleared(b, ships[k].positions), k)[r][c].ship.Some? ==>
              Renumber(Cleared(b, ships[k].positions), k)[r][c].ship.value < |ships| - 1 &&
              Pos(r, c) in (ships[..k] + ships[k + 1..])[Renumber(Cleared(b, ships[k].positions), k)[r][c].ship.value].positions
  {
    RemovedCell(b, ships, k, r, c);
    if b[r][c].ship.Some? && Pos(r, c) !in ships[k].positions {
      var j := b[r][c].ship.value;
      assert Pos(r, c) in ships[j].positions;
      SplicedAt(ships, k, j);
    }
  }

  /** After `removeShip` no square was fired at and every ship reference names a ship listing the square. */
  lemma RemoveShipRefs(b: Board, ships: seq<Ship>, k: nat)
    requires Wf(b, ships) && NoShots(b) && k < |ships|
    ensures NoShots(Renumber(Cleared(b, ships[k].positions), k))
    ensures ShotsConsistent(Renumber(Cleared(b, ships[k].positions), k))
    ensures RefsValid(Renumber(Cleared(b, ships[k].positions), k), ships[..k] + ships[k + 1..])
  {
    forall r, c | 0 <= r < GridSize && 0 <= c < GridSize
      ensures !Tried(Renumber(Cleared(b, ships[k].positions), k)[r][c])
      ensures CellOk(Renumber(Cleared(b, ships[k].positions), k)[r][c])
      ensures Renumber(Cleared(b, ships[k].positions), k)[r][c].ship.Some? ==>
                Renumber(Cleared(b, ships[k].positions), k)[r][c].ship.value < |ships| - 1 &&
                Pos(r, c) in (ships[..k] + ships[k + 1..])[Renumber(Cleared(b, ships[k].positions), k)[r][c].ship.value].positions
    {
      RemovedRef(b, ships, k, r, c);
    }
  }

  /** The squares of a ship other than the removed one refer to it at its new index. */
  lemma KeptShip(b: Board, ships: seq<Ship>, k: nat, i: nat)
    requires IsBoard(b) && RefsValid(b, ships) && k < |ships| && i < |ships| && i != k
    requires forall p :: p in ships[i].positions ==> InBounds(p) && b[p.row][p.col].ship == Some(i)
    requires forall p :: p in ships[k].positions ==> InBounds(p) && b[p.row][p.col].ship == Some(k)
    ensures forall p :: p in ships[i].positions ==>
              InBounds(p) && Renumber(Cleared(b, ships[k].positions), k)[p.row][p.col].ship == Some(if i > k then i - 1 else i)
  {
    forall p | p in ships[i].positions
      ensures InBounds(p) && Renumber(Cleared(b, ships[k].positions), k)[p.row][p.col].ship == Some(if i > k then i - 1 else i)
    {
      RemovedCell(b, ships, k, p.row, p.col);
    }
  }

  /** Ship `j` of the shortened list, seen on the board after `removeShip`. */
  lemma KeptLaid(b: Board, ships: seq<Ship>, k: nat, j: nat)
    requires IsBoard(b) && RefsValid(b, ships) && ShipsLaid(b, ships) && DamageTracked(b, ships) && NoShots(b)
    requires k < |ships| && j < |ships| - 1
    requires NoShots(Renumber(Cleared(b, ships[k].positions), k))
    ensures Laid((ships[..k] + ships[k + 1..])[j].positions, (ships[..k] + ships[k + 1..])[j].size)
    ensures forall p :: p in (ships[..k] + ships[k + 1..])[j].positions ==>
              InBounds(p) && Renumber(Cleared(b, ships[k].positions), k)[p.row][p.col].ship == Some(j)
    ensures (ships[..k] + ships[k + 1..])[j].hits ==
            HitCount(Renumber(Cleared(b, ships[k].positions), k), (ships[..k] + ships[k + 1..])[j].positions)
    ensures (ships[..k] + ships[k + 1..])[j].sunk <==>
            (ships[..k] + ships[k + 1..])[j].hits == (ships[..k] + ships[k + 1..])[j].size
  {
    var i := if j < k then j else j + 1;
    SplicedAt(ships, k, i);
    assert (ships[..k] + ships[k + 1..])[j] == ships[i];
    KeptShip(b, ships, k, i);
    HitCountNoShots(b, ships[i].positions);
    HitCountNoShots(Renumber(Cleared(b, ships[k].positions), k), ships[i].positions);
  }

  /** After `removeShip` every remaining ship is still laid on its squares, undamaged. */
  lemma RemoveShipLaid(b: Board, ships: seq<Ship>, k: nat)
    requires Wf(b, ships) && NoShots(b) && k < |ships|
    requires NoShots(Renumber(Cleared(b, ships[k].positions), k))
    ensures ShipsLaid(Renumber(Cleared(b, ships[k].positions), k), ships[..k] + ships[k + 1..])
    ensures DamageTracked(Renumber(Cleared(b, ships[k].positions), k), ships[..k] + ships[k + 1..])
  {
    forall j | 0 <= j < |ships| - 1
      ensures Laid((ships[..k] + ships[k + 1..])[j].positions, (ships[..k] + ships[k + 1..])[j].size)
      ensures forall p :: p in (ships[..k] + ships[k + 1..])[j].positions ==>
                InBounds(p) && Renumber(Cleared(b, ships[k].positions), k)[p.row][p.col].ship == Some(j)
      ensures (ships[..k] + ships[k + 1..])[j].hits ==
              HitCount(Renumber(Cleared(b, ships[k].positions), k), (ships[..k] + ships[k + 1..])[j].positions)
      ensures (ships[..k] + ships[k + 1..])[j].sunk <==>
              (ships[..k] + ships[k + 1..])[j].hits == (ships[..k] + ships[k + 1..])[j].size
    {
      KeptLaid(b, ships, k, j);
    }
  }

  /** Removing a ship from a placement board keeps the board well formed and free of shots. */
  lemma RemoveShipWf(b: Board, ships: seq<Ship>, k: nat)
    requires Wf(b, ships) && NoShots(b) && k < |ships|
    ensures Wf(Renumber(Cleared(b, ships[k].positions), k), ships[..k] + ships[k + 1..])
    ensures NoShots(Renumber(Cleared(b, ships[k].positions), k))
  {
    RemoveShipRefs(b, ships, k);
    RemoveShipLaid(b, ships, k);
  }

  // ---------------------------------------------------------------------------
  // Ship names: what `findIndex` and the `placedShips` set look at.
  // ---------------------------------------------------------------------------

  /** `findIndex(s => s.name === name)`: the first ship with that name, or -1. */
  function FindByName(ships: seq<Ship>, name: string): (i: int)
    ensures -1 <= i < |ships|
    ensures i >= 0 ==> ships[i].name == name && forall j :: 0 <= j < i ==> ships[j].name != name
    ensures i == -1 ==> forall j :: 0 <= j < |ships| ==> ships[j].name != name
  {
    if ships == [] then -1
    else if ships[0].name == name then 0
    else
      var i := FindByName(ships[1..], name);
      if i == -1 then -1 else i + 1
  }

  predicate NamesDistinct(ships: seq<Ship>) {
    forall i, j :: 0 <= i < j < |ships| ==> ships[i].name != ships[j].name
  }

  function NamesOf(ships: seq<Ship>): set<string> {
    set k | 0 <= k < |ships| :: ships[k].name
  }

  /** With distinct names, the lookup by the clicked ship's name finds that very ship. */
  lemma FindClicked(ships: seq<Ship>, k: nat)
    requires NamesDistinct(ships) && k < |ships|
    ensures FindByName(ships, ships[k].name) == k
  {
  }

  /** Splicing a ship out of a list with distinct names removes exactly its name. */
  lemma RemoveName(ships: seq<Ship>, k: nat)
    requires NamesDistinct(ships) && k < |ships|
    ensures NamesDistinct(ships[..k] + ships[k + 1..])
    ensures NamesOf(ships[..k] + ships[k + 1..]) == NamesOf(ships) - {ships[k].name}
  {
    var ships' := ships[..k] + ships[k + 1..];
    forall i, j | 0 <= i < j < |ships'| ensures ships'[i].name != ships'[j].name {
      SplicedAt(ships, k, if i < k then i else i + 1);
      SplicedAt(ships, k, if j < k then j else j + 1);
    }
    RemovedNames(ships, k);
  }

  lemma RemovedNames(ships: seq<Ship>, k: nat)
    requires NamesDistinct(ships) && k < |ships|
    ensures NamesOf(ships[..k] + ships[k + 1..]) == NamesOf(ships) - {ships[k].name}
  {
    var ships' := ships[..k] + ships[k + 1..];
    forall n | n in NamesOf(ships') ensures n in NamesOf(ships) - {ships[k].name} {
      var j :| 0 <= j < |ships'| && ships'[j].name == n;
      var j0 := if j < k then j else j + 1;
      SplicedAt(ships, k, j0);
    }
    forall n | n in NamesOf(ships) - {ships[k].name} ensures n in NamesOf(ships') {
      var j :| 0 <= j < |ships| && ships[j].name == n;
      SplicedAt(ships, k, j);
    }
  }

  /** Appending a ship adds its name to the names of the list. */
  lemma NamesOfAppend(ships: seq<Ship>, s: Ship)
    ensures NamesOf(ships + [s]) == NamesOf(ships) + {s.name}
  {
    var ships' := ships + [s];
    forall n | n in NamesOf(ships') ensures n in NamesOf(ships) + {s.name} {
      var j :| 0 <= j < |ships'| && ships'[j].name == n;
      if j < |ships| {
        assert ships'[j] == ships[j];
      }
    }
    forall n | n in NamesOf(ships) + {s.name} ensures n in NamesOf(ships') {
      if n == s.name {
        assert ships'[|ships|] == s;
      } else {
        var j :| 0 <= j < |ships| && ships[j].name == n;
        assert ships'[j] == ships[j];
      }
    }
  }

  /** Appending a ship whose name is not taken keeps the names distinct and adds that name. */
  lemma AddName(ships: seq<Ship>, s: Ship)
    requires NamesDistinct(ships) && s.name !in NamesOf(ships)
    ensures NamesDistinct(ships + [s])
    ensures NamesOf(ships + [s]) == NamesOf(ships) + {s.name}
  {
    var ships' := ships + [s];
    forall i, j | 0 <= i < j < |ships'| ensures ships'[i].name != ships'[j].name {
      if j == |ships| {
        assert ships[i].name in NamesOf(ships);
      }
    }
    NamesOfAppend(ships, s);
  }

  /** The five fleet templates have five different names. */
  lemma FleetNamesDistinct()
    ensures forall i, j :: 0 <= i < j < |Fleet| ==> Fleet[i].name != Fleet[j].name
  {
    assert Fleet[0].name[0] != Fleet[1].name[0] && Fleet[0].name[0] != Fleet[3].name[0] && Fleet[0].name[0] != Fleet[4].name[0];
    assert Fleet[0].name[1] != Fleet[2].name[1];
    assert Fleet[1].name[0] != Fleet[2].name[0] && Fleet[1].name[0] != Fleet[3].name[0] && Fleet[1].name[0] != Fleet[4].name[0];
    assert Fleet[2].name[0] != Fleet[3].name[0] && Fleet[2].name[0] != Fleet[4].name[0];
    assert Fleet[3].name[0] != Fleet[4].name[0];
  }
}
