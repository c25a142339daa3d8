# Battleship engine, modelled in Dafny

This project models the game engine of a single-page Battleship game
(`app.js`). A player and a computer opponent each own a 10x10 board. Each
board holds a fleet of five ships: Carrier 5, Battleship 4, Cruiser 3,
Submarine 3 and Destroyer 2.

The model covers:

- the board and the legality test `canPlaceShip`;
- the opponent's fleet placement, both random (`placeAllShips`) and heuristic (`placeAllShipsHardMode`);
- the player's manual placement: dropping, removing, resetting and random placement;
- shot resolution and win detection in `handlePlayerShot` and `handleAITurn`;
- the three targeting strategies:
  - easy: a random untried square;
  - medium: hunt and target, with a FIFO queue and checkerboard parity;
  - hard: a probability-density score grid;
- the session flags set by `startPlacementPhase` and `startGameplay`.

Modules, one concept each:

- `Grid` (board.dfy): cells, ships, segments, `canPlaceShip`, and the board invariant `Wf`. `Wf` means every ship reference names a ship that lists the square; every ship is laid on `size` contiguous on-board squares; hit and miss are never both set; and each ship's `hits` counts its hit squares, with `sunk` exactly when `hits == size`. It also holds the shot and hit tallies.
- `Placement` (placement.dfy): committing a ship, the 100-attempt sampling loop, and `placeAllShips`.
- `HardPlacement` (hard_placement.dfy): the heuristic score, the 200-attempt best-score loop with early accept, and the quadrant counters.
- `Shooting` (shots.dfy): the effect of one shot on a board and its ship list.
- `Analysis` (analysis.dfy): `findUnresolvedHits`, `findAlignedHitLines`, `isValidPlacementForProbabilityWithInfo` and `checkAllShipsSunk`.
- `Targeting` (targeting.dfy): easy mode and the checkerboard hunt.
- `Queue` (queue.dfy): `addTargetIfValid`, `addAdjacentTargets`, `rebuildTargetQueue` and the shift loop.
- `Probability` (probability.dfy): `getHardModeProbabilityTarget`. The score grid is built in place in a two-dimensional array and specified by functions on values.
- `MediumMode` (medium.dfy): `getMediumModeTarget` and the medium bookkeeping after a hit.
- `Manual` (manual.dfy): clearing squares, `removeShip`'s splice and renumbering, and the placed-ship names.
- `Engine` (game.dfy): the `gameState` record, each handler as a function from the old record to the new one, and the class `Game`, whose methods carry the handlers out.

A cell refers to its ship by its index in the board's ship list, not by an object reference. Every use of `Math.random` becomes an input:

- the sampled `(row, col, horizontal)` candidates of each placement attempt;
- the four heuristic switches of the hard placement, and each attempt's jitter and early-accept coin;
- a real `u` in [0, 1) for each random pick, which selects index `floor(u * n)`.

## Model

| member | source | states |
|---|---|---|
| `Grid.CreateEmptyBoard` | app.js:1134-1147 | builds ten rows of ten squares, each with no ship, no hit and no miss |
| `Grid.EmptyBoardWf` | app.js:1134-1147 | a fresh board with an empty ship list satisfies the board invariant and has no shot on it |
| `Grid.OnSegmentIff` | app.js:1363-1365 | a square is covered by a ship laid from (row, col) exactly when it lies on that row (column) within `size` squares of the start |
| `Grid.SegmentFreeIff` | app.js:1362-1369 | the occupancy scan from the i-th covered square succeeds exactly when none of the covered squares from there on holds a ship |
| `Grid.CanPlaceShip` | app.js:1354-1372 | true exactly when the ship ends on the board and no square it would cover holds a ship |
| `Grid.LaidInBounds` | app.js:946-951 | every square of a laid ship is on the board |
| `Grid.LaidDistinct` | app.js:946-951 | the squares of a laid ship are pairwise distinct |
| `Grid.NoOverlap` | app.js:1362-1369 | on a well-formed board no square belongs to two ships |
| `Grid.ShotCounts` | app.js:1493-1500 | firing at an untried square adds one to the shots fired at the board, and one to its hits exactly when the square becomes a hit |
| `Grid.HitsAtMostShots` | app.js:1494-1500 | on any board the squares hit are at most the squares fired at |
| `Grid.NoShotsCounts` | app.js:212-215 | a board nobody fired at counts zero shots and zero hits, matching the counters' initial zeros |
| `Placement.Stamp` | app.js:1173-1177 | the board once every square of the segment refers to ship k (`PlaceShip` passes the new ship's index); every other square is unchanged |
| `Placement.PlaceShip` | app.js:1163-1180 | one commit: the segment's squares refer to the new ship, which joins the end of the list with the template's name and size, no hits, not sunk, and the segment as its positions |
| `Placement.StampFrame` | app.js:1172-1178 | laying a ship where `canPlaceShip` allows changes no hit or miss flag and no square that already held a ship |
| `Placement.StampRefs` | app.js:1172-1180 | after a ship is laid and appended, every ship reference still names a ship that lists the square |
| `Placement.StampLaid` | app.js:1172-1180 | after a legal placement every ship, the new one included, lies on its contiguous on-board squares, and each of them refers back to it |
| `Placement.StampDamage` | app.js:1164-1170 | a new ship starts with no hits and not sunk, so the damage bookkeeping stays exact and no shot appears |
| `Placement.PlaceShipWf` | app.js:1163-1181 | a legal placement keeps the board invariant; only squares of the new ship change; the list gains exactly one unhit, unsunk ship of the template's name and size on the covered squares |
| `Placement.CommitShip` | app.js:1172-1180 | the square-by-square commit loop produces exactly that placement |
| `Placement.FirstFit` | app.js:1158-1163 | the attempt chosen is the first sampled candidate `canPlaceShip` accepts: every earlier one is rejected |
| `Placement.TryPlace` | app.js:1153-1184 | the attempt loop commits the first fitting candidate of its 100 samples, and leaves board and list alone when none fits |
| `Placement.PlaceFleetWf` | app.js:1150-1188 | whatever the samples, placing the fleet keeps the board invariant and leaves every earlier square as it was, with no shots |
| `Placement.PlaceFleetDrawn` | app.js:1150-1188 | the result extends the ship list; each new ship is made from its own template, in fleet order, at one of that template's sampled candidates |
| `Placement.DrawnFromLength` | app.js:1153-1185 | at most one ship is placed per template |
| `Placement.PlaceFleet` | app.js:1150-1188 | for each template in fleet order, commits the first sampled candidate `canPlaceShip` accepts; a template none fits is skipped (`placeAllShips`) or ends the placement (`randomPlaceAllPlayerShips`, lines 1109-1112) |
| `Placement.PlaceAllShips` | app.js:1150-1188 | the loops lay the fleet as the sampling model says, skipping a template whose 100 attempts all fail |
| `HardPlacement.Quadrant` | app.js:1269-1271 | the quadrant of a ship's middle square is one of the four indices of `quadrantCounts` |
| `HardPlacement.EdgeDistance` | app.js:1230-1230 | the smallest of the four distances from a square to the board's edges |
| `HardPlacement.InteriorScore` | app.js:1222-1232 | the sum of the edge distances of the candidate's squares |
| `HardPlacement.Round` | app.js:1289-1290 | `Math.round`: the floor of x + 0.5, so halves round up |
| `HardPlacement.Mirror` | app.js:1281-1290 | a coordinate reflected through the board's centre 4.5 and rounded |
| `HardPlacement.MirrorExact` | app.js:1281-1290 | on integer coordinates `Math.round(2 * 4.5 - x)` is exactly `9 - x`, and mirroring twice gives `x` back |
| `HardPlacement.PlacementScore` | app.js:1218-1303 | the jitter, plus twice the interior score (interior heuristic), plus 15 or minus 10 with and without a parallel neighbour (parallel heuristic, once a ship is placed), minus 5 per ship in the quadrant (quadrant heuristic), plus 10 or minus 15 without and with a mirrored ship (symmetry heuristic, once a ship is placed) |
| `HardPlacement.Select` | app.js:1211-1318 | the attempt loop: a draw `canPlaceShip` rejects is skipped; a fitting draw scoring above 20 with its coin up is taken at once; otherwise it becomes the best when it scores strictly more, the first fitting draw always; the result is the best draw, none when nothing fitted |
| `HardPlacement.SelectFits` | app.js:1211-1318 | the attempt loop yields a placement exactly when some sample fits; any placement it yields is one of the fitting samples |
| `HardPlacement.SelectPlaceable` | app.js:1216-1216 | the attempt loop never yields a placement that `canPlaceShip` rejects |
| `HardPlacement.SelectBest` | app.js:1305-1315 | without an early accept the placement chosen scores at least as high as every fitting sample |
| `HardPlacement.HardStep` | app.js:1320-1347 | commits the chosen draw as `PlaceShip` does and, with the quadrant heuristic on, adds one to its quadrant's counter; nothing changes when no draw was chosen |
| `HardPlacement.PlaceFleetHard` | app.js:1204-1348 | `HardStep` for each template in fleet order, carrying the board, the ship list and the four quadrant counters from one to the next |
| `HardPlacement.HardStepWf` | app.js:1320-1347 | committing the chosen placement keeps the board invariant, changes only the new ship's squares, and adds no shot |
| `HardPlacement.PlaceFleetHardWf` | app.js:1191-1351 | the whole hard-mode placement keeps the board invariant and adds no shot |
| `HardPlacement.HardStepDrawn` | app.js:1320-1347 | one pass appends nothing, or one ship made from the template at one of its sampled candidates |
| `HardPlacement.PlaceFleetHardDrawn` | app.js:1204-1348 | the fleet loop places at most one ship per template, in order, each at a sampled candidate |
| `HardPlacement.PlaceFleetHardCounts` | app.js:1337-1343 | with quadrant spreading on, the quadrant counters grow by one per committed ship; with it off they never change |
| `HardPlacement.ChooseSpot` | app.js:1205-1318 | the attempt loop computes the best-score selection, starting from no placement (the source's minus infinity) |
| `HardPlacement.PlaceOneHard` | app.js:1204-1348 | one pass of the fleet loop leaves board, list and the quadrant array as the step function says |
| `HardPlacement.PlaceAllShipsHardMode` | app.js:1191-1351 | the fleet loop with its four-element counter array lays the fleet as the hard-mode model says |
| `Shooting.Fire` | app.js:1496-1522 | a shot at an empty square sets its miss flag and reports a miss; at a ship's square it sets the hit flag, adds one to that ship's hits, sets `sunk` when the hits reach the size, and reports a sink then and a hit otherwise |
| `Shooting.FireIndexed` | app.js:1496-1504 | a shot changes no ship reference and no list length |
| `Shooting.FireTried` | app.js:1496-1522 | the square shot at is hit or missed afterwards |
| `Shooting.FireMissWf` | app.js:1518-1522 | a miss keeps the board invariant |
| `Shooting.FireHitWf` | app.js:1496-1504 | a hit adds one hit to the ship on the square and none to any other ship, and sets `sunk` exactly when its hits reach its size |
| `Shooting.FireWf` | app.js:1496-1522 | a shot at an untried square keeps the board invariant |
| `Shooting.FireEffect` | app.js:1496-1522 | the shot misses exactly on an empty square; a hit marks hit and not miss, a miss marks miss and not hit; the square keeps its ship reference; the ship hit gains exactly one hit and is sunk once its hits reach its size (or was already); no other square or ship changes; `Sank` reports exactly the ship that just sank; shots grow by one and hits by one on a hit |
| `Shooting.WinOnlyOnSink` | app.js:1503-1514 | a shot that sinks nothing cannot leave a fleet that had a ship afloat fully sunk |
| `Analysis.FindUnresolvedHits` | app.js:1914-1926 | lists every hit square of a ship still afloat, with its ship, in row-major order, and nothing else |
| `Analysis.NoUnresolvedHits` | app.js:1914-1926 | the scan is empty exactly when no hit square of a ship afloat remains |
| `Analysis.Extensions` | app.js:1967-1974 | the endpoints are the squares just beyond the least and greatest hit, kept only when on the board; none only when the run spans the line |
| `Analysis.HitsOn` | app.js:1933-1939 | a ship's group holds exactly the hits on that ship |
| `Analysis.ShipsInOrder` | app.js:1933-1942 | lists exactly the ships hit, each once |
| `Analysis.ShipsInOrderFirstHit` | app.js:1933-1942 | one ship is listed before another exactly when its first hit comes first, the insertion order of the `hitsByShip` map |
| `Analysis.RowEndpoints` | app.js:1951-1974 | each endpoint of hits along a row is on the board, next to a hit of the group, and not one of its hits |
| `Analysis.ColEndpoints` | app.js:1985-2008 | each endpoint of hits along a column is on the board, next to a hit of the group, and not one of its hits |
| `Analysis.LineFor` | app.js:1942-2019 | one ship's line: none with fewer than two hits; when all hits share a row, a horizontal line whose endpoints are the on-board squares just beyond the least and greatest column; else, when all share a column, the vertical one likewise; none when no endpoint is on the board or the hits are not aligned |
| `Analysis.FindAlignedHitLines` | app.js:1929-2023 | the lines of the ships hit, taken in the order of their first hits, keeping only the ships whose hits form a line |
| `Analysis.LineForSound` | app.js:1942-2019 | a ship's reported line has two or more of its hits on one row or column, and sound endpoints |
| `Analysis.AlignedLinesSound` | app.js:1929-2023 | every line `findAlignedHitLines` reports is sound |
| `Analysis.AlignedLinesDistinct` | app.js:1933-1942 | at most one line is reported per ship |
| `Analysis.AlignedLinesComplete` | app.js:1942-2019 | every ship whose hits form a line with an on-board endpoint has that line reported |
| `Analysis.HitsAlong` | app.js:1890-1896 | the unresolved hits among the placement's squares, in the placement's order, each with its ship |
| `Analysis.ProbePlacement` | app.js:1866-1911 | an invalid placement reports no hits; `includesHits` holds exactly when `hitCount` is positive |
| `Analysis.ProbeCount` | app.js:1889-1907 | a valid placement's `hitCount` is the number of unresolved-hit squares it covers |
| `Analysis.ProbeValid` | app.js:1873-1909 | a placement is valid exactly when it covers no miss and no hit on a sunk ship, and its unresolved hits all belong to one ship |
| `Analysis.AllSunkIffAllHit` | app.js:1621-1623 | on a well-formed board `checkAllShipsSunk` holds exactly when every square of every ship was hit |
| `Analysis.AllSunk` | app.js:1621-1623 | `checkAllShipsSunk`: every ship of the list is sunk, so an empty list counts as all sunk, as `every` does |
| `Targeting.Pick` | app.js:1638-1638 | `Math.floor(Math.random() * n)` is an index into a non-empty list of n choices |
| `Targeting.Untried` | app.js:1627-1635 | the scan: the untried squares of the first r rows in row-major order; the full scan takes r = 10 |
| `Targeting.EasyTarget` | app.js:1626-1639 | none when the scan is empty, otherwise the scanned square at index floor(u * n) |
| `Targeting.UntriedAll` | app.js:1627-1635 | the scan lists exactly the on-board squares with neither hit nor miss |
| `Targeting.EasyTargetSound` | app.js:1626-1639 | easy mode never picks a tried square, and returns nothing exactly when all 100 squares are tried |
| `Targeting.GetEasyModeTarget` | app.js:1626-1639 | the nested scan and pick compute the easy-mode choice |
| `Targeting.Priority` | app.js:1688-1689 | 1 for a square whose row plus column is even, 0 otherwise |
| `Targeting.Rank` | app.js:1682-1692 | each scanned untried square paired with its priority, in scan order |
| `Targeting.MaxPriority` | app.js:1697-1700 | the priority heading the descending sort is the greatest priority present |
| `Targeting.TopGroupEven` | app.js:1696-1700 | while an untried even square exists, the high-priority group holds even squares only |
| `Targeting.TopGroup` | app.js:1696-1700 | the squares of the highest priority present, in scan order, which is the first group after the stable descending sort |
| `Targeting.HuntTarget` | app.js:1681-1701 | none when no square is untried, otherwise the square at index floor(u * n) of the top group |
| `Targeting.HuntTargetNone` | app.js:1694-1694 | the hunt gives up exactly when every square is tried |
| `Targeting.HuntTargetUntried` | app.js:1682-1701 | the hunt never picks a tried square |
| `Targeting.HuntTargetEven` | app.js:1682-1701 | while an untried square with even `row + col` exists, the hunt picks an even square |
| `Targeting.GetHuntTarget` | app.js:1682-1701 | the scan with priorities computes the hunt choice |
| `Queue.AddTarget` | app.js:2089-2100 | appends the square when it is on the board, untried and not queued yet; otherwise the queue is unchanged |
| `Queue.AddAll` | app.js:2049-2069 | `AddTarget` applied to each square of a list in turn |
| `Queue.Neighbours` | app.js:2103-2108 | the four squares tried are each one step from the hit |
| `Queue.AddAdjacent` | app.js:2103-2108 | `AddTarget` applied to the squares above, below, left and right, in that order |
| `Queue.AddAdjacentAll` | app.js:2072-2080 | `AddAdjacent` applied around each hit in turn |
| `Queue.Rebuilt` | app.js:2026-2086 | the queue rebuilt from empty: with two or more hits, when the first hit's ship has two or more hits on one row (else one column), the on-board squares just beyond them; otherwise the neighbours of every hit; with one hit its neighbours; with none an empty queue |
| `Queue.PopUntried` | app.js:1656-1662 | the shift loop returns an untried queued square, or nothing exactly when every queued square is tried; what remains is the queue after it |
| `Queue.AddTargetOk` | app.js:2089-2100 | `addTargetIfValid` appends only the given square, only when on the board and untried, and keeps the queue duplicate-free |
| `Queue.AddAllOk` | app.js:2048-2068 | adding a list of squares keeps the queue duplicate-free and on the board, and appends only untried on-board squares of the list |
| `Queue.AddAllCovers` | app.js:2048-2068 | afterwards every earlier entry and every untried on-board square of the list is queued |
| `Queue.AddAdjacentCovers` | app.js:2103-2108 | afterwards every untried on-board neighbour of the square is queued and nothing queued is lost |
| `Queue.AddAdjacentOk` | app.js:2103-2108 | `addAdjacentTargets` keeps the queue invariant and appends only untried on-board neighbours |
| `Queue.AddAdjacentAllOk` | app.js:2071-2080 | the neighbours of every hit keep the queue invariant and append only untried squares next to some hit |
| `Queue.RebuiltAligned` | app.js:2030-2069 | when the first hit's ship has aligned hits, the rebuilt queue is duplicate-free and holds untried squares next to a hit |
| `Queue.RebuiltAdjacent` | app.js:2070-2084 | the adjacency fallback rebuilds a duplicate-free queue of untried squares next to a hit |
| `Queue.RebuiltOk` | app.js:2026-2086 | `rebuildTargetQueue` always yields a duplicate-free, on-board queue of untried squares each next to an unresolved hit |
| `Queue.SingleHitNeighbours` | app.js:2082-2108 | after a single hit at (5,5) on a fresh board the queue is exactly (4,5), (6,5), (5,4), (5,6) |
| `Probability.ZeroScores` | app.js:1716-1716 | the score grid starts at zero on every square |
| `Probability.AddAlong` | app.js:1743-1748 | a placement's weight is added to exactly the squares it covers |
| `Probability.PlacementWeight` | app.js:1726-1777 | the weight of one placement: 0 when it leaves the board or the probe finds it invalid; 1 when no hit is unresolved; 100 times the hits it covers when some are unresolved, 0 when it covers none |
| `Probability.Consider` | app.js:1725-1777 | from one first square, the horizontal placement's weight is added along it when positive, then the vertical one's |
| `Probability.DensityFrom` | app.js:1719-1780 | the density loops: `Consider` on every first square, row by row and column by column, for each remaining ship size in turn |
| `Probability.WeightMeaning` | app.js:1726-1777 | a placement weighs nothing unless it fits and covers no miss and no hit on a sunk ship; a valid one weighs 1 with no unresolved hits, else 100 times the hits it covers |
| `Probability.RemainingSizes` | app.js:1707-1709 | the remaining fleet is empty exactly when every ship is sunk |
| `Probability.BoostCells` | app.js:1787-1795 | the amount added to each listed square that is on the board and untried |
| `Probability.BoostLines` | app.js:1783-1798 | 10000 added to the untried on-board endpoints of each aligned line |
| `Probability.BoostAdjacent` | app.js:1801-1821 | 500 added to the untried on-board neighbours of each unresolved hit |
| `Probability.ScoreMap` | app.js:1712-1821 | the score grid: the density of the remaining ships from all zeros, weighted by whether hits are unresolved; then the line bonus when two or more hits are unresolved; then the adjacency bonus when any is |
| `Probability.SelectFrom` | app.js:1823-1844 | the row-major scan of the untried squares from a best score of 0: a higher score restarts the best list with its square, an equal positive score joins it |
| `Probability.FirstFrom` | app.js:1853-1860 | the first untried square in row-major order from (r, c) on, or none |
| `Probability.Choose` | app.js:1846-1862 | the best square at index floor(u * n) when the best list is non-empty, otherwise the first untried square |
| `Probability.HardTarget` | app.js:1705-1863 | none when every ship is sunk, otherwise `Choose` on the score grid |
| `Probability.DensityGrows` | app.js:1719-1780 | the density pass only adds to scores, and never to a miss or a square of a sunk ship |
| `Probability.BoostCellsGrows` | app.js:1785-1797 | a bonus loop only adds, and every listed untried on-board square gains the bonus |
| `Probability.BoostLinesGrows` | app.js:1783-1798 | every untried on-board endpoint of an aligned line gains at least 10000 |
| `Probability.BoostAdjacentGrows` | app.js:1801-1821 | every untried on-board neighbour of an unresolved hit gains at least 500 |
| `Probability.ScoreMapNonNegative` | app.js:1716-1821 | no square of the finished score grid is negative |
| `Probability.ScoreMapAdjacent` | app.js:1801-1821 | an untried neighbour of an unresolved hit scores at least 500 |
| `Probability.ScoreMapEndpoint` | app.js:1783-1798 | with two or more unresolved hits, an untried endpoint of an aligned line scores at least 10000 |
| `Probability.DensitySkipsBlocked` | app.js:1880-1887 | a miss or a square of a sunk ship gets no placement weight |
| `Probability.SelectAll` | app.js:1823-1844 | the best list holds exactly the untried squares of the top positive score, and no untried square scores higher |
| `Probability.FirstFromSound` | app.js:1853-1860 | the fallback scan returns an untried square, and nothing only when every square is tried |
| `Probability.ChooseSound` | app.js:1846-1862 | on a non-negative grid the choice is an untried square of maximal score; nothing exactly when all squares are tried |
| `Probability.HardTargetBest` | app.js:1705-1863 | hard mode never picks a tried square, and picks one of the highest score among the untried squares |
| `Probability.HardTargetNone` | app.js:1707-1709 | hard mode gives up exactly when every ship is sunk or every square is tried |
| `Probability.HardTargetFinishesShips` | app.js:1800-1849 | while an unresolved hit has an untried neighbour, hard mode fires at a square scoring at least the adjacency bonus |
| `Probability.BumpSquare` | app.js:1746-1746 | one `scoreMap[r][c] += w` adds w to that square alone |
| `Probability.AddPlacement` | app.js:1743-1748 | the weight loop adds the weight along the placement |
| `Probability.BoostSquares` | app.js:1787-1795 | the bonus loop adds the bonus to each listed untried on-board square |
| `Probability.Place` | app.js:1726-1749 | one orientation of one first square adds its weight when positive and nothing otherwise |
| `Probability.ConsiderSquare` | app.js:1725-1777 | both orientations from one first square, horizontal first |
| `Probability.DensityRow` | app.js:1724-1779 | the column loop for one row and one ship size advances the density pass by one row |
| `Probability.DensityShip` | app.js:1723-1779 | the row loop for one ship size advances the density pass by one ship |
| `Probability.Density` | app.js:1716-1780 | the density loops fill a fresh array with the density grid of the remaining ships |
| `Probability.BoostLineEndpoints` | app.js:1783-1798 | the line-bonus loop applies the line bonus of every aligned line |
| `Probability.BoostHitNeighbours` | app.js:1801-1821 | the adjacency loop applies the bonus around every unresolved hit |
| `Probability.SelectBest` | app.js:1823-1844 | the selection loops compute the best score and the squares reaching it |
| `Probability.FirstUntried` | app.js:1853-1860 | the fallback loop finds the first untried square in row-major order |
| `Probability.GetHardModeProbabilityTarget` | app.js:1705-1863 | the in-place score grid and selection compute the hard-mode choice |
| `MediumMode.MediumTarget` | app.js:1642-1702 | `MediumPick` with the unresolved hits of the board |
| `MediumMode.MediumPick` | app.js:1647-1701 | without unresolved hits, the hunt choice with the queue unchanged; with them, the first untried square shifted off the queue (rebuilt first when empty), else off a freshly rebuilt queue, else the hunt choice, with what is left of the queue |
| `MediumMode.MediumStep` | app.js:1642-1702 | the medium choice, with target mode on exactly when hits are unresolved, and the hit sequence emptied when none is |
| `MediumMode.MediumStepOk` | app.js:1642-1702 | the medium step picks an untried square, nothing exactly on a full board, and keeps the tracking valid |
| `MediumMode.PopUntriedOk` | app.js:1656-1662 | what the shift loop leaves of a valid queue is still duplicate-free and on the board |
| `MediumMode.HuntSound` | app.js:1681-1701 | the hunt fallback picks an untried square, and nothing exactly when the board is full |
| `MediumMode.PickSound` | app.js:1644-1701 | once the unresolved hits are known, the medium choice is untried, nothing only on a full board, and the queue stays valid |
| `MediumMode.MediumTargetSound` | app.js:1642-1702 | medium mode never picks a tried square, gives up exactly when every square is tried, and keeps the queue valid |
| `MediumMode.MediumQueueFirst` | app.js:1647-1662 | with unresolved hits and an untried queued square, the choice comes from the queue |
| `MediumMode.MediumRebuiltNext` | app.js:1664-1674 | with a stale queue and an untried square in the rebuilt queue, the choice is next to an unresolved hit |
| `MediumMode.MediumHunts` | app.js:1675-1701 | without unresolved hits, medium mode hunts and leaves the queue alone |
| `MediumMode.MediumHuntEven` | app.js:1682-1701 | without unresolved hits and with an untried even square, medium mode picks an even square |
| `MediumMode.ShiftUntried` | app.js:1656-1662 | the `shift` loop computes the queue pop |
| `MediumMode.GetMediumModeTarget` | app.js:1642-1702 | the queue loops compute the medium step, with target mode and hit sequence updated as the step says |
| `MediumMode.Afloat` | app.js:1584-1587 | the filtered hit sequence keeps exactly the hits whose ship is still afloat |
| `MediumMode.AfterHit` | app.js:1557-1590 | after a hit at p: target mode on, p appended to the hit sequence, its neighbours queued; after a sink, everything is reset when no hit is unresolved, otherwise the hit sequence keeps the hits on ships afloat and the queue is rebuilt |
| `MediumMode.AfterHitOk` | app.js:1556-1590 | the bookkeeping after a hit keeps the queue duplicate-free and on the board, and the hit sequence on the board |
| `MediumMode.AfterHitTracks` | app.js:1557-1564 | a hit that sinks nothing turns target mode on, appends the square to the hit sequence, loses no queued square and queues every untried neighbour |
| `MediumMode.AfterSinkTracks` | app.js:1572-1590 | after a sink, target mode stays on exactly while unresolved hits remain; otherwise queue and hit sequence are emptied; the kept hits are on ships afloat |
| `Manual.Cleared` | app.js:990-992 | the board with the ship reference dropped from every listed square and no other change |
| `Manual.ClearSquares` | app.js:990-992 | the loop drops the ship reference from each listed square |
| `Manual.AllPositions` | app.js:1063-1067 | the squares of every ship of the list, ship by ship |
| `Manual.ClearedAllEmpty` | app.js:1063-1068 | clearing every ship's squares from a board with no shots gives back the empty board |
| `Manual.ClearShips` | app.js:1063-1067 | the nested loop clears the squares of every ship |
| `Manual.Renumber` | app.js:994-998 | the references after `splice`: every reference to a ship past index k moves down by one |
| `Manual.RemovedCell` | app.js:988-998 | after `removeShip` a square keeps its shot flags; it loses its reference if it belonged to the ship, else keeps it, renumbered past the splice |
| `Manual.RemoveShipFrame` | app.js:988-998 | the removed ship's squares become empty; every other square still refers to the same ship in the shortened list |
| `Manual.RemoveShipWf` | app.js:988-1001 | removing a placed ship keeps the board invariant and leaves no shot |
| `Manual.FindByName` | app.js:995-995 | `findIndex` returns the first ship with that name, or -1 exactly when none has it |
| `Manual.FindClicked` | app.js:995-998 | with distinct names the lookup by the clicked ship's name finds that very ship |
| `Manual.RemoveName` | app.js:995-1001 | splicing the ship out keeps names distinct and removes exactly its name from the placed set |
| `Manual.AddName` | app.js:853-856 | appending a ship whose name is not taken keeps names distinct and adds that name |
| `Manual.NamesOf` | app.js:1101-1103 | the names of the ships of the list, the `placedShips` set after random placement |
| `Manual.FleetNamesDistinct` | app.js:160-166 | the five fleet templates have five different names |
| `Engine.FleetNames` | app.js:160-166 | the names of the first n templates of `SHIPS` |
| `Engine.EmptySideOk` | app.js:278-282 | a fresh board with no ships is a valid side with zero counters and no shot |
| `Engine.FireSideOk` | app.js:1493-1522 | a shot at an untried square keeps a side valid and moves its counters by the outcome |
| `Engine.InitialOk` | app.js:197-216 | the initial record satisfies the state invariant |
| `Engine.AiFleet` | app.js:299-304 | the opponent's fleet on an empty board: by `PlaceFleetHard` from four zero counters when the difficulty is hard, by `PlaceFleet` skipping failed templates otherwise |
| `Engine.AiFleetOk` | app.js:299-304 | whatever the samples and difficulty, the opponent's fleet is well formed and unshot |
| `Engine.NewRound` | app.js:277-297 | the fresh record: an empty player board and fleet, the given opponent side, play closed, the player's turn, placement open, horizontal, no placed names, the kept difficulty, no tracking and zero counters |
| `Engine.NewRoundOk` | app.js:277-304 | the fresh placement-phase record satisfies the state invariant |
| `Engine.Drop` | app.js:844-856 | when `canPlaceShip` allows the ship at the drop square in the current orientation, `PlaceShip` on the player's side and the name added to the placed names; otherwise no change |
| `Engine.DropOk` | app.js:844-858 | a drop keeps the state invariant; when legal it appends a ship with the dragged name and records the name as placed |
| `Engine.Remove` | app.js:988-1001 | the ship's squares cleared, the ship spliced out with later references renumbered, and its name dropped from the placed names |
| `Engine.RemoveOk` | app.js:988-1001 | removing a placed ship keeps the state invariant, shortens the list by one and frees its name |
| `Engine.Reset` | app.js:1029-1043 | an empty board, no ships, no placed names, horizontal orientation; the rest of the record unchanged |
| `Engine.ResetOk` | app.js:1023-1043 | resetting the placement keeps the state invariant and empties the player's fleet |
| `Engine.RandomPlaced` | app.js:1061-1113 | the player's side replaced by `PlaceFleet` on an empty board, stopping at the first template that finds no room, and the placed names set to the names of the ships laid |
| `Engine.PlaceFleetStep` | app.js:1072-1112 | from each template, random placement lays it at its first fitting sample and goes on, or stops the whole placement when none fits |
| `Engine.RandomPlacedFrom` | app.js:1072-1112 | the ships random placement lays from any template on carry distinct fleet names |
| `Engine.RandomPlacedOk` | app.js:1061-1113 | random placement keeps the state invariant; the placed names are distinct fleet names |
| `Engine.Start` | app.js:353-354 | placement closed and play opened; nothing else changes |
| `Engine.StartOk` | app.js:344-354 | starting play keeps the state invariant, opens play and closes placement |
| `Engine.PlayerShot` | app.js:1493-1522 | the accepted shot: `Fire` on the opponent's side, the turn taken from the player, one more shot and, on a hit, one more hit; play closes when the shot sank the last ship afloat |
| `Engine.PlayerTurn` | app.js:1473-1529 | no outcome and no change when play is closed, it is not the player's turn, or the square was tried; otherwise `PlayerShot` and its outcome |
| `Engine.PlayerTurnOk` | app.js:1473-1529 | a shot is rejected, with no change at all, exactly when the game is over, it is not the player's turn or the square was tried; otherwise the turn passes, the square is tried, the player's side is unchanged and the counters move by the outcome |
| `Engine.PlayerShotSide` | app.js:1493-1522 | the opponent's side stays valid under the player's shot and the player's hit counter tracks its hits |
| `Engine.PlayerShotEnds` | app.js:1503-1514 | while the opponent has a ship afloat, the player's shot ends the game exactly when it sinks the last one |
| `Engine.HitsWithinShots` | app.js:1493-1500 | in every valid record each side's hits are at most its shots |
| `Engine.AiTarget` | app.js:1535-1543 | hard mode's `HardTarget`, medium mode's `MediumStep`, and otherwise easy mode's `EasyTarget`, with the tracking left alone except in medium mode |
| `Engine.AiTargetSound` | app.js:1535-1543 | whatever the difficulty, the chosen target is an untried on-board square and the tracking stays valid |
| `Engine.AiShot` | app.js:1547-1617 | `Fire` on the player's side, one more opponent shot and, on a hit, one more hit; the medium tracking updated after a hit; play closed when the last ship sank, otherwise the turn handed back |
| `Engine.AiShotOk` | app.js:1547-1617 | the opponent's shot at an untried square keeps the state invariant; it leaves the opponent's side alone, moves the counters by the outcome, and hands the turn back while the game goes on |
| `Engine.AiShotEnds` | app.js:1566-1598 | while the player has a ship afloat, the opponent's shot ends the game exactly when it sinks the last one |
| `Engine.AiTurn` | app.js:1532-1618 | nothing when play is closed; otherwise the target chosen by difficulty, with the new tracking, and `AiShot` at it when a square was found |
| `Engine.AiTurnOk` | app.js:1532-1618 | the opponent's turn keeps the state invariant and does nothing once the game is over; a shot fired is at an untried square, which is tried afterwards, with the counters moved and the turn handed back while the game goes on |
| `Engine.ChooseAiTarget` | app.js:1535-1543 | the difficulty dispatch computes the chosen target |
| `Engine.AiTurnStep` | app.js:1532-1618 | the opponent's turn on values computes the turn function |
| `Engine.Game.constructor` | app.js:197-216 | the game starts from the initial record, which is valid |
| `Engine.Game.StartPlacementPhase` | app.js:267-304 | a fresh placement record keeps only the difficulty, with the opponent's fleet laid by the difficulty's placement |
| `Engine.Game.ChooseDifficulty` | app.js:2292-2313 | a difficulty button records the level and starts a placement phase with it |
| `Engine.Game.StartGameplay` | app.js:344-354 | closes placement and opens play, keeping the invariant |
| `Engine.Game.ToggleOrientation` | app.js:372-376 | only the orientation flips |
| `Engine.Game.DropShip` | app.js:844-858 | a drop on the placement grid places the ship when `canPlaceShip` allows, keeping the invariant |
| `Engine.Game.RemoveShip` | app.js:988-1001 | removes a placed ship, keeping the invariant |
| `Engine.Game.ResetPlacement` | app.js:1023-1043 | clears the player's board, fleet and names and resets the orientation |
| `Engine.Game.RandomPlaceAllPlayerShips` | app.js:1061-1113 | clears the player's fleet and lays a new one by sampling, stopping at the first template that finds no room |
| `Engine.Game.HandlePlayerShot` | app.js:1473-1529 | carries out the player's turn as the turn function says, keeping the invariant |
| `Engine.Game.HandleAITurn` | app.js:1532-1618 | carries out the opponent's turn as the turn function says, keeping the invariant |

## Left out

- The theme system, ship display names, SVG drawing, background music, drag and drop, previews, modals, `renderGrid`, `updateShipsList` and `updateStatus` are presentation. The status messages and the end-game modal are not modelled.
- `setTimeout` delays are not modelled. The opponent's turn is a separate method, `Game.HandleAITurn`, called after the player's shot. The delayed `playerTurn = true` is applied at the end of the opponent's turn, and only while the game is active.
- `Math.random` is not modelled. Its draws are inputs: candidate lists, heuristic switches, jitters, early-accept coins and pick values in [0, 1).
- The hard-mode jitter is a real value in [0, 10) given as input. No floating-point arithmetic is modelled.
- The early-accept coin is drawn for every attempt. The source draws it only when the score exceeds 20; the choices made are the same.
- `aiLastHit` and `isContiguous` are written but never read, so they are not modelled.
- The accuracy percentages shown at the end of a game are not modelled, because they are floating-point display values.
- Object references become indices into the ship list. Splicing a ship out in `removeShip` therefore renumbers the later ships' squares. Aliasing between a cell and its ship object is not modelled.
- `gameState` is one record held in the single field of `Game`. Each handler replaces that record as a whole. The targeting and the opponent's turn run on values in module-level methods. The in-place nesting of cells inside the record's boards is not modelled.
- The initial empty arrays `playerBoard: []` and `aiBoard: []` are modelled as empty 10x10 boards. They are replaced before any use.
- The "back to home" reset is not modelled as its own handler. It rebuilds the same record as the initial state.
- `Game.DropShip` and `Engine.DropOk` require the placement phase and a fleet ship not yet placed. In the source, only unplaced tray ships can be dragged, and only during placement.
- `Game.RemoveShip`, `Game.ResetPlacement` and `Game.RandomPlaceAllPlayerShips` require the placement phase. Their buttons and click listeners exist only then.
- `Game.HandlePlayerShot` requires an on-board square, because clicks come only from the grid's cells.
- `Engine.AiShotOk` requires an active game. `handleAITurn` returns at once otherwise.
- `Engine.AiTargetSound` says only that a chosen target is untried. Which difficulties may return nothing is stated separately: `Targeting.EasyTargetSound`, `MediumMode.MediumTargetSound` and `Probability.HardTargetNone`.
- `Engine.StartOk` does not require a full fleet. `startGameplay` checks nothing either; the confirmation modal that calls it is shown only after all five ships are placed.
