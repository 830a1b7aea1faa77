# Boids steering core, modelled in Dafny

This project models the core of a pygame "boids" (fish-school) simulation. One row of a
`MAX_BOIDS x 4` table `[x, y, angle, scratch]` is shared by all boids. The parts modelled are:

- **The steering step of `src/boid.py`** (`Boid.update` and `Boid._update_shared_data`). A boid
  takes the 7 rows of the table nearest to it, excluding its own, and keeps those strictly inside
  the perception radius `12 * BOID_SIZE`. From them it derives a turn direction by alignment,
  cohesion and separation, with a 1.2 degree dead zone and a sign reversal when separating. Near a
  screen edge, when not wrapping, edge avoidance replaces that turn. The heading then turns by a
  fixed `TURN_RATE * dt` in the turn's direction and is reduced `% 360`. The boid moves at
  `BOID_SPEED + (7 - n) * 2`, optionally wraps, and writes columns 0..2 of its own row back.
- **The legacy step of `boid.py`** (`BOILS.update`). It uses the same rules with a full sort, and the
  neighbour count is taken from `neiboids.size`, which counts cells rather than rows. Near an edge
  its turn rate is blended towards 20.
- **The simulation of `src/simulation.py`**. `add_boid` hands out dense row indices below
  `MAX_BOIDS`. `update` is one sweep that calls every boid's update in spawn order on the shared
  table. Because the table is rewritten in place, later boids see rows already advanced this tick.

Modules:

| module | file | models |
|---|---|---|
| `Config` | config.dfy | the constants of `src/config.py:19-26` and the literals `7` and `1.2` of `src/boid.py` |
| `Angles` | angles.dfy | Python's float `% 360` on reals and the `[-180, 180)` normalisation |
| `Geometry` | geometry.dfy | uninterpreted trigonometry, the edge distance and the inward edge angle, and the wrap |
| `Table` | table.dfy | rows, squared distances, the write-back, and the neighbour sums and means |
| `Selection` | selection.dfy | the bottom-7 selection, the radius filter, `argmin` and the neighbour set |
| `Steering` | steering.dfy | `src/boid.py`: the step as functions, with its properties, and `class Boid` |
| `LegacySteering` | legacy_steering.dfy | `boid.py`: the legacy step as functions, its relation to the refactored step, and `class Boils` |
| `FlockSimulation` | simulation.dfy | `src/simulation.py`: the sweep as a function, with its properties, and `class Simulation` |

Modelling choices:

- Coordinates and angles are `real`.
- Python's `x % 360` on a float is `x - 360 * floor(x / 360)`.
- Comparisons of distances with radii are made on squared distances against squared radii.
- `sin`, `cos`, `atan2`/`as_polar` and the heading unit vector `Vector2(1, 0).rotate(a).normalize()`
  are arbitrary functions, passed in a `Trig` value.
- The screen size, `dt` and the spawn position and heading are parameters.

Each class method is proved against a specification function. `Boid.Update` produces exactly
`Step` of the table it read and writes only its own row. `Boils.Update` produces `LegacyStep`.
`Simulation.Update` leaves the table equal to `Sweep` of the old table.

Three behaviours of the code that are easy to miss:

- The selection scans every row of the table, including the zero rows of unused slots at
  (0, 0), not only the live boids (`Steering.LoneBoidSeesPhantomRows`).
- A spawn heading of exactly 360 (`randint(0, 360)`) survives every step whose turn is 0. The
  heading therefore lies in [0, 360], not [0, 360) (`Steering.StepHeading`).
- A boid with no neighbours moves at the top speed `BOID_SPEED + 14`; only seven neighbours give
  `BOID_SPEED` itself (`Steering.IsolatedBoidGoesStraight`, `Steering.Speed`).

## Model

| member | source | states |
|---|---|---|
| Angles.Mod360 | src/boid.py:225 | the reduced angle lies in [0, 360) and an angle already in [0, 360) is unchanged |
| Angles.Mod360Unique | src/boid.py:225 | Mod360 is the one value in [0, 360) that differs from x by a whole number of turns |
| Angles.Mod360Periodic | src/boid.py:224-225 | adding whole turns before the reduction does not change its result |
| Angles.Normalize | src/boid.py:172-174 | the normalised difference lies in [-180, 180) and a difference already there is unchanged |
| Angles.NormalizeUnique | src/boid.py:174 | the normalised difference is the one value in [-180, 180) that differs from d by whole turns |
| Geometry.EdgeDistance | src/boid.py:190 | `min(x, y, w - x, h - y)`: no larger than any of the four edge distances and equal to one of them |
| Geometry.EdgeTarget | src/boid.py:193-198 | the inward angle near an edge, vertical rule first: 90 near the top, else 270 near the bottom, else 0 near the left, else 180 near the right |
| Geometry.SequentialEdgeTarget | src/boid.py:193-198 | the overwrite order as written: a horizontal choice (0 near the left, else 180 near the right) over the earlier value, then a vertical one (90 near the top, else 270 near the bottom) over that |
| Geometry.SequentialEdgeTargetIsPriority | src/boid.py:192-198 | inside the margin the sequential overwrites of `target_a` always reach an inward angle (0, 90, 180 or 270) and never leave the initial value in place; the vertical choice wins over the horizontal one |
| Geometry.WrapCoord | src/boid.py:242-246 | with a non-negative bound, a wrapped coordinate lies in [0, bound], and one already on screen is unchanged |
| Geometry.WrapTeleports | src/boid.py:242-246 | below 0 the coordinate jumps to the bound and above the bound it jumps to 0, dropping the overshoot; wrapping again changes nothing |
| Table.Distances2 | src/boid.py:101-102 | one squared distance per row, in row order |
| Table.WriteBack | src/boid.py:58-60 | a row with columns 0, 1, 2 replaced by the new x, y and angle and column 3 kept |
| Table.AlignmentAngle | src/boid.py:135-138 | the alignment target: `atan2` of the sums of the sines and cosines of the neighbours' headings |
| Table.Centroid | src/boid.py:141-142 | the cohesion target: the mean x and mean y of the neighbours' positions |
| Selection.Insert | src/boid.py:104-110 | one insertion step of the bottom-k ordering: the index is added once and ascending, duplicate-free lists stay so |
| Selection.Nearest | src/boid.py:90-112 | the selection has min(7, candidates) entries, excludes the own row, has no duplicates, is ascending by squared distance, and holds every candidate when fewer than 7 were chosen |
| Selection.NearestIsBottomAt | src/boid.py:104-112 | a candidate left out of the selection is at least as far as every selected row |
| Selection.NearestIsBottom | src/boid.py:104-112 | no unselected row other than the own one is strictly nearer than a selected row |
| Selection.Perceived | src/boid.py:115-121 | a row is kept iff it was selected and lies strictly inside the perception radius; the filter never adds rows |
| Selection.PerceivedDistinct | src/boid.py:119-121 | the radius filter never repeats a row |
| Selection.PerceivedDropsOutside | src/boid.py:117-121 | when every selected row is at or beyond the radius, no neighbour survives |
| Selection.PerceivedKeepsInside | src/boid.py:117-121 | when every selected row is inside the radius, all of them survive, in order |
| Selection.PerceivedIsPrefix | boid.py:43-46 | on a sorted selection the radius filter keeps a prefix of it |
| Selection.PerceivedAscending | boid.py:43-46 | the filter carries an ascending selection to an ascending neighbour list |
| Selection.ArgMin | src/boid.py:148-149 | `np.argmin`: a position of the smallest value, and the first such position |
| Selection.Neighbours | src/boid.py:90-122 | at most 7 distinct rows, never the own row, each one selected among the nearest and strictly inside the perception radius, and every such row included |
| Steering.Closest | src/boid.py:148-149 | the closest neighbour is a neighbour, and none is strictly closer than it |
| Steering.Separating | src/boid.py:148-151 | the separation test: the neighbour that `argmin` picks is closer than BOID_SIZE |
| Steering.TargetPoint | src/boid.py:141-158 | the point steered at: that nearest neighbour's position when separating, else the neighbours' centroid |
| Steering.TargetAngle | src/boid.py:161-166 | the `as_polar` angle of the vector to the target point, replaced by the mean heading when the target is closer than `6 * BOID_SIZE` |
| Steering.DeadZoned | src/boid.py:172-177 | a nonzero turn occurs only outside the 1.2 degree dead zone, then equals the normalised difference; the turn lies in [-180, 180) |
| Steering.RuleTurn | src/boid.py:124-181 | the turn the neighbour rules ask for: 0 without neighbours; otherwise the dead-zoned normalised difference to the target angle, negated when separating and the target is the nearest neighbour |
| Steering.TurnDirection | src/boid.py:183-203 | the turn after edge avoidance: inside the margin and not wrapping, the normalised difference to the inward angle; otherwise RuleTurn of the neighbours |
| Steering.NewHeading | src/boid.py:220-225 | a zero turn leaves the heading as it is; otherwise the heading moves by `TURN_RATE * dt` times the sign of the turn and is reduced into [0, 360) |
| Steering.Integrate | src/boid.py:232-246 | the move of `speed * dt` along the heading's unit vector, then each coordinate wrapped when wrapping |
| Steering.Speed | src/boid.py:236-237 | the speed is `BOID_SPEED + 14` with no neighbours, `BOID_SPEED` with 7, and lies between the two for 0..7 neighbours |
| Steering.Step | src/boid.py:62-246 | one Boid.update as a function of the table and the boid's state: the heading is turned by TurnDirection, then the boid moves at the speed for its neighbour count |
| Steering.RuleTurnReversesIffSeparating | src/boid.py:151-181 | the equality test of the separation override always holds when separating, so the rules' turn is reversed exactly when the nearest neighbour is closer than BOID_SIZE |
| Steering.SeparationSteersAway | src/boid.py:151-166 | while separating, the target is the nearest neighbour; being inside `6 * BOID_SIZE`, its angle is replaced by the mean heading, and the turn is the reversed dead-zoned difference to that heading |
| Steering.RuleTurnShape | src/boid.py:124-181 | with no neighbours the turn is 0; a nonzero turn has a raw difference beyond the dead zone and is plus or minus its normalised value; the turn lies in [-180, 180] |
| Steering.EdgeOverridesRules | src/boid.py:185-203 | inside the margin, when not wrapping, the turn is the normalised difference to the inward angle, whatever the neighbours are; near the top edge it aims at 90 |
| Steering.StepHeading | src/boid.py:220-225 | the heading after a step: unchanged for a zero turn, else turned by the fixed rate and reduced into [0, 360); range [0, 360] is preserved, range [0, 360) too |
| Steering.StepMotion | src/boid.py:232-246 | the step's speed lies in [BOID_SPEED, BOID_SPEED + 14]; without wrap the position is the integrated one, unclamped; with wrap each coordinate goes through WrapCoord and ends on screen |
| Steering.ZeroDtStandsStill | src/boid.py:220-246 | with `dt = 0` and a heading in [0, 360), a step changes neither position nor heading |
| Steering.IsolatedBoidGoesStraight | src/boid.py:115-237 | with no other row inside the perception radius there are no neighbours; away from the edges the heading is kept and the speed is the top one |
| Steering.LoneBoidSeesPhantomRows | src/boid.py:90-122 | a lone live boid near the origin, in a full-size table of zero rows, counts 7 zero rows as neighbours and moves at the base speed |
| Steering.Boid.constructor | src/boid.py:12-53 | the boid takes its index, table and spawn state, and its row then holds its position and heading with column 3 and the other rows untouched |
| Steering.Boid.UpdateSharedData | src/boid.py:55-60 | columns 0, 1, 2 of the own row become x, y, angle; column 3 and every other row are unchanged |
| Steering.Boid.RuleSteering | src/boid.py:124-181 | the sequential rule block computes exactly RuleTurn of the neighbours |
| Steering.Boid.EdgeSteering | src/boid.py:185-215 | the edge block leaves the rules' turn alone unless not wrapping and inside the margin, where it becomes the normalised difference to the inward angle |
| Steering.Boid.Turn | src/boid.py:220-225 | the heading becomes NewHeading of the old heading, and the position is untouched |
| Steering.Boid.Move | src/boid.py:232-246 | the pose becomes the integrated move at Speed(count), wrapped when asked |
| Steering.Boid.Update | src/boid.py:62-250 | the new pose is Step of the table as read, and the table changes only in columns 0..2 of the own row, which mirror the new pose |
| LegacySteering.LegacyWrapDiff | boid.py:61-62 | the legacy reduction `(a/360 - a//360)*360 - 180` of `a = d + 180` |
| LegacySteering.LegacyWrapDiffIsNormalize | boid.py:61-62 | the fraction-and-floor formula `(a/360 - a//360)*360 - 180` is the normalisation into [-180, 180) |
| LegacySteering.LegacyTargetPoint | boid.py:52-54 | the legacy target: the first kept neighbour when it is closer than `bSize`, else the centroid |
| LegacySteering.LegacyTargetDist2 | boid.py:56-57 | the squared `tDistance`, the length of the vector to the legacy target |
| LegacySteering.LegacyTargetAngle | boid.py:56-59 | `tAngle`: the polar angle of the vector to the legacy target, replaced by the mean heading when `tDistance < bSize * 6` |
| LegacySteering.LegacyRuleTurn | boid.py:47-64 | the legacy rule block: run when `4 * rows > 1`; the first neighbour as target when closer than `bSize`, else the centroid; the dead-zoned wrapped difference, negated when the target is that close first neighbour |
| LegacySteering.LegacyReversalIffSeparating | boid.py:47-64 | the cell-count guard runs the rules exactly when at least one neighbour row survives; the turn is reversed exactly when the first neighbour is closer than `bSize`, and is otherwise the dead-zoned normalised difference |
| LegacySteering.ArgMinOfAscending | boid.py:54 | on neighbours listed nearest first, the first one is the argmin |
| LegacySteering.LegacyRulesAgree | boid.py:47-64 | on neighbours sorted by distance, the legacy rule block produces the same turn as the refactored one |
| LegacySteering.LegacyNeighboursAscending | boid.py:41-46 | `argsort(...)[:7]` followed by the radius filter lists the kept rows nearest first |
| LegacySteering.LegacyFirstIsNearest | boid.py:43-54 | `neiboids[0]` is no farther than any other row of the table except the own one |
| LegacySteering.LegacyEdgeRate | boid.py:73-74 | the edge turn rate `turnRate + (1 - edgeDist / margin) * (20 - turnRate)` |
| LegacySteering.LegacyEdgeRateBlend | boid.py:73-74 | the blended rate is the base rate at the margin, 20 at the edge, and between the two inside the margin |
| LegacySteering.LegacyTurn | boid.py:38-74 | the legacy turn direction and rate: inside the margin and not wrapping, the wrapped difference to the inward angle at the blended rate; otherwise LegacyRuleTurn at `190 * dt` |
| LegacySteering.SignedRate | boid.py:75-76 | `turnRate * abs(turnDir) / turnDir` is the rate signed like the turn |
| LegacySteering.LegacyNewHeading | boid.py:75-77 | a zero turn leaves `ang` alone; otherwise `ang` moves by exactly the rate in the turn's direction and is reduced into [0, 360) |
| LegacySteering.LegacySpeed | boid.py:82 | `speed + (7 - 4r) * 2` for r rows: speed + 14 with none, below speed from two rows, and down to speed - 42 at 7 |
| LegacySteering.LegacySpeedOvercounts | boid.py:82 | the legacy speed is the refactored speed minus 6 per neighbour row: 176 against 182 for one neighbour, 128 for seven |
| LegacySteering.LegacyStep | boid.py:36-82 | one BOILS.update as a function of the table and the boid's state: turned by LegacyTurn, then moved, unwrapped, at the cell-count speed |
| LegacySteering.LegacyHeadingAgrees | boid.py:75-77 | at the unblended rate the legacy heading update equals the refactored one |
| LegacySteering.LegacyTurnMatchesAwayFromEdges | boid.py:38-77 | away from the edges, without wrap, the legacy step turns in the refactored direction at the unblended rate, to the same new heading |
| LegacySteering.LegacyEdgeTurn | boid.py:66-74 | inside the margin the legacy turn aims at the refactored inward angle, with no dead zone, at the blended rate |
| LegacySteering.Boils.constructor | boid.py:19-35 | the legacy boid takes its row number, table and spawn state, and the table is not written |
| LegacySteering.Boils.RuleSteering | boid.py:47-64 | the legacy rule block computes exactly LegacyRuleTurn; the distances written into column 3 go to a copy |
| LegacySteering.Boils.EdgeSteering | boid.py:66-74 | inside the margin, without wrap, the turn and the rate become the wrapped difference to the inward angle and the blended rate; otherwise both pass through |
| LegacySteering.Boils.Turn | boid.py:75-77 | `ang` becomes LegacyNewHeading of the old `ang`, and the position is untouched |
| LegacySteering.Boils.Move | boid.py:81-82 | the pose becomes the unwrapped move at the cell-count speed |
| LegacySteering.Boils.Update | boid.py:36-92 | it fails iff the row number is outside the table or wrapping is asked for. An out-of-range row changes nothing. Otherwise the pose is LegacyStep of the table as read, and only columns 0..2 of the own row are written, on success only |
| FlockSimulation.BoidStep | src/simulation.py:55 | the per-boid rule of a tick: Step of row i's own state against the table as it stands, with the tick's `dt` and `WRAP_EDGES` |
| FlockSimulation.Advance | src/simulation.py:55 | one boid's update inside a sweep rewrites columns 0..2 of its own row with the pose the rule gives, and nothing else |
| FlockSimulation.Sweep | src/simulation.py:53-55 | a sweep over the first k boids keeps the table's size |
| FlockSimulation.SweepLeavesLaterRows | src/simulation.py:55 | the rows of boids not yet updated, and the rows of unused slots, are untouched by the sweep so far |
| FlockSimulation.SweepSettlesEarlierRows | src/simulation.py:55 | once a boid is updated, the boids after it in the tick leave its row alone |
| FlockSimulation.SweepSeesAdvancedRows | src/simulation.py:55 | boid i steers against a table whose rows before i are already this tick's and whose rows from i on are the previous tick's, and its final row is the step from that mixed table |
| FlockSimulation.SweepKeepsScratch | src/boid.py:55-60 | no tick ever changes column 3 of any row |
| FlockSimulation.BoidStepKeepsHeading | src/boid.py:220-225 | one boid's step inside a tick keeps its heading in [0, 360] |
| FlockSimulation.SweepKeepsHeadingsInRange | src/simulation.py:53-55 | headings in [0, 360] in every row stay in [0, 360] through a tick |
| FlockSimulation.Simulation.constructor | src/simulation.py:22-24 | the table starts as MAX_BOIDS zero rows and the counter at 0 with no boids |
| FlockSimulation.Simulation.AddBoid | src/simulation.py:34-39 | at capacity nothing changes; below it the new boid gets index `num_boids`, the counter grows by exactly 1 and only the new row is written; the invariant (counter at most MAX_BOIDS, live indices exactly 0..counter-1, each boid mirrored in its row, every heading in [0, 360]) is kept for a spawn heading in [0, 360], the range of `randint(0, 360)` |
| FlockSimulation.Simulation.RowWriteKeepsValid | src/simulation.py:22-39 | rewriting one live boid's row from its own new state, touching no other boid, keeps the invariant |
| FlockSimulation.Simulation.UpdateOne | src/simulation.py:55 | one boid's call inside the tick rewrites exactly its own row as Advance says, keeping the invariant |
| FlockSimulation.Simulation.Update | src/simulation.py:53-55 | one tick leaves the table equal to Sweep over all live boids in spawn order with one `dt` and `WRAP_EDGES`, keeps the invariant (so every heading stays in [0, 360]), and changes neither the counter nor the boids |

## Left out

- Rendering and pygame plumbing are not modelled. This covers surfaces, polygons, image rotation, `rect` and its rounding, the display, events, the clock loop and `run`. It is input and output with no behaviour of the core.
- The spawn position and heading come from the mouse or `randint`. They are parameters of the constructors, so `Simulation.AddBoid` takes them from its caller.
- `dt` comes from `clock.tick(FPS)` and is a parameter of `Simulation.Update`. The screen size comes from `get_size()` and is also a parameter.
- Trigonometry, `sqrt` and the heading unit vector are floating-point numerics. They are uninterpreted (`Trig`), so no claim is made about the alignment angle's value or the direction of motion.
- Floating-point rounding is not modelled: all arithmetic is exact on reals.
- Selection.Nearest: fixes one tie order (ties go to the lower row index). The order of `np.argpartition` and `np.argsort` among equal distances is not pinned down, so the model describes one of the selections numpy may make.
- Steering.Boid.EdgeSteering computes the edge `rate_mod` and never uses it, as the source does. The model states that the turn rate stays `TURN_RATE * dt`.
- Steering.Step fixes the order of the neighbours to ascending distance, which `argpartition` leaves open. The order decides which of two neighbours tied at the smallest distance `argmin` picks. The turn does not depend on that choice: a separating target lies inside `6 * BOID_SIZE`, so its angle is replaced by the mean heading (`Steering.SeparationSteersAway`), and otherwise the target is the centroid. The sums behind the mean heading and the centroid do not depend on the order in exact arithmetic; that reordering is not proved here.
- The `pos` vector is split into the fields `x` and `y`. The spawn `self.dir` and the separate `variable_speed` state are dropped: `variable_speed` is never changed from `BOID_SPEED`, so `Steering.Speed` uses the constant.
- LegacySteering.Boils.Update does not model the wrap branch. `self.drawSurf` does not exist, so `ejWrap` ends the call with an error after the move, before the row is written; the model records this as `crashed`.
- The legacy spawn position is not modelled. When the mouse is not pressed it reads an unbound local `pos`, so `Boils.constructor` takes the position as a parameter.
- The legacy `main` loop (boid.py:93-119) is not modelled. It is glue code without a capacity check.
- Window, colour and frame-rate constants (`src/config.py:8-16`) belong to rendering and are not modelled.
- `boids_group` is taken to update its boids in insertion order, which is the order pygame's sprite group iterates in. The model keeps that order as the sequence `boids`.
- Steering.Boid requires its index to name a row of the table (constructor and Update). The source raises `IndexError` for an out-of-range index (src/boid.py:58, 91), and the model does not capture that failure. Every caller meets the requirement: `add_boid` passes `num_boids < MAX_BOIDS`.
- FlockSimulation.BoidStep returns a dummy pose for a row number outside the table. No sweep applies it there, because every boid's index is a row of the table.

## Findings

| source | as written | input that shows it | evidently intended | confidence | as-written member | corrected member |
|---|---|---|---|---|---|---|
| boid.py:82 | the speed is `speed + (7 - neiboids.size) * 2`, and `.size` counts the 4 cells of each neighbour row | one neighbour row at speed 170 gives 170 + (7 - 4) * 2 = 176; seven rows give 128, below the base speed | `speed + (7 - rows) * 2`, as the later `src/boid.py:236-237` writes with `len(neighbors)`: 182 for one neighbour, never below the base speed | not executed | LegacySteering.LegacySpeedOvercounts | Steering.Speed |
