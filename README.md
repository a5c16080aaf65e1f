# NeoOrbit collision core in Dafny

NeoOrbit is a browser simulation of satellites on circular, inclined orbits.
This model covers its core:

- **Orbit kinematics** (`src/utils/orbitalMechanics.ts`): where a satellite is and how fast it moves at a given time, distances between points, and committing elapsed time into the orbit angle.
- **The collision predictor `detectCollisions`**. For every pair of satellites it scans 100 time units ahead for the closest approach. It then scores the risk from distance, relative speed and time, and returns the reported pairs ranked by `probability / (timeToCollision + 1)`.
- **The simulation store** (`src/store/satelliteStore.ts`): satellites, predictions, explosions, selection and the clock. The store is modelled as a class whose actions assign its fields. `processCollisions` turns imminent predictions into explosions and removes the satellites involved.
- **The clock display `formatTime`** (`src/components/SimulationControls.tsx`).

Modules, one file each:

| module | file | models |
|---|---|---|
| `JsMath` | `js_math.dfy` | `Math.cos`, `Math.sin` and `Math.sqrt` as fields of a `MathLib` value; `Math.min` and `Math.max` |
| `Entities` | `entities.dfy` | the `Satellite`, `CollisionPrediction` and `Explosion` records |
| `OrbitalMechanics` | `orbital_mechanics.dfy` | position, velocity, distance, relative velocity, `updateSatelliteOrbit` |
| `CollisionDetection` | `collision_detection.dfy` | `detectCollisions`: pair loops, look-ahead scan, risk score, sort |
| `Lists` | `lists.dfy` | `Array.prototype.filter` and `find` |
| `Store` | `store.dfy` | the store class and every action |
| `SimulationControls` | `simulation_controls.dfy` | `formatTime` |

**Trigonometry and square root are left open.** `cos`, `sin` and `sqrt` are arbitrary functions in a `MathLib` value.
- Everything about the scan, the score and the store holds for any such functions, given two facts about `sqrt`: it is non-negative on non-negative input, and `sqrt(0) = 0`.
- The geometric lemmas additionally require `cos² + sin² = 1`. They are: the satellite stays on its sphere, the velocity is tangent to the path, and the speed is constant.

**The look-ahead scan.** The source's `t = 0, 0.2, 0.4, …` is modelled as a step index `k` with `t = k / 5` for `0 <= k < 500`.
- `Fold` is the running minimum of the first k steps.
- `StopsAt` is the early-exit test.
- `ScanLength` is the number of steps the scan runs.
- The loop `ClosestApproach` is proved to end in `Fold(ScanLength(0))`.
- Lemmas show that this state holds the *first* step where the smallest distance occurs, its time, and the midpoint at that step. They also show that the scan never stops while `t <= 10` and otherwise stops at the first step that diverges.

**The pair loops** are proved equal to `Collected`, an explicit concatenation of one row per first index. Lemmas about `Collected` establish three facts:
- every pushed prediction names an ordered pair of the input and lies within the report bounds;
- every pair whose report is positive is pushed;
- there are at most n(n-1)/2 predictions.

**The ranking** is an in-place insertion sort on an array. It is proved non-increasing in score and a permutation (same multiset) of the collected list.

**`processCollisions`.** The model follows the code. Both satellites of an imminent prediction are looked up in the satellite list *as it was when the action began*, so a satellite already marked by an earlier prediction in the same batch is still found.
- A prediction whose satellite an earlier prediction in the batch already marked is not skipped: the lookup still finds it.
- In the code, a satellite named by two imminent predictions produces two explosions. `Store.SharedSatelliteExplodesTwice` states this on a concrete three-satellite example.

**Identifiers and timestamps** are parameters. The source generates them from `Date.now()` and `Math.random()`. The model takes the new satellite id, the new explosion ids and the timestamp as arguments, with preconditions that the ids are fresh.

## Model

| member | source | states |
|---|---|---|
| OrbitalMechanics.Position | src/utils/orbitalMechanics.ts:6-17 | no contract of its own: `PositionOnSphere` puts it on the sphere of radius `orbitRadius`, and `CommitIsTimeShift` shows it depends on time only through the orbit angle |
| OrbitalMechanics.Velocity | src/utils/orbitalMechanics.ts:19-29 | no contract of its own: `VelocityTangent` makes it orthogonal to the position, `SpeedConstant` fixes its length, and `CommitIsTimeShift` shifts it in time |
| OrbitalMechanics.Separation | src/utils/orbitalMechanics.ts:32-45 | the root of the squared difference of two vectors is non-negative and zero for equal vectors |
| OrbitalMechanics.Distance | src/utils/orbitalMechanics.ts:32-37 | the distance between two points is non-negative and zero for the same point |
| OrbitalMechanics.RelativeVelocity | src/utils/orbitalMechanics.ts:40-45 | the relative speed is non-negative and zero for equal velocities |
| OrbitalMechanics.SeparationSymmetric | src/utils/orbitalMechanics.ts:32-45 | distance and relative velocity do not depend on argument order |
| OrbitalMechanics.UpdateSatelliteOrbit | src/utils/orbitalMechanics.ts:128-133 | only `orbitAngle` changes; the new orbit's phase at t is the old phase at t + deltaTime |
| OrbitalMechanics.CommitIsTimeShift | src/utils/orbitalMechanics.ts:7-29 | position and velocity of the updated satellite at t equal those of the original at t + deltaTime |
| OrbitalMechanics.CommitsCompose | src/utils/orbitalMechanics.ts:128-133 | committing d1 and then d2 equals committing d1 + d2 |
| OrbitalMechanics.PositionOnSphere | src/utils/orbitalMechanics.ts:7-17 | with cos² + sin² = 1, the position lies on the sphere of radius `orbitRadius` |
| OrbitalMechanics.VelocityTangent | src/utils/orbitalMechanics.ts:7-29 | with cos² + sin² = 1, the velocity is orthogonal to the position |
| OrbitalMechanics.SpeedConstant | src/utils/orbitalMechanics.ts:20-29 | with cos² + sin² = 1, the squared speed is (orbitRadius · orbitSpeed)² at every time, so the speed is the absolute value of `orbitRadius * orbitSpeed` (`orbitSpeed` may be negative) |
| CollisionDetection.SampleAt | src/utils/orbitalMechanics.ts:66-69 | the distance between the two satellites at a scan step is non-negative |
| CollisionDetection.ClosestApproach | src/utils/orbitalMechanics.ts:60-85 | the look-ahead loop, with its early exit, ends in the scan state after the steps the scan runs |
| CollisionDetection.FoldIsFirstMinimum | src/utils/orbitalMechanics.ts:70-79 | after k steps, the running state holds the first step with the smallest distance, its time and the midpoint there |
| CollisionDetection.ScanLengthFrom | src/utils/orbitalMechanics.ts:65-85 | the scan evaluates every step up to its end without stopping before it; an end before step 500 is a step that diverges |
| CollisionDetection.ScanStopsAtFirstDivergence | src/utils/orbitalMechanics.ts:81-84 | the scan never stops while t <= 10 (at least 52 steps) and stops at the first divergent step after that |
| CollisionDetection.ClosestApproachIsFirstMinimum | src/utils/orbitalMechanics.ts:60-85 | a pair's scan ends with the first minimum over the steps run: a finite distance >= 0 at a time in [0, 100) |
| CollisionDetection.VelocityFactor | src/utils/orbitalMechanics.ts:95 | the velocity factor is at most 1, and non-negative for a non-negative speed |
| CollisionDetection.DistanceFactor | src/utils/orbitalMechanics.ts:98 | the distance factor lies in [0, 1] and is positive exactly below the safe distance 0.5 |
| CollisionDetection.TimeFactor | src/utils/orbitalMechanics.ts:101 | the time factor lies in [0, 1] and is positive exactly before t = 100 |
| CollisionDetection.Probability | src/utils/orbitalMechanics.ts:104 | the combined probability is at most 1, and non-negative for non-negative factors |
| CollisionDetection.Assess | src/utils/orbitalMechanics.ts:88-115 | a report needs minimum distance < 0.5 and time >= 0; it has probability in (0.1, 1] and carries the pair's ids, time and point; a close enough approach is always reported |
| CollisionDetection.RowLength | src/utils/orbitalMechanics.ts:56 | the inner loop pushes at most one prediction per visited pair |
| CollisionDetection.RowSound | src/utils/orbitalMechanics.ts:56-115 | the inner loop pushes only reports of the pairs it visits |
| CollisionDetection.RowComplete | src/utils/orbitalMechanics.ts:56-115 | the inner loop pushes every report of a pair it visits |
| CollisionDetection.RowsLength | src/utils/orbitalMechanics.ts:55-56 | the nested loops push at most one prediction per pair a < b |
| CollisionDetection.RowsSound | src/utils/orbitalMechanics.ts:55-117 | the nested loops push only reports of pairs a < b |
| CollisionDetection.RowsComplete | src/utils/orbitalMechanics.ts:55-117 | the nested loops push every report of a pair a < b |
| CollisionDetection.ReportFacts | src/utils/orbitalMechanics.ts:88-115 | a pair's report lies within the report bounds and names the pair in input order |
| CollisionDetection.CollectedFacts | src/utils/orbitalMechanics.ts:55-117 | collected predictions are in bounds and name ordered pairs; every positive report is collected; at most n(n-1)/2; none for n <= 1 |
| CollisionDetection.Score | src/utils/orbitalMechanics.ts:121-122 | no contract of its own: the key that `SortByScore` and `DetectCollisions` prove the result non-increasing in |
| CollisionDetection.Swap | src/utils/orbitalMechanics.ts:120-124 | exchanges two entries of the array being sorted |
| CollisionDetection.SortByScore | src/utils/orbitalMechanics.ts:120-124 | the array ends non-increasing in `probability / (timeToCollision + 1)` and holds the same multiset |
| CollisionDetection.AssessPair | src/utils/orbitalMechanics.ts:57-115 | the inner loop body decides a pair exactly as `Report` of that pair |
| CollisionDetection.CollectRow | src/utils/orbitalMechanics.ts:56-116 | the inner loop appends the row of reports for the first index i |
| CollisionDetection.CollectPredictions | src/utils/orbitalMechanics.ts:55-117 | the nested loops build exactly the collected list |
| CollisionDetection.PermutedFacts | src/utils/orbitalMechanics.ts:120-124 | reordering keeps the number of predictions and each prediction's bounds and pair |
| CollisionDetection.DetectCollisions | src/utils/orbitalMechanics.ts:48-125 | the result is a permutation of the collected reports, ranked by score, each in bounds and from an ordered pair; at most n(n-1)/2; empty for n <= 1 |
| Lists.Filter | src/store/satelliteStore.ts:116-117 | the survivors are no more than the input, and each was in the input and passes the test |
| Lists.FilterMembers | src/store/satelliteStore.ts:116-117 | an element survives exactly when it was in the list and passes the test |
| Lists.FilterAppend | src/store/satelliteStore.ts:146-147 | filtering a concatenation filters each part, in order |
| Lists.FilterKeepsAll | src/store/satelliteStore.ts:114-119 | a filter every element passes leaves the list unchanged |
| Lists.FilterUnique | src/store/satelliteStore.ts:236 | filtering keeps the ids of a duplicate-free list distinct |
| Lists.UniqueConcat | src/store/satelliteStore.ts:238 | two duplicate-free lists with no shared key join into a duplicate-free list |
| Lists.Find | src/store/satelliteStore.ts:216-217 | a found satellite is in the list and has the id sought |
| Lists.FindMisses | src/store/satelliteStore.ts:216-219 | `find` misses exactly when no satellite has the id |
| Lists.FindFirst | src/store/satelliteStore.ts:216-217 | `find` returns the first satellite with the id |
| Store.WithPosition | src/store/satelliteStore.ts:121-127 | same length and order; only `position` changes, and only for the matching id |
| Store.WithOrbitAngle | src/store/satelliteStore.ts:129-135 | same length and order; only `orbitAngle` changes, and only for the matching id |
| Store.UpdateUnknownIdIsNoOp | src/store/satelliteStore.ts:121-135 | both updates leave the list unchanged for an id that is not there |
| Store.RemoveDropsExactlyId | src/store/satelliteStore.ts:114-119 | removal drops exactly the satellites and selected entries with that id and is a no-op for an id that is not there |
| Store.Toggled | src/store/satelliteStore.ts:143-147 | no contract of its own: `ToggleFlips` and `ToggleTwice` state that it flips the id's membership only and undoes itself on an unselected id |
| Store.ToggleFlips | src/store/satelliteStore.ts:141-150 | toggling flips the membership of the id and of no other id |
| Store.ToggleTwice | src/store/satelliteStore.ts:141-150 | toggling an unselected id twice restores the selection |
| Store.IsImminent | src/store/satelliteStore.ts:207-209 | no contract of its own: the filter `ProcessCollisions` applies, within 1.5 time units and probability at least 0.5; `ProcessCollisions` states that nothing changes when no prediction passes it |
| Store.Resolve | src/store/satelliteStore.ts:212-231 | no contract of its own: `ResolveMarks`, `ResolveCount`, `ResolveExplosions`, `ResolveIdsUnique`, `SurvivorsUnreferenced` and `ResolveAll` state what the `forEach` accumulates |
| Store.ResolveMarks | src/store/satelliteStore.ts:215-232 | an id is marked exactly when a resolvable imminent prediction names it |
| Store.ResolveCount | src/store/satelliteStore.ts:215-232 | there are as many explosions as resolvable imminent predictions |
| Store.ResolveExplosions | src/store/satelliteStore.ts:219-226 | each explosion is stamped `now` and sits at a resolvable prediction's point, with its id and the first satellite's colour |
| Store.ResolveIdsUnique | src/store/satelliteStore.ts:221-222 | with distinct ids supplied, the new explosions have distinct ids, each one supplied |
| Store.ResolutionKeepsIdsUnique | src/store/satelliteStore.ts:238 | appending the new explosions with fresh ids keeps explosion ids unique |
| Store.SurvivorsUnreferenced | src/store/satelliteStore.ts:228-237 | a satellite or selected id survives exactly when no resolvable imminent prediction names it |
| Store.SharedSatelliteExplodesTwice | src/store/satelliteStore.ts:215-231 | a satellite in two imminent predictions is found by both: two explosions, three satellites marked |
| Store.ResolveAll | src/store/satelliteStore.ts:212-232 | the `forEach` accumulates exactly the resolution of all imminent predictions |
| Store.SatelliteStore.constructor | src/store/satelliteStore.ts:84-92 | empty scene, running, speed 1, time 0, counter 0 |
| Store.SatelliteStore.AddSatellite | src/store/satelliteStore.ts:94-112 | appends one satellite, with the new id and its orbit position at t = 0, and increments the counter; nothing else changes |
| Store.SatelliteStore.RemoveSatellite | src/store/satelliteStore.ts:114-119 | filters the id out of the satellites and the selection; nothing else changes |
| Store.SatelliteStore.UpdateSatellitePosition | src/store/satelliteStore.ts:121-127 | the satellite list becomes `WithPosition`; ids stay unique |
| Store.SatelliteStore.UpdateSatelliteOrbit | src/store/satelliteStore.ts:129-135 | the satellite list becomes `WithOrbitAngle`; ids stay unique |
| Store.SatelliteStore.SetSelectedSatellites | src/store/satelliteStore.ts:137-139 | the selection becomes the given ids |
| Store.SatelliteStore.ToggleSatelliteSelection | src/store/satelliteStore.ts:141-150 | the selection becomes `Toggled`, so the id is selected exactly when it was not |
| Store.SatelliteStore.ClearSelection | src/store/satelliteStore.ts:152-154 | the selection becomes empty |
| Store.SatelliteStore.ToggleSimulation | src/store/satelliteStore.ts:156-158 | negates the running flag |
| Store.SatelliteStore.SetSimulationSpeed | src/store/satelliteStore.ts:160-162 | sets the speed |
| Store.SatelliteStore.ResetSimulation | src/store/satelliteStore.ts:164-173 | empties the lists, zeroes time and counter, and keeps the running flag and speed |
| Store.SatelliteStore.UpdateCollisions | src/store/satelliteStore.ts:175-177 | replaces the predictions |
| Store.SatelliteStore.UpdateTime | src/store/satelliteStore.ts:179-181 | adds exactly deltaTime to the clock |
| Store.SatelliteStore.AddExplosion | src/store/satelliteStore.ts:183-194 | appends one explosion with the given id, position, colour and timestamp |
| Store.SatelliteStore.RemoveExplosion | src/store/satelliteStore.ts:196-200 | filters out the explosions with the id |
| Store.SatelliteStore.ProcessCollisions | src/store/satelliteStore.ts:202-242 | with nothing imminent, nothing changes; otherwise marked satellites and selected ids go, the new explosions are appended, and predictions are cleared; ids stay unique |
| SimulationControls.JsRem | src/components/SimulationControls.tsx:49-50 | JavaScript `x % d` for x >= 0 and a whole divisor d: whole part `Math.floor(x) mod d`, the fraction of x kept, so in [0, d) |
| SimulationControls.FloorDiv | src/components/SimulationControls.tsx:48 | `Math.floor(x / d)` is the whole quotient of `Math.floor(x)` by d |
| SimulationControls.FormatTime | src/components/SimulationControls.tsx:47-52 | no contract of its own: `FormatTimeReadsBack` and `ShortClockShape` state that the text reads back as the clock fields and is `DD:DD:DD` below 100 hours |
| SimulationControls.ClockArithmetic | src/components/SimulationControls.tsx:48-50 | hours, minutes and seconds of n add back up to n, with minutes in [0, 60) |
| SimulationControls.FieldFloors | src/components/SimulationControls.tsx:48-50 | the three floors are the whole-number divisions of the whole seconds |
| SimulationControls.Fields | src/components/SimulationControls.tsx:48-50 | minutes and seconds lie in [0, 59], hours >= 0, and h*3600 + m*60 + s = floor(seconds) |
| SimulationControls.DecimalString | src/components/SimulationControls.tsx:51 | `toString` of a whole number: digits only, no leading zero, two digits for 10..99 |
| SimulationControls.DecimalRoundTrip | src/components/SimulationControls.tsx:51 | the decimal string reads back as the number |
| SimulationControls.PadStart2 | src/components/SimulationControls.tsx:51 | `padStart(2, '0')`: at least two characters, the input as suffix, zeros before it |
| SimulationControls.LeadingZeroValue | src/components/SimulationControls.tsx:51 | a leading zero does not change a digit string's value |
| SimulationControls.PadKeepsValue | src/components/SimulationControls.tsx:51 | padding keeps a digit string's value |
| SimulationControls.Field | src/components/SimulationControls.tsx:51 | a printed field has at least two digits, reads back as the field, and is exactly two digits below 100 |
| SimulationControls.FormatTimeReadsBack | src/components/SimulationControls.tsx:47-52 | the clock text parses back to the three fields, which add up to floor(seconds); hours are never truncated |
| SimulationControls.ShortClockShape | src/components/SimulationControls.tsx:51 | below 100 hours the text is exactly `DD:DD:DD` |

## Left out

- Floating point: numbers are exact reals. NaN and Infinity propagation, rounding, and the drift of `t += 0.2` are not modelled. That drift keeps exactly 500 scan steps (after 500 additions `t` is 100.00000000000088) and the same early-exit threshold (step 50 gives 9.999999999999996, which is not > 10); only the reported `timeToCollision` differs from k/5 in its last bits, for example 10.199999999999996 at k = 51.
- Real trigonometry and square roots: `cos`, `sin` and `sqrt` are arbitrary functions (see above). Periodicity and the derivative relation between velocity and position are not stated.
- `orbitalElementsToCartesian` and `calculateOrbitalPeriod`: trigonometric only, and unused by the rest of the code.
- `generateRandomSatellite` and `createRandomSatellite`: random orbit parameters and colours.
- `Date.now()` and `Math.random()`: ids and timestamps are parameters, so the random id format is not modelled.
- Store.SatelliteStore.AddSatellite: requires its id to be unused. The source's random id only makes a clash unlikely. The `id` field of the supplied data is ignored, as in the source, and the velocity is kept as supplied.
- Store.SatelliteStore.AddExplosion: requires its id to be unused, for the same reason.
- Store.SatelliteStore.ProcessCollisions: takes one fresh id per prediction (`explosionIds[j]` is used for the j-th imminent one). It also takes one timestamp `now` for the whole batch, whereas the source calls `Date.now()` once per explosion.
- Store.ResolveExplosions: states where each explosion comes from, not that the explosions are in prediction order. That order follows from the definition of `Resolve`, which appends in order.
- The zustand `create`/`set`/`get` plumbing and React subscriptions: the store is a plain class.
- The per-frame driver `SatelliteAnimator` in `src/components/Scene3D.tsx` is not part of this model. It passes the clock value from before the tick to `detectCollisions`.
- Rendering and animation components, and the JSX of `SimulationControls`.
- SimulationControls.FormatTime: defined only for `seconds >= 0`. JavaScript `%` keeps the sign of a negative operand.
- SimulationControls.JsRem: takes a whole divisor, since `formatTime` only divides by 3600 and 60.
- CollisionDetection.SortByScore: proves the order and the permutation but not stability (equal scores keeping their input order), which the JavaScript sort guarantees.
