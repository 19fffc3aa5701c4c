# Three-body gravity step in Dafny

A model of the physics of a small 2-D N-body simulator. Each tick of its main
loop does three things:

- **Pair scan.** It visits every pair `(i, j)` with `i < j` in row order.
  A colliding pair gets a merged body queued (`check_collision`,
  `handle_collision`). Any other pair gets equal and opposite gravity kicks
  to its velocities (`update_velocities`).
- **Merges.** It applies the queued merges to the body list, each one as
  `bodies[i] = merged; bodies.pop(j)`.
- **Drift.** It moves every surviving body by `velocity * TIMESTEP`
  (`update_position`).

What the model captures:

- **Stale indices.** The queue keeps the indices from the start of the
  tick. A later merge can therefore hit the wrong body, or raise Python's
  `IndexError`. The model carries that outcome explicitly (`Outcome.IndexError`).
- **Mid-scan kicks.** A merged body is built from the velocities that
  earlier pairs of the same scan have already kicked. The kicks of later
  pairs on the two merged bodies are lost, so a tick with a merge need not
  conserve momentum.
- **Live objects.** Bodies are objects updated in place. `Gravity.Body` and
  `Sim.Simulation` are classes whose methods mutate fields and the body
  list. Each method is proved against a function on values:
  - `BodyState`, `Drift` and `Kick` for a body;
  - `Scan`, `ApplyMerges` and `Tick` for the list.

  The properties are lemmas about those functions.

Modules:

- `Numerics` (`numerics.dfy`): the square and cube roots as parameters
  bound by laws, and Python's truncating `int()`.
- `Gravity` (`gravity.dfy`): `Body`, the softened force and the velocity
  kick.
- `Collision` (`collision.dfy`): radius, overlap test and merge.
- `MergeQueue` (`merges.dfy`): the merge loop on an index-addressed list,
  generic in the element type.
- `PairScan` (`pairscan.dfy`): the scan order and the scan as a fold over
  pairs, with its conservation facts.
- `Sim` (`sim.dfy`): the whole tick on values, and the `Simulation` class
  that performs it on live `Body` objects.

Numbers are Dafny reals, so arithmetic is exact. `math.sqrt` and
`math.cbrt` are the fields of a `MathLib` value. The only thing known about
them is `MathLib.Lawful()`: on non-negative input they return the
non-negative square or cube root.

## Model

| member | source | states |
|---|---|---|
| Gravity.Body.constructor | gravity.py:6-12 | the new body holds exactly the given position, mass, velocity and colour; velocity defaults to 0 and colour to white |
| Gravity.Body.UpdatePosition | gravity.py:14-17 | the body's new state is its old state drifted by `dt` |
| Gravity.Drift | gravity.py:14-17 | drifting leaves mass, velocity and colour unchanged |
| Gravity.DriftAdditive | gravity.py:14-17 | drifting by `s` and then by `t` is drifting by `s + t` |
| Gravity.DriftInverse | gravity.py:14-17 | drifting by `dt` and then by `-dt` restores the body exactly |
| Gravity.SoftenedDistance | gravity.py:21-24 | the softened distance is at least epsilon = 1e3 and its square is dx² + dy² + epsilon² |
| Gravity.ForceMagnitude | gravity.py:26 | for masses of the same sign the magnitude lies between 0 and G·m1·m2/epsilon², and it is positive when m1·m2 > 0 |
| Gravity.SoftenedDistanceSymmetric | gravity.py:21-24 | the softened distance does not depend on the order of the two bodies |
| Gravity.ForceMagnitudeSymmetric | gravity.py:26 | the force magnitude does not depend on the order of the two bodies |
| Gravity.NegateComponent | gravity.py:28-29 | swapping the two coordinates negates a force component |
| Gravity.ForceAntisymmetric | gravity.py:19-31 | the force of b on a is exactly the negation of the force of a on b |
| Gravity.ForceAttracts | gravity.py:21-29 | for positive masses each force component is positive exactly when the other body lies on the positive side on that axis, and negative exactly when it lies on the negative side |
| Gravity.Force | gravity.py:19-31 | the softened gravitational force of `other` on `self`; the lemmas beside it show that it is antisymmetric (`ForceAntisymmetric`), pulls each body towards the other (`ForceAttracts`), vanishes for a body and itself (`KickSelf`) and reads no velocity (`ForceIgnoresVelocity`) |
| Gravity.ForceIgnoresVelocity | gravity.py:19-31 | the force reads only positions and masses: replacing `other` by a body at the same place with the same mass leaves it unchanged |
| Gravity.SignOfComponent | gravity.py:28-29 | with a positive force and distance, a component has the sign of its coordinate difference |
| Gravity.Kick | gravity.py:33-41 | the kick changes no position, mass or colour of either body |
| Gravity.KickConservesMomentum | gravity.py:33-41 | the kick leaves m1·vx1 + m2·vx2 and m1·vy1 + m2·vy2 unchanged, for any `dt` |
| Gravity.GainedShare | gravity.py:37-38 | adding `f/m·dt` to a velocity adds exactly `f·dt` to the momentum |
| Gravity.LostShare | gravity.py:40-41 | subtracting `f/m·dt` from a velocity takes exactly `f·dt` from the momentum |
| Gravity.KickSelf | gravity.py:19-41 | a body exerts no force on itself, so kicking a body against itself changes nothing |
| Gravity.UpdateVelocities | gravity.py:33-41 | both bodies take exactly their share of the kick; one force, computed before either update, is used for both |
| Numerics.Trunc | collision.py:25 | Python's `int()` on a real: truncation toward zero, so the result lies within 1 of the input on the side of zero; `TruncMonotone` shows it never decreases on the non-negative reals |
| Numerics.TruncMonotone | collision.py:25 | truncation preserves order on the non-negative reals |
| Collision.Radius | collision.py:20-25 | for a non-negative mass the radius is the truncation toward zero of cbrt(mass)·1e-10: a non-negative integer r with r ≤ cbrt(mass)·1e-10 < r + 1 |
| Collision.RadiusMonotone | collision.py:20-25 | a heavier body never has a smaller radius |
| Collision.RadiusZeroBelow | collision.py:24-25 | the radius is 0 exactly when the mass is below 1e30 kg |
| Collision.Distance | collision.py:9-11 | the unsoftened distance is non-negative and its square is dx² + dy² |
| Collision.Collides | collision.py:3-18 | the overlap test `distance < radius1 + radius2`; the lemmas beside it show that it is symmetric, equals a comparison of squares, never holds when both radii truncate to 0, and reads no velocity (`PairScan.CollidesIgnoresVelocity`) |
| Collision.CollidesSymmetric | collision.py:3-18 | the collision test does not depend on the order of the two bodies |
| Collision.CollidesWithoutSqrt | collision.py:9-18 | for non-negative masses, colliding is the same as the squared separation being below the squared sum of the radii |
| Collision.ZeroRadiiNeverCollide | collision.py:18 | two bodies whose radii both truncate to 0 never collide, not even at one point, because the test is a strict `<` |
| Collision.Merge | collision.py:27-48 | the merged mass is the sum of the masses, and the merged momentum on each axis is the sum of the momenta |
| Collision.MergePositionAndColor | collision.py:39-46 | the merged body sits at body1 only when body1 is strictly heavier (a tie goes to body2), and it is orange |
| Collision.MergeVelocityBetween | collision.py:35-37 | for positive masses each merged velocity component lies between the two input components |
| Collision.WeightedMeanBetween | collision.py:36-37 | a mass-weighted mean of two values lies between them |
| Collision.HandleCollision | collision.py:27-48 | the method returns a fresh body whose state is `Merge` of the two inputs, which are left untouched |
| MergeQueue.ApplyMerge | sim.py:144-145 | one merge succeeds exactly when both indices are in range; success removes one body; a failure leaves the list as it was when it failed (unchanged if `bodies[i]` raises, with the assignment done if the `pop(j)` raises) |
| MergeQueue.ApplyMergeShifts | sim.py:144-145 | after a merge, index `i` holds the merged body, indices below `j` keep their bodies, and those above `j` shift down by one |
| MergeQueue.ApplyMerges | sim.py:143-145 | the merge loop over the queue, stopping at the first `IndexError`; the lemmas beside it give its length on completion, that nothing changes after a raise, and how it extends by one entry |
| MergeQueue.ApplyMergesSnoc | sim.py:143-145 | applying a queue with one more entry is applying the queue and then that entry, unless the queue already raised |
| MergeQueue.ApplyMergesLength | sim.py:143-145 | a merge loop that completes removes exactly one body per queued entry |
| MergeQueue.ApplyMergesStopsAtRaise | sim.py:143-145 | once a prefix of the queue raises, the rest of the queue changes nothing |
| MergeQueue.ApplyMergesPrefix | sim.py:143-145 | a completed prefix extends by one entry by applying that entry, and a raise there is the outcome of the whole queue |
| MergeQueue.ThreeWayMergeRaises | sim.py:143-145 | the queue (0,1), (0,2), (1,2) on three bodies raises at its second entry: `bodies[0]` becomes the second merge, then `pop(2)` is out of range, so the list holds that merge and the third original body |
| MergeQueue.DisjointMergesRaise | sim.py:143-145 | the queue (0,1), (2,3) on four bodies raises: after the first pop, index 3 is out of range |
| MergeQueue.ChainMergeDropsBystander | sim.py:143-145 | the queue (0,1), (1,2) on four bodies completes, yet the original bodies c and d are both gone and only the two merged bodies remain |
| PairScan.ScanOrder | sim.py:133-134 | the pairs the nested loops visit, in order; `ScanOrderExact` shows they are each pair a < b < n exactly once, in lexicographic order, and `ScanOrderSmall` that 0 or 1 bodies give no pair |
| PairScan.RowFacts | sim.py:134 | row `i` from `lo` to `hi` lists (i, lo), …, (i, hi-1) in order |
| PairScan.PairsBelowWithin | sim.py:133-134 | every pair visited before row `i` has a first index below `i` and satisfies a < b < n |
| PairScan.PairsBelowCovers | sim.py:133-134 | every pair a < b < n with a < i is visited before row `i` |
| PairScan.PairsBelowSorted | sim.py:133-134 | the visited pairs are strictly increasing in lexicographic order, so none repeats |
| PairScan.ScanOrderExact | sim.py:133-134 | the scan visits each unordered pair a < b < n, only those, exactly once, in lexicographic order |
| PairScan.ScanOrderSmall | sim.py:133-134 | with 0 or 1 bodies the scan visits no pair |
| PairScan.VisitedWithin | sim.py:133-134 | the pairs visited so far lie within the list |
| PairScan.VisitedNext | sim.py:134 | an inner-loop step appends exactly the pair (i, j) to the visited pairs |
| PairScan.VisitedEnds | sim.py:133-134 | row `i` starts with the pairs of the earlier rows and ends with those of rows up to `i` |
| PairScan.Ops | sim.py:135-140 | the pair operations of the scan agree with `Collides`, `Merge` and `Kick` on every pair of positive masses |
| PairScan.VisitPair | sim.py:135-140 | a visit keeps the number of bodies and their positive masses |
| PairScan.VisitQueues | sim.py:135-138 | a colliding pair appends its merge, computed from the current states, and changes no body |
| PairScan.VisitKicks | sim.py:139-140 | a non-colliding pair takes both kicks and queues nothing |
| PairScan.Scan | sim.py:133-140 | the scan keeps the number of bodies and their positive masses |
| PairScan.VisitKeepsPlaces | sim.py:135-140 | a visit changes no position, mass or colour |
| PairScan.ScanKeepsPlaces | sim.py:133-140 | the whole scan changes no position, mass or colour; only velocities change |
| PairScan.ScanSnoc | sim.py:133-140 | scanning one more pair is one more visit from the state reached so far |
| PairScan.ScanConcat | sim.py:133-140 | scanning `a + b` is scanning `a` and then `b` from where `a` ended |
| PairScan.PairsWithinSplit | sim.py:133-134 | a concatenation of pairs is in range exactly when both parts are |
| PairScan.CollidesIgnoresVelocity | collision.py:3-18 | the collision test reads only positions and masses, so kicks cannot change it |
| PairScan.ScanQueuesCurrentStates | sim.py:135-138 | a colliding pair queues the merge of the states the scan has reached when it visits that pair |
| PairScan.ScanKicksCurrentStates | sim.py:139-140 | a non-colliding pair kicks the states the scan has reached when it visits that pair, and the queue is unchanged |
| PairScan.ScanQueuesStartCollisions | sim.py:133-138 | the queued index pairs are exactly the pairs that collide at the start of the tick, in scan order |
| PairScan.ScanMergedMasses | sim.py:135-138 | the scan only appends to the queue; every new entry has i < j < n and a mass that is the sum of the two start masses |
| PairScan.TotalConcat | sim.py:133-149 | the total mass or momentum of a concatenation is the sum of the totals |
| PairScan.TotalUpdate | sim.py:144 | replacing one body changes the total by the difference of the two bodies |
| PairScan.TotalRemove | sim.py:145 | popping one body subtracts exactly its share from the total |
| PairScan.ApplyMergeTotal | sim.py:144-145 | a merge with i < j < n succeeds, and changes the total by the merged body minus the two bodies at i and j |
| PairScan.TotalUpdatePair | sim.py:139-140 | updating two bodies so that their summed share is preserved keeps the list total |
| PairScan.KickKeepsMeasure | gravity.py:33-41 | a kick keeps the pair's summed mass and summed momentum on each axis |
| PairScan.ScanConservesTotals | sim.py:133-140 | the scan keeps the total mass and the total momentum on each axis of the bodies |
| Sim.DriftAll | sim.py:148-149 | every body drifts once with the same time step, and the number of bodies is unchanged |
| Sim.DriftAllKeepsTotals | sim.py:148-149 | the drift keeps the total mass and the total momentum |
| Sim.MergesKeepPositive | sim.py:143-145 | merging bodies of positive mass leaves only bodies of positive mass |
| Sim.Tick | sim.py:129-149 | a tick that completes leaves only bodies of positive mass |
| Sim.TickKeepsPositive | sim.py:133-145 | after the scan and the merge loop, every body has positive mass, whether or not the loop raised |
| Sim.Ticks | sim.py:129-149 | repeated ticks that complete leave only bodies of positive mass |
| Sim.TickFewBodies | sim.py:133-149 | with 0 or 1 bodies the tick is pure drift, with no self-force |
| Sim.NoCollisionsFound | sim.py:135 | when no pair overlaps, no visited pair collides |
| Sim.TickWithoutCollisions | sim.py:129-149 | when no pair overlaps, the tick completes, keeps every body, and keeps the total mass and the total momentum on each axis |
| Sim.TickRemovesOnePerCollision | sim.py:129-149 | a tick that completes removes exactly one body per colliding pair |
| Sim.TickOneCollision | sim.py:129-149 | with exactly one colliding pair the tick completes, removes one body and keeps the total mass |
| Sim.ScanOrderChecked | sim.py:133-134 | the scan order, with every pair in range |
| Sim.ThreeWayCollisionRaises | sim.py:133-145 | three mutually overlapping bodies make the tick raise IndexError |
| Sim.ThreeWayScan | sim.py:133-138 | when all three pairs of three bodies collide, the scan queues all three in order and kicks none |
| Sim.MergeSeesEarlierKicks | sim.py:133-140 | when bodies 0 and 1 pass and 0 and 2 collide, the merge queued for (0, 2) is built from body 0 as already kicked by body 1 |
| Sim.LateKicksScan | sim.py:133-140 | when of three bodies only 0 and 1 collide, the scan queues the merge of their start-of-tick states, then kicks body 0 against body 2 and body 1 against the already kicked body 2 |
| Sim.TickLateKicks | sim.py:133-149 | in that case the tick completes with exactly two bodies: the merge of the start-of-tick states of bodies 0 and 1, and body 2 after both kicks, each drifted once |
| Sim.KickedTwiceMomentum | sim.py:139-140 | a body kicked by two others in turn loses exactly the sum of both forces' shares, (F1 + F2)·dt, of its x momentum |
| Sim.LateKicksMomentum | sim.py:133-149 | the total x momentum of the two bodies `TickLateKicks` leaves is the start total minus (F02 + F12)·dt, where F02 and F12 are the x forces of body 2 on bodies 0 and 1 |
| Sim.LateKicksGain | sim.py:133-149 | when body 2 lies to the left of bodies 0 and 1, it pulls both towards negative x, and over a positive time step those two bodies have more total x momentum than at the start |
| Sim.TickKeepsLateKicks | sim.py:133-149 | the tick does not conserve momentum: with only bodies 0 and 1 of three colliding, the total x momentum changes by exactly body 2's gain from the kicks, because those kicks' opposite halves on 0 and 1 are dropped by the merge |
| Sim.TickGainsMomentum | sim.py:133-149 | for a positive time step and body 2 to the left of both colliding bodies, the tick strictly increases the total x momentum |
| Sim.ThreeWayOrder | sim.py:133-134 | three bodies are scanned in the order (0,1), (0,2), (1,2) |
| Sim.RemoveKeeps | sim.py:145 | `pop(j)` keeps the other bodies' states in order, keeps the bodies distinct and adds none |
| Sim.Simulation.constructor | sim.py:95 | the simulation holds exactly the given list of distinct bodies |
| Sim.Simulation.Visit | sim.py:135-140 | one inner-loop body: the bodies and the queue afterwards are `VisitPair` of those before; new queue entries are fresh bodies |
| Sim.Simulation.ScanRow | sim.py:134-140 | the inner loop over j carries the scan state from row `i`'s start to its end |
| Sim.Simulation.ScanPairs | sim.py:133-140 | the nested scan leaves the body objects in place, with states and queue equal to `Scan` over the full scan order |
| Sim.Simulation.ApplyOne | sim.py:144-145 | one merge-loop step on the live list: it succeeds exactly when `ApplyMerge` does, with the same resulting states |
| Sim.Simulation.ApplyQueue | sim.py:143-145 | the merge loop on the live list stops at the first raise, with the states `ApplyMerges` gives |
| Sim.Simulation.DriftBodies | sim.py:148-149 | every live body's new state is `DriftAll` of the old states |
| Sim.Simulation.Step | sim.py:129-149 | one tick on live objects: it completes exactly when `Tick` does, and leaves the states `Tick` gives |

## Left out

- Floating point: the model computes over exact reals. IEEE rounding, overflow and NaN are not modelled. Conservation laws hold exactly here, only approximately in the source.
- `math.sqrt` and `math.cbrt` are not computed. They are fields of `MathLib`, known only through the root laws.
- Division by zero: `update_velocities` divides by each mass (gravity.py:37-41), so `Kick` and `UpdateVelocities` require both masses to be non-zero. `handle_collision` divides by the sum of the masses (collision.py:36-37), so `Merge` and `HandleCollision` require that sum to be non-zero. The tick requires positive masses, which the tick itself preserves. The `ZeroDivisionError` these divisions would raise is not modelled.
- collision.py never imports `Body`, yet `handle_collision` calls it (collision.py:46). As written, the first collision raises `NameError` and ends the program. The model follows the evident intent and builds the merged body with the `Body` constructor of gravity.py. The `NameError` is not modelled.
- The body list may not hold the same object twice (`Distinct`). With aliasing, a single body would be kicked twice per pair, and that case is not modelled.
- `Sim.TickOneCollision`: this tick-level claim covers mass only, because the tick does not conserve momentum. The merge is built when its pair is visited (sim.py:137-138). The pairs visited after it still kick bodies `i` and `j` (sim.py:139-140), and the merge then overwrites those kicks (sim.py:144-145), while the partners keep their opposite kicks. `Sim.TickKeepsLateKicks` gives the exact change for three bodies; `Collision.Merge` and `PairScan.ApplyMergeTotal` show that a single merge conserves momentum.
- `Sim.Ticks`: the `while running` loop is modelled only as repetition of the tick. The event queue, `clock.tick(60)` and frame timing are not modelled. `Sim.Simulation.Step` takes the time step as an argument; the program passes `TIMESTEP` = 10000.
- Drift over several ticks (a closed form in `n·dt`) is not stated: it needs nonlinear real arithmetic.
- pygame: window, drawing, the display radius `calculate_radius` of sim.py, the zoom and pan controllers, and the mouse events are not modelled. None of it changes the physics state.
- `create_celestial_bodies` (the sun, earth and moon start values) is not modelled. `Sim.Simulation.constructor` takes any list of distinct bodies.
- The windowing and drawing constants of sim.py (`SCALE`, `PAN_SPEED`, the display `MASS_SCALE`) are not modelled.
