# Boids: the flock update and the spawner, modelled in Dafny

This project models the two systems that hold the logic of a Unity ECS flocking demo.

**BoidMovementSystem.OnUpdate** runs once per frame. Phase 1 works from a snapshot of every boid's position and velocity. For each boid it:
- scans all other boids for neighbours within radius 4;
- averages three rules over those neighbours:
  - separation, the repulsion away from each neighbour;
  - alignment, the mean of the neighbours' velocities;
  - cohesion, the pull toward the neighbours' centroid;
- adds a boundary-avoidance ramp near the faces of the cube [-40, 40]³;
- integrates with the frame time;
- renormalises to speed 5.

Phase 2 moves every boid with its new velocity. On each axis where the boid has left the cube, it reverses that velocity component and clamps the coordinate. The boid then faces along its final velocity.

**BoidSpawnerSystem.OnUpdate** visits every spawner entity in query order. Each spawner queues, in an entity command buffer, `count` boids from its prefab. The boids go in groups of ten around random group centres, and every boid in a group faces that group's random yaw. Each spawner then queues its own destruction. The buffer is played back once, at the end.

The model has three modules:
- `Vectors` (`vectors.dfy`): float3 arithmetic over the reals. The square root is injected as a function `sqrt` that satisfies `IsSqrt`, and `Length`, `Distance` and `Normalize` are built from it.
- `BoidMovement` (`boid_movement.dfy`): the flock update.
  - Methods over the two component arrays (transforms and velocities) follow the source's loops.
  - Each method is proved equal to a function of the old contents (`Tick`).
  - The flocking properties are proved about those functions.
- `BoidSpawning` (`boid_spawner.dfy`): the spawner.
  - `CommandBuffer` is a class that records commands as a sequence.
  - Placeholders are numbered by the Instantiate commands queued before them.
  - `Playback` is a left-to-right fold of the commands over a `World` value. That value holds the live spawners and the boid entities.
  - `OnUpdate`'s loops are proved to queue exactly `Buffer(...)`, and its result is proved to be the world with every spawner removed and every boid appended, placed.

## Model

| member | source | states |
|---|---|---|
| Vectors.Length | Assets/Scripts/BoidMovementSystem.cs:80 | math.length: non-negative, and its square is the squared norm |
| Vectors.Distance | Assets/Scripts/BoidMovementSystem.cs:51 | math.distance: non-negative and squares to the squared distance |
| Vectors.DistanceSymmetric | Assets/Scripts/BoidMovementSystem.cs:51 | distance(a, b) == distance(b, a) |
| Vectors.Normalize | Assets/Scripts/BoidMovementSystem.cs:80 | math.normalize of a non-zero vector: unit squared norm, and scaling it back by the length gives the input |
| BoidMovement.Neighbors | Assets/Scripts/BoidMovementSystem.cs:44-57 | the neighbour list the inner scan builds holds only scanned indices |
| BoidMovement.NeighborsExact | Assets/Scripts/BoidMovementSystem.cs:44-57 | j is listed iff j < k, j ≠ i and dist(pos i, pos j) < 4 |
| BoidMovement.NeighborsIncreasing | Assets/Scripts/BoidMovementSystem.cs:44-57 | neighbours are accumulated in strictly increasing index order, each once |
| BoidMovement.NotOwnNeighbor | Assets/Scripts/BoidMovementSystem.cs:46 | a boid is never its own neighbour |
| BoidMovement.NeighborSymmetric | Assets/Scripts/BoidMovementSystem.cs:51-52 | j is a neighbour of i iff i is a neighbour of j |
| BoidMovement.Secluded | Assets/Scripts/BoidMovementSystem.cs:44-57 | a boid whose every other boid is at distance ≥ 4 has no neighbour |
| BoidMovement.NoNeighborsNoRules | Assets/Scripts/BoidMovementSystem.cs:38-64 | with no neighbour, separation, alignment and cohesion stay zero |
| BoidMovement.FlockRulesOf | Assets/Scripts/BoidMovementSystem.cs:53-63 | with neighbours, the rules are the mean repulsion, the mean velocity, and the centroid minus the boid's position |
| BoidMovement.SoleNeighbor | Assets/Scripts/BoidMovementSystem.cs:53-63 | with one neighbour j: separation is the repulsion from j, alignment is j's velocity, cohesion is pos j − pos i |
| BoidMovement.RepulsionAway | Assets/Scripts/BoidMovementSystem.cs:53 | (pos i − pos j) / max(dist, 0.01) never points against pos i − pos j, and strictly along it when they differ |
| BoidMovement.SoleNeighborRepels | Assets/Scripts/BoidMovementSystem.cs:53-63 | a lone neighbour pushes the boid away from it |
| BoidMovement.AlignWithUnison | Assets/Scripts/BoidMovementSystem.cs:54-62 | neighbours that all fly with velocity u give alignment exactly u |
| BoidMovement.AvoidAxis | Assets/Scripts/BoidMovementSystem.cs:66-76 | the ramp is zero for offsets up to 24 in size, points back toward the centre beyond, stays within 50 in size up to 40, and reaches 50 at the face |
| BoidMovement.CalmZone | Assets/Scripts/BoidMovementSystem.cs:66-76 | inside the cube of half-side 24 there is no boundary avoidance |
| BoidMovement.IsolatedBoid | Assets/Scripts/BoidMovementSystem.cs:60-79 | a boid without neighbours is steered by boundary avoidance alone |
| BoidMovement.AccelerationWithoutRules | Assets/Scripts/BoidMovementSystem.cs:78 | with all three rules zero, the acceleration is the boundary avoidance |
| BoidMovement.Unsteered | Assets/Scripts/BoidMovementSystem.cs:66-79 | no neighbour and no avoidance leaves the velocity as it was before renormalising |
| BoidMovement.Renormalize | Assets/Scripts/BoidMovementSystem.cs:80 | normalize(v) * 5 has squared speed 25 and the direction of v |
| BoidMovement.RenormalizeCruising | Assets/Scripts/BoidMovementSystem.cs:80 | a velocity already at speed 5 is unchanged by renormalising |
| BoidMovement.CalmCruise | Assets/Scripts/BoidMovementSystem.cs:44-82 | an isolated boid inside the calm zone at cruise speed keeps its velocity |
| BoidMovement.ReflectAxis | Assets/Scripts/BoidMovementSystem.cs:94-107 | one axis: in bounds, unchanged; past a face, clamped onto it with the component negated; the result is within ±40; the squared component is kept |
| BoidMovement.MoveBoid | Assets/Scripts/BoidMovementSystem.cs:89-109 | each axis bounces independently; the position ends in bounds; squared speed kept; rotation faces the final velocity; a boid that stays inside just moves on |
| BoidMovement.BounceOffFace | Assets/Scripts/BoidMovementSystem.cs:89-109 | a boid at x = 39.9 flying +x at 5 for 1 s ends at x = 40 with velocity (−5, 0, 0) |
| BoidMovement.NewVelocities | Assets/Scripts/BoidMovementSystem.cs:33-83 | phase 1 yields one velocity per boid, each with squared speed 25 |
| BoidMovement.Moves | Assets/Scripts/BoidMovementSystem.cs:85-113 | phase 2 keeps the flock's length and order, puts every boid in bounds and keeps each squared speed |
| BoidMovement.Tick | Assets/Scripts/BoidMovementSystem.cs:31-113 | a whole tick keeps length and order; every boid ends in [−40, 40]³ with squared speed 25 |
| BoidMovement.AccumulateNeighbors | Assets/Scripts/BoidMovementSystem.cs:44-58 | the inner loop's count and sums are exactly those over the neighbour list |
| BoidMovement.SteerBoid | Assets/Scripts/BoidMovementSystem.cs:35-82 | the phase-1 body for boid i computes NewVelocity of the snapshot |
| BoidMovement.SteerAll | Assets/Scripts/BoidMovementSystem.cs:31-83 | phase 1 fills a fresh array with NewVelocities of the snapshot, a function of the snapshot alone, so the result does not depend on the order of the writes |
| BoidMovement.Bounce | Assets/Scripts/BoidMovementSystem.cs:86-109 | the phase-2 body computes MoveBoid |
| BoidMovement.MoveAll | Assets/Scripts/BoidMovementSystem.cs:85-113 | phase 2 writes back exactly the transforms and velocities of Moves on the old transforms |
| BoidMovement.OnUpdate | Assets/Scripts/BoidMovementSystem.cs:27-113 | the component arrays end holding exactly one Tick of their old contents |
| BoidSpawning.NumGroups | Assets/Scripts/BoidSpawner.cs:30 | numGroups is the least r with total ≤ 10 r |
| BoidSpawning.NumGroupsIsCeiling | Assets/Scripts/BoidSpawner.cs:30 | the integer group count is the ceiling of total / 10 over the reals |
| BoidSpawning.Groups | Assets/Scripts/BoidSpawner.cs:29-44 | every boid's group is one of the numGroups groups; each group holds between 1 and 10 boids; all but the last are full; the last holds total − 10 (numGroups − 1) |
| BoidSpawning.GroupQueues | Assets/Scripts/BoidSpawner.cs:32-44 | group g queues exactly GroupLength(total, g) more boids than the groups before it |
| BoidSpawning.GroupMember | Assets/Scripts/BoidSpawner.cs:40-44 | boid n is in group g iff it is one of the GroupLength(total, g) boids from 10 g on |
| BoidSpawning.NinetyFive | Assets/Scripts/BoidSpawner.cs:29-44 | 95 boids give 10 groups: nine of 10, then one of 5 |
| BoidSpawning.PlacementNearCenter | Assets/Scripts/BoidSpawner.cs:34-49 | for unit-ball samples, each boid lies within 2 of its group centre and within 22 of the origin |
| BoidSpawning.WithinSpread | Assets/Scripts/BoidSpawner.cs:48-49 | centre + 2 · (unit-ball point) is within 2 of the centre |
| BoidSpawning.WithinReach | Assets/Scripts/BoidSpawner.cs:34-49 | 20 · (unit-ball point) + 2 · (unit-ball point) lies within 22 of the origin |
| BoidSpawning.Spawns | Assets/Scripts/BoidSpawner.cs:40-54 | n boids take 2 n commands |
| BoidSpawning.SpawnsSnoc | Assets/Scripts/BoidSpawner.cs:46-54 | queuing boid n appends its Instantiate and then the SetTransform of placeholder first + n to its placement |
| BoidSpawning.GroupShareRotation | Assets/Scripts/BoidSpawner.cs:37-54 | every boid of a group is set to the group's rotation |
| BoidSpawning.SpawnsCounts | Assets/Scripts/BoidSpawner.cs:40-54 | n boids queue exactly n Instantiate commands and no destroy |
| BoidSpawning.SpawnerCounts | Assets/Scripts/BoidSpawner.cs:25-58 | one spawner queues max(count, 0) Instantiates, destroys only itself, once, as its last command |
| BoidSpawning.BufferInstantiations | Assets/Scripts/BoidSpawner.cs:25-58 | the buffer instantiates exactly the sum of max(count, 0) over the spawners |
| BoidSpawning.BufferDestroys | Assets/Scripts/BoidSpawner.cs:25-58 | the buffer destroys every spawner once, in query order, and nothing else |
| BoidSpawning.RunAppend | Assets/Scripts/BoidSpawner.cs:61 | playing back a + b is playing back a, then b |
| BoidSpawning.Spawned | Assets/Scripts/BoidSpawner.cs:25-58 | the boids the spawners create number the sum of max(count, 0) over the spawners, the number their commands instantiate |
| BoidSpawning.RunSpawns | Assets/Scripts/BoidSpawner.cs:46-61 | playing back n boids' commands appends exactly those n boids, each placed, and touches no spawner |
| BoidSpawning.RunSpawner | Assets/Scripts/BoidSpawner.cs:46-61 | one spawner's commands append its boids, placed, and remove that spawner |
| BoidSpawning.RunBuffer | Assets/Scripts/BoidSpawner.cs:25-61 | playing back the first m spawners' commands appends all their boids in order and removes exactly those spawners |
| BoidSpawning.PlaybackSpawnsAll | Assets/Scripts/BoidSpawner.cs:58-61 | after playback no spawner is left and the world holds its old boids followed by every requested boid, placed |
| BoidSpawning.CommandBuffer.constructor | Assets/Scripts/BoidSpawner.cs:21 | a new command buffer is empty |
| BoidSpawning.CommandBuffer.Instantiate | Assets/Scripts/BoidSpawner.cs:46 | appends an Instantiate and returns as placeholder the number of earlier Instantiates |
| BoidSpawning.CommandBuffer.SetComponent | Assets/Scripts/BoidSpawner.cs:54 | appends a SetTransform and nothing else |
| BoidSpawning.CommandBuffer.DestroyEntity | Assets/Scripts/BoidSpawner.cs:58 | appends a DestroyEntity and nothing else |
| BoidSpawning.CommandBuffer.Playback | Assets/Scripts/BoidSpawner.cs:61 | applies every queued command to the world, in queue order |
| BoidSpawning.OnUpdate | Assets/Scripts/BoidSpawner.cs:19-63 | queues exactly Buffer of all spawners; the world changes only at playback; afterwards no spawner is left and every requested boid is appended, placed |
| BoidSpawning.SpawnGroup | Assets/Scripts/BoidSpawner.cs:32-56 | one group queues the next GroupLength(count, g) boids of the spawner, min(10, remaining), and stops at its count |
| BoidSpawning.SpawnBoid | Assets/Scripts/BoidSpawner.cs:40-55 | one boid queues an Instantiate and then the SetTransform of its placeholder to group centre + offset with the group rotation |

## Left out

- The square root, quaternion.LookRotationSafe and quaternion.AxisAngle(math.up(), math.radians(angle)) are injected as functions: `sqrt` with its defining property, `look` and `yaw`. The model does not look inside a quaternion.
- UnityEngine.Random is replaced by `Samples`, the draws it would have produced, indexed by spawner, group and boid. `InUnitBall` states the insideUnitSphere range. The Range(0, 360) angle only reaches `yaw`, so no range is stated for it.
- SystemAPI.Time.DeltaTime is the parameter `deltaTime`.
- Everything is over the reals. Float rounding, overflow, NaN and the float conversion in `(int)math.ceil(total / 10f)` are not modelled; that conversion is exact only up to 2^24.
- BoidMovement.OnUpdate requires `Normalizable`: every boid's pre-normalisation velocity is non-zero. The source calls math.normalize without a guard, and its result for a zero vector is not modelled.
- BoidMovement.OnUpdate: the entity query, ToEntityArray/ToComponentDataArray and SetComponentData are modelled as two index-aligned arrays. The model reads snapshots of them and writes each boid's transform and velocity back in place. Entity identity and LocalTransform's scale are not modelled.
- BoidMovement: only the nominal order of the flock is covered. That relabelling the boids relabels the result (permutation equivariance) is not proved.
- The unused `forward` local and its math.mul are left out.
- The NativeArray and command-buffer Dispose calls, RequireForUpdate, and the Burst and UpdateInGroup attributes are engine plumbing without visible semantics.
- BoidSpawning.World keeps only the spawner entities and the boid entities. A boid's LocalTransform is None until its SetTransform is played back.
- BoidSpawning.Apply ignores a SetTransform whose placeholder names no created instance. The system never queues one.
- BoidSpawning.SpawnGroup and BoidSpawning.SpawnBoid are the bodies of the group loop and the boid loop, moved into methods of their own. The loops and their `break` are unchanged.
- BoidSpawnerAuthoring.cs and BoidAuthoring.cs (editor bakers) are not part of this model.
