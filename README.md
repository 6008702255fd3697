# engine3d game logic in Dafny

This project models the frame-stepped game logic of the engine3d C++ engine and proves properties about it. It covers:

- the axis-aligned collision test and the state of a `Shape`;
- the first-person `Player` controller: gravity, two-phase movement with rollback, jump, crouch and camera;
- the physics tick of the `DemoPhysics` scene over its shape collection, driven by a per-frame input snapshot;
- the `Entity` life cycle and its `EnemyEntity` and `FriendlyEntity` behaviours;
- key-edge detection and the mouse and scroll clamps of `Input`;
- the ripple ring and bounds queries of `Water`, plus the index and vertex loops of its mesh;
- the vertex and index loops of `Sphere` and `Cylinder`;
- the book-keeping of `AudioSystem`: the extension and buffer cache of `loadSound`, the RIFF/WAVE header and chunk scan of `loadWAV`, the format choice, the stereo-to-mono downmix, `init`/`shutdown` flags, and source pruning.

The model follows the source's form, file by file:

- Objects whose methods update fields are Dafny classes: `Shape`, `Player`, `DemoPhysics`, `Entity`, `EnemyEntity`, `FriendlyEntity`, `Input`, `Water` and `AudioSystem`.
- Each method is proved against a function over a value snapshot of the object (`State()`, `Snapshot()`, `RingState()`, `LookState()`).
- The properties the source promises are proved as lemmas about those functions.
- The mesh loops are methods with loop invariants, specified by row-major grid functions (module `Grids`).
- Numbers are reals, and integers are unbounded.
- GLFW input, random draws, `sqrt`/`normalize`/trigonometry and OpenAL/decoder results are parameters. Their properties are stated as hypotheses: `IsNormalizer`, `IsUnitCircle`, and the `Backend` record of the audio loaders.

Modules: `Vectors` (vec3 arithmetic), `Grids` (row-major layout), `Shapes`, `Players`, `Physics`, `Entities`, `Enemies`, `Friendlies`, `Inputs`, `Waters`, `Spheres`, `Cylinders`, `Audio`.

## Model

| member | source | states |
|---|---|---|
| Shapes.Shape.constructor | src/Shape.cpp:3-18 | a new shape has zero position, velocity and rotation, unit scale, no gravity, not static, collidable |
| Shapes.Shape.SetPosition | src/Shape.cpp:25-28 | only the position changes; velocity, scale, rotation and flags are kept |
| Shapes.Shape.Rotate | src/Shape.cpp:30-33 | rotation grows by axis*angle and nothing else changes |
| Shapes.Shape.SetScale | src/Shape.cpp:35-38 | only the scale changes |
| Shapes.CollidesIffSharePoint | src/Shape.cpp:61-80 | for non-negative sizes, the overlap test holds iff the two closed boxes of half-extent scale/2 share a point |
| Shapes.CollidesSymmetric | src/Shape.cpp:61-80 | the collision test is symmetric |
| Shapes.SameCentreCollides | src/Shape.cpp:70-79 | two boxes with non-negative size and the same centre always collide |
| Shapes.TouchingFacesCollide | src/Shape.cpp:70-79 | unit boxes whose faces touch collide (the test uses >=); boxes half a unit apart do not |
| Players.JumpSpeedIsSquareRoot | src/Player.cpp:52 | the jump speed constant squares to sqrt(1.5*19.6*2)^2 = 58.8 within 1e-4 |
| Players.ApplyGravityClamp | src/Player.cpp:75-78 | gravity sets vy to max(vy - 19.6*dt, -50) and changes nothing else |
| Players.SpeedTiers | src/Player.cpp:39-40 | crouching picks crouchSpeed; otherwise runSpeed 4.0 picks walkSpeed; otherwise runSpeed is used |
| Players.MoveKeepsVertical | src/Player.cpp:36-48 | move keeps vy; a non-zero direction sets vx, vz to direction*speed; a zero one zeroes vx, vz |
| Players.JumpGuard | src/Player.cpp:50-55 | a grounded, standing player gets vy = jump speed and leaves the ground; otherwise nothing changes |
| Players.CrouchIdempotent | src/Player.cpp:57-73 | setting the same crouch state twice equals setting it once |
| Players.CrouchRoundTrip | src/Player.cpp:57-73 | crouching then standing up restores an upright player exactly |
| Players.CrouchKeepsFeet | src/Player.cpp:57-73 | crouch keeps the feet height and the horizontal position and sets the requested height |
| Players.CameraInsideBody | src/Player.cpp:100-102 | the eye lies inside the player's box and drops by 0.9 when crouching |
| Players.ScanFrame | src/Player.cpp:80-98 | the collision scan changes only position, grounded and vy |
| Players.ScanPosition | src/Player.cpp:80-98 | the scan subtracts the velocity step once per overlapping collider, in order |
| Players.ScanVertical | src/Player.cpp:86-92 | after the scan, grounded holds iff it held before or a downward step hit something; any hit with a non-zero y step zeroes vy |
| Players.HorizontalScanKeepsVertical | src/Player.cpp:18-24 | a scan with y step 0 changes neither velocity nor grounded |
| Players.UpdateOutcome | src/Player.cpp:15-34 | after update, grounded holds iff the vertical step was downward and hit something; vy is 0 on a vertical hit, else the clamped gravity speed; vx, vz, scale and crouch are kept |
| Players.UpdatedInPhases | src/Player.cpp:15-34 | update is gravity, then the horizontal phase, then the vertical phase with the saved vy |
| Players.UpdateFreeFlight | src/Player.cpp:15-34 | with nothing to hit, the player moves by velocity*dt after gravity and is not grounded |
| Players.CollidersOfOutsider | src/Player.cpp:81-83 | for a player whose shape is not in the world, the scan tests exactly the collidable world shapes, in order |
| Players.Player.constructor | src/Player.cpp:5-13 | the player starts upright at the start position with scale (0.8, 2, 0.8), not grounded, not crouching |
| Players.Player.GetCameraPosition | src/Player.cpp:100-102 | the eye position lies inside the player's body box |
| Players.Player.SetGrounded | include/Player.h:16 | only the grounded flag changes |
| Players.Player.ApplyGravityStep | src/Player.cpp:75-78 | the new state is the gravity-clamped state |
| Players.Player.Move | src/Player.cpp:36-48 | the new state is Moved of the old one |
| Players.Player.Jump | src/Player.cpp:50-55 | the new state is Jumped of the old one |
| Players.Player.SetCrouch | src/Player.cpp:57-73 | the new state is Crouched of the old one |
| Players.Player.CheckCollisions | src/Player.cpp:80-98 | the loop leaves the state the scan over the world's colliders gives |
| Players.Player.CollideWith | src/Player.cpp:85-96 | one overlap test rolls back one step and sets grounded/vy as the scan does |
| Players.Player.MoveHorizontally | src/Player.cpp:18-24 | the horizontal phase with vy zeroed, restored afterwards |
| Players.Player.MoveVertically | src/Player.cpp:26-33 | the vertical phase from the saved vy, starting ungrounded |
| Players.Player.Update | src/Player.cpp:15-34 | the new state is Updated of the old one over the world's colliders |
| Physics.StaticShapeSkipped | src/scenes/DemoPhysics.cpp:142 | a static shape comes out of its step unchanged |
| Physics.StepKeepsShape | src/scenes/DemoPhysics.cpp:141-167 | a step changes only position and velocity |
| Physics.StepAboveFallLimit | src/scenes/DemoPhysics.cpp:163-166 | after its step, a dynamic shape is never below y = -30 |
| Physics.StepRollsBack | src/scenes/DemoPhysics.cpp:151-161 | a collidable shape that overlaps another collidable shape after moving keeps its old position with zero velocity (or respawns) |
| Physics.StepMovesFreely | src/scenes/DemoPhysics.cpp:144-149 | without an overlap the shape gets vy += -19.6*dt if it uses gravity, moves by velocity*dt, and respawns at (0,10,0) below -30 |
| Physics.PrefixFrame | src/scenes/DemoPhysics.cpp:141-167 | after k shapes, the later shapes are untouched and the earlier ones are final |
| Physics.WorldOrder | src/scenes/DemoPhysics.cpp:141-167 | shape k is stepped against the new positions of earlier shapes and the old positions of later ones |
| Physics.PrefixKeepsFlags | src/scenes/DemoPhysics.cpp:141-167 | the loop never changes flags, scale or rotation |
| Physics.WorldStepOutcome | src/scenes/DemoPhysics.cpp:141-167 | the world step keeps the length, keeps static shapes, and leaves every dynamic shape at y >= -30 |
| Physics.WorldStepKeepsFlags | src/scenes/DemoPhysics.cpp:141-167 | the world step changes only positions and velocities |
| Physics.LatchFollowsKey | src/scenes/DemoPhysics.cpp:129-137 | the latch records the M key, and post-processing flips exactly on a press not latched before |
| Physics.HeldKeyTogglesOnce | src/scenes/DemoPhysics.cpp:129-137 | holding M for any number of frames toggles post-processing once |
| Physics.SceneNeverWalks | src/scenes/DemoPhysics.cpp:180-181 | the scene's run speed is 8 or 6, so the walk tier is never chosen |
| Physics.FrameHorizontalVelocity | src/scenes/DemoPhysics.cpp:169-189 | after a frame the player's vx, vz are moveDir*speed, or zero without input |
| Physics.LoadedPlayerOnFloor | src/scenes/DemoPhysics.cpp:37-44 | the player spawned by load touches the floor, and would not if it stood one unit lower |
| Physics.NewShape | src/scenes/DemoPhysics.cpp:46-53 | a fresh default shape with the given position, scale and gravity flag |
| Physics.NewWorld | src/scenes/DemoPhysics.cpp:37-69 | load builds four fresh, distinct shapes equal to the initial world |
| Physics.SpawnPlayer | src/scenes/DemoPhysics.cpp:117-118 | the player starts at (0, -1.5, 2), grounded |
| Physics.DemoPhysics.constructor | src/scenes/DemoPhysics.cpp:22-119 | stands for `Engine::run` calling `load()` once (the scene has no constructor of its own): the scene starts loaded with the M latch released |
| Physics.DemoPhysics.Load | src/scenes/DemoPhysics.cpp:22-119 | load sets the initial world, a fresh grounded player and post-processing on |
| Physics.DemoPhysics.StepWorld | src/scenes/DemoPhysics.cpp:141-167 | the loop leaves the shapes at WorldStep of the old snapshots, and the player untouched |
| Physics.DemoPhysics.StepObject | src/scenes/DemoPhysics.cpp:142-166 | one iteration leaves shape i at StepShape of the snapshots |
| Physics.DemoPhysics.RollBack | src/scenes/DemoPhysics.cpp:151-161 | the inner loop restores the old position and zeroes velocity iff some other collidable shape overlaps |
| Physics.DemoPhysics.ToggleLatch | src/scenes/DemoPhysics.cpp:129-137 | the latch and post-processing flag follow LatchStep |
| Physics.DemoPhysics.SteerPlayer | src/scenes/DemoPhysics.cpp:169-188 | run speed, crouch, jump and move applied in the source's order |
| Physics.DemoPhysics.DrivePlayer | src/scenes/DemoPhysics.cpp:169-189 | the player ends at PlayerFrame over the world's collidable shapes; the world is untouched |
| Physics.DemoPhysics.Advance | src/scenes/DemoPhysics.cpp:129-189 | latch, world step and player frame in the source's order; the camera is not touched yet |
| Physics.DemoPhysics.Tick | src/scenes/DemoPhysics.cpp:129-191 | latch, world step, player frame, then the camera is the player's eye |
| Physics.DemoPhysics.Update | src/scenes/DemoPhysics.cpp:121-191 | R reloads the scene; otherwise a tick as above |
| Entities.DamageClamps | src/Entity.cpp:40-51 | health becomes max(0, health - damage), the entity dies iff that is <= 0, and a dead one has zero velocity |
| Entities.DieOnce | src/Entity.cpp:53-60 | die is idempotent, and its death hook runs only on the first call |
| Entities.TickFriction | src/Entity.cpp:20-38 | position += velocity*dt, then velocity*0.9; the velocity is zero if and only if the damped velocity is shorter than 0.01 |
| Entities.PushAlong | src/Entity.cpp:62-73 | a non-zero push sets direction to the unit vector along it and adds direction*moveSpeed; a zero push changes nothing |
| Entities.PushHorizontal | src/Entity.cpp:62-73 | a push along a horizontal unit vector keeps the direction horizontal and unit |
| Entities.PushUnit | src/Entity.cpp:62-73 | pushing along a unit vector uses it as the direction |
| Entities.DeadStaysFrozen | src/Entity.cpp:20-73 | any sequence of operations on a dead entity changes nothing |
| Entities.AliveAfterMeansAliveBefore | src/Entity.cpp:8-60 | death is permanent: an entity alive after a sequence was alive after every prefix of it |
| Entities.ApplyKeepsConsistent | src/Entity.cpp:20-73 | each operation keeps health >= 0, alive ==> health > 0, and at most one death hook |
| Entities.RunKeepsConsistent | src/Entity.cpp:20-73 | the same invariant over any sequence of operations |
| Entities.HealthStaysBelowMax | src/Entity.cpp:40-51 | non-negative damage never raises health above maxHealth |
| Entities.HealthFractionBounded | include/Entity.h:41 | the health fraction stays within [0, 1] over any sequence |
| Entities.Entity.constructor | src/Entity.cpp:8-18 | a new entity is alive with health 100 and the consistency invariant |
| Entities.Entity.IsDead | include/Entity.h:40 | dead iff not alive |
| Entities.Entity.GetHealthPercentage | include/Entity.h:41 | health/maxHealth, within [0, 1] for a consistent entity |
| Entities.Entity.Update | src/Entity.cpp:20-38 | the new state is Ticked of the old one |
| Entities.Entity.Die | src/Entity.cpp:53-60 | the new state is Killed of the old one |
| Entities.Entity.TakeDamage | src/Entity.cpp:40-51 | the new state is Damaged of the old one |
| Entities.Entity.Move | src/Entity.cpp:62-73 | the new state is Pushed of the old one |
| Enemies.InitialEnemyIdle | src/EnemyEntity.cpp:5-24 | a new enemy is alive at full health 75, without a target, with target = start |
| Enemies.DeadEnemyFrozen | src/EnemyEntity.cpp:30-31 | update and damage do nothing to a dead enemy |
| Enemies.DamageMakesAggressive | src/EnemyEntity.cpp:68-73 | damage applies the base damage rule and sets hasTarget, keeping the target |
| Enemies.StopsInRange | src/EnemyEntity.cpp:45-48 | within attack range 1.5 after the base update, the velocity becomes zero |
| Enemies.ChasesTarget | src/EnemyEntity.cpp:37-44 | beyond attack range, the enemy adds moveSpeed along the unit vector towards the target |
| Enemies.PatrolsWhenResting | src/EnemyEntity.cpp:49-59 | with no target and speed < 0.1, a horizontal unit direction is applied |
| Enemies.CoastsWhenMoving | src/EnemyEntity.cpp:49-60 | with no target and speed >= 0.1, only the base update runs |
| Enemies.TargetSticks | src/EnemyEntity.cpp:63-66 | setTargetPosition stores the target, sets hasTarget and leaves the body alone |
| Enemies.EnemyEntity.constructor | src/EnemyEntity.cpp:5-28 | the state is InitialEnemy at the start position |
| Enemies.EnemyEntity.Update | src/EnemyEntity.cpp:30-61 | the new state is EnemyTicked of the old one |
| Enemies.EnemyEntity.TakeDamage | src/EnemyEntity.cpp:68-73 | the new state is EnemyDamaged of the old one |
| Enemies.EnemyEntity.SetTargetPosition | src/EnemyEntity.cpp:63-66 | the new state is Targeted of the old one |
| Friendlies.InitialFriendlyWanders | src/FriendlyEntity.cpp:5-31 | a new friendly is alive at its start, with a period in [2, 5] and a horizontal unit wander direction |
| Friendlies.DeadFriendlyFrozen | src/FriendlyEntity.cpp:33-34 | update does nothing to a dead friendly |
| Friendlies.TimerRule | src/FriendlyEntity.cpp:40-51 | the timer grows by dt and resets to 0 exactly when it reaches the period, drawing a new direction and period |
| Friendlies.WanderStep | src/FriendlyEntity.cpp:53-54 | every live update ends by pushing along the wander direction |
| Friendlies.UpdateKeepsWandering | src/FriendlyEntity.cpp:33-55 | the period stays in [2, 5] and the directions stay horizontal across updates |
| Friendlies.FriendlyEntity.constructor | src/FriendlyEntity.cpp:5-31 | the state is InitialFriendly for the given draws |
| Friendlies.FriendlyEntity.Update | src/FriendlyEntity.cpp:33-55 | the new state is FriendlyTicked of the old one |
| Inputs.PressReleaseExclusive | src/Input.cpp:29-35 | pressed and released never hold together, and one of them holds iff the key changed |
| Inputs.UpdateEdges | src/Input.cpp:17-35 | after update, a polled key is pressed iff held now and not before, released iff the reverse |
| Inputs.HeldKeyNotPressedTwice | src/Input.cpp:17-31 | a key held over two updates is down but neither pressed nor released |
| Inputs.UnpolledKeysKept | src/Input.cpp:20-22 | keys outside the polled range keep their value and show no edge |
| Inputs.PitchClamped | src/Input.cpp:56-57 | pitch ends in [-89, 89] and is unchanged when already there |
| Inputs.FovClamped | src/Input.cpp:61-63 | fov ends in [1, 45] and is unchanged when already there |
| Inputs.FirstMouseRecordsOnly | src/Input.cpp:37-47 | the first mouse event records the cursor and clears firstMouse without turning |
| Inputs.MouseTurns | src/Input.cpp:37-58 | yaw += 0.1*(x - lastX); pitch becomes the clamp of pitch + 0.1*(lastY - y); the cursor is recorded |
| Inputs.YawFollowsCursor | src/Input.cpp:37-58 | over several events, yaw moves by 0.1 times the total cursor travel |
| Inputs.YawFromFirstEvent | src/Input.cpp:37-58 | starting with firstMouse, yaw moves by 0.1 times the travel since the first event |
| Inputs.LastEventRecorded | src/Input.cpp:46-47 | lastX/lastY hold the last event |
| Inputs.PitchStaysBounded | src/Input.cpp:53-57 | after any events, pitch is in [-89, 89] |
| Inputs.ScrollRoundTrip | src/Input.cpp:60-64 | inside the bounds, scrolling by y then -y restores the state |
| Inputs.ScrollBounded | src/Input.cpp:60-64 | fov stays in [1, 45], only fov changes, and a large scroll saturates at either end |
| Inputs.Input.constructor | src/Input.cpp:5-15 | all keys up, firstMouse set, yaw -90, pitch 0, fov 45 |
| Inputs.Input.Update | src/Input.cpp:17-23 | previous keys become the old current keys; current keys are resampled |
| Inputs.Input.IsKeyDown | src/Input.cpp:25-27 | the current key value |
| Inputs.Input.IsKeyPressed | src/Input.cpp:29-31 | down now and not before; a pressed key is down and not released |
| Inputs.Input.IsKeyReleased | src/Input.cpp:33-35 | up now and down before; a released key is not down |
| Inputs.Input.HandleMouse | src/Input.cpp:37-58 | the look state follows MouseMoved and pitch stays in [-89, 89] |
| Inputs.Input.HandleScroll | src/Input.cpp:60-64 | the look state follows Scrolled and fov stays in [1, 45] |
| Waters.RippleAdded | src/Water.cpp:148-152 | the slot at the index holds the new active ripple; every other slot is unchanged |
| Waters.NextSlot | src/Water.cpp:153 | the index advances by one and wraps from 7 to 0, staying in [0, 8) |
| Waters.AddAll | src/Water.cpp:148-154 | adding any number of ripples keeps 8 slots and an index in range |
| Waters.RingKeepsLatest | src/Water.cpp:148-154 | after n additions, each of the last 8 ripples sits in its round-robin slot, so the 9th overwrites the oldest |
| Waters.RingAdvances | src/Water.cpp:153 | after n additions the index is the old index + n mod 8 |
| Waters.ExpiryKeepsYoung | src/Water.cpp:216-221 | a ripple stays active iff it was active and is at most 5 seconds old; nothing else changes |
| Waters.ExpiryMonotone | src/Water.cpp:216-221 | expiry is idempotent, and expiring at a later time subsumes an earlier expiry |
| Waters.SurfaceIsFootprint | src/Water.cpp:156-165 | the bounds test is membership in the closed rectangle of the scaled surface around its centre |
| Waters.TouchIsBandOverlap | src/Water.cpp:182 | the touch test is overlap of the object's vertical extent with the band [h - 0.5, h] |
| Waters.SurfaceAroundCentre | src/Water.cpp:156-165 | with non-negative size and scale, the centre is in bounds, and a point is in bounds iff its mirror image through the centre is |
| Waters.MeshVertexLayout | src/Water.cpp:29-46 | the mesh has gridX*gridZ*8 floats, vertex (x, z) at row-major offset (z*gridX + x)*8 |
| Waters.GridVertexOnSurface | src/Water.cpp:29-46 | vertices lie in the y=0 plane with normal (0,1,0), corners at -+width/2, -+depth/2 with uv 0/1 |
| Waters.ScaledFraction | src/Water.cpp:31-44 | a grid fraction is in [0, 1] and its scaled coordinate in [0, width] |
| Waters.QuadInRange | src/Water.cpp:48-63 | the six indices of one quad are below gridX*gridZ |
| Waters.MeshIndicesInRange | src/Water.cpp:48-63 | there are 6*(gridX-1)*(gridZ-1) indices, each below gridX*gridZ |
| Waters.BuildVertices | src/Water.cpp:29-46 | the nested vertex loop builds MeshVertices |
| Waters.BuildIndices | src/Water.cpp:48-63 | the nested index loop builds MeshIndices |
| Waters.Water.constructor | src/Water.cpp:4-14 | width, depth and the resolution x resolution grid as given, a default body, all 8 ripple slots inactive, index 0, time 0, and the mesh built |
| Waters.Water.GenerateMesh | src/Water.cpp:20-63 | vertices and indices become the mesh of the current grid |
| Waters.Water.AddRipple | src/Water.cpp:148-154 | the ring becomes RippleAdded at the index, with the index advanced; grid and mesh unchanged |
| Waters.Water.GetHeightAt | src/Water.cpp:167-172 | -1000 outside the surface, otherwise the surface y plus the wave height |
| Waters.Water.CheckObjectInteraction | src/Water.cpp:174-186 | a ripple at (x, h, z) is added exactly when the object is in bounds and touches the surface; otherwise the ring is unchanged; grid and mesh unchanged |
| Waters.Water.ExpireRipples | src/Water.cpp:216-221 | the loop leaves RipplesExpired of the old ring at the current time |
| Waters.WavesAtPoint | src/Water.cpp:194-211 | at every grid point the wave pass puts the wave height at the point's world position in float 1 and the normal there in floats 3-5, and keeps floats 0, 2, 6 and 7 |
| Waters.WavesOnMesh | src/Water.cpp:194-211 | on the generated mesh, point (x, z) after the wave pass is its mesh position with the wave height as y, the sampled normal, and its texture coordinates |
| Waters.WorldPointAt | src/Water.cpp:198-202 | the sample point is the mesh position -width/2 + x*stepX (likewise z) scaled and moved by the water's transform |
| Waters.WavePass | src/Water.cpp:194-211 | the nested grid loop leaves WavesApplied of the old vertex floats |
| Waters.Water.UpdateWaves | src/Water.cpp:188-222 | the vertex floats become WavesApplied of the old ones, then old ripples are expired; time, index, size, grid and indices are kept |
| Waters.Water.Update | src/Water.cpp:224-227 | time advances by dt, then the wave pass at the new time rewrites heights and normals and old ripples are expired; the index, size, grid and indices are kept |
| Spheres.SphereVertexLayout | src/Sphere.cpp:19-41 | (stacks+1)*(sectors+1) vertices of 6 floats, vertex (i, j) at row-major offset |
| Spheres.VertexOnSphere | src/Sphere.cpp:19-41 | each vertex lies on the sphere of the radius, and its normal is the unit vector position/radius |
| Spheres.OnSphere | src/Sphere.cpp:21-39 | the computed point has length radius and the scaled normal unit length |
| Spheres.RingRadius | src/Sphere.cpp:20-31 | (r cos t cos s)^2 + (r sin t)^2 + (r cos t sin s)^2 = r^2 |
| Spheres.StackTrisWellFormed | src/Sphere.cpp:47-57 | each triangle of a stack uses indices in range, at most one of them on the first ring and at most one on the last ring |
| Spheres.SphereTrianglesWellFormed | src/Sphere.cpp:43-59 | the same holds for every triangle of the sphere |
| Spheres.StacksLength | src/Sphere.cpp:43-59 | the first and last stacks emit one triangle per sector, the others two |
| Spheres.SphereIndexCount | src/Sphere.cpp:43-61 | for stackCount >= 1 there are 6*sectorCount*(stackCount-1) indices |
| Spheres.BuildSphere | src/Sphere.cpp:7-61 | the constructor's loops build SphereVertices and the flattened triangles |
| Spheres.BuildSphereVertices | src/Sphere.cpp:19-41 | the vertex loop builds SphereVertices |
| Spheres.EmitRing | src/Sphere.cpp:24-40 | one stack's inner loop appends ring i |
| Spheres.LoopVertex | src/Sphere.cpp:20-39 | the loop's xy, z, x, y and lengthInv give SphereVertex(i, j) |
| Spheres.BuildSphereIndices | src/Sphere.cpp:43-59 | the index loop with k2 = k1 + sectorCount + 1 builds SphereIndices |
| Spheres.IndicesAreTriangles | src/Sphere.cpp:43-59 | the index list is the flattened triangle list |
| Spheres.Sphere.constructor | src/Sphere.cpp:7-81 | indexCount is the number of indices pushed |
| Cylinders.CylinderVertexCount | src/Cylinder.cpp:9-78 | the array holds 12*segments vertices of 8 floats (a multiple of 8) |
| Cylinders.CylinderParts | src/Cylinder.cpp:9-76 | 48, 24 and 24 floats per segment for the side, top and bottom, in that order |
| Cylinders.SideLayout | src/Cylinder.cpp:15-42 | vertex k < 6*segments is corner k mod 6 of side quad k / 6 |
| Cylinders.TopLayout | src/Cylinder.cpp:45-59 | the 3*segments vertices after the side are the top fans |
| Cylinders.BottomLayout | src/Cylinder.cpp:62-76 | the last 3*segments vertices are the bottom fans |
| Cylinders.SideVertices | src/Cylinder.cpp:15-42 | side vertices have y = -h/2 with v = 0 or y = h/2 with v = 1, u = i/segments or (i+1)/segments, and horizontal unit normals |
| Cylinders.SideSliceCorner | src/Cylinder.cpp:29-41 | the same for one slice's six corners |
| Cylinders.TopFanCorner | src/Cylinder.cpp:54-58 | top fan vertices have y = h/2 and normal (0,1,0), centre (0, h/2, 0) with uv (0.5, 0.5), uv in [0, 1] |
| Cylinders.BottomFanCorner | src/Cylinder.cpp:71-75 | bottom fan vertices have y = -h/2 and normal (0,-1,0), centre (0, -h/2, 0) with uv (0.5, 0.5), uv in [0, 1] |
| Cylinders.TopCapVertices | src/Cylinder.cpp:45-59 | every top-cap vertex of the array has y = h/2 and normal (0,1,0); each fan starts at the centre |
| Cylinders.BottomCapVertices | src/Cylinder.cpp:62-76 | every bottom-cap vertex has y = -h/2 and normal (0,-1,0); each fan starts at the centre |
| Cylinders.RimUV | src/Cylinder.cpp:56-57 | rim uv coordinates (x/r + 1)/2 lie in [0, 1] |
| Cylinders.SideStep | src/Cylinder.cpp:16-41 | the loop's locals build side slice i |
| Cylinders.TopStep | src/Cylinder.cpp:46-58 | the loop's locals build top fan i |
| Cylinders.BottomStep | src/Cylinder.cpp:63-75 | the loop's locals build bottom fan i |
| Cylinders.SideSlice | src/Cylinder.cpp:16-41 | one side iteration returns slice i |
| Cylinders.TopSlice | src/Cylinder.cpp:46-58 | one top iteration returns fan i |
| Cylinders.BottomSlice | src/Cylinder.cpp:63-75 | one bottom iteration returns fan i |
| Cylinders.AppendSide | src/Cylinder.cpp:15-42 | the side loop appends all side slices |
| Cylinders.AppendTop | src/Cylinder.cpp:45-59 | the top loop appends all top fans |
| Cylinders.AppendBottom | src/Cylinder.cpp:62-76 | the bottom loop appends all bottom fans |
| Cylinders.Build | src/Cylinder.cpp:9-78 | build returns CylinderVertices and vertexCount = 12*segments |
| Cylinders.Cylinder.constructor | src/Cylinder.cpp:5-7 | vertexCount is 12*segments |
| Audio.LastDot | src/Audio.cpp:245 | the position of the last '.', or -1 when there is none |
| Audio.FileExtension | src/Audio.cpp:244-250 | "" without a '.'; otherwise a lower-case result containing no '.' |
| Audio.ExtensionOfName | src/Audio.cpp:244-250 | the extension of stem.ext is ext lower-cased, whatever the stem |
| Audio.LoaderFor | src/Audio.cpp:225-233 | wav, ogg and mp3 pick their loaders exactly; anything else picks none |
| Audio.UpperCaseWav | src/Audio.cpp:222-248 | a name ending in .WAV is loaded as WAV |
| Audio.DecodeEncode | src/Audio.cpp:106-119 | reading back a little-endian k-byte field gives the value written |
| Audio.EncodeDecode | src/Audio.cpp:106-119 | writing back the value read gives the same bytes |
| Audio.TagAtMeans | src/Audio.cpp:132 | the four-byte tag comparison is equality of the slice |
| Audio.HeaderRoundTrip | src/Audio.cpp:106-129 | decoding an encoded 36-byte header gives the header back |
| Audio.HeaderBytesRoundTrip | src/Audio.cpp:128-129 | any 36 bytes re-encode from their decoded header |
| Audio.ScanStop | src/Audio.cpp:146-153 | the scan stops at a "data" chunk, with its declared size and what follows |
| Audio.ScanSkip | src/Audio.cpp:146-153 | any other chunk is skipped by 8 + its declared size |
| Audio.ScanFindsDataHeader | src/Audio.cpp:146-153 | a found chunk has a "data" header with its size at some offset and its payload after it |
| Audio.FindDataChunk | src/Audio.cpp:146-158 | the loop finds what the scan specifies |
| Audio.ReadChunk | src/Audio.cpp:146-152 | one round of the loop: a "data" header stops with what the scan reports; any other chunk leaves a shorter rest with the same scan result |
| Audio.ChunkData | src/Audio.cpp:160-162 | the data buffer has the declared size; the file's bytes come first, then zeros |
| Audio.FormatOf | src/Audio.cpp:165-170 | mono iff numChannels == 1; 8-bit iff bitsPerSample == 8 |
| Audio.ChunksStart | src/Audio.cpp:141-144 | chunks start after the header plus fmtSize-16 extra bytes, or right after it when fmtSize <= 16 |
| Audio.HeaderRejection | src/Audio.cpp:128-135 | a file is rejected as a bad header iff it is short or lacks the RIFF or WAVE tag |
| Audio.ReadWav | src/Audio.cpp:121-170 | the loader's reads and chunk loop compute ParseWav |
| Audio.ScanSkipsChunks | src/Audio.cpp:146-153 | any run of non-data chunks is skipped |
| Audio.WavRoundTrip | src/Audio.cpp:121-170 | a file written as header, fmt extra, other chunks and data parses to its format, data and sample rate |
| Audio.TruncHalfOdd | src/Audio.cpp:272 | halving truncates towards zero and is odd, unlike Euclidean division |
| Audio.AverageBetween | src/Audio.cpp:270-272 | the truncated average lies between the two samples |
| Audio.DownmixKeepsShorts | src/Audio.cpp:267-273 | averaging 16-bit samples gives 16-bit samples |
| Audio.DownmixOfDuplicated | src/Audio.cpp:267-273 | equal left and right channels downmix to the same samples |
| Audio.DownmixNegated | src/Audio.cpp:267-273 | negating the input negates the downmix |
| Audio.Downmix | src/Audio.cpp:267-273 | the loop writes frame i as trunc((L+R)/2) into an array of the frame count |
| Audio.MonoSamples | src/Audio.cpp:262-281 | the frame count is kept, and mono input is taken as it is |
| Audio.ToMono | src/Audio.cpp:313-331 | the channel branch of loadMP3 computes MonoSamples |
| Audio.Mp3UploadFailureIgnored | src/Audio.cpp:336-354 | as written, a decoded MP3 is reported as loaded even when its upload fails |
| Audio.Mp3ReportsSuccess | src/Audio.cpp:336-354 | corrected: a decoded MP3 loads iff its upload succeeds |
| Audio.UploadReported | src/Audio.cpp:173-179 | with the corrected MP3 check: every loader reports success only when the upload succeeded; WAV and OGG also fail on an earlier pending error |
| Audio.Dispatch | src/Audio.cpp:222-233 | the dispatch hands over what the extension's loader decodes |
| Audio.LoadAnswer | src/Audio.cpp:210-242 | 0 iff the name is not cached afterwards; failure leaves the cache alone; success adds only that name |
| Audio.LoadAgainHits | src/Audio.cpp:212-215 | loading a name again answers the cached buffer and changes nothing |
| Audio.NewEntryNeedsUpload | src/Audio.cpp:222-240 | with the corrected MP3 check: a new cache entry means a known extension, a decoded file and a successful upload |
| Audio.PrunedMembers | src/Audio.cpp:385-396 | a source survives update iff it was there and has not expired |
| Audio.PrunedAppend | src/Audio.cpp:387-390 | pruning distributes over concatenation, so order is kept |
| Audio.PrunedIdempotent | src/Audio.cpp:385-396 | a second update with the same expiries changes nothing |
| Audio.Prune | src/Audio.cpp:387-390 | the remove_if loop computes Pruned |
| Audio.AudioSystem.constructor | include/Audio.h:50-58 | nothing cached, no sources, volume 1, not initialised |
| Audio.AudioSystem.Init | src/Audio.cpp:27-77 | a second init succeeds without change; otherwise success iff device, context and make-current all succeed |
| Audio.AudioSystem.Shutdown | src/Audio.cpp:79-104 | a no-op unless initialised; otherwise deletes the cached buffers and clears cache and sources |
| Audio.AudioSystem.DeleteCached | src/Audio.cpp:87-89 | every cached buffer name is deleted |
| Audio.AudioSystem.LoadSound | src/Audio.cpp:210-242 | with the corrected MP3 check: answer and cache follow Loaded; the generated buffer survives only when it is cached |
| Audio.AsWrittenDiffersOnFailedMp3 | src/Audio.cpp:222-241 | the load as written and the corrected load differ exactly on a new MP3 name that decodes but whose upload fails, which the code as written caches |
| Audio.Mp3ReportsSuccessAsWritten | src/Audio.cpp:336-354 | as written, loadMP3 reports success for a decoded file whatever the upload did |
| Audio.LoadedAsWritten | src/Audio.cpp:210-242 | as written, a cache hit answers the cached buffer, and a new MP3 name is cached iff it decodes, whether or not its upload failed |
| Audio.FailedMp3UploadCached | src/Audio.cpp:336-354 | a one-sample mono MP3 with a failing upload: as written, buffer 1 is cached under "a.mp3"; corrected, 0 is answered |
| Audio.AudioSystem.CreateSource | src/Audio.cpp:373-377 | the new source is appended |
| Audio.AudioSystem.CreateSource3D | src/Audio.cpp:379-383 | the new 3D source is appended |
| Audio.AudioSystem.Update | src/Audio.cpp:385-396 | both source lists become their pruned versions |
| Audio.AudioSystem.SetMasterVolume | src/Audio.cpp:398-401 | only the volume changes |

## Left out

- OpenGL work is not modelled: VAO/VBO/EBO set-up, every `draw`, `updateModelMatrix`, colours and textures. `Sphere::draw` issues `glDrawArrays` over 6 vertices and ignores `indexCount` (src/Sphere.cpp:96); that is rendering too.
- Floating point: all arithmetic is on reals, without rounding, infinities or NaN.
- `sqrt`, `normalize`, `length`, `sin`, `cos` and `exp` are not computed.
  - `normalize` and trigonometry are function parameters, constrained by `IsNormalizer` and `IsUnitCircle` where a property needs them.
  - Lengths are compared as squares.
  - Players.JumpSpeedIsSquareRoot: the jump speed is a decimal constant close to sqrt(58.8), proved within 1e-4 rather than exact.
- Random draws (`glm::linearRand` in the enemy and friendly entities) are parameters. The friendly lemmas assume the draws lie in their stated ranges.
- Water wave height, ripple height and normals (src/Water.cpp:89-146) are not computed. The wave height is a parameter of the height query. In `updateWaves`, `getWaveHeight` and `calculateNormal` at the current time are the function parameters `Waves`; the caller supplies them. The `glBufferSubData` upload is rendering.
- Waters.Water.UpdateWaves requires, through `Valid`, a vertex array of gridX*gridZ*8 floats; the source writes out of bounds otherwise, which cannot happen after `generateMesh`.
- Physics.DemoPhysics.Update: the entity loop (src/scenes/DemoPhysics.cpp:193-200) is not modelled, because entity creation in `load` is commented out and the list is always empty.
- Physics.DemoPhysics.Update: GLFW key polling and the global camera are replaced by a `FrameInput` snapshot. The requires `0 <= dt <= 0.05` is the clamp of src/Engine.cpp:117.
- Physics.DemoPhysics.Update: `WellFormedInput` requires the caller's normalised move direction to be the unit vector along the raw one.
- Physics.StepMovesFreely: the world step applies gravity without the -50 clamp that `Player::applyGravity` uses. The model follows the scene code.
- Inputs.Input.constructor: the source does not initialise the key arrays `currentKeys` and `previousKeys`; the model assumes every key starts up.
- Players.Player.SetGrounded is declared only in include/Player.h:16; its body is assumed to store the flag.
- Entities.Entity.Update: the `visualShape->setPosition(position)` sync at the end of `Entity::update` (src/Entity.cpp:20-38) only moves the drawn shape; it is rendering and is not modelled.
- Default arguments are explicit parameters: `Water(width = 10, depth = 10, resolution = 64)` and `checkObjectInteraction(objectPos, objectRadius = 0.5)` (include/Water.h) take their values from the caller in Waters.Water.constructor and Waters.Water.CheckObjectInteraction.
- Entities.Entity.GetHealthPercentage requires maxHealth > 0, since the source divides by it.
- Waters.Water.constructor requires a grid resolution other than 1, since the source divides by resolution - 1 (Waters.Water.GenerateMesh, Waters.BuildVertices likewise).
- Spheres.Sphere.constructor requires a non-zero radius, sector count and stack count, since the source divides by each.
- Cylinders.Cylinder.constructor requires a non-zero radius, since the cap uv divides by it.
- Audio.ReadWav: a file shorter than the 36-byte header is rejected, where the source reads into a partly uninitialised header.
  - A chunk header must have all 8 bytes.
  - The tag of a partial read is not carried over from the previous iteration.
  - A short data read is zero-filled.
  - Little-endian host byte order is assumed.
- Audio.ReadWav: as in the source, neither the "fmt " tag nor `audioFormat` is checked.
- Audio.FileExtension lower-cases ASCII letters only, like `tolower` in the C locale.
- Audio.UploadReported uses the corrected MP3 check (see Findings), so it does not report the source's success for a decoded MP3 whose upload fails; Audio.LoadedAsWritten is the load as written.
- Audio.NewEntryNeedsUpload holds for the corrected load only: the code as written also caches a decoded MP3 whose upload failed (Audio.FailedMp3UploadCached).
- Audio.AudioSystem.LoadSound follows the corrected load, Audio.Loaded; on a new MP3 name that decodes but whose upload fails it answers 0 and caches nothing, where the source caches and returns the buffer (Audio.AsWrittenDiffersOnFailedMp3).
- Audio.AudioSystem.LoadSound: the buffer name `alGenBuffers` returns is a parameter. So are the decoders' results, the file's contents and OpenAL's error flag, all in `Backend`.
- Audio.AudioSystem.Init: device, context and make-current results are parameters.
- Audio.AudioSystem.Update: the expiry of a `weak_ptr` is modelled as a set of expired source ids.
- Not modelled, since they only forward to OpenAL or are float-only:
  - the `AudioSource`/`AudioSource3D` setters;
  - `generateTestTone`;
  - the listener calls;
  - `getInstance`;
  - the destructor.
- Engine, Shader, Skybox, HUD, PostProcessor, Texture, Plane, Cube, Model and DemoScene are not part of this model.

## Findings

| source | as written | input that shows it | evidently intended | confidence | as-written member | corrected member |
|---|---|---|---|---|---|---|
| src/Audio.cpp:336-354 | after `alBufferData`, the error flag is read into `bufferError` and only logged; that read clears the flag, so the final `alGetError` check never sees the upload's error and `loadMP3` returns true | any MP3 that decodes but whose `alBufferData` call fails | the MP3 load fails when the upload fails, as for WAV and OGG | high, not executed | Audio.Mp3ReportsSuccessAsWritten and Audio.LoadedAsWritten (Audio.Mp3UploadFailureIgnored proves the check true for every input; Audio.FailedMp3UploadCached shows the cached buffer) | Audio.Mp3ReportsSuccess, used by Audio.UploadReported and Audio.LoadAnswer |
