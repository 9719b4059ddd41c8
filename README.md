# Game modes, levels and collision tests of a small SDL/OpenGL game base

This project models the game logic of a small C++ game code base. It has three playable
"modes" and the levels they run on:

- **Roll**: a sphere rolls through a level of box colliders. Keys W/A/S/D push the sphere,
  relative to the camera's heading. Dragging the mouse turns the camera. Each frame, the
  sphere's motion is swept against the boxes for up to ten turns. On a hit the sphere stops
  at the contact and its velocity is reflected off the surface.
- **Pool**: "dozers" push numbered balls around a table. Each dozer has two treads, driven
  by four keys or by one-byte control messages from network clients. A frame ramps the
  treads toward their targets, pushes overlapping dozers and balls apart, and keeps
  everything inside the table.
- **Observe**: cycles through a scene's cameras with the arrow keys.

Under these sit the collision routines: ray against sphere, swept sphere against point,
swept sphere against box, and the two unimplemented stubs. There is also the
scene-graph data the levels are made of.

Modelling conventions:

- Floats are `real`.
- `std::sqrt` is a parameter `root` constrained by `Geometry.IsSquareRoot`.
- `glm::normalize` is a parameter `normalize` constrained by `Geometry.IsNormalize`. It
  yields `None` for the zero vector, where the float code yields NaN.
- Transforms carry a `Handle` that stands for their address. Every transform pointer is an
  `Option<Handle>`, and `None` is the null pointer.
- Scene files, mesh buffers, the clock, the network and the trigonometric and matrix
  helpers (`cos`, `sin`, `pow`, `make_local_to_world`) are parameters of the operations
  that use them.

Modules, one file each:

| module | file | models |
|---|---|---|
| `Wrappers` | wrappers.dfy | `Option`, `Result` |
| `Geometry` | geometry.dfy | vectors, `glm::length`, `glm::normalize`, `careful_normalize`, rounding |
| `Scene` | scene.dfy | transforms, drawables, cameras, lamps; handle lookup |
| `Input` | input.dfy | the SDL events the modes react to |
| `Collide` | collide.dfy | collide.cpp |
| `Observe` | observe_mode.dfy | ObserveMode.cpp |
| `PoolLevels` | pool_level.dfy | PoolLevel.cpp / PoolLevel.hpp |
| `PoolModes` | pool_mode.dfy | PoolMode.cpp |
| `RollLevels` | roll_level.dfy | RollLevel.cpp |
| `RollModes` | roll_mode.dfy | RollMode.cpp |

The level and mode objects are classes whose fields the methods update. The levels'
object lists are `seq` fields. The loops of the source (the box sweep, the slide loop,
the dozer and ball push loops, the frame reader, the spawn loop, the pointer searches) are
methods with loop invariants. The box sweep, the slide loop, the frame reader and the
pointer searches are proved equal to a specification function, and the source's promises
are proved about that function. The dozer and ball push loops are proved to keep frame
properties only: which objects may move, and only in the plane.

## Model

| member | source | states |
|---|---|---|
| Geometry.Length | collide.cpp:84 | the length is non-negative and squares to v·v; zero only for the zero vector |
| Geometry.Normalize | collide.cpp:88 | none exactly for the zero vector; otherwise a unit vector pointing along v, with v equal to that unit vector scaled by its length |
| Geometry.NormalizeByLength | collide.cpp:88 | dividing by the length is a valid normalisation in the sense every collision routine assumes |
| Geometry.CarefulNormalize | collide.cpp:6-11 | always a unit vector; +x for the zero vector; otherwise the direction of v |
| Geometry.CarefulNormalizeFaces | collide.cpp:6-11 | a non-zero vector and its careful normalisation point the same way |
| Geometry.Round | RollMode.cpp:53 | the nearest integer, within one half |
| Geometry.Floor | RollMode.cpp:146 | the greatest integer not above x |
| Scene.IndexOf | RollLevel.cpp:132 | finds the first transform carrying the handle; none exactly when no transform carries it |
| Scene.IndexOfUnique | RollLevel.cpp:126-127 | without shared addresses, each transform is found at its own position |
| Scene.FreshHandle | PoolLevel.cpp:86 | a newly allocated transform's address differs from every existing one |
| Scene.SetPosition | PoolLevel.cpp:198 | only the transform with that handle gets the new position; order and length are kept |
| Scene.PositionAfterSet | PoolLevel.cpp:198 | reading back a set position gives it; every other handle reads as before |
| Scene.MeshDrawablesOnePerItem | PoolLevel.cpp:35 | loading creates one drawable per mesh item, in order, with that item's transform and mesh |
| Collide.Roots | collide.cpp:33-34 | the two roots are ordered, the lower one solves the quadratic, roots on both sides of zero require c ≤ 0, and c < 0 puts them strictly on both sides |
| Collide.LowerRoot | collide.cpp:33 | (−b−d)/2a solves a·t²+b·t+c = 0 when d² is the discriminant |
| Collide.BeforeLowerRoot | collide.cpp:33 | with a > 0 the quadratic is positive at every time before its lower root |
| Collide.ImmediateRootsStraddle | collide.cpp:39 | roots on both sides of zero imply the start is inside (c ≤ 0) |
| Collide.NegativeAtZero | collide.cpp:39-44 | a start strictly inside gives roots strictly on both sides of zero |
| Collide.SweepTime | collide.cpp:26-39 | no time without a real root; the time lies in [0,1], before the given limit, and is 0 when starting inside; a positive time is the lower root t0 of the quadratic (the first contact), and the quadratic is positive at every earlier time |
| Collide.DistanceAlongRay | collide.cpp:18-22 | the squared distance along the ray is the quadratic with these a and b and with c = \|start−centre\|² |
| Collide.SweepSphere | collide.cpp:13-52 | the hit point lies on the ray at time t; the normal is a unit vector with a positive component away from the centre; a later hit is the lower root, lies at the sphere's distance, and the quadratic is positive before it; an inside start hits at t = 0 |
| Collide.Contact | collide.cpp:39-50 | the contact keeps the time and point, and its normal is careful_normalize(at − centre): a unit vector with a positive component away from the centre |
| Collide.ApproachClear | collide.cpp:18-33 | where the sweep's quadratic is positive before t, every point of the path before t is farther from the centre than the sphere, |start−centre|² − c |
| Collide.SweepTimeLimitFilters | collide.cpp:37 | the limit only removes hits at or after it; an earlier hit is unchanged |
| Collide.SweepSphereBoundedHitIsFree | collide.cpp:37 | a hit found under a limit is the hit found without one |
| Collide.SweepSphereEarlierHitKept | collide.cpp:37 | a hit before the limit is still reported under that limit |
| Collide.SameTimeSameContact | collide.cpp:47-49 | two hits at the same time have the same point and normal |
| Collide.RayVsSphereAsWritten | collide.cpp:13-52 | the source as written (c = −r²): hits lie on the ray within [0,1] and before the limit |
| Collide.AsWrittenDiscriminantNonNegative | collide.cpp:23-28 | as written, the discriminant is never negative, so the miss test at line 28 never fires |
| Collide.AsWrittenFalseContact | collide.cpp:23 | as written, a unit ray that stays 4 or more from a unit sphere reports a contact at its start |
| Collide.RayVsSphere | collide.cpp:13-52 | corrected: a positive-time hit lies exactly on the sphere, a time-0 hit starts inside it, the normal is unit with a positive component away from the centre, and a non-zero ray starting inside always hits |
| Collide.RayVsSphereNormal | collide.cpp:43-49 | corrected: the reported normal is careful_normalize(at − centre) |
| Collide.RayVsSphereMissesFarSphere | collide.cpp:18 | corrected: the far-sphere example of the finding is a miss |
| Collide.FarSphereTime | collide.cpp:26-36 | the quadratic of that example has no root in [0,1] |
| Collide.SweptSphereVsPoint | collide.cpp:54-64 | the point sweep delegates to the corrected ray test (not to the c = −r² code as written) with direction to−from: a contact at the radius, or at the start when it starts within the radius |
| Collide.SweptSphereVsPointNormal | collide.cpp:54-64 | the reported out vector is careful_normalize(at − point) |
| Collide.PushOut | collide.cpp:98-108 | a reported contact is immediate, the sphere moves against its out vector, the start overlaps the box, and the out vector is the unit vector along the gap from the closest box point to the start (scaled by its component along the gap it gives the gap back) |
| Collide.PushOutReports | collide.cpp:100-106 | conversely, an overlapping start moving into the box is always reported |
| Collide.SweptSphereVsBox | collide.cpp:77-110 | no hit when the limit is not positive; any hit is an overlap at t = 0 against which the sphere moves, and its out vector is the unit vector from the closest box point to the start |
| Collide.SweptSphereVsBoxLimitFilters | collide.cpp:92-96 | a positive limit does not change the result |
| Collide.SweptSphereVsBoxReportsOverlap | collide.cpp:98-106 | an overlap moving into the box is reported |
| Collide.SweptSphereVsBoxMissesFromInside | collide.cpp:82-89 | a centre inside the box is never reported (the push-out direction is NaN) |
| Collide.SweptSphereVsBoxMissesSeparated | collide.cpp:100 | a start at least a radius from the box is not reported |
| Collide.SweptSphereVsLineSegment | collide.cpp:67-74 | never reports a collision |
| Collide.SweptSphereVsTriangle | collide.cpp:151-159 | never reports a collision |
| Observe.Previous | ObserveMode.cpp:57-62 | the previous camera's position, wrapping from the first to the last |
| Observe.Next | ObserveMode.cpp:64-69 | the next camera's position, wrapping from the last to the first, and from a lost camera to the first |
| Observe.NextUndoesPrevious | ObserveMode.cpp:55-72 | LEFT then RIGHT, or RIGHT then LEFT, returns to the same camera |
| Observe.NextStepsAlong | ObserveMode.cpp:64-69 | k presses of RIGHT advance k cameras while they do not pass the end |
| Observe.NextWraps | ObserveMode.cpp:68 | pressing RIGHT past the last camera comes back to the first |
| Observe.Iterate | ObserveMode.cpp:64-69 | repeated RIGHT presses stay among the cameras |
| Observe.ObserveMode.Find | ObserveMode.cpp:58-59 | the search loop stops at the current camera, or at the end when it is not in the list |
| Observe.ObserveMode.HandleEvent | ObserveMode.cpp:55-76 | LEFT selects the previous and RIGHT the next camera, both handled; every other event is unhandled and changes nothing |
| Observe.ObserveMode.constructor | ObserveMode.cpp:43-46 | starts on the first camera of a non-empty list |
| PoolLevels.BallKinds | PoolLevel.hpp:48-51 | every index is exactly one of solid, eight and diamond; 1–7 are solid, 9–15 diamond, and the unassigned −1 counts as a diamond |
| PoolLevels.SkipSpace | PoolLevel.cpp:48 | stoi's leading white space is dropped and nothing else |
| PoolLevels.DigitRun | PoolLevel.cpp:48 | the longest run of leading digits |
| PoolLevels.Stoi | PoolLevel.cpp:48 | a parsed number fits in a 32-bit signed integer |
| PoolLevels.DecimalValue | PoolLevel.cpp:48 | the decimal digits of n read back as n |
| PoolLevels.StoiReadsDecimal | PoolLevel.cpp:48 | stoi of a number's digits followed by a non-digit gives the number |
| PoolLevels.BallIndex | PoolLevel.cpp:47-51 | a "Ball." mesh is accepted only with a number in 1..15; otherwise an error naming the mesh; for a suffix that is not a number the source's error is the exception of `std::stoi`, which does not name the mesh |
| PoolLevels.BallNameAccepted | PoolLevel.cpp:47-54 | "Ball." followed by 1..15 (and any non-digit suffix) is a ball with that number |
| PoolLevels.BallNameRefused | PoolLevel.cpp:49-50 | "Ball.0" and numbers above 15 are refused with the out-of-range error |
| PoolLevels.LoadItem | PoolLevel.cpp:32-58 | fails exactly on a missing mesh or a bad ball number; adds one drawable, plus a ball for "Ball.", or a goal at the item's planar position for "Goal." |
| PoolLevels.LoadItemsSucceeds | PoolLevel.cpp:31-59 | loading succeeds exactly when every mesh is in the buffer and every ball name has a valid number |
| PoolLevels.LoadedDrawables | PoolLevel.cpp:35 | after a load, the drawables are one per item in scene order |
| PoolLevels.LoadedBalls | PoolLevel.cpp:52-54 | every loaded ball is numbered 1..15, unscored, untouched, and sits on a "Ball." item's transform |
| PoolLevels.LoadOneMore | PoolLevel.cpp:32 | the callback runs once per item, in order |
| PoolLevels.AbortedLoad | PoolLevel.cpp:50 | a throw stops the load: later items do not change the outcome |
| PoolLevels.TreadTarget | PoolLevel.cpp:144-150 | +1 for forward only, −1 for backward only, 0 otherwise |
| PoolLevels.TreadStep | PoolLevel.cpp:155-165 | the tread moves toward its target by at most 10·elapsed, never overshoots, and lands on it when within reach |
| PoolLevels.TreadReaches | PoolLevel.cpp:155-165 | a tread reaches its target after enough frames |
| PoolLevels.StepsAtTarget | PoolLevel.cpp:155-165 | a tread at its target stays there |
| PoolLevels.KeepInLevel | PoolLevel.cpp:189-192 | the position is clamped into the table shrunk by the radius; the height is kept; a position already inside is unchanged |
| PoolLevels.KeepInLevelIdempotent | PoolLevel.cpp:189-192 | clamping twice is clamping once |
| PoolLevels.PushApartAsWritten | PoolLevel.cpp:178-187 | the source as written: heights are kept, and pairs not overlapping (or coincident) are untouched |
| PoolLevels.PushApartAsWrittenMissesRadius | PoolLevel.cpp:184 | as written, two objects 0.25 apart with radius 0.3 end 0.275 apart, not 0.3 |
| PoolLevels.PushApart | PoolLevel.cpp:178-187 | corrected: heights are kept; non-overlapping or coincident pairs are untouched; mix 1 moves only the second; an overlapping pair ends exactly radius apart |
| PoolLevels.PushedToRadius | PoolLevel.cpp:185-186 | dividing the offset by its length moves the pair to exactly the radius |
| PoolLevels.FirstDrawableAt | PoolLevel.cpp:106-111 | the first drawable on the transform; none exactly when no drawable is on it |
| PoolLevels.FirstDozerAt | PoolLevel.cpp:120-125 | the first dozer on the transform; none exactly when there is none |
| PoolLevels.EraseAt | PoolLevel.cpp:108 | erasing a found position removes one element; no position removes nothing |
| PoolLevels.EraseAtKeepsOrder | PoolLevel.cpp:108 | the elements before stay, those after shift down by one, and exactly the erased element is lost |
| PoolLevels.EraseTransform | PoolLevel.cpp:113-118 | removing a dozer's transform keeps the addresses unique, and the handle is gone afterwards |
| PoolLevels.Handles | PoolLevel.cpp:73 | the addresses of a level's transforms |
| PoolLevels.WithControls | PoolLevel.hpp:67 | the first dozer on the handle takes the new controls and every other dozer is unchanged; every dozer keeps its transform and name |
| PoolLevels.WithControlsTwice | PoolMode.cpp:112-115 | the second setting overrides the first; the dozer then reads the new controls; with no dozer nothing changes |
| PoolLevels.PoolLevel.constructor | PoolLevel.hpp:32-33 | an empty level with the default table bounds |
| PoolLevels.PoolLevel.FromScene | PoolLevel.cpp:31-59 | succeeds exactly when the load does, with the load's error otherwise; the scene's transforms, cameras and lamps, the loaded drawables, balls and goals, no dozers |
| PoolLevels.PoolLevel.AddDozer | PoolLevel.cpp:84-102 | appends a fresh transform, a drawable with the team's mesh and an idle dozer of that name and team on it; nothing else changes |
| PoolLevels.PoolLevel.RemoveDozer | PoolLevel.cpp:104-126 | erases the first drawable, the transform and the first dozer on the handle; the handle is then gone; the dozer is found by its transform handle, which picks the dozer the source's address comparison (PoolLevel.cpp:121) picks while no two dozers share a transform |
| PoolLevels.PoolLevel.FindDrawable | PoolLevel.cpp:106-111 | the search loop stops at the first drawable on the transform |
| PoolLevels.PoolLevel.FindTransform | PoolLevel.cpp:113-118 | the search loop stops at the transform with that address |
| PoolLevels.PoolLevel.FindDozer | PoolLevel.cpp:120-125 | the search loop stops at the first dozer on the transform |
| PoolLevels.PoolLevel.PushPair | PoolLevel.cpp:178-187 | applies the corrected push to the two positions and nothing else; an overlapping pair ends exactly radius apart |
| PoolLevels.PoolLevel.Keep | PoolLevel.cpp:189-192 | clamps one position into the table and moves nothing else |
| PoolLevels.PoolLevel.PushDozers | PoolLevel.cpp:194-202 | ten passes over the dozers move only dozers, and only in the plane |
| PoolLevels.PoolLevel.PushBalls | PoolLevel.cpp:208-219 | ten passes over the balls move only balls, and only in the plane |
| PoolLevels.PoolLevel.Update | PoolLevel.cpp:140-219 | every dozer's treads are ramped; only dozers and balls move, in the plane; balls, goals and table are kept |
| PoolLevels.PoolLevel.CopyFrom | PoolLevel.cpp:65-82 | succeeds exactly when every ball and dozer points at a transform; then the level is a copy; otherwise it is unchanged |
| PoolLevels.PoolLevel.SetControls | PoolLevel.hpp:67 | the dozers become WithControls's: only the first dozer on the handle changes, and only its controls |
| PoolLevels.PoolLevel.SpawnDozer | PoolLevel.cpp:128-137 | adds a diamond-team dozer of that name at the origin on a fresh transform |
| PoolModes.FrameLength | PoolMode.cpp:96 | the 24-bit big-endian length field |
| PoolModes.ControlsOf | PoolMode.cpp:112-115 | bits 0, 1 and 2 set left forward, left backward and right backward; right forward is set by bit 0 or bit 1 (the mask 3) |
| PoolModes.NextFrame | PoolMode.cpp:94-118 | corrected: waits below four bytes; closes on a 'C' frame whose length is not 1; a whole control frame gives byte 4 and drops five bytes; other whole frames are skipped |
| PoolModes.DrainLeavesSuffix | PoolMode.cpp:94-118 | the reader leaves a suffix of the buffer |
| PoolModes.DrainStopsAtPartialFrame | PoolMode.cpp:94-118 | unless the player was dropped, the bytes left hold no whole frame |
| PoolModes.ControlFrame | PoolMode.cpp:94-110 | a five-byte control frame is read back as its control byte with nothing left |
| PoolModes.DrainControlFrames | PoolMode.cpp:94-118 | a run of control frames is read completely, and the last one's byte is what counts |
| PoolModes.NextFrameAsWritten | PoolMode.cpp:94-118 | the source as written: a non-'C' frame makes no progress; the control byte is read at index 5 and five bytes are left |
| PoolModes.SingleFrameReadsPastEnd | PoolMode.cpp:108 | as written, one complete control frame is read past its end; corrected, it gives its byte |
| PoolModes.TwoFramesMisread | PoolMode.cpp:108-110 | as written, two frames yield the second frame's type byte; corrected, they yield the first frame's byte |
| PoolModes.OtherTypeNeverConsumed | PoolMode.cpp:94-97 | as written, a non-'C' header is never consumed, so the loop spins; corrected, it is skipped |
| PoolModes.PressKey | PoolMode.cpp:54-66 | W, S, Up and Down set exactly their own button to whether the key went down |
| PoolModes.PlayerName | PoolMode.cpp:87 | the socket number's decimal digits in brackets; the digits read back as the socket number |
| PoolModes.OwnedStep | PoolMode.cpp:38-40 | giving one connection a dozer on a new handle gives it its own fresh dozer of its name and keeps every connection's dozer distinct |
| PoolModes.OwnedKept | PoolMode.cpp:43 | adding the local dozer on a new handle keeps the connections' dozers, and none of them is the new one |
| PoolModes.PoolMode.constructor | PoolMode.cpp:23-27 | no connections; the mode restarts at once: with a copyable start the level is the start level plus the "Local" dozer, its transform and drawable, and camera 0 is current when the start has a camera |
| PoolModes.PoolMode.Restart | PoolMode.cpp:33-50 | succeeds exactly when every ball and dozer of the start level is on one of its transforms and the start level has a camera; after the copy the cameras, lamps, goals, balls and table are the start's, and the transforms, drawables and dozers are the start's followed by one fresh diamond dozer per connection (when serving) and a last "Local" one; each connection (when serving) drives its own appended dozer, named after its player, distinct from the other connections' and the local one; on success camera 0 is current; a failed copy changes nothing |
| PoolModes.PoolMode.SpawnPlayers | PoolMode.cpp:36-44 | appends one fresh dozer, with its transform and drawable, per connection when serving, then the local "Local" dozer last; each connection drives its own appended dozer of its name, distinct from the others' and the local one; the earlier entries, the cameras, lamps, goals, balls and table are kept |
| PoolModes.PoolMode.SpawnRemotes | PoolMode.cpp:37-41 | every connection drives its own appended dozer, equal to a fresh dozer of its name, and no two connections share one; exactly one dozer, transform and drawable per connection are appended after the existing ones, and the rest of the level is kept |
| PoolModes.PoolMode.SpawnRemote | PoolMode.cpp:39 | one connection gets a fresh dozer of its name on a handle no old transform has, appended with its transform and drawable; nothing else changes |
| PoolModes.PoolMode.HandleEvent | PoolMode.cpp:52-72 | handled exactly for a tread key with a player; then the first dozer on the player's handle gets that button changed and every other dozer is unchanged; otherwise nothing; transforms, drawables, cameras, lamps, goals, balls and table are kept |
| PoolModes.PoolMode.Open | PoolMode.cpp:85-88 | adds a connection with the bracketed name and appends a fresh dozer of that name with its transform and drawable; other connections, the local player, the camera and the rest of the level are kept |
| PoolModes.PoolMode.RemovePlayer | PoolMode.cpp:77-83 | drops the connection, and its dozer, drawable and transform when it has one; nothing else changes |
| PoolModes.PoolMode.Receive | PoolMode.cpp:91-118 | the buffer is drained as Drain says; the last control byte read sets the connection's dozer's controls; on a bad length the connection is dropped and its dozer, transform and drawable are erased; the local player, the camera and the rest of the level are kept |
| PoolModes.PoolMode.ReadFrames | PoolMode.cpp:94-118 | the reading loop leaves what Drain leaves and applies the last control byte read, also when it stops at a bad length; nothing else changes |
| PoolModes.EraseWithControls | PoolMode.cpp:98-101 | erasing a dozer after setting its controls leaves the same dozers as erasing it before |
| RollLevels.Classify | RollLevel.cpp:73-88 | a mesh is exactly one of player, goal, box (with its size), mesh collider or decoration |
| RollLevels.ClassifyTables | RollLevel.cpp:33-39 | the two block meshes are unit boxes; the three round meshes are mesh colliders |
| RollLevels.LoadItem | RollLevel.cpp:58-89 | fails exactly on a missing mesh or a second sphere; adds one drawable and the classified object |
| RollLevels.LoadItemsSucceeds | RollLevel.cpp:58-89 | loading succeeds exactly when every mesh is found and there is at most one sphere, which then becomes the player's transform |
| RollLevels.LoadLevelSucceeds | RollLevel.cpp:56-93 | a level loads exactly when every mesh is found and there is exactly one sphere, and the player sits on it |
| RollLevels.LoadedDrawables | RollLevel.cpp:61 | the drawables are one per item in scene order |
| RollLevels.LoadOneMore | RollLevel.cpp:58 | the callback runs once per item, in order |
| RollLevels.AbortedLoad | RollLevel.cpp:75 | a throw stops the load |
| RollLevels.Moved | RollLevel.cpp:112-133 | null maps to null; a pointer maps to the copy of the transform it points at |
| RollLevels.Copies | RollLevel.cpp:117-133 | one copy per transform |
| RollLevels.CopiesMirror | RollLevel.cpp:117-133 | the copies have unique addresses; each carries its original's name, position, rotation and scale, and the copy of its parent |
| RollLevels.Repointed | RollLevel.cpp:135-170 | one object per object |
| RollLevels.RollLevel.constructor | RollLevel.cpp:56 | a level holding the given lists |
| RollLevels.RollLevel.RunCallbacks | RollLevel.cpp:58-89 | the callback loop computes the load |
| RollLevels.RollLevel.FromScene | RollLevel.cpp:56-108 | succeeds exactly when the level loads; adds one camera on a fresh transform with the player fovy and near plane, and makes it current |
| RollLevels.RollLevel.Repoint | RollLevel.cpp:135-170 | fails exactly when a pointer has no copy (.at throws); otherwise each object is kept with its pointer moved to the copy |
| RollLevels.RollLevel.CopyTransforms | RollLevel.cpp:117-133 | fails exactly when a parent is outside the list; otherwise gives the copies |
| RollLevels.RollLevel.Copy | RollLevel.cpp:110-174 | succeeds exactly when every pointer resolves; every list is copied with pointers moved; the current camera follows its copy |
| RollModes.PressRollKey | RollMode.cpp:24-37 | A, D, W and S set exactly their own control to whether the key went down |
| RollModes.Clamp | RollMode.cpp:56-57 | the result lies in the range, and equals x when x does |
| RollModes.WrapAngle | RollMode.cpp:52-54 | within half a turn of zero, and a whole number of turns from the input |
| RollModes.WrapAngleKeepsSmall | RollMode.cpp:52-54 | an angle already within half a turn is unchanged |
| RollModes.Dragged | RollMode.cpp:43-57 | the azimuth turns by the horizontal drag (as a fraction of the width, times 2 and the aspect ratio) up to whole turns and lies in [−π, π]; the elevation is the old one plus the vertical drag (as a fraction of the height, times 2), clamped to ±85°; nothing else about the player changes |
| RollModes.DragWithinRange | RollMode.cpp:49-57 | a drag that stays within half a turn and within ±85° moves the azimuth and elevation by exactly the drag, with no wrap and no clamp |
| RollModes.RawShove | RollMode.cpp:71-75 | each axis is +1, −1 or 0 exactly as one, the other or both/neither key is held; no vertical part |
| RollModes.Shove | RollMode.cpp:77-85 | no key gives no shove; the shove is horizontal |
| RollModes.WorldBox | RollMode.cpp:108-119 | the world box is centred on the collider's origin with non-negative half-extents |
| RollModes.Sweep | RollMode.cpp:103-127 | a hit over all boxes is immediate, has a unit normal, and the motion runs against it |
| RollModes.SweepStep | RollMode.cpp:107-127 | adding a box gives a hit exactly when the earlier boxes or the new one do |
| RollModes.SweepKeepsHit | RollMode.cpp:121-126 | a box that is hit makes the whole sweep hit |
| RollModes.SweepFindsHit | RollMode.cpp:121-126 | a sweep that hits names a box that is hit |
| RollModes.SweepHitsSomeBox | RollMode.cpp:103-127 | the sweep hits exactly when some box is hit |
| RollModes.SweepReportsFirst | RollMode.cpp:107-126 | a sweep that hits reports the hit of a box tested on its own, and no earlier box in list order is hit: the first box hit wins |
| RollModes.SweepFirstIsLast | RollMode.cpp:121-126 | when no earlier box is hit, the sweep reports the last box's own hit |
| RollModes.AlongVelocity | RollMode.cpp:101 | the swept offset is the velocity scaled by the time left |
| RollModes.Deflect | RollMode.cpp:135-136 | removing 1.5 times the approach speed leaves half of it, reversed |
| RollModes.ResweepMisses | RollMode.cpp:129-132 | with no hit the sphere goes to the target and no time is left |
| RollModes.ResweepStays | RollMode.cpp:134-137 | a hit at time 0 keeps the position and the time left; a moving sphere approaches the surface |
| RollModes.ResweepDeflects | RollMode.cpp:135-136 | approaching the surface reverses half the normal speed; otherwise the velocity is kept |
| RollModes.ResweepHit | RollMode.cpp:133-138 | on a hit, one turn is the position mix, the deflection and the scaled remainder |
| RollModes.SlideTurn | RollMode.cpp:97-139 | a turn that hits continues with the deflected motion for one turn fewer |
| RollModes.SlideRemain | RollMode.cpp:96-139 | after the loop, the time left is the initial time or zero |
| RollModes.SlideDone | RollMode.cpp:129-132 | a turn that misses ends the loop at the target |
| RollModes.SlideOutOfSurface | RollMode.cpp:134-137 | after a hit the sphere moves away from the surface it hit |
| RollModes.Spun | RollMode.cpp:145-146 | the spin stays in [0,1) and differs from acc + elapsed/10 by a whole number |
| RollModes.RollMode.constructor | RollMode.cpp:17-18 | no keys held |
| RollModes.RollMode.Begin | RollMode.cpp:17-18 | succeeds exactly when the start level can be copied; the level is then a fresh copy whose transforms, lists, player and current camera are exactly what RollLevel.Copy makes, and no key is held |
| RollModes.RollMode.HandleEvent | RollMode.cpp:23-64 | handled exactly for A/D/W/S or a left-button drag; a key sets its control, a drag turns the view; transforms, drawables, cameras, lamps, colliders, goals and the current camera are kept |
| RollModes.RollMode.SweepBoxes | RollMode.cpp:103-127 | the box loop collides exactly when Sweep hits, and reports Sweep's hit |
| RollModes.RollMode.SlideLoop | RollMode.cpp:96-139 | the ten-turn loop computes Slide |
| RollModes.RollMode.Update | RollMode.cpp:66-148 | velocity eases toward the shove; the player moves and turns as Slide says; each goal's spin advances by elapsed/10 and stays in [0,1); no other list changes |

## Left out

- Rendering, audio, the `draw` methods and the mesh colliders' geometry are not modelled. They do not affect the game state.
- Floating point is modelled as `real`. NaN shows only as `Normalize` returning `None`, and 32-bit float rounding is not modelled.
- Collide.RayVsSphere: with a zero ray direction a = 0, so t0 and t1 are 0/0 = NaN (collide.cpp:33-34). Every comparison with NaN is false, so the source reports a contact at a NaN time (collide.cpp:45-49). The model reports no hit.
- Collide.RayVsSphereAsWritten: the same for a zero ray direction.
- Collide.SweptSphereVsPoint: the same when `from` equals `to`.
- Collide.RayVsSphere: the contract does not repeat the first-contact property. That property says a positive time is the lower root of the quadratic and the quadratic is positive before it, so the path stays outside the sphere until then (Collide.ApproachClear). It is stated on Collide.SweepTime and Collide.SweepSphere, which RayVsSphere returns unchanged with c = \|start−centre\|² − r². Restated on RayVsSphere, its nonlinear proof obligation is beyond the verifier's resource limit.
- Collide.SweptSphereVsPoint: the same as RayVsSphere for the first-contact property, which it inherits through the ray test.
- `std::sqrt`, `std::cos`, `std::sin`, `std::pow`, `glm::normalize` and `make_local_to_world` are parameters (`root`, `ca`, `sa`, `ease`, `normalize`, `toWorld`). Only `sqrt` and `normalize` are constrained by their defining property.
- Reading scene files and mesh buffers is not part of this model. A level is built from the items the loading callback would see.
- Meshes are told apart by name. The source compares `Mesh const *` pointers that the buffer lookups return.
- The networking (`Server::poll`, sockets, `Connection::close`) is not modelled. Open, close and receive events are method calls, and the socket number is a parameter.
- PoolLevels.PoolLevel.Update: dozer movement and rotation (PoolLevel.cpp:167-173) and ball rolling (PoolLevel.cpp:220-232) are left out, because they need trigonometry and quaternions. The contract states which transforms may move, not where they end. The model keeps every rotation unchanged, where the source turns the dozers (PoolLevel.cpp:173) and rolls the balls (PoolLevel.cpp:225-228).
- PoolLevels.PoolLevel.PushDozers: states only that dozers alone move and stay in the plane. It does not state final separation, since ten passes do not guarantee it.
- PoolLevels.PoolLevel.PushBalls: the same as PushDozers, for balls.
- RollModes.RollMode.HandleEvent: requires a window of positive width and height. The source divides by the window size (RollMode.cpp:45-47), which gives infinities or NaN for a zero-size window.
- PoolLevels.PoolLevel.CopyFrom: `Scene::set` keeps the transform handles (the address remap is the identity). When `.at` throws, the model leaves the level unchanged, while the source leaves it partly assigned.
- RollModes.RollMode.Update: the goal rotation write (RollMode.cpp:147) and the camera update (RollMode.cpp:150-157) are left out, because they need quaternions. The model keeps the goal and camera transforms unchanged, where the source rotates the goals and moves the camera.
- RollModes.Shove: the contract does not give the rotated shove's value. It depends on the `cos`/`sin` parameters.
- `RollLevel::operator=` is declared but not defined, so it is not modelled.
- PoolModes.PoolMode.constructor: a start level with no camera, or with a ball or dozer off its transforms, makes the source's constructor throw from `restart` (PoolMode.cpp:27, 46-47). The model returns the mode with no current camera instead.
- PoolModes.PoolMode.Receive: a connection that sends data before it is opened has a default entry with a null dozer (PoolMode.cpp:92), which the source then dereferences (PoolMode.cpp:112-115). That case is undefined behaviour in the source, and in the model a control byte for such a connection changes nothing.
- PoolModes.PoolMode.RemovePlayer: the same null dozer reaches `remove_dozer`, which dereferences it (PoolLevel.cpp:106). The model only forgets the connection.
- `PoolMode::update` calls `level.update`. That step is modelled separately as PoolLevels.PoolLevel.Update.
- The `#if 0` corner sweep in collide.cpp:112-147 is not compiled, so it is not modelled.

## Findings

| source | as written | input that shows it | evidently intended | confidence | as-written member | corrected member |
|---|---|---|---|---|---|---|
| collide.cpp:23 | `c = -r²`, missing the \|start−centre\|² term; collide_swept_sphere_vs_point (collide.cpp:60-63) calls this test, so it inherits the error | start 0, direction +x, unit sphere at (5,0,0): a contact is reported at t = 0 | `c = \|start−centre\|² − r²`; the model's point sweep calls the corrected test | not executed | Collide.AsWrittenFalseContact | Collide.RayVsSphere |
| PoolMode.cpp:108 | the control byte is read at index 5 | the single frame `'C',0,0,1,b` is read past its end; two frames yield `'C'` instead of the first byte | index 4, the byte after the 4-byte header | not executed | PoolModes.SingleFrameReadsPastEnd | PoolModes.NextFrame |
| PoolMode.cpp:94-118 | a frame whose type is not `'C'` is never erased | the buffer `t,0,0,0` with `t != 'C'` makes the `while` loop spin forever | skip (or reject) the frame | not executed | PoolModes.OtherTypeNeverConsumed | PoolModes.NextFrame |
| PoolLevel.cpp:184 | the offset is divided by `sqrt(len)` instead of `len` | two objects 0.25 apart with radius 0.3 end 0.275 apart | the pair ends exactly radius apart | not executed | PoolLevels.PushApartAsWrittenMissesRadius | PoolLevels.PushApart |
