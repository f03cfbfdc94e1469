# Presence bookkeeping of the virtual dinner scene

A Dafny model of the presence core of `MyScene` in `public/scene.js`: the
registry of remote peers' avatars and the scene their groups live in, the
application of server pose snapshots to those avatars, the distance-based
audio gain, and the frame loop that recomputes volumes every 25th frame.
Three.js objects become values: a group is an opaque `Handle`, the scene is a
multiset of handles, a transform is a `Pose` of real numbers.

Modules, one per component:

- `Geometry` — `Vec3`, `Quat`, `Pose`, and `Vector3.distanceToSquared`.
- `Attenuation` — the gain rule: 0 above squared distance 500, otherwise
  `min(1, 10 / d2)`, with `d2 = 0` giving 1.
- `Registry` — `avatars` (peer id to group and pose) and the scene;
  `addPeerAvatar`, `removePeerAvatar`, and the invariant `Valid` they keep.
- `Sync` — `getPlayerPosition` and `updatePeerAvatars`, as a reference
  function `ApplySnapshot` and a method with the source's for-in loop.
- `Volumes` — `updateClientVolumes`, as a reference function and the loop.
- `FrameLoop` — `loop()` as one `Tick`, and `Run` over many ticks.

Behaviour of `MyScene` that the model keeps:

- Adding a peer that is already registered is not rejected. The entry is
  overwritten with a fresh group, and the old group stays in the scene with
  no entry pointing at it (`Registry.ReAddOrphansGroup`).
- Removing an unregistered peer raises no dedicated error. Reading `.group` of
  `undefined` throws a TypeError before any state changes. The model returns
  `Err(GroupOfUndefined)`.
- Poses are copied from the snapshot as they are, with no normalisation of
  the quaternion and no rejection of malformed entries.
- Volumes are not replaced wholesale. Only peers that are registered and have
  an audio element get a new volume. Other audio elements keep theirs.

## Model

| member | source | states |
|---|---|---|
| Geometry.DistanceSquared | public/scene.js:164-166 | the squared camera-to-avatar distance is never negative and is 0 when the positions coincide |
| Geometry.DistanceSquaredSymmetric | public/scene.js:164-166 | the distance from camera to avatar equals the distance from avatar to camera |
| Geometry.DistanceExamples | public/scene.js:164-166 | from the origin, avatars at (10,0,10), (5,0,5) and (1,0,1) are at squared distance 200, 50 and 2 |
| Attenuation.Gain | public/scene.js:168-174 | gain lies in [0, 1]; it is 0 above 500, 1 up to squared distance 10 (including 0, where `10/0` is Infinity), and exactly `10/d2`, below 1, between 10 and 500 |
| Attenuation.GainNonIncreasing | public/scene.js:168-174 | for squared distances a <= b, gain at b is at most gain at a, across the cutoff too |
| Attenuation.GainFloorInsideCutoff | public/scene.js:168-174 | inside the cutoff the gain is at least 0.02 (10/500), so crossing the cutoff is a jump to silence |
| Attenuation.GainExamples | public/scene.js:168-174 | squared distances 200, 50, 2, 0, 500 and 500.5 give gains 0.05, 0.2, 1, 1, 0.02 and 0 |
| Registry.Initial | public/scene.js:9 | the constructor starts with no avatars, and that state satisfies the registry invariant |
| Registry.AddPeerAvatar | public/scene.js:106-140 | `id` becomes a key with a neutral pose and its group is in the scene; other entries are unchanged; the scene grows by exactly one group and loses none, so a previous group of `id` stays; the new group is fresh and the invariant is kept |
| Registry.RemovePeerAvatar | public/scene.js:142-146 | fails exactly when `id` is not registered; otherwise `id` stops being a key, the other entries are untouched, only that group's count in the scene changes, and under the invariant the group is gone and the scene shrinks by one |
| Registry.AddThenRemoveRestores | public/scene.js:106-146 | adding a new peer and removing it gives back the same registry and scene, with no leaked group |
| Registry.ReAddOrphansGroup | public/scene.js:106-146 | adding a registered peer again and then removing it leaves its first group in the scene, owned by no entry |
| Sync.PlayerPosition | public/scene.js:181-191 | the reported arrays have 3 and 4 numbers and, read at the indices `updatePeerAvatars` uses, give exactly the camera pose over any current pose |
| Sync.ApplySnapshot | public/scene.js:148-158 | the key set, the groups and the scene are unchanged; registered ids in the snapshot get exactly the snapshot's numbers, position[0..2] and rotation[0..3], keeping their old z when the position has only two numbers; registered ids missing from it keep their entry; snapshot ids that are not registered are ignored |
| Sync.UpdatePeerAvatars | public/scene.js:148-158 | the for-in loop over the snapshot computes the registry `ApplySnapshot` describes |
| Sync.ApplySnapshotPreservesValid | public/scene.js:148-158 | applying a snapshot keeps the registry invariant |
| Sync.ApplySnapshotIdempotent | public/scene.js:149-156 | applying the same snapshot twice is the same as applying it once |
| Sync.ApplySnapshotSequential | public/scene.js:149-156 | two snapshots in a row equal one snapshot in which the later entry wins, taking only the earlier z when its own position lacks one, so poses are overwritten and not blended |
| Sync.ApplySnapshotSequentialFull | public/scene.js:149-156 | when every later position has its z, two snapshots in a row equal their union with the later one winning |
| Sync.ReportedPoseRoundTrip | public/scene.js:151-155 | the pose one player reports is exactly the pose its avatar takes on a client where it is registered, when the server forwards the pair unchanged |
| Volumes.PeerGain | public/scene.js:164-174 | a peer's volume lies in [0, 1] and is full when it stands where the camera is |
| Volumes.ClientVolumes | public/scene.js:160-177 | no audio element is added; registered peers with an audio element get their gain, in [0, 1] and 0 past the cutoff; every other audio element keeps its volume |
| Volumes.UpdateClientVolumes | public/scene.js:160-177 | the for-in loop over `avatars` computes the table `ClientVolumes` describes |
| Volumes.ClientVolumesIdempotent | public/scene.js:160-177 | recomputing volumes twice from the same positions gives the same table as once |
| Volumes.NearerIsNotQuieter | public/scene.js:164-174 | of two registered peers with audio, the nearer one gets at least the volume of the farther one |
| FrameLoop.Loop | public/scene.js:195-209 | one tick adds 1 to `frameCount`; it updates the controls first and renders exactly once, last; it recomputes volumes, between the two, exactly when the new count is a multiple of 25; the registry is unchanged |
| FrameLoop.RunCounts | public/scene.js:196-205 | after n ticks the counter and the renders have grown by n, and recomputes by the number of multiples of 25 passed |
| FrameLoop.OncePerPeriod | public/scene.js:200-203 | any 25 consecutive ticks recompute volumes exactly once |
| FrameLoop.NoneBeforeFrame25 | public/scene.js:200-203 | starting from frame 0, fewer than 25 ticks never recompute volumes |

## Left out

- Scene construction, renderer, lights, fog and the background sphere (`public/scene.js:8-102`): Three.js setup with no logic of its own. The static objects appear only as handles already in the scene (`Registry.Initial`).
- Chair and table loading (`public/scene.js:211-261`): asynchronous asset loading through GLTFLoader, which is not part of this model.
- The video texture, materials and head mesh built in `addPeerAvatar`: the group is an opaque fresh handle.
- `document.getElementById`: an audio element exists for an id exactly when the id is a key of the volume table.
- `controls.update()`: FirstPersonControls is not part of this model. Its effect, the moved camera, is a parameter of `FrameLoop.Loop`.
- `requestAnimationFrame` self-scheduling: the loop is one `Tick` at a time, and `FrameLoop.Run` chains ticks.
- `console.log` and the unused `try()` helper (`public/scene.js:263-271`).
- IEEE floating point: coordinates and gains are reals. There is no NaN, no rounding, and `frameCount` is unbounded, where a double stops counting exactly after 2^53 frames.
- Sync.UpdatePeerAvatars: requires each registered peer's entry to hold at least 2 position numbers and 4 rotation numbers. A two-number position is modelled: it keeps the old z, because three.js `Vector3.set` ignores an undefined z. A shorter position, or a rotation with fewer than 4 numbers, stores `undefined`, which a real cannot express.
- Sync.ApplySnapshot: has the same requirement on the same entries, for the same reason.
- Snapshot entries without a `position` or `rotation` field: `PeerInfo` always has both. In the source such an entry throws a TypeError at `public/scene.js:154` or 155, after the ids earlier in the for-in loop have already been updated, which leaves a partial update.
- Sync.ReportedPoseRoundTrip: the server relay that turns the pair `getPlayerPosition` returns into `position` and `rotation` fields is not part of this model. The lemma assumes it stores the two arrays unchanged under those names.
- Geometry.DistanceSquared: states only that coincident positions are at distance 0, not the converse, because the solver's nonlinear real arithmetic cannot prove the converse reliably.
- Peer ids that are names of `Object.prototype` properties (such as `toString`): the model treats `avatars` as a plain map.
- The `group` guard in `updateClientVolumes` (`public/scene.js:163`): line 108 stores an empty entry before lines 110-137 look up the video element and build the three.js objects, so if any of those throws the entry stays without a group (and a re-added peer has already lost its old one). The model assumes lines 110-137 do not throw; an entry without a group cannot be represented, so the guard is always true in the model.
