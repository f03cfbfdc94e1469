/** Pose exchange with the server: the pose the local player reports
    (`getPlayerPosition`) and the snapshot of remote poses applied to the
    registered avatars (`updatePeerAvatars`). */
module Sync {
  import opened Geometry
  import opened Registry

  /** One peer's entry in a server snapshot: a `position` array read at
      indices 0..2 and a `rotation` array read at indices 0..3. Both fields
      are always present. */
  datatype PeerInfo = PeerInfo(position: seq<real>, rotation: seq<real>)

  /** Long enough that `updatePeerAvatars` writes only numbers: x and y of
      the position and all four quaternion components. A missing z is
      allowed, because `Vector3.set` keeps the current z when it is given
      `undefined`. */
  predicate WellShaped(info: PeerInfo) {
    |info.position| >= 2 && |info.rotation| >= 4
  }

  /** Whether the entry carries its own z coordinate. */
  predicate HasZ(info: PeerInfo) {
    |info.position| >= 3
  }

  /** The pose `updatePeerAvatars` writes over `current` for `info`: the
      position set from its first three numbers (keeping the current z when
      there are only two) and the quaternion from its first four, taken as
      they are. */
  function PoseOf(info: PeerInfo, current: Pose): Pose
    requires WellShaped(info)
  {
    var p, q := info.position, info.rotation;
    var z := if HasZ(info) then p[2] else current.position.z;
    Pose(Vec3(p[0], p[1], z), Quat(q[0], q[1], q[2], q[3]))
  }

  /** `getPlayerPosition`: the camera's position and quaternion as the two
      arrays sent to the server, which reads back as the same pose. */
  function PlayerPosition(camera: Pose): (info: PeerInfo)
    ensures |info.position| == 3 && |info.rotation| == 4
    ensures WellShaped(info) && HasZ(info)
    ensures forall current :: PoseOf(info, current) == camera
  {
    var p, q := camera.position, camera.rotation;
    PeerInfo([p.x, p.y, p.z], [q.x, q.y, q.z, q.w])
  }

  /** The arrays of every registered peer in `snapshot` are long enough.
      Entries for unregistered peers are never read. */
  predicate Readable(p: Presence, snapshot: map<PeerId, PeerInfo>) {
    forall id :: id in snapshot && id in p.avatars ==> WellShaped(snapshot[id])
  }

  /** The registry after a snapshot has been applied. */
  function ApplySnapshot(p: Presence, snapshot: map<PeerId, PeerInfo>): (r: Presence)
    requires Readable(p, snapshot)
    ensures r.scene == p.scene && r.nextHandle == p.nextHandle
    ensures r.avatars.Keys == p.avatars.Keys
    ensures forall id :: id in r.avatars ==> r.avatars[id].group == p.avatars[id].group
    ensures forall id :: id in r.avatars && id in snapshot ==> r.avatars[id].pose == PoseOf(snapshot[id], p.avatars[id].pose)
    ensures forall id :: id in r.avatars && id !in snapshot ==> r.avatars[id] == p.avatars[id]
  {
    var avatars := map id | id in p.avatars ::
      if id in snapshot then p.avatars[id].(pose := PoseOf(snapshot[id], p.avatars[id].pose)) else p.avatars[id];
    p.(avatars := avatars)
  }

  /** `updatePeerAvatars(peerInfoFromServer)`: the for-in loop over the
      snapshot, which overwrites the transform of each registered peer it
      meets and skips the rest. */
  method UpdatePeerAvatars(p: Presence, snapshot: map<PeerId, PeerInfo>) returns (r: Presence)
    requires Readable(p, snapshot)
    ensures r == ApplySnapshot(p, snapshot)
  {
    r := p;
    var pending := snapshot.Keys;
    while pending != {}
      invariant pending <= snapshot.Keys
      invariant r.scene == p.scene && r.nextHandle == p.nextHandle
      invariant r.avatars.Keys == p.avatars.Keys
      invariant forall id :: id in r.avatars ==> r.avatars[id].group == p.avatars[id].group
      invariant forall id :: id in r.avatars && id in snapshot && id !in pending ==> r.avatars[id].pose == PoseOf(snapshot[id], p.avatars[id].pose)
      invariant forall id :: id in r.avatars && (id !in snapshot || id in pending) ==> r.avatars[id] == p.avatars[id]
      decreases pending
    {
      var id :| id in pending;
      if id in r.avatars {
        r := r.(avatars := r.avatars[id := r.avatars[id].(pose := PoseOf(snapshot[id], r.avatars[id].pose))]);
      }
      pending := pending - {id};
    }
    assert r.avatars == ApplySnapshot(p, snapshot).avatars;
  }

  /** Reconciliation keeps the registry invariant. */
  lemma ApplySnapshotPreservesValid(p: Presence, snapshot: map<PeerId, PeerInfo>)
    requires Valid(p) && Readable(p, snapshot)
    ensures Valid(ApplySnapshot(p, snapshot))
  {
  }

  /** Applying the same snapshot twice is the same as applying it once. */
  lemma ApplySnapshotIdempotent(p: Presence, snapshot: map<PeerId, PeerInfo>)
    requires Readable(p, snapshot)
    ensures ApplySnapshot(ApplySnapshot(p, snapshot), snapshot) == ApplySnapshot(p, snapshot)
  {

  }

  /** The entry that stands for `older` followed by `newer`: the newer
      one, except that a newer position without z takes the older z. */
  function Overlay(older: PeerInfo, newer: PeerInfo): (info: PeerInfo)
    ensures WellShaped(older) && WellShaped(newer) ==>
      WellShaped(info) && forall current :: PoseOf(info, current) == PoseOf(newer, PoseOf(older, current))
  {
    if |newer.position| == 2 && HasZ(older) then
      PeerInfo(newer.position + [older.position[2]], newer.rotation)
    else newer
  }

  /** The snapshot that stands for `first` followed by `second`. */
  function Compose(first: map<PeerId, PeerInfo>, second: map<PeerId, PeerInfo>): map<PeerId, PeerInfo>
  {
    map id | id in first.Keys + second.Keys ::
      if id in first && id in second then Overlay(first[id], second[id])
      else if id in second then second[id]
      else first[id]
  }

  /** Two snapshots in a row act as one: the later entry wins, so the
      transform is overwritten and not blended. The one thing carried over
      from the earlier entry is its z, when the later position has only x
      and y. */
  lemma ApplySnapshotSequential(p: Presence, first: map<PeerId, PeerInfo>, second: map<PeerId, PeerInfo>)
    requires Readable(p, first) && Readable(p, second)
    ensures Readable(ApplySnapshot(p, first), second)
    ensures Readable(p, Compose(first, second))
    ensures ApplySnapshot(ApplySnapshot(p, first), second) == ApplySnapshot(p, Compose(first, second))
  {
  }

  /** When every later position carries its z, two snapshots in a row are
      just their union with the later one winning. */
  lemma ApplySnapshotSequentialFull(p: Presence, first: map<PeerId, PeerInfo>, second: map<PeerId, PeerInfo>)
    requires Readable(p, first) && Readable(p, second)
    requires forall id :: id in second ==> HasZ(second[id])
    ensures Readable(ApplySnapshot(p, first), second)
    ensures Readable(p, first + second)
    ensures ApplySnapshot(ApplySnapshot(p, first), second) == ApplySnapshot(p, first + second)
  {
  }

  /** What one player reports is exactly the pose its avatar takes on every
      other client that has it registered. */
  lemma ReportedPoseRoundTrip(p: Presence, id: PeerId, camera: Pose)
    requires id in p.avatars
    ensures Readable(p, map[id := PlayerPosition(camera)])
    ensures ApplySnapshot(p, map[id := PlayerPosition(camera)]).avatars[id].pose == camera
  {
  }
}
