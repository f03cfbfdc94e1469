/** `updateClientVolumes`: each registered peer's audio element gets the
    gain for its distance from the camera. */
module Volumes {
  import opened Geometry
  import opened Attenuation
  import opened Registry

  /** The volume of each peer's `<id>_audio` element, keyed by peer id. An id
      is a key exactly when the page has such an element. */
  type VolumeTable = map<PeerId, real>

  /** The gain for one registered peer as heard from `camera`. */
  function PeerGain(camera: Vec3, avatar: Avatar): (g: real)
    ensures 0.0 <= g <= 1.0
    ensures avatar.pose.position == camera ==> g == 1.0
  {
    Gain(DistanceSquared(camera, avatar.pose.position))
  }

  /** The volumes after one recomputation: every peer that is both
      registered and has an audio element gets its gain; every other audio
      element keeps its volume, and no element is added. */
  function ClientVolumes(camera: Vec3, avatars: map<PeerId, Avatar>, volumes: VolumeTable): (r: VolumeTable)
    ensures r.Keys == volumes.Keys
    ensures forall id :: id in r && id in avatars ==> r[id] == PeerGain(camera, avatars[id])
    ensures forall id :: id in r && id !in avatars ==> r[id] == volumes[id]
    ensures forall id :: id in r && id in avatars ==> 0.0 <= r[id] <= 1.0
    ensures forall id :: id in r && id in avatars && Cutoff < DistanceSquared(camera, avatars[id].pose.position) ==> r[id] == 0.0
  {
    map id | id in volumes :: if id in avatars then PeerGain(camera, avatars[id]) else volumes[id]
  }

  /** The for-in loop over `avatars`, writing the volume of each peer whose
      audio element exists. */
  method UpdateClientVolumes(camera: Vec3, avatars: map<PeerId, Avatar>, volumes: VolumeTable) returns (r: VolumeTable)
    ensures r == ClientVolumes(camera, avatars, volumes)
  {
    r := volumes;
    var pending := avatars.Keys;
    while pending != {}
      invariant pending <= avatars.Keys
      invariant r.Keys == volumes.Keys
      invariant forall id :: id in r && id in avatars && id !in pending ==> r[id] == PeerGain(camera, avatars[id])
      invariant forall id :: id in r && (id !in avatars || id in pending) ==> r[id] == volumes[id]
      decreases pending
    {
      var id :| id in pending;
      if id in r {
        r := r[id := PeerGain(camera, avatars[id])];
      }
      pending := pending - {id};
    }
    assert r == ClientVolumes(camera, avatars, volumes);
  }

  /** A recomputation depends only on where the peers are, not on the
      volumes it overwrites: doing it twice gives the same table. */
  lemma ClientVolumesIdempotent(camera: Vec3, avatars: map<PeerId, Avatar>, volumes: VolumeTable)
    ensures ClientVolumes(camera, avatars, ClientVolumes(camera, avatars, volumes)) == ClientVolumes(camera, avatars, volumes)
  {

  }

  /** Of two registered peers, the nearer one is never quieter. */
  lemma NearerIsNotQuieter(camera: Vec3, avatars: map<PeerId, Avatar>, volumes: VolumeTable, near: PeerId, far: PeerId)
    requires near in avatars && far in avatars && near in volumes && far in volumes
    requires DistanceSquared(camera, avatars[near].pose.position) <= DistanceSquared(camera, avatars[far].pose.position)
    ensures ClientVolumes(camera, avatars, volumes)[far] <= ClientVolumes(camera, avatars, volumes)[near]
  {
    GainNonIncreasing(DistanceSquared(camera, avatars[near].pose.position), DistanceSquared(camera, avatars[far].pose.position));
  }
}
