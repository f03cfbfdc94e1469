/** The avatar registry of `MyScene`: the `avatars` object keyed by peer id,
    and the scene graph the avatars' groups are added to and removed from. */
module Registry {
  import opened Geometry

  type PeerId = string

  /** An opaque reference to a `THREE.Group` (or any other object) in the
      scene. Handles are handed out from a counter, so a new one is never
      already in use. */
  type Handle = nat

  /** The record `avatars[id]`: the group that represents the peer, and that
      group's transform. */
  datatype Avatar = Avatar(group: Handle, pose: Pose)

  /** `avatars`, the multiset of objects in the scene, and the next unused
      handle. The scene also holds the static scenery, which the registry
      never touches. */
  datatype Presence = Presence(avatars: map<PeerId, Avatar>, scene: multiset<Handle>, nextHandle: Handle)

  /** `removePeerAvatar` for an id that is not registered reads `.group` of
      `undefined`, which throws a TypeError before anything is changed. */
  datatype Fault = GroupOfUndefined

  datatype Result<T> = Ok(value: T) | Err(fault: Fault)

  /** The invariant the registry operations keep: every handle in the scene
      was handed out, every registered group is in the scene exactly once,
      and no two peers share a group. */
  predicate Valid(p: Presence) {
    && (forall h :: h in p.scene ==> h < p.nextHandle)
    && (forall id :: id in p.avatars ==> p.scene[p.avatars[id].group] == 1)
    && (forall i, j :: i in p.avatars && j in p.avatars && p.avatars[i].group == p.avatars[j].group ==> i == j)
  }

  /** The registry as the constructor leaves it: no avatars, and a scene
      that holds only scenery, all of whose handles lie below `nextHandle`. */
  function Initial(scenery: multiset<Handle>, nextHandle: Handle): (p: Presence)
    requires forall h :: h in scenery ==> h < nextHandle
    ensures Valid(p)
    ensures p.avatars == map[] && p.scene == scenery
  {
    Presence(map[], scenery, nextHandle)
  }

  /** `addPeerAvatar(id)`: a new group enters the scene and `avatars[id]`
      is overwritten to point at it. A group already registered under `id`
      is not removed from the scene. */
  function AddPeerAvatar(p: Presence, id: PeerId): (r: Presence)
    ensures r.avatars.Keys == p.avatars.Keys + {id}
    ensures r.avatars[id].pose == NeutralPose
    ensures forall other :: other in p.avatars && other != id ==> r.avatars[other] == p.avatars[other]
    ensures r.avatars[id].group in r.scene
    ensures p.scene <= r.scene && |r.scene| == |p.scene| + 1
    ensures Valid(p) ==> r.avatars[id].group !in p.scene && Valid(r)
  {
    var group := p.nextHandle;
    Presence(p.avatars[id := Avatar(group, NeutralPose)], p.scene + multiset{group}, p.nextHandle + 1)
  }

  /** `removePeerAvatar(id)`: the peer's group leaves the scene and the
      entry is deleted; an unregistered id is a fault and changes nothing. */
  function RemovePeerAvatar(p: Presence, id: PeerId): (r: Result<Presence>)
    ensures r.Err? <==> id !in p.avatars
    ensures r.Ok? ==> r.value.avatars.Keys == p.avatars.Keys - {id}
    ensures r.Ok? ==> forall other :: other in r.value.avatars ==> r.value.avatars[other] == p.avatars[other]
    ensures r.Ok? ==> forall h :: h != p.avatars[id].group ==> r.value.scene[h] == p.scene[h]
    ensures r.Ok? && Valid(p) ==>
      && p.avatars[id].group !in r.value.scene
      && |r.value.scene| == |p.scene| - 1
      && Valid(r.value)
  {
    if id !in p.avatars then Err(GroupOfUndefined)
    else
      var group := p.avatars[id].group;
      Ok(p.(avatars := p.avatars - {id}, scene := p.scene - multiset{group}))
  }

  /** Adding a new peer and removing it again leaves the registry and the
      scene as they were: nothing leaks. */
  lemma AddThenRemoveRestores(p: Presence, id: PeerId)
    requires id !in p.avatars
    ensures RemovePeerAvatar(AddPeerAvatar(p, id), id) == Ok(p.(nextHandle := p.nextHandle + 1))
  {
    var q := AddPeerAvatar(p, id);
    var g := q.avatars[id].group;
    assert q.scene - multiset{g} == p.scene;
    assert q.avatars - {id} == p.avatars;
  }

  /** Adding a peer that is already registered orphans its old group: after
      the peer is removed, that group is still in the scene but no entry
      refers to it. */
  lemma ReAddOrphansGroup(p: Presence, id: PeerId)
    requires Valid(p) && id in p.avatars
    ensures var r := RemovePeerAvatar(AddPeerAvatar(p, id), id);
      && r.Ok?
      && id !in r.value.avatars
      && p.avatars[id].group in r.value.scene
      && forall other :: other in r.value.avatars ==> r.value.avatars[other].group != p.avatars[id].group
  {

  }
}
