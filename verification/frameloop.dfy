/** The render loop `loop()`: one tick advances the frame counter, lets the
    camera controls move the camera, recomputes volumes on every 25th frame,
    and renders. */
module FrameLoop {
  import opened Geometry
  import opened Registry
  import opened Volumes

  /** Volumes are recomputed on frames whose number is a multiple of this. */
  const VolumePeriod: nat := 25

  /** The externally visible actions of one tick, in the order they happen. */
  datatype Step = ControlsUpdate | VolumeUpdate | Render

  /** `frameCount`, together with the number of volume recomputations and
      renders done so far. The two tallies are bookkeeping of the model. */
  datatype Clock = Clock(frameCount: nat, recomputes: nat, renders: nat)

  /** The state the loop reads and writes. */
  datatype World = World(presence: Presence, camera: Pose, volumes: VolumeTable, clock: Clock)

  datatype Tick = Tick(world: World, steps: seq<Step>)

  /** Whether the frame with this number recomputes volumes. */
  predicate RecomputesOn(frame: nat) {
    frame % VolumePeriod == 0
  }

  /** One call of `loop()`. `camera` is where `controls.update()` leaves the
      camera; the volume pass, when it runs, hears from that new position. */
  function Loop(w: World, camera: Pose): (t: Tick)
    ensures t.world.clock.frameCount == w.clock.frameCount + 1
    ensures t.world.clock.renders == w.clock.renders + 1
    ensures t.world.clock.recomputes == w.clock.recomputes + multiset(t.steps)[VolumeUpdate]
    ensures multiset(t.steps)[VolumeUpdate] == if RecomputesOn(t.world.clock.frameCount) then 1 else 0
    ensures |t.steps| == 2 + multiset(t.steps)[VolumeUpdate]
    ensures t.steps[0] == ControlsUpdate && t.steps[|t.steps| - 1] == Render
    ensures multiset(t.steps)[Render] == 1 && multiset(t.steps)[ControlsUpdate] == 1
    ensures VolumeUpdate in t.steps <==> RecomputesOn(t.world.clock.frameCount)
    ensures t.world.presence == w.presence && t.world.camera == camera
    ensures t.world.volumes ==
      if VolumeUpdate in t.steps then ClientVolumes(camera.position, w.presence.avatars, w.volumes) else w.volumes
  {
    var frame := w.clock.frameCount + 1;
    if RecomputesOn(frame) then
      var volumes := ClientVolumes(camera.position, w.presence.avatars, w.volumes);
      Tick(World(w.presence, camera, volumes, Clock(frame, w.clock.recomputes + 1, w.clock.renders + 1)),
           [ControlsUpdate, VolumeUpdate, Render])
    else
      Tick(World(w.presence, camera, w.volumes, Clock(frame, w.clock.recomputes, w.clock.renders + 1)),
           [ControlsUpdate, Render])
  }

  /** Ticks the loop once per camera pose, in order. */
  function Run(w: World, cameras: seq<Pose>): World
    decreases |cameras|
  {
    if cameras == [] then w
    else Loop(Run(w, cameras[..|cameras| - 1]), cameras[|cameras| - 1]).world
  }

  /** Between frames `n` and `n + 1` there is one more multiple of the period
      exactly when `n + 1` is one. */
  lemma MultiplesStep(n: nat)
    ensures (n + 1) / VolumePeriod == n / VolumePeriod + (if RecomputesOn(n + 1) then 1 else 0)
  {
  }

  /** After any number of ticks: the counter has advanced by that number,
      every tick rendered once, and volumes were recomputed once per
      multiple of 25 passed. The registry is left alone. */
  lemma {:induction false} RunCounts(w: World, cameras: seq<Pose>)
    ensures Run(w, cameras).clock.frameCount == w.clock.frameCount + |cameras|
    ensures Run(w, cameras).clock.renders == w.clock.renders + |cameras|
    ensures Run(w, cameras).clock.recomputes
         == w.clock.recomputes + (w.clock.frameCount + |cameras|) / VolumePeriod - w.clock.frameCount / VolumePeriod
    ensures Run(w, cameras).presence == w.presence
    decreases |cameras|
  {
    if cameras != [] {
      var prefix := cameras[..|cameras| - 1];
      RunCounts(w, prefix);
      var before := Run(w, prefix);
      var t := Loop(before, cameras[|cameras| - 1]);
      MultiplesStep(before.clock.frameCount);
      if RecomputesOn(t.world.clock.frameCount) {
        assert t.steps == [ControlsUpdate, VolumeUpdate, Render];
      } else {
        assert t.steps == [ControlsUpdate, Render];
      }
    }
  }

  /** Any 25 consecutive ticks recompute volumes exactly once; starting from
      frame 0, that is frames 1 to 25, with the one recomputation on 25. */
  lemma OncePerPeriod(w: World, cameras: seq<Pose>)
    requires |cameras| == VolumePeriod
    ensures Run(w, cameras).clock.recomputes == w.clock.recomputes + 1
  {
    RunCounts(w, cameras);
  }

  /** Starting from frame 0, the first 24 ticks never recompute volumes. */
  lemma NoneBeforeFrame25(w: World, cameras: seq<Pose>)
    requires w.clock.frameCount == 0 && |cameras| < VolumePeriod
    ensures Run(w, cameras).clock.recomputes == w.clock.recomputes
  {
    RunCounts(w, cameras);
  }
}
