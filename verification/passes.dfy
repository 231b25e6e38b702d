/**
  One frame of the water demo (`draw_wgl` in projet.js): three passes in a
  fixed order. The reflection pass renders the sky and the terrain above the
  water, seen from the mirrored camera, into one offscreen target; the
  refraction pass renders the terrain below the water into the other; the
  final pass renders the whole terrain and then the water, which samples both
  targets.

  Which terrain fragments survive a pass is decided by the landscape fragment
  shader from the pass's `uRef` code and the fragment's world height.
  A pass is modelled by the target it renders into, its viewport, the camera
  it renders from and the draw calls it issues, in order.
 */
module Passes {
  import opened Geometry
  import opened Reflection
  import opened Water

  /** The landscape fragment shader's clip test: `uRef` 1 drops fragments below the water, 2 those above. */
  predicate Discards(ref: int, y: real, waterHeight: real)
    ensures Discards(ref, y, waterHeight) ==> (ref == 1 || ref == 2) && y != waterHeight
  {
    (ref == 1 && y < waterHeight) || (ref == 2 && y > waterHeight)
  }

  /** Each code's discard set, including "never" for 0 and for every other code. */
  lemma DiscardPolicy(y: real, h: real)
    ensures Discards(1, y, h) <==> y < h
    ensures Discards(2, y, h) <==> y > h
    ensures !Discards(0, y, h)
    ensures forall ref: int :: ref != 1 && ref != 2 ==> !Discards(ref, y, h)
  {
  }

  /**
    No fragment is dropped by both clip passes and one on the water plane is
    dropped by neither; every other fragment is kept by exactly one of them.
   */
  lemma ClipPassesPartition(y: real, h: real)
    ensures !(Discards(1, y, h) && Discards(2, y, h))
    ensures !Discards(1, h, h) && !Discards(2, h, h)
    ensures y != h ==> (Discards(1, y, h) <==> !Discards(2, y, h))
  {
  }

  datatype Target = ReflectionTarget | RefractionTarget | Canvas

  datatype Draw =
    | Skybox
    | Landscape(ref: int, waterHeight: real)
    | WaterSurface(camPosition: Vec3, waterHeight: real)

  datatype Camera = Camera(eye: Vec3, center: Vec3, up: Vec3)

  datatype PassRun = PassRun(target: Target, viewport: (nat, nat), camera: Camera, draws: seq<Draw>)

  /** Size of both offscreen targets (fboWidth, fboHeight). */
  const FboSize: (nat, nat) := (1024, 1024)

  const Up: Vec3 := Vec3(0.0, 1.0, 0.0)

  /** `firstPass`: mirrored camera, sky and the terrain with `uRef` 1, into the reflection target. */
  function FirstPass(camera: Camera, h: real): (p: PassRun)
    ensures p.target == ReflectionTarget && p.viewport == FboSize
    ensures LandscapeRefs(p.draws) == [ClipCode(p.target)] && Samples(p) == {}
    ensures p.camera.eye.y - h == h - camera.eye.y && p.camera.center.y == -camera.center.y
    ensures p.camera.eye.x == camera.eye.x && p.camera.eye.z == camera.eye.z
    ensures p.camera.center.x == camera.center.x && p.camera.center.z == camera.center.z && p.camera.up == Up
    ensures |p.draws| > 0 && p.draws[0] == Skybox
  {
    var mirrored := Camera(MirrorEye(camera.eye, h), MirrorCenter(camera.center), Up);
    PassRun(ReflectionTarget, FboSize, mirrored, [Skybox, Landscape(1, h)])
  }

  /** `secondPass`: the camera restored, sky and the terrain with `uRef` 2, into the refraction target. */
  function SecondPass(camera: Camera, h: real): (p: PassRun)
    ensures p.target == RefractionTarget && p.viewport == FboSize
    ensures LandscapeRefs(p.draws) == [ClipCode(p.target)] && Samples(p) == {}
    ensures p.camera.eye == camera.eye && p.camera.center == camera.center && p.camera.up == Up
    ensures |p.draws| > 0 && p.draws[0] == Skybox
  {
    PassRun(RefractionTarget, FboSize, Camera(camera.eye, camera.center, Up), [Skybox, Landscape(2, h)])
  }

  /**
    `render`: whatever camera the previous pass left in place, sky, the whole
    terrain (`uRef` 0), then the water seen from the original eye.
   */
  function FinalPass(current: Camera, eye: Vec3, h: real, canvas: (nat, nat)): (p: PassRun)
    ensures p.target == Canvas && p.viewport == canvas && p.camera == current
    ensures LandscapeRefs(p.draws) == [ClipCode(p.target)]
    ensures Samples(p) == {ReflectionTarget, RefractionTarget}
    ensures |p.draws| > 0 && p.draws[0] == Skybox
    ensures |p.draws| > 0 && p.draws[|p.draws| - 1] == WaterSurface(eye, h)
    ensures forall d :: 0 <= d < |p.draws| - 1 ==> !p.draws[d].WaterSurface?
  {
    var draws := [Skybox, Landscape(0, h), WaterSurface(eye, h)];
    assert draws[2].WaterSurface?;
    assert LandscapeRefs(draws[2..]) == [];
    assert LandscapeRefs(draws[1..]) == [0] + LandscapeRefs(draws[2..]);
    PassRun(Canvas, canvas, current, draws)
  }

  /** The offscreen targets a pass reads: the water samples both. */
  function Samples(p: PassRun): set<Target>
  {
    if exists k :: 0 <= k < |p.draws| && p.draws[k].WaterSurface? then {ReflectionTarget, RefractionTarget} else {}
  }

  /** Every target a pass samples was rendered by an earlier pass of the same frame, and no pass samples its own target. */
  ghost predicate ReadsAfterWrites(frame: seq<PassRun>)
  {
    forall l, t :: 0 <= l < |frame| && t in Samples(frame[l]) ==>
      t != frame[l].target && exists k :: 0 <= k < l && frame[k].target == t
  }

  /** The `uRef` codes of a pass's landscape draws, in order. */
  function LandscapeRefs(draws: seq<Draw>): (refs: seq<int>)
    ensures |refs| <= |draws|
    ensures forall r :: r in refs <==> exists d :: 0 <= d < |draws| && draws[d].Landscape? && draws[d].ref == r
  {
    if draws == [] then []
    else (if draws[0].Landscape? then [draws[0].ref] else []) + LandscapeRefs(draws[1..])
  }

  /** The ref each target's pass must use so that it holds the right half of the terrain. */
  function ClipCode(t: Target): int
  {
    match t
    case ReflectionTarget => 1
    case RefractionTarget => 2
    case Canvas => 0
  }

  /** `draw_wgl`: read the water height from the slider and run the three passes in order. */
  function DrawFrame(camera: Camera, slider: int, canvas: (nat, nat)): (frame: seq<PassRun>)
    ensures |frame| == 3
    ensures [frame[0].target, frame[1].target, frame[2].target] == [ReflectionTarget, RefractionTarget, Canvas]
    ensures LandscapeRefs(frame[0].draws) + LandscapeRefs(frame[1].draws) + LandscapeRefs(frame[2].draws) == [1, 2, 0]
    ensures forall k :: 0 <= k < 3 ==> LandscapeRefs(frame[k].draws) == [ClipCode(frame[k].target)]
    ensures forall k, d :: 0 <= k < 3 && 0 <= d < |frame[k].draws| && frame[k].draws[d].WaterSurface? ==>
      k == 2 && d == |frame[k].draws| - 1
    ensures ReadsAfterWrites(frame)
  {
    var h := WaterHeight(slider);
    var first := FirstPass(camera, h);
    var second := SecondPass(camera, h);
    [first, second, FinalPass(second.camera, camera.eye, h, canvas)]
  }

  /**
    The cameras of a frame: the reflection pass sees from the mirrored eye
    and centre, the other two from the unmirrored camera, all with up
    (0, 1, 0), and the water is lit from the unmirrored eye. Every pass draws
    the sky first. Every landscape draw clips against the slider's height.
   */
  lemma FrameCameras(camera: Camera, slider: int, canvas: (nat, nat))
    ensures var frame := DrawFrame(camera, slider, canvas);
      && frame[0].camera == Camera(MirrorEye(camera.eye, WaterHeight(slider)), MirrorCenter(camera.center), Up)
      && (forall k :: 0 <= k < 3 ==> frame[k].draws[0] == Skybox)
      && frame[1].camera == frame[2].camera == Camera(camera.eye, camera.center, Up)
      && frame[2].draws[2] == WaterSurface(camera.eye, WaterHeight(slider))
      && frame[0].viewport == frame[1].viewport == FboSize && frame[2].viewport == canvas
  {
  }

  /**
    What each target receives of the terrain: the reflection target the part
    at or above the water, the refraction target the part at or below it, and
    the canvas all of it.
   */
  lemma FrameClipping(camera: Camera, slider: int, canvas: (nat, nat), k: nat, d: nat, y: real)
    requires k < 3
    requires d < |DrawFrame(camera, slider, canvas)[k].draws|
    requires DrawFrame(camera, slider, canvas)[k].draws[d].Landscape?
    ensures var p := DrawFrame(camera, slider, canvas)[k];
      var h := WaterHeight(slider);
      !Discards(p.draws[d].ref, y, p.draws[d].waterHeight) <==>
        match p.target
        case ReflectionTarget => y >= h
        case RefractionTarget => y <= h
        case Canvas => true
  {
  }
}
