/**
  The camera of the reflection pass (`firstPass` in projet.js). The eye is
  mirrored across the water plane y = h; the look-at centre only has its y
  negated, which mirrors it across y = 0 whatever the water height.
 */
module Reflection {
  import opened Geometry

  /** `eye.y = eye.y - 2 * (eye.y - waterHeight)`: the eye seen in the water. */
  function MirrorEye(eye: Vec3, h: real): (r: Vec3)
    ensures r.x == eye.x && r.z == eye.z
    ensures (eye.y + r.y) / 2.0 == h
  {
    Vec3(eye.x, eye.y - 2.0 * (eye.y - h), eye.z)
  }

  /** `center.y = -center.y`. */
  function MirrorCenter(center: Vec3): (r: Vec3)
    ensures r.x == center.x && r.z == center.z
    ensures r.y + center.y == 0.0
  {
    Vec3(center.x, -center.y, center.z)
  }

  /** Mirroring twice restores the eye; an eye on the plane is its own mirror image. */
  lemma MirrorEyeInvolution(eye: Vec3, h: real)
    ensures MirrorEye(MirrorEye(eye, h), h) == eye
    ensures MirrorEye(eye, h) == eye <==> eye.y == h
  {
  }

  /** An eye above the water sees from below it, at the same distance from the plane. */
  lemma MirrorEyeSide(eye: Vec3, h: real)
    ensures eye.y > h <==> MirrorEye(eye, h).y < h
    ensures eye.y - h == h - MirrorEye(eye, h).y
  {
  }

  /** The centre is mirrored as the eye would be across the plane y = 0, not across the water. */
  lemma MirrorCenterAboutZero(center: Vec3, h: real)
    ensures MirrorCenter(center) == MirrorEye(center, 0.0)
    ensures MirrorCenter(center) == MirrorEye(center, h) <==> h == 0.0
  {
  }

  /**
    The mirrored camera looks along the original view direction with its
    vertical component negated exactly when the water lies at y = 0;
    otherwise the vertical component is off by 2h.
   */
  lemma MirroredViewDirection(eye: Vec3, center: Vec3, h: real)
    ensures MirrorCenter(center).x - MirrorEye(eye, h).x == center.x - eye.x
    ensures MirrorCenter(center).z - MirrorEye(eye, h).z == center.z - eye.z
    ensures MirrorCenter(center).y - MirrorEye(eye, h).y == -(center.y - eye.y) - 2.0 * h
  {
  }

  /** The worked case: an eye at height 5 over water at height 1 is mirrored to height -3. */
  lemma MirrorEyeExample()
    ensures MirrorEye(Vec3(0.0, 5.0, 0.0), 1.0) == Vec3(0.0, -3.0, 0.0)
  {
  }
}
