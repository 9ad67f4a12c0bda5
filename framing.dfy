/** Auto-framing of a freshly loaded asset: from the centre and the diagonal
    length of its axis-aligned bounding box, shift it, give it a uniform
    scale that maps the diagonal onto a fixed span, stand it upright and
    place the camera in proportion to its size (src/main.ts:27-40).
    The bounding box itself is computed by the rendering engine; its centre
    and diagonal length are inputs here. */
module Framing {
  import opened Vectors

  /** The span, in world units, that the scaled diagonal is meant to cover. */
  const TargetSpan: real := 5.0

  /** Camera distance per unit of (unscaled) diagonal length. */
  const CameraDistanceFactor: real := 2.5

  /** The point the camera is turned towards after framing. */
  const CameraTarget: Vec3 := Origin

  /** The three transform fields of the asset's root object. */
  datatype Transform = Transform(position: Vec3, scale: Vec3, rotation: Vec3)

  /** The scale written by framing: the same factor on every axis, and that
      factor times the diagonal length is the target span. */
  function FramedScale(size: real): (s: Vec3)
    requires size > 0.0
    ensures IsUniform(s)
    ensures s.x * size == TargetSpan
  {
    Uniform(TargetSpan / size)
  }

  /** The asset's transform after framing. The centre is subtracted from
      the position the asset already has; scale is overwritten, not
      multiplied; rotation about x and z is reset, rotation about y kept. */
  function Framed(t: Transform, center: Vec3, size: real): (r: Transform)
    requires size > 0.0
    ensures Add(r.position, center) == t.position
    ensures IsUniform(r.scale) && r.scale.x * size == TargetSpan
    ensures r.rotation.x == 0.0 && r.rotation.z == 0.0
    ensures r.rotation.y == t.rotation.y
  {
    Transform(Sub(t.position, center), FramedScale(size), Vec3(0.0, t.rotation.y, 0.0))
  }

  /** The camera position after framing: x and z equal the camera distance,
      y is a third of it, and in the framed asset's units the distance is
      the same for every asset, whatever its native size. */
  function CameraPosition(size: real): (p: Vec3)
    requires size > 0.0
    ensures p.x == p.z == CameraDistanceFactor * size
    ensures 3.0 * p.y == p.x
    ensures p.x * FramedScale(size).x == CameraDistanceFactor * TargetSpan
  {
    var distance := size * CameraDistanceFactor;
    Vec3(distance, distance / 3.0, distance)
  }

  /** Where the point `local` of the asset's own frame lands in the world
      under `t`, for a root object with no parent and rotation zero. */
  function WorldPoint(t: Transform, local: Vec3): (w: Vec3) {
    Add(t.position, Mul(t.scale, local))
  }

  /** Because the centre is subtracted before the scale is replaced, the
      bounding-box centre does not in general end at the origin: it ends at
      its local offset times the change of scale, and so lands on the origin
      exactly when the scale did not change or the centre is the object's
      own origin. */
  lemma FramedCenter(t: Transform, local: Vec3, size: real)
    requires size > 0.0
    requires IsUniform(t.scale)
    ensures var r := Framed(t, WorldPoint(t, local), size);
            WorldPoint(r, local) == Times(r.scale.x - t.scale.x, local)
    ensures var r := Framed(t, WorldPoint(t, local), size);
            WorldPoint(r, local) == Origin <==> (local == Origin || t.scale.x * size == TargetSpan)
  {
    var r := Framed(t, WorldPoint(t, local), size);
    var k := r.scale.x - t.scale.x;
    AxisCenter(t.position.x, t.scale.x, local.x, r.scale.x);
    AxisCenter(t.position.y, t.scale.x, local.y, r.scale.x);
    AxisCenter(t.position.z, t.scale.x, local.z, r.scale.x);
    assert WorldPoint(r, local) == Times(k, local);
    TimesZero(k, local);
    SameScale(t.scale.x, size);
  }

  // The three small arithmetic lemmas below are single steps of
  // `FramedCenter`. Proved in one piece, that lemma runs out of the
  // verifier's resources on some solver seeds; calling them keeps it stable.

  /** One axis of `FramedCenter`: a centre `p + s * l` subtracted from `p`,
      then the scale replaced by `s'`, puts the local point at `(s' - s) * l`. */
  lemma AxisCenter(p: real, s: real, l: real, s': real)
    ensures (p - (p + s * l)) + s' * l == (s' - s) * l
  {
  }

  lemma TimesZero(k: real, v: Vec3)
    ensures Times(k, v) == Origin <==> (k == 0.0 || v == Origin)
  {
    if k != 0.0 && Times(k, v) == Origin {
      assert k * v.x == 0.0 && k * v.y == 0.0 && k * v.z == 0.0;
    }
  }

  /** The framing scale equals a given scale exactly when that scale
      already maps the diagonal onto the target span. */
  lemma SameScale(s: real, size: real)
    requires size > 0.0
    ensures FramedScale(size).x - s == 0.0 <==> s * size == TargetSpan
  {
    var f := FramedScale(size).x;
    assert f * size == TargetSpan;
    if s * size == TargetSpan {
      assert (f - s) * size == 0.0;
    }
  }

  /** A unit-scaled asset at rest whose box runs from (0, 0, 0) to (2, 0, 0):
      after framing, its centre sits at x = 1.5, not at the origin. */
  lemma FramedCenterExample()
    ensures var t := Transform(Origin, Uniform(1.0), Origin);
            var local := Vec3(1.0, 0.0, 0.0);
            WorldPoint(Framed(t, WorldPoint(t, local), 2.0), local) == Vec3(1.5, 0.0, 0.0)
  {
    var t := Transform(Origin, Uniform(1.0), Origin);
    var local := Vec3(1.0, 0.0, 0.0);
    FramedCenter(t, local, 2.0);
  }
}
