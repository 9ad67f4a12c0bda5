/** The module-level state of src/main.ts as one object: the drag flag and
    anchor (lines 46-47), whether the asset has been loaded (line 20), the
    asset root's position, scale and rotation, and the camera's position and
    look-at target. Each event handler, and the completion of the asset
    load, is a method that updates these fields in place. */
module Session {
  import opened Vectors
  import Framing
  import Drag

  class Viewer {
    var dragging: bool
    var anchorX: int
    var hasModel: bool
    var position: Vec3
    var scale: Vec3
    var rotation: Vec3
    var cameraPosition: Vec3
    var cameraTarget: Vec3

    /** The asset root's transform fields. */
    function ModelTransform(): Framing.Transform
      reads this
    {
      Framing.Transform(position, scale, rotation)
    }

    /** The part of the state the pointer handlers read and write. */
    function DragView(): Drag.DragState
      reads this
    {
      Drag.DragState(dragging, anchorX, hasModel, rotation.y)
    }

    /** The session before any event: not dragging, anchor at 0, no asset;
        the transforms are the engine's defaults (a camera at the origin
        facing down the negative z axis). */
    constructor ()
      ensures !dragging && anchorX == 0 && !hasModel
      ensures position == Origin && scale == Uniform(1.0) && rotation == Origin
      ensures cameraPosition == Origin && cameraTarget == Vec3(0.0, 0.0, -1.0)
    {
      dragging := false;
      anchorX := 0;
      hasModel := false;
      position := Origin;
      scale := Uniform(1.0);
      rotation := Origin;
      cameraPosition := Origin;
      cameraTarget := Vec3(0.0, 0.0, -1.0);
    }

    /** Framing after load (src/main.ts:30-40): centre and diagonal length
        of the asset's bounding box are given. There is no guard against a
        zero diagonal in the source, so a positive one is required. */
    method Frame(center: Vec3, size: real)
      requires size > 0.0
      modifies this
      ensures ModelTransform() == Framing.Framed(old(ModelTransform()), center, size)
      ensures position == Sub(old(position), center)
      ensures IsUniform(scale) && scale.x * size == Framing.TargetSpan
      ensures rotation == Vec3(0.0, old(rotation.y), 0.0)
      ensures cameraPosition == Framing.CameraPosition(size)
      ensures cameraTarget == Framing.CameraTarget
      ensures dragging == old(dragging) && anchorX == old(anchorX) && hasModel == old(hasModel)
    {
      position := Sub(position, center);
      var k := Framing.TargetSpan / size;
      scale := Vec3(k, k, k);
      rotation := rotation.(x := 0.0, z := 0.0);
      var cameraDistance := size * Framing.CameraDistanceFactor;
      cameraPosition := Vec3(cameraDistance, cameraDistance / 3.0, cameraDistance);
      cameraTarget := Origin;
    }

    /** Completion of the asset load (src/main.ts:22-40): the loaded scene
        root, with the transform it came with, becomes the model, and is
        then framed. */
    method Load(scene: Framing.Transform, center: Vec3, size: real)
      requires size > 0.0
      modifies this
      ensures hasModel
      ensures ModelTransform() == Framing.Framed(scene, center, size)
      ensures cameraPosition == Framing.CameraPosition(size)
      ensures cameraTarget == Framing.CameraTarget
      ensures dragging == old(dragging) && anchorX == old(anchorX)
    {
      hasModel := true;
      position, scale, rotation := scene.position, scene.scale, scene.rotation;
      Frame(center, size);
    }

    /** mousedown (src/main.ts:49-52): arm and record the anchor. */
    method MouseDown(x: int)
      modifies this
      ensures dragging && anchorX == x
      ensures DragView() == Drag.Step(old(DragView()), Drag.Press(x))
      ensures hasModel == old(hasModel)
      ensures ModelTransform() == old(ModelTransform())
      ensures cameraPosition == old(cameraPosition) && cameraTarget == old(cameraTarget)
    {
      dragging := true;
      anchorX := x;
    }

    /** mouseup (src/main.ts:54-56): disarm; the anchor stays. */
    method MouseUp()
      modifies this
      ensures !dragging && anchorX == old(anchorX)
      ensures DragView() == Drag.Step(old(DragView()), Drag.Release)
      ensures hasModel == old(hasModel)
      ensures ModelTransform() == old(ModelTransform())
      ensures cameraPosition == old(cameraPosition) && cameraTarget == old(cameraTarget)
    {
      dragging := false;
    }

    /** mousemove (src/main.ts:58-68): ignored unless armed and loaded;
        otherwise turn about y by the sensitivity times the pointer's
        horizontal distance from the anchor, and move the anchor. */
    method MouseMove(x: int)
      modifies this
      ensures DragView() == Drag.Step(old(DragView()), Drag.Move(x))
      ensures Drag.Offset(DragView()) == old(Drag.Offset(DragView()))
      ensures old(!dragging || !hasModel) ==>
                anchorX == old(anchorX) && rotation == old(rotation)
      ensures old(dragging && hasModel) ==>
                anchorX == x &&
                rotation == old(rotation).(y := old(rotation.y) + Drag.Sensitivity * (x - old(anchorX)) as real)
      ensures dragging == old(dragging) && hasModel == old(hasModel)
      ensures position == old(position) && scale == old(scale)
      ensures cameraPosition == old(cameraPosition) && cameraTarget == old(cameraTarget)
    {
      if !dragging || !hasModel {
        return;
      }
      var deltaX := x - anchorX;
      var rotationAdjustment := Drag.Sensitivity;
      rotation := rotation.(y := rotation.y + deltaX as real * rotationAdjustment);
      anchorX := x;
    }
  }
}
