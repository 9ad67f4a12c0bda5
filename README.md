# Auto-framing and drag rotation of a three.js model viewer

A Dafny model of the logic in `src/main.ts` of a small three.js starter: a
viewer that loads one glTF asset, fits it to a fixed span and places the
camera in proportion to its size, and then lets the user spin the asset about
its vertical axis by dragging the mouse horizontally.

- `vectors.dfy` (module `Vectors`): `Vec3`, the real-valued triple used for
  positions, scales and rotations, with component-wise arithmetic.
- `framing.dfy` (module `Framing`): the framing arithmetic done on load, as
  pure functions (`Framed`, `FramedScale`, `CameraPosition`). The constants
  are the source's: a target span of 5 and a camera distance of 2.5 times the
  diagonal. A lemma shows where the bounding-box centre ends up.
- `drag.dfy` (module `Drag`): the press / release / move state machine as a
  pure step function `Step` over `DragState`, and `Run` over a sequence of
  events. The lemmas cover the telescoping invariant
  `rotationY - 0.01 * anchorX`, which is kept by every event except a press.
  They also cover the total rotation of a drag and show that it does not
  depend on how the motion is split into events.
- `session.dfy` (module `Session`): class `Viewer`. It holds the module-level
  state of `main.ts` as fields that its methods change in place: `Frame`,
  `Load`, `MouseDown`, `MouseUp` and `MouseMove`. Each method's postcondition
  gives the new value of every field. It also ties the new state to
  `Framing.Framed` or `Drag.Step` applied to the old state, so the lemmas
  about those functions hold of the objects.

JavaScript numbers are modelled as exact `real`s and `clientX` as an `int`.
The centre and diagonal length of the bounding box are inputs, and so is the
transform the loaded scene root comes with.

Facts about `src/main.ts` that shape the model:
- Framing subtracts the centre from the position the asset already has
  (src/main.ts:30).
- Framing overwrites the scale with 5/size (src/main.ts:31). Because the
  centre was subtracted first, the framed asset's centre is in general not at
  the origin (`Framing.FramedCenter`, `Framing.FramedCenterExample`).
- The camera distance is 2.5 times the diagonal (src/main.ts:38).
- There is no guard against a zero diagonal (src/main.ts:31), so `size > 0`
  is a precondition of `Frame`, `Load` and the framing functions.

## Model

| member | source | states |
|---|---|---|
| `Framing.FramedScale` | src/main.ts:29-31 | the scale is uniform, and its factor times the diagonal length equals the target span 5 |
| `Framing.Framed` | src/main.ts:28-35 | position plus centre gives the old position back (the centre is subtracted from the existing position); scale is uniform with factor·size = 5; rotation x and z are 0; rotation y is unchanged |
| `Framing.CameraPosition` | src/main.ts:38-39 | camera x = z = 2.5·size and 3·y = x; in the framed asset's units the distance is the same for every asset (x · scale = 2.5·5) |
| `Framing.FramedCenter` | src/main.ts:27-31 | for an unrotated asset with uniform scale, framing moves the box centre to (new scale − old scale) · local centre; it is at the origin exactly when the scale did not change or the local centre is 0 |
| `Framing.FramedCenterExample` | src/main.ts:27-31 | a unit-scale asset whose box spans (0,0,0) to (2,0,0) has its centre at x = 1.5 after framing, not at the origin |
| `Drag.Step` | src/main.ts:49-68 | press arms the machine and sets the anchor, keeping the rotation; release disarms it, keeping anchor and rotation; a move while disarmed or without a model changes nothing; a move while armed with a model adds 0.01·(x − anchor) to rotation y and sets the anchor to x; every event but a press keeps rotationY − 0.01·anchor |
| `Drag.RunAppend` | src/main.ts:49-68 | handling the events of a + b is handling a, then b |
| `Drag.OffsetKept` | src/main.ts:54-68 | any sequence of events without a press keeps rotationY − 0.01·anchor and whether a model is loaded |
| `Drag.MovesKeepArmed` | src/main.ts:58-67 | moves while armed with a model keep the machine armed and leave the anchor at the last pointer position |
| `Drag.DeltasTelescope` | src/main.ts:61-67 | the successive horizontal deltas of a drag sum to the last position minus the start |
| `Drag.DragRotation` | src/main.ts:61-67 | moves while armed with a model add 0.01 times the sum of the deltas to rotation y, which equals 0.01·(last position − anchor) |
| `Drag.PressThenDrag` | src/main.ts:49-67 | with a model loaded, a press at x0 then moves to x1..xn leave the machine armed at xn with rotation y grown by 0.01·(xn − x0) |
| `Drag.ChunkedDrag` | src/main.ts:58-67 | two runs of moves leave the same state as the concatenated run |
| `Drag.InertMovesIgnored` | src/main.ts:59 | while disarmed or without a model, any moves leave the whole state unchanged, anchor included |
| `Session.Viewer.constructor` | src/main.ts:46-47 | a new session is not dragging, has anchor 0 and no model |
| `Session.Viewer.Frame` | src/main.ts:30-40 | the new transform is `Framed` of the old one; the camera is at `CameraPosition(size)` looking at the origin; drag state and model presence are unchanged |
| `Session.Viewer.Load` | src/main.ts:22-40 | after load a model is present, its transform is the loaded scene's transform framed, and the camera is placed; drag state is unchanged |
| `Session.Viewer.MouseDown` | src/main.ts:49-52 | dragging is true and the anchor is x; model transform, model presence and camera are unchanged |
| `Session.Viewer.MouseUp` | src/main.ts:54-56 | dragging is false; the anchor, model transform, model presence and camera are unchanged |
| `Session.Viewer.MouseMove` | src/main.ts:58-68 | the drag state is `Drag.Step` of the old one on a move, so rotationY − 0.01·anchor is kept; with no model or while disarmed neither anchor nor rotation changes; otherwise rotation y grows by 0.01·(x − anchor), the anchor becomes x, and nothing else changes |

## Left out

- Scene, camera, renderer and light construction (src/main.ts:5-17): engine object setup with no logic of its own.
- The asynchronous glTF loader and the `console.log` on load (src/main.ts:21-24, 42): the completion of the load is the method `Load`, and the loaded scene's transform is its input.
- `Box3.setFromObject`, `getCenter` and `getSize().length()` (src/main.ts:27-29): engine geometry, including a square root. Their results, the centre and the diagonal length, are inputs.
- `THREE.MathUtils.degToRad(0)` (src/main.ts:34-35): taken as the constant 0.
- `camera.lookAt` is modelled only as the target point it is given. The camera's orientation is not computed.
- The render loop (src/main.ts:71-75): frame scheduling only.
- The window-resize handler (src/main.ts:78-82): aspect ratio and engine calls.
- Event-listener registration: each handler is a method, and of the event only `clientX` is kept.
- IEEE-754 rounding, Infinity and NaN: numbers are exact reals. The division by a zero diagonal is excluded by the precondition `size > 0`.
- Framing.FramedCenter: it treats the asset as a root object with no parent and no rotation. The engine's actual bounding box of a rotated asset is not modelled.
