# CopyCameraProperties, modelled in Dafny

CopyCameraProperties is a Unity behaviour that, every frame, copies the world
position and/or the field of view of an `origin` camera object onto a `target`
camera object. A copy mode (`Options`) selects what is copied. The two
"Reduced" modes scale only the X coordinate of the copied position by
`reductionFactor`.

This project models the component as an immutable record
(`CameraCopier.CopyCameraProperties`) holding:

- the two scene objects, each a position plus an optional Camera;
- the mode and the reduction factor;
- the three private caches (`originalPos`, `originCam`, `targetCam`).

The engine callbacks become pure functions over that record:

- `Init` records the host's position and resolves the camera handles.
- `CameraLoop` is the six-branch copy step.
- `Start` is `Init` followed by `CameraLoop`.
- `Update` is `CameraLoop`.
- `FrameLoop.Play` drives `Start` and then any number of `Update`s, as the engine does.

Files:

- `wrappers.dfy`: `Option`.
- `vectors.dfy`: `Vector3` and the X-only reduction.
- `modes.dfy`: the `Options` enum, its int representation, and the mode table.
- `copier.dfy`: the component and its callbacks.
- `properties.dfy`: per-mode and cross-mode properties of one copy step.
- `frames.dfy`: repeated frames.

Modelling decisions:

- **Mode values.** A C# enum field can hold any int. `Options.Undefined(code)` stands for a value outside the five members, so the `default:` branch is reachable. The subset type `CopyModes.Mode` admits only codes outside 0..4 for `Undefined`, so each int has exactly one mode. `Value`/`FromValue` model the int encoding, where the members are 0..4 in declaration order.
- **Camera handles.** A cached handle is `Bound` (a live reference to that object's Camera) or `Null`.
- **Null dereferences become a precondition.** A field-of-view branch dereferences both handles. `CanRun` is the condition under which that cannot fail, and `CameraLoop` requires it. `InitEnablesLoop` shows that `Init` establishes `CanRun` exactly when every camera a field-of-view mode needs is present.
- **Reduction factor range.** `[RangeAttribute(0f,1f)]` (`CopyCameraProperties.cs:33`) is an inspector hint that nothing enforces, so no contract assumes the range.
- **Missing cameras.** A missing Camera makes lines 68, 80 and 85 dereference null. The model states the absence of that fault as the precondition `CanRun` rather than modelling an exception.

## Model

| member | source | states |
|---|---|---|
| Vectors.ReduceX | CopyCameraProperties.cs:74-77 | the reduced copy keeps Y and Z exactly; a factor of 1 returns the position unchanged; a factor of 0 gives X = 0; X is preserved exactly when the factor is 1 or X is already 0 |
| CopyModes.Value | CopyCameraProperties.cs:23-30 | a mode is stored as an int in 0..4 exactly when it is one of the five named members |
| CopyModes.FromValue | CopyCameraProperties.cs:23-30 | every int denotes a mode, and that mode is undefined exactly when the int lies outside 0..4 |
| CopyModes.ValueOfFromValue | CopyCameraProperties.cs:23-29 | reading an int as a mode and storing it again gives the same int |
| CopyModes.FromValueOfValue | CopyCameraProperties.cs:23-29 | storing any mode as an int and reading it back gives the same mode |
| CopyModes.Unreduced | CopyCameraProperties.cs:74-86 | each reduced mode is paired with the unreduced mode that copies the same kinds of property; non-reduced modes pair with themselves |
| CameraCopier.Init | CopyCameraProperties.cs:56-62 | records the host position; in a field-of-view mode each handle becomes live exactly when its object has a Camera; in any other mode the handles keep their old values; nothing else changes |
| CameraCopier.CameraLoop | CopyCameraProperties.cs:64-94 | only the target is written and the origin is untouched; a position-copying mode sets the target position to the origin's position (X scaled in reduced modes), and any other mode leaves it; a field-of-view mode sets the target FOV to the origin's, and any other mode leaves the camera; the step can run again afterwards |
| CameraCopier.Start | CopyCameraProperties.cs:45-48 | given the cameras a field-of-view mode needs, Init followed by one copy step leaves the target holding the copied values and the component able to keep running |
| CameraCopier.Update | CopyCameraProperties.cs:51-53 | a frame changes only the target and keeps the component runnable |
| CameraCopier.InitEnablesLoop | CopyCameraProperties.cs:58-87 | Init's guard names exactly the modes whose branches dereference the handles, and after Init the copy step can run exactly when those modes find both cameras present |
| CopierProperties.CopyTransformCopiesPosition | CopyCameraProperties.cs:71-73 | CopyTransform always runs; it sets the target position to the origin's position and leaves the target camera and the origin untouched |
| CopierProperties.CopyFovCopiesFieldOfView | CopyCameraProperties.cs:67-69 | CopyFOV sets the target FOV to the origin's and leaves the target position and the origin untouched |
| CopierProperties.CopyTransformAndFovCopiesBoth | CopyCameraProperties.cs:79-82 | CopyTransformAndFOV makes the target an exact copy of the origin's position and FOV |
| CopierProperties.ReducedModesScaleOnlyX | CopyCameraProperties.cs:75-77 | in both reduced modes the target becomes (origin.x * factor, origin.y, origin.z); CopyTransformAndFOVReduced also copies the FOV exactly, and CopyTransformReduced leaves the camera |
| CopierProperties.ZeroFactorCollapsesX | CopyCameraProperties.cs:76 | a factor of 0 puts the target at X = 0 regardless of the target's previous X, because the reduction multiplies rather than interpolates |
| CopierProperties.UnitFactorMatchesUnreduced | CopyCameraProperties.cs:74-86 | with a factor of 1 every mode leaves the target exactly as its unreduced counterpart does |
| CopierProperties.ReducedAgreesOnlyUnderUnitFactor | CopyCameraProperties.cs:74-86 | for a non-zero origin X, a reduced mode matches its counterpart exactly when the factor is 1 |
| CopierProperties.UndefinedModeFallsBackToCopyTransform | CopyCameraProperties.cs:89-92 | a mode value outside the enum behaves exactly like CopyTransform |
| CopierProperties.WrittenValuesIgnorePriorTarget | CopyCameraProperties.cs:64-94 | the values a step writes depend only on the origin and the configuration, never on the target's previous position or FOV; in a position-only mode this holds for any prior target, with or without a Camera |
| CopierProperties.CameraLoopIdempotent | CopyCameraProperties.cs:64-94 | with the origin fixed, a second copy step changes nothing |
| CopierProperties.UpdateAfterStartIsStable | CopyCameraProperties.cs:45-53 | an Update right after Start leaves the component as Start left it |
| CopierProperties.ModeChangeAfterInit | CopyCameraProperties.cs:58-85 | for a component whose handles are still null, switching to a field-of-view mode after Init can run exactly when Init already saw a field-of-view mode and both cameras |
| CopierProperties.WorkedExample | CopyCameraProperties.cs:71-77 | with origin (1, 2, 3): CopyTransform gives (1, 2, 3); CopyTransformReduced gives (0.5, 2, 3) with factor 0.5 and (0, 2, 3) with factor 0 |
| FrameLoop.RunFrames | CopyCameraProperties.cs:51-53 | any number of successive Updates keeps the component runnable |
| FrameLoop.RunFramesSteady | CopyCameraProperties.cs:51-53 | with the origin fixed, one or more Updates end in the same state as a single Update |
| FrameLoop.RunFramesKeepsOrigin | CopyCameraProperties.cs:51-53 | however many Updates run, only the target changes |
| FrameLoop.Play | CopyCameraProperties.cs:44-53 | Start followed by any number of Updates is the frame sequence RunFrames describes; with a fixed origin the target then holds exactly the copied position and/or FOV, and every field the mode does not copy keeps its original value |

## Left out

- The Unity engine surface is abstracted rather than modelled. A `GameObject` with its `Transform` becomes `CameraCopier.GameObject`, a world position plus an optional Camera. `GetComponent<Camera>()` becomes `CameraCopier.GetCamera`, which yields a live handle exactly when that Camera is present. The engine's frame scheduler becomes the explicit `Start`/`Update` calls driven by `FrameLoop.Play`. `MonoBehaviour` itself has no counterpart.
- IEEE single-precision floats are not modelled. Positions, the FOV and the factor are reals, so rounding, NaN, infinities and the signed zero of `x * 0` do not arise.
- Engine-side behaviour of the `position` and `fieldOfView` setters is not modelled. This includes FOV clamping by the Camera and parent-relative transforms.
- The inspector attributes (`[Header]`, `[RangeAttribute(0f,1f)]`) are editor hints and are left out. No contract assumes the factor lies in [0, 1].
- Unassigned `origin`/`target` references are outside the model. The record always holds both objects, so the null references this would cause are not modelled.
- A Camera component destroyed after `Init` is not modelled. Camera presence never changes in the model, and `CanRun` rejects a live handle to an object without a Camera.
- CopyModes.FromValue: C#'s 32-bit range for the enum's underlying int is not modelled. Any mathematical int is accepted.
- Origin and target are assumed to be distinct objects, neither the parent of the other. If the same object were chosen for both, a reduced mode would rescale the origin's own X every frame. That would break the contracts stating that the origin is never written and that a second step changes nothing.
- The cached handles are assumed to belong to the current origin and target, so `origin` and `target` are never reassigned after `Init`. The program would keep reading and writing the FOV through the cameras cached at lines 59-60, while the model reads the cameras of the objects it currently holds.
- `originalPos` is kept as an inert field. `Init` writes it from the `selfPos` parameter and nothing reads it, matching the source.
- FrameLoop.Play holds the origin fixed across frames. A moving origin corresponds to the caller replacing the record's `origin` between `Update` calls, which Play does not do.
