/**
 Properties of one copy step, stated per mode and across modes.
 */
module CopierProperties {
  import opened Wrappers
  import opened Vectors
  import opened CopyModes
  import opened CameraCopier

  /** CopyTransform: the target takes the origin's position; its camera and the origin are untouched. */
  lemma CopyTransformCopiesPosition(c: CopyCameraProperties)
    requires c.copyMode == CopyTransform
    ensures CanRun(c)
    ensures CameraLoop(c).target == c.target.(position := c.origin.position)
    ensures CameraLoop(c).origin == c.origin
  {
  }

  /** CopyFOV: the target's camera takes the origin's field of view; the target position is untouched. */
  lemma CopyFovCopiesFieldOfView(c: CopyCameraProperties)
    requires c.copyMode == CopyFOV && CanRun(c)
    ensures CameraLoop(c).target.camera == Some(Camera(c.origin.camera.value.fieldOfView))
    ensures CameraLoop(c).target.position == c.target.position
    ensures CameraLoop(c).origin == c.origin
  {
  }

  /** CopyTransformAndFOV: both the position and the field of view are exact copies. */
  lemma CopyTransformAndFovCopiesBoth(c: CopyCameraProperties)
    requires c.copyMode == CopyTransformAndFOV && CanRun(c)
    ensures CameraLoop(c).target == GameObject(c.origin.position, Some(Camera(c.origin.camera.value.fieldOfView)))
  {
  }

  /** The two reduced modes scale only X: Y and Z are exact copies, and the
      reduced mode that copies the field of view copies it exactly. */
  lemma ReducedModesScaleOnlyX(c: CopyCameraProperties)
    requires IsReduced(c.copyMode) && CanRun(c)
    ensures CameraLoop(c).target.position.x == c.origin.position.x * c.reductionFactor
    ensures CameraLoop(c).target.position.y == c.origin.position.y
    ensures CameraLoop(c).target.position.z == c.origin.position.z
    ensures c.copyMode == CopyTransformReduced ==> CameraLoop(c).target.camera == c.target.camera
    ensures c.copyMode == CopyTransformAndFOVReduced ==>
              CameraLoop(c).target.camera == Some(Camera(c.origin.camera.value.fieldOfView))
  {
  }

  /** A factor of 0 puts the target at X = 0, whatever X the target had before:
      the reduction multiplies, it does not interpolate. */
  lemma ZeroFactorCollapsesX(c: CopyCameraProperties)
    requires IsReduced(c.copyMode) && CanRun(c) && c.reductionFactor == 0.0
    ensures CameraLoop(c).target.position == Vector3(0.0, c.origin.position.y, c.origin.position.z)
  {
  }

  /** With a factor of 1 each reduced mode leaves the target exactly as its
      unreduced counterpart would. */
  lemma UnitFactorMatchesUnreduced(c: CopyCameraProperties)
    requires CanRun(c) && c.reductionFactor == 1.0
    ensures CanRun(c.(copyMode := Unreduced(c.copyMode)))
    ensures CameraLoop(c).target == CameraLoop(c.(copyMode := Unreduced(c.copyMode))).target
  {
  }

  /** Conversely, for a position with non-zero X a reduced mode agrees with its
      unreduced counterpart only under a factor of 1. */
  lemma ReducedAgreesOnlyUnderUnitFactor(c: CopyCameraProperties)
    requires IsReduced(c.copyMode) && CanRun(c) && c.origin.position.x != 0.0
    ensures CanRun(c.(copyMode := Unreduced(c.copyMode)))
    ensures CameraLoop(c).target == CameraLoop(c.(copyMode := Unreduced(c.copyMode))).target
            <==> c.reductionFactor == 1.0
  {
    var u := c.(copyMode := Unreduced(c.copyMode));
    if CameraLoop(c).target == CameraLoop(u).target {
      assert CameraLoop(c).target.position.x == CameraLoop(u).target.position.x;
    }
  }

  /** An undefined mode value behaves exactly like CopyTransform. */
  lemma UndefinedModeFallsBackToCopyTransform(c: CopyCameraProperties)
    requires c.copyMode.Undefined?
    ensures CanRun(c) && CanRun(c.(copyMode := CopyTransform))
    ensures CameraLoop(c).target == CameraLoop(c.(copyMode := CopyTransform)).target
    ensures CameraLoop(c).target == c.target.(position := c.origin.position)
  {
  }

  /** What a copy step writes depends only on the origin and the configuration,
      never on the target's previous position or field of view. */
  lemma WrittenValuesIgnorePriorTarget(c: CopyCameraProperties, t: GameObject)
    requires CanRun(c) && (CopiesFov(c.copyMode) ==> t.camera.Some?)
    ensures CanRun(c.(target := t))
    ensures CopiesPosition(c.copyMode) ==>
              CameraLoop(c.(target := t)).target.position == CameraLoop(c).target.position
    ensures CopiesFov(c.copyMode) ==>
              CameraLoop(c.(target := t)).target.camera == CameraLoop(c).target.camera
  {
  }

  /** With the origin held fixed, a second copy step changes nothing. */
  lemma CameraLoopIdempotent(c: CopyCameraProperties)
    requires CanRun(c)
    ensures CameraLoop(CameraLoop(c)) == CameraLoop(c)
  {
  }

  /** The host's first frame already reaches the steady state: an Update right
      after Start leaves the component as Start left it. */
  lemma UpdateAfterStartIsStable(c: CopyCameraProperties, selfPos: Vector3)
    requires CopiesFov(c.copyMode) ==> c.origin.camera.Some? && c.target.camera.Some?
    ensures Update(Start(c, selfPos)) == Start(c, selfPos)
  {
    CameraLoopIdempotent(Start(c, selfPos));
  }

  /** Changing the mode after Init: a field-of-view mode can run only if the
      mode Init saw also resolved the handles. A component whose handles were
      never resolved and that Init ran under a position-only mode cannot switch
      to a field-of-view mode. */
  lemma ModeChangeAfterInit(c: CopyCameraProperties, selfPos: Vector3, m: Mode)
    requires c.originCam == Null && c.targetCam == Null
    requires CopiesFov(m)
    ensures CanRun(Init(c, selfPos).(copyMode := m)) <==>
              CopiesFov(c.copyMode) && c.origin.camera.Some? && c.target.camera.Some?
  {
  }

  /** The worked numbers: origin at (1, 2, 3) and factor 0.5. */
  lemma WorkedExample(c: CopyCameraProperties)
    requires c.origin.position == Vector3(1.0, 2.0, 3.0) && c.reductionFactor == 0.5
    ensures CameraLoop(c.(copyMode := CopyTransform)).target.position == Vector3(1.0, 2.0, 3.0)
    ensures CameraLoop(c.(copyMode := CopyTransformReduced)).target.position == Vector3(0.5, 2.0, 3.0)
    ensures CameraLoop(c.(copyMode := CopyTransformReduced, reductionFactor := 0.0)).target.position
            == Vector3(0.0, 2.0, 3.0)
  {
  }
}
