/**
 The engine's frame scheduling, made explicit: one start event followed by
 any number of per-frame updates.
 */
module FrameLoop {
  import opened Wrappers
  import opened Vectors
  import opened CopyModes
  import opened CameraCopier
  import CopierProperties

  /** The component after `n` further Update calls. */
  function RunFrames(c: CopyCameraProperties, n: nat): (r: CopyCameraProperties)
    requires CanRun(c)
    ensures CanRun(r)
    decreases n
  {
    if n == 0 then c else RunFrames(Update(c), n - 1)
  }

  /** Any positive number of updates with the origin held fixed ends where a
      single update does. */
  lemma {:induction false} RunFramesSteady(c: CopyCameraProperties, n: nat)
    requires CanRun(c) && n >= 1
    ensures RunFrames(c, n) == Update(c)
    decreases n
  {
    if n > 1 {
      calc {
        RunFrames(c, n);
        RunFrames(Update(c), n - 1);
        { RunFramesSteady(Update(c), n - 1); }
        Update(Update(c));
        { CopierProperties.CameraLoopIdempotent(c); }
        Update(c);
      }
    }
  }

  /** Updates never touch the origin or the configuration, however many run. */
  lemma {:induction false} RunFramesKeepsOrigin(c: CopyCameraProperties, n: nat)
    requires CanRun(c)
    ensures RunFrames(c, n).(target := c.target) == c
    decreases n
  {
    if n > 0 {
      RunFramesKeepsOrigin(Update(c), n - 1);
    }
  }

  /** The host driving the component: Start, then `frames` Updates. With the
      origin held fixed, the target after every frame is the one Start
      produced. */
  method Play(c: CopyCameraProperties, selfPos: Vector3, frames: nat) returns (r: CopyCameraProperties)
    requires CopiesFov(c.copyMode) ==> c.origin.camera.Some? && c.target.camera.Some?
    ensures r == RunFrames(Start(c, selfPos), frames)
    ensures r.origin == c.origin && r.copyMode == c.copyMode
    ensures CopiesPosition(c.copyMode) ==> r.target.position == CopiedPosition(c)
    ensures !CopiesPosition(c.copyMode) ==> r.target.position == c.target.position
    ensures CopiesFov(c.copyMode) ==> r.target.camera == Some(Camera(c.origin.camera.value.fieldOfView))
    ensures !CopiesFov(c.copyMode) ==> r.target.camera == c.target.camera
  {
    r := Start(c, selfPos);
    var started := r;
    var i := 0;
    while i < frames
      invariant 0 <= i <= frames
      invariant r == started
    {
      CopierProperties.CameraLoopIdempotent(r);
      r := Update(r);
      i := i + 1;
    }
    if frames >= 1 {
      RunFramesSteady(started, frames);
      CopierProperties.CameraLoopIdempotent(started);
    }
  }
}
