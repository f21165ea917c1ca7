/**
 The CopyCameraProperties behaviour as an immutable record and pure state
 transformers.

 The engine's scene objects are reduced to what the component touches: a
 world position and an optional Camera component carrying a field of view.
 The component record holds its four inspector fields (`origin`, `target`,
 `copyMode`, `reductionFactor`) and its three private caches. Each engine
 callback becomes a function from one record to the next.
 */
module CameraCopier {
  import opened Wrappers
  import opened Vectors
  import opened CopyModes

  /** The Camera component; only its field of view is read or written. */
  datatype Camera = Camera(fieldOfView: real)

  /** A scene object as the component sees it. */
  datatype GameObject = GameObject(position: Vector3, camera: Option<Camera>)

  /** A cached `Camera` reference. `Bound` refers to the Camera component of
      the object it was looked up on; `Null` is C#'s null, both before `Init`
      has run and when the lookup found no Camera. */
  datatype Handle = Null | Bound

  datatype CopyCameraProperties = CopyCameraProperties(
    origin: GameObject,
    target: GameObject,
    copyMode: Mode,
    reductionFactor: real,   // the inspector suggests [0, 1]; nothing enforces it
    originalPos: Vector3,    // written by Init, never read
    originCam: Handle,
    targetCam: Handle
  )

  /** `GetComponent<Camera>()`: a live reference when the object has a Camera, null otherwise. */
  function GetCamera(o: GameObject): (h: Handle)
    ensures h.Bound? <==> o.camera.Some?
  {
    if o.camera.Some? then Bound else Null
  }

  /** The guard under which Init looks the camera handles up, as the source writes it. */
  predicate CachesCameras(m: Options) {
    m == CopyFOV || m == CopyTransformAndFOV || m == CopyTransformAndFOVReduced
  }

  /** Init: records the host object's own position (`selfPos`) and, for the
      modes listed in its guard, resolves both camera handles. In any other
      mode the handles keep whatever value they had. */
  function Init(c: CopyCameraProperties, selfPos: Vector3): (r: CopyCameraProperties)
    ensures r.origin == c.origin && r.target == c.target
    ensures r.copyMode == c.copyMode && r.reductionFactor == c.reductionFactor
    ensures r.originalPos == selfPos
    ensures CopiesFov(c.copyMode) ==>
              (r.originCam.Bound? <==> c.origin.camera.Some?) && (r.targetCam.Bound? <==> c.target.camera.Some?)
    ensures !CopiesFov(c.copyMode) ==> r.originCam == c.originCam && r.targetCam == c.targetCam
  {
    var c' := c.(originalPos := selfPos);
    if CachesCameras(c.copyMode) then
      c'.(originCam := GetCamera(c.origin), targetCam := GetCamera(c.target))
    else
      c'
  }

  /** The condition under which CameraLoop runs without a null dereference:
      a mode that copies the field of view needs both cached handles to be
      live and both objects to carry the Camera they refer to. */
  predicate CanRun(c: CopyCameraProperties) {
    CopiesFov(c.copyMode) ==>
      c.originCam.Bound? && c.targetCam.Bound? && c.origin.camera.Some? && c.target.camera.Some?
  }

  /** The position the target receives in a position-copying mode. */
  function CopiedPosition(c: CopyCameraProperties): Vector3 {
    if IsReduced(c.copyMode) then ReduceX(c.origin.position, c.reductionFactor) else c.origin.position
  }

  /** Write a field of view through the target's camera handle. */
  function SetTargetFov(c: CopyCameraProperties, fov: real): (r: CopyCameraProperties)
    requires c.target.camera.Some?
    ensures r.target.camera == Some(Camera(fov))
    ensures r.target.position == c.target.position
    ensures r.(target := c.target) == c
  {
    c.(target := c.target.(camera := Some(c.target.camera.value.(fieldOfView := fov))))
  }

  /** Write the target's world position. */
  function SetTargetPosition(c: CopyCameraProperties, p: Vector3): (r: CopyCameraProperties)
    ensures r.target.position == p
    ensures r.target.camera == c.target.camera
    ensures r.(target := c.target) == c
  {
    c.(target := c.target.(position := p))
  }

  /** CameraLoop: one copy step, dispatched on the mode exactly as the
      source's switch is. Its contract states the effect through the mode
      table (which modes copy a position, which copy the field of view, which
      attenuate X) and that nothing besides the target is ever written. */
  function CameraLoop(c: CopyCameraProperties): (r: CopyCameraProperties)
    requires CanRun(c)
    ensures r.origin == c.origin
    ensures r.(target := c.target) == c
    ensures r.target.camera.Some? == c.target.camera.Some?
    ensures CopiesPosition(c.copyMode) ==> r.target.position == CopiedPosition(c)
    ensures !CopiesPosition(c.copyMode) ==> r.target.position == c.target.position
    ensures CopiesFov(c.copyMode) ==> r.target.camera.value.fieldOfView == c.origin.camera.value.fieldOfView
    ensures !CopiesFov(c.copyMode) ==> r.target.camera == c.target.camera
    ensures CanRun(r)
  {
    var fromOrigin := c.origin.position;
    match c.copyMode
    case CopyFOV =>
      SetTargetFov(c, c.origin.camera.value.fieldOfView)
    case CopyTransform =>
      SetTargetPosition(c, fromOrigin)
    case CopyTransformReduced =>
      SetTargetPosition(c, Vector3(fromOrigin.x * c.reductionFactor, fromOrigin.y, fromOrigin.z))
    case CopyTransformAndFOV =>
      var c' := SetTargetFov(c, c.origin.camera.value.fieldOfView);
      SetTargetPosition(c', fromOrigin)
    case CopyTransformAndFOVReduced =>
      var c' := SetTargetFov(c, c.origin.camera.value.fieldOfView);
      SetTargetPosition(c', Vector3(fromOrigin.x * c.reductionFactor, fromOrigin.y, fromOrigin.z))
    case Undefined(_) =>
      SetTargetPosition(c, fromOrigin)
  }

  /** The host's start event: Init, then one copy step. */
  function Start(c: CopyCameraProperties, selfPos: Vector3): (r: CopyCameraProperties)
    requires CopiesFov(c.copyMode) ==> c.origin.camera.Some? && c.target.camera.Some?
    ensures r.origin == c.origin
    ensures r.copyMode == c.copyMode && r.reductionFactor == c.reductionFactor
    ensures r.originalPos == selfPos
    ensures CanRun(r)
    ensures CopiesPosition(c.copyMode) ==> r.target.position == CopiedPosition(c)
    ensures !CopiesPosition(c.copyMode) ==> r.target.position == c.target.position
    ensures CopiesFov(c.copyMode) ==> r.target.camera == Some(Camera(c.origin.camera.value.fieldOfView))
    ensures !CopiesFov(c.copyMode) ==> r.target.camera == c.target.camera
  {
    InitEnablesLoop(c, selfPos);
    CameraLoop(Init(c, selfPos))
  }

  /** The host's per-frame event: one copy step. */
  function Update(c: CopyCameraProperties): (r: CopyCameraProperties)
    requires CanRun(c)
    ensures r.origin == c.origin && CanRun(r)
    ensures r.(target := c.target) == c
  {
    CameraLoop(c)
  }

  /** Init leaves the component able to run its copy step exactly when every
      camera a field-of-view mode needs is present: the set of modes Init
      resolves handles for is the set of modes whose branch dereferences them. */
  lemma InitEnablesLoop(c: CopyCameraProperties, selfPos: Vector3)
    ensures CachesCameras(c.copyMode) <==> CopiesFov(c.copyMode)
    ensures CanRun(Init(c, selfPos)) <==>
              (CopiesFov(c.copyMode) ==> c.origin.camera.Some? && c.target.camera.Some?)
  {
  }
}
