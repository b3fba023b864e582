/** camera.hpp: the object-style camera used by the demos. It keeps the
    same state as camera.h's `game_camera` (with separate x and y mouse
    sensitivities), read through `AsGameCamera`. Moving and scrolling follow
    camera.h's rules exactly; after a mouse event the two agree in all but
    the sign of the up vector, which camera.h negates and camera.hpp does
    not. The trigonometric `update_vectors` is the parameter `orient`, as in
    `CameraH`: it yields (front, right, n), and camera.hpp stores n as up. */
module CameraHpp {
  import opened RdiyeLib
  import CameraH

  /** `CameraSettings`. */
  datatype Settings = Settings(alpha: real, beta: real, movSpeed: real, sensX: real, sensY: real,
                               sensScroll: real, fov: real, nearPlane: real, farPlane: real)

  /** `Camera`. */
  datatype Camera = Camera(position: Vec3, front: Vec3, up: Vec3, right: Vec3, worldUp: Vec3, settings: Settings)

  /** `load_default_camera_settings`. */
  const DEFAULT_SETTINGS: Settings := Settings(-90.0, 0.0, 2.5, 0.1, 0.1, 3.0, 45.0, 0.05, 100.0)

  /** The settings of camera.h that these settings stand for. */
  function AsGameSettings(s: Settings): CameraH.Settings {
    CameraH.Settings(s.alpha, s.beta, s.movSpeed, Vec2(s.sensX, s.sensY), s.sensScroll, s.fov, s.nearPlane, s.farPlane)
  }

  /** The `game_camera` of camera.h that this camera stands for. */
  function AsGameCamera(c: Camera): CameraH.Camera {
    CameraH.Camera(c.position, c.front, c.up, c.right, c.worldUp, AsGameSettings(c.settings))
  }

  /** Both headers ship the same defaults, and they are in range. */
  lemma DefaultsAgree()
    ensures AsGameSettings(DEFAULT_SETTINGS) == CameraH.DEFAULT_SETTINGS
    ensures CameraH.InRange(AsGameSettings(DEFAULT_SETTINGS))
  {
  }

  /** What every constructor does: look down -z with +y up, take the given
      position and settings, with the world's up direction +y, then
      `update_vectors()`. */
  function Construct(position: Vec3, settings: Settings, orient: CameraH.Orient): (c: Camera)
    ensures c.position == position && c.settings == settings && c.worldUp == CameraH.UP
    ensures (c.front, c.right, c.up) == orient(settings.alpha, settings.beta, CameraH.UP)
  {
    var (front, right, up) := orient(settings.alpha, settings.beta, CameraH.UP);
    Camera(position, front, up, right, CameraH.UP, settings)
  }

  /** The right vector before the first `update_vectors()`: the fields a
      constructor leaves unset are overwritten before anyone reads them. */
  const UNSET_RIGHT: Vec3 := Vec3(0.0, 0.0, 0.0)

  /** `Camera(position, settings)`. */
  function CameraWith(position: Vec3, settings: Settings, orient: CameraH.Orient): (c: Camera)
    ensures c == Construct(position, settings, orient)
  {
    var c := Camera(position, CameraH.FRONT, CameraH.UP, UNSET_RIGHT, CameraH.UP, settings);
    UpdateVectors(c, orient)
  }

  /** `Camera(position)`: default settings. */
  function CameraAt(position: Vec3, orient: CameraH.Orient): (c: Camera)
    ensures c == Construct(position, DEFAULT_SETTINGS, orient)
  {
    CameraWith(position, DEFAULT_SETTINGS, orient)
  }

  /** `Camera(settings)`: at the origin. */
  function CameraWithSettings(settings: Settings, orient: CameraH.Orient): (c: Camera)
    ensures c == Construct(Vec3(0.0, 0.0, 0.0), settings, orient)
  {
    CameraWith(Vec3(0.0, 0.0, 0.0), settings, orient)
  }

  /** `Camera()`: default settings at the origin. */
  function DefaultCamera(orient: CameraH.Orient): (c: Camera)
    ensures c == Construct(Vec3(0.0, 0.0, 0.0), DEFAULT_SETTINGS, orient)
  {
    CameraWith(Vec3(0.0, 0.0, 0.0), DEFAULT_SETTINGS, orient)
  }

  /** `update_vectors()`: front, right and up recomputed from yaw, pitch and
      world up; nothing else changes. */
  function UpdateVectors(c: Camera, orient: CameraH.Orient): (r: Camera)
    ensures (r.front, r.right, r.up) == orient(c.settings.alpha, c.settings.beta, c.worldUp)
    ensures r.position == c.position && r.worldUp == c.worldUp && r.settings == c.settings
  {
    var (front, right, up) := orient(c.settings.alpha, c.settings.beta, c.worldUp);
    c.(front := front, right := right, up := up)
  }

  /** `move(dir, delta_time)`. */
  function Move(c: Camera, dir: CameraH.Direction, deltaTime: real): (r: Camera)
    ensures r == c.(position := r.position)
  {
    var velocity := c.settings.movSpeed * deltaTime;
    match dir
    case Forward => c.(position := Add(c.position, Scale(velocity, c.front)))
    case Backward => c.(position := Sub(c.position, Scale(velocity, c.front)))
    case Left => c.(position := Sub(c.position, Scale(velocity, c.right)))
    case Right => c.(position := Add(c.position, Scale(velocity, c.right)))
  }

  /** `process_mouse(offsetX, offsetY)`: yaw turns by `offsetX * sens_x`
      without limit, pitch by `offsetY * sens_y` within [-89, 89]. */
  function ProcessMouse(c: Camera, offsetX: real, offsetY: real, orient: CameraH.Orient): (r: Camera)
    ensures r.settings.alpha == c.settings.alpha + offsetX * c.settings.sensX
    ensures -89.0 <= r.settings.beta <= 89.0
    ensures var b := c.settings.beta + offsetY * c.settings.sensY;
      -89.0 <= b <= 89.0 ==> r.settings.beta == b
    ensures r.settings == c.settings.(alpha := r.settings.alpha, beta := r.settings.beta)
  {
    var s := c.settings.(alpha := c.settings.alpha + offsetX * c.settings.sensX,
                         beta := CameraH.ClampPitch(c.settings.beta + offsetY * c.settings.sensY));
    UpdateVectors(c.(settings := s), orient)
  }

  /** `process_scroll(offsetY)`: the field of view shrinks by
      `offsetY * sens_scroll`, limited to [1, 90]. */
  function ProcessScroll(c: Camera, offsetY: real): (r: Camera)
    ensures 1.0 <= r.settings.fov <= 90.0
    ensures r == c.(settings := c.settings.(fov := r.settings.fov))
  {
    c.(settings := c.settings.(fov := CameraH.ClampFov(c.settings.fov - offsetY * c.settings.sensScroll)))
  }

  /** The two cameras move alike: `move` does to a camera what camera.h's
      `MoveCamera` does to the `game_camera` it stands for, and so do the
      mouse and scroll handlers (`MouseAgrees`, `ScrollAgrees`). */
  lemma MoveAgrees(c: Camera, dir: CameraH.Direction, dt: real)
    ensures AsGameCamera(Move(c, dir, dt)) == CameraH.MoveCamera(AsGameCamera(c), dir, dt)
  {
  }

  /** `process_mouse(x, y)` agrees with camera.h's `ProcessCameraMouse`
      with offset (x, y) in yaw, pitch, position, front and right; its up
      vector is the negation of the one camera.h stores, and equals the one
      of the corrected handler. */
  lemma MouseAgrees(c: Camera, ox: real, oy: real, orient: CameraH.Orient)
    ensures var r := AsGameCamera(ProcessMouse(c, ox, oy, orient));
      CameraH.ProcessCameraMouseAsWritten(AsGameCamera(c), Vec2(ox, oy), orient) == r.(up := Neg(r.up))
    ensures AsGameCamera(ProcessMouse(c, ox, oy, orient)) == CameraH.ProcessCameraMouse(AsGameCamera(c), Vec2(ox, oy), orient)
  {
    var r := ProcessMouse(c, ox, oy, orient);
    var g := AsGameCamera(c);
    var gs := CameraH.MouseSettings(g.settings, Vec2(ox, oy));
    assert r.settings.alpha == gs.alpha && r.settings.beta == gs.beta;
    assert AsGameSettings(r.settings) == gs;
    CameraH.AsWrittenNegatesUp(g, Vec2(ox, oy), orient);
  }

  /** `process_scroll(y)` is camera.h's `ProcessCameraScroll` with offset y. */
  lemma ScrollAgrees(c: Camera, oy: real)
    ensures AsGameCamera(ProcessScroll(c, oy)) == CameraH.ProcessCameraScroll(AsGameCamera(c), oy)
  {
  }

  /** The default camera of camera.hpp, before its first `update_vectors()`,
      is camera.h's `DefaultCamera()`; after it, the two differ only in the
      recomputed vectors. */
  lemma DefaultCamerasAgree(orient: CameraH.Orient)
    ensures var c := DefaultCamera(orient); var g := CameraH.DefaultCamera();
      AsGameCamera(c) == g.(front := c.front, right := c.right, up := c.up)
  {
  }
}
