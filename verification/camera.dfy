/** camera.h: the fly camera of the engine's main program. Its settings
    (yaw `alpha`, pitch `beta`, speed, sensitivities, field of view, clip
    planes) and position are plain arithmetic; the direction vectors are
    recomputed from yaw and pitch by `UpdateCameraVectors`, whose
    trigonometry is not modelled: it is the parameter `orient`, mapping
    yaw, pitch and the world's up vector to (front, right, n), where
    n = normalize(right x front). camera.h stores -n as the up vector
    (the as-written handler); camera.hpp, and the corrected handler here,
    store n. */
module CameraH {
  import opened RdiyeLib

  /** `CameraDirection`. */
  datatype Direction = Forward | Backward | Left | Right

  /** `game_camera_settings`. */
  datatype Settings = Settings(alpha: real, beta: real, speed: real, mouseSensitivity: Vec2,
                               scrollSensitivity: real, fov: real, nearPlane: real, farPlane: real)

  /** `game_camera`. */
  datatype Camera = Camera(position: Vec3, front: Vec3, up: Vec3, right: Vec3, worldUp: Vec3, settings: Settings)

  /** The trigonometric recomputation of the direction vectors from yaw,
      pitch and world up: (front, right, n) with front the unit heading,
      right = normalize(front x world up) and n = normalize(right x front). */
  type Orient = (real, real, Vec3) -> (Vec3, Vec3, Vec3)

  /** What the trigonometry gives at the default yaw -90 and pitch 0 with +y
      as world up: front = (cos -90 cos 0, sin 0, sin -90 cos 0) = -z,
      right = -z x +y = +x and n = +x x -z = +y, all unit vectors. */
  predicate DefaultFrame(orient: Orient) {
    orient(-90.0, 0.0, UP) == (FRONT, RIGHT, UP)
  }

  /** The ranges the input handlers keep: pitch within 89 degrees of the
      horizon, field of view between 1 and 90 degrees. */
  predicate InRange(s: Settings) {
    -89.0 <= s.beta <= 89.0 && 1.0 <= s.fov <= 90.0
  }

  /** `DefaultCameraSettings()`: looking down -z (yaw -90, pitch 0), speed
      2.5, mouse sensitivity 0.1 on both axes, scroll sensitivity 3, a 45
      degree field of view, clip planes at 0.05 and 100. */
  const DEFAULT_SETTINGS: Settings :=
    Settings(-90.0, 0.0, 2.5, Vec2(0.1, 0.1), 3.0, 45.0, 0.05, 100.0)

  /** The defaults are in range, with the near plane in front of the far
      plane and positive sensitivities. */
  lemma DefaultsInRange()
    ensures InRange(DEFAULT_SETTINGS)
    ensures 0.0 < DEFAULT_SETTINGS.nearPlane < DEFAULT_SETTINGS.farPlane
    ensures DEFAULT_SETTINGS.mouseSensitivity.x > 0.0 && DEFAULT_SETTINGS.mouseSensitivity.y > 0.0
    ensures DEFAULT_SETTINGS.scrollSensitivity > 0.0 && DEFAULT_SETTINGS.speed > 0.0
  {
  }

  /** The default frame: looking down -z, with +y up and +x right. */
  const FRONT: Vec3 := Vec3(0.0, 0.0, -1.0)
  const UP: Vec3 := Vec3(0.0, 1.0, 0.0)
  const RIGHT: Vec3 := Vec3(1.0, 0.0, 0.0)

  /** `DefaultCamera()`: default settings, at the origin, in the default
      frame, with the world's up direction +y. */
  function DefaultCamera(): (c: Camera)
    ensures c.settings == DEFAULT_SETTINGS && c.position == Vec3(0.0, 0.0, 0.0)
    ensures c.front == FRONT && c.up == UP && c.right == RIGHT && c.worldUp == UP
  {
    Camera(Vec3(0.0, 0.0, 0.0), Vec3(0.0, 0.0, -1.0), Vec3(0.0, 1.0, 0.0), Vec3(1.0, 0.0, 0.0),
           Vec3(0.0, 1.0, 0.0), DEFAULT_SETTINGS)
  }

  /** The pitch limit: above 89 becomes 89, below -89 becomes -89, and a
      pitch in between is kept. */
  function ClampPitch(beta: real): (r: real)
    ensures -89.0 <= r <= 89.0
    ensures -89.0 <= beta <= 89.0 ==> r == beta
  {
    if beta > 89.0 then 89.0 else if beta < -89.0 then -89.0 else beta
  }

  /** The field-of-view limit: below 1 becomes 1, above 90 becomes 90, and
      a value in between is kept. */
  function ClampFov(fov: real): (r: real)
    ensures 1.0 <= r <= 90.0
    ensures 1.0 <= fov <= 90.0 ==> r == fov
  {
    if fov < 1.0 then 1.0 else if fov > 90.0 then 90.0 else fov
  }

  /** Both limits are monotone and leave a limited value alone. */
  lemma ClampsMonotone(a: real, b: real)
    requires a <= b
    ensures ClampPitch(a) <= ClampPitch(b) && ClampFov(a) <= ClampFov(b)
    ensures ClampPitch(ClampPitch(a)) == ClampPitch(a) && ClampFov(ClampFov(a)) == ClampFov(a)
  {
  }

  /** `MoveCamera(camera, dir, delta_time)`: the position moves by
      `speed * delta_time` along front (forward), against it (backward),
      against right (left) or along right (right). */
  function MoveCamera(c: Camera, dir: Direction, deltaTime: real): (r: Camera)
    ensures r == c.(position := r.position)
  {
    var velocity := c.settings.speed * deltaTime;
    match dir
    case Forward => c.(position := Add(c.position, Scale(velocity, c.front)))
    case Backward => c.(position := Sub(c.position, Scale(velocity, c.front)))
    case Left => c.(position := Sub(c.position, Scale(velocity, c.right)))
    case Right => c.(position := Add(c.position, Scale(velocity, c.right)))
  }

  /** Forward and backward undo each other, and a forward step moves the
      position by exactly `speed * dt` times front. */
  lemma ForwardBackwardInverse(c: Camera, dt: real)
    ensures MoveCamera(MoveCamera(c, Forward, dt), Backward, dt) == c
    ensures MoveCamera(MoveCamera(c, Backward, dt), Forward, dt) == c
    ensures Sub(MoveCamera(c, Forward, dt).position, c.position) == Scale(c.settings.speed * dt, c.front)
  {
  }

  /** Left and right undo each other, and a step right moves the position
      by exactly `speed * dt` times right. */
  lemma LeftRightInverse(c: Camera, dt: real)
    ensures MoveCamera(MoveCamera(c, Left, dt), Right, dt) == c
    ensures MoveCamera(MoveCamera(c, Right, dt), Left, dt) == c
    ensures Sub(MoveCamera(c, Right, dt).position, c.position) == Scale(c.settings.speed * dt, c.right)
  {
  }

  /** The settings after a mouse event: the offset, scaled by the mouse
      sensitivity, turns yaw without limit and pitch within [-89, 89]. */
  function MouseSettings(s: Settings, offset: Vec2): (r: Settings)
    ensures r.alpha == s.alpha + offset.x * s.mouseSensitivity.x
    ensures -89.0 <= r.beta <= 89.0
    ensures var b := s.beta + offset.y * s.mouseSensitivity.y;
      (-89.0 <= b <= 89.0 ==> r.beta == b) && (b > 89.0 ==> r.beta == 89.0) && (b < -89.0 ==> r.beta == -89.0)
    ensures r == s.(alpha := r.alpha, beta := r.beta)
  {
    s.(alpha := s.alpha + offset.x * s.mouseSensitivity.x,
       beta := ClampPitch(s.beta + offset.y * s.mouseSensitivity.y))
  }

  /** `ProcessCameraMouse(camera, offset)` as written: the settings change as
      in `MouseSettings`, then `UpdateCameraVectors` stores front, right and
      the NEGATED n as up. */
  function ProcessCameraMouseAsWritten(c: Camera, offset: Vec2, orient: Orient): (r: Camera)
    ensures r.settings == MouseSettings(c.settings, offset)
    ensures r.position == c.position && r.worldUp == c.worldUp
    ensures var (front, right, n) := orient(r.settings.alpha, r.settings.beta, c.worldUp);
      r.front == front && r.right == right && r.up == Neg(n)
  {
    var s := MouseSettings(c.settings, offset);
    var (front, right, n) := orient(s.alpha, s.beta, c.worldUp);
    c.(settings := s, front := front, right := right, up := Neg(n))
  }

  /** `ProcessCameraMouse(camera, offset)` with the up vector camera.hpp
      computes: the same settings and front and right, and n as up. */
  function ProcessCameraMouse(c: Camera, offset: Vec2, orient: Orient): (r: Camera)
    ensures r.settings.alpha == c.settings.alpha + offset.x * c.settings.mouseSensitivity.x
    ensures -89.0 <= r.settings.beta <= 89.0
    ensures var b := c.settings.beta + offset.y * c.settings.mouseSensitivity.y;
      (-89.0 <= b <= 89.0 ==> r.settings.beta == b) &&
      (b > 89.0 ==> r.settings.beta == 89.0) && (b < -89.0 ==> r.settings.beta == -89.0)
    ensures r.settings == c.settings.(alpha := r.settings.alpha, beta := r.settings.beta)
    ensures r.position == c.position && r.worldUp == c.worldUp
    ensures (r.front, r.right, r.up) == orient(r.settings.alpha, r.settings.beta, c.worldUp)
  {
    var s := MouseSettings(c.settings, offset);
    var (front, right, n) := orient(s.alpha, s.beta, c.worldUp);
    c.(settings := s, front := front, right := right, up := n)
  }

  /** The as-written and the corrected handler differ in nothing but the
      sign of up. */
  lemma AsWrittenNegatesUp(c: Camera, offset: Vec2, orient: Orient)
    ensures var r := ProcessCameraMouse(c, offset, orient);
      ProcessCameraMouseAsWritten(c, offset, orient) == r.(up := Neg(r.up))
  {
  }

  /** The as-written handler flips the default camera's up vector on the
      first mouse event, even one that does not move: the default camera
      has up +y, and after the event up is -y. The corrected handler leaves
      the default camera as it is. */
  lemma UpFlipsAfterMouse(orient: Orient)
    requires DefaultFrame(orient)
    ensures Cross(FRONT, UP) == RIGHT && Cross(RIGHT, FRONT) == UP
    ensures DefaultCamera().up == UP
    ensures ProcessCameraMouseAsWritten(DefaultCamera(), Vec2(0.0, 0.0), orient).up == Vec3(0.0, -1.0, 0.0)
    ensures ProcessCameraMouse(DefaultCamera(), Vec2(0.0, 0.0), orient) == DefaultCamera()
  {
    var d := DefaultCamera();
    var s := MouseSettings(d.settings, Vec2(0.0, 0.0));
    assert s.alpha == -90.0 && s.beta == 0.0;
    assert s == DEFAULT_SETTINGS;
    assert orient(s.alpha, s.beta, d.worldUp) == (FRONT, RIGHT, UP);
  }

  /** `ProcessCameraScroll(camera, offset)`: the field of view shrinks by
      `offset * scroll_sensitivity`, limited to [1, 90]. */
  function ProcessCameraScroll(c: Camera, offset: real): (r: Camera)
    ensures 1.0 <= r.settings.fov <= 90.0
    ensures r == c.(settings := c.settings.(fov := r.settings.fov))
    ensures var f := c.settings.fov - offset * c.settings.scrollSensitivity;
      1.0 <= f <= 90.0 ==> r.settings.fov == f
  {
    c.(settings := c.settings.(fov := ClampFov(c.settings.fov - offset * c.settings.scrollSensitivity)))
  }

  /** Scrolling forward (a positive offset, with a non-negative
      sensitivity) never widens a field of view that is in range, and
      scrolling backward never narrows it. */
  lemma ScrollDirection(c: Camera, offset: real)
    requires 1.0 <= c.settings.fov <= 90.0 && c.settings.scrollSensitivity >= 0.0
    ensures offset >= 0.0 ==> ProcessCameraScroll(c, offset).settings.fov <= c.settings.fov
    ensures offset <= 0.0 ==> ProcessCameraScroll(c, offset).settings.fov >= c.settings.fov
  {
    var f := c.settings.fov - offset * c.settings.scrollSensitivity;
    if offset >= 0.0 {
      assert offset * c.settings.scrollSensitivity >= 0.0;
      ClampsMonotone(f, c.settings.fov);
    } else {
      assert offset * c.settings.scrollSensitivity <= 0.0;
      ClampsMonotone(c.settings.fov, f);
    }
  }

  /** The input handlers keep the settings in range once they are. */
  lemma HandlersKeepRange(c: Camera, offset: Vec2, scroll: real, orient: Orient)
    requires InRange(c.settings)
    ensures InRange(ProcessCameraMouse(c, offset, orient).settings)
    ensures InRange(ProcessCameraScroll(c, scroll).settings)
  {
  }
}
