/** rdiye.cpp: the main program's per-window state and its input
    callbacks. The process-wide globals (`state`, `has_mouse_moved`,
    `mouse_last_movement`) and the GL polygon mode are one explicit `World`
    record; key polling, the clock and the trigonometric camera update are
    parameters. */
module Rdiye {
  import opened RdiyeLib
  import CameraH

  /** `glPolygonMode` for front and back faces; GL starts in `Fill`. */
  datatype PolygonMode = Line | Fill

  /** The keys `ProcessInput` polls. */
  datatype Key = Escape | KeyR | KeyT | KeyW | KeyS | KeyA | KeyD

  /** `game_state` together with the mouse latch and the polygon mode.
      Window sizes are `u16`. */
  datatype World = World(windowWidth: nat, windowHeight: nat, lastTime: real, deltaTime: real,
                         isRunning: bool, camera: CameraH.Camera,
                         hasMouseMoved: bool, mouseLast: Vec2, mode: PolygonMode)

  /** The size the window is created with (`window_width`, `window_height`). */
  const WINDOW_WIDTH: nat := 1920
  const WINDOW_HEIGHT: nat := 1080

  /** `u16` wrap-around of a conversion from `i32`. */
  function U16(n: int): (r: nat)
    ensures r < 0x1_0000
    ensures (r - n) % 0x1_0000 == 0
    ensures 0 <= n < 0x1_0000 ==> r == n
  {
    n % 0x1_0000
  }

  /** `ResizeCallback(window, width, height)`: the new size is stored,
      truncated to 16 bits; nothing else changes. */
  function ResizeCallback(w: World, width: int, height: int): (r: World)
    ensures r == w.(windowWidth := U16(width), windowHeight := U16(height))
  {
    w.(windowWidth := U16(width), windowHeight := U16(height))
  }

  /** Sizes that fit in 16 bits are stored exactly; one past the range
      wraps to zero. */
  lemma ResizeStoresSize(w: World, width: int, height: int)
    ensures 0 <= width < 0x1_0000 && 0 <= height < 0x1_0000 ==>
      ResizeCallback(w, width, height).windowWidth == width &&
      ResizeCallback(w, width, height).windowHeight == height
    ensures ResizeCallback(w, 0x1_0000, height).windowWidth == 0
    ensures ResizeCallback(w, -1, height).windowWidth == 0xFFFF
  {
  }

  /** The mouse latch of `MouseCallback`: the offset this event reports and
      the latch afterwards. The first event only latches the position. */
  function MouseOffset(hasMoved: bool, last: Vec2, p: Vec2): (r: (Vec2, Vec2))
    ensures !hasMoved ==> r.0 == Vec2(0.0, 0.0)
    ensures hasMoved ==> r.0 == Vec2(p.x - last.x, last.y - p.y)
    ensures r.1 == p
  {
    var base := if hasMoved then last else p;
    (Vec2(p.x - base.x, base.y - p.y), p)
  }

  /** `MouseCallback(window, x, y)`: latch and offset as in `MouseOffset`,
      then camera.h's `ProcessCameraMouse` with that offset, with camera.h's
      up sign. */
  function MouseCallback(w: World, p: Vec2, orient: CameraH.Orient): (r: World)
    ensures r.hasMouseMoved && r.mouseLast == p
    ensures r.camera == CameraH.ProcessCameraMouseAsWritten(w.camera, MouseOffset(w.hasMouseMoved, w.mouseLast, p).0, orient)
    ensures r == w.(camera := r.camera, hasMouseMoved := true, mouseLast := p)
  {
    var (offset, last) := MouseOffset(w.hasMouseMoved, w.mouseLast, p);
    w.(camera := CameraH.ProcessCameraMouseAsWritten(w.camera, offset, orient), hasMouseMoved := true, mouseLast := last)
  }

  /** The offsets a run of mouse events reports, starting from a latch. */
  function MouseOffsets(hasMoved: bool, last: Vec2, ps: seq<Vec2>): seq<Vec2>
    decreases |ps|
  {
    if |ps| == 0 then []
    else
      var (offset, next) := MouseOffset(hasMoved, last, ps[0]);
      [offset] + MouseOffsets(true, next, ps[1..])
  }

  /** Sum of the x and y components of a run of offsets. */
  function SumX(vs: seq<Vec2>): real {
    if |vs| == 0 then 0.0 else vs[0].x + SumX(vs[1..])
  }
  function SumY(vs: seq<Vec2>): real {
    if |vs| == 0 then 0.0 else vs[0].y + SumY(vs[1..])
  }

  /** The offsets telescope: the offsets reported over a run of events sum
      to the cursor's total travel since the latched position (or since the
      first event, if nothing was latched), with y inverted. */
  lemma {:induction false} MouseOffsetsTelescope(hasMoved: bool, last: Vec2, ps: seq<Vec2>)
    requires |ps| > 0
    decreases |ps|
    ensures var start := if hasMoved then last else ps[0];
      SumX(MouseOffsets(hasMoved, last, ps)) == ps[|ps| - 1].x - start.x &&
      SumY(MouseOffsets(hasMoved, last, ps)) == start.y - ps[|ps| - 1].y
  {
    var offset := MouseOffset(hasMoved, last, ps[0]).0;
    var rest := MouseOffsets(true, ps[0], ps[1..]);
    assert MouseOffsets(hasMoved, last, ps) == [offset] + rest;
    assert ([offset] + rest)[1..] == rest;
    if |ps| > 1 {
      MouseOffsetsTelescope(true, ps[0], ps[1..]);
      assert ps[1..][|ps[1..]| - 1] == ps[|ps| - 1];
    }
  }

  /** A run of mouse events, one `MouseCallback` each. */
  function MouseCallbacks(w: World, ps: seq<Vec2>, orient: CameraH.Orient): World
    decreases |ps|
  {
    if |ps| == 0 then w else MouseCallbacks(MouseCallback(w, ps[0], orient), ps[1..], orient)
  }

  /** Over a run of mouse events the yaw turns by the x sensitivity times
      the sum of the reported x offsets, that is, times the cursor's x
      travel; the sensitivity never changes. The pitch has no such sum: it
      is clamped after every event. */
  lemma {:induction false} YawFollowsTravel(w: World, ps: seq<Vec2>, orient: CameraH.Orient)
    decreases |ps|
    ensures var r := MouseCallbacks(w, ps, orient); var sens := w.camera.settings.mouseSensitivity;
      r.camera.settings.mouseSensitivity == sens &&
      r.camera.settings.alpha == w.camera.settings.alpha + sens.x * SumX(MouseOffsets(w.hasMouseMoved, w.mouseLast, ps))
    ensures |ps| > 0 ==>
      var start := if w.hasMouseMoved then w.mouseLast else ps[0];
      MouseCallbacks(w, ps, orient).camera.settings.alpha ==
        w.camera.settings.alpha + w.camera.settings.mouseSensitivity.x * (ps[|ps| - 1].x - start.x)
  {
    if |ps| > 0 {
      var sens := w.camera.settings.mouseSensitivity;
      var w1 := MouseCallback(w, ps[0], orient);
      var offset := MouseOffset(w.hasMouseMoved, w.mouseLast, ps[0]).0;
      var rest := MouseOffsets(true, ps[0], ps[1..]);
      MouseOffsetsCons(w.hasMouseMoved, w.mouseLast, ps);
      MouseCallbackYaw(w, ps[0], orient);
      YawFollowsTravel(w1, ps[1..], orient);
      assert MouseCallbacks(w, ps, orient) == MouseCallbacks(w1, ps[1..], orient);
      assert sens.x * (offset.x + SumX(rest)) == sens.x * offset.x + sens.x * SumX(rest);
      MouseOffsetsTelescope(w.hasMouseMoved, w.mouseLast, ps);
    }
  }

  /** The first reported offset, then those of the rest of the run. */
  lemma MouseOffsetsCons(hasMoved: bool, last: Vec2, ps: seq<Vec2>)
    requires |ps| > 0
    ensures var offset := MouseOffset(hasMoved, last, ps[0]).0; var rest := MouseOffsets(true, ps[0], ps[1..]);
      MouseOffsets(hasMoved, last, ps) == [offset] + rest && SumX(MouseOffsets(hasMoved, last, ps)) == offset.x + SumX(rest)
  {
    var offset := MouseOffset(hasMoved, last, ps[0]).0;
    var rest := MouseOffsets(true, ps[0], ps[1..]);
    assert ([offset] + rest)[1..] == rest;
  }

  /** One event turns the yaw by its x offset times the x sensitivity and
      keeps the sensitivity. */
  lemma MouseCallbackYaw(w: World, p: Vec2, orient: CameraH.Orient)
    ensures var r := MouseCallback(w, p, orient); var offset := MouseOffset(w.hasMouseMoved, w.mouseLast, p).0;
      r.camera.settings.mouseSensitivity == w.camera.settings.mouseSensitivity &&
      r.camera.settings.alpha == w.camera.settings.alpha + offset.x * w.camera.settings.mouseSensitivity.x &&
      r.hasMouseMoved && r.mouseLast == p
  {
  }

  /** The polygon mode after the R and T keys: R sets lines, then T sets fill. */
  function ModeAfter(mode: PolygonMode, held: set<Key>): PolygonMode {
    var m := if KeyR in held then Line else mode;
    if KeyT in held then Fill else m
  }

  /** One movement key: `MoveCamera` in its direction when it is held. */
  function MoveIfHeld(c: CameraH.Camera, held: set<Key>, k: Key, dir: CameraH.Direction, dt: real): CameraH.Camera {
    if k in held then CameraH.MoveCamera(c, dir, dt) else c
  }

  /** The movement keys W, S, A, D in that order, each moving the camera by
      this frame's delta. */
  function MoveKeys(c: CameraH.Camera, held: set<Key>, dt: real): (r: CameraH.Camera)
    ensures r == c.(position := r.position)
  {
    var c1 := MoveIfHeld(c, held, KeyW, CameraH.Forward, dt);
    var c2 := MoveIfHeld(c1, held, KeyS, CameraH.Backward, dt);
    var c3 := MoveIfHeld(c2, held, KeyA, CameraH.Left, dt);
    MoveIfHeld(c3, held, KeyD, CameraH.Right, dt)
  }

  /** `ProcessInput(window)`: every held key acts, in the order Escape, R,
      T, W, S, A, D. */
  function ProcessInput(w: World, held: set<Key>): (r: World)
    ensures r.isRunning <==> w.isRunning && Escape !in held
    ensures r.mode == (if KeyT in held then Fill else if KeyR in held then Line else w.mode)
    ensures r.camera == w.camera.(position := r.camera.position)
    ensures r == w.(isRunning := r.isRunning, mode := r.mode, camera := r.camera)
  {
    var w1 := if Escape in held then w.(isRunning := false) else w;
    var w2 := w1.(mode := ModeAfter(w1.mode, held));
    w2.(camera := MoveKeys(w2.camera, held, w2.deltaTime))
  }

  /** Opposite keys held together cancel: W with S leaves the position as
      if neither were held, and so does A with D. */
  lemma OppositeKeysCancel(w: World, held: set<Key>)
    ensures ProcessInput(w, held + {KeyW, KeyS}).camera == ProcessInput(w, held - {KeyW, KeyS}).camera
    ensures ProcessInput(w, held + {KeyA, KeyD}).camera == ProcessInput(w, held - {KeyA, KeyD}).camera
  {
    var c := w.camera;
    var dt := w.deltaTime;
    CameraH.ForwardBackwardInverse(c, dt);
    var c2 := MoveIfHeld(MoveIfHeld(c, held, KeyW, CameraH.Forward, dt), held, KeyS, CameraH.Backward, dt);
    CameraH.LeftRightInverse(c2, dt);
  }

  /** Keys are independent: W and D held together (without S or A) move the
      camera forward and then right, each by `speed * delta_time`. */
  lemma WAndDBothMove(w: World, held: set<Key>)
    requires KeyW in held && KeyD in held && KeyS !in held && KeyA !in held
    ensures var v := w.camera.settings.speed * w.deltaTime;
      ProcessInput(w, held).camera.position ==
      Add(Add(w.camera.position, Scale(v, w.camera.front)), Scale(v, w.camera.right))
  {
  }

  /** `ScrollCallback(window, x, y)`: the vertical offset zooms the camera. */
  function ScrollCallback(w: World, offsetY: real): (r: World)
    ensures r == w.(camera := CameraH.ProcessCameraScroll(w.camera, offsetY))
    ensures 1.0 <= r.camera.settings.fov <= 90.0
  {
    w.(camera := CameraH.ProcessCameraScroll(w.camera, offsetY))
  }

  /** `GameInit()`: if the window cannot be created or GL cannot be loaded
      it returns early and leaves everything as it was; otherwise the game
      runs, at the window's size, with a zero clock, the default camera and
      the mouse latched at the window's centre. */
  function GameInit(w: World, windowCreated: bool, glLoaded: bool): (r: World)
    ensures !(windowCreated && glLoaded) ==> r == w
    ensures windowCreated && glLoaded ==>
      r.isRunning && r.windowWidth == 1920 && r.windowHeight == 1080 &&
      r.lastTime == 0.0 && r.deltaTime == 0.0 && r.camera == CameraH.DefaultCamera() &&
      r.mouseLast == Vec2(960.0, 540.0) &&
      r.hasMouseMoved == w.hasMouseMoved && r.mode == w.mode
  {
    if !windowCreated || !glLoaded then w
    else
      w.(isRunning := true, windowWidth := WINDOW_WIDTH, windowHeight := WINDOW_HEIGHT,
         lastTime := 0.0, deltaTime := 0.0, camera := CameraH.DefaultCamera(),
         mouseLast := Vec2(WINDOW_WIDTH as real / 2.0, WINDOW_HEIGHT as real / 2.0))
  }

  /** A started game's camera is in range, and the handlers keep it so. */
  lemma GameInitInRange(w: World)
    ensures CameraH.InRange(GameInit(w, true, true).camera.settings)
  {
    CameraH.DefaultsInRange();
  }

  /** The clock step at the top of each frame of `GameRun`. */
  function Tick(w: World, current: real): (r: World)
    ensures r.lastTime == current && r.lastTime == w.lastTime + r.deltaTime
    ensures r == w.(lastTime := r.lastTime, deltaTime := r.deltaTime)
  {
    w.(deltaTime := current - w.lastTime, lastTime := current)
  }

  /** The clock over a run of frames. */
  function Ticks(w: World, times: seq<real>): World
    decreases |times|
  {
    if |times| == 0 then w else Ticks(Tick(w, times[0]), times[1..])
  }

  /** The frame deltas a run of frames sees. */
  function Deltas(last: real, times: seq<real>): (r: seq<real>)
    ensures |r| == |times|
    decreases |times|
  {
    if |times| == 0 then [] else [times[0] - last] + Deltas(times[0], times[1..])
  }

  /** Sum of a run of reals. */
  function Sum(xs: seq<real>): real {
    if |xs| == 0 then 0.0 else xs[0] + Sum(xs[1..])
  }

  /** The deltas add up to the time elapsed since the first frame's
      `last_time`, and the clock ends at the last frame's time. */
  lemma {:induction false} TicksTelescope(w: World, times: seq<real>)
    requires |times| > 0
    decreases |times|
    ensures Ticks(w, times).lastTime == times[|times| - 1]
    ensures Sum(Deltas(w.lastTime, times)) == times[|times| - 1] - w.lastTime
    ensures Ticks(w, times).deltaTime == Deltas(w.lastTime, times)[|times| - 1]
  {
    var w1 := Tick(w, times[0]);
    var rest := Deltas(times[0], times[1..]);
    assert Deltas(w.lastTime, times) == [times[0] - w.lastTime] + rest;
    assert ([times[0] - w.lastTime] + rest)[1..] == rest;
    if |times| > 1 {
      TicksTelescope(w1, times[1..]);
      assert times[1..][|times[1..]| - 1] == times[|times| - 1];
    }
  }

  /** One frame of `GameRun` as far as state goes: the clock, then input. */
  function Frame(w: World, current: real, held: set<Key>): (r: World)
    ensures r.isRunning <==> w.isRunning && Escape !in held
    ensures r.deltaTime == current - w.lastTime && r.lastTime == current
  {
    ProcessInput(Tick(w, current), held)
  }

  /** The bytes per float. */
  const F32_SIZE: nat := 4

  /** The floats per vertex of the cube's buffer: position 3, normal 3, uv 2. */
  const CUBE_STRIDE: nat := 8

  /** `cube_triangles_count` as written: the array's float count times the
      stride. */
  function CubeDrawCountAsWritten(sizeBytes: nat): nat {
    sizeBytes / F32_SIZE * CUBE_STRIDE
  }

  /** The vertex count the draw should use: the float count divided by the
      stride. */
  function CubeDrawCount(sizeBytes: nat): nat {
    sizeBytes / F32_SIZE / CUBE_STRIDE
  }

  /** As written, a buffer of whole vertices is drawn with 64 times as many
      vertices as it holds, so any non-empty buffer is read past its end. */
  lemma DrawCountOvershoots(sizeBytes: nat)
    requires sizeBytes % (F32_SIZE * CUBE_STRIDE) == 0
    ensures CubeDrawCountAsWritten(sizeBytes) == 64 * CubeDrawCount(sizeBytes)
    ensures sizeBytes > 0 ==> CubeDrawCountAsWritten(sizeBytes) > CubeDrawCount(sizeBytes)
    ensures CubeDrawCountAsWritten(32) == 64 && CubeDrawCount(32) == 1
  {
    var v := sizeBytes / 32;
    assert sizeBytes == 32 * v;
    assert sizeBytes / 4 == 8 * v;
    assert (8 * v) / 8 == v;
  }

  /** The corrected count draws exactly the vertices in the buffer: every
      float of a whole-vertex buffer belongs to one drawn vertex. */
  lemma DrawCountCoversBuffer(sizeBytes: nat)
    requires sizeBytes % (F32_SIZE * CUBE_STRIDE) == 0
    ensures CubeDrawCount(sizeBytes) * CUBE_STRIDE * F32_SIZE == sizeBytes
  {
    var v := sizeBytes / 32;
    assert sizeBytes == 32 * v;
    assert sizeBytes / 4 == 8 * v;
    assert (8 * v) / 8 == v;
  }
}
