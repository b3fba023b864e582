/** demo/breakout.cpp: the demo's window callbacks. Unlike rdiye.cpp's
    `ProcessInput`, its `process_input` is an else-if chain, so one call
    performs at most one action. The demo's `camera` class is not part of
    this model, so camera work appears as the request it makes (a move
    direction with the frame's delta, a mouse offset), not as its effect. */
module Breakout {
  import opened RdiyeLib
  import CameraH
  import Rdiye

  /** What one `process_input` call does. */
  datatype Action = CloseWindow | SetMode(mode: Rdiye.PolygonMode) | Move(dir: CameraH.Direction) | NoAction

  /** The demo's globals (`global_first_mouse`, `global_lastX`,
      `global_lastY`, `delta_time`), `main`'s `last_time`, the window's
      close flag, the polygon mode, and the camera moves requested so far. */
  datatype Demo = Demo(firstMouse: bool, lastX: real, lastY: real, deltaTime: real, lastTime: real,
                       shouldClose: bool, mode: Rdiye.PolygonMode, moves: seq<(CameraH.Direction, real)>)

  /** The keys in the order `process_input` tests them. */
  const PRIORITY: seq<Rdiye.Key> := [Rdiye.Escape, Rdiye.KeyR, Rdiye.KeyT, Rdiye.KeyW, Rdiye.KeyS, Rdiye.KeyA, Rdiye.KeyD]

  /** The action of each key. */
  function ActionOf(k: Rdiye.Key): Action {
    match k
    case Escape => CloseWindow
    case KeyR => SetMode(Rdiye.Line)
    case KeyT => SetMode(Rdiye.Fill)
    case KeyW => Move(CameraH.Forward)
    case KeyS => Move(CameraH.Backward)
    case KeyA => Move(CameraH.Left)
    case KeyD => Move(CameraH.Right)
  }

  /** `process_input(window)`: the action of the first held key in the
      order Escape, R, T, W, S, A, D; nothing if none is held. */
  function ProcessInput(held: set<Rdiye.Key>): (a: Action)
    ensures a.SetMode? ==> Rdiye.Escape !in held
    ensures a.Move? ==> Rdiye.Escape !in held && Rdiye.KeyR !in held && Rdiye.KeyT !in held
  {
    if Rdiye.Escape in held then CloseWindow
    else if Rdiye.KeyR in held then SetMode(Rdiye.Line)
    else if Rdiye.KeyT in held then SetMode(Rdiye.Fill)
    else if Rdiye.KeyW in held then Move(CameraH.Forward)
    else if Rdiye.KeyS in held then Move(CameraH.Backward)
    else if Rdiye.KeyA in held then Move(CameraH.Left)
    else if Rdiye.KeyD in held then Move(CameraH.Right)
    else NoAction
  }

  /** The priority order: a key's action is taken exactly when it is held
      and no key before it is, and nothing happens when none is held. */
  lemma ProcessInputPriority(held: set<Rdiye.Key>)
    ensures ProcessInput(held) == NoAction <==> forall i | 0 <= i < |PRIORITY| :: PRIORITY[i] !in held
    ensures forall i | 0 <= i < |PRIORITY| ::
      (ProcessInput(held) == ActionOf(PRIORITY[i]) <==> PRIORITY[i] in held && forall j | 0 <= j < i :: PRIORITY[j] !in held)
  {
    assert PRIORITY[0] == Rdiye.Escape && PRIORITY[1] == Rdiye.KeyR && PRIORITY[2] == Rdiye.KeyT;
    assert PRIORITY[3] == Rdiye.KeyW && PRIORITY[4] == Rdiye.KeyS && PRIORITY[5] == Rdiye.KeyA;
    assert PRIORITY[6] == Rdiye.KeyD;
  }

  /** The demo at start-up: the mouse not yet latched, its last position
      the window's centre, and a zero clock. */
  const INITIAL: Demo := Demo(true, 1920.0 / 2.0, 1080.0 / 2.0, 0.0, 0.0, false, Rdiye.Fill, [])

  /** One `process_input` call applied to the demo: exactly the chosen
      action's effect, nothing else. */
  function Apply(d: Demo, held: set<Rdiye.Key>): (r: Demo)
    ensures r.shouldClose <==> d.shouldClose || Rdiye.Escape in held
    ensures ProcessInput(held).SetMode? ==> r.mode == ProcessInput(held).mode
    ensures !ProcessInput(held).SetMode? ==> r.mode == d.mode
    ensures ProcessInput(held).Move? ==> r.moves == d.moves + [(ProcessInput(held).dir, d.deltaTime)]
    ensures !ProcessInput(held).Move? ==> r.moves == d.moves
    ensures r == d.(shouldClose := r.shouldClose, mode := r.mode, moves := r.moves)
  {
    match ProcessInput(held)
    case CloseWindow => d.(shouldClose := true)
    case SetMode(m) => d.(mode := m)
    case Move(dir) => d.(moves := d.moves + [(dir, d.deltaTime)])
    case NoAction => d
  }

  /** At most one thing happens per call: escape with anything else held
      only closes the window, and R with T held draws lines, where
      rdiye.cpp's independent tests would end in fill. */
  lemma OneActionPerCall(d: Demo, held: set<Rdiye.Key>)
    ensures |Apply(d, held).moves| <= |d.moves| + 1
    ensures Rdiye.Escape in held ==> Apply(d, held) == d.(shouldClose := true)
    ensures Rdiye.Escape !in held && Rdiye.KeyR in held ==> Apply(d, held).mode == Rdiye.Line
    ensures Rdiye.KeyR in held && Rdiye.KeyT in held ==>
      Rdiye.ModeAfter(d.mode, held) == Rdiye.Fill
  {
  }

  /** `mouse_callback(window, x, y)`: the offset passed to the camera, and
      the latch afterwards. */
  function MouseCallback(d: Demo, posX: real, posY: real): (r: (Demo, Vec2))
    ensures !d.firstMouse ==> r.1 == Vec2(posX - d.lastX, d.lastY - posY)
    ensures d.firstMouse ==> r.1 == Vec2(0.0, 0.0)
    ensures r.0 == d.(firstMouse := false, lastX := posX, lastY := posY)
  {
    var (lx, ly) := if d.firstMouse then (posX, posY) else (d.lastX, d.lastY);
    (d.(firstMouse := false, lastX := posX, lastY := posY), Vec2(posX - lx, ly - posY))
  }

  /** From start-up, the first mouse event reports no movement, whatever
      the position, and latches that position in place of the window's
      centre (960, 540); the second event reports the movement since the
      first. */
  lemma FirstMouseFromStart(x1: real, y1: real, x2: real, y2: real)
    ensures var (d1, o1) := MouseCallback(INITIAL, x1, y1);
      o1 == Vec2(0.0, 0.0) && !d1.firstMouse && d1.lastX == x1 && d1.lastY == y1 &&
      MouseCallback(d1, x2, y2).1 == Vec2(x2 - x1, y1 - y2)
    ensures INITIAL.firstMouse && INITIAL.lastX == 960.0 && INITIAL.lastY == 540.0
  {
  }

  /** The demo's latch is rdiye.cpp's, with the flag inverted. */
  lemma MouseAgrees(d: Demo, posX: real, posY: real)
    ensures var (r, offset) := MouseCallback(d, posX, posY);
      (offset, Vec2(r.lastX, r.lastY)) == Rdiye.MouseOffset(!d.firstMouse, Vec2(d.lastX, d.lastY), Vec2(posX, posY))
  {
  }

  /** One pass of `main`'s loop as far as state goes: the clock, then input. */
  function Frame(d: Demo, current: real, held: set<Rdiye.Key>): (r: Demo)
    ensures ProcessInput(held).Move? ==> |r.moves| > 0 && r.moves[|r.moves| - 1] == (ProcessInput(held).dir, current - d.lastTime)
    ensures r.lastTime == current
  {
    Apply(d.(deltaTime := current - d.lastTime, lastTime := current), held)
  }

  /** The demo's clock is the engine's: with the same `last_time`, a demo
      frame sees the delta and leaves the time `Rdiye.Tick` does, and a
      requested move is stamped with that delta. */
  lemma FrameClockAgrees(d: Demo, w: Rdiye.World, current: real, held: set<Rdiye.Key>)
    requires d.lastTime == w.lastTime
    ensures var r := Frame(d, current, held); var t := Rdiye.Tick(w, current);
      r.deltaTime == t.deltaTime && r.lastTime == t.lastTime &&
      (ProcessInput(held).Move? ==> r.moves == d.moves + [(ProcessInput(held).dir, t.deltaTime)])
  {
  }
}
