/** The WindowManager of WindowManager.cpp: the GLFW callbacks that turn key,
    scroll, cursor and resize events into changes of the pressed-key set, the
    renderer's play mode and dirty flag and the camera, and the main loop
    that turns held keys into one Camera::Move per key and frame.

    Each callback is specified by a pure function of the old state
    (KeysAfter, PlayAfter, MouseOffsets, FrameMoves); the lemmas state what
    those functions do over whole runs of events. */
module Windows {
  import opened Geometry
  import opened Lists
  import opened Scene
  import opened Cameras
  import opened Renderers

  // GLFW's key codes and key actions.
  const KeySpace: int := 32
  const KeyA: int := 65
  const KeyD: int := 68
  const KeyF: int := 70
  const KeyS: int := 83
  const KeyW: int := 87
  const KeyEscape: int := 256
  const KeyEnter: int := 257
  const KeyLeftControl: int := 341

  const Release: int := 0
  const Press: int := 1
  const Repeat: int := 2

  /** The keys that are held to move the camera. */
  const MotionKeys: set<int> := {KeyW, KeyA, KeyS, KeyD, KeySpace, KeyLeftControl}

  /** One call of the key callback; the scancode and modifiers are unused. */
  datatype KeyEvent = KeyEvent(key: int, action: int)

  // ------------------------------------------------------ pressed keys

  /** The pressed-key set after one key event: a press of a motion key
      inserts it, a release of any key erases it, nothing else changes it. */
  function KeysAfter(keys: set<int>, e: KeyEvent): (r: set<int>)
    ensures e.action == Press && e.key in MotionKeys ==> r == keys + {e.key}
    ensures e.action == Press && e.key !in MotionKeys ==> r == keys
    ensures e.action == Release ==> r == keys - {e.key}
    ensures e.action != Press && e.action != Release ==> r == keys
    ensures keys <= MotionKeys ==> r <= MotionKeys
  {
    var pressed := if e.action == Press && e.key in MotionKeys then keys + {e.key} else keys;
    if e.action == Release then pressed - {e.key} else pressed
  }

  /** The pressed-key set after a run of key events. */
  function KeysAfterAll(keys: set<int>, es: seq<KeyEvent>): set<int> {
    Fold(KeysAfter, keys, es)
  }

  /** Key k is released at some position from `from` on. */
  predicate ReleasedFrom(es: seq<KeyEvent>, k: int, from: nat) {
    exists j :: from <= j < |es| && es[j] == KeyEvent(k, Release)
  }

  /** The event at position i presses k, and k is not released after it. */
  predicate PressedAndHeld(es: seq<KeyEvent>, k: int, i: nat)
    requires i < |es|
  {
    es[i] == KeyEvent(k, Press) && !ReleasedFrom(es, k, i + 1)
  }

  /** After a run of events a key is held exactly when it was held before
      and never released since, or it is a motion key that was pressed and
      not released after that press. */
  lemma {:induction false} HeldKeys(keys: set<int>, es: seq<KeyEvent>, k: int)
    ensures k in KeysAfterAll(keys, es) <==>
      (k in keys && !ReleasedFrom(es, k, 0)) ||
      (k in MotionKeys && exists i :: 0 <= i < |es| && PressedAndHeld(es, k, i))
    decreases |es|
  {
    if es != [] {
      var n := |es| - 1;
      var p, e := es[..n], es[n];
      HeldKeys(keys, p, k);
      assert es == p + [e];
      FoldSnoc(KeysAfter, keys, p, e);
      if e == KeyEvent(k, Release) {
        assert ReleasedFrom(es, k, 0);
        forall i | 0 <= i < |es|
          ensures !PressedAndHeld(es, k, i)
        {
          if i < n {
            assert ReleasedFrom(es, k, i + 1);
          }
        }
      } else if e == KeyEvent(k, Press) && k in MotionKeys {
        assert PressedAndHeld(es, k, n);
      } else {
        assert ReleasedFrom(es, k, 0) == ReleasedFrom(p, k, 0) by {
          if ReleasedFrom(es, k, 0) {
            var j :| 0 <= j < |es| && es[j] == KeyEvent(k, Release);
            assert j < n && p[j] == es[j];
          }
        }
        forall i | 0 <= i < n
          ensures PressedAndHeld(es, k, i) == PressedAndHeld(p, k, i)
        {
          if ReleasedFrom(es, k, i + 1) {
            var j :| i + 1 <= j < |es| && es[j] == KeyEvent(k, Release);
            assert j < n && p[j] == es[j];
          }
          if ReleasedFrom(p, k, i + 1) {
            var j :| i + 1 <= j < |p| && p[j] == KeyEvent(k, Release);
            assert es[j] == p[j];
          }
        }
        if k in MotionKeys && (exists i :: 0 <= i < |es| && PressedAndHeld(es, k, i)) {
          var i :| 0 <= i < |es| && PressedAndHeld(es, k, i);
          if i == n {
            assert false;
          }
          assert PressedAndHeld(p, k, i);
        }
        if k in MotionKeys && (exists i :: 0 <= i < |p| && PressedAndHeld(p, k, i)) {
          var i :| 0 <= i < |p| && PressedAndHeld(p, k, i);
          assert PressedAndHeld(es, k, i);
        }
      }
    }
  }

  /** No run of events puts anything but a motion key into the set. */
  lemma {:induction false} KeysStayMotionKeys(keys: set<int>, es: seq<KeyEvent>)
    requires keys <= MotionKeys
    ensures KeysAfterAll(keys, es) <= MotionKeys
    decreases |es|
  {
    if es != [] {
      var n := |es| - 1;
      KeysStayMotionKeys(keys, es[..n]);
    }
  }

  // --------------------------------------------------------- play mode

  /** play_mode after one key event: an Esc press clears it, an Enter press
      negates it, every other event leaves it as it was. */
  function PlayAfter(play: bool, e: KeyEvent): (r: bool)
    ensures e == KeyEvent(KeyEscape, Press) ==> !r
    ensures e == KeyEvent(KeyEnter, Press) ==> r == !play
    ensures e != KeyEvent(KeyEscape, Press) && e != KeyEvent(KeyEnter, Press) ==> r == play
  {
    var cleared := if e.action == Press && e.key == KeyEscape then false else play;
    if e.action == Press && e.key == KeyEnter then !cleared else cleared
  }

  /** play_mode after a run of key events. */
  function PlayAfterAll(play: bool, es: seq<KeyEvent>): bool {
    Fold(PlayAfter, play, es)
  }

  /** The number of Enter presses in a run of events. */
  function EnterPresses(es: seq<KeyEvent>): (r: nat)
    ensures r <= |es|
    decreases |es|
  {
    if es == [] then 0
    else EnterPresses(es[..|es| - 1]) + (if es[|es| - 1] == KeyEvent(KeyEnter, Press) then 1 else 0)
  }

  /** Without an Esc press, the mode flips once per Enter press: an even
      number of them restores it. */
  lemma {:induction false} ModeWithoutEscape(play: bool, es: seq<KeyEvent>)
    requires forall i :: 0 <= i < |es| ==> es[i] != KeyEvent(KeyEscape, Press)
    ensures PlayAfterAll(play, es) == (if EnterPresses(es) % 2 == 0 then play else !play)
    decreases |es|
  {
    if es != [] {
      var n := |es| - 1;
      ModeWithoutEscape(play, es[..n]);
      assert es == es[..n] + [es[n]];
      FoldSnoc(PlayAfter, play, es[..n], es[n]);
    }
  }

  /** An Esc press forgets the mode before it: from there on the run
      behaves as if play mode had been off. */
  lemma ModeAfterEscape(play: bool, es: seq<KeyEvent>, i: nat)
    requires i < |es| && es[i] == KeyEvent(KeyEscape, Press)
    ensures PlayAfterAll(play, es) == PlayAfterAll(false, es[i + 1..])
  {
    assert es == es[..i + 1] + es[i + 1..];
    FoldAppend(PlayAfter, play, es[..i + 1], es[i + 1..]);
    assert es[..i + 1] == es[..i] + [es[i]];
    FoldSnoc(PlayAfter, play, es[..i], es[i]);
  }

  // ------------------------------------------------------------- mouse

  /** The function-local statics of the cursor callback: whether they have
      been initialised by a first call, and the last cursor position. */
  datatype MouseBaseline = MouseBaseline(seen: bool, last_x: real, last_y: real)

  datatype CursorPos = CursorPos(x: real, y: real)

  datatype Offsets = Offsets(dx: real, dy: real)

  /** The offsets one cursor sample yields: zero on the first call, whose
      statics are initialised to the sample itself, and otherwise the
      horizontal travel and the reversed vertical travel since the last
      sample. */
  function MouseOffsets(b: MouseBaseline, p: CursorPos): (r: Offsets)
    ensures !b.seen ==> r == Offsets(0.0, 0.0)
    ensures b.seen ==> r.dx == p.x - b.last_x && r.dy == b.last_y - p.y
  {
    var last := if b.seen then CursorPos(b.last_x, b.last_y) else p;
    Offsets(p.x - last.x, last.y - p.y)
  }

  /** The statics after any sample. */
  function NextBaseline(p: CursorPos): MouseBaseline {
    MouseBaseline(true, p.x, p.y)
  }

  /** The offsets of a run of samples, added up. */
  function Travel(b: MouseBaseline, ps: seq<CursorPos>): Offsets
    decreases |ps|
  {
    if ps == [] then Offsets(0.0, 0.0)
    else
      var o := MouseOffsets(b, ps[0]);
      var rest := Travel(NextBaseline(ps[0]), ps[1..]);
      Offsets(o.dx + rest.dx, o.dy + rest.dy)
  }

  /** The offsets of a run of samples add up to the travel from the last
      sample before the run (or, on the very first run, from its first
      sample) to its last sample: no motion is lost or counted twice. */
  lemma {:induction false} TravelTelescopes(b: MouseBaseline, ps: seq<CursorPos>)
    requires ps != []
    ensures var start := if b.seen then CursorPos(b.last_x, b.last_y) else ps[0];
      var t := Travel(b, ps);
      t.dx == ps[|ps| - 1].x - start.x && t.dy == start.y - ps[|ps| - 1].y
    decreases |ps|
  {
    if |ps| > 1 {
      TravelTelescopes(NextBaseline(ps[0]), ps[1..]);
      assert ps[1..][|ps[1..]| - 1] == ps[|ps| - 1];
    }
  }

  // ------------------------------------------------------------- moves

  /** The key that moves the camera in each direction. */
  function KeyOf(d: Direction): (k: int)
    ensures k in MotionKeys
  {
    match d
    case Forward => KeyW
    case Left => KeyA
    case Backward => KeyS
    case Right => KeyD
    case Upward => KeySpace
    case Downward => KeyLeftControl
  }

  /** The position of each direction's key test in the main loop. */
  function Rank(d: Direction): nat {
    match d
    case Forward => 0
    case Left => 1
    case Backward => 2
    case Right => 3
    case Upward => 4
    case Downward => 5
  }

  /** Each motion key moves in exactly one direction. */
  lemma KeyOfInjective(d: Direction, e: Direction)
    ensures KeyOf(d) == KeyOf(e) <==> d == e
  {
  }

  /** One key test of the main loop: a Move when d's key is held. */
  function MoveIfHeld(keys: set<int>, d: Direction): seq<Direction> {
    if KeyOf(d) in keys then [d] else []
  }

  /** The Moves of one frame: in play mode with a non-empty set, one per
      held key, in the order of the six key tests. */
  function FrameMoves(keys: set<int>, play: bool): seq<Direction> {
    if play && keys != {} then
      MoveIfHeld(keys, Forward) + MoveIfHeld(keys, Left) + MoveIfHeld(keys, Backward) +
      MoveIfHeld(keys, Right) + MoveIfHeld(keys, Upward) + MoveIfHeld(keys, Downward)
    else []
  }

  /** Moves listed in strictly increasing key-test order. */
  predicate Ordered(ds: seq<Direction>) {
    forall i, j :: 0 <= i < j < |ds| ==> Rank(ds[i]) < Rank(ds[j])
  }

  predicate RanksBelow(ds: seq<Direction>, n: nat) {
    forall i :: 0 <= i < |ds| ==> Rank(ds[i]) < n
  }

  lemma OrderedStep(ds: seq<Direction>, keys: set<int>, d: Direction)
    requires Ordered(ds) && RanksBelow(ds, Rank(d))
    ensures Ordered(ds + MoveIfHeld(keys, d)) && RanksBelow(ds + MoveIfHeld(keys, d), Rank(d) + 1)
  {
  }

  /** A frame moves in direction d exactly when the game is in play mode,
      the set is not empty and d's key is held. */
  lemma FrameMovesMembers(keys: set<int>, play: bool)
    ensures forall d :: d in FrameMoves(keys, play) <==> play && keys != {} && KeyOf(d) in keys
  {
    forall d
      ensures d in FrameMoves(keys, play) <==> play && keys != {} && KeyOf(d) in keys
    {
      if play && keys != {} && KeyOf(d) in keys {
        assert d in MoveIfHeld(keys, d);
      }
    }
  }

  /** The Moves of a frame come in the order Forward, Left, Backward,
      Right, Upward, Downward, so none of them appears twice. */
  lemma FrameMovesOrdered(keys: set<int>, play: bool)
    ensures Ordered(FrameMoves(keys, play))
    ensures forall i, j :: 0 <= i < j < |FrameMoves(keys, play)| ==> FrameMoves(keys, play)[i] != FrameMoves(keys, play)[j]
  {
    if play && keys != {} {
      var s0 := MoveIfHeld(keys, Forward);
      var s1 := s0 + MoveIfHeld(keys, Left);
      var s2 := s1 + MoveIfHeld(keys, Backward);
      var s3 := s2 + MoveIfHeld(keys, Right);
      var s4 := s3 + MoveIfHeld(keys, Upward);
      OrderedStep([], keys, Forward);
      assert [] + s0 == s0;
      OrderedStep(s0, keys, Left);
      OrderedStep(s1, keys, Backward);
      OrderedStep(s2, keys, Right);
      OrderedStep(s3, keys, Upward);
      OrderedStep(s4, keys, Downward);
    }
  }

  /** No Move happens in edit mode or while no key is held, and otherwise
      at least one does. */
  lemma NoMovesWhenIdle(keys: set<int>, play: bool)
    requires keys <= MotionKeys
    ensures FrameMoves(keys, play) == [] <==> !play || keys == {}
  {
    FrameMovesMembers(keys, play);
    if play && keys != {} {
      var k :| k in keys;
      var d := if k == KeyW then Forward else if k == KeyA then Left else if k == KeyS then Backward
        else if k == KeyD then Right else if k == KeySpace then Upward else Downward;
      assert KeyOf(d) == k;
      assert d in FrameMoves(keys, play);
    }
  }

  // ------------------------------------------------------------ events

  /** What glfwPollEvents can deliver to the callbacks. */
  datatype Event =
    | Key(e: KeyEvent)
    | Scroll(yoffset: real)
    | CursorMove(pos: CursorPos)
    | FramebufferResize(width: int, height: int)

  /** The key events among a run of events. */
  function KeyEventsIn(evs: seq<Event>): seq<KeyEvent>
    decreases |evs|
  {
    if evs == [] then []
    else KeyEventsIn(evs[..|evs| - 1]) + (if evs[|evs| - 1].Key? then [evs[|evs| - 1].e] else [])
  }

  lemma KeyEventsInSnoc(evs: seq<Event>, j: nat)
    requires j < |evs|
    ensures KeyEventsIn(evs[..j + 1]) == KeyEventsIn(evs[..j]) + (if evs[j].Key? then [evs[j].e] else [])
  {
    assert evs[..j + 1][..j] == evs[..j];
  }

  /** The part of the session the callbacks read and write: the pressed
      keys, the monitor state and the cursor statics of the manager, the
      renderer's mode and dirty flag, and the camera's vfov and pose,
      together with the camera settings the callbacks use. */
  datatype Session = Session(
    keys: set<int>, play: bool, on_monitor: bool, mouse: MouseBaseline, updated: bool,
    vfov: real, pose: Pose, math: FloatMath, zoom_speed: real, turn_speed: real)

  /** The session after the callback of one event. A key event goes to
      the key callback, a scroll zooms and a cursor move turns (both in
      play mode only, and the cursor statics follow every move), and a
      resize sets the dirty flag. */
  function AfterEvent(st: Session, ev: Event): (r: Session)
    ensures r.math == st.math && r.zoom_speed == st.zoom_speed && r.turn_speed == st.turn_speed
    ensures r.pose.look_from == st.pose.look_from
    ensures !st.play ==> r.vfov == st.vfov && r.pose == st.pose
    ensures r.updated == (st.updated || ev.FramebufferResize?)
    ensures r.mouse == if ev.CursorMove? then NextBaseline(ev.pos) else st.mouse
  {
    match ev
    case Key(e) =>
      st.(keys := KeysAfter(st.keys, e), play := PlayAfter(st.play, e),
          on_monitor := if e.key == KeyF && e.action == Press then !st.on_monitor else st.on_monitor)
    case Scroll(y) =>
      st.(vfov := if st.play then ZoomedFov(st.vfov, y, st.zoom_speed) else st.vfov)
    case CursorMove(p) =>
      var o := MouseOffsets(st.mouse, p);
      st.(mouse := NextBaseline(p),
          pose := if st.play then TurnedPose(st.math, st.pose, o.dx, o.dy, st.turn_speed) else st.pose)
    case FramebufferResize(_, _) =>
      st.(updated := true)
  }

  /** The session after the events of one poll, in order. */
  function AfterEvents(st: Session, evs: seq<Event>): Session {
    Fold(AfterEvent, st, evs)
  }

  /** Over a run of events the pressed keys and the mode depend only on
      the key events among them. */
  lemma {:induction false} AfterEventsKeysAndMode(st: Session, evs: seq<Event>)
    ensures AfterEvents(st, evs).keys == KeysAfterAll(st.keys, KeyEventsIn(evs))
    ensures AfterEvents(st, evs).play == PlayAfterAll(st.play, KeyEventsIn(evs))
    decreases |evs|
  {
    if evs != [] {
      var n := |evs| - 1;
      AfterEventsKeysAndMode(st, evs[..n]);
      KeyEventsInSnoc(evs, n);
      assert evs[..n + 1] == evs;
      var ks := KeyEventsIn(evs[..n]);
      if evs[n].Key? {
        FoldSnoc(KeysAfter, st.keys, ks, evs[n].e);
        FoldSnoc(PlayAfter, st.play, ks, evs[n].e);
      } else {
        assert KeyEventsIn(evs) == ks;
      }
    }
  }

  /** In edit mode, with no Enter press to leave it, scrolling and cursor
      moves leave the camera where it is. */
  lemma {:induction false} EditModeKeepsCamera(st: Session, evs: seq<Event>)
    requires !st.play
    requires forall i :: 0 <= i < |evs| ==> evs[i] != Key(KeyEvent(KeyEnter, Press))
    ensures !AfterEvents(st, evs).play
    ensures AfterEvents(st, evs).vfov == st.vfov && AfterEvents(st, evs).pose == st.pose
    decreases |evs|
  {
    if evs != [] {
      var n := |evs| - 1;
      EditModeKeepsCamera(st, evs[..n]);
    }
  }

  /** After a run of events the dirty flag is set exactly when it was set
      before or some event was a resize. */
  lemma {:induction false} ResizesSetFlag(st: Session, evs: seq<Event>)
    ensures AfterEvents(st, evs).updated == (st.updated || exists i :: 0 <= i < |evs| && evs[i].FramebufferResize?)
    decreases |evs|
  {
    if evs != [] {
      var n := |evs| - 1;
      ResizesSetFlag(st, evs[..n]);
      if AfterEvents(st, evs).updated && !st.updated && !evs[n].FramebufferResize? {
        var i :| 0 <= i < n && evs[..n][i].FramebufferResize?;
        assert evs[i].FramebufferResize?;
      }
    }
  }

  /** One iteration of the main loop: the framebuffer size Render reads,
      what the panels report, and the events polled at its end. */
  datatype FrameStep = FrameStep(framebuffer_width: int, framebuffer_height: int, ui: FrameInput, events: seq<Event>)

  /** The mode after one frame: Render keeps play mode on, and in edit
      mode the play button of the "Scene" panel turns it on; then the
      polled key events decide. */
  function ModeAfterFrame(play: bool, f: FrameStep): bool {
    PlayAfterAll(play || f.ui.scene.toggle_play, KeyEventsIn(f.events))
  }

  /** The mode after a run of frames. */
  function ModeAfterFrames(play: bool, frames: seq<FrameStep>): bool
    decreases |frames|
  {
    if frames == [] then play
    else ModeAfterFrame(ModeAfterFrames(play, frames[..|frames| - 1]), frames[|frames| - 1])
  }

  lemma ModeAfterFramesSnoc(play0: bool, frames: seq<FrameStep>, i: nat)
    requires i < |frames|
    ensures ModeAfterFrames(play0, frames[..i + 1]) == ModeAfterFrame(ModeAfterFrames(play0, frames[..i]), frames[i])
  {
    assert frames[..i + 1][..i] == frames[..i];
  }

  /** The key events of a run of frames. */
  function KeyEventsOf(frames: seq<FrameStep>): seq<KeyEvent>
    decreases |frames|
  {
    if frames == [] then []
    else KeyEventsOf(frames[..|frames| - 1]) + KeyEventsIn(frames[|frames| - 1].events)
  }

  lemma KeyEventsOfSnoc(frames: seq<FrameStep>, i: nat)
    requires i < |frames|
    ensures KeyEventsOf(frames[..i + 1]) == KeyEventsOf(frames[..i]) + KeyEventsIn(frames[i].events)
  {
    assert frames[..i + 1][..i] == frames[..i];
  }

  // ----------------------------------------------------- WindowManager

  class WindowManager {
    var camera: Camera
    var renderer: Renderer
    var is_fullscreen: bool
    var pressed_keys: set<int>
    /** Whether the GLFW window currently has a monitor, i.e. is full screen
        as far as GLFW is concerned. */
    var on_monitor: bool
    /** The statics of the cursor callback. */
    var mouse: MouseBaseline

    /** The renderer shares the manager's camera, the renderer's own
        invariant holds, only motion keys are ever held, and the fullscreen
        flag agrees with the window's monitor. */
    ghost predicate Valid()
      reads this, renderer
    {
      renderer.camera == camera && renderer.Valid() &&
      pressed_keys <= MotionKeys && is_fullscreen == on_monitor
    }

    /** The session the callbacks act on, as it stands now. */
    ghost function SessionOf(): Session
      reads this, renderer, camera
    {
      Session(pressed_keys, renderer.play_mode, on_monitor, mouse, renderer.scene_updated,
              camera.vfov, camera.CurrentPose(), camera.math, camera.zoom_speed, camera.turn_speed)
    }

    /** The window is created on the primary monitor exactly when it is to
        be full screen; the camera has its defaults (window size 0) and the
        renderer is then given that camera. */
    constructor (fullscreen: bool, glewOk: bool, math: FloatMath)
      ensures Valid() && fresh(camera) && fresh(renderer)
      ensures is_fullscreen == fullscreen && pressed_keys == {} && !mouse.seen
      ensures camera.math == math && camera.window_width == DefaultWidth && camera.window_height == DefaultHeight
      ensures camera.CurrentPose() == Pose(DefaultLookFrom, DefaultLookAt) && camera.vfov == DefaultVfov
      ensures camera.zoom_speed == DefaultZoomSpeed && camera.turn_speed == DefaultTurnSpeed
      ensures camera.move_speed == DefaultMoveSpeed && camera.Consistent()
      ensures renderer.light_bounces == DefaultLightBounces && renderer.samples_per_pixel == DefaultSamplesPerPixel
      ensures renderer.resolution_factor == DefaultResolutionFactor && renderer.show_tooltip == DefaultShowTooltip
      ensures renderer.scene_objects == (if glewOk then Preset1Objects() else [])
      ensures renderer.scene_updated && !renderer.play_mode
    {
      on_monitor := fullscreen;
      is_fullscreen := fullscreen;
      pressed_keys := {};
      mouse := MouseBaseline(false, 0.0, 0.0);
      var c := new Camera(math);
      var r := new Renderer(glewOk);
      camera, renderer := c, r;
      new;
      renderer.camera := camera;
    }

    /** Moves the window onto the primary monitor when it has none, and
        back into a window when it has one. */
    method ToggleFullscreen()
      modifies this`on_monitor, this`is_fullscreen
      ensures on_monitor == !old(on_monitor) && is_fullscreen == on_monitor
    {
      if !on_monitor {
        on_monitor := true;
        is_fullscreen := true;
      } else {
        on_monitor := false;
        is_fullscreen := false;
      }
    }

    /** The flag reports the window's actual monitor state. */
    method IsFullscreenMode() returns (r: bool)
      requires Valid()
      ensures r == on_monitor
    {
      return is_fullscreen;
    }

    /** A resize makes the next frame render the scene again. */
    method FramebufferSizeCallback(width: int, height: int)
      modifies renderer`scene_updated
      ensures renderer.scene_updated
    {
      renderer.scene_updated := true;
    }

    /** Scrolling zooms, in play mode only. */
    method ScrollCallback(yoffset: real)
      requires Valid()
      modifies camera`vfov
      ensures camera.vfov == if renderer.play_mode then ZoomedFov(old(camera.vfov), yoffset, camera.zoom_speed) else old(camera.vfov)
    {
      if renderer.play_mode {
        camera.Zoom(yoffset);
      }
    }

    method KeyCallback(key: int, action: int)
      requires Valid()
      modifies this`pressed_keys, this`on_monitor, this`is_fullscreen, renderer`play_mode
      ensures pressed_keys == KeysAfter(old(pressed_keys), KeyEvent(key, action))
      ensures renderer.play_mode == PlayAfter(old(renderer.play_mode), KeyEvent(key, action))
      ensures on_monitor == (if key == KeyF && action == Press then !old(on_monitor) else old(on_monitor))
      ensures Valid()
    {
      if action == Press {
        if key == KeyEscape {
          renderer.play_mode := false;
        }
        if key == KeyF {
          ToggleFullscreen();
        }
        if key == KeyW || key == KeyA || key == KeyS || key == KeyD || key == KeySpace || key == KeyLeftControl {
          pressed_keys := pressed_keys + {key};
        }
        if key == KeyEnter {
          renderer.play_mode := !renderer.play_mode;
        }
      }
      if action == Release {
        pressed_keys := pressed_keys - {key};
      }
    }

    /** The statics follow the cursor on every call; the camera turns by
        the offsets in play mode only. */
    method MouseMoveCallback(xpos: real, ypos: real)
      requires Valid()
      modifies this`mouse, camera`look_at
      ensures mouse == NextBaseline(CursorPos(xpos, ypos))
      ensures var o := MouseOffsets(old(mouse), CursorPos(xpos, ypos));
        camera.CurrentPose() ==
          if renderer.play_mode then TurnedPose(camera.math, old(camera.CurrentPose()), o.dx, o.dy, camera.turn_speed)
          else old(camera.CurrentPose())
      ensures Valid()
    {
      if !mouse.seen {
        mouse := MouseBaseline(true, xpos, ypos);
      }
      var xOffset := xpos - mouse.last_x;
      var yOffset := mouse.last_y - ypos;
      mouse := MouseBaseline(true, xpos, ypos);
      if renderer.play_mode {
        camera.Turn(xOffset, yOffset);
      }
    }

    /** Hands one polled event to its callback. */
    method HandleEvent(ev: Event)
      requires Valid()
      modifies this`pressed_keys, this`on_monitor, this`is_fullscreen, this`mouse
      modifies renderer`play_mode, renderer`scene_updated, camera`vfov, camera`look_at
      ensures SessionOf() == AfterEvent(old(SessionOf()), ev)
      ensures Valid()
    {
      match ev {
        case Key(e) => KeyCallback(e.key, e.action);
        case Scroll(y) => ScrollCallback(y);
        case CursorMove(p) => MouseMoveCallback(p.x, p.y);
        case FramebufferResize(w, h) => FramebufferSizeCallback(w, h);
      }
    }

    /** Handles the events one glfwPollEvents delivers, in order. */
    method HandleEvents(evs: seq<Event>)
      requires Valid()
      modifies this`pressed_keys, this`on_monitor, this`is_fullscreen, this`mouse
      modifies renderer`play_mode, renderer`scene_updated, camera`vfov, camera`look_at
      ensures SessionOf() == AfterEvents(old(SessionOf()), evs)
      ensures pressed_keys == KeysAfterAll(old(pressed_keys), KeyEventsIn(evs))
      ensures renderer.play_mode == PlayAfterAll(old(renderer.play_mode), KeyEventsIn(evs))
      ensures Valid()
    {
      ghost var s0 := SessionOf();
      var j := 0;
      while j < |evs|
        invariant 0 <= j <= |evs|
        invariant Valid()
        invariant SessionOf() == AfterEvents(s0, evs[..j])
      {
        ghost var before := SessionOf();
        HandleEvent(evs[j]);
        FoldSnoc(AfterEvent, s0, evs[..j], evs[j]);
        assert evs[..j + 1] == evs[..j] + [evs[j]];
        ghost var after: (Session, Event) -> Session := AfterEvent;
        assert after(before, evs[j]) == AfterEvent(before, evs[j]);
        j := j + 1;
      }
      assert evs[..j] == evs;
      AfterEventsKeysAndMode(s0, evs);
    }

    /** The key tests at the top of each frame: in play mode with a
        non-empty set, one Move per held key in the fixed order. */
    method DispatchMoves()
      requires Valid()
      modifies camera`look_from, camera`look_at, camera`camera_center
      modifies camera`pixel_delta_u, camera`pixel_delta_v, camera`pixel00_loc
      ensures camera.CurrentPose() ==
        MovedPoseAll(camera.math, old(camera.CurrentPose()), FrameMoves(pressed_keys, renderer.play_mode), camera.move_speed)
      ensures Valid()
    {
      if renderer.play_mode && pressed_keys != {} {
        ghost var p0 := camera.CurrentPose();
        ghost var done: seq<Direction> := [];
        done := MoveIfHeldStep(KeyW, Forward, p0, done);
        done := MoveIfHeldStep(KeyA, Left, p0, done);
        done := MoveIfHeldStep(KeyS, Backward, p0, done);
        done := MoveIfHeldStep(KeyD, Right, p0, done);
        done := MoveIfHeldStep(KeySpace, Upward, p0, done);
        done := MoveIfHeldStep(KeyLeftControl, Downward, p0, done);
        assert [] + MoveIfHeld(pressed_keys, Forward) == MoveIfHeld(pressed_keys, Forward);
      }
    }

    /** One key test: Move in direction d when `key` is held. */
    method MoveIfHeldStep(key: int, d: Direction, ghost p0: Pose, ghost done: seq<Direction>) returns (ghost after: seq<Direction>)
      requires key == KeyOf(d)
      requires camera.CurrentPose() == MovedPoseAll(camera.math, p0, done, camera.move_speed)
      modifies camera`look_from, camera`look_at, camera`camera_center
      modifies camera`pixel_delta_u, camera`pixel_delta_v, camera`pixel00_loc
      ensures after == done + MoveIfHeld(pressed_keys, d)
      ensures camera.CurrentPose() == MovedPoseAll(camera.math, p0, after, camera.move_speed)
    {
      after := done;
      if key in pressed_keys {
        camera.Move(d);
        MovedPoseAllSnoc(camera.math, p0, done, d, camera.move_speed);
        after := done + [d];
      } else {
        assert done + [] == done;
      }
    }

    /** One iteration of the main loop: held keys move the camera, the
        renderer draws the frame, and the polled events are handled. */
    method RunFrame(f: FrameStep) returns (pass: FramePasses)
      requires Valid()
      modifies this`pressed_keys, this`on_monitor, this`is_fullscreen, this`mouse
      modifies renderer, camera
      ensures Valid()
      ensures pressed_keys == KeysAfterAll(old(pressed_keys), KeyEventsIn(f.events))
      ensures renderer.play_mode == ModeAfterFrame(old(renderer.play_mode), f)
      ensures renderer.scene_objects ==
        if old(renderer.play_mode) then old(renderer.scene_objects) else ListAfterPanels(old(renderer.scene_objects), f.ui)
      ensures pass.offscreen.Some? <==> old(renderer.scene_updated)
      ensures pass.offscreen.Some? ==>
        RendersScene(pass.offscreen.value, f.framebuffer_width, f.framebuffer_height, old(renderer.resolution_factor),
                     old(renderer.samples_per_pixel), old(renderer.light_bounces), old(renderer.scene_objects))
      ensures pass.offscreen.Some? ==>
        camera.window_width == pass.offscreen.value.width as real &&
        camera.window_height == pass.offscreen.value.height as real
      ensures pass.composite_width == f.framebuffer_width && pass.composite_height == f.framebuffer_height
    {
      DispatchMoves();
      pass := renderer.Render(f.framebuffer_width, f.framebuffer_height, f.ui);
      HandleEvents(f.events);
    }

    /** The main loop over a finite run of frames; the window is closed
        after the last one. */
    method RunMainLoop(frames: seq<FrameStep>) returns (passes: seq<FramePasses>)
      requires Valid()
      modifies this`pressed_keys, this`on_monitor, this`is_fullscreen, this`mouse
      modifies renderer, camera
      ensures Valid()
      ensures pressed_keys == KeysAfterAll(old(pressed_keys), KeyEventsOf(frames))
      ensures renderer.play_mode == ModeAfterFrames(old(renderer.play_mode), frames)
      ensures |passes| == |frames|
      ensures forall i :: 0 <= i < |frames| ==>
        passes[i].composite_width == frames[i].framebuffer_width &&
        passes[i].composite_height == frames[i].framebuffer_height
    {
      ghost var keys0, play0 := pressed_keys, renderer.play_mode;
      passes := [];
      var i := 0;
      while i < |frames|
        invariant 0 <= i <= |frames|
        invariant Valid()
        invariant pressed_keys == KeysAfterAll(keys0, KeyEventsOf(frames[..i]))
        invariant renderer.play_mode == ModeAfterFrames(play0, frames[..i])
        invariant |passes| == i
        invariant forall k :: 0 <= k < i ==>
          passes[k].composite_width == frames[k].framebuffer_width &&
          passes[k].composite_height == frames[k].framebuffer_height
      {
        var pass := RunNextFrame(frames, i, keys0, play0);
        passes := passes + [pass];
        i := i + 1;
      }
      assert frames[..i] == frames;
    }

    /** Frame i of the main loop, stated in terms of the run so far. */
    method RunNextFrame(frames: seq<FrameStep>, i: nat, ghost keys0: set<int>, ghost play0: bool)
      returns (pass: FramePasses)
      requires Valid() && i < |frames|
      requires pressed_keys == KeysAfterAll(keys0, KeyEventsOf(frames[..i]))
      requires renderer.play_mode == ModeAfterFrames(play0, frames[..i])
      modifies this`pressed_keys, this`on_monitor, this`is_fullscreen, this`mouse
      modifies renderer, camera
      ensures Valid()
      ensures pressed_keys == KeysAfterAll(keys0, KeyEventsOf(frames[..i + 1]))
      ensures renderer.play_mode == ModeAfterFrames(play0, frames[..i + 1])
      ensures pass.composite_width == frames[i].framebuffer_width && pass.composite_height == frames[i].framebuffer_height
    {
      pass := RunFrame(frames[i]);
      KeyEventsOfSnoc(frames, i);
      FoldAppend(KeysAfter, keys0, KeyEventsOf(frames[..i]), KeyEventsIn(frames[i].events));
      ModeAfterFramesSnoc(play0, frames, i);
    }
  }
}
