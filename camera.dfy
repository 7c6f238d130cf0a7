/** The pinhole camera (Camera.h, Camera.cpp): its fields and defaults, the
    mutators Zoom, Move, Turn, Reset and UpdateWindow, and Update, which
    derives the viewport basis the raytracing shader consumes.

    Each mutator is specified by a pure function of the old state (ZoomedFov,
    MovedPose, TurnedPose, ViewportOf); the lemmas state what the source
    promises about those functions. */
module Cameras {
  import opened Geometry

  /** The six motion directions of Camera::Move. */
  datatype Direction = Forward | Backward | Left | Right | Upward | Downward

  /** The fixed world-up vector `vup`. */
  const WorldUp := Vec3(0.0, 1.0, 0.0)

  // Constructor defaults.
  const DefaultWidth: real := 0.0
  const DefaultHeight: real := 0.0
  const DefaultZoomSpeed: real := 5.0
  const DefaultTurnSpeed: real := 0.05
  const DefaultMoveSpeed: real := 0.25
  const DefaultVfov: real := 90.0
  const DefaultLookFrom := Vec3(0.0, 0.0, 1.0)
  const DefaultLookAt := Vec3(0.0, 0.0, 0.0)

  // Clamp bounds of Zoom and Turn.
  const MinVfov: real := 1.0
  const MaxVfov: real := 120.0
  const MaxPitch: real := 89.0

  /** glm::radians and glm::degrees, with GLM's conversion constants. */
  function Radians(deg: real): real {
    deg * 0.01745329251994329576923690768489
  }

  function Degrees(rad: real): real {
    rad * 57.295779513082320876798154814105
  }

  function Min(a: real, b: real): real {
    if a < b then a else b
  }

  function Max(a: real, b: real): real {
    if a < b then b else a
  }

  /** glm::clamp(x, lo, hi), which GLM computes as min(max(x, lo), hi). */
  function Clamp(x: real, lo: real, hi: real): (r: real)
    requires lo <= hi
    ensures lo <= r <= hi
    ensures lo <= x <= hi ==> r == x
    ensures x < lo ==> r == lo
    ensures hi < x ==> r == hi
  {
    Min(Max(x, lo), hi)
  }

  // ---------------------------------------------------------------- Zoom

  /** The field of view after Zoom(amount): the scroll amount scaled by the
      zoom speed is taken off, and the result is kept within [1, 120]. */
  function ZoomedFov(vfov: real, amount: real, zoom_speed: real): (r: real)
    ensures MinVfov <= r <= MaxVfov
    ensures MinVfov <= vfov - amount * zoom_speed <= MaxVfov ==> r == vfov - amount * zoom_speed
    ensures vfov - amount * zoom_speed < MinVfov ==> r == MinVfov
    ensures MaxVfov < vfov - amount * zoom_speed ==> r == MaxVfov
  {
    Clamp(vfov - amount * zoom_speed, MinVfov, MaxVfov)
  }

  /** The field of view after one Zoom call per scroll amount, in order. */
  function ZoomedFovAll(vfov: real, amounts: seq<real>, zoom_speed: real): real
    decreases |amounts|
  {
    if amounts == [] then vfov
    else ZoomedFovAll(ZoomedFov(vfov, amounts[0], zoom_speed), amounts[1..], zoom_speed)
  }

  /** Zooming out at the widest field of view, any number of times, stays
      at the widest field of view. */
  lemma {:induction false} ZoomOutStaysAtMax(amounts: seq<real>, zoom_speed: real)
    requires forall i :: 0 <= i < |amounts| ==> amounts[i] * zoom_speed <= 0.0
    ensures ZoomedFovAll(MaxVfov, amounts, zoom_speed) == MaxVfov
    decreases |amounts|
  {
    if amounts != [] {
      assert ZoomedFov(MaxVfov, amounts[0], zoom_speed) == MaxVfov;
      forall i | 0 <= i < |amounts[1..]|
        ensures amounts[1..][i] * zoom_speed <= 0.0
      {
        assert amounts[1..][i] == amounts[i + 1];
      }
      ZoomOutStaysAtMax(amounts[1..], zoom_speed);
    }
  }

  /** Zooming in at the narrowest field of view, any number of times, stays
      at the narrowest field of view. */
  lemma {:induction false} ZoomInStaysAtMin(amounts: seq<real>, zoom_speed: real)
    requires forall i :: 0 <= i < |amounts| ==> amounts[i] * zoom_speed >= 0.0
    ensures ZoomedFovAll(MinVfov, amounts, zoom_speed) == MinVfov
    decreases |amounts|
  {
    if amounts != [] {
      assert ZoomedFov(MinVfov, amounts[0], zoom_speed) == MinVfov;
      forall i | 0 <= i < |amounts[1..]|
        ensures amounts[1..][i] * zoom_speed >= 0.0
      {
        assert amounts[1..][i] == amounts[i + 1];
      }
      ZoomInStaysAtMin(amounts[1..], zoom_speed);
    }
  }

  /** Whatever the field of view was, any non-empty run of zooms ends
      within [1, 120]. */
  lemma {:induction false} ZoomedFovAllInRange(vfov: real, amounts: seq<real>, zoom_speed: real)
    requires amounts != []
    ensures MinVfov <= ZoomedFovAll(vfov, amounts, zoom_speed) <= MaxVfov
    decreases |amounts|
  {
    if |amounts| > 1 {
      ZoomedFovAllInRange(ZoomedFov(vfov, amounts[0], zoom_speed), amounts[1..], zoom_speed);
    }
  }

  // ---------------------------------------------------------------- Move

  /** The two points that fix where the camera looks. */
  datatype Pose = Pose(look_from: Vec3, look_at: Vec3)

  /** glm::normalize(look_at - look_from): the unit front vector. */
  function Front(m: FloatMath, p: Pose): Vec3 {
    m.normalize(Sub(p.look_at, p.look_from))
  }

  /** The inverse of each motion direction. */
  function Opposite(d: Direction): Direction {
    match d
    case Forward => Backward
    case Backward => Forward
    case Left => Right
    case Right => Left
    case Upward => Downward
    case Downward => Upward
  }

  /** The pose after Move(d): look_from steps by move_speed along the front,
      right or world-up vector, and look_at is put one unit ahead of it along
      the old front vector. */
  function MovedPose(m: FloatMath, p: Pose, d: Direction, move_speed: real): Pose {
    var front := Front(m, p);
    var from := match d
      case Forward => Add(p.look_from, Scale(move_speed, front))
      case Backward => Sub(p.look_from, Scale(move_speed, front))
      case Left => Sub(p.look_from, Scale(move_speed, RightOf(m, front)))
      case Right => Add(p.look_from, Scale(move_speed, RightOf(m, front)))
      case Upward => Add(p.look_from, Scale(move_speed, WorldUp))
      case Downward => Sub(p.look_from, Scale(move_speed, WorldUp));
    Pose(from, Add(from, front))
  }

  /** glm::normalize(glm::cross(front, vup)): the camera's right vector. */
  function RightOf(m: FloatMath, front: Vec3): Vec3 {
    m.normalize(Cross(front, WorldUp))
  }

  /** The poses after one Move per direction, in order. */
  function MovedPoseAll(m: FloatMath, p: Pose, ds: seq<Direction>, move_speed: real): Pose
    decreases |ds|
  {
    if ds == [] then p
    else MovedPoseAll(m, MovedPose(m, p, ds[0], move_speed), ds[1..], move_speed)
  }

  lemma {:induction false} MovedPoseAllSnoc(m: FloatMath, p: Pose, ds: seq<Direction>, d: Direction, move_speed: real)
    ensures MovedPoseAll(m, p, ds + [d], move_speed)
         == MovedPose(m, MovedPoseAll(m, p, ds, move_speed), d, move_speed)
    decreases |ds|
  {
    if ds == [] {
      assert [] + [d] == [d];
    } else {
      assert (ds + [d])[1..] == ds[1..] + [d];
      MovedPoseAllSnoc(m, MovedPose(m, p, ds[0], move_speed), ds[1..], d, move_speed);
    }
  }

  /** After a Move the camera looks the same way as before, from exactly one
      unit away: look_at - look_from is the old unit front vector. */
  lemma MoveKeepsViewingDirection(m: FloatMath, p: Pose, d: Direction, move_speed: real)
    requires p.look_at != p.look_from
    requires NormalizesAt(m, Sub(p.look_at, p.look_from))
    ensures var r := MovedPose(m, p, d, move_speed);
      Sub(r.look_at, r.look_from) == Front(m, p) &&
      IsUnit(Sub(r.look_at, r.look_from)) &&
      SameDirection(Sub(r.look_at, r.look_from), Sub(p.look_at, p.look_from))
  {
    assert Sub(p.look_at, p.look_from) != Zero;
  }

  /** Upward and Downward move look_from by exactly move_speed along the
      world-up axis. */
  lemma VerticalMovesAreExact(m: FloatMath, p: Pose, move_speed: real)
    ensures MovedPose(m, p, Upward, move_speed).look_from == Add(p.look_from, Vec3(0.0, move_speed, 0.0))
    ensures MovedPose(m, p, Downward, move_speed).look_from == Sub(p.look_from, Vec3(0.0, move_speed, 0.0))
  {
  }

  /** A Move followed by the opposite Move returns look_from to where it
      started (in real arithmetic), and leaves look_at one unit ahead of it
      along the original front vector. */
  lemma OppositeMovesCancel(m: FloatMath, p: Pose, d: Direction, move_speed: real)
    requires p.look_at != p.look_from
    requires NormalizesAt(m, Sub(p.look_at, p.look_from)) && FixesUnitAt(m, Front(m, p))
    ensures var r := MovedPose(m, MovedPose(m, p, d, move_speed), Opposite(d), move_speed);
      r.look_from == p.look_from && r.look_at == Add(p.look_from, Front(m, p))
  {
    var q := MovedPose(m, p, d, move_speed);
    assert Sub(p.look_at, p.look_from) != Zero;
    assert Sub(q.look_at, q.look_from) == Front(m, p);
    assert Front(m, q) == Front(m, p);
  }

  /** A forward step moves look_from along the front vector and keeps
      look_at one front vector ahead of it. */
  lemma ForwardStep(m: FloatMath, p: Pose, move_speed: real)
    ensures var from := Add(p.look_from, Scale(move_speed, Front(m, p)));
      MovedPose(m, p, Forward, move_speed) == Pose(from, Add(from, Front(m, p)))
  {
  }

  /** The default camera looks down -z. */
  lemma DefaultFront(m: FloatMath)
    requires FixesUnitAt(m, Vec3(0.0, 0.0, -1.0))
    ensures Front(m, Pose(DefaultLookFrom, DefaultLookAt)) == Vec3(0.0, 0.0, -1.0)
  {
    assert Sub(DefaultLookAt, DefaultLookFrom) == Vec3(0.0, 0.0, -1.0);
    assert IsUnit(Vec3(0.0, 0.0, -1.0));
  }

  /** So one forward step of the default camera at the default speed takes
      look_from from (0,0,1) to (0,0,0.75) and look_at to (0,0,-0.25). */
  lemma DefaultForwardStep(m: FloatMath)
    requires FixesUnitAt(m, Vec3(0.0, 0.0, -1.0))
    ensures MovedPose(m, Pose(DefaultLookFrom, DefaultLookAt), Forward, DefaultMoveSpeed)
         == Pose(Vec3(0.0, 0.0, 0.75), Vec3(0.0, 0.0, -0.25))
  {
    DefaultFront(m);
    ForwardStep(m, Pose(DefaultLookFrom, DefaultLookAt), DefaultMoveSpeed);
  }

  // ---------------------------------------------------------------- Turn

  /** Yaw and pitch, in degrees. */
  datatype Angles = Angles(yaw: real, pitch: real)

  /** The angles Turn computes from the current front vector: the offsets,
      scaled by the turn speed, are added to the yaw and pitch of the front
      vector, and the pitch is then clamped to [-89, 89]. */
  function TurnAngles(m: FloatMath, front: Vec3, xOffset: real, yOffset: real, turn_speed: real): (r: Angles)
    ensures -MaxPitch <= r.pitch <= MaxPitch
  {
    var yaw := Degrees(m.atan2(front.z, front.x)) + xOffset * turn_speed;
    var pitch := Degrees(m.asin(front.y)) + yOffset * turn_speed;
    Angles(yaw, Clamp(pitch, -MaxPitch, MaxPitch))
  }

  /** The (not yet normalised) front vector of a yaw and pitch. */
  function FrontOfAngles(m: FloatMath, a: Angles): Vec3 {
    var pitchRad := Radians(a.pitch);
    var yawRad := Radians(a.yaw);
    Vec3(m.cos(pitchRad) * m.cos(yawRad), m.sin(pitchRad), m.cos(pitchRad) * m.sin(yawRad))
  }

  /** The pose after Turn(xOffset, yOffset): look_from stays put and look_at
      is one unit away from it along the turned front vector. */
  function TurnedPose(m: FloatMath, p: Pose, xOffset: real, yOffset: real, turn_speed: real): (r: Pose)
    ensures r.look_from == p.look_from
  {
    var angles := TurnAngles(m, Front(m, p), xOffset, yOffset, turn_speed);
    Pose(p.look_from, Add(p.look_from, m.normalize(FrontOfAngles(m, angles))))
  }

  lemma ProductNonZero(a: real, b: real)
    requires a != 0.0 && b != 0.0
    ensures a * b != 0.0
  {
    assert b == (a * b) / a;
  }

  lemma SquareOneNonZero(a: real)
    requires a * a == 1.0
    ensures a != 0.0
  {
  }

  /** A yaw and pitch never give the zero vector, since sin^2 + cos^2 = 1. */
  lemma FrontOfAnglesNonZero(m: FloatMath, a: Angles)
    requires PythagoreanAt(m, Radians(a.pitch)) && PythagoreanAt(m, Radians(a.yaw))
    ensures FrontOfAngles(m, a) != Zero
  {
    var cp, sp := m.cos(Radians(a.pitch)), m.sin(Radians(a.pitch));
    var cy, sy := m.cos(Radians(a.yaw)), m.sin(Radians(a.yaw));
    assert sp * sp + cp * cp == 1.0;
    assert sy * sy + cy * cy == 1.0;
    if sp == 0.0 {
      assert cp * cp == 1.0;
      SquareOneNonZero(cp);
      if cy != 0.0 {
        ProductNonZero(cp, cy);
      } else {
        assert sy * sy == 1.0;
        SquareOneNonZero(sy);
        ProductNonZero(cp, sy);
      }
    }
  }

  /** After a Turn the camera looks from the same point, one unit away from
      its target. */
  lemma TurnGivesUnitFront(m: FloatMath, p: Pose, xOffset: real, yOffset: real, turn_speed: real)
    requires var a := TurnAngles(m, Front(m, p), xOffset, yOffset, turn_speed);
      PythagoreanAt(m, Radians(a.pitch)) && PythagoreanAt(m, Radians(a.yaw)) &&
      NormalizesAt(m, FrontOfAngles(m, a))
    ensures var r := TurnedPose(m, p, xOffset, yOffset, turn_speed);
      r.look_from == p.look_from && IsUnit(Sub(r.look_at, r.look_from))
  {
    var angles := TurnAngles(m, Front(m, p), xOffset, yOffset, turn_speed);
    FrontOfAnglesNonZero(m, angles);
  }

  // -------------------------------------------------------------- Update

  /** The fields Update derives. */
  datatype Viewport = Viewport(camera_center: Vec3, pixel_delta_u: Vec3, pixel_delta_v: Vec3, pixel00_loc: Vec3)

  /** glm's vector-by-scalar division. */
  function DivScalar(v: Vec3, s: real): Vec3 {
    Scale(Quot(1.0, s), v)
  }

  /** The intermediate quantities of Update. */
  datatype ViewportFrame = ViewportFrame(
    focal_length: real, viewport_height: real, viewport_width: real,
    w: Vec3, u: Vec3, v: Vec3, viewport_u: Vec3, viewport_v: Vec3)

  function FrameOf(m: FloatMath, look_from: Vec3, look_at: Vec3, vfov: real, width: real, height: real): ViewportFrame {
    var focal_length := m.length(Sub(look_from, look_at));
    var h := m.tan(Radians(vfov) / 2.0);
    var viewport_height := 2.0 * h * focal_length;
    var viewport_width := viewport_height * Quot(width, height);
    var w := m.normalize(Sub(look_from, look_at));
    var u := m.normalize(Cross(WorldUp, w));
    var v := Cross(w, u);
    ViewportFrame(focal_length, viewport_height, viewport_width, w, u, v,
      Scale(viewport_width, u), Scale(viewport_height, v))
  }

  /** The upper-left corner of the viewport. */
  function UpperLeft(look_from: Vec3, f: ViewportFrame): Vec3 {
    Sub(Sub(Sub(look_from, Scale(f.focal_length, f.w)), DivScalar(f.viewport_u, 2.0)), DivScalar(f.viewport_v, 2.0))
  }

  /** What Update derives from look_from, look_at, vfov and the window size. */
  function ViewportOf(m: FloatMath, look_from: Vec3, look_at: Vec3, vfov: real, width: real, height: real): Viewport {
    var f := FrameOf(m, look_from, look_at, vfov, width, height);
    var du := DivScalar(f.viewport_u, width);
    var dv := DivScalar(f.viewport_v, height);
    Viewport(look_from, du, dv, Add(UpperLeft(look_from, f), Scale(0.5, Add(du, dv))))
  }

  /** The camera basis: u = normalize(vup x w) and v = w x u are pairwise
      orthogonal and orthogonal to w, provided vup x w is not zero. */
  lemma BasisOrthogonal(m: FloatMath, w: Vec3)
    requires Cross(WorldUp, w) != Zero
    requires NormalizesAt(m, Cross(WorldUp, w))
    ensures var u := m.normalize(Cross(WorldUp, w));
      Dot(u, w) == 0.0 && Dot(Cross(w, u), w) == 0.0 && Dot(u, Cross(w, u)) == 0.0
  {
    var c := Cross(WorldUp, w);
    var u := m.normalize(c);
    CrossOrthogonal(WorldUp, w);
    SameDirectionOrthogonal(u, c, w);
    CrossOrthogonal(w, u);
    assert Dot(u, Cross(w, u)) == Dot(Cross(w, u), u);
  }

  lemma ScaleScale(a: real, b: real, u: Vec3)
    ensures Scale(a, Scale(b, u)) == Scale(a * b, u)
  {
    assert a * (b * u.x) == (a * b) * u.x;
    assert a * (b * u.y) == (a * b) * u.y;
    assert a * (b * u.z) == (a * b) * u.z;
  }

  /** Scaling preserves orthogonality. */
  lemma ScaledOrthogonal(a: real, u: Vec3, b: real, v: Vec3, w: Vec3)
    requires Dot(u, w) == 0.0 && Dot(v, w) == 0.0 && Dot(u, v) == 0.0
    ensures Dot(Scale(a, u), w) == 0.0 && Dot(Scale(b, v), w) == 0.0
    ensures Dot(Scale(a, u), Scale(b, v)) == 0.0
  {
    DotScaleLeft(a, u, w);
    DotScaleLeft(b, v, w);
    DotScaleBoth(a, u, b, v);
  }

  /** Dividing the orthogonal viewport edges by the window size keeps them
      orthogonal to each other and to w. */
  lemma PixelDeltasOrthogonal(m: FloatMath, f: ViewportFrame, width: real, height: real)
    requires f.u == m.normalize(Cross(WorldUp, f.w)) && f.v == Cross(f.w, f.u)
    requires f.viewport_u == Scale(f.viewport_width, f.u) && f.viewport_v == Scale(f.viewport_height, f.v)
    requires Cross(WorldUp, f.w) != Zero
    requires NormalizesAt(m, Cross(WorldUp, f.w))
    ensures Dot(DivScalar(f.viewport_u, width), f.w) == 0.0
    ensures Dot(DivScalar(f.viewport_v, height), f.w) == 0.0
    ensures Dot(DivScalar(f.viewport_u, width), DivScalar(f.viewport_v, height)) == 0.0
  {
    BasisOrthogonal(m, f.w);
    var cu, cv := Quot(1.0, width), Quot(1.0, height);
    ScaleScale(cu, f.viewport_width, f.u);
    ScaleScale(cv, f.viewport_height, f.v);
    ScaledOrthogonal(cu * f.viewport_width, f.u, cv * f.viewport_height, f.v, f.w);
  }

  /** The per-pixel steps are orthogonal to each other and to the viewing
      axis w, as long as the camera does not look straight up or down (where
      vup x w vanishes). */
  lemma ViewportBasisOrthogonal(m: FloatMath, look_from: Vec3, look_at: Vec3, vfov: real, width: real, height: real)
    requires Cross(WorldUp, m.normalize(Sub(look_from, look_at))) != Zero
    requires NormalizesAt(m, Cross(WorldUp, m.normalize(Sub(look_from, look_at))))
    ensures var f := FrameOf(m, look_from, look_at, vfov, width, height);
      var vp := ViewportOf(m, look_from, look_at, vfov, width, height);
      Dot(vp.pixel_delta_u, f.w) == 0.0 &&
      Dot(vp.pixel_delta_v, f.w) == 0.0 &&
      Dot(vp.pixel_delta_u, vp.pixel_delta_v) == 0.0
  {
    PixelDeltasOrthogonal(m, FrameOf(m, look_from, look_at, vfov, width, height), width, height);
  }

  // -------------------------------------------------------------- Camera

  class Camera {
    var window_width: real
    var window_height: real
    const vup: Vec3 := WorldUp
    var zoom_speed: real
    var turn_speed: real
    var move_speed: real
    var look_from: Vec3
    var look_at: Vec3
    var vfov: real

    var camera_center: Vec3
    var pixel_delta_u: Vec3
    var pixel_delta_v: Vec3
    var pixel00_loc: Vec3

    /** The floating-point library the camera's code calls into. */
    const math: FloatMath

    function CurrentPose(): Pose
      reads this
    {
      Pose(look_from, look_at)
    }

    function Derived(): Viewport
      reads this
    {
      Viewport(camera_center, pixel_delta_u, pixel_delta_v, pixel00_loc)
    }

    /** The derived fields agree with the inputs as of now. Move, UpdateWindow
        and Update establish this; Zoom, Turn and Reset change inputs without
        recomputing, so after them it may not hold. */
    ghost predicate Consistent()
      reads this
    {
      Derived() == ViewportOf(math, look_from, look_at, vfov, window_width, window_height)
    }

    constructor (math: FloatMath,
                 width: real := DefaultWidth,
                 height: real := DefaultHeight,
                 zoom_speed: real := DefaultZoomSpeed,
                 turn_speed: real := DefaultTurnSpeed,
                 move_speed: real := DefaultMoveSpeed,
                 vfov: real := DefaultVfov,
                 look_from: Vec3 := DefaultLookFrom,
                 look_at: Vec3 := DefaultLookAt)
      ensures this.math == math
      ensures window_width == width && window_height == height
      ensures this.zoom_speed == zoom_speed && this.turn_speed == turn_speed && this.move_speed == move_speed
      ensures this.vfov == vfov && this.look_from == look_from && this.look_at == look_at
      ensures Consistent()
    {
      this.math := math;
      window_width, window_height := width, height;
      this.vfov := vfov;
      this.zoom_speed, this.turn_speed, this.move_speed := zoom_speed, turn_speed, move_speed;
      this.look_from, this.look_at := look_from, look_at;
      new;
      Update();
    }

    /** Recomputes the viewport basis from the current inputs. */
    method Update()
      modifies this`camera_center, this`pixel_delta_u, this`pixel_delta_v, this`pixel00_loc
      ensures Consistent()
    {
      var center := look_from;

      var focal_length := math.length(Sub(look_from, look_at));
      var theta := Radians(vfov);
      var h := math.tan(theta / 2.0);
      var viewport_height := 2.0 * h * focal_length;
      var viewport_width := viewport_height * Quot(window_width, window_height);

      var w := math.normalize(Sub(look_from, look_at));
      var u := math.normalize(Cross(vup, w));
      var v := Cross(w, u);

      var viewport_u := Scale(viewport_width, u);
      var viewport_v := Scale(viewport_height, v);

      var delta_u := DivScalar(viewport_u, window_width);
      var delta_v := DivScalar(viewport_v, window_height);

      var viewport_upper_left := Sub(Sub(Sub(center, Scale(focal_length, w)), DivScalar(viewport_u, 2.0)), DivScalar(viewport_v, 2.0));
      ghost var f := ViewportFrame(focal_length, viewport_height, viewport_width, w, u, v, viewport_u, viewport_v);
      assert f == FrameOf(math, look_from, look_at, vfov, window_width, window_height);

      camera_center, pixel_delta_u, pixel_delta_v := center, delta_u, delta_v;
      pixel00_loc := Add(viewport_upper_left, Scale(0.5, Add(pixel_delta_u, pixel_delta_v)));
    }

    /** Stores the (possibly resolution-scaled) window size and recomputes. */
    method UpdateWindow(width: real, height: real)
      modifies this`window_width, this`window_height, this`camera_center, this`pixel_delta_u, this`pixel_delta_v, this`pixel00_loc
      ensures window_width == width && window_height == height
      ensures Consistent()
    {
      window_width := width;
      window_height := height;
      Update();
    }

    method Zoom(amount: real)
      modifies this`vfov
      ensures vfov == ZoomedFov(old(vfov), amount, zoom_speed)
    {
      vfov := vfov - amount * zoom_speed;
      vfov := Clamp(vfov, MinVfov, MaxVfov);
    }

    method Move(d: Direction)
      modifies this`look_from, this`look_at, this`camera_center, this`pixel_delta_u, this`pixel_delta_v, this`pixel00_loc
      ensures CurrentPose() == MovedPose(math, old(CurrentPose()), d, move_speed)
      ensures Consistent()
    {
      var cameraFront := math.normalize(Sub(look_at, look_from));
      var right := math.normalize(Cross(cameraFront, vup));

      match d {
        case Forward => look_from := Add(look_from, Scale(move_speed, cameraFront));
        case Backward => look_from := Sub(look_from, Scale(move_speed, cameraFront));
        case Left => look_from := Sub(look_from, Scale(move_speed, right));
        case Right => look_from := Add(look_from, Scale(move_speed, right));
        case Upward => look_from := Add(look_from, Scale(move_speed, vup));
        case Downward => look_from := Sub(look_from, Scale(move_speed, vup));
      }
      look_at := Add(look_from, cameraFront);
      Update();
    }

    method Turn(xOffset: real, yOffset: real)
      modifies this`look_at
      ensures CurrentPose() == TurnedPose(math, old(CurrentPose()), xOffset, yOffset, turn_speed)
    {
      var x := xOffset * turn_speed;
      var y := yOffset * turn_speed;

      var cameraFront := math.normalize(Sub(look_at, look_from));
      var yaw := Degrees(math.atan2(cameraFront.z, cameraFront.x));
      yaw := yaw + x;
      var pitch := Degrees(math.asin(cameraFront.y));
      pitch := pitch + y;
      pitch := Clamp(pitch, -MaxPitch, MaxPitch);

      var pitchRad := Radians(pitch);
      var yawRad := Radians(yaw);
      var newFront := Vec3(math.cos(pitchRad) * math.cos(yawRad), math.sin(pitchRad), math.cos(pitchRad) * math.sin(yawRad));
      assert A: TurnAngles(math, cameraFront, xOffset, yOffset, turn_speed) == Angles(yaw, pitch);
      assert B: FrontOfAngles(math, Angles(yaw, pitch)) == newFront;
      look_at := Add(look_from, math.normalize(newFront));
    }

    method Reset()
      modifies this`look_at, this`look_from, this`vfov
      ensures look_at == DefaultLookAt && look_from == DefaultLookFrom && vfov == DefaultVfov
    {
      look_at := Vec3(0.0, 0.0, 0.0);
      look_from := Vec3(0.0, 0.0, 1.0);
      vfov := 90.0;
    }
  }
}
