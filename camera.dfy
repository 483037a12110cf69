/**
 * The free-fly camera (CustomCamera) and the three input systems of
 * CameraPlugin: WASD movement, mouse look and scroll zoom.
 */
module Camera {
  import opened Glam

  /** Units per second moved while a movement key is held. */
  const MOVE_SPEED: real := 2.5
  /** Multiplier applied to the mouse delta (in degrees) by the look system. */
  const LOOK_SENSITIVITY: real := 2.0
  /** Multiplier applied to the wheel delta by the zoom system. */
  const ZOOM_SENSITIVITY: real := 100.0
  /** The field-of-view range, in degrees, that zoom keeps. */
  const MIN_FOV: real := 1.0
  const MAX_FOV: real := 45.0

  /** The eight fields of a CustomCamera, as one value (what `clone` copies). */
  datatype CameraState = CameraState(
    position: Vec3,
    yaw: real,
    pitch: real,
    up: Vec3,
    fov: real,
    aspectRatio: real,
    near: real,
    far: real)

  datatype KeyCode = W | A | S | D | Other(code: nat)

  datatype MouseMotion = MouseMotion(delta: Vec2)

  /** A scroll event; the unit (lines or pixels) is not looked at by the zoom system. */
  datatype MouseWheel = MouseWheel(x: real, y: real)

  // ---------------------------------------------------------------------------
  // Direction and right vectors.
  // ---------------------------------------------------------------------------

  /** The spherical-to-Cartesian vector that get_direction normalises. */
  function RawDirection(m: MathEnv, yaw: real, pitch: real): Vec3 {
    Vec3(m.cos(yaw) * m.cos(pitch), m.sin(pitch), m.sin(yaw) * m.cos(pitch))
  }

  /** Before normalising, the direction already has length 1. */
  lemma RawDirectionIsUnit(m: MathEnv, yaw: real, pitch: real)
    requires Lawful(m)
    ensures LengthSquared(RawDirection(m, yaw, pitch)) == 1.0
  {
    var cy, sy, cp, sp := m.cos(yaw), m.sin(yaw), m.cos(pitch), m.sin(pitch);
    assert cy * cy + sy * sy == 1.0;
    assert cp * cp + sp * sp == 1.0;
    assert (cy * cp) * (cy * cp) + sp * sp + (sy * cp) * (sy * cp)
        == (cy * cy + sy * sy) * (cp * cp) + sp * sp;
  }

  /** `CustomCamera::get_direction` */
  function Direction(m: MathEnv, yaw: real, pitch: real): Vec3 {
    Normalize(m, RawDirection(m, yaw, pitch))
  }

  /** The normalisation in get_direction changes nothing, and the direction is a unit vector. */
  lemma DirectionIsUnit(m: MathEnv, yaw: real, pitch: real)
    requires Lawful(m)
    ensures Direction(m, yaw, pitch) == RawDirection(m, yaw, pitch)
    ensures LengthSquared(Direction(m, yaw, pitch)) == 1.0
  {
    RawDirectionIsUnit(m, yaw, pitch);
    NormalizeUnit(m, RawDirection(m, yaw, pitch));
  }

  /** `CustomCamera::right`: the normalised cross product of the direction and up. */
  function RightOf(m: MathEnv, yaw: real, pitch: real, up: Vec3): Vec3 {
    Normalize(m, Cross(Direction(m, yaw, pitch), up))
  }

  /** The right vector is orthogonal to the direction, whatever the math functions are. */
  lemma RightIsOrthogonal(m: MathEnv, yaw: real, pitch: real, up: Vec3)
    ensures Dot(Direction(m, yaw, pitch), RightOf(m, yaw, pitch, up)) == 0.0
  {
    var d := Direction(m, yaw, pitch);
    var c := Cross(d, up);
    CrossOrthogonal(d, up);
    var length := m.sqrt(LengthSquared(c));
    if length != 0.0 {
      ScaledOrthogonal(d, c, 1.0 / length);
    }
  }

  /** Unless the direction is parallel to up, the right vector is a unit vector. */
  lemma RightIsUnit(m: MathEnv, yaw: real, pitch: real, up: Vec3)
    requires Lawful(m)
    requires LengthSquared(Cross(Direction(m, yaw, pitch), up)) != 0.0
    ensures LengthSquared(RightOf(m, yaw, pitch, up)) == 1.0
  {
    NormalizedIsUnit(m, Cross(Direction(m, yaw, pitch), up));
  }

  // ---------------------------------------------------------------------------
  // Zoom.
  // ---------------------------------------------------------------------------

  /** `f32::clamp(min, max)` for min <= max (Rust panics otherwise). */
  function Clamp(x: real, min: real, max: real): real
    requires min <= max
  {
    if x < min then min else if x > max then max else x
  }

  /** The fov that `zoom(amount)` leaves: fov - amount, clamped to [1, 45]. */
  function ZoomedFov(fov: real, amount: real): (r: real)
    ensures MIN_FOV <= r <= MAX_FOV
    ensures MIN_FOV <= fov - amount <= MAX_FOV ==> r == fov - amount
  {
    Clamp(fov - amount, MIN_FOV, MAX_FOV)
  }

  /** Out of range, zoom lands on the nearer bound. */
  lemma ZoomSaturates(fov: real, amount: real)
    ensures fov - amount < MIN_FOV ==> ZoomedFov(fov, amount) == MIN_FOV
    ensures fov - amount > MAX_FOV ==> ZoomedFov(fov, amount) == MAX_FOV
  {
  }

  // ---------------------------------------------------------------------------
  // The three input systems, as functions of their inputs.
  // ---------------------------------------------------------------------------

  /** +1 when only the positive key is held, -1 when only the negative one is, else 0. */
  function Axis(pressed: set<KeyCode>, positive: KeyCode, negative: KeyCode): real {
    (if positive in pressed then 1.0 else 0.0) - (if negative in pressed then 1.0 else 0.0)
  }

  /**
   * The translation of one frame of the move system, stated independently of
   * its if-chain: 2.5 * dt along the direction for W minus S, and along the
   * right vector for D minus A.
   */
  function MoveTranslation(direction: Vec3, right: Vec3, pressed: set<KeyCode>, deltaSeconds: real): Vec3 {
    var speed := MOVE_SPEED * deltaSeconds;
    Add(Scale(direction, speed * Axis(pressed, W, S)), Scale(right, speed * Axis(pressed, D, A)))
  }

  /** `direction * (speed * forward) + right * (speed * strafe)` */
  function Mix(direction: Vec3, right: Vec3, speed: real, forward: real, strafe: real): Vec3 {
    Add(Scale(direction, speed * forward), Scale(right, speed * strafe))
  }

  /** The move translation is the mix of the two key axes at the frame's speed. */
  lemma MoveIsMix(direction: Vec3, right: Vec3, pressed: set<KeyCode>, deltaSeconds: real)
    ensures MoveTranslation(direction, right, pressed, deltaSeconds)
         == Mix(direction, right, MOVE_SPEED * deltaSeconds, Axis(pressed, W, S), Axis(pressed, D, A))
  {
  }

  /** Adding or subtracting one speed-scaled direction or right vector shifts the mix by one unit. */
  lemma MixShift(direction: Vec3, right: Vec3, speed: real, forward: real, strafe: real, df: real, dg: real)
    requires (df == 0.0 && (dg == 1.0 || dg == -1.0)) || (dg == 0.0 && (df == 1.0 || df == -1.0)) || (df == 0.0 && dg == 0.0)
    ensures var t := Mix(direction, right, speed, forward, strafe);
      && (df == 1.0 ==> Add(t, Scale(direction, speed)) == Mix(direction, right, speed, forward + 1.0, strafe))
      && (df == -1.0 ==> Sub(t, Scale(direction, speed)) == Mix(direction, right, speed, forward - 1.0, strafe))
      && (dg == 1.0 ==> Add(t, Scale(right, speed)) == Mix(direction, right, speed, forward, strafe + 1.0))
      && (dg == -1.0 ==> Sub(t, Scale(right, speed)) == Mix(direction, right, speed, forward, strafe - 1.0))
      && (df == 0.0 && dg == 0.0 && forward == 0.0 && strafe == 0.0 ==> t == ZERO)
  {
    assert speed * (forward + 1.0) == speed * forward + speed;
    assert speed * (forward - 1.0) == speed * forward - speed;
    assert speed * (strafe + 1.0) == speed * strafe + speed;
    assert speed * (strafe - 1.0) == speed * strafe - speed;
  }

  lemma NoKeysNoTranslation(direction: Vec3, right: Vec3, pressed: set<KeyCode>, deltaSeconds: real)
    requires W !in pressed && A !in pressed && S !in pressed && D !in pressed
    ensures MoveTranslation(direction, right, pressed, deltaSeconds) == ZERO
  {
  }

  /** Holding W with S, or A with D, is the same as holding neither. */
  lemma OppositeKeysCancel(direction: Vec3, right: Vec3, pressed: set<KeyCode>, deltaSeconds: real)
    ensures MoveTranslation(direction, right, pressed + {W, S}, deltaSeconds)
         == MoveTranslation(direction, right, pressed - {W, S}, deltaSeconds)
    ensures MoveTranslation(direction, right, pressed + {A, D}, deltaSeconds)
         == MoveTranslation(direction, right, pressed - {A, D}, deltaSeconds)
  {
    assert Axis(pressed + {W, S}, W, S) == 0.0 == Axis(pressed - {W, S}, W, S);
    assert Axis(pressed + {W, S}, D, A) == Axis(pressed - {W, S}, D, A);
    assert Axis(pressed + {A, D}, D, A) == 0.0 == Axis(pressed - {A, D}, D, A);
    assert Axis(pressed + {A, D}, W, S) == Axis(pressed - {A, D}, W, S);
  }

  /**
   * W without S, A or D moves 2.5 * dt along the camera's unit direction,
   * whatever other keys are held: the step is frame-time scaled.
   */
  lemma ForwardStep(m: MathEnv, yaw: real, pitch: real, up: Vec3, pressed: set<KeyCode>, deltaSeconds: real)
    requires Lawful(m)
    requires W in pressed && S !in pressed && A !in pressed && D !in pressed
    ensures MoveTranslation(Direction(m, yaw, pitch), RightOf(m, yaw, pitch, up), pressed, deltaSeconds)
         == Scale(RawDirection(m, yaw, pitch), MOVE_SPEED * deltaSeconds)
    ensures LengthSquared(MoveTranslation(Direction(m, yaw, pitch), RightOf(m, yaw, pitch, up), pressed, deltaSeconds))
         == (MOVE_SPEED * deltaSeconds) * (MOVE_SPEED * deltaSeconds)
  {
    DirectionIsUnit(m, yaw, pitch);
    var d, s := RawDirection(m, yaw, pitch), MOVE_SPEED * deltaSeconds;
    assert Axis(pressed, W, S) == 1.0 && Axis(pressed, D, A) == 0.0;
    assert LengthSquared(Scale(d, s)) == LengthSquared(d) * (s * s);
  }

  /** The yaw change of one mouse-motion event. */
  function YawDelta(m: MathEnv, e: MouseMotion, deltaSeconds: real): real {
    ToRadians(m, e.delta.x) * LOOK_SENSITIVITY * deltaSeconds
  }

  /** The pitch change of one mouse-motion event: the mouse y is negated. */
  function PitchDelta(m: MathEnv, e: MouseMotion, deltaSeconds: real): real {
    -ToRadians(m, e.delta.y) * LOOK_SENSITIVITY * deltaSeconds
  }

  function TotalYaw(m: MathEnv, events: seq<MouseMotion>, deltaSeconds: real): real {
    if events == [] then 0.0
    else TotalYaw(m, events[..|events| - 1], deltaSeconds) + YawDelta(m, events[|events| - 1], deltaSeconds)
  }

  function TotalPitch(m: MathEnv, events: seq<MouseMotion>, deltaSeconds: real): real {
    if events == [] then 0.0
    else TotalPitch(m, events[..|events| - 1], deltaSeconds) + PitchDelta(m, events[|events| - 1], deltaSeconds)
  }

  function SumX(events: seq<MouseMotion>): real {
    if events == [] then 0.0 else SumX(events[..|events| - 1]) + events[|events| - 1].delta.x
  }

  function SumY(events: seq<MouseMotion>): real {
    if events == [] then 0.0 else SumY(events[..|events| - 1]) + events[|events| - 1].delta.y
  }

  /**
   * One rotate per event adds up to one rotate by the summed, scaled mouse
   * deltas: yaw follows the mouse x, pitch the negated mouse y.
   */
  lemma LookIsOneSummedRotation(m: MathEnv, events: seq<MouseMotion>, deltaSeconds: real)
    ensures TotalYaw(m, events, deltaSeconds) == ToRadians(m, SumX(events)) * LOOK_SENSITIVITY * deltaSeconds
    ensures TotalPitch(m, events, deltaSeconds) == -ToRadians(m, SumY(events)) * LOOK_SENSITIVITY * deltaSeconds
  {
    YawIsSummed(m, events, deltaSeconds);
    PitchIsSummed(m, events, deltaSeconds);
  }

  lemma {:induction false} YawIsSummed(m: MathEnv, events: seq<MouseMotion>, deltaSeconds: real)
    ensures TotalYaw(m, events, deltaSeconds) == ToRadians(m, SumX(events)) * LOOK_SENSITIVITY * deltaSeconds
  {
    if events != [] {
      var init, last := events[..|events| - 1], events[|events| - 1];
      YawIsSummed(m, init, deltaSeconds);
      ScaledRadians(m, SumX(init), last.delta.x, deltaSeconds);
    }
  }

  lemma {:induction false} PitchIsSummed(m: MathEnv, events: seq<MouseMotion>, deltaSeconds: real)
    ensures TotalPitch(m, events, deltaSeconds) == -ToRadians(m, SumY(events)) * LOOK_SENSITIVITY * deltaSeconds
  {
    if events != [] {
      var init, last := events[..|events| - 1], events[|events| - 1];
      PitchIsSummed(m, init, deltaSeconds);
      ScaledRadians(m, SumY(init), last.delta.y, deltaSeconds);
    }
  }

  /** Scaling two angles in degrees and adding them is scaling their sum. */
  lemma ScaledRadians(m: MathEnv, a: real, b: real, deltaSeconds: real)
    ensures ToRadians(m, a) * LOOK_SENSITIVITY * deltaSeconds + ToRadians(m, b) * LOOK_SENSITIVITY * deltaSeconds
         == ToRadians(m, a + b) * LOOK_SENSITIVITY * deltaSeconds
    ensures -ToRadians(m, a) * LOOK_SENSITIVITY * deltaSeconds + -ToRadians(m, b) * LOOK_SENSITIVITY * deltaSeconds
         == -ToRadians(m, a + b) * LOOK_SENSITIVITY * deltaSeconds
  {
    var k := (m.pi / 180.0) * LOOK_SENSITIVITY * deltaSeconds;
    assert ToRadians(m, a) * LOOK_SENSITIVITY * deltaSeconds == a * k;
    assert ToRadians(m, b) * LOOK_SENSITIVITY * deltaSeconds == b * k;
    assert ToRadians(m, a + b) * LOOK_SENSITIVITY * deltaSeconds == (a + b) * k;
  }

  /** The zoom amount of one wheel event. */
  function ZoomAmount(e: MouseWheel, deltaSeconds: real): real {
    e.y * ZOOM_SENSITIVITY * deltaSeconds
  }

  /** The fov after zooming once per wheel event, in order. */
  function ZoomAll(fov: real, events: seq<MouseWheel>, deltaSeconds: real): real {
    if events == [] then fov
    else ZoomedFov(ZoomAll(fov, events[..|events| - 1], deltaSeconds), ZoomAmount(events[|events| - 1], deltaSeconds))
  }

  /** A frame with at least one wheel event ends inside [1, 45]; a frame that starts there stays there. */
  lemma ZoomAllInRange(fov: real, events: seq<MouseWheel>, deltaSeconds: real)
    requires events != [] || MIN_FOV <= fov <= MAX_FOV
    ensures MIN_FOV <= ZoomAll(fov, events, deltaSeconds) <= MAX_FOV
  {
  }

  // ---------------------------------------------------------------------------
  // The camera resource.
  // ---------------------------------------------------------------------------

  class CustomCamera {
    var position: Vec3
    var yaw: real
    var pitch: real
    var up: Vec3
    var fov: real
    var aspectRatio: real
    var near: real
    var far: real

    function State(): CameraState
      reads this
    {
      CameraState(position, yaw, pitch, up, fov, aspectRatio, near, far)
    }

    /** A camera built from a struct literal. */
    constructor FromState(s: CameraState)
      ensures State() == s
    {
      position, yaw, pitch, up := s.position, s.yaw, s.pitch, s.up;
      fov, aspectRatio, near, far := s.fov, s.aspectRatio, s.near, s.far;
    }

    /** `get_view`: glam's right-handed look-at from the position towards position + direction. */
    function GetView(m: MathEnv): Mat4
      reads this
    {
      m.lookAtRh(position, Add(position, Direction(m, yaw, pitch)), up)
    }

    /** `get_proj`: glam's right-handed perspective, with the fov turned into radians. */
    function GetProj(m: MathEnv): Mat4
      reads this
    {
      m.perspectiveRh(ToRadians(m, fov), aspectRatio, near, far)
    }

    function GetDirection(m: MathEnv): Vec3
      reads this
    {
      Direction(m, yaw, pitch)
    }

    function Right(m: MathEnv): Vec3
      reads this
    {
      RightOf(m, yaw, pitch, up)
    }

    /** Adds to yaw and pitch, without clamping either; nothing else changes. */
    method Rotate(deltaYaw: real, deltaPitch: real)
      modifies this
      ensures State() == old(State()).(yaw := old(yaw) + deltaYaw, pitch := old(pitch) + deltaPitch)
    {
      yaw := yaw + deltaYaw;
      pitch := pitch + deltaPitch;
    }

    /** Moves the position by the translation; nothing else changes. */
    method Translate(translation: Vec3)
      modifies this
      ensures State() == old(State()).(position := Add(old(position), translation))
    {
      position := Add(position, translation);
    }

    /** Narrows the fov by amount and clamps it into [1, 45]; nothing else changes. */
    method Zoom(amount: real)
      modifies this
      ensures State() == old(State()).(fov := ZoomedFov(old(fov), amount))
      ensures MIN_FOV <= fov <= MAX_FOV
    {
      fov := fov - amount;
      fov := Clamp(fov, MIN_FOV, MAX_FOV);
    }

    /** `camera.clone()` written into this camera. */
    method CopyFrom(other: CustomCamera)
      requires other != this
      modifies this
      ensures State() == other.State()
    {
      position, yaw, pitch, up := other.position, other.yaw, other.pitch, other.up;
      fov, aspectRatio, near, far := other.fov, other.aspectRatio, other.near, other.far;
    }

    /** `CameraPlugin::camera_move_system`: one translate by the WASD translation of this frame. */
    method CameraMoveSystem(m: MathEnv, pressed: set<KeyCode>, deltaSeconds: real)
      modifies this
      ensures State() == old(State()).(position := Add(old(position),
        MoveTranslation(Direction(m, old(yaw), old(pitch)), RightOf(m, old(yaw), old(pitch), old(up)), pressed, deltaSeconds)))
    {
      var cameraSpeed := MOVE_SPEED * deltaSeconds;
      var translation := ZERO;
      var cameraRight := Right(m);
      var direction := GetDirection(m);
      // translation == Mix(direction, cameraRight, cameraSpeed, forward, strafe) throughout
      ghost var forward, strafe := 0.0, 0.0;
      MixShift(direction, cameraRight, cameraSpeed, 0.0, 0.0, 0.0, 0.0);
      assert translation == Mix(direction, cameraRight, cameraSpeed, forward, strafe);

      if W in pressed {
        MixShift(direction, cameraRight, cameraSpeed, forward, strafe, 1.0, 0.0);
        translation := Add(translation, Scale(direction, cameraSpeed));
        forward := forward + 1.0;
      }
      assert translation == Mix(direction, cameraRight, cameraSpeed, forward, strafe);
      if S in pressed {
        MixShift(direction, cameraRight, cameraSpeed, forward, strafe, -1.0, 0.0);
        translation := Sub(translation, Scale(direction, cameraSpeed));
        forward := forward - 1.0;
      }
      assert translation == Mix(direction, cameraRight, cameraSpeed, forward, strafe);
      if A in pressed {
        MixShift(direction, cameraRight, cameraSpeed, forward, strafe, 0.0, -1.0);
        translation := Sub(translation, Scale(cameraRight, cameraSpeed));
        strafe := strafe - 1.0;
      }
      assert translation == Mix(direction, cameraRight, cameraSpeed, forward, strafe);
      if D in pressed {
        MixShift(direction, cameraRight, cameraSpeed, forward, strafe, 0.0, 1.0);
        translation := Add(translation, Scale(cameraRight, cameraSpeed));
        strafe := strafe + 1.0;
      }
      assert translation == Mix(direction, cameraRight, cameraSpeed, forward, strafe);
      assert forward == Axis(pressed, W, S) && strafe == Axis(pressed, D, A);
      MoveIsMix(direction, cameraRight, pressed, deltaSeconds);
      assert direction == Direction(m, old(yaw), old(pitch));
      assert cameraRight == RightOf(m, old(yaw), old(pitch), old(up));
      Translate(translation);
    }

    /** `CameraPlugin::camera_look_system`: one rotate per mouse-motion event. */
    method CameraLookSystem(m: MathEnv, events: seq<MouseMotion>, deltaSeconds: real)
      modifies this
      ensures State() == old(State()).(yaw := old(yaw) + TotalYaw(m, events, deltaSeconds),
                                       pitch := old(pitch) + TotalPitch(m, events, deltaSeconds))
    {
      for i := 0 to |events|
        invariant State() == old(State()).(yaw := old(yaw) + TotalYaw(m, events[..i], deltaSeconds),
                                           pitch := old(pitch) + TotalPitch(m, events[..i], deltaSeconds))
      {
        Rotate(YawDelta(m, events[i], deltaSeconds), PitchDelta(m, events[i], deltaSeconds));
        assert events[..i + 1][..i] == events[..i];
      }
      assert events[..|events|] == events;
    }

    /** `CameraPlugin::camera_zoom_system`: one zoom per wheel event. */
    method CameraZoomSystem(events: seq<MouseWheel>, deltaSeconds: real)
      modifies this
      ensures State() == old(State()).(fov := ZoomAll(old(fov), events, deltaSeconds))
    {
      for i := 0 to |events|
        invariant State() == old(State()).(fov := ZoomAll(old(fov), events[..i], deltaSeconds))
      {
        Zoom(ZoomAmount(events[i], deltaSeconds));
        assert events[..i + 1][..i] == events[..i];
      }
      assert events[..|events|] == events;
    }
  }
}
