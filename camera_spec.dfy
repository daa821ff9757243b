/** What a camera call does, stated on values. Both copies of the Camera class (the `lights` one and the
    `glLight` one) have the same commands, the same default values and the same update rules, so both
    classes are proved against the functions of this module. A `CameraState` holds the values of the
    camera's fields; the glm functions it needs come from a `GlmMath` record. */
module CameraSpec {
  import opened Vectors
  import opened Glm

  /** The seven control commands, in declaration order. */
  datatype Command = FORWARD | BACKWARD | RIGHT | LEFT | UP | DOWN | RESET

  const DEFAULT_YAW: real := -90.0
  const DEFAULT_PITCH: real := -15.0
  const DEFAULT_MOVEMENT_SPEED: real := 2.0
  const DEFAULT_MOUSE_SENSITIVITY: real := 0.1
  const DEFAULT_FOV: real := 45.0

  /** The constructor's default position, also the position RESET returns to. */
  const DEFAULT_POSITION: Vec3 := Vec3(0.0, 1.0, 3.0)
  /** The front vector the constructor's initializer list writes, and RESET writes before recomputing. */
  const DEFAULT_FRONT: Vec3 := Vec3(0.0, 0.0, -1.0)
  /** The fixed world up direction; it is also the constructor's default `up` and RESET's literal up. */
  const WORLD_UP: Vec3 := Vec3(0.0, 1.0, 0.0)

  const MIN_FOV: real := 1.0
  const MAX_FOV: real := 45.0
  const MAX_PITCH: real := 89.0

  datatype CameraState = CameraState(
    position: Vec3,
    front: Vec3,
    up: Vec3,
    right: Vec3,
    worldUp: Vec3,
    yaw: real,
    pitch: real,
    movementSpeed: real,
    mouseSensitivity: real,
    fov: real)

  /** The orientation basis derived from the Euler angles. */
  datatype Frame = Frame(front: Vec3, right: Vec3, up: Vec3)

  /** Saturate `x` to `[lo, hi]`: the value is kept when inside, replaced by the nearer bound otherwise. */
  function Clamp(x: real, lo: real, hi: real): (r: real)
    requires lo <= hi
    ensures lo <= r <= hi
    ensures lo <= x <= hi ==> r == x
    ensures x < lo ==> r == lo
    ensures x > hi ==> r == hi
  {
    if x > hi then hi else if x < lo then lo else x
  }

  /** The look direction of the angles (in degrees), before normalization. */
  function LookDirection(m: GlmMath, yaw: real, pitch: real): Vec3 {
    var y := Radians(m, yaw);
    var p := Radians(m, pitch);
    Vec3(Cos(m, y) * Cos(m, p), Sin(m, p), Sin(m, y) * Cos(m, p))
  }

  function FrontOf(m: GlmMath, yaw: real, pitch: real): Vec3 {
    Normalize(m, LookDirection(m, yaw, pitch))
  }

  /** The basis in its fixed order: `front` from the angles, then `right` from that new `front` and
      the world up, then `up` from that new `right` and `front`. */
  function Basis(m: GlmMath, yaw: real, pitch: real, worldUp: Vec3): Frame {
    var front := FrontOf(m, yaw, pitch);
    var right := Normalize(m, Cross(front, worldUp));
    var up := Normalize(m, Cross(right, front));
    Frame(front, right, up)
  }

  predicate Orthogonal(f: Frame) {
    Dot(f.right, f.front) == 0.0 && Dot(f.up, f.right) == 0.0 && Dot(f.up, f.front) == 0.0
  }

  /** Because `right` is built from the new `front` and `up` from the new `right` and `front`, the
      three vectors are pairwise orthogonal for every angle, every world up and every inverse square
      root, as long as normalize is glm's scaling (lengths are not claimed: they need the square root). */
  lemma BasisOrthogonal(m: GlmMath, yaw: real, pitch: real, worldUp: Vec3)
    requires NormalizeScales(m)
    ensures Orthogonal(Basis(m, yaw, pitch, worldUp))
  {
    var b := Basis(m, yaw, pitch, worldUp);
    NormalizedCrossOrthogonal(m, b.front, worldUp);
    NormalizedCrossOrthogonal(m, b.right, b.front);
  }

  function FrameOf(s: CameraState): Frame {
    Frame(s.front, s.right, s.up)
  }

  /** The basis fields agree with the camera's angles and world up. */
  predicate BasisConsistent(m: GlmMath, s: CameraState) {
    FrameOf(s) == Basis(m, s.yaw, s.pitch, s.worldUp)
  }

  predicate FovInRange(s: CameraState) {
    MIN_FOV <= s.fov <= MAX_FOV
  }

  predicate PitchInRange(s: CameraState) {
    -MAX_PITCH <= s.pitch <= MAX_PITCH
  }

  /** The state with `front`, `right` and `up` recomputed from the angles; nothing else changes. */
  function Rebased(m: GlmMath, s: CameraState): (r: CameraState)
    ensures BasisConsistent(m, r)
    ensures r.(front := s.front, right := s.right, up := s.up) == s
  {
    var b := Basis(m, s.yaw, s.pitch, s.worldUp);
    s.(front := b.front, right := b.right, up := b.up)
  }

  /** The recomputed basis does not depend on the basis fields it overwrites. */
  lemma RebasedIgnoresBasis(m: GlmMath, s: CameraState, t: CameraState)
    requires s.(front := t.front, right := t.right, up := t.up) == t
    ensures Rebased(m, s) == Rebased(m, t)
  {
    assert s.yaw == t.yaw && s.pitch == t.pitch && s.worldUp == t.worldUp;
  }

  /** A newly constructed camera: position and angles as given (pitch not clamped), the fixed world
      up, the default speed, sensitivity and field of view, and the basis derived from the angles.
      The constructor's `up` argument does not occur: it is overwritten before anything reads it. */
  function Initial(m: GlmMath, position: Vec3, yaw: real, pitch: real): CameraState {
    var b := Basis(m, yaw, pitch, WORLD_UP);
    CameraState(position, b.front, b.up, b.right, WORLD_UP, yaw, pitch,
                DEFAULT_MOVEMENT_SPEED, DEFAULT_MOUSE_SENSITIVITY, DEFAULT_FOV)
  }

  predicate IsDirectional(c: Command) {
    c != RESET
  }

  /** The signed basis vector a directional command moves along. */
  function Heading(s: CameraState, c: Command): Vec3
    requires IsDirectional(c)
  {
    match c
    case FORWARD => s.front
    case BACKWARD => Neg(s.front)
    case LEFT => Neg(s.right)
    case RIGHT => s.right
    case UP => s.up
    case DOWN => Neg(s.up)
  }

  /** The command that moves the other way along the same basis vector. */
  function Opposite(c: Command): (r: Command)
    requires IsDirectional(c)
    ensures IsDirectional(r) && r != c
  {
    match c
    case FORWARD => BACKWARD
    case BACKWARD => FORWARD
    case LEFT => RIGHT
    case RIGHT => LEFT
    case UP => DOWN
    case DOWN => UP
  }

  /** The state with the default position and angles and every other field kept. */
  function DefaultPose(s: CameraState): CameraState {
    s.(position := DEFAULT_POSITION, yaw := DEFAULT_YAW, pitch := DEFAULT_PITCH)
  }

  /** RESET's net effect: default position and angles, the basis recomputed from them. */
  function Reset(m: GlmMath, s: CameraState): CameraState {
    Rebased(m, DefaultPose(s))
  }

  /** keyInput: RESET, or one of the six moves. */
  function AfterKey(m: GlmMath, s: CameraState, c: Command, deltaTime: real): CameraState {
    if c == RESET then Reset(m, s) else AfterMove(s, c, deltaTime)
  }

  /** A move: FORWARD and BACKWARD go by `movementSpeed * deltaTime` along plus and minus `front`,
      RIGHT and LEFT along plus and minus `right`, UP and DOWN along plus and minus `up`. */
  function AfterMove(s: CameraState, c: Command, deltaTime: real): CameraState
    requires IsDirectional(c)
  {
    var speed := s.movementSpeed * deltaTime;
    match c
    case FORWARD => s.(position := Add(s.position, Scale(speed, s.front)))
    case BACKWARD => s.(position := Sub(s.position, Scale(speed, s.front)))
    case LEFT => s.(position := Sub(s.position, Scale(speed, s.right)))
    case RIGHT => s.(position := Add(s.position, Scale(speed, s.right)))
    case UP => s.(position := Add(s.position, Scale(speed, s.up)))
    case DOWN => s.(position := Sub(s.position, Scale(speed, s.up)))
  }

  /** mouseInput: offsets scaled by the sensitivity, yaw free, pitch saturated, basis recomputed. */
  function AfterMouse(m: GlmMath, s: CameraState, xOffset: real, yOffset: real): CameraState {
    Rebased(m, Turned(s, xOffset, yOffset))
  }

  /** The angles after a pointer move, before the basis is recomputed. */
  function Turned(s: CameraState, xOffset: real, yOffset: real): CameraState {
    s.(yaw := s.yaw + xOffset * s.mouseSensitivity,
       pitch := Clamp(s.pitch + yOffset * s.mouseSensitivity, -MAX_PITCH, MAX_PITCH))
  }

  /** zoom: the scroll offset is subtracted from the field of view, which is saturated. */
  function AfterZoom(s: CameraState, yOffset: real): CameraState {
    s.(fov := Clamp(s.fov - yOffset, MIN_FOV, MAX_FOV))
  }

  // Properties of the operations.

  lemma OppositeInvolutive(c: Command)
    requires IsDirectional(c)
    ensures Opposite(Opposite(c)) == c
  {
  }

  lemma HeadingOfOpposite(s: CameraState, c: Command)
    requires IsDirectional(c)
    ensures Heading(s, Opposite(c)) == Neg(Heading(s, c))
  {
  }

  /** A new camera starts inside zoom's range with a basis that matches its angles. */
  lemma InitialInvariants(m: GlmMath, position: Vec3, yaw: real, pitch: real)
    ensures FovInRange(Initial(m, position, yaw, pitch))
    ensures BasisConsistent(m, Initial(m, position, yaw, pitch))
    ensures Initial(m, position, yaw, pitch).pitch == pitch
  {
  }

  /** zoom keeps `fov` in [1, 45] whatever the offset and the prior value, subtracts the offset when
      the result stays inside, saturates otherwise, and changes no other field. */
  lemma ZoomSaturates(s: CameraState, yOffset: real)
    ensures FovInRange(AfterZoom(s, yOffset))
    ensures MIN_FOV <= s.fov - yOffset <= MAX_FOV ==> AfterZoom(s, yOffset).fov == s.fov - yOffset
    ensures s.fov - yOffset < MIN_FOV ==> AfterZoom(s, yOffset).fov == MIN_FOV
    ensures s.fov - yOffset > MAX_FOV ==> AfterZoom(s, yOffset).fov == MAX_FOV
    ensures AfterZoom(s, yOffset).(fov := s.fov) == s
  {
  }

  /** mouseInput: yaw grows by the scaled x offset with no bound; pitch grows by the scaled y offset
      and saturates at plus or minus 89, however large the offset; the basis is that of the new angles;
      position, world up, speed, sensitivity and fov do not change. */
  lemma MouseInputEffect(m: GlmMath, s: CameraState, xOffset: real, yOffset: real)
    ensures var r := AfterMouse(m, s, xOffset, yOffset);
      && r.yaw == s.yaw + xOffset * s.mouseSensitivity
      && PitchInRange(r)
      && (-MAX_PITCH <= s.pitch + yOffset * s.mouseSensitivity <= MAX_PITCH ==>
            r.pitch == s.pitch + yOffset * s.mouseSensitivity)
      && (s.pitch + yOffset * s.mouseSensitivity > MAX_PITCH ==> r.pitch == MAX_PITCH)
      && (s.pitch + yOffset * s.mouseSensitivity < -MAX_PITCH ==> r.pitch == -MAX_PITCH)
      && FrameOf(r) == Basis(m, r.yaw, r.pitch, s.worldUp)
      && r.(front := s.front, right := s.right, up := s.up, yaw := s.yaw, pitch := s.pitch) == s
  {
  }

  /** A move displaces `position` by `movementSpeed * deltaTime` times the command's signed basis
      vector and changes nothing else. */
  lemma MoveDisplacement(s: CameraState, c: Command, deltaTime: real)
    requires IsDirectional(c)
    ensures var r := AfterMove(s, c, deltaTime);
      && Sub(r.position, s.position) == Scale(s.movementSpeed * deltaTime, Heading(s, c))
      && r.(position := s.position) == s
  {
  }

  /** A directional command displaces `position` by `movementSpeed * deltaTime` times its signed basis
      vector and changes nothing else: angles, fov and the basis stay. */
  lemma DirectionalKeyMovesOnlyPosition(m: GlmMath, s: CameraState, c: Command, deltaTime: real)
    requires IsDirectional(c)
    ensures var r := AfterKey(m, s, c, deltaTime);
      && Sub(r.position, s.position) == Scale(s.movementSpeed * deltaTime, Heading(s, c))
      && r.(position := s.position) == s
  {
    MoveDisplacement(s, c, deltaTime);
  }

  /** A move followed by the opposite move with the same time step is the identity (over the reals). */
  lemma MoveThenOpposite(s: CameraState, c: Command, deltaTime: real)
    requires IsDirectional(c)
    ensures AfterMove(AfterMove(s, c, deltaTime), Opposite(c), deltaTime) == s
  {
    var speed := s.movementSpeed * deltaTime;
    var t := AfterMove(s, c, deltaTime);
    var u := AfterMove(t, Opposite(c), deltaTime);
    var h := Heading(s, c);
    MoveDisplacement(s, c, deltaTime);
    assert t.movementSpeed == s.movementSpeed && FrameOf(t) == FrameOf(s);
    assert Heading(t, c) == h;
    HeadingOfOpposite(t, c);
    assert Heading(t, Opposite(c)) == Neg(h);
    assert t.movementSpeed * deltaTime == speed;
    MoveDisplacement(t, Opposite(c), deltaTime);
    ScaleNeg(speed, h);
    OppositeDisplacementsCancel(s.position, t.position, u.position, Scale(speed, h));
  }

  /** Since moving does not alter the basis, a directional command followed by its opposite with the
      same time step puts the camera back exactly (over the reals). */
  lemma OppositeKeysCancel(m: GlmMath, s: CameraState, c: Command, deltaTime: real)
    requires IsDirectional(c)
    ensures AfterKey(m, AfterKey(m, s, c, deltaTime), Opposite(c), deltaTime) == s
  {
    MoveThenOpposite(s, c, deltaTime);
  }

  /** RESET: default position, yaw and pitch, the basis of those angles; `deltaTime` plays no part,
      and fov, speed, sensitivity and world up are untouched. */
  lemma ResetEffect(m: GlmMath, s: CameraState, deltaTime: real, otherDeltaTime: real)
    ensures var r := AfterKey(m, s, RESET, deltaTime);
      && r.position == DEFAULT_POSITION
      && r.yaw == DEFAULT_YAW && r.pitch == DEFAULT_PITCH
      && FrameOf(r) == Basis(m, DEFAULT_YAW, DEFAULT_PITCH, s.worldUp)
      && r.fov == s.fov && r.movementSpeed == s.movementSpeed
      && r.mouseSensitivity == s.mouseSensitivity && r.worldUp == s.worldUp
      && r == AfterKey(m, s, RESET, otherDeltaTime)
  {
  }

  /** RESET twice is RESET once, whatever the two time steps. */
  lemma ResetIdempotent(m: GlmMath, s: CameraState, dt1: real, dt2: real)
    ensures AfterKey(m, AfterKey(m, s, RESET, dt1), RESET, dt2) == AfterKey(m, s, RESET, dt1)
  {
  }

  /** fov stays in [1, 45] and the basis stays consistent with the angles under every operation, so
      both hold for the whole life of a camera. Moves and zoom touch neither the angles nor the basis;
      RESET and mouseInput recompute the basis after changing the angles. */
  predicate Invariant(m: GlmMath, s: CameraState) {
    FovInRange(s) && BasisConsistent(m, s)
  }

  lemma KeyInputKeepsInvariant(m: GlmMath, s: CameraState, c: Command, deltaTime: real)
    requires Invariant(m, s)
    ensures Invariant(m, AfterKey(m, s, c, deltaTime))
  {
  }

  lemma MouseInputKeepsInvariant(m: GlmMath, s: CameraState, xOffset: real, yOffset: real)
    requires Invariant(m, s)
    ensures Invariant(m, AfterMouse(m, s, xOffset, yOffset))
  {
  }

  lemma ZoomKeepsInvariant(m: GlmMath, s: CameraState, yOffset: real)
    requires Invariant(m, s)
    ensures Invariant(m, AfterZoom(s, yOffset))
  {
  }

  /** Whenever the basis is consistent with the angles, front, right and up are pairwise orthogonal. */
  lemma ConsistentBasisOrthogonal(m: GlmMath, s: CameraState)
    requires NormalizeScales(m)
    requires BasisConsistent(m, s)
    ensures Orthogonal(FrameOf(s))
  {
    BasisOrthogonal(m, s.yaw, s.pitch, s.worldUp);
  }
}
