/** The `lights` copy of the camera. Its header defines CUSTOM_LOOK_AT_MATRIX, so its view matrix is
    the hand-built product of a rotation and a translation rather than a glm::lookAt call, and its
    keyInput takes the elapsed time as a parameter that defaults to 1. */
module LightsCamera {
  import opened Vectors
  import opened Glm
  import opened CameraSpec

  /** The camera axes of the hand-built view matrix, in eye space terms. */
  datatype Axes = Axes(x: Vec3, y: Vec3, z: Vec3)

  /** zAxis points backwards from the look direction; xAxis is built from the normalized world up and
      the new zAxis; yAxis from the new zAxis and xAxis. */
  function ViewAxes(m: GlmMath, front: Vec3, worldUp: Vec3): Axes {
    var z := Normalize(m, Neg(front));
    var x := Normalize(m, Cross(Normalize(m, worldUp), z));
    var y := Normalize(m, Cross(z, x));
    Axes(x, y, z)
  }

  /** The three view axes are pairwise orthogonal for every front, world up and inverse square root. */
  lemma ViewAxesOrthogonal(m: GlmMath, front: Vec3, worldUp: Vec3)
    requires NormalizeScales(m)
    ensures var a := ViewAxes(m, front, worldUp);
      Dot(a.x, a.z) == 0.0 && Dot(a.y, a.z) == 0.0 && Dot(a.y, a.x) == 0.0
  {
    var a := ViewAxes(m, front, worldUp);
    NormalizedCrossOrthogonal(m, Normalize(m, worldUp), a.z);
    NormalizedCrossOrthogonal(m, a.z, a.x);
  }

  /** The standard look-at form: the upper 3x3 block has the axes as its rows, the last column holds
      minus each axis's projection of the eye, and the bottom row is (0, 0, 0, 1). Columns are listed
      in glm's column-major order. */
  function ViewFromAxes(eye: Vec3, a: Axes): Mat4 {
    Mat4(Vec4(a.x.x, a.y.x, a.z.x, 0.0),
         Vec4(a.x.y, a.y.y, a.z.y, 0.0),
         Vec4(a.x.z, a.y.z, a.z.z, 0.0),
         Vec4(-Dot(a.x, eye), -Dot(a.y, eye), -Dot(a.z, eye), 1.0))
  }

  /** The rotation part: the identity with the axes written into the rows of its upper 3x3 block. */
  function Rotation(a: Axes): Mat4 {
    Mat4(Vec4(a.x.x, a.y.x, a.z.x, 0.0),
         Vec4(a.x.y, a.y.y, a.z.y, 0.0),
         Vec4(a.x.z, a.y.z, a.z.z, 0.0),
         Vec4(0.0, 0.0, 0.0, 1.0))
  }

  /** The translation part: the identity with minus the eye in its last column. */
  function Translation(eye: Vec3): Mat4 {
    Mat4(Vec4(1.0, 0.0, 0.0, 0.0),
         Vec4(0.0, 1.0, 0.0, 0.0),
         Vec4(0.0, 0.0, 1.0, 0.0),
         Vec4(-eye.x, -eye.y, -eye.z, 1.0))
  }

  /** Rotating after translating by minus the eye is the look-at form. */
  lemma RotationTimesTranslation(eye: Vec3, a: Axes)
    ensures MatMul(Rotation(a), Translation(eye)) == ViewFromAxes(eye, a)
  {
    var r, t, v := Rotation(a), Translation(eye), ViewFromAxes(eye, a);
    RotationOfUnit(a);
    RotationOfTranslationColumn(eye, a);
    assert MatMul(r, t) == Mat4(MatVec(r, t.c0), MatVec(r, t.c1), MatVec(r, t.c2), MatVec(r, t.c3));
  }

  lemma RotationOfUnit(a: Axes)
    ensures MatVec(Rotation(a), Vec4(1.0, 0.0, 0.0, 0.0)) == Rotation(a).c0
    ensures MatVec(Rotation(a), Vec4(0.0, 1.0, 0.0, 0.0)) == Rotation(a).c1
    ensures MatVec(Rotation(a), Vec4(0.0, 0.0, 1.0, 0.0)) == Rotation(a).c2
  {
  }

  lemma RotationOfTranslationColumn(eye: Vec3, a: Axes)
    ensures MatVec(Rotation(a), Vec4(-eye.x, -eye.y, -eye.z, 1.0))
         == Vec4(-Dot(a.x, eye), -Dot(a.y, eye), -Dot(a.z, eye), 1.0)
  {
    var c := MatVec(Rotation(a), Vec4(-eye.x, -eye.y, -eye.z, 1.0));
    assert c.x == -(a.x.x * eye.x + a.x.y * eye.y + a.x.z * eye.z);
    assert c.y == -(a.y.x * eye.x + a.y.y * eye.y + a.y.z * eye.z);
    assert c.z == -(a.z.x * eye.x + a.z.y * eye.y + a.z.z * eye.z);
  }

  /** A world point goes to its offset from the eye expressed along the three axes. */
  lemma ViewGivesEyeCoordinates(eye: Vec3, a: Axes, p: Vec3)
    ensures MatVec(ViewFromAxes(eye, a), Vec4(p.x, p.y, p.z, 1.0))
         == Vec4(Dot(a.x, Sub(p, eye)), Dot(a.y, Sub(p, eye)), Dot(a.z, Sub(p, eye)), 1.0)
  {
    OffsetAlong(a.x, p, eye);
    OffsetAlong(a.y, p, eye);
    OffsetAlong(a.z, p, eye);
  }

  /** One row of the look-at form applied to a point: the point's offset from the eye along `u`. */
  lemma OffsetAlong(u: Vec3, p: Vec3, eye: Vec3)
    ensures u.x * p.x + u.y * p.y + u.z * p.z + -Dot(u, eye) * 1.0 == Dot(u, Sub(p, eye))
  {
    calc {
      Dot(u, Sub(p, eye));
      u.x * (p.x - eye.x) + u.y * (p.y - eye.y) + u.z * (p.z - eye.z);
      u.x * p.x + u.y * p.y + u.z * p.z - (u.x * eye.x + u.y * eye.y + u.z * eye.z);
    }
  }

  /** The camera's own position is the origin of eye space. */
  lemma ViewMapsEyeToOrigin(eye: Vec3, a: Axes)
    ensures MatVec(ViewFromAxes(eye, a), Vec4(eye.x, eye.y, eye.z, 1.0)) == Vec4(0.0, 0.0, 0.0, 1.0)
  {
    ViewGivesEyeCoordinates(eye, a, eye);
    assert Sub(eye, eye) == Vec3(0.0, 0.0, 0.0);
  }

  class Camera {
    var position: Vec3
    var front: Vec3
    var up: Vec3
    var right: Vec3
    var worldUp: Vec3

    // Euler angles, in degrees
    var yaw: real
    var pitch: real

    var movementSpeed: real
    var mouseSensitivity: real
    var fov: real

    /** The glm functions this camera is computed with. */
    const math: GlmMath

    /** The values of the fields. */
    ghost function State(): CameraState
      reads this
    {
      CameraState(position, front, up, right, worldUp, yaw, pitch, movementSpeed, mouseSensitivity, fov)
    }

    /** fov inside zoom's range and a basis that matches the angles: true of every new camera and kept
        by every method. */
    ghost predicate Valid()
      reads this
    {
      Invariant(math, State())
    }

    constructor (math: GlmMath, position: Vec3 := Vec3(0.0, 1.0, 3.0), up: Vec3 := Vec3(0.0, 1.0, 0.0),
                 yaw: real := DEFAULT_YAW, pitch: real := DEFAULT_PITCH)
      ensures this.math == math
      ensures State() == Initial(math, position, yaw, pitch)
      ensures Valid()
    {
      this.math := math;
      front := Vec3(0.0, 0.0, -1.0);
      worldUp := Vec3(0.0, 1.0, 0.0);
      movementSpeed := DEFAULT_MOVEMENT_SPEED;
      mouseSensitivity := DEFAULT_MOUSE_SENSITIVITY;
      fov := DEFAULT_FOV;
      this.position := position;
      this.up := up;
      this.yaw := yaw;
      this.pitch := pitch;
      new;
      ghost var unbased := State();
      UpdateVectors();
      assert Rebased(math, unbased) == Initial(math, position, yaw, pitch);
      InitialInvariants(math, position, yaw, pitch);
    }

    /** The hand-built view matrix `rotation * translation`. */
    method GetViewMatrix() returns (view: Mat4)
      ensures view == ViewFromAxes(position, ViewAxes(math, front, worldUp))
    {
      var zAxis := Normalize(math, Neg(front));
      var xAxis := Normalize(math, Cross(Normalize(math, worldUp), zAxis));
      var yAxis := Normalize(math, Cross(zAxis, xAxis));

      var translation := Identity();
      translation := translation.(c3 := translation.c3.(x := -position.x));
      translation := translation.(c3 := translation.c3.(y := -position.y));
      translation := translation.(c3 := translation.c3.(z := -position.z));
      var rotation := Identity();
      rotation := rotation.(c0 := rotation.c0.(x := xAxis.x));
      rotation := rotation.(c1 := rotation.c1.(x := xAxis.y));
      rotation := rotation.(c2 := rotation.c2.(x := xAxis.z));
      rotation := rotation.(c0 := rotation.c0.(y := yAxis.x));
      rotation := rotation.(c1 := rotation.c1.(y := yAxis.y));
      rotation := rotation.(c2 := rotation.c2.(y := yAxis.z));
      rotation := rotation.(c0 := rotation.c0.(z := zAxis.x));
      rotation := rotation.(c1 := rotation.c1.(z := zAxis.y));
      rotation := rotation.(c2 := rotation.c2.(z := zAxis.z));

      assert translation == Translation(position);
      assert rotation == Rotation(Axes(xAxis, yAxis, zAxis));
      view := MatMul(rotation, translation);
      RotationTimesTranslation(position, Axes(xAxis, yAxis, zAxis));
    }

    /** keyInput: one step of movement for `deltaTime` seconds, or RESET. */
    method KeyInput(command: Command, deltaTime: real := 1.0)
      modifies this
      ensures State() == AfterKey(math, old(State()), command, deltaTime)
      ensures old(Valid()) ==> Valid()
    {
      var speed := movementSpeed * deltaTime;
      if command == FORWARD {
        position := Add(position, Scale(speed, front));
        assert position == AfterMove(old(State()), command, deltaTime).position;
      }
      if command == BACKWARD {
        position := Sub(position, Scale(speed, front));
        assert position == AfterMove(old(State()), command, deltaTime).position;
      }
      if command == LEFT {
        position := Sub(position, Scale(speed, right));
        assert position == AfterMove(old(State()), command, deltaTime).position;
      }
      if command == RIGHT {
        position := Add(position, Scale(speed, right));
        assert position == AfterMove(old(State()), command, deltaTime).position;
      }
      if command == UP {
        position := Add(position, Scale(speed, up));
        assert position == AfterMove(old(State()), command, deltaTime).position;
      }
      if command == DOWN {
        position := Sub(position, Scale(speed, up));
        assert position == AfterMove(old(State()), command, deltaTime).position;
      }
      if command == RESET {
        ResetPose();
      }
      if old(Valid()) {
        KeyInputKeepsInvariant(math, old(State()), command, deltaTime);
      }
    }

    /** The body of keyInput's RESET branch, statement by statement. The `right` it computes from the
        old `front` and the reset `up` is overwritten by UpdateVectors, so only the angles and the
        position decide the result. */
    method ResetPose()
      modifies this
      ensures State() == Reset(math, old(State()))
    {
      position := Vec3(0.0, 1.0, 3.0);
      up := Vec3(0.0, 1.0, 0.0);
      right := Normalize(math, Cross(front, up));
      front := Vec3(0.0, 0.0, -1.0);
      yaw := DEFAULT_YAW;
      pitch := DEFAULT_PITCH;
      ghost var posed := State();
      UpdateVectors();
      assert State() == Reset(math, old(State())) by {
        assert posed.(front := old(front), right := old(right), up := old(up)) == DefaultPose(old(State()));
        RebasedIgnoresBasis(math, posed, DefaultPose(old(State())));
      }
    }

    method MouseInput(xOffset: real, yOffset: real)
      modifies this
      ensures State() == AfterMouse(math, old(State()), xOffset, yOffset)
      ensures PitchInRange(State()) && BasisConsistent(math, State())
      ensures old(Valid()) ==> Valid()
    {
      var x := xOffset * mouseSensitivity;
      var y := yOffset * mouseSensitivity;

      yaw := yaw + x;
      pitch := pitch + y;

      if pitch > 89.0 {
        pitch := 89.0;
      }
      if pitch < -89.0 {
        pitch := -89.0;
      }
      assert State() == Turned(old(State()), xOffset, yOffset);

      UpdateVectors();
    }

    method Zoom(yOffset: real)
      modifies this`fov
      ensures State() == AfterZoom(old(State()), yOffset)
      ensures FovInRange(State())
      ensures old(Valid()) ==> Valid()
    {
      fov := fov - yOffset;

      if fov < 1.0 {
        fov := 1.0;
      }
      if fov > 45.0 {
        fov := 45.0;
      }
    }

    /** Rebuilds the basis in its fixed order: front from the angles, then right from the NEW front,
        then up from the new right and front. */
    method UpdateVectors()
      modifies this`front, this`right, this`up
      ensures front == FrontOf(math, yaw, pitch)
      ensures right == Normalize(math, Cross(front, worldUp))
      ensures up == Normalize(math, Cross(right, front))
      ensures State() == Rebased(math, old(State()))
    {
      front := Vec3(Cos(math, Radians(math, yaw)) * Cos(math, Radians(math, pitch)),
                    Sin(math, Radians(math, pitch)),
                    Sin(math, Radians(math, yaw)) * Cos(math, Radians(math, pitch)));
      assert front == LookDirection(math, yaw, pitch);
      front := Normalize(math, front);
      right := Normalize(math, Cross(front, worldUp));
      up := Normalize(math, Cross(right, front));
    }
  }
}
