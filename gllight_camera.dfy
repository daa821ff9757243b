/** The `glLight` copy of the camera. It has the same state and the same key, mouse and scroll
    handling as the `lights` copy; its keyInput reads the program-wide frame time instead of taking a
    parameter, and its view matrix is a glm::lookAt call. */
module GlLightCamera {
  import opened Vectors
  import opened Glm
  import opened CameraSpec

  class Camera {
    var position: Vec3
    var front: Vec3
    var up: Vec3
    var right: Vec3
    var worldUp: Vec3

    // Euler angles, in degrees
    var yaw: real
    var pitch: real

    var movementSpeed: real
    var mouseSensitivity: real
    var fov: real

    /** The glm functions this camera is computed with. */
    const math: GlmMath

    /** The values of the fields. */
    ghost function State(): CameraState
      reads this
    {
      CameraState(position, front, up, right, worldUp, yaw, pitch, movementSpeed, mouseSensitivity, fov)
    }

    /** fov inside zoom's range and a basis that matches the angles: true of every new camera and kept
        by every method. */
    ghost predicate Valid()
      reads this
    {
      Invariant(math, State())
    }

    constructor (math: GlmMath, position: Vec3 := Vec3(0.0, 1.0, 3.0), up: Vec3 := Vec3(0.0, 1.0, 0.0),
                 yaw: real := DEFAULT_YAW, pitch: real := DEFAULT_PITCH)
      ensures this.math == math
      ensures State() == Initial(math, position, yaw, pitch)
      ensures Valid()
    {
      this.math := math;
      front := Vec3(0.0, 0.0, -1.0);
      worldUp := Vec3(0.0, 1.0, 0.0);
      movementSpeed := DEFAULT_MOVEMENT_SPEED;
      mouseSensitivity := DEFAULT_MOUSE_SENSITIVITY;
      fov := DEFAULT_FOV;
      this.position := position;
      this.up := up;
      this.yaw := yaw;
      this.pitch := pitch;
      new;
      ghost var unbased := State();
      UpdateVectors();
      assert Rebased(math, unbased) == Initial(math, position, yaw, pitch);
      InitialInvariants(math, position, yaw, pitch);
    }

    /** The view matrix is glm::lookAt from the camera's position towards `position + front`, with the
        camera's current `up` (not the world up) as the up vector. */
    method GetViewMatrix() returns (view: Mat4)
      ensures view == LookAt(math, position, Add(position, front), up)
    {
      view := LookAt(math, position, Add(position, front), up);
    }

    /** keyInput: one step of movement, or RESET. The time step is the program-wide `deltaTime`
        variable that the render loop updates every frame; here it is passed in. */
    method KeyInput(command: Command, deltaTime: real)
      modifies this
      ensures State() == AfterKey(math, old(State()), command, deltaTime)
      ensures old(Valid()) ==> Valid()
    {
      var speed := movementSpeed * deltaTime;
      if command == FORWARD {
        position := Add(position, Scale(speed, front));
        assert position == AfterMove(old(State()), command, deltaTime).position;
      }
      if command == BACKWARD {
        position := Sub(position, Scale(speed, front));
        assert position == AfterMove(old(State()), command, deltaTime).position;
      }
      if command == LEFT {
        position := Sub(position, Scale(speed, right));
        assert position == AfterMove(old(State()), command, deltaTime).position;
      }
      if command == RIGHT {
        position := Add(position, Scale(speed, right));
        assert position == AfterMove(old(State()), command, deltaTime).position;
      }
      if command == UP {
        position := Add(position, Scale(speed, up));
        assert position == AfterMove(old(State()), command, deltaTime).position;
      }
      if command == DOWN {
        position := Sub(position, Scale(speed, up));
        assert position == AfterMove(old(State()), command, deltaTime).position;
      }
      if command == RESET {
        ResetPose();
      }
      if old(Valid()) {
        KeyInputKeepsInvariant(math, old(State()), command, deltaTime);
      }
    }

    /** The body of keyInput's RESET branch, statement by statement. The `right` it computes from the
        old `front` and the reset `up` is overwritten by UpdateVectors, so only the angles and the
        position decide the result. */
    method ResetPose()
      modifies this
      ensures State() == Reset(math, old(State()))
    {
      position := Vec3(0.0, 1.0, 3.0);
      up := Vec3(0.0, 1.0, 0.0);
      right := Normalize(math, Cross(front, up));
      front := Vec3(0.0, 0.0, -1.0);
      yaw := DEFAULT_YAW;
      pitch := DEFAULT_PITCH;
      ghost var posed := State();
      UpdateVectors();
      assert State() == Reset(math, old(State())) by {
        assert posed.(front := old(front), right := old(right), up := old(up)) == DefaultPose(old(State()));
        RebasedIgnoresBasis(math, posed, DefaultPose(old(State())));
      }
    }

    method MouseInput(xOffset: real, yOffset: real)
      modifies this
      ensures State() == AfterMouse(math, old(State()), xOffset, yOffset)
      ensures PitchInRange(State()) && BasisConsistent(math, State())
      ensures old(Valid()) ==> Valid()
    {
      var x := xOffset * mouseSensitivity;
      var y := yOffset * mouseSensitivity;

      yaw := yaw + x;
      pitch := pitch + y;

      if pitch > 89.0 {
        pitch := 89.0;
      }
      if pitch < -89.0 {
        pitch := -89.0;
      }
      assert State() == Turned(old(State()), xOffset, yOffset);

      UpdateVectors();
    }

    method Zoom(yOffset: real)
      modifies this`fov
      ensures State() == AfterZoom(old(State()), yOffset)
      ensures FovInRange(State())
      ensures old(Valid()) ==> Valid()
    {
      fov := fov - yOffset;

      if fov < 1.0 {
        fov := 1.0;
      }
      if fov > 45.0 {
        fov := 45.0;
      }
    }

    /** Rebuilds the basis in its fixed order: front from the angles, then right from the NEW front,
        then up from the new right and front. */
    method UpdateVectors()
      modifies this`front, this`right, this`up
      ensures front == FrontOf(math, yaw, pitch)
      ensures right == Normalize(math, Cross(front, worldUp))
      ensures up == Normalize(math, Cross(right, front))
      ensures State() == Rebased(math, old(State()))
    {
      front := Vec3(Cos(math, Radians(math, yaw)) * Cos(math, Radians(math, pitch)),
                    Sin(math, Radians(math, pitch)),
                    Sin(math, Radians(math, yaw)) * Cos(math, Radians(math, pitch)));
      assert front == LookDirection(math, yaw, pitch);
      front := Normalize(math, front);
      right := Normalize(math, Cross(front, worldUp));
      up := Normalize(math, Cross(right, front));
    }
  }
}
