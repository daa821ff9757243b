# Free-flying camera

This project models the `Camera` class of the OpenGL demo programs. The class holds a camera's
position and orientation. The repository has two near-identical copies of it:

- `lights/src/Camera.{hpp,cpp}`. Here `keyInput` takes the frame time as a parameter that defaults
  to 1. The view matrix is built by hand as `rotation * translation`, because the header defines
  `CUSTOM_LOOK_AT_MATRIX`.
- `glLight/src/Camera.{hpp,cpp}`. Here `keyInput` reads the program-wide `deltaTime` variable, and the
  view matrix is a `glm::lookAt` call.

Each copy is a small state machine over one object's fields:

- `keyInput` applies one of seven commands. Six of them move `position` along plus or minus `front`,
  `right` or `up`, by `movementSpeed * deltaTime`. `RESET` restores the default position and angles.
- `mouseInput` adds the scaled offsets to `yaw` and `pitch`, then saturates `pitch` to [-89, 89].
- `zoom` subtracts the scroll offset from `fov`, then saturates it to [1, 45].
- `updateVectors` rebuilds `front`, then `right`, then `up` from the Euler angles.

Modules:

- `Vectors` (vectors.dfy): glm's `vec3` and `vec4` arithmetic over the reals. The cross product is
  defined concretely.
- `Glm` (glm.dfy): the glm functions the camera calls, and column-major `mat4`. `cos`, `sin`,
  `radians`, `inversesqrt`, `normalize` and `lookAt` have no definition here. They are fields of a
  `GlmMath` record, so every result holds whatever those functions are.
- `CameraSpec` (camera_spec.dfy): the shared specification on values. A `CameraState` holds the
  fields. It defines the commands and the defaults, and says what each operation does to a state.
  The lemmas here state the camera's properties.
- `LightsCamera` (lights_camera.dfy): the `lights` class. It has the same fields as the source and
  methods that update them in place, plus the hand-built view matrix and its properties.
- `GlLightCamera` (gllight_camera.dfy): the `glLight` class.

Each class method is proved to leave the object in the state that the matching `CameraSpec` function
gives for the old state. The properties proved for those functions therefore hold for the objects.
The predicate `Valid()` means `fov` is in [1, 45] and the basis matches the angles. Every
constructor establishes it and every method keeps it.

## Model

| member | source | states |
|---|---|---|
| CameraSpec.Clamp | lights/src/Camera.cpp:77-82 | The result lies in [lo, hi]. It is `x` when `x` is inside, and the nearer bound when `x` is outside: saturation, not wrap-around. |
| CameraSpec.Opposite | lights/src/Camera.cpp:41-58 | Pairs each directional command with the command that moves along the same basis vector the other way. The result is directional and differs from the input. |
| CameraSpec.OppositeInvolutive | lights/src/Camera.cpp:41-58 | Taking the opposite command twice gives back the command. |
| CameraSpec.HeadingOfOpposite | lights/src/Camera.cpp:41-58 | The opposite command moves along minus the basis vector of the command. |
| CameraSpec.Rebased | lights/src/Camera.cpp:103-110 | Recomputing the basis makes it consistent with the angles and world up. Every field except `front`, `right` and `up` is kept. |
| CameraSpec.RebasedIgnoresBasis | lights/src/Camera.cpp:59-67 | The recomputed basis does not depend on the old `front`, `right` and `up`. So the `right` that RESET writes before calling updateVectors has no effect. |
| CameraSpec.BasisOrthogonal | lights/src/Camera.cpp:103-110 | Normalize scales by the inverse square root of the squared length. Given that, computing right from the new front, and then up from that right and front, makes the three vectors pairwise orthogonal for every angle and world up. |
| CameraSpec.ConsistentBasisOrthogonal | lights/src/Camera.cpp:103-110 | Whenever the basis fields agree with the angles, they are pairwise orthogonal (same hypothesis on normalize). |
| CameraSpec.InitialInvariants | lights/src/Camera.hpp:55-71 | A new camera has fov in [1, 45] and a basis consistent with its angles. Its pitch is stored unclamped. |
| CameraSpec.ZoomSaturates | lights/src/Camera.cpp:87-96 | After zoom, fov is in [1, 45] whatever the offset and the prior fov. It is `fov - y` when that is inside the range, and 1 or 45 when it is below or above. No other field changes. |
| CameraSpec.MouseInputEffect | lights/src/Camera.cpp:70-85 | yaw grows by `x * sensitivity` with no bound. pitch grows by `y * sensitivity` and saturates at 89 or -89, however large the offset. The basis is that of the new angles. Position, world up, speed, sensitivity and fov do not change. |
| CameraSpec.MoveDisplacement | lights/src/Camera.cpp:39-58 | A move shifts position by `movementSpeed * deltaTime` times +front, -front, -right, +right, +up or -up, for FORWARD, BACKWARD, LEFT, RIGHT, UP and DOWN. Every other field is unchanged. |
| CameraSpec.DirectionalKeyMovesOnlyPosition | lights/src/Camera.cpp:39-58 | The same, for keyInput with a directional command: only position changes. The angles, fov and basis stay. |
| CameraSpec.MoveThenOpposite | lights/src/Camera.cpp:41-58 | A move and then the opposite move, with the same time step, restore the state exactly. |
| CameraSpec.OppositeKeysCancel | lights/src/Camera.cpp:41-58 | keyInput with a directional command and then with its opposite, with the same deltaTime, restores the whole state (FORWARD/BACKWARD, LEFT/RIGHT, UP/DOWN). |
| CameraSpec.ResetEffect | lights/src/Camera.cpp:59-67 | RESET sets position (0, 1, 3), yaw -90 and pitch -15, with the basis of those angles. fov, speed, sensitivity and world up are untouched. The result does not depend on deltaTime. |
| CameraSpec.ResetIdempotent | lights/src/Camera.cpp:59-67 | RESET twice equals RESET once, whatever the two time steps. |
| CameraSpec.KeyInputKeepsInvariant | lights/src/Camera.cpp:39-68 | Every command keeps fov in [1, 45] and the basis consistent with the angles. |
| CameraSpec.MouseInputKeepsInvariant | lights/src/Camera.cpp:70-85 | mouseInput keeps fov in range and the basis consistent. |
| CameraSpec.ZoomKeepsInvariant | lights/src/Camera.cpp:87-96 | zoom keeps fov in range and the basis consistent. |
| Vectors.CrossOrthogonal | lights/src/Camera.cpp:108-109 | glm::cross(a, b) is orthogonal to a and to b. |
| Glm.NormalizedCrossOrthogonal | lights/src/Camera.cpp:108-109 | A normalized cross product is orthogonal to both operands, whatever the inverse square root is. |
| LightsCamera.ViewAxesOrthogonal | lights/src/Camera.cpp:14-16 | The z, x and y axes of the hand-built view matrix are pairwise orthogonal (same hypothesis on normalize). |
| LightsCamera.RotationTimesTranslation | lights/src/Camera.cpp:18-33 | The product `rotation * translation` is the look-at form: the axes as rows of the 3x3 block, and minus each axis's projection of the eye in the last column. |
| LightsCamera.ViewGivesEyeCoordinates | lights/src/Camera.cpp:12-33 | The view matrix maps a world point p to (x·(p - eye), y·(p - eye), z·(p - eye), 1). |
| LightsCamera.ViewMapsEyeToOrigin | lights/src/Camera.cpp:12-33 | The camera's own position goes to the origin of eye space. |
| LightsCamera.Camera.constructor | lights/src/Camera.hpp:55-71 | The fields become the initial state: position and angles as given, world up (0, 1, 0), default speed, sensitivity and fov, and the basis from updateVectors. The `up` argument has no effect. Valid holds. |
| LightsCamera.Camera.GetViewMatrix | lights/src/Camera.cpp:12-33 | Returns the look-at form of the position and the axes derived from front and world up. The source writes the entries of two identity matrices and multiplies them. |
| LightsCamera.Camera.KeyInput | lights/src/Camera.cpp:39-68 | The new state is the specified key effect of the old state, for every command and deltaTime. Valid is kept. |
| LightsCamera.Camera.ResetPose | lights/src/Camera.cpp:59-67 | Runs RESET's statements in order, including the overwritten `right`. The new state is the reset of the old state. |
| LightsCamera.Camera.MouseInput | lights/src/Camera.cpp:70-85 | The new state is the specified mouse effect. Pitch is in [-89, 89] and the basis is consistent afterwards, whatever the prior state. Valid is kept. |
| LightsCamera.Camera.Zoom | lights/src/Camera.cpp:87-96 | Changes only fov, to the specified saturated value. fov is in [1, 45] afterwards, whatever the prior state. Valid is kept. |
| LightsCamera.Camera.UpdateVectors | lights/src/Camera.cpp:103-110 | Changes only front, right and up. front is the normalized look direction of the angles. right is normalize(cross(new front, worldUp)). up is normalize(cross(new right, new front)). |
| GlLightCamera.Camera.constructor | glLight/src/Camera.hpp:55-71 | As for the lights constructor: the initial state from the given position and angles; the `up` argument has no effect; Valid holds. |
| GlLightCamera.Camera.GetViewMatrix | glLight/src/Camera.cpp:15-17 | Returns glm::lookAt with eye = position, center = position + front and the camera's current up (not world up). |
| GlLightCamera.Camera.KeyInput | glLight/src/Camera.cpp:19-48 | The new state is the specified key effect of the old state for the frame time passed in. Valid is kept. |
| GlLightCamera.Camera.ResetPose | glLight/src/Camera.cpp:39-47 | Runs RESET's statements in order. The new state is the reset of the old state. |
| GlLightCamera.Camera.MouseInput | glLight/src/Camera.cpp:50-65 | The new state is the specified mouse effect. Pitch is saturated to [-89, 89] and the basis is consistent. Valid is kept. |
| GlLightCamera.Camera.Zoom | glLight/src/Camera.cpp:67-76 | Changes only fov, to the saturated value in [1, 45]. Valid is kept. |
| GlLightCamera.Camera.UpdateVectors | glLight/src/Camera.cpp:83-90 | Same order as in lights: front from the angles, then right from the new front and world up, then up from right and front. |

## Left out

- Single-precision floats, including the `(float)` cast in zoom, are modelled as reals. Exact
  cancellation of opposite moves is therefore a statement about real arithmetic only.
- `cos`, `sin`, `glm::radians`, `inversesqrt`, `glm::normalize` and `glm::lookAt` have no definition,
  because they need trigonometry or square roots. So unit length of the basis vectors is not stated.
  Neither are concrete directions, such as the front vector for yaw -90.
- BasisOrthogonal: orthogonality needs glm's definition of normalize, `v * inversesqrt(dot(v, v))`,
  which appears as the hypothesis `NormalizeScales`. The same holds for ConsistentBasisOrthogonal and
  ViewAxesOrthogonal.
- GlLightCamera.Camera.GetViewMatrix: `glm::lookAt` is an opaque call, so the contract names only the
  arguments it is called with.
- LightsCamera.Camera.GetViewMatrix: the `#else` branch (lights/src/Camera.cpp:34-35) is not modelled.
  It is not compiled, because lights/src/Camera.hpp:11 defines `CUSTOM_LOOK_AT_MATRIX`.
- GlLightCamera.Camera.KeyInput: the program-wide `deltaTime` (glLight/src/Camera.cpp:12) is an
  explicit parameter. The render loop that writes it is not part of this model.
- KeyInput: the statements of the RESET branch sit in a separate method, `ResetPose`, which KeyInput
  calls from that branch, in both classes. Statement order and the sequence of seven `if`s are those
  of the source.
- The glm functions a camera uses are the constant field `math`. In the source they are global
  library functions.
- The glLight defaults (`CameraDefault::YAW` and the rest) and the lights defaults (`DEFAULT_YAW` and
  the rest) have the same values. They are one set of constants in `CameraSpec`.
- The `Application.cpp`/`Application.hpp` files (window set-up, input callbacks, render loop,
  first-mouse bookkeeping) are not part of this model. Neither are the `Shader` files, a wrapper over
  OpenGL calls and file reading. The camera methods take the offsets and commands those files compute
  as parameters.
