# Drivable car controller and scene unit conversions

This project models the two parts of the portfolio site that carry logic.

**The drivable car** (`src/app/game/page.tsx`). The first part is the keyboard
hook. It holds five level-triggered flags: forward, backward, left, right and
brake. Key-down and key-up listeners on the window set and clear them. Each
flag has an arrow key and a WASD letter; the brake has Space only. The second
part is the car's per-frame callback. Once per rendered frame it does these
steps, in this order:

- If the car has fallen below y = -10, it puts the rigid body back at the
  spawn point (0, 2, 0), at rest and unrotated.
- It sets the yaw rate. Right wins over left.
- It applies a drive impulse along the heading. Forward wins over backward.
- It sets the linear damping from the brake flag.
- It moves the orbit camera's target to the body.
- It eases the front wheels' drawn steer angle toward ±0.5. Here left wins.
- It spins every tire by one step taken from the forward speed.
- It lights the brake lights while the brake is held.

In the model, `Controls.Input` is the mutable flag record and
`CarController.Car` is the component. The car's fields are the rigid-body ref,
the camera target, the steer accumulator, the four wheel refs and the
brake-light intensity. `Car.Tick` performs the frame by successive writes to
them. Its contract states the following:

- the frame is a no-op while the body ref is absent;
- exactly when the respawn happens;
- that steering and drive still run in a respawn frame;
- that the camera and the tire spin use the position and velocity read before
  the respawn;
- that only the front wheels are steered;
- that the `wheelSpinAngle` accumulator is never written.

The decisions in the frame are pure functions (`YawRate`, `ImpulseStrength`,
`Impulse`, `SteerTarget`, `Lerp`, `SpinStep`, `Spun`). Each one's contract
states its precedence rule or bound. Lemmas then relate frames to one another:

- The drawn steer angle stays within ±0.5 over any run of frames no longer than
  0.1 s each.
- A frame longer than 0.1 s can overshoot, for example to 1.5.
- With both left and right held, the car yaws right while its wheels are drawn
  turned left.

**The hero scene's conversions** (`src/components/Scene.tsx`). `PixelToThree`
maps a pixel of the 1920 × 1200 design frame into viewport units, flipping the
y axis. `CalculateScale` maps a pixel width to a scene width. `DegToRad`
converts the cubes' rotations from degrees to radians. Lemmas prove the
following:

- the corner and centre images;
- strict monotonicity in x, and strict reversal in y;
- that every pixel of the frame lands inside the viewport;
- mirror symmetry about the centre line;
- additivity of the scale;
- round trips through the inverse conversions `ThreeToPixel` and `RadToDeg`.

Floating-point quantities are Dafny `real`s. The drive model is the code's:

- a flat impulse per frame;
- damping 6 with the brake held and 1 otherwise;
- no speed limiter, no lock window after a respawn, no finiteness check;
- the brake light glows at intensity 2.

## Model

| member | source | states |
|---|---|---|
| `Controls.Flags.With` | src/app/game/page.tsx:68-72 | writing one action's flag sets that flag to the value and leaves the other four unchanged |
| `Controls.ActionOf` | src/app/game/page.tsx:67-73 | the key handler's switch selects action `a` exactly when the code is one of `a`'s bindings (ArrowUp/KeyW, ArrowDown/KeyS, ArrowLeft/KeyA, ArrowRight/KeyD, Space), and selects nothing for any other code |
| `Controls.Input.constructor` | src/app/game/page.tsx:64 | the flag record starts with all five flags false |
| `Controls.Input.HandleKey` | src/app/game/page.tsx:66-74 | a bound key writes `isDown` into its own flag and into no other; any other key code leaves all five flags unchanged |
| `Controls.Input.KeyDown` | src/app/game/page.tsx:75-77 | key-down sets exactly the bound action's flag to true; an unbound key changes nothing |
| `Controls.Input.KeyUp` | src/app/game/page.tsx:76-78 | key-up sets exactly the bound action's flag to false; an unbound key changes nothing |
| `Controls.AfterKey` | src/app/game/page.tsx:66-74 | the flags after one event, as a value: the bound action's flag equals `isDown`, every action the code is not bound to keeps its flag |
| `Controls.RepeatIsIdempotent` | src/app/game/page.tsx:66-74 | flags are level-triggered: a repeated key-down or key-up changes nothing beyond the first |
| `Controls.PressThenRelease` | src/app/game/page.tsx:66-76 | press then release of a bound key leaves that flag false and the other four as they were |
| `Controls.DistinctKeysCommute` | src/app/game/page.tsx:66-74 | events on keys of different actions (or on unbound keys) commute |
| `CarController.YawRate` | src/app/game/page.tsx:131-135 | yaw rate is -3 exactly when right is held (even with left), 3 exactly when only left is held, 0 when neither is held |
| `CarController.ImpulseStrength` | src/app/game/page.tsx:142-144 | strength is -enginePower exactly when forward is held (even with backward), +enginePower exactly when only backward is held, 0 exactly when neither is held |
| `CarController.Impulse` | src/app/game/page.tsx:146-148 | the applied impulse always has y = 0 and is the zero vector when no throttle key is held |
| `CarController.ImpulseAlongHeading` | src/app/game/page.tsx:142-148 | the impulse is parallel to the heading's horizontal part; forward pushes against it by enginePower times its squared length, backward alone pushes along it; its squared size is enginePower² times the heading's squared horizontal length |
| `CarController.SteerTarget` | src/app/game/page.tsx:163-164 | the visual target is 0.5 exactly when left is held (even with right), -0.5 exactly when only right is held, 0 otherwise, and always within ±0.5 |
| `CarController.Lerp` | src/app/game/page.tsx:165 | for a factor in [0, 1] the interpolant lies between its two ends; factor 0 keeps the start, factor 1 reaches the target |
| `CarController.SteerStaysInRange` | src/app/game/page.tsx:163-165 | from an angle within ±0.5 and with 0 ≤ 10·delta ≤ 1, one frame keeps the angle within ±0.5 |
| `CarController.SteerOvershoots` | src/app/game/page.tsx:163-165 | a 0.3 s frame with left held takes the angle from 0 to 1.5, three times the maximum |
| `CarController.SteerBoundedOverFrames` | src/app/game/page.tsx:163-165 | over any sequence of frames of at most 0.1 s each, whatever keys are held, the drawn steer angle stays within ±0.5 |
| `CarController.BothHeldDisagree` | src/app/game/page.tsx:133-164 | with left and right both held the body yaws right (negative rate) while the wheels are drawn turned left (positive target) |
| `CarController.SpinStep` | src/app/game/page.tsx:172-174 | the spin step is zero when the forward speed (velocity · heading) is zero or no time has elapsed |
| `CarController.Spun` | src/app/game/page.tsx:178-182 | an absent wheel or a wheel whose tire is not found is skipped; a found tire's rotation.x grows by exactly the step; the steer yaw is untouched; a zero step changes nothing |
| `CarController.SpinTires` | src/app/game/page.tsx:177-183 | the loop over the four wheel refs leaves each one as `Spun` with the same step, keeping the list's length |
| `CarController.SteerFront` | src/app/game/page.tsx:167-169 | the two front wheels, where present, get the steer angle as rotation.y; absent ones stay absent; the rear two are never written |
| `CarController.Car.constructor` | src/app/game/page.tsx:86-109 | before mounting, every ref is empty, the steer and spin accumulators are 0 and the brake light is off |
| `CarController.Car.Mount` | src/app/game/page.tsx:199-200 | the body is created at (0, 2, 0), unrotated, at rest, with linear damping 1; the four wheels are attached with their tires |
| `CarController.Car.Tick` | src/app/game/page.tsx:114-196 | absent body: nothing changes; below y = -10: translation (0,2,0), zero linear velocity and identity rotation, otherwise those three unchanged; angular velocity (0, YawRate, 0) and the Impulse applied even in a respawn frame; damping 6/1 from the brake flag alone; camera target = position read before the respawn; steer angle = lerp toward SteerTarget by 10·delta and within ±0.5 on short frames; front wheels steered, every tire spun by the step from the pre-respawn velocity; brake intensity 2/0 from the brake flag alone; `wheelSpinAngle` unchanged |
| `CarController.Car.Physics` | src/app/game/page.tsx:122-152 | the respawn resets happen exactly when y < -10; then the yaw rate, the impulse and the damping are written |
| `CarController.Car.Visuals` | src/app/game/page.tsx:154-189 | the camera target becomes the start-of-frame position if the camera exists; the steer angle is lerped; the front wheels are steered then every tire is spun; the brake light follows the brake flag |
| `CarController.RespawnIsInitialSpawn` | src/app/game/page.tsx:124-127 | the respawn pose (point, rotation, velocities) is the pose the body is created with |
| `Scene.PixelToThree` | src/components/Scene.tsx:24-28 | the frame's left, centre and right columns map to -w/2, 0 and w/2; its top, centre and bottom rows map to h/2, 0 and -h/2 |
| `Scene.CalculateScale` | src/components/Scene.tsx:30-32 | a width of 0 px scales to 0 and the full 1920 px design width scales to the viewport width |
| `Scene.DegToRad` | src/components/Scene.tsx:68 | 0° is 0 rad and the sign of the angle is kept |
| `Scene.Corners` | src/components/Scene.tsx:16-27 | (0,0) maps to (-w/2, h/2), (960,600) to (0,0), and (1920,1200) to (w/2, -h/2) |
| `Scene.ColumnIsScaleLessHalf` | src/components/Scene.tsx:25-31 | a pixel's x coordinate is the scaled width of its column less half the viewport width |
| `Scene.RightStaysRight` | src/components/Scene.tsx:25 | with positive viewport width, output x is strictly increasing in pixel x |
| `Scene.DownGoesDown` | src/components/Scene.tsx:26 | with positive viewport height, output y is strictly decreasing in pixel y (the flip) |
| `Scene.FrameInsideViewport` | src/components/Scene.tsx:24-28 | every pixel in [0,1920]×[0,1200] lands in [-w/2, w/2]×[-h/2, h/2] |
| `Scene.MirrorAboutCentre` | src/components/Scene.tsx:25 | columns mirrored about x = 960 land mirrored about the viewport's y axis |
| `Scene.ScaleAdditive` | src/components/Scene.tsx:30-32 | scale(a + b) = scale(a) + scale(b) |
| `Scene.PixelRoundTrip` | src/components/Scene.tsx:24-28 | on a viewport of non-zero size, converting a pixel to the viewport and back returns the same pixel |
| `Scene.HalfTurn` | src/components/Scene.tsx:72 | 180° is π radians and -180° is -π |
| `Scene.DegreesRoundTrip` | src/components/Scene.tsx:68 | converting degrees to radians and back returns the same degrees |
| `Scene.FirstCubeEnd` | src/lib/cube-data.ts:20 | the first cube's end pose converts to (-350/1920·w, 200/1200·h), a scale of 180/1920·w and π/12 rad |

## Left out

- The physics engine: gravity, the effect of damping, and collisions with the ground and the letters. `Body.impulse` records the impulse the frame applied. `linvel` is the value the frame last set; the velocity change from `impulse`, which the engine applies at once, is not folded in.
- Quaternion rotation of the forward axis. `Tick` takes the heading vector as a parameter, with the rotation read at the start of the frame already applied.
- The colour strings of the brake-light material. Only its emissive intensity is modelled.
- The headlight spot-light targets and their matrix updates. They are written with constants every frame.
- `OrbitControls.update()`.
- Registering and removing the window listeners. `KeyDown` and `KeyUp` model the listeners' bodies only.
- Floating-point rounding. All quantities are exact reals, and π is the exact decimal 3.141592653589793.
- All JSX, geometry and material declarations.
- The GSAP scroll timelines, including their random rotations. Only the conversion helpers they call are modelled.
- The other components and pages of the site. They are layout and animation with no stateable logic.
- Aliasing of wheel objects. The four wheel refs are values in a sequence, so the model assumes they are four distinct objects, as the component creates them.
- `CarController.Car.Tick`: its contract does not state that the respawn briefly zeroes the angular velocity. Steering overwrites that value later in the same frame, so the contract gives only the final value.
