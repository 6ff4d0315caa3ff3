/** The drivable car's per-frame controller: once per rendered frame it reads
    the key flags and the rigid body, writes the body's respawn state, yaw
    rate, drive impulse and damping, re-targets the camera, and moves the
    wheel and brake-light visuals. The physics engine is outside the model:
    `linvel` is the value the frame last set, and the velocity change from
    `impulse`, which the engine applies at once, is not folded in. */
module CarController {
  import opened Wrappers
  import opened Controls

  datatype Vec3 = Vec3(x: real, y: real, z: real)

  const Zero := Vec3(0.0, 0.0, 0.0)

  function Dot(a: Vec3, b: Vec3): real
  {
    a.x * b.x + a.y * b.y + a.z * b.z
  }

  /** Squared length of the horizontal (x, z) part of a vector. */
  function FlatNorm2(v: Vec3): real
  {
    v.x * v.x + v.z * v.z
  }

  datatype Quat = Quat(x: real, y: real, z: real, w: real)

  const Identity := Quat(0.0, 0.0, 0.0, 1.0)

  /** The rigid body as the tick sees it: what it reads (translation,
      rotation, linear velocity) and what it writes (those, the angular
      velocity, the linear damping, and the impulse it applies). */
  datatype Body = Body(translation: Vec3, rotation: Quat, linvel: Vec3, angvel: Vec3,
                       linearDamping: real, impulse: Vec3)

  /** A wheel group: its yaw (the steer pivot) and the spin about x of its
      child named "tireMesh", which a lookup by name may fail to find. */
  datatype Wheel = Wheel(steerY: real, tire: Option<real>)

  /** Below this height the car has fallen off the ground and is respawned. */
  const FallLimit: real := -10.0
  /** Where the body is created and where it is put back after a fall. */
  const Spawn := Vec3(0.0, 2.0, 0.0)
  const TurnSpeed: real := 3.0
  const CoastDrag: real := 1.0
  const BrakeDrag: real := 6.0
  const MaxSteerVis: real := 0.5
  const SteerRate: real := 10.0
  const SpinGain: real := 2.5
  const BrakeGlow: real := 2.0
  /** The range of the tuning slider that supplies the engine power. */
  const MinEnginePower: real := 5.0
  const MaxEnginePower: real := 200.0

  /** The body as created: at the spawn point, unrotated, at rest, with the
      linear damping it is declared with. */
  const InitialBody := Body(Vec3(0.0, 2.0, 0.0), Quat(0.0, 0.0, 0.0, 1.0), Zero, Zero, 1.0, Zero)

  /** The yaw rate the tick assigns: left turns positively, right negatively,
      and when both are held right wins because it is tested last. */
  function YawRate(f: Flags): (t: real)
    ensures t == -TurnSpeed <==> f.right
    ensures t == TurnSpeed <==> f.left && !f.right
    ensures t == 0.0 <==> !f.left && !f.right
  {
    if f.right then -TurnSpeed else if f.left then TurnSpeed else 0.0
  }

  /** The signed impulse strength along the heading: forward wins over
      backward and pushes against the heading (the car's nose faces -z). */
  function ImpulseStrength(f: Flags, enginePower: real): (s: real)
    requires MinEnginePower <= enginePower <= MaxEnginePower
    ensures s == -enginePower <==> f.forward
    ensures s == enginePower <==> f.backward && !f.forward
    ensures s == 0.0 <==> !f.forward && !f.backward
  {
    if f.forward then -enginePower else if f.backward then enginePower else 0.0
  }

  /** The impulse applied this frame: always horizontal, and zero without
      throttle. ImpulseAlongHeading says where it points. */
  function Impulse(heading: Vec3, f: Flags, enginePower: real): (v: Vec3)
    requires MinEnginePower <= enginePower <= MaxEnginePower
    ensures v.y == 0.0
    ensures !f.forward && !f.backward ==> v == Zero
  {
    var s := ImpulseStrength(f, enginePower);
    Vec3(heading.x * s, 0.0, heading.z * s)
  }

  /** The impulse is parallel to the heading's horizontal part: against it
      (by enginePower times its squared length) when forward is held, along
      it when only backward is held; its squared size is enginePower squared
      times that of the heading's horizontal part. */
  lemma ImpulseAlongHeading(heading: Vec3, f: Flags, enginePower: real)
    requires MinEnginePower <= enginePower <= MaxEnginePower
    ensures var v := Impulse(heading, f, enginePower);
      v.x * heading.z == v.z * heading.x &&
      (f.forward ==> Dot(v, heading.(y := 0.0)) == -enginePower * FlatNorm2(heading)) &&
      (!f.forward && f.backward ==> Dot(v, heading.(y := 0.0)) == enginePower * FlatNorm2(heading)) &&
      FlatNorm2(v) == (if f.forward || f.backward then enginePower * enginePower else 0.0) * FlatNorm2(heading)
  {
    var s := ImpulseStrength(f, enginePower);
    ScaledFlat(heading, s);
    if f.forward || f.backward {
      assert s * s == enginePower * enginePower by {
        assert s == enginePower || s == -enginePower;
      }
    }
  }

  /** Scaling the heading's horizontal part by s: the result is parallel to
      it, its dot product with the heading is s times the squared length,
      and its own squared length is s squared times that. */
  lemma ScaledFlat(h: Vec3, s: real)
    ensures var v := Vec3(h.x * s, 0.0, h.z * s);
      v.x * h.z == v.z * h.x &&
      Dot(v, h.(y := 0.0)) == s * FlatNorm2(h) &&
      FlatNorm2(v) == (s * s) * FlatNorm2(h)
  {
    var v := Vec3(h.x * s, 0.0, h.z * s);
    assert v.x * h.z == s * (h.x * h.z) == v.z * h.x;
    assert Dot(v, h.(y := 0.0)) == s * (h.x * h.x) + s * (h.z * h.z);
    assert FlatNorm2(v) == (s * s) * (h.x * h.x) + (s * s) * (h.z * h.z);
  }

  /** The angle the front wheels are drawn turning toward. Unlike the yaw
      rate, left wins when both are held. */
  function SteerTarget(f: Flags): (t: real)
    ensures -MaxSteerVis <= t <= MaxSteerVis
    ensures t == MaxSteerVis <==> f.left
    ensures t == -MaxSteerVis <==> f.right && !f.left
    ensures t == 0.0 <==> !f.left && !f.right
  {
    if f.left then MaxSteerVis else if f.right then -MaxSteerVis else 0.0
  }

  /** Linear interpolation as the renderer's math utilities define it. For a
      factor in [0, 1] the result lies between the two ends; factor 0 keeps
      the start and factor 1 reaches the end. */
  function Lerp(a: real, b: real, t: real): (r: real)
    ensures 0.0 <= t <= 1.0 && a <= b ==> a <= r <= b
    ensures 0.0 <= t <= 1.0 && b <= a ==> b <= r <= a
    ensures t == 0.0 ==> r == a
    ensures t == 1.0 ==> r == b
  {
    LerpOffsets(a, b, t);
    (1.0 - t) * a + t * b
  }

  /** The interpolant sits t of the way from a and 1 - t of the way back
      from b, both offsets having the sign of b - a when 0 <= t <= 1. */
  lemma LerpOffsets(a: real, b: real, t: real)
    ensures (1.0 - t) * a + t * b - a == t * (b - a)
    ensures b - ((1.0 - t) * a + t * b) == (1.0 - t) * (b - a)
    ensures 0.0 <= t <= 1.0 && a <= b ==> 0.0 <= t * (b - a) && 0.0 <= (1.0 - t) * (b - a)
    ensures 0.0 <= t <= 1.0 && b <= a ==> t * (b - a) <= 0.0 && (1.0 - t) * (b - a) <= 0.0
  {
    if 0.0 <= t <= 1.0 {
      ProductSign(t, b - a);
      ProductSign(1.0 - t, b - a);
    }
  }

  lemma ProductSign(x: real, y: real)
    requires 0.0 <= x
    ensures 0.0 <= y ==> 0.0 <= x * y
    ensures y <= 0.0 ==> x * y <= 0.0
  {
  }

  /** One frame of the visual steer accumulator. */
  function SteerStep(angle: real, f: Flags, delta: real): real
  {
    Lerp(angle, SteerTarget(f), delta * SteerRate)
  }

  /** A frame no longer than a tenth of a second keeps the drawn steer angle
      within the maximum; a longer one can overshoot (see SteerOvershoots). */
  lemma SteerStaysInRange(angle: real, f: Flags, delta: real)
    requires -MaxSteerVis <= angle <= MaxSteerVis
    requires 0.0 <= delta * SteerRate <= 1.0
    ensures -MaxSteerVis <= SteerStep(angle, f, delta) <= MaxSteerVis
  {
  }

  /** With a 0.3 s frame the factor is 3 and the angle jumps from straight
      ahead to three times the maximum. */
  lemma SteerOvershoots()
    ensures SteerStep(0.0, Flags(false, false, true, false, false), 0.3) == 3.0 * MaxSteerVis
  {
  }

  /** The drawn steer angle after a run of frames, each with the flags held
      during it and its frame time. */
  function SteerAfter(angle: real, frames: seq<(Flags, real)>): real
    decreases |frames|
  {
    if frames == [] then angle
    else SteerAfter(SteerStep(angle, frames[0].0, frames[0].1), frames[1..])
  }

  /** However the keys change from frame to frame, the drawn steer angle
      never leaves [-0.5, 0.5] as long as no frame exceeds a tenth of a second. */
  lemma {:induction false} SteerBoundedOverFrames(angle: real, frames: seq<(Flags, real)>)
    requires -MaxSteerVis <= angle <= MaxSteerVis
    requires forall k :: 0 <= k < |frames| ==> 0.0 <= frames[k].1 * SteerRate <= 1.0
    ensures -MaxSteerVis <= SteerAfter(angle, frames) <= MaxSteerVis
    decreases |frames|
  {
    if frames != [] {
      SteerStaysInRange(angle, frames[0].0, frames[0].1);
      SteerBoundedOverFrames(SteerStep(angle, frames[0].0, frames[0].1), frames[1..]);
    }
  }

  /** With both left and right held the car yaws right while its front
      wheels are drawn turned left. */
  lemma BothHeldDisagree(f: Flags)
    requires f.left && f.right
    ensures YawRate(f) < 0.0 && SteerTarget(f) > 0.0
  {
  }

  /** How far the tires turn in one frame: the velocity's component along
      the heading, negated, times the frame time and the spin gain. No
      forward speed (or no elapsed time) means no spin. */
  function SpinStep(vel: Vec3, heading: Vec3, delta: real): (step: real)
    ensures Dot(vel, heading) == 0.0 || delta == 0.0 ==> step == 0.0
  {
    -Dot(vel, heading) * delta * SpinGain
  }

  /** The wheel after its tire has been turned by `step`: present wheels with
      a tire gain exactly `step` of spin, and nothing else changes. */
  function Spun(w: Option<Wheel>, step: real): (r: Option<Wheel>)
    ensures r.Some? <==> w.Some?
    ensures w.Some? ==> r.value.steerY == w.value.steerY && (r.value.tire.Some? <==> w.value.tire.Some?)
    ensures w.Some? && w.value.tire.Some? ==> r.value.tire.value - w.value.tire.value == step
    ensures step == 0.0 ==> r == w
  {
    match w
    case Some(Wheel(y, Some(x))) => Some(Wheel(y, Some(x + step)))
    case _ => w
  }

  /** The loop over the four wheel refs: every present wheel whose tire is
      found has its tire turned by the same step; the others are skipped. */
  method SpinTires(wheels: seq<Option<Wheel>>, step: real) returns (r: seq<Option<Wheel>>)
    ensures |r| == |wheels|
    ensures forall k :: 0 <= k < |wheels| ==> r[k] == Spun(wheels[k], step)
  {
    r := wheels;
    var i := 0;
    while i < |wheels|
      invariant 0 <= i <= |wheels|
      invariant |r| == |wheels|
      invariant forall k :: 0 <= k < i ==> r[k] == Spun(wheels[k], step)
      invariant forall k :: i <= k < |wheels| ==> r[k] == wheels[k]
    {
      if r[i].Some? {
        var tire := r[i].value.tire;
        if tire.Some? {
          r := r[i := Some(r[i].value.(tire := Some(tire.value + step)))];
        }
      }
      i := i + 1;
    }
  }

  /** Every wheel turned by the same step, as one value. */
  function SpinAll(wheels: seq<Option<Wheel>>, step: real): (r: seq<Option<Wheel>>)
    ensures |r| == |wheels|
    ensures forall k :: 0 <= k < |wheels| ==> r[k] == Spun(wheels[k], step)
  {
    seq(|wheels|, k requires 0 <= k < |wheels| => Spun(wheels[k], step))
  }

  /** The four wheels after the front two, where present, are turned to
      `angle`; the rear two are never steered. */
  function SteerFront(wheels: seq<Option<Wheel>>, angle: real): (r: seq<Option<Wheel>>)
    requires |wheels| == 4
    ensures |r| == 4
    ensures forall k :: 0 <= k < 2 ==> (r[k].Some? <==> wheels[k].Some?)
    ensures forall k :: 0 <= k < 2 && wheels[k].Some? ==> r[k].value == wheels[k].value.(steerY := angle)
    ensures r[2..] == wheels[2..]
  {
    [SteerOne(wheels[0], angle), SteerOne(wheels[1], angle), wheels[2], wheels[3]]
  }

  function SteerOne(w: Option<Wheel>, angle: real): Option<Wheel>
  {
    if w.Some? then Some(w.value.(steerY := angle)) else None
  }

  /** The index of each wheel ref in the car's list, front ones first. */
  const FrontLeft: nat := 0
  const FrontRight: nat := 1
  const RearLeft: nat := 2
  const RearRight: nat := 3

  /** The car component: the refs and the visual state that its frame
      callback reads and writes. */
  class Car {
    /** The key flags of the controls hook. */
    const controls: Input
    /** The rigid body ref; None until the body is mounted. */
    var body: Option<Body>
    /** The orbit camera's target; None while the camera ref is unset. */
    var orbitTarget: Option<Vec3>
    /** The smoothed steer angle drawn on the front wheels. */
    var steerAngle: real
    /** A spin accumulator the component declares but never updates. */
    var wheelSpinAngle: real
    /** The four wheel refs: front-left, front-right, rear-left, rear-right. */
    var wheels: seq<Option<Wheel>>
    /** The brake-light material's emissive intensity. */
    var brakeIntensity: real

    ghost predicate Valid()
      reads this
    {
      |wheels| == 4
    }

    /** The component before the renderer has attached any ref. */
    constructor (controls: Input)
      ensures Valid()
      ensures this.controls == controls
      ensures body == None && orbitTarget == None
      ensures wheels == [None, None, None, None]
      ensures steerAngle == 0.0 && wheelSpinAngle == 0.0 && brakeIntensity == 0.0
    {
      this.controls := controls;
      body := None;
      orbitTarget := None;
      steerAngle := 0.0;
      wheelSpinAngle := 0.0;
      wheels := [None, None, None, None];
      brakeIntensity := 0.0;
    }

    /** The renderer attaching the refs: the body at the spawn point, four
        wheels with their tires, and the orbit camera at its default target. */
    method Mount()
      requires Valid()
      modifies this
      ensures Valid()
      ensures body == Some(InitialBody)
      ensures orbitTarget == Some(Zero)
      ensures wheels == seq(4, _ => Some(Wheel(0.0, Some(0.0))))
      ensures steerAngle == old(steerAngle) && wheelSpinAngle == old(wheelSpinAngle)
      ensures brakeIntensity == old(brakeIntensity)
    {
      body := Some(InitialBody);
      orbitTarget := Some(Zero);
      wheels := seq(4, _ => Some(Wheel(0.0, Some(0.0))));
    }

    /** One frame. `heading` is the canonical forward axis (0, 0, 1) rotated by
        the body's rotation as read at the start of the frame; `delta` is the
        frame time in seconds. */
    method Tick(delta: real, heading: Vec3, enginePower: real)
      requires Valid()
      requires MinEnginePower <= enginePower <= MaxEnginePower
      modifies this
      ensures Valid()
      ensures wheelSpinAngle == old(wheelSpinAngle)
      // Without a body the frame does nothing.
      ensures old(body).None? ==>
        body == old(body) && orbitTarget == old(orbitTarget) && steerAngle == old(steerAngle) &&
        wheels == old(wheels) && brakeIntensity == old(brakeIntensity)
      // Respawn: all four resets happen exactly when the body is below the fall limit.
      ensures old(body).Some? ==> (body.Some? &&
        var b, fell := old(body).value, old(body).value.translation.y < FallLimit;
        body.value.translation == (if fell then Spawn else b.translation) &&
        body.value.rotation == (if fell then Identity else b.rotation) &&
        body.value.linvel == (if fell then Zero else b.linvel))
      // Steering, drive and drag run whether or not the body was respawned.
      ensures old(body).Some? ==> (body.Some? &&
        body.value.angvel == Vec3(0.0, YawRate(controls.Snapshot()), 0.0) &&
        body.value.impulse == Impulse(heading, controls.Snapshot(), enginePower) &&
        body.value.linearDamping == (if controls.brake then BrakeDrag else CoastDrag))
      // The camera follows the position read before any respawn.
      ensures old(body).Some? ==>
        orbitTarget == (if old(orbitTarget).Some? then Some(old(body).value.translation) else None)
      // The drawn steer angle moves toward its target, and stays in range on short frames.
      ensures old(body).Some? ==> steerAngle == SteerStep(old(steerAngle), controls.Snapshot(), delta)
      ensures old(body).Some? && 0.0 <= delta * SteerRate <= 1.0 && -MaxSteerVis <= old(steerAngle) <= MaxSteerVis ==>
        -MaxSteerVis <= steerAngle <= MaxSteerVis
      // Only the front wheels are steered; every present tire turns by one step
      // computed from the velocity read before any respawn.
      ensures old(body).Some? ==>
        wheels == SpinAll(SteerFront(old(wheels), steerAngle), SpinStep(old(body).value.linvel, heading, delta))
      // The brake flag alone decides the brake light.
      ensures old(body).Some? ==> brakeIntensity == (if controls.brake then BrakeGlow else 0.0)
    {
      if body.None? {
        return;
      }
      var flags := controls.Snapshot();
      var pos, vel := body.value.translation, body.value.linvel;
      ghost var wheels0 := wheels;
      Physics(flags, heading, enginePower);
      assert wheels == wheels0;
      Visuals(flags, pos, vel, heading, delta);
    }

    /** The physics half of a frame: respawn after a fall, then yaw rate,
        drive impulse and damping, each a write to the body. */
    method Physics(flags: Flags, heading: Vec3, enginePower: real)
      requires body.Some?
      requires MinEnginePower <= enginePower <= MaxEnginePower
      modifies this`body
      ensures body.Some?
      ensures var b, fell := old(body).value, old(body).value.translation.y < FallLimit;
        body.value.translation == (if fell then Spawn else b.translation) &&
        body.value.rotation == (if fell then Identity else b.rotation) &&
        body.value.linvel == (if fell then Zero else b.linvel)
      ensures body.value.angvel == Vec3(0.0, YawRate(flags), 0.0)
      ensures body.value.impulse == Impulse(heading, flags, enginePower)
      ensures body.value.linearDamping == (if flags.brake then BrakeDrag else CoastDrag)
    {
      if body.value.translation.y < FallLimit {
        body := Some(body.value.(translation := Spawn));
        body := Some(body.value.(linvel := Zero));
        body := Some(body.value.(angvel := Zero));
        body := Some(body.value.(rotation := Identity));
      }

      var targetTurn := 0.0;
      if flags.left {
        targetTurn := TurnSpeed;
      }
      if flags.right {
        targetTurn := -TurnSpeed;
      }
      body := Some(body.value.(angvel := Vec3(0.0, targetTurn, 0.0)));

      var impulseStrength := 0.0;
      if flags.forward {
        impulseStrength := -enginePower;
      } else if flags.backward {
        impulseStrength := enginePower;
      }
      assert impulseStrength == ImpulseStrength(flags, enginePower);
      body := Some(body.value.(impulse := Vec3(heading.x * impulseStrength, 0.0, heading.z * impulseStrength)));

      var currentDrag := if flags.brake then BrakeDrag else CoastDrag;
      body := Some(body.value.(linearDamping := currentDrag));
    }

    /** The visual half of a frame: camera target, smoothed front-wheel
        steer, tire spin from the frame's forward speed, and the brake light.
        `pos` and `vel` are the body's translation and velocity as read at
        the start of the frame. */
    method Visuals(flags: Flags, pos: Vec3, vel: Vec3, heading: Vec3, delta: real)
      requires Valid()
      modifies this`orbitTarget, this`steerAngle, this`wheels, this`brakeIntensity
      ensures Valid()
      ensures orbitTarget == (if old(orbitTarget).Some? then Some(pos) else None)
      ensures steerAngle == SteerStep(old(steerAngle), flags, delta)
      ensures 0.0 <= delta * SteerRate <= 1.0 && -MaxSteerVis <= old(steerAngle) <= MaxSteerVis ==>
        -MaxSteerVis <= steerAngle <= MaxSteerVis
      ensures wheels == SpinAll(SteerFront(old(wheels), steerAngle), SpinStep(vel, heading, delta))
      ensures brakeIntensity == (if flags.brake then BrakeGlow else 0.0)
    {
      if orbitTarget.Some? {
        orbitTarget := Some(pos);
      }

      var targetSteerVis := if flags.left then MaxSteerVis else (if flags.right then -MaxSteerVis else 0.0);
      steerAngle := Lerp(steerAngle, targetSteerVis, delta * SteerRate);
      if wheels[FrontLeft].Some? {
        wheels := wheels[FrontLeft := Some(wheels[FrontLeft].value.(steerY := steerAngle))];
      }
      if wheels[FrontRight].Some? {
        wheels := wheels[FrontRight := Some(wheels[FrontRight].value.(steerY := steerAngle))];
      }

      assert wheels == SteerFront(old(wheels), steerAngle);

      var spinStep := SpinStep(vel, heading, delta);
      ghost var steered := wheels;
      wheels := SpinTires(wheels, spinStep);
      assert forall k :: 0 <= k < |wheels| ==> wheels[k] == SpinAll(steered, spinStep)[k];

      brakeIntensity := if flags.brake then BrakeGlow else 0.0;
    }
  }

  /** The respawn point is the point the body is created at. */
  lemma RespawnIsInitialSpawn()
    ensures Spawn == InitialBody.translation
    ensures InitialBody.rotation == Identity && InitialBody.linvel == Zero && InitialBody.angvel == Zero
  {
  }
}
