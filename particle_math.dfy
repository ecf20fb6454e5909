/** Value-level description of the particle engine: its tunables, the sampling
    of a fresh particle record, one tick of motion for one slot, the wrapping
    phase accumulator, the particle count rounding, and the mirrored writes into
    the packed buffers, each with the properties it keeps. The classes of module
    ParticleEngine are proved against these functions. */
module ParticleMath {
  import opened JsNumbers

  datatype Vec2 = Vec2(x: real, y: real)
  datatype Vec3 = Vec3(x: real, y: real, z: real)

  /** The engine's tunables, as its constructor sets them. */
  datatype Settings = Settings(
    particleOpacityMin: real, particleOpacityMax: real,
    particleSizeMin: real, particleSizeMax: real,
    cameraZPlane: real, particleDespawnBuffer: real,
    particleRadiusMin: real, particleRadiusMax: real,
    particleBaseSpeed: real,
    particleSpeedMultMin: real, particleSpeedMultMax: real,
    particlePhaseSpeedMin: real, particlePhaseSpeedMax: real,
    particlePhaseAmplitudeMin: real, particlePhaseAmplitudeMax: real,
    particlePhaseSpeedMultMin: real, particlePhaseSpeedMultMax: real,
    particlePhaseAmplitudeMultMin: real, particlePhaseAmplitudeMultMax: real,
    sizeMult: real,
    baseSpeed: real)

  /** Settings under which the engine's guarantees hold: a camera plane in
      front of the origin, ordered ranges, and non-negative radii, phase speeds
      and phase speed multipliers. */
  predicate Sane(s: Settings) {
    0.0 < s.cameraZPlane
    && s.particleSizeMin <= s.particleSizeMax
    && 0.0 <= s.particleRadiusMin <= s.particleRadiusMax
    && s.particleSpeedMultMin <= s.particleSpeedMultMax
    && 0.0 <= s.particlePhaseSpeedMin <= s.particlePhaseSpeedMax
    && s.particlePhaseAmplitudeMin <= s.particlePhaseAmplitudeMax
    && 0.0 <= s.particlePhaseSpeedMultMin <= s.particlePhaseSpeedMultMax
    && s.particlePhaseAmplitudeMultMin <= s.particlePhaseAmplitudeMultMax
  }

  /** The settings the forward-cone guarantee needs: a camera plane ahead of
      the origin and an ordered range of non-negative spawn radii. Sane
      settings have them. */
  predicate ConeSettings(s: Settings) {
    0.0 < s.cameraZPlane && 0.0 <= s.particleRadiusMin <= s.particleRadiusMax
  }

  /** The values the constructor assigns. */
  function DefaultSettings(): (s: Settings)
    ensures Sane(s)
    ensures 0.0 < s.particleBaseSpeed && s.particleDespawnBuffer < s.cameraZPlane
  {
    Settings(
      0.9, 1.0,        // opacity
      8.0, 13.0,       // size
      200.0, 0.0,      // camera plane, despawn buffer
      10.0, 120.0,     // radius
      0.15,            // particleBaseSpeed
      1.1, 1.45,       // speed multiplier
      0.1, 0.25,       // phase speed
      0.05, 0.4,       // phase amplitude
      0.025, 0.4,      // phase speed multiplier
      0.1, 1.0,        // phase amplitude multiplier
      1.0,             // sizeMult
      1.0)             // baseSpeed
  }

  // ---------------------------------------------------------------------------
  // Random sampling

  /** Where `random(lo, hi)` of a draw in [0, 1) lands: in [lo, hi) for an
      ascending range, exactly lo for an empty one, in (hi, lo] for a reversed one. */
  predicate InDrawRange(v: real, lo: real, hi: real) {
    if lo < hi then lo <= v < hi
    else if lo == hi then v == lo
    else hi < v <= lo
  }

  /** `random(min, max)` applied to the value `u` that `Math.random()` returned. */
  function RandomValue(u: real, lo: real, hi: real): real {
    Portion(u, hi - lo) + lo
  }

  /** A base size multiplied by sizeMult. */
  function ScaledSize(base: real, mult: real): real {
    base * mult
  }

  /** The share `u` of the width `d`. */
  function Portion(u: real, d: real): real {
    u * d
  }

  /** A draw in [0, 1) scales into the range `random(lo, hi)` promises. */
  lemma RandomValueInRange(u: real, lo: real, hi: real)
    requires 0.0 <= u < 1.0
    ensures InDrawRange(RandomValue(u, lo, hi), lo, hi)
  {
    FractionOf(u, hi - lo);
  }

  /** Every value of `u` lies in [0, 1). */
  predicate UnitSeq(u: seq<real>) {
    forall k :: 0 <= k < |u| ==> 0.0 <= u[k] < 1.0
  }

  /** The constant part of a particle record: the lateral direction per unit of
      forward travel, the speed multiplier, and the phase amplitude and speed. */
  datatype Velocity = Velocity(trajectory: Vec2, speed: real, phaseAmp: Vec2, phaseSpeed: Vec2)

  /** The spawn angle `PI * Math.random() - PI / 2`. */
  function SpawnAngle(u: real): (theta: real)
    ensures 0.0 <= u < 1.0 ==> -PI / 2.0 <= theta < PI / 2.0
  {
    PI * u - PI / 2.0
  }

  /** The record's speed, phase amplitudes and phase speeds lie in their
      configured ranges. */
  predicate WithinSpawnRanges(v: Velocity, s: Settings) {
    InDrawRange(v.speed, s.particleSpeedMultMin, s.particleSpeedMultMax)
    && InDrawRange(v.phaseAmp.x, s.particlePhaseAmplitudeMin, s.particlePhaseAmplitudeMax)
    && InDrawRange(v.phaseAmp.y, s.particlePhaseAmplitudeMin, s.particlePhaseAmplitudeMax)
    && InDrawRange(v.phaseSpeed.x, s.particlePhaseSpeedMin, s.particlePhaseSpeedMax)
    && InDrawRange(v.phaseSpeed.y, s.particlePhaseSpeedMin, s.particlePhaseSpeedMax)
  }

  /** The trajectory points into the forward half-cone (non-negative x) and
      reaches at most particleRadiusMax sideways per cameraZPlane of travel. */
  predicate InForwardCone(v: Velocity, s: Settings)
    requires s.cameraZPlane != 0.0
  {
    InCone(v.trajectory, s.particleRadiusMax / s.cameraZPlane)
  }

  /** A direction with non-negative x and both components at most `bound` in size. */
  predicate InCone(t: Vec2, bound: real) {
    0.0 <= t.x <= bound && Abs(t.y) <= bound
  }

  /** The record `resetVelocity` builds from seven successive draws `u`: a
      radius and an angle for the trajectory, then the speed, the two phase
      amplitudes and the two phase speeds. */
  function SampleVelocity(s: Settings, sin: RealFn, cos: RealFn, u: seq<real>): Velocity
    requires |u| == 7 && s.cameraZPlane != 0.0
  {
    var r := RandomValue(u[0], s.particleRadiusMin, s.particleRadiusMax);
    var theta := SpawnAngle(u[1]);
    Velocity(
      Trajectory(r, At(cos, theta), At(sin, theta), s.cameraZPlane),
      RandomValue(u[2], s.particleSpeedMultMin, s.particleSpeedMultMax),
      Vec2(RandomValue(u[3], s.particlePhaseAmplitudeMin, s.particlePhaseAmplitudeMax),
           RandomValue(u[4], s.particlePhaseAmplitudeMin, s.particlePhaseAmplitudeMax)),
      Vec2(RandomValue(u[5], s.particlePhaseSpeedMin, s.particlePhaseSpeedMax),
           RandomValue(u[6], s.particlePhaseSpeedMin, s.particlePhaseSpeedMax)))
  }

  /** A record built from seven draws in [0, 1) has its speed, amplitudes and
      phase speeds in their configured ranges and, when the trigonometric
      functions behave, the camera plane lies ahead and the radius range is
      an ordered range of non-negative radii, a trajectory in the forward
      half-cone. */
  lemma SampleVelocityBounds(s: Settings, sin: RealFn, cos: RealFn, u: seq<real>)
    requires |u| == 7 && s.cameraZPlane != 0.0 && UnitSeq(u)
    ensures WithinSpawnRanges(SampleVelocity(s, sin, cos, u), s)
    ensures TrigRanges(sin, cos) && ConeSettings(s) ==> InForwardCone(SampleVelocity(s, sin, cos, u), s)
  {
    assert 0.0 <= u[0] < 1.0 && 0.0 <= u[1] < 1.0 && 0.0 <= u[2] < 1.0;
    assert 0.0 <= u[3] < 1.0 && 0.0 <= u[4] < 1.0;
    assert 0.0 <= u[5] < 1.0 && 0.0 <= u[6] < 1.0;
    RandomValueInRange(u[2], s.particleSpeedMultMin, s.particleSpeedMultMax);
    RandomValueInRange(u[3], s.particlePhaseAmplitudeMin, s.particlePhaseAmplitudeMax);
    RandomValueInRange(u[4], s.particlePhaseAmplitudeMin, s.particlePhaseAmplitudeMax);
    RandomValueInRange(u[5], s.particlePhaseSpeedMin, s.particlePhaseSpeedMax);
    RandomValueInRange(u[6], s.particlePhaseSpeedMin, s.particlePhaseSpeedMax);
    if TrigRanges(sin, cos) && ConeSettings(s) {
      var r := RandomValue(u[0], s.particleRadiusMin, s.particleRadiusMax);
      var theta := SpawnAngle(u[1]);
      RandomValueInRange(u[0], s.particleRadiusMin, s.particleRadiusMax);
      assert 0.0 <= At(cos, theta) <= 1.0 && -1.0 <= At(sin, theta) <= 1.0;
      TrajectoryInCone(r, At(cos, theta), At(sin, theta), s.particleRadiusMax, s.cameraZPlane);
    }
  }

  /** The trajectory of a spawn at radius `r` and an angle with cosine `c` and
      sine `sn`, per unit of forward travel toward a camera plane at `z`. */
  function Trajectory(r: real, c: real, sn: real, z: real): Vec2
    requires z != 0.0
  {
    Vec2(r * c / z, r * sn / z)
  }

  /** A spawn radius in [0, rMax] along a direction whose cosine is
      non-negative yields a trajectory in the cone of half-width rMax / z. */
  lemma TrajectoryInCone(r: real, c: real, sn: real, rMax: real, z: real)
    requires 0.0 <= r <= rMax && 0.0 < z
    requires 0.0 <= c <= 1.0 && -1.0 <= sn <= 1.0
    ensures InCone(Trajectory(r, c, sn, z), rMax / z)
  {
    UnitScale(r, c);
    UnitScale(r, sn);
    DivBound(r * c, rMax, z);
    DivBound(r * sn, rMax, z);
  }

  lemma UnitScale(r: real, c: real)
    requires 0.0 <= r && -1.0 <= c <= 1.0
    ensures Abs(r * c) <= r
    ensures 0.0 <= c ==> 0.0 <= r * c
  {
    if 0.0 <= c {
      assert r * c <= r * 1.0;
    } else {
      assert r * (-c) <= r * 1.0;
      assert -(r * c) == r * (-c);
    }
  }

  lemma DivBound(a: real, b: real, z: real)
    requires Abs(a) <= b && 0.0 < z
    ensures Abs(a / z) <= b / z
    ensures 0.0 <= a ==> 0.0 <= a / z
  {
    if 0.0 <= a {
      assert b / z - a / z == (b - a) / z;
    } else {
      assert b / z + a / z == (b + a) / z;
    }
  }

  /** A fraction in [0, 1) of `d` lies between 0 and `d`, never reaching `d`. */
  lemma FractionOf(u: real, d: real)
    requires 0.0 <= u < 1.0
    ensures 0.0 < d ==> 0.0 <= Portion(u, d) < d
    ensures d < 0.0 ==> d < Portion(u, d) <= 0.0
    ensures d == 0.0 ==> Portion(u, d) == 0.0
  {
    assert (1.0 - u) * d == d - u * d;
    if 0.0 < d {
      assert 0.0 < (1.0 - u) * d;
    } else if d < 0.0 {
      assert (1.0 - u) * d < 0.0;
    }
  }

  lemma MulPos(a: real, b: real)
    requires 0.0 < a && 0.0 < b
    ensures 0.0 < a * b
  {
  }

  lemma MulNonneg(a: real, b: real)
    requires 0.0 <= a && 0.0 <= b
    ensures 0.0 <= a * b
  {
  }


  /** `v` is a record that `resetVelocity` could have built from draws of
      `Math.random()`. */
  ghost predicate Sampled(v: Velocity, s: Settings, sin: RealFn, cos: RealFn) {
    s.cameraZPlane != 0.0
    && exists u: seq<real> :: |u| == 7 && UnitSeq(u) && SampleVelocity(s, sin, cos, u) == v
  }

  /** Every freshly sampled record respects the spawn ranges and, under the
      same conditions as SampleVelocityBounds, the forward half-cone. */
  lemma SampledBounds(v: Velocity, s: Settings, sin: RealFn, cos: RealFn)
    requires Sampled(v, s, sin, cos)
    ensures WithinSpawnRanges(v, s)
    ensures TrigRanges(sin, cos) && ConeSettings(s) ==> InForwardCone(v, s)
  {
    var u :| |u| == 7 && UnitSeq(u) && SampleVelocity(s, sin, cos, u) == v;
    SampleVelocityBounds(s, sin, cos, u);
  }

  // ---------------------------------------------------------------------------
  // One tick of motion for one slot

  /** A record together with its current phase. */
  datatype RecordState = RecordState(velocity: Velocity, phase: Vec2)

  /** `(max - min) * t + min`: linear interpolation that is not clamped, so a
      parameter above 1 overshoots `max`. */
  function Interpolate(lo: real, hi: real, t: real): real {
    Portion(t, hi - lo) + lo
  }

  /** Interpolation hits its end points at 0 and 1, stays between them for a
      parameter in [0, 1] and overshoots the upper one above 1. */
  lemma InterpolateBounds(lo: real, hi: real, t: real)
    ensures t == 0.0 ==> Interpolate(lo, hi, t) == lo
    ensures t == 1.0 ==> Interpolate(lo, hi, t) == hi
    ensures lo <= hi && 0.0 <= t ==> lo <= Interpolate(lo, hi, t)
    ensures lo <= hi && 0.0 <= t <= 1.0 ==> Interpolate(lo, hi, t) <= hi
    ensures lo < hi && 1.0 < t ==> hi < Interpolate(lo, hi, t)
  {
    if lo <= hi && 0.0 <= t {
      MulNonneg(t, hi - lo);
      if t <= 1.0 {
        ScaleDown(hi - lo, t);
      } else if lo < hi {
        ScaleUp(hi - lo, t);
      }
    }
  }

  lemma ScaleDown(d: real, t: real)
    requires 0.0 <= d && 0.0 <= t <= 1.0
    ensures Portion(t, d) <= d
  {
    MulNonneg(1.0 - t, d);
    assert (1.0 - t) * d == d - t * d;
  }

  lemma ScaleUp(d: real, t: real)
    requires 0.0 < d && 1.0 < t
    ensures d < Portion(t, d)
  {
    MulPos(t - 1.0, d);
    assert (t - 1.0) * d == t * d - d;
  }

  /** The wobble amplitude multiplier for an impact `multiplier`. */
  function AmplitudeMultiplier(s: Settings, multiplier: real): real {
    Interpolate(s.particlePhaseAmplitudeMultMin, s.particlePhaseAmplitudeMultMax, multiplier)
  }

  /** The phase speed multiplier for an impact `multiplier`. */
  function PhaseSpeedMultiplier(s: Settings, multiplier: real): real {
    Interpolate(s.particlePhaseSpeedMultMin, s.particlePhaseSpeedMultMax, multiplier)
  }

  /** The forward distance of one tick. The record's speed (1 during the
      burn-in pass) is scaled by baseSpeed, by the impact multiplier and by
      baseSpeed a second time, and floored at particleBaseSpeed. */
  function ForwardStep(s: Settings, speed: real, multiplier: real, ignoreSpeed: bool): real {
    var base := if ignoreSpeed then 1.0 * s.baseSpeed else speed * s.baseSpeed;
    Max(base * multiplier * s.baseSpeed, s.particleBaseSpeed)
  }

  /** The forward step is never below particleBaseSpeed, and never below the
      doubly baseSpeed-scaled product it is the maximum of. */
  lemma ForwardStepFloor(s: Settings, speed: real, multiplier: real, ignoreSpeed: bool)
    ensures s.particleBaseSpeed <= ForwardStep(s, speed, multiplier, ignoreSpeed)
    ensures (if ignoreSpeed then 1.0 else speed) * s.baseSpeed * multiplier * s.baseSpeed
              <= ForwardStep(s, speed, multiplier, ignoreSpeed)
  {
    var base := if ignoreSpeed then 1.0 * s.baseSpeed else speed * s.baseSpeed;
    assert base == (if ignoreSpeed then 1.0 else speed) * s.baseSpeed;
  }

  /** The lateral wobble on one axis: a sine of the phase (in turns) scaled by
      the record's amplitude and the amplitude multiplier. */
  function Wobble(sin: RealFn, phase: real, amp: real, ampMult: real): real {
    At(sin, PI * 2.0 * phase) * amp * ampMult
  }

  /** A wobble never exceeds its amplitude times the multiplier. */
  lemma WobbleBounded(sin: RealFn, phase: real, amp: real, ampMult: real)
    requires SinBounded(sin)
    ensures Abs(Wobble(sin, phase, amp, ampMult)) <= Abs(amp * ampMult)
  {
    var sv := At(sin, PI * 2.0 * phase);
    ScaledByUnit(sv, amp * ampMult);
    assert sv * amp * ampMult == sv * (amp * ampMult);
  }

  lemma ScaledByUnit(c: real, a: real)
    requires -1.0 <= c <= 1.0
    ensures Abs(c * a) <= Abs(a)
  {
    if 0.0 <= a {
      assert c * a <= 1.0 * a && -1.0 * a <= c * a;
    } else {
      assert 1.0 * a <= c * a && c * a <= -1.0 * a;
    }
  }

  /** The position a slot would move to in one tick, before the despawn test:
      forward by the forward step, sideways by the trajectory times that step
      plus the wobble of the current phase. */
  function NextPosition(p: Vec3, rec: RecordState, s: Settings, multiplier: real,
                        ignoreSpeed: bool, sin: RealFn): Vec3
  {
    var d := ForwardStep(s, rec.velocity.speed, multiplier, ignoreSpeed);
    var ampMult := AmplitudeMultiplier(s, multiplier);
    Vec3(p.x + rec.velocity.trajectory.x * d + Wobble(sin, rec.phase.x, rec.velocity.phaseAmp.x, ampMult),
         p.y + rec.velocity.trajectory.y * d + Wobble(sin, rec.phase.y, rec.velocity.phaseAmp.y, ampMult),
         p.z + d)
  }

  /** One tick moves a slot forward by at least particleBaseSpeed, and
      sideways along its trajectory, scaled by that forward step, plus a
      wobble that never exceeds the amplitude times the amplitude multiplier. */
  lemma NextPositionAdvances(p: Vec3, rec: RecordState, s: Settings, multiplier: real,
                             ignoreSpeed: bool, sin: RealFn)
    requires SinBounded(sin)
    ensures var q := NextPosition(p, rec, s, multiplier, ignoreSpeed, sin);
      var ampMult := AmplitudeMultiplier(s, multiplier);
      var wx := Wobble(sin, rec.phase.x, rec.velocity.phaseAmp.x, ampMult);
      var wy := Wobble(sin, rec.phase.y, rec.velocity.phaseAmp.y, ampMult);
      p.z + s.particleBaseSpeed <= q.z
      && q.z - p.z == ForwardStep(s, rec.velocity.speed, multiplier, ignoreSpeed)
      && q.x - p.x - rec.velocity.trajectory.x * (q.z - p.z) == wx
      && q.y - p.y - rec.velocity.trajectory.y * (q.z - p.z) == wy
      && Abs(wx) <= Abs(rec.velocity.phaseAmp.x * ampMult)
      && Abs(wy) <= Abs(rec.velocity.phaseAmp.y * ampMult)
  {
    var ampMult := AmplitudeMultiplier(s, multiplier);
    ForwardStepFloor(s, rec.velocity.speed, multiplier, ignoreSpeed);
    WobbleBounded(sin, rec.phase.x, rec.velocity.phaseAmp.x, ampMult);
    WobbleBounded(sin, rec.phase.y, rec.velocity.phaseAmp.y, ampMult);
  }

  /** A slot whose new forward position, padded by the despawn buffer, passes
      the camera plane is recycled. */
  predicate Despawns(z: real, s: Settings) {
    s.cameraZPlane < z + s.particleDespawnBuffer
  }

  // ---------------------------------------------------------------------------
  // Phase

  /** Both components of a phase lie in [0, 1). */
  predicate PhaseInRange(p: Vec2) {
    0.0 <= p.x < 1.0 && 0.0 <= p.y < 1.0
  }

  /** The phase advance of one tick: the record's phase speed times the phase
      speed multiplier, per component. */
  function PhaseSteps(v: Velocity, s: Settings, multiplier: real): Vec2 {
    var m := PhaseSpeedMultiplier(s, multiplier);
    Vec2(v.phaseSpeed.x * m, v.phaseSpeed.y * m)
  }

  /** With a non-negative multiplier, a non-negative phase speed range and
      non-negative phase speeds, the phase only moves forward. */
  lemma PhaseStepsNonneg(v: Velocity, s: Settings, multiplier: real)
    requires 0.0 <= multiplier && 0.0 <= s.particlePhaseSpeedMultMin <= s.particlePhaseSpeedMultMax
    requires 0.0 <= v.phaseSpeed.x && 0.0 <= v.phaseSpeed.y
    ensures 0.0 <= PhaseSteps(v, s, multiplier).x && 0.0 <= PhaseSteps(v, s, multiplier).y
  {
    var m := PhaseSpeedMultiplier(s, multiplier);
    InterpolateBounds(s.particlePhaseSpeedMultMin, s.particlePhaseSpeedMultMax, multiplier);
    MulNonneg(v.phaseSpeed.x, m);
    MulNonneg(v.phaseSpeed.y, m);
  }

  /** `augmentPhase`: each component advances by its step and wraps with
      JavaScript's `% 1`. */
  function Augmented(phase: Vec2, step: Vec2): (r: Vec2)
    ensures 0.0 <= phase.x && 0.0 <= step.x ==> 0.0 <= r.x < 1.0
    ensures 0.0 <= phase.y && 0.0 <= step.y ==> 0.0 <= r.y < 1.0
    ensures (phase.x + step.x - r.x).Floor as real == phase.x + step.x - r.x
    ensures (phase.y + step.y - r.y).Floor as real == phase.y + step.y - r.y
  {
    Vec2(FracRem(phase.x + step.x), FracRem(phase.y + step.y))
  }

  /** The phase after one `augmentPhase` per step of `steps`, in order. */
  function PhaseAfter(phase: Vec2, steps: seq<Vec2>): Vec2
    decreases |steps|
  {
    if steps == [] then phase else PhaseAfter(Augmented(phase, steps[0]), steps[1..])
  }

  /** However many ticks pass, non-negative steps keep a phase in [0, 1). */
  lemma {:induction false} PhaseAfterInRange(phase: Vec2, steps: seq<Vec2>)
    requires PhaseInRange(phase)
    requires forall k :: 0 <= k < |steps| ==> 0.0 <= steps[k].x && 0.0 <= steps[k].y
    ensures PhaseInRange(PhaseAfter(phase, steps))
    decreases |steps|
  {
    if steps != [] {
      PhaseAfterInRange(Augmented(phase, steps[0]), steps[1..]);
    }
  }

  // ---------------------------------------------------------------------------
  // Particle count

  /** `Math.floor(n) + Math.floor(n) % 2`: the requested count rounded to an
      even number, upward for non-negative requests. */
  function ParticleCount(requested: real): (n: int)
    ensures n % 2 == 0
    ensures 0.0 <= requested ==> 0 <= n && requested.Floor <= n <= requested.Floor + 1
    ensures requested < 0.0 ==> n < 0 && requested.Floor - 1 <= n <= requested.Floor
    ensures n == requested.Floor <==> requested.Floor % 2 == 0
  {
    var f := requested.Floor;
    f + RemTwo(f)
  }

  // ---------------------------------------------------------------------------
  // Packed buffers

  /** The position of slot `j` of a stride-3 buffer. */
  function Slot(pos: seq<real>, j: int): Vec3
    requires 0 <= j && 3 * j + 2 < |pos|
  {
    Vec3(pos[3 * j], pos[3 * j + 1], pos[3 * j + 2])
  }

  /** `m` is `p` reflected in x. */
  predicate MirrorOf(m: Vec3, p: Vec3) {
    m.x == -p.x && m.y == p.y && m.z == p.z
  }

  /** Every slot `j` of the first h has its x-mirrored copy at `j + h`. */
  ghost predicate PositionsMirrored(pos: seq<real>, h: int)
    requires 0 <= h && |pos| == 6 * h
  {
    MirroredUpTo(pos, h, h)
  }

  /** The first n slots have their x-mirrored copies at `j + h`. */
  ghost predicate MirroredUpTo(pos: seq<real>, h: int, n: int)
    requires 0 <= n <= h && |pos| == 6 * h
  {
    forall j :: 0 <= j < n ==> SlotMirrored(pos, h, j)
  }

  /** Slot `j + h` is slot `j` reflected in x. */
  ghost predicate SlotMirrored(pos: seq<real>, h: int, j: int)
    requires 0 <= j < h && |pos| == 6 * h
  {
    MirrorOf(Slot(pos, j + h), Slot(pos, j))
  }

  /** Every entry `j` of the first h is repeated at `j + h`. */
  ghost predicate ValuesMirrored(a: seq<real>, h: int)
    requires 0 <= h && |a| == 2 * h
  {
    forall j, k :: 0 <= j < h && k == j + h ==> a[k] == a[j]
  }

  /** `after` is `before` with slot i of the first half set to `v`, its
      mirror slot i + h set to `v` reflected in x, and every other slot of the
      2h unchanged. */
  ghost predicate Moved(before: seq<real>, after: seq<real>, i: int, v: Vec3, h: int)
    requires |before| == 6 * h && |after| == 6 * h && 0 <= i < h
  {
    Slot(after, i) == v
    && Slot(after, i + h) == Vec3(-v.x, v.y, v.z)
    && forall j :: 0 <= j < 2 * h && j != i && j != i + h ==> Slot(after, j) == Slot(before, j)
  }

  /** The value cell k of `before` holds once slot i is moved to `v`: the
      three cells of slot i take `v`, the three of its mirror take `v`
      reflected in x, and every other cell keeps its value. */
  function MovedCell(before: seq<real>, i: int, v: Vec3, h: int, k: int): real
    requires 0 <= k < |before|
  {
    if k == 3 * i then v.x
    else if k == 3 * i + 1 then v.y
    else if k == 3 * i + 2 then v.z
    else if k == 3 * (i + h) then -v.x
    else if k == 3 * (i + h) + 1 then v.y
    else if k == 3 * (i + h) + 2 then v.z
    else before[k]
  }

  /** Writing the six cells of a slot and its mirror, and only those, moves
      the slot. */
  lemma CellsMoved(before: seq<real>, after: seq<real>, i: int, v: Vec3, h: int)
    requires |before| == 6 * h && |after| == 6 * h && 0 <= i < h
    requires forall k :: 0 <= k < 6 * h ==> after[k] == MovedCell(before, i, v, h, k)
    ensures Moved(before, after, i, v, h)
  {
    assert after[3 * i] == v.x && after[3 * i + 1] == v.y && after[3 * i + 2] == v.z;
    var m := 3 * (i + h);
    assert after[m] == -v.x && after[m + 1] == v.y && after[m + 2] == v.z;
    forall j | 0 <= j < 2 * h && j != i && j != i + h
      ensures Slot(after, j) == Slot(before, j)
    {
      assert after[3 * j] == before[3 * j];
      assert after[3 * j + 1] == before[3 * j + 1];
      assert after[3 * j + 2] == before[3 * j + 2];
    }
  }

  /** Moving slot n, the first one not yet mirrored, extends the mirrored
      prefix by one slot. */
  lemma MovedExtendsMirror(before: seq<real>, after: seq<real>, n: int, v: Vec3, h: int)
    requires |before| == 6 * h && |after| == 6 * h && 0 <= n < h
    requires Moved(before, after, n, v, h) && MirroredUpTo(before, h, n)
    ensures MirroredUpTo(after, h, n + 1)
  {
    forall j | 0 <= j < n + 1
      ensures SlotMirrored(after, h, j)
    {
      if j != n {
        assert SlotMirrored(before, h, j);
        assert Slot(after, j) == Slot(before, j) && Slot(after, j + h) == Slot(before, j + h);
      }
    }
  }

  /** Moving a slot together with its mirror keeps a mirrored buffer mirrored. */
  lemma MovedKeepsMirror(before: seq<real>, after: seq<real>, i: int, v: Vec3, h: int)
    requires |before| == 6 * h && |after| == 6 * h && 0 <= i < h
    requires Moved(before, after, i, v, h) && PositionsMirrored(before, h)
    ensures PositionsMirrored(after, h)
  {
    forall j | 0 <= j < h
      ensures SlotMirrored(after, h, j)
    {
      if j != i {
        assert SlotMirrored(before, h, j);
        assert Slot(after, j) == Slot(before, j) && Slot(after, j + h) == Slot(before, j + h);
      }
    }
  }
}
