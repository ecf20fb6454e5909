/** The particle engine as the source structures it: a record class whose
    phase is advanced in place, and the engine class that owns N/2 record slots
    and three packed buffers (position with stride 3, size, alpha) that the
    renderer reads. Every write into a buffer goes through the mirrored-write
    helper, so N/2 simulated slots render as N particles, slot j + N/2 being
    slot j reflected in x. `Math.random()`, `Math.sin` and `Math.cos` are
    injected at construction; the audio impact multiplier is a parameter of
    Update. */
module ParticleEngine {
  import opened JsNumbers
  import opened ParticleMath

  /** The per-slot record: constant trajectory, speed, phase amplitude and
      phase speed, and a phase that advances every tick. */
  class ParticleData {
    const trajectory: Vec2
    const speed: real
    const phaseAmp: Vec2
    const phaseSpeed: Vec2
    var phase: Vec2

    constructor (trajectory: Vec2, speed: real, phaseAmp: Vec2, phaseSpeed: Vec2)
      ensures this.trajectory == trajectory && this.speed == speed
      ensures this.phaseAmp == phaseAmp && this.phaseSpeed == phaseSpeed
      ensures phase == Vec2(0.0, 0.0)
    {
      this.trajectory := trajectory;
      this.speed := speed;
      this.phaseAmp := phaseAmp;
      this.phaseSpeed := phaseSpeed;
      phase := Vec2(0.0, 0.0);
    }

    /** The record's constant part. */
    function Motion(): Velocity {
      Velocity(trajectory, speed, phaseAmp, phaseSpeed)
    }

    /** The record with its current phase. */
    ghost function State(): RecordState
      reads this
    {
      RecordState(Motion(), phase)
    }

    /** `augmentPhase`: advance each phase component and wrap it with `% 1`. */
    method AugmentPhase(stepX: real, stepY: real)
      modifies this
      ensures phase == Augmented(old(phase), Vec2(stepX, stepY))
    {
      phase := Augmented(phase, Vec2(stepX, stepY));
    }
  }

  /** What one `updatePosition` call made of a slot that held the record
      `prev`, in state `st`, at coordinates `before`, and that now holds `rec`
      at `after`: either the slot passed the despawn threshold and now sits at
      the origin with another, freshly sampled record whose phase is (0, 0),
      or it moved to NextPosition and kept its record, whose phase advanced by
      one step. */
  ghost predicate Ticked(s: Settings, sin: RealFn, cos: RealFn, multiplier: real,
                         ignoreSpeed: bool, before: Vec3, prev: ParticleData, st: RecordState,
                         after: Vec3, rec: ParticleData?)
    reads rec
  {
    var p := NextPosition(before, st, s, multiplier, ignoreSpeed, sin);
    if Despawns(p.z, s) then
      after == Vec3(0.0, 0.0, 0.0)
      && rec != null && rec != prev
      && rec.phase == Vec2(0.0, 0.0) && Sampled(rec.Motion(), s, sin, cos)
    else
      after == p
      && rec == prev
      && rec.State() == RecordState(st.velocity, Augmented(st.phase, PhaseSteps(st.velocity, s, multiplier)))
  }

  /** A record whose phase lies in [0, 1) and whose phase speed is
      non-negative. */
  ghost predicate RecordBounded(r: ParticleData)
    reads r
  {
    PhaseInRange(r.phase) && 0.0 <= r.phaseSpeed.x && 0.0 <= r.phaseSpeed.y
  }

  /** The coarse outcome of a tick for one slot that held `prev` at
      `before` and now holds `rec` at `after`: either the slot was recycled,
      holding another record at the origin, or it kept its record, moved
      forward by at least the base speed and stays in front of the camera
      plane by at least the despawn buffer. */
  predicate Advanced(s: Settings, before: Vec3, prev: ParticleData, after: Vec3, rec: ParticleData?) {
    if rec == prev then
      before.z + s.particleBaseSpeed <= after.z && after.z + s.particleDespawnBuffer <= s.cameraZPlane
    else
      rec != null && after == Vec3(0.0, 0.0, 0.0)
  }

  /** Every tick is Advanced, since NextPosition moves forward by at least
      the base speed. */
  lemma TickedAdvances(s: Settings, sin: RealFn, cos: RealFn, multiplier: real,
                       ignoreSpeed: bool, before: Vec3, prev: ParticleData, st: RecordState,
                       after: Vec3, rec: ParticleData?)
    requires Ticked(s, sin, cos, multiplier, ignoreSpeed, before, prev, st, after, rec)
    requires SinBounded(sin)
    ensures Advanced(s, before, prev, after, rec)
  {
    NextPositionAdvances(before, st, s, multiplier, ignoreSpeed, sin);
  }

  /** Part way through a tick of every slot: slots below i went from
      (`before`, `records`) to (`now`, `current`) by an Advanced tick and are
      mirrored, and the slots from i on are as they were. */
  ghost predicate AdvancedUpTo(s: Settings, before: seq<real>, records: seq<ParticleData?>,
                               now: seq<real>, current: seq<ParticleData?>, i: int, h: int)
  {
    0 <= i <= h && |before| == 6 * h && |now| == 6 * h && |records| == h && |current| == h
    && (forall j :: 0 <= j < i ==>
          records[j] != null && Advanced(s, Slot(before, j), records[j], Slot(now, j), current[j]))
    && (forall j :: i <= j < h ==> current[j] == records[j] && Slot(now, j) == Slot(before, j))
    && MirroredUpTo(now, h, i)
  }

  /** Ticking slot i, the first one not yet ticked, extends AdvancedUpTo by
      one slot. */
  lemma AdvancedStep(s: Settings, before: seq<real>, records: seq<ParticleData?>, now: seq<real>,
                     current: seq<ParticleData?>, next: seq<real>, rec: ParticleData, i: int, h: int)
    requires AdvancedUpTo(s, before, records, now, current, i, h) && i < h
    requires current[i] != null && |next| == 6 * h
    requires Moved(now, next, i, Slot(next, i), h)
    requires Advanced(s, Slot(now, i), current[i], Slot(next, i), rec)
    ensures AdvancedUpTo(s, before, records, next, current[i := rec], i + 1, h)
  {
    MovedExtendsMirror(now, next, i, Slot(next, i), h);
  }

  /** Under sane settings and a non-negative multiplier, a tick of a slot
      whose state had its phase in [0, 1) and a non-negative phase speed
      leaves a record with the same two properties, whether it kept its
      record or was given a fresh one. */
  lemma TickedKeepsBounded(s: Settings, sin: RealFn, cos: RealFn, multiplier: real,
                           ignoreSpeed: bool, before: Vec3, prev: ParticleData, st: RecordState,
                           after: Vec3, rec: ParticleData?)
    requires Ticked(s, sin, cos, multiplier, ignoreSpeed, before, prev, st, after, rec)
    requires TrigRanges(sin, cos) && Sane(s) && 0.0 <= multiplier
    requires PhaseInRange(st.phase) && 0.0 <= st.velocity.phaseSpeed.x && 0.0 <= st.velocity.phaseSpeed.y
    ensures rec != null && RecordBounded(rec)
  {
    var p := NextPosition(before, st, s, multiplier, ignoreSpeed, sin);
    if Despawns(p.z, s) {
      SampledBounds(rec.Motion(), s, sin, cos);
    } else {
      PhaseStepsNonneg(st.velocity, s, multiplier);
    }
  }

  /** The particle field. */
  class Particles {
    /** Floats per position entry. */
    const vertexSize: int := 3
    /** The injected `Math.random()`: the k-th draw of the run is `Draw(rand, k)`. */
    const rand: Draws
    /** The injected `Math.sin` and `Math.cos`. */
    const sin: RealFn
    const cos: RealFn
    /** How many draws of `Math.random()` have been taken so far. */
    var drawn: nat

    var settings: Settings
    var maxParticleCount: int
    /** One record per slot; null stands for JavaScript's `undefined`. */
    var particleData: seq<ParticleData?>
    var baseSizes: seq<real>
    var position: array<real>
    var size: array<real>
    var alpha: array<real>

    /** The constructor: the default settings, a requested count of 1200
        particles, and `initializeParticles` run once. */
    constructor (rand: Draws, sin: RealFn, cos: RealFn)
      requires UnitDraws(rand) && TrigRanges(sin, cos)
      ensures this.rand == rand && this.sin == sin && this.cos == cos
      ensures settings == DefaultSettings() && maxParticleCount == 1200
      ensures Valid() && Mirrored() && PhasesBounded()
      ensures fresh(position) && fresh(size) && fresh(alpha) && fresh(Records())
      ensures forall j :: 0 <= j < Half() ==>
        InDrawRange(baseSizes[j], settings.particleSizeMin, settings.particleSizeMax)
      ensures forall j :: 0 <= j < Half() ==> size[j] == ScaledSize(baseSizes[j], settings.sizeMult)
      ensures forall k :: 0 <= k < alpha.Length ==> 0.0 <= alpha[k] < 1.0
      ensures forall j :: 0 <= j < Half() ==> BurnedIn(Slot(position[..], j))
    {
      this.rand := rand;
      this.sin := sin;
      this.cos := cos;
      settings := DefaultSettings();
      maxParticleCount := 1200;
      drawn := 0;
      particleData := [];
      baseSizes := [];
      position := new real[0];
      size := new real[0];
      alpha := new real[0];
      new;
      var ok := InitializeParticles(maxParticleCount as real);
    }

    /** The number of simulated slots. */
    function Half(): int
      reads this`maxParticleCount
    {
      maxParticleCount / 2
    }

    /** The facts about the injected functions that the engine relies on, and
        a camera plane it can divide by. */
    ghost predicate Injected()
      reads this
    {
      UnitDraws(rand) && TrigRanges(sin, cos) && settings.cameraZPlane != 0.0
    }

    /** The layout: an even count N, buffers of lengths 3N, N and N that do not
        alias, N/2 record slots, and no record shared by two slots. */
    ghost predicate Shaped()
      reads this
    {
      Injected()
      && Layout()
      && size.Length == maxParticleCount && alpha.Length == maxParticleCount
      && position != size && position != alpha && size != alpha
      && |particleData| == Half()
      && (forall j, k :: 0 <= j < |particleData| && 0 <= k < |particleData| && j != k && particleData[j] != null
            ==> particleData[j] != particleData[k])
    }

    /** The state between ticks: every slot holds a record and has a base size. */
    ghost predicate Valid()
      reads this
    {
      Shaped()
      && |baseSizes| == Half()
      && (forall j :: 0 <= j < |particleData| ==> particleData[j] != null)
    }

    /** The records of the slots. */
    ghost function Records(): set<ParticleData>
      reads this
    {
      set j | 0 <= j < |particleData| && particleData[j] != null :: particleData[j]
    }

    /** The mirror invariant of the packed buffers. */
    ghost predicate Mirrored()
      reads this, position, size, alpha
      requires Shaped()
    {
      PositionsMirrored(position[..], Half())
      && ValuesMirrored(size[..], Half())
      && ValuesMirrored(alpha[..], Half())
    }

    /** Every record's phase lies in [0, 1) and its phase speed is
        non-negative, which keeps the phase in [0, 1) tick after tick. */
    ghost predicate PhasesBounded()
      reads this, Records()
      requires Valid()
    {
      forall j :: 0 <= j < |particleData| ==> RecordBounded(particleData[j])
    }

    /** The position buffer holds three floats for each of an even number N
        of particles (N is twice the number of slots). */
    ghost predicate Layout()
      reads this`maxParticleCount, this`position
    {
      0 <= maxParticleCount && maxParticleCount == 2 * Half()
      && position.Length == 3 * maxParticleCount
    }

    /** The position buffer is `before` with slot i moved to `v` and its
        mirror to `v` reflected in x. */
    ghost predicate SlotMoved(before: seq<real>, i: int, v: Vec3)
      reads this`maxParticleCount, this`position, position
      requires Layout() && 0 <= i < Half() && |before| == position.Length
    {
      Moved(before, position[..], i, v, Half())
    }

    /** The seven draws starting at draw number `from`. */
    function SevenDraws(from: nat): (u: seq<real>)
      ensures |u| == 7
    {
      [Draw(rand, from), Draw(rand, from + 1), Draw(rand, from + 2), Draw(rand, from + 3),
       Draw(rand, from + 4), Draw(rand, from + 5), Draw(rand, from + 6)]
    }

    lemma SevenDrawsUnit(from: nat)
      requires UnitDraws(rand)
      ensures UnitSeq(SevenDraws(from))
    {
      assert 0.0 <= Draw(rand, from) < 1.0 && 0.0 <= Draw(rand, from + 1) < 1.0;
      assert 0.0 <= Draw(rand, from + 2) < 1.0 && 0.0 <= Draw(rand, from + 3) < 1.0;
      assert 0.0 <= Draw(rand, from + 4) < 1.0 && 0.0 <= Draw(rand, from + 5) < 1.0;
      assert 0.0 <= Draw(rand, from + 6) < 1.0;
    }

    /** A call of `Math.random()`. */
    method NextRandom() returns (u: real)
      modifies this`drawn
      ensures drawn == old(drawn) + 1 && u == Draw(rand, old(drawn))
    {
      u := Draw(rand, drawn);
      drawn := drawn + 1;
    }

    /** `random(min, max)`: one draw scaled into the range. */
    method Random(lo: real, hi: real) returns (r: real)
      modifies this`drawn
      ensures drawn == old(drawn) + 1 && r == RandomValue(Draw(rand, old(drawn)), lo, hi)
    {
      var u := NextRandom();
      r := RandomValue(u, lo, hi);
    }

    /** `applyMirroredValue`: store `value` at `i` and at `i + step * N / 2`;
        the typed array ignores an index outside it. */
    method ApplyMirroredValue(arr: array<real>, i: int, value: real, step: int := 1)
      modifies arr
      ensures forall k :: 0 <= k < arr.Length ==>
        arr[k] == if k == i || k == i + step * maxParticleCount / 2 then value else old(arr[k])
    {
      var j := i + step * maxParticleCount / 2;
      if 0 <= i < arr.Length {
        arr[i] := value;
      }
      if 0 <= j < arr.Length {
        arr[j] := value;
      }
    }

    /** `applyPosition`: write (x, y, z) into slot i and its mirror, then negate
        the mirror's x. The source's offset `N * (3 / 2)` is `N * 3 / 2` for
        the even counts the engine keeps. */
    method ApplyPosition(i: int, x: real, y: real, z: real)
      requires Layout() && 0 <= i < Half()
      modifies position
      ensures SlotMoved(old(position[..]), i, Vec3(x, y, z))
      ensures forall k :: 0 <= k < position.Length ==>
        position[k] == MovedCell(old(position[..]), i, Vec3(x, y, z), Half(), k)
    {
      ghost var h := Half();
      var baseIndex := vertexSize * i;
      assert baseIndex == 3 * i && vertexSize * maxParticleCount / 2 == 3 * h;
      ApplyMirroredValue(position, baseIndex + 0, x, vertexSize);
      ApplyMirroredValue(position, baseIndex + 1, y, vertexSize);
      ApplyMirroredValue(position, baseIndex + 2, z, vertexSize);
      var m := baseIndex + maxParticleCount * 3 / 2;
      assert m == 3 * i + 3 * h;
      if 0 <= m < position.Length {
        position[m] := position[m] * -1.0;
      }
      assert forall k :: 0 <= k < 6 * h ==> position[k] == MovedCell(old(position[..]), i, Vec3(x, y, z), h, k);
      CellsMoved(old(position[..]), position[..], i, Vec3(x, y, z), h);
    }

    /** `resetPosition`: move slot i (and its mirror) back to the origin. */
    method ResetPosition(i: int)
      requires Layout() && 0 <= i < Half()
      modifies position
      ensures SlotMoved(old(position[..]), i, Vec3(0.0, 0.0, 0.0))
    {
      ApplyPosition(i, 0.0, 0.0, 0.0);
    }

    /** The record `resetVelocity` builds: a radius, a spawn angle, a speed
        multiplier, two phase amplitudes and two phase speeds, drawn in that
        order, and the phase (0, 0). */
    method SampleRecord() returns (data: ParticleData)
      requires settings.cameraZPlane != 0.0
      modifies this`drawn
      ensures fresh(data)
      ensures drawn == old(drawn) + 7
      ensures data.Motion() == SampleVelocity(settings, sin, cos, SevenDraws(old(drawn)))
      ensures data.phase == Vec2(0.0, 0.0)
    {
      var r := Random(settings.particleRadiusMin, settings.particleRadiusMax);
      var u := NextRandom();
      var theta := SpawnAngle(u);
      var trajectory := Trajectory(r, At(cos, theta), At(sin, theta), settings.cameraZPlane);
      var speed := Random(settings.particleSpeedMultMin, settings.particleSpeedMultMax);
      var ampX := Random(settings.particlePhaseAmplitudeMin, settings.particlePhaseAmplitudeMax);
      var ampY := Random(settings.particlePhaseAmplitudeMin, settings.particlePhaseAmplitudeMax);
      var phaseSpeedX := Random(settings.particlePhaseSpeedMin, settings.particlePhaseSpeedMax);
      var phaseSpeedY := Random(settings.particlePhaseSpeedMin, settings.particlePhaseSpeedMax);
      data := new ParticleData(trajectory, speed, Vec2(ampX, ampY), Vec2(phaseSpeedX, phaseSpeedY));
    }

    /** `resetVelocity`: give slot i a fresh record sampled from seven draws. */
    method ResetVelocity(i: int)
      requires Shaped() && 0 <= i < |particleData|
      modifies this`particleData, this`drawn
      ensures Shaped()
      ensures particleData[i] != null && fresh(particleData[i])
      ensures particleData == old(particleData)[i := particleData[i]]
      ensures drawn == old(drawn) + 7
      ensures particleData[i].Motion() == SampleVelocity(settings, sin, cos, SevenDraws(old(drawn)))
      ensures particleData[i].phase == Vec2(0.0, 0.0)
    {
      var data := SampleRecord();
      particleData := particleData[i := data];
    }

    /** `despawnParticle`: reset slot i to the origin, clear its record and
        give it a fresh one. */
    method DespawnParticle(i: int)
      requires Shaped() && 0 <= i < Half()
      modifies this`particleData, this`drawn, position
      ensures Shaped()
      ensures particleData[i] != null && fresh(particleData[i])
      ensures particleData == old(particleData)[i := particleData[i]]
      ensures drawn == old(drawn) + 7
      ensures particleData[i].Motion() == SampleVelocity(settings, sin, cos, SevenDraws(old(drawn)))
      ensures particleData[i].phase == Vec2(0.0, 0.0)
      ensures SlotMoved(old(position[..]), i, Vec3(0.0, 0.0, 0.0))
    {
      ResetPosition(i);
      particleData := particleData[i := null];
      ResetVelocity(i);
    }

    /** `updatePosition`: advance slot i by one tick. A slot without a record
        is left alone. Otherwise the slot moves to NextPosition, unless that
        passes the despawn threshold, in which case it is reset to the origin
        with a fresh record drawn from the next seven draws. Either way the
        phase advance is applied to the record read at the start, so a record
        created by the despawn keeps phase (0, 0). Only slot i and its mirror
        change, and the mirror stays the x-negated copy of the slot. */
    method UpdatePosition(i: int, multiplier: real, ignoreSpeed: bool)
      requires Shaped() && 0 <= i < Half()
      modifies this`particleData, this`drawn, position, particleData[i]
      ensures Shaped()
      ensures old(particleData[i]) == null ==>
        particleData == old(particleData) && drawn == old(drawn) && position[..] == old(position[..])
      ensures var data := old(particleData[i]);
        data != null ==>
          var q := Slot(position[..], i);
          Ticked(settings, sin, cos, multiplier, ignoreSpeed, Slot(old(position[..]), i), data, old(data.State()),
                 q, particleData[i])
          && SlotMoved(old(position[..]), i, q)
          && particleData == old(particleData)[i := particleData[i]]
          && data.phase == Augmented(old(data.phase), PhaseSteps(data.Motion(), settings, multiplier))
          && (particleData[i] == data ==> drawn == old(drawn))
          && (particleData[i] != data ==>
                fresh(particleData[i]) && drawn == old(drawn) + 7
                && particleData[i].Motion() == SampleVelocity(settings, sin, cos, SevenDraws(old(drawn))))
    {
      var data := particleData[i];
      if data == null {
        return;
      }
      ghost var k := drawn;
      // The new coordinates: forward step along the trajectory plus the
      // sine wobble of the current phase, and the forward step along z.
      var p := NextPosition(Slot(position[..], i), RecordState(data.Motion(), data.phase),
                            settings, multiplier, ignoreSpeed, sin);
      if p.z + settings.particleDespawnBuffer > settings.cameraZPlane {
        DespawnParticle(i);
        SevenDrawsUnit(k);
        assert Sampled(particleData[i].Motion(), settings, sin, cos);
      } else {
        ApplyPosition(i, p.x, p.y, p.z);
      }

      var steps := PhaseSteps(data.Motion(), settings, multiplier);
      data.AugmentPhase(steps.x, steps.y);
    }

    /** One slot's tick, with its outcome stated coarsely. */
    method TickSlot(i: int, multiplier: real, ignoreSpeed: bool)
      requires Valid() && 0 <= i < Half()
      modifies this`particleData, this`drawn, position, particleData[i]
      ensures Valid()
      ensures particleData == old(particleData)[i := particleData[i]]
      ensures SlotMoved(old(position[..]), i, Slot(position[..], i))
      ensures Advanced(settings, Slot(old(position[..]), i), old(particleData[i]), Slot(position[..], i), particleData[i])
      ensures particleData[i] == old(particleData[i]) || fresh(particleData[i])
      ensures old(RecordBounded(particleData[i])) && Sane(settings) && 0.0 <= multiplier ==>
        RecordBounded(particleData[i])
    {
      ghost var pre, data := position[..], particleData[i];
      ghost var st := data.State();
      UpdatePosition(i, multiplier, ignoreSpeed);
      TickedAdvances(settings, sin, cos, multiplier, ignoreSpeed, Slot(pre, i), data, st,
                     Slot(position[..], i), particleData[i]);
      if old(RecordBounded(particleData[i])) && Sane(settings) && 0.0 <= multiplier {
        TickedKeepsBounded(settings, sin, cos, multiplier, ignoreSpeed, Slot(pre, i), data, st,
                           Slot(position[..], i), particleData[i]);
      }
    }

    /** One iteration of the loops that tick every slot (`update` and the
        burn-in pass of `initializeParticles`): ticking slot i extends the
        advanced prefix by one slot and keeps the phases bounded. */
    method UpdateStep(i: int, multiplier: real, ignoreSpeed: bool,
                      ghost before: seq<real>, ghost records: seq<ParticleData?>)
      requires Valid() && 0 <= i < Half()
      requires AdvancedUpTo(settings, before, records, position[..], particleData, i, Half())
      modifies this`particleData, this`drawn, position, particleData[i]
      ensures Valid()
      ensures AdvancedUpTo(settings, before, records, position[..], particleData, i + 1, Half())
      ensures particleData == old(particleData)[i := particleData[i]]
      ensures particleData[i] == old(particleData[i]) || fresh(particleData[i])
      ensures old(PhasesBounded()) && Sane(settings) && 0.0 <= multiplier ==> PhasesBounded()
    {
      ghost var now, current := position[..], particleData;
      ghost var bounded := PhasesBounded() && Sane(settings) && 0.0 <= multiplier;
      TickSlot(i, multiplier, ignoreSpeed);
      AdvancedStep(settings, before, records, now, current, position[..], particleData[i], i, Half());
      if bounded {
        forall j | 0 <= j < Half()
          ensures RecordBounded(particleData[j])
        {
          if j != i {
            assert old(RecordBounded(particleData[j]));
          }
        }
      }
    }

    /** `update`: one tick of every slot with the multiplier of this frame.
        Afterwards every slot holds a record, every slot has either moved on
        or been recycled, the position buffer is mirrored, no slot is past
        the despawn threshold, and phases stay in [0, 1). */
    method Update(multiplier: real)
      requires Valid()
      modifies this`particleData, this`drawn, position, Records()
      ensures Valid()
      ensures PositionsMirrored(position[..], Half())
      ensures forall j :: 0 <= j < Half() ==>
        Advanced(settings, Slot(old(position[..]), j), old(particleData[j]), Slot(position[..], j), particleData[j])
        && (particleData[j] == old(particleData[j]) || fresh(particleData[j]))
      ensures old(PhasesBounded()) && Sane(settings) && 0.0 <= multiplier ==> PhasesBounded()
    {
      ghost var before, records := position[..], particleData;
      ghost var bounded := old(PhasesBounded()) && Sane(settings) && 0.0 <= multiplier;
      var i := 0;
      while i < maxParticleCount / 2
        invariant Valid() && 0 <= i <= Half()
        invariant AdvancedUpTo(settings, before, records, position[..], particleData, i, Half())
        invariant forall j :: 0 <= j < i ==> particleData[j] == records[j] || fresh(particleData[j])
        invariant bounded ==> PhasesBounded()
      {
        assert particleData[i] in old(Records());
        UpdateStep(i, multiplier, false, before, records);
        i := i + 1;
      }
    }

    /** `updateSizes`: every slot's size becomes its base size times
        sizeMult, written to the slot and to its mirror. */
    method UpdateSizes()
      requires 0 <= maxParticleCount == 2 * Half() == size.Length && |baseSizes| == Half()
      modifies size
      ensures forall j :: 0 <= j < Half() ==> size[j] == ScaledSize(baseSizes[j], settings.sizeMult)
      ensures ValuesMirrored(size[..], Half())
    {
      var i := 0;
      while i < maxParticleCount / 2
        invariant 0 <= i <= Half()
        invariant forall j :: 0 <= j < i ==> size[j] == ScaledSize(baseSizes[j], settings.sizeMult)
        invariant forall j :: 0 <= j < i ==> size[j + Half()] == size[j]
      {
        ApplyMirroredValue(size, i, ScaledSize(baseSizes[i], settings.sizeMult));
        i := i + 1;
      }
    }

    /** `initializeParticles`: round the requested count to an even N, give
        up when N is negative (the typed-array allocation throws), otherwise
        allocate zeroed buffers for N particles, spawn every slot, write the
        sizes and tick every slot once. */
    method InitializeParticles(requested: real) returns (ok: bool)
      requires Injected()
      modifies this`maxParticleCount, this`particleData, this`baseSizes, this`drawn
      modifies this`position, this`size, this`alpha
      ensures maxParticleCount == ParticleCount(requested)
      ensures ok <==> 0.0 <= requested
      ensures !ok ==>
        particleData == [] && baseSizes == [] && position == old(position) && size == old(size) && alpha == old(alpha)
      ensures ok ==> Valid() && Mirrored() && fresh(position) && fresh(size) && fresh(alpha)
      ensures ok ==> forall j :: 0 <= j < Half() ==> fresh(particleData[j])
      ensures ok ==> forall j :: 0 <= j < Half() ==>
        InDrawRange(baseSizes[j], settings.particleSizeMin, settings.particleSizeMax)
      ensures ok ==> forall j :: 0 <= j < Half() ==> size[j] == ScaledSize(baseSizes[j], settings.sizeMult)
      ensures ok ==> forall k :: 0 <= k < alpha.Length ==> 0.0 <= alpha[k] < 1.0
      ensures ok ==> forall j :: 0 <= j < Half() ==> BurnedIn(Slot(position[..], j))
      ensures ok && Sane(settings) ==> PhasesBounded()
    {
      particleData := [];
      baseSizes := [];
      var n := ParticleCount(requested);
      maxParticleCount := n;
      if n < 0 {
        return false;
      }
      Allocate();
      Populate();
      ok := true;
    }

    /** The allocation step of `initializeParticles`: zeroed typed arrays of
        3N, N and N floats for the N particles, and N/2 empty record slots. */
    method Allocate()
      requires Injected() && 0 <= maxParticleCount && maxParticleCount % 2 == 0
      modifies this`particleData, this`position, this`size, this`alpha
      ensures Shaped() && fresh(position) && fresh(size) && fresh(alpha)
      ensures forall j :: 0 <= j < |particleData| ==> particleData[j] == null
      ensures forall k :: 0 <= k < position.Length ==> position[k] == 0.0
      ensures forall k :: 0 <= k < size.Length ==> size[k] == 0.0
      ensures forall k :: 0 <= k < alpha.Length ==> alpha[k] == 0.0
    {
      var n := maxParticleCount;
      position := new real[n * vertexSize](_ => 0.0);
      size := new real[n](_ => 0.0);
      alpha := new real[n](_ => 0.0);
      particleData := seq(n / 2, _ => null);
    }

    /** The three passes of `initializeParticles` over freshly zeroed
        buffers: spawn every slot, write the sizes, tick every slot once. */
    method Populate()
      requires Shaped() && baseSizes == []
      requires forall j :: 0 <= j < |particleData| ==> particleData[j] == null
      requires forall k :: 0 <= k < position.Length ==> position[k] == 0.0
      requires forall k :: 0 <= k < alpha.Length ==> alpha[k] == 0.0
      modifies this`particleData, this`baseSizes, this`drawn, position, size, alpha
      ensures Valid() && Mirrored()
      ensures forall j :: 0 <= j < Half() ==> fresh(particleData[j])
      ensures forall j :: 0 <= j < Half() ==>
        InDrawRange(baseSizes[j], settings.particleSizeMin, settings.particleSizeMax)
      ensures forall j :: 0 <= j < Half() ==> size[j] == ScaledSize(baseSizes[j], settings.sizeMult)
      ensures forall k :: 0 <= k < alpha.Length ==> 0.0 <= alpha[k] < 1.0
      ensures forall j :: 0 <= j < Half() ==> BurnedIn(Slot(position[..], j))
      ensures Sane(settings) ==> PhasesBounded()
    {
      SpawnAll();
      UpdateSizes();
      BurnIn();
    }

    /** A slot after the burn-in tick: at the origin, or between
        particleBaseSpeed and the despawn threshold along z. */
    predicate BurnedIn(p: Vec3)
      reads this`settings
    {
      (p.x == 0.0 && p.y == 0.0 && p.z == 0.0)
      || (settings.particleBaseSpeed <= p.z && p.z + settings.particleDespawnBuffer <= settings.cameraZPlane)
    }

    /** The first pass of `initializeParticles`, slot by slot. */
    method SpawnAll()
      requires Shaped() && baseSizes == []
      requires forall j :: 0 <= j < |particleData| ==> particleData[j] == null
      requires forall k :: 0 <= k < position.Length ==> position[k] == 0.0
      requires forall k :: 0 <= k < alpha.Length ==> alpha[k] == 0.0
      modifies this`particleData, this`baseSizes, this`drawn, position, alpha
      ensures Valid()
      ensures forall k :: 0 <= k < position.Length ==> position[k] == 0.0
      ensures forall j :: 0 <= j < Half() ==>
        fresh(particleData[j]) && InDrawRange(baseSizes[j], settings.particleSizeMin, settings.particleSizeMax)
      ensures Sane(settings) ==> PhasesBounded()
      ensures ValuesMirrored(alpha[..], Half())
      ensures forall k :: 0 <= k < alpha.Length ==> 0.0 <= alpha[k] < 1.0
    {
      var i := 0;
      while i < maxParticleCount / 2
        invariant 0 <= i <= Half() && Shaped() && |baseSizes| == i
        invariant forall k :: 0 <= k < position.Length ==> position[k] == 0.0
        invariant forall j :: 0 <= j < i ==> particleData[j] != null && fresh(particleData[j])
        invariant forall j :: i <= j < Half() ==> particleData[j] == null
        invariant forall j :: 0 <= j < i ==> InDrawRange(baseSizes[j], settings.particleSizeMin, settings.particleSizeMax)
        invariant Sane(settings) ==> forall j :: 0 <= j < i ==> RecordBounded(particleData[j])
        invariant forall j :: 0 <= j < i ==> alpha[j + Half()] == alpha[j]
        invariant forall k :: 0 <= k < alpha.Length ==> 0.0 <= alpha[k] < 1.0
      {
        SpawnSlot(i);
        i := i + 1;
      }
    }

    /** One iteration of the first pass of `initializeParticles`: move slot i
        to the origin, draw its base size, draw its alpha with
        `Math.random(min, max)` (which ignores its arguments, so the alpha
        lies in [0, 1)) and give it a fresh record. */
    method SpawnSlot(i: int)
      requires Shaped() && 0 <= i < Half() && |baseSizes| == i && particleData[i] == null
      modifies this`particleData, this`baseSizes, this`drawn, position, alpha
      ensures Shaped()
      ensures particleData == old(particleData)[i := particleData[i]]
      ensures particleData[i] != null && fresh(particleData[i])
      ensures Sane(settings) ==> RecordBounded(particleData[i])
      ensures |baseSizes| == i + 1 && baseSizes[..i] == old(baseSizes)
      ensures InDrawRange(baseSizes[i], settings.particleSizeMin, settings.particleSizeMax)
      ensures SlotMoved(old(position[..]), i, Vec3(0.0, 0.0, 0.0))
      ensures (forall k :: 0 <= k < position.Length ==> old(position[k]) == 0.0) ==>
        forall k :: 0 <= k < position.Length ==> position[k] == 0.0
      ensures forall k :: 0 <= k < alpha.Length ==>
        alpha[k] == if k == i || k == i + Half() then alpha[i] else old(alpha[k])
      ensures 0.0 <= alpha[i] < 1.0
    {
      ApplyPosition(i, 0.0, 0.0, 0.0);
      ghost var k := drawn;
      var r := Random(settings.particleSizeMin, settings.particleSizeMax);
      RandomValueInRange(Draw(rand, k), settings.particleSizeMin, settings.particleSizeMax);
      baseSizes := baseSizes + [r];
      var a := NextRandom();
      ApplyMirroredValue(alpha, i, a);
      k := drawn;
      ResetVelocity(i);
      SevenDrawsUnit(k);
      SampleVelocityBounds(settings, sin, cos, SevenDraws(k));
    }

    /** One iteration of the burn-in pass: tick slot i, ignoring its
        record's speed, with the multiplier `Math.random() * cameraZPlane`. */
    method BurnStep(i: int, ghost before: seq<real>, ghost records: seq<ParticleData?>)
      requires Valid() && 0 <= i < Half()
      requires AdvancedUpTo(settings, before, records, position[..], particleData, i, Half())
      modifies this`particleData, this`drawn, position, particleData[i]
      ensures Valid()
      ensures AdvancedUpTo(settings, before, records, position[..], particleData, i + 1, Half())
      ensures particleData == old(particleData)[i := particleData[i]]
      ensures particleData[i] == old(particleData[i]) || fresh(particleData[i])
      ensures old(PhasesBounded()) && Sane(settings) ==> PhasesBounded()
    {
      var u := NextRandom();
      if Sane(settings) {
        MulNonneg(u, settings.cameraZPlane);
      }
      UpdateStep(i, u * settings.cameraZPlane, true, before, records);
    }

    /** The burn-in pass of `initializeParticles`: every slot ticks once,
        ignoring its record's speed, with its own multiplier
        `Math.random() * cameraZPlane`. */
    method BurnIn()
      requires Valid()
      requires forall k :: 0 <= k < position.Length ==> position[k] == 0.0
      modifies this`particleData, this`drawn, position, Records()
      ensures Valid() && unchanged(size, alpha)
      ensures PositionsMirrored(position[..], Half())
      ensures forall j :: 0 <= j < Half() ==>
        (particleData[j] == old(particleData[j]) || fresh(particleData[j])) && BurnedIn(Slot(position[..], j))
      ensures old(PhasesBounded()) && Sane(settings) ==> PhasesBounded()
    {
      ghost var before, records := position[..], particleData;
      ghost var bounded := old(PhasesBounded()) && Sane(settings);
      var i := 0;
      while i < maxParticleCount / 2
        invariant Valid() && 0 <= i <= Half()
        invariant AdvancedUpTo(settings, before, records, position[..], particleData, i, Half())
        invariant forall j :: 0 <= j < i ==> particleData[j] == records[j] || fresh(particleData[j])
        invariant bounded ==> PhasesBounded()
      {
        assert particleData[i] in old(Records());
        BurnStep(i, before, records);
        i := i + 1;
      }
      forall j | 0 <= j < Half()
        ensures BurnedIn(Slot(position[..], j))
      {
        assert Slot(before, j).z == 0.0;
      }
    }
  }
}
