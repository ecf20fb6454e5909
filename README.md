# Particle field engine, modelled in Dafny

This project models the particle engine of `src/editor/animation/common/items/Particles.js`.
The engine is an audio-reactive field of point sprites. It simulates N/2 slots. Each slot
holds a `ParticleData` record: a trajectory, a speed multiplier, a phase amplitude, a phase
speed, and a phase that wraps with `% 1`. The engine packs the slots into three flat buffers
that the renderer reads:

- `position`, with stride 3 and length 3N;
- `size`, of length N;
- `alpha`, of length N.

Every write goes through `applyMirroredValue`, which stores a value at index `i` and at
`i + step * N / 2`. `applyPosition` then negates the copy's x. As a result, slot
`j + N/2` renders as slot `j` reflected in x.

Each tick, `updatePosition` does the following for one slot:

1. It computes a forward step of at least `particleBaseSpeed`.
2. It moves the slot along its trajectory, plus a sine wobble on x and y.
3. If the slot then crosses the despawn threshold, the engine recycles it: the slot goes
   back to the origin with a freshly sampled record.
4. It advances the phase of the record it read at the start.

`initializeParticles` does the following:

1. It rounds the requested count to an even N.
2. It allocates the buffers.
3. It spawns every slot at the origin, with a base size, an alpha and a record.
4. It writes the sizes.
5. It runs one burn-in tick per slot with a random multiplier.

The model has three modules:

- `JsNumbers` (`js_numbers.dfy`) holds JavaScript's truncating `%` on reals and on
  integers, `Math.max`, `Math.PI`, and the facts the engine relies on about `Math.random`,
  `Math.sin` and `Math.cos`. These three are injected as infinite maps:
  - the k-th call of `Math.random()` returns `Draw(rand, k)`;
  - `Math.sin(t)` is `At(sin, t)`.

  Draws lie in [0, 1). Sine and cosine lie in [-1, 1], and the cosine is non-negative
  on [-PI/2, PI/2].
- `ParticleMath` (`particle_math.dfy`) is the value-level part. It holds the settings,
  record sampling, one tick's arithmetic, the phase accumulator, the count rounding and the
  meaning of a mirrored write on a sequence. It also carries the lemmas that state what each
  of these guarantees.
- `ParticleEngine` (`particle_engine.dfy`) holds the source's two classes:
  - `ParticleData`, whose phase `AugmentPhase` updates in place;
  - `Particles`, with the three buffers as `array<real>` fields, the records as a sequence of
    nullable references, and one method per source function.

  Each loop of the source is a `while` loop with its invariants. Each method is proved
  against the functions of `ParticleMath`. The main invariants are:
  - `Valid()`: the layout, with an even N, buffers of 3N, N and N floats, N/2 record slots,
    and every slot holding its own record;
  - `Mirrored()`: the mirror symmetry of all three buffers;
  - `PhasesBounded()`: every phase in [0, 1) and every phase speed non-negative.

The model keeps these behaviours of the code as written:

- The forward step applies `baseSpeed` twice (`speed * baseSpeed * multiplier * baseSpeed`),
  not once.
- The alpha of a slot is drawn with `Math.random(min, max)`, which ignores its arguments. The
  model's alpha therefore lies in [0, 1), not in the opacity range.
- A negative count is not corrected. `Math.floor(n) + Math.floor(n) % 2` is negative, and
  allocating a typed array of negative length throws. `InitializeParticles` models this as a
  failed result, reached after the record and size lists were already cleared and the count
  already stored.
- The burn-in pass ticks each slot with its own multiplier `Math.random() * cameraZPlane`,
  ignoring the record's speed.
- After a despawn, the phase advance of that tick applies to the record read at the start of
  `updatePosition`, which is no longer in the slot. The fresh record keeps phase (0, 0)
  through that tick.

## Model

| member | source | states |
|---|---|---|
| JsNumbers.FracRem | src/editor/animation/common/items/Particles.js:45-46 | `a % 1` differs from `a` by an integer, lies in [0, 1) for non-negative `a`, and lies in (-1, 0] for negative `a` |
| JsNumbers.RemTwo | src/editor/animation/common/items/Particles.js:203 | integer `a % 2` differs from `a` by a multiple of 2, lies in (-2, 2) and takes the sign of `a` |
| JsNumbers.Max | src/editor/animation/common/items/Particles.js:164 | `Math.max` is at least both arguments and equals one of them |
| ParticleMath.DefaultSettings | src/editor/animation/common/items/Particles.js:53-84 | the constructor's tunables are sane (ordered ranges, camera plane ahead, non-negative radii and phase speeds), with a positive base speed and a despawn buffer short of the camera plane |
| ParticleMath.RandomValueInRange | src/editor/animation/common/items/Particles.js:194-196 | `random(lo, hi)`, modelled by `RandomValue`, of a draw in [0, 1) lies in [lo, hi); it is exactly lo for an empty range and lies in (hi, lo] for a reversed one |
| ParticleMath.FractionOf | src/editor/animation/common/items/Particles.js:195 | a draw in [0, 1) times a width d lies between 0 and d and never reaches d |
| ParticleMath.SpawnAngle | src/editor/animation/common/items/Particles.js:253 | the spawn angle `PI * u - PI / 2` of a draw in [0, 1) lies in [-PI/2, PI/2) |
| ParticleMath.TrajectoryInCone | src/editor/animation/common/items/Particles.js:254-257 | a radius in [0, rMax] along a direction with non-negative cosine gives a trajectory (`Trajectory`) with non-negative x and both components at most rMax / cameraZPlane |
| ParticleMath.SampleVelocityBounds | src/editor/animation/common/items/Particles.js:251-271 | a record built by `SampleVelocity` from seven draws in [0, 1) has its speed, phase amplitudes and phase speeds in their configured ranges; with a camera plane ahead and ordered non-negative radii, its trajectory lies in the forward half-cone |
| ParticleMath.SampledBounds | src/editor/animation/common/items/Particles.js:251-271 | the same bounds hold for every record that `resetVelocity` could have sampled |
| ParticleMath.InterpolateBounds | src/editor/animation/common/items/Particles.js:166-167 | the unclamped interpolation `(max - min) * t + min` hits min at 0 and max at 1, stays within [min, max] for t in [0, 1], is at least min for t >= 0 and overshoots max for t > 1 |
| ParticleMath.ForwardStepFloor | src/editor/animation/common/items/Particles.js:163-164 | the forward step (`ForwardStep`) is at least particleBaseSpeed and at least `speed * baseSpeed * multiplier * baseSpeed` (speed 1 when the record's speed is ignored) |
| ParticleMath.WobbleBounded | src/editor/animation/common/items/Particles.js:168-169 | the sine wobble on one axis never exceeds the amplitude times the amplitude multiplier in size |
| ParticleMath.NextPositionAdvances | src/editor/animation/common/items/Particles.js:163-178 | one tick (`NextPosition`) moves z forward by exactly the forward step, hence by at least particleBaseSpeed; on x and y the slot departs from its trajectory line by exactly the wobble, which is bounded by the amplitude times the amplitude multiplier |
| ParticleMath.PhaseStepsNonneg | src/editor/animation/common/items/Particles.js:186-190 | with a non-negative multiplier and phase speed multipliers, and non-negative phase speeds, both phase steps are non-negative |
| ParticleMath.Augmented | src/editor/animation/common/items/Particles.js:44-47 | the phase after `augmentPhase` differs from phase + step by a whole number in each component, and stays in [0, 1) when phase and step are non-negative |
| ParticleMath.PhaseAfterInRange | src/editor/animation/common/items/Particles.js:44-47 | any number of `augmentPhase` calls with non-negative steps keeps a phase in [0, 1) |
| ParticleMath.ParticleCount | src/editor/animation/common/items/Particles.js:203 | `floor(n) + floor(n) % 2` is always even; for n >= 0 it is non-negative and equals floor(n) or floor(n) + 1; for n < 0 it is negative; it equals floor(n) exactly when floor(n) is even |
| ParticleMath.CellsMoved | src/editor/animation/common/items/Particles.js:281-291 | writing the three cells of slot i and the three of its mirror, and no other cell, moves slot i to v and its mirror to v reflected in x, leaving every other slot alone |
| ParticleMath.MovedExtendsMirror | src/editor/animation/common/items/Particles.js:146-149 | moving the first slot not yet mirrored together with its mirror extends the mirrored prefix by one slot |
| ParticleMath.MovedKeepsMirror | src/editor/animation/common/items/Particles.js:281-287 | a mirrored position buffer stays mirrored when any slot is moved together with its mirror |
| ParticleEngine.ParticleData.constructor | src/editor/animation/common/items/Particles.js:31-37 | a record holds its trajectory, speed, phase amplitude and phase speed, and starts at phase (0, 0) |
| ParticleEngine.ParticleData.AugmentPhase | src/editor/animation/common/items/Particles.js:44-47 | the record's phase becomes the `% 1`-wrapped sum of phase and step in each component |
| ParticleEngine.TickedAdvances | src/editor/animation/common/items/Particles.js:163-184 | after any tick, the slot has either kept its record, moved forward by at least particleBaseSpeed and stayed in front of the despawn threshold, or taken another record at the origin |
| ParticleEngine.TickedKeepsBounded | src/editor/animation/common/items/Particles.js:180-191 | under sane settings and a non-negative multiplier, a tick of a slot whose phase is in [0, 1) with non-negative phase speeds leaves it holding a record with the same two properties, whether the record was kept or freshly sampled |
| ParticleEngine.AdvancedStep | src/editor/animation/common/items/Particles.js:146-149 | ticking the first slot not yet ticked extends, by one slot, the prefix of slots that ticked and are mirrored; later slots stay as they were |
| ParticleEngine.Particles.constructor | src/editor/animation/common/items/Particles.js:51-95 | a new engine has the default settings and a count of 1200, owns newly allocated buffers and records, is valid and mirrored with bounded phases, has every base size in the size range, every size equal to base size times sizeMult, every alpha in [0, 1), and every slot burned in |
| ParticleEngine.Particles.SevenDrawsUnit | src/editor/animation/common/items/Particles.js:251-269 | the seven draws that `resetVelocity` takes all lie in [0, 1) |
| ParticleEngine.Particles.NextRandom | src/editor/animation/common/items/Particles.js:195 | a call of `Math.random()` returns the next draw and advances the draw counter by one |
| ParticleEngine.Particles.Random | src/editor/animation/common/items/Particles.js:194-196 | `random(min, max)` consumes one draw u and returns `u * (max - min) + min` |
| ParticleEngine.Particles.ApplyMirroredValue | src/editor/animation/common/items/Particles.js:289-292 | exactly the cells `i` and `i + step * N / 2` that lie inside the array become the value; every other cell keeps its value |
| ParticleEngine.Particles.ApplyPosition | src/editor/animation/common/items/Particles.js:281-287 | slot i holds (x, y, z), its mirror holds (-x, y, z), and only those six cells change |
| ParticleEngine.Particles.ResetPosition | src/editor/animation/common/items/Particles.js:247-249 | slot i and its mirror move to the origin and no other slot changes |
| ParticleEngine.Particles.SampleRecord | src/editor/animation/common/items/Particles.js:251-271 | the new record is built from the next seven draws in source order (radius, angle, speed, two amplitudes, two phase speeds), has phase (0, 0) and consumes exactly seven draws |
| ParticleEngine.Particles.ResetVelocity | src/editor/animation/common/items/Particles.js:251-272 | slot i gets a fresh record sampled from the next seven draws, with phase (0, 0); no other slot changes |
| ParticleEngine.Particles.DespawnParticle | src/editor/animation/common/items/Particles.js:239-245 | slot i moves to the origin with its mirror and holds a fresh record sampled from the next seven draws, with phase (0, 0); no other slot changes |
| ParticleEngine.Particles.UpdatePosition | src/editor/animation/common/items/Particles.js:156-192 | a slot without a record is left alone. Otherwise the slot either moves to NextPosition, keeping its record, whose phase advances by one step, or, past the threshold, returns to the origin with a fresh record sampled from seven draws that keeps phase (0, 0). Only slot i, its mirror and record i change |
| ParticleEngine.Particles.TickSlot | src/editor/animation/common/items/Particles.js:156-192 | one slot's tick is Advanced and keeps a bounded record bounded, and only that slot, its mirror and its record change |
| ParticleEngine.Particles.UpdateStep | src/editor/animation/common/items/Particles.js:146-149 | one iteration of the tick loop extends the ticked-and-mirrored prefix by one slot and keeps the phases bounded |
| ParticleEngine.Particles.Update | src/editor/animation/common/items/Particles.js:143-154 | after a tick, every slot has moved forward by at least particleBaseSpeed and does not pass the despawn threshold, or has been recycled to the origin with a fresh record; the position buffer is mirrored, size and alpha are untouched, and phases stay bounded |
| ParticleEngine.Particles.UpdateSizes | src/editor/animation/common/items/Particles.js:274-279 | every slot's size and its mirror become its base size times sizeMult, so the size buffer is mirrored; nothing else changes |
| ParticleEngine.Particles.InitializeParticles | src/editor/animation/common/items/Particles.js:198-233 | the count becomes `floor(n) + floor(n) % 2`, and the call fails exactly when n is negative. On success: fresh buffers of 3N, N and N floats; a fresh record in every slot; every base size in the size range; sizes equal to base size times sizeMult; alphas in [0, 1); all three buffers mirrored; every slot burned in; bounded phases under sane settings |
| ParticleEngine.Particles.Allocate | src/editor/animation/common/items/Particles.js:211-213 | fresh zeroed buffers of 3N, N and N floats, which do not alias, and N/2 empty record slots |
| ParticleEngine.Particles.Populate | src/editor/animation/common/items/Particles.js:218-232 | the spawn pass, `updateSizes` and the burn-in pass, applied to zeroed buffers, give the state InitializeParticles promises on success |
| ParticleEngine.Particles.SpawnAll | src/editor/animation/common/items/Particles.js:218-224 | every slot gets a fresh record and a base size in the size range, every alpha lies in [0, 1) and is mirrored, and positions stay at the origin |
| ParticleEngine.Particles.SpawnSlot | src/editor/animation/common/items/Particles.js:219-223 | slot i and its mirror are placed at the origin and no other slot moves, its base size is drawn into the size range, its alpha and its mirror's alpha are drawn into [0, 1), and it gets a fresh record, bounded under sane settings |
| ParticleEngine.Particles.BurnStep | src/editor/animation/common/items/Particles.js:231 | one burn-in tick, with multiplier `Math.random() * cameraZPlane`, extends the ticked-and-mirrored prefix by one slot and keeps the phases bounded |
| ParticleEngine.Particles.BurnIn | src/editor/animation/common/items/Particles.js:230-232 | after the burn-in pass every slot is at the origin or between particleBaseSpeed and the despawn threshold along z, positions are mirrored, and size and alpha are untouched |

## Left out

- The three.js scene, geometry, material, texture and shaders, the `particleSystem` object and its `needsUpdate` flags. These are the rendering pipeline. `update`'s guard on `particleSystem` is always true once the constructor has run.
- The GUI folder (`setUpGUI`, `changeColor`, `folder.updateDisplay`), the `color` field and `console.log`. The GUI's effect on the engine is modelled by its two callbacks. Setting `maxParticleCount` to r and calling `initializeParticles()` is modelled as `InitializeParticles(r)`, which stores the rounded count itself. Setting `sizeMult` and calling `updateSizes()` is modelled as a caller that assigns `settings` and then calls `UpdateSizes`. The `particleBaseSpeed` slider has no callback; it is modelled as a caller that assigns `settings`, which changes the forward-step floor of the next `Update`.
- `ImpactAnalyser`: `Update` takes the audio multiplier as a parameter. The unused `time` argument of `update` is dropped.
- The exact values of `Math.random`, `Math.sin` and `Math.cos`, which are injected as infinite maps with the range facts they are known to satisfy.
- Floating point. All of JavaScript's double arithmetic is modelled as exact real arithmetic: the phase wrap, the record fields, and the intermediate values of a tick. Buffer cells are reals rather than Float32 values. So rounding is not captured. Neither is the case where a draw just below 1 is stored as exactly 1.0. Infinity and NaN are not modelled either, so `cameraZPlane` must be non-zero (the trajectory divides by it).
- `spawnParticle`, which no code calls and which is `resetVelocity` under another name, and the `ParticleData` getters, which read fields directly here.
- `particleMaxSpawnRate`, which the engine stores but never reads.
- Non-integer slot indices. The source's loops run over `i < N / 2`, where N is always even, and `applyPosition`'s offset `N * (3 / 2)` is taken as the integer `N * 3 / 2`.
- `particleData` is a sequence of exactly N/2 entries where null stands for `undefined`. The JavaScript array grows as slots are assigned, but no code reads past the slots it wrote.
- The callers in `Scene.js` and the other files around the engine are not part of this model.
- Update: its contract states the coarse Advanced outcome per slot, not the exact NextPosition or resample outcome. The exact per-slot outcome is what UpdatePosition states.
- BurnIn: its contract states BurnedIn per slot, not the exact outcome of each burn-in tick, for the same reason.
- InitializeParticles: its contract states the ranges and the mirror and burn-in facts of the new state, not the exact draws each slot received.
