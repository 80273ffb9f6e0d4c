# Oscillator-field surface engine, modelled in Dafny

The engine describes the surface of a round "world" as a field of
oscillators spaced evenly around a unit circle. An oscillator has a
position `pos` in [0, 1), an unbounded phase `t`, a `rate` and an
amplitude `amp`. The surface height at a position is a distance-weighted
sum of `amp * sin(t)` over all oscillators. Four operations act on the world:
- `tick` advances every phase by its rate;
- `add_weight` nudges amplitudes and rates near a point;
- `slam` is a local impact. It raises the amplitude, lowers the rate and
  pulls the phase towards the nearest trough of the sine;
- `sample` reads the field.

The project has four modules:

- `Numeric` (numeric.dfy) holds `abs`, `clamp` and `signum` over `real`, an
  `Option` for results that are NaN or infinite in `f32`, and the single
  assumption made of `sin`: its values lie in [-1, 1].
- `Circle` (circle.dfy) holds `angle_diff`, `min_dist`, `distance_weight` and
  the even spacing of positions. Both source files carry identical copies of
  these, so they are defined once here.
- `Field` (field.dfy) models core/src/lib.rs:
  - `Oscillator` is a datatype. Every `&mut self` method becomes a member
    function that returns the updated value.
  - `World` is a class owning an `array<Oscillator>`. `new` is its
    constructor. `sample` is a method whose loop only reads the array;
    `tick`, `add_weight` and `slam` are methods whose loops update it in
    place. Each method is proved against a per-oscillator specification
    function.
  - `Oscillator::slam` also appears as `World.SlamOscillator`, written step
    by step as in the source and proved equal to the function.
- `LegacyField` (legacy.dfy) models the older engine of src/lib.rs:17-118.
  - The caller passes the time to `sample` as a `u32`.
  - Each oscillator has a `u32` time offset in place of a phase.
  - The weighting is logarithmic, `1 + ln(1 - k * dist)`.
  - `add_weight` changes only the rate.

Every `f32` is a `real`. `sin` and `ln` are function parameters. A property
that needs them assumes only `-1 <= sin x <= 1`, and that `ln x` is `<= 0`
on (0, 1] and `>= 0` from 1 on.

Facts about the code that the model makes explicit:
- `TAU` is `3.141 * 2 = 6.282`, not 2π.
- `slam` guards on a distance below 0.125, but its weighting `1 - 20 d` is
  positive only below 0.05. The real reach of a slam is therefore 0.05,
  inside the 0.125 guard.
- An effective force of at least `TAU / 2` given to `Oscillator::slam` lands
  the phase exactly on the trough. `World::slam` passes `force * (1 - 20 d)`,
  so `World::slam(TAU / 2, p)` is sure to do that only for an oscillator at
  distance 0 from `p`.
- `World::sample` is bounded by the sum of the amplitudes, not by the
  [-1, 1] that the comment at core/src/lib.rs:73 claims. The same claim for
  `Oscillator::sample` at core/src/lib.rs:132 holds for every oscillator
  whose amplitude is in [0, 1].

## Model

| member | source | states |
|---|---|---|
| Numeric.Abs | core/src/lib.rs:58 | The magnitude is non-negative and is the value or its negation. |
| Numeric.Clamp | core/src/lib.rs:142-146 | The result lies in [lo, hi], is the value itself when that is in range, and is the nearer bound otherwise. |
| Numeric.ClampIsNearest | core/src/lib.rs:142-146 | The clamped value is the point of [lo, hi] closest to the input. |
| Numeric.Signum | core/src/lib.rs:204 | The sign is ±1, is 1 at zero, and times the value gives its magnitude. |
| Circle.AngleDiff | core/src/lib.rs:42-55 | The result is y - x shifted by at most one turn, and lies in [-0.5, 0.5] for positions on the circle. |
| Circle.MinDist | core/src/lib.rs:57-59 | The distance is non-negative, at most 0.5 on the circle, and 0 from a point to itself. |
| Circle.AngleDiffAntisymmetric | core/src/lib.rs:43-55 | Swapping the arguments negates the difference. |
| Circle.MinDistSymmetric | core/src/lib.rs:57-59 | The distance is symmetric. |
| Circle.MinDistWrapsAtZero | core/src/lib.rs:43-59 | Seen from 0, a point y past the half turn is at distance 1 - y. |
| Circle.MinDistIsShorterArc | core/src/lib.rs:43-59 | The distance is the shorter of the two arcs, min(\|y - x\|, 1 - \|y - x\|). |
| Circle.AngleDiffIsShortest | core/src/lib.rs:42-59 | No difference y - x + k, for any whole number of turns k, is shorter than the distance. |
| Circle.DistanceWeight | core/src/lib.rs:61-63 | For a non-negative distance and sharpness, the weight lies in (0, 1], and it is 1 at distance 0. The same function is at src/lib.rs:63-66. |
| Circle.DistanceWeightDecreasing | src/lib.rs:63-66 | The weight never grows with the distance. |
| Circle.Position | core/src/lib.rs:23 | Oscillator i of n is placed on the circle at i / n. |
| Circle.PositionsEvenlySpaced | src/lib.rs:31 | Neighbouring positions are 1/n apart. |
| Field.Oscillator.Sample | core/src/lib.rs:132-135 | The sample never exceeds the amplitude in magnitude, so it lies in [-1, 1] for an in-bounds oscillator. |
| Field.Oscillator.Tick | core/src/lib.rs:137-139 | The phase moves by exactly the rate, and nothing else changes. |
| Field.Oscillator.UpdateAmp | core/src/lib.rs:141-143 | The amplitude ends in [0, 1]. It is amp + delta when that is in range, 0 when that is at or below 0, and 1 when it is at or above 1. The other fields are unchanged. |
| Field.Oscillator.UpdateRate | core/src/lib.rs:145-147 | The rate ends in [MIN_RATE, BASE_RATE]. It is rate + delta when that is in range, MIN_RATE at or below it, and BASE_RATE at or above it. The other fields are unchanged. |
| Field.Oscillator.Nudge | core/src/lib.rs:100-102 | amp becomes clamp(amp + deltaWeight·weighting, 0, 1) and rate becomes clamp(rate + deltaWeight·weighting, MIN_RATE, BASE_RATE). Position and phase are unchanged. A zero nudge leaves an in-bounds oscillator alone. |
| Field.Oscillator.Slam | core/src/lib.rs:149-208 | The amplitude is clamp(amp + force) and the rate clamp(rate - force). The phase moves by the capped step toward the trough. The position is unchanged and both bounds hold. |
| Field.Cycle | core/src/lib.rs:172 | The cycle number is floor(t / TAU): the whole number a with a <= t / TAU < a + 1. |
| Field.LocalPhase | core/src/lib.rs:172-173 | The local phase lies in [0, TAU) and recomposes t with the cycle number. |
| Field.TroughTarget | core/src/lib.rs:191-196 | The target is -TAU/4 or 3TAU/4, and is at most half a cycle from the local phase. At the tie b = TAU/4 it is 3TAU/4. |
| Field.TroughTargetIsNearest | core/src/lib.rs:191-196 | No trough 3TAU/4 + k·TAU is nearer to the local phase than the chosen target. |
| Field.CappedStep | core/src/lib.rs:198-205 | The step never exceeds the limit in magnitude. For a non-negative limit it keeps the direction and covers min(\|delta\|, limit). For a negative limit it moves \|limit\| the other way. |
| Field.TargetOffset | core/src/lib.rs:172-198 | The offset to the target is at most TAU/2, and t plus the offset is the target in the current cycle frame. |
| Field.SlamPhaseStep | core/src/lib.rs:172-207 | The phase step of slam is at most \|force\|. For force >= 0 it points toward the trough and covers min(distance to target, force). A negative force moves \|force\| away. |
| Field.SlamReachesTrough | core/src/lib.rs:191-207 | A force of at least TAU/2 lands the phase exactly on the target, in the same cycle frame, and the new phase is a trough. |
| Field.SlamWeighting | core/src/lib.rs:114-115 | The weighting is positive exactly for distances below 0.05, and at most 1. |
| Field.EffectiveForce | core/src/lib.rs:114-116 | Within reach, the weakened force never exceeds the impact force in magnitude. |
| Field.Slammed | core/src/lib.rs:110-119 | An oscillator at distance >= 0.05 is unchanged. A closer one is slammed with the weakened force. No position changes and the bounds are kept. |
| Field.RawSinc | core/src/lib.rs:97-98 | For distances of at least 0.01, sin(100 d)/(100 d) lies in [-1, 1]. |
| Field.SincWeightAsWritten | core/src/lib.rs:98 | The weighting is NaN (None) exactly at distance 0. |
| Field.SincWeight | core/src/lib.rs:97-98 | The corrected weighting is 1 at distance 0, and lies in [-1, 1] from distance 0.01 on. |
| Field.SincWeightAgreesAwayFromZero | core/src/lib.rs:98 | Away from 0 the corrected weighting is the weighting as written. |
| Field.NudgedAsWritten | core/src/lib.rs:95-104 | As written, the step makes amp and rate NaN exactly for the oscillator at distance 0 from the nudge point. |
| Field.Nudged | core/src/lib.rs:95-104 | The corrected step moves amp and rate to clamp(x + deltaWeight·SincWeight(d)) in their ranges, and keeps position and phase. A zero nudge changes nothing. Away from distance 0 it agrees with the code as written. |
| Field.ZeroNudgeAtOwnPosition | core/src/lib.rs:96-103 | A zero nudge at an oscillator's own position makes it NaN as written, and leaves it unchanged when corrected. |
| Field.InitialOscillator | core/src/lib.rs:18-27 | Oscillator i has pos = i/n, rate BASE_RATE, amp = ((i + seed) mod 4 + 1)/16 in [1/16, 1/4] with both bounds, and t = seed·1235 + i·100. |
| Field.InitialAmplitudeLevels | core/src/lib.rs:16-21 | Raising the seed by one shifts the pattern by one oscillator. The pattern repeats every 4. |
| Field.TicksAccumulate | core/src/lib.rs:137-139 | n ticks advance the phase by n·rate and change nothing else. |
| Field.Contribution | core/src/lib.rs:79-86 | One oscillator's term never exceeds its amplitude in magnitude. |
| Field.FieldSample | core/src/lib.rs:74-90 | The field value never exceeds the total amplitude in magnitude. |
| Field.InitialField | core/src/lib.rs:13-33 | World::new(seed, n) yields n oscillators, the i-th being InitialOscillator(seed, n, i). |
| Field.SampleOfSmallWorld | core/src/lib.rs:74-90 | For World(seed 0, 4 oscillators), sample(0) before any tick is 1/16·sin 0 + 2/27·(2/16·sin 100) + 1/26·(3/16·sin 200) + 2/27·(4/16·sin 300). |
| Field.World.constructor | core/src/lib.rs:13-33 | The new world holds exactly InitialField(seed, n) and satisfies the invariant: even spacing and both bounds. |
| Field.World.Tick | core/src/lib.rs:35-39 | Every oscillator is ticked once, in place, and the invariant is kept. |
| Field.World.Sample | core/src/lib.rs:74-90 | The result is the field value of the current oscillators, bounded by the total amplitude. Nothing is modified. |
| Field.World.AddWeight | core/src/lib.rs:94-105 | Every oscillator takes the corrected nudge step and the invariant is kept. A zero nudge leaves the world unchanged. |
| Field.World.Slam | core/src/lib.rs:109-120 | Every oscillator takes the Slammed step. Those at distance >= 0.05 are unchanged, and the invariant is kept. |
| Field.World.SlamOscillator | core/src/lib.rs:149-208 | The step-by-step in-place slam of element i equals Oscillator.Slam, and no other element changes. |
| LegacyField.Oscillator.Phase | src/lib.rs:116 | The phase is (t + t_off)·rate when the u32 sum fits, and uses the sum minus 2^32 when it wraps. |
| LegacyField.Oscillator.Sample | src/lib.rs:114-117 | The sample never exceeds the amplitude in magnitude, so it lies in [-1, 1] whenever the amplitude is in [0, 1]. |
| LegacyField.Oscillator.RateNudge | src/lib.rs:98-100 | The rate becomes clamp(rate + delta_weight·weight) in [0.0001, 1]. Everything else is unchanged. A zero nudge leaves an in-range oscillator alone. |
| LegacyField.LogWeight | src/lib.rs:68-70 | The weight is finite exactly when k·dist < 1, and is then 1 + ln(1 - k·dist). It is at most 1 for non-negative k·dist, and 1 at distance 0. |
| LegacyField.SampleSharpness | src/lib.rs:81-83 | The sharpness is finite exactly for t > 0, and is then at least 1.5. |
| LegacyField.Contribution | src/lib.rs:79-89 | At t = 0 the term is 0. A non-zero term needs a finite, positive weighting. The term never exceeds the amplitude in magnitude. |
| LegacyField.FieldSample | src/lib.rs:74-93 | The field value never exceeds the total amplitude in magnitude. |
| LegacyField.SilentAtTimeZero | src/lib.rs:81-88 | At t = 0 the whole field samples to 0. |
| LegacyField.NudgedAsWritten | src/lib.rs:95-101 | As written, the rate becomes NaN exactly beyond a quarter turn, or at a quarter turn with a zero nudge; otherwise it lands in [0.0001, 1]. amp, pos and t_off are unchanged in every case. |
| LegacyField.OppositeOscillatorIsBroken | src/lib.rs:96-100 | In the 32-oscillator world, add_weight at 0 makes oscillator 16's rate NaN. |
| LegacyField.Nudged | src/lib.rs:95-101 | The corrected step leaves t_off, pos and amp alone and keeps the rate in range. It skips oscillators at a quarter turn or beyond, agrees with the code as written nearer in, and changes nothing for a zero nudge. |
| LegacyField.AmpLevel | src/lib.rs:26-29 | The level lies in [0, 3/4], and is 0 exactly for every fourth oscillator. |
| LegacyField.TimeOffset | src/lib.rs:35 | The offset is i·100 whenever that fits in a u32. |
| LegacyField.InitialOscillator | src/lib.rs:28-36 | Oscillator i has pos = i/n, amp = (i mod 4)/4, t_off = (i·100) as u32, and rate 6.282/120, which is in range. |
| LegacyField.InitialPattern | src/lib.rs:26-35 | The levels repeat every 4, and every fourth oscillator from the fourth one is at 3/4. The offsets go up in steps of 100 until the u32 truncation wraps them; oscillator 42949673 gets offset 4. |
| LegacyField.InitialField | src/lib.rs:23-42 | World::new(n) yields n oscillators, the i-th being InitialOscillator(n, i). |
| LegacyField.World.constructor | src/lib.rs:23-42 | The new world holds exactly InitialField(n) and satisfies the invariant on positions, levels, offsets and rate range. |
| LegacyField.World.Sample | src/lib.rs:74-93 | The result is the field value at time t. It is 0 at t = 0 and bounded by the total amplitude. Nothing is modified. |
| LegacyField.World.AddWeight | src/lib.rs:95-102 | Every oscillator takes the corrected step. pos, amp and t_off are preserved by the invariant, and every rate stays in [0.0001, 1]. A zero nudge changes nothing. |

## Left out

- IEEE `f32` arithmetic is not modelled: every value is a real, so rounding and the `as f32` conversions are exact. This includes `u32 as f32` in the legacy `sample` and `usize as f32` in `new`.
- NaN and infinity are modelled only where the code reaches them through a defined case: the weights of both `add_weight`s and the legacy `sample`. There they appear as `Option`. The NaN a corrupted rate would spread into later samples is not followed.
- The values of `sin` and `ln` are not modelled. They are parameters, constrained only by the sign and bound assumptions stated with each property.
- `distance_weight_log` in core/src/lib.rs:65-67 is never called there, so it is not modelled. Its legacy copy is `LegacyField.LogWeight`.
- The `distance_weight` of src/lib.rs:63-66 is not called by the legacy engine. It is the same function as `Circle.DistanceWeight`.
- Circle.DistanceWeight: requires a non-zero denominator `1 + k·dist`. Where it is zero, `f32` gives an infinity; no caller reaches that, since every caller has `k, dist >= 0`.
- Field.InitialOscillator: the `usize` product `seed * 1235 + i * 100` in core/src/lib.rs:26 is taken as unbounded, so its overflow is not modelled.
- LegacyField.TimeOffset: the truncation `(i * 100) as u32` is modelled, but the `usize` overflow of `i * 100` itself is not.
- LegacyField.Oscillator.Phase: the `u32` sum `t + t_off` wraps, as in a release build. A debug build would panic there instead.
- The 0.125 guard and the weighting above 0 in `World::slam` are kept as written, in `Field.World.Slam`. The contracts state their combined effect, a reach of 0.05.
- The host and foreign-function glue is not modelled: the `GlobalState`, `reset`, `add_world`, `sample` and `add_weight` exports of src/lib.rs:3-15 and 120-155, and the wasm and windows library wrappers. It is plumbing over `static mut` globals, not logic.
- The unused `rand::Rng` import is not modelled.

## Findings

| source | as written | input that shows it | evidently intended | confidence | as-written member | corrected member |
|---|---|---|---|---|---|---|
| core/src/lib.rs:98 | `(k*dist).sin()/(k*dist)` is 0/0 = NaN at dist == 0, and NaN survives both clamps, so amp and rate become NaN | `add_weight(0.0, p)` with `p` an oscillator's own position | the sinc limit 1 at distance 0 | medium, not executed | Field.NudgedAsWritten, Field.ZeroNudgeAtOwnPosition | Field.Nudged, Field.SincWeight |
| src/lib.rs:98 | `1 + (1 - 4 dist).ln()` is NaN for dist > 0.25 (and -inf at 0.25), so every rate more than a quarter turn away becomes NaN | `add_weight(m, 0.0)` on `World::new(32)`: oscillator 16 is at distance 0.5 | skip a non-finite weight, as `sample` does at src/lib.rs:86 | medium, not executed | LegacyField.NudgedAsWritten, LegacyField.OppositeOscillatorIsBroken | LegacyField.Nudged |
