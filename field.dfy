/** The oscillator-field engine of core/src/lib.rs: a World of oscillators
    evenly spaced on a unit circle, sampled as a distance-weighted sum and
    perturbed by a global nudge (add_weight), a local impulse (slam) and time
    steps (tick). f32 arithmetic is modelled over real; sin is a parameter,
    assumed only to lie in [-1, 1] where a property needs it. */
module Field {
  import opened Numeric
  import opened Circle

  /** core/src/lib.rs:7-10. The source's TAU is 3.141 * 2 = 6.282, not 2 pi;
      the phase arithmetic below writes it as the literal 6.282, which keeps
      products with it linear for the solver. */
  const BASE_RATE: real := 6.282 / 120.0
  const MIN_RATE: real := BASE_RATE * 0.5

  /** The number of amplitude levels World::new cycles through. */
  const LEVELS: nat := 4
  /** The guard distance of slam (line 112); the weighting 1 - 20 d it feeds
      is positive only below SLAM_REACH. */
  const SLAM_RADIUS: real := 0.125
  const SLAM_REACH: real := 0.05

  datatype Oscillator = Oscillator(t: real, pos: real, rate: real, amp: real)
  {
    /** The clamp invariants update_amp and update_rate maintain. */
    predicate InBounds()
    {
      0.0 <= amp <= 1.0 && MIN_RATE <= rate <= BASE_RATE
    }

    /** Oscillator::sample: never larger in magnitude than the amplitude, and
        so in [-1, 1] for an oscillator within its bounds. */
    function Sample(sin: real -> real): (r: real)
      ensures SineBounded(sin) ==> Abs(r) <= Abs(amp)
      ensures SineBounded(sin) && InBounds() ==> -1.0 <= r <= 1.0
    {
      var s := sin(t);
      assert SineBounded(sin) ==> Abs(amp * s) <= Abs(amp) by {
        if SineBounded(sin) {
          ScaledBound(s, amp);
        }
      }
      amp * s
    }

    /** Oscillator::tick: only the phase moves, by exactly the rate. */
    function Tick(): (o: Oscillator)
      ensures o.t - t == rate
      ensures o.pos == pos && o.rate == rate && o.amp == amp
    {
      this.(t := t + rate)
    }

    /** Oscillator::update_amp. */
    function UpdateAmp(delta: real): (o: Oscillator)
      ensures 0.0 <= o.amp <= 1.0
      ensures 0.0 <= amp + delta <= 1.0 ==> o.amp == amp + delta
      ensures amp + delta <= 0.0 ==> o.amp == 0.0
      ensures amp + delta >= 1.0 ==> o.amp == 1.0
      ensures o.t == t && o.pos == pos && o.rate == rate
    {
      this.(amp := Clamp(amp + delta, 0.0, 1.0))
    }

    /** Oscillator::update_rate. */
    function UpdateRate(delta: real): (o: Oscillator)
      ensures MIN_RATE <= o.rate <= BASE_RATE
      ensures MIN_RATE <= rate + delta <= BASE_RATE ==> o.rate == rate + delta
      ensures rate + delta <= MIN_RATE ==> o.rate == MIN_RATE
      ensures rate + delta >= BASE_RATE ==> o.rate == BASE_RATE
      ensures o.t == t && o.pos == pos && o.amp == amp
    {
      this.(rate := Clamp(rate + 1.0 * delta, MIN_RATE, BASE_RATE))
    }

    /** The body of World::add_weight's loop (core/src/lib.rs:100-102): scale
        the nudge by the distance weighting, then update_amp and update_rate
        by that same delta. */
    function Nudge(deltaWeight: real, weighting: real): (o: Oscillator)
      ensures o.InBounds()
      ensures o.amp == Clamp(amp + deltaWeight * weighting, 0.0, 1.0)
      ensures o.rate == Clamp(rate + deltaWeight * weighting, MIN_RATE, BASE_RATE)
      ensures o.pos == pos && o.t == t
      ensures deltaWeight == 0.0 && InBounds() ==> o == this
    {
      var delta := deltaWeight * weighting;
      UpdateAmp(delta).UpdateRate(1.0 * delta)
    }

    /** Oscillator::slam: raise the amplitude and lower the rate by the force,
        then step the phase toward its trough target by the capped step; see
        SlamPhaseStep for what that step amounts to. */
    function Slam(force: real): (o: Oscillator)
      ensures o.pos == pos && o.InBounds()
      ensures o.amp == Clamp(amp + force, 0.0, 1.0)
      ensures o.rate == Clamp(rate - force, MIN_RATE, BASE_RATE)
      ensures o.t == t + CappedStep(TargetOffset(t), force)
    {
      var damped := UpdateAmp(force).UpdateRate(-force);
      var moveVal := force * 1.0;
      damped.(t := damped.t + CappedStep(TargetOffset(damped.t), moveVal))
    }
  }

  /** The cycle the phase is in: floor(t / TAU) (core/src/lib.rs:172). */
  function Cycle(t: real): (a: int)
    ensures a as real <= t / 6.282 < a as real + 1.0
  {
    (t / 6.282).Floor
  }

  /** The phase within its cycle (line 173), always in [0, TAU). */
  function LocalPhase(t: real): (b: real)
    ensures 0.0 <= b < 6.282
    ensures t == 6.282 * Cycle(t) as real + b
  {
    t - 6.282 * Cycle(t) as real
  }

  /** A trough of the modelled waveform: three quarters of a cycle, plus
      any whole number of cycles. */
  ghost predicate IsTroughPhase(x: real)
  {
    LocalPhase(x) == 0.75 * 6.282
  }

  /** b_target (lines 191-196): the trough before the cycle (-TAU/4) during
      its first quarter, the trough inside it (3 TAU/4) after that. Either
      way the target is at most half a cycle from the local phase. */
  function TroughTarget(b: real): (r: real)
    ensures r == -0.25 * 6.282 || r == 0.75 * 6.282
    ensures 0.0 <= b < 6.282 ==> Abs(r - b) <= 6.282 / 2.0
    ensures b == 0.25 * 6.282 ==> r == 0.75 * 6.282
  {
    if b < 0.25 * 6.282 then -0.25 * 6.282 else 0.75 * 6.282
  }

  /** The target is the nearest trough: no phase 3 TAU/4 + k TAU is closer. */
  lemma TroughTargetIsNearest(b: real, k: int)
    requires 0.0 <= b < 6.282
    ensures Abs(TroughTarget(b) - b) <= Abs(0.75 * 6.282 + k as real * 6.282 - b)
  {
    if k >= 1 {
      assert k as real * 6.282 >= 6.282;
    } else if k <= -1 {
      assert k as real * 6.282 <= -6.282;
    }
  }

  /** Neither value points the other way: zero, or the same sign. */
  predicate SameDirection(x: real, y: real)
  {
    (x > 0.0 ==> y >= 0.0) && (x < 0.0 ==> y <= 0.0)
  }

  /** The capped phase step (lines 198-205): the difference to the target,
      cut to the move limit when it is larger. A non-negative limit keeps the
      direction; a negative limit always cuts, stepping |limit| the other way. */
  function CappedStep(delta: real, limit: real): (r: real)
    ensures Abs(r) <= Abs(limit)
    ensures limit >= 0.0 ==> SameDirection(r, delta) && Abs(r) == Min(Abs(delta), limit)
    ensures limit < 0.0 ==> SameDirection(r, -delta) && Abs(r) == -limit
  {
    if Abs(delta) > limit then Signum(delta) * limit else delta
  }

  /** How far the phase is from its trough target (b_target - b on line
      198), never more than half a cycle either way. */
  function TargetOffset(t: real): (d: real)
    ensures Abs(d) <= 6.282 / 2.0
    ensures t + d == 6.282 * Cycle(t) as real + TroughTarget(LocalPhase(t))
  {
    var b := LocalPhase(t);
    TroughTarget(b) - b
  }

  /** The phase step of slam never exceeds the force in magnitude. For a
      non-negative force it points toward the trough target and covers the
      whole distance or the force, whichever is less; a negative force always
      moves the phase by exactly |force|, away from the target. */
  lemma SlamPhaseStep(o: Oscillator, force: real)
    ensures Abs(o.Slam(force).t - o.t) <= Abs(force)
    ensures force >= 0.0 ==>
      SameDirection(o.Slam(force).t - o.t, TargetOffset(o.t)) &&
      Abs(o.Slam(force).t - o.t) == Min(Abs(TargetOffset(o.t)), force)
    ensures force < 0.0 ==>
      SameDirection(o.Slam(force).t - o.t, -TargetOffset(o.t)) && Abs(o.Slam(force).t - o.t) == -force
  {
    var step := CappedStep(TargetOffset(o.t), force);
    assert o.Slam(force).t - o.t == step;
  }

  /** A force of at least half a cycle is never capped, so slam lands the
      phase exactly on the chosen trough, keeping the elapsed cycles. */
  lemma SlamReachesTrough(o: Oscillator, force: real)
    requires force >= 6.282 / 2.0
    ensures o.Slam(force).t == 6.282 * Cycle(o.t) as real + TroughTarget(LocalPhase(o.t))
    ensures IsTroughPhase(o.Slam(force).t)
  {
    var b := LocalPhase(o.t);
    var target := TroughTarget(b);
    var t' := o.Slam(force).t;
    assert t' == o.t + (target - b);
    var a := Cycle(o.t);
    if target == 0.75 * 6.282 {
      assert t' / 6.282 == a as real + 0.75;
      assert Cycle(t') == a;
    } else {
      assert t' == 6.282 * (a - 1) as real + 0.75 * 6.282;
      assert t' / 6.282 == (a - 1) as real + 0.75;
      assert Cycle(t') == a - 1;
      assert LocalPhase(t') == t' - 6.282 * (a - 1) as real;
    }
  }

  /** The linear falloff of slam's force with distance (line 114). It is
      positive exactly below SLAM_REACH, well inside the SLAM_RADIUS guard. */
  function SlamWeighting(dist: real): (w: real)
    ensures w > 0.0 <==> dist < SLAM_REACH
    ensures 0.0 <= dist ==> w <= 1.0
  {
    1.0 - 20.0 * dist
  }

  /** The force an oscillator at distance dist feels (line 116): within
      reach, never more than the impact's own force in magnitude. */
  function EffectiveForce(force: real, dist: real): (f: real)
    ensures 0.0 <= dist < SLAM_REACH ==> Abs(f) <= Abs(force)
  {
    var w := SlamWeighting(dist);
    assert 0.0 <= dist < SLAM_REACH ==> Abs(force * w) <= Abs(force) by {
      if 0.0 <= dist < SLAM_REACH {
        ScaledBound(w, force);
      }
    }
    force * w
  }

  /** The per-oscillator step of World::slam (lines 110-119): only an
      oscillator closer than SLAM_REACH is hit, with a linearly weakened force. */
  function Slammed(o: Oscillator, force: real, p: real): (r: Oscillator)
    ensures MinDist(o.pos, p) >= SLAM_REACH ==> r == o
    ensures MinDist(o.pos, p) < SLAM_REACH ==> r == o.Slam(EffectiveForce(force, MinDist(o.pos, p)))
    ensures r.pos == o.pos
    ensures o.InBounds() ==> r.InBounds()
  {
    var dist := MinDist(o.pos, p);
    if dist < SLAM_RADIUS then
      var weighting := SlamWeighting(dist);
      if weighting > 0.0 then o.Slam(EffectiveForce(force, dist)) else o
    else o
  }

  /** sin(k d) / (k d) with k = 100 (core/src/lib.rs:97-98), defined for
      d != 0. Beyond d = 0.01 it lies in [-1, 1]. */
  function RawSinc(dist: real, sin: real -> real): (w: real)
    requires dist != 0.0
    ensures SineBounded(sin) && dist >= 0.01 ==> -1.0 <= w <= 1.0
  {
    var x := 100.0 * dist;
    assert SineBounded(sin) && dist >= 0.01 ==> -1.0 <= sin(x) / x <= 1.0 by {
      if SineBounded(sin) && dist >= 0.01 {
        QuotientBound(sin(x), x);
      }
    }
    sin(x) / x
  }

  lemma QuotientBound(s: real, x: real)
    requires -1.0 <= s <= 1.0 && x >= 1.0
    ensures -1.0 <= s / x <= 1.0
  {
    var q := s / x;
    assert q * x == s;
    assert (q - 1.0) * x <= 0.0 by {
      assert (q - 1.0) * x == s - x;
    }
    assert (q + 1.0) * x >= 0.0 by {
      assert (q + 1.0) * x == s + x;
    }
  }

  /** add_weight's distance weighting as written (line 98): at d == 0 it is
      0.0 / 0.0, a NaN (None). */
  function SincWeightAsWritten(dist: real, sin: real -> real): (w: Option<real>)
    ensures w.None? <==> dist == 0.0
  {
    if dist == 0.0 then None else Some(RawSinc(dist, sin))
  }

  /** The weighting corrected to take its limit value 1 at d == 0. */
  function SincWeight(dist: real, sin: real -> real): (w: real)
    ensures dist == 0.0 ==> w == 1.0
    ensures SineBounded(sin) && dist >= 0.01 ==> -1.0 <= w <= 1.0
  {
    if dist == 0.0 then 1.0 else RawSinc(dist, sin)
  }

  /** The correction changes nothing away from d == 0. */
  lemma SincWeightAgreesAwayFromZero(dist: real, sin: real -> real)
    requires dist != 0.0
    ensures SincWeightAsWritten(dist, sin) == Some(SincWeight(dist, sin))
  {
  }

  /** World::add_weight's step for one oscillator as written: where the
      weighting is NaN it propagates through both clamps into amp and rate
      (None); elsewhere update_amp and update_rate by the weighted delta. */
  function NudgedAsWritten(o: Oscillator, deltaWeight: real, p: real, sin: real -> real): (r: Option<Oscillator>)
    ensures r.None? <==> MinDist(o.pos, p) == 0.0
  {
    match SincWeightAsWritten(MinDist(o.pos, p), sin)
    case None => None
    case Some(w) => Some(o.Nudge(deltaWeight, w))
  }

  /** The same step with the corrected weighting: amplitude and rate move by
      the same weighted delta, each clamped into its range. */
  function Nudged(o: Oscillator, deltaWeight: real, p: real, sin: real -> real): (r: Oscillator)
    ensures r.InBounds()
    ensures r.amp == Clamp(o.amp + deltaWeight * SincWeight(MinDist(o.pos, p), sin), 0.0, 1.0)
    ensures r.rate == Clamp(o.rate + deltaWeight * SincWeight(MinDist(o.pos, p), sin), MIN_RATE, BASE_RATE)
    ensures r.pos == o.pos && r.t == o.t
    ensures deltaWeight == 0.0 && o.InBounds() ==> r == o
    ensures MinDist(o.pos, p) != 0.0 ==> NudgedAsWritten(o, deltaWeight, p, sin) == Some(r)
  {
    o.Nudge(deltaWeight, SincWeight(MinDist(o.pos, p), sin))
  }

  /** As written, add_weight(0, p) at an oscillator's own position does not
      leave it alone: its amplitude and rate become NaN. The corrected step
      leaves every in-bounds oscillator unchanged. */
  lemma ZeroNudgeAtOwnPosition(o: Oscillator, sin: real -> real)
    requires o.InBounds()
    ensures NudgedAsWritten(o, 0.0, o.pos, sin).None?
    ensures Nudged(o, 0.0, o.pos, sin) == o
  {
  }

  /** Oscillator i as World::new(seed, n) builds it (lines 18-27). */
  function InitialOscillator(seed: nat, n: nat, i: nat): (o: Oscillator)
    requires i < n
    ensures o.pos == Position(i, n) && o.rate == BASE_RATE && o.InBounds()
    ensures o.amp == ((i + seed) % 4 + 1) as real / 16.0
    ensures 1.0 / 16.0 <= o.amp <= 0.25
    ensures o.t == (seed * 1235 + i * 100) as real
  {
    var amp := (((i + seed) % LEVELS) + 1) as real / (4.0 * LEVELS as real);
    Oscillator(t := (seed * 1235 + i * 100) as real, pos := i as real / n as real,
               rate := BASE_RATE, amp := amp)
  }

  /** The initial amplitudes are the four levels 1/16 .. 4/16 in turn, and a
      seed one larger shifts the pattern by one oscillator. */
  lemma InitialAmplitudeLevels(seed: nat, n: nat, i: nat)
    requires i < n
    ensures i + 1 < n ==> InitialOscillator(seed + 1, n, i).amp == InitialOscillator(seed, n, i + 1).amp
    ensures i + 4 < n ==> InitialOscillator(seed, n, i + 4).amp == InitialOscillator(seed, n, i).amp
  {
  }

  /** Oscillator::tick applied n times, the rate held fixed. */
  function TickedN(o: Oscillator, n: nat): Oscillator
  {
    if n == 0 then o else TickedN(o, n - 1).Tick()
  }

  /** n ticks at a constant rate advance the phase by exactly n * rate. */
  lemma {:induction false} TicksAccumulate(o: Oscillator, n: nat)
    ensures TickedN(o, n).t == o.t + n as real * o.rate
    ensures TickedN(o, n).pos == o.pos && TickedN(o, n).rate == o.rate && TickedN(o, n).amp == o.amp
  {
    if n > 0 {
      TicksAccumulate(o, n - 1);
      assert (n - 1) as real * o.rate + o.rate == n as real * o.rate;
    }
  }

  /** One oscillator's term in World::sample (lines 79-86). */
  function Contribution(o: Oscillator, p: real, sin: real -> real): (c: real)
    ensures SineBounded(sin) ==> Abs(c) <= Abs(o.amp)
  {
    var weighting := DistanceWeight(MinDist(o.pos, p), 50.0);
    if weighting > 0.0 then
      var s := o.Sample(sin);
      assert SineBounded(sin) ==> Abs(weighting * s) <= Abs(o.amp) by {
        if SineBounded(sin) {
          WeightedBound(weighting, s, Abs(o.amp));
        }
      }
      weighting * s
    else 0.0
  }

  /** The sum of the amplitudes' magnitudes. */
  function TotalAmp(s: seq<Oscillator>): (r: real)
    ensures r >= 0.0
    ensures (forall i :: 0 <= i < |s| ==> s[i].InBounds()) ==> r <= |s| as real
  {
    if s == [] then 0.0 else TotalAmp(s[..|s| - 1]) + Abs(s[|s| - 1].amp)
  }

  /** World::sample over the oscillators in order. Every weight is in (0, 1],
      so the field never exceeds the total amplitude in magnitude (it is not
      confined to [-1, 1] as the comment on line 73 says). */
  function FieldSample(s: seq<Oscillator>, p: real, sin: real -> real): (r: real)
    ensures SineBounded(sin) ==> Abs(r) <= TotalAmp(s)
  {
    if s == [] then 0.0
    else FieldSample(s[..|s| - 1], p, sin) + Contribution(s[|s| - 1], p, sin)
  }

  /** The oscillators World::new(seed, n) produces. */
  function InitialField(seed: nat, n: nat): (s: seq<Oscillator>)
    ensures |s| == n
    ensures forall i :: 0 <= i < n ==> s[i] == InitialOscillator(seed, n, i)
  {
    seq(n, i requires 0 <= i < n => InitialOscillator(seed, n, i))
  }

  /** World(seed 0, 4 oscillators) sampled at position 0 before any tick:
      amplitudes 1/16 .. 4/16, phases 0, 100, 200, 300, distances 0, 1/4,
      1/2, 1/4 and so weights 1, 2/27, 1/26, 2/27. */
  lemma SampleOfSmallWorld(sin: real -> real)
    ensures FieldSample(InitialField(0, 4), 0.0, sin) ==
      (1.0 / 16.0) * sin(0.0) + (2.0 / 27.0) * ((2.0 / 16.0) * sin(100.0))
      + (1.0 / 26.0) * ((3.0 / 16.0) * sin(200.0)) + (2.0 / 27.0) * ((4.0 / 16.0) * sin(300.0))
  {
    var s := InitialField(0, 4);
    assert s[0] == Oscillator(0.0, 0.0, BASE_RATE, 1.0 / 16.0);
    assert s[1] == Oscillator(100.0, 0.25, BASE_RATE, 2.0 / 16.0);
    assert s[2] == Oscillator(200.0, 0.5, BASE_RATE, 3.0 / 16.0);
    assert s[3] == Oscillator(300.0, 0.75, BASE_RATE, 4.0 / 16.0);
    assert MinDist(0.25, 0.0) == 0.25 && MinDist(0.5, 0.0) == 0.5 && MinDist(0.75, 0.0) == 0.25;
    assert DistanceWeight(0.0, 50.0) == 1.0;
    assert DistanceWeight(0.25, 50.0) == 2.0 / 27.0;
    assert DistanceWeight(0.5, 50.0) == 1.0 / 26.0;
    assert s[..3][..2][..1][..0] == [];
    assert s[..3][..2][..1] == [s[0]] && s[..3][..2] == [s[0], s[1]] && s[..3] == [s[0], s[1], s[2]];
    assert FieldSample(s[..3][..2][..1], 0.0, sin) == (1.0 / 16.0) * sin(0.0);
  }

  /** A World owns a fixed-length array of oscillators (the Vec of line 4,
      never resized after construction); the operations update its elements
      in place. */
  class World {
    const oscs: array<Oscillator>

    /** Positions stay evenly spaced in construction order; both clamp
        invariants hold for every oscillator. */
    ghost predicate Valid()
      reads this, oscs
    {
      forall i :: 0 <= i < oscs.Length ==>
        oscs[i].pos == Position(i, oscs.Length) && oscs[i].InBounds()
    }

    /** World::new (lines 13-33). */
    constructor (seed: nat, oscCount: nat)
      ensures Valid() && fresh(oscs)
      ensures oscs[..] == InitialField(seed, oscCount)
    {
      var a := new Oscillator[oscCount];
      for i := 0 to oscCount
        invariant forall j :: 0 <= j < i ==> a[j] == InitialOscillator(seed, oscCount, j)
      {
        var amp := (((i + seed) % LEVELS) + 1) as real / (4.0 * LEVELS as real);
        a[i] := Oscillator(t := (seed * 1235 + i * 100) as real,
                           pos := i as real / oscCount as real,
                           rate := BASE_RATE, amp := amp);
      }
      oscs := a;
    }

    /** World::tick (lines 35-39). */
    method Tick()
      requires Valid()
      modifies oscs
      ensures Valid()
      ensures forall i :: 0 <= i < oscs.Length ==> oscs[i] == old(oscs[i]).Tick()
    {
      for i := 0 to oscs.Length
        invariant forall j :: 0 <= j < i ==> oscs[j] == old(oscs[j]).Tick()
        invariant forall j :: i <= j < oscs.Length ==> oscs[j] == old(oscs[j])
      {
        oscs[i] := oscs[i].Tick();
      }
    }

    /** World::sample (lines 74-90): reads the field, changes nothing. */
    method Sample(p: real, sin: real -> real) returns (res: real)
      ensures res == FieldSample(oscs[..], p, sin)
      ensures SineBounded(sin) ==> Abs(res) <= TotalAmp(oscs[..])
    {
      res := 0.0;
      for i := 0 to oscs.Length
        invariant res == FieldSample(oscs[..i], p, sin)
      {
        var dist := MinDist(oscs[i].pos, p);
        var weighting := 1.0 / (1.0 + 50.0 * dist);
        if weighting > 0.0 {
          res := res + weighting * oscs[i].Sample(sin);
        }
        assert oscs[..i + 1][..i] == oscs[..i];
      }
      assert oscs[..oscs.Length] == oscs[..];
    }

    /** World::add_weight (lines 94-105), with the corrected weight at d == 0. */
    method AddWeight(deltaWeight: real, p: real, sin: real -> real)
      requires Valid()
      modifies oscs
      ensures Valid()
      ensures forall i :: 0 <= i < oscs.Length ==> oscs[i] == Nudged(old(oscs[i]), deltaWeight, p, sin)
      ensures deltaWeight == 0.0 ==> oscs[..] == old(oscs[..])
    {
      for i := 0 to oscs.Length
        invariant forall j :: 0 <= j < i ==> oscs[j] == Nudged(old(oscs[j]), deltaWeight, p, sin)
        invariant forall j :: i <= j < oscs.Length ==> oscs[j] == old(oscs[j])
      {
        var dist := MinDist(oscs[i].pos, p);
        var distanceWeighting := SincWeight(dist, sin);
        oscs[i] := oscs[i].Nudge(deltaWeight, distanceWeighting);
      }
    }

    /** World::slam (lines 109-120): only oscillators closer than SLAM_REACH
        to p change, and no position ever does. */
    method Slam(force: real, p: real)
      requires Valid()
      modifies oscs
      ensures Valid()
      ensures forall i :: 0 <= i < oscs.Length ==> oscs[i] == Slammed(old(oscs[i]), force, p)
      ensures forall i :: 0 <= i < oscs.Length && MinDist(old(oscs[i]).pos, p) >= SLAM_REACH ==>
        oscs[i] == old(oscs[i])
    {
      for i := 0 to oscs.Length
        invariant forall j :: 0 <= j < i ==> oscs[j] == Slammed(old(oscs[j]), force, p)
        invariant forall j :: i <= j < oscs.Length ==> oscs[j] == old(oscs[j])
      {
        var dist := MinDist(oscs[i].pos, p);
        if dist < SLAM_RADIUS {
          var weighting := 1.0 - 20.0 * dist;
          if weighting > 0.0 {
            assert force * weighting == EffectiveForce(force, dist);
            SlamOscillator(i, force * weighting);
          }
        }
      }
    }

    /** Oscillator::slam (lines 149-208) run in place on element i, step by
        step as the source does it. */
    method SlamOscillator(i: nat, force: real)
      requires i < oscs.Length
      modifies oscs
      ensures oscs[..] == old(oscs[..])[i := old(oscs[i]).Slam(force)]
    {
      var o := oscs[i];
      ghost var before := o;
      o := o.(amp := Clamp(o.amp + force, 0.0, 1.0));
      o := o.(rate := Clamp(o.rate + 1.0 * -force, MIN_RATE, BASE_RATE));
      assert o == before.UpdateAmp(force).UpdateRate(-force);
      var moveVal := force * 1.0;
      var a := (o.t / 6.282).Floor;
      var b := o.t - 6.282 * a as real;
      var bTarget := if b < 0.25 * 6.282 then -0.25 * 6.282 else 0.75 * 6.282;
      var delta := bTarget - b;
      assert delta == TargetOffset(before.t);
      if Abs(delta) > moveVal {
        delta := Signum(delta) * moveVal;
      }
      assert delta == CappedStep(TargetOffset(before.t), force);
      o := o.(t := o.t + delta);
      oscs[i] := o;
    }
  }
}
