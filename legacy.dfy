/** The older engine of src/lib.rs. Its World keeps no clock: the caller
    passes an integer time t to sample, each oscillator adds its own u32
    offset to it, and the distance weighting is logarithmic,
    1 + ln(1 - k * dist), with a sharpness k that grows with ln t.
    add_weight retunes the rates only. sin and ln are parameters; the
    properties that need them assume only their signs and bounds. */
module LegacyField {
  import opened Numeric
  import opened Circle

  const U32_MODULUS: nat := 0x1_0000_0000

  type U32 = x: nat | x < 0x1_0000_0000

  /** The rate every oscillator starts with (3.141 * 2 / 120). */
  const INITIAL_RATE: real := 6.282 / 120.0
  /** The bounds add_weight clamps the rate to. */
  const MIN_RATE: real := 0.0001
  const MAX_RATE: real := 1.0
  /** The sharpness add_weight weights by. */
  const NUDGE_SHARPNESS: real := 4.0

  /** What the bounds assume of ln: the natural logarithm is at most 0 on
      (0, 1] and at least 0 from 1 on. */
  ghost predicate LogSigned(ln: real -> real)
  {
    forall x :: 0.0 < x ==> (x <= 1.0 ==> ln(x) <= 0.0) && (1.0 <= x ==> ln(x) >= 0.0)
  }

  datatype Oscillator = Oscillator(tOff: U32, pos: real, rate: real, amp: real)
  {
    /** The rate lies in the range add_weight clamps it to. */
    predicate RateInRange()
    {
      MIN_RATE <= rate <= MAX_RATE
    }

    /** The phase at time t: (t + t_off) as f32 * rate, where the u32 sum
        wraps round as it does in a release build. */
    function Phase(t: U32): (r: real)
      ensures t + tOff < U32_MODULUS ==> r == (t + tOff) as real * rate
      ensures t + tOff >= U32_MODULUS ==> r == (t + tOff - U32_MODULUS) as real * rate
    {
      var sum := t + tOff;
      assert sum >= U32_MODULUS ==> sum % U32_MODULUS == sum - U32_MODULUS by {
        if sum >= U32_MODULUS {
          assert 0 <= sum - U32_MODULUS < U32_MODULUS;
        }
      }
      (sum % U32_MODULUS) as real * rate
    }

    /** Oscillator::sample: the amplitude times the sine of the phase, in
        [-1, 1] whenever the amplitude is in [0, 1]. */
    function Sample(t: U32, sin: real -> real): (r: real)
      ensures SineBounded(sin) ==> Abs(r) <= Abs(amp)
      ensures SineBounded(sin) && 0.0 <= amp <= 1.0 ==> -1.0 <= r <= 1.0
    {
      var s := sin(Phase(t));
      assert SineBounded(sin) ==> Abs(amp * s) <= Abs(amp) by {
        if SineBounded(sin) {
          ScaledBound(s, amp);
        }
      }
      amp * s
    }

    /** One step of add_weight: the rate moves by delta_weight * weight and is
        clamped into [0.0001, 1]; nothing else changes. */
    function RateNudge(deltaWeight: real, weight: real): (o: Oscillator)
      ensures o.RateInRange()
      ensures o.rate == Clamp(rate + deltaWeight * weight, MIN_RATE, MAX_RATE)
      ensures o.tOff == tOff && o.pos == pos && o.amp == amp
      ensures deltaWeight == 0.0 && RateInRange() ==> o == this
    {
      this.(rate := Clamp(rate + deltaWeight * weight, MIN_RATE, MAX_RATE))
    }
  }

  /** distance_weight_log: 1 + ln(1 - k * dist). Where 1 - k * dist is zero
      or negative the f32 logarithm is -inf or NaN, and the weight is None. */
  function LogWeight(dist: real, k: real, ln: real -> real): (w: Option<real>)
    ensures w.Some? <==> k * dist < 1.0
    ensures w.Some? ==> w.value == 1.0 + ln(1.0 - k * dist)
    ensures LogSigned(ln) && w.Some? && k * dist >= 0.0 ==> w.value <= 1.0
    ensures LogSigned(ln) && dist == 0.0 ==> w == Some(1.0)
  {
    var arg := 1.0 - k * dist;
    if arg > 0.0 then Some(1.0 + ln(arg)) else None
  }

  /** The sharpness World::sample derives from the time: (ln t + 1200) / 800.
      At t == 0 the f32 logarithm is -inf and so is the sharpness: None. */
  function SampleSharpness(t: U32, ln: real -> real): (k: Option<real>)
    ensures k.Some? <==> t > 0
    ensures LogSigned(ln) && k.Some? ==> k.value >= 1.5
  {
    if t == 0 then None else Some((ln(t as real) + 1200.0) / 800.0)
  }

  /** One oscillator's term in World::sample. It is added only when the
      weighting is finite and positive; at t == 0 every weighting is NaN or
      +inf, so nothing is added. */
  function Contribution(o: Oscillator, t: U32, p: real, sin: real -> real, ln: real -> real): (c: real)
    ensures SampleSharpness(t, ln).None? ==> c == 0.0
    ensures c != 0.0 ==>
      && SampleSharpness(t, ln).Some?
      && LogWeight(MinDist(o.pos, p), SampleSharpness(t, ln).value, ln).Some?
      && LogWeight(MinDist(o.pos, p), SampleSharpness(t, ln).value, ln).value > 0.0
    ensures SineBounded(sin) && LogSigned(ln) ==> Abs(c) <= Abs(o.amp)
  {
    match SampleSharpness(t, ln)
    case None => 0.0
    case Some(k) =>
      var dist := MinDist(o.pos, p);
      match LogWeight(dist, k, ln)
      case None => 0.0
      case Some(w) =>
        if w > 0.0 then
          var v := o.Sample(t, sin);
          assert SineBounded(sin) && LogSigned(ln) ==> Abs(w * v) <= Abs(o.amp) by {
            if SineBounded(sin) && LogSigned(ln) {
              MulNonNeg(k, dist);
              WeightedBound(w, v, Abs(o.amp));
            }
          }
          w * v
        else 0.0
  }

  function TotalAmp(s: seq<Oscillator>): (r: real)
    ensures r >= 0.0
    ensures (forall i :: 0 <= i < |s| ==> 0.0 <= s[i].amp <= 1.0) ==> r <= |s| as real
  {
    if s == [] then 0.0 else TotalAmp(s[..|s| - 1]) + Abs(s[|s| - 1].amp)
  }

  /** World::sample over the oscillators in order. Every weight that counts
      is in (0, 1], so the result never exceeds the total amplitude in
      magnitude (it is not confined to [-1, 1] as the comment in the source
      says). */
  function FieldSample(s: seq<Oscillator>, t: U32, p: real, sin: real -> real, ln: real -> real): (r: real)
    ensures SineBounded(sin) && LogSigned(ln) ==> Abs(r) <= TotalAmp(s)
  {
    if s == [] then 0.0
    else FieldSample(s[..|s| - 1], t, p, sin, ln) + Contribution(s[|s| - 1], t, p, sin, ln)
  }

  /** At time 0 the field is silent, whatever the oscillators. */
  lemma {:induction false} SilentAtTimeZero(s: seq<Oscillator>, p: real, sin: real -> real, ln: real -> real)
    ensures FieldSample(s, 0, p, sin, ln) == 0.0
  {
    if s != [] {
      SilentAtTimeZero(s[..|s| - 1], p, sin, ln);
    }
  }

  /** An oscillator as the f32 code can leave it: its rate may be NaN (None). */
  datatype RawOscillator = RawOscillator(tOff: U32, pos: real, rate: Option<real>, amp: real)

  /** add_weight's step AS WRITTEN. The weight 1 + ln(1 - 4 dist) is finite
      only for dist < 0.25. At dist == 0.25 it is -inf: a positive
      delta_weight drives the rate to the lower clamp bound, a negative one to
      the upper, and zero gives 0 * -inf = NaN. Beyond 0.25 the logarithm of
      a negative number is NaN. Only the rate is written, so t_off, pos and
      amp survive in every case. */
  function NudgedAsWritten(o: Oscillator, deltaWeight: real, p: real, ln: real -> real): (r: RawOscillator)
    ensures r.rate.None? <==> MinDist(o.pos, p) > 0.25 || (MinDist(o.pos, p) == 0.25 && deltaWeight == 0.0)
    ensures r.rate.Some? ==> MIN_RATE <= r.rate.value <= MAX_RATE
    ensures r.tOff == o.tOff && r.pos == o.pos && r.amp == o.amp
  {
    var dist := MinDist(o.pos, p);
    var rate :=
      match LogWeight(dist, NUDGE_SHARPNESS, ln)
      case Some(w) => Some(o.RateNudge(deltaWeight, w).rate)
      case None =>
        if dist == 0.25 && deltaWeight > 0.0 then Some(MIN_RATE)
        else if dist == 0.25 && deltaWeight < 0.0 then Some(MAX_RATE)
        else None;
    RawOscillator(o.tOff, o.pos, rate, o.amp)
  }

  /** A concrete case: in the 32-oscillator world the host creates,
      oscillator 16 sits half a turn from position 0, and the first
      add_weight there makes its rate NaN. */
  lemma OppositeOscillatorIsBroken(deltaWeight: real, ln: real -> real)
    ensures NudgedAsWritten(InitialOscillator(32, 16), deltaWeight, 0.0, ln).rate.None?
  {
    assert MinDist(InitialOscillator(32, 16).pos, 0.0) == 0.5;
  }

  /** add_weight's step as evidently intended: like World::sample, it skips
      an oscillator whose weight is not finite. It agrees with the code as
      written wherever the weight is finite. */
  function Nudged(o: Oscillator, deltaWeight: real, p: real, ln: real -> real): (r: Oscillator)
    ensures r.tOff == o.tOff && r.pos == o.pos && r.amp == o.amp
    ensures o.RateInRange() ==> r.RateInRange()
    ensures MinDist(o.pos, p) >= 0.25 ==> r == o
    ensures MinDist(o.pos, p) < 0.25 ==> NudgedAsWritten(o, deltaWeight, p, ln).rate == Some(r.rate)
    ensures deltaWeight == 0.0 && o.RateInRange() ==> r == o
  {
    match LogWeight(MinDist(o.pos, p), NUDGE_SHARPNESS, ln)
    case Some(w) => o.RateNudge(deltaWeight, w)
    case None => o
  }

  /** The amplitude level of oscillator i: one of 0, 1/4, 2/4, 3/4 in turn. */
  function AmpLevel(i: nat): (a: real)
    ensures 0.0 <= a <= 0.75
    ensures a == 0.0 <==> i % 4 == 0
  {
    (i % 4) as real / 4.0
  }

  /** The time offset of oscillator i: i * 100 truncated to u32. */
  function TimeOffset(i: nat): (r: U32)
    ensures i * 100 < U32_MODULUS ==> r == i * 100
  {
    (i * 100) % U32_MODULUS
  }

  /** Oscillator i as World::new(n) builds it. */
  function InitialOscillator(n: nat, i: nat): (o: Oscillator)
    requires i < n
    ensures o.pos == Position(i, n) && o.amp == AmpLevel(i)
    ensures o.tOff == TimeOffset(i) && o.rate == INITIAL_RATE
    ensures o.RateInRange()
  {
    Oscillator(TimeOffset(i), i as real / n as real, INITIAL_RATE, AmpLevel(i))
  }

  /** The levels repeat every four oscillators; the offsets go up in steps of
      100 until the u32 truncation wraps them round. */
  lemma InitialPattern(i: nat)
    ensures AmpLevel(i + 4) == AmpLevel(i)
    ensures AmpLevel(4 * i + 3) == 0.75
    ensures (i + 1) * 100 < U32_MODULUS ==> TimeOffset(i + 1) == TimeOffset(i) + 100
    ensures TimeOffset(42949673) == 4
  {
  }

  function InitialField(n: nat): (s: seq<Oscillator>)
    ensures |s| == n
    ensures forall i :: 0 <= i < n ==> s[i] == InitialOscillator(n, i)
  {
    seq(n, i requires 0 <= i < n => InitialOscillator(n, i))
  }

  class World {
    const oscs: array<Oscillator>

    /** Positions, levels and offsets are those World::new gave; add_weight
        never touches them, and keeps every rate in its clamp range. */
    ghost predicate Valid()
      reads this, oscs
    {
      forall i :: 0 <= i < oscs.Length ==>
        && oscs[i].pos == Position(i, oscs.Length)
        && oscs[i].amp == AmpLevel(i)
        && oscs[i].tOff == TimeOffset(i)
        && oscs[i].RateInRange()
    }

    /** World::new(osc_count). */
    constructor (oscCount: nat)
      ensures Valid() && fresh(oscs)
      ensures oscs[..] == InitialField(oscCount)
    {
      var a := new Oscillator[oscCount];
      for i := 0 to oscCount
        invariant forall j :: 0 <= j < i ==> a[j] == InitialOscillator(oscCount, j)
      {
        a[i] := Oscillator(tOff := (i * 100) % U32_MODULUS,
                           pos := i as real / oscCount as real,
                           rate := INITIAL_RATE,
                           amp := (i % 4) as real / 4.0);
      }
      oscs := a;
    }

    /** World::sample(t, pos): reads the oscillators and changes nothing. */
    method Sample(t: U32, p: real, sin: real -> real, ln: real -> real) returns (res: real)
      ensures res == FieldSample(oscs[..], t, p, sin, ln)
      ensures t == 0 ==> res == 0.0
      ensures SineBounded(sin) && LogSigned(ln) ==> Abs(res) <= TotalAmp(oscs[..])
    {
      res := 0.0;
      for i := 0 to oscs.Length
        invariant res == FieldSample(oscs[..i], t, p, sin, ln)
      {
        var dist := MinDist(oscs[i].pos, p);
        var k := SampleSharpness(t, ln);
        if k.Some? {
          var weighting := LogWeight(dist, k.value, ln);
          if weighting.Some? && weighting.value > 0.0 {
            res := res + weighting.value * oscs[i].Sample(t, sin);
          }
        }
        assert oscs[..i + 1][..i] == oscs[..i];
      }
      assert oscs[..oscs.Length] == oscs[..];
      SilentAtTimeZero(oscs[..], p, sin, ln);
    }

    /** World::add_weight(delta_weight, pos), in its corrected form: every
        oscillator within a quarter turn has its rate retuned; the others,
        whose weight is not finite, are left alone. */
    method AddWeight(deltaWeight: real, p: real, ln: real -> real)
      requires Valid()
      modifies oscs
      ensures Valid()
      ensures forall i :: 0 <= i < oscs.Length ==> oscs[i] == Nudged(old(oscs[i]), deltaWeight, p, ln)
      ensures deltaWeight == 0.0 ==> oscs[..] == old(oscs[..])
    {
      for i := 0 to oscs.Length
        invariant forall j :: 0 <= j < i ==> oscs[j] == Nudged(old(oscs[j]), deltaWeight, p, ln)
        invariant forall j :: i <= j < oscs.Length ==> oscs[j] == old(oscs[j])
      {
        var dist := MinDist(oscs[i].pos, p);
        var weight := LogWeight(dist, NUDGE_SHARPNESS, ln);
        if weight.Some? {
          oscs[i] := oscs[i].RateNudge(deltaWeight, weight.value);
        }
      }
    }
  }
}
