/// Polyphonic Chebyshev waveshaper (src/Cheb12Mk1.cpp): up to eight voices,
/// each a sine through a 12-harmonic Chebyshev shaper whose harmonic levels
/// are the shared levels rotated by a per-voice offset, normalised by the
/// sum of its coefficients.
module Cheb12 {
  import opened Rack
  import opened Sums

  const Harmonics: nat := 12
  const MaxVoices: nat := 8
  const NumLights: nat := Harmonics * MaxVoices

  /** Voices: the V/OCT channel count clamped to 1..8. */
  function VoiceCount(channels: int): (c: nat)
    ensures 1 <= c <= MaxVoices
    ensures 1 <= channels <= MaxVoices ==> c == channels
    ensures channels < 1 ==> c == 1
    ensures MaxVoices < channels ==> c == MaxVoices
  {
    if channels < 1 then 1 else if MaxVoices < channels then MaxVoices else channels
  }

  /** C++ `%` by 12 on int: the remainder takes the sign of the dividend. */
  function TruncRem12(a: int): (r: int)
    ensures (a - r) % 12 == 0 && -12 < r < 12
    ensures 0 <= a ==> 0 <= r
    ensures a <= 0 ==> r <= 0
  {
    if 0 <= a then a % 12
    else
      ModUnique(-a - (-a) % 12, (-a) / 12, 0);
      ModUnique(a + (-a) % 12, -((-a) / 12), 0);
      -((-a) % 12)
  }

  /** The harmonic read for coefficient k at rotation rot, as written:
      `(k - rot + 60) % 12` with C++'s truncating `%`. */
  function RotIndexAsWritten(k: int, rot: int): (r: int)
    ensures -12 < r < 12 && (k - rot - r) % 12 == 0
  {
    var r := TruncRem12(k - rot + 60);
    ModUnique(k - rot - r, (k - rot + 60 - r) / 12 - 5, 0);
    r
  }

  /** The harmonic read for coefficient k at rotation rot: k - rot reduced
      into 0..11, for every rotation. */
  function RotIndex(k: int, rot: int): (r: nat)
    ensures r < Harmonics
    ensures (k - rot - r) % 12 == 0
  {
    ModUnique(k - rot - (k - rot) % 12, (k - rot) / 12, 0);
    (k - rot) % 12
  }

  /** A value 12 q + r with r in 0..11 leaves remainder r. */
  lemma ModUnique(x: int, q: int, r: int)
    requires 0 <= r < 12 && x == 12 * q + r
    ensures x % 12 == r
  {
    assert x / 12 == q;
  }

  /** Where the shifted dividend is not negative, the written index is the
      intended one. */
  lemma RotIndexAgrees(k: int, rot: int)
    requires 0 <= k - rot + 60
    ensures RotIndexAsWritten(k, rot) == RotIndex(k, rot)
  {
    ModUnique(k - rot + 60, (k - rot) / 12 + 5, (k - rot) % 12);
  }

  /** The written index is a valid harmonic exactly when the shifted
      dividend is not negative or is a multiple of 12. */
  lemma AsWrittenInRangeIff(k: int, rot: int)
    ensures 0 <= RotIndexAsWritten(k, rot) < Harmonics <==> 0 <= k - rot + 60 || (k - rot) % 12 == 0
  {
    var a := k - rot + 60;
    var r := RotIndexAsWritten(k, rot);
    if a < 0 && 0 <= r {
      assert r == 0;
      ModUnique(k - rot, (a - r) / 12 - 5, 0);
    }
    if a < 0 && (k - rot) % 12 == 0 {
      ModUnique(a, (k - rot) / 12 + 5, 0);
    }
  }

  /** With the rotation knob at 12, voice 6 rotates by 72 and coefficient 1
      reads harm[-11], before the start of the array. */
  lemma RotationReadsOutOfBounds()
    ensures RotIndexAsWritten(1, 6 * RotParam(None, 12.0)) == -11
  {
  }

  /** The coefficients of a voice rotated by rot: coefficient k gets the
      harmonic level k - rot, counted round the 12 harmonics. */
  function Rotate(harm: seq<real>, rot: int): (r: seq<real>)
    requires |harm| == Harmonics
    ensures |r| == Harmonics
  {
    seq(Harmonics, k requires 0 <= k < Harmonics => harm[RotIndex(k, rot)])
  }

  lemma RotateZero(harm: seq<real>)
    requires |harm| == Harmonics
    ensures Rotate(harm, 0) == harm
  {
  }

  /** Rotations compose: voice i + 1 is voice i rotated once more. */
  lemma RotateCompose(harm: seq<real>, a: int, b: int)
    requires |harm| == Harmonics
    ensures Rotate(Rotate(harm, a), b) == Rotate(harm, a + b)
  {
    forall k | 0 <= k < Harmonics
      ensures Rotate(Rotate(harm, a), b)[k] == Rotate(harm, a + b)[k]
    {
      var j := RotIndex(k, b);
      ModUnique(j - a, (k - a - b) / 12 - (k - b) / 12, (k - a - b) % 12);
    }
  }

  /** Twelve steps of rotation are none. */
  lemma RotatePeriodic(harm: seq<real>, rot: int)
    requires |harm| == Harmonics
    ensures Rotate(harm, rot + Harmonics) == Rotate(harm, rot)
  {
    forall k | 0 <= k < Harmonics
      ensures Rotate(harm, rot + Harmonics)[k] == Rotate(harm, rot)[k]
    {
      ModUnique(k - rot - 12, (k - rot) / 12 - 1, (k - rot) % 12);
    }
  }

  /** A rotation by rot is the levels cut at (-rot) mod 12 and swapped. */
  lemma RotateAsSlices(harm: seq<real>, rot: int)
    requires |harm| == Harmonics
    ensures Rotate(harm, rot) == harm[RotIndex(0, rot)..] + harm[..RotIndex(0, rot)]
  {
    var m := RotIndex(0, rot);
    var r := Rotate(harm, rot);
    var t := harm[m..] + harm[..m];
    forall k | 0 <= k < Harmonics
      ensures r[k] == t[k]
    {
      if k < Harmonics - m {
        ModUnique(k - rot, (-rot) / 12, k + m);
        assert RotIndex(k, rot) == k + m;
        assert t[k] == harm[k + m];
      } else {
        ModUnique(k - rot, (-rot) / 12 + 1, k + m - 12);
        assert RotIndex(k, rot) == k + m - 12;
        assert t[k] == harm[k + m - 12];
      }
    }
  }

  /** A rotation is a permutation of the levels. */
  lemma RotatePermutes(harm: seq<real>, rot: int)
    requires |harm| == Harmonics
    ensures multiset(Rotate(harm, rot)) == multiset(harm)
  {
    var m := RotIndex(0, rot);
    RotateAsSlices(harm, rot);
    assert harm == harm[..m] + harm[m..];
  }

  /** A rotation moves the levels without changing them, so every voice has
      the same coefficient sum. */
  lemma RotateSum(harm: seq<real>, rot: int)
    requires |harm| == Harmonics
    ensures Sum(Rotate(harm, rot)) == Sum(harm)
  {
    RotateAsSlices(harm, rot);
    SumRotation(harm, RotIndex(0, rot));
  }

  /** rotParam: from the ROT CV, one step per 0.833 V rounded down; from the
      knob, its value truncated toward zero by the conversion to int. */
  function RotParam(cv: Option<real>, knob: real): (r: int)
    ensures cv.Some? ==> r as real <= cv.value / 0.833 < r as real + 1.0
    ensures cv.None? && 0.0 <= knob ==> 0 <= r && r as real <= knob < r as real + 1.0
    ensures cv.None? && knob < 0.0 ==> r <= 0 && r as real - 1.0 < knob <= r as real
  {
    match cv
    case Some(v) => (v / 0.833).Floor
    case None => TruncToInt(knob)
  }

  /** Level of one harmonic: the knob, scaled by CV / 10 V when a CV is
      patched. */
  function HarmLevel(knob: real, cv: Option<real>): (r: real)
    ensures cv.None? ==> r == knob
    ensures cv.Some? && 0.0 <= knob && 0.0 <= cv.value <= 10.0 ==> 0.0 <= r <= knob
    ensures cv == Some(10.0) ==> r == knob
  {
    match cv
    case Some(v) => v / 10.0 * knob
    case None => knob
  }

  /** Detune per voice in octaves. The DETUNE CV is read into the value and
      then overwritten from the knob alone. */
  function Detune(knob: real, cv: Option<real>): (r: real)
    ensures -1.0 <= knob <= 1.0 ==> -0.25 <= r <= 0.25
    ensures knob == 0.0 ==> r == 0.0
  {
    var withCv := if cv.Some? then cv.value / 5.0 * knob else knob;
    QuadraticBipolar(knob) * 3.0 / 12.0
  }

  lemma DetuneIgnoresCv(knob: real, a: Option<real>, b: Option<real>)
    ensures Detune(knob, a) == Detune(knob, b)
  {
  }

  /** Controls read by one call of `process`. */
  datatype Controls = Controls(
    channels: int,
    freq: real, fine: real, oct: real,
    rotKnob: real, rotCv: Option<real>,
    detuneKnob: real, detuneCv: Option<real>,
    harmKnobs: seq<real>, harmCvs: seq<Option<real>>,
    voct: seq<real>)

  ghost predicate WellFormed(ctl: Controls) {
    |ctl.harmKnobs| == Harmonics && |ctl.harmCvs| == Harmonics && |ctl.voct| == MaxVoices
  }

  /** Base pitch in octaves above C4: semitones / 12 + octave + fine tune. */
  function FreqParam(freq: real, oct: real, fine: real): (r: real)
    ensures fine == 0.0 ==> r == freq / 12.0 + oct
  {
    freq / 12.0 + oct + QuadraticBipolar(fine) * 3.0 / 12.0
  }

  /** Twelve semitones on FREQ are one octave. */
  lemma FreqParamOctave(freq: real, oct: real, fine: real)
    ensures FreqParam(freq + 12.0, oct, fine) == FreqParam(freq, oct + 1.0, fine)
  {
  }

  /** The twelve harmonic levels: an unpatched harmonic follows its knob,
      and a CV in 0..10 V attenuates a non-negative knob. */
  function Levels(ctl: Controls): (harm: seq<real>)
    requires WellFormed(ctl)
    ensures |harm| == Harmonics
    ensures forall k :: 0 <= k < Harmonics && ctl.harmCvs[k].None? ==> harm[k] == ctl.harmKnobs[k]
    ensures forall k ::
      (0 <= k < Harmonics && ctl.harmCvs[k].Some? && 0.0 <= ctl.harmKnobs[k] && 0.0 <= ctl.harmCvs[k].value <= 10.0)
      ==> 0.0 <= harm[k] <= ctl.harmKnobs[k]
  {
    seq(Harmonics, k requires 0 <= k < Harmonics => HarmLevel(ctl.harmKnobs[k], ctl.harmCvs[k]))
  }

  /** Pitch of voice i: the base pitch, i detune steps and its own V/OCT. */
  function VoicePitch(ctl: Controls, i: nat): (r: real)
    requires WellFormed(ctl) && i < MaxVoices
    ensures i == 0 ==> r == FreqParam(ctl.freq, ctl.oct, ctl.fine) + ctl.voct[0]
  {
    FreqParam(ctl.freq, ctl.oct, ctl.fine) + Detune(ctl.detuneKnob, ctl.detuneCv) * i as real + ctl.voct[i]
  }

  /** With one V/OCT for all voices, voices are spaced by the detune. */
  lemma VoicesEvenlySpaced(ctl: Controls, i: nat)
    requires WellFormed(ctl) && i + 1 < MaxVoices && ctl.voct[i] == ctl.voct[i + 1]
    ensures VoicePitch(ctl, i + 1) - VoicePitch(ctl, i) == Detune(ctl.detuneKnob, ctl.detuneCv)
  {
  }

  /** The pitch cache after a call: voices below c hold their new pitch,
      the others keep theirs. */
  function CacheAfter(cvs: seq<real>, ctl: Controls, c: nat): (r: seq<real>)
    requires WellFormed(ctl) && |cvs| == MaxVoices && c <= MaxVoices
    ensures |r| == MaxVoices
    ensures forall i :: c <= i < MaxVoices ==> r[i] == cvs[i]
  {
    seq(MaxVoices, i requires 0 <= i < MaxVoices => if i < c then VoicePitch(ctl, i) else cvs[i])
  }

  /** Which of the first c oscillators are retuned: those whose pitch
      differs from the cached one. */
  function Retunes(cvs: seq<real>, ctl: Controls, c: nat): (r: seq<bool>)
    requires WellFormed(ctl) && |cvs| == MaxVoices && c <= MaxVoices
    ensures |r| == c
  {
    seq(c, i requires 0 <= i < c => cvs[i] != VoicePitch(ctl, i))
  }

  /** The cache makes retuning idempotent: the same controls a second time
      retune no oscillator. */
  lemma RetuneIdempotent(cvs: seq<real>, ctl: Controls, c: nat)
    requires WellFormed(ctl) && |cvs| == MaxVoices && c <= MaxVoices
    ensures forall i :: 0 <= i < c ==> !Retunes(CacheAfter(cvs, ctl, c), ctl, c)[i]
  {
  }

  /** A voice is retuned exactly when its pitch moved. */
  lemma RetuneIff(cvs: seq<real>, ctl: Controls, c: nat, i: nat)
    requires WellFormed(ctl) && |cvs| == MaxVoices && c <= MaxVoices && i < c
    ensures Retunes(cvs, ctl, c)[i] <==> CacheAfter(cvs, ctl, c)[i] != cvs[i]
  {
  }

  function LightIndex(i: nat, k: nat): (n: nat)
    requires i < MaxVoices && k < Harmonics
    ensures n < NumLights
    ensures n / Harmonics == i && n % Harmonics == k
  {
    i * Harmonics + k
  }

  lemma LightIndexInjective(i: nat, k: nat, j: nat, l: nat)
    requires i < MaxVoices && k < Harmonics && j < MaxVoices && l < Harmonics
    ensures LightIndex(i, k) == LightIndex(j, l) <==> i == j && k == l
  {
    if i < j {
      assert LightIndex(i, k) < LightIndex(j, l);
    } else if j < i {
      assert LightIndex(j, l) < LightIndex(i, k);
    }
  }

  class Cheb12Mk1Module {
    /** cheby[i].coef(k): harmonic levels of voice i. */
    const coef: array2<real>
    /** Pitch each oscillator was last tuned to. */
    const cvs: array<real>
    /** HARM_LIGHT + i * 12 + k. */
    const lights: array<real>
    /** Channels of OUTPUT. */
    var outChannels: nat

    ghost predicate Valid()
      reads this
    {
      coef.Length0 == MaxVoices && coef.Length1 == Harmonics
      && cvs.Length == MaxVoices && lights.Length == NumLights
    }

    constructor ()
      ensures Valid() && fresh(coef) && fresh(cvs) && fresh(lights)
      ensures cvs[..] == seq(MaxVoices, _ => 0.0)
    {
      coef := new real[MaxVoices, Harmonics]((i, k) => 0.0);
      cvs := new real[MaxVoices](_ => 0.0);
      lights := new real[NumLights](_ => 0.0);
      outChannels := 0;
    }

    /** The loop filling `harm` from knobs and CVs. */
    static method ReadHarmonics(ctl: Controls) returns (harm: seq<real>)
      requires WellFormed(ctl)
      ensures harm == Levels(ctl)
    {
      harm := [];
      var k := 0;
      while k < Harmonics
        invariant 0 <= k <= Harmonics && |harm| == k
        invariant forall j :: 0 <= j < k ==> harm[j] == HarmLevel(ctl.harmKnobs[j], ctl.harmCvs[j])
      {
        harm := harm + [HarmLevel(ctl.harmKnobs[k], ctl.harmCvs[k])];
        k := k + 1;
      }
    }

    /** Sets the coefficients of voice i and sums them into `vol`. */
    method ShapeVoice(i: nat, harm: seq<real>, rot: int) returns (vol: real)
      requires Valid() && i < MaxVoices && |harm| == Harmonics
      modifies coef
      ensures forall k :: 0 <= k < Harmonics ==> coef[i, k] == Rotate(harm, rot)[k]
      ensures forall j, k :: 0 <= j < MaxVoices && j != i && 0 <= k < Harmonics ==> coef[j, k] == old(coef[j, k])
      ensures vol == Sum(harm)
    {
      var r := Rotate(harm, rot);
      vol := 0.0;
      var k := 0;
      while k < Harmonics
        invariant 0 <= k <= Harmonics
        invariant forall l :: 0 <= l < k ==> coef[i, l] == r[l]
        invariant forall j, l :: 0 <= j < MaxVoices && j != i && 0 <= l < Harmonics ==> coef[j, l] == old(coef[j, l])
        invariant vol == Sum(r[..k])
      {
        coef[i, k] := harm[RotIndex(k, rot)];
        vol := vol + coef[i, k];
        SumPrefixStep(r, k);
        k := k + 1;
      }
      assert r[..Harmonics] == r;
      RotateSum(harm, rot);
    }

    /** Sets all 96 lights: the coefficients of active voices, 0 for the
        others. */
    method UpdateLights(c: nat)
      requires Valid()
      modifies lights
      ensures forall i, k :: 0 <= i < MaxVoices && 0 <= k < Harmonics ==>
        lights[LightIndex(i, k)] == if c <= i then 0.0 else coef[i, k]
    {
      var i := 0;
      while i < MaxVoices
        invariant 0 <= i <= MaxVoices
        invariant forall j, l :: 0 <= j < i && 0 <= l < Harmonics ==>
          lights[LightIndex(j, l)] == if c <= j then 0.0 else coef[j, l]
      {
        var k := 0;
        while k < Harmonics
          invariant 0 <= k <= Harmonics
          invariant forall j, l :: 0 <= j < i && 0 <= l < Harmonics ==>
            lights[LightIndex(j, l)] == if c <= j then 0.0 else coef[j, l]
          invariant forall l :: 0 <= l < k ==>
            lights[LightIndex(i, l)] == if c <= i then 0.0 else coef[i, l]
        {
          forall j, l | 0 <= j < MaxVoices && 0 <= l < Harmonics {
            LightIndexInjective(i, k, j, l);
          }
          lights[LightIndex(i, k)] := if c <= i then 0.0 else coef[i, k];
          k := k + 1;
        }
        i := i + 1;
      }
    }

    /** One call of `process`: voice count, per-voice coefficients and
        volumes, pitch cache, and the lights when the divider fires. */
    method Process(ctl: Controls, lightTick: bool) returns (vols: seq<real>, retuned: seq<bool>)
      requires Valid() && WellFormed(ctl)
      modifies this, coef, cvs, lights
      ensures Valid()
      ensures var c := VoiceCount(ctl.channels);
        && outChannels == c
        && |vols| == c && (forall i :: 0 <= i < c ==> vols[i] == Sum(Levels(ctl)))
        && (forall i, k :: 0 <= i < c && 0 <= k < Harmonics ==>
              coef[i, k] == Rotate(Levels(ctl), i * RotParam(ctl.rotCv, ctl.rotKnob))[k])
        && (forall i, k :: c <= i < MaxVoices && 0 <= k < Harmonics ==> coef[i, k] == old(coef[i, k]))
        && cvs[..] == CacheAfter(old(cvs[..]), ctl, c)
        && retuned == Retunes(old(cvs[..]), ctl, c)
      ensures lightTick ==> forall i, k :: 0 <= i < MaxVoices && 0 <= k < Harmonics ==>
        lights[LightIndex(i, k)] == if VoiceCount(ctl.channels) <= i then 0.0 else coef[i, k]
      ensures !lightTick ==> lights[..] == old(lights[..])
    {
      var c := VoiceCount(ctl.channels);
      outChannels := c;
      var rotParam := RotParam(ctl.rotCv, ctl.rotKnob);
      var harm := ReadHarmonics(ctl);
      ghost var cvs0 := cvs[..];
      vols := [];
      retuned := [];
      var rot := 0;
      var i := 0;
      while i < c
        invariant 0 <= i <= c && rot == i * rotParam && outChannels == c
        invariant |vols| == i && forall j :: 0 <= j < i ==> vols[j] == Sum(harm)
        invariant forall j, k :: 0 <= j < i && 0 <= k < Harmonics ==> coef[j, k] == Rotate(harm, j * rotParam)[k]
        invariant forall j, k :: i <= j < MaxVoices && 0 <= k < Harmonics ==> coef[j, k] == old(coef[j, k])
        invariant cvs[..] == CacheAfter(cvs0, ctl, i)
        invariant retuned == Retunes(cvs0, ctl, i)
        invariant lights[..] == old(lights[..])
      {
        var vol := ShapeVoice(i, harm, rot);
        vols := vols + [vol];
        var pitch := VoicePitch(ctl, i);
        var moved := pitch != cvs[i];
        if moved {
          cvs[i] := pitch;
        }
        retuned := retuned + [moved];
        rot := rot + rotParam;
        i := i + 1;
      }
      if lightTick {
        UpdateLights(c);
      }
    }
  }
}
