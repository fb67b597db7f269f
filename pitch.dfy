/// The pitch shifter (src/Pitch.cpp): on every completed frame of a
/// magnitude-frequency transform it measures positive spectral flux against
/// the previous frame, remembers this frame's magnitudes, requests a phase
/// reset on an onset, and remaps bin k to bin floor(k * pshift), summing
/// magnitudes and overwriting frequencies, through two staging buffers.
module Pitch {
  import opened Rack
  import opened Sums
  import opened Spectral

  /** Analysis window, hop and bin count of the module's transform. */
  const WindowSize: nat := 4096
  const HopSize: nat := WindowSize / 4
  const NumBins: nat := WindowSize / 2 + 1

  /** Flux above which the frame is treated as an onset. */
  const FluxThreshold: real := 0.2

  /** Component 0 (the magnitude) of every bin. */
  function Mags(s: seq<Bin>): seq<real> {
    seq(|s|, k requires 0 <= k < |s| => s[k].c0)
  }

  // ---------------------------------------------------------------------
  // Spectral flux

  /** How much one bin's magnitude rose since the previous frame. */
  function Rise(cur: real, prev: real): (r: real)
    ensures 0.0 <= r && cur - prev <= r
    ensures r == 0.0 <==> cur <= prev
  {
    if cur > prev then cur - prev else 0.0
  }

  function Rises(cur: seq<real>, prev: seq<real>): (r: seq<real>)
    requires |cur| == |prev|
    ensures |r| == |cur| && forall k :: 0 <= k < |r| ==> 0.0 <= r[k]
  {
    seq(|cur|, k requires 0 <= k < |cur| => Rise(cur[k], prev[k]))
  }

  /** Positive spectral flux: the L1 norm of the magnitude increases. It is
      never negative. */
  function Flux(cur: seq<real>, prev: seq<real>): (r: real)
    requires |cur| == |prev|
    ensures 0.0 <= r
  {
    SumNonNegative(Rises(cur, prev));
    Sum(Rises(cur, prev))
  }

  /** Flux is zero exactly when no bin's magnitude rose. */
  lemma FluxZeroIffNoRise(cur: seq<real>, prev: seq<real>)
    requires |cur| == |prev|
    ensures Flux(cur, prev) == 0.0 <==> forall k :: 0 <= k < |cur| ==> cur[k] <= prev[k]
  {
    var r := Rises(cur, prev);
    SumZeroIff(r);
    if Flux(cur, prev) == 0.0 {
      forall k | 0 <= k < |cur| ensures cur[k] <= prev[k] {
        assert r[k] == 0.0;
      }
    }
  }

  // ---------------------------------------------------------------------
  // Bin remapping

  /** End (exclusive) of the source range of the remap loop:
      min(floor(n / pshift), n - 1), and 0 when pshift is not positive
      (the loop is then skipped). */
  function KMax(n: nat, p: real): (kmax: nat)
    requires 1 <= n
    ensures kmax <= n - 1
    ensures 0.0 < p ==> kmax as real * p <= n as real
    ensures 0.0 < p && n as real < p ==> kmax == 0
  {
    if p <= 0.0 then 0
    else
      var q := (n as real / p).Floor;
      Quotient(n as real, p);
      MulBelow(q as real, n as real / p, p);
      if q >= n then n - 1 else q
  }

  lemma Quotient(x: real, p: real)
    requires 0.0 <= x && 0.0 < p
    ensures 0.0 <= x / p && (x / p) * p == x
    ensures x < p ==> x / p < 1.0
  {
    assert (x / p) * p == x;
    if x < p && 1.0 <= x / p {
      MulBelow(1.0, x / p, p);
      assert false;
    }
  }

  /** Destination bin of source bin k: floor(k * pshift). */
  function Dest(k: nat, p: real): (d: nat)
    requires 0.0 < p
    ensures d as real <= k as real * p < d as real + 1.0
  {
    (k as real * p).Floor
  }

  lemma MulBelow(a: real, b: real, p: real)
    requires 0.0 < p && a <= b
    ensures a * p <= b * p
  {
    assert (b - a) * p >= 0.0;
  }

  /** Every destination the remap loop writes is a valid bin index. */
  lemma DestInRange(n: nat, p: real, k: nat)
    requires 1 <= n && 0.0 < p && k < KMax(n, p)
    ensures Dest(k, p) < n
  {
    var q := (n as real / p).Floor;
    assert k + 1 <= q;
    MulBelow((k + 1) as real, n as real / p, p);
    assert (n as real / p) * p == n as real;
    assert k as real * p < n as real;
  }

  /** The staging magnitude buffer after source bins 1 .. k-1 were added in. */
  function StagedMags(src: seq<Bin>, p: real, k: nat): (r: seq<real>)
    requires 2 <= |src| && (k <= 1 || k <= KMax(|src|, p))
    ensures |r| == |src|
    ensures (forall i :: 0 <= i < |src| ==> 0.0 <= src[i].c0) ==> forall j :: 0 <= j < |r| ==> 0.0 <= r[j]
    decreases k
  {
    if k <= 1 then seq(|src|, _ => 0.0)
    else
      var prev := StagedMags(src, p, k - 1);
      DestInRange(|src|, p, k - 1);
      var j := Dest(k - 1, p);
      prev[j := prev[j] + src[k - 1].c0]
  }

  /** The staging frequency buffer after source bins 1 .. k-1 were written. */
  function StagedFrqs(src: seq<Bin>, p: real, binFreq: real, k: nat): (r: seq<real>)
    requires 2 <= |src| && (k <= 1 || k <= KMax(|src|, p))
    ensures |r| == |src|
    decreases k
  {
    if k <= 1 then seq(|src|, j requires 0 <= j => CentreFreq(j, binFreq))
    else
      var prev := StagedFrqs(src, p, binFreq, k - 1);
      DestInRange(|src|, p, k - 1);
      prev[Dest(k - 1, p) := Shifted(src[k - 1].c1, p)]
  }

  /** A source frequency moved by the shift ratio. */
  function Shifted(freq: real, p: real): real {
    freq * p
  }

  /** One step of the remap loop, unfolded. */
  lemma StagedStep(src: seq<Bin>, p: real, binFreq: real, k: nat)
    requires 2 <= |src| && 2 <= k <= KMax(|src|, p)
    ensures 0.0 < p && Dest(k - 1, p) < |src|
    ensures StagedMags(src, p, k) == StagedMags(src, p, k - 1)[Dest(k - 1, p) := StagedMags(src, p, k - 1)[Dest(k - 1, p)] + src[k - 1].c0]
    ensures StagedFrqs(src, p, binFreq, k) == StagedFrqs(src, p, binFreq, k - 1)[Dest(k - 1, p) := Shifted(src[k - 1].c1, p)]
  {
    DestInRange(|src|, p, k - 1);
  }

  /** The spectrum a frame leaves in the bins: bin j gets the staged
      magnitude and frequency at j. */
  function PitchShift(src: seq<Bin>, p: real, binFreq: real): (r: seq<Bin>)
    requires 2 <= |src|
    ensures |r| == |src|
    ensures (forall i :: 0 <= i < |src| ==> 0.0 <= src[i].c0) ==> forall j :: 0 <= j < |r| ==> 0.0 <= r[j].c0
  {
    var kmax := KMax(|src|, p);
    var m := StagedMags(src, p, kmax);
    var f := StagedFrqs(src, p, binFreq, kmax);
    seq(|src|, j requires 0 <= j < |src| => Bin(m[j], f[j]))
  }

  /** Reference definition, destination by destination: the magnitudes of
      the source bins 1 .. k-1 whose destination is j, added up. */
  function MagsInto(src: seq<Bin>, p: real, k: nat, j: nat): real
    requires 0.0 < p && k <= |src|
  {
    if k <= 1 then 0.0
    else MagsInto(src, p, k - 1, j) + (if Dest(k - 1, p) == j then src[k - 1].c0 else 0.0)
  }

  /** The magnitudes the remap loop reads: source bins 1 .. k-1. */
  function Sources(src: seq<Bin>, k: nat): seq<real>
    requires k <= |src|
  {
    if k <= 1 then [] else Mags(src)[1..k]
  }

  lemma SourcesStep(src: seq<Bin>, k: nat)
    requires 2 <= k <= |src|
    ensures Sum(Sources(src, k)) == Sum(Sources(src, k - 1)) + src[k - 1].c0
  {
    var s := Sources(src, k);
    assert s[..|s| - 1] == Sources(src, k - 1) && s[|s| - 1] == src[k - 1].c0;
  }

  /** The staged magnitude at j is the sum of the source magnitudes mapped to j. */
  lemma {:induction false} StagedMagIsSum(src: seq<Bin>, p: real, k: nat, j: nat)
    requires 2 <= |src| && 0.0 < p && k <= KMax(|src|, p) && j < |src|
    ensures StagedMags(src, p, k)[j] == MagsInto(src, p, k, j)
    decreases k
  {
    if k > 1 {
      StagedMagIsSum(src, p, k - 1, j);
    }
  }

  /** Remapping moves magnitude around but neither creates nor loses any:
      the staged total is the total of the source bins read. */
  lemma {:induction false} StagedMagsConserve(src: seq<Bin>, p: real, k: nat)
    requires 2 <= |src| && k <= KMax(|src|, p)
    ensures Sum(StagedMags(src, p, k)) == Sum(Sources(src, k))
    decreases k
  {
    if k <= 1 {
      SumZeros(|src|);
    } else {
      StagedMagsConserve(src, p, k - 1);
      StagedStep(src, p, 0.0, k);
      var prev := StagedMags(src, p, k - 1);
      var j := Dest(k - 1, p);
      SumUpdate(prev, j, src[k - 1].c0);
      SourcesStep(src, k);
    }
  }

  /** A destination nothing maps to keeps magnitude 0 and its own centre
      frequency j * binFreq. */
  lemma {:induction false} StagedUntouched(src: seq<Bin>, p: real, binFreq: real, k: nat, j: nat)
    requires 2 <= |src| && 0.0 < p && k <= KMax(|src|, p) && j < |src|
    requires forall i :: 1 <= i < k ==> Dest(i, p) != j
    ensures StagedMags(src, p, k)[j] == 0.0
    ensures StagedFrqs(src, p, binFreq, k)[j] == CentreFreq(j, binFreq)
    decreases k
  {
    if k > 1 {
      StagedUntouched(src, p, binFreq, k - 1, j);
    }
  }

  /** Last writer wins: the staged frequency at a destination comes from the
      largest source bin mapped there, scaled by pshift. */
  lemma {:induction false} StagedFrqLastWriter(src: seq<Bin>, p: real, binFreq: real, k: nat, w: nat)
    requires 2 <= |src| && 0.0 < p && k <= KMax(|src|, p) && 1 <= w < k && Dest(w, p) < |src|
    requires forall i :: w < i < k ==> Dest(i, p) != Dest(w, p)
    ensures StagedFrqs(src, p, binFreq, k)[Dest(w, p)] == Shifted(src[w].c1, p)
    decreases k
  {
    if k - 1 > w {
      StagedFrqLastWriter(src, p, binFreq, k - 1, w);
    }
  }

  /** Total output magnitude equals the total magnitude of source bins
      1 .. kmax-1. */
  lemma PitchShiftConservesMagnitude(src: seq<Bin>, p: real, binFreq: real)
    requires 2 <= |src|
    ensures Sum(Mags(PitchShift(src, p, binFreq))) == Sum(Sources(src, KMax(|src|, p)))
  {
    var kmax := KMax(|src|, p);
    StagedMagsConserve(src, p, kmax);
    assert Mags(PitchShift(src, p, binFreq)) == StagedMags(src, p, kmax);
  }

  /** Only source bins 1 .. n-2 are ever read: bin 0 and the last bin of the
      input have no influence on the result. */
  lemma {:induction false} StagedMagsReadsInterior(src: seq<Bin>, src': seq<Bin>, p: real, k: nat)
    requires 2 <= |src| == |src'| && k <= KMax(|src|, p)
    requires forall i :: 1 <= i < |src| - 1 ==> src[i] == src'[i]
    ensures StagedMags(src, p, k) == StagedMags(src', p, k)
    decreases k
  {
    if k > 1 {
      StagedMagsReadsInterior(src, src', p, k - 1);
      assert src[k - 1].c0 == src'[k - 1].c0;
    }
  }

  lemma {:induction false} StagedFrqsReadsInterior(src: seq<Bin>, src': seq<Bin>, p: real, binFreq: real, k: nat)
    requires 2 <= |src| == |src'| && k <= KMax(|src|, p)
    requires forall i :: 1 <= i < |src| - 1 ==> src[i] == src'[i]
    ensures StagedFrqs(src, p, binFreq, k) == StagedFrqs(src', p, binFreq, k)
    decreases k
  {
    if k > 1 {
      StagedFrqsReadsInterior(src, src', p, binFreq, k - 1);
      StagedStep(src, p, binFreq, k);
      StagedStep(src', p, binFreq, k);
      assert src[k - 1] == src'[k - 1];
    } else {
      StagedFrqsBase(src, src', p, binFreq, k);
    }
  }

  lemma StagedFrqsBase(src: seq<Bin>, src': seq<Bin>, p: real, binFreq: real, k: nat)
    requires 2 <= |src| == |src'| && k <= 1
    ensures StagedFrqs(src, p, binFreq, k) == StagedFrqs(src', p, binFreq, k)
  {
  }

  lemma PitchShiftIgnoresEdgeBins(src: seq<Bin>, src': seq<Bin>, p: real, binFreq: real)
    requires 2 <= |src| == |src'|
    requires forall i :: 1 <= i < |src| - 1 ==> src[i] == src'[i]
    ensures PitchShift(src, p, binFreq) == PitchShift(src', p, binFreq)
  {
    StagedMagsReadsInterior(src, src', p, KMax(|src|, p));
    StagedFrqsReadsInterior(src, src', p, binFreq, KMax(|src|, p));
  }

  /** A shift ratio above the bin count empties the loop: every output bin is
      silent and sits at its centre frequency. */
  lemma PitchShiftLargeRatioSilences(src: seq<Bin>, p: real, binFreq: real)
    requires 2 <= |src| && |src| as real < p
    ensures forall j :: 0 <= j < |src| ==> PitchShift(src, p, binFreq)[j] == Bin(0.0, CentreFreq(j, binFreq))
  {
  }

  lemma {:induction false} MagsIntoUnitRatio(src: seq<Bin>, k: nat, j: nat)
    requires k <= |src|
    ensures MagsInto(src, 1.0, k, j) == if 1 <= j < k then src[j].c0 else 0.0
    decreases k
  {
    if k > 1 {
      MagsIntoUnitRatio(src, k - 1, j);
      assert Dest(k - 1, 1.0) == k - 1;
    }
  }

  /** Ratio 1 is not exact identity: bins 1 .. n-2 pass through unchanged,
      while bin 0 and the last bin come out silent at their centre
      frequencies. */
  lemma PitchShiftUnitRatio(src: seq<Bin>, binFreq: real)
    requires 2 <= |src|
    ensures forall j :: 1 <= j < |src| - 1 ==> PitchShift(src, 1.0, binFreq)[j] == src[j]
    ensures PitchShift(src, 1.0, binFreq)[0] == Bin(0.0, CentreFreq(0, binFreq))
    ensures PitchShift(src, 1.0, binFreq)[|src| - 1] == Bin(0.0, CentreFreq(|src| - 1, binFreq))
  {
    var n := |src|;
    var kmax := KMax(n, 1.0);
    assert (n as real / 1.0).Floor == n;
    assert kmax == n - 1;
    var r := PitchShift(src, 1.0, binFreq);
    forall j | 1 <= j < n - 1 ensures r[j] == src[j] {
      StagedMagIsSum(src, 1.0, kmax, j);
      MagsIntoUnitRatio(src, kmax, j);
      assert Dest(j, 1.0) == j;
      forall i | j < i < kmax ensures Dest(i, 1.0) != Dest(j, 1.0) {
        assert Dest(i, 1.0) == i;
      }
      StagedFrqLastWriter(src, 1.0, binFreq, kmax, j);
    }
    forall i | 1 <= i < kmax ensures Dest(i, 1.0) != 0 && Dest(i, 1.0) != n - 1 {
      assert Dest(i, 1.0) == i;
    }
    StagedUntouched(src, 1.0, binFreq, kmax, 0);
    StagedUntouched(src, 1.0, binFreq, kmax, n - 1);
  }

  // ---------------------------------------------------------------------
  // The module

  class PitchModule {
    /** The magnitude-frequency transform (4096 window, hop 1024, Hamming). */
    const stft: Stft
    /** Auxiliary buffer PREV_MAG: the previous frame's magnitudes. */
    const prevMag: array<real>
    /** Auxiliary buffers TEMP_MAG and TEMP_FRQ: the staged spectrum. */
    const tempMag: array<real>
    const tempFrq: array<real>
    /** Last value written to the OUTPUT port, if any. */
    var output: Option<Synth>

    ghost predicate Valid()
      reads this, stft
    {
      && stft.Valid()
      && prevMag.Length == stft.bins.Length
      && tempMag.Length == stft.bins.Length
      && tempFrq.Length == stft.bins.Length
      && prevMag != tempMag && prevMag != tempFrq && tempMag != tempFrq
    }

    constructor (binFreq: real)
      requires 0.0 < binFreq
      ensures Valid()
      ensures fresh(stft) && fresh(stft.bins) && fresh(prevMag) && fresh(tempMag) && fresh(tempFrq)
      ensures stft.bins.Length == NumBins && stft.hop == HopSize && stft.binFreq == binFreq
      ensures stft.count == 0 && stft.fed == [] && stft.resets == 0 && stft.synths == 0
      ensures forall k :: 0 <= k < prevMag.Length ==> prevMag[k] == 0.0
      ensures output == None
    {
      stft := new Stft("pitch", NumBins, HopSize, binFreq);
      prevMag := new real[NumBins](_ => 0.0);
      tempMag := new real[NumBins](_ => 0.0);
      tempFrq := new real[NumBins](_ => 0.0);
      output := None;
    }

    /** Positive spectral flux of the current bins against PREV_MAG. */
    method SpectralFlux() returns (flux: real)
      requires Valid()
      ensures flux == Flux(Mags(stft.bins[..]), prevMag[..])
    {
      ghost var rises := Rises(Mags(stft.bins[..]), prevMag[..]);
      flux := 0.0;
      var k := 0;
      while k < stft.bins.Length
        invariant 0 <= k <= stft.bins.Length
        invariant flux == Sum(rises[..k])
      {
        var mcurr := stft.bins[k].c0;
        var mprev := prevMag[k];
        if mcurr > mprev {
          flux := flux + (mcurr - mprev);
        }
        SumPrefixStep(rises, k);
        k := k + 1;
      }
      assert rises[..k] == rises;
    }

    /** `copyBinsToAux(0, PREV_MAG)`: remember this frame's magnitudes. */
    method CopyBinsToAux()
      requires Valid()
      modifies prevMag
      ensures prevMag[..] == Mags(stft.bins[..])
    {
      forall k | 0 <= k < prevMag.Length {
        prevMag[k] := stft.bins[k].c0;
      }
    }

    /** Clear the staging buffers: no magnitude, every bin at its centre. */
    method InitStaging()
      requires Valid()
      modifies tempMag, tempFrq
      ensures tempMag[..] == seq(tempMag.Length, _ => 0.0)
      ensures tempFrq[..] == seq(tempFrq.Length, j requires 0 <= j => CentreFreq(j, stft.binFreq))
    {
      var k := 0;
      while k < stft.bins.Length
        invariant 0 <= k <= stft.bins.Length
        invariant forall i :: 0 <= i < k ==> tempMag[i] == 0.0 && tempFrq[i] == CentreFreq(i, stft.binFreq)
      {
        tempMag[k] := 0.0;
        tempFrq[k] := CentreFreq(k, stft.binFreq);
        k := k + 1;
      }
      assert forall i :: 0 <= i < tempMag.Length ==> tempMag[..][i] == seq(tempMag.Length, _ => 0.0)[i];
      assert forall i :: 0 <= i < tempFrq.Length ==> tempFrq[..][i] == seq(tempFrq.Length, j requires 0 <= j => CentreFreq(j, stft.binFreq))[i];
    }

    /** The remap loop: source bin k adds its magnitude into TEMP_MAG at
        floor(k * pshift) and overwrites TEMP_FRQ there. */
    method Remap(pshift: real)
      requires Valid()
      requires tempMag[..] == seq(tempMag.Length, _ => 0.0)
      requires tempFrq[..] == seq(tempFrq.Length, j requires 0 <= j => CentreFreq(j, stft.binFreq))
      modifies tempMag, tempFrq
      ensures tempMag[..] == StagedMags(stft.bins[..], pshift, KMax(stft.bins.Length, pshift))
      ensures tempFrq[..] == StagedFrqs(stft.bins[..], pshift, stft.binFreq, KMax(stft.bins.Length, pshift))
    {
      ghost var src := stft.bins[..];
      var n := stft.bins.Length;
      if pshift > 0.0 {
        var kmax := KMax(n, pshift);
        var k := 1;
        while k < kmax
          invariant 1 <= k && (k <= kmax || k == 1)
          invariant |src| == n && kmax == KMax(|src|, pshift)
          invariant tempMag[..] == StagedMags(src, pshift, k)
          invariant tempFrq[..] == StagedFrqs(src, pshift, stft.binFreq, k)
        {
          DestInRange(n, pshift, k);
          var j := Dest(k, pshift);
          ghost var m, f := tempMag[..], tempFrq[..];
          tempMag[j] := tempMag[j] + stft.bins[k].c0;
          tempFrq[j] := Shifted(stft.bins[k].c1, pshift);
          assert tempMag[..] == m[j := m[j] + src[k].c0];
          assert tempFrq[..] == f[j := Shifted(src[k].c1, pshift)];
          StagedStep(src, pshift, stft.binFreq, k + 1);
          k := k + 1;
        }
      }
    }

    /** `copyAuxToBins(TEMP_MAG, 0)` and `copyAuxToBins(TEMP_FRQ, 1)`. */
    method CopyAuxToBins()
      requires Valid()
      modifies stft.bins
      ensures forall k :: 0 <= k < stft.bins.Length ==> stft.bins[k] == Bin(tempMag[k], tempFrq[k])
    {
      forall k | 0 <= k < stft.bins.Length {
        stft.bins[k] := Bin(tempMag[k], tempFrq[k]);
      }
    }

    /** The work done on a completed frame. */
    method ProcessFrame(pshift: real)
      requires Valid()
      modifies stft, stft.bins, prevMag, tempMag, tempFrq
      ensures Valid()
      ensures stft.bins[..] == PitchShift(old(stft.bins[..]), pshift, stft.binFreq)
      ensures prevMag[..] == Mags(old(stft.bins[..]))
      ensures stft.resets == old(stft.resets) + if Flux(Mags(old(stft.bins[..])), old(prevMag[..])) > FluxThreshold then 1 else 0
      ensures stft.count == old(stft.count) && stft.fed == old(stft.fed) && stft.synths == old(stft.synths)
    {
      ghost var src := stft.bins[..];
      var flux := SpectralFlux();
      CopyBinsToAux();
      if flux > FluxThreshold {
        stft.ResetPhases();
      }
      InitStaging();
      Remap(pshift);
      CopyAuxToBins();
      ghost var r := PitchShift(src, pshift, stft.binFreq);
      forall k | 0 <= k < stft.bins.Length ensures stft.bins[..][k] == r[k] {
      }
    }

    /** One call of `process`: pshift stands for exp2(shift knob + shift CV). */
    method Process(connected: bool, pshift: real, s: real, analysed: seq<Bin>)
      requires Valid() && |analysed| == stft.bins.Length
      modifies this, stft, stft.bins, prevMag, tempMag, tempFrq
      ensures Valid()
      ensures !connected ==>
        && output == old(output) && stft.fed == old(stft.fed) && stft.count == old(stft.count)
        && stft.synths == old(stft.synths) && stft.resets == old(stft.resets)
        && stft.bins[..] == old(stft.bins[..]) && prevMag[..] == old(prevMag[..])
      ensures connected ==>
        && stft.fed == old(stft.fed) + [s]
        && stft.count == (if old(stft.count) + 1 == stft.hop then 0 else old(stft.count) + 1)
        && output == Some(Synth(stft.name, old(stft.synths))) && stft.synths == old(stft.synths) + 1
      ensures connected && old(stft.count) + 1 == stft.hop ==>
        && stft.bins[..] == PitchShift(analysed, pshift, stft.binFreq)
        && prevMag[..] == Mags(analysed)
        && stft.resets == old(stft.resets) + if Flux(Mags(analysed), old(prevMag[..])) > FluxThreshold then 1 else 0
      ensures connected && old(stft.count) + 1 != stft.hop ==>
        && stft.bins[..] == old(stft.bins[..]) && prevMag[..] == old(prevMag[..])
        && stft.resets == old(stft.resets)
    {
      if connected {
        var ready := stft.Push(s, analysed);
        if ready {
          ProcessFrame(pshift);
        }
        var o := stft.Synthesize();
        output := Some(o);
      }
    }
  }
}
