/// The brickwall band gate (src/RiftMk1.cpp): on every completed frame of a
/// complex transform it zeroes each bin whose centre frequency lies outside
/// the closed band [lo, hi] and leaves the others untouched.
module Rift {
  import opened Rack
  import opened Spectral

  /** Analysis window, hop and bin count of the module's transform. */
  const WindowSize: nat := 2048
  const HopSize: nat := WindowSize / 4
  const NumBins: nat := WindowSize / 2 + 1

  /** Bin k is in the band when its centre frequency lies in [lo, hi]; both
      edges belong to the band. */
  predicate InBand(k: nat, binFreq: real, lo: real, hi: real): (b: bool)
    ensures b <==> !(CentreFreq(k, binFreq) < lo || CentreFreq(k, binFreq) > hi)
    ensures b ==> lo <= hi
  {
    lo <= CentreFreq(k, binFreq) <= hi
  }

  /** The spectrum after gating: in-band bins kept, the rest zeroed. */
  function Gate(src: seq<Bin>, binFreq: real, lo: real, hi: real): (r: seq<Bin>)
    ensures |r| == |src|
    ensures forall k :: 0 <= k < |src| ==> r[k] == src[k] || r[k] == Zero
  {
    seq(|src|, k requires 0 <= k < |src| => if InBand(k, binFreq, lo, hi) then src[k] else Zero)
  }

  /** Gating keeps exactly the in-band bins: a bin comes through unchanged
      when its centre lies in [lo, hi], edges included, and is zeroed in
      both components when it lies below lo or above hi. */
  lemma GateBin(src: seq<Bin>, binFreq: real, lo: real, hi: real, k: nat)
    requires k < |src|
    ensures lo <= CentreFreq(k, binFreq) <= hi ==> Gate(src, binFreq, lo, hi)[k] == src[k]
    ensures CentreFreq(k, binFreq) < lo || hi < CentreFreq(k, binFreq) ==> Gate(src, binFreq, lo, hi)[k] == Bin(0.0, 0.0)
  {
  }

  /** An inverted band (lo above hi) silences every bin. */
  lemma GateEmptyBand(src: seq<Bin>, binFreq: real, lo: real, hi: real)
    requires hi < lo
    ensures Gate(src, binFreq, lo, hi) == seq(|src|, _ => Zero)
  {
  }

  /** Gating twice with the same band is gating once. */
  lemma GateIdempotent(src: seq<Bin>, binFreq: real, lo: real, hi: real)
    ensures Gate(Gate(src, binFreq, lo, hi), binFreq, lo, hi) == Gate(src, binFreq, lo, hi)
  {
  }

  /** A band that covers DC through the last bin lets the spectrum through
      unchanged. */
  lemma GateFullBand(src: seq<Bin>, binFreq: real, lo: real, hi: real)
    requires 0.0 < binFreq && 1 <= |src|
    requires lo <= 0.0 && CentreFreq(|src| - 1, binFreq) <= hi
    ensures Gate(src, binFreq, lo, hi) == src
  {
    forall k | 0 <= k < |src| ensures InBand(k, binFreq, lo, hi) {
      CentreFreqMonotone(k, |src| - 1, binFreq);
      CentreFreqMonotone(0, k, binFreq);
    }
  }

  lemma CentreFreqMonotone(i: nat, j: nat, binFreq: real)
    requires i <= j && 0.0 < binFreq
    ensures CentreFreq(i, binFreq) <= CentreFreq(j, binFreq)
  {
    assert CentreFreq(j, binFreq) - CentreFreq(i, binFreq) == (j - i) as real * binFreq;
  }

  class RiftMk1Module {
    /** The complex transform (2048 window, hop 512, Hann). */
    const stft: Stft
    /** Last value written to the OUTPUT port, if any. */
    var output: Option<Synth>

    ghost predicate Valid()
      reads this, stft
    {
      stft.Valid()
    }

    constructor (binFreq: real)
      requires 0.0 < binFreq
      ensures Valid() && fresh(stft) && fresh(stft.bins)
      ensures stft.bins.Length == NumBins && stft.hop == HopSize && stft.binFreq == binFreq
      ensures stft.count == 0 && stft.fed == [] && stft.resets == 0 && stft.synths == 0
      ensures output == None
    {
      stft := new Stft("rift", NumBins, HopSize, binFreq);
      output := None;
    }

    /** The gating loop over the bins. */
    method GateBins(lo: real, hi: real)
      requires Valid()
      modifies stft.bins
      ensures stft.bins[..] == Gate(old(stft.bins[..]), stft.binFreq, lo, hi)
    {
      ghost var src := stft.bins[..];
      var k := 0;
      while k < stft.bins.Length
        invariant 0 <= k <= stft.bins.Length
        invariant forall i :: 0 <= i < k ==> stft.bins[i] == Gate(src, stft.binFreq, lo, hi)[i]
        invariant forall i :: k <= i < stft.bins.Length ==> stft.bins[i] == src[i]
      {
        var freq := CentreFreq(k, stft.binFreq);
        if freq < lo || freq > hi {
          stft.bins[k] := Zero;
        }
        k := k + 1;
      }
    }

    /** One call of `process`; lo and hi stand for the band edges in Hz
        that the knobs and CV inputs give at this sample. */
    method Process(connected: bool, s: real, analysed: seq<Bin>, lo: real, hi: real)
      requires Valid() && |analysed| == stft.bins.Length
      modifies this, stft, stft.bins
      ensures Valid()
      ensures !connected ==>
        && output == old(output) && stft.fed == old(stft.fed) && stft.count == old(stft.count)
        && stft.synths == old(stft.synths) && stft.resets == old(stft.resets)
        && stft.bins[..] == old(stft.bins[..])
      ensures connected ==>
        && stft.fed == old(stft.fed) + [s]
        && stft.count == (if old(stft.count) + 1 == stft.hop then 0 else old(stft.count) + 1)
        && stft.resets == old(stft.resets)
        && output == Some(Synth(stft.name, old(stft.synths))) && stft.synths == old(stft.synths) + 1
        && stft.bins[..] == if old(stft.count) + 1 == stft.hop then Gate(analysed, stft.binFreq, lo, hi) else old(stft.bins[..])
    {
      if connected {
        var ready := stft.Push(s, analysed);
        if ready {
          GateBins(lo, hi);
        }
        var o := stft.Synthesize();
        output := Some(o);
      }
    }
  }
}
