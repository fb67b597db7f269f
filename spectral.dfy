/// The short-time Fourier transform engine every spectral module drives,
/// seen only through what the modules do with it: a fixed array of bins that
/// a completed analysis frame overwrites, a hop counter that reports "frame
/// ready" once every `hop` pushed samples, a phase-reset request, and the
/// resynthesised output stream. Windowing, the FFT, overlap-add and phase
/// integration are the library's and are not modelled.
module Spectral {

  /** One bin: component 0 and component 1. In the magnitude-frequency format
      they are (magnitude, frequency in Hz); in the complex format they are
      (real part, imaginary part). */
  datatype Bin = Bin(c0: real, c1: real)

  /** The value a bin takes when the source assigns `bin(k) = 0`. */
  const Zero: Bin := Bin(0.0, 0.0)

  /** Centre frequency, in Hz, of bin k: `k * binFreq()`. */
  function CentreFreq(k: nat, binFreq: real): real {
    k as real * binFreq
  }

  /** Component-wise sum of two bins. */
  function Add(a: Bin, b: Bin): Bin {
    Bin(a.c0 + b.c0, a.c1 + b.c1)
  }

  /** An output sample the transform resynthesises: the `index`-th sample
      popped from the overlap-add output of the transform called `stream`. */
  datatype Synth = Synth(stream: string, index: nat)

  class Stft {
    /** Name of this transform instance, used to tell output streams apart. */
    const name: string
    /** The bin array `bin(0) .. bin(numBins() - 1)`. */
    const bins: array<Bin>
    /** Number of pushed samples between two analysis frames. */
    const hop: nat
    /** Frequency spacing of the bins, in Hz: bin k is centred on k * binFreq. */
    const binFreq: real

    /** Samples pushed since the last completed frame. */
    var count: nat
    /** Every sample pushed into the analysis side, oldest first. */
    var fed: seq<real>
    /** How many times `resetPhases` was requested. */
    var resets: nat
    /** How many output samples have been resynthesised. */
    var synths: nat

    ghost predicate Valid()
      reads this
    {
      2 <= bins.Length && 0 < hop && count < hop && 0.0 < binFreq
    }

    constructor (name: string, numBins: nat, hop: nat, binFreq: real)
      requires 2 <= numBins && 0 < hop && 0.0 < binFreq
      ensures Valid() && fresh(bins)
      ensures this.name == name && bins.Length == numBins && this.hop == hop && this.binFreq == binFreq
      ensures count == 0 && fed == [] && resets == 0 && synths == 0
      ensures forall k :: 0 <= k < bins.Length ==> bins[k] == Zero
    {
      this.name := name;
      bins := new Bin[numBins](_ => Zero);
      this.hop := hop;
      this.binFreq := binFreq;
      count, fed, resets, synths := 0, [], 0, 0;
    }

    /** `stft(s)`: pushes one sample; reports true exactly when it completes a
        frame, and then the bins hold that frame's analysis, `analysed`. */
    method Push(s: real, analysed: seq<Bin>) returns (ready: bool)
      requires Valid() && |analysed| == bins.Length
      modifies this, bins
      ensures Valid()
      ensures fed == old(fed) + [s] && resets == old(resets) && synths == old(synths)
      ensures ready <==> old(count) + 1 == hop
      ensures count == if ready then 0 else old(count) + 1
      ensures bins[..] == if ready then analysed else old(bins[..])
    {
      fed := fed + [s];
      ready := count + 1 == hop;
      if ready {
        count := 0;
        forall k | 0 <= k < bins.Length {
          bins[k] := analysed[k];
        }
      } else {
        count := count + 1;
      }
    }

    /** `resetPhases()`: the next resynthesis starts from the analysed phases. */
    method ResetPhases()
      requires Valid()
      modifies this
      ensures Valid()
      ensures resets == old(resets) + 1
      ensures count == old(count) && fed == old(fed) && synths == old(synths)
    {
      resets := resets + 1;
    }

    /** `stft()`: pops the next resynthesised output sample. */
    method Synthesize() returns (o: Synth)
      requires Valid()
      modifies this
      ensures Valid()
      ensures o == Synth(name, old(synths)) && synths == old(synths) + 1
      ensures count == old(count) && fed == old(fed) && resets == old(resets)
    {
      o := Synth(name, synths);
      synths := synths + 1;
    }
  }
}
