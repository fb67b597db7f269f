/// The band splitter / crossfader (src/RiftGateMk1.cpp). Four complex
/// transforms of the same shape: `in1` analyses IN, `out1` analyses OUTER,
/// `out2` analyses INNER, and `in2` is never fed. On a frame, the
/// out-of-band part of `in1` moves to `in2`, and the in-band part of `out2`
/// replaces that of `out1`. INNER_OUTPUT resynthesises `in1`, OUTER_OUTPUT
/// `in2`, OUT_OUTPUT `out1`.
module RiftGate {
  import opened Rack
  import opened Spectral
  import opened Rift

  /** What `in2` receives: the out-of-band bins of the source, zero in band. */
  function Rejected(src: seq<Bin>, binFreq: real, lo: real, hi: real): (r: seq<Bin>)
    ensures |r| == |src|
    ensures forall k :: 0 <= k < |src| ==> r[k] == src[k] || r[k] == Zero
  {
    seq(|src|, k requires 0 <= k < |src| => if InBand(k, binFreq, lo, hi) then Zero else src[k])
  }

  /** What `out1` becomes: `out2`'s bins in band, its own outside. */
  function Crossed(out1: seq<Bin>, out2: seq<Bin>, binFreq: real, lo: real, hi: real): (r: seq<Bin>)
    requires |out1| == |out2|
    ensures |r| == |out1|
    ensures forall k :: 0 <= k < |out1| ==> r[k] == out1[k] || r[k] == out2[k]
  {
    seq(|out1|, k requires 0 <= k < |out1| => if InBand(k, binFreq, lo, hi) then out2[k] else out1[k])
  }

  /** The split is a partition of the source: for every bin, the part kept
      in `in1` plus the part moved to `in2` is the original bin, and at
      least one of the two parts is zero. */
  lemma SplitIsPartition(src: seq<Bin>, binFreq: real, lo: real, hi: real)
    ensures forall k :: 0 <= k < |src| ==>
      && Add(Gate(src, binFreq, lo, hi)[k], Rejected(src, binFreq, lo, hi)[k]) == src[k]
      && (Gate(src, binFreq, lo, hi)[k] == Zero || Rejected(src, binFreq, lo, hi)[k] == Zero)
  {
  }

  /** Splitting twice moves nothing more: the kept part has nothing out of
      band left to reject, and the rejected part has nothing in band. */
  lemma SplitStable(src: seq<Bin>, binFreq: real, lo: real, hi: real)
    ensures Rejected(Gate(src, binFreq, lo, hi), binFreq, lo, hi) == seq(|src|, _ => Zero)
    ensures Gate(Rejected(src, binFreq, lo, hi), binFreq, lo, hi) == seq(|src|, _ => Zero)
  {
  }

  /** Crossfading takes `out2` in band and keeps `out1` outside it. */
  lemma CrossedBin(out1: seq<Bin>, out2: seq<Bin>, binFreq: real, lo: real, hi: real, k: nat)
    requires |out1| == |out2| && k < |out1|
    ensures InBand(k, binFreq, lo, hi) ==> Crossed(out1, out2, binFreq, lo, hi)[k] == out2[k]
    ensures !InBand(k, binFreq, lo, hi) ==> Crossed(out1, out2, binFreq, lo, hi)[k] == out1[k]
  {
  }

  class RiftGateModule {
    const in1: Stft
    const in2: Stft
    const out1: Stft
    const out2: Stft
    /** Last values written to the three output ports, if any. */
    var innerOut: Option<Synth>
    var outerOut: Option<Synth>
    var outOut: Option<Synth>

    ghost predicate Valid()
      reads this, in1, in2, out1, out2
    {
      && in1.Valid() && in2.Valid() && out1.Valid() && out2.Valid()
      && in2.bins.Length == in1.bins.Length && out1.bins.Length == in1.bins.Length && out2.bins.Length == in1.bins.Length
      && in2.binFreq == in1.binFreq && out1.binFreq == in1.binFreq && out2.binFreq == in1.binFreq
      && in1 != in2 && in1 != out1 && in1 != out2 && in2 != out1 && in2 != out2 && out1 != out2
      && in1.bins != in2.bins && in1.bins != out1.bins && in1.bins != out2.bins
      && in2.bins != out1.bins && in2.bins != out2.bins && out1.bins != out2.bins
    }

    constructor (binFreq: real)
      requires 0.0 < binFreq
      ensures Valid()
      ensures fresh(in1) && fresh(in2) && fresh(out1) && fresh(out2)
      ensures in1.bins.Length == NumBins && in1.binFreq == binFreq
      ensures in1.hop == HopSize && in2.hop == HopSize && out1.hop == HopSize && out2.hop == HopSize
      ensures in1.fed == [] && in2.fed == [] && out1.fed == [] && out2.fed == []
      ensures in1.count == 0 && in2.count == 0 && out1.count == 0 && out2.count == 0
      ensures innerOut == None && outerOut == None && outOut == None
    {
      in1 := new Stft("in1", NumBins, HopSize, binFreq);
      in2 := new Stft("in2", NumBins, HopSize, binFreq);
      out1 := new Stft("out1", NumBins, HopSize, binFreq);
      out2 := new Stft("out2", NumBins, HopSize, binFreq);
      innerOut, outerOut, outOut := None, None, None;
    }

    /** The partition loop over the bins of the four transforms. */
    method Partition(lo: real, hi: real)
      requires Valid()
      modifies in1.bins, in2.bins, out1.bins
      ensures in1.bins[..] == Gate(old(in1.bins[..]), in1.binFreq, lo, hi)
      ensures in2.bins[..] == Rejected(old(in1.bins[..]), in1.binFreq, lo, hi)
      ensures out1.bins[..] == Crossed(old(out1.bins[..]), old(out2.bins[..]), in1.binFreq, lo, hi)
      ensures out2.bins[..] == old(out2.bins[..])
    {
      ghost var a, b, c := in1.bins[..], out1.bins[..], out2.bins[..];
      var n := in1.bins.Length;
      var k := 0;
      while k < n
        invariant 0 <= k <= n
        invariant forall i :: 0 <= i < k ==> in1.bins[i] == Gate(a, in1.binFreq, lo, hi)[i]
        invariant forall i :: 0 <= i < k ==> in2.bins[i] == Rejected(a, in1.binFreq, lo, hi)[i]
        invariant forall i :: 0 <= i < k ==> out1.bins[i] == Crossed(b, c, in1.binFreq, lo, hi)[i]
        invariant forall i :: k <= i < n ==> in1.bins[i] == a[i] && out1.bins[i] == b[i]
        invariant out2.bins[..] == c
      {
        var freq := CentreFreq(k, in1.binFreq);
        if freq < lo || freq > hi {
          in2.bins[k] := Bin(in1.bins[k].c0, in1.bins[k].c1);
          in1.bins[k] := Zero;
        } else {
          in2.bins[k] := Zero;
          out1.bins[k] := Bin(out2.bins[k].c0, out2.bins[k].c1);
        }
        k := k + 1;
      }
    }

    /** One call of `process`. The frame test `in1(s1) || out1(s2) ||
        out2(s3)` short-circuits: a transform after the first one that
        reports a frame is not fed this sample. */
    method Process(s1: real, s2: real, s3: real, a1: seq<Bin>, a2: seq<Bin>, a3: seq<Bin>, lo: real, hi: real)
      requires Valid() && |a1| == in1.bins.Length && |a2| == in1.bins.Length && |a3| == in1.bins.Length
      modifies this, in1, in2, out1, out2, in1.bins, in2.bins, out1.bins, out2.bins
      ensures Valid()
      ensures var f1 := old(in1.count) + 1 == in1.hop;
              var f2 := !f1 && old(out1.count) + 1 == out1.hop;
              && in1.fed == old(in1.fed) + [s1]
              && out1.fed == (if f1 then old(out1.fed) else old(out1.fed) + [s2])
              && out2.fed == (if f1 || f2 then old(out2.fed) else old(out2.fed) + [s3])
              && in2.fed == old(in2.fed)
      ensures var f1 := old(in1.count) + 1 == in1.hop;
              var f2 := !f1 && old(out1.count) + 1 == out1.hop;
              var f3 := !f1 && !f2 && old(out2.count) + 1 == out2.hop;
              var b1 := if f1 then a1 else old(in1.bins[..]);
              var p1 := if f2 then a2 else old(out1.bins[..]);
              var p2 := if f3 then a3 else old(out2.bins[..]);
              if f1 || f2 || f3 then
                && in1.bins[..] == Gate(b1, in1.binFreq, lo, hi)
                && in2.bins[..] == Rejected(b1, in1.binFreq, lo, hi)
                && out1.bins[..] == Crossed(p1, p2, in1.binFreq, lo, hi)
                && out2.bins[..] == p2
              else
                && in1.bins[..] == old(in1.bins[..]) && in2.bins[..] == old(in2.bins[..])
                && out1.bins[..] == old(out1.bins[..]) && out2.bins[..] == old(out2.bins[..])
      ensures var f1 := old(in1.count) + 1 == in1.hop;
              var f2 := !f1 && old(out1.count) + 1 == out1.hop;
              var f3 := !f1 && !f2 && old(out2.count) + 1 == out2.hop;
              && in1.count == (if f1 then 0 else old(in1.count) + 1)
              && out1.count == (if f1 then old(out1.count) else if f2 then 0 else old(out1.count) + 1)
              && out2.count == (if f1 || f2 then old(out2.count) else if f3 then 0 else old(out2.count) + 1)
              && in2.count == old(in2.count)
      ensures innerOut == Some(Synth(in1.name, old(in1.synths))) && in1.synths == old(in1.synths) + 1
      ensures outerOut == Some(Synth(in2.name, old(in2.synths))) && in2.synths == old(in2.synths) + 1
      ensures outOut == Some(Synth(out1.name, old(out1.synths))) && out1.synths == old(out1.synths) + 1
      ensures out2.synths == old(out2.synths)
      ensures in1.resets == old(in1.resets) && in2.resets == old(in2.resets)
      ensures out1.resets == old(out1.resets) && out2.resets == old(out2.resets)
    {
      var ready := in1.Push(s1, a1);
      if !ready {
        ready := out1.Push(s2, a2);
        if !ready {
          ready := out2.Push(s3, a3);
        }
      }
      if ready {
        Partition(lo, hi);
      }
      var o1 := in1.Synthesize();
      var o2 := in2.Synthesize();
      innerOut := Some(o1);
      outerOut := Some(o2);
      var o := out1.Synthesize();
      outOut := Some(o);
    }
  }
}
