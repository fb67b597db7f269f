/// Spectral freeze (src/FreezeMk1.cpp): after a trigger the module lets
/// its magnitude-frequency transform absorb four hops, one window's worth,
/// requesting a phase reset after every captured frame but the last; then
/// it stops feeding the transform and keeps resynthesising what it holds.
module Freeze {
  import opened Rack
  import opened Spectral

  const WindowSize: nat := 2048
  /** `size`: the hop, a quarter window (WINDOW_SIZE / 4). Nothing ever
      changes it. */
  const HopSize: nat := 512
  const NumBins: nat := 1025
  /** Frames absorbed per trigger: WINDOW_SIZE / size. */
  const Captures: nat := 4

  /** The constants are the source's quotients, and the captured hops
      span exactly one window. */
  lemma CapturesFillWindow()
    ensures HopSize == WindowSize / 4 && NumBins == WindowSize / 2 + 1
    ensures Captures == WindowSize / HopSize && Captures * HopSize == WindowSize
  {
  }

  /** The capture counter and the transform's hop counter. */
  datatype State = State(captureCount: nat, hopCount: nat)

  ghost predicate Reachable(st: State) {
    st.captureCount <= Captures && st.hopCount < HopSize
  }

  /** What one sample does: the next state, whether the transform was fed,
      whether a frame completed, whether a phase reset was requested. */
  datatype Tick = Tick(next: State, fed: bool, frame: bool, reset: bool)

  /** One call of `process`, on the counters alone. */
  function Step(st: State, triggered: bool): (t: Tick)
    requires Reachable(st)
    ensures Reachable(t.next)
    ensures t.fed <==> triggered || st.captureCount < Captures
    ensures t.frame ==> t.fed
    ensures t.next.captureCount == (if triggered then 0 else st.captureCount) + (if t.frame then 1 else 0)
    ensures t.reset <==> t.frame && t.next.captureCount < Captures
  {
    var c := if triggered then 0 else st.captureCount;
    if c < Captures then
      if st.hopCount + 1 == HopSize then Tick(State(c + 1, 0), true, true, c + 1 < Captures)
      else Tick(State(c, st.hopCount + 1), true, false, false)
    else Tick(State(c, st.hopCount), false, false, false)
  }

  /** n samples without a trigger: the final state and the number of phase
      resets requested on the way. */
  function Run(st: State, n: nat): (r: (State, nat))
    requires Reachable(st)
    ensures Reachable(r.0)
    decreases n
  {
    if n == 0 then (st, 0)
    else
      var t := Step(st, false);
      var rest := Run(t.next, n - 1);
      (rest.0, rest.1 + if t.reset then 1 else 0)
  }

  lemma {:induction false} RunSplit(st: State, a: nat, b: nat)
    requires Reachable(st)
    ensures Run(st, a + b) == (Run(Run(st, a).0, b).0, Run(st, a).1 + Run(Run(st, a).0, b).1)
    decreases a
  {
    if a > 0 {
      RunSplit(Step(st, false).next, a - 1, b);
      assert a + b - 1 == (a - 1) + b;
    }
  }

  /** While capturing, the rest of the current hop completes exactly one
      frame, which is counted and followed by a reset unless it is the last. */
  lemma {:induction false} CaptureOneHop(c: nat, h: nat)
    requires c < Captures && h < HopSize
    ensures Run(State(c, h), HopSize - h) == (State(c + 1, 0), if c + 1 < Captures then 1 else 0)
    decreases HopSize - h
  {
    if h + 1 < HopSize {
      CaptureOneHop(c, h + 1);
    }
  }

  /** Once all frames are captured, samples change nothing until a trigger:
      the transform is not fed, so its hop counter stands still. */
  lemma {:induction false} HoldingIsStable(h: nat, n: nat)
    requires h < HopSize
    ensures Run(State(Captures, h), n) == (State(Captures, h), 0)
    decreases n
  {
    if n > 0 {
      HoldingIsStable(h, n - 1);
    }
  }

  /** From any point of capture c, the rest of that hop and one hop for each
      capture still missing fill the counter, requesting a reset for every
      frame but the last; further samples change nothing. */
  lemma {:induction false} CaptureRest(c: nat, h: nat, m: nat)
    requires c < Captures && h < HopSize
    ensures Run(State(c, h), (HopSize - h) + (Captures - 1 - c) * HopSize + m) == (State(Captures, 0), Captures - 1 - c)
    decreases Captures - c
  {
    RunSplit(State(c, h), HopSize - h, (Captures - 1 - c) * HopSize + m);
    CaptureOneHop(c, h);
    if c + 1 < Captures {
      CaptureRest(c + 1, 0, m);
    } else {
      HoldingIsStable(0, m);
    }
  }

  /** A full capture cycle: from a trigger at any point of the hop, after
      the rest of that hop and three more hops the counter sits at 4, phase
      resets were requested exactly 3 times, and any further samples change
      nothing. */
  lemma FullCapture(h: nat, m: nat)
    requires h < HopSize
    ensures Run(State(0, h), (HopSize - h) + 3 * HopSize + m) == (State(Captures, 0), Captures - 1)
  {
    CaptureRest(0, h, m);
  }

  /** A trigger restarts the capture on the same sample: the counter goes
      back to 0 before the capture test, so the sample is fed. */
  lemma TriggerRestartsCapture(st: State)
    requires Reachable(st)
    ensures Step(st, true).fed && Step(st, true).next.captureCount <= 1
  {
  }

  class FreezeMk1 {
    /** The magnitude-frequency transform (2048 window, hop `size`, Hann). */
    const stft: Stft
    var captureCount: int
    /** Last value written to OUTPUT, if any. */
    var output: Option<Synth>

    ghost predicate Valid()
      reads this, stft
    {
      stft.Valid() && stft.hop == HopSize && 0 <= captureCount <= Captures
    }

    constructor (binFreq: real)
      requires 0.0 < binFreq
      ensures Valid() && fresh(stft) && fresh(stft.bins)
      ensures stft.bins.Length == NumBins && stft.binFreq == binFreq
      ensures captureCount == 0 && stft.count == 0 && stft.fed == [] && stft.resets == 1
      ensures output == None
    {
      stft := new Stft("freeze", NumBins, HopSize, binFreq);
      output := None;
      new;
      OnReset();
    }

    /** One call of `process`. */
    method Process(triggered: bool, s: real, analysed: seq<Bin>)
      requires Valid() && |analysed| == stft.bins.Length
      modifies this, stft, stft.bins
      ensures Valid()
      ensures var t := Step(State(old(captureCount), old(stft.count)), triggered);
        && captureCount == t.next.captureCount && stft.count == t.next.hopCount
        && stft.fed == old(stft.fed) + (if t.fed then [Rescale(s, -5.0, 5.0, -0.8, 0.8)] else [])
        && stft.resets == old(stft.resets) + (if t.reset then 1 else 0)
        && stft.bins[..] == if t.frame then analysed else old(stft.bins[..])
      ensures output == Some(Synth(stft.name, old(stft.synths))) && stft.synths == old(stft.synths) + 1
    {
      var x := Rescale(s, -5.0, 5.0, -0.8, 0.8);
      if triggered {
        captureCount := 0;
      }
      if captureCount < Captures {
        var ready := stft.Push(x, analysed);
        if ready {
          captureCount := captureCount + 1;
          if captureCount < Captures {
            stft.ResetPhases();
          }
        }
      }
      var o := stft.Synthesize();
      output := Some(o);
    }

    /** `onReset`: the hop is set again to `size`, phases are reset and the
        capture starts over. */
    method OnReset()
      requires stft.Valid() && stft.hop == HopSize
      modifies this, stft
      ensures Valid()
      ensures captureCount == 0 && stft.resets == old(stft.resets) + 1
      ensures stft.count == old(stft.count) && stft.fed == old(stft.fed) && stft.synths == old(stft.synths)
      ensures output == old(output)
    {
      stft.ResetPhases();
      captureCount := 0;
    }
  }
}
