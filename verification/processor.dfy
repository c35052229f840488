/**
  The audio processor: two mono chains (left and right) whose filters are
  re-derived from the parameter store at the start of every block.
 */
module Processor {
  import opened Dsp
  import opened Settings
  import opened CutFilter
  import opened Chain

  datatype EqProcessor = EqProcessor(leftChain: MonoChain, rightChain: MonoChain)

  /** Channel samples; every channel of a buffer has the same number of samples. */
  type Buffer = seq<seq<real>>

  /**
    `updatePeakFilter`: one peak design, copied into the peak position of
    both chains. Nothing else in either chain changes.
   */
  function UpdatePeakFilter(p: EqProcessor, lib: Library, cs: ChainSettings, sampleRate: real): (r: EqProcessor)
    ensures r.leftChain.peak == r.rightChain.peak == MakePeakFilter(lib, cs, sampleRate)
    ensures r.leftChain == p.leftChain.(peak := r.leftChain.peak)
    ensures r.rightChain == p.rightChain.(peak := r.rightChain.peak)
  {
    var peakCoef := MakePeakFilter(lib, cs, sampleRate);
    EqProcessor(p.leftChain.(peak := peakCoef), p.rightChain.(peak := peakCoef))
  }

  /**
    `updateHighCutFilters`: one LOWPASS design at the high-cut frequency and
    slope, fed through `updateCutFilter` into the high-cut bank of both
    chains. A disabled stage keeps its old coefficients, and nothing else
    in either chain changes.
   */
  function UpdateHighCutFilters(p: EqProcessor, lib: Library, cs: ChainSettings, sampleRate: real): (r: EqProcessor)
    requires ButterworthShaped(lib)
    ensures var design := lib.designLowpass(cs.highCutFreq, sampleRate, CutOrder(cs.highCutSlope));
            && ActiveSections(r.leftChain.highCut) == ActiveSections(r.rightChain.highCut) == design
            && (forall j :: 0 <= j < 4 ==>
                  r.leftChain.highCut[j].bypassed == r.rightChain.highCut[j].bypassed == (j > cs.highCutSlope.Index()))
    ensures forall j :: cs.highCutSlope.Index() < j < 4 ==>
              && r.leftChain.highCut[j].coefficients == p.leftChain.highCut[j].coefficients
              && r.rightChain.highCut[j].coefficients == p.rightChain.highCut[j].coefficients
    ensures r.leftChain == p.leftChain.(highCut := r.leftChain.highCut)
    ensures r.rightChain == p.rightChain.(highCut := r.rightChain.highCut)
  {
    var highCutCoeff := MakeHighCutFilter(lib, cs, sampleRate);
    ActiveSectionsAfterUpdate(p.leftChain.highCut, highCutCoeff, cs.highCutSlope);
    ActiveSectionsAfterUpdate(p.rightChain.highCut, highCutCoeff, cs.highCutSlope);
    EqProcessor(
      p.leftChain.(highCut := UpdateCutFilter(p.leftChain.highCut, highCutCoeff, cs.highCutSlope)),
      p.rightChain.(highCut := UpdateCutFilter(p.rightChain.highCut, highCutCoeff, cs.highCutSlope)))
  }

  /**
    `updateLowCutFilters`: one HIGHPASS design at the low-cut frequency and
    slope, fed through `updateCutFilter` into the low-cut bank of both
    chains. A disabled stage keeps its old coefficients, and nothing else
    in either chain changes.
   */
  function UpdateLowCutFilters(p: EqProcessor, lib: Library, cs: ChainSettings, sampleRate: real): (r: EqProcessor)
    requires ButterworthShaped(lib)
    ensures var design := lib.designHighpass(cs.lowCutFreq, sampleRate, CutOrder(cs.lowCutSlope));
            && ActiveSections(r.leftChain.lowCut) == ActiveSections(r.rightChain.lowCut) == design
            && (forall j :: 0 <= j < 4 ==>
                  r.leftChain.lowCut[j].bypassed == r.rightChain.lowCut[j].bypassed == (j > cs.lowCutSlope.Index()))
    ensures forall j :: cs.lowCutSlope.Index() < j < 4 ==>
              && r.leftChain.lowCut[j].coefficients == p.leftChain.lowCut[j].coefficients
              && r.rightChain.lowCut[j].coefficients == p.rightChain.lowCut[j].coefficients
    ensures r.leftChain == p.leftChain.(lowCut := r.leftChain.lowCut)
    ensures r.rightChain == p.rightChain.(lowCut := r.rightChain.lowCut)
  {
    var lowCutCoeff := MakeLowCutFilter(lib, cs, sampleRate);
    ActiveSectionsAfterUpdate(p.leftChain.lowCut, lowCutCoeff, cs.lowCutSlope);
    ActiveSectionsAfterUpdate(p.rightChain.lowCut, lowCutCoeff, cs.lowCutSlope);
    EqProcessor(
      p.leftChain.(lowCut := UpdateCutFilter(p.leftChain.lowCut, lowCutCoeff, cs.lowCutSlope)),
      p.rightChain.(lowCut := UpdateCutFilter(p.rightChain.lowCut, lowCutCoeff, cs.lowCutSlope)))
  }

  /**
    `updateFilters(float sampleRate)`: read one settings snapshot from the
    store, then update the peak, the high cuts and the low cuts of both
    chains. The sample rate arrives as a double and is narrowed to float.
   */
  function UpdateFilters(p: EqProcessor, lib: Library, store: Store, sampleRate: real): (r: EqProcessor)
    requires Readable(store) && ButterworthShaped(lib)
    ensures var cs := GetChainSettings(store);
            && ConfiguredFrom(r.leftChain, lib, cs, lib.toFloat(sampleRate))
            && ConfiguredFrom(r.rightChain, lib, cs, lib.toFloat(sampleRate))
    ensures r.leftChain.(peak := p.leftChain.peak, highCut := p.leftChain.highCut, lowCut := p.leftChain.lowCut) == p.leftChain
    ensures r.rightChain.(peak := p.rightChain.peak, highCut := p.rightChain.highCut, lowCut := p.rightChain.lowCut) == p.rightChain
  {
    var cs := GetChainSettings(store);
    var rate := lib.toFloat(sampleRate);
    var r := UpdateLowCutFilters(UpdateHighCutFilters(UpdatePeakFilter(p, lib, cs, rate), lib, cs, rate), lib, cs, rate);
    UpdateCutFilterIdempotent(p.leftChain.highCut, MakeHighCutFilter(lib, cs, rate), cs.highCutSlope);
    UpdateCutFilterIdempotent(p.rightChain.highCut, MakeHighCutFilter(lib, cs, rate), cs.highCutSlope);
    UpdateCutFilterIdempotent(p.leftChain.lowCut, MakeLowCutFilter(lib, cs, rate), cs.lowCutSlope);
    UpdateCutFilterIdempotent(p.rightChain.lowCut, MakeLowCutFilter(lib, cs, rate), cs.lowCutSlope);
    r
  }

  /**
    From one snapshot the two chains get the same peak, the same enabled
    stages and the same sections in them, whatever state either chain was
    in before; so, with matching chain-level flags, a sample meets the same
    sections on the left as on the right. The chain-level flags are
    unchanged.
   */
  lemma UpdateFiltersAlignsChannels(p: EqProcessor, lib: Library, store: Store, sampleRate: real)
    requires Readable(store) && ButterworthShaped(lib)
    ensures var r := UpdateFilters(p, lib, store, sampleRate);
            && r.leftChain.peak == r.rightChain.peak
            && (forall j :: 0 <= j < 4 ==> r.leftChain.highCut[j].bypassed == r.rightChain.highCut[j].bypassed)
            && (forall j :: 0 <= j < 4 ==> r.leftChain.lowCut[j].bypassed == r.rightChain.lowCut[j].bypassed)
            && ActiveSections(r.leftChain.highCut) == ActiveSections(r.rightChain.highCut)
            && ActiveSections(r.leftChain.lowCut) == ActiveSections(r.rightChain.lowCut)
            && r.leftChain.(peak := p.leftChain.peak, highCut := p.leftChain.highCut, lowCut := p.leftChain.lowCut) == p.leftChain
            && r.rightChain.(peak := p.rightChain.peak, highCut := p.rightChain.highCut, lowCut := p.rightChain.lowCut) == p.rightChain
            && (p.leftChain.lowCutBypassed == p.rightChain.lowCutBypassed
                && p.leftChain.peakBypassed == p.rightChain.peakBypassed
                && p.leftChain.highCutBypassed == p.rightChain.highCutBypassed
                ==> ProcessingSections(r.leftChain) == ProcessingSections(r.rightChain))
  {
    var cs := GetChainSettings(store);
    var rate := lib.toFloat(sampleRate);
    var afterPeak := UpdatePeakFilter(p, lib, cs, rate);
    var afterHigh := UpdateHighCutFilters(afterPeak, lib, cs, rate);
    var r := UpdateLowCutFilters(afterHigh, lib, cs, rate);
    assert r == UpdateFilters(p, lib, store, sampleRate);
  }

  /** Two chains that start identical stay identical. */
  lemma UpdateFiltersKeepsIdenticalChannels(p: EqProcessor, lib: Library, store: Store, sampleRate: real)
    requires Readable(store) && ButterworthShaped(lib)
    requires p.leftChain == p.rightChain
    ensures var r := UpdateFilters(p, lib, store, sampleRate);
            r.leftChain == r.rightChain
  {
  }

  /**
    Running `updateFilters` again with the same store and sample rate leaves
    both chains as they are: blocks in which no parameter moved do not
    disturb the filters.
   */
  lemma UpdateFiltersIdempotent(p: EqProcessor, lib: Library, store: Store, sampleRate: real)
    requires Readable(store) && ButterworthShaped(lib)
    ensures var once := UpdateFilters(p, lib, store, sampleRate);
            UpdateFilters(once, lib, store, sampleRate) == once
  {
    var once := UpdateFilters(p, lib, store, sampleRate);
    var cs := GetChainSettings(store);
    var rate := lib.toFloat(sampleRate);
    var afterPeak := UpdatePeakFilter(once, lib, cs, rate);
    var afterHigh := UpdateHighCutFilters(afterPeak, lib, cs, rate);
    var twice := UpdateLowCutFilters(afterHigh, lib, cs, rate);
    assert twice.leftChain == once.leftChain;
    assert twice.rightChain == once.rightChain;
  }

  /**
    The filters depend only on the seven parameters `getChainSettings`
    reads: two stores that agree on them configure the same chains.
   */
  lemma UpdateFiltersReadsOnlySevenIds(p: EqProcessor, lib: Library, a: Store, b: Store, sampleRate: real)
    requires Readable(a) && Readable(b) && ButterworthShaped(lib)
    requires AgreeOnReadIds(a, b)
    ensures UpdateFilters(p, lib, a, sampleRate) == UpdateFilters(p, lib, b, sampleRate)
  {
    GetChainSettingsReadsOnlySevenIds(a, b);
  }

  /** Output channels numIn..numOut-1 carry no input and are silenced; the rest keep their samples. */
  function ClearedOutputs(buffer: Buffer, numIn: nat, numOut: nat): (r: Buffer)
    ensures |r| == |buffer|
  {
    seq(|buffer|, i requires 0 <= i < |buffer| =>
      if numIn <= i < numOut then Silence(|buffer[i]|) else buffer[i])
  }

  function Silence(n: nat): (s: seq<real>)
    ensures |s| == n && forall k :: 0 <= k < n ==> s[k] == 0.0
  {
    seq(n, _ => 0.0)
  }

  /** The `buffer.clear(i, 0, numSamples)` loop over channels numIn..numOut-1. */
  method ClearUnusedOutputs(buffer: Buffer, numIn: nat, numOut: nat) returns (r: Buffer)
    requires numOut <= |buffer|
    ensures |r| == |buffer|
    ensures forall i :: 0 <= i < |buffer| && numIn <= i < numOut ==>
              |r[i]| == |buffer[i]| && forall k :: 0 <= k < |r[i]| ==> r[i][k] == 0.0
    ensures forall i :: 0 <= i < |buffer| && !(numIn <= i < numOut) ==> r[i] == buffer[i]
    ensures r == ClearedOutputs(buffer, numIn, numOut)
  {
    r := buffer;
    var i := numIn;
    while i < numOut
      invariant |r| == |buffer|
      invariant i == numIn || numIn <= i <= numOut
      invariant forall c :: 0 <= c < |buffer| && numIn <= c < numOut && c < i ==> r[c] == Silence(|buffer[c]|)
      invariant forall c :: 0 <= c < |buffer| && !(numIn <= c < i) ==> r[c] == buffer[c]
    {
      r := r[i := Silence(|buffer[i]|)];
      i := i + 1;
    }
  }

  /**
    `processBlock`: silence the output channels that have no input, update
    the filters from the current store, and only then run channel 0 through
    the left chain and channel 1 through the right chain, in place. `run`
    stands for the library's per-sample filtering of one channel. Every
    other channel passes through untouched.
   */
  method ProcessBlock(p: EqProcessor, lib: Library, store: Store, sampleRate: real,
                      run: (MonoChain, seq<real>) -> seq<real>,
                      buffer: Buffer, numIn: nat, numOut: nat)
    returns (q: EqProcessor, out: Buffer)
    requires Readable(store) && ButterworthShaped(lib)
    requires 2 <= |buffer| && numOut <= |buffer|
    ensures q == UpdateFilters(p, lib, store, sampleRate)
    ensures |out| == |buffer|
    ensures out[0] == run(q.leftChain, ClearedOutputs(buffer, numIn, numOut)[0])
    ensures out[1] == run(q.rightChain, ClearedOutputs(buffer, numIn, numOut)[1])
    ensures forall i :: 2 <= i < |buffer| ==> out[i] == ClearedOutputs(buffer, numIn, numOut)[i]
  {
    var cleared := ClearUnusedOutputs(buffer, numIn, numOut);
    q := UpdateFilters(p, lib, store, sampleRate);
    var left := run(q.leftChain, cleared[0]);
    var right := run(q.rightChain, cleared[1]);
    out := cleared[0 := left][1 := right];
  }
}
