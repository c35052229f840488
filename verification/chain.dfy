/**
  One channel's filter chain — low-cut bank, peak filter, high-cut bank, each
  with a chain-level bypass flag — the design requests that feed it, and the
  magnitude of its response as the response-curve display evaluates it.
 */
module Chain {
  import opened Dsp
  import opened Settings
  import opened CutFilter

  /** `MonoChain`: positions LowCut, Peak, HighCut, in processing order. */
  datatype MonoChain = MonoChain(
    lowCut: Bank, peak: Coefficients, highCut: Bank,
    lowCutBypassed: bool, peakBypassed: bool, highCutBypassed: bool)

  /**
    The Butterworth order requested for a slope, (slope + 1) * 2: always even
    and positive, and its half is the number of stages the slope enables.
   */
  function CutOrder(slope: Slope): (order: int)
    ensures 2 <= order <= 8 && order % 2 == 0
    ensures order / 2 == slope.Index() + 1
  {
    (slope.Index() + 1) * 2
  }

  /** The peak filter of a snapshot: the dB gain is converted to a gain factor first. */
  function MakePeakFilter(lib: Library, cs: ChainSettings, sampleRate: real): Coefficients {
    lib.makePeakFilter(sampleRate, cs.peakFreq, cs.peakQ, lib.decibelsToGain(cs.peakGainInDecibels))
  }

  /**
    The high-cut design is a Butterworth LOWPASS at the high-cut frequency.
    It has exactly one section per stage the high-cut slope enables, so every
    read `updateCutFilter` makes from it is in bounds.
   */
  function MakeHighCutFilter(lib: Library, cs: ChainSettings, sampleRate: real): (coeffs: seq<Coefficients>)
    requires ButterworthShaped(lib)
    ensures |coeffs| == cs.highCutSlope.Index() + 1
  {
    lib.designLowpass(cs.highCutFreq, sampleRate, CutOrder(cs.highCutSlope))
  }

  /** The low-cut design is a Butterworth HIGHPASS at the low-cut frequency, one section per enabled stage. */
  function MakeLowCutFilter(lib: Library, cs: ChainSettings, sampleRate: real): (coeffs: seq<Coefficients>)
    requires ButterworthShaped(lib)
    ensures |coeffs| == cs.lowCutSlope.Index() + 1
  {
    lib.designHighpass(cs.lowCutFreq, sampleRate, CutOrder(cs.lowCutSlope))
  }

  /**
    A chain configured from one settings snapshot at one sample rate: the
    peak, the high-cut bank and the low-cut bank each hold what the
    corresponding maker designs (a bank is configured when configuring it
    again for that design and slope changes nothing). Says nothing about
    the chain-level bypass flags.
   */
  predicate ConfiguredFrom(chain: MonoChain, lib: Library, cs: ChainSettings, sampleRate: real)
    requires ButterworthShaped(lib)
  {
    && chain.peak == MakePeakFilter(lib, cs, sampleRate)
    && chain.highCut == UpdateCutFilter(chain.highCut, MakeHighCutFilter(lib, cs, sampleRate), cs.highCutSlope)
    && chain.lowCut == UpdateCutFilter(chain.lowCut, MakeLowCutFilter(lib, cs, sampleRate), cs.lowCutSlope)
  }

  /**
    Two chains configured from the same snapshot and sample rate, with the
    same chain-level flags, send a sample through the same sections,
    whatever the stages they do not use still hold.
   */
  lemma ConfiguredChainsProcessAlike(lib: Library, a: MonoChain, b: MonoChain, cs: ChainSettings, sampleRate: real)
    requires ButterworthShaped(lib)
    requires ConfiguredFrom(a, lib, cs, sampleRate) && ConfiguredFrom(b, lib, cs, sampleRate)
    requires a.lowCutBypassed == b.lowCutBypassed && a.peakBypassed == b.peakBypassed
    requires a.highCutBypassed == b.highCutBypassed
    ensures ProcessingSections(a) == ProcessingSections(b)
    ensures MagnitudeFactors(a) == MagnitudeFactors(b)
  {
    var high := MakeHighCutFilter(lib, cs, sampleRate);
    var low := MakeLowCutFilter(lib, cs, sampleRate);
    ActiveSectionsAfterUpdate(a.highCut, high, cs.highCutSlope);
    ActiveSectionsAfterUpdate(b.highCut, high, cs.highCutSlope);
    ActiveSectionsAfterUpdate(a.lowCut, low, cs.lowCutSlope);
    ActiveSectionsAfterUpdate(b.lowCut, low, cs.lowCutSlope);
  }

  /** The sections a sample passes through, in processing order: low cut, peak, high cut. */
  function ProcessingSections(chain: MonoChain): seq<Coefficients> {
    (if chain.lowCutBypassed then [] else ActiveSections(chain.lowCut))
    + (if chain.peakBypassed then [] else [chain.peak])
    + (if chain.highCutBypassed then [] else ActiveSections(chain.highCut))
  }

  /** The sections the display multiplies together, in its order: peak, high cut, low cut. */
  function MagnitudeFactors(chain: MonoChain): seq<Coefficients> {
    (if chain.peakBypassed then [] else [chain.peak])
    + (if chain.highCutBypassed then [] else ActiveSections(chain.highCut))
    + (if chain.lowCutBypassed then [] else ActiveSections(chain.lowCut))
  }

  /**
    `start` with the magnitude of every section multiplied in, left to right,
    as the display's `mag *= ...` statements do.
   */
  function Magnitude(lib: Library, start: real, sections: seq<Coefficients>, freq: real, sampleRate: real): real
    decreases |sections|
  {
    if |sections| == 0 then start
    else Magnitude(lib, lib.multiply(start, lib.magnitudeForFrequency(sections[0], freq, sampleRate)),
                   sections[1..], freq, sampleRate)
  }

  /** Multiplying in two cascades one after the other is multiplying in their concatenation. */
  lemma {:induction false} MagnitudeAppend(lib: Library, start: real, a: seq<Coefficients>, b: seq<Coefficients>, freq: real, sampleRate: real)
    ensures Magnitude(lib, start, a + b, freq, sampleRate)
         == Magnitude(lib, Magnitude(lib, start, a, freq, sampleRate), b, freq, sampleRate)
    decreases |a|
  {
    if |a| == 0 {
      assert a + b == b;
    } else {
      assert (a + b)[0] == a[0];
      assert (a + b)[1..] == a[1..] + b;
      MagnitudeAppend(lib, lib.multiply(start, lib.magnitudeForFrequency(a[0], freq, sampleRate)), a[1..], b, freq, sampleRate);
    }
  }

  /**
    With exact arithmetic the starting value factors out: the result is the
    start times the cascade's own magnitude.
   */
  lemma {:induction false} MagnitudeScales(lib: Library, k: real, start: real, sections: seq<Coefficients>, freq: real, sampleRate: real)
    requires ExactArithmetic(lib)
    ensures Magnitude(lib, lib.multiply(k, start), sections, freq, sampleRate)
         == lib.multiply(k, Magnitude(lib, start, sections, freq, sampleRate))
    decreases |sections|
  {
    if |sections| > 0 {
      var m := lib.magnitudeForFrequency(sections[0], freq, sampleRate);
      MagnitudeScales(lib, k, lib.multiply(start, m), sections[1..], freq, sampleRate);
    }
  }

  /** The magnitude of a cascade taken alone, starting from 1. */
  function Response(lib: Library, sections: seq<Coefficients>, freq: real, sampleRate: real): real {
    Magnitude(lib, 1.0, sections, freq, sampleRate)
  }

  /** With exact arithmetic the response of two cascades in series is the product of their responses. */
  lemma ResponseAppend(lib: Library, a: seq<Coefficients>, b: seq<Coefficients>, freq: real, sampleRate: real)
    requires ExactArithmetic(lib)
    ensures Response(lib, a + b, freq, sampleRate)
         == lib.multiply(Response(lib, a, freq, sampleRate), Response(lib, b, freq, sampleRate))
  {
    var ra := Response(lib, a, freq, sampleRate);
    MagnitudeAppend(lib, 1.0, a, b, freq, sampleRate);
    MagnitudeScales(lib, ra, 1.0, b, freq, sampleRate);
    assert lib.multiply(ra, 1.0) == ra by {
      assert lib.multiply(ra, 1.0) == lib.multiply(1.0, ra);
    }
  }

  /**
    The four guarded `mag *= ...` statements over one bank: each stage that
    is not bypassed multiplies in its magnitude, in stage order 0..3.
   */
  method MultiplyStages(lib: Library, bank: Bank, incoming: real, freq: real, sampleRate: real) returns (mag: real)
    ensures mag == Magnitude(lib, incoming, ActiveSections(bank), freq, sampleRate)
    ensures (forall j :: 0 <= j < 4 ==> bank[j].bypassed) ==> mag == incoming
  {
    mag := incoming;
    var i := 0;
    while i < 4
      invariant 0 <= i <= 4
      invariant mag == Magnitude(lib, incoming, SectionsBelow(bank, i), freq, sampleRate)
      invariant (forall j :: 0 <= j < i ==> bank[j].bypassed) ==> SectionsBelow(bank, i) == []
    {
      ghost var before := SectionsBelow(bank, i);
      if !bank[i].bypassed {
        var m := lib.magnitudeForFrequency(bank[i].coefficients, freq, sampleRate);
        MagnitudeAppend(lib, incoming, before, [bank[i].coefficients], freq, sampleRate);
        mag := lib.multiply(mag, m);
      } else {
        assert before + [] == before;
      }
      i := i + 1;
    }
  }

  /**
    The magnitude loop of the response-curve `paint` at one frequency: start
    at 1 and multiply in every section that is not bypassed — peak, then
    high-cut stages 0..3, then low-cut stages 0..3. With all three chain
    positions bypassed it is exactly 1.
   */
  method PaintMagnitude(lib: Library, chain: MonoChain, freq: real, sampleRate: real) returns (mag: real)
    ensures mag == Response(lib, MagnitudeFactors(chain), freq, sampleRate)
    ensures chain.peakBypassed && chain.highCutBypassed && chain.lowCutBypassed ==> mag == 1.0
  {
    ghost var peakPart: seq<Coefficients> := if chain.peakBypassed then [] else [chain.peak];
    ghost var highPart := if chain.highCutBypassed then [] else ActiveSections(chain.highCut);
    ghost var lowPart := if chain.lowCutBypassed then [] else ActiveSections(chain.lowCut);
    mag := 1.0;
    if !chain.peakBypassed {
      mag := lib.multiply(mag, lib.magnitudeForFrequency(chain.peak, freq, sampleRate));
    }
    ghost var afterPeak := mag;
    assert afterPeak == Magnitude(lib, 1.0, peakPart, freq, sampleRate);
    if !chain.highCutBypassed {
      mag := MultiplyStages(lib, chain.highCut, mag, freq, sampleRate);
    }
    ghost var afterHigh := mag;
    assert afterHigh == Magnitude(lib, afterPeak, highPart, freq, sampleRate);
    if !chain.lowCutBypassed {
      mag := MultiplyStages(lib, chain.lowCut, mag, freq, sampleRate);
    }
    assert mag == Magnitude(lib, afterHigh, lowPart, freq, sampleRate);
    MagnitudeAppend(lib, 1.0, peakPart, highPart, freq, sampleRate);
    MagnitudeAppend(lib, 1.0, peakPart + highPart, lowPart, freq, sampleRate);
  }

  /**
    The curve shows the response of the chain the audio runs through: with
    exact arithmetic the display's product, taken in its own order, equals
    the response of the sections in processing order.
   */
  lemma DisplayMatchesProcessing(lib: Library, chain: MonoChain, freq: real, sampleRate: real)
    requires ExactArithmetic(lib)
    ensures Response(lib, MagnitudeFactors(chain), freq, sampleRate)
         == Response(lib, ProcessingSections(chain), freq, sampleRate)
  {
    var low := if chain.lowCutBypassed then [] else ActiveSections(chain.lowCut);
    var peak := if chain.peakBypassed then [] else [chain.peak];
    var high := if chain.highCutBypassed then [] else ActiveSections(chain.highCut);
    var pl, pp, ph := Response(lib, low, freq, sampleRate), Response(lib, peak, freq, sampleRate), Response(lib, high, freq, sampleRate);
    ResponseAppend(lib, peak, high, freq, sampleRate);
    ResponseAppend(lib, peak + high, low, freq, sampleRate);
    ResponseAppend(lib, low, peak, freq, sampleRate);
    ResponseAppend(lib, low + peak, high, freq, sampleRate);
    calc {
      lib.multiply(lib.multiply(pp, ph), pl);
      lib.multiply(pl, lib.multiply(pp, ph));
      lib.multiply(lib.multiply(pl, pp), ph);
    }
  }

  /**
    Bypassing the peak removes exactly its factor: with exact arithmetic the
    response with the peak active is the peak's magnitude times the response
    with the peak bypassed.
   */
  lemma BypassedPeakRemovesItsFactor(lib: Library, chain: MonoChain, freq: real, sampleRate: real)
    requires ExactArithmetic(lib)
    ensures Response(lib, MagnitudeFactors(chain.(peakBypassed := false)), freq, sampleRate)
         == lib.multiply(lib.magnitudeForFrequency(chain.peak, freq, sampleRate),
                         Response(lib, MagnitudeFactors(chain.(peakBypassed := true)), freq, sampleRate))
  {
    var high := if chain.highCutBypassed then [] else ActiveSections(chain.highCut);
    var low := if chain.lowCutBypassed then [] else ActiveSections(chain.lowCut);
    var rest := high + low;
    assert MagnitudeFactors(chain.(peakBypassed := false)) == [chain.peak] + rest;
    assert MagnitudeFactors(chain.(peakBypassed := true)) == [] + rest == rest;
    ResponseAppend(lib, [chain.peak], rest, freq, sampleRate);
    var m := lib.magnitudeForFrequency(chain.peak, freq, sampleRate);
    assert [chain.peak][0] == chain.peak && [chain.peak][1..] == [];
    assert Response(lib, [chain.peak], freq, sampleRate) == Magnitude(lib, lib.multiply(1.0, m), [], freq, sampleRate);
  }

  /**
    The number of factors the display multiplies in for a configured chain:
    one for the peak unless it is bypassed, plus slope + 1 for each cut
    bank that is not bypassed.
   */
  lemma FactorCount(lib: Library, chain: MonoChain, cs: ChainSettings, sampleRate: real)
    requires ButterworthShaped(lib) && ConfiguredFrom(chain, lib, cs, sampleRate)
    ensures |MagnitudeFactors(chain)|
         == (if chain.peakBypassed then 0 else 1)
          + (if chain.highCutBypassed then 0 else cs.highCutSlope.Index() + 1)
          + (if chain.lowCutBypassed then 0 else cs.lowCutSlope.Index() + 1)
  {
    ActiveSectionsAfterUpdate(chain.highCut, MakeHighCutFilter(lib, cs, sampleRate), cs.highCutSlope);
    ActiveSectionsAfterUpdate(chain.lowCut, MakeLowCutFilter(lib, cs, sampleRate), cs.lowCutSlope);
  }
}
