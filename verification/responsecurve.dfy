/**
  The editor's response-curve component: a private mirror of one mono chain,
  kept in step with the parameter store through a dirty flag that parameter
  listeners set and a 60 Hz timer tests and clears.
 */
module ResponseCurve {
  import opened Dsp
  import opened Settings
  import opened CutFilter
  import opened Chain
  import opened Processor

  /**
    The component's state: the dirty flag `parametersChanged`, the mirror
    chain, and how many repaints the timer has requested so far.
   */
  datatype Component = Component(parametersChanged: bool, monoChain: MonoChain, repaints: nat)

  /** The mirror chain reflects the store: its flags and all three positions are as `updateChain` would set them. */
  predicate Reflects(chain: MonoChain, lib: Library, store: Store, sampleRate: real)
    requires Readable(store) && ButterworthShaped(lib)
  {
    var cs := GetChainSettings(store);
    && chain.peakBypassed == cs.peakBypassed
    && chain.lowCutBypassed == cs.lowCutBypassed
    && chain.highCutBypassed == cs.highCutBypassed
    && ConfiguredFrom(chain, lib, cs, sampleRate)
  }

  /**
    `updateChain`: take a settings snapshot, set the three chain-level
    bypass flags from it, copy in a fresh peak, then reconfigure the
    high-cut bank from a lowpass design and the low-cut bank from a highpass
    design, through the same `updateCutFilter` the processor uses. The
    editor passes the double sample rate on unchanged.
   */
  function UpdateChain(chain: MonoChain, lib: Library, store: Store, sampleRate: real): (r: MonoChain)
    requires Readable(store) && ButterworthShaped(lib)
    ensures Reflects(r, lib, store, sampleRate)
  {
    var cs := GetChainSettings(store);
    var flagged := chain.(peakBypassed := cs.peakBypassed, lowCutBypassed := cs.lowCutBypassed,
                          highCutBypassed := cs.highCutBypassed);
    var withPeak := flagged.(peak := MakePeakFilter(lib, cs, sampleRate));
    var highCutCoef := MakeHighCutFilter(lib, cs, sampleRate);
    var lowCutCoef := MakeLowCutFilter(lib, cs, sampleRate);
    var highCut := UpdateCutFilter(withPeak.highCut, highCutCoef, cs.highCutSlope);
    var lowCut := UpdateCutFilter(withPeak.lowCut, lowCutCoef, cs.lowCutSlope);
    UpdateCutFilterIdempotent(withPeak.highCut, highCutCoef, cs.highCutSlope);
    UpdateCutFilterIdempotent(withPeak.lowCut, lowCutCoef, cs.lowCutSlope);
    withPeak.(highCut := highCut, lowCut := lowCut)
  }

  /** A chain that already reflects the store is left as it is by `updateChain`. */
  lemma UpdateChainFixesReflecting(chain: MonoChain, lib: Library, store: Store, sampleRate: real)
    requires Readable(store) && ButterworthShaped(lib)
    requires Reflects(chain, lib, store, sampleRate)
    ensures UpdateChain(chain, lib, store, sampleRate) == chain
  {
  }

  /** Whenever the flag is clear, the mirror chain reflects the store. */
  predicate Synced(c: Component, lib: Library, store: Store, sampleRate: real)
    requires Readable(store) && ButterworthShaped(lib)
  {
    !c.parametersChanged ==> Reflects(c.monoChain, lib, store, sampleRate)
  }

  /**
    The constructor registers the listeners, calls `updateChain` once
    unconditionally and starts the timer: the mirror reflects the store
    before any change has been seen, the flag is clear and nothing has been
    repainted.
   */
  function Construct(initial: MonoChain, lib: Library, store: Store, sampleRate: real): (c: Component)
    requires Readable(store) && ButterworthShaped(lib)
    ensures !c.parametersChanged && c.repaints == 0
    ensures Reflects(c.monoChain, lib, store, sampleRate)
    ensures Synced(c, lib, store, sampleRate)
  {
    Component(false, UpdateChain(initial, lib, store, sampleRate), 0)
  }

  /** `parameterValueChanged`: only raises the flag; the chain is not touched. */
  function ParameterValueChanged(c: Component): (r: Component)
    ensures r.parametersChanged
    ensures r.monoChain == c.monoChain && r.repaints == c.repaints
  {
    c.(parametersChanged := true)
  }

  /**
    `timerCallback`: if the flag is set, clear it, run `updateChain` and
    request one repaint; otherwise do nothing. Either way the flag is clear
    afterwards, and if the mirror was in sync it now reflects the store.
   */
  function TimerCallback(c: Component, lib: Library, store: Store, sampleRate: real): (r: Component)
    requires Readable(store) && ButterworthShaped(lib)
    ensures !r.parametersChanged
    ensures r.repaints == c.repaints + (if c.parametersChanged then 1 else 0)
    ensures c.parametersChanged ==> r.monoChain == UpdateChain(c.monoChain, lib, store, sampleRate)
    ensures !c.parametersChanged ==> r == c
    ensures Synced(c, lib, store, sampleRate) ==> Reflects(r.monoChain, lib, store, sampleRate)
  {
    if c.parametersChanged then
      Component(false, UpdateChain(c.monoChain, lib, store, sampleRate), c.repaints + 1)
    else
      c
  }

  /** What the component observes: a parameter moved (the store now reads as given), or the timer fired. */
  datatype Event = ParameterChanged(store: Store) | TimerTick

  predicate AllReadable(events: seq<Event>) {
    forall i :: 0 <= i < |events| && events[i].ParameterChanged? ==> Readable(events[i].store)
  }

  /** The store after a sequence of events: the one named by the last change, if any. */
  function StoreAfter(store: Store, events: seq<Event>): (s: Store)
    requires Readable(store) && AllReadable(events)
    ensures Readable(s)
    decreases |events|
  {
    if |events| == 0 then store
    else StoreAfter(if events[0].ParameterChanged? then events[0].store else store, events[1..])
  }

  function Ticks(events: seq<Event>): nat
    decreases |events|
  {
    if |events| == 0 then 0 else (if events[0].TimerTick? then 1 else 0) + Ticks(events[1..])
  }

  function Changes(events: seq<Event>): nat
    decreases |events|
  {
    if |events| == 0 then 0 else (if events[0].ParameterChanged? then 1 else 0) + Changes(events[1..])
  }

  /** Feeds the events to the component in order, each handler seeing the store as it stands at that point. */
  function Run(c: Component, lib: Library, store: Store, sampleRate: real, events: seq<Event>): (r: Component)
    requires Readable(store) && ButterworthShaped(lib) && AllReadable(events)
    ensures Synced(c, lib, store, sampleRate) ==> Synced(r, lib, StoreAfter(store, events), sampleRate)
    decreases |events|
  {
    if |events| == 0 then c
    else match events[0]
      case ParameterChanged(s) => Run(ParameterValueChanged(c), lib, s, sampleRate, events[1..])
      case TimerTick => Run(TimerCallback(c, lib, store, sampleRate), lib, store, sampleRate, events[1..])
  }

  /**
    The timer never repaints more often than it fires, nor more often than
    there were changes (plus one for a change already pending).
   */
  lemma {:induction false} RepaintsBounded(c: Component, lib: Library, store: Store, sampleRate: real, events: seq<Event>)
    requires Readable(store) && ButterworthShaped(lib) && AllReadable(events)
    ensures var r := Run(c, lib, store, sampleRate, events);
            && c.repaints <= r.repaints
            && r.repaints - c.repaints <= Ticks(events)
            && r.repaints - c.repaints <= Changes(events) + (if c.parametersChanged then 1 else 0)
    decreases |events|
  {
    if |events| > 0 {
      match events[0]
      case ParameterChanged(s) =>
        RepaintsBounded(ParameterValueChanged(c), lib, s, sampleRate, events[1..]);
      case TimerTick =>
        RepaintsBounded(TimerCallback(c, lib, store, sampleRate), lib, store, sampleRate, events[1..]);
    }
  }

  predicate AllChanges(events: seq<Event>) {
    forall i :: 0 <= i < |events| ==> events[i].ParameterChanged?
  }

  /**
    A burst of parameter changes raises the flag and does nothing else:
    the mirror chain and the repaint count are as before.
   */
  lemma {:induction false} BurstOnlyRaisesFlag(c: Component, lib: Library, store: Store, sampleRate: real, burst: seq<Event>)
    requires Readable(store) && ButterworthShaped(lib) && AllReadable(burst)
    requires AllChanges(burst) && |burst| > 0
    ensures Run(c, lib, store, sampleRate, burst) == c.(parametersChanged := true)
    decreases |burst|
  {
    var s := burst[0].store;
    if |burst| > 1 {
      BurstOnlyRaisesFlag(ParameterValueChanged(c), lib, s, sampleRate, burst[1..]);
    }
  }

  /**
    Any number of changes between two ticks coalesce: the tick after the
    burst runs `updateChain` exactly once, against the store as the last
    change left it, and requests exactly one repaint.
   */
  lemma BurstThenTickUpdatesOnce(c: Component, lib: Library, store: Store, sampleRate: real, burst: seq<Event>)
    requires Readable(store) && ButterworthShaped(lib) && AllReadable(burst)
    requires AllChanges(burst) && |burst| > 0
    ensures AllReadable(burst + [TimerTick])
    ensures var r := Run(c, lib, store, sampleRate, burst + [TimerTick]);
            && r.repaints == c.repaints + 1
            && !r.parametersChanged
            && r.monoChain == UpdateChain(c.monoChain, lib, StoreAfter(store, burst), sampleRate)
  {
    var events := burst + [TimerTick];
    assert AllReadable(events) by {
      forall i | 0 <= i < |events| && events[i].ParameterChanged?
        ensures Readable(events[i].store)
      {
        assert i < |burst| && events[i] == burst[i];
      }
    }
    RunAppend(c, lib, store, sampleRate, burst, [TimerTick]);
    BurstOnlyRaisesFlag(c, lib, store, sampleRate, burst);
    var raised := c.(parametersChanged := true);
    var last := StoreAfter(store, burst);
    assert Run(raised, lib, last, sampleRate, [TimerTick]) == TimerCallback(raised, lib, last, sampleRate);
  }

  /** Running two event sequences one after the other is running their concatenation. */
  lemma {:induction false} RunAppend(c: Component, lib: Library, store: Store, sampleRate: real, a: seq<Event>, b: seq<Event>)
    requires Readable(store) && ButterworthShaped(lib) && AllReadable(a) && AllReadable(b)
    ensures AllReadable(a + b)
    ensures StoreAfter(store, a + b) == StoreAfter(StoreAfter(store, a), b)
    ensures Run(c, lib, store, sampleRate, a + b)
         == Run(Run(c, lib, store, sampleRate, a), lib, StoreAfter(store, a), sampleRate, b)
    decreases |a|
  {
    assert AllReadable(a + b) by {
      forall i | 0 <= i < |a + b| && (a + b)[i].ParameterChanged?
        ensures Readable((a + b)[i].store)
      {
        if i < |a| { assert (a + b)[i] == a[i]; } else { assert (a + b)[i] == b[i - |a|]; }
      }
    }
    if |a| == 0 {
      assert a + b == b;
    } else {
      assert (a + b)[0] == a[0];
      assert (a + b)[1..] == a[1..] + b;
      match a[0]
      case ParameterChanged(s) =>
        RunAppend(ParameterValueChanged(c), lib, s, sampleRate, a[1..], b);
      case TimerTick =>
        RunAppend(TimerCallback(c, lib, store, sampleRate), lib, store, sampleRate, a[1..], b);
    }
  }

  /** Without changes, ticks leave a settled component exactly as it is. */
  lemma {:induction false} IdleTicksChangeNothing(c: Component, lib: Library, store: Store, sampleRate: real, events: seq<Event>)
    requires Readable(store) && ButterworthShaped(lib)
    requires !c.parametersChanged
    requires forall i :: 0 <= i < |events| ==> events[i].TimerTick?
    ensures AllReadable(events)
    ensures Run(c, lib, store, sampleRate, events) == c
    decreases |events|
  {
    if |events| > 0 {
      IdleTicksChangeNothing(c, lib, store, sampleRate, events[1..]);
    }
  }

  /**
    The display shows what the audio hears: when the float narrowing the
    processor applies leaves the sample rate unchanged, the mirror chain
    after `updateChain` sends a sample through the same sections as the
    processor's left chain after `updateFilters` from the same store,
    provided the processor's own chain-level flags are clear (it never
    sets them).
   */
  lemma MirrorMatchesProcessor(p: EqProcessor, chain: MonoChain, lib: Library, store: Store, sampleRate: real)
    requires Readable(store) && ButterworthShaped(lib)
    requires lib.toFloat(sampleRate) == sampleRate
    requires !p.leftChain.lowCutBypassed && !p.leftChain.peakBypassed && !p.leftChain.highCutBypassed
    ensures ProcessingSections(UpdateChain(chain, lib, store, sampleRate))
         == ProcessingSections(UpdateFilters(p, lib, store, sampleRate).leftChain)
  {
    var audio := UpdateFilters(p, lib, store, sampleRate).leftChain;
    ConfiguredChainsProcessAlike(lib, UpdateChain(chain, lib, store, sampleRate), audio, GetChainSettings(store), sampleRate);
  }

  /**
    Because the settings snapshot never has a bypass flag set, the curve
    after `updateChain` multiplies in the peak and slope + 1 sections from
    each cut bank.
   */
  lemma MirrorFactorCount(chain: MonoChain, lib: Library, store: Store, sampleRate: real)
    requires Readable(store) && ButterworthShaped(lib)
    ensures var cs := GetChainSettings(store);
            |MagnitudeFactors(UpdateChain(chain, lib, store, sampleRate))|
              == 1 + (cs.highCutSlope.Index() + 1) + (cs.lowCutSlope.Index() + 1)
  {
    var cs := GetChainSettings(store);
    FactorCount(lib, UpdateChain(chain, lib, store, sampleRate), cs, sampleRate);
  }

  /**
    The `paint` loop over the response area's columns: one magnitude per
    column, each the display's product at that column's frequency.
   */
  method ResponseMagnitudes(lib: Library, chain: MonoChain, freqs: seq<real>, sampleRate: real) returns (mags: seq<real>)
    ensures |mags| == |freqs|
    ensures forall i :: 0 <= i < |freqs| ==> mags[i] == Response(lib, MagnitudeFactors(chain), freqs[i], sampleRate)
  {
    mags := [];
    var i := 0;
    while i < |freqs|
      invariant 0 <= i <= |freqs| && |mags| == i
      invariant forall k :: 0 <= k < i ==> mags[k] == Response(lib, MagnitudeFactors(chain), freqs[k], sampleRate)
    {
      var mag := PaintMagnitude(lib, chain, freqs[i], sampleRate);
      mags := mags + [mag];
      i := i + 1;
    }
  }
}
