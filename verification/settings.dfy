/**
  The equalizer's parameters: the slope choice, the `ChainSettings` snapshot,
  the parameter layout the processor registers, the raw parameter store it
  reads, and `getChainSettings`, which turns one into the other.
 */
module Settings {
  import opened Text

  /** Cut-filter steepness: 12, 24, 36 or 48 dB per octave, choice indices 0..3. */
  datatype Slope = Slope12 | Slope24 | Slope36 | Slope48 {

    function Index(): (i: nat)
      ensures i < 4
      ensures SlopeOfIndex(i) == this
    {
      match this
      case Slope12 => 0
      case Slope24 => 1
      case Slope36 => 2
      case Slope48 => 3
    }
  }

  function SlopeOfIndex(i: nat): (s: Slope)
    requires i < 4
  {
    if i == 0 then Slope12 else if i == 1 then Slope24 else if i == 2 then Slope36 else Slope48
  }

  /** The enum value is the choice index: indices and slopes are in one-to-one correspondence. */
  lemma SlopeIndexRoundTrip(i: nat)
    requires i < 4
    ensures SlopeOfIndex(i).Index() == i
  {
  }

  /** A snapshot of every parameter the filter chain depends on. */
  datatype ChainSettings = ChainSettings(
    peakFreq: real, peakGainInDecibels: real, peakQ: real,
    lowCutFreq: real, highCutFreq: real,
    lowCutSlope: Slope, highCutSlope: Slope,
    lowCutBypassed: bool, highCutBypassed: bool, peakBypassed: bool)

  /** The member initialisers of `ChainSettings`. */
  function DefaultSettings(): ChainSettings {
    ChainSettings(0.0, 0.0, 1.0, 0.0, 0.0, Slope12, Slope12, false, false, false)
  }

  /**
    A default snapshot has Q 1, enables exactly one stage of each cut bank
    (the 12 dB/oct position) and bypasses nothing.
   */
  lemma DefaultSettingsValues()
    ensures var d := DefaultSettings();
            && d.peakQ == 1.0 && d.peakGainInDecibels == 0.0
            && d.lowCutSlope.Index() == 0 && d.highCutSlope.Index() == 0
            && !d.lowCutBypassed && !d.highCutBypassed && !d.peakBypassed
  {
  }

  // ---------------------------------------------------------------------------
  // Parameter layout

  const LowCutFreqId := "LowCut Freq"
  const HighCutFreqId := "HighCut Freq"
  const PeakFreqId := "Peak Freq"
  const PeakGainId := "Peak Gain"
  const PeakQId := "Peak Q"
  const LowCutSlopeId := "LowCut Slope"
  const HighCutSlopeId := "HighCut Slope"

  /** The seven parameter IDs in the order `createParameterLayout` adds them. */
  const ParameterIds: seq<string> :=
    [LowCutFreqId, HighCutFreqId, PeakFreqId, PeakGainId, PeakQId, LowCutSlopeId, HighCutSlopeId]

  /** No two parameters share an ID; only two pairs even have equal lengths. */
  lemma ParameterIdsDistinct()
    ensures forall i, j :: 0 <= i < j < |ParameterIds| ==> ParameterIds[i] != ParameterIds[j]
  {
    var lengths := [11, 12, 9, 9, 6, 12, 13];
    assert forall k :: 0 <= k < 7 ==> |ParameterIds[k]| == lengths[k];
    assert HighCutFreqId[0] != LowCutSlopeId[0];
    assert PeakFreqId[5] != PeakGainId[5];
  }

  datatype NormalisableRange = NormalisableRange(start: real, end: real, interval: real, skew: real)

  datatype ParameterDef =
    | FloatParameter(id: string, range: NormalisableRange, defaultValue: real)
    | ChoiceParameter(id: string, choices: seq<string>, defaultIndex: nat)

  /** A parameter's default value lies inside its range (a valid index, for a choice). */
  predicate DefaultInRange(p: ParameterDef) {
    match p
    case FloatParameter(_, range, d) => range.start <= d <= range.end
    case ChoiceParameter(_, choices, d) => d < |choices|
  }

  /** The label of slope choice `i`: the decimal text of 12 + 12 i, then "db/Oct". */
  function SlopeChoiceName(i: nat): string {
    Decimal(12 + i * 12) + "db/Oct"
  }

  /** The four slope choices, added in index order 0..3. */
  function SlopeChoices(): (choices: seq<string>)
    ensures |choices| == 4
    ensures forall i :: 0 <= i < 4 ==> choices[i] == SlopeChoiceName(i)
  {
    seq(4, i requires 0 <= i => SlopeChoiceName(i))
  }

  /** The choice labels are exactly "12db/Oct", "24db/Oct", "36db/Oct", "48db/Oct". */
  lemma SlopeChoiceLabels()
    ensures |SlopeChoices()| == 4
    ensures SlopeChoices()[0] == "12db/Oct" && SlopeChoices()[1] == "24db/Oct"
    ensures SlopeChoices()[2] == "36db/Oct" && SlopeChoices()[3] == "48db/Oct"
  {
    SlopeChoiceNameIs(0, 1, 2);
    SlopeChoiceNameIs(1, 2, 4);
    SlopeChoiceNameIs(2, 3, 6);
    SlopeChoiceNameIs(3, 4, 8);
    assert DigitChar(1) == '1' && DigitChar(2) == '2' && DigitChar(3) == '3' && DigitChar(4) == '4';
    assert DigitChar(6) == '6' && DigitChar(8) == '8';
  }

  /** Slope label `i` is the two digits of 12 + 12 i followed by "db/Oct". */
  lemma SlopeChoiceNameIs(i: nat, tens: nat, ones: nat)
    requires i < 4 && 0 < tens < 10 && ones < 10 && tens * 10 + ones == 12 + i * 12
    ensures SlopeChoiceName(i) == [DigitChar(tens), DigitChar(ones)] + "db/Oct"
  {
    var n := 12 + i * 12;
    assert n / 10 == tens && n % 10 == ones;
    assert Decimal(n) == Decimal(n / 10) + [DigitChar(n % 10)];
  }

  /** Position of `name` in `choices`, if it occurs. */
  function IndexOfChoice(choices: seq<string>, name: string): (r: int)
    ensures -1 <= r
    ensures r == -1 <==> name !in choices
    ensures 0 <= r ==> r < |choices| && choices[r] == name && name !in choices[..r]
    decreases |choices|
  {
    if |choices| == 0 then -1
    else if choices[0] == name then 0
    else
      var k := IndexOfChoice(choices[1..], name);
      if k == -1 then -1
      else
        assert choices[..k + 1] == [choices[0]] + choices[1..][..k];
        k + 1
  }

  /** In a list without repeats, looking up the i-th label gives back i. */
  lemma IndexOfDistinctChoice(choices: seq<string>, i: nat)
    requires i < |choices|
    requires forall j, k :: 0 <= j < k < |choices| ==> choices[j] != choices[k]
    ensures IndexOfChoice(choices, choices[i]) == i
  {
    var k := IndexOfChoice(choices, choices[i]);
  }

  /** Different slopes have different labels. */
  lemma SlopeChoiceNamesDistinct(j: nat, k: nat)
    requires j < k
    ensures SlopeChoiceName(j) != SlopeChoiceName(k)
  {
    if SlopeChoiceName(j) == SlopeChoiceName(k) {
      SuffixCancels(Decimal(12 + j * 12), Decimal(12 + k * 12), "db/Oct");
      DecimalInjective(12 + j * 12, 12 + k * 12);
    }
  }

  /** The slope labels are pairwise distinct, so a label names exactly one slope. */
  lemma SlopeChoiceNameIdentifiesSlope(i: nat)
    requires i < 4
    ensures IndexOfChoice(SlopeChoices(), SlopeChoiceName(i)) == i
  {
    var choices := SlopeChoices();
    forall j, k | 0 <= j < k < |choices|
      ensures choices[j] != choices[k]
    {
      SlopeChoiceNamesDistinct(j, k);
    }
    IndexOfDistinctChoice(choices, i);
  }

  lemma SuffixCancels(a: string, b: string, suffix: string)
    requires a + suffix == b + suffix
    ensures a == b
  {
    assert |a| == |b|;
    assert a == (a + suffix)[..|a|];
    assert b == (b + suffix)[..|b|];
  }

  /** No two parameters share an ID. */
  predicate DistinctIds(layout: seq<ParameterDef>) {
    forall i, j :: 0 <= i < j < |layout| ==> layout[i].id != layout[j].id
  }

  /** The parameters `createParameterLayout` registers, in order. */
  function Layout(): (layout: seq<ParameterDef>)
    ensures |layout| == |ParameterIds| && forall i :: 0 <= i < |layout| ==> layout[i].id == ParameterIds[i]
    ensures DistinctIds(layout)
  {
    ParameterIdsDistinct();
    var ids := ParameterIds;
    [ FloatParameter(ids[0], NormalisableRange(20.0, 20000.0, 1.0, 0.25), 20.0),
      FloatParameter(ids[1], NormalisableRange(20.0, 20000.0, 1.0, 0.25), 20000.0),
      FloatParameter(ids[2], NormalisableRange(20.0, 20000.0, 1.0, 0.25), 10000.0),
      FloatParameter(ids[3], NormalisableRange(-24.0, 24.0, 0.5, 1.0), 0.0),
      FloatParameter(ids[4], NormalisableRange(0.1, 10.0, 0.05, 1.0), 1.0),
      ChoiceParameter(ids[5], SlopeChoices(), 0),
      ChoiceParameter(ids[6], SlopeChoices(), 0) ]
  }

  /**
    Every default lies in its range: the frequencies in [20, 20000] with
    defaults 20, 20000 and 10000, the gain in [-24, 24] with default 0, Q in
    [0.1, 10] with default 1, and both slopes default to choice 0 of 4.
   */
  lemma LayoutDefaultsInRange()
    ensures forall i :: 0 <= i < |Layout()| ==> DefaultInRange(Layout()[i])
  {
    var layout := Layout();
    assert DefaultInRange(layout[0]) && DefaultInRange(layout[1]) && DefaultInRange(layout[2]);
    assert DefaultInRange(layout[3]) && DefaultInRange(layout[4]);
    assert |SlopeChoices()| == 4;
    assert DefaultInRange(layout[5]) && DefaultInRange(layout[6]);
  }

  // ---------------------------------------------------------------------------
  // Parameter store

  /** Raw parameter values by ID; a choice parameter's raw value is its index. */
  type Store = map<string, real>

  function RawDefault(p: ParameterDef): real {
    match p
    case FloatParameter(_, _, d) => d
    case ChoiceParameter(_, _, d) => d as real
  }

  /** The store as it stands before anything is changed: every parameter at its default. */
  function DefaultStore(layout: seq<ParameterDef>): (store: Store)
    requires DistinctIds(layout)
    ensures forall i :: 0 <= i < |layout| ==> layout[i].id in store && store[layout[i].id] == RawDefault(layout[i])
    ensures forall id :: id in store ==> exists i :: 0 <= i < |layout| && layout[i].id == id
  {
    map i | 0 <= i < |layout| :: layout[i].id := RawDefault(layout[i])
  }

  /** A raw slope value the cast to `Slope` is defined for. */
  predicate SlopeRaw(x: real) {
    0.0 <= x < 4.0
  }

  /** Every value `getChainSettings` loads is present, and the slopes are choice indices. */
  predicate Readable(store: Store) {
    && LowCutFreqId in store && HighCutFreqId in store && PeakFreqId in store
    && PeakGainId in store && PeakQId in store
    && LowCutSlopeId in store && HighCutSlopeId in store
    && SlopeRaw(store[LowCutSlopeId]) && SlopeRaw(store[HighCutSlopeId])
  }

  /** `static_cast<Slope>` of a raw choice value: truncation toward zero. */
  function SlopeOfRaw(x: real): (s: Slope)
    requires SlopeRaw(x)
    ensures s.Index() as real <= x < s.Index() as real + 1.0
  {
    SlopeOfIndex(x.Floor)
  }

  /**
    `getChainSettings`: starts from the struct defaults and loads the seven
    frequency, slope, Q and gain values. The three bypass fields are never
    loaded.
   */
  function GetChainSettings(store: Store): (cs: ChainSettings)
    requires Readable(store)
    ensures cs.lowCutFreq == store[LowCutFreqId] && cs.highCutFreq == store[HighCutFreqId]
    ensures cs.peakFreq == store[PeakFreqId] && cs.peakQ == store[PeakQId]
    ensures cs.peakGainInDecibels == store[PeakGainId]
    ensures cs.lowCutSlope.Index() == store[LowCutSlopeId].Floor
    ensures cs.highCutSlope.Index() == store[HighCutSlopeId].Floor
    ensures !cs.lowCutBypassed && !cs.highCutBypassed && !cs.peakBypassed
  {
    DefaultSettings().(
      lowCutFreq := store[LowCutFreqId],
      highCutFreq := store[HighCutFreqId],
      lowCutSlope := SlopeOfRaw(store[LowCutSlopeId]),
      highCutSlope := SlopeOfRaw(store[HighCutSlopeId]),
      peakFreq := store[PeakFreqId],
      peakQ := store[PeakQId],
      peakGainInDecibels := store[PeakGainId])
  }

  /** Two stores agree on the seven IDs `getChainSettings` reads (slopes up to truncation). */
  predicate AgreeOnReadIds(a: Store, b: Store)
    requires Readable(a) && Readable(b)
  {
    && a[LowCutFreqId] == b[LowCutFreqId] && a[HighCutFreqId] == b[HighCutFreqId]
    && a[PeakFreqId] == b[PeakFreqId] && a[PeakGainId] == b[PeakGainId] && a[PeakQId] == b[PeakQId]
    && a[LowCutSlopeId].Floor == b[LowCutSlopeId].Floor
    && a[HighCutSlopeId].Floor == b[HighCutSlopeId].Floor
  }

  /**
    Nothing outside the seven read IDs matters: in particular, a store that
    holds "Peak Bypassed", "LowCut Bypassed" or "HighCut Bypassed" at any
    value yields the same snapshot as one that does not.
   */
  lemma GetChainSettingsReadsOnlySevenIds(a: Store, b: Store)
    requires Readable(a) && Readable(b)
    ensures AgreeOnReadIds(a, b) <==> GetChainSettings(a) == GetChainSettings(b)
  {
    if AgreeOnReadIds(a, b) {
      assert SlopeOfRaw(a[LowCutSlopeId]) == SlopeOfRaw(b[LowCutSlopeId]);
      assert SlopeOfRaw(a[HighCutSlopeId]) == SlopeOfRaw(b[HighCutSlopeId]);
    }
  }

  /**
    Read before any change, the store gives the layout's defaults: low cut
    at 20 Hz, high cut at 20 kHz, peak at 10 kHz with 0 dB gain and Q 1,
    both slopes 12 dB/oct, nothing bypassed.
   */
  lemma DefaultStoreSettings()
    ensures Readable(DefaultStore(Layout()))
    ensures GetChainSettings(DefaultStore(Layout()))
         == ChainSettings(10000.0, 0.0, 1.0, 20.0, 20000.0, Slope12, Slope12, false, false, false)
  {
    var layout := Layout();
    var store := DefaultStore(layout);
    assert layout[0].id == LowCutFreqId && layout[1].id == HighCutFreqId && layout[2].id == PeakFreqId;
    assert layout[3].id == PeakGainId && layout[4].id == PeakQId;
    assert layout[5].id == LowCutSlopeId && layout[6].id == HighCutSlopeId;
    assert store[LowCutFreqId] == RawDefault(layout[0]) == 20.0;
    assert store[HighCutFreqId] == RawDefault(layout[1]) == 20000.0;
    assert store[PeakFreqId] == RawDefault(layout[2]) == 10000.0;
    assert store[PeakGainId] == RawDefault(layout[3]) == 0.0;
    assert store[PeakQId] == RawDefault(layout[4]) == 1.0;
    assert store[LowCutSlopeId] == RawDefault(layout[5]) == 0.0;
    assert store[HighCutSlopeId] == RawDefault(layout[6]) == 0.0;
  }
}
