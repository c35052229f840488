/**
  The text the editor shows: the value under each rotary slider and the
  frequency and gain labels along the response curve's axes.
 */
module Labels {
  import opened Settings

  /**
    Number-to-text conversion is JUCE's and is left uninterpreted:
    `fixed(v, d)` is `juce::String(v, d)`, which writes d decimal places
    when d > 0 and falls back to the standard library's default format when
    d is 0; `shortest(v)` is `juce::String << float`, also in that default
    format (so a large value may come out in exponent form, as "1e+06").
   */
  datatype Formatter = Formatter(fixed: (real, int) -> string, shortest: real -> string)

  /**
    The text of a number as the default format writes it: non-empty, with
    no leading '+' (a positive number carries no sign) and no 'k' (digits,
    '.', '-', and the exponent forms "e+06" or "e-05"; "inf" and "nan").
   */
  predicate PlainNumber(s: string) {
    |s| > 0 && s[0] != '+' && 'k' !in s
  }

  /** Every text the formatter produces is a plain number. */
  ghost predicate WritesPlainNumbers(fmt: Formatter) {
    && (forall v, d :: PlainNumber(fmt.fixed(v, d)))
    && (forall v :: PlainNumber(fmt.shortest(v)))
  }

  /** The parameter behind a slider, as `getDisplayString` tells them apart by dynamic type. */
  datatype SliderValue =
    | ChoiceValue(currentChoiceName: string)
    | FloatValue(value: real)
    | OtherValue

  /** Values of a thousand or more are shown in thousands. */
  predicate InThousands(value: real) {
    value >= 1000.0
  }

  /** The number a float slider shows: its value, divided by 1000 when it is shown in thousands. */
  function ShownValue(value: real): (shown: real)
    ensures InThousands(value) ==> shown * 1000.0 == value && shown >= 1.0
    ensures !InThousands(value) ==> shown == value
  {
    if InThousands(value) then value / 1000.0 else value
  }

  /** Two decimals for a value shown in thousands, none otherwise. */
  function Decimals(value: real): (d: int)
    ensures d == 0 || d == 2
    ensures d == 2 <==> InThousands(value)
  {
    if InThousands(value) then 2 else 0
  }

  /** What follows the number: nothing without a suffix, else a space, "k" for thousands, and the suffix. */
  function UnitText(thousands: bool, suffix: string): (u: string)
    ensures suffix == [] ==> u == []
    ensures suffix != [] ==> |u| > |suffix| && u[0] == ' ' && u[|u| - |suffix|..] == suffix
  {
    if suffix == [] then [] else " " + (if thousands then "k" else "") + suffix
  }

  /**
    `RotarySliderWithLabels::getDisplayString`: a choice parameter shows its
    current choice name and nothing else; a float parameter shows its value
    (in thousands, with a decimal count of 2, from 1000 up; below 1000 with
    a count of 0, which JUCE treats as its default formatting);
    any other parameter shows no number. With a non-empty suffix a space, a
    "k" if the value was divided, and the suffix follow.
   */
  function DisplayString(fmt: Formatter, param: SliderValue, suffix: string): (s: string)
    ensures param.ChoiceValue? ==> s == param.currentChoiceName
    ensures param.FloatValue? ==>
              s == fmt.fixed(ShownValue(param.value), Decimals(param.value))
                   + UnitText(InThousands(param.value), suffix)
    ensures param.OtherValue? ==> s == UnitText(false, suffix)
  {
    match param
    case ChoiceValue(name) => name
    case FloatValue(value) =>
      var addK := InThousands(value);
      var str := fmt.fixed(if addK then value / 1000.0 else value, if addK then 2 else 0);
      str + (if suffix != [] then " " + (if addK then "k" else "") + suffix else [])
    case OtherValue =>
      if suffix != [] then " " + suffix else []
  }

  /**
    Reads the unit text back: whether it marks thousands, and the suffix.
    Inverts `UnitText` for every suffix that does not start with 'k'.
   */
  function ParseUnitText(u: string): (thousandsAndSuffix: (bool, string)) {
    if |u| == 0 then (false, [])
    else if |u| >= 2 && u[1] == 'k' then (true, u[2..])
    else (false, u[1..])
  }

  lemma UnitTextRoundTrip(thousands: bool, suffix: string)
    requires suffix == [] || suffix[0] != 'k'
    ensures ParseUnitText(UnitText(thousands, suffix)) == (thousands && suffix != [], suffix)
  {
    if suffix != [] {
      var u := UnitText(thousands, suffix);
      if thousands {
        assert u == [' ', 'k'] + suffix;
        assert u[2..] == suffix;
      } else {
        assert u == [' '] + suffix;
        assert u[1..] == suffix;
      }
    }
  }

  /**
    The text of a float slider splits back into the number shown and what
    the number means: reading the unit text after the number gives the
    suffix, and the shown number times 1000 for a "k" (times 1 otherwise)
    is the slider's value. "k" appears only with a non-empty suffix, so a
    suffix-less slider at 1000 or more shows the divided value with no
    marker at all.
   */
  lemma FloatDisplayRoundTrip(fmt: Formatter, value: real, suffix: string)
    requires suffix == [] || suffix[0] != 'k'
    ensures var s := DisplayString(fmt, FloatValue(value), suffix);
            var number := fmt.fixed(ShownValue(value), Decimals(value));
            var (thousands, unit) := ParseUnitText(s[|number|..]);
            && s[..|number|] == number
            && unit == suffix
            && (thousands <==> InThousands(value) && suffix != [])
            && ((if thousands then ShownValue(value) * 1000.0 else ShownValue(value)) == value <==>
                  (thousands || !InThousands(value)))
  {
    var s := DisplayString(fmt, FloatValue(value), suffix);
    var number := fmt.fixed(ShownValue(value), Decimals(value));
    var u := UnitText(InThousands(value), suffix);
    assert s == number + u;
    assert s[|number|..] == u;
    assert s[..|number|] == number;
    UnitTextRoundTrip(InThousands(value), suffix);
  }

  /**
    With plain numbers from the formatter and a suffix free of 'k', the display
    holds a "k" exactly when the value is at least 1000 and the slider has a
    suffix.
   */
  lemma ThousandsMarkerIff(fmt: Formatter, value: real, suffix: string)
    requires WritesPlainNumbers(fmt) && 'k' !in suffix
    ensures 'k' in DisplayString(fmt, FloatValue(value), suffix) <==> InThousands(value) && suffix != []
  {
    var s := DisplayString(fmt, FloatValue(value), suffix);
    var number := fmt.fixed(ShownValue(value), Decimals(value));
    assert PlainNumber(number);
    if InThousands(value) && suffix != [] {
      assert s[|number| + 1] == 'k';
    } else {
      var u := UnitText(false, suffix);
      assert s == number + u;
      forall i | 0 <= i < |s|
        ensures s[i] != 'k'
      {
        if i < |number| {
          assert s[i] == number[i];
        } else {
          assert s[i] == u[i - |number|];
          if suffix != [] {
            assert u == [' '] + suffix;
          }
        }
      }
    }
  }

  /** The slope sliders are choice sliders: they show the choice name, "12db/Oct" and so on, and not their own "dB/Oct" suffix. */
  lemma SlopeSliderShowsChoiceName(fmt: Formatter, slope: Slope)
    ensures DisplayString(fmt, ChoiceValue(SlopeChoices()[slope.Index()]), "dB/Oct")
         == SlopeChoiceName(slope.Index())
  {
  }

  /** A frequency-axis label: thousands get a "k"; "Hz" always follows. */
  function FrequencyLabel(fmt: Formatter, f: real): (s: string)
    ensures |s| >= 2 && s[|s| - 2..] == "Hz"
    ensures s == fmt.shortest(ShownValue(f)) + (if InThousands(f) then "k" else "") + "Hz"
  {
    var addK := InThousands(f);
    var shown := if addK then f / 1000.0 else f;
    fmt.shortest(shown) + (if addK then "k" else "") + "Hz"
  }

  /** With plain-number output, a frequency label has a "k" before "Hz" exactly when the frequency is 1000 or more. */
  lemma FrequencyLabelMarksThousands(fmt: Formatter, f: real)
    requires WritesPlainNumbers(fmt)
    ensures var s := FrequencyLabel(fmt, f);
            |s| >= 3 && (s[|s| - 3] == 'k' <==> InThousands(f))
  {
    var number := fmt.shortest(ShownValue(f));
    assert PlainNumber(number);
    var s := FrequencyLabel(fmt, f);
    if !InThousands(f) {
      assert s == number + "Hz";
      assert s[|s| - 3] == number[|number| - 1];
    }
  }

  /**
    A gain-axis label: the gain as the formatter writes it, preceded by at
    most one extra character, a '+', which is there exactly for a positive
    gain.
   */
  function GainLabel(fmt: Formatter, gain: real): (s: string)
    ensures |fmt.shortest(gain)| <= |s| <= |fmt.shortest(gain)| + 1
    ensures s[|s| - |fmt.shortest(gain)|..] == fmt.shortest(gain)
    ensures |s| > |fmt.shortest(gain)| <==> gain > 0.0
    ensures |s| > |fmt.shortest(gain)| ==> s[0] == '+'
  {
    (if gain > 0.0 then "+" else "") + fmt.shortest(gain)
  }

  /** With plain-number output, a gain label starts with '+' exactly for positive gains, and without the sign it is the plain number. */
  lemma GainLabelSign(fmt: Formatter, gain: real)
    requires WritesPlainNumbers(fmt)
    ensures var s := GainLabel(fmt, gain);
            && |s| > 0
            && (s[0] == '+' <==> gain > 0.0)
            && (if s[0] == '+' then s[1..] else s) == fmt.shortest(gain)
  {
    var number := fmt.shortest(gain);
    assert PlainNumber(number);
    var s := GainLabel(fmt, gain);
    if gain > 0.0 {
      assert s[1..] == number;
    } else {
      assert s[0] == number[0];
    }
  }

  /** The frequencies that get a grid line and a label (30, 40, 300, 400, 3000 and 4000 are left out as they collide). */
  const FrequencyGrid: seq<real> := [20.0, 50.0, 100.0, 200.0, 500.0, 1000.0, 2000.0, 5000.0, 10000.0, 20000.0]

  /** The gains, in dB, that get a grid line and a label. */
  const GainGrid: seq<real> := [-24.0, -12.0, 0.0, 12.0, 24.0]

  /** The spectrum-analyser scale at the left edge, in dB, one value per gain grid line. */
  const AnalyserScale: seq<real> := [-48.0, -36.0, -24.0, -12.0, 0.0]

  /** The analyser scale is the gain grid shifted down by 24 dB, line by line. */
  lemma AnalyserScaleIsShiftedGrid()
    ensures |AnalyserScale| == |GainGrid|
    ensures forall i :: 0 <= i < |GainGrid| ==> AnalyserScale[i] == GainGrid[i] - 24.0
  {
  }

  /** The frequency-label loop of the curve's `resized`: one label per frequency grid line, in grid order. */
  method FrequencyAxisLabels(fmt: Formatter) returns (freqLabels: seq<string>)
    ensures |freqLabels| == |FrequencyGrid|
    ensures forall i :: 0 <= i < |FrequencyGrid| ==> freqLabels[i] == FrequencyLabel(fmt, FrequencyGrid[i])
  {
    freqLabels := [];
    var i := 0;
    while i < |FrequencyGrid|
      invariant 0 <= i <= |FrequencyGrid| && |freqLabels| == i
      invariant forall k :: 0 <= k < i ==> freqLabels[k] == FrequencyLabel(fmt, FrequencyGrid[k])
    {
      var f := FrequencyGrid[i];
      var addK := false;
      if f >= 1000.0 {
        addK := true;
        f := f / 1000.0;
      }
      var str := fmt.shortest(f);
      if addK {
        str := str + "k";
      }
      str := str + "Hz";
      assert str == FrequencyLabel(fmt, FrequencyGrid[i]);
      freqLabels := freqLabels + [str];
      i := i + 1;
    }
  }

  /**
    The gain-label loop of the curve's `resized`: per gain grid line, in
    grid order, a gain label and an analyser-scale label.
   */
  method GainAxisLabels(fmt: Formatter) returns (gainLabels: seq<string>, analyserLabels: seq<string>)
    ensures |gainLabels| == |analyserLabels| == |GainGrid|
    ensures forall i :: 0 <= i < |GainGrid| ==> gainLabels[i] == GainLabel(fmt, GainGrid[i])
    ensures forall i :: 0 <= i < |GainGrid| ==> analyserLabels[i] == fmt.shortest(AnalyserScale[i])
  {
    AnalyserScaleIsShiftedGrid();
    gainLabels := [];
    analyserLabels := [];
    var j := 0;
    while j < |GainGrid|
      invariant 0 <= j <= |GainGrid| && |gainLabels| == j && |analyserLabels| == j
      invariant forall k :: 0 <= k < j ==> gainLabels[k] == GainLabel(fmt, GainGrid[k])
      invariant forall k :: 0 <= k < j ==> analyserLabels[k] == fmt.shortest(AnalyserScale[k])
    {
      var gdB := GainGrid[j];
      var str := "";
      if gdB > 0.0 {
        str := str + "+";
      }
      str := str + fmt.shortest(gdB);
      assert str == GainLabel(fmt, gdB);
      gainLabels := gainLabels + [str];
      analyserLabels := analyserLabels + [fmt.shortest(gdB - 24.0)];
      j := j + 1;
    }
  }

  /**
    The label loops of the curve's `resized`: one frequency label per
    frequency grid line, and a gain label and an analyser label per gain
    grid line, in grid order.
   */
  method AxisLabels(fmt: Formatter) returns (freqLabels: seq<string>, gainLabels: seq<string>, analyserLabels: seq<string>)
    ensures |freqLabels| == |FrequencyGrid| && |gainLabels| == |analyserLabels| == |GainGrid|
    ensures forall i :: 0 <= i < |FrequencyGrid| ==> freqLabels[i] == FrequencyLabel(fmt, FrequencyGrid[i])
    ensures forall i :: 0 <= i < |GainGrid| ==> gainLabels[i] == GainLabel(fmt, GainGrid[i])
    ensures forall i :: 0 <= i < |GainGrid| ==> analyserLabels[i] == fmt.shortest(AnalyserScale[i])
  {
    freqLabels := FrequencyAxisLabels(fmt);
    gainLabels, analyserLabels := GainAxisLabels(fmt);
  }

  /**
    On the grid, the labels from 1 kHz up (the last five) carry the "k" and
    show 1, 2, 5, 10 and 20; of the gains only +12 and +24 get a '+'.
   */
  lemma GridLabels(fmt: Formatter)
    requires WritesPlainNumbers(fmt)
    ensures forall i :: 0 <= i < |FrequencyGrid| ==>
              var s := FrequencyLabel(fmt, FrequencyGrid[i]);
              |s| >= 3 && (s[|s| - 3] == 'k' <==> i >= 5)
    ensures [ShownValue(FrequencyGrid[5]), ShownValue(FrequencyGrid[6]), ShownValue(FrequencyGrid[7]),
             ShownValue(FrequencyGrid[8]), ShownValue(FrequencyGrid[9])] == [1.0, 2.0, 5.0, 10.0, 20.0]
    ensures forall i :: 0 <= i < |GainGrid| ==> (GainLabel(fmt, GainGrid[i])[0] == '+' <==> i >= 3)
  {
    forall i | 0 <= i < |FrequencyGrid|
      ensures var s := FrequencyLabel(fmt, FrequencyGrid[i]);
              |s| >= 3 && (s[|s| - 3] == 'k' <==> i >= 5)
    {
      FrequencyLabelMarksThousands(fmt, FrequencyGrid[i]);
    }
    forall i | 0 <= i < |GainGrid|
      ensures GainLabel(fmt, GainGrid[i])[0] == '+' <==> i >= 3
    {
      GainLabelSign(fmt, GainGrid[i]);
    }
  }
}
