# SimpleEQ: a Dafny model of the equalizer's filter configuration

SimpleEQ is a stereo equalizer plugin built on JUCE. Each channel runs its
own `MonoChain`, which has three positions in processing order:

- a **low-cut** bank of four biquad stages;
- one **peak** biquad;
- a **high-cut** bank of four biquad stages.

At the start of every audio block the processor takes a `ChainSettings`
snapshot of seven parameters: three frequencies, peak gain, peak Q, and two
slopes. From it the processor asks the filter-design library for new
coefficients and copies them into both chains. `updateCutFilter` turns a
slope (12, 24, 36 or 48 dB/oct) into "the first slope + 1 stages enabled,
each with its own section of the Butterworth design".

The editor keeps a private mirror chain of its own. A listener on every
parameter sets a dirty flag. A 60 Hz timer clears the flag, rebuilds the
mirror and asks for a repaint. `paint` multiplies the magnitudes of the
mirror's enabled sections into one response value per pixel column. The
slider texts and axis labels are built from parameter values with a
"k"-for-thousands rule.

The model has eight modules, one per file:

| module | file | what it holds |
|---|---|---|
| `Dsp` | `dsp.dfy` | the JUCE calls the core relies on, as function-valued fields of `Library`; `updateCoefficients` over a heap of shared coefficient objects |
| `Text` | `text.dfy` | decimal text of an integer and its parser |
| `Settings` | `settings.dfy` | `Slope`, `ChainSettings`, the parameter layout, the raw parameter store, `getChainSettings` |
| `CutFilter` | `cutfilter.dfy` | the four-stage bank and `updateCutFilter` with its fall-through switch |
| `Chain` | `chain.dfy` | `MonoChain`, the design requests, the magnitude product |
| `Processor` | `processor.dfy` | `updatePeakFilter`, `updateHighCutFilters`, `updateLowCutFilters`, `updateFilters`, `processBlock` |
| `ResponseCurve` | `responsecurve.dfy` | the editor's dirty flag, timer, `updateChain` and the paint loop |
| `Labels` | `labels.dfy` | `getDisplayString` and the axis labels |

Each library call the core makes is a function parameter of the model, not
something it computes. This covers:

- the Butterworth and peak filter designs;
- `Decibels::decibelsToGain`;
- `getMagnitudeForFrequency`;
- the double-to-float narrowing;
- double multiplication;
- number-to-text conversion.

Two assumptions are stated as predicates and required only where they are
needed:

- `ButterworthShaped`: a design of even order n has n/2 sections.
- `ExactArithmetic`: multiplication has unit 1 and is commutative and associative.

## Model

| member | source | states |
|---|---|---|
| Dsp.UpdateCoefficients | Source/PluginProcessor.cpp:310-313 | only the target object's contents change; they become the replacement's contents; no object is added or removed |
| Dsp.StereoCopiesAreIndependent | Source/PluginProcessor.cpp:300-308 | after the same design is copied into the left and right objects, both hold it; a later copy into the left object leaves the right one unchanged |
| Text.Decimal | Source/PluginProcessor.cpp:268-269 | the text of an integer is a non-empty run of digits with no leading zero |
| Text.ParseDecimalInvertsDecimal | Source/PluginProcessor.cpp:268-269 | reading the written number back gives the number |
| Text.DecimalInjective | Source/PluginProcessor.cpp:268-269 | different numbers are written differently |
| Settings.Slope.Index | Source/PluginProcessor.h:16-22 | each slope is a choice index below 4, and the index maps back to the same slope |
| Settings.SlopeIndexRoundTrip | Source/PluginProcessor.h:16-22 | every index below 4 names a slope whose index is that number |
| Settings.DefaultSettingsValues | Source/PluginProcessor.h:24-31 | a fresh snapshot has Q 1, gain 0, both slopes at 12 dB/oct (index 0), and no bypass flag set |
| Settings.ParameterIdsDistinct | Source/PluginProcessor.cpp:252-277 | the seven registered parameter IDs are pairwise distinct |
| Settings.SlopeChoices | Source/PluginProcessor.cpp:264-272 | four choices; choice i is the decimal text of 12 + 12 i followed by "db/Oct" |
| Settings.SlopeChoiceLabels | Source/PluginProcessor.cpp:264-272 | the choices are exactly "12db/Oct", "24db/Oct", "36db/Oct", "48db/Oct", in that order |
| Settings.SlopeChoiceNameIs | Source/PluginProcessor.cpp:268-270 | a slope label is the two digits of 12 + 12 i followed by "db/Oct" |
| Settings.SlopeChoiceNamesDistinct | Source/PluginProcessor.cpp:266-272 | different slope indices get different labels |
| Settings.SlopeChoiceNameIdentifiesSlope | Source/PluginProcessor.cpp:264-277 | a slope's label selects that slope's index in the choice parameter |
| Settings.Layout | Source/PluginProcessor.cpp:248-282 | seven parameters in registration order with the expected IDs; no two share an ID |
| Settings.LayoutDefaultsInRange | Source/PluginProcessor.cpp:252-277 | every registered default lies inside its parameter's range; both slope defaults are valid choice indices |
| Settings.DefaultStore | Source/PluginProcessor.cpp:248-282 | an unchanged store holds exactly the layout's IDs, each at its default |
| Settings.SlopeOfRaw | Source/PluginProcessor.cpp:290-291 | a raw choice value becomes the slope whose index is its integer part |
| Settings.GetChainSettings | Source/PluginProcessor.cpp:285-297 | the snapshot holds the store's five float values and the truncated slopes; the three bypass fields stay false |
| Settings.GetChainSettingsReadsOnlySevenIds | Source/PluginProcessor.cpp:285-297 | two stores give the same snapshot exactly when they agree on the seven IDs read, with slopes compared after truncation; the bypass IDs are never read |
| Settings.DefaultStoreSettings | Source/PluginProcessor.cpp:252-277 | an unchanged store reads as low cut 20 Hz, high cut 20 kHz, peak 10 kHz at 0 dB with Q 1, both slopes 12 dB/oct, nothing bypassed |
| CutFilter.SetBypassed | Source/PluginProcessor.h:73 | only the named stage's flag changes |
| CutFilter.Update | Source/PluginProcessor.h:69-74 | stage Index gets section Index of the design and is enabled; no other stage changes |
| CutFilter.BypassAll | Source/PluginProcessor.h:84-87 | all four stages are bypassed and their coefficients are kept |
| CutFilter.FallThrough | Source/PluginProcessor.h:89-107 | entering the switch at case k enables stages 0..k, each with its own section; stages above k are untouched |
| CutFilter.UpdateCutFilter | Source/PluginProcessor.h:78-110 | stage j is bypassed exactly when j > slope; an enabled stage j holds section j; a disabled stage keeps its old coefficients |
| CutFilter.UpdateCutFilterIsConfigured | Source/PluginProcessor.h:78-110 | the switch with fall-through equals the direct stage-by-stage definition `Configured` |
| CutFilter.ConfigureStages | Source/PluginProcessor.h:84-107 | a loop over stages 0..slope gives the same bank as the switch |
| CutFilter.UpdateCutFilterIdempotent | Source/PluginProcessor.h:78-110 | configuring twice with the same design and slope equals configuring once |
| CutFilter.ActiveSectionsAfterUpdate | Source/PluginProcessor.h:89-107 | the enabled stages hold exactly the first slope + 1 designed sections, in order |
| CutFilter.SectionsOfPrefixEnabled | Source/PluginProcessor.h:89-107 | in a bank with stages 0..k enabled, the enabled sections among the first n stages are a prefix of the design |
| CutFilter.LoweringSlopeOnlyDisables | Source/PluginProcessor.h:84-107 | lowering the slope keeps every stage's coefficients and leaves exactly the first slope + 1 sections of the design enabled |
| Chain.CutOrder | Source/PluginProcessor.h:54-62 | the requested order is even, between 2 and 8, and half of it is the number of stages the slope enables |
| Chain.MakeHighCutFilter | Source/PluginProcessor.h:54-57 | the high-cut design is a lowpass with exactly one section per stage the slope enables |
| Chain.MakeLowCutFilter | Source/PluginProcessor.h:59-62 | the low-cut design is a highpass with exactly one section per stage the slope enables |
| Chain.ConfiguredChainsProcessAlike | Source/PluginProcessor.h:78-110 | two chains configured from one snapshot, with equal chain-level flags, send a sample through the same sections and multiply the same factors, whatever their unused stages hold |
| Chain.MagnitudeAppend | Source/PluginEditor.cpp:283-317 | multiplying in two cascades one after the other equals multiplying in their concatenation |
| Chain.MagnitudeScales | Source/PluginEditor.cpp:283-317 | with exact arithmetic, the starting value factors out of the product |
| Chain.ResponseAppend | Source/PluginEditor.cpp:283-317 | with exact arithmetic, the response of two cascades in series is the product of their responses |
| Chain.MultiplyStages | Source/PluginEditor.cpp:291-303 | the four guarded products over one bank multiply in exactly the enabled sections, in stage order; with every stage bypassed the value is unchanged |
| Chain.PaintMagnitude | Source/PluginEditor.cpp:283-317 | the magnitude at one frequency is the product, from 1, of every section not bypassed (peak, then high cut, then low cut); with all three positions bypassed it is exactly 1 |
| Chain.DisplayMatchesProcessing | Source/PluginEditor.cpp:283-317 | with exact arithmetic, the display's product in its own order equals the response of the sections in processing order |
| Chain.BypassedPeakRemovesItsFactor | Source/PluginEditor.cpp:287-288 | with exact arithmetic, bypassing the peak removes exactly the peak's magnitude factor |
| Chain.FactorCount | Source/PluginEditor.cpp:287-317 | a configured chain contributes 1 factor for the peak plus slope + 1 per cut bank, each only when not bypassed |
| Processor.UpdatePeakFilter | Source/PluginProcessor.cpp:300-308 | both chains get the same peak design, `Chain.MakePeakFilter`: the library's peak filter at the snapshot's frequency and Q, with the gain converted from dB to linear; nothing else changes |
| Processor.UpdateHighCutFilters | Source/PluginProcessor.cpp:112-124 | both high-cut banks enable exactly the lowpass design's sections, with bypass flags j > slope; a disabled stage keeps its old coefficients; nothing else changes |
| Processor.UpdateLowCutFilters | Source/PluginProcessor.cpp:126-139 | both low-cut banks enable exactly the highpass design's sections, with bypass flags j > slope; a disabled stage keeps its old coefficients; nothing else changes |
| Processor.UpdateFilters | Source/PluginProcessor.cpp:141-153 | both chains end up configured from the store's snapshot at the float-narrowed sample rate; only the three positions change |
| Processor.UpdateFiltersAlignsChannels | Source/PluginProcessor.cpp:141-153 | after an update the left and right chains hold the same peak, the same enabled stages and the same sections, from any prior state; with matching chain flags they process alike |
| Processor.UpdateFiltersKeepsIdenticalChannels | Source/PluginProcessor.cpp:141-153 | identical channels stay identical |
| Processor.UpdateFiltersIdempotent | Source/PluginProcessor.cpp:141-153 | updating again from the same store and rate changes nothing |
| Processor.UpdateFiltersReadsOnlySevenIds | Source/PluginProcessor.cpp:141-153 | stores that agree on the seven read IDs configure the same chains |
| Processor.ClearUnusedOutputs | Source/PluginProcessor.cpp:199-200 | output channels numIn..numOut-1 become silence of their own length; every other channel is kept |
| Processor.ProcessBlock | Source/PluginProcessor.cpp:187-220 | unused outputs are cleared, then the filters are updated, then channel 0 goes through the updated left chain and channel 1 through the updated right chain; other channels pass through |
| ResponseCurve.UpdateChain | Source/PluginEditor.cpp:241-260 | the mirror afterwards reflects the store: chain flags copied from the snapshot, peak set to `Chain.MakePeakFilter` of it, and both banks configured from it, all at the editor's sample rate |
| ResponseCurve.UpdateChainFixesReflecting | Source/PluginEditor.cpp:241-260 | a mirror that already reflects the store is left as it is |
| ResponseCurve.Construct | Source/PluginEditor.cpp:204-215 | a new component has no pending change, no repaint, and a mirror that reflects the store |
| ResponseCurve.ParameterValueChanged | Source/PluginEditor.cpp:227-230 | the listener only raises the flag; the mirror and the repaint count stay |
| ResponseCurve.TimerCallback | Source/PluginEditor.cpp:232-239 | a tick clears the flag; if the flag was set, it rebuilds the mirror and requests one repaint; if it was clear, nothing changes; a synced component then reflects the store |
| ResponseCurve.Run | Source/PluginEditor.cpp:227-239 | any sequence of changes and ticks keeps the component synced: whenever the flag is clear, the mirror reflects the current store |
| ResponseCurve.RepaintsBounded | Source/PluginEditor.cpp:232-239 | repaints never decrease; they grow by at most the number of ticks, and by at most the number of changes plus one for a change already pending |
| ResponseCurve.BurstOnlyRaisesFlag | Source/PluginEditor.cpp:227-230 | a burst of changes only raises the flag |
| ResponseCurve.BurstThenTickUpdatesOnce | Source/PluginEditor.cpp:227-239 | a burst of changes followed by one tick gives exactly one repaint and a mirror built from the last store |
| ResponseCurve.RunAppend | Source/PluginEditor.cpp:227-239 | running two event sequences in turn equals running their concatenation |
| ResponseCurve.IdleTicksChangeNothing | Source/PluginEditor.cpp:232-239 | ticks with no pending change leave the component as it is |
| ResponseCurve.MirrorMatchesProcessor | Source/PluginEditor.cpp:241-260 | when float narrowing keeps the sample rate and the processor's chain flags are clear, the mirror and the processor's left chain pass a sample through the same sections |
| ResponseCurve.MirrorFactorCount | Source/PluginEditor.cpp:283-317 | after `updateChain` the curve multiplies in the peak plus slope + 1 sections from each cut bank |
| ResponseCurve.ResponseMagnitudes | Source/PluginEditor.cpp:277-319 | one magnitude per requested frequency, each the response of the mirror's unbypassed sections |
| Labels.ShownValue | Source/PluginEditor.cpp:184-188 | from 1000 up the shown number is the value over 1000 (and at least 1); below 1000 it is the value |
| Labels.Decimals | Source/PluginEditor.cpp:189 | the decimal count passed on is 2 exactly when the value is shown in thousands, and otherwise 0, which JUCE treats as its default formatting |
| Labels.UnitText | Source/PluginEditor.cpp:193-199 | with no suffix nothing follows the number; otherwise a space starts the unit text and the suffix ends it |
| Labels.DisplayString | Source/PluginEditor.cpp:175-201 | a choice slider shows its current choice name alone; a float slider shows the formatted number and then the unit text; any other slider shows only the unit text |
| Labels.UnitTextRoundTrip | Source/PluginEditor.cpp:193-199 | for suffixes not starting with "k", the unit text parses back into its thousands mark and suffix |
| Labels.FloatDisplayRoundTrip | Source/PluginEditor.cpp:182-199 | a float slider's text splits into the number and the unit text; the number, scaled by the "k" mark, gives back the value unless the value is 1000 or more and there is no suffix |
| Labels.ThousandsMarkerIff | Source/PluginEditor.cpp:182-199 | with plain-number formatting and a suffix free of "k", the text contains "k" exactly when the value is at least 1000 and the suffix is non-empty |
| Labels.SlopeSliderShowsChoiceName | Source/PluginEditor.cpp:177-179 | the slope sliders show the choice name ("12db/Oct" and so on), not their own "dB/Oct" suffix |
| Labels.FrequencyLabel | Source/PluginEditor.cpp:415-425 | a frequency label always ends in "Hz" and shows the number divided by 1000, with a "k", from 1000 up |
| Labels.FrequencyLabelMarksThousands | Source/PluginEditor.cpp:415-425 | with plain-number formatting, the character before "Hz" is "k" exactly when the frequency is at least 1000 |
| Labels.GainLabel | Source/PluginEditor.cpp:443-446 | a gain label ends with the formatted gain and has at most one character before it, a "+", present exactly when the gain is positive |
| Labels.GainLabelSign | Source/PluginEditor.cpp:443-446 | with plain-number formatting, a gain label starts with "+" exactly for positive gains, and without it reads as the plain number |
| Labels.AnalyserScaleIsShiftedGrid | Source/PluginEditor.cpp:464-465 | the analyser scale -48, -36, -24, -12, 0 is the gain grid shifted down by 24 dB, line by line |
| Labels.FrequencyAxisLabels | Source/PluginEditor.cpp:410-437 | one frequency label per frequency grid line, in grid order |
| Labels.GainAxisLabels | Source/PluginEditor.cpp:439-474 | one gain label per gain grid line, in grid order, and an analyser label showing -48, -36, -24, -12 and 0 dB |
| Labels.AxisLabels | Source/PluginEditor.cpp:410-474 | one frequency label per frequency grid line and a gain label per gain grid line, in grid order; the analyser labels are the texts of -48, -36, -24, -12 and 0 dB |
| Labels.GridLabels | Source/PluginEditor.cpp:358-364 | of the ten frequency lines, exactly the last five (1 kHz up) carry "k", shown as 1, 2, 5, 10, 20; of the five gain lines, exactly 12 and 24 carry "+" |

## Left out

- Per-sample IIR filtering and filter delay state are left out. `ProcessBlock` takes the library's per-channel filtering as a parameter `run`. `prepareToPlay` (`Source/PluginProcessor.cpp:94-110`) only prepares that state and then calls `updateFilters`, which is `Processor.UpdateFilters`.
- The filter-design formulas are parameters of `Library`: `designIIRLowpassHighOrderButterworthMethod`, its highpass twin, `makePeakFilter`, `decibelsToGain` and `getMagnitudeForFrequency`. They are JUCE's, not the plugin's.
- `updateCoefficients` is declared as a free function (`Source/PluginProcessor.h:47`) and called as one (`Source/PluginProcessor.h:72`, `Source/PluginProcessor.cpp:305-306`, `Source/PluginEditor.cpp:251`). The only definition, `Source/PluginProcessor.cpp:310-313`, is written as a member of the processor class, which does not declare it. `Dsp.UpdateCoefficients` takes that body, `*old = *replacements`, as the free function's.
- Looking a choice name up in a choice parameter is JUCE's `AudioParameterChoice` and `StringArray::indexOf`. The helpers `Settings.IndexOfChoice` and `Settings.IndexOfDistinctChoice` model that library lookup so that `Settings.SlopeChoiceNameIdentifiesSlope` can state that each slope name selects its own slope.
- Formatting is modelled only as far as the label lemmas need. They assume `WritesPlainNumbers`: every number text is non-empty, has no leading "+" and contains no "k". The default format JUCE falls back to meets this, including its exponent form ("1e+06").
- The definition of the free function `makePeakFilter` declared at `Source/PluginProcessor.h:49` is not part of this model. `Chain.MakePeakFilter` builds it the way `updatePeakFilter` does.
- Float and double rounding are not modelled:
  - `Chain.Magnitude` multiplies through the uninterpreted `multiply`.
  - Lemmas that regroup a product (`Chain.MagnitudeScales`, `Chain.ResponseAppend`, `Chain.DisplayMatchesProcessing`, `Chain.BypassedPeakRemovesItsFactor`) require `ExactArithmetic`. Rounded multiplication is not associative, so the display's product equals the processing-order product only up to rounding.
  - Parameter values are `real`, not `float`.
- Labels.ShownValue: states the exact quotient value / 1000. The float division rounds; this is not modelled.
- Text formatting is not modelled: `juce::String(value, decimals)` and `String << float` are the `fixed` and `shortest` fields of a `Formatter`. Only `String << int` is modelled, as `Text.Decimal`, because it fixes the slope choice names.
- `Decibels::gainToDecibels` (`Source/PluginEditor.cpp:318`), `mapToLog10` (line 284) and all drawing are left out. `ResponseCurve.ResponseMagnitudes` takes the column frequencies as input and returns linear magnitudes.
- Threading is not modelled. The atomic dirty flag and the listener, timer and audio threads are serialised as one event sequence; the parameter store is a value passed in.
- `isBusesLayoutSupported` (`Source/PluginProcessor.cpp:161-185`) is host plumbing and is left out. It admits a mono layout, but `processBlock` always reads channel 1. `Processor.ProcessBlock` therefore requires at least two channels.
- `createEditor` (`Source/PluginProcessor.cpp:228-232`) returns JUCE's generic editor, so the custom editor is modelled as written but is not what a host shows.
- The three bypass buttons (`Source/PluginEditor.cpp:521-523`) attach to "LowCut Bypassed", "HighCut Bypassed" and "Peak Bypassed". No parameter of those names is registered, and `getChainSettings` never reads them. The model follows the code: every snapshot has all three bypass flags false, and nothing sets a chain-level bypass in the processor.
- The `sampleRate` parameter of `updateCutFilter` is never used and is dropped.
- State save and restore are empty in the source and left out, as are slider look-and-feel, layout geometry, and the per-slider min/max labels.

## Notes on the code

- No parameter named "LowCut Bypassed", "HighCut Bypassed" or "Peak Bypassed" is registered, and `getChainSettings` reads none of them. The processor never sets a chain-level bypass flag. `Settings.GetChainSettings` therefore leaves all three bypass fields false, and `Processor.UpdateFilters` leaves the chain flags as they were.
- No design is checked before it is used: every design comes back from the library and is copied into the chains as it is. An out-of-range frequency or Q reaches the filters unchanged.
- `paint` multiplies the magnitudes in the order peak, high cut, low cut. The audio passes through low cut, peak, high cut. `Chain.DisplayMatchesProcessing` shows that the two orders give the same product under exact arithmetic.
- The slope choice names are "12db/Oct" and so on, with a lower-case "b", as `Source/PluginProcessor.cpp:270` writes them. The slope sliders' suffix is "dB/Oct". A slope slider displays the choice name, not its suffix.
- The editor configures its mirror at the double sample rate. The processor narrows the rate to float first. `ResponseCurve.MirrorMatchesProcessor` assumes the narrowing is exact.
