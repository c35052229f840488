/**
  The cut-filter bank: a processor chain of four biquad stages, each with its
  own bypass flag, configured from a Butterworth design and a slope by
  `updateCutFilter`.
 */
module CutFilter {
  import opened Dsp
  import opened Settings

  /** One slot of the bank: the coefficients its filter holds and whether the chain skips it. */
  datatype Stage = Stage(coefficients: Coefficients, bypassed: bool)

  const Unity := Coefficients(1.0, 0.0, 0.0, 1.0, 0.0, 0.0)

  /** Exactly four stage slots; never resized. */
  type Bank = s: seq<Stage> | |s| == 4
    witness [Stage(Unity, false), Stage(Unity, false), Stage(Unity, false), Stage(Unity, false)]

  /** `setBypassed<Index>(bypassed)`: only that stage's flag changes. */
  function SetBypassed(bank: Bank, index: nat, bypassed: bool): (r: Bank)
    requires index < 4
    ensures r[index] == Stage(bank[index].coefficients, bypassed)
    ensures forall j :: 0 <= j < 4 && j != index ==> r[j] == bank[j]
  {
    bank[index := bank[index].(bypassed := bypassed)]
  }

  /**
    `update<Index>`: copies the Index-th designed section into stage Index
    and enables that stage. No other stage changes.
   */
  function Update(bank: Bank, index: nat, cutCoeffs: seq<Coefficients>): (r: Bank)
    requires index < 4 && index < |cutCoeffs|
    ensures r[index] == Stage(cutCoeffs[index], false)
    ensures forall j :: 0 <= j < 4 && j != index ==> r[j] == bank[j]
  {
    var copied := bank[index := bank[index].(coefficients := cutCoeffs[index])];
    SetBypassed(copied, index, false)
  }

  /** The four `setBypassed<i>(true)` calls that open `updateCutFilter`. */
  function BypassAll(bank: Bank): (r: Bank)
    ensures forall j :: 0 <= j < 4 ==> r[j] == Stage(bank[j].coefficients, true)
  {
    SetBypassed(SetBypassed(SetBypassed(SetBypassed(bank, 0, true), 1, true), 2, true), 3, true)
  }

  /**
    Entering the slope switch at the case for stage `index` and falling
    through every case below it: `update<index>`, `update<index - 1>`, ...,
    `update<0>`. Stages 0..index end up enabled with their own sections;
    stages above `index` are untouched.
   */
  function FallThrough(bank: Bank, cutCoeffs: seq<Coefficients>, index: nat): (r: Bank)
    requires index < 4 && index < |cutCoeffs|
    ensures forall j :: 0 <= j <= index ==> r[j] == Stage(cutCoeffs[j], false)
    ensures forall j :: index < j < 4 ==> r[j] == bank[j]
    decreases index
  {
    var updated := Update(bank, index, cutCoeffs);
    if index == 0 then updated else FallThrough(updated, cutCoeffs, index - 1)
  }

  /**
    `updateCutFilter`: bypass all four stages, then enter the switch at the
    slope's case. Stage j is enabled exactly when j is at most the slope
    index, an enabled stage j holds the j-th section of the design (not a
    repeat of section 0), and a disabled stage keeps its old coefficients.
    The design must hold a section for every stage the slope enables.
   */
  function UpdateCutFilter(bank: Bank, cutCoeffs: seq<Coefficients>, slope: Slope): (r: Bank)
    requires slope.Index() < |cutCoeffs|
    ensures forall j :: 0 <= j < 4 ==> (r[j].bypassed <==> j > slope.Index())
    ensures forall j :: 0 <= j <= slope.Index() ==> r[j].coefficients == cutCoeffs[j]
    ensures forall j :: slope.Index() < j < 4 ==> r[j].coefficients == bank[j].coefficients
  {
    var cleared := BypassAll(bank);
    match slope
    case Slope48 => FallThrough(cleared, cutCoeffs, 3)
    case Slope36 => FallThrough(cleared, cutCoeffs, 2)
    case Slope24 => FallThrough(cleared, cutCoeffs, 1)
    case Slope12 => FallThrough(cleared, cutCoeffs, 0)
  }

  /**
    The configured bank written out directly, stage by stage: stage j is
    the j-th section, enabled, when j <= active, and otherwise the old stage
    with its bypass flag set.
   */
  function Configured(bank: Bank, cutCoeffs: seq<Coefficients>, active: nat): (r: Bank)
    requires active < 4 && active < |cutCoeffs|
  {
    seq(4, j requires 0 <= j < 4 =>
      if j <= active then Stage(cutCoeffs[j], false) else Stage(bank[j].coefficients, true))
  }

  /** The switch with fallthrough gives exactly the bank `Configured` writes out stage by stage. */
  lemma UpdateCutFilterIsConfigured(bank: Bank, cutCoeffs: seq<Coefficients>, slope: Slope)
    requires slope.Index() < |cutCoeffs|
    ensures UpdateCutFilter(bank, cutCoeffs, slope) == Configured(bank, cutCoeffs, slope.Index())
  {
    var r := UpdateCutFilter(bank, cutCoeffs, slope);
    var c := Configured(bank, cutCoeffs, slope.Index());
    forall j | 0 <= j < 4
      ensures r[j] == c[j]
    {
    }
  }

  /**
    The same activation written as an explicit loop over stages
    0..slope: bypass everything, then enable one stage per iteration.
   */
  method ConfigureStages(bank: Bank, cutCoeffs: seq<Coefficients>, slope: Slope) returns (r: Bank)
    requires slope.Index() < |cutCoeffs|
    ensures forall j :: 0 <= j <= slope.Index() ==> r[j] == Stage(cutCoeffs[j], false)
    ensures forall j :: slope.Index() < j < 4 ==> r[j] == Stage(bank[j].coefficients, true)
    ensures r == UpdateCutFilter(bank, cutCoeffs, slope)
  {
    r := BypassAll(bank);
    var i := 0;
    while i <= slope.Index()
      invariant 0 <= i <= slope.Index() + 1
      invariant forall j :: 0 <= j < i ==> r[j] == Stage(cutCoeffs[j], false)
      invariant forall j :: i <= j < 4 ==> r[j] == Stage(bank[j].coefficients, true)
    {
      r := r[i := Stage(cutCoeffs[i], false)];
      i := i + 1;
    }
    UpdateCutFilterIsConfigured(bank, cutCoeffs, slope);
  }

  /** Configuring twice with the same design and slope gives the same bank as configuring once. */
  lemma UpdateCutFilterIdempotent(bank: Bank, cutCoeffs: seq<Coefficients>, slope: Slope)
    requires slope.Index() < |cutCoeffs|
    ensures var once := UpdateCutFilter(bank, cutCoeffs, slope);
            UpdateCutFilter(once, cutCoeffs, slope) == once
  {
    var once := UpdateCutFilter(bank, cutCoeffs, slope);
    UpdateCutFilterIsConfigured(bank, cutCoeffs, slope);
    UpdateCutFilterIsConfigured(once, cutCoeffs, slope);
  }

  /** The sections of the enabled stages, in cascade order 0..3. */
  function ActiveSections(bank: Bank): seq<Coefficients> {
    SectionsBelow(bank, 4)
  }

  /** The sections of the enabled stages among stages 0..n-1. */
  function SectionsBelow(bank: Bank, n: nat): seq<Coefficients>
    requires n <= 4
  {
    if n == 0 then []
    else SectionsBelow(bank, n - 1) + (if bank[n - 1].bypassed then [] else [bank[n - 1].coefficients])
  }

  /**
    After `updateCutFilter` the cascade consists of exactly the first
    slope + 1 designed sections, in design order.
   */
  lemma ActiveSectionsAfterUpdate(bank: Bank, cutCoeffs: seq<Coefficients>, slope: Slope)
    requires slope.Index() < |cutCoeffs|
    ensures ActiveSections(UpdateCutFilter(bank, cutCoeffs, slope)) == cutCoeffs[..slope.Index() + 1]
  {
    var r := UpdateCutFilter(bank, cutCoeffs, slope);
    SectionsOfPrefixEnabled(r, cutCoeffs, slope.Index(), 4);
  }

  /** Stages 0..n-1 of a bank whose stages 0..active are enabled and the rest bypassed. */
  lemma {:induction false} SectionsOfPrefixEnabled(bank: Bank, cutCoeffs: seq<Coefficients>, active: nat, n: nat)
    requires active < 4 && active < |cutCoeffs| && n <= 4
    requires forall j :: 0 <= j < 4 ==> (bank[j].bypassed <==> j > active)
    requires forall j :: 0 <= j <= active ==> bank[j].coefficients == cutCoeffs[j]
    ensures SectionsBelow(bank, n) == if n <= active + 1 then cutCoeffs[..n] else cutCoeffs[..active + 1]
  {
    if n > 0 {
      SectionsOfPrefixEnabled(bank, cutCoeffs, active, n - 1);
      if n <= active + 1 {
        assert cutCoeffs[..n] == cutCoeffs[..n - 1] + [cutCoeffs[n - 1]];
      }
    }
  }

  /** The number of enabled stages. */
  function ActiveCount(bank: Bank): nat {
    |ActiveSections(bank)|
  }

  /**
    Lowering the slope (same design) only disables stages: every stage
    keeps its coefficients, and the stages still enabled are the first ones.
    For example going from 48 to 12 dB/oct turns off stages 1..3 and leaves
    stage 0's section as it was.
   */
  lemma LoweringSlopeOnlyDisables(bank: Bank, cutCoeffs: seq<Coefficients>, high: Slope, low: Slope)
    requires high.Index() < |cutCoeffs| && low.Index() <= high.Index()
    ensures var before := UpdateCutFilter(bank, cutCoeffs, high);
            var after := UpdateCutFilter(before, cutCoeffs, low);
            && (forall j :: 0 <= j < 4 ==> after[j].coefficients == before[j].coefficients)
            && ActiveCount(after) == low.Index() + 1
            && ActiveSections(after) == cutCoeffs[..low.Index() + 1]
  {
    var before := UpdateCutFilter(bank, cutCoeffs, high);
    ActiveSectionsAfterUpdate(before, cutCoeffs, low);
  }
}
