/**
  The shape of the JUCE DSP calls the equalizer relies on.

  Filter design, peak-filter construction, decibel conversion and magnitude
  evaluation are library code; the model never computes them. They are carried
  as function values in a `Library`, so every statement proved below holds for
  every library that has the stated shape.
 */
module Dsp {

  /** One second-order IIR section (a biquad), as stored in a JUCE coefficient object. */
  datatype Coefficients = Coefficients(b0: real, b1: real, b2: real, a0: real, a1: real, a2: real)

  /** The library functions the core calls, left uninterpreted. */
  datatype Library = Library(
    // designIIRLowpassHighOrderButterworthMethod(frequency, sampleRate, order)
    designLowpass: (real, real, int) -> seq<Coefficients>,
    // designIIRHighpassHighOrderButterworthMethod(frequency, sampleRate, order)
    designHighpass: (real, real, int) -> seq<Coefficients>,
    // IIR::Coefficients::makePeakFilter(sampleRate, frequency, Q, gainFactor)
    makePeakFilter: (real, real, real, real) -> Coefficients,
    // Decibels::decibelsToGain(dB)
    decibelsToGain: real -> real,
    // Coefficients::getMagnitudeForFrequency(frequency, sampleRate)
    magnitudeForFrequency: (Coefficients, real, real) -> real,
    // the double -> float conversion of a sample rate
    toFloat: real -> real,
    // double multiplication `a * b`, which rounds; left uninterpreted
    multiply: (real, real) -> real)

  /** A Butterworth design of even order n > 0 is factored into exactly n/2 second-order sections. */
  ghost predicate ButterworthShaped(lib: Library) {
    && (forall frequency, sampleRate, order ::
          order > 0 && order % 2 == 0 ==> |lib.designLowpass(frequency, sampleRate, order)| == order / 2)
    && (forall frequency, sampleRate, order ::
          order > 0 && order % 2 == 0 ==> |lib.designHighpass(frequency, sampleRate, order)| == order / 2)
  }

  /**
    Multiplication that behaves like exact arithmetic: 1 is its unit and it
    is commutative and associative. Real multiplication has this shape;
    rounded double multiplication is commutative with unit 1 but is not
    associative, so statements that regroup a product carry this condition.
   */
  ghost predicate ExactArithmetic(lib: Library) {
    && (forall a :: lib.multiply(1.0, a) == a)
    && (forall a, b :: lib.multiply(a, b) == lib.multiply(b, a))
    && (forall a, b, c :: lib.multiply(lib.multiply(a, b), c) == lib.multiply(a, lib.multiply(b, c)))
  }

  /**
    A coefficient object is reached through a reference-counted pointer.
    The heap maps each live object to its contents.
   */
  type Ref = nat
  type CoefficientHeap = map<Ref, Coefficients>

  /**
    `updateCoefficients(old, replacements)` assigns `*old = *replacements`
    (`target` here is the source's `old`): the contents of the replacement
    object are copied into the object `target` points at. No object is
    created, no pointer is rebound, and only the target's contents change.
   */
  function UpdateCoefficients(heap: CoefficientHeap, target: Ref, replacements: Ref): (h: CoefficientHeap)
    requires target in heap && replacements in heap
    ensures h.Keys == heap.Keys
    ensures h[target] == heap[replacements]
    ensures forall r :: r in heap && r != target ==> h[r] == heap[r]
  {
    heap[target := heap[replacements]]
  }

  /**
    Copying one design into the left and the right stage leaves the two
    stages with equal contents but separate objects: a later copy into one
    stage does not show through the other.
   */
  lemma StereoCopiesAreIndependent(heap: CoefficientHeap, left: Ref, right: Ref, design: Ref, later: Ref)
    requires left in heap && right in heap && design in heap && later in heap
    requires left != right && design != left && design != right
    ensures var both := UpdateCoefficients(UpdateCoefficients(heap, left, design), right, design);
            && both[left] == both[right] == heap[design]
            && UpdateCoefficients(both, left, later)[right] == heap[design]
  {
    var once := UpdateCoefficients(heap, left, design);
    assert once[design] == heap[design];
    var both := UpdateCoefficients(once, right, design);
    assert both[left] == heap[design];
  }
}
