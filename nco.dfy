/** The numerically controlled oscillator of lab4/scripts/nco.py: an N-bit phase accumulator
    whose top M bits address four 256-entry waveform tables (sine, square, triangle, sawtooth).

    Fixed-point samples are raw integer codes of the output format FXfamily(n_bits=16,
    n_intbits=4), whose first argument counts fractional bits: the code of 1.0 is 2^16.
    The sine, triangle and sawtooth tables and the sine DAC codes come out of floating-point
    computations and enter the model as given sequences; the square table is built here. */
module Nco {
  import opened Binary

  /** Accumulator width, `self.N`. */
  const N: nat := 24
  /** LUT address width, `self.M`. */
  const M: nat := 8
  /** `self.lut_entries = 2**self.M`. */
  const LutEntries: nat := 256
  /** `2**self.N`, the accumulator wraps modulo this. */
  const AccModulus: nat := 0x100_0000
  /** `2**(self.N - self.M)`: accumulator units per LUT entry. */
  const StepSize: nat := 0x1_0000
  /** `self.DAC`, the number of DAC codes. */
  const Dac: nat := 1024
  /** Digits of one line of the LUT dump, `'{0:010b}'`. */
  const DacBits: nat := 10
  /** Raw code of the fixed-point value 1.0 in the output format. */
  const FxOne: int := 0x1_0000

  lemma Widths()
    ensures Pow2(N) == AccModulus && Pow2(M) == LutEntries && Pow2(N - M) == StepSize
    ensures StepSize * LutEntries == AccModulus && Pow2(DacBits) == Dac
  {
  }

  /** The interpolator `samp1 + FXnum(residual / 2**(N-M)) * (samp2 - samp1)`; its fixed-point
      rounding belongs to the spfpm library, so the model takes it as a parameter. */
  type Lerp = (int, int, nat) -> int

  // ---------------------------------------------------------------------------
  // Slicing the accumulator.

  /** `lut_index = (phase_acc >> (N - M)) & int('1' * M, 2)`: the top M bits select the entry. */
  function LutIndex(acc: nat): (i: nat)
    ensures i < LutEntries
    ensures i == (acc / StepSize) % LutEntries
  {
    Widths();
    OnesValue(M);
    BitAndLowMask(ShiftRight(acc, N - M), M);
    BitAnd(ShiftRight(acc, N - M), ParseBinary(Ones(M)))
  }

  /** `residual = phase_acc & int('1' * (N - M), 2)`: the position between two entries. */
  function Residual(acc: nat): (r: nat)
    ensures r < StepSize
    ensures r == acc % StepSize
  {
    Widths();
    OnesValue(N - M);
    BitAndLowMask(acc, N - M);
    BitAnd(acc, ParseBinary(Ones(N - M)))
  }

  /** `(lut_index + 1) % lut_entries`: the entry after i, wrapping from the last to the first. */
  function NextIndex(i: nat): (j: nat)
    requires i < LutEntries
    ensures j < LutEntries
    ensures i < LutEntries - 1 ==> j == i + 1
    ensures i == LutEntries - 1 ==> j == 0
  {
    (i + 1) % LutEntries
  }

  /** One accumulator advance: `phase_acc = (phase_acc + fcw) % 2**N`. */
  function Advance(acc: nat, fcw: int): (a: nat)
    ensures a < AccModulus
    ensures (acc + fcw - a) % AccModulus == 0
  {
    var a := (acc + fcw) % AccModulus;
    DivModUnique(acc + fcw - a, AccModulus, (acc + fcw) / AccModulus, 0);
    a
  }

  /** The accumulator after k calls of `next_sample` with the same control word. */
  function AccAfter(acc: nat, fcw: int, k: nat): nat {
    if k == 0 then acc else Advance(AccAfter(acc, fcw, k - 1), fcw)
  }

  // ---------------------------------------------------------------------------
  // Tables and samples.

  /** `square_lut_fixed`: lut_entries/2 entries of +1.0 followed by lut_entries/2 of -1.0. */
  function SquareLut(): (s: seq<int>)
    ensures |s| == LutEntries
    ensures forall i :: 0 <= i < LutEntries ==> s[i] == if i < LutEntries / 2 then FxOne else -FxOne
  {
    seq(LutEntries / 2, _ => FxOne) + seq(LutEntries / 2, _ => -FxOne)
  }

  /** The sample one table yields for the accumulator value `acc`. */
  function TableSample(lut: seq<int>, interpolate: bool, lerp: Lerp, acc: nat): (r: int)
    requires |lut| == LutEntries
    ensures !interpolate ==> r == lut[(acc / StepSize) % LutEntries]
    ensures interpolate ==>
      r == lerp(lut[(acc / StepSize) % LutEntries], lut[(acc / StepSize + 1) % LutEntries], acc % StepSize)
  {
    ModAddLeft(acc / StepSize, 1, LutEntries);
    var i := LutIndex(acc);
    if !interpolate then lut[i] else lerp(lut[i], lut[NextIndex(i)], Residual(acc))
  }

  class NCO {
    /** `self.fsamp`, the sample rate in Hz. */
    const fsamp: real
    /** `self.interpolate`. */
    const interpolate: bool
    const lerp: Lerp
    /** `sine_lut_fixed`, `square_lut_fixed`, `triangle_lut_fixed`, `sawtooth_lut_fixed`. */
    const sineLut: seq<int>
    const squareLut: seq<int>
    const triangleLut: seq<int>
    const sawtoothLut: seq<int>
    /** `sine_lut_int`: the sine table as unclamped DAC codes, used by the LUT dump. */
    const sineDac: seq<nat>
    /** `self.phase_acc`. */
    var phaseAcc: nat

    predicate TablesWellFormed() {
      |sineLut| == LutEntries && squareLut == SquareLut() &&
      |triangleLut| == LutEntries && |sawtoothLut| == LutEntries && |sineDac| == LutEntries
    }

    ghost predicate Valid()
      reads this
    {
      TablesWellFormed() && phaseAcc < AccModulus
    }

    /** What `next_sample` returns when the accumulator holds `acc`: sine, square, triangle, sawtooth. */
    function Outputs(acc: nat): (r: seq<int>)
      requires TablesWellFormed()
      ensures |r| == 4
      ensures !interpolate ==>
        var i := (acc / StepSize) % LutEntries;
        r == [sineLut[i], squareLut[i], triangleLut[i], sawtoothLut[i]]
      ensures interpolate ==>
        var i, j, res := (acc / StepSize) % LutEntries, (acc / StepSize + 1) % LutEntries, acc % StepSize;
        r == [lerp(sineLut[i], sineLut[j], res), lerp(squareLut[i], squareLut[j], res),
              lerp(triangleLut[i], triangleLut[j], res), lerp(sawtoothLut[i], sawtoothLut[j], res)]
    {
      [TableSample(sineLut, interpolate, lerp, acc), TableSample(squareLut, interpolate, lerp, acc),
       TableSample(triangleLut, interpolate, lerp, acc), TableSample(sawtoothLut, interpolate, lerp, acc)]
    }

    constructor (fsamp: real, interpolate: bool, lerp: Lerp, sineLut: seq<int>, sineDac: seq<nat>,
                 triangleLut: seq<int>, sawtoothLut: seq<int>)
      requires |sineLut| == LutEntries && |sineDac| == LutEntries
      requires |triangleLut| == LutEntries && |sawtoothLut| == LutEntries
      ensures Valid() && phaseAcc == 0
      ensures this.fsamp == fsamp && this.interpolate == interpolate && this.lerp == lerp
      ensures this.sineLut == sineLut && this.sineDac == sineDac && this.squareLut == SquareLut()
      ensures this.triangleLut == triangleLut && this.sawtoothLut == sawtoothLut
    {
      this.fsamp := fsamp;
      this.interpolate := interpolate;
      this.lerp := lerp;
      this.phaseAcc := 0;
      this.sineLut := sineLut;
      this.sineDac := sineDac;
      this.squareLut := SquareLut();
      this.triangleLut := triangleLut;
      this.sawtoothLut := sawtoothLut;
    }

    /** `next_sample(fcw)`: one sample per table from the current phase, then one advance. */
    method NextSample(fcw: int) returns (samples: seq<int>)
      requires Valid()
      modifies this
      ensures Valid()
      ensures samples == Outputs(old(phaseAcc))
      ensures phaseAcc == Advance(old(phaseAcc), fcw)
    {
      var lutIndex := LutIndex(phaseAcc);
      var luts := [sineLut, squareLut, triangleLut, sawtoothLut];
      samples := [];
      var k := 0;
      while k < |luts|
        invariant 0 <= k <= |luts| && |samples| == k
        invariant forall j :: 0 <= j < k ==> samples[j] == TableSample(luts[j], interpolate, lerp, phaseAcc)
      {
        var lut := luts[k];
        if !interpolate {
          samples := samples + [lut[lutIndex]];
        } else {
          var samp1 := lut[lutIndex];
          var samp2 := lut[(lutIndex + 1) % LutEntries];
          var residual := Residual(phaseAcc);
          samples := samples + [lerp(samp1, samp2, residual)];
        }
        k := k + 1;
      }
      var sum := phaseAcc + fcw;
      phaseAcc := sum % AccModulus;
    }

    /** `phase_increment(freq)`: `round((freq / fsamp) * 2**N)`, rounding half to even. */
    function PhaseIncrement(freq: real): (inc: int)
      requires fsamp != 0.0
      ensures -0.5 <= inc as real - freq / fsamp * AccModulus as real <= 0.5
    {
      RoundHalfEven(freq / fsamp * AccModulus as real)
    }

    /** `effective_frequency(phase_increment)`: the frequency an increment really produces. */
    function EffectiveFrequency(increment: int): (f: real)
      ensures f == increment as real * (fsamp / AccModulus as real)
      ensures fsamp > 0.0 && 0 <= increment < AccModulus ==> 0.0 <= f < fsamp
    {
      var f := (increment as real * fsamp) / AccModulus as real;
      var step := fsamp / AccModulus as real;
      assert AccModulus as real * step == fsamp;
      assert f == increment as real * step;
      if fsamp > 0.0 && 0 <= increment < AccModulus then
        RealScale(0.0, increment as real, step);
        RealScaleStrict(increment as real, AccModulus as real, step);
        f
      else
        f
    }

    /** The frequency the oscillator produces for a request is off by at most half a
        frequency step, fsamp / 2^(N+1), counting in exact real arithmetic. */
    lemma FrequencyRoundTrip(freq: real)
      requires fsamp > 0.0
      ensures EffectiveFrequency(PhaseIncrement(freq)) - freq <= fsamp / (2.0 * AccModulus as real)
      ensures freq - EffectiveFrequency(PhaseIncrement(freq)) <= fsamp / (2.0 * AccModulus as real)
    {
      var p := AccModulus as real;
      var step := fsamp / p;
      var y := freq / fsamp * p;
      var n := PhaseIncrement(freq) as real;
      var e := EffectiveFrequency(PhaseIncrement(freq));
      assert e == n * step;
      ScaleBack(freq, fsamp, p);
      calc {
        e - freq;
        n * step - y * step;
        (n - y) * step;
      <= { RealScale(n - y, 0.5, step); }
        0.5 * step;
      }
      calc {
        freq - e;
        y * step - n * step;
        (y - n) * step;
      <= { RealScale(y - n, 0.5, step); }
        0.5 * step;
      }
      assert 0.5 * step == fsamp / (2.0 * p);
    }

    /** `next_sample_f(freq)`: `next_sample` with the increment for `freq`. */
    method NextSampleF(freq: real) returns (samples: seq<int>)
      requires Valid() && fsamp != 0.0
      modifies this
      ensures Valid()
      ensures samples == Outputs(old(phaseAcc))
      ensures phaseAcc == Advance(old(phaseAcc), PhaseIncrement(freq))
    {
      samples := NextSample(PhaseIncrement(freq));
    }

    /** `reset()`: the accumulator returns to its value at construction, whatever it held. */
    method Reset()
      requires Valid()
      modifies this
      ensures Valid() && phaseAcc == 0
    {
      phaseAcc := 0;
    }
  }

  /** Scaling a frequency to accumulator units and back gives it unchanged. */
  lemma ScaleBack(freq: real, fsamp: real, p: real)
    requires fsamp > 0.0 && p > 0.0
    ensures (freq / fsamp * p) * (fsamp / p) == freq
  {
  }

  lemma RealScaleStrict(a: real, b: real, c: real)
    requires a < b && c > 0.0
    ensures a * c < b * c
  {
  }

  lemma RealScale(a: real, b: real, c: real)
    requires a <= b && c >= 0.0
    ensures a * c <= b * c
  {
    assert b * c - a * c == (b - a) * c;
  }

  /** Python's `round` on a real: the nearest integer, ties to the even neighbour. */
  function RoundHalfEven(x: real): (n: int)
    ensures n as real - x <= 0.5 && x - n as real <= 0.5
    ensures n as real - x == 0.5 || x - n as real == 0.5 ==> n % 2 == 0
  {
    var f := x.Floor;
    var frac := x - f as real;
    if frac < 0.5 then f
    else if frac > 0.5 then f + 1
    else if f % 2 == 0 then f
    else f + 1
  }

  // ---------------------------------------------------------------------------
  // Properties of the slicing and of the accumulator.

  /** Inside the accumulator range the index is the top M bits and, with the residual,
      rebuilds the accumulator. */
  lemma PhaseSplit(acc: nat)
    requires acc < AccModulus
    ensures LutIndex(acc) == acc / StepSize
    ensures acc == LutIndex(acc) * StepSize + Residual(acc)
  {
    DivBelow(acc, StepSize, LutEntries);
  }

  /** The neighbour entry used for interpolation is the one the accumulator reaches after
      advancing by one LUT step. */
  lemma NextIndexIsOneStepAhead(acc: nat)
    ensures NextIndex(LutIndex(acc)) == LutIndex(Advance(acc, StepSize))
  {
    Widths();
    var q := acc / StepSize;
    assert (acc + StepSize) / StepSize == q + 1 by {
      DivModUnique(acc + StepSize, StepSize, q + 1, acc % StepSize);
    }
    ModDiv(acc + StepSize, StepSize, LutEntries);
    ModAddLeft(q, 1, LutEntries);
  }

  /** Closed form: k advances by fcw add k * fcw modulo 2^N. */
  lemma {:induction false} AccAfterClosedForm(acc: nat, fcw: int, k: nat)
    requires acc < AccModulus
    ensures AccAfter(acc, fcw, k) == (acc + k * fcw) % AccModulus
  {
    if k > 0 {
      AccAfterClosedForm(acc, fcw, k - 1);
      ModAddLeft(acc + (k - 1) * fcw, fcw, AccModulus);
      assert acc + (k - 1) * fcw + fcw == acc + k * fcw;
    }
  }

  /** After 2^N further calls the accumulator, and so every later sample, repeats. */
  lemma AccAfterPeriodic(acc: nat, fcw: int, k: nat)
    requires acc < AccModulus
    ensures AccAfter(acc, fcw, k + AccModulus) == AccAfter(acc, fcw, k)
  {
    AccAfterClosedForm(acc, fcw, k + AccModulus);
    AccAfterClosedForm(acc, fcw, k);
    assert acc + (k + AccModulus) * fcw == acc + k * fcw + fcw * AccModulus;
    ModAddMultiple(acc + k * fcw, fcw, AccModulus);
  }

  /** Without interpolation the square output is +1.0 exactly while the accumulator's top
      bit is clear: a 50% duty cycle over one accumulator turn. */
  lemma SquareFollowsTopBit(lerp: Lerp, acc: nat)
    requires acc < AccModulus
    ensures TableSample(SquareLut(), false, lerp, acc) == if acc < AccModulus / 2 then FxOne else -FxOne
  {
    PhaseSplit(acc);
    DivBelow(acc, StepSize, LutEntries / 2);
  }
}
