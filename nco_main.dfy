/** The script body of lab4/scripts/nco.py: the sample stream it draws from an oscillator and
    the sine LUT dump, one 10-digit binary DAC code per line. Argument parsing and plotting
    are not modelled. */
module NcoMain {
  import opened Binary
  import opened Nco

  /** The DAC code the dump prints for `val`: codes at or above `DAC` become `DAC - 1`. */
  function Clamped(val: nat): (c: nat)
    ensures c < Dac
    ensures val < Dac ==> c == val
    ensures val >= Dac ==> c == Dac - 1
  {
    if val >= Dac then Dac - 1 else val
  }

  /** The `--sine-lut` loop: every unclamped DAC code of the sine table, clamped and printed
      as `'{0:010b}'`. Each line has exactly ten binary digits, most significant first, and
      reads back as the clamped code, which is below `DAC`. */
  method DumpSineLut(nco: NCO) returns (lines: seq<string>)
    requires nco.TablesWellFormed()
    ensures |lines| == |nco.sineDac|
    ensures forall i :: 0 <= i < |lines| ==>
      |lines[i]| == DacBits && IsBinary(lines[i]) && ParseBinary(lines[i]) < Dac
    ensures forall i :: 0 <= i < |lines| && nco.sineDac[i] < Dac ==> ParseBinary(lines[i]) == nco.sineDac[i]
    ensures forall i :: 0 <= i < |lines| && nco.sineDac[i] >= Dac ==> ParseBinary(lines[i]) == Dac - 1
    ensures forall i, j :: 0 <= i < |lines| && 0 <= j < DacBits ==>
      lines[i][j] == DigitChar((Clamped(nco.sineDac[i]) / Pow2(DacBits - 1 - j)) % 2)
  {
    Widths();
    lines := [];
    var k := 0;
    while k < |nco.sineDac|
      invariant 0 <= k <= |nco.sineDac| && |lines| == k
      invariant forall i :: 0 <= i < k ==>
        |lines[i]| == DacBits && IsBinary(lines[i]) && ParseBinary(lines[i]) == Clamped(nco.sineDac[i])
      invariant forall i, j :: 0 <= i < k && 0 <= j < DacBits ==>
        lines[i][j] == DigitChar((Clamped(nco.sineDac[i]) / Pow2(DacBits - 1 - j)) % 2)
    {
      var val := nco.sineDac[k];
      if val >= Dac {
        val := Dac - 1;
      }
      var line := FormatBinary(val, DacBits);
      FormatBinaryRoundTrip(val, DacBits);
      forall j | 0 <= j < DacBits
        ensures line[j] == DigitChar((val / Pow2(DacBits - 1 - j)) % 2)
      {
        FormatBinaryDigitAt(val, DacBits, j);
      }
      lines := lines + [line];
      k := k + 1;
    }
  }

  /** `np.ceil`: the least integer not below x. */
  function Ceil(x: real): (c: int)
    ensures x <= c as real < x + 1.0
  {
    -((-x).Floor)
  }

  /** `num_samples = int(np.ceil(fsamp / fsig)) * num_periods`. */
  function SampleCount(fsamp: real, fsig: real, periods: nat): (n: int)
    requires fsig != 0.0
    ensures fsamp / fsig * periods as real <= n as real
    ensures periods > 0 ==> n as real < (fsamp / fsig + 1.0) * periods as real
    ensures periods > 0 ==> n % periods == 0
  {
    CeilTimes(fsamp / fsig, periods);
    Ceil(fsamp / fsig) * periods
  }

  /** Scaling `x <= Ceil(x) < x + 1` by a period count. */
  lemma CeilTimes(x: real, periods: nat)
    ensures x * (periods as real) <= (Ceil(x) * periods) as real
    ensures periods > 0 ==> (Ceil(x) * periods) as real < (x + 1.0) * (periods as real)
    ensures periods > 0 ==> (Ceil(x) * periods) % periods == 0
  {
    var c := Ceil(x);
    var p := periods as real;
    RealScale(x, c as real, p);
    assert (c * periods) as real == c as real * p;
    if periods > 0 {
      calc {
        (c * periods) as real;
        c as real * p;
      < { RealScaleStrict(c as real, x + 1.0, p); }
        (x + 1.0) * p;
      }
      ModAddMultiple(0, c, periods);
    }
  }

  /** The script's scenario, 30 kHz sampling of an 880 Hz tone for five periods, draws
      35 samples per period. */
  lemma ScenarioSampleCount()
    ensures SampleCount(30000.0, 880.0, 5) == 175
  {
    var c := Ceil(30000.0 / 880.0);
    assert 34.0 < 30000.0 / 880.0 <= 35.0;
    assert c == 35;
  }

  /** The samples of `count` consecutive calls with control word `fcw`, from accumulator `acc`. */
  function Stream(nco: NCO, acc: nat, fcw: int, count: nat): (s: seq<seq<int>>)
    requires nco.TablesWellFormed()
    ensures |s| == count
  {
    if count == 0 then [] else Stream(nco, acc, fcw, count - 1) + [nco.Outputs(AccAfter(acc, fcw, count - 1))]
  }

  /** Call n of a stream samples the accumulator value reached after n advances. */
  lemma {:induction false} StreamAt(nco: NCO, acc: nat, fcw: int, count: nat, n: nat)
    requires nco.TablesWellFormed() && n < count
    ensures Stream(nco, acc, fcw, count)[n] == nco.Outputs(AccAfter(acc, fcw, n))
  {
    var prefix := Stream(nco, acc, fcw, count - 1);
    assert Stream(nco, acc, fcw, count) == prefix + [nco.Outputs(AccAfter(acc, fcw, count - 1))];
    if n < count - 1 {
      StreamAt(nco, acc, fcw, count - 1, n);
      assert Stream(nco, acc, fcw, count)[n] == prefix[n];
    }
  }

  /** Every 2^N calls the stream repeats exactly. */
  lemma StreamRepeats(nco: NCO, acc: nat, fcw: int, count: nat, n: nat)
    requires nco.TablesWellFormed() && acc < AccModulus && n + AccModulus < count
    ensures Stream(nco, acc, fcw, count)[n + AccModulus] == Stream(nco, acc, fcw, count)[n]
  {
    StreamAt(nco, acc, fcw, count, n);
    StreamAt(nco, acc, fcw, count, n + AccModulus);
    AccAfterPeriodic(acc, fcw, n);
  }

  /** `[nco.next_sample_f(fsig) for n in range(num_samples)]`. */
  method SampleStream(nco: NCO, freq: real, count: nat) returns (stream: seq<seq<int>>)
    requires nco.Valid() && nco.fsamp != 0.0
    modifies nco
    ensures nco.Valid()
    ensures stream == Stream(nco, old(nco.phaseAcc), nco.PhaseIncrement(freq), count)
    ensures nco.phaseAcc == AccAfter(old(nco.phaseAcc), nco.PhaseIncrement(freq), count)
  {
    ghost var start := nco.phaseAcc;
    var fcw := nco.PhaseIncrement(freq);
    stream := [];
    var n := 0;
    while n < count
      invariant nco.Valid() && 0 <= n <= count
      invariant nco.phaseAcc == AccAfter(start, fcw, n)
      invariant stream == Stream(nco, start, fcw, n)
    {
      var samples := nco.NextSampleF(freq);
      stream := stream + [samples];
      n := n + 1;
    }
  }

  /** After `reset()` the next sample equals the first sample of a freshly built oscillator
      with the same tables, for the same control word. */
  method ResetMatchesFresh(nco: NCO, fcw: int) returns (afterReset: seq<int>, fromFresh: seq<int>)
    requires nco.Valid()
    modifies nco
    ensures afterReset == fromFresh == nco.Outputs(0)
    ensures nco.Valid() && nco.phaseAcc == Advance(0, fcw)
  {
    var other := new NCO(nco.fsamp, nco.interpolate, nco.lerp, nco.sineLut, nco.sineDac,
                         nco.triangleLut, nco.sawtoothLut);
    nco.Reset();
    afterReset := nco.NextSample(fcw);
    fromFresh := other.NextSample(fcw);
  }
}
