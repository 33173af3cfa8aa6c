# NCO model and MusicXML note-to-memory translation, in Dafny

This project models two scripts of an FPGA lab repository.

- **`lab4/scripts/nco.py`**: the Python golden model of a numerically controlled oscillator (NCO).
  - A 24-bit phase accumulator (`phase_acc`) is advanced by a frequency control word modulo 2^24.
  - Its top 8 bits select one of 256 entries in four waveform tables: sine, square, triangle and sawtooth.
  - Its low 16 bits are the residual between two entries, used by the optional linear interpolation.
  - The script body draws a stream of samples from an oscillator.
  - It can also dump the sine table as clamped 10-bit DAC codes, one binary string per line.
- **`scripts/musicxml_parser.py`**: turns a score into the contents of a tone-period memory.
  - Each note element becomes a `notes` tuple.
  - Each pitch becomes a piano key number, then an integer frequency.
  - Each `note_list` entry `(frequency, duration)` becomes memory lines. A rest gives `4*d` zeros. A tone gives `4*d` half-periods and then `d` zeros.

Files:

- `binary.dfy` (module `Binary`): Python's operations on non-negative integers as bit strings.
  - `x >> k` and `x & y`.
  - `int('1'*k, 2)` as the mask.
  - The `'{0:010b}'` format.
  - Each is defined the way Python computes it and proved equal to the arithmetic it stands for.
- `nco.dfy` (module `Nco`): the `NCO` class and the functions that specify it.
  - `phase_acc` is a mutable field.
  - The tables, `fsamp`, `interpolate` and the interpolator are fields fixed at construction.
  - `next_sample`, `next_sample_f` and `reset` are methods proved against the specification functions.
- `nco_main.dfy` (module `NcoMain`): the script body of `nco.py`.
  - The sample-count formula and the sample stream.
  - The sine LUT dump.
  - The reset-versus-fresh scenario.
- `musicxml.dfy` (module `MusicXml`): the parser's loops and its key-number arithmetic.

Modelling decisions:

- Fixed-point samples are the raw integer codes of the output format `FXfamily(n_bits=16, n_intbits=4)`.
  - In the spfpm library, `n_bits` counts fractional bits, so the value 1.0 has code 2^16 (`FxOne`).
  - The square table is built from these codes: +1.0 and -1.0.
- The sine, triangle and sawtooth tables and the unclamped sine DAC codes (`sine_lut_int`) are float computations. They enter the constructor as sequences of length 256.
- The interpolation `samp1 + FXnum(residual/2**16) * (samp2 - samp1)` is a constructor parameter `lerp`. Its rounding lives in spfpm. The model fixes which operands it receives: the entry, its wrapped neighbour and the residual.
- The control word may be any integer. Python's `%` with a positive modulus agrees with Dafny's `%`, so negative words wrap the same way.
- The code validates no configuration and checks no ranges, and the model adds none.
  - `phase_increment` divides by `fsamp`. Its `requires fsamp != 0.0` stands for the ZeroDivisionError Python would raise.
- `phase_increment` and `effective_frequency` are modelled over exact reals.
  - Python's `round` is modelled as round-half-to-even.
  - The frequency error bound is proved in exact real arithmetic, not for IEEE doubles.
- In the parser, an unknown step raises `KeyError` at `step_to_int[...]`. The model returns `None` from `KeyNumber`, and `BuildNoteList` then returns `None`.
- Two float conversions in the parser are parameters: key number to `int(frequency)` (`frequencyOf`) and frequency to `int(125e6/f/2)` (`periodOf`).
- The memory writer dispatches on `frequency == 0`, as the code does. So a pitched note whose integer frequency is 0 is written like a rest. That happens only for keys far below the piano range.
- Python's `range(0, n)` with `n <= 0` writes nothing, so a non-positive duration writes no lines.

## Model

| member | source | states |
|---|---|---|
| `Binary.ShiftRight` | lab4/scripts/nco.py:41 | `x >> k`, computed by k halvings, equals `x / 2^k` |
| `Binary.BitAnd` | lab4/scripts/nco.py:41 | bitwise `&` of non-negative integers; the result is at most each operand |
| `Binary.BitAndLowMask` | lab4/scripts/nco.py:49 | `x & (2^k - 1)` equals `x % 2^k`, for every x and k |
| `Binary.OnesValue` | lab4/scripts/nco.py:41 | `int('1'*k, 2)` equals `2^k - 1`, the mask of the k low bits |
| `Binary.ParseBinary` | lab4/scripts/nco.py:41 | `int(s, 2)` on a binary numeral is below `2^len(s)` |
| `Binary.BinaryDigits` | lab4/scripts/nco.py:125 | `format(v, 'b')` is a non-empty string of binary digits |
| `Binary.FormatBinary` | lab4/scripts/nco.py:125 | `'{0:0Wb}'.format(v)` consists of binary digits only |
| `Binary.FormatBinaryRoundTrip` | lab4/scripts/nco.py:125 | for `v < 2^W`, the padded numeral has exactly W digits and parses back to v |
| `Binary.FormatBinaryDigitAt` | lab4/scripts/nco.py:125 | character i of the padded numeral is bit `W-1-i` of v, most significant first |
| `Nco.Widths` | lab4/scripts/nco.py:20-23 | N = 24 and M = 8 give 2^24 accumulator values, 256 entries and 2^16 units per entry; DAC = 1024 = 2^10 |
| `Nco.LutIndex` | lab4/scripts/nco.py:41 | `(acc >> (N-M)) & int('1'*M, 2)` is below 256 and equals `(acc / 2^16) % 256` |
| `Nco.Residual` | lab4/scripts/nco.py:49 | `acc & int('1'*(N-M), 2)` is below 2^16 and equals `acc % 2^16` |
| `Nco.TableSample` | lab4/scripts/nco.py:43-52 | one table's sample: entry `(acc / 2^16) % 256` without interpolation; with it, `lerp` of that entry, the entry after it modulo 256, and `acc % 2^16` |
| `Nco.NextIndex` | lab4/scripts/nco.py:48 | `(i + 1) % lut_entries` is a valid index: `i + 1` below the last entry, 0 after entry 255 |
| `Nco.Advance` | lab4/scripts/nco.py:54-55 | the new accumulator is below 2^24 and congruent to `acc + fcw` modulo 2^24 |
| `Nco.SquareLut` | lab4/scripts/nco.py:29-30 | 256 entries: entries 0..127 are +1.0, entries 128..255 are -1.0 |
| `Nco.NCO.Outputs` | lab4/scripts/nco.py:43-52 | four samples in the order sine, square, triangle, sawtooth; without interpolation, each table's entry at index `(acc / 2^16) % 256`; with it, `lerp` of that entry, the entry at `(acc / 2^16 + 1) % 256` and the residual `acc % 2^16` |
| `Nco.NCO.constructor` | lab4/scripts/nco.py:15-38 | a new oscillator has accumulator 0, the given tables and the built square table |
| `Nco.NCO.NextSample` | lab4/scripts/nco.py:40-56 | returns the four samples, sine, square, triangle and sawtooth, read at the accumulator before the call; then the accumulator becomes `(old + fcw) % 2^24` |
| `Nco.NCO.NextSampleF` | lab4/scripts/nco.py:58-59 | as `next_sample` with the increment `phase_increment(freq)` |
| `Nco.NCO.Reset` | lab4/scripts/nco.py:67-68 | the accumulator is 0 whatever it held, so a second reset changes nothing |
| `Nco.NCO.PhaseIncrement` | lab4/scripts/nco.py:61-62 | the increment is within 1/2 of `freq / fsamp * 2^24`, in exact reals |
| `Nco.NCO.EffectiveFrequency` | lab4/scripts/nco.py:64-65 | the frequency is the increment times the step `fsamp / 2^24`; an increment in `[0, 2^24)` gives a frequency in `[0, fsamp)` |
| `Nco.NCO.FrequencyRoundTrip` | lab4/scripts/nco.py:61-65 | `effective_frequency(phase_increment(f))` differs from f by at most `fsamp / 2^25`, in exact reals |
| `Nco.RoundHalfEven` | lab4/scripts/nco.py:62 | `round` gives an integer within 1/2 of its argument, and an even one on a tie |
| `Nco.PhaseSplit` | lab4/scripts/nco.py:41-49 | for `acc < 2^24`, the index is `acc / 2^16` and `acc == index * 2^16 + residual` |
| `Nco.NextIndexIsOneStepAhead` | lab4/scripts/nco.py:47-48 | the neighbour entry used for interpolation is the entry the accumulator reaches after one more LUT step of 2^16 |
| `Nco.AccAfterClosedForm` | lab4/scripts/nco.py:54-55 | after k advances by fcw, the accumulator is `(acc + k*fcw) % 2^24` |
| `Nco.AccAfterPeriodic` | lab4/scripts/nco.py:54-55 | 2^24 more advances return the accumulator to the same value |
| `Nco.SquareFollowsTopBit` | lab4/scripts/nco.py:29-45 | without interpolation the square output is +1.0 exactly when the accumulator's top bit is clear |
| `NcoMain.Clamped` | lab4/scripts/nco.py:123-124 | the printed code is below `DAC`; a code below `DAC` is kept, any other becomes `DAC - 1` |
| `NcoMain.DumpSineLut` | lab4/scripts/nco.py:122-125 | one line per DAC code; each line has exactly 10 binary digits, most significant first, and reads back as the code clamped to `DAC - 1` |
| `NcoMain.Ceil` | lab4/scripts/nco.py:88 | `np.ceil(x)` is the least integer not below x |
| `NcoMain.SampleCount` | lab4/scripts/nco.py:88 | at least `fsamp / fsig * periods` samples; for a positive period count, fewer than `(fsamp / fsig + 1) * periods`, and a whole multiple of the period count |
| `NcoMain.ScenarioSampleCount` | lab4/scripts/nco.py:84-88 | 30 kHz sampling, 880 Hz and 5 periods give 175 samples |
| `NcoMain.Stream` | lab4/scripts/nco.py:89 | `count` calls give `count` samples |
| `NcoMain.StreamAt` | lab4/scripts/nco.py:89 | sample n of the stream is the output at the accumulator value reached after n advances |
| `NcoMain.StreamRepeats` | lab4/scripts/nco.py:89 | the sample stream repeats exactly every 2^24 calls |
| `NcoMain.SampleStream` | lab4/scripts/nco.py:89 | the list comprehension yields the stream from the starting accumulator and leaves the accumulator `count` advances later |
| `NcoMain.ResetMatchesFresh` | lab4/scripts/nco.py:67-68 | after `reset`, the next sample equals the first sample of a freshly built oscillator with the same tables, and both are the outputs at accumulator 0; the oscillator stays well formed |
| `MusicXml.CollectNotes` | scripts/musicxml_parser.py:50-70 | `notes` holds one tuple per note element, measure by measure, in document order |
| `MusicXml.NoteOf` | scripts/musicxml_parser.py:53-70 | a rest element gives a rest and any other a pitched note, with the element's duration, step and octave; alter is the first `<alter>` value, or 0 when there is none |
| `MusicXml.KeyNumber` | scripts/musicxml_parser.py:77-82 | defined exactly when the step is in `step_to_int`; then it equals `12*octave + pitch class + alter - 8`, for both the C..G and the A/B branch |
| `MusicXml.ConcertPitch` | scripts/musicxml_parser.py:77-83 | A4 is key 49, the 440 Hz reference; C4 is key 40; B3 is 39 and C5 is 52 |
| `MusicXml.Transpose` | scripts/musicxml_parser.py:77-82 | raising alter by 1 raises the key by 1; raising the octave by 1 raises it by 12 |
| `MusicXml.NaturalKeysDistinct` | scripts/musicxml_parser.py:77-82 | two natural pitches with the same key have the same step and octave |
| `MusicXml.MissingAlterIsNatural` | scripts/musicxml_parser.py:62-66 | a note element without `<alter>` gets alter 0 and its natural key |
| `MusicXml.EntryOf` | scripts/musicxml_parser.py:74-84 | defined exactly for a rest or a known step; a rest of duration d gives `(0, d)`; a pitched note gives the integer frequency of key `12*octave + pitch class + alter - 8` and its duration |
| `MusicXml.BuildNoteList` | scripts/musicxml_parser.py:72-84 | the loop computes `note_list`, or fails as soon as a step raises KeyError |
| `MusicXml.NoteListShape` | scripts/musicxml_parser.py:72-84 | `note_list` exists exactly when every pitched step is known; then it has one entry per note, in order: a rest of duration d becomes `(0, d)`, and a pitched note becomes the integer frequency of its key and its duration |
| `MusicXml.EntryLines` | scripts/musicxml_parser.py:92-101 | an entry writes `4*d` lines for a rest and `5*d` for a tone, none when d is not positive |
| `MusicXml.EntryLinesShape` | scripts/musicxml_parser.py:92-101 | a rest writes `4*d` zeros; a tone writes `4*d` half-periods and then `d` zeros, `5*d` lines in all |
| `MusicXml.WriteEntry` | scripts/musicxml_parser.py:92-101 | the loops for one entry write exactly that entry's lines |
| `MusicXml.WriteMemory` | scripts/musicxml_parser.py:90-101 | the file holds the entries' lines in `note_list` order |
| `MusicXml.MemoryLinesCount` | scripts/musicxml_parser.py:90-101 | the total line count is the sum of the entries' contributions |
| `MusicXml.MemoryLinesAppend` | scripts/musicxml_parser.py:90-91 | the memory for two consecutive parts of `note_list` is the concatenation of their memories |
| `MusicXml.EntryLinesInOrder` | scripts/musicxml_parser.py:90-101 | entry i's lines sit directly after the lines of the entries before it and before those after it |

## Left out

- Float table contents (`nco.py:25-27`, `nco.py:32-38`): `np.sin`, `np.linspace`, `np.floor`, the rescaling and the DAC scaling `int((x + 1) * DAC / 2)` are floating point. The sine, triangle and sawtooth tables and the sine DAC codes are given sequences. So the shape of the sine, triangle and sawtooth tables is not stated.
- `FXnum` conversion and arithmetic (`nco.py:26`, `nco.py:50-52`): rounding and overflow (`FXoverflowError`) belong to the spfpm library. Interpolation is the abstract `lerp`, so no claim is made that an interpolated sample lies between its two bracketing entries.
- Nco.NCO.FrequencyRoundTrip: the bound holds for exact reals. It is not stated for the IEEE doubles Python uses in `(freq / fsamp) * 2**N`, `round` and `effective_frequency`.
- Nco.AccAfterPeriodic: periodicity is proved for 2^24 calls. The shorter period `2^24 / gcd(fcw, 2^24)` is not proved.
- Argument parsing, the analysis comparison, the plots and the commented-out dumps (`nco.py:70-83`, `nco.py:91-117`, `nco.py:126-161`) are I/O or plotting.
- `print` in the dump loop: the dump returns its lines instead of printing them.
- Binary.ParseBinary: takes any string of binary digits, and reads the empty string as 0 where Python's `int('', 2)` raises ValueError. The script only parses `'1' * k` with k = 8 and k = 16.
- In the parser: zip extraction, temp-directory removal, `sys.argv`, the minidom traversal and the `int(...)` parsing of element texts (`musicxml_parser.py:21-45`, `:103-105`). A note element is a value with its texts already read.
- Diagnostic `print` calls in the parser (`musicxml_parser.py:51`, `:56`, `:69`, `:86-87`).
- The key-to-frequency formula `2 ** ((n - 49)/12) * 440.0` (`musicxml_parser.py:83`) and the half-period `int(125e6/f/2)` (`:98`) are float. They are the parameters `frequencyOf` and `periodOf`.
- File output (`musicxml_parser.py:90-101`): the memory file is the sequence of integers written to it. The `str(...) + "\n"` text formatting is not modelled.
