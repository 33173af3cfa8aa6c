/** The note-to-memory translation of scripts/musicxml_parser.py: note elements become
    `notes` tuples, pitches become piano key numbers and then `note_list` entries
    `(frequency, duration)`, and every entry becomes lines of the tone-period memory.

    The zip and XML front end is not modelled: a `<note>` element arrives as a value with
    its texts already read. The two floating-point conversions, key number to integer
    frequency and frequency to half-period, are parameters. */
module MusicXml {

  datatype Option<T> = None | Some(value: T)

  /** `step_to_int`: the step letters, numbered so that C is 4 and A is 1. */
  const StepToInt: map<string, int> :=
    map["A" := 1, "B" := 3, "C" := 4, "D" := 6, "E" := 8, "F" := 9, "G" := 11]

  /** Pitch classes in the usual numbering, C = 0 up to B = 11: the reference the key
      numbers are checked against. */
  const PitchClass: map<string, int> :=
    map["C" := 0, "D" := 2, "E" := 4, "F" := 5, "G" := 7, "A" := 9, "B" := 11]

  /** A `<note>` element as the script reads it: whether it holds a `<rest>`, and the integer
      or text contents of `<step>`, `<octave>`, each `<alter>` and `<duration>`. */
  datatype NoteElement = NoteElement(isRest: bool, step: string, octave: int, alters: seq<int>, duration: int)

  /** An entry of `notes`: `(0, 0, 0, duration)` for a rest, `(step, octave, alter, duration)` otherwise. */
  datatype Note = Rest(duration: int) | Pitched(step: string, octave: int, alter: int, duration: int)

  /** An entry of `note_list`: `(frequency, duration)`, with frequency 0 for a rest. */
  datatype Entry = Entry(frequency: int, duration: int)

  // ---------------------------------------------------------------------------
  // Reading note elements.

  /** The tuple one `<note>` element contributes to `notes`; a missing `<alter>` counts as 0. */
  function NoteOf(e: NoteElement): (n: Note)
    ensures n.Rest? <==> e.isRest
    ensures n.duration == e.duration
    ensures n.Pitched? ==> n.step == e.step && n.octave == e.octave
    ensures n.Pitched? && |e.alters| == 0 ==> n.alter == 0
    ensures n.Pitched? && |e.alters| > 0 ==> n.alter == e.alters[0]
  {
    if e.isRest then Rest(e.duration)
    else Pitched(e.step, e.octave, if |e.alters| > 0 then e.alters[0] else 0, e.duration)
  }

  /** `notes` after the loop over every measure and every note element in it. */
  function NotesOf(measures: seq<seq<NoteElement>>): seq<Note> {
    if |measures| == 0 then []
    else
      var last := measures[|measures| - 1];
      NotesOf(measures[..|measures| - 1]) + seq(|last|, i requires 0 <= i < |last| => NoteOf(last[i]))
  }

  /** The measure loop: one `notes` entry per note element, measure by measure, in document order. */
  method CollectNotes(measures: seq<seq<NoteElement>>) returns (notes: seq<Note>)
    ensures notes == NotesOf(measures)
  {
    notes := [];
    var m := 0;
    while m < |measures|
      invariant 0 <= m <= |measures|
      invariant notes == NotesOf(measures[..m])
    {
      var measure := measures[m];
      ghost var before := notes;
      var k := 0;
      while k < |measure|
        invariant 0 <= k <= |measure|
        invariant notes == before + seq(k, i requires 0 <= i < k => NoteOf(measure[i]))
      {
        notes := notes + [NoteOf(measure[k])];
        k := k + 1;
      }
      assert measures[..m + 1][..m] == measures[..m];
      m := m + 1;
    }
    assert measures[..|measures|] == measures;
  }

  // ---------------------------------------------------------------------------
  // Pitch to key number.

  /** The piano key number of a pitch (A4 is 49, C4 is 40), or None where `step_to_int[step]`
      raises KeyError. It is the pitch's semitone count above C0 (12 per octave plus the
      pitch class plus the alter) less 8. */
  function KeyNumber(step: string, octave: int, alter: int): (r: Option<int>)
    ensures r.Some? <==> step in StepToInt
    ensures step in StepToInt ==> step in PitchClass && r.value == 12 * octave + PitchClass[step] + alter - 8
  {
    if step !in StepToInt then None
    else
      var semitoneAboveBelowMiddleC := StepToInt[step] - StepToInt["C"] + alter;
      var noteNumber :=
        if StepToInt[step] >= StepToInt["C"] then semitoneAboveBelowMiddleC + (octave - 4) * 12
        else semitoneAboveBelowMiddleC + (octave - 3) * 12;
      Some(noteNumber + 40)
  }

  /** A4 is key 49, the 440 Hz reference of the frequency formula, and C4 is key 40. */
  lemma ConcertPitch()
    ensures KeyNumber("A", 4, 0) == Some(49) && KeyNumber("C", 4, 0) == Some(40)
    ensures KeyNumber("B", 3, 0) == Some(39) && KeyNumber("C", 5, 0) == Some(52)
  {
    assert "A" in StepToInt && "B" in StepToInt && "C" in StepToInt;
  }

  /** An alter of +1 raises the key by one, an octave raises it by twelve. */
  lemma Transpose(step: string, octave: int, alter: int)
    requires step in StepToInt
    ensures KeyNumber(step, octave, alter + 1).value == KeyNumber(step, octave, alter).value + 1
    ensures KeyNumber(step, octave + 1, alter).value == KeyNumber(step, octave, alter).value + 12
  {
  }

  /** Distinct natural pitches land on distinct keys. */
  lemma NaturalKeysDistinct(s1: string, o1: int, s2: string, o2: int)
    requires s1 in StepToInt && s2 in StepToInt
    requires KeyNumber(s1, o1, 0) == KeyNumber(s2, o2, 0)
    ensures s1 == s2 && o1 == o2
  {
    var p1, p2 := PitchClass[s1], PitchClass[s2];
    assert 0 <= p1 < 12 && 0 <= p2 < 12;
    assert 12 * (o1 - o2) == p2 - p1;
    assert p1 == p2;
  }

  /** A pitched note element without `<alter>` sounds its natural key. */
  lemma MissingAlterIsNatural(e: NoteElement)
    requires !e.isRest && |e.alters| == 0 && e.step in StepToInt
    ensures NoteOf(e).alter == 0
    ensures KeyNumber(NoteOf(e).step, NoteOf(e).octave, NoteOf(e).alter) == Some(12 * e.octave + PitchClass[e.step] - 8)
  {
  }

  // ---------------------------------------------------------------------------
  // Notes to `note_list`.

  /** The `note_list` entry of one note: `(0, duration)` for a rest, otherwise the integer
      frequency of its key and its duration; None on an unknown step. */
  function EntryOf(note: Note, frequencyOf: int -> int): (r: Option<Entry>)
    ensures r.Some? <==> (note.Rest? || note.step in StepToInt)
    ensures r.Some? ==> r.value.duration == note.duration
    ensures note.Rest? ==> r == Some(Entry(0, note.duration))
    ensures note.Pitched? && r.Some? ==>
      r.value.frequency == frequencyOf(12 * note.octave + PitchClass[note.step] + note.alter - 8)
  {
    match note
    case Rest(d) => Some(Entry(0, d))
    case Pitched(step, octave, alter, d) =>
      match KeyNumber(step, octave, alter)
      case None => None
      case Some(key) => Some(Entry(frequencyOf(key), d))
  }

  /** `note_list` after the loop over `notes`, or None if the loop raises KeyError. */
  function NoteListOf(notes: seq<Note>, frequencyOf: int -> int): Option<seq<Entry>> {
    if |notes| == 0 then Some([])
    else
      match NoteListOf(notes[..|notes| - 1], frequencyOf)
      case None => None
      case Some(init) =>
        match EntryOf(notes[|notes| - 1], frequencyOf)
        case None => None
        case Some(e) => Some(init + [e])
  }

  /** The loop building `note_list`, stopping at the first step the table does not know. */
  method BuildNoteList(notes: seq<Note>, frequencyOf: int -> int) returns (noteList: Option<seq<Entry>>)
    ensures noteList == NoteListOf(notes, frequencyOf)
  {
    var entries: seq<Entry> := [];
    var n := 0;
    while n < |notes|
      invariant 0 <= n <= |notes|
      invariant NoteListOf(notes[..n], frequencyOf) == Some(entries)
    {
      assert notes[..n + 1][..n] == notes[..n];
      match EntryOf(notes[n], frequencyOf)
      case None =>
        PrefixFails(notes, n + 1, frequencyOf);
        return None;
      case Some(e) =>
        entries := entries + [e];
      n := n + 1;
    }
    assert notes[..|notes|] == notes;
    noteList := Some(entries);
  }

  /** Once a prefix of the notes fails, the whole list fails. */
  lemma {:induction false} PrefixFails(notes: seq<Note>, n: nat, frequencyOf: int -> int)
    requires n <= |notes| && NoteListOf(notes[..n], frequencyOf).None?
    ensures NoteListOf(notes, frequencyOf).None?
    decreases |notes| - n
  {
    if n < |notes| {
      assert notes[..n + 1][..n] == notes[..n];
      PrefixFails(notes, n + 1, frequencyOf);
    } else {
      assert notes[..n] == notes;
    }
  }

  /** `note_list` keeps the order and length of `notes`, turns every rest of duration d into
      `(0, d)` and every pitched note into its key's integer frequency and duration, and
      succeeds exactly when every pitched note has a known step. */
  lemma {:induction false} NoteListShape(notes: seq<Note>, frequencyOf: int -> int)
    ensures NoteListOf(notes, frequencyOf).Some? <==>
      forall i :: 0 <= i < |notes| && notes[i].Pitched? ==> notes[i].step in StepToInt
    ensures NoteListOf(notes, frequencyOf).Some? ==>
      |NoteListOf(notes, frequencyOf).value| == |notes| &&
      forall i :: 0 <= i < |notes| ==>
        (NoteListOf(notes, frequencyOf).value[i].duration == notes[i].duration &&
         (notes[i].Rest? ==> NoteListOf(notes, frequencyOf).value[i] == Entry(0, notes[i].duration)) &&
         (notes[i].Pitched? ==>
            NoteListOf(notes, frequencyOf).value[i] ==
            Entry(frequencyOf(KeyNumber(notes[i].step, notes[i].octave, notes[i].alter).value), notes[i].duration)))
  {
    if |notes| > 0 {
      var init := notes[..|notes| - 1];
      NoteListShape(init, frequencyOf);
      assert forall i :: 0 <= i < |init| ==> init[i] == notes[i];
    }
  }

  // ---------------------------------------------------------------------------
  // `note_list` to memory lines.

  /** `n` copies of `x`, none when `n` is not positive (a Python `range` of that length). */
  function Repeat(x: int, n: int): seq<int> {
    if n <= 0 then [] else seq(n, _ => x)
  }

  lemma RepeatSnoc(x: int, n: int)
    requires n >= 0
    ensures Repeat(x, n) + [x] == Repeat(x, n + 1)
  {
  }

  /** A `range(0, n)` loop that stopped at i has written as many lines as `Repeat(x, n)`. */
  lemma RepeatDone(x: int, i: int, n: int)
    requires 0 <= i && i >= n && (i <= n || i == 0)
    ensures Repeat(x, i) == Repeat(x, n)
  {
  }

  /** How many memory lines an entry produces: 4d for a rest, 5d for a tone. */
  function LinesPerEntry(e: Entry): nat {
    (if e.frequency == 0 then 4 else 5) * (if e.duration <= 0 then 0 else e.duration)
  }

  /** The lines one `note_list` entry writes: for a rest, `4 * d` zeros; for a tone,
      `4 * d` copies of its half-period and then `d` zeros of pause. */
  function EntryLines(e: Entry, periodOf: int -> int): (lines: seq<int>)
    ensures |lines| == LinesPerEntry(e)
  {
    if e.frequency == 0 then Repeat(0, 4 * e.duration)
    else Repeat(periodOf(e.frequency), 4 * e.duration) + Repeat(0, e.duration)
  }

  /** A rest of duration d writes 4d zeros; a tone writes 4d copies of its half-period
      followed by d zeros, 5d lines in all. */
  lemma EntryLinesShape(e: Entry, periodOf: int -> int)
    ensures |EntryLines(e, periodOf)| == LinesPerEntry(e)
    ensures forall k :: 0 <= k < |EntryLines(e, periodOf)| ==>
      EntryLines(e, periodOf)[k] == if e.frequency != 0 && k < 4 * e.duration then periodOf(e.frequency) else 0
  {
  }

  /** The contents of the memory file. */
  function MemoryLines(entries: seq<Entry>, periodOf: int -> int): seq<int> {
    if |entries| == 0 then []
    else MemoryLines(entries[..|entries| - 1], periodOf) + EntryLines(entries[|entries| - 1], periodOf)
  }

  /** Total line count: the sum of every entry's contribution. */
  function TotalLines(entries: seq<Entry>): nat {
    if |entries| == 0 then 0 else TotalLines(entries[..|entries| - 1]) + LinesPerEntry(entries[|entries| - 1])
  }

  /** The file writing loop: the lines of every `note_list` entry, in order. */
  method WriteMemory(noteList: seq<Entry>, periodOf: int -> int) returns (lines: seq<int>)
    ensures lines == MemoryLines(noteList, periodOf)
  {
    lines := [];
    var n := 0;
    while n < |noteList|
      invariant 0 <= n <= |noteList|
      invariant lines == MemoryLines(noteList[..n], periodOf)
    {
      MemoryLinesStep(noteList, n, periodOf);
      var written := WriteEntry(noteList[n], periodOf);
      lines := lines + written;
      n := n + 1;
    }
    assert noteList[..|noteList|] == noteList;
  }

  /** The body of the file writing loop for one entry: a rest writes `4 * d` zeros and moves
      on; a tone writes its half-period `4 * d` times and then `d` zeros. */
  method WriteEntry(note: Entry, periodOf: int -> int) returns (lines: seq<int>)
    ensures lines == EntryLines(note, periodOf)
  {
    lines := [];
    if note.frequency == 0 {
      var i := 0;
      while i < 4 * note.duration
        invariant 0 <= i && (i <= 4 * note.duration || i == 0)
        invariant lines == Repeat(0, i)
      {
        RepeatSnoc(0, i);
        lines := lines + [0];
        i := i + 1;
      }
      RepeatDone(0, i, 4 * note.duration);
      return;
    }
    var i := 0;
    while i < 4 * note.duration
      invariant 0 <= i && (i <= 4 * note.duration || i == 0)
      invariant lines == Repeat(periodOf(note.frequency), i)
    {
      RepeatSnoc(periodOf(note.frequency), i);
      lines := lines + [periodOf(note.frequency)];
      i := i + 1;
    }
    RepeatDone(periodOf(note.frequency), i, 4 * note.duration);
    ghost var tone := lines;
    i := 0;
    while i < note.duration
      invariant 0 <= i && (i <= note.duration || i == 0)
      invariant lines == tone + Repeat(0, i)
    {
      RepeatSnoc(0, i);
      lines := lines + [0];
      i := i + 1;
    }
    RepeatDone(0, i, note.duration);
  }

  lemma MemoryLinesStep(entries: seq<Entry>, n: nat, periodOf: int -> int)
    requires n < |entries|
    ensures MemoryLines(entries[..n + 1], periodOf) == MemoryLines(entries[..n], periodOf) + EntryLines(entries[n], periodOf)
  {
    assert entries[..n + 1][..n] == entries[..n];
  }

  /** The memory holds exactly the sum of the entries' line counts. */
  lemma {:induction false} MemoryLinesCount(entries: seq<Entry>, periodOf: int -> int)
    ensures |MemoryLines(entries, periodOf)| == TotalLines(entries)
  {
    if |entries| > 0 {
      MemoryLinesCount(entries[..|entries| - 1], periodOf);
      EntryLinesShape(entries[|entries| - 1], periodOf);
    }
  }

  /** Memory for consecutive parts of `note_list` is the concatenation of their memories. */
  lemma {:induction false} MemoryLinesAppend(a: seq<Entry>, b: seq<Entry>, periodOf: int -> int)
    ensures MemoryLines(a + b, periodOf) == MemoryLines(a, periodOf) + MemoryLines(b, periodOf)
  {
    if |b| == 0 {
      assert a + b == a;
    } else {
      var init, last := b[..|b| - 1], b[|b| - 1];
      assert (a + b)[..|a + b| - 1] == a + init;
      assert (a + b)[|a + b| - 1] == last;
      MemoryLinesAppend(a, init, periodOf);
      assert MemoryLines(a + b, periodOf) == MemoryLines(a + init, periodOf) + EntryLines(last, periodOf);
      assert MemoryLines(b, periodOf) == MemoryLines(init, periodOf) + EntryLines(last, periodOf);
    }
  }

  /** Entry i's lines sit, in `note_list` order, right after the lines of the entries before it. */
  lemma EntryLinesInOrder(entries: seq<Entry>, i: nat, periodOf: int -> int)
    requires i < |entries|
    ensures MemoryLines(entries, periodOf) ==
      MemoryLines(entries[..i], periodOf) + EntryLines(entries[i], periodOf) + MemoryLines(entries[i + 1..], periodOf)
  {
    SplitAt(entries, i);
    MemoryLinesAppend(entries[..i] + [entries[i]], entries[i + 1..], periodOf);
    MemoryLinesAppend(entries[..i], [entries[i]], periodOf);
    MemoryLinesSingle(entries[i], periodOf);
  }

  lemma SplitAt(entries: seq<Entry>, i: nat)
    requires i < |entries|
    ensures entries == entries[..i] + [entries[i]] + entries[i + 1..]
  {
  }

  lemma MemoryLinesSingle(e: Entry, periodOf: int -> int)
    ensures MemoryLines([e], periodOf) == EntryLines(e, periodOf)
  {
    assert [e][..0] == [];
  }
}
