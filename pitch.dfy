/**
 * The second phase of note handling: `note_to_midi` converts a note name in
 * scientific pitch notation ("C4", "D#5", "Bb3") to a MIDI note number, with
 * middle C (C4) at 60 and A4 at 69 as in the MIDI 1.0 note-number
 * convention. Unlike parsing, conversion can fail, in three ordered ways.
 */
module Pitch {
  import opened Text
  import opened Wrappers

  /** Semitones above C of each accepted pitch-class spelling; sharps and flats of one accidental only. */
  const NoteMap: map<string, nat> := map[
    "C" := 0, "C#" := 1, "Db" := 1, "D" := 2, "D#" := 3, "Eb" := 3,
    "E" := 4, "F" := 5, "F#" := 6, "Gb" := 6, "G" := 7, "G#" := 8,
    "Ab" := 8, "A" := 9, "A#" := 10, "Bb" := 10, "B" := 11
  ]

  /** The three ValueErrors `note_to_midi` raises, with the text each one reports. */
  datatype NoteError =
    | InvalidNoteName(name: string)   // fewer than two characters
    | InvalidOctave(name: string)     // the last character is not a digit
    | InvalidNote(note: string)       // the spelling before the octave is not in NoteMap

  /** The octave digit: the last character of a name of at least two characters. */
  function OctaveChar(noteName: string): char
    requires |noteName| >= 2
  {
    noteName[|noteName| - 1]
  }

  /** The pitch-class spelling: everything before the octave digit. */
  function Spelling(noteName: string): string
    requires |noteName| >= 2
  {
    noteName[..|noteName| - 1]
  }

  /**
   * `note_to_midi`: the semitone offset of the spelling plus twelve per
   * octave, counting from octave -1. Every number it returns is a MIDI
   * note number from C0 (12) to B9 (131).
   */
  function NoteToMidi(noteName: string): (r: Result<int, NoteError>)
    ensures r.Ok? ==> 12 <= r.value <= 131
  {
    if |noteName| < 2 then Err(InvalidNoteName(noteName))
    else if !IsDigit(OctaveChar(noteName)) then Err(InvalidOctave(noteName))
    else
      var octave := DigitValue(OctaveChar(noteName));
      var note := Spelling(noteName);
      if note !in NoteMap then Err(InvalidNote(note))
      else Ok(NoteMap[note] + (octave + 1) * 12)
  }

  // ---------------------------------------------------------------------------
  // The table
  // ---------------------------------------------------------------------------

  /** The sharp spelling of each pitch class, C to B. */
  const SharpSpellings: seq<string> := ["C", "C#", "D", "D#", "E", "F", "F#", "G", "G#", "A", "A#", "B"]

  /** Every offset in the table is a pitch class, 0 to 11, and every pitch class has a sharp spelling in it. */
  lemma TableCoversPitchClasses()
    ensures forall note :: note in NoteMap ==> NoteMap[note] < 12
    ensures forall p :: 0 <= p < 12 ==> SharpSpellings[p] in NoteMap && NoteMap[SharpSpellings[p]] == p
  {
  }

  /** No spelling in the table ends in a digit or a sign, so no longer octave can hide in one. */
  lemma SpellingsEndInLetterOrAccidental(note: string)
    requires note in NoteMap
    ensures |note| >= 1
    ensures !IsDigit(note[|note| - 1]) && note[|note| - 1] != '-'
  {
  }

  /** The enharmonic pairs C#/Db, D#/Eb, F#/Gb, G#/Ab and A#/Bb share an offset. */
  lemma EnharmonicSpellings()
    ensures NoteMap["C#"] == NoteMap["Db"]
    ensures NoteMap["D#"] == NoteMap["Eb"]
    ensures NoteMap["F#"] == NoteMap["Gb"]
    ensures NoteMap["G#"] == NoteMap["Ab"]
    ensures NoteMap["A#"] == NoteMap["Bb"]
  {
  }

  // ---------------------------------------------------------------------------
  // Success
  // ---------------------------------------------------------------------------

  /** A known spelling followed by an octave digit converts by the formula offset + (octave + 1) * 12. */
  lemma NoteToMidiFormula(note: string, d: char)
    requires note in NoteMap && IsDigit(d)
    ensures NoteToMidi(note + [d]) == Ok(NoteMap[note] + (DigitValue(d) + 1) * 12)
  {
  }

  /** Middle C is 60 and concert A is 69. */
  lemma MiddleCAndConcertA()
    ensures NoteToMidi("C4") == Ok(60)
    ensures NoteToMidi("A4") == Ok(69)
  {
    NoteToMidiFormula("C", '4');
    assert "C" + ['4'] == "C4";
    NoteToMidiFormula("A", '4');
    assert "A" + ['4'] == "A4";
  }

  /** Enharmonic spellings convert to the same number: C#4 and Db4 are both 61. */
  lemma EnharmonicNamesAgree(sharp: string, flat: string, d: char)
    requires (sharp, flat) in {("C#", "Db"), ("D#", "Eb"), ("F#", "Gb"), ("G#", "Ab"), ("A#", "Bb")}
    requires IsDigit(d)
    ensures NoteToMidi(sharp + [d]).Ok?
    ensures NoteToMidi(sharp + [d]) == NoteToMidi(flat + [d])
  {
  }

  lemma CSharpFour()
    ensures NoteToMidi("C#4") == NoteToMidi("Db4") == Ok(61)
  {
    NoteToMidiFormula("C#", '4');
    assert "C#" + ['4'] == "C#4";
    NoteToMidiFormula("Db", '4');
    assert "Db" + ['4'] == "Db4";
  }

  /** Raising the octave digit by one raises the number by exactly twelve. */
  lemma OctaveUpAddsTwelve(note: string, d: char)
    requires note in NoteMap && IsDigit(d) && d != '9'
    ensures NoteToMidi(note + [d]).Ok?
    ensures NoteToMidi(note + [(d as int + 1) as char]) == Ok(NoteToMidi(note + [d]).value + 12)
  {
  }

  /** A successful conversion determines its octave digit and its pitch class. */
  lemma NoteToMidiDecodes(noteName: string)
    requires NoteToMidi(noteName).Ok?
    ensures |noteName| >= 2 && IsDigit(OctaveChar(noteName)) && Spelling(noteName) in NoteMap
    ensures DigitValue(OctaveChar(noteName)) == NoteToMidi(noteName).value / 12 - 1
    ensures NoteMap[Spelling(noteName)] == NoteToMidi(noteName).value % 12
  {
  }

  /** Two names convert to the same number only when they share the octave digit and name enharmonic pitch classes. */
  lemma SameNumberSamePitch(a: string, b: string)
    requires NoteToMidi(a).Ok? && NoteToMidi(a) == NoteToMidi(b)
    ensures OctaveChar(a) == OctaveChar(b)
    ensures NoteMap[Spelling(a)] == NoteMap[Spelling(b)]
  {
  }

  // ---------------------------------------------------------------------------
  // The inverse: every MIDI number from 12 to 131 has a name
  // ---------------------------------------------------------------------------

  /** The sharp-spelled name of a MIDI number from C0 (12) to B9 (131). */
  function MidiToNoteName(midi: int): (name: string)
    requires 12 <= midi <= 131
    ensures |name| >= 2
  {
    SharpSpellings[midi % 12] + [DigitChar(midi / 12 - 1)]
  }

  /** Naming a MIDI number and converting the name back gives the number: the range 12..131 is exactly covered. */
  lemma NoteNameRoundTrip(midi: int)
    requires 12 <= midi <= 131
    ensures NoteToMidi(MidiToNoteName(midi)) == Ok(midi)
  {
  }

  // ---------------------------------------------------------------------------
  // Failure, in order
  // ---------------------------------------------------------------------------

  /**
   * The failures are checked in order: length first, then the octave
   * character, then the spelling; the first that applies is reported.
   */
  lemma ErrorOrder(noteName: string)
    ensures |noteName| < 2 <==> NoteToMidi(noteName) == Err(InvalidNoteName(noteName))
    ensures NoteToMidi(noteName) == Err(InvalidOctave(noteName)) <==>
      |noteName| >= 2 && !IsDigit(OctaveChar(noteName))
    ensures |noteName| >= 2 ==>
      (NoteToMidi(noteName) == Err(InvalidNote(Spelling(noteName))) <==>
       IsDigit(OctaveChar(noteName)) && Spelling(noteName) !in NoteMap)
    ensures NoteToMidi(noteName).Ok? <==>
      |noteName| >= 2 && IsDigit(OctaveChar(noteName)) && Spelling(noteName) in NoteMap
  {
  }

  /** "C" is too short, "Hx" has no octave digit, and "H9" names no pitch class. */
  lemma FailureExamples()
    ensures NoteToMidi("C") == Err(InvalidNoteName("C"))
    ensures NoteToMidi("Hx") == Err(InvalidOctave("Hx"))
    ensures NoteToMidi("H9") == Err(InvalidNote("H"))
  {
    assert Spelling("H9") == "H";
  }

  /**
   * Only the last character is the octave, so a two-digit octave leaves a
   * digit at the end of the spelling and is rejected as an invalid note.
   */
  lemma TwoDigitOctaveRejected(note: string, d1: char, d2: char)
    requires note in NoteMap && IsDigit(d1) && IsDigit(d2)
    ensures NoteToMidi(note + [d1, d2]) == Err(InvalidNote(note + [d1]))
  {
    var name := note + [d1, d2];
    assert Spelling(name) == note + [d1];
    assert (note + [d1])[|note|] == d1;
    if note + [d1] in NoteMap {
      SpellingsEndInLetterOrAccidental(note + [d1]);
    }
  }

  /** A signed octave leaves the sign at the end of the spelling and is rejected as an invalid note. */
  lemma SignedOctaveRejected(note: string, d: char)
    requires note in NoteMap && IsDigit(d)
    ensures NoteToMidi(note + ['-', d]) == Err(InvalidNote(note + ['-']))
  {
    var name := note + ['-', d];
    assert Spelling(name) == note + ['-'];
    assert (note + ['-'])[|note|] == '-';
    if note + ['-'] in NoteMap {
      SpellingsEndInLetterOrAccidental(note + ['-']);
    }
  }

  /** "C10" and "C-1" are rejected with the spellings "C1" and "C-". */
  lemma OctaveOutsideZeroToNineRejected()
    ensures NoteToMidi("C10") == Err(InvalidNote("C1"))
    ensures NoteToMidi("C-1") == Err(InvalidNote("C-"))
  {
    TwoDigitOctaveRejected("C", '1', '0');
    assert "C" + ['1', '0'] == "C10" && "C" + ['1'] == "C1";
    SignedOctaveRejected("C", '1');
    assert "C" + ['-', '1'] == "C-1" && "C" + ['-'] == "C-";
  }
}
