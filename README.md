# Note-string handling of the TCSinger2 demo app, in Dafny

The demo app for the TCSinger2 singing-voice synthesiser takes its melody as a
note string such as `"C4 D4 rest 64 E4"`. The only self-contained logic in
the app is in `utils/audio_utils.py`. This project models that logic and
proves properties of it.

- `parse_notes` is the first phase. It strips the string and splits it on
  runs of whitespace. Each word becomes one token:
  - a case-insensitive `rest` becomes a rest;
  - an all-digit word becomes a MIDI number;
  - anything else is kept verbatim as a note name.

  In the model, parsing never fails. The code as written raises on two
  kinds of all-digit word; see "## Findings".
- `note_to_midi` is the second phase, and it can fail. It converts a note
  name in scientific pitch notation to a MIDI note number: the pitch-class
  offset from a fixed 17-entry table, plus `(octave + 1) * 12`. Middle C
  (C4) is therefore 60 and A4 is 69, as in the MIDI 1.0 note-number
  convention. There are three failures, checked in this order: a name
  shorter than two characters, a last character that is not a digit, and a
  spelling not in the table.
- `generate_silence` returns `int(duration * sr)` zero samples.

Modules:

- `Wrappers` (wrappers.dfy): the `Result` type. It stands for the source's
  raised exceptions.
- `Text` (text.dfy): the Python string built-ins the parser relies on:
  - `str.isspace`, the whitespace that `strip()` and `split()` use;
  - `strip()`, `split()` and `" ".join`;
  - `lower()`;
  - `isdigit()` and `int()` on decimal digits.

  It also holds lemmas that characterise `split()` completely.
- `Notes` (notes.dfy): the token datatype, the classification of one word,
  and `ParseNotes`. `ParseNotes` is a method with a loop, like the source's
  `for` loop that appends to a list. It is proved against `ClassifyAll`.
  A formatter `Format` is the partner of parsing: parsing a formatted token
  list gives the list back.
- `Pitch` (pitch.dfy): the pitch-class table and `NoteToMidi`. Its partner
  is `MidiToNoteName`, which names every number from 12 to 131 and converts
  back to the same number.
- `Silence` (silence.dfy): `Zeros` and `GenerateSilence`. The latter uses
  Python's truncation toward zero and NumPy's refusal of negative lengths.

## Model

| member | source | states |
|---|---|---|
| `Notes.ParseNotes` | utils/audio_utils.py:123-151 | the result has exactly one token per whitespace-delimited word of the input, in input order, and token i is the classification of word i |
| `Notes.Classify` | utils/audio_utils.py:142-149 | no contract of its own: the classification of one word, with the source's three tests in order. `Notes.RestIsCaseInsensitive`, `Notes.DigitWordIsMidi`, `Notes.ClassifyRender`, `Notes.ClassifyCanonical` and `Notes.SuperscriptWordIsName` characterise it |
| `Notes.ClassifyAll` | utils/audio_utils.py:141-149 | one token per word, in order, each the classification of its word |
| `Text.Split` | utils/audio_utils.py:138 | no contract of its own: `split()` with no separator. `Text.SplitGivesWords`, `Text.SplitEmptyIffAllSpace`, `Text.SplitCons`, `Text.SplitTrailingSpace` and `Text.SplitJoinWithSpaces` characterise it |
| `Text.Strip` | utils/audio_utils.py:138 | no contract of its own: `strip()`, dropping the leading and then the trailing whitespace. `Text.SplitOfStrip` states what it means for the parser |
| `Text.SplitOfStrip` | utils/audio_utils.py:138 | `strip()` before `split()` changes nothing: both give the same words |
| `Text.SplitGivesWords` | utils/audio_utils.py:138 | every piece `split()` returns is non-empty and contains no whitespace |
| `Text.SplitEmptyIffAllSpace` | utils/audio_utils.py:138 | a string has no words exactly when it is empty or all whitespace |
| `Text.SplitCons` | utils/audio_utils.py:138 | leading whitespace, a word, then the end or whitespace: `split()` yields that word first and then the words of the rest (with the previous row this determines `split()` on every string) |
| `Text.SplitTrailingSpace` | utils/audio_utils.py:138 | trailing whitespace adds no word and changes none |
| `Text.SplitJoinWithSpaces` | utils/audio_utils.py:138 | splitting words joined by single spaces gives the same words back |
| `Notes.BlankStringHasNoTokens` | utils/audio_utils.py:138-151 | an empty or all-whitespace note string parses to no tokens |
| `Text.Lower` | utils/audio_utils.py:142 | lower-casing keeps the length and maps each ASCII capital to its small letter, leaving every other character alone |
| `Notes.RestIsCaseInsensitive` | utils/audio_utils.py:142-143 | a word becomes a rest exactly when it is `rest` in some mix of upper and lower case |
| `Notes.DigitWordIsMidi` | utils/audio_utils.py:144-146 | a non-empty all-digit word is never a rest and becomes a MIDI token carrying its decimal value |
| `Text.DecimalValue` | utils/audio_utils.py:146 | no contract of its own: `int()` on a string of ASCII digits. `Text.DecimalValueOfString` and `Text.DecimalValueLeadingZeros` characterise it |
| `Text.DecimalValueOfString` | utils/audio_utils.py:146 | `int()` reads back the decimal spelling of every natural number |
| `Text.DecimalValueLeadingZeros` | utils/audio_utils.py:146 | leading zeros keep a word all-digit and do not change the value `int()` reads |
| `Notes.LeadingZerosAccepted` | utils/audio_utils.py:144-146 | any number of leading zeros before the decimal spelling of n still classifies as MIDI number n |
| `Notes.LeadingZeroExample` | utils/audio_utils.py:144-146 | "060" becomes the MIDI number 60 |
| `Notes.ClassifyRender` | utils/audio_utils.py:141-149 | every token parsing can produce is rendered as one word that classifies back to the same token |
| `Notes.ParseFormatRoundTrip` | utils/audio_utils.py:138-151 | parsing a space-joined rendering of tokens gives the same tokens |
| `Notes.ClassifyCanonical` | utils/audio_utils.py:141-149 | every token the classification makes of a word is canonical, so the round trip covers every parse result |
| `Notes.ParseIsStableUnderFormat` | utils/audio_utils.py:138-151 | formatting the tokens of any note string and parsing again gives the same tokens |
| `Notes.MixedStringTokens` | tests/test_basic.py:43-44 | "C4 D4 rest E4" parses to four tokens: names C4 and D4, a rest, then name E4 |
| `Notes.MixedStringWords` | tests/test_basic.py:43 | "C4 D4 rest E4" splits into its four words |
| `Notes.MixedWordTokens` | utils/audio_utils.py:141-149 | the words C4, D4, rest, E4 become name, name, rest, name |
| `Notes.MidiStringTokens` | utils/audio_utils.py:129 | "60 62 64" parses to the MIDI numbers 60, 62 and 64 |
| `Notes.MidiStringWords` | utils/audio_utils.py:129 | "60 62 64" splits into its three words |
| `Notes.MidiWordTokens` | utils/audio_utils.py:144-146 | the words 60, 62, 64 become those three MIDI numbers |
| `Notes.ClassifyAsWritten` | utils/audio_utils.py:142-149 | no contract of its own: the classification as written, where `int()` can raise. `Notes.ClassifyAsWrittenFailures` characterises it |
| `Notes.ClassifyAsWrittenFailures` | utils/audio_utils.py:144-146 | as written, classification fails exactly on words that pass `isdigit` and either contain a superscript digit or have more than 4300 digits, and it agrees with the corrected classification everywhere else |
| `Notes.SuperscriptTwoRaises` | utils/audio_utils.py:144-146 | as written, the word "²" makes `int()` raise |
| `Notes.LongDigitWordRaises` | utils/audio_utils.py:144-146 | as written, a word of 4301 ones makes `int()` raise on the digit limit |
| `Notes.LongDigitWordIsMidi` | utils/audio_utils.py:144-146 | the corrected classification reads an all-digit word of any length as its value |
| `Notes.SuperscriptWordIsName` | utils/audio_utils.py:141-149 | the corrected classification keeps such a word as a note name, so parsing never fails |
| `Pitch.NoteMap` | utils/audio_utils.py:164-168 | no contract of its own: the 17-entry pitch-class table. `Pitch.TableCoversPitchClasses`, `Pitch.SpellingsEndInLetterOrAccidental` and `Pitch.EnharmonicSpellings` characterise it |
| `Pitch.NoteToMidi` | utils/audio_utils.py:154-191 | every successful conversion lies between 12 (C0) and 131 (B9) |
| `Pitch.ErrorOrder` | utils/audio_utils.py:171-185 | the name-too-short error occurs exactly when the length is below 2. Otherwise the octave error occurs exactly when the last character is not a digit. Otherwise the invalid-note error, reporting the spelling, occurs exactly when the spelling before the octave is not in the table. Success occurs exactly when none applies |
| `Pitch.FailureExamples` | utils/audio_utils.py:171-185 | "C" fails on length, "Hx" on the octave, "H9" on the note "H" |
| `Pitch.TableCoversPitchClasses` | utils/audio_utils.py:164-168 | every table offset is below 12, and each of the twelve pitch classes has a sharp spelling in the table with that offset |
| `Pitch.SpellingsEndInLetterOrAccidental` | utils/audio_utils.py:164-168 | no table spelling is empty or ends in a digit or a minus sign |
| `Pitch.EnharmonicSpellings` | utils/audio_utils.py:164-168 | C#/Db, D#/Eb, F#/Gb, G#/Ab and A#/Bb have the same offset |
| `Pitch.NoteToMidiFormula` | utils/audio_utils.py:187-191 | a table spelling followed by digit d converts to offset + (d + 1) * 12 |
| `Pitch.MiddleCAndConcertA` | tests/test_basic.py:48-49 | C4 converts to 60 and A4 to 69 |
| `Pitch.EnharmonicNamesAgree` | utils/audio_utils.py:164-168 | enharmonic names with the same octave digit convert to the same number |
| `Pitch.CSharpFour` | utils/audio_utils.py:164-189 | C#4 and Db4 both convert to 61 |
| `Pitch.OctaveUpAddsTwelve` | utils/audio_utils.py:189 | raising the octave digit by one adds exactly 12 |
| `Pitch.NoteToMidiDecodes` | utils/audio_utils.py:176-189 | a successful result determines its octave digit (result / 12 - 1) and its pitch-class offset (result % 12) |
| `Pitch.SameNumberSamePitch` | utils/audio_utils.py:176-189 | two names convert to the same number only if they have the same octave digit and enharmonic spellings |
| `Pitch.NoteNameRoundTrip` | utils/audio_utils.py:154-191 | every number from 12 to 131 has a name that converts back to it, so the result range is exactly 12..131 |
| `Pitch.TwoDigitOctaveRejected` | utils/audio_utils.py:174-185 | only the last character is the octave, so a two-digit octave is reported as an invalid note whose spelling ends in the first digit |
| `Pitch.SignedOctaveRejected` | utils/audio_utils.py:174-185 | a signed octave is reported as an invalid note whose spelling ends in the minus sign |
| `Pitch.OctaveOutsideZeroToNineRejected` | utils/audio_utils.py:174-185 | "C10" fails as note "C1" and "C-1" as note "C-" |
| `Silence.Zeros` | utils/audio_utils.py:206 | `np.zeros(n)` has n samples, every one 0.0 |
| `Silence.TruncateTowardZero` | utils/audio_utils.py:206 | `int()` of a number is its integer part, rounded toward zero on both sides of 0 |
| `Silence.GenerateSilence` | utils/audio_utils.py:195-206 | succeeds exactly when duration * sr > -1. A non-negative product x gives floor(x) samples. A product between -1 and 0 gives no samples. Every sample is 0.0 |
| `Silence.SilenceLength` | utils/audio_utils.py:195-206 | a non-negative duration and rate give exactly floor(duration * sr) samples |
| `Silence.OneSecondAt48kHz` | tests/test_basic.py:53-54 | 1.0 second at 48000 Hz gives 48000 zero samples |

## Findings

| source | as written | input that shows it | evidently intended | confidence | as-written member | corrected member |
|---|---|---|---|---|---|---|
| utils/audio_utils.py:144-146 | a word passing `note.isdigit()` is handed to `int(note)`. `isdigit` is also true of superscript digits, and `int` rejects them | `parse_notes("²")`: `isdigit` is true, `int` raises ValueError, and parsing fails | parsing is total: such a word is kept as a note name and is rejected later, at conversion | high (documented Python behaviour); not executed | `Notes.ClassifyAsWritten` (failure shown by `Notes.ClassifyAsWrittenFailures` and `Notes.SuperscriptTwoRaises`) | `Notes.Classify` (total, as proved by `Notes.SuperscriptWordIsName`; `ParseNotes` uses it) |
| utils/audio_utils.py:144-146 | a word passing `note.isdigit()` is handed to `int(note)`. From CPython 3.11 `int` refuses a decimal string of more than 4300 digits, leading zeros included | `parse_notes("1" * 4301)`: `isdigit` is true, `int` raises ValueError on the digit limit, and parsing fails | parsing is total: an all-digit word becomes the MIDI number it spells, however long | high (documented CPython behaviour, version-dependent); not executed | `Notes.ClassifyAsWritten` (failure shown by `Notes.ClassifyAsWrittenFailures` and `Notes.LongDigitWordRaises`) | `Notes.Classify` (reads every all-digit word, as proved by `Notes.LongDigitWordIsMidi`; `ParseNotes` uses it) |

## Left out

- `normalize_audio` (utils/audio_utils.py:95-120) is left out because it is floating-point RMS, `log10` and power arithmetic.
- `load_audio`, `save_audio`, `audio_to_tensor` and `tensor_to_audio` (utils/audio_utils.py:12-92) are left out because they are file I/O and wrappers over audio and tensor libraries.
- utils/model_loader.py, app/demo.py and app/config.py are not part of this model. They hold device selection, checkpoint loading, a synthesis stub, the UI and constants.
- Only ASCII digits count as digits. Python's `isdigit` and `int` also accept other Unicode decimal digits, such as Arabic-Indic ones. In Python a word of such digits parses as a MIDI number, and such a last character is a valid octave. In this model the word stays a name and the octave is an invalid octave.
- Notes.ClassifyAsWritten: its superscript test lists only the superscript digits. Other characters for which `isdigit` holds and `int` fails, such as circled digits, fall under the same finding but are not listed.
- Notes.ClassifyAsWritten: fixes the digit limit at CPython's default of 4300. Older Python versions have no limit, and `sys.set_int_max_str_digits` or `PYTHONINTMAXSTRDIGITS` can change it. For a word that has both a superscript and more than 4300 digits, the model reports the superscript; which message CPython gives then is not modelled, though both are ValueError.
- `lower()` is modelled on ASCII letters only. For the one comparison the source makes, with `rest`, this is exact: no non-ASCII character lower-cases to r, e, s or t.
- Silence.GenerateSilence: computes `duration * sr` in exact real arithmetic, so it does not capture the rounding of the floating-point product, NaN or infinities. The default rate of 48000 is an explicit argument here.
- The dictionaries `{'type': ..., 'value': ...}` are modelled by the `NoteToken` datatype. The formatted error messages are modelled by `NoteError` constructors that carry the text each message reports.
