/**
 * The first phase of note handling: `parse_notes` turns a note string such
 * as "C4 rest 64 E4" into one tagged token per whitespace-delimited word.
 * Classify is total, so parsing never fails; note names are kept verbatim
 * and checked only when they are converted (module Pitch). The code as
 * written can raise in `int()`: ClassifyAsWritten models that.
 */
module Notes {
  import opened Text
  import opened Wrappers

  /** A parsed word: a rest, a MIDI number, or an unvalidated note name. */
  datatype NoteToken = Rest | Midi(number: nat) | Name(spelling: string)

  /** `word.lower() == 'rest'`. */
  predicate IsRestWord(word: string)
  {
    Lower(word) == "rest"
  }

  /** The token one word becomes; the tests run in the source's priority order. */
  function Classify(word: string): NoteToken
  {
    if IsRestWord(word) then Rest
    else if IsDigits(word) then Midi(DecimalValue(word))
    else Name(word)
  }

  /** The tokens of a word list, one per word, in order. */
  function ClassifyAll(words: seq<string>): (tokens: seq<NoteToken>)
    ensures |tokens| == |words|
    ensures forall i :: 0 <= i < |words| ==> tokens[i] == Classify(words[i])
  {
    if words == [] then [] else [Classify(words[0])] + ClassifyAll(words[1..])
  }

  /**
   * `parse_notes`: strip and split the string, then append one token per
   * word. The result has exactly one token per word of the input, in order,
   * and each token is what Classify makes of its word.
   */
  method ParseNotes(notesStr: string) returns (parsed: seq<NoteToken>)
    ensures |parsed| == |Split(notesStr)|
    ensures forall i :: 0 <= i < |parsed| ==> parsed[i] == Classify(Split(notesStr)[i])
    ensures parsed == ClassifyAll(Split(notesStr))
  {
    var notes := Split(Strip(notesStr));
    SplitOfStrip(notesStr);
    parsed := [];
    for i := 0 to |notes|
      invariant |parsed| == i
      invariant forall j :: 0 <= j < i ==> parsed[j] == Classify(notes[j])
    {
      var note := notes[i];
      if IsRestWord(note) {
        parsed := parsed + [Rest];
      } else if IsDigits(note) {
        parsed := parsed + [Midi(DecimalValue(note))];
      } else {
        parsed := parsed + [Name(note)];
      }
    }
  }

  // ---------------------------------------------------------------------------
  // Classification
  // ---------------------------------------------------------------------------

  /** `rest` is recognised in any mix of upper and lower case, and only then. */
  lemma RestIsCaseInsensitive(word: string)
    ensures Classify(word) == Rest <==>
      && |word| == 4
      && word[0] in {'r', 'R'} && word[1] in {'e', 'E'}
      && word[2] in {'s', 'S'} && word[3] in {'t', 'T'}
  {
  }

  /** A word of digits is never `rest`, so it always becomes its decimal value. */
  lemma DigitWordIsMidi(word: string)
    requires IsDigits(word)
    ensures Classify(word) == Midi(DecimalValue(word))
  {
  }

  /** Leading zeros are accepted: any number of '0's before a decimal spelling of `n` reads as `n`. */
  lemma LeadingZerosAccepted(zeros: nat, n: nat)
    ensures Classify(ZeroPadded(zeros, DecimalString(n))) == Midi(n)
  {
    var w := ZeroPadded(zeros, DecimalString(n));
    DecimalValueLeadingZeros(zeros, DecimalString(n));
    DecimalValueOfString(n);
    DigitWordIsMidi(w);
  }

  /** "060" is read as the MIDI number 60. */
  lemma LeadingZeroExample()
    ensures Classify("060") == Midi(60)
  {
    LeadingZerosAccepted(1, 60);
    assert DecimalString(60) == "60";
    assert ZeroPadded(1, "60") == "060";
  }

  // ---------------------------------------------------------------------------
  // Round trip with a formatter
  // ---------------------------------------------------------------------------

  /** The word that reads back as `t`: "rest", the decimal number, or the name itself. */
  function Render(t: NoteToken): string
  {
    match t
    case Rest => "rest"
    case Midi(n) => DecimalString(n)
    case Name(w) => w
  }

  /** A name token that parsing can produce: a word that is neither `rest` nor all digits. */
  predicate Canonical(t: NoteToken)
  {
    t.Name? ==> IsWord(t.spelling) && !IsRestWord(t.spelling) && !IsDigits(t.spelling)
  }

  function RenderAll(tokens: seq<NoteToken>): (words: seq<string>)
    ensures |words| == |tokens|
    ensures forall i :: 0 <= i < |tokens| ==> words[i] == Render(tokens[i])
  {
    if tokens == [] then [] else [Render(tokens[0])] + RenderAll(tokens[1..])
  }

  /** Writes tokens back as a note string, one word per token separated by single spaces. */
  function Format(tokens: seq<NoteToken>): string
  {
    JoinWithSpaces(RenderAll(tokens))
  }

  /** Each canonical token is classified back from its rendering. */
  lemma ClassifyRender(t: NoteToken)
    requires Canonical(t)
    ensures IsWord(Render(t))
    ensures Classify(Render(t)) == t
  {
    match t
    case Rest =>
      assert Lower("rest") == "rest";
    case Midi(n) =>
      var w := DecimalString(n);
      assert forall i :: 0 <= i < |w| ==> IsDigit(w[i]) && !IsSpace(w[i]);
      DigitWordIsMidi(w);
      DecimalValueOfString(n);
    case Name(w) =>
  }

  /** Every token Classify makes of a word is canonical. */
  lemma ClassifyCanonical(w: string)
    requires IsWord(w)
    ensures Canonical(Classify(w))
  {
  }

  /** Formatting the tokens of a note string and parsing again gives the same tokens. */
  lemma ParseIsStableUnderFormat(s: string)
    ensures ClassifyAll(Split(Format(ClassifyAll(Split(s))))) == ClassifyAll(Split(s))
  {
    var words := Split(s);
    var tokens := ClassifyAll(words);
    SplitGivesWords(s);
    forall i | 0 <= i < |tokens|
      ensures Canonical(tokens[i])
    {
      ClassifyCanonical(words[i]);
    }
    ParseFormatRoundTrip(tokens);
  }

  /** Parsing a formatted token list gives the tokens back. */
  lemma ParseFormatRoundTrip(tokens: seq<NoteToken>)
    requires forall i :: 0 <= i < |tokens| ==> Canonical(tokens[i])
    ensures ClassifyAll(Split(Format(tokens))) == tokens
  {
    var words := RenderAll(tokens);
    forall i | 0 <= i < |tokens|
      ensures IsWord(words[i]) && Classify(words[i]) == tokens[i]
    {
      ClassifyRender(tokens[i]);
    }
    SplitJoinWithSpaces(words);
  }

  // ---------------------------------------------------------------------------
  // Worked cases
  // ---------------------------------------------------------------------------

  /** An empty or all-whitespace string has no tokens. */
  lemma BlankStringHasNoTokens(s: string)
    requires AllSpace(s)
    ensures ClassifyAll(Split(s)) == []
  {
    SplitEmptyIffAllSpace(s);
  }

  /** "C4 D4 rest E4" splits into its four words. */
  lemma MixedStringWords()
    ensures Split("C4 D4 rest E4") == ["C4", "D4", "rest", "E4"]
  {
    var words := ["C4", "D4", "rest", "E4"];
    assert words[1..] == ["D4", "rest", "E4"];
    assert words[1..][1..] == ["rest", "E4"];
    assert words[1..][1..][1..] == ["E4"];
    assert JoinWithSpaces(words) == "C4 D4 rest E4";
    SplitJoinWithSpaces(words);
  }

  /** "C4 D4 rest E4" gives four tokens: two names, a rest and a name. */
  lemma MixedStringTokens()
    ensures ClassifyAll(Split("C4 D4 rest E4")) == [Name("C4"), Name("D4"), Rest, Name("E4")]
  {
    MixedStringWords();
    MixedWordTokens();
  }

  lemma MixedWordTokens()
    ensures ClassifyAll(["C4", "D4", "rest", "E4"]) == [Name("C4"), Name("D4"), Rest, Name("E4")]
  {
  }

  /** "60 62 64" splits into its three words. */
  lemma MidiStringWords()
    ensures Split("60 62 64") == ["60", "62", "64"]
  {
    var words := ["60", "62", "64"];
    assert words[1..] == ["62", "64"];
    assert words[1..][1..] == ["64"];
    assert JoinWithSpaces(words) == "60 62 64";
    SplitJoinWithSpaces(words);
  }

  /** "60 62 64" gives three MIDI numbers. */
  lemma MidiStringTokens()
    ensures ClassifyAll(Split("60 62 64")) == [Midi(60), Midi(62), Midi(64)]
  {
    MidiStringWords();
    MidiWordTokens();
  }

  lemma MidiWordTokens()
    ensures ClassifyAll(["60", "62", "64"]) == [Midi(60), Midi(62), Midi(64)]
  {
    DigitWordIsMidi("60");
    DigitWordIsMidi("62");
    DigitWordIsMidi("64");
  }

  // ---------------------------------------------------------------------------
  // The digit test as written
  // ---------------------------------------------------------------------------

  /**
   * Superscript digits: Python's `str.isdigit` is true of them, but `int()`
   * does not accept them.
   */
  predicate IsSuperscriptDigit(c: char)
  {
    c in {'\U{B9}', '\U{B2}', '\U{B3}', '\U{2070}', '\U{2074}', '\U{2075}',
          '\U{2076}', '\U{2077}', '\U{2078}', '\U{2079}'}
  }

  /** `word.isdigit()` as Python computes it, on ASCII and superscript digits. */
  predicate IsDigitsAsWritten(word: string)
  {
    |word| > 0 && forall i :: 0 <= i < |word| ==> IsDigit(word[i]) || IsSuperscriptDigit(word[i])
  }

  /**
   * The default of `sys.get_int_max_str_digits()`: from CPython 3.11 (and the
   * 3.7.14, 3.8.14, 3.9.14 and 3.10.7 security releases) `int()` refuses a
   * decimal string with more digits than this.
   */
  const MaxStrDigits: nat := 4300

  /** The two ValueErrors `int(word)` raises on a word that passed `isdigit`. */
  datatype ParseError =
    | InvalidLiteral(word: string)    // a digit `int()` does not read
    | ExceedsDigitLimit(digits: nat)  // more than MaxStrDigits digits, leading zeros included

  /**
   * The classification as written: a word that passes `isdigit` is handed to
   * `int`, which raises on a superscript digit and on a word longer than the
   * digit limit, so `parse_notes` raises.
   */
  function ClassifyAsWritten(word: string): Result<NoteToken, ParseError>
  {
    if IsRestWord(word) then Ok(Rest)
    else if IsDigitsAsWritten(word) then
      if !IsDigits(word) then Err(InvalidLiteral(word))
      else if |word| > MaxStrDigits then Err(ExceedsDigitLimit(|word|))
      else Ok(Midi(DecimalValue(word)))
    else Ok(Name(word))
  }

  /**
   * The code as written fails exactly on words that pass `isdigit` and
   * either contain a superscript or have more than MaxStrDigits digits, and
   * agrees with Classify on every other word.
   */
  lemma ClassifyAsWrittenFailures(word: string)
    ensures ClassifyAsWritten(word).Err? <==>
      IsDigitsAsWritten(word) && (!IsDigits(word) || |word| > MaxStrDigits)
    ensures ClassifyAsWritten(word).Ok? ==> ClassifyAsWritten(word).value == Classify(word)
  {
  }

  /** "²" makes the code as written raise. */
  lemma SuperscriptTwoRaises()
    ensures ClassifyAsWritten("\U{B2}") == Err(InvalidLiteral("\U{B2}"))
  {
  }

  /** 4301 ones make the code as written raise, although every one is an ASCII digit. */
  lemma LongDigitWordRaises()
    ensures ClassifyAsWritten(seq(MaxStrDigits + 1, _ => '1')) == Err(ExceedsDigitLimit(MaxStrDigits + 1))
  {
  }

  /** Classify reads a word of ASCII digits of any length as its value, so parsing stays total. */
  lemma LongDigitWordIsMidi(word: string)
    requires IsDigits(word) && |word| > MaxStrDigits
    ensures Classify(word).Midi? && Classify(word).number == DecimalValue(word)
  {
  }

  /** Classify keeps a word of digits with a superscript as a name, so parsing stays total. */
  lemma SuperscriptWordIsName(word: string)
    requires IsDigitsAsWritten(word) && !IsDigits(word)
    ensures Classify(word) == Name(word)
  {
  }
}
