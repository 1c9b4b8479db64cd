// normalizeNoteToSharp (src/modules/chords.module.ts): reduce a letter followed
// by a run of sharp and flat marks to one of the twelve sharp-based names.

module Normalizer {
  import opened JsSemantics
  import opened ChordTables

  /** What a call returns: a table entry, JavaScript's `undefined` (the index
      went negative), or the TypeError thrown when the pattern does not match. */
  datatype Normalized = Name(name: string) | Undefined | Malformed

  predicate IsMark(c: char)
  {
    c == SHARP || c == FLAT
  }

  /** The pattern `^([A-G])([♯♭]*)$`. */
  predicate MatchesNote(note: string)
  {
    |note| >= 1 && IsLetter(note[0]) && forall i :: 1 <= i < |note| ==> IsMark(note[i])
  }

  /** What one mark adds to the pitch: +1 for a sharp, -1 for a flat. */
  function MarkValue(c: char): int
  {
    if c == SHARP then 1 else if c == FLAT then -1 else 0
  }

  /** The accumulated effect of a run of marks, read left to right. */
  function NetMarks(marks: string): int
  {
    if marks == [] then 0 else NetMarks(marks[..|marks| - 1]) + MarkValue(marks[|marks| - 1])
  }

  /** How many times `c` occurs in `s`. */
  function Count(s: string, c: char): int
  {
    multiset(s)[c]
  }

  /** The pitch the loop accumulates before it is reduced modulo 12. */
  function RawPitch(note: string): int
    requires MatchesNote(note)
  {
    Interval(note[0]) + NetMarks(note[1..])
  }

  /** The value normalizeNoteToSharp returns for `note`. */
  function Normalize(note: string): Normalized
  {
    if !MatchesNote(note) then Malformed
    else
      var index := JsRem(RawPitch(note) + 12, 12);
      if index < 0 then Undefined else Name(SHARP_NAMES[index])
  }

  /** normalizeNoteToSharp: match the pattern, add one per sharp and subtract
      one per flat, then index the sharp-name table with `(pitch + 12) % 12`. */
  method NormalizeNoteToSharp(note: string) returns (r: Normalized)
    ensures r == Normalize(note)
  {
    if !MatchesNote(note) {
      return Malformed;
    }
    var letter := note[0];
    var accidentals := note[1..];
    var pitch := Interval(letter);
    for k := 0 to |accidentals|
      invariant pitch == Interval(letter) + NetMarks(accidentals[..k])
    {
      assert accidentals[..k + 1][..k] == accidentals[..k];
      if accidentals[k] == SHARP {
        pitch := pitch + 1;
      }
      if accidentals[k] == FLAT {
        pitch := pitch - 1;
      }
    }
    assert accidentals[..|accidentals|] == accidentals;
    pitch := JsRem(pitch + 12, 12);
    if pitch < 0 {
      return Undefined;
    }
    return Name(SHARP_NAMES[pitch]);
  }

  /** The run of marks nets the number of sharps minus the number of flats,
      wherever they stand in the run. */
  lemma {:induction false} NetMarksCounts(marks: string)
    ensures NetMarks(marks) == Count(marks, SHARP) - Count(marks, FLAT)
    decreases |marks|
  {
    if marks != [] {
      var init, last := marks[..|marks| - 1], marks[|marks| - 1];
      NetMarksCounts(init);
      assert marks == init + [last];
      assert multiset(marks) == multiset(init) + multiset{last};
    }
  }

  /** The formula: with s sharps and f flats after the letter, the result is
      SHARP_NAMES[(INTERVALS[letter] + s - f + 12) % 12] taken with JavaScript's
      remainder; it is the true pitch class whenever the sum is at least -12 or
      a multiple of 12, which are all the cases giving a name. */
  lemma NormalizeFormula(note: string)
    requires MatchesNote(note)
    ensures var p := Interval(note[0]) + Count(note[1..], SHARP) - Count(note[1..], FLAT);
      && RawPitch(note) == p
      && (p >= -12 || p % 12 == 0 ==> Normalize(note) == Name(SHARP_NAMES[p % 12]))
  {
    NetMarksCounts(note[1..]);
    if RawPitch(note) >= -12 || RawPitch(note) % 12 == 0 {
      ShiftedRemainderValue(RawPitch(note));
    }
  }

  /** Exactly when each outcome occurs: a match with an accumulated pitch of at
      least -12 (or a multiple of 12, which reads index -0) gives a table name;
      a match below that gives undefined; anything else throws. */
  lemma NormalizeOutcomes(note: string)
    ensures Normalize(note).Malformed? <==> !MatchesNote(note)
    ensures Normalize(note).Name? <==>
      MatchesNote(note) && (RawPitch(note) >= -12 || RawPitch(note) % 12 == 0)
    ensures Normalize(note).Name? ==> Normalize(note).name in SHARP_NAMES
  {
    if MatchesNote(note) {
      ShiftedRemainder(RawPitch(note));
    }
  }

  /** JavaScript's `(p + 12) % 12` is non-negative exactly when p >= -12 or p is
      a multiple of 12. */
  lemma ShiftedRemainder(p: int)
    ensures JsRem(p + 12, 12) >= 0 <==> p >= -12 || p % 12 == 0
  {
    if p + 12 < 0 {
      var q := (-(p + 12)) / 12;
      var r := (-(p + 12)) % 12;
      assert -(p + 12) == 12 * q + r;
      assert p == 12 * (-q - 1) - r;
      if r == 0 {
        assert p % 12 == 0;
      } else {
        assert p == 12 * (-q - 2) + (12 - r);
        assert p % 12 == 12 - r;
      }
    }
  }

  /** Where JavaScript's `(p + 12) % 12` is non-negative it is the true
      pitch class p % 12. */
  lemma ShiftedRemainderValue(p: int)
    requires p >= -12 || p % 12 == 0
    ensures JsRem(p + 12, 12) == p % 12
  {
    var k := p / 12;
    assert p == 12 * k + p % 12;
    if p >= -12 {
      assert p + 12 == 12 * (k + 1) + p % 12;
      assert (p + 12) % 12 == p % 12;
    } else {
      assert -(p + 12) == 12 * (-k - 1);
      assert (-(p + 12)) % 12 == 0;
    }
  }

  /** A natural letter is its own normal form. */
  lemma NaturalsAreFixed(letter: string)
    requires letter in BASE_NOTES
    ensures Normalize(letter) == Name(letter)
  {
    LetterNormalizes(letter);
    if letter == "C" {} else if letter == "D" {} else if letter == "E" {}
    else if letter == "F" {} else if letter == "G" {} else if letter == "A" {} else {}
  }

  /** A lone letter normalizes to the name of its natural pitch. */
  lemma LetterNormalizes(letter: string)
    requires |letter| == 1 && IsLetter(letter[0])
    ensures Normalize(letter) == Name(SHARP_NAMES[Interval(letter[0])])
  {
    assert letter[1..] == [];
    assert MatchesNote(letter);
    var i := Interval(letter[0]);
    assert RawPitch(letter) == i;
    assert JsRem(i + 12, 12) == (i + 12) % 12 == i;
  }

  /** The examples of the doc comment; the second is spelled "D-sharp", not "D#". */
  lemma DocExamples()
    ensures Normalize("C♭") == Name("B")
    ensures Normalize("E♭") == Name("D-sharp")
    ensures Normalize("E♯♯") == Name("F-sharp")
  {
    assert NetMarks("♭") == -1 by { assert "♭"[..0] == []; }
    assert NetMarks("♯♯") == 2 by { assert "♯♯"[..1] == "♯"; assert "♯"[..0] == []; }
    assert "C♭"[1..] == "♭" && "E♭"[1..] == "♭" && "E♯♯"[1..] == "♯♯";
  }

  /** The canonical names with "-sharp" do not match the pattern: feeding one
      back in throws instead of returning it unchanged. */
  lemma SharpNamesAreNotNotes()
    ensures Normalize("C-sharp") == Malformed
    ensures forall k :: 0 <= k < |SHARP_NAMES| && |SHARP_NAMES[k]| > 1 ==> Normalize(SHARP_NAMES[k]) == Malformed
  {
    forall k | 0 <= k < |SHARP_NAMES| && |SHARP_NAMES[k]| > 1
      ensures Normalize(SHARP_NAMES[k]) == Malformed
    {
      assert SHARP_NAMES[k][1] == '-';
    }
  }

  /** Sharps and flats cancel: any mark run with the same net count gives the
      same result, mixed runs included. */
  lemma OnlyNetCountMatters(note1: string, note2: string)
    requires MatchesNote(note1) && MatchesNote(note2) && note1[0] == note2[0]
    requires Count(note1[1..], SHARP) - Count(note1[1..], FLAT)
          == Count(note2[1..], SHARP) - Count(note2[1..], FLAT)
    ensures Normalize(note1) == Normalize(note2)
  {
    NetMarksCounts(note1[1..]);
    NetMarksCounts(note2[1..]);
  }
}
