// _stringToNoteChord and _getSeventhInterval (src/modules/chords.module.ts):
// parse a chord name, look up its quality, and spell the chord tones by
// stacking letters in thirds and correcting each letter with accidentals.

module Speller {
  import opened JsSemantics
  import opened ChordTables
  import opened Normalizer

  /** A value, or the TypeError JavaScript throws when a failed `match` (null)
      is dereferenced through the `!` assertion. */
  datatype Outcome<T> = Ok(value: T) | TypeError

  /** The three groups of the pattern `^([A-G])([♯♭]?)(.*)$`. */
  datatype ChordParts = ChordParts(letter: char, accidental: string, suffix: string)

  /** The characters that `.` in a JavaScript pattern refuses to match. */
  predicate IsLineTerminator(c: char)
  {
    c == '\n' || c == '\r' || c == '\U{2028}' || c == '\U{2029}'
  }

  /** `strChord.match(/^([A-G])([♯♭]?)(.*)$/)!`: the optional mark is taken
      greedily; the match fails on a non-letter start or a line terminator. */
  function ParseChord(s: string): (r: Outcome<ChordParts>)
    ensures r.Ok? <==> |s| >= 1 && IsLetter(s[0]) && forall i :: 1 <= i < |s| ==> !IsLineTerminator(s[i])
    ensures r.Ok? ==> [r.value.letter] + r.value.accidental + r.value.suffix == s
    ensures r.Ok? ==> r.value.accidental in ALTERATIONS && [r.value.letter] in BASE_NOTES
    ensures r.Ok? && r.value.accidental == "" ==> r.value.suffix == [] || !IsMark(r.value.suffix[0])
  {
    if |s| == 0 || !IsLetter(s[0]) || exists i :: 1 <= i < |s| && IsLineTerminator(s[i]) then TypeError
    else if |s| >= 2 && IsMark(s[1]) then
      assert s[1..2] == [s[1]];
      Ok(ChordParts(s[0], s[1..2], s[2..]))
    else Ok(ChordParts(s[0], "", s[1..]))
  }

  /** Entry `k` of `table` is the first whose suffix is `str`. */
  predicate IsFirstMatch(table: seq<SeventhChord>, str: string, k: int)
  {
    0 <= k < |table| && table[k].str == str && forall j :: 0 <= j < k ==> table[j].str != str
  }

  /** The intervals of the first quality in `table` whose suffix is `str`, or
      the empty list when there is none. */
  function FindIntervals(table: seq<SeventhChord>, str: string): (r: seq<int>)
    ensures (forall k :: 0 <= k < |table| ==> table[k].str != str) ==> r == []
    ensures forall k :: IsFirstMatch(table, str, k) ==> r == table[k].intervals
  {
    if table == [] then []
    else if table[0].str == str then table[0].intervals
    else
      var rest := FindIntervals(table[1..], str);
      assert forall k :: 1 <= k < |table| ==> table[k] == table[1..][k - 1];
      rest
  }

  /** _getSeventhInterval: a linear search of SEVENTH_CHORDS by suffix. */
  method GetSeventhInterval(str: string) returns (r: seq<int>)
    ensures r == FindIntervals(SEVENTH_CHORDS, str)
  {
    for k := 0 to |SEVENTH_CHORDS|
      invariant FindIntervals(SEVENTH_CHORDS, str) == FindIntervals(SEVENTH_CHORDS[k..], str)
    {
      assert SEVENTH_CHORDS[k..][1..] == SEVENTH_CHORDS[k + 1..];
      if SEVENTH_CHORDS[k].str == str {
        return SEVENTH_CHORDS[k].intervals;
      }
    }
    return [];
  }

  /** The root's pitch class: its letter, moved by its mark, taken `(p + 12) % 12`. */
  function RootPitch(letter: char, accidental: string): int
    requires IsLetter(letter)
  {
    JsRem(Interval(letter) + AlterationOffset(accidental) + 12, 12)
  }

  /** The letter of chord tone `i`: `BASE_NOTES[(rootIndex + i * 2) % 7]`. */
  function TargetLetter(rootIndex: nat, i: nat): (t: string)
    ensures |t| == 1 && IsLetter(t[0])
  {
    BASE_NOTES[JsRem(rootIndex + i * 2, 7)]
  }

  /** The signed distance from a natural pitch to the desired one, in (-6, 6]. */
  function Diff(desiredPitch: int, naturalPitch: int): int
  {
    var d := JsRem(desiredPitch - naturalPitch + 12, 12);
    if d > 6 then d - 12 else d
  }

  /** The marks written for a distance; any distance beyond two gets none. */
  function AccidentalFor(diff: int): string
  {
    if diff == 1 then "♯"
    else if diff == 2 then "♯♯"
    else if diff == -1 then "♭"
    else if diff == -2 then "♭♭"
    else ""
  }

  /** The desired pitch of a chord tone: `(rootPitch + interval) % 12`. */
  function DesiredPitch(rootPitch: int, interval: int): int
  {
    JsRem(rootPitch + interval, 12)
  }

  /** The distance the speller computes for chord tone `i`. */
  function ToneDiff(rootIndex: nat, rootPitch: int, interval: int, i: nat): int
  {
    Diff(DesiredPitch(rootPitch, interval), Interval(TargetLetter(rootIndex, i)[0]))
  }

  /** Chord tone `i`: its target letter followed by the marks for its distance. */
  function Tone(rootIndex: nat, rootPitch: int, interval: int, i: nat): string
  {
    TargetLetter(rootIndex, i) + AccidentalFor(ToneDiff(rootIndex, rootPitch, interval, i))
  }

  /** One tone per interval, tone i spelled from interval i. */
  function Tones(rootIndex: nat, rootPitch: int, intervals: seq<int>): (notes: seq<string>)
    ensures |notes| == |intervals|
    ensures forall i :: 0 <= i < |intervals| ==> notes[i] == Tone(rootIndex, rootPitch, intervals[i], i)
  {
    seq(|intervals|, i requires 0 <= i < |intervals| => Tone(rootIndex, rootPitch, intervals[i], i))
  }

  /** The notes _stringToNoteChord returns for `strChord`. */
  function SpellChord(strChord: string): Outcome<seq<string>>
  {
    match ParseChord(strChord)
    case TypeError => TypeError
    case Ok(parts) =>
      var rootPitch := RootPitch(parts.letter, parts.accidental);
      var rootIndex := IndexOf(BASE_NOTES, [parts.letter]);
      var intervals := FindIntervals(SEVENTH_CHORDS, parts.suffix);
      Ok(Tones(rootIndex, rootPitch, intervals))
  }

  /** _stringToNoteChord: parse the name, compute the root's pitch class and
      letter position, look up the intervals, then spell one note per interval. */
  method StringToNoteChord(strChord: string) returns (r: Outcome<seq<string>>)
    ensures r == SpellChord(strChord)
  {
    var m := ParseChord(strChord);
    if m.TypeError? {
      return TypeError;
    }
    var rootLetter, rootAccidental, suffix := m.value.letter, m.value.accidental, m.value.suffix;

    var rootPitch := Interval(rootLetter);
    if rootAccidental == [SHARP] {
      rootPitch := rootPitch + 1;
    }
    if rootAccidental == [FLAT] {
      rootPitch := rootPitch - 1;
    }
    assert rootPitch == Interval(rootLetter) + AlterationOffset(rootAccidental);
    rootPitch := JsRem(rootPitch + 12, 12);
    assert rootPitch == RootPitch(rootLetter, rootAccidental);

    var rootIndex := IndexOf(BASE_NOTES, [rootLetter]);
    var intervals := GetSeventhInterval(suffix);
    var notes := SpellTones(rootIndex, rootPitch, intervals);
    assert notes == Tones(rootIndex, rootPitch, intervals);
    return Ok(notes);
  }

  /** The `for` loop of _stringToNoteChord: for each interval, take the letter
      two steps further round the cycle, compute the signed distance from its
      natural pitch to the desired one and append the letter with its marks. */
  method SpellTones(rootIndex: nat, rootPitch: int, intervals: seq<int>) returns (notes: seq<string>)
    ensures |notes| == |intervals|
    ensures forall i :: 0 <= i < |intervals| ==> notes[i] == Tone(rootIndex, rootPitch, intervals[i], i)
  {
    notes := [];
    for i := 0 to |intervals|
      invariant |notes| == i
      invariant forall j :: 0 <= j < i ==> notes[j] == Tone(rootIndex, rootPitch, intervals[j], j)
    {
      var interval := intervals[i];
      var targetLetter := BASE_NOTES[JsRem(rootIndex + i * 2, 7)];
      var naturalPitch := Interval(targetLetter[0]);
      var desiredPitch := JsRem(rootPitch + interval, 12);

      var diff := JsRem(desiredPitch - naturalPitch + 12, 12);
      if diff > 6 {
        diff := diff - 12;
      }
      assert targetLetter == TargetLetter(rootIndex, i);
      assert diff == ToneDiff(rootIndex, rootPitch, interval, i);

      var accidental := "";
      if diff == 1 {
        accidental := "♯";
      }
      if diff == 2 {
        accidental := "♯♯";
      }
      if diff == -1 {
        accidental := "♭";
      }
      if diff == -2 {
        accidental := "♭♭";
      }

      assert accidental == AccidentalFor(diff);
      assert targetLetter + accidental == Tone(rootIndex, rootPitch, interval, i);
      notes := notes + [targetLetter + accidental];
    }
  }

  // ----- Properties of the speller -----

  /** Tone i is written on the letter 2*i steps round the cycle from the root. */
  lemma TonesOnThirds(rootIndex: nat, rootPitch: int, intervals: seq<int>)
    ensures var notes := Tones(rootIndex, rootPitch, intervals); forall i :: 0 <= i < |notes| ==> |notes[i]| >= 1 && [notes[i][0]] == BASE_NOTES[(rootIndex + 2 * i) % 7]
  {
    var notes := Tones(rootIndex, rootPitch, intervals);
    forall i | 0 <= i < |notes|
      ensures |notes[i]| >= 1 && [notes[i][0]] == BASE_NOTES[(rootIndex + 2 * i) % 7]
    {
      ToneLetter(rootIndex, rootPitch, intervals[i], i);
    }
  }

  /** Up to seven tones are written on pairwise distinct letters. */
  lemma TonesOnDistinctLetters(rootIndex: nat, rootPitch: int, intervals: seq<int>)
    requires |intervals| <= 7
    ensures var notes := Tones(rootIndex, rootPitch, intervals);
      forall i, j :: 0 <= i < j < |notes| ==> notes[i][0] != notes[j][0]
  {
    var notes := Tones(rootIndex, rootPitch, intervals);
    forall i, j | 0 <= i < j < |notes|
      ensures notes[i][0] != notes[j][0]
    {
      ToneLetter(rootIndex, rootPitch, intervals[i], i);
      ToneLetter(rootIndex, rootPitch, intervals[j], j);
      var x, y := (rootIndex + 2 * i) % 7, (rootIndex + 2 * j) % 7;
      ThirdsApart(rootIndex, i, j);
      BaseNoteInjective(x, y);
    }
  }

  /** Fewer than seven steps of two round a cycle of seven never meet. */
  lemma ThirdsApart(r: nat, i: nat, j: nat)
    requires i < j < 7
    ensures (r + 2 * i) % 7 != (r + 2 * j) % 7
  {
    var q, r0 := r / 7, r % 7;
    assert r == 7 * q + r0;
    assert (r + 2 * i) % 7 == (r0 + 2 * i) % 7;
    assert (r + 2 * j) % 7 == (r0 + 2 * j) % 7;
    SmallRemainderBySeven(r0 + 2 * i);
    SmallRemainderBySeven(r0 + 2 * j);
  }

  /** The remainder by 7 of a number below 21, by subtraction. */
  lemma SmallRemainderBySeven(x: int)
    requires 0 <= x < 21
    ensures x % 7 == (if x < 7 then x else if x < 14 then x - 7 else x - 14)
  {
  }

  /** A tone begins with its target letter. */
  lemma ToneLetter(rootIndex: nat, rootPitch: int, interval: int, i: nat)
    ensures var note := Tone(rootIndex, rootPitch, interval, i);
      |note| >= 1 && [note[0]] == BASE_NOTES[(rootIndex + 2 * i) % 7] == TargetLetter(rootIndex, i)
  {
    var t := TargetLetter(rootIndex, i);
    assert t == [t[0]];
    assert Tone(rootIndex, rootPitch, interval, i)[0] == t[0];
  }

  /** Whatever the input, the speller emits one note per interval of the
      looked-up quality (four, or none for an unknown suffix), note i is built on
      the letter 2*i steps round the cycle from the root, and the letters of the
      notes are pairwise distinct. */
  lemma SpelledLettersStackThirds(strChord: string) returns (rootIndex: nat)
    requires ParseChord(strChord).Ok?
    ensures rootIndex == IndexOf(BASE_NOTES, [ParseChord(strChord).value.letter])
    ensures SpellChord(strChord).Ok?
    ensures var notes := SpellChord(strChord).value;
      && (|notes| == 4 || notes == [])
      && (forall i :: 0 <= i < |notes| ==> |notes[i]| >= 1 && [notes[i][0]] == BASE_NOTES[(rootIndex + 2 * i) % 7])
      && (forall i, j :: 0 <= i < j < |notes| ==> notes[i][0] != notes[j][0])
  {
    var rootPitch, intervals;
    rootIndex, rootPitch, intervals := SpellChordParts(strChord);
    TonesOnThirds(rootIndex, rootPitch, intervals);
    TonesOnDistinctLetters(rootIndex, rootPitch, intervals);
  }

  /** A parsed chord is spelled from its root's position and pitch class and
      from the intervals of its suffix, of which there are four or none. */
  lemma SpellChordParts(strChord: string) returns (rootIndex: nat, rootPitch: int, intervals: seq<int>)
    requires ParseChord(strChord).Ok?
    ensures rootIndex == IndexOf(BASE_NOTES, [ParseChord(strChord).value.letter])
    ensures rootPitch == RootPitch(ParseChord(strChord).value.letter, ParseChord(strChord).value.accidental)
    ensures intervals == FindIntervals(SEVENTH_CHORDS, ParseChord(strChord).value.suffix)
    ensures |intervals| == 4 || intervals == []
    ensures SpellChord(strChord) == Ok(Tones(rootIndex, rootPitch, intervals))
  {
    var parts := ParseChord(strChord).value;
    rootIndex := IndexOf(BASE_NOTES, [parts.letter]);
    rootPitch := RootPitch(parts.letter, parts.accidental);
    intervals := FindIntervals(SEVENTH_CHORDS, parts.suffix);
    FindIntervalsInTable(parts.suffix);
  }

  /** The lookup yields the intervals of a quality in the table, or nothing. */
  lemma FindIntervalsInTable(str: string)
    ensures var r := FindIntervals(SEVENTH_CHORDS, str);
      r == [] || exists k :: 0 <= k < |SEVENTH_CHORDS| && r == SEVENTH_CHORDS[k].intervals
    ensures |FindIntervals(SEVENTH_CHORDS, str)| in {0, 4}
  {
    if str == "M7" {
      assert IsFirstMatch(SEVENTH_CHORDS, str, 0);
    } else if str == "7" {
      assert IsFirstMatch(SEVENTH_CHORDS, str, 1);
    } else if str == "m7" {
      assert IsFirstMatch(SEVENTH_CHORDS, str, 2);
    } else if str == "m7(♭5)" {
      assert IsFirstMatch(SEVENTH_CHORDS, str, 3);
    }
  }

  /** The suffixes are distinct, so looking up quality q's suffix finds q's
      intervals and never falls through to the empty list. */
  lemma LookupFindsQuality(q: nat)
    requires q < |SEVENTH_CHORDS|
    ensures FindIntervals(SEVENTH_CHORDS, SEVENTH_CHORDS[q].str) == SEVENTH_CHORDS[q].intervals
    ensures |SEVENTH_CHORDS[q].intervals| == 4
  {
    assert IsFirstMatch(SEVENTH_CHORDS, SEVENTH_CHORDS[q].str, q);
  }

  /** The name of the chord built on letter l, alteration a and quality q:
      `baseNote + alteration + seventhType.str`. */
  function ChordName(l: nat, a: nat, q: nat): string
    requires l < |BASE_NOTES| && a < |ALTERATIONS| && q < |SEVENTH_CHORDS|
  {
    BASE_NOTES[l] + ALTERATIONS[a] + SEVENTH_CHORDS[q].str
  }

  /** The name re-parses into exactly its three parts: no suffix begins with a
      mark and none holds a line terminator. */
  lemma ChordNameParses(l: nat, a: nat, q: nat)
    requires l < |BASE_NOTES| && a < |ALTERATIONS| && q < |SEVENTH_CHORDS|
    ensures ParseChord(ChordName(l, a, q)) == Ok(ChordParts(BASE_NOTES[l][0], ALTERATIONS[a], SEVENTH_CHORDS[q].str))
  {
    var name := ChordName(l, a, q);
    var suffix := SEVENTH_CHORDS[q].str;
    assert suffix[0] in "M7m";
    assert forall i :: 0 <= i < |suffix| ==> !IsLineTerminator(suffix[i]);
    var parts := ParseChord(name).value;
    assert [parts.letter] + parts.accidental + parts.suffix == name;
    if a == 0 {
      assert name == BASE_NOTES[l] + suffix;
    } else {
      assert name == BASE_NOTES[l] + ALTERATIONS[a] + suffix;
      assert |name| >= 2 && IsMark(name[1]);
    }
  }

  /** What the speller returns for the chord on letter l, alteration a and
      quality q: four tones on the root's position and its pitch class. */
  lemma SpellGenerated(l: nat, a: nat, q: nat)
    requires l < |BASE_NOTES| && a < |ALTERATIONS| && q < |SEVENTH_CHORDS|
    ensures SpellChord(ChordName(l, a, q)) == Ok(GeneratedNotes(l, a, q))
  {
    ChordNameParses(l, a, q);
    LookupFindsQuality(q);
    NaturalAtLetter(l);
    assert BASE_NOTES[l] == [BASE_NOTES[l][0]];
    var k := IndexOf(BASE_NOTES, [BASE_NOTES[l][0]]);
    if k != l {
      BaseNoteInjective(k, l);
    }
  }

  /** The natural pitch of the letter at position k of the cycle. */
  function NaturalAt(k: int): int
    requires 0 <= k < 7
  {
    [0, 2, 4, 5, 7, 9, 11][k]
  }

  lemma NaturalAtLetter(k: nat)
    requires k < |BASE_NOTES|
    ensures |BASE_NOTES[k]| == 1 && IsLetter(BASE_NOTES[k][0])
    ensures Interval(BASE_NOTES[k][0]) == NaturalAt(k)
  {
    if k == 0 {} else if k == 1 {} else if k == 2 {} else if k == 3 {}
    else if k == 4 {} else if k == 5 {} else {}
  }

  /** Different positions of the cycle hold different letters. */
  lemma BaseNoteInjective(x: nat, y: nat)
    requires x < |BASE_NOTES| && y < |BASE_NOTES| && x != y
    ensures BASE_NOTES[x] != BASE_NOTES[y]
  {
    NaturalAtLetter(x);
    NaturalAtLetter(y);
  }

  /** The semitones from a letter's natural pitch up to that of the letter
      2*i steps further round the cycle: a unison, a third (3 or 4), a fifth
      (6 or 7) or a seventh (10 or 11). */
  lemma StackedThirdSpan(l: nat, i: nat)
    requires l < 7 && i < 4
    ensures var span := (NaturalAt((l + 2 * i) % 7) - NaturalAt(l) + 12) % 12;
      && (i == 0 ==> span == 0)
      && (i == 1 ==> 3 <= span <= 4)
      && (i == 2 ==> 6 <= span <= 7)
      && (i == 3 ==> 10 <= span <= 11)
  {
  }

  /** Every quality's interval i lies within one semitone of that span's range. */
  lemma QualityIntervalRange(q: nat, i: nat)
    requires q < |SEVENTH_CHORDS| && i < 4
    ensures |SEVENTH_CHORDS[q].intervals| == 4
    ensures var iv := SEVENTH_CHORDS[q].intervals[i];
      && (i == 0 ==> iv == 0)
      && (i == 1 ==> 3 <= iv <= 4)
      && (i == 2 ==> 6 <= iv <= 7)
      && (i == 3 ==> 10 <= iv <= 11)
  {
  }

  /** The speller's distance is the interval minus the letters' span plus the
      root's mark, whenever that sum is small. */
  lemma DiffOfSmallOffset(rootNatural: int, targetNatural: int, alt: int, interval: int)
    requires 0 <= rootNatural < 12 && 0 <= targetNatural < 12 && -1 <= alt <= 1 && 0 <= interval < 12
    requires var span := (targetNatural - rootNatural + 12) % 12;
      -1 <= interval - span <= 1
    ensures var span := (targetNatural - rootNatural + 12) % 12;
      Diff(DesiredPitch(JsRem(rootNatural + alt + 12, 12), interval), targetNatural) == interval - span + alt
  {
    SmallRemainder(targetNatural - rootNatural + 12);
    SmallRemainder(rootNatural + alt + 12);
    var rootPitch := JsRem(rootNatural + alt + 12, 12);
    SmallRemainder(rootPitch + interval);
    var desired := DesiredPitch(rootPitch, interval);
    SmallRemainder(desired - targetNatural + 12);
  }

  /** The remainder by 12 of a number below 36, by subtraction. */
  lemma SmallRemainder(x: int)
    requires 0 <= x < 36
    ensures x % 12 == (if x < 12 then x else if x < 24 then x - 12 else x - 24)
  {
  }

  /** For every one of the 7 x 3 x 4 chords the generator can name, every
      tone's distance lies in [-2, 2]: no tone needs more than a double mark. */
  lemma DiffWithinTwo(l: nat, a: nat, q: nat, i: nat)
    requires l < |BASE_NOTES| && a < |ALTERATIONS| && q < |SEVENTH_CHORDS| && i < 4
    ensures var d := ToneDiff(l, RootPitch(BASE_NOTES[l][0], ALTERATIONS[a]), SEVENTH_CHORDS[q].intervals[i], i);
      -2 <= d <= 2
  {
    var t := (l + 2 * i) % 7;
    NaturalAtLetter(l);
    NaturalAtLetter(t);
    StackedThirdSpan(l, i);
    QualityIntervalRange(q, i);
    var alt := AlterationOffset(ALTERATIONS[a]);
    assert -1 <= alt <= 1;
    assert RootPitch(BASE_NOTES[l][0], ALTERATIONS[a]) == JsRem(NaturalAt(l) + alt + 12, 12);
    assert TargetLetter(l, i) == BASE_NOTES[t];
    DiffOfSmallOffset(NaturalAt(l), NaturalAt(t), alt, SEVENTH_CHORDS[q].intervals[i]);
  }

  /** The marks written for a distance in [-2, 2] are that many sharps or
      flats, all of one kind, and they net exactly the distance. */
  lemma AccidentalForMarks(d: int)
    requires -2 <= d <= 2
    ensures var acc := AccidentalFor(d);
      && |acc| == (if d < 0 then -d else d)
      && (forall k :: 0 <= k < |acc| ==> acc[k] == (if d > 0 then SHARP else FLAT))
      && NetMarks(acc) == d
  {
    var acc := AccidentalFor(d);
    if d != 0 {
      var one := [acc[0]];
      assert one[..0] == [];
      assert NetMarks(one) == MarkValue(acc[0]);
      if |acc| == 2 {
        assert acc[..1] == one;
      } else {
        assert acc == one;
      }
    }
  }

  /** Adding the signed distance back to the natural pitch lands on the
      desired pitch class. */
  lemma DiffRestoresPitch(desiredPitch: int, naturalPitch: int)
    requires 0 <= desiredPitch < 12 && 0 <= naturalPitch < 12
    ensures var d := Diff(desiredPitch, naturalPitch);
      -5 <= d <= 6 && JsRem(naturalPitch + d + 12, 12) == desiredPitch
  {
  }

  /** A tone whose distance is at most two normalizes to the name of its
      desired pitch class: the speller and the normalizer agree. */
  lemma ToneNormalizes(rootIndex: nat, rootPitch: int, interval: int, i: nat)
    requires 0 <= rootPitch < 12 && 0 <= interval
    requires -2 <= ToneDiff(rootIndex, rootPitch, interval, i) <= 2
    ensures Normalize(Tone(rootIndex, rootPitch, interval, i)) == Name(SHARP_NAMES[DesiredPitch(rootPitch, interval)])
  {
    var t := TargetLetter(rootIndex, i);
    var d := ToneDiff(rootIndex, rootPitch, interval, i);
    var note := Tone(rootIndex, rootPitch, interval, i);
    AccidentalForMarks(d);
    assert note == t + AccidentalFor(d);
    assert note[0] == t[0] && note[1..] == AccidentalFor(d);
    assert MatchesNote(note);
    assert RawPitch(note) == Interval(t[0]) + d;
    DiffRestoresPitch(DesiredPitch(rootPitch, interval), Interval(t[0]));
  }

  /** The notes spelled for the chord on letter l, alteration a and quality q. */
  function GeneratedNotes(l: nat, a: nat, q: nat): seq<string>
    requires l < |BASE_NOTES| && a < |ALTERATIONS| && q < |SEVENTH_CHORDS|
  {
    Tones(l, RootPitch(BASE_NOTES[l][0], ALTERATIONS[a]), SEVENTH_CHORDS[q].intervals)
  }

  /** A tone whose distance is at most two is its letter followed by at most
      two marks, all of one kind. */
  lemma ToneShape(rootIndex: nat, rootPitch: int, interval: int, i: nat)
    requires -2 <= ToneDiff(rootIndex, rootPitch, interval, i) <= 2
    ensures var note := Tone(rootIndex, rootPitch, interval, i);
      && 1 <= |note| <= 3
      && (forall k :: 1 <= k < |note| ==> note[k] == note[1] && IsMark(note[k]))
  {
    var d := ToneDiff(rootIndex, rootPitch, interval, i);
    AccidentalForMarks(d);
    assert |TargetLetter(rootIndex, i)| == 1;
  }

  /** For every chord the generator can name, every note is its letter plus at
      most two marks of one kind, and normalizing note i gives the name of the
      pitch class (rootPitch + intervals[i]) % 12. */
  lemma SpellerAgreesWithNormalizer(l: nat, a: nat, q: nat, i: nat)
    requires l < |BASE_NOTES| && a < |ALTERATIONS| && q < |SEVENTH_CHORDS| && i < 4
    ensures |GeneratedNotes(l, a, q)| == 4
    ensures 1 <= |GeneratedNotes(l, a, q)[i]| <= 3
    ensures [GeneratedNotes(l, a, q)[i][0]] == BASE_NOTES[(l + 2 * i) % 7]
    ensures forall k :: 1 <= k < |GeneratedNotes(l, a, q)[i]| ==>
      GeneratedNotes(l, a, q)[i][k] == GeneratedNotes(l, a, q)[i][1] && IsMark(GeneratedNotes(l, a, q)[i][k])
    ensures Normalize(GeneratedNotes(l, a, q)[i])
      == Name(SHARP_NAMES[DesiredPitch(RootPitch(BASE_NOTES[l][0], ALTERATIONS[a]), SEVENTH_CHORDS[q].intervals[i])])
  {
    QualityIntervalRange(q, i);
    DiffWithinTwo(l, a, q, i);
    var ivs := SEVENTH_CHORDS[q].intervals;
    var rootPitch := RootPitch(BASE_NOTES[l][0], ALTERATIONS[a]);
    assert GeneratedNotes(l, a, q)[i] == Tone(l, rootPitch, ivs[i], i);
    ToneLetter(l, rootPitch, ivs[i], i);
    ToneShape(l, rootPitch, ivs[i], i);
    TonesNormalize(l, rootPitch, ivs, i);
  }

  /** Tone i of a spelling whose distance is at most two normalizes to the
      name of its desired pitch class. */
  lemma TonesNormalize(rootIndex: nat, rootPitch: int, intervals: seq<int>, i: nat)
    requires i < |intervals| && 0 <= rootPitch < 12 && 0 <= intervals[i]
    requires -2 <= ToneDiff(rootIndex, rootPitch, intervals[i], i) <= 2
    ensures Normalize(Tones(rootIndex, rootPitch, intervals)[i]) == Name(SHARP_NAMES[DesiredPitch(rootPitch, intervals[i])])
  {
    ToneNormalizes(rootIndex, rootPitch, intervals[i], i);
  }

  /** The first note is the root as named: interval 0 falls on the root's own
      letter and the distance is the root's mark. */
  lemma FirstNoteIsRoot(l: nat, a: nat, q: nat)
    requires l < |BASE_NOTES| && a < |ALTERATIONS| && q < |SEVENTH_CHORDS|
    ensures |GeneratedNotes(l, a, q)| == 4
    ensures GeneratedNotes(l, a, q)[0] == BASE_NOTES[l] + ALTERATIONS[a]
  {
    QualityIntervalRange(q, 0);
    RootTone(l, a);
  }

  /** Interval 0 is spelled as the root's letter and alteration. */
  lemma RootTone(l: nat, a: nat)
    requires l < |BASE_NOTES| && a < |ALTERATIONS|
    ensures Tone(l, RootPitch(BASE_NOTES[l][0], ALTERATIONS[a]), 0, 0) == BASE_NOTES[l] + ALTERATIONS[a]
  {
    var rootPitch := RootPitch(BASE_NOTES[l][0], ALTERATIONS[a]);
    NaturalAtLetter(l);
    assert TargetLetter(l, 0) == BASE_NOTES[l];
    var alt := AlterationOffset(ALTERATIONS[a]);
    assert rootPitch == JsRem(NaturalAt(l) + alt + 12, 12);
    assert (NaturalAt(l) - NaturalAt(l) + 12) % 12 == 0;
    DiffOfSmallOffset(NaturalAt(l), NaturalAt(l), alt, 0);
    assert ToneDiff(l, rootPitch, 0, 0) == alt;
    if a == 0 {
      assert AccidentalFor(alt) == "";
    } else if a == 1 {
      assert AccidentalFor(alt) == "♯";
    } else {
      assert AccidentalFor(alt) == "♭";
    }
  }

  /** Worked chord: C major seventh is C, E, G, B. */
  lemma MajorSeventhOnC()
    ensures SpellChord("CM7") == Ok(["C", "E", "G", "B"])
  {
    assert ChordName(0, 0, 0) == "CM7";
    WorkedChord(0, 0, 0, ["C", "E", "G", "B"]);
    SpellGenerated(0, 0, 0);
  }

  /** Worked chord: C dominant seventh is C, E, G, B-flat. */
  lemma DominantSeventhOnC()
    ensures SpellChord("C7") == Ok(["C", "E", "G", "B♭"])
  {
    assert ChordName(0, 0, 1) == "C7";
    WorkedChord(0, 0, 1, ["C", "E", "G", "B♭"]);
    SpellGenerated(0, 0, 1);
  }

  /** Worked chord: F-sharp half-diminished is F-sharp, A, C, E. */
  lemma HalfDiminishedOnFSharp()
    ensures SpellChord("F♯m7(♭5)") == Ok(["F♯", "A", "C", "E"])
  {
    assert ChordName(3, 1, 3) == "F♯m7(♭5)";
    assert RootPitch('F', "♯") == 6;
    WorkedChord(3, 1, 3, ["F♯", "A", "C", "E"]);
    SpellGenerated(3, 1, 3);
  }

  /** The generated chord (l, a, q) is `expected` when its four tones are. */
  lemma WorkedChord(l: nat, a: nat, q: nat, expected: seq<string>)
    requires l < |BASE_NOTES| && a < |ALTERATIONS| && q < |SEVENTH_CHORDS| && |expected| == 4
    requires var rootPitch := RootPitch(BASE_NOTES[l][0], ALTERATIONS[a]);
      var ivs := SEVENTH_CHORDS[q].intervals;
      && Tone(l, rootPitch, ivs[0], 0) == expected[0]
      && Tone(l, rootPitch, ivs[1], 1) == expected[1]
      && Tone(l, rootPitch, ivs[2], 2) == expected[2]
      && Tone(l, rootPitch, ivs[3], 3) == expected[3]
    ensures GeneratedNotes(l, a, q) == expected
  {
    LookupFindsQuality(q);
    FourTones(l, RootPitch(BASE_NOTES[l][0], ALTERATIONS[a]), SEVENTH_CHORDS[q].intervals, expected);
  }

  /** Four intervals whose four tones are `expected` are spelled `expected`. */
  lemma FourTones(rootIndex: nat, rootPitch: int, intervals: seq<int>, expected: seq<string>)
    requires |intervals| == 4 && |expected| == 4
    requires Tone(rootIndex, rootPitch, intervals[0], 0) == expected[0]
    requires Tone(rootIndex, rootPitch, intervals[1], 1) == expected[1]
    requires Tone(rootIndex, rootPitch, intervals[2], 2) == expected[2]
    requires Tone(rootIndex, rootPitch, intervals[3], 3) == expected[3]
    ensures Tones(rootIndex, rootPitch, intervals) == expected
  {
    var notes := Tones(rootIndex, rootPitch, intervals);
    forall i | 0 <= i < 4
      ensures notes[i] == expected[i]
    {
      if i == 0 {} else if i == 1 {} else if i == 2 {} else {}
    }
  }
}
