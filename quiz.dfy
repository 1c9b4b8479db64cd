// The quiz as a whole (src/App.tsx hands each generated chord's notes to the
// Piano component): every chord the generator can produce lights four keys,
// one per note on the octave walk, and every one of them exists on the drawn
// keyboard.

module Quiz {
  import opened ChordTables
  import opened Normalizer
  import opened Speller
  import opened Piano
  import opened Generator

  /** The pitch class of tone i of the chord with letter l, alteration a and
      quality q: root pitch plus interval i, modulo 12. */
  function ChordPitchClass(l: nat, a: nat, q: nat, i: nat): (p: int)
    requires l < |BASE_NOTES| && a < |ALTERATIONS| && q < |SEVENTH_CHORDS| && i < 4
    ensures 0 <= p < 12
  {
    QualityIntervalRange(q, i);
    (RootPitch(BASE_NOTES[l][0], ALTERATIONS[a]) + SEVENTH_CHORDS[q].intervals[i]) % 12
  }

  /** Tone i of a generated chord normalizes to the sharp name of its pitch
      class. */
  lemma TonePitchClass(l: nat, a: nat, q: nat, i: nat)
    requires l < |BASE_NOTES| && a < |ALTERATIONS| && q < |SEVENTH_CHORDS| && i < 4
    ensures |GeneratedNotes(l, a, q)| == 4
    ensures Normalize(GeneratedNotes(l, a, q)[i]) == Name(SHARP_NAMES[ChordPitchClass(l, a, q, i)])
  {
    QualityIntervalRange(q, i);
    SpellerAgreesWithNormalizer(l, a, q, i);
  }

  /** The pitch classes of a generated chord walk within the keyboard. */
  lemma ChordWalkFits(l: nat, a: nat, q: nat)
    requires l < |BASE_NOTES| && a < |ALTERATIONS| && q < |SEVENTH_CHORDS|
    ensures WalkFits(ChordPitchClass(l, a, q, 0), ChordPitchClass(l, a, q, 1),
                     ChordPitchClass(l, a, q, 2), ChordPitchClass(l, a, q, 3))
  {
    QualityIntervalRange(q, 0);
    var rootPitch := RootPitch(BASE_NOTES[l][0], ALTERATIONS[a]);
    SeventhChordWalkFits(rootPitch, q, ChordPitchClass(l, a, q, 0), ChordPitchClass(l, a, q, 1),
                         ChordPitchClass(l, a, q, 2), ChordPitchClass(l, a, q, 3));
  }

  /** Four notes that normalize to the names of four pitch classes whose walk
      fits the keyboard light four existing keys: the marks of those names on
      their octave walk, one per note. */
  lemma FourNamesLight(notes: seq<string>, p0: int, p1: int, p2: int, p3: int)
    requires 0 <= p0 < 12 && 0 <= p1 < 12 && 0 <= p2 < 12 && 0 <= p3 < 12
    requires |notes| == 4
    requires Normalize(notes[0]) == Name(SHARP_NAMES[p0]) && Normalize(notes[1]) == Name(SHARP_NAMES[p1])
    requires Normalize(notes[2]) == Name(SHARP_NAMES[p2]) && Normalize(notes[3]) == Name(SHARP_NAMES[p3])
    requires WalkFits(p0, p1, p2, p3)
    ensures var c := Render(notes);
      && c.ok && |c.marks| == 4
      && forall i :: 0 <= i < 4 ==> c.marks[i].id in KEY_IDS
    ensures var keys := [SHARP_NAMES[p0], SHARP_NAMES[p1], SHARP_NAMES[p2], SHARP_NAMES[p3]];
      Render(notes).marks == Marks(keys, Octaves(keys, StartOctave(Initial(keys[0]))))
  {
    var ns := NormalizeAll(notes);
    var keys := [SHARP_NAMES[p0], SHARP_NAMES[p1], SHARP_NAMES[p2], SHARP_NAMES[p3]];
    assert ns == [Name(keys[0]), Name(keys[1]), Name(keys[2]), Name(keys[3])];
    assert AllNames(ns);
    assert Keys(ns) == keys;
    var base := StartOctave(Initial(keys[0]));
    assert BasePitch(notes) == Some(base);
    NamesWalkFits(p0, p1, p2, p3);
    var o := Octaves(keys, base);
    PaintCharacterization(ns, base, KEY_IDS);
    KeysInEverywhere(keys, o, KEY_IDS);
  }

  /** Every chord of the 7 x 3 x 4 the generator can name lights four keys,
      one per note, each with an element in the SVG, and both steps of
      onMount run to the end. */
  lemma GeneratedChordLightsKeys(l: nat, a: nat, q: nat)
    requires l < |BASE_NOTES| && a < |ALTERATIONS| && q < |SEVENTH_CHORDS|
    ensures var c := Render(GeneratedNotes(l, a, q));
      && c.ok && |c.marks| == 4
      && forall i :: 0 <= i < 4 ==> c.marks[i].id in KEY_IDS
  {
    ChordWalkFits(l, a, q);
    TonePitchClass(l, a, q, 0);
    TonePitchClass(l, a, q, 1);
    TonePitchClass(l, a, q, 2);
    TonePitchClass(l, a, q, 3);
    FourNamesLight(GeneratedNotes(l, a, q), ChordPitchClass(l, a, q, 0), ChordPitchClass(l, a, q, 1),
                   ChordPitchClass(l, a, q, 2), ChordPitchClass(l, a, q, 3));
  }

  /** Whatever the script, the chord a call of generate7thChord returns lights
      four keys of the keyboard. */
  lemma GenerationLightsKeys(samples: seq<real>, prev: string)
    requires CanGenerate(samples, prev)
    ensures var c := Render(Generation(samples, prev).chord.notes);
      && c.ok && |c.marks| == 4
      && forall i :: 0 <= i < 4 ==> c.marks[i].id in KEY_IDS
  {
    var a := RandomInt(samples[0], |ALTERATIONS|);
    var q := RandomInt(samples[1], |SEVENTH_CHORDS|);
    var l := RandomInt(samples[FirstFresh(samples, prev, 2)], |BASE_NOTES|);
    GeneratedChordLightsKeys(l, a, q);
  }
}
