// generate7thChord and _getRandomInt (src/modules/chords.module.ts): draw an
// alteration, a quality and a root letter, redraw the letter while it repeats
// the previous call's, remember it, and spell the chord so named.
//
// Math.random is modelled as a scripted source: a list of samples in [0, 1)
// that the draws consume front to back.

module Generator {
  import opened ChordTables
  import opened Speller

  /** `Chord`: a display name and its spelled notes. */
  datatype Chord = Chord(name: string, notes: seq<string>)

  /** A value Math.random can return. */
  predicate IsSample(x: real)
  {
    0.0 <= x < 1.0
  }

  predicate AllSamples(samples: seq<real>)
  {
    forall i :: 0 <= i < |samples| ==> IsSample(samples[i])
  }

  /** `Math.floor(x * max)`: an index in [0, max). The doc comment says
      0 < x < max, but a sample below 1 / max gives 0. */
  function RandomInt(x: real, max: nat): (r: int)
    requires IsSample(x) && max > 0
    ensures 0 <= r < max
    ensures r as real <= x * max as real < r as real + 1.0
  {
    var m := max as real;
    assert x * m < m by {
      assert m - x * m == (1.0 - x) * m;
      assert (1.0 - x) * m > 0.0;
    }
    (x * m).Floor
  }

  /** The scripted stand-in for Math.random. */
  class RandomSource {
    var samples: seq<real>

    predicate Valid()
      reads this
    {
      AllSamples(samples)
    }

    constructor(script: seq<real>)
      requires AllSamples(script)
      ensures Valid() && samples == script
    {
      samples := script;
    }

    /** _getRandomInt: consume one sample and scale it to [0, max). */
    method GetRandomInt(max: nat) returns (r: int)
      requires Valid() && max > 0 && |samples| >= 1
      modifies this
      ensures Valid()
      ensures r == RandomInt(old(samples)[0], max) && samples == old(samples)[1..]
      ensures 0 <= r < max
    {
      r := RandomInt(samples[0], max);
      samples := samples[1..];
    }
  }

  /** The root letter a sample draws: `BASE_NOTES[_getRandomInt(7)]`. */
  function LetterOf(x: real): (letter: string)
    requires IsSample(x)
    ensures letter in BASE_NOTES
  {
    BASE_NOTES[RandomInt(x, |BASE_NOTES|)]
  }

  /** Some sample from position k on draws a letter other than `prev`. */
  predicate HasFreshFrom(samples: seq<real>, prev: string, k: nat)
    requires AllSamples(samples)
  {
    exists j :: k <= j < |samples| && LetterOf(samples[j]) != prev
  }

  /** The position of the first sample from k on whose letter is not `prev`:
      the draw that ends the redraw loop. */
  function FirstFresh(samples: seq<real>, prev: string, k: nat): (f: nat)
    requires AllSamples(samples) && HasFreshFrom(samples, prev, k)
    ensures k <= f < |samples| && LetterOf(samples[f]) != prev
    ensures forall j :: k <= j < f ==> LetterOf(samples[j]) == prev
    decreases |samples| - k
  {
    if LetterOf(samples[k]) != prev then k
    else
      assert HasFreshFrom(samples, prev, k + 1) by {
        var j :| k <= j < |samples| && LetterOf(samples[j]) != prev;
        assert j != k;
      }
      FirstFresh(samples, prev, k + 1)
  }

  /** A call can complete within the script: two samples for the alteration
      and the quality, then some sample drawing a fresh letter. */
  predicate CanGenerate(samples: seq<real>, prev: string)
  {
    AllSamples(samples) && |samples| >= 3 && HasFreshFrom(samples, prev, 2)
  }

  /** What one call produces: the chord, the letter remembered for the next
      call and the number of samples consumed. */
  datatype Generated = Generated(chord: Chord, baseNote: string, used: nat)

  /** The outcome of generate7thChord on a script, given the previous letter. */
  function Generation(samples: seq<real>, prev: string): (g: Generated)
    requires CanGenerate(samples, prev)
    ensures g.baseNote in BASE_NOTES && g.baseNote != prev
    ensures 3 <= g.used <= |samples|
  {
    var a := RandomInt(samples[0], |ALTERATIONS|);
    var q := RandomInt(samples[1], |SEVENTH_CHORDS|);
    var f := FirstFresh(samples, prev, 2);
    var l := RandomInt(samples[f], |BASE_NOTES|);
    Generated(Chord(ChordName(l, a, q), GeneratedNotes(l, a, q)), BASE_NOTES[l], f + 1)
  }

  /** The module state of chords.module.ts: the letter of the last chord. */
  class ChordGenerator {
    var previousBaseNote: string

    constructor()
      ensures previousBaseNote == ""
    {
      previousBaseNote := "";
    }

    /** generate7thChord: draw alteration, quality and letter in that order,
        redraw the letter while it equals the previous one, remember it and
        spell `baseNote + alteration + seventhType.str`. */
    method Generate7thChord(rng: RandomSource) returns (chord: Chord)
      requires rng.Valid() && CanGenerate(rng.samples, previousBaseNote)
      modifies this, rng
      ensures rng.Valid()
      ensures var g := Generation(old(rng.samples), old(previousBaseNote));
        chord == g.chord && previousBaseNote == g.baseNote && rng.samples == old(rng.samples)[g.used..]
      ensures previousBaseNote != old(previousBaseNote) && [chord.name[0]] == previousBaseNote
    {
      ghost var script, prev := rng.samples, previousBaseNote;
      var a := rng.GetRandomInt(|ALTERATIONS|);
      var alteration := ALTERATIONS[a];
      var q := rng.GetRandomInt(|SEVENTH_CHORDS|);
      var seventhType := SEVENTH_CHORDS[q];
      var l := rng.GetRandomInt(|BASE_NOTES|);
      var baseNote := BASE_NOTES[l];
      ghost var k: nat := 2;
      while baseNote == previousBaseNote
        invariant rng.Valid() && previousBaseNote == prev
        invariant 2 <= k < |script| && rng.samples == script[k + 1..]
        invariant l == RandomInt(script[k], |BASE_NOTES|) && baseNote == BASE_NOTES[l]
        invariant forall j :: 2 <= j < k ==> LetterOf(script[j]) == prev
        decreases |rng.samples|
      {
        assert LetterOf(script[k]) == prev;
        ghost var f := FirstFresh(script, prev, 2);
        assert k < f;
        l := rng.GetRandomInt(|BASE_NOTES|);
        baseNote := BASE_NOTES[l];
        k := k + 1;
      }
      ghost var f := FirstFresh(script, prev, 2);
      assert k == f;
      previousBaseNote := baseNote;

      var stringChord := baseNote + alteration + seventhType.str;
      assert stringChord == ChordName(l, a, q);
      SpellGenerated(l, a, q);
      var noteChord := StringToNoteChord(stringChord);
      chord := Chord(stringChord, noteChord.value);
      NaturalAtLetter(l);
    }
  }

  // ----- Properties of the generator -----

  /** The letter of a call differs from the previous one, every redrawn sample
      drew the previous letter, and the name starts with the new letter. */
  lemma GenerationAvoidsPreviousLetter(samples: seq<real>, prev: string)
    requires CanGenerate(samples, prev)
    ensures var g := Generation(samples, prev);
      && g.baseNote != prev
      && |g.chord.name| >= 1 && [g.chord.name[0]] == g.baseNote
      && g.baseNote == LetterOf(samples[g.used - 1])
      && forall j :: 2 <= j < g.used - 1 ==> LetterOf(samples[j]) == prev
  {
    var f := FirstFresh(samples, prev, 2);
    NaturalAtLetter(RandomInt(samples[f], |BASE_NOTES|));
  }

  /** The generated chord is one of the 7 x 3 x 4 names, its name re-parses
      into letter, alteration and suffix, and the notes are what the speller
      gives for that name: four, the first being the root as named. */
  lemma GenerationIsSpelledChord(samples: seq<real>, prev: string)
    returns (l: nat, a: nat, q: nat)
    requires CanGenerate(samples, prev)
    ensures l < |BASE_NOTES| && a < |ALTERATIONS| && q < |SEVENTH_CHORDS|
    ensures var g := Generation(samples, prev);
      && a == RandomInt(samples[0], |ALTERATIONS|)
      && q == RandomInt(samples[1], |SEVENTH_CHORDS|)
      && g.baseNote == BASE_NOTES[l]
      && g.chord.name == BASE_NOTES[l] + ALTERATIONS[a] + SEVENTH_CHORDS[q].str
      && ParseChord(g.chord.name) == Ok(ChordParts(BASE_NOTES[l][0], ALTERATIONS[a], SEVENTH_CHORDS[q].str))
      && SpellChord(g.chord.name) == Ok(g.chord.notes)
      && |g.chord.notes| == 4
      && g.chord.notes[0] == BASE_NOTES[l] + ALTERATIONS[a]
  {
    a := RandomInt(samples[0], |ALTERATIONS|);
    q := RandomInt(samples[1], |SEVENTH_CHORDS|);
    l := RandomInt(samples[FirstFresh(samples, prev, 2)], |BASE_NOTES|);
    ChordNameParses(l, a, q);
    SpellGenerated(l, a, q);
    FirstNoteIsRoot(l, a, q);
  }

  /** Two consecutive calls never name chords on the same letter. */
  lemma ConsecutiveCallsChangeLetter(samples: seq<real>, prev: string)
    requires CanGenerate(samples, prev)
    requires CanGenerate(samples[Generation(samples, prev).used..], Generation(samples, prev).baseNote)
    ensures var g1 := Generation(samples, prev);
      var g2 := Generation(samples[g1.used..], g1.baseNote);
      g2.chord.name[0] != g1.chord.name[0]
  {
    var g1 := Generation(samples, prev);
    var rest := samples[g1.used..];
    GenerationAvoidsPreviousLetter(samples, prev);
    GenerationAvoidsPreviousLetter(rest, g1.baseNote);
  }

  /** The first call after start-up never redraws: no letter equals "". */
  lemma FirstCallDrawsOnce(samples: seq<real>)
    requires AllSamples(samples) && |samples| >= 3
    ensures CanGenerate(samples, "")
    ensures Generation(samples, "").used == 3
  {
    assert LetterOf(samples[2]) != "";
  }
}
