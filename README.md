# Seventh-chord quiz: chord engine and keyboard, in Dafny

This project models the core of a small web quiz, a seventh-chord trainer. The quiz
names a random seventh chord, spells its four notes and lights the matching keys
on a drawn piano keyboard. It covers two source files:

- `src/modules/chords.module.ts`, the chord engine:
  - the tables of letters, alterations, qualities and natural pitches;
  - `normalizeNoteToSharp`, which reduces a letter followed by any run of ♯/♭
    marks to one of twelve sharp-based names;
  - `_stringToNoteChord`, which parses a chord name, looks up its intervals with
    `_getSeventhInterval` and spells each tone on the letter a third above the
    last, with the marks for its distance;
  - `generate7thChord` with `_getRandomInt`, which draws an alteration, a
    quality and a root letter that differs from the previous call's.
- `src/components/Piano.tsx`, the keyboard component: `_getBasePitch` picks the
  starting octave, `_checkPitchChange` walks the octave up, `_colorNotes` marks
  the key `key-<name><octave>` of every note with the black or white style, and
  `onMount` runs `_getBasePitch`, then `_colorNotes`.

The modules are:

| module | file | contents |
|---|---|---|
| `JsSemantics` | `js_semantics.dfy` | JavaScript's truncating `%`, `String(n)`, `indexOf` and `includes` |
| `ChordTables` | `chord_tables.dfy` | the constant tables |
| `Normalizer` | `normalizer.dfy` | the normalizer: a specification function, the loop as a method, and its properties |
| `Speller` | `speller.dfy` | the parser, the interval lookup and the spelling loop, each proved against a specification function |
| `Generator` | `generator.dfy` | the random source and the generator as classes, and what one or two calls produce |
| `Piano` | `piano.dfy` | the component as a class over its mutable octave, the colouring as a specification function, and the octave walk |
| `Quiz` | `quiz.dfy` | the two files together: every chord the generator names lights four existing keys |

`Math.random` is a scripted source: a list of samples in [0, 1) that the
draws use up front to back. The normalizer returns one of three values: a
table name, `Malformed` for the TypeError thrown when its pattern does not
match, or `Undefined`, the value JavaScript returns when the table index is
negative. The parser's failed match is `TypeError`. For the component,
`ok == false` stands for any throw: `undefined[0]` when the root
(Piano.tsx:23) or a later note (Piano.tsx:38) normalizes to `undefined`, or
`setAttribute` on a missing element. The document is reduced to the
list of key ids the SVG declares, and each style write becomes a returned
`KeyMark`.

Where the intended behaviour and the code differ, the model follows the code:

- A canonical name such as "C-sharp" does not match the normalizer's pattern.
  Feeding it back in therefore throws instead of returning it unchanged
  (`Normalizer.SharpNamesAreNotNotes`).
- The speller does not fail on a distance outside [-2, 2]. It writes the bare
  letter. `Speller.DiffWithinTwo` proves that no generated chord reaches such a
  distance.
- The normalizer's doc comment gives "D#" for E♭, but the table returns
  "D-sharp" (`Normalizer.DocExamples`).
- `_getRandomInt`'s doc comment promises 0 < x < max, but the code returns 0
  for small samples (`Generator.RandomInt` states 0 <= r < max).
- `_checkPitchChange`'s comment promises a step up onto a C only when it comes
  after a G, but its test `prevBaseKey && currentBaseKey === "C"` holds after
  any key, because `prevBaseKey` is a one-character string. `Piano.Bumps` and
  `Piano.OctaveWalk` follow the code: every C after some key moves up.

## Model

| member | source | states |
|---|---|---|
| JsSemantics.JsRem | src/modules/chords.module.ts:66 | JavaScript's remainder: it agrees with the mathematical one on non-negative dividends, is non-positive on negative ones and stays within (-n, n) |
| JsSemantics.NatToString | src/components/Piano.tsx:51 | the octave written into the key id is its decimal digits; one digit below 10 |
| JsSemantics.IndexOf | src/modules/chords.module.ts:89 | `indexOf` gives the first position holding the value, or -1 exactly when it is absent |
| ChordTables.Interval | src/modules/chords.module.ts:14-16 | every letter A-G has a natural pitch in [0, 12) and is one of BASE_NOTES |
| Normalizer.NormalizeNoteToSharp | src/modules/chords.module.ts:49-69 | the loop over the marks computes the normalizer's value: a table name, `undefined` or the thrown TypeError |
| Normalizer.MatchesNote | src/modules/chords.module.ts:56 | no contract of its own: the pattern `^([A-G])([♯♭]*)$` as a predicate, one letter A-G followed only by ♯ and ♭ marks |
| Normalizer.Normalize | src/modules/chords.module.ts:49-69 | no contract of its own: the specification function the method is proved equal to; Malformed when the pattern fails, otherwise SHARP_NAMES at the JavaScript remainder `(pitch + 12) % 12`, or Undefined when that is negative; its outcomes are stated by NormalizeOutcomes and NormalizeFormula |
| Normalizer.NetMarksCounts | src/modules/chords.module.ts:61-64 | the loop's running total is the number of sharps minus the number of flats, wherever they stand |
| Normalizer.NormalizeFormula | src/modules/chords.module.ts:60-68 | the result is SHARP_NAMES[(INTERVALS[letter] + sharps - flats + 12) % 12], the true pitch class whenever the sum is at least -12 or a multiple of 12 (every case that gives a name) |
| Normalizer.NormalizeOutcomes | src/modules/chords.module.ts:56-68 | exactly when each outcome occurs: throws iff the pattern fails; a table name iff the raw pitch is at least -12 or a multiple of 12; `undefined` otherwise |
| Normalizer.ShiftedRemainder | src/modules/chords.module.ts:66 | JavaScript's `(p + 12) % 12` is non-negative iff p >= -12 or p is a multiple of 12 |
| Normalizer.NaturalsAreFixed | src/modules/chords.module.ts:50-54 | each natural letter normalizes to itself |
| Normalizer.LetterNormalizes | src/modules/chords.module.ts:56-68 | a lone letter matches the pattern with no marks and gives the table name of its natural pitch |
| Normalizer.DocExamples | src/modules/chords.module.ts:43-48 | C♭ gives B, E♭ gives D-sharp (the doc writes D#), E♯♯ gives F-sharp |
| Normalizer.SharpNamesAreNotNotes | src/modules/chords.module.ts:50-56 | every name with "-sharp" fails the pattern, so normalizing it again throws |
| Normalizer.ShiftedRemainderValue | src/modules/chords.module.ts:66 | where JavaScript's `(p + 12) % 12` is non-negative it equals the true pitch class p % 12 |
| Normalizer.OnlyNetCountMatters | src/modules/chords.module.ts:61-64 | mark runs with the same net count normalize alike, mixed runs included |
| Speller.ParseChord | src/modules/chords.module.ts:78-81 | the pattern matches iff the name starts with a letter and holds no line terminator; the three groups concatenate back to the name; the optional mark is taken whenever present |
| Speller.FindIntervals | src/modules/chords.module.ts:118-123 | the intervals of the first quality with the suffix, or [] when no quality has it |
| Speller.GetSeventhInterval | src/modules/chords.module.ts:118-123 | the linear search returns the intervals of the first matching quality |
| Speller.StringToNoteChord | src/modules/chords.module.ts:77-111 | the method computes the speller's value: the tones of the parsed root and the looked-up intervals, or the TypeError of a failed match |
| Speller.SpellChord | src/modules/chords.module.ts:77-111 | no contract of its own: the specification function the method is proved equal to; TypeError when the parse fails, else the tones of the root's index, the root's pitch class and the looked-up intervals; its properties are SpelledLettersStackThirds, SpellChordParts and SpellGenerated |
| Speller.RootPitch | src/modules/chords.module.ts:84-87 | no contract of its own: the root letter's natural pitch, moved one up for ♯ and one down for ♭, taken `(p + 12) % 12` with JavaScript's remainder |
| Speller.Diff | src/modules/chords.module.ts:99-100 | no contract of its own: `(desired - natural + 12) % 12`, less 12 when above 6; DiffRestoresPitch states that it lands back on the desired pitch |
| Speller.AccidentalFor | src/modules/chords.module.ts:102-106 | no contract of its own: ♯, ♯♯, ♭ or ♭♭ for a distance of 1, 2, -1 or -2, nothing otherwise; AccidentalForMarks states what it writes |
| Speller.Tone | src/modules/chords.module.ts:95-108 | no contract of its own: the target letter followed by the marks for its distance; ToneLetter, ToneShape and ToneNormalizes state its properties |
| Speller.ChordName | src/modules/chords.module.ts:35 | no contract of its own: `baseNote + alteration + seventhType.str`; ChordNameParses states that it re-parses into its parts |
| Speller.SpellTones | src/modules/chords.module.ts:92-110 | the loop emits one note per interval, note i being tone i: its letter 2·i steps round the cycle followed by the marks for its distance |
| Speller.TargetLetter | src/modules/chords.module.ts:95 | every tone's letter is a single letter A-G |
| Speller.Tones | src/modules/chords.module.ts:92-109 | one note per interval, note i spelled from interval i |
| Speller.TonesOnThirds | src/modules/chords.module.ts:95 | note i begins with BASE_NOTES[(rootIndex + 2·i) % 7] |
| Speller.TonesOnDistinctLetters | src/modules/chords.module.ts:95 | up to seven notes have pairwise distinct letters |
| Speller.ThirdsApart | src/modules/chords.module.ts:95 | fewer than seven steps of two round a cycle of seven never meet |
| Speller.SpelledLettersStackThirds | src/modules/chords.module.ts:77-111 | whatever name parses, the speller emits four notes or none, note i on the letter 2·i steps from the root, letters pairwise distinct |
| Speller.SpellChordParts | src/modules/chords.module.ts:84-90 | a parsed name is spelled from its root's index (`indexOf`), its root's pitch class (RootPitch of the parsed letter and mark) and the intervals the lookup finds for its suffix, which number four or none |
| Speller.FindIntervalsInTable | src/modules/chords.module.ts:118-123 | the lookup yields one quality's intervals or [], so four or no tones |
| Speller.LookupFindsQuality | src/modules/chords.module.ts:8-13 | the suffixes are distinct, so each quality's suffix finds its own four intervals and never falls through to [] |
| Speller.ChordNameParses | src/modules/chords.module.ts:35 | every generated name re-parses into exactly its letter, alteration and suffix |
| Speller.SpellGenerated | src/modules/chords.module.ts:35-36 | spelling a generated name gives the tones of its letter position, root pitch class and quality |
| Speller.NaturalAtLetter | src/modules/chords.module.ts:6-16 | each position of the letter cycle holds a single letter with the listed natural pitch |
| Speller.BaseNoteInjective | src/modules/chords.module.ts:6 | different positions of the letter cycle hold different letters |
| Speller.StackedThirdSpan | src/modules/chords.module.ts:95-96 | the natural span from a root letter to the letter 2·i steps on is 0, 3-4, 6-7 or 10-11 semitones |
| Speller.QualityIntervalRange | src/modules/chords.module.ts:8-13 | interval i of every quality lies in that span's range |
| Speller.DiffOfSmallOffset | src/modules/chords.module.ts:87-100 | the speller's distance equals interval - span + root mark when that is small |
| Speller.DiffWithinTwo | src/modules/chords.module.ts:97-106 | for each of the 84 names the generator can build, every tone's distance is within [-2, 2], so no case falls outside the four mark spellings |
| Speller.AccidentalForMarks | src/modules/chords.module.ts:102-106 | the marks written for a distance in [-2, 2] are that many marks of one kind, netting the distance |
| Speller.DiffRestoresPitch | src/modules/chords.module.ts:99-100 | natural pitch plus the signed distance lands back on the desired pitch class |
| Speller.ToneNormalizes | src/modules/chords.module.ts:93-108 | a tone with distance at most two normalizes to the sharp name of its desired pitch class |
| Speller.TonesNormalize | src/modules/chords.module.ts:93-108 | the same for tone i of a spelled list |
| Speller.ToneShape | src/modules/chords.module.ts:102-108 | such a tone is its letter plus at most two marks of one kind |
| Speller.ToneLetter | src/modules/chords.module.ts:95-108 | a tone starts with its target letter |
| Speller.SpellerAgreesWithNormalizer | src/modules/chords.module.ts:92-109 | each generated note is a letter on the stacked thirds plus at most two like marks, and normalizes to the name of (rootPitch + interval) % 12: speller and normalizer agree |
| Speller.FirstNoteIsRoot | src/modules/chords.module.ts:93-108 | the first note of every generated chord is the root exactly as named (letter plus alteration) |
| Speller.RootTone | src/modules/chords.module.ts:84-106 | interval 0 is spelled as the root letter with its own mark |
| Speller.MajorSeventhOnC | src/modules/chords.module.ts:9 | CM7 is spelled C, E, G, B |
| Speller.DominantSeventhOnC | src/modules/chords.module.ts:10 | C7 is spelled C, E, G, B♭ |
| Speller.HalfDiminishedOnFSharp | src/modules/chords.module.ts:12 | F♯m7(♭5) is spelled F♯, A, C, E |
| Speller.FourTones | src/modules/chords.module.ts:92-109 | four intervals whose tones are the expected notes spell those notes |
| Speller.WorkedChord | src/modules/chords.module.ts:35-36 | a generated chord is the expected list once its four tones are |
| Generator.RandomInt | src/modules/chords.module.ts:125-132 | `Math.floor(x * max)` is in [0, max) and is the floor: r <= x·max < r + 1 |
| Generator.RandomSource.GetRandomInt | src/modules/chords.module.ts:130-132 | one draw uses up exactly one sample and returns its scaled floor |
| Generator.LetterOf | src/modules/chords.module.ts:29 | a draw of the letter gives one of BASE_NOTES |
| Generator.FirstFresh | src/modules/chords.module.ts:30-32 | the sample that ends the redraw loop: the first from k on with a letter other than the previous, all before it repeating that letter |
| Generator.CanGenerate | src/modules/chords.module.ts:27-32 | no contract of its own: the script holds the three draws before the loop and some later sample drawing a fresh letter; it stands in for the redraw loop ending, which in the source holds with probability one |
| Generator.Generation | src/modules/chords.module.ts:26-41 | a call's letter is a base note other than the previous one, and it uses at least three samples |
| Generator.ChordGenerator.Generate7thChord | src/modules/chords.module.ts:26-41 | draws alteration, quality and letter in order, redraws while the letter repeats, stores it and returns the spelled chord; the new state is the stored letter and the rest of the script |
| Generator.GenerationAvoidsPreviousLetter | src/modules/chords.module.ts:29-33 | the stored letter differs from the previous one, heads the name, and comes from the last sample used; every redrawn sample drew the previous letter |
| Generator.GenerationIsSpelledChord | src/modules/chords.module.ts:26-41 | the chord is one of the 7 × 3 × 4 names; its name re-parses into its parts; its notes are the speller's four for it, the first being the root as named |
| Generator.ConsecutiveCallsChangeLetter | src/modules/chords.module.ts:18-19 | two consecutive calls never name chords on the same letter |
| Generator.FirstCallDrawsOnce | src/modules/chords.module.ts:19 | right after start-up (previous letter "") the first draw is kept: three samples are used |
| Piano.Octaves | src/components/Piano.tsx:36-57 | one octave per key of the chord |
| Piano.NormalizeAll | src/components/Piano.tsx:47-48 | each note normalized in place |
| Piano.Keys | src/components/Piano.tsx:48 | the names of the normalized keys, one per note |
| Piano.Marks | src/components/Piano.tsx:51-53 | mark i is the id `key-<name><octave>` of key i, with its style |
| Piano.StartOctave | src/components/Piano.tsx:24-25 | no contract of its own: octave 0 when the first character is A, B or G, and 1 otherwise |
| Piano.BasePitch | src/components/Piano.tsx:22-26 | no contract of its own: the start octave of the first note's normalized name, or None where `_getBasePitch` throws (no notes, a malformed note, or `undefined[0]`); GetBasePitch is proved against it |
| Piano.Bumps | src/components/Piano.tsx:36-42 | no contract of its own: a previous key is present and starts with A or B, or the current key starts with C; OctaveWalk states the step rule it gives |
| Piano.KeyId | src/components/Piano.tsx:51 | no contract of its own: the id `key-${currentKey}${pitch}` |
| Piano.StyleOf | src/components/Piano.tsx:52-53 | no contract of its own: BLACK_STYLE when the name includes "sharp", WHITE_STYLE otherwise; SharpNameStyles states which names are black |
| Piano.PaintStep | src/components/Piano.tsx:48-55 | no contract of its own: one iteration of the loop; a failed normalization stops it, otherwise the octave step, then the mark when the id exists or a stop when it does not; PaintNameStep states it for a name |
| Piano.Paint | src/components/Piano.tsx:45-57 | no contract of its own: the loop of _colorNotes over the normalized notes from a base octave; ColorNotes is proved against it and PaintCharacterization states what it produces |
| Piano.Render | src/components/Piano.tsx:59-62 | no contract of its own: onMount, _getBasePitch then _colorNotes on the SVG's key ids; Mount is proved against it, and WorkedKeyboard and Quiz.GeneratedChordLightsKeys state what it gives |
| Piano.PianoKeyboard.GetBasePitch | src/components/Piano.tsx:22-26 | the octave becomes 0 when the normalized root starts with G, A or B and 1 otherwise; false, with nothing changed, where the source throws |
| Piano.PianoKeyboard.CheckPitchChange | src/components/Piano.tsx:36-42 | the octave goes up by one exactly when there is a previous key and it starts with A or B, or the current key starts with C |
| Piano.PianoKeyboard.ColorNotes | src/components/Piano.tsx:45-57 | the loop writes the marks, and leaves the octave and the abort flag, that the colouring function gives |
| Piano.PianoKeyboard.Mount | src/components/Piano.tsx:59-62 | mounting gives the specified rendering of the notes |
| Piano.PaintStopsAtFailure | src/components/Piano.tsx:47-56 | once an iteration throws, the later notes change nothing |
| Piano.OctaveSteps | src/components/Piano.tsx:36-42 | the octave starts at the base, and each later octave is the previous one plus _checkPitchChange's step |
| Piano.OctaveWalk | src/components/Piano.tsx:28-42 | the walk starts at the base and never goes down; a step of one happens iff the previous key starts with A or B or the current one with C (one step even when both hold); note i is at most base + i |
| Piano.OctaveBound | src/components/Piano.tsx:40 | steps of at most one keep note i within base + i |
| Piano.SharpNameStyles | src/components/Piano.tsx:52-53 | a pitch-class name gets BLACK_STYLE iff it is one of the five sharps |
| Piano.SharpNameInitial | src/components/Piano.tsx:23 | the first character of each sharp name, by pitch class |
| Piano.KeyIdOnKeyboard | src/components/Piano.tsx:84-320 | every pitch class at an octave of the drawn range (F0-B0, the whole of octave 1, C2-F2) has its element in the SVG, whose 25 ids are the constant KEY_IDS |
| Piano.KeysInEverywhere | src/components/Piano.tsx:51 | all keys exist iff each key's id is in the document |
| Piano.PaintCharacterization | src/components/Piano.tsx:45-57 | the colouring runs to the end iff every note normalizes to a name and every key of the octave walk exists; it then has written one mark per note, in order, and holds the last octave and key |
| Piano.PaintNameStep | src/components/Piano.tsx:48-55 | one iteration on a name writes its mark exactly when its id exists |
| Piano.KeysOfPrefix | src/components/Piano.tsx:47-56 | the keys, octaves and marks of a prefix of the notes are the prefixes of the whole |
| Piano.WorkedKeyboard | src/components/Piano.tsx:59-62 | the chord G, B, D, F♯ lights key-G0, key-B0, key-D1 and key-F-sharp1, the last black |
| Piano.WorkedNormalization | src/components/Piano.tsx:48 | G, B, D, F♯ normalize to G, B, D, F-sharp |
| Piano.FSharpIsFSharp | src/modules/chords.module.ts:60-68 | F♯ normalizes to F-sharp |
| Piano.WorkedPaint | src/components/Piano.tsx:45-57 | the colouring of G, B, D, F-sharp at octave 0 |
| Piano.WorkedMarks | src/components/Piano.tsx:51-53 | the four marks of that chord, with their ids and styles |
| Piano.SeventhChordWalkFits | src/components/Piano.tsx:22-57 | the four pitch classes of every quality on every root pitch class, walked from the start octave, stay on the drawn keys |
| Piano.MajorSeventhWalkFits | src/components/Piano.tsx:22-57 | the major seventh on every root fits the keyboard |
| Piano.DominantSeventhWalkFits | src/components/Piano.tsx:22-57 | the dominant seventh on every root fits the keyboard |
| Piano.MinorSeventhWalkFits | src/components/Piano.tsx:22-57 | the minor seventh on every root fits the keyboard |
| Piano.HalfDiminishedWalkFits | src/components/Piano.tsx:22-57 | the half-diminished seventh on every root fits the keyboard |
| Piano.SharpNameBumps | src/components/Piano.tsx:36-42 | the octave step between two sharp names is the step read off their initials |
| Piano.NamesWalkFits | src/components/Piano.tsx:22-57 | when four pitch classes fit, every key of the walk over their names exists |
| Quiz.ChordPitchClass | src/modules/chords.module.ts:97 | the desired pitch class of each generated tone lies in [0, 12) |
| Quiz.TonePitchClass | src/modules/chords.module.ts:92-109 | generated tone i normalizes to the sharp name of its pitch class |
| Quiz.ChordWalkFits | src/components/Piano.tsx:22-57 | the pitch classes of every generated chord walk within the keyboard |
| Quiz.FourNamesLight | src/components/Piano.tsx:59-62 | four notes normalizing to a fitting walk of names render to the end with exactly the marks of those names on their octave walk, each on an existing key |
| Quiz.GeneratedChordLightsKeys | src/components/Piano.tsx:45-62 | every one of the 84 chords the generator can name is rendered to the end: four marks, each on an element of the SVG |
| Quiz.GenerationLightsKeys | src/modules/chords.module.ts:26-41 | whatever the script, the chord one call of generate7thChord returns lights four existing keys |

## Left out

- The DOM, the SVG's geometry and the Solid.js component machinery. The keyboard is the list of its 25 key ids, and each `setAttribute("style", …)` is a returned mark; `document.getElementById` returning null is an id missing from that list, and the TypeError of `setAttribute` on null ends the colouring (the `!` is only a compile-time assertion).
- The CSS strings WHITE_STYLE and BLACK_STYLE are the two values of `Style`.
- `src/App.tsx` (signals, buttons, the solution text) is not part of this model; `Quiz` only uses the fact that it hands each chord's notes to the keyboard. `vite.config.ts` is build configuration.
- `Math.random` is a list of samples in [0, 1); its uniformity is not modelled. The redraw loop terminates with probability one in the source; the model requires that the script hold a sample drawing a fresh letter (`Generator.CanGenerate`).
- Piano.PianoKeyboard: the octave variable is `undefined` until `_getBasePitch` runs; the model starts it at 0, and `Mount` sets it before colouring, or stops.
- Generator.RandomSource.GetRandomInt: does not model the `0 < x` of the doc comment, because the code returns 0 for samples below 1 / max.
- Speller.SpellTones: the spelling loop of `_stringToNoteChord` is a method of its own, called by `Speller.StringToNoteChord`.
- Floating point: samples are reals and `Math.floor` is `Floor`; rounding of `x * max` is not modelled.
