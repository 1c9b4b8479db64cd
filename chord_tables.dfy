// The fixed tables of src/modules/chords.module.ts: the seven natural letters
// in cyclic order, the three root alterations, the four seventh-chord
// qualities, the natural pitch of every letter and the twelve sharp-based
// pitch-class names used by the normalizer.

module ChordTables {

  /** The sharp and flat marks, U+266F and U+266D. */
  const SHARP: char := '♯'
  const FLAT: char := '♭'

  /** `BASE_NOTES`: the natural letters in the cyclic order C, D, E, F, G, A, B. */
  const BASE_NOTES: seq<string> := ["C", "D", "E", "F", "G", "A", "B"]

  /** `ALTERATIONS`: none, sharp, flat. */
  const ALTERATIONS: seq<string> := ["", "♯", "♭"]

  /** A chord quality: its display suffix and its semitone offsets above the root. */
  datatype SeventhChord = SeventhChord(str: string, intervals: seq<int>)

  /** `SEVENTH_CHORDS`: major seventh, dominant seventh, minor seventh, half-diminished. */
  const SEVENTH_CHORDS: seq<SeventhChord> := [
    SeventhChord("M7", [0, 4, 7, 11]),
    SeventhChord("7", [0, 4, 7, 10]),
    SeventhChord("m7", [0, 3, 7, 10]),
    SeventhChord("m7(♭5)", [0, 3, 6, 10])
  ]

  /** `SHARP_NAMES`: the name of every pitch class 0..11, with "-sharp" for the black keys. */
  const SHARP_NAMES: seq<string> := [
    "C", "C-sharp", "D", "D-sharp", "E",
    "F", "F-sharp", "G", "G-sharp", "A",
    "A-sharp", "B"
  ]

  /** The characters the pattern `[A-G]` accepts. */
  predicate IsLetter(c: char)
  {
    'A' <= c <= 'G'
  }

  /** `INTERVALS[letter]`: the natural pitch of a letter, in semitones above C. */
  function Interval(letter: char): (p: int)
    requires IsLetter(letter)
    ensures 0 <= p < 12
    ensures [letter] in BASE_NOTES
  {
    match letter
    case 'C' => 0
    case 'D' => 2
    case 'E' => 4
    case 'F' => 5
    case 'G' => 7
    case 'A' => 9
    case 'B' => 11
  }

  /** The accidental offset of a root alteration: +1 for a sharp, -1 for a flat. */
  function AlterationOffset(accidental: string): int
  {
    if accidental == [SHARP] then 1 else if accidental == [FLAT] then -1 else 0
  }
}
