// The keyboard of src/components/Piano.tsx: on mount it normalizes every note
// of the chord, walks an octave index up the keyboard and colours the key
// whose id is `key-<name><octave>`. The DOM is reduced to the set of key ids the
// SVG declares; each colouring is returned as a mark instead of being written.

module Piano {
  import opened JsSemantics
  import opened ChordTables
  import opened Normalizer

  datatype Option<T> = None | Some(value: T)

  /** The fill a key receives: WHITE_STYLE or BLACK_STYLE. */
  datatype Style = White | Black

  /** One `setAttribute("style", …)` on the element with id `id`. */
  datatype KeyMark = KeyMark(id: string, style: Style)

  /** The ids of the keys in the SVG: fifteen white keys from F0 to F2, then
      ten black keys from F-sharp0 to D-sharp2. */
  const KEY_IDS: seq<string> := [
    "key-F0", "key-G0", "key-A0", "key-B0",
    "key-C1", "key-D1", "key-E1", "key-F1", "key-G1", "key-A1", "key-B1",
    "key-C2", "key-D2", "key-E2", "key-F2",
    "key-F-sharp0", "key-G-sharp0", "key-A-sharp0",
    "key-C-sharp1", "key-D-sharp1", "key-F-sharp1", "key-G-sharp1", "key-A-sharp1",
    "key-C-sharp2", "key-D-sharp2"
  ]

  /** `s[0]`: the first character, or `undefined` for the empty string. */
  function Initial(s: string): Option<char>
  {
    if |s| > 0 then Some(s[0]) else None
  }

  /** JavaScript truthiness of an optional string: present and not empty. */
  predicate Truthy(s: Option<string>)
  {
    s.Some? && s.value != ""
  }

  /** The starting octave: 0 when the first character of the normalized root
      is G, A or B (those chords sit below middle C), 1 otherwise. */
  function StartOctave(chordBaseKey: Option<char>): nat
  {
    if chordBaseKey == Some('A') || chordBaseKey == Some('B') || chordBaseKey == Some('G') then 0 else 1
  }

  /** Whether _checkPitchChange increments the octave: only after a previous
      key, when that key starts with A or B, or the current key starts with C.
      The middle test `prevBaseKey &&` is a one-character string, always true. */
  predicate Bumps(currentKey: string, prevKey: Option<string>)
  {
    Truthy(prevKey) &&
    var prevBaseKey := Initial(prevKey.value);
    var currentBaseKey := Initial(currentKey);
    prevBaseKey == Some('A') || prevBaseKey == Some('B') || (prevBaseKey.Some? && currentBaseKey == Some('C'))
  }

  /** The id looked up for a key at an octave: `key-${currentKey}${pitch}`. */
  function KeyId(key: string, octave: nat): string
  {
    "key-" + key + NatToString(octave)
  }

  /** BLACK_STYLE for a key whose name contains "sharp", WHITE_STYLE otherwise. */
  function StyleOf(key: string): Style
  {
    if Includes(key, "sharp") then Black else White
  }

  /** The octave index of every key of a chord, the first at `base`. */
  function Octaves(keys: seq<string>, base: nat): (o: seq<nat>)
    ensures |o| == |keys|
  {
    if keys == [] then []
    else
      var n := |keys| - 1;
      var init := Octaves(keys[..n], base);
      var pitch := if n == 0 then base else init[n - 1];
      var prevKey := if n == 0 then None else Some(keys[n - 1]);
      init + [pitch + (if Bumps(keys[n], prevKey) then 1 else 0)]
  }

  /** normalizeNoteToSharp applied to every note. */
  function NormalizeAll(notes: seq<string>): (ns: seq<Normalized>)
    ensures |ns| == |notes|
    ensures forall i :: 0 <= i < |notes| ==> ns[i] == Normalize(notes[i])
  {
    if notes == [] then []
    else
      var n := |notes| - 1;
      assert forall i :: 0 <= i < n ==> notes[..n][i] == notes[i];
      NormalizeAll(notes[..n]) + [Normalize(notes[n])]
  }

  /** Every normalization gave a table name. */
  predicate AllNames(ns: seq<Normalized>)
  {
    forall i :: 0 <= i < |ns| ==> ns[i].Name?
  }

  /** The names of the keys. */
  function Keys(ns: seq<Normalized>): (keys: seq<string>)
    requires AllNames(ns)
    ensures |keys| == |ns|
    ensures forall i :: 0 <= i < |ns| ==> keys[i] == ns[i].name
  {
    if ns == [] then []
    else
      var n := |ns| - 1;
      assert forall i :: 0 <= i < n ==> ns[..n][i] == ns[i];
      Keys(ns[..n]) + [ns[n].name]
  }

  /** The marks for keys at the given octaves, in order. */
  function Marks(keys: seq<string>, o: seq<nat>): (marks: seq<KeyMark>)
    requires |keys| == |o|
    ensures |marks| == |keys|
    ensures forall i :: 0 <= i < |keys| ==> marks[i] == KeyMark(KeyId(keys[i], o[i]), StyleOf(keys[i]))
  {
    if keys == [] then []
    else
      var n := |keys| - 1;
      assert forall i :: 0 <= i < n ==> keys[..n][i] == keys[i] && o[..n][i] == o[i];
      Marks(keys[..n], o[..n]) + [KeyMark(KeyId(keys[n], o[n]), StyleOf(keys[n]))]
  }

  /** Every key at its octave has its id in `table`. */
  predicate KeysIn(keys: seq<string>, o: seq<nat>, table: seq<string>)
    requires |keys| == |o|
  {
    keys == [] || (KeysIn(keys[..|keys| - 1], o[..|keys| - 1], table) && KeyId(keys[|keys| - 1], o[|keys| - 1]) in table)
  }

  /** Every key at its octave has an element in the SVG. */
  predicate KeysExist(keys: seq<string>, o: seq<nat>)
    requires |keys| == |o|
  {
    KeysIn(keys, o, KEY_IDS)
  }

  /** The state of _colorNotes after some notes: the marks written, the
      octave, the previous key, and whether it is still running (a TypeError
      from the normalizer, from `undefined[0]` or from a missing element ends it). */
  datatype Painted = Painted(marks: seq<KeyMark>, pitch: nat, prevKey: Option<string>, ok: bool)

  /** One iteration of _colorNotes, given what the normalizer returned;
      `table` holds the ids of the elements the document contains. */
  function PaintStep(p: Painted, normalized: Normalized, table: seq<string>): Painted
  {
    match normalized
    case Name(currentKey) =>
      var pitch := p.pitch + (if Bumps(currentKey, p.prevKey) then 1 else 0);
      var id := KeyId(currentKey, pitch);
      if id in table then Painted(p.marks + [KeyMark(id, StyleOf(currentKey))], pitch, Some(currentKey), true)
      else Painted(p.marks, pitch, p.prevKey, false)
    case _ => p.(ok := false)
  }

  /** _colorNotes over the normalized notes, the octave starting at `base`. */
  function Paint(ns: seq<Normalized>, base: nat, table: seq<string>): Painted
  {
    if ns == [] then Painted([], base, None, true)
    else
      var p := Paint(ns[..|ns| - 1], base, table);
      if p.ok then PaintStep(p, ns[|ns| - 1], table) else p
  }

  /** _getBasePitch: the starting octave, or None when it throws (no notes,
      an unmatched note, or an `undefined` normalization). */
  function BasePitch(notes: seq<string>): Option<nat>
  {
    if notes == [] then None
    else match Normalize(notes[0])
      case Name(key) => Some(StartOctave(Initial(key)))
      case _ => None
  }

  /** What mounting the component leaves on the keyboard: the marks written
      and whether both steps ran to the end. */
  datatype Coloring = Coloring(marks: seq<KeyMark>, ok: bool)

  /** onMount: _getBasePitch, then _colorNotes. */
  function Render(notes: seq<string>): Coloring
  {
    match BasePitch(notes)
    case None => Coloring([], false)
    case Some(base) => var p := Paint(NormalizeAll(notes), base, KEY_IDS); Coloring(p.marks, p.ok)
  }

  /** The component: its notes and the octave index `pitch`. */
  class PianoKeyboard {
    const notes: seq<string>
    var pitch: nat

    constructor(notes: seq<string>)
      ensures this.notes == notes && pitch == 0
    {
      this.notes := notes;
      pitch := 0;
    }

    /** _getBasePitch: set the octave from the first character of the
        normalized root; false where the source throws. */
    method GetBasePitch() returns (ok: bool)
      modifies this
      ensures ok <==> BasePitch(notes).Some?
      ensures ok ==> pitch == BasePitch(notes).value
      ensures !ok ==> pitch == old(pitch)
    {
      if |notes| == 0 {
        return false;
      }
      var key := NormalizeNoteToSharp(notes[0]);
      if !key.Name? {
        return false;
      }
      var chordBaseKey := Initial(key.name);
      if chordBaseKey == Some('A') || chordBaseKey == Some('B') || chordBaseKey == Some('G') {
        pitch := 0;
      } else {
        pitch := 1;
      }
      return true;
    }

    /** _checkPitchChange: move up one octave after an A or a B, or onto a C. */
    method CheckPitchChange(currentKey: string, prevKey: Option<string>)
      modifies this
      ensures pitch == old(pitch) + (if Bumps(currentKey, prevKey) then 1 else 0)
    {
      if Truthy(prevKey) {
        var currentBaseKey := Initial(currentKey);
        var prevBaseKey := Initial(prevKey.value);
        if prevBaseKey == Some('A') || prevBaseKey == Some('B') || (prevBaseKey.Some? && currentBaseKey == Some('C')) {
          pitch := pitch + 1;
        }
      }
    }

    /** _colorNotes: for each note, normalize it, update the octave, find its
        key and mark it; false where the source throws. */
    method ColorNotes() returns (marks: seq<KeyMark>, ok: bool)
      modifies this
      ensures var p := Paint(NormalizeAll(notes), old(pitch), KEY_IDS);
        marks == p.marks && ok == p.ok && pitch == p.pitch
    {
      ghost var base := pitch;
      ghost var ns := NormalizeAll(notes);
      var prevKey: Option<string> := None;
      marks := [];
      for i := 0 to |notes|
        invariant Paint(ns[..i], base, KEY_IDS) == Painted(marks, pitch, prevKey, true)
      {
        assert ns[..i + 1][..i] == ns[..i];
        var currentKey := NormalizeNoteToSharp(notes[i]);
        assert ns[i] == currentKey;
        if !currentKey.Name? {
          PaintStopsAtFailure(ns, base, KEY_IDS, i + 1);
          return marks, false;
        }
        ghost var before := Painted(marks, pitch, prevKey, true);
        CheckPitchChange(currentKey.name, prevKey);
        var id := "key-" + currentKey.name + NatToString(pitch);
        assert Paint(ns[..i + 1], base, KEY_IDS) == PaintStep(before, currentKey, KEY_IDS);
        PaintNameStep(before, currentKey.name, KEY_IDS, pitch);
        if id !in KEY_IDS {
          PaintStopsAtFailure(ns, base, KEY_IDS, i + 1);
          return marks, false;
        }
        marks := marks + [KeyMark(id, StyleOf(currentKey.name))];
        prevKey := Some(currentKey.name);
      }
      assert ns[..|notes|] == ns;
      ok := true;
    }

    /** onMount: the base octave, then the colouring. */
    method Mount() returns (marks: seq<KeyMark>, ok: bool)
      modifies this
      ensures Coloring(marks, ok) == Render(notes)
    {
      ok := GetBasePitch();
      if !ok {
        return [], false;
      }
      marks, ok := ColorNotes();
    }
  }

  // ----- Properties of the keyboard -----

  /** Once an iteration has thrown, the later notes change nothing. */
  lemma {:induction false} PaintStopsAtFailure(ns: seq<Normalized>, base: nat, table: seq<string>, k: nat)
    requires k <= |ns| && !Paint(ns[..k], base, table).ok
    ensures Paint(ns, base, table) == Paint(ns[..k], base, table)
    decreases |ns|
  {
    if k < |ns| {
      var n := |ns| - 1;
      assert ns[..n][..k] == ns[..k];
      PaintStopsAtFailure(ns[..n], base, table, k);
    } else {
      assert ns[..k] == ns;
    }
  }

  /** Each octave is the previous one plus the step _checkPitchChange takes
      with the previous key; the first is `base`. */
  lemma {:induction false} OctaveSteps(keys: seq<string>, base: nat)
    ensures var o := Octaves(keys, base);
      && (|keys| > 0 ==> o[0] == base)
      && forall i :: 0 < i < |keys| ==> o[i] == o[i - 1] + (if Bumps(keys[i], Some(keys[i - 1])) then 1 else 0)
    decreases |keys|
  {
    if keys != [] {
      var n := |keys| - 1;
      var init := keys[..n];
      OctaveSteps(init, base);
      var o := Octaves(keys, base);
      var oi := Octaves(init, base);
      assert o == oi + [o[n]];
      forall i | 0 < i < |keys|
        ensures o[i] == o[i - 1] + (if Bumps(keys[i], Some(keys[i - 1])) then 1 else 0)
      {
        if i < n {
          assert init[i] == keys[i] && init[i - 1] == keys[i - 1];
          assert o[i] == oi[i] && o[i - 1] == oi[i - 1];
        }
      }
    }
  }

  /** The octave walk: it starts at `base`, the first note never moves it, each
      later step is 0 or 1, a step of 1 happens exactly when the previous key
      starts with A or B or the current one starts with C (once, even when
      both hold), and the octave of note i is at most base + i. */
  lemma OctaveWalk(keys: seq<string>, base: nat)
    ensures var o := Octaves(keys, base);
      && (|keys| > 0 ==> o[0] == base)
      && (forall i :: 0 < i < |keys| ==> o[i - 1] <= o[i] <= o[i - 1] + 1)
      && (forall i :: 0 < i < |keys| && keys[i - 1] != "" ==>
            (o[i] == o[i - 1] + 1 <==> keys[i - 1][0] in "AB" || Initial(keys[i]) == Some('C')))
      && (forall i :: 0 <= i < |keys| ==> o[i] <= base + i)
  {
    OctaveSteps(keys, base);
    var o := Octaves(keys, base);
    forall i | 0 <= i < |keys|
      ensures o[i] <= base + i
    {
      OctaveBound(o, base, i);
    }
  }

  /** A walk from `base` with steps of at most one is at most base + i at i. */
  lemma {:induction false} OctaveBound(o: seq<nat>, base: nat, i: nat)
    requires i < |o| && (|o| > 0 ==> o[0] == base)
    requires forall j :: 0 < j < |o| ==> o[j] <= o[j - 1] + 1
    ensures o[i] <= base + i
  {
    if i > 0 {
      OctaveBound(o, base, i - 1);
    }
  }

  /** A sharp name gets the black style, a natural one the white style. */
  lemma SharpNameStyles(pc: nat)
    requires pc < |SHARP_NAMES|
    ensures StyleOf(SHARP_NAMES[pc]) == Black <==> pc in {1, 3, 6, 8, 10}
  {
    var key := SHARP_NAMES[pc];
    if pc in {1, 3, 6, 8, 10} {
      assert key[2..7] == "sharp";
      assert OccursAt(key, "sharp", 2);
    } else {
      assert |key| == 1;
    }
  }

  /** The initial of each sharp name as a function of its pitch class. */
  function PcInitial(pc: int): char
    requires 0 <= pc < 12
  {
    if pc <= 1 then 'C' else if pc <= 3 then 'D' else if pc == 4 then 'E'
    else if pc <= 6 then 'F' else if pc <= 8 then 'G' else if pc <= 10 then 'A' else 'B'
  }

  lemma SharpNameInitial(pc: int)
    requires 0 <= pc < 12
    ensures |SHARP_NAMES[pc]| >= 1 && SHARP_NAMES[pc][0] == PcInitial(pc)
    ensures Initial(SHARP_NAMES[pc]) == Some(PcInitial(pc))
  {
  }

  /** The keys the SVG draws: F0 to B0, the whole of octave 1, C2 to F2. */
  predicate OnKeyboard(pc: int, octave: nat)
  {
    (octave == 0 && 5 <= pc < 12) || (octave == 1 && 0 <= pc < 12) || (octave == 2 && 0 <= pc <= 5)
  }

  /** Every pitch class and octave on the keyboard has its element. */
  lemma KeyIdOnKeyboard(pc: int, octave: nat)
    requires OnKeyboard(pc, octave)
    ensures KeyId(SHARP_NAMES[pc], octave) in KEY_IDS
  {
    var d := [DigitChar(octave)];
    assert NatToString(octave) == d;
    if octave == 0 {
      LowOctaveKeys(pc);
    } else if octave == 1 {
      MiddleOctaveKeys(pc);
    } else {
      HighOctaveKeys(pc);
    }
  }

  /** The keys of the low octave, F0 to B0, are drawn. */
  lemma LowOctaveKeys(pc: int)
    requires 5 <= pc <= 11
    ensures "key-" + SHARP_NAMES[pc] + "0" in KEY_IDS
  {
    if pc <= 7 {
      LowOctaveKeysFG(pc);
    } else {
      LowOctaveKeysGSharpB(pc);
    }
  }

  lemma LowOctaveKeysFG(pc: int)
    requires 5 <= pc <= 7
    ensures "key-" + SHARP_NAMES[pc] + "0" in KEY_IDS
  {
    var id := "key-" + SHARP_NAMES[pc] + "0";
    if pc == 5 { assert id == KEY_IDS[0]; }
    else if pc == 6 { assert id == KEY_IDS[15]; }
    else { assert id == KEY_IDS[1]; }
  }

  lemma LowOctaveKeysGSharpB(pc: int)
    requires 8 <= pc <= 11
    ensures "key-" + SHARP_NAMES[pc] + "0" in KEY_IDS
  {
    var id := "key-" + SHARP_NAMES[pc] + "0";
    if pc == 8 { assert id == KEY_IDS[16]; }
    else if pc == 9 { assert id == KEY_IDS[2]; }
    else if pc == 10 { assert id == KEY_IDS[17]; }
    else { assert id == KEY_IDS[3]; }
  }

  /** The whole middle octave, C1 to B1, is drawn. */
  lemma MiddleOctaveKeys(pc: int)
    requires 0 <= pc <= 11
    ensures "key-" + SHARP_NAMES[pc] + "1" in KEY_IDS
  {
    if pc <= 3 {
      MiddleOctaveKeysCDSharp(pc);
    } else if pc <= 7 {
      MiddleOctaveKeysEG(pc);
    } else {
      MiddleOctaveKeysGSharpB(pc);
    }
  }

  lemma MiddleOctaveKeysCDSharp(pc: int)
    requires 0 <= pc <= 3
    ensures "key-" + SHARP_NAMES[pc] + "1" in KEY_IDS
  {
    var id := "key-" + SHARP_NAMES[pc] + "1";
    if pc == 0 { assert id == KEY_IDS[4]; }
    else if pc == 1 { assert id == KEY_IDS[18]; }
    else if pc == 2 { assert id == KEY_IDS[5]; }
    else { assert id == KEY_IDS[19]; }
  }

  lemma MiddleOctaveKeysEG(pc: int)
    requires 4 <= pc <= 7
    ensures "key-" + SHARP_NAMES[pc] + "1" in KEY_IDS
  {
    var id := "key-" + SHARP_NAMES[pc] + "1";
    if pc == 4 { assert id == KEY_IDS[6]; }
    else if pc == 5 { assert id == KEY_IDS[7]; }
    else if pc == 6 { assert id == KEY_IDS[20]; }
    else { assert id == KEY_IDS[8]; }
  }

  lemma MiddleOctaveKeysGSharpB(pc: int)
    requires 8 <= pc <= 11
    ensures "key-" + SHARP_NAMES[pc] + "1" in KEY_IDS
  {
    var id := "key-" + SHARP_NAMES[pc] + "1";
    if pc == 8 { assert id == KEY_IDS[21]; }
    else if pc == 9 { assert id == KEY_IDS[9]; }
    else if pc == 10 { assert id == KEY_IDS[22]; }
    else { assert id == KEY_IDS[10]; }
  }

  /** The keys of the high octave, C2 to F2, are drawn. */
  lemma HighOctaveKeys(pc: int)
    requires 0 <= pc <= 5
    ensures "key-" + SHARP_NAMES[pc] + "2" in KEY_IDS
  {
    if pc <= 2 {
      HighOctaveKeysCD(pc);
    } else {
      HighOctaveKeysDSharpF(pc);
    }
  }

  lemma HighOctaveKeysCD(pc: int)
    requires 0 <= pc <= 2
    ensures "key-" + SHARP_NAMES[pc] + "2" in KEY_IDS
  {
    var id := "key-" + SHARP_NAMES[pc] + "2";
    if pc == 0 { assert id == KEY_IDS[11]; }
    else if pc == 1 { assert id == KEY_IDS[23]; }
    else { assert id == KEY_IDS[12]; }
  }

  lemma HighOctaveKeysDSharpF(pc: int)
    requires 3 <= pc <= 5
    ensures "key-" + SHARP_NAMES[pc] + "2" in KEY_IDS
  {
    var id := "key-" + SHARP_NAMES[pc] + "2";
    if pc == 3 { assert id == KEY_IDS[24]; }
    else if pc == 4 { assert id == KEY_IDS[13]; }
    else { assert id == KEY_IDS[14]; }
  }

  /** KeysIn holds exactly when every id is in the table. */
  lemma {:induction false} KeysInEverywhere(keys: seq<string>, o: seq<nat>, table: seq<string>)
    requires |keys| == |o|
    ensures KeysIn(keys, o, table) <==> forall i :: 0 <= i < |keys| ==> KeyId(keys[i], o[i]) in table
    decreases |keys|
  {
    if keys != [] {
      var n := |keys| - 1;
      KeysInEverywhere(keys[..n], o[..n], table);
      assert forall i :: 0 <= i < n ==> keys[..n][i] == keys[i] && o[..n][i] == o[i];
    }
  }

  /** _colorNotes runs to the end exactly when every note normalizes to a
      name and every key of the octave walk exists; it then has written the
      marks of the walk, one per note in order, and holds the octave and the
      name of the last note. */
  lemma {:induction false} PaintCharacterization(ns: seq<Normalized>, base: nat, table: seq<string>)
    ensures Paint(ns, base, table).ok <==> AllNames(ns) && KeysIn(Keys(ns), Octaves(Keys(ns), base), table)
    ensures Paint(ns, base, table).ok ==>
      var keys := Keys(ns);
      var o := Octaves(keys, base);
      Paint(ns, base, table) == Painted(Marks(keys, o), if ns == [] then base else o[|ns| - 1],
                                 if ns == [] then None else Some(keys[|ns| - 1]), true)
    decreases |ns|
  {
    if ns != [] {
      PaintCharacterization(ns[..|ns| - 1], base, table);
      if AllNames(ns) {
        PaintExtendsNames(ns, base, table);
      } else {
        PaintExtendsFailure(ns, base, table);
      }
    }
  }

  /** The clauses of PaintCharacterization for one sequence. */
  ghost predicate Characterized(ns: seq<Normalized>, base: nat, table: seq<string>)
  {
    && (Paint(ns, base, table).ok <==> AllNames(ns) && KeysIn(Keys(ns), Octaves(Keys(ns), base), table))
    && (Paint(ns, base, table).ok ==>
      var keys := Keys(ns);
      var o := Octaves(keys, base);
      Paint(ns, base, table) == Painted(Marks(keys, o), if ns == [] then base else o[|ns| - 1],
                                 if ns == [] then None else Some(keys[|ns| - 1]), true))
  }

  /** The inductive step when some note is not a name: painting fails. */
  lemma PaintExtendsFailure(ns: seq<Normalized>, base: nat, table: seq<string>)
    requires ns != [] && !AllNames(ns)
    requires Characterized(ns[..|ns| - 1], base, table)
    ensures !Paint(ns, base, table).ok
  {
    var n := |ns| - 1;
    var init := ns[..n];
    assert forall i :: 0 <= i < n ==> init[i] == ns[i];
    if AllNames(init) {
      assert !ns[n].Name?;
    }
  }

  /** The inductive step when every note is a name: one more mark, at the
      next octave of the walk, exactly when its id is in the table. */
  lemma PaintExtendsNames(ns: seq<Normalized>, base: nat, table: seq<string>)
    requires ns != [] && AllNames(ns)
    requires Characterized(ns[..|ns| - 1], base, table)
    ensures Characterized(ns, base, table)
  {
    var n := |ns| - 1;
    var init := ns[..n];
    KeysOfPrefix(ns, base);
    var keys := Keys(ns);
    var o := Octaves(keys, base);
    var p := Paint(init, base, table);
    OctaveSteps(keys, base);
    if p.ok {
      assert p.pitch == (if n == 0 then base else o[n - 1]);
      assert p.prevKey == (if n == 0 then None else Some(keys[n - 1]));
      assert o[n] == p.pitch + (if Bumps(keys[n], p.prevKey) then 1 else 0);
      assert Paint(ns, base, table) == PaintStep(p, Name(keys[n]), table);
      PaintNameStep(p, keys[n], table, o[n]);
    }
  }

  /** The keys, octaves and marks of a prefix are the prefixes of the whole. */
  lemma KeysOfPrefix(ns: seq<Normalized>, base: nat)
    requires ns != [] && AllNames(ns)
    ensures var n := |ns| - 1;
      var keys := Keys(ns);
      var o := Octaves(keys, base);
      && AllNames(ns[..n]) && ns[n] == Name(keys[n])
      && keys[..n] == Keys(ns[..n]) && o[..n] == Octaves(Keys(ns[..n]), base)
      && Marks(keys, o) == Marks(keys[..n], o[..n]) + [KeyMark(KeyId(keys[n], o[n]), StyleOf(keys[n]))]
  {
    var n := |ns| - 1;
    assert forall i :: 0 <= i < n ==> ns[..n][i] == ns[i];
  }

  /** One step on a name at the octave `pitch` the step computes: the mark is
      written exactly when its id is in the table. */
  lemma PaintNameStep(p: Painted, key: string, table: seq<string>, pitch: nat)
    requires pitch == p.pitch + (if Bumps(key, p.prevKey) then 1 else 0)
    ensures PaintStep(p, Name(key), table) ==
      if KeyId(key, pitch) in table then Painted(p.marks + [KeyMark(KeyId(key, pitch), StyleOf(key))], pitch, Some(key), true)
      else Painted(p.marks, pitch, p.prevKey, false)
  {
  }

  /** Mounting the chord G, B, D, F-sharp marks G0, B0, D1 and F-sharp1: the
      root sits in the low octave and the step from B to D moves up one. */
  lemma WorkedKeyboard()
    ensures Render(["G", "B", "D", "F♯"]) == Coloring([
      KeyMark("key-G0", White), KeyMark("key-B0", White),
      KeyMark("key-D1", White), KeyMark("key-F-sharp1", Black)], true)
  {
    var notes := ["G", "B", "D", "F♯"];
    WorkedNormalization();
    assert BasePitch(notes) == Some(0);
    WorkedPaint();
  }

  lemma WorkedNormalization()
    ensures NormalizeAll(["G", "B", "D", "F♯"]) == [Name("G"), Name("B"), Name("D"), Name("F-sharp")]
  {
    var notes := ["G", "B", "D", "F♯"];
    var ns := NormalizeAll(notes);
    assert ns == [Normalize("G"), Normalize("B"), Normalize("D"), Normalize("F♯")];
    NaturalsAreFixed("G");
    NaturalsAreFixed("B");
    NaturalsAreFixed("D");
    FSharpIsFSharp();
  }

  lemma FSharpIsFSharp()
    ensures Normalize("F♯") == Name("F-sharp")
  {
    assert NetMarks("♯") == 1 by { assert "♯"[..0] == []; }
    assert "F♯"[1..] == "♯";
  }

  lemma WorkedPaint()
    ensures Paint([Name("G"), Name("B"), Name("D"), Name("F-sharp")], 0, KEY_IDS) == Painted([
      KeyMark("key-G0", White), KeyMark("key-B0", White),
      KeyMark("key-D1", White), KeyMark("key-F-sharp1", Black)], 1, Some("F-sharp"), true)
  {
    var ns := [Name("G"), Name("B"), Name("D"), Name("F-sharp")];
    var keys := Keys(ns);
    assert keys == ["G", "B", "D", "F-sharp"];
    OctaveSteps(keys, 0);
    var o := Octaves(keys, 0);
    assert o == [0, 0, 1, 1];
    KeyIdOnKeyboard(7, 0);
    KeyIdOnKeyboard(11, 0);
    KeyIdOnKeyboard(2, 1);
    KeyIdOnKeyboard(6, 1);
    KeysInEverywhere(keys, o, KEY_IDS);
    PaintCharacterization(ns, 0, KEY_IDS);
    WorkedMarks();
  }

  lemma WorkedMarks()
    ensures Marks(["G", "B", "D", "F-sharp"], [0, 0, 1, 1]) == [
      KeyMark("key-G0", White), KeyMark("key-B0", White),
      KeyMark("key-D1", White), KeyMark("key-F-sharp1", Black)]
  {
    SharpNameStyles(7);
    SharpNameStyles(11);
    SharpNameStyles(2);
    SharpNameStyles(6);
    assert NatToString(1) == "1";
    assert KeyId("G", 0) == "key-G0";
    assert KeyId("B", 0) == "key-B0";
    assert KeyId("D", 1) == "key-D1";
    assert KeyId("F-sharp", 1) == "key-F-sharp1";
  }

  /** The octave step between two pitch classes, read off their initials. */
  function PcStep(prevPc: int, pc: int): nat
    requires 0 <= prevPc < 12 && 0 <= pc < 12
  {
    if PcInitial(prevPc) == 'A' || PcInitial(prevPc) == 'B' || PcInitial(pc) == 'C' then 1 else 0
  }

  /** Four pitch classes walked up from the start octave of the first, by
      the steps their initials give, all land on keys of the SVG. */
  predicate WalkFits(p0: int, p1: int, p2: int, p3: int)
    requires 0 <= p0 < 12 && 0 <= p1 < 12 && 0 <= p2 < 12 && 0 <= p3 < 12
  {
    var o0 := StartOctave(Some(PcInitial(p0)));
    var o1 := o0 + PcStep(p0, p1);
    var o2 := o1 + PcStep(p1, p2);
    var o3 := o2 + PcStep(p2, p3);
    OnKeyboard(p0, o0) && OnKeyboard(p1, o1) && OnKeyboard(p2, o2) && OnKeyboard(p3, o3)
  }

  /** The four pitch classes of a chord on root pitch class `rootPitch` and
      quality q, walked up from the start octave, all stay on the keyboard. */
  lemma SeventhChordWalkFits(rootPitch: int, q: nat, p0: int, p1: int, p2: int, p3: int)
    requires 0 <= rootPitch < 12 && q < |SEVENTH_CHORDS|
    requires |SEVENTH_CHORDS[q].intervals| == 4
    requires p0 == (rootPitch + SEVENTH_CHORDS[q].intervals[0]) % 12
    requires p1 == (rootPitch + SEVENTH_CHORDS[q].intervals[1]) % 12
    requires p2 == (rootPitch + SEVENTH_CHORDS[q].intervals[2]) % 12
    requires p3 == (rootPitch + SEVENTH_CHORDS[q].intervals[3]) % 12
    ensures 0 <= p0 < 12 && 0 <= p1 < 12 && 0 <= p2 < 12 && 0 <= p3 < 12
    ensures WalkFits(p0, p1, p2, p3)
  {
    assert rootPitch % 12 == rootPitch;
    if q == 0 {
      MajorSeventhWalkFits(rootPitch);
    } else if q == 1 {
      DominantSeventhWalkFits(rootPitch);
    } else if q == 2 {
      MinorSeventhWalkFits(rootPitch);
    } else {
      HalfDiminishedWalkFits(rootPitch);
    }
  }

  /** The major seventh (0, 4, 7, 11) on every root pitch class fits the keyboard. */
  lemma MajorSeventhWalkFits(rootPitch: int)
    requires 0 <= rootPitch < 12
    ensures WalkFits(rootPitch, (rootPitch + 4) % 12, (rootPitch + 7) % 12, (rootPitch + 11) % 12)
  {
    if rootPitch == 0 {} else if rootPitch == 1 {} else if rootPitch == 2 {} else if rootPitch == 3 {}
    else if rootPitch == 4 {} else if rootPitch == 5 {} else if rootPitch == 6 {} else if rootPitch == 7 {}
    else if rootPitch == 8 {} else if rootPitch == 9 {} else if rootPitch == 10 {} else {}
  }

  /** The dominant seventh (0, 4, 7, 10) on every root pitch class fits the keyboard. */
  lemma DominantSeventhWalkFits(rootPitch: int)
    requires 0 <= rootPitch < 12
    ensures WalkFits(rootPitch, (rootPitch + 4) % 12, (rootPitch + 7) % 12, (rootPitch + 10) % 12)
  {
    if rootPitch == 0 {} else if rootPitch == 1 {} else if rootPitch == 2 {} else if rootPitch == 3 {}
    else if rootPitch == 4 {} else if rootPitch == 5 {} else if rootPitch == 6 {} else if rootPitch == 7 {}
    else if rootPitch == 8 {} else if rootPitch == 9 {} else if rootPitch == 10 {} else {}
  }

  /** The minor seventh (0, 3, 7, 10) on every root pitch class fits the keyboard. */
  lemma MinorSeventhWalkFits(rootPitch: int)
    requires 0 <= rootPitch < 12
    ensures WalkFits(rootPitch, (rootPitch + 3) % 12, (rootPitch + 7) % 12, (rootPitch + 10) % 12)
  {
    if rootPitch == 0 {} else if rootPitch == 1 {} else if rootPitch == 2 {} else if rootPitch == 3 {}
    else if rootPitch == 4 {} else if rootPitch == 5 {} else if rootPitch == 6 {} else if rootPitch == 7 {}
    else if rootPitch == 8 {} else if rootPitch == 9 {} else if rootPitch == 10 {} else {}
  }

  /** The half-diminished seventh (0, 3, 6, 10) on every root pitch class fits the keyboard. */
  lemma HalfDiminishedWalkFits(rootPitch: int)
    requires 0 <= rootPitch < 12
    ensures WalkFits(rootPitch, (rootPitch + 3) % 12, (rootPitch + 6) % 12, (rootPitch + 10) % 12)
  {
    if rootPitch == 0 {} else if rootPitch == 1 {} else if rootPitch == 2 {} else if rootPitch == 3 {}
    else if rootPitch == 4 {} else if rootPitch == 5 {} else if rootPitch == 6 {} else if rootPitch == 7 {}
    else if rootPitch == 8 {} else if rootPitch == 9 {} else if rootPitch == 10 {} else {}
  }

  /** The step _checkPitchChange takes between two sharp names is PcStep. */
  lemma SharpNameBumps(prevPc: int, pc: int)
    requires 0 <= prevPc < 12 && 0 <= pc < 12
    ensures (if Bumps(SHARP_NAMES[pc], Some(SHARP_NAMES[prevPc])) then 1 else 0) == PcStep(prevPc, pc)
  {
    SharpNameInitial(prevPc);
    SharpNameInitial(pc);
  }

  /** When four pitch classes fit, so do their names: the octave walk over
      the names is the walk over the classes, and every key exists. */
  lemma NamesWalkFits(p0: int, p1: int, p2: int, p3: int)
    requires 0 <= p0 < 12 && 0 <= p1 < 12 && 0 <= p2 < 12 && 0 <= p3 < 12
    requires WalkFits(p0, p1, p2, p3)
    ensures var keys := [SHARP_NAMES[p0], SHARP_NAMES[p1], SHARP_NAMES[p2], SHARP_NAMES[p3]];
      KeysExist(keys, Octaves(keys, StartOctave(Initial(keys[0]))))
  {
    var keys := [SHARP_NAMES[p0], SHARP_NAMES[p1], SHARP_NAMES[p2], SHARP_NAMES[p3]];
    SharpNameInitial(p0);
    var base := StartOctave(Initial(keys[0]));
    OctaveSteps(keys, base);
    var o := Octaves(keys, base);
    SharpNameBumps(p0, p1);
    SharpNameBumps(p1, p2);
    SharpNameBumps(p2, p3);
    assert o[0] == StartOctave(Some(PcInitial(p0)));
    assert o[1] == o[0] + PcStep(p0, p1);
    assert o[2] == o[1] + PcStep(p1, p2);
    assert o[3] == o[2] + PcStep(p2, p3);
    KeyIdOnKeyboard(p0, o[0]);
    KeyIdOnKeyboard(p1, o[1]);
    KeyIdOnKeyboard(p2, o[2]);
    KeyIdOnKeyboard(p3, o[3]);
    KeysInEverywhere(keys, o, KEY_IDS);
  }
}
