/**
 * `Display for Chord` (src/chord/mod.rs): the chord symbol. The root's name
 * comes first, then a fixed chain of membership tests on the root-relative
 * interval set, each of which may add one token.
 */
module ChordDisplay {
  import opened Outcomes
  import opened Pitches
  import opened IntervalSets
  import opened Chords
  import I = Intervals

  /** The tokens the symbol is made of. */
  const MINOR: string := "m"
  const SUS2: string := "sus2"
  const SUS4: string := "sus4"
  const FLAT_FIFTH: string := "b5"
  const SEVEN_TOKEN: string := "7"
  const MAJ7_TOKEN: string := "maj7"
  const SLASH: string := "/"
  const NO_ROOT: string := "(no root)"
  const NO_FIFTH: string := "(no5)"

  /** The first of `m`, `sus2` and `sus4` whose interval is present. */
  function QualityToken(rel: IntervalSet): string {
    if I.MINOR_THIRD.semitones in rel then MINOR
    else if I.MAJOR_SECOND.semitones in rel then SUS2
    else if I.PERFECT_FOURTH.semitones in rel then SUS4
    else ""
  }

  function FifthToken(rel: IntervalSet): string {
    if I.TRITONE.semitones in rel then FLAT_FIFTH else ""
  }

  /** The `has_fifth` flag: a diminished or a perfect fifth is present. */
  predicate HasFifth(rel: IntervalSet) {
    I.TRITONE.semitones in rel || I.PERFECT_FIFTH.semitones in rel
  }

  /** The first of `7` and `maj7` whose interval is present. */
  function SeventhToken(rel: IntervalSet): string {
    if I.MINOR_SEVENTH.semitones in rel then SEVEN_TOKEN
    else if I.MAJOR_SEVENTH.semitones in rel then MAJ7_TOKEN
    else ""
  }

  function BassToken(lib: PitchLibrary, c: Chord): string {
    match c.bass
    case Some(b) => SLASH + lib.name(b)
    case None => ""
  }

  function RootMarker(rel: IntervalSet): string {
    if I.UNISON.semitones !in rel then NO_ROOT else ""
  }

  function FifthMarker(rel: IntervalSet): string {
    if !HasFifth(rel) then NO_FIFTH else ""
  }

  /**
   * The rules the tokens follow: at most one quality, the minor third winning
   * over the major second and that over the fourth; `b5` exactly with the
   * tritone; at most one seventh, the minor one winning; `/bass` whenever a
   * bass is set; `(no root)` exactly without the unison; `(no5)` exactly
   * without either fifth.
   */
  lemma TokenRules(lib: PitchLibrary, c: Chord, rel: IntervalSet)
    ensures QualityToken(rel) in {"", MINOR, SUS2, SUS4}
    ensures QualityToken(rel) == MINOR <==> I.MINOR_THIRD.semitones in rel
    ensures QualityToken(rel) == SUS2 <==> I.MINOR_THIRD.semitones !in rel && I.MAJOR_SECOND.semitones in rel
    ensures QualityToken(rel) == SUS4 <==> I.MINOR_THIRD.semitones !in rel && I.MAJOR_SECOND.semitones !in rel
                                             && I.PERFECT_FOURTH.semitones in rel
    ensures FifthToken(rel) in {"", FLAT_FIFTH} && (FifthToken(rel) == FLAT_FIFTH <==> I.TRITONE.semitones in rel)
    ensures SeventhToken(rel) in {"", SEVEN_TOKEN, MAJ7_TOKEN}
    ensures SeventhToken(rel) == SEVEN_TOKEN <==> I.MINOR_SEVENTH.semitones in rel
    ensures SeventhToken(rel) == MAJ7_TOKEN <==> I.MINOR_SEVENTH.semitones !in rel && I.MAJOR_SEVENTH.semitones in rel
    ensures BassToken(lib, c) == [] <==> c.bass.None?
    ensures c.bass.Some? ==> BassToken(lib, c) == SLASH + lib.name(c.bass.value)
    ensures RootMarker(rel) in {"", NO_ROOT} && (RootMarker(rel) == NO_ROOT <==> I.UNISON.semitones !in rel)
    ensures FifthMarker(rel) in {"", NO_FIFTH} && (FifthMarker(rel) == NO_FIFTH <==> !HasFifth(rel))
  {
  }

  /** The symbol of a chord whose root-relative set is `rel`, in its fixed token order. */
  function Spelled(lib: PitchLibrary, c: Chord, rel: IntervalSet): string {
    lib.name(c.root) + QualityToken(rel) + FifthToken(rel) + SeventhToken(rel)
      + BassToken(lib, c) + RootMarker(rel) + FifthMarker(rel)
  }

  /** The whole symbol: every test is on the root-relative set. */
  function Symbol(lib: PitchLibrary, c: Chord): string {
    Spelled(lib, c, RootIntervals(lib, c))
  }

  /** Every symbol begins with the root's name. */
  lemma SymbolBeginsWithRootName(lib: PitchLibrary, c: Chord)
    ensures |Symbol(lib, c)| >= |lib.name(c.root)|
    ensures Symbol(lib, c)[..|lib.name(c.root)|] == lib.name(c.root)
  {
    var rel := RootIntervals(lib, c);
    BeginsWith(lib.name(c.root), QualityToken(rel), FifthToken(rel), SeventhToken(rel),
      BassToken(lib, c), RootMarker(rel), FifthMarker(rel));
  }

  lemma BeginsWith(head: string, t1: string, t2: string, t3: string, t4: string, t5: string, t6: string)
    ensures |head + t1 + t2 + t3 + t4 + t5 + t6| >= |head|
    ensures (head + t1 + t2 + t3 + t4 + t5 + t6)[..|head|] == head
  {
    var s := head + t1 + t2 + t3 + t4 + t5 + t6;
    assert s == head + (t1 + t2 + t3 + t4 + t5 + t6);
  }

  /**
   * `Chord::fmt`: writes the tokens one after another, keeping the
   * `has_fifth` flag on the way. The source recomputes `intervals()` before
   * every test; the value is the same each time, so it is computed once here.
   */
  method Fmt(lib: PitchLibrary, c: Chord) returns (s: string)
    ensures s == Symbol(lib, c)
  {
    var rel := RootIntervals(lib, c);
    s := WriteTokens(lib, c, rel);
  }

  /**
   * Writing an empty token leaves the output as it is. Sequence equality is
   * extensional, so the proofs below name this step for each prefix.
   */
  lemma EmptyTokenAddsNothing(s: string)
    ensures s == s + ""
  {
  }

  /** The body of `fmt` once the root-relative set is known. */
  method WriteTokens(lib: PitchLibrary, c: Chord, rel: IntervalSet) returns (s: string)
    ensures s == Spelled(lib, c, rel)
  {
    s := lib.name(c.root);
    if I.MINOR_THIRD.semitones in rel {
      s := s + MINOR;
    } else if I.MAJOR_SECOND.semitones in rel {
      s := s + SUS2;
    } else if I.PERFECT_FOURTH.semitones in rel {
      s := s + SUS4;
    } else {
      EmptyTokenAddsNothing(s);
    }
    assert s == lib.name(c.root) + QualityToken(rel);

    ghost var written := s;
    var hasFifth := true;
    if I.TRITONE.semitones in rel {
      s := s + FLAT_FIFTH;
    } else {
      EmptyTokenAddsNothing(s);
      if I.PERFECT_FIFTH.semitones !in rel {
        hasFifth := false;
      }
    }
    assert s == written + FifthToken(rel);
    assert hasFifth <==> HasFifth(rel);

    written := s;
    if I.MINOR_SEVENTH.semitones in rel {
      s := s + SEVEN_TOKEN;
    } else if I.MAJOR_SEVENTH.semitones in rel {
      s := s + MAJ7_TOKEN;
    } else {
      EmptyTokenAddsNothing(s);
    }
    assert s == written + SeventhToken(rel);

    written := s;
    if c.bass.Some? {
      s := s + (SLASH + lib.name(c.bass.value));
    } else {
      EmptyTokenAddsNothing(s);
    }
    assert s == written + BassToken(lib, c);

    written := s;
    if I.UNISON.semitones !in rel {
      s := s + NO_ROOT;
    } else {
      EmptyTokenAddsNothing(s);
    }
    assert s == written + RootMarker(rel);

    written := s;
    if !hasFifth {
      s := s + NO_FIFTH;
    } else {
      EmptyTokenAddsNothing(s);
    }
    assert s == written + FifthMarker(rel);
  }

  // ---------------------------------------------------------------- symbols of the presets

  /** A root-position chord within one octave is spelled from its own offsets. */
  lemma RootPositionSymbol(lib: PitchLibrary, c: Chord)
    requires MeasuresUpward(lib.absDiff)
    requires c.bass == None && forall x :: x in Elements(c.intervals) ==> x < 12
    ensures Symbol(lib, c) == Spelled(lib, c, c.intervals)
  {
    RootPositionKeepsOffsets(lib, c);
  }

  /** With its root, a fifth and no bass, a chord is spelled by its root and three tokens. */
  lemma SpelledPlain(lib: PitchLibrary, c: Chord, rel: IntervalSet)
    requires c.bass == None && I.UNISON.semitones in rel && HasFifth(rel)
    ensures Spelled(lib, c, rel) == lib.name(c.root) + QualityToken(rel) + FifthToken(rel) + SeventhToken(rel)
  {
    var head := lib.name(c.root) + QualityToken(rel) + FifthToken(rel) + SeventhToken(rel);
    EmptyTokenAddsNothing(head);
    EmptyTokenAddsNothing(head + "");
    EmptyTokenAddsNothing(head + "" + "");
  }

  lemma SpelledMajorTriad(lib: PitchLibrary, c: Chord, rel: IntervalSet)
    requires c.bass == None && Elements(rel) == {0, 4, 7}
    ensures Spelled(lib, c, rel) == lib.name(c.root)
  {
    assert 0 in Elements(rel) && 7 in Elements(rel);
    assert 2 !in Elements(rel) && 3 !in Elements(rel) && 5 !in Elements(rel) && 6 !in Elements(rel);
    assert 10 !in Elements(rel) && 11 !in Elements(rel);
    SpelledPlain(lib, c, rel);
    EmptyTokenAddsNothing(lib.name(c.root));
    EmptyTokenAddsNothing(lib.name(c.root) + "");
    EmptyTokenAddsNothing(lib.name(c.root) + "" + "");
  }

  /** Any root-position chord holding 0, 4 and 7 is spelled by its root's name alone. */
  lemma MajorTriadSymbol(lib: PitchLibrary, c: Chord, root: MidiNote)
    requires MeasuresUpward(lib.absDiff) && IsPreset(c, root, {0, 4, 7})
    ensures Symbol(lib, c) == lib.name(root)
  {
    RootPositionSymbol(lib, c);
    SpelledMajorTriad(lib, c, c.intervals);
  }

  lemma MajorSymbol(lib: PitchLibrary, root: MidiNote)
    requires MeasuresUpward(lib.absDiff)
    ensures Symbol(lib, Major(root)) == lib.name(root)
  {
    MajorTriadSymbol(lib, Major(root), root);
  }

  lemma SpelledMinorTriad(lib: PitchLibrary, c: Chord, rel: IntervalSet)
    requires c.bass == None && Elements(rel) == {0, 3, 7}
    ensures Spelled(lib, c, rel) == lib.name(c.root) + "m"
  {
    assert 0 in Elements(rel) && 3 in Elements(rel) && 7 in Elements(rel);
    assert 6 !in Elements(rel) && 10 !in Elements(rel) && 11 !in Elements(rel);
    SpelledPlain(lib, c, rel);
    EmptyTokenAddsNothing(lib.name(c.root) + "m");
    EmptyTokenAddsNothing(lib.name(c.root) + "m" + "");
  }

  /** Any root-position chord holding 0, 3 and 7 is spelled `m`. */
  lemma MinorTriadSymbol(lib: PitchLibrary, c: Chord, root: MidiNote)
    requires MeasuresUpward(lib.absDiff) && IsPreset(c, root, {0, 3, 7})
    ensures Symbol(lib, c) == lib.name(root) + "m"
  {
    RootPositionSymbol(lib, c);
    SpelledMinorTriad(lib, c, c.intervals);
  }

  lemma MinorSymbol(lib: PitchLibrary, root: MidiNote)
    requires MeasuresUpward(lib.absDiff)
    ensures Symbol(lib, Minor(root)) == lib.name(root) + "m"
  {
    MinorTriadSymbol(lib, Minor(root), root);
  }

  lemma SpelledDominantSeventh(lib: PitchLibrary, c: Chord, rel: IntervalSet)
    requires c.bass == None && Elements(rel) == {0, 4, 7, 10}
    ensures Spelled(lib, c, rel) == lib.name(c.root) + "7"
  {
    assert 0 in Elements(rel) && 7 in Elements(rel) && 10 in Elements(rel);
    assert 2 !in Elements(rel) && 3 !in Elements(rel) && 5 !in Elements(rel) && 6 !in Elements(rel);
    SpelledPlain(lib, c, rel);
    EmptyTokenAddsNothing(lib.name(c.root));
    EmptyTokenAddsNothing(lib.name(c.root) + "");
  }

  /** Any root-position chord holding 0, 4, 7 and 10 is spelled `7`. */
  lemma DominantSeventhSymbol(lib: PitchLibrary, c: Chord, root: MidiNote)
    requires MeasuresUpward(lib.absDiff) && IsPreset(c, root, {0, 4, 7, 10})
    ensures Symbol(lib, c) == lib.name(root) + "7"
  {
    RootPositionSymbol(lib, c);
    SpelledDominantSeventh(lib, c, c.intervals);
  }

  lemma SeventhSymbol(lib: PitchLibrary, root: MidiNote)
    requires MeasuresUpward(lib.absDiff)
    ensures Symbol(lib, Seventh(root)) == lib.name(root) + "7"
  {
    DominantSeventhSymbol(lib, Seventh(root), root);
  }

  lemma SpelledMinorSeventh(lib: PitchLibrary, c: Chord, rel: IntervalSet)
    requires c.bass == None && Elements(rel) == {0, 3, 7, 10}
    ensures Spelled(lib, c, rel) == lib.name(c.root) + "m7"
  {
    assert 0 in Elements(rel) && 3 in Elements(rel) && 7 in Elements(rel) && 10 in Elements(rel);
    assert 6 !in Elements(rel);
    SpelledPlain(lib, c, rel);
    EmptyTokenAddsNothing(lib.name(c.root) + "m");
    assert lib.name(c.root) + "m" + "" + "7" == lib.name(c.root) + "m7";
  }

  /** Any root-position chord holding 0, 3, 7 and 10 is spelled `m7`. */
  lemma MinorSeventhChordSymbol(lib: PitchLibrary, c: Chord, root: MidiNote)
    requires MeasuresUpward(lib.absDiff) && IsPreset(c, root, {0, 3, 7, 10})
    ensures Symbol(lib, c) == lib.name(root) + "m7"
  {
    RootPositionSymbol(lib, c);
    SpelledMinorSeventh(lib, c, c.intervals);
  }

  lemma MinorSeventhSymbol(lib: PitchLibrary, root: MidiNote)
    requires MeasuresUpward(lib.absDiff)
    ensures Symbol(lib, MinorSeventh(root)) == lib.name(root) + "m7"
  {
    MinorSeventhChordSymbol(lib, MinorSeventh(root), root);
  }

  lemma SpelledHalfDiminished(lib: PitchLibrary, c: Chord, rel: IntervalSet)
    requires c.bass == None && Elements(rel) == {0, 3, 6, 10}
    ensures Spelled(lib, c, rel) == lib.name(c.root) + "mb57"
  {
    assert 0 in Elements(rel) && 3 in Elements(rel) && 6 in Elements(rel) && 10 in Elements(rel);
    SpelledPlain(lib, c, rel);
    assert lib.name(c.root) + "m" + "b5" + "7" == lib.name(c.root) + "mb57";
  }

  /** Any root-position chord holding 0, 3, 6 and 10 is spelled `mb57`. */
  lemma HalfDiminishedChordSymbol(lib: PitchLibrary, c: Chord, root: MidiNote)
    requires MeasuresUpward(lib.absDiff) && IsPreset(c, root, {0, 3, 6, 10})
    ensures Symbol(lib, c) == lib.name(root) + "mb57"
  {
    RootPositionSymbol(lib, c);
    SpelledHalfDiminished(lib, c, c.intervals);
  }

  lemma HalfDiminishedSymbol(lib: PitchLibrary, root: MidiNote)
    requires MeasuresUpward(lib.absDiff)
    ensures Symbol(lib, HalfDiminished(root)) == lib.name(root) + "mb57"
  {
    HalfDiminishedChordSymbol(lib, HalfDiminished(root), root);
  }

  lemma SpelledMajorSeventh(lib: PitchLibrary, c: Chord, rel: IntervalSet)
    requires c.bass == None && Elements(rel) == {0, 4, 7, 11}
    ensures Spelled(lib, c, rel) == lib.name(c.root) + "maj7"
  {
    assert 0 in Elements(rel) && 7 in Elements(rel) && 11 in Elements(rel);
    assert 2 !in Elements(rel) && 3 !in Elements(rel) && 5 !in Elements(rel);
    assert 6 !in Elements(rel) && 10 !in Elements(rel);
    SpelledPlain(lib, c, rel);
    EmptyTokenAddsNothing(lib.name(c.root));
    EmptyTokenAddsNothing(lib.name(c.root) + "");
  }

  /** Any root-position chord holding 0, 4, 7 and 11 is spelled `maj7`. */
  lemma MajorSeventhChordSymbol(lib: PitchLibrary, c: Chord, root: MidiNote)
    requires MeasuresUpward(lib.absDiff) && IsPreset(c, root, {0, 4, 7, 11})
    ensures Symbol(lib, c) == lib.name(root) + "maj7"
  {
    RootPositionSymbol(lib, c);
    SpelledMajorSeventh(lib, c, c.intervals);
  }

  /** `major_seventh()` on a major triad adds the eleventh semitone. */
  lemma MajorSeventhOnTriad(c: Chord, root: MidiNote)
    requires IsPreset(c, root, {0, 4, 7})
    ensures IsPreset(MajorSeventh(c), root, {0, 4, 7, 11})
  {
  }

  /** `major(root).major_seventh()` is spelled with `maj7`. */
  lemma MajorSeventhSymbol(lib: PitchLibrary, root: MidiNote)
    requires MeasuresUpward(lib.absDiff)
    ensures Symbol(lib, MajorSeventh(Major(root))) == lib.name(root) + "maj7"
  {
    MajorSeventhOnTriad(Major(root), root);
    MajorSeventhChordSymbol(lib, MajorSeventh(Major(root)), root);
  }

  // ---------------------------------------------------------------- the doc-test of `from_midi`

  /** The first inversion E3, G3, C4 of C4 is measured from C4 through `abs_diff`. */
  lemma FirstInversionRelative(lib: PitchLibrary, c: Chord, c4: MidiNote)
    requires c4 >= 8 && c.root == c4 && c.bass == Some(c4 - 8) && c.intervals == [0, 3, 8]
    ensures Elements(RootIntervals(lib, c)) == {lib.absDiff(c4 - 8, c4), lib.absDiff(c4 - 5, c4), lib.absDiff(c4, c4)}
  {
    var lo := Lowest(c);
    assert lo == c4 - 8;
    var d := Distances(lib, c.root, lo, c.intervals);
    assert d[0] == lib.absDiff(c4 - 8, c4);
    assert d[1] == lib.absDiff(c4 - 5, c4);
    assert d[2] == lib.absDiff(c4, c4);
    ElementsOfThree(d);
  }

  /** Measured by pitch class, the inversion is the plain triad over its bass. */
  lemma SpelledOverBass(lib: PitchLibrary, c: Chord, rel: IntervalSet)
    requires c.bass.Some? && Elements(rel) == {0, 4, 7}
    ensures Spelled(lib, c, rel) == lib.name(c.root) + "/" + lib.name(c.bass.value)
  {
    assert 0 in Elements(rel) && 7 in Elements(rel);
    assert 2 !in Elements(rel) && 3 !in Elements(rel) && 5 !in Elements(rel) && 6 !in Elements(rel);
    assert 10 !in Elements(rel) && 11 !in Elements(rel);
    var name := lib.name(c.root);
    var over := "/" + lib.name(c.bass.value);
    EmptyTokenAddsNothing(name);
    EmptyTokenAddsNothing(name + "");
    EmptyTokenAddsNothing(name + "" + "");
    EmptyTokenAddsNothing(name + over);
    EmptyTokenAddsNothing(name + over + "");
    assert Spelled(lib, c, rel) == name + "" + "" + "" + over + "" + "";
  }

  /** Measured by plain distance, the same notes read as a suspended fourth without fifth. */
  lemma SpelledSuspendedOverBass(lib: PitchLibrary, c: Chord, rel: IntervalSet)
    requires c.bass.Some? && Elements(rel) == {0, 5, 8}
    ensures Spelled(lib, c, rel) == lib.name(c.root) + "sus4/" + lib.name(c.bass.value) + "(no5)"
  {
    assert 0 in Elements(rel) && 5 in Elements(rel);
    assert 2 !in Elements(rel) && 3 !in Elements(rel) && 6 !in Elements(rel) && 7 !in Elements(rel);
    assert 10 !in Elements(rel) && 11 !in Elements(rel);
    var name := lib.name(c.root);
    var bass := lib.name(c.bass.value);
    EmptyTokenAddsNothing(name + "sus4");
    EmptyTokenAddsNothing(name + "sus4" + "");
    EmptyTokenAddsNothing(name + "sus4" + "" + "" + ("/" + bass));
    assert Spelled(lib, c, rel) == name + "sus4" + "" + "" + ("/" + bass) + "" + "(no5)";
    assert name + "sus4" + ("/" + bass) + "(no5)" == name + "sus4/" + bass + "(no5)";
  }

  lemma InversionByPitchClass(lib: PitchLibrary, c: Chord, c4: MidiNote)
    requires c4 >= 8 && c.root == c4 && c.bass == Some(c4 - 8) && c.intervals == [0, 3, 8]
    requires lib.absDiff(c4 - 8, c4) == 4 && lib.absDiff(c4 - 5, c4) == 7 && lib.absDiff(c4, c4) == 0
    ensures Symbol(lib, c) == lib.name(c4) + "/" + lib.name(c4 - 8)
  {
    FirstInversionRelative(lib, c, c4);
    SymbolOverBass(lib, c, lib.absDiff(c4 - 8, c4), lib.absDiff(c4 - 5, c4), lib.absDiff(c4, c4));
  }

  lemma InversionByDistance(lib: PitchLibrary, c: Chord, c4: MidiNote)
    requires c4 >= 8 && c.root == c4 && c.bass == Some(c4 - 8) && c.intervals == [0, 3, 8]
    requires lib.absDiff(c4 - 8, c4) == 8 && lib.absDiff(c4 - 5, c4) == 5 && lib.absDiff(c4, c4) == 0
    ensures Symbol(lib, c) == lib.name(c4) + "sus4/" + lib.name(c4 - 8) + "(no5)"
  {
    FirstInversionRelative(lib, c, c4);
    SymbolSuspendedOverBass(lib, c, lib.absDiff(c4 - 8, c4), lib.absDiff(c4 - 5, c4), lib.absDiff(c4, c4));
  }

  /** A chord over a bass whose notes lie 4, 7 and 0 above the root is spelled as the plain triad over that bass. */
  lemma SymbolOverBass(lib: PitchLibrary, c: Chord, x: nat, y: nat, z: nat)
    requires c.bass.Some? && Elements(RootIntervals(lib, c)) == {x, y, z}
    requires x == 4 && y == 7 && z == 0
    ensures Symbol(lib, c) == lib.name(c.root) + "/" + lib.name(c.bass.value)
  {
    assert {x, y, z} == {0, 4, 7};
    SpelledOverBass(lib, c, RootIntervals(lib, c));
  }

  /** A chord over a bass whose notes lie 8, 5 and 0 above the root is spelled as a suspended chord with no fifth. */
  lemma SymbolSuspendedOverBass(lib: PitchLibrary, c: Chord, x: nat, y: nat, z: nat)
    requires c.bass.Some? && Elements(RootIntervals(lib, c)) == {x, y, z}
    requires x == 8 && y == 5 && z == 0
    ensures Symbol(lib, c) == lib.name(c.root) + "sus4/" + lib.name(c.bass.value) + "(no5)"
  {
    assert {x, y, z} == {0, 5, 8};
    SpelledSuspendedOverBass(lib, c, RootIntervals(lib, c));
  }

  /**
   * The two symbols of the `from_midi` doc-test, assembled from their tokens.
   * Kept apart so that the literal concatenation is not proved inside the
   * larger contexts below.
   */
  lemma DocTestSymbolsSpelled()
    ensures "C4" + "/" + "E3" == "C4/E3"
    ensures "C4" + "sus4/" + "E3" + "(no5)" == "C4sus4/E3(no5)"
  {
  }

  /**
   * The doc-test of `from_midi` expects "C4/E3": that holds when `abs_diff`
   * measures pitch classes upward.
   */
  lemma FromMidiSymbolByPitchClass(lib: PitchLibrary, c4: MidiNote)
    requires c4 >= 8 && lib.name(c4) == "C4" && lib.name(c4 - 8) == "E3"
    requires forall n, m :: lib.absDiff(n, m) == PitchClassDistance(n, m)
    ensures NoneBelowFirst([c4 - 8, c4 - 5, c4])
    ensures Symbol(lib, Infer(c4, [c4 - 8, c4 - 5, c4]).value) == "C4/E3"
  {
    FirstInversionDocTest(c4, [c4 - 8, c4 - 5, c4]);
    PitchClassesBelow(c4);
    InversionByPitchClass(lib, Infer(c4, [c4 - 8, c4 - 5, c4]).value, c4);
    DocTestSymbolsSpelled();
  }

  /**
   * With `abs_diff` as the plain distance between the notes, the same chord
   * would be spelled "C4sus4/E3(no5)" instead.
   */
  lemma FromMidiSymbolByDistance(lib: PitchLibrary, c4: MidiNote)
    requires c4 >= 8 && lib.name(c4) == "C4" && lib.name(c4 - 8) == "E3"
    requires forall n, m :: lib.absDiff(n, m) == AbsoluteDistance(n, m)
    ensures NoneBelowFirst([c4 - 8, c4 - 5, c4])
    ensures Symbol(lib, Infer(c4, [c4 - 8, c4 - 5, c4]).value) == "C4sus4/E3(no5)"
  {
    FirstInversionDocTest(c4, [c4 - 8, c4 - 5, c4]);
    assert AbsoluteDistance(c4 - 8, c4) == 8 && AbsoluteDistance(c4 - 5, c4) == 5;
    InversionByDistance(lib, Infer(c4, [c4 - 8, c4 - 5, c4]).value, c4);
    DocTestSymbolsSpelled();
  }
}
