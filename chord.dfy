/**
 * A chord: its root, an optional bass note, the inversion flag, and the
 * offsets of its notes measured from its lowest note (src/chord/mod.rs).
 */
module Chords {
  import opened Outcomes
  import opened Pitches
  import opened IntervalSets
  import I = Intervals

  /**
   * The stored offsets are measured from the bass when there is one and from
   * the root otherwise.
   */
  datatype Chord = Chord(root: MidiNote, bass: Option<MidiNote>, isInversion: bool, intervals: IntervalSet)

  /** `self.bass.unwrap_or(self.root)`: the note the offsets are measured from. */
  function Lowest(c: Chord): MidiNote {
    c.bass.UnwrapOr(c.root)
  }

  // ---------------------------------------------------------------- builders

  /** `Chord::new`. */
  function New(root: MidiNote): (c: Chord)
    ensures c.root == root && c.bass == None && !c.isInversion && c.intervals == []
  {
    Chord(root, None, false, [])
  }

  /** `Chord::bass`. */
  function Bass(c: Chord, bassNote: MidiNote): (r: Chord)
    ensures r == c.(bass := Some(bassNote))
  {
    c.(bass := Some(bassNote))
  }

  /** `Chord::inversion`. */
  function Inversion(c: Chord, bassNote: MidiNote): (r: Chord)
    ensures r == c.(bass := Some(bassNote), isInversion := true)
  {
    Bass(c.(isInversion := true), bassNote)
  }

  /** `Chord::interval`: adds one offset and touches nothing else. */
  function WithInterval(c: Chord, interval: I.Interval): (r: Chord)
    ensures r.root == c.root && r.bass == c.bass && r.isInversion == c.isInversion
    ensures Elements(r.intervals) == Elements(c.intervals) + {interval.semitones}
  {
    c.(intervals := Push(c.intervals, interval.semitones))
  }

  /** `Chord::root`: adds the unison. */
  function Root(c: Chord): (r: Chord)
    ensures r.root == c.root && r.bass == c.bass && r.isInversion == c.isInversion
    ensures Elements(r.intervals) == Elements(c.intervals) + {0}
  {
    WithInterval(c, I.UNISON)
  }

  /** What every preset builder returns: a root-position chord holding exactly the given offsets. */
  ghost predicate IsPreset(c: Chord, root: MidiNote, offsets: set<nat>) {
    c.root == root && c.bass == None && !c.isInversion && Elements(c.intervals) == offsets
  }

  /** The offsets of a chord built from an empty one by `root()` and two more intervals. */
  lemma TriadElements(c0: Chord, third: I.Interval, fifth: I.Interval)
    requires c0.intervals == []
    ensures Elements(WithInterval(WithInterval(Root(c0), third), fifth).intervals)
         == {0, third.semitones, fifth.semitones}
  {
  }

  /** The offsets of a chord built from an empty one by `root()` and three more intervals. */
  lemma TetradElements(c0: Chord, third: I.Interval, fifth: I.Interval, seventh: I.Interval)
    requires c0.intervals == []
    ensures Elements(WithInterval(WithInterval(WithInterval(Root(c0), third), fifth), seventh).intervals)
         == {0, third.semitones, fifth.semitones, seventh.semitones}
  {
    TriadElements(c0, third, fifth);
  }

  function Major(root: MidiNote): (c: Chord)
    ensures IsPreset(c, root, {0, 4, 7})
  {
    TriadElements(New(root), I.MAJOR_THIRD, I.PERFECT_FIFTH);
    WithInterval(WithInterval(Root(New(root)), I.MAJOR_THIRD), I.PERFECT_FIFTH)
  }

  function Minor(root: MidiNote): (c: Chord)
    ensures IsPreset(c, root, {0, 3, 7})
  {
    TriadElements(New(root), I.MINOR_THIRD, I.PERFECT_FIFTH);
    WithInterval(WithInterval(Root(New(root)), I.MINOR_THIRD), I.PERFECT_FIFTH)
  }

  function Seventh(root: MidiNote): (c: Chord)
    ensures IsPreset(c, root, {0, 4, 7, 10})
  {
    WithInterval(Major(root), I.MINOR_SEVENTH)
  }

  /** `Chord::major_seventh`, a chained builder on an existing chord. */
  function MajorSeventh(c: Chord): (r: Chord)
    ensures r.root == c.root && r.bass == c.bass && r.isInversion == c.isInversion
    ensures Elements(r.intervals) == Elements(c.intervals) + {11}
  {
    WithInterval(c, I.MAJOR_SEVENTH)
  }

  function MinorSeventh(root: MidiNote): (c: Chord)
    ensures IsPreset(c, root, {0, 3, 7, 10})
  {
    WithInterval(Minor(root), I.MINOR_SEVENTH)
  }

  /** `Chord::major_ninth`, a chained builder on an existing chord. */
  function MajorNinth(c: Chord): (r: Chord)
    ensures r.root == c.root && r.bass == c.bass && r.isInversion == c.isInversion
    ensures Elements(r.intervals) == Elements(c.intervals) + {14}
  {
    WithInterval(c, I.MAJOR_NINTH)
  }

  function HalfDiminished(root: MidiNote): (c: Chord)
    ensures IsPreset(c, root, {0, 3, 6, 10})
  {
    TetradElements(New(root), I.MINOR_THIRD, I.TRITONE, I.MINOR_SEVENTH);
    WithInterval(WithInterval(WithInterval(Root(New(root)), I.MINOR_THIRD), I.TRITONE), I.MINOR_SEVENTH)
  }

  /** `bass()` sets only the bass; `inversion()` sets the bass and the flag. */
  lemma BassAndInversion(c: Chord, b: MidiNote)
    ensures Bass(c, b).root == c.root && Bass(c, b).intervals == c.intervals
    ensures Bass(c, b).isInversion == c.isInversion
    ensures Inversion(c, b) == Bass(c, b).(isInversion := true)
  {
  }

  /** `Chord::bass` does not re-measure the offsets: they are now counted up from the new bass. */
  lemma BassReanchorsOffsets(c: Chord, b: MidiNote)
    ensures Notes(Bass(c, b)) == Above(b, c.intervals)
  {
  }

  // ---------------------------------------------------------------- flattening

  /** Each offset placed above a given note. */
  function Above(lowest: MidiNote, offsets: seq<nat>): (r: seq<MidiNote>)
    ensures |r| == |offsets|
    ensures forall k :: 0 <= k < |r| ==> r[k] == lowest + offsets[k]
  {
    if offsets == [] then [] else [lowest + offsets[0]] + Above(lowest, offsets[1..])
  }

  /**
   * The notes of a chord, as `into_iter` and `midi_notes` produce them: the
   * lowest note plus each offset, ascending and once each.
   */
  function Notes(c: Chord): (r: seq<MidiNote>)
    ensures |r| == |c.intervals|
    ensures forall k :: 0 <= k < |r| ==> r[k] == Lowest(c) + c.intervals[k]
  {
    Above(Lowest(c), c.intervals)
  }

  /** The notes come out in ascending order, each once. */
  lemma NotesAscending(c: Chord)
    ensures StrictlyAscending(Notes(c))
  {
  }

  /** `MidiNotes`: a lowest note and the offsets not yet produced. */
  class MidiNotes {
    var root: MidiNote
    var intervals: IntervalSet

    /** The notes still to come. */
    ghost function Remaining(): seq<MidiNote>
      reads this
    {
      Above(root, intervals)
    }

    /** `Chord::midi_notes` (and `into_iter`): start at the lowest note with every offset to come. */
    constructor (c: Chord)
      ensures root == Lowest(c) && intervals == c.intervals
      ensures Remaining() == Notes(c)
    {
      root := Lowest(c);
      intervals := c.intervals;
    }

    /** `Iterator::next`: drain the smallest offset and yield it above the lowest note. */
    method Next() returns (r: Option<MidiNote>)
      modifies this
      ensures root == old(root)
      ensures old(Remaining()) == [] ==> r == None && Remaining() == []
      ensures old(Remaining()) != [] ==> r == Some(old(Remaining())[0]) && Remaining() == old(Remaining())[1..]
      ensures |intervals| == if old(intervals) == [] then 0 else |old(intervals)| - 1
    {
      var drained := IntervalSets.Next(intervals);
      match drained
      case None =>
        r := None;
      case Some((interval, rest)) =>
        intervals := rest;
        r := Some(root + interval);
    }
  }

  /** Collecting `into_iter()`: running the iterator to its end yields exactly `Notes(c)`. */
  method IntoNotes(c: Chord) returns (notes: seq<MidiNote>)
    ensures notes == Notes(c)
  {
    var iter := new MidiNotes(c);
    notes := [];
    var next := iter.Next();
    while next.Some?
      invariant next.Some? ==> notes + [next.value] + iter.Remaining() == Notes(c)
      invariant next.None? ==> notes == Notes(c)
      decreases |iter.intervals| + (if next.Some? then 1 else 0)
    {
      notes := notes + [next.value];
      next := iter.Next();
    }
  }

  // ---------------------------------------------------------------- inference from notes

  /** `note - lowest` is defined for every note at or above the first one. */
  ghost predicate NoneBelowFirst(notes: seq<MidiNote>) {
    forall k :: 0 < k < |notes| ==> notes[0] <= notes[k]
  }

  /** The distance of each note above `lowest`. */
  function Offsets(notes: seq<MidiNote>, lowest: MidiNote): (r: seq<nat>)
    requires forall k :: 0 <= k < |notes| ==> lowest <= notes[k]
    ensures |r| == |notes|
    ensures forall k :: 0 <= k < |r| ==> r[k] == notes[k] - lowest
  {
    if notes == [] then [] else [notes[0] - lowest] + Offsets(notes[1..], lowest)
  }

  /**
   * The chord `from_midi` infers: the first note is the bass unless it is
   * the root, the unison is always present, and every later note adds its
   * distance above the first note.
   */
  function Infer(root: MidiNote, notes: seq<MidiNote>): (r: Option<Chord>)
    requires NoneBelowFirst(notes)
    ensures r.None? <==> notes == []
  {
    if notes == [] then None
    else
      var bass := if notes[0] != root then Some(notes[0]) else None;
      Some(Chord(root, bass, notes[0] != root, Extend(Push([], 0), Offsets(notes[1..], notes[0]))))
  }

  /** What `from_midi` promises about the chord it infers. */
  lemma InferShape(root: MidiNote, notes: seq<MidiNote>)
    requires NoneBelowFirst(notes) && notes != []
    ensures var c := Infer(root, notes).value;
      && c.root == root
      && (c.bass == Some(notes[0]) <==> notes[0] != root)
      && (c.bass == None <==> notes[0] == root)
      && (c.isInversion <==> c.bass.Some?)
      && Lowest(c) == notes[0]
      && 0 in c.intervals
      && Elements(c.intervals) == {0} + Elements(Offsets(notes[1..], notes[0]))
  {
    var c := Infer(root, notes).value;
    assert Elements(Push([], 0)) == {0};
    assert 0 in Elements(c.intervals);
  }

  /** `Chord::from_midi`: reads the first note, then pushes the distance of every later one. */
  method FromMidi(root: MidiNote, notes: seq<MidiNote>) returns (r: Option<Chord>)
    requires NoneBelowFirst(notes)
    ensures r == Infer(root, notes)
  {
    var intervals: IntervalSet := [];
    var isInversion := false;
    if notes == [] {
      return None;
    }
    var bassNote := notes[0];
    var bass: Option<MidiNote>;
    if bassNote != root {
      isInversion := true;
      bass := Some(bassNote);
    } else {
      bass := None;
    }
    intervals := Push(intervals, I.UNISON.semitones);
    var lowest := bass.UnwrapOr(root);
    assert lowest == notes[0];
    ghost var unison := intervals;
    ghost var offsets := Offsets(notes[1..], notes[0]);
    var k := 1;
    while k < |notes|
      invariant 1 <= k <= |notes|
      invariant Extend(intervals, offsets[k - 1..]) == Extend(unison, offsets)
    {
      var interval := notes[k] - lowest;
      assert notes[1..][k - 1] == notes[k];
      assert offsets[k - 1] == interval;
      ExtendSuffixStep(intervals, offsets, k - 1);
      intervals := Push(intervals, interval);
      k := k + 1;
    }
    r := Some(Chord(root, bass, isInversion, intervals));
  }

  /** `FromIterator for Chord`: the first note (MIDI 0 when there is none) is both root and first note. */
  method FromIter(notes: seq<MidiNote>) returns (c: Chord)
    requires NoneBelowFirst(notes)
    ensures c.root == (if notes == [] then 0 else notes[0])
    ensures c.bass == None && !c.isInversion
    ensures Some(c) == Infer(c.root, if notes == [] then [0] else notes)
  {
    var root := if notes == [] then 0 else notes[0];
    var rest := if notes == [] then [] else notes[1..];
    var chained := [root] + rest;
    assert chained == if notes == [] then [0] else notes;
    var inferred := FromMidi(root, chained);
    c := inferred.value;
  }

  /** Offsets measured from the first of an ascending run of notes are ascending and start at the unison. */
  lemma OffsetsFromFirst(notes: seq<MidiNote>)
    requires StrictlyAscending(notes) && notes != []
    ensures StrictlyAscending(Offsets(notes, notes[0]))
    ensures Elements(Offsets(notes, notes[0])) == {0} + Elements(Offsets(notes[1..], notes[0]))
  {
    OffsetsAscending(notes, notes[0]);
    assert Offsets(notes, notes[0]) == [0] + Offsets(notes[1..], notes[0]);
    ElementsOfCons(0, Offsets(notes[1..], notes[0]));
  }

  lemma OffsetsAscending(notes: seq<MidiNote>, lowest: MidiNote)
    requires StrictlyAscending(notes) && forall k :: 0 <= k < |notes| ==> lowest <= notes[k]
    ensures StrictlyAscending(Offsets(notes, lowest))
  {
    var r := Offsets(notes, lowest);
    forall i, j | 0 <= i < j < |r| ensures r[i] < r[j] {
      assert r[i] == notes[i] - lowest && r[j] == notes[j] - lowest;
    }
  }

  /**
   * `from_midi` on ascending notes stores exactly their distances above the
   * first note, so flattening the chord gives the notes back.
   */
  lemma InferFlattensToInput(root: MidiNote, notes: seq<MidiNote>)
    requires StrictlyAscending(notes) && notes != []
    ensures NoneBelowFirst(notes)
    ensures Infer(root, notes).value.intervals == Offsets(notes, notes[0])
    ensures Notes(Infer(root, notes).value) == notes
  {
    InferStoresOffsets(root, notes);
    FlattenOffsets(Infer(root, notes).value, notes);
  }

  lemma InferStoresOffsets(root: MidiNote, notes: seq<MidiNote>)
    requires StrictlyAscending(notes) && notes != []
    ensures NoneBelowFirst(notes)
    ensures Lowest(Infer(root, notes).value) == notes[0]
    ensures Infer(root, notes).value.intervals == Offsets(notes, notes[0])
  {
    InferShape(root, notes);
    OffsetsFromFirst(notes);
    Canonical(Infer(root, notes).value.intervals, Offsets(notes, notes[0]));
  }

  /** A chord whose offsets are the distances of some notes above the first of them flattens to those notes. */
  lemma FlattenOffsets(c: Chord, notes: seq<MidiNote>)
    requires notes != [] && NoneBelowFirst(notes)
    requires Lowest(c) == notes[0] && c.intervals == Offsets(notes, notes[0])
    ensures Notes(c) == notes
  {
    var flattened := Notes(c);
    forall k | 0 <= k < |notes| ensures flattened[k] == notes[k] {
      assert flattened[k] == notes[0] + c.intervals[k];
    }
  }

  /** The doc-test of `from_midi`: E3, G3, C4 with root C4 is the first inversion, stored as 0, 3, 8. */
  lemma FirstInversionDocTest(c4: MidiNote, notes: seq<MidiNote>)
    requires c4 >= 8 && notes == [c4 - 8, c4 - 5, c4]
    ensures NoneBelowFirst(notes)
    ensures var c := Infer(c4, notes).value;
      c.root == c4 && c.bass == Some(c4 - 8) && c.isInversion && c.intervals == [0, 3, 8]
      && Notes(c) == notes
  {
    assert StrictlyAscending(notes);
    FirstInversionOffsets(c4);
    FirstInversionChord(c4, notes, Infer(c4, notes).value);
  }

  lemma FirstInversionChord(c4: MidiNote, notes: seq<MidiNote>, c: Chord)
    requires c4 >= 8 && notes == [c4 - 8, c4 - 5, c4] && NoneBelowFirst(notes)
    requires Some(c) == Infer(c4, notes)
    ensures c.root == c4 && c.bass == Some(c4 - 8) && c.isInversion && c.intervals == [0, 3, 8]
    ensures Notes(c) == notes
  {
    ThreeAscending(c4 - 8, c4 - 5, c4);
    InferredInversion(c4, notes, c);
    FirstInversionOffsets(c4);
  }

  /** A chord inferred from ascending notes whose first is not the root is an inversion over that note. */
  lemma InferredInversion(root: MidiNote, notes: seq<MidiNote>, c: Chord)
    requires StrictlyAscending(notes) && notes != [] && notes[0] != root
    requires NoneBelowFirst(notes) && Some(c) == Infer(root, notes)
    ensures c.root == root && c.bass == Some(notes[0]) && c.isInversion
    ensures c.intervals == Offsets(notes, notes[0]) && Notes(c) == notes
  {
    InferShape(root, notes);
    InferFlattensToInput(root, notes);
  }

  lemma ThreeAscending(a: nat, b: nat, c: nat)
    requires a < b < c
    ensures StrictlyAscending([a, b, c])
  {
  }

  lemma FirstInversionOffsets(c4: MidiNote)
    requires c4 >= 8
    ensures Offsets([c4 - 8, c4 - 5, c4], c4 - 8) == [0, 3, 8]
  {
    var offsets := Offsets([c4 - 8, c4 - 5, c4], c4 - 8);
    assert offsets[0] == 0 && offsets[1] == 3 && offsets[2] == 8;
  }

  /** Five increasing offsets form an interval set. */
  lemma FiveAscending(a: nat, b: nat, c: nat, d: nat, e: nat)
    requires a < b < c < d < e
    ensures StrictlyAscending([a, b, c, d, e])
  {
  }

  /** A major triad with the major seventh and the major ninth added sounds those five notes from its root up. */
  lemma MajorNinthVoicing(c: Chord, root: MidiNote)
    requires IsPreset(c, root, {0, 4, 7})
    ensures MajorNinth(MajorSeventh(c)).intervals == [0, 4, 7, 11, 14]
    ensures Notes(MajorNinth(MajorSeventh(c))) == [root, root + 4, root + 7, root + 11, root + 14]
  {
    NinthIntervals(c, root);
    NinthAbove(root);
  }

  lemma NinthIntervals(c: Chord, root: MidiNote)
    requires IsPreset(c, root, {0, 4, 7})
    ensures Lowest(MajorNinth(MajorSeventh(c))) == root
    ensures MajorNinth(MajorSeventh(c)).intervals == [0, 4, 7, 11, 14]
  {
    NinthSet(MajorNinth(MajorSeventh(c)).intervals);
  }

  /** The only interval set holding 0, 4, 7, 11 and 14. */
  lemma NinthSet(t: IntervalSet)
    requires Elements(t) == {0, 4, 7, 11, 14}
    ensures t == [0, 4, 7, 11, 14]
  {
    FiveAscending(0, 4, 7, 11, 14);
    Canonical(t, [0, 4, 7, 11, 14]);
  }

  lemma NinthAbove(root: MidiNote)
    ensures Above(root, [0, 4, 7, 11, 14]) == [root, root + 4, root + 7, root + 11, root + 14]
  {
    var voicing := Above(root, [0, 4, 7, 11, 14]);
    assert voicing[0] == root && voicing[1] == root + 4 && voicing[2] == root + 7;
    assert voicing[3] == root + 11 && voicing[4] == root + 14;
  }

  /** The doc-test of `major_ninth`: the chord built from `major(root)` sounds root, third, fifth, seventh, ninth. */
  lemma MajorNinthDocTest(root: MidiNote)
    ensures Notes(MajorNinth(MajorSeventh(Major(root)))) == [root, root + 4, root + 7, root + 11, root + 14]
  {
    MajorNinthVoicing(Major(root), root);
  }

  /** A chord whose offsets are the unison and each note's distance above the first sounds exactly those notes. */
  lemma SoundsOffsets(c: Chord, notes: seq<MidiNote>)
    requires notes != [] && NoneBelowFirst(notes) && Lowest(c) == notes[0]
    requires Elements(c.intervals) == {0} + Elements(Offsets(notes[1..], notes[0]))
    ensures forall n :: n in Notes(c) <==> n in notes
  {
    forall n | n in Notes(c) ensures n in notes {
      SoundsOnlyGiven(c, notes, n);
    }
    forall n | n in notes ensures n in Notes(c) {
      SoundsEveryGiven(c, notes, n);
    }
  }

  lemma SoundsOnlyGiven(c: Chord, notes: seq<MidiNote>, n: MidiNote)
    requires notes != [] && NoneBelowFirst(notes) && Lowest(c) == notes[0]
    requires Elements(c.intervals) == {0} + Elements(Offsets(notes[1..], notes[0]))
    requires n in Notes(c)
    ensures n in notes
  {
    var flattened := Notes(c);
    var k :| 0 <= k < |flattened| && flattened[k] == n;
    var d := c.intervals[k];
    assert n == notes[0] + d;
    assert d in Elements(c.intervals);
    if d != 0 {
      var offsets := Offsets(notes[1..], notes[0]);
      assert d in Elements(offsets);
      var j :| 0 <= j < |offsets| && offsets[j] == d;
      assert notes[1..][j] == n;
    }
  }

  lemma SoundsEveryGiven(c: Chord, notes: seq<MidiNote>, n: MidiNote)
    requires notes != [] && NoneBelowFirst(notes) && Lowest(c) == notes[0]
    requires Elements(c.intervals) == {0} + Elements(Offsets(notes[1..], notes[0]))
    requires n in notes
    ensures n in Notes(c)
  {
    var flattened := Notes(c);
    var offsets := Offsets(notes[1..], notes[0]);
    var k :| 0 <= k < |notes| && notes[k] == n;
    var d: nat := n - notes[0];
    if k > 0 {
      assert notes[1..][k - 1] == n;
      assert offsets[k - 1] == d;
      assert d in Elements(offsets);
    }
    assert d in Elements(c.intervals);
    var i :| 0 <= i < |c.intervals| && c.intervals[i] == d;
    assert flattened[i] == n;
  }

  /** `from_midi` keeps every note it is given and invents none: only order and repetition are lost. */
  lemma InferSoundsInput(root: MidiNote, notes: seq<MidiNote>)
    requires NoneBelowFirst(notes) && notes != []
    ensures forall n :: n in Notes(Infer(root, notes).value) <==> n in notes
  {
    InferShape(root, notes);
    SoundsOffsets(Infer(root, notes).value, notes);
  }

  // ---------------------------------------------------------------- root-relative intervals

  /** The distance of each note `lowest + offset` from the root, as `abs_diff` measures it. */
  function Distances(lib: PitchLibrary, root: MidiNote, lowest: MidiNote, offsets: seq<nat>): (r: seq<nat>)
    ensures |r| == |offsets|
    ensures forall k :: 0 <= k < |r| ==> r[k] == lib.absDiff(lowest + offsets[k], root)
  {
    if offsets == [] then []
    else [lib.absDiff(lowest + offsets[0], root)] + Distances(lib, root, lowest, offsets[1..])
  }

  /**
   * `Chord::intervals`: every sounding note measured from the root with the
   * pitch library's `abs_diff` (map, then collect); distances that coincide
   * collapse into one.
   */
  function RootIntervals(lib: PitchLibrary, c: Chord): (r: IntervalSet)
    ensures Elements(r) == Elements(Distances(lib, c.root, Lowest(c), c.intervals))
  {
    Collect(Distances(lib, c.root, Lowest(c), c.intervals))
  }

  /** The root-relative set holds exactly the distances of the chord's notes from its root. */
  lemma RootIntervalsMeasureNotes(lib: PitchLibrary, c: Chord)
    ensures forall d :: d in RootIntervals(lib, c) <==> exists n :: n in Notes(c) && lib.absDiff(n, c.root) == d
  {
    forall d | d in RootIntervals(lib, c) ensures exists n :: n in Notes(c) && lib.absDiff(n, c.root) == d {
      MeasuredNoteSounds(lib, c, d);
    }
    forall n | n in Notes(c) ensures lib.absDiff(n, c.root) in RootIntervals(lib, c) {
      SoundingNoteMeasured(lib, c, n);
    }
  }

  lemma MeasuredNoteSounds(lib: PitchLibrary, c: Chord, d: nat)
    requires d in RootIntervals(lib, c)
    ensures exists n :: n in Notes(c) && lib.absDiff(n, c.root) == d
  {
    var distances := Distances(lib, c.root, Lowest(c), c.intervals);
    assert d in Elements(distances);
    var k :| 0 <= k < |distances| && distances[k] == d;
    var notes := Notes(c);
    var n := notes[k];
    assert n == Lowest(c) + c.intervals[k];
    assert lib.absDiff(n, c.root) == d;
    assert n in notes;
  }

  lemma SoundingNoteMeasured(lib: PitchLibrary, c: Chord, n: MidiNote)
    requires n in Notes(c)
    ensures lib.absDiff(n, c.root) in RootIntervals(lib, c)
  {
    var distances := Distances(lib, c.root, Lowest(c), c.intervals);
    var k :| 0 <= k < |Notes(c)| && Notes(c)[k] == n;
    assert distances[k] == lib.absDiff(n, c.root);
    assert distances[k] in Elements(distances);
  }

  /** With a faithful `abs_diff`, the root-relative set has the unison exactly when the root sounds. */
  lemma RootSounding(lib: PitchLibrary, c: Chord)
    requires ZeroOnlyAtUnison(lib.absDiff)
    ensures 0 in RootIntervals(lib, c) <==> c.root in Notes(c)
  {
    RootIntervalsMeasureNotes(lib, c);
  }

  /** A root-position chord within one octave keeps its offsets when measured from the root. */
  lemma RootPositionKeepsOffsets(lib: PitchLibrary, c: Chord)
    requires MeasuresUpward(lib.absDiff)
    requires c.bass == None
    requires forall i :: i in Elements(c.intervals) ==> i < 12
    ensures RootIntervals(lib, c) == c.intervals
  {
    var distances := Distances(lib, c.root, Lowest(c), c.intervals);
    forall k | 0 <= k < |distances| ensures distances[k] == c.intervals[k] {
      assert c.intervals[k] in Elements(c.intervals);
    }
    assert distances == c.intervals;
    Canonical(RootIntervals(lib, c), c.intervals);
  }
}
