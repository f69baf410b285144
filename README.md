# Chords and intervals of the `staff` music crate, in Dafny

This project models the harmonic core of the `staff` crate:

- the `Interval` newtype over a `u8` semitone count (`src/interval.rs`);
- the `Chord` record (`src/chord/mod.rs`) with its four fields: a root note,
  an optional bass note, the inversion flag, and an ascending set of semitone
  offsets measured from the lowest note.

The model covers these operations on a chord:

- the builders;
- inference of a chord from MIDI notes (`from_midi`, `FromIterator`);
- flattening back to notes (`midi_notes`, `MidiNotes::next`, `into_iter`);
- the root-relative interval set (`intervals()`);
- the chord-symbol formatter (`Display`);
- the chord-symbol parser (`FromStr`).

Modules, one per file:

- `Outcomes` (`outcomes.dfy`): `Option`, and `Outcome`, whose `Abort` is what
  the model gives where the source panics (`unwrap` on `None`, `todo!()`, and
  `u8` overflow as checked arithmetic reports it; see `Intervals.Add` under
  "Left out").
- `Intervals` (`interval.dfy`): `Interval`, its constants, the conversions,
  `+` and `Display`.
- `IntervalSets` (`interval_set.dfy`): the interval set, a strictly ascending
  `seq<nat>`. Its implementation is not part of this model. It is modelled
  from how the chord code uses it: `push` is an ordered insert that ignores
  duplicates, `extend` is repeated `push`, `contains` is membership, `next`
  drains the smallest element, and map-then-collect is `Collect`.
- `Pitches` (`pitches.dfy`): `MidiNote` as a natural number. The unseen pitch
  library comes in as the parameter `PitchLibrary`, which holds four functions:
  - `Natural::try_from(char)`;
  - `MidiNote::new(pitch, Octave::FOUR)`, with the accidental applied;
  - `Display for MidiNote`;
  - `MidiNote::abs_diff`.
- `Chords` (`chord.dfy`): the chord, the builders, flattening (the class
  `MidiNotes` is the iterator), `from_midi`, `FromIterator`, `intervals()`.
- `ChordDisplay` (`chord_display.dfy`): `Display for Chord`.
- `ChordParse` (`chord_parse.dfy`): `FromStr for Chord`.

The code that changes state is imperative Dafny, each method proved equal to a
specification function:

- `from_midi` is the method `FromMidi`, a loop that pushes one offset per note.
  It is proved equal to the function `Infer`.
- `MidiNotes::next` is a method on the class `MidiNotes`, which changes its
  `intervals` field.
- `fmt` is the method `Fmt` and its body `WriteTokens`, which appends token by
  token and keeps the `has_fifth` flag. It is proved equal to the function
  `Symbol`.
- `from_str` is the method `FromStr` and its trailing loop `TrailingLoop`,
  which read characters with a one-character lookahead. It is proved equal to
  the function `Parse`.

## Model

| member | source | states |
|---|---|---|
| Intervals.ConstantValues | src/interval.rs:11-33 | The k-th of the twelve simple constants is k semitones, from UNISON to MAJOR_SEVENTH; THIRTEENTH is 21. |
| Intervals.NewSemitonesInverse | src/interval.rs:35-41 | `new` and `semitones` are mutual inverses. |
| Intervals.U8ConversionsInverse | src/interval.rs:44-54 | `From<u8>` and `From<Interval> for u8` are mutual inverses. |
| Intervals.OrderIsSemitoneOrder | src/interval.rs:5-8 | Derived equality and order are those of the semitone count: the order is total, antisymmetric and transitive. |
| Intervals.Add | src/interval.rs:56-62 | The sum exists exactly when the semitones add up to at most 255; it then has their sum. Otherwise the checked `u8` addition panics. |
| Intervals.AddCommutative | src/interval.rs:56-62 | `a + b == b + a`, panics included. |
| Intervals.AddUnisonIdentity | src/interval.rs:56-62 | UNISON is a two-sided identity. |
| Intervals.AddAssociative | src/interval.rs:56-62 | `(a + b) + c` and `a + (b + c)` agree, and each panics exactly when the other does. |
| Intervals.Display | src/interval.rs:64-73 | UNISON, MAJOR_THIRD, PERFECT_FIFTH and MINOR_SEVENTH print "1", "3", "5" and "m7", each in both directions; every other interval panics. |
| IntervalSets.Canonical | src/chord/mod.rs:38 | Two interval sets with the same elements are the same sequence. |
| IntervalSets.Push | src/chord/mod.rs:61-64 | `push` adds exactly the new value and keeps order and uniqueness; a value already present leaves the set unchanged. |
| IntervalSets.PushAbove | src/chord/mod.rs:61-64 | Pushing a value above every element appends it. |
| IntervalSets.PushCommutes | src/chord/mod.rs:87-92 | Pushing two values in either order gives the same set. |
| IntervalSets.Extend | src/chord/mod.rs:154 | `extend` adds exactly the values it is given. |
| IntervalSets.ExtendOrderIrrelevant | src/chord/mod.rs:154 | The result of `extend` depends only on which values are given, not on their order or repetition. |
| IntervalSets.Collect | src/chord/mod.rs:175-180 | Collecting gives a set with exactly the collected values. |
| IntervalSets.Next | src/chord/mod.rs:200 | Draining gives nothing exactly on the empty set. Otherwise it gives the smallest element and the set without it. |
| Chords.New | src/chord/mod.rs:42-49 | A new chord has the given root, no bass, no inversion and no offsets. |
| Chords.Bass | src/chord/mod.rs:51-54 | `bass` sets the bass and nothing else. |
| Chords.Inversion | src/chord/mod.rs:56-59 | `inversion` sets the bass and the inversion flag and nothing else. |
| Chords.WithInterval | src/chord/mod.rs:61-64 | `interval` adds one offset, and root, bass and flag are unchanged. |
| Chords.Root | src/chord/mod.rs:66-68 | `root` adds the unison (offset 0) to the set, and root, bass and flag are unchanged. |
| Chords.MajorSeventh | src/chord/mod.rs:105-107 | `major_seventh` adds offset 11 to the set of any chord, and root, bass and flag are unchanged. |
| Chords.MajorNinth | src/chord/mod.rs:113-115 | `major_ninth` adds offset 14 to the set of any chord, and root, bass and flag are unchanged. |
| Chords.BassAndInversion | src/chord/mod.rs:51-59 | `bass` keeps root, offsets and flag; `inversion` is `bass` with the flag set. |
| Chords.BassReanchorsOffsets | src/chord/mod.rs:51-54 | After `bass`, the same offsets are counted up from the new bass. |
| Chords.TriadElements | src/chord/mod.rs:87-99 | `new().root()` with two intervals holds exactly the unison and those two offsets. |
| Chords.TetradElements | src/chord/mod.rs:117-123 | `new().root()` with three intervals holds exactly the unison and those three offsets. |
| Chords.Major | src/chord/mod.rs:87-92 | The major triad: root position, no inversion, offsets {0, 4, 7}. |
| Chords.Minor | src/chord/mod.rs:94-99 | The minor triad: root position, offsets {0, 3, 7}. |
| Chords.Seventh | src/chord/mod.rs:101-103 | The dominant seventh: root position, offsets {0, 4, 7, 10}. |
| Chords.MinorSeventh | src/chord/mod.rs:109-111 | The minor seventh: root position, offsets {0, 3, 7, 10}. |
| Chords.HalfDiminished | src/chord/mod.rs:117-123 | The half-diminished chord: root position, offsets {0, 3, 6, 10}. |
| Chords.Notes | src/chord/mod.rs:183-188 | A chord has one note per offset: the k-th note is the lowest note (bass, or else root) plus the k-th offset. |
| Chords.NotesAscending | src/chord/mod.rs:213-224 | The notes come out strictly ascending, each once. |
| Chords.MidiNotes.constructor | src/chord/mod.rs:183-188 | `midi_notes` starts at the lowest note with every offset still to come, so the notes to come are the chord's notes. |
| Chords.MidiNotes.Next | src/chord/mod.rs:196-202 | `next` yields nothing exactly when no note is left. Otherwise it yields the first remaining note and drops it. |
| Chords.IntoNotes | src/chord/mod.rs:213-224 | Running the iterator to its end yields exactly the chord's notes, in order. |
| Chords.Offsets | src/chord/mod.rs:154 | Each note is mapped to its distance above the lowest note. |
| Chords.Infer | src/chord/mod.rs:135-166 | `from_midi` gives `None` exactly on an empty input. |
| Chords.InferShape | src/chord/mod.rs:139-154 | The first note becomes the bass exactly when it is not the root. The flag is set exactly when a bass is. The unison is always stored. The stored set is {0} plus each later note's distance above the first note. |
| Chords.FromMidi | src/chord/mod.rs:135-166 | The loop computes exactly `Infer`. |
| Chords.FromIter | src/chord/mod.rs:204-211 | Collecting notes never gives an inversion: no bass, no flag. The root is the first note, or MIDI 0 when there is none. The chord is `from_midi` of the root followed by the notes. |
| Chords.OffsetsFromFirst | src/chord/mod.rs:151-154 | On ascending notes, the distances above the first note are ascending and start at the unison. |
| Chords.InferFlattensToInput | src/chord/mod.rs:125-134 | On ascending notes, `from_midi` stores exactly their distances above the first, and flattening gives the notes back. |
| Chords.InferStoresOffsets | src/chord/mod.rs:151-154 | On ascending notes, the lowest note is the first note and the stored offsets are the distances above it. |
| Chords.FlattenOffsets | src/chord/mod.rs:213-224 | A chord that stores the distances of some notes above the first flattens to those notes. |
| Chords.FirstInversionDocTest | src/chord/mod.rs:125-134 | E3, G3, C4 with root C4 gives bass E3, the inversion flag and offsets [0, 3, 8], and flattens back to E3, G3, C4. |
| Chords.MajorNinthVoicing | src/chord/mod.rs:105-115 | A major triad with `major_seventh` and `major_ninth` holds [0, 4, 7, 11, 14] and sounds root, third, fifth, seventh and ninth. |
| Chords.MajorNinthDocTest | src/chord/mod.rs:70-86 | `major(C4).major_seventh().major_ninth()` sounds C4, E4, G4, B4, D5. |
| Chords.SoundsOffsets | src/chord/mod.rs:151-154 | A chord storing {0} plus the distances of later notes sounds exactly the given notes. |
| Chords.InferSoundsInput | src/chord/mod.rs:135-166 | `from_midi` keeps every given note and adds none; only order and repetition are lost. |
| Chords.Distances | src/chord/mod.rs:175-179 | Each offset is mapped to `abs_diff(lowest + offset, root)`. |
| Chords.RootIntervals | src/chord/mod.rs:173-181 | `intervals()` holds exactly the measured distances. |
| Chords.RootIntervalsMeasureNotes | src/chord/mod.rs:173-181 | A distance is in `intervals()` exactly when some note of the chord lies that far from the root. |
| Chords.RootSounding | src/chord/mod.rs:173-181 | If `abs_diff` is zero only between equal notes, the unison is in `intervals()` exactly when the root sounds. |
| Chords.RootPositionKeepsOffsets | src/chord/mod.rs:173-181 | In root position, within an octave, and with `abs_diff` measuring upward, `intervals()` equals the stored offsets. |
| ChordDisplay.TokenRules | src/chord/mod.rs:236-267 | At most one quality: `m` beats `sus2`, which beats `sus4`. `b5` appears exactly with the tritone. At most one seventh, `7` beating `maj7`. `/bass` appears whenever there is a bass. `(no root)` appears exactly without the unison. `(no5)` appears exactly without a tritone or perfect fifth. |
| ChordDisplay.Symbol | src/chord/mod.rs:226-270 | The symbol is the root's name and then the tokens in fixed order, all tested on `intervals()`. |
| ChordDisplay.Fmt | src/chord/mod.rs:226-270 | The step-by-step writer produces exactly the symbol. |
| ChordDisplay.WriteTokens | src/chord/mod.rs:236-267 | The chain of tests with the `has_fifth` flag appends exactly the tokens of the symbol. |
| ChordDisplay.RootPositionSymbol | src/chord/mod.rs:173-181 | A root-position chord within an octave is spelled from its own offsets. |
| ChordDisplay.SpelledPlain | src/chord/mod.rs:257-267 | With the unison, a fifth and no bass, no bass, `(no root)` or `(no5)` token is written. |
| ChordDisplay.MajorSymbol | src/chord/mod.rs:87-92 | `major(root)` is spelled as the root's name alone. |
| ChordDisplay.MinorSymbol | src/chord/mod.rs:94-99 | `minor(root)` is spelled name + "m". |
| ChordDisplay.SeventhSymbol | src/chord/mod.rs:101-103 | `seventh(root)` is spelled name + "7". |
| ChordDisplay.MinorSeventhSymbol | src/chord/mod.rs:109-111 | `minor_seventh(root)` is spelled name + "m7". |
| ChordDisplay.HalfDiminishedSymbol | src/chord/mod.rs:117-123 | `half_diminished(root)` is spelled name + "mb57". |
| ChordDisplay.MajorSeventhSymbol | src/chord/mod.rs:105-107 | `major(root).major_seventh()` is spelled name + "maj7". |
| ChordDisplay.FirstInversionRelative | src/chord/mod.rs:173-181 | The first inversion E3, G3, C4 of C4 measures, from C4, as the distances of E3, G3 and C4. |
| ChordDisplay.FromMidiSymbolByPitchClass | src/chord/mod.rs:125-134 | If `abs_diff` measures pitch classes upward, the doc-test chord is spelled "C4/E3", as the doc-test expects. |
| ChordDisplay.FromMidiSymbolByDistance | src/chord/mod.rs:125-134 | If `abs_diff` is the plain distance, the same chord is spelled "C4sus4/E3(no5)". |
| ChordParse.Parse | src/chord/mod.rs:276-331 | An empty symbol, or one whose first character is not a letter, panics. A chord that is read has no bass and no inversion. |
| ChordParse.FromStr | src/chord/mod.rs:276-331 | The character-by-character reader computes exactly `Parse`, including the `m` step of mod.rs:303-309 (the function `QualityOf`: an `m` gives the minor triad and is consumed, anything else gives the major triad and is left for the loop). |
| ChordParse.ReadAccidental | src/chord/mod.rs:280-301 | Reading the accidental after the letter gives `AccidentalOf` (`bb`, `b`, `##`, `#` or none, with one character of lookahead, the longer spelling first) and leaves the lookahead on the next character. |
| ChordParse.TrailingLoop | src/chord/mod.rs:311-328 | The loop computes exactly `Trailing`: `7` pushes 10, `b5` pushes 6, a `b` at the end stops the loop, and any other character panics. |
| ChordParse.TrailingAccepts | src/chord/mod.rs:311-327 | The loop finishes exactly on tails where every character is a `7`, a `b` followed by `5` or ending the text, or a `5` after a `b`. On any other tail it panics. |
| ChordParse.TrailingAdds | src/chord/mod.rs:311-327 | A finished loop adds the minor seventh exactly when a `7` was read and the tritone exactly when a `5` was, and nothing else. |
| ChordParse.ParseAccepts | src/chord/mod.rs:276-331 | A symbol is read exactly when it is non-empty, starts with a known letter, and has a well-formed tail. |
| ChordParse.ParseShape | src/chord/mod.rs:276-331 | A read chord sits at octave four on the letter with its accidental. It holds the minor triad after an `m` and the major triad otherwise, plus what the tail adds. |
| ChordParse.ReadsAccidental | src/chord/mod.rs:280-300 | A written accidental followed by a character that cannot extend it is read back exactly. |
| ChordParse.AccidentalWritten | src/chord/mod.rs:280-300 | Conversely, whatever accidental is read is written there, and what follows it cannot extend it. |
| ChordParse.TrailingReads | src/chord/mod.rs:311-327 | Written `7` and `b5` tokens, with an optional final lone `b`, are read as the pushes of their intervals in order. |
| ChordParse.ParseWritten | src/chord/mod.rs:276-331 | Grammar round trip: a written symbol whose accidental is not run on is read as its triad at octave four, with each token's interval pushed in order. |
| ChordParse.ParsesDDoubleSharpMajor | src/chord/mod.rs:341-345 | "D##" is read as `major(E4)`, given that D double sharp at octave four is E4. |
| ChordParse.ParsesCMinorSeven | src/chord/mod.rs:347-354 | "Cm7" is read as `minor_seventh(C4)`. |
| ChordParse.OctaveDigitAborts | src/chord/mod.rs:280-322 | A letter followed by a digit other than `7` panics whatever follows: the digit is no accidental, no `m` and no token. |
| ChordParse.SymbolWithOctaveDoesNotParse | src/chord/mod.rs:228 | A symbol written by the formatter cannot be read back when the root's name has a digit other than `7` after its letter, as "C4" does. |
| ChordDisplay.SymbolBeginsWithRootName | src/chord/mod.rs:228 | Every symbol begins with the root's full name. |
| ChordParse.FlatFiveAfterLetterAborts | src/chord/mod.rs:280-322 | A letter followed by `b5` panics whatever follows: the `b` is taken as a flat, and the `5` is then unexpected. So "Cb5" aborts. |
| ChordParse.LoneFlatIgnored | src/chord/mod.rs:314-319 | A lone final `b` is accepted and adds nothing: "Cm7b" reads as "Cm7". |
| ChordParse.MinorSevenFlatFiveKeepsFifth | src/chord/mod.rs:314-321 | `b5` adds the tritone beside the perfect fifth, not in its place. So "Cm7b5" holds {0, 3, 6, 7, 10} and is not `half_diminished(C4)`. |
| Pitches.PitchClassesBelow | src/chord/mod.rs:125-134 | Measured by pitch class from C4, E3 and G3 lie 4 and 7 semitones up. |

## Left out

- The pitch library is not part of this model: `Natural::try_from`,
  `MidiNote::new`, `MidiNote`'s display and `abs_diff`. These functions are a
  parameter. Lemmas that depend on how they behave state that behaviour as a
  hypothesis.
  - The "C4/E3" doc-test holds only if `abs_diff` measures pitch classes.
  - With a plain distance, the same chord is spelled "C4sus4/E3(no5)".
  - Both versions are proved.
- `MidiNote - MidiNote` is not shown, so `from_midi` and `FromIterator` require
  every note to be at or above the first one (`NoneBelowFirst`).
- Chords.FromMidi: does not model a lazily consumed iterator. The notes arrive
  as a sequence.
- Chords.Offsets: the offsets are unbounded naturals. The `u8` width of
  `Interval` is modelled only in `Intervals` (`Add` aborts past 255).
- Intervals.Add: follows checked `u8` addition, which panics on overflow as a
  build with overflow checks (a debug build) does. A release build wraps
  modulo 256 instead, so `Interval(200) + Interval(100)` would give
  `Interval(44)` there, where the model gives `Abort`. The wrap is not
  modelled.
- `MAJOR_NINTH` is not defined in `src/interval.rs`. It is taken as 14, the
  value the `major_ninth` doc-test needs.
- `into_iter` returns `chord::iter::Iter`, whose code is not part of this
  model. It is taken to behave like `MidiNotes`, since it is built from the
  same two fields.
- ChordDisplay.Fmt: does not model the `fmt::Result` error path of the
  `Formatter`. Writing is string concatenation. `intervals()` is computed once,
  where the source recomputes the same value before each test.
- `Display for MidiNote` inside the symbol is `lib.name`, with no format of
  its own.
- Formatting and parsing are not inverses. The formatter writes the root's
  full name, octave included ("C4"), and the parser panics on that digit
  (`todo!()` at src/chord/mod.rs:322). So no symbol written with such a
  name can be read back; `SymbolWithOctaveDoesNotParse` states this. No
  display-then-parse round trip is claimed.
- ChordParse.Parse: characters are Dafny `char`s, with no case folding or
  Unicode handling. The result is an `Outcome` because `from_str` never
  returns `Err`. Every failure is a panic.
- `dbg!` calls (diagnostics only), the serde derive, `chords()` and the
  `Chords` iterator (their doc-test is commented out), the unit test `f` (it
  asserts nothing), and the SVG rendering module (floating-point layout) are
  not modelled.
