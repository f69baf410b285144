/**
 * The pitch library the chord code calls into. Its arithmetic and its
 * display are not part of this model: a MIDI note is a natural number, and
 * the four operations the chord code uses are supplied as a parameter.
 */
module Pitches {
  import opened Outcomes

  /** A MIDI note number. `note + interval` is addition and `note - lowest` subtraction. */
  type MidiNote = nat

  /** The seven note letters. */
  datatype Natural = A | B | C | D | E | F | G

  /** The accidental written after the letter of a chord symbol. */
  datatype Accidental = Unaltered | Flat | DoubleFlat | Sharp | DoubleSharp

  /**
   * The collaborators whose code is not shown:
   *  - natural: `Natural::try_from(char)`;
   *  - atOctaveFour: `MidiNote::new(pitch, Octave::FOUR)` where the pitch is the
   *    letter with the accidental applied (`Note::flat(natural).into()` and so on);
   *  - name: `Display for MidiNote`;
   *  - absDiff: `MidiNote::abs_diff`, the interval from the second note to the first.
   */
  datatype PitchLibrary = PitchLibrary(
    natural: char -> Option<Natural>,
    atOctaveFour: (Natural, Accidental) -> MidiNote,
    name: MidiNote -> string,
    absDiff: (MidiNote, MidiNote) -> nat)

  /** `abs_diff` measures a note less than an octave above another as their difference. */
  ghost predicate MeasuresUpward(absDiff: (MidiNote, MidiNote) -> nat) {
    forall n: MidiNote, m: MidiNote :: m <= n < m + 12 ==> absDiff(n, m) == n - m
  }

  /** `abs_diff` is zero only between equal notes. */
  ghost predicate ZeroOnlyAtUnison(absDiff: (MidiNote, MidiNote) -> nat) {
    forall n: MidiNote, m: MidiNote :: absDiff(n, m) == 0 <==> n == m
  }

  /** The plain distance in semitones between two notes. */
  function AbsoluteDistance(n: MidiNote, m: MidiNote): nat {
    if n >= m then n - m else m - n
  }

  /** The distance from the second note up to the pitch class of the first, below an octave. */
  function PitchClassDistance(n: MidiNote, m: MidiNote): nat {
    (n - m) % 12
  }

  /** Both readings of `abs_diff` measure small upward intervals the same way. */
  lemma DistancesMeasureUpward()
    ensures MeasuresUpward(AbsoluteDistance)
    ensures MeasuresUpward(PitchClassDistance)
    ensures ZeroOnlyAtUnison(AbsoluteDistance)
  {
  }

  /** Seen from C4, the notes E3 and G3 a minor sixth and a fourth below lie a major third and a fifth above, by pitch class. */
  lemma PitchClassesBelow(c4: MidiNote)
    requires c4 >= 8
    ensures PitchClassDistance(c4 - 8, c4) == 4
    ensures PitchClassDistance(c4 - 5, c4) == 7
    ensures PitchClassDistance(c4, c4) == 0
  {
    assert (c4 - 8) - c4 == -8 && (c4 - 5) - c4 == -5;
  }
}
