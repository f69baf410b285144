/** A musical interval: a number of semitones held in one byte (src/interval.rs). */
module Intervals {
  import opened Outcomes

  /** The values of Rust's `u8`. */
  type U8 = x: int | 0 <= x < 256

  /** The `Interval` newtype over a `u8` semitone count. */
  datatype Interval = Interval(semitones: U8)

  const UNISON: Interval := Interval(0)
  const MINOR_SECOND: Interval := Interval(1)
  const MAJOR_SECOND: Interval := Interval(2)
  const MINOR_THIRD: Interval := Interval(3)
  const MAJOR_THIRD: Interval := Interval(4)
  const PERFECT_FOURTH: Interval := Interval(5)
  const TRITONE: Interval := Interval(6)
  const PERFECT_FIFTH: Interval := Interval(7)
  const MINOR_SIXTH: Interval := Interval(8)
  const MAJOR_SIXTH: Interval := Interval(9)
  const MINOR_SEVENTH: Interval := Interval(10)
  const MAJOR_SEVENTH: Interval := Interval(11)
  const THIRTEENTH: Interval := Interval(21)
  /** Used by the chord builders; its value is fixed by their doc-test (a major ninth is 14 semitones). */
  const MAJOR_NINTH: Interval := Interval(14)

  /** The twelve simple intervals, in the order they are declared. */
  const SIMPLE: seq<Interval> := [UNISON, MINOR_SECOND, MAJOR_SECOND, MINOR_THIRD, MAJOR_THIRD,
    PERFECT_FOURTH, TRITONE, PERFECT_FIFTH, MINOR_SIXTH, MAJOR_SIXTH, MINOR_SEVENTH, MAJOR_SEVENTH]

  /** The k-th simple constant is k semitones wide; the thirteenth is 21. */
  lemma ConstantValues()
    ensures |SIMPLE| == 12
    ensures forall k :: 0 <= k < |SIMPLE| ==> SIMPLE[k].semitones == k
    ensures THIRTEENTH.semitones == 21
  {
  }

  /** `Interval::new`. */
  function New(semitones: U8): Interval {
    Interval(semitones)
  }

  /** `Interval::semitones`. */
  function Semitones(i: Interval): U8 {
    i.semitones
  }

  /** `From<u8> for Interval`. */
  function FromU8(b: U8): Interval {
    New(b)
  }

  /** `From<Interval> for u8`. */
  function ToU8(i: Interval): U8 {
    Semitones(i)
  }

  lemma NewSemitonesInverse(b: U8, i: Interval)
    ensures Semitones(New(b)) == b
    ensures New(Semitones(i)) == i
  {
  }

  lemma U8ConversionsInverse(b: U8, i: Interval)
    ensures ToU8(FromU8(b)) == b
    ensures FromU8(ToU8(i)) == i
  {
  }

  /** The derived `PartialOrd`/`Ord`: the single field is compared. */
  predicate Le(a: Interval, b: Interval) {
    a.semitones <= b.semitones
  }

  /** Derived equality and ordering are those of the semitone count, and the order is total. */
  lemma OrderIsSemitoneOrder(a: Interval, b: Interval, c: Interval)
    ensures a == b <==> Semitones(a) == Semitones(b)
    ensures Le(a, b) <==> Semitones(a) <= Semitones(b)
    ensures Le(a, b) || Le(b, a)
    ensures Le(a, b) && Le(b, a) ==> a == b
    ensures Le(a, b) && Le(b, c) ==> Le(a, c)
  {
  }

  /** `Add for Interval`: the `u8` addition panics when the sum does not fit in a byte. */
  function Add(a: Interval, b: Interval): (r: Outcome<Interval>)
    ensures r.Done? <==> Semitones(a) + Semitones(b) <= 255
    ensures r.Done? ==> Semitones(r.value) == Semitones(a) + Semitones(b)
  {
    var sum := a.semitones + b.semitones;
    if sum < 256 then Done(New(sum)) else Abort
  }

  /** Addition of a possibly aborted left operand, as in `(a + b) + c`. */
  function AddAfter(o: Outcome<Interval>, b: Interval): Outcome<Interval> {
    match o
    case Done(a) => Add(a, b)
    case Abort => Abort
  }

  lemma AddCommutative(a: Interval, b: Interval)
    ensures Add(a, b) == Add(b, a)
  {
  }

  lemma AddUnisonIdentity(a: Interval)
    ensures Add(a, UNISON) == Done(a)
    ensures Add(UNISON, a) == Done(a)
  {
  }

  /** `(a + b) + c` and `a + (b + c)` agree, and one panics exactly when the other does. */
  lemma AddAssociative(a: Interval, b: Interval, c: Interval)
    ensures AddAfter(Add(a, b), c) == (match Add(b, c) case Done(bc) => Add(a, bc) case Abort => Abort)
  {
  }

  /** `Display for Interval`: four intervals have a name, every other one reaches `todo!()`. */
  function Display(i: Interval): (r: Outcome<string>)
    ensures r == Done("1") <==> i == UNISON
    ensures r == Done("3") <==> i == MAJOR_THIRD
    ensures r == Done("5") <==> i == PERFECT_FIFTH
    ensures r == Done("m7") <==> i == MINOR_SEVENTH
    ensures r == Abort <==> i !in {UNISON, MAJOR_THIRD, PERFECT_FIFTH, MINOR_SEVENTH}
  {
    if i == UNISON then Done("1")
    else if i == MAJOR_THIRD then Done("3")
    else if i == PERFECT_FIFTH then Done("5")
    else if i == MINOR_SEVENTH then Done("m7")
    else Abort
  }
}
