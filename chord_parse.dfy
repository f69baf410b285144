/**
 * `FromStr for Chord` (src/chord/mod.rs): a hand-written reader for chord
 * symbols. A letter, an optional `b`, `bb`, `#` or `##`, an optional `m`,
 * then any number of `7` and `b5` tokens. Every failure is a panic
 * (`unwrap` on a missing or unknown letter, `todo!()` on an unexpected
 * character), so the result is an `Outcome` and never an `Err`.
 */
module ChordParse {
  import opened Outcomes
  import opened Pitches
  import opened IntervalSets
  import opened Chords
  import I = Intervals
  import ChordDisplay

  /** What `chars.next()` returns once `i` characters have been taken. */
  function At(s: string, i: nat): Option<char> {
    if i < |s| then Some(s[i]) else None
  }

  /**
   * The accidental after the letter, and the index of the character read
   * next (the `next` lookahead).
   */
  function AccidentalOf(s: string): (Accidental, nat) {
    if At(s, 1) == Some('b') then
      if At(s, 2) == Some('b') then (DoubleFlat, 3) else (Flat, 2)
    else if At(s, 1) == Some('#') then
      if At(s, 2) == Some('#') then (DoubleSharp, 3) else (Sharp, 2)
    else (Unaltered, 1)
  }

  /** An `m` at index `i` selects the minor triad and is consumed; anything else selects the major triad. */
  function QualityOf(s: string, i: nat, root: MidiNote): (Chord, nat) {
    if At(s, i) == Some('m') then (Minor(root), i + 1) else (Major(root), i)
  }

  /**
   * The trailing loop from the lookahead at index `i` on: `7` pushes the
   * minor seventh, `b5` the tritone, a `b` with nothing after it ends the
   * loop, and anything else panics.
   */
  function Trailing(s: string, i: nat, acc: IntervalSet): Outcome<IntervalSet>
    decreases |s| - i
  {
    if i >= |s| then Done(acc)
    else if s[i] == 'b' then
      if i + 1 == |s| then Done(acc)
      else if s[i + 1] == '5' then Trailing(s, i + 2, Push(acc, I.TRITONE.semitones))
      else Abort
    else if s[i] == '7' then Trailing(s, i + 1, Push(acc, I.MINOR_SEVENTH.semitones))
    else Abort
  }

  /** The whole of `from_str`. */
  function Parse(lib: PitchLibrary, s: string): (r: Outcome<Chord>)
    ensures (|s| == 0 || lib.natural(s[0]).None?) ==> r == Abort
    ensures r.Done? ==> r.value.bass == None && !r.value.isInversion
  {
    if |s| == 0 then Abort
    else match lib.natural(s[0])
      case None => Abort
      case Some(n) =>
        var (acc, i) := AccidentalOf(s);
        var (c, j) := QualityOf(s, i, lib.atOctaveFour(n, acc));
        match Trailing(s, j, c.intervals)
        case Abort => Abort
        case Done(iv) => Done(c.(intervals := iv))
  }

  // ---------------------------------------------------------------- the code as written

  /** `from_str` step by step: a character iterator with a one-character lookahead. */
  method FromStr(lib: PitchLibrary, s: string) returns (r: Outcome<Chord>)
    ensures r == Parse(lib, s)
  {
    var pos := 0;
    var first := At(s, pos);
    pos := pos + 1;
    if first.None? {
      return Abort;
    }
    var natural := lib.natural(first.value);
    if natural.None? {
      return Abort;
    }
    var accidental, next;
    accidental, next, pos := ReadAccidental(s);
    var root := lib.atOctaveFour(natural.value, accidental);
    var chord;
    if next == Some('m') {
      next := At(s, pos);
      pos := pos + 1;
      chord := Minor(root);
    } else {
      chord := Major(root);
    }
    assert (chord, pos - 1) == QualityOf(s, AccidentalOf(s).1, root);
    var intervals := TrailingLoop(s, pos, next, chord.intervals);
    match intervals
    case Abort =>
      r := Abort;
    case Done(iv) =>
      r := Done(chord.(intervals := iv));
  }

  /** The accidental after the letter: one more character read, and one or two more after a `b` or `#`. */
  method ReadAccidental(s: string) returns (accidental: Accidental, next: Option<char>, pos: nat)
    requires |s| >= 1
    ensures (accidental, pos - 1) == AccidentalOf(s)
    ensures 1 <= pos <= |s| + 1 && next == At(s, pos - 1)
  {
    pos := 1;
    next := At(s, pos);
    pos := pos + 1;
    accidental := Unaltered;
    if next == Some('b') {
      next := At(s, pos);
      pos := pos + 1;
      if next == Some('b') {
        next := At(s, pos);
        pos := pos + 1;
        accidental := DoubleFlat;
      } else {
        accidental := Flat;
      }
    } else if next == Some('#') {
      next := At(s, pos);
      pos := pos + 1;
      if next == Some('#') {
        next := At(s, pos);
        pos := pos + 1;
        accidental := DoubleSharp;
      } else {
        accidental := Sharp;
      }
    }
  }

  /**
   * The trailing loop of `from_str`, pushing into the chord's interval set in
   * place; `pos` characters have been taken and `next` is the lookahead.
   */
  method TrailingLoop(s: string, pos0: nat, next0: Option<char>, acc0: IntervalSet) returns (r: Outcome<IntervalSet>)
    requires 1 <= pos0 <= |s| + 1 && next0 == At(s, pos0 - 1)
    ensures r == Trailing(s, pos0 - 1, acc0)
  {
    var pos, next, intervals := pos0, next0, acc0;
    while next.Some?
      invariant 1 <= pos <= |s| + 1
      invariant next == At(s, pos - 1)
      invariant Trailing(s, pos - 1, intervals) == Trailing(s, pos0 - 1, acc0)
      decreases |s| + 1 - pos
    {
      var c := next.value;
      if c == 'b' {
        var after := At(s, pos);
        pos := pos + 1;
        if after.None? {
          break;
        }
        if after.value == '5' {
          intervals := Push(intervals, I.TRITONE.semitones);
        } else {
          return Abort;
        }
      } else if c == '7' {
        intervals := Push(intervals, I.MINOR_SEVENTH.semitones);
      } else {
        return Abort;
      }
      next := At(s, pos);
      pos := pos + 1;
    }
    r := Done(intervals);
  }

  // ---------------------------------------------------------------- what the trailing loop accepts

  /**
   * A character of a tail starting at `i` that the loop lets pass: a `7`, a
   * `b` that ends the text or is followed by `5`, or a `5` right after a `b`.
   */
  ghost predicate TokenChar(s: string, i: nat, k: nat)
    requires i <= k < |s|
  {
    s[k] == '7' || (s[k] == 'b' && (k + 1 == |s| || s[k + 1] == '5')) || (s[k] == '5' && i < k && s[k - 1] == 'b')
  }

  ghost predicate WellFormedTail(s: string, i: nat) {
    forall k :: i <= k < |s| ==> TokenChar(s, i, k)
  }

  /**
   * Once the first `d` characters of a tail pass, the whole tail is well formed
   * exactly when the rest is, provided no `b` is cut off from its `5`.
   */
  lemma TailShift(s: string, i: nat, d: nat)
    requires 1 <= d && i + d <= |s| && s[i + d - 1] != 'b'
    requires forall k :: i <= k < i + d ==> TokenChar(s, i, k)
    ensures WellFormedTail(s, i) <==> WellFormedTail(s, i + d)
  {
    var j := i + d;
    if WellFormedTail(s, j) {
      forall k | i <= k < |s| ensures TokenChar(s, i, k) {
        if k >= j {
          assert TokenChar(s, j, k);
        }
      }
    }
    if WellFormedTail(s, i) {
      forall k | j <= k < |s| ensures TokenChar(s, j, k) {
        assert TokenChar(s, i, k);
      }
    }
  }

  /** The trailing loop finishes exactly on the well-formed tails; on every other one it panics. */
  lemma {:induction false} TrailingAccepts(s: string, i: nat, acc: IntervalSet)
    ensures Trailing(s, i, acc).Done? <==> WellFormedTail(s, i)
    decreases |s| - i
  {
    if i < |s| {
      if s[i] == 'b' {
        if i + 1 == |s| {
          assert TokenChar(s, i, i);
        } else if s[i + 1] == '5' {
          TrailingAccepts(s, i + 2, Push(acc, I.TRITONE.semitones));
          assert TokenChar(s, i, i) && TokenChar(s, i, i + 1);
          TailShift(s, i, 2);
        } else {
          assert !TokenChar(s, i, i);
        }
      } else if s[i] == '7' {
        TrailingAccepts(s, i + 1, Push(acc, I.MINOR_SEVENTH.semitones));
        assert TokenChar(s, i, i);
        TailShift(s, i, 1);
      } else {
        assert !TokenChar(s, i, i);
      }
    }
  }

  /** Some character from index `i` on is `ch`. */
  ghost predicate Occurs(s: string, i: nat, ch: char) {
    exists k :: i <= k < |s| && s[k] == ch
  }

  /** Skipping the characters before `j` that are not `ch` does not change whether `ch` occurs. */
  lemma OccursSkip(s: string, i: nat, j: nat, ch: char)
    requires i <= j && forall k :: i <= k < j && k < |s| ==> s[k] != ch
    ensures Occurs(s, i, ch) == Occurs(s, j, ch)
  {
    if Occurs(s, i, ch) {
      var k :| i <= k < |s| && s[k] == ch;
      assert j <= k;
    }
  }

  /** The offsets the tokens from index `i` on call for: the minor seventh for a `7`, the tritone for a `5`. */
  ghost function Gained(s: string, i: nat): set<nat> {
    (if Occurs(s, i, '7') then {10} else {}) + (if Occurs(s, i, '5') then {6} else {})
  }

  lemma GainedSeventh(s: string, i: nat)
    requires i < |s| && s[i] == '7'
    ensures Gained(s, i) == {10} + Gained(s, i + 1)
  {
    OccursSkip(s, i, i + 1, '5');
  }

  lemma GainedFlatFifth(s: string, i: nat)
    requires i + 1 < |s| && s[i] == 'b' && s[i + 1] == '5'
    ensures Gained(s, i) == {6} + Gained(s, i + 2)
  {
    OccursSkip(s, i, i + 2, '7');
    assert Occurs(s, i, '5') by {
      assert s[i + 1] == '5';
    }
  }

  lemma GainedNothing(s: string, i: nat)
    requires i >= |s| || (i + 1 == |s| && s[i] == 'b')
    ensures Gained(s, i) == {}
  {
    if i < |s| {
      OccursSkip(s, i, |s|, '7');
      OccursSkip(s, i, |s|, '5');
    }
  }

  /** A finished loop has added the minor seventh exactly when a `7` was read, and the tritone exactly when a `5` was. */
  lemma {:induction false} TrailingAdds(s: string, i: nat, acc: IntervalSet)
    requires Trailing(s, i, acc).Done?
    ensures Elements(Trailing(s, i, acc).value) == Elements(acc) + Gained(s, i)
    decreases |s| - i
  {
    if i >= |s| || (i + 1 == |s| && s[i] == 'b') {
      GainedNothing(s, i);
    } else if s[i] == 'b' {
      var pushed := Push(acc, I.TRITONE.semitones);
      assert Trailing(s, i, acc) == Trailing(s, i + 2, pushed);
      TrailingAdds(s, i + 2, pushed);
      GainedFlatFifth(s, i);
      assert Elements(pushed) == Elements(acc) + {6};
    } else {
      var pushed := Push(acc, I.MINOR_SEVENTH.semitones);
      assert Trailing(s, i, acc) == Trailing(s, i + 1, pushed);
      TrailingAdds(s, i + 1, pushed);
      GainedSeventh(s, i);
      assert Elements(pushed) == Elements(acc) + {10};
    }
  }

  // ---------------------------------------------------------------- the whole symbol

  /** Where the trailing tokens start: after the letter, the accidental and an optional `m`. */
  function TailStart(s: string): nat {
    var i := AccidentalOf(s).1;
    if At(s, i) == Some('m') then i + 1 else i
  }

  /** A symbol is read exactly when it starts with a known letter and its tail is well formed. */
  lemma ParseAccepts(lib: PitchLibrary, s: string)
    ensures Parse(lib, s).Done? <==> |s| > 0 && lib.natural(s[0]).Some? && WellFormedTail(s, TailStart(s))
  {
    if |s| > 0 && lib.natural(s[0]).Some? {
      var root := lib.atOctaveFour(lib.natural(s[0]).value, AccidentalOf(s).0);
      var triad := if At(s, AccidentalOf(s).1) == Some('m') then Minor(root) else Major(root);
      assert QualityOf(s, AccidentalOf(s).1, root) == (triad, TailStart(s));
      TrailingAccepts(s, TailStart(s), triad.intervals);
      if Parse(lib, s).Done? {
        ParseFromHead(lib, s, Parse(lib, s).value.intervals);
      }
    }
  }

  /**
   * A chord read from a symbol sits at octave four on the letter with its
   * accidental, holds the minor triad after an `m` and the major triad
   * otherwise, and gains the minor seventh and the tritone as its tail asks.
   */
  lemma ParseShape(lib: PitchLibrary, s: string)
    requires Parse(lib, s).Done?
    ensures |s| > 0 && lib.natural(s[0]).Some?
    ensures Parse(lib, s).value.root == lib.atOctaveFour(lib.natural(s[0]).value, AccidentalOf(s).0)
    ensures Elements(Parse(lib, s).value.intervals)
         == (if At(s, AccidentalOf(s).1) == Some('m') then {0, 3, 7} else {0, 4, 7}) + Gained(s, TailStart(s))
  {
    var (acc, i) := AccidentalOf(s);
    var (c, j) := QualityOf(s, i, lib.atOctaveFour(lib.natural(s[0]).value, acc));
    TrailingAdds(s, j, c.intervals);
  }

  /** How each accidental is written after the letter. */
  function Spelling(a: Accidental): string {
    match a
    case Unaltered => ""
    case Flat => "b"
    case DoubleFlat => "bb"
    case Sharp => "#"
    case DoubleSharp => "##"
  }

  /** What follows the accidental cannot be read as more of it. */
  ghost predicate Separates(a: Accidental, rest: string) {
    rest == [] || match a
      case Unaltered => rest[0] != 'b' && rest[0] != '#'
      case Flat => rest[0] != 'b'
      case Sharp => rest[0] != '#'
      case _ => true
  }

  /** The accidental reader reads back a written accidental that is not run on. */
  lemma ReadsAccidental(x: char, a: Accidental, rest: string)
    requires Separates(a, rest)
    ensures AccidentalOf([x] + Spelling(a) + rest) == (a, 1 + |Spelling(a)|)
  {
    var s := [x] + Spelling(a) + rest;
    assert s[1..] == Spelling(a) + rest;
    if 1 + |Spelling(a)| < |s| {
      assert s[1 + |Spelling(a)|] == rest[0];
    }
  }

  /** Conversely, whatever the reader takes is a written accidental, and what it leaves does not run on. */
  lemma AccidentalWritten(s: string)
    requires |s| > 0
    ensures 1 + |Spelling(AccidentalOf(s).0)| == AccidentalOf(s).1 <= |s|
    ensures s[1..AccidentalOf(s).1] == Spelling(AccidentalOf(s).0)
    ensures Separates(AccidentalOf(s).0, s[AccidentalOf(s).1..])
  {
  }

  /** The tokens of the trailing loop. */
  datatype Token = SevenToken | FlatFiveToken

  function Written(ks: seq<Token>): string
    decreases |ks|
  {
    if ks == [] then ""
    else (match ks[0] case SevenToken => "7" case FlatFiveToken => "b5") + Written(ks[1..])
  }

  /** The interval a token pushes. */
  function TokenInterval(k: Token): nat {
    match k
    case SevenToken => I.MINOR_SEVENTH.semitones
    case FlatFiveToken => I.TRITONE.semitones
  }

  function Pushed(ks: seq<Token>): seq<nat>
    decreases |ks|
  {
    if ks == [] then [] else [TokenInterval(ks[0])] + Pushed(ks[1..])
  }

  /** The trailing loop reads written tokens, and a final lone `b`, as the pushes of those tokens in order. */
  lemma {:induction false} TrailingReads(s: string, i: nat, ks: seq<Token>, lone: bool, acc: IntervalSet)
    requires i <= |s| && s[i..] == Written(ks) + (if lone then "b" else "")
    ensures Trailing(s, i, acc) == Done(Extend(acc, Pushed(ks)))
    decreases |ks|
  {
    if ks == [] {
      assert |s| == i + (if lone then 1 else 0);
      if lone {
        assert s[i] == s[i..][0];
      }
    } else {
      var rest := Written(ks[1..]) + (if lone then "b" else "");
      var xs := Pushed(ks);
      assert xs[1..] == Pushed(ks[1..]);
      if ks[0] == SevenToken {
        assert s[i..] == "7" + rest;
        assert s[i] == s[i..][0];
        assert s[i + 1..] == s[i..][1..];
        TrailingReads(s, i + 1, ks[1..], lone, Push(acc, xs[0]));
      } else {
        assert s[i..] == "b5" + rest;
        assert s[i] == s[i..][0] && s[i + 1] == s[i..][1];
        assert s[i + 2..] == s[i..][2..];
        TrailingReads(s, i + 2, ks[1..], lone, Push(acc, xs[0]));
      }
    }
  }

  /** What follows the accidental in a written symbol. */
  function Rest(minor: bool, ks: seq<Token>, lone: bool): string {
    (if minor then "m" else "") + Written(ks) + (if lone then "b" else "")
  }

  /** A symbol written from its parts: letter, accidental, optional `m`, tokens and an optional lone `b`. */
  function Text(x: char, a: Accidental, minor: bool, ks: seq<Token>, lone: bool): string {
    [x] + Spelling(a) + Rest(minor, ks, lone)
  }

  /** Written tokens never start with `m`. */
  lemma TokensStart(ks: seq<Token>, lone: bool)
    ensures Written(ks) + (if lone then "b" else "") == [] || (Written(ks) + (if lone then "b" else ""))[0] in {'7', 'b'}
  {
  }

  /** An `m` is read exactly when one is written before tokens that cannot start with `m`. */
  lemma ReadsQuality(s: string, i: nat, minor: bool, tail: string)
    requires i <= |s| && s[i..] == (if minor then "m" else "") + tail
    requires tail == [] || tail[0] != 'm'
    ensures (At(s, i) == Some('m')) == minor
    ensures (if minor then i + 1 else i) <= |s|
    ensures s[if minor then i + 1 else i..] == tail
  {
    if minor {
      assert s[i] == s[i..][0];
      assert s[i + 1..] == s[i..][1..];
    } else if i < |s| {
      assert s[i] == s[i..][0];
    }
  }

  /** Reading the head of a written symbol: the accidental, the `m`, and where the tokens start. */
  lemma TextHead(x: char, a: Accidental, minor: bool, ks: seq<Token>, lone: bool)
    requires Separates(a, Rest(minor, ks, lone))
    ensures Text(x, a, minor, ks, lone)[0] == x
    ensures AccidentalOf(Text(x, a, minor, ks, lone)) == (a, 1 + |Spelling(a)|)
    ensures (At(Text(x, a, minor, ks, lone), 1 + |Spelling(a)|) == Some('m')) == minor
    ensures TailStart(Text(x, a, minor, ks, lone)) <= |Text(x, a, minor, ks, lone)|
    ensures Text(x, a, minor, ks, lone)[TailStart(Text(x, a, minor, ks, lone))..] == Written(ks) + (if lone then "b" else "")
  {
    var s := Text(x, a, minor, ks, lone);
    var i := 1 + |Spelling(a)|;
    ReadsAccidental(x, a, Rest(minor, ks, lone));
    assert s[i..] == Rest(minor, ks, lone);
    TokensStart(ks, lone);
    ReadsQuality(s, i, minor, Written(ks) + (if lone then "b" else ""));
  }

  /** `from_str` on a symbol whose head has been read: the triad, then the trailing loop. */
  lemma ParseFromHead(lib: PitchLibrary, s: string, iv: IntervalSet)
    requires |s| > 0 && lib.natural(s[0]).Some?
    requires var root := lib.atOctaveFour(lib.natural(s[0]).value, AccidentalOf(s).0);
             var triad := if At(s, AccidentalOf(s).1) == Some('m') then Minor(root) else Major(root);
             Trailing(s, TailStart(s), triad.intervals) == Done(iv)
    ensures var root := lib.atOctaveFour(lib.natural(s[0]).value, AccidentalOf(s).0);
            var triad := if At(s, AccidentalOf(s).1) == Some('m') then Minor(root) else Major(root);
            Parse(lib, s) == Done(triad.(intervals := iv))
  {
  }

  /**
   * Round trip of the symbol grammar: a written symbol whose accidental is
   * not run on reads back as its triad at octave four with every token's
   * interval pushed in order.
   */
  lemma ParseWritten(lib: PitchLibrary, x: char, a: Accidental, minor: bool, ks: seq<Token>, lone: bool)
    requires lib.natural(x).Some?
    requires Separates(a, Rest(minor, ks, lone))
    ensures var root := lib.atOctaveFour(lib.natural(x).value, a);
            var triad := if minor then Minor(root) else Major(root);
            Parse(lib, Text(x, a, minor, ks, lone)) == Done(triad.(intervals := Extend(triad.intervals, Pushed(ks))))
  {
    var s := Text(x, a, minor, ks, lone);
    TextHead(x, a, minor, ks, lone);
    var root := lib.atOctaveFour(lib.natural(x).value, a);
    var triad := if minor then Minor(root) else Major(root);
    TrailingReads(s, TailStart(s), ks, lone, triad.intervals);
    ParseFromHead(lib, s, Extend(triad.intervals, Pushed(ks)));
  }

  // ---------------------------------------------------------------- the unit tests and the grammar's edge cases

  /** "D##" reads as the major triad on D double sharp at octave four, which the test expects to be E4. */
  lemma ParsesDDoubleSharpMajor(lib: PitchLibrary)
    requires lib.natural('D') == Some(D)
    requires lib.atOctaveFour(D, DoubleSharp) == lib.atOctaveFour(E, Unaltered)
    ensures Parse(lib, "D##") == Done(Major(lib.atOctaveFour(E, Unaltered)))
  {
    ParseWritten(lib, 'D', DoubleSharp, false, [], false);
    WrittenDDoubleSharp();
  }

  lemma WrittenDDoubleSharp()
    ensures Text('D', DoubleSharp, false, [], false) == "D##"
  {
  }

  lemma WrittenMinorSeven(lone: bool)
    ensures Text('C', Unaltered, true, [SevenToken], lone) == if lone then "Cm7b" else "Cm7"
  {
    assert Written([SevenToken]) == "7";
  }

  /** Reading one `7` is the `minor_seventh` builder's push. */
  lemma SevenTokenPushes(c: Chord)
    ensures c.(intervals := Extend(c.intervals, Pushed([SevenToken]))) == WithInterval(c, I.MINOR_SEVENTH)
  {
    assert Pushed([SevenToken]) == [I.MINOR_SEVENTH.semitones];
  }

  /** "Cm7" reads as `minor_seventh(C4)`. */
  lemma ParsesCMinorSeven(lib: PitchLibrary)
    requires lib.natural('C') == Some(C)
    ensures Parse(lib, "Cm7") == Done(MinorSeventh(lib.atOctaveFour(C, Unaltered)))
  {
    ParseWritten(lib, 'C', Unaltered, true, [SevenToken], false);
    WrittenMinorSeven(false);
    SevenTokenPushes(Minor(lib.atOctaveFour(C, Unaltered)));
  }

  /** A `b5` right after the letter is taken for the flat accidental, and the `5` then panics: "Cb5" aborts. */
  lemma FlatFiveAfterLetterAborts(lib: PitchLibrary, x: char, w: string)
    ensures Parse(lib, [x] + "b5" + w) == Abort
  {
    var s := [x] + "b5" + w;
    assert s[0] == x && s[1] == 'b' && s[2] == '5';
    ParseAccepts(lib, s);
    if lib.natural(x).Some? {
      assert AccidentalOf(s) == (Flat, 2);
      assert TailStart(s) == 2;
      assert !TokenChar(s, 2, 2);
    }
  }

  /**
   * A digit other than `7` right after the letter is no token: "C4" aborts,
   * whatever follows. (A `7` there is read as the seventh.)
   */
  lemma OctaveDigitAborts(lib: PitchLibrary, x: char, d: char, w: string)
    requires '0' <= d <= '9' && d != '7'
    ensures Parse(lib, [x, d] + w) == Abort
  {
    var s := [x, d] + w;
    assert s[0] == x && s[1] == d;
    assert d != 'b' && d != '#' && d != 'm';
    ParseAccepts(lib, s);
    if lib.natural(x).Some? {
      assert AccidentalOf(s) == (Unaltered, 1);
      assert TailStart(s) == 1;
      assert !TokenChar(s, 1, 1);
    }
  }

  /**
   * The formatter starts a symbol with the root's full name. When that name
   * carries its octave right after the letter, as "C4" does, the symbol it
   * writes cannot be read back (octave 7 aside, whose digit reads as a seventh).
   */
  lemma SymbolWithOctaveDoesNotParse(lib: PitchLibrary, c: Chord)
    requires |lib.name(c.root)| >= 2 && '0' <= lib.name(c.root)[1] <= '9' && lib.name(c.root)[1] != '7'
    ensures Parse(lib, ChordDisplay.Symbol(lib, c)) == Abort
  {
    var name := lib.name(c.root);
    var sym := ChordDisplay.Symbol(lib, c);
    ChordDisplay.SymbolBeginsWithRootName(lib, c);
    assert sym[0] == name[0] && sym[1] == name[1];
    assert sym == [name[0], name[1]] + sym[2..];
    OctaveDigitAborts(lib, name[0], name[1], sym[2..]);
  }

  /** A lone `b` after the last token is accepted and adds nothing. */
  lemma LoneFlatIgnored(lib: PitchLibrary)
    requires lib.natural('C').Some?
    ensures Parse(lib, "Cm7b") == Parse(lib, "Cm7")
  {
    ParseWritten(lib, 'C', Unaltered, true, [SevenToken], true);
    ParseWritten(lib, 'C', Unaltered, true, [SevenToken], false);
    WrittenMinorSeven(true);
    WrittenMinorSeven(false);
  }

  lemma WrittenMinorSevenFlatFive()
    ensures Text('C', Unaltered, true, [SevenToken, FlatFiveToken], false) == "Cm7b5"
    ensures Elements(Pushed([SevenToken, FlatFiveToken])) == {10, 6}
  {
    assert Written([SevenToken, FlatFiveToken]) == "7" + "b5";
    assert Pushed([SevenToken, FlatFiveToken]) == [10, 6];
  }

  /**
   * `b5` adds the tritone beside the perfect fifth rather than in its place,
   * so "Cm7b5" is not `half_diminished(C4)`: it keeps the fifth.
   */
  lemma MinorSevenFlatFiveKeepsFifth(lib: PitchLibrary)
    requires lib.natural('C').Some?
    ensures Parse(lib, "Cm7b5").Done?
    ensures Elements(Parse(lib, "Cm7b5").value.intervals) == {0, 3, 6, 7, 10}
    ensures Parse(lib, "Cm7b5") != Done(HalfDiminished(lib.atOctaveFour(lib.natural('C').value, Unaltered)))
  {
    ParseWritten(lib, 'C', Unaltered, true, [SevenToken, FlatFiveToken], false);
    WrittenMinorSevenFlatFive();
    var root := lib.atOctaveFour(lib.natural('C').value, Unaltered);
    MinorWithTritone(Minor(root), HalfDiminished(root), root, Pushed([SevenToken, FlatFiveToken]));
  }

  /** A minor triad extended by the minor seventh and the tritone still has its fifth, which a half-diminished chord lacks. */
  lemma MinorWithTritone(t: Chord, h: Chord, root: MidiNote, xs: seq<nat>)
    requires IsPreset(t, root, {0, 3, 7}) && IsPreset(h, root, {0, 3, 6, 10}) && Elements(xs) == {10, 6}
    ensures Elements(Extend(t.intervals, xs)) == {0, 3, 6, 7, 10}
    ensures t.(intervals := Extend(t.intervals, xs)) != h
  {
    var e := Extend(t.intervals, xs);
    assert Elements(e) == {0, 3, 7} + {10, 6};
    assert {0, 3, 7} + {10, 6} == {0, 3, 6, 7, 10};
    assert 7 in Elements(e) && 7 !in Elements(h.intervals);
    assert e != h.intervals;
  }
}
