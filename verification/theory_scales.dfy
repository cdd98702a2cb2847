/**
 * Scales and keys: the seven notes of a mode built on a tonic, and the tonic
 * of the key with a given number of fifths (sharps positive, flats negative).
 */
module TheoryScales {
  import opened Wrappers
  import opened JsNumber
  import opened TheoryNotes
  import opened TheoryIntervals

  /** The modes `scaleIntervals` lists; major and ionian, minor and aeolian are aliases. */
  datatype KeyMode = Major | Ionian | Minor | Aeolian | Dorian | Phrygian | Lydian | Mixolydian | Locrian

  datatype Key = Key(tonic: PitchClass, mode: KeyMode)

  datatype Scale = Scale(key: Key, notes: seq<PitchClass>)

  /** The running total of the first `k` gaps. */
  function Total(gaps: seq<int>, k: int): int
    requires 0 <= k <= |gaps|
    decreases k
  {
    if k == 0 then 0 else Total(gaps, k - 1) + gaps[k - 1]
  }

  /** Gaps of at least one semitone make the running total climb with every step. */
  lemma {:induction false} TotalClimbs(gaps: seq<int>, j: int, k: int)
    requires 0 <= j <= k <= |gaps|
    requires forall i | 0 <= i < |gaps| :: 1 <= gaps[i]
    ensures Total(gaps, j) + (k - j) <= Total(gaps, k)
    decreases k - j
  {
    if j < k {
      TotalClimbs(gaps, j, k - 1);
    }
  }

  /**
   * The gaps of a mode: whole or half steps whose total stays inside one
   * octave, so that every running total indexes the twelve-entry step list.
   */
  predicate GapsFit(gaps: seq<int>) {
    && (forall i | 0 <= i < |gaps| :: 1 <= gaps[i] <= 2)
    && Total(gaps, |gaps|) <= 11
  }

  /** Every running total of fitting gaps lies between 0 and 11. */
  lemma TotalInOctave(gaps: seq<int>, k: int)
    requires GapsFit(gaps) && 0 <= k <= |gaps|
    ensures 0 <= Total(gaps, k) <= 11
  {
    TotalClimbs(gaps, 0, k);
    TotalClimbs(gaps, k, |gaps|);
  }

  /** `scaleIntervals`: the semitone gaps between consecutive notes of each mode. */
  function ScaleIntervals(mode: KeyMode): (r: seq<int>)
    ensures |r| == 6 && GapsFit(r)
  {
    match mode
    case Major | Ionian => [2, 2, 1, 2, 2, 2]
    case Minor | Aeolian => [2, 1, 2, 2, 1, 2]
    case Dorian => [2, 1, 2, 2, 2, 1]
    case Phrygian => [1, 2, 2, 2, 1, 2]
    case Lydian => [2, 2, 2, 1, 2, 2]
    case Mixolydian => [2, 2, 1, 2, 2, 1]
    case Locrian => [1, 2, 2, 1, 2, 2]
  }

  /** `note` sounds `semitones` above `from`, counted within the octave. */
  predicate SoundsAbove(note: PitchClass, from: PitchClass, semitones: int) {
    StepValue(note) == (StepValue(from) + semitones) % 12
  }

  lemma SoundsAboveCompose(x: PitchClass, y: PitchClass, z: PitchClass, a: int, b: int)
    requires SoundsAbove(y, x, a) && SoundsAbove(z, y, b)
    ensures SoundsAbove(z, x, a + b)
  {
    ModCompose12(StepValue(x), a, b, StepValue(y), StepValue(z));
  }

  /** Two spellings on one letter that sound the same distance above a class are the same spelling. */
  lemma SpelledAlike(x: PitchClass, y: PitchClass, from: PitchClass, semitones: int)
    requires x.step == y.step && SoundsAbove(x, from, semitones) && SoundsAbove(y, from, semitones)
    requires -5 <= x.alter <= 6 && -5 <= y.alter <= 6
    ensures x == y
  {
    SpellingUnique(x, y);
  }

  /** `MoveBy` lands the given number of letters and semitones away. */
  lemma MoveBySounds(pitch: PitchClass, steps: int, semitones: int)
    ensures var r := MoveBy(pitch, steps, semitones);
      r.step == StepShift(pitch.step, steps) && SoundsAbove(r, pitch, semitones) && -5 <= r.alter <= 6
  {
  }

  /**
   * The notes spelled so far: the tonic first, then note k on the letter k
   * above the tonic's, sounding the first k gaps above it, with at most six
   * alterations either way.
   */
  predicate SpelledFrom(tonic: PitchClass, gaps: seq<int>, scale: seq<PitchClass>) {
    && 1 <= |scale| <= |gaps| + 1 && scale[0] == tonic
    && forall k | 1 <= k < |scale| :: SpelledAt(tonic, gaps, k, scale[k])
  }

  /** Note `k` of a scale on `tonic` with the given gaps. */
  predicate SpelledAt(tonic: PitchClass, gaps: seq<int>, k: int, note: PitchClass)
    requires 0 <= k <= |gaps|
  {
    note.step == StepShift(tonic.step, k) && SoundsAbove(note, tonic, Total(gaps, k)) && -5 <= note.alter <= 6
  }

  /** The letter after the last one spelled is the next letter from the tonic's. */
  lemma NextLetter(tonic: PitchClass, gaps: seq<int>, scale: seq<PitchClass>)
    requires SpelledFrom(tonic, gaps, scale)
    ensures StepShift(scale[|scale| - 1].step, 1) == StepShift(tonic.step, |scale|)
  {
    var i := |scale| - 1;
    StepShiftZero(tonic.step);
    assert scale[i].step == StepShift(tonic.step, i);
    StepShiftCompose(tonic.step, i, 1);
  }

  /** `steps` is the step list of `tonic`: entry `k` lies `k` semitones above it. */
  predicate ChromaticFrom(tonic: PitchClass, steps: seq<PitchClass>) {
    |steps| == 12 && forall k | 0 <= k < 12 :: steps[k] == PitchShift(tonic, k)
  }

  /** The note after the last one spelled is the step list's entry moved onto the next letter. */
  lemma NextNote(tonic: PitchClass, steps: seq<PitchClass>, gaps: seq<int>, scale: seq<PitchClass>, n: int)
    requires ChromaticFrom(tonic, steps) && SpelledFrom(tonic, gaps, scale) && 0 <= n < 12
    ensures Enharmonic(steps[n], Some(StepShift(scale[|scale| - 1].step, 1))) == MoveBy(tonic, |scale|, n)
  {
    NextLetter(tonic, gaps, scale);
  }

  /** A note spelled at the next position extends the spelled notes. */
  lemma SpelledAppend(tonic: PitchClass, gaps: seq<int>, scale: seq<PitchClass>, note: PitchClass)
    requires SpelledFrom(tonic, gaps, scale) && |scale| <= |gaps|
    requires SpelledAt(tonic, gaps, |scale|, note)
    ensures SpelledFrom(tonic, gaps, scale + [note])
  {
    var r := scale + [note];
    forall k | 1 <= k < |r|
      ensures SpelledAt(tonic, gaps, k, r[k])
    {
      if k < |scale| {
        assert r[k] == scale[k];
      }
    }
  }

  /** Moving the tonic onto the next letter and running total extends the spelled notes. */
  lemma SpelledExtend(tonic: PitchClass, gaps: seq<int>, scale: seq<PitchClass>, n: int)
    requires SpelledFrom(tonic, gaps, scale) && |scale| <= |gaps| && n == Total(gaps, |scale|)
    ensures SpelledFrom(tonic, gaps, scale + [MoveBy(tonic, |scale|, n)])
  {
    MoveBySounds(tonic, |scale|, n);
    SpelledAppend(tonic, gaps, scale, MoveBy(tonic, |scale|, n));
  }

  /**
   * The loop of `getScale`: the next note is the step list's entry at the
   * running total, respelled on the letter after the previous note's; it stops
   * once every gap has been taken.
   */
  function ScaleLoop(steps: seq<PitchClass>, gaps: seq<int>, scale: seq<PitchClass>, next: int): (r: seq<PitchClass>)
    requires |steps| == 12 && GapsFit(gaps)
    requires 1 <= |scale| <= |gaps| + 1 && next == Total(gaps, |scale| - 1)
    ensures |r| == |gaps| + 1
    decreases |gaps| + 1 - |scale|
  {
    if |scale| == |gaps| + 1 then scale
    else
      TotalInOctave(gaps, |scale|);
      var n := next + gaps[|scale| - 1];
      ScaleLoop(steps, gaps, scale + [Enharmonic(steps[n], Some(StepShift(scale[|scale| - 1].step, 1)))], n)
  }

  /** Every round of the loop keeps the notes spelled from the tonic, so the finished scale is. */
  lemma {:induction false} ScaleLoopSpelled(tonic: PitchClass, steps: seq<PitchClass>, gaps: seq<int>,
                                            scale: seq<PitchClass>, next: int)
    requires ChromaticFrom(tonic, steps) && GapsFit(gaps)
    requires SpelledFrom(tonic, gaps, scale) && next == Total(gaps, |scale| - 1)
    ensures SpelledFrom(tonic, gaps, ScaleLoop(steps, gaps, scale, next))
    decreases |gaps| + 1 - |scale|
  {
    if |scale| < |gaps| + 1 {
      LoopStep(tonic, steps, gaps, scale, next);
      var n := next + gaps[|scale| - 1];
      var grown := scale + [Enharmonic(steps[n], Some(StepShift(scale[|scale| - 1].step, 1)))];
      assert ScaleLoop(steps, gaps, scale, next) == ScaleLoop(steps, gaps, grown, n);
      ScaleLoopSpelled(tonic, steps, gaps, grown, n);
    }
  }

  /** One round of the loop: the next running total stays in the octave and the next note keeps the spelling. */
  lemma LoopStep(tonic: PitchClass, steps: seq<PitchClass>, gaps: seq<int>, scale: seq<PitchClass>, next: int)
    requires ChromaticFrom(tonic, steps) && GapsFit(gaps)
    requires SpelledFrom(tonic, gaps, scale) && next == Total(gaps, |scale| - 1) && |scale| <= |gaps|
    ensures var n := next + gaps[|scale| - 1];
      && n == Total(gaps, |scale|) && 0 <= n < 12
      && SpelledFrom(tonic, gaps, scale + [Enharmonic(steps[n], Some(StepShift(scale[|scale| - 1].step, 1)))])
  {
    TotalInOctave(gaps, |scale|);
    LoopNote(tonic, steps, gaps, scale, next + gaps[|scale| - 1]);
  }

  /** The note the loop appends, `n` semitones above the tonic, keeps the spelling. */
  lemma LoopNote(tonic: PitchClass, steps: seq<PitchClass>, gaps: seq<int>, scale: seq<PitchClass>, n: int)
    requires ChromaticFrom(tonic, steps) && SpelledFrom(tonic, gaps, scale) && |scale| <= |gaps|
    requires n == Total(gaps, |scale|) && 0 <= n < 12
    ensures SpelledFrom(tonic, gaps, scale + [Enharmonic(steps[n], Some(StepShift(scale[|scale| - 1].step, 1)))])
  {
    NextNote(tonic, steps, gaps, scale, n);
    SpelledExtend(tonic, gaps, scale, n);
  }

  /**
   * `getScale`: the tonic as given, then each further note on the next letter
   * and the running total of the mode's gaps above the tonic.
   */
  function GetScale(tonic: PitchClass, mode: KeyMode): (s: Scale)
    ensures s.key == Key(tonic, mode)
    ensures |s.notes| == 7 && s.notes[0] == tonic
    ensures forall k | 1 <= k < 7 :: SpelledAt(tonic, ScaleIntervals(mode), k, s.notes[k])
  {
    var steps := StepList(tonic);
    var gaps := ScaleIntervals(mode);
    ScaleLoopSpelled(tonic, steps, gaps, [tonic], 0);
    Scale(Key(tonic, mode), ScaleLoop(steps, gaps, [tonic], 0))
  }

  lemma ModDistinct7(a: int, b: int)
    requires 0 < b - a < 7
    ensures a % 7 != b % 7
  {
  }

  /** Letters counted from one letter climb one at a time. */
  lemma LettersClimb(t: Step)
    ensures forall k | 0 <= k < 6 :: StepShift(StepShift(t, k), 1) == StepShift(t, k + 1)
  {
    forall k | 0 <= k < 6
      ensures StepShift(StepShift(t, k), 1) == StepShift(t, k + 1)
    {
      StepShiftCompose(t, k, 1);
    }
  }

  /** Letters counted from one letter do not repeat within seven. */
  lemma LettersDistinct(t: Step)
    ensures forall i, j | 0 <= i < j < 7 :: StepShift(t, i) != StepShift(t, j)
  {
    forall i, j | 0 <= i < j < 7
      ensures StepShift(t, i) != StepShift(t, j)
    {
      ModDistinct7(StepIndex(t) + i, StepIndex(t) + j);
      assert StepIndex(StepShift(t, i)) != StepIndex(StepShift(t, j));
    }
  }

  /** The letters of a scale climb one at a time from the tonic's, so no letter repeats. */
  lemma ScaleLetters(tonic: PitchClass, mode: KeyMode)
    ensures var notes := GetScale(tonic, mode).notes;
      && (forall k | 0 <= k < 7 :: notes[k].step == StepShift(tonic.step, k))
      && (forall k | 0 <= k < 6 :: notes[k + 1].step == StepShift(notes[k].step, 1))
      && (forall i, j | 0 <= i < j < 7 :: notes[i].step != notes[j].step)
  {
    StepShiftZero(tonic.step);
    LettersClimb(tonic.step);
    LettersDistinct(tonic.step);
  }

  /**
   * The scale is the only seven-note sequence spelled from the tonic by the
   * mode's gaps: any sequence that starts on the tonic and puts the right
   * letter, sounding the right distance above the tonic, at every degree is it.
   */
  lemma ScaleIs(tonic: PitchClass, mode: KeyMode, expected: seq<PitchClass>)
    requires |expected| == 7 && expected[0] == tonic
    requires forall k | 1 <= k < 7 :: SpelledAt(tonic, ScaleIntervals(mode), k, expected[k])
    ensures GetScale(tonic, mode).notes == expected
  {
    var notes := GetScale(tonic, mode).notes;
    forall k | 1 <= k < 7
      ensures notes[k] == expected[k]
    {
      SpelledAlike(notes[k], expected[k], tonic, Total(ScaleIntervals(mode), k));
    }
  }

  /** The letter after a letter, G wrapping round to A. */
  function LetterAfter(step: Step): Step {
    match step
    case A => B
    case B => C
    case C => D
    case D => E
    case E => F
    case F => G
    case G => A
  }

  /** The successor table agrees with moving one letter along the cycle. */
  lemma LetterAfterIsShift(step: Step)
    ensures LetterAfter(step) == StepShift(step, 1)
  {
  }

  /** `above` is the next letter after `below`, spelled `gap` semitones higher. */
  predicate Neighbours(below: PitchClass, above: PitchClass, gap: int) {
    && above.step == LetterAfter(below.step)
    && SoundsAbove(above, below, gap)
    && -5 <= above.alter <= 6
  }

  /** A neighbour of degree `k` of the scale is its degree `k + 1`. */
  lemma SpelledNext(tonic: PitchClass, gaps: seq<int>, k: int, below: PitchClass, above: PitchClass)
    requires 0 <= k < |gaps|
    requires below.step == StepShift(tonic.step, k) && SoundsAbove(below, tonic, Total(gaps, k))
    requires Neighbours(below, above, gaps[k])
    ensures SpelledAt(tonic, gaps, k + 1, above)
  {
    LetterAfterIsShift(below.step);
    StepShiftCompose(tonic.step, k, 1);
    assert above.step == StepShift(tonic.step, k + 1);
    SoundsAboveCompose(tonic, below, above, Total(gaps, k), gaps[k]);
    assert Total(gaps, k + 1) == Total(gaps, k) + gaps[k];
  }

  /** Neighbours all the way up from the tonic put every degree where the scale puts it. */
  lemma {:induction false} NeighboursSpelled(tonic: PitchClass, gaps: seq<int>, e: seq<PitchClass>, k: int)
    requires |e| == |gaps| + 1 && e[0] == tonic && 1 <= k <= |gaps|
    requires forall j | 0 <= j < |gaps| :: Neighbours(e[j], e[j + 1], gaps[j])
    ensures SpelledAt(tonic, gaps, k, e[k])
    decreases k
  {
    if k == 1 {
      StepShiftZero(tonic.step);
      SpelledNext(tonic, gaps, 0, e[0], e[1]);
    } else {
      NeighboursSpelled(tonic, gaps, e, k - 1);
      SpelledNext(tonic, gaps, k - 1, e[k - 1], e[k]);
    }
  }

  /**
   * The scale read note by note: a sequence that starts on the tonic and climbs
   * one letter and one gap of the mode at a time is the scale.
   */
  lemma ScaleByNeighbours(tonic: PitchClass, mode: KeyMode, e: seq<PitchClass>)
    requires |e| == 7 && e[0] == tonic
    requires Neighbours(e[0], e[1], ScaleIntervals(mode)[0]) && Neighbours(e[1], e[2], ScaleIntervals(mode)[1])
    requires Neighbours(e[2], e[3], ScaleIntervals(mode)[2]) && Neighbours(e[3], e[4], ScaleIntervals(mode)[3])
    requires Neighbours(e[4], e[5], ScaleIntervals(mode)[4]) && Neighbours(e[5], e[6], ScaleIntervals(mode)[5])
    ensures GetScale(tonic, mode).notes == e
  {
    var g := ScaleIntervals(mode);
    assert forall j | 0 <= j < 6 :: Neighbours(e[j], e[j + 1], g[j]);
    forall k | 1 <= k < 7
      ensures SpelledAt(tonic, g, k, e[k])
    {
      NeighboursSpelled(tonic, g, e, k);
    }
    ScaleIs(tonic, mode, e);
  }

  /** A major scale read note by note: whole, whole, half, whole, whole, whole steps up from the tonic. */
  lemma MajorByNeighbours(tonic: PitchClass, e: seq<PitchClass>)
    requires |e| == 7 && e[0] == tonic
    requires Neighbours(e[0], e[1], 2) && Neighbours(e[1], e[2], 2) && Neighbours(e[2], e[3], 1)
    requires Neighbours(e[3], e[4], 2) && Neighbours(e[4], e[5], 2) && Neighbours(e[5], e[6], 2)
    ensures GetScale(tonic, KeyMode.Major).notes == e
  {
    ScaleByNeighbours(tonic, KeyMode.Major, e);
  }

  /** A natural minor scale read note by note: whole, half, whole, whole, half, whole steps up from the tonic. */
  lemma MinorByNeighbours(tonic: PitchClass, e: seq<PitchClass>)
    requires |e| == 7 && e[0] == tonic
    requires Neighbours(e[0], e[1], 2) && Neighbours(e[1], e[2], 1) && Neighbours(e[2], e[3], 2)
    requires Neighbours(e[3], e[4], 2) && Neighbours(e[4], e[5], 1) && Neighbours(e[5], e[6], 2)
    ensures GetScale(tonic, KeyMode.Minor).notes == e
  {
    ScaleByNeighbours(tonic, KeyMode.Minor, e);
  }

  /** C major is the seven naturals from C. */
  lemma CMajorScale()
    ensures GetScale(PitchClass(C, 0), KeyMode.Major).notes == [PitchClass(C, 0), PitchClass(D, 0), PitchClass(E, 0),
      PitchClass(F, 0), PitchClass(G, 0), PitchClass(A, 0), PitchClass(B, 0)]
  {
    assert StepValue(PitchClass(C, 0)) == 0 && StepValue(PitchClass(D, 0)) == 2 && StepValue(PitchClass(E, 0)) == 4 && StepValue(PitchClass(F, 0)) == 5;
    assert StepValue(PitchClass(G, 0)) == 7 && StepValue(PitchClass(A, 0)) == 9 && StepValue(PitchClass(B, 0)) == 11;
    MajorByNeighbours(PitchClass(C, 0), [PitchClass(C, 0), PitchClass(D, 0), PitchClass(E, 0),
      PitchClass(F, 0), PitchClass(G, 0), PitchClass(A, 0), PitchClass(B, 0)]);
  }

  /** A natural minor is the seven naturals from A. */
  lemma AMinorScale()
    ensures GetScale(PitchClass(A, 0), KeyMode.Minor).notes == [PitchClass(A, 0), PitchClass(B, 0), PitchClass(C, 0),
      PitchClass(D, 0), PitchClass(E, 0), PitchClass(F, 0), PitchClass(G, 0)]
  {
    assert StepValue(PitchClass(A, 0)) == 9 && StepValue(PitchClass(B, 0)) == 11 && StepValue(PitchClass(C, 0)) == 0 && StepValue(PitchClass(D, 0)) == 2;
    assert StepValue(PitchClass(E, 0)) == 4 && StepValue(PitchClass(F, 0)) == 5 && StepValue(PitchClass(G, 0)) == 7;
    MinorByNeighbours(PitchClass(A, 0), [PitchClass(A, 0), PitchClass(B, 0), PitchClass(C, 0),
      PitchClass(D, 0), PitchClass(E, 0), PitchClass(F, 0), PitchClass(G, 0)]);
  }

  /** G major raises F. */
  lemma GMajorScale()
    ensures GetScale(PitchClass(G, 0), KeyMode.Major).notes == [PitchClass(G, 0), PitchClass(A, 0), PitchClass(B, 0),
      PitchClass(C, 0), PitchClass(D, 0), PitchClass(E, 0), PitchClass(F, 1)]
  {
    assert StepValue(PitchClass(G, 0)) == 7 && StepValue(PitchClass(A, 0)) == 9 && StepValue(PitchClass(B, 0)) == 11 && StepValue(PitchClass(C, 0)) == 0;
    assert StepValue(PitchClass(D, 0)) == 2 && StepValue(PitchClass(E, 0)) == 4 && StepValue(PitchClass(F, 1)) == 6;
    MajorByNeighbours(PitchClass(G, 0), [PitchClass(G, 0), PitchClass(A, 0), PitchClass(B, 0),
      PitchClass(C, 0), PitchClass(D, 0), PitchClass(E, 0), PitchClass(F, 1)]);
  }

  /** F major lowers B. */
  lemma FMajorScale()
    ensures GetScale(PitchClass(F, 0), KeyMode.Major).notes == [PitchClass(F, 0), PitchClass(G, 0), PitchClass(A, 0),
      PitchClass(B, -1), PitchClass(C, 0), PitchClass(D, 0), PitchClass(E, 0)]
  {
    assert StepValue(PitchClass(F, 0)) == 5 && StepValue(PitchClass(G, 0)) == 7 && StepValue(PitchClass(A, 0)) == 9 && StepValue(PitchClass(B, -1)) == 10;
    assert StepValue(PitchClass(C, 0)) == 0 && StepValue(PitchClass(D, 0)) == 2 && StepValue(PitchClass(E, 0)) == 4;
    MajorByNeighbours(PitchClass(F, 0), [PitchClass(F, 0), PitchClass(G, 0), PitchClass(A, 0),
      PitchClass(B, -1), PitchClass(C, 0), PitchClass(D, 0), PitchClass(E, 0)]);
  }

  /** C sharp major sharpens every letter, spelling E sharp and B sharp. */
  lemma CSharpMajorScale()
    ensures GetScale(PitchClass(C, 1), KeyMode.Major).notes == [PitchClass(C, 1), PitchClass(D, 1), PitchClass(E, 1),
      PitchClass(F, 1), PitchClass(G, 1), PitchClass(A, 1), PitchClass(B, 1)]
  {
    assert StepValue(PitchClass(C, 1)) == 1 && StepValue(PitchClass(D, 1)) == 3 && StepValue(PitchClass(E, 1)) == 5 && StepValue(PitchClass(F, 1)) == 6;
    assert StepValue(PitchClass(G, 1)) == 8 && StepValue(PitchClass(A, 1)) == 10 && StepValue(PitchClass(B, 1)) == 0;
    MajorByNeighbours(PitchClass(C, 1), [PitchClass(C, 1), PitchClass(D, 1), PitchClass(E, 1),
      PitchClass(F, 1), PitchClass(G, 1), PitchClass(A, 1), PitchClass(B, 1)]);
  }

  /** The letter `getKey` starts from: the mode's tonic among the white keys. */
  function BaseStep(mode: KeyMode): Step {
    match mode
    case Major | Ionian => C
    case Minor | Aeolian => A
    case Dorian => D
    case Phrygian => E
    case Lydian => F
    case Mixolydian => G
    case Locrian => B
  }

  /** A perfect fifth moves four letters and seven semitones in its direction. */
  lemma FifthMoves(pitch: PitchClass, d: Direction)
    ensures var r := Transpose(pitch, P5, d);
      && r.step == StepShift(pitch.step, Signed(4, d))
      && SoundsAbove(r, pitch, Signed(7, d))
      && -5 <= r.alter <= 6
  {
    assert Semitones(P5) == 7;
  }

  /** A fifth followed by `n - 1` more is `n` fifths. */
  lemma FifthsCompose(tonic: PitchClass, moved: PitchClass, r: PitchClass, n: int, d: Direction)
    requires n >= 1
    requires moved.step == StepShift(tonic.step, Signed(4, d)) && SoundsAbove(moved, tonic, Signed(7, d))
    requires r.step == StepShift(moved.step, Signed(4 * (n - 1), d)) && SoundsAbove(r, moved, Signed(7 * (n - 1), d))
    ensures r.step == StepShift(tonic.step, Signed(4 * n, d)) && SoundsAbove(r, tonic, Signed(7 * n, d))
  {
    assert Signed(4, d) + Signed(4 * (n - 1), d) == Signed(4 * n, d);
    assert Signed(7, d) + Signed(7 * (n - 1), d) == Signed(7 * n, d);
    StepShiftCompose(tonic.step, Signed(4, d), Signed(4 * (n - 1), d));
    SoundsAboveCompose(tonic, moved, r, Signed(7, d), Signed(7 * (n - 1), d));
  }

  /**
   * `getKey`'s loop: `n` perfect fifths from `tonic` in one direction, each
   * moving four letters and seven semitones.
   */
  function FifthsFrom(tonic: PitchClass, n: nat, d: Direction): (r: PitchClass)
    ensures r.step == StepShift(tonic.step, Signed(4 * n, d))
    ensures SoundsAbove(r, tonic, Signed(7 * n, d))
    ensures -5 <= tonic.alter <= 6 ==> -5 <= r.alter <= 6
    decreases n
  {
    if n == 0 then
      StepShiftZero(tonic.step);
      tonic
    else
      var moved := Transpose(tonic, P5, d);
      var r := FifthsFrom(moved, n - 1, d);
      FifthMoves(tonic, d);
      FifthsCompose(tonic, moved, r, n, d);
      r
  }

  /** `|fifths|` fifths in the direction of the sign of `fifths` move `4 * fifths` letters and `7 * fifths` semitones. */
  lemma FifthsBySign(fifths: int)
    ensures var d := if fifths < 0 then Down else Up;
      Signed(4 * Abs(fifths), d) == 4 * fifths && Signed(7 * Abs(fifths), d) == 7 * fifths
  {
  }

  /**
   * `getKey`: the key whose tonic lies `|fifths|` perfect fifths from the
   * natural of the mode's base letter, up for sharps and down for flats.
   */
  function GetKey(fifths: int, mode: KeyMode): (k: Key)
    ensures k.mode == mode
    ensures k.tonic.step == StepShift(BaseStep(mode), 4 * fifths)
    ensures SoundsAbove(k.tonic, PitchClass(BaseStep(mode), 0), 7 * fifths)
    ensures -5 <= k.tonic.alter <= 6
  {
    var base := PitchClass(BaseStep(mode), 0);
    FifthsBySign(fifths);
    Key(FifthsFrom(base, Abs(fifths), if fifths < 0 then Down else Up), mode)
  }

  /** The tonic of a key is fixed by its letter and sound: any spelling that agrees is that tonic. */
  lemma KeyTonicUnique(fifths: int, mode: KeyMode, p: PitchClass)
    requires p.step == StepShift(BaseStep(mode), 4 * fifths)
    requires SoundsAbove(p, PitchClass(BaseStep(mode), 0), 7 * fifths) && -5 <= p.alter <= 6
    ensures GetKey(fifths, mode).tonic == p
  {
    SpelledAlike(GetKey(fifths, mode).tonic, p, PitchClass(BaseStep(mode), 0), 7 * fifths);
  }

  /** With no fifths the tonic is the base letter's natural. */
  lemma NoFifthsIsNatural(mode: KeyMode)
    ensures GetKey(0, mode).tonic == PitchClass(BaseStep(mode), 0)
  {
    StepShiftZero(BaseStep(mode));
    KeyTonicUnique(0, mode, PitchClass(BaseStep(mode), 0));
  }

  /** A fifth beyond the tonic `fifths` fifths from a natural lies `fifths ± 1` fifths from it. */
  lemma FifthFurther(base: Step, fifths: int, further: int, t: PitchClass, moved: PitchClass, d: Direction)
    requires further == (if d == Up then fifths + 1 else fifths - 1)
    requires t.step == StepShift(base, 4 * fifths) && SoundsAbove(t, PitchClass(base, 0), 7 * fifths)
    requires moved.step == StepShift(t.step, Signed(4, d)) && SoundsAbove(moved, t, Signed(7, d))
    ensures moved.step == StepShift(base, 4 * further)
    ensures SoundsAbove(moved, PitchClass(base, 0), 7 * further)
  {
    StepShiftCompose(base, 4 * fifths, Signed(4, d));
    SoundsAboveCompose(PitchClass(base, 0), t, moved, 7 * fifths, Signed(7, d));
  }

  /** One more sharp is a perfect fifth up from the previous key's tonic. */
  lemma NextSharpKey(fifths: int, mode: KeyMode)
    ensures GetKey(fifths + 1, mode).tonic == Transpose(GetKey(fifths, mode).tonic, P5, Up)
  {
    var t := GetKey(fifths, mode).tonic;
    var up := Transpose(t, P5, Up);
    FifthMoves(t, Up);
    FifthFurther(BaseStep(mode), fifths, fifths + 1, t, up, Up);
    KeyTonicUnique(fifths + 1, mode, up);
  }

  /** One more flat is a perfect fifth down from the previous key's tonic. */
  lemma NextFlatKey(fifths: int, mode: KeyMode)
    ensures GetKey(fifths - 1, mode).tonic == Transpose(GetKey(fifths, mode).tonic, P5, Down)
  {
    var t := GetKey(fifths, mode).tonic;
    var down := Transpose(t, P5, Down);
    FifthMoves(t, Down);
    FifthFurther(BaseStep(mode), fifths, fifths - 1, t, down, Down);
    KeyTonicUnique(fifths - 1, mode, down);
  }

  /** Going one fifth further and back returns the key's tonic. */
  lemma NeighbourKeysReturn(fifths: int, mode: KeyMode)
    ensures Transpose(GetKey(fifths + 1, mode).tonic, P5, Down) == GetKey(fifths, mode).tonic
  {
    NextSharpKey(fifths, mode);
    TransposeRoundTrip(GetKey(fifths, mode).tonic, P5, Up);
  }

  /** The major keys one sharp and one and two flats from C, as the repository's tests expect them. */
  lemma MajorKeysNear()
    ensures GetKey(1, KeyMode.Major).tonic == PitchClass(G, 0)
    ensures GetKey(-1, KeyMode.Major).tonic == PitchClass(F, 0)
    ensures GetKey(-2, KeyMode.Major).tonic == PitchClass(B, -1)
  {
    MajorKeyOneSharp();
    MajorKeyOneFlat();
    MajorKeyTwoFlats();
  }

  lemma MajorKeyOneSharp()
    ensures GetKey(1, KeyMode.Major).tonic == PitchClass(G, 0)
  {
    KeyTonicUnique(1, KeyMode.Major, PitchClass(G, 0));
  }

  lemma MajorKeyOneFlat()
    ensures GetKey(-1, KeyMode.Major).tonic == PitchClass(F, 0)
  {
    KeyTonicUnique(-1, KeyMode.Major, PitchClass(F, 0));
  }

  lemma MajorKeyTwoFlats()
    ensures GetKey(-2, KeyMode.Major).tonic == PitchClass(B, -1)
  {
    KeyTonicUnique(-2, KeyMode.Major, PitchClass(B, -1));
  }

  /** The major key with six sharps is F sharp. */
  lemma MajorKeySixSharps()
    ensures GetKey(6, KeyMode.Major).tonic == PitchClass(F, 1)
  {
    KeyTonicUnique(6, KeyMode.Major, PitchClass(F, 1));
  }

  /** The major key with six flats is G flat. */
  lemma MajorKeySixFlats()
    ensures GetKey(-6, KeyMode.Major).tonic == PitchClass(G, -1)
  {
    KeyTonicUnique(-6, KeyMode.Major, PitchClass(G, -1));
  }

  /** The major key with seven sharps is C sharp. */
  lemma MajorKeySevenSharps()
    ensures GetKey(7, KeyMode.Major).tonic == PitchClass(C, 1)
  {
    KeyTonicUnique(7, KeyMode.Major, PitchClass(C, 1));
  }

  /** The major key with seven flats is C flat. */
  lemma MajorKeySevenFlats()
    ensures GetKey(-7, KeyMode.Major).tonic == PitchClass(C, -1)
  {
    KeyTonicUnique(-7, KeyMode.Major, PitchClass(C, -1));
  }

  /** Minor keys count their fifths from A: three sharps is F sharp minor. */
  lemma MinorKeyThreeSharps()
    ensures GetKey(3, KeyMode.Minor).tonic == PitchClass(F, 1)
  {
    KeyTonicUnique(3, KeyMode.Minor, PitchClass(F, 1));
  }

  /** Five flats is B flat minor. */
  lemma MinorKeyFiveFlats()
    ensures GetKey(-5, KeyMode.Minor).tonic == PitchClass(B, -1)
  {
    KeyTonicUnique(-5, KeyMode.Minor, PitchClass(B, -1));
  }

  /** Church modes count their fifths from their own white-key letters: four flats is B flat dorian. */
  lemma DorianKeyFourFlats()
    ensures GetKey(-4, Dorian).tonic == PitchClass(B, -1)
  {
    KeyTonicUnique(-4, Dorian, PitchClass(B, -1));
  }

  /** Seven sharps is E sharp phrygian. */
  lemma PhrygianKeySevenSharps()
    ensures GetKey(7, Phrygian).tonic == PitchClass(E, 1)
  {
    KeyTonicUnique(7, Phrygian, PitchClass(E, 1));
  }
}
