/**
 * Pitch-class arithmetic over letter steps and integer alterations: the
 * twelve-entry pitch-class table, step and semitone shifts, enharmonic
 * respelling and the conversion to and from MIDI note numbers.
 */
module TheoryNotes {
  import opened Wrappers
  import opened JsNumber

  /** The letter steps, in the order of the source's `steps` array (A first). */
  datatype Step = A | B | C | D | E | F | G

  /** The position of a step in the `steps` array: `steps.indexOf(step)`. */
  function StepIndex(step: Step): (i: int)
    ensures 0 <= i < 7
  {
    match step
    case A => 0
    case B => 1
    case C => 2
    case D => 3
    case E => 4
    case F => 5
    case G => 6
  }

  /** The step at a position of the `steps` array. */
  function StepAt(i: int): (step: Step)
    requires 0 <= i < 7
    ensures StepIndex(step) == i
  {
    if i == 0 then A
    else if i == 1 then B
    else if i == 2 then C
    else if i == 3 then D
    else if i == 4 then E
    else if i == 5 then F
    else G
  }

  /** Every step sits at exactly one position. */
  lemma StepAtIndex(step: Step)
    ensures StepAt(StepIndex(step)) == step
  {
  }

  /**
   * Moves a step `diff` letters along the cycle A..G (up for positive `diff`),
   * with the truncating remainder and the negative-remainder correction of the
   * source.
   */
  function StepShift(step: Step, diff: int): (r: Step)
    ensures StepIndex(r) == (StepIndex(step) + diff) % 7
  {
    StepAt(Wrap(StepIndex(step) + diff, 7))
  }

  /** Reducing the first summand mod 7 first does not change the sum mod 7. */
  lemma ModAdd7(x: int, y: int)
    ensures (x % 7 + y) % 7 == (x + y) % 7
  {
  }

  /** Reducing the first summand mod 12 first does not change the sum mod 12. */
  lemma ModAdd12(x: int, y: int)
    ensures (x % 12 + y) % 12 == (x + y) % 12
  {
  }

  /** Two numbers less than twelve apart with the same remainder mod 12 are equal. */
  lemma ModUnique12(x: int, y: int)
    requires x % 12 == y % 12 && -11 <= x - y <= 11
    ensures x == y
  {
  }

  /** Shifting by `a` then by `b` is shifting by `a + b`. */
  lemma StepShiftCompose(step: Step, a: int, b: int)
    ensures StepShift(StepShift(step, a), b) == StepShift(step, a + b)
  {
    ModAdd7(StepIndex(step) + a, b);
    StepAtIndex(StepShift(StepShift(step, a), b));
    StepAtIndex(StepShift(step, a + b));
  }

  /** A step is fixed by its position. */
  lemma StepIndexInjective(s: Step, t: Step)
    requires StepIndex(s) == StepIndex(t)
    ensures s == t
  {
  }

  /** Adding or removing a whole cycle of seven does not move a position. */
  lemma ModCycle7(i: int)
    requires 0 <= i < 7
    ensures (i + 0) % 7 == i && (i + 7) % 7 == i && (i - 7) % 7 == i
  {
  }

  /** Shifting by nothing keeps the step. */
  lemma StepShiftZero(step: Step)
    ensures StepShift(step, 0) == step
  {
    ModCycle7(StepIndex(step));
    StepIndexInjective(StepShift(step, 0), step);
  }

  /** One step up and one step down cancel; seven steps come back to the same letter. */
  lemma StepShiftCycles(step: Step)
    ensures StepShift(StepShift(step, 1), -1) == step
    ensures StepShift(step, 7) == step
    ensures StepShift(step, -7) == step
  {
    StepShiftCompose(step, 1, -1);
    StepShiftZero(step);
    StepShiftByCycle(step, 7);
    StepShiftByCycle(step, -7);
  }

  /** A whole cycle of seven letters, either way, keeps the step. */
  lemma StepShiftByCycle(step: Step, cycle: int)
    requires cycle == 7 || cycle == -7
    ensures StepShift(step, cycle) == step
  {
    ModCycle7(StepIndex(step));
    StepIndexInjective(StepShift(step, cycle), step);
  }

  /** The semitone value of a natural step: `stepValues`, C = 0 up to B = 11. */
  function StepBase(step: Step): (v: int)
    ensures 0 <= v < 12
  {
    match step
    case C => 0
    case D => 2
    case E => 4
    case F => 5
    case G => 7
    case A => 9
    case B => 11
  }

  /**
   * A pitch class: a letter step and an alteration in semitones (-1 flat, 1
   * sharp, -2 and 2 double). A missing alteration is the alteration 0.
   */
  datatype PitchClass = PitchClass(step: Step, alter: int)

  /** A pitch class in an octave. */
  datatype Pitch = Pitch(pitchClass: PitchClass, octave: int)

  /**
   * The entry at position `i` of `pitchClasses`: the twelve classes from C,
   * spelled with naturals and sharps.
   */
  function PitchClassAt(i: int): (pc: PitchClass)
    requires 0 <= i < 12
    ensures pc.alter == 0 || pc.alter == 1
    ensures StepBase(pc.step) + pc.alter == i
  {
    if i == 0 then PitchClass(C, 0)
    else if i == 1 then PitchClass(C, 1)
    else if i == 2 then PitchClass(D, 0)
    else if i == 3 then PitchClass(D, 1)
    else if i == 4 then PitchClass(E, 0)
    else if i == 5 then PitchClass(F, 0)
    else if i == 6 then PitchClass(F, 1)
    else if i == 7 then PitchClass(G, 0)
    else if i == 8 then PitchClass(G, 1)
    else if i == 9 then PitchClass(A, 0)
    else if i == 10 then PitchClass(A, 1)
    else PitchClass(B, 0)
  }

  /** The `pitchClasses` table as a sequence. */
  const PitchClasses: seq<PitchClass> := [
    PitchClass(C, 0), PitchClass(C, 1), PitchClass(D, 0), PitchClass(D, 1),
    PitchClass(E, 0), PitchClass(F, 0), PitchClass(F, 1), PitchClass(G, 0),
    PitchClass(G, 1), PitchClass(A, 0), PitchClass(A, 1), PitchClass(B, 0)]

  /** The sequence and the position function describe the same table. */
  lemma PitchClassesTable()
    ensures |PitchClasses| == 12
    ensures forall i :: 0 <= i < 12 ==> PitchClasses[i] == PitchClassAt(i)
  {
    assert PitchClasses[0] == PitchClassAt(0) && PitchClasses[1] == PitchClassAt(1);
    assert PitchClasses[2] == PitchClassAt(2) && PitchClasses[3] == PitchClassAt(3);
    assert PitchClasses[4] == PitchClassAt(4) && PitchClasses[5] == PitchClassAt(5);
    assert PitchClasses[6] == PitchClassAt(6) && PitchClasses[7] == PitchClassAt(7);
    assert PitchClasses[8] == PitchClassAt(8) && PitchClasses[9] == PitchClassAt(9);
    assert PitchClasses[10] == PitchClassAt(10) && PitchClasses[11] == PitchClassAt(11);
  }

  /**
   * `stepValue` as the source writes it: in range the natural value plus the
   * alteration; below 0 it returns `12 - value`, above 11 `value - 11`.
   */
  function StepValueAsWritten(pc: PitchClass): int {
    var value := StepBase(pc.step) + pc.alter;
    if 0 <= value <= 11 then value
    else if value < 0 then 12 - value
    else value - 11
  }

  /**
   * `stepValue` as its comment describes it: the semitone of the class within
   * the octave, rolled over into 0..11.
   */
  function StepValue(pc: PitchClass): (v: int)
    ensures 0 <= v < 12
  {
    (StepBase(pc.step) + pc.alter) % 12
  }

  /**
   * The corrected value agrees with the written one inside the octave, and is
   * the one-octave rollover (`value + 12`, `value - 12`) the comment promises
   * just outside it.
   */
  lemma StepValueRollover(pc: PitchClass)
    ensures var value := StepBase(pc.step) + pc.alter;
      && (0 <= value <= 11 ==> StepValue(pc) == value == StepValueAsWritten(pc))
      && (-12 <= value < 0 ==> StepValue(pc) == value + 12)
      && (12 <= value < 24 ==> StepValue(pc) == value - 12)
  {
  }

  /** The table holds each class at the position of its value. */
  lemma TableValue(i: int)
    requires 0 <= i < 12
    ensures StepValue(PitchClassAt(i)) == i
  {
  }

  /** The table holds each class at the position of its value, all positions at once. */
  lemma TableValues()
    ensures forall i :: 0 <= i < 12 ==> StepValue(PitchClassAt(i)) == i
  {
    forall i | 0 <= i < 12
      ensures StepValue(PitchClassAt(i)) == i
    {
      TableValue(i);
    }
  }

  /**
   * `findIndex` over the table from position `i`: the first position whose
   * entry has the value `v`, or -1.
   */
  function FindValueFrom(v: int, i: int): (r: int)
    requires 0 <= i <= 12
    ensures r == (if i <= v < 12 then v else -1)
    decreases 12 - i
  {
    if i == 12 then -1
    else
      TableValue(i);
      if StepValue(PitchClassAt(i)) == v then i
      else FindValueFrom(v, i + 1)
  }

  /**
   * `pitchClassIndex` with the corrected value: the table position of the
   * class, which is its value since the table holds value `i` at position `i`.
   */
  function PitchClassIndex(pc: PitchClass): (i: int)
    ensures 0 <= i < 12
    ensures StepValue(PitchClassAt(i)) == StepValue(pc)
  {
    TableValue(StepValue(pc));
    StepValue(pc)
  }

  /** The source's search, `findIndex` over the table from the start, finds exactly this position. */
  lemma PitchClassIndexIsSearch(pc: PitchClass)
    ensures FindValueFrom(StepValue(pc), 0) == PitchClassIndex(pc)
  {
  }

  /** `pitchClassIndex` over the written `stepValue`. */
  function PitchClassIndexAsWritten(pc: PitchClass): (i: int)
    ensures i == (if 0 <= StepValueAsWritten(pc) < 12 then StepValueAsWritten(pc) else -1)
  {
    FindValueFrom(StepValueAsWritten(pc), 0)
  }

  /**
   * The corrected index is the source's exactly when the written value
   * already lies within the octave: every class outside it (B sharp, C flat
   * and the like) gets a different index, or none, from the written rollover.
   */
  lemma PitchClassIndexAgrees(pc: PitchClass)
    ensures PitchClassIndex(pc) == PitchClassIndexAsWritten(pc) <==> 0 <= StepBase(pc.step) + pc.alter <= 11
  {
  }

  /**
   * The written rollover misplaces classes just outside C..B: B sharp, which is
   * C, gets the index of C sharp, and C flat, which is B, gets no index at all;
   * the corrected index places both.
   */
  lemma RolloverMisplacesEdgeClasses()
    ensures PitchClassIndexAsWritten(PitchClass(B, 1)) == 1
    ensures PitchClassIndex(PitchClass(B, 1)) == 0
    ensures PitchClassIndexAsWritten(PitchClass(C, -1)) == -1
    ensures PitchClassIndex(PitchClass(C, -1)) == 11
  {
  }

  /** A class spelled as the table spells it: a natural, or a sharp other than B sharp and E sharp. */
  predicate InTable(pc: PitchClass) {
    pc.alter == 0 || (pc.alter == 1 && pc.step != B && pc.step != E)
  }

  /** The table has one spelling per value. */
  lemma InTableByValue(x: PitchClass, y: PitchClass)
    requires InTable(x) && InTable(y) && StepValue(x) == StepValue(y)
    ensures x == y
  {
    assert StepValue(x) == StepBase(x.step) + x.alter;
    assert StepValue(y) == StepBase(y.step) + y.alter;
  }

  /** The entry at each position is spelled as the table spells it, so it is the only such spelling of its value. */
  lemma TableEntry(i: int)
    requires 0 <= i < 12
    ensures InTable(PitchClassAt(i)) && StepValue(PitchClassAt(i)) == i
  {
  }

  /** The upward and downward semitone distance between two classes. */
  datatype Distance = Distance(up: int, down: int)

  /**
   * `pitchClassDistance`: how far up and how far down `to` lies from `from`.
   * Equal classes are 0 apart both ways; otherwise the two distances are the
   * two ways round the octave.
   */
  function PitchClassDistance(from: PitchClass, to: PitchClass): (r: Distance)
    ensures StepValue(from) == StepValue(to) <==> r.up == 0
    ensures StepValue(from) == StepValue(to) ==> r.down == 0
    ensures StepValue(from) != StepValue(to) ==> 1 <= r.up <= 11 && r.down == r.up - 12
    ensures (StepValue(from) + r.up) % 12 == StepValue(to)
    ensures (StepValue(from) + r.down) % 12 == StepValue(to)
  {
    var index1 := PitchClassIndex(from);
    var index2 := PitchClassIndex(to);
    var up := if index2 < index1 then 11 - index1 + index2 + 1 else index2 - index1;
    var down := (if index2 > index1 then 11 - index2 + index1 + 1 else index1 - index2) * -1;
    Distance(up, down)
  }

  /**
   * `pitchShift`: the table entry `semitones` above the class (below for a
   * negative count), for any integer count.
   */
  function PitchShift(pc: PitchClass, semitones: int): (r: PitchClass)
    ensures InTable(r)
    ensures StepValue(r) == (StepValue(pc) + semitones) % 12
  {
    var index := Wrap(PitchClassIndex(pc) + semitones, 12);
    TableValue(index);
    PitchClassAt(index)
  }

  /** Shifting by `a` then by `b` is shifting by `a + b`. */
  lemma PitchShiftCompose(pc: PitchClass, a: int, b: int)
    ensures PitchShift(PitchShift(pc, a), b) == PitchShift(pc, a + b)
  {
    var y := PitchShift(pc, a);
    var x := PitchShift(y, b);
    var z := PitchShift(pc, a + b);
    ShiftsAdd(StepValue(pc), a, b, StepValue(y), StepValue(x), StepValue(z));
    InTableByValue(x, z);
  }

  /** The value after two shifts is the value after one shift by their sum. */
  lemma ShiftsAdd(v: int, a: int, b: int, vy: int, vx: int, vz: int)
    requires vy == (v + a) % 12 && vx == (vy + b) % 12 && vz == (v + (a + b)) % 12
    ensures vx == vz
  {
    ModCompose12(v, a, b, vy, vx);
  }

  /** Two reductions mod 12 in a row are one reduction of the whole sum. */
  lemma ModCompose12(v: int, a: int, b: int, vy: int, vx: int)
    requires vy == (v + a) % 12 && vx == (vy + b) % 12
    ensures vx == (v + a + b) % 12
  {
    ModAdd12(v + a, b);
  }

  /** A whole octave more changes no shift. */
  lemma PitchShiftOctave(pc: PitchClass, a: int)
    ensures PitchShift(pc, a + 12) == PitchShift(pc, a)
  {
    var v := StepValue(pc);
    ModAdd12(v + a, 12);
    InTableByValue(PitchShift(pc, a + 12), PitchShift(pc, a));
  }

  /**
   * `stepList`: the table rotated to start at the class's position, so that
   * entry `k` lies `k` semitones above the class.
   */
  function StepList(start: PitchClass): (r: seq<PitchClass>)
    ensures |r| == 12
    ensures forall k :: 0 <= k < 12 ==> r[k] == PitchClassAt((PitchClassIndex(start) + k) % 12)
    ensures forall k :: 0 <= k < 12 ==> r[k] == PitchShift(start, k)
  {
    PitchClassesTable();
    var index := PitchClassIndex(start);
    var r := PitchClasses[index..] + PitchClasses[..index];
    forall k | 0 <= k < 12
      ensures r[k] == PitchClasses[(index + k) % 12]
    {
      RotateAt(PitchClasses, index, k);
    }
    r
  }

  /** Entry `k` of a twelve-entry sequence rotated left by `n` is the entry `n + k` places round. */
  lemma RotateAt<T>(s: seq<T>, n: int, k: int)
    requires |s| == 12 && 0 <= n < 12 && 0 <= k < 12
    ensures (s[n..] + s[..n])[k] == s[(n + k) % 12]
  {
    if k < 12 - n {
      assert (s[n..] + s[..n])[k] == s[n..][k];
    } else {
      assert (s[n..] + s[..n])[k] == s[..n][k - (12 - n)];
    }
  }

  /**
   * `toMIDINumber`: twelve per octave from C-1 = 0, plus the step's value and
   * the alteration (not rolled over); none below octave -1 or outside 0..127.
   */
  function ToMidiNumber(p: Pitch): (r: Option<int>)
    ensures r.Some? <==>
      p.octave >= -1 && 0 <= 12 * (p.octave + 1) + StepBase(p.pitchClass.step) + p.pitchClass.alter <= 127
    ensures r.Some? ==> r.value == 12 * (p.octave + 1) + StepBase(p.pitchClass.step) + p.pitchClass.alter
  {
    if p.octave < -1 then None
    else
      var value := StepBase(p.pitchClass.step) + p.pitchClass.alter;
      var noteNumber := 12 * (p.octave + 1) + value;
      if 0 <= noteNumber <= 127 then Some(noteNumber) else None
  }

  /**
   * `fromMIDINumber`: the table entry of the number's place in its octave, in
   * octave `floor(n / 12) - 1`; none outside 0..127.
   */
  function FromMidiNumber(midi: int): (r: Option<Pitch>)
    ensures r.Some? <==> 0 <= midi <= 127
    ensures r.Some? ==> r.value.octave == midi / 12 - 1 && InTable(r.value.pitchClass)
    ensures r.Some? ==> StepValue(r.value.pitchClass) == midi % 12
  {
    if midi < 0 || midi > 127 then None
    else
      var octave := midi / 12 - 1;
      var value := Abs(12 * (octave + 1) - midi);
      if value < 12 then
        TableValue(value);
        Some(Pitch(PitchClassAt(value), octave))
      else None
  }

  /** Every MIDI note number comes back from its pitch. */
  lemma MidiNumberRoundTrip(n: int)
    requires 0 <= n <= 127
    ensures FromMidiNumber(n).Some? && ToMidiNumber(FromMidiNumber(n).value) == Some(n)
  {
    var p := FromMidiNumber(n).value;
    assert StepBase(p.pitchClass.step) + p.pitchClass.alter == n % 12;
  }

  /** A pitch spelled from the table comes back from its MIDI note number. */
  lemma PitchRoundTrip(p: Pitch)
    requires InTable(p.pitchClass) && ToMidiNumber(p).Some?
    ensures FromMidiNumber(ToMidiNumber(p).value) == Some(p)
  {
    var n := ToMidiNumber(p).value;
    var v := StepBase(p.pitchClass.step) + p.pitchClass.alter;
    assert 0 <= v < 12;
    assert n == 12 * (p.octave + 1) + v;
    assert n / 12 == p.octave + 1 && n % 12 == v;
    InTableByValue(FromMidiNumber(n).value.pitchClass, p.pitchClass);
  }

  /** The sign of a non-zero alteration: `alter / Math.abs(alter)`. */
  function Sign(a: int): (r: int)
    requires a != 0
    ensures r == 1 || r == -1
    ensures (r == 1) == (a > 0)
  {
    a / Abs(a)
  }

  /** Nothing to respell: a natural with no target, or a class already on its target step. */
  predicate KeepsSpelling(note: PitchClass, target: Option<Step>) {
    (target.None? && note.alter == 0) || (target.Some? && target.value == note.step)
  }

  /** The step a class is respelled on: the target, or the neighbour in the direction of the alteration. */
  function RespellStep(note: PitchClass, target: Option<Step>): (step: Step)
    requires !KeepsSpelling(note, target)
    ensures target.Some? ==> step == target.value
    ensures target.None? ==> note.alter != 0 && step == StepShift(note.step, Sign(note.alter))
  {
    if target.Some? then target.value else StepShift(note.step, Sign(note.alter))
  }

  /**
   * The shorter way from the natural of `step` to the class: the downward
   * distance when it is strictly shorter, else the upward one (0 when the
   * natural already has the class's value).
   */
  function ShorterWay(step: Step, note: PitchClass): (shorter: int)
    ensures (StepBase(step) + shorter) % 12 == StepValue(note)
    ensures -5 <= shorter <= 6
    ensures shorter == 0 <==> StepBase(step) == StepValue(note)
  {
    var natural := PitchClass(step, 0);
    assert StepValue(natural) == StepBase(step);
    var distance := PitchClassDistance(natural, note);
    if Abs(distance.down) < distance.up then distance.down else distance.up
  }

  /**
   * On a given step, a class with an alteration between -5 and 6 is fixed by
   * its value: no two such spellings share both step and value.
   */
  lemma SpellingUnique(x: PitchClass, y: PitchClass)
    requires x.step == y.step && StepValue(x) == StepValue(y)
    requires -5 <= x.alter <= 6 && -5 <= y.alter <= 6
    ensures x == y
  {
    ModUnique12(StepBase(x.step) + x.alter, StepBase(y.step) + y.alter);
  }

  /** Twelve consecutive candidates cover each residue once, so the shorter way is fixed by its value. */
  lemma ShorterWayUnique(step: Step, note: PitchClass, s: int)
    requires -5 <= s <= 6 && (StepBase(step) + s) % 12 == StepValue(note)
    ensures ShorterWay(step, note) == s
  {
    SameResidue(StepBase(step), ShorterWay(step, note), s, StepValue(note));
  }

  /** Two alterations between -5 and 6 that reach the same residue from the same base are equal. */
  lemma SameResidue(b: int, t: int, s: int, v: int)
    requires -5 <= t <= 6 && -5 <= s <= 6
    requires (b + t) % 12 == v && (b + s) % 12 == v
    ensures t == s
  {
    ModUnique12(b + t, b + s);
  }

  /**
   * `enharmonic`: respells a class on the target step, or with no target on
   * the neighbouring step in the direction of its alteration, taking the
   * shorter way from that step's natural. When the natural already has the
   * class's value the old alteration is negated instead, so that A double
   * sharp becomes B double flat: the one case where the class changes.
   */
  function Enharmonic(note: PitchClass, target: Option<Step>): (r: PitchClass)
    ensures KeepsSpelling(note, target) ==> r == note
    ensures !KeepsSpelling(note, target) ==> r.step == RespellStep(note, target)
    ensures !KeepsSpelling(note, target) && StepBase(r.step) != StepValue(note) ==>
      StepValue(r) == StepValue(note) && r.alter != 0 && -5 <= r.alter <= 6
    ensures !KeepsSpelling(note, target) && StepBase(r.step) == StepValue(note) ==> r.alter == -note.alter
  {
    if KeepsSpelling(note, target) then note
    else
      var step := RespellStep(note, target);
      var shorter := ShorterWay(step, note);
      var alter := if shorter != 0 then shorter else note.alter * -1;
      PitchClass(step, alter)
  }

  /** The table spells each natural's value with that natural. */
  lemma TableNaturals(step: Step)
    ensures PitchClassAt(StepBase(step)) == PitchClass(step, 0)
  {
  }

  /**
   * Respelling a table entry never meets the negating case, so it keeps the
   * class whatever the target.
   */
  lemma EnharmonicOfTableEntry(x: PitchClass, step: Step)
    requires InTable(x)
    ensures Enharmonic(x, Some(step)).step == step
    ensures StepValue(Enharmonic(x, Some(step))) == StepValue(x)
    ensures -5 <= Enharmonic(x, Some(step)).alter <= 6
  {
    var natural := PitchClass(step, 0);
    assert StepValue(natural) == StepBase(step);
    assert StepBase(step) == StepValue(x) ==> x == natural by {
      if StepBase(step) == StepValue(x) {
        InTableByValue(x, natural);
      }
    }
  }

  /** A respelling whose shorter way is `s`, a non-zero alteration. */
  lemma RespelledAs(note: PitchClass, target: Option<Step>, step: Step, s: int)
    requires !KeepsSpelling(note, target) && RespellStep(note, target) == step
    requires s != 0 && -5 <= s <= 6 && (StepBase(step) + s) % 12 == StepValue(note)
    ensures Enharmonic(note, target) == PitchClass(step, s)
  {
    ShorterWayUnique(step, note, s);
  }

  /** A respelling onto a natural of the class's own value negates the alteration. */
  lemma RespelledNegated(note: PitchClass, target: Option<Step>, step: Step)
    requires !KeepsSpelling(note, target) && RespellStep(note, target) == step
    requires StepBase(step) == StepValue(note)
    ensures Enharmonic(note, target) == PitchClass(step, -note.alter)
  {
  }

  /** Single alterations respelled with no target, as the repository's tests expect them. */
  lemma EnharmonicSingleWithoutTarget()
    ensures Enharmonic(PitchClass(A, 1), None) == PitchClass(B, -1)
    ensures Enharmonic(PitchClass(B, -1), None) == PitchClass(A, 1)
    ensures Enharmonic(PitchClass(G, 0), None) == PitchClass(G, 0)
  {
    assert RespellStep(PitchClass(A, 1), None) == B && RespellStep(PitchClass(B, -1), None) == A;
    assert StepValue(PitchClass(A, 1)) == 10 && StepValue(PitchClass(B, -1)) == 10;
    RespelledAs(PitchClass(A, 1), None, B, -1);
    RespelledAs(PitchClass(B, -1), None, A, 1);
  }

  /**
   * Double alterations respelled with no target, as the repository's tests
   * expect them: the neighbouring natural has the class's value, so the
   * alteration is negated and the class changes.
   */
  lemma EnharmonicDoubleWithoutTarget()
    ensures Enharmonic(PitchClass(A, 2), None) == PitchClass(B, -2)
    ensures Enharmonic(PitchClass(B, -2), None) == PitchClass(A, 2)
    ensures Enharmonic(PitchClass(C, 2), None) == PitchClass(D, -2)
    ensures StepValue(PitchClass(A, 2)) != StepValue(PitchClass(B, -2))
  {
    assert RespellStep(PitchClass(A, 2), None) == B && RespellStep(PitchClass(B, -2), None) == A;
    assert RespellStep(PitchClass(C, 2), None) == D;
    assert StepValue(PitchClass(A, 2)) == 11 && StepValue(PitchClass(B, -2)) == 9 && StepValue(PitchClass(C, 2)) == 2;
    RespelledNegated(PitchClass(A, 2), None, B);
    RespelledNegated(PitchClass(B, -2), None, A);
    RespelledNegated(PitchClass(C, 2), None, D);
  }

  /** Respellings of altered classes onto a target step, as the repository's tests expect them. */
  lemma EnharmonicAlteredWithTarget()
    ensures Enharmonic(PitchClass(A, 1), Some(B)) == PitchClass(B, -1)
    ensures Enharmonic(PitchClass(A, 1), Some(A)) == PitchClass(A, 1)
  {
    assert StepValue(PitchClass(A, 1)) == 10;
    RespelledAs(PitchClass(A, 1), Some(B), B, -1);
  }

  /** Respellings of naturals onto a neighbouring step, as the repository's tests expect them. */
  lemma EnharmonicNaturalToNeighbour()
    ensures Enharmonic(PitchClass(A, 0), Some(B)) == PitchClass(B, -2)
    ensures Enharmonic(PitchClass(B, 0), Some(C)) == PitchClass(C, -1)
    ensures Enharmonic(PitchClass(C, 0), Some(B)) == PitchClass(B, 1)
  {
    assert StepValue(PitchClass(A, 0)) == 9 && StepValue(PitchClass(B, 0)) == 11 && StepValue(PitchClass(C, 0)) == 0;
    RespelledAs(PitchClass(A, 0), Some(B), B, -2);
    RespelledAs(PitchClass(B, 0), Some(C), C, -1);
    RespelledAs(PitchClass(C, 0), Some(B), B, 1);
  }

  /** Respellings of naturals two or more steps away, as the repository's tests expect them. */
  lemma EnharmonicNaturalToDistant()
    ensures Enharmonic(PitchClass(D, 0), Some(F)) == PitchClass(F, -3)
    ensures Enharmonic(PitchClass(E, 0), Some(C)) == PitchClass(C, 4)
  {
    assert StepValue(PitchClass(D, 0)) == 2 && StepValue(PitchClass(E, 0)) == 4;
    RespelledAs(PitchClass(D, 0), Some(F), F, -3);
    RespelledAs(PitchClass(E, 0), Some(C), C, 4);
  }
}
