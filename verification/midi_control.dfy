/** Control change messages: the table of controller labels and the parser. */
module MidiControl {
  import opened Wrappers
  import opened MidiBytes

  /** The controller names of the MIDI 1.0 control change table, as the source spells them. */
  datatype Label =
    BankSelect | ModulationWheel | BreathController | Undefined | FootController
    | PortamentoTime | DataEntry | ChannelVolume | Balance | Pan | ExpressionController
    | EffectControl1 | EffectControl2 | GeneralPurpose1 | GeneralPurpose2
    | GeneralPurpose3 | GeneralPurpose4 | DamperPedal | PortamentoToggle | SostenutoPedal
    | SoftPedal | LegatoFootswitch | Hold2 | SoundVariation | TimbreHarmonicIntensity
    | ReleaseTime | AttackTime | Brightness | SoundController6 | SoundController7
    | SoundController8 | SoundController9 | SoundController10 | GeneralPurpose5
    | GeneralPurpose6 | GeneralPurpose7 | GeneralPurpose9 | PortamentoControl
    | Effects1Depth | Effects2Depth | Effects3Depth | Effects4Depth | Effects5Depth
    | DataIncrement | DataDecrement | NonRegisteredParameterNumberLSB
    | NonRegisteredParameterNumberMSB | RegisteredParameterNumberLSB
    | RegisteredParameterNumberMSB

  datatype ControlDefinition = ControlDefinition(name: Label, controlNumber: int)

  /**
   * The label table, indexed by the control number of the message. The slots for
   * 32..63, the LSB halves of controls 0..31, repeat the slot 32 places below
   * with its label and control number.
   */
  function ControlLabels(control: int): ControlDefinition
    requires IsControlNumber(control)
  {
    if IsMultiByteControlMSB(control) then ControlDefinition(LowControlLabel(control), control)
    else if IsMultiByteControlLSB(control) then ControlDefinition(LowControlLabel(control - 32), control - 32)
    else ControlDefinition(HighControlLabel(control), control)
  }

  /** The labels of the multi-byte controls 0..31. */
  function LowControlLabel(control: int): Label
    requires IsMultiByteControlMSB(control)
  {
    match control
    case 0 => BankSelect
    case 1 => ModulationWheel
    case 2 => BreathController
    case 3 => Undefined
    case 4 => FootController
    case 5 => PortamentoTime
    case 6 => DataEntry
    case 7 => ChannelVolume
    case 8 => Balance
    case 9 => Undefined
    case 10 => Pan
    case 11 => ExpressionController
    case 12 => EffectControl1
    case 13 => EffectControl2
    case 14 => Undefined
    case 15 => Undefined
    case 16 => GeneralPurpose1
    case 17 => GeneralPurpose2
    case 18 => GeneralPurpose3
    case 19 => GeneralPurpose4
    case 20 => Undefined
    case 21 => Undefined
    case 22 => Undefined
    case 23 => Undefined
    case 24 => Undefined
    case 25 => Undefined
    case 26 => Undefined
    case 27 => Undefined
    case 28 => Undefined
    case 29 => Undefined
    case 30 => Undefined
    case 31 => Undefined
    case _ => assert false; Undefined
  }

  /** The labels of the switch and single-byte controls 64..119. */
  function HighControlLabel(control: int): Label
    requires 64 <= control <= 119
  {
    match control
    case 64 => DamperPedal
    case 65 => PortamentoToggle
    case 66 => SostenutoPedal
    case 67 => SoftPedal
    case 68 => LegatoFootswitch
    case 69 => Hold2
    case 70 => SoundVariation
    case 71 => TimbreHarmonicIntensity
    case 72 => ReleaseTime
    case 73 => AttackTime
    case 74 => Brightness
    case 75 => SoundController6
    case 76 => SoundController7
    case 77 => SoundController8
    case 78 => SoundController9
    case 79 => SoundController10
    case 80 => GeneralPurpose5
    case 81 => GeneralPurpose6
    case 82 => GeneralPurpose7
    case 83 => GeneralPurpose9
    case 84 => PortamentoControl
    case 85 => Undefined
    case 86 => Undefined
    case 87 => Undefined
    case 88 => Undefined
    case 89 => Undefined
    case 90 => Undefined
    case 91 => Effects1Depth
    case 92 => Effects2Depth
    case 93 => Effects3Depth
    case 94 => Effects4Depth
    case 95 => Effects5Depth
    case 96 => DataIncrement
    case 97 => DataDecrement
    case 98 => NonRegisteredParameterNumberLSB
    case 99 => NonRegisteredParameterNumberMSB
    case 100 => RegisteredParameterNumberLSB
    case 101 => RegisteredParameterNumberMSB
    case 102 => Undefined
    case 103 => Undefined
    case 104 => Undefined
    case 105 => Undefined
    case 106 => Undefined
    case 107 => Undefined
    case 108 => Undefined
    case 109 => Undefined
    case 110 => Undefined
    case 111 => Undefined
    case 112 => Undefined
    case 113 => Undefined
    case 114 => Undefined
    case 115 => Undefined
    case 116 => Undefined
    case 117 => Undefined
    case 118 => Undefined
    case 119 => Undefined
    case _ => assert false; Undefined
  }

  /** The control numbers whose label is `undefined`, as runs of the table. */
  predicate IsUndefinedControl(control: int) {
    || control == 3 || control == 9 || 14 <= control <= 15 || 20 <= control <= 31
    || 85 <= control <= 90 || 102 <= control <= 119
  }

  /**
   * The control number each defined label stands for, written out label by label
   * as an independent reading of the table; `Undefined` names no single control.
   */
  function LabelControlNumber(name: Label): int {
    match name
    case BankSelect => 0
    case ModulationWheel => 1
    case BreathController => 2
    case Undefined => -1
    case FootController => 4
    case PortamentoTime => 5
    case DataEntry => 6
    case ChannelVolume => 7
    case Balance => 8
    case Pan => 10
    case ExpressionController => 11
    case EffectControl1 => 12
    case EffectControl2 => 13
    case GeneralPurpose1 => 16
    case GeneralPurpose2 => 17
    case GeneralPurpose3 => 18
    case GeneralPurpose4 => 19
    case DamperPedal => 64
    case PortamentoToggle => 65
    case SostenutoPedal => 66
    case SoftPedal => 67
    case LegatoFootswitch => 68
    case Hold2 => 69
    case SoundVariation => 70
    case TimbreHarmonicIntensity => 71
    case ReleaseTime => 72
    case AttackTime => 73
    case Brightness => 74
    case SoundController6 => 75
    case SoundController7 => 76
    case SoundController8 => 77
    case SoundController9 => 78
    case SoundController10 => 79
    case GeneralPurpose5 => 80
    case GeneralPurpose6 => 81
    case GeneralPurpose7 => 82
    case GeneralPurpose9 => 83
    case PortamentoControl => 84
    case Effects1Depth => 91
    case Effects2Depth => 92
    case Effects3Depth => 93
    case Effects4Depth => 94
    case Effects5Depth => 95
    case DataIncrement => 96
    case DataDecrement => 97
    case NonRegisteredParameterNumberLSB => 98
    case NonRegisteredParameterNumberMSB => 99
    case RegisteredParameterNumberLSB => 100
    case RegisteredParameterNumberMSB => 101
  }

  predicate IsControlNumber(value: int) { 0 <= value <= 119 }
  predicate IsSingleByteControlNumber(value: int) { 70 <= value <= 119 }
  predicate IsSwitchControlNumber(value: int) { 64 <= value <= 69 }
  predicate IsMultiByteControlMSB(value: int) { 0 <= value <= 31 }
  predicate IsMultiByteControlLSB(value: int) { 32 <= value <= 63 }
  predicate IsNonRegisteredLSB(control: int) { control == 98 }
  predicate IsNonRegisteredMSB(control: int) { control == 99 }
  predicate IsRegisteredLSB(control: int) { control == 100 }
  predicate IsRegisteredMSB(control: int) { control == 101 }
  predicate IsRegisteredParameterNumber(value: int) { 0 <= value <= 4 }

  /**
   * The four control classes cover the control numbers and do not overlap, and
   * the parameter number controls 98..101 are single-byte controls.
   */
  lemma ControlClassesPartition(value: int)
    ensures IsControlNumber(value) <==>
      IsMultiByteControlMSB(value) || IsMultiByteControlLSB(value)
      || IsSwitchControlNumber(value) || IsSingleByteControlNumber(value)
    ensures !(IsMultiByteControlMSB(value) && IsMultiByteControlLSB(value))
    ensures !((IsMultiByteControlMSB(value) || IsMultiByteControlLSB(value)) && IsSwitchControlNumber(value))
    ensures !((IsMultiByteControlMSB(value) || IsMultiByteControlLSB(value) || IsSwitchControlNumber(value))
              && IsSingleByteControlNumber(value))
    ensures (IsNonRegisteredLSB(value) || IsNonRegisteredMSB(value) || IsRegisteredLSB(value)
             || IsRegisteredMSB(value)) ==> IsSingleByteControlNumber(value)
  {
  }

  /** The control a table slot describes: its own number, or for an LSB slot its MSB partner. */
  function SlotControlNumber(i: int): int {
    if IsMultiByteControlLSB(i) then i - 32 else i
  }

  /** What one slot of the table must satisfy for the state keyed by label to be sound. */
  predicate SlotAgrees(i: int)
    requires IsControlNumber(i)
  {
    var d := ControlLabels(i);
    && d.controlNumber == SlotControlNumber(i)
    && (IsMultiByteControlLSB(i) ==> d.name == ControlLabels(i - 32).name)
    && (d.name == Undefined <==> IsUndefinedControl(d.controlNumber))
    && (d.name != Undefined ==> LabelControlNumber(d.name) == d.controlNumber)
  }

  /** The slots of the table, four at a time, each evaluated by the solver. */
  lemma SlotsAgreeFrom0()
    ensures forall i :: 0 <= i < 4 ==> SlotAgrees(i)
  {
    assert SlotAgrees(0); assert SlotAgrees(1); assert SlotAgrees(2); assert SlotAgrees(3);
    forall i | 0 <= i < 4
      ensures SlotAgrees(i)
    {
      assert i == 0 || i == 1 || i == 2 || i == 3;
    }
  }

  lemma SlotsAgreeFrom4()
    ensures forall i :: 4 <= i < 8 ==> SlotAgrees(i)
  {
    assert SlotAgrees(4); assert SlotAgrees(5); assert SlotAgrees(6); assert SlotAgrees(7);
    forall i | 4 <= i < 8
      ensures SlotAgrees(i)
    {
      assert i == 4 || i == 5 || i == 6 || i == 7;
    }
  }

  lemma SlotsAgreeFrom8()
    ensures forall i :: 8 <= i < 12 ==> SlotAgrees(i)
  {
    assert SlotAgrees(8); assert SlotAgrees(9); assert SlotAgrees(10); assert SlotAgrees(11);
    forall i | 8 <= i < 12
      ensures SlotAgrees(i)
    {
      assert i == 8 || i == 9 || i == 10 || i == 11;
    }
  }

  lemma SlotsAgreeFrom12()
    ensures forall i :: 12 <= i < 16 ==> SlotAgrees(i)
  {
    assert SlotAgrees(12); assert SlotAgrees(13); assert SlotAgrees(14); assert SlotAgrees(15);
    forall i | 12 <= i < 16
      ensures SlotAgrees(i)
    {
      assert i == 12 || i == 13 || i == 14 || i == 15;
    }
  }

  lemma SlotsAgreeFrom16()
    ensures forall i :: 16 <= i < 20 ==> SlotAgrees(i)
  {
    assert SlotAgrees(16); assert SlotAgrees(17); assert SlotAgrees(18); assert SlotAgrees(19);
    forall i | 16 <= i < 20
      ensures SlotAgrees(i)
    {
      assert i == 16 || i == 17 || i == 18 || i == 19;
    }
  }

  lemma SlotsAgreeFrom20()
    ensures forall i :: 20 <= i < 24 ==> SlotAgrees(i)
  {
    assert SlotAgrees(20); assert SlotAgrees(21); assert SlotAgrees(22); assert SlotAgrees(23);
    forall i | 20 <= i < 24
      ensures SlotAgrees(i)
    {
      assert i == 20 || i == 21 || i == 22 || i == 23;
    }
  }

  lemma SlotsAgreeFrom24()
    ensures forall i :: 24 <= i < 28 ==> SlotAgrees(i)
  {
    assert SlotAgrees(24); assert SlotAgrees(25); assert SlotAgrees(26); assert SlotAgrees(27);
    forall i | 24 <= i < 28
      ensures SlotAgrees(i)
    {
      assert i == 24 || i == 25 || i == 26 || i == 27;
    }
  }

  lemma SlotsAgreeFrom28()
    ensures forall i :: 28 <= i < 32 ==> SlotAgrees(i)
  {
    assert SlotAgrees(28); assert SlotAgrees(29); assert SlotAgrees(30); assert SlotAgrees(31);
    forall i | 28 <= i < 32
      ensures SlotAgrees(i)
    {
      assert i == 28 || i == 29 || i == 30 || i == 31;
    }
  }

  lemma SlotsAgreeFrom32()
    ensures forall i :: 32 <= i < 36 ==> SlotAgrees(i)
  {
    assert SlotAgrees(32); assert SlotAgrees(33); assert SlotAgrees(34); assert SlotAgrees(35);
    forall i | 32 <= i < 36
      ensures SlotAgrees(i)
    {
      assert i == 32 || i == 33 || i == 34 || i == 35;
    }
  }

  lemma SlotsAgreeFrom36()
    ensures forall i :: 36 <= i < 40 ==> SlotAgrees(i)
  {
    assert SlotAgrees(36); assert SlotAgrees(37); assert SlotAgrees(38); assert SlotAgrees(39);
    forall i | 36 <= i < 40
      ensures SlotAgrees(i)
    {
      assert i == 36 || i == 37 || i == 38 || i == 39;
    }
  }

  lemma SlotsAgreeFrom40()
    ensures forall i :: 40 <= i < 44 ==> SlotAgrees(i)
  {
    assert SlotAgrees(40); assert SlotAgrees(41); assert SlotAgrees(42); assert SlotAgrees(43);
    forall i | 40 <= i < 44
      ensures SlotAgrees(i)
    {
      assert i == 40 || i == 41 || i == 42 || i == 43;
    }
  }

  lemma SlotsAgreeFrom44()
    ensures forall i :: 44 <= i < 48 ==> SlotAgrees(i)
  {
    assert SlotAgrees(44); assert SlotAgrees(45); assert SlotAgrees(46); assert SlotAgrees(47);
    forall i | 44 <= i < 48
      ensures SlotAgrees(i)
    {
      assert i == 44 || i == 45 || i == 46 || i == 47;
    }
  }

  lemma SlotsAgreeFrom48()
    ensures forall i :: 48 <= i < 52 ==> SlotAgrees(i)
  {
    assert SlotAgrees(48); assert SlotAgrees(49); assert SlotAgrees(50); assert SlotAgrees(51);
    forall i | 48 <= i < 52
      ensures SlotAgrees(i)
    {
      assert i == 48 || i == 49 || i == 50 || i == 51;
    }
  }

  lemma SlotsAgreeFrom52()
    ensures forall i :: 52 <= i < 56 ==> SlotAgrees(i)
  {
    assert SlotAgrees(52); assert SlotAgrees(53); assert SlotAgrees(54); assert SlotAgrees(55);
    forall i | 52 <= i < 56
      ensures SlotAgrees(i)
    {
      assert i == 52 || i == 53 || i == 54 || i == 55;
    }
  }

  lemma SlotsAgreeFrom56()
    ensures forall i :: 56 <= i < 60 ==> SlotAgrees(i)
  {
    assert SlotAgrees(56); assert SlotAgrees(57); assert SlotAgrees(58); assert SlotAgrees(59);
    forall i | 56 <= i < 60
      ensures SlotAgrees(i)
    {
      assert i == 56 || i == 57 || i == 58 || i == 59;
    }
  }

  lemma SlotsAgreeFrom60()
    ensures forall i :: 60 <= i < 64 ==> SlotAgrees(i)
  {
    assert SlotAgrees(60); assert SlotAgrees(61); assert SlotAgrees(62); assert SlotAgrees(63);
    forall i | 60 <= i < 64
      ensures SlotAgrees(i)
    {
      assert i == 60 || i == 61 || i == 62 || i == 63;
    }
  }

  lemma SlotsAgreeFrom64()
    ensures forall i :: 64 <= i < 68 ==> SlotAgrees(i)
  {
    assert SlotAgrees(64); assert SlotAgrees(65); assert SlotAgrees(66); assert SlotAgrees(67);
    forall i | 64 <= i < 68
      ensures SlotAgrees(i)
    {
      assert i == 64 || i == 65 || i == 66 || i == 67;
    }
  }

  lemma SlotsAgreeFrom68()
    ensures forall i :: 68 <= i < 72 ==> SlotAgrees(i)
  {
    assert SlotAgrees(68); assert SlotAgrees(69); assert SlotAgrees(70); assert SlotAgrees(71);
    forall i | 68 <= i < 72
      ensures SlotAgrees(i)
    {
      assert i == 68 || i == 69 || i == 70 || i == 71;
    }
  }

  lemma SlotsAgreeFrom72()
    ensures forall i :: 72 <= i < 76 ==> SlotAgrees(i)
  {
    assert SlotAgrees(72); assert SlotAgrees(73); assert SlotAgrees(74); assert SlotAgrees(75);
    forall i | 72 <= i < 76
      ensures SlotAgrees(i)
    {
      assert i == 72 || i == 73 || i == 74 || i == 75;
    }
  }

  lemma SlotsAgreeFrom76()
    ensures forall i :: 76 <= i < 80 ==> SlotAgrees(i)
  {
    assert SlotAgrees(76); assert SlotAgrees(77); assert SlotAgrees(78); assert SlotAgrees(79);
    forall i | 76 <= i < 80
      ensures SlotAgrees(i)
    {
      assert i == 76 || i == 77 || i == 78 || i == 79;
    }
  }

  lemma SlotsAgreeFrom80()
    ensures forall i :: 80 <= i < 84 ==> SlotAgrees(i)
  {
    assert SlotAgrees(80); assert SlotAgrees(81); assert SlotAgrees(82); assert SlotAgrees(83);
    forall i | 80 <= i < 84
      ensures SlotAgrees(i)
    {
      assert i == 80 || i == 81 || i == 82 || i == 83;
    }
  }

  lemma SlotsAgreeFrom84()
    ensures forall i :: 84 <= i < 88 ==> SlotAgrees(i)
  {
    assert SlotAgrees(84); assert SlotAgrees(85); assert SlotAgrees(86); assert SlotAgrees(87);
    forall i | 84 <= i < 88
      ensures SlotAgrees(i)
    {
      assert i == 84 || i == 85 || i == 86 || i == 87;
    }
  }

  lemma SlotsAgreeFrom88()
    ensures forall i :: 88 <= i < 92 ==> SlotAgrees(i)
  {
    assert SlotAgrees(88); assert SlotAgrees(89); assert SlotAgrees(90); assert SlotAgrees(91);
    forall i | 88 <= i < 92
      ensures SlotAgrees(i)
    {
      assert i == 88 || i == 89 || i == 90 || i == 91;
    }
  }

  lemma SlotsAgreeFrom92()
    ensures forall i :: 92 <= i < 96 ==> SlotAgrees(i)
  {
    assert SlotAgrees(92); assert SlotAgrees(93); assert SlotAgrees(94); assert SlotAgrees(95);
    forall i | 92 <= i < 96
      ensures SlotAgrees(i)
    {
      assert i == 92 || i == 93 || i == 94 || i == 95;
    }
  }

  lemma SlotsAgreeFrom96()
    ensures forall i :: 96 <= i < 100 ==> SlotAgrees(i)
  {
    assert SlotAgrees(96); assert SlotAgrees(97); assert SlotAgrees(98); assert SlotAgrees(99);
    forall i | 96 <= i < 100
      ensures SlotAgrees(i)
    {
      assert i == 96 || i == 97 || i == 98 || i == 99;
    }
  }

  lemma SlotsAgreeFrom100()
    ensures forall i :: 100 <= i < 104 ==> SlotAgrees(i)
  {
    assert SlotAgrees(100); assert SlotAgrees(101); assert SlotAgrees(102); assert SlotAgrees(103);
    forall i | 100 <= i < 104
      ensures SlotAgrees(i)
    {
      assert i == 100 || i == 101 || i == 102 || i == 103;
    }
  }

  lemma SlotsAgreeFrom104()
    ensures forall i :: 104 <= i < 108 ==> SlotAgrees(i)
  {
    assert SlotAgrees(104); assert SlotAgrees(105); assert SlotAgrees(106); assert SlotAgrees(107);
    forall i | 104 <= i < 108
      ensures SlotAgrees(i)
    {
      assert i == 104 || i == 105 || i == 106 || i == 107;
    }
  }

  lemma SlotsAgreeFrom108()
    ensures forall i :: 108 <= i < 112 ==> SlotAgrees(i)
  {
    assert SlotAgrees(108); assert SlotAgrees(109); assert SlotAgrees(110); assert SlotAgrees(111);
    forall i | 108 <= i < 112
      ensures SlotAgrees(i)
    {
      assert i == 108 || i == 109 || i == 110 || i == 111;
    }
  }

  lemma SlotsAgreeFrom112()
    ensures forall i :: 112 <= i < 116 ==> SlotAgrees(i)
  {
    assert SlotAgrees(112); assert SlotAgrees(113); assert SlotAgrees(114); assert SlotAgrees(115);
    forall i | 112 <= i < 116
      ensures SlotAgrees(i)
    {
      assert i == 112 || i == 113 || i == 114 || i == 115;
    }
  }

  lemma SlotsAgreeFrom116()
    ensures forall i :: 116 <= i < 120 ==> SlotAgrees(i)
  {
    assert SlotAgrees(116); assert SlotAgrees(117); assert SlotAgrees(118); assert SlotAgrees(119);
    forall i | 116 <= i < 120
      ensures SlotAgrees(i)
    {
      assert i == 116 || i == 117 || i == 118 || i == 119;
    }
  }

  /**
   * The table has one slot per control number 0..119; every slot names its own
   * control except the LSB slots, which repeat the MSB slot 32 places below;
   * a slot is `undefined` exactly when its control is one of the undefined runs.
   */
  lemma ControlTableShape()
    ensures forall i :: IsControlNumber(i) ==> SlotAgrees(i)
  {
    SlotsAgreeFrom0();
    SlotsAgreeFrom4();
    SlotsAgreeFrom8();
    SlotsAgreeFrom12();
    SlotsAgreeFrom16();
    SlotsAgreeFrom20();
    SlotsAgreeFrom24();
    SlotsAgreeFrom28();
    SlotsAgreeFrom32();
    SlotsAgreeFrom36();
    SlotsAgreeFrom40();
    SlotsAgreeFrom44();
    SlotsAgreeFrom48();
    SlotsAgreeFrom52();
    SlotsAgreeFrom56();
    SlotsAgreeFrom60();
    SlotsAgreeFrom64();
    SlotsAgreeFrom68();
    SlotsAgreeFrom72();
    SlotsAgreeFrom76();
    SlotsAgreeFrom80();
    SlotsAgreeFrom84();
    SlotsAgreeFrom88();
    SlotsAgreeFrom92();
    SlotsAgreeFrom96();
    SlotsAgreeFrom100();
    SlotsAgreeFrom104();
    SlotsAgreeFrom108();
    SlotsAgreeFrom112();
    SlotsAgreeFrom116();
  }

  /**
   * A defined label belongs to one control: two control numbers outside the LSB
   * range that carry the same defined label are equal, so keying the channel's
   * control state by label never merges two controls.
   */
  lemma DefinedLabelsIdentifyControls(i: int, j: int)
    requires IsControlNumber(i) && !IsMultiByteControlLSB(i)
    requires IsControlNumber(j) && !IsMultiByteControlLSB(j)
    requires ControlLabels(i).name == ControlLabels(j).name != Undefined
    ensures i == j
  {
    ControlTableShape();
    assert SlotAgrees(i) && SlotAgrees(j);
  }

  /**
   * The payload of a control change: a half of a 14-bit value (the MSB message
   * resets the LSB to 0, the LSB message carries no MSB), a switch position,
   * or a 7-bit value.
   */
  datatype ControlProps =
    | MultiByte(msb: Option<int>, lsb: int)
    | Switch(enabled: bool)
    | SingleByte(value: int)

  /** A parsed control change; the channel is carried by the enclosing message. */
  datatype ControlChange = ControlChange(name: Label, controlNumber: int, props: ControlProps)

  /**
   * The control change messages the parser can produce: the label and number come
   * from the table, the payload kind matches the control's class and its bytes
   * are data bytes.
   */
  predicate WellFormed(cc: ControlChange) {
    && IsControlNumber(cc.controlNumber)
    && !IsMultiByteControlLSB(cc.controlNumber)
    && cc.name == ControlLabels(cc.controlNumber).name
    && match cc.props
       case MultiByte(msb, lsb) =>
         && IsMultiByteControlMSB(cc.controlNumber)
         && IsDataByte(lsb)
         && (msb.Some? ==> IsDataByte(msb.value) && lsb == 0)
       case Switch(_) => IsSwitchControlNumber(cc.controlNumber)
       case SingleByte(value) =>
         && IsSingleByteControlNumber(cc.controlNumber)
         && IsDataByte(value)
         && (IsRegisteredLSB(cc.controlNumber) ==> IsRegisteredParameterNumber(value))
  }

  /**
   * The control change parser. `None` is the source's empty message: a number
   * outside 0..119, or a registered parameter number LSB whose value is not one
   * of the five registered parameters.
   */
  function Parse(control: int, value: int): (r: Option<ControlChange>)
    ensures r.Some? <==>
      IsControlNumber(control) && !(IsRegisteredLSB(control) && !IsRegisteredParameterNumber(value))
    ensures r.Some? ==> r.value.controlNumber == SlotControlNumber(control)
    ensures r.Some? ==> r.value.name == ControlLabels(r.value.controlNumber).name
    ensures r.Some? && IsDataByte(value) ==> WellFormed(r.value)
    ensures r.Some? ==> (r.value.props.Switch? <==> IsSwitchControlNumber(control))
    ensures r.Some? && r.value.props.Switch? ==> (r.value.props.enabled <==> value >= 64)
    ensures r.Some? && r.value.props.MultiByte? ==>
      (r.value.props.msb.Some? <==> IsMultiByteControlMSB(control))
    ensures r.Some? && IsMultiByteControlMSB(control) ==> r.value.props == MultiByte(Some(value), 0)
    ensures r.Some? && IsMultiByteControlLSB(control) ==> r.value.props == MultiByte(None, value)
    ensures r.Some? && IsSingleByteControlNumber(control) ==> r.value.props == SingleByte(value)
  {
    ControlTableShape();
    if IsMultiByteControlMSB(control) then
      var d := ControlLabels(control);
      Some(ControlChange(d.name, d.controlNumber, MultiByte(Some(value), 0)))
    else if IsMultiByteControlLSB(control) then
      var d := ControlLabels(control);
      Some(ControlChange(d.name, d.controlNumber, MultiByte(None, value)))
    else if IsSwitchControlNumber(control) then
      var d := ControlLabels(control);
      Some(ControlChange(d.name, d.controlNumber, Switch(value >= 64)))
    else if IsSingleByteControlNumber(control) then
      if IsRegisteredLSB(control) && !IsRegisteredParameterNumber(value) then None
      else
        var d := ControlLabels(control);
        Some(ControlChange(d.name, d.controlNumber, SingleByte(value)))
    else None
  }

  /** The stored state of one control: a 14-bit pair, a switch, or a 7-bit value. */
  datatype ControlValue =
    | MultiByteState(msb: int, lsb: int, value: int)
    | SwitchState(enabled: bool)
    | SingleByteState(value: int)

  /**
   * A channel's controls: the defined controls keyed by label, and the
   * `undefined` ones keyed by control number. The registered and non-registered
   * parameter tables are never written and are not modelled.
   */
  datatype ControlState = ControlState(labelled: map<Label, ControlValue>, undefinedControls: map<int, ControlValue>)

  const EmptyControls: ControlState := ControlState(map[], map[])

  /** A stored 14-bit pair holds data bytes and the value they combine to. */
  predicate ValueConsistent(v: ControlValue) {
    v.MultiByteState? ==>
      IsDataByte(v.msb) && IsDataByte(v.lsb) && v.value == v.msb * 128 + v.lsb
  }

  predicate ControlsConsistent(controls: ControlState) {
    && (forall l :: l in controls.labelled ==> ValueConsistent(controls.labelled[l]))
    && (forall n :: n in controls.undefinedControls ==> ValueConsistent(controls.undefinedControls[n]))
  }
}
