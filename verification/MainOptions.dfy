/**
 The option table of the command line tool, its variables, and what the values of the variables
 ask for. The main results tie a whole command line to the settings that are applied.
 */
module MainOptions {
  import opened Words
  import opened Numerals
  import opened ArgOptions
  import opened ArgSemantics
  import opened ArgValues
  import opened Setters

  const ARG_UNSET: Word := 0xFFFF_FFFF

  // ---------------------------------------------------------------- the variables of main

  /** The setting main applies as number `k`. */
  function At(k: nat): Setting
    requires k < 42
  {
    match k
    case 0 => StapmLimit
    case 1 => FastLimit
    case 2 => SlowLimit
    case 3 => SlowTime
    case 4 => StapmTime
    case 5 => TctlTemp
    case 6 => VrmCurrent
    case 7 => VrmSocCurrent
    case 8 => VrmGfxCurrent
    case 9 => VrmCvipCurrent
    case 10 => VrmMaxCurrent
    case 11 => VrmSocMaxCurrent
    case 12 => VrmGfxMaxCurrent
    case 13 => Psi0Current
    case 14 => Psi3CpuCurrent
    case 15 => Psi0SocCurrent
    case 16 => Psi3GfxCurrent
    case 17 => MaxSocclkFreq
    case 18 => MinSocclkFreq
    case 19 => MaxFclkFreq
    case 20 => MinFclkFreq
    case 21 => MaxVcn
    case 22 => MinVcn
    case 23 => MaxLclk
    case 24 => MinLclk
    case 25 => MaxGfxclkFreq
    case 26 => MinGfxclkFreq
    case 27 => ProchotDeassertionRamp
    case 28 => ApuSkinTempLimit
    case 29 => DgpuSkinTempLimit
    case 30 => ApuSlowLimit
    case 31 => SkinTempPowerLimit
    case 32 => GfxClk
    case 33 => EnableOc
    case 34 => OcClk
    case 35 => OcVolt
    case 36 => DisableOc
    case 37 => PowerSaving
    case 38 => MaxPerformance
    case 39 => CoAll
    case 40 => CoPer
    case _ => CoGfx
  }

  /** The variable of a setting. */
  function Slot(s: Setting): (k: nat)
    ensures k < 42
  {
    match s
    case StapmLimit => 0
    case FastLimit => 1
    case SlowLimit => 2
    case SlowTime => 3
    case StapmTime => 4
    case TctlTemp => 5
    case VrmCurrent => 6
    case VrmSocCurrent => 7
    case VrmGfxCurrent => 8
    case VrmCvipCurrent => 9
    case VrmMaxCurrent => 10
    case VrmSocMaxCurrent => 11
    case VrmGfxMaxCurrent => 12
    case Psi0Current => 13
    case Psi3CpuCurrent => 14
    case Psi0SocCurrent => 15
    case Psi3GfxCurrent => 16
    case MaxSocclkFreq => 17
    case MinSocclkFreq => 18
    case MaxFclkFreq => 19
    case MinFclkFreq => 20
    case MaxVcn => 21
    case MinVcn => 22
    case MaxLclk => 23
    case MinLclk => 24
    case MaxGfxclkFreq => 25
    case MinGfxclkFreq => 26
    case ProchotDeassertionRamp => 27
    case ApuSkinTempLimit => 28
    case DgpuSkinTempLimit => 29
    case ApuSlowLimit => 30
    case SkinTempPowerLimit => 31
    case GfxClk => 32
    case EnableOc => 33
    case OcClk => 34
    case OcVolt => 35
    case DisableOc => 36
    case PowerSaving => 37
    case MaxPerformance => 38
    case CoAll => 39
    case CoPer => 40
    case CoGfx => 41
  }

  const INFO_SLOT: nat := 42
  const DUMP_SLOT: nat := 43
  const CELLS: nat := 44

  lemma SlotOf(s: Setting)
    ensures At(Slot(s)) == s
  {
    if Slot(s) < 21 {
    }
  }

  lemma SlotAt(k: nat)
    requires k < 42
    ensures Slot(At(k)) == k
  {
  }

  predicate IsOffset(s: Setting) {
    s == CoAll || s == CoPer || s == CoGfx
  }

  function TypeOf(s: Setting): OptType {
    if IsFlag(s) then Boolean else if IsOffset(s) then CO32 else U32
  }

  function Unset(s: Setting): Cell {
    IntCell(if IsFlag(s) then 0 else if IsOffset(s) then CO_UNSET else ARG_UNSET)
  }

  function InitialStore(): (store: seq<Cell>)
    ensures |store| == CELLS
  {
    seq(CELLS, k requires 0 <= k => if k < 42 then Unset(At(k)) else IntCell(0))
  }

  // ---------------------------------------------------------------- the option table

  function LongName(s: Setting): string {
    match s
    case StapmLimit => "stapm-limit"
    case FastLimit => "fast-limit"
    case SlowLimit => "slow-limit"
    case SlowTime => "slow-time"
    case StapmTime => "stapm-time"
    case TctlTemp => "tctl-temp"
    case VrmCurrent => "vrm-current"
    case VrmSocCurrent => "vrmsoc-current"
    case VrmGfxCurrent => "vrmgfx-current"
    case VrmCvipCurrent => "vrmcvip-current"
    case VrmMaxCurrent => "vrmmax-current"
    case VrmSocMaxCurrent => "vrmsocmax-current"
    case VrmGfxMaxCurrent => "vrmgfxmax_current"
    case Psi0Current => "psi0-current"
    case Psi3CpuCurrent => "psi3cpu_current"
    case Psi0SocCurrent => "psi0soc-current"
    case Psi3GfxCurrent => "psi3gfx_current"
    case MaxSocclkFreq => "max-socclk-frequency"
    case MinSocclkFreq => "min-socclk-frequency"
    case MaxFclkFreq => "max-fclk-frequency"
    case MinFclkFreq => "min-fclk-frequency"
    case MaxVcn => "max-vcn"
    case MinVcn => "min-vcn"
    case MaxLclk => "max-lclk"
    case MinLclk => "min-lclk"
    case MaxGfxclkFreq => "max-gfxclk"
    case MinGfxclkFreq => "min-gfxclk"
    case ProchotDeassertionRamp => "prochot-deassertion-ramp"
    case ApuSkinTempLimit => "apu-skin-temp"
    case DgpuSkinTempLimit => "dgpu-skin-temp"
    case ApuSlowLimit => "apu-slow-limit"
    case SkinTempPowerLimit => "skin-temp-limit"
    case GfxClk => "gfx-clk"
    case EnableOc => "enable-oc"
    case OcClk => "oc-clk"
    case OcVolt => "oc-volt"
    case DisableOc => "disable-oc"
    case PowerSaving => "power-saving"
    case MaxPerformance => "max-performance"
    case CoAll => "set-coall"
    case CoPer => "set-coper"
    case CoGfx => "set-cogfx"
  }

  function ShortName(s: Setting): Option<char> {
    match s
    case StapmLimit => Some('a')
    case FastLimit => Some('b')
    case SlowLimit => Some('c')
    case SlowTime => Some('d')
    case StapmTime => Some('e')
    case TctlTemp => Some('f')
    case VrmCurrent => Some('g')
    case VrmSocCurrent => Some('j')
    case VrmMaxCurrent => Some('k')
    case VrmSocMaxCurrent => Some('l')
    case Psi0Current => Some('m')
    case Psi0SocCurrent => Some('n')
    case MaxSocclkFreq => Some('o')
    case MinSocclkFreq => Some('p')
    case MaxFclkFreq => Some('q')
    case MinFclkFreq => Some('r')
    case MaxVcn => Some('s')
    case MinVcn => Some('t')
    case MaxLclk => Some('u')
    case MinLclk => Some('v')
    case MaxGfxclkFreq => Some('w')
    case MinGfxclkFreq => Some('x')
    case ProchotDeassertionRamp => Some('y')
    case _ => None
  }

  function Row(s: Setting): Opt {
    Opt(TypeOf(s), ShortName(s), Some(LongName(s)), Some(Slot(s)), 0, false, false)
  }

  /** The table lists the settings in the order in which they are applied, except for the last nine. */
  function TableAt(k: nat): Setting
    requires k < 42
  {
    match k
    case 33 => OcClk
    case 34 => OcVolt
    case 35 => EnableOc
    case 36 => DisableOc
    case 37 => CoAll
    case 38 => CoPer
    case 39 => CoGfx
    case 40 => PowerSaving
    case 41 => MaxPerformance
    case _ => At(k)
  }

  function Heading(): Opt {
    Opt(Group, None, None, None, 0, false, false)
  }

  function Preamble(): seq<Opt> {
    [Opt(Boolean, Some('h'), Some("help"), None, 0, true, true),
     Heading(),
     Opt(Boolean, Some('i'), Some("info"), Some(INFO_SLOT), 0, false, false),
     Opt(Boolean, None, Some("dump-table"), Some(DUMP_SLOT), 0, false, false),
     Heading()]
  }

  function Table(): (t: seq<Opt>) {
    Preamble() + seq(42, k requires 0 <= k < 42 => Row(TableAt(k))) + [Heading()]
  }

  /** Non-option arguments are errors. */
  function MainConf(): Conf {
    Conf(Table(), false, true)
  }

  // ---------------------------------------------------------------- the table is regular and its names differ

  /** Recognises a setting by three characters of its name. */
  function Recognise(n: string): Option<Setting>
    requires |n| > 1
  {
    match (n[1], n[|n| - 1], n[|n| / 3])
    case ('t', 't', 'p') => Some(StapmLimit)
    case ('a', 't', 't') => Some(FastLimit)
    case ('l', 't', 'w') => Some(SlowLimit)
    case ('l', 'e', 'w') => Some(SlowTime)
    case ('t', 'e', 'p') => Some(StapmTime)
    case ('c', 'p', 'l') => Some(TctlTemp)
    case ('r', 't', '-') => Some(VrmCurrent)
    case ('r', 't', 'o') => Some(VrmSocCurrent)
    case ('r', 't', 'f') => Some(VrmGfxCurrent)
    case ('r', 't', 'i') => Some(VrmCvipCurrent)
    case ('r', 't', 'a') => Some(VrmMaxCurrent)
    case ('r', 't', 'c') => Some(VrmSocMaxCurrent)
    case ('r', 't', 'x') => Some(VrmGfxMaxCurrent)
    case ('s', 't', '-') => Some(Psi0Current)
    case ('s', 't', 'p') => Some(Psi3CpuCurrent)
    case ('s', 't', 'o') => Some(Psi0SocCurrent)
    case ('s', 't', 'f') => Some(Psi3GfxCurrent)
    case ('a', 'y', 'c') => Some(MaxSocclkFreq)
    case ('i', 'y', 'c') => Some(MinSocclkFreq)
    case ('a', 'y', 'l') => Some(MaxFclkFreq)
    case ('i', 'y', 'l') => Some(MinFclkFreq)
    case ('a', 'n', 'x') => Some(MaxVcn)
    case ('i', 'n', 'n') => Some(MinVcn)
    case ('a', 'k', 'x') => Some(MaxLclk)
    case ('i', 'k', 'n') => Some(MinLclk)
    case ('a', 'k', '-') => Some(MaxGfxclkFreq)
    case ('i', 'k', '-') => Some(MinGfxclkFreq)
    case ('r', 'p', 'd') => Some(ProchotDeassertionRamp)
    case ('p', 'p', 's') => Some(ApuSkinTempLimit)
    case ('g', 'p', '-') => Some(DgpuSkinTempLimit)
    case ('p', 't', 's') => Some(ApuSlowLimit)
    case ('k', 't', 't') => Some(SkinTempPowerLimit)
    case ('f', 'k', 'x') => Some(GfxClk)
    case ('n', 'c', 'b') => Some(EnableOc)
    case ('c', 'k', '-') => Some(OcClk)
    case ('c', 't', '-') => Some(OcVolt)
    case ('i', 'c', 'a') => Some(DisableOc)
    case ('o', 'g', 'r') => Some(PowerSaving)
    case ('a', 'e', 'e') => Some(MaxPerformance)
    case ('e', 'l', '-') => Some(CoAll)
    case ('e', 'r', '-') => Some(CoPer)
    case ('e', 'x', '-') => Some(CoGfx)
    case _ => None
  }

  lemma NameMarksPower(s: Setting)
    requires Slot(s) < 8
    ensures |LongName(s)| > 3 && Recognise(LongName(s)) == Some(s)
  {
  }

  lemma NameMarksCurrent(s: Setting)
    requires 8 <= Slot(s) < 13
    ensures |LongName(s)| > 3 && Recognise(LongName(s)) == Some(s)
  {
  }

  lemma NameMarksPsi(s: Setting)
    requires 13 <= Slot(s) < 17
    ensures |LongName(s)| > 3 && Recognise(LongName(s)) == Some(s)
  {
  }

  lemma NameMarksClock(s: Setting)
    requires 17 <= Slot(s) < 27
    ensures |LongName(s)| > 3 && Recognise(LongName(s)) == Some(s)
  {
  }

  lemma NameMarksLimit(s: Setting)
    requires 27 <= Slot(s) < 34
    ensures |LongName(s)| > 3 && Recognise(LongName(s)) == Some(s)
  {
  }

  lemma NameMarksSwitch(s: Setting)
    requires 34 <= Slot(s)
    ensures |LongName(s)| > 3 && Recognise(LongName(s)) == Some(s)
  {
  }

  lemma NameMarks(s: Setting)
    ensures |LongName(s)| > 3 && Recognise(LongName(s)) == Some(s)
  {
    hide LongName;
    hide Recognise;
    if Slot(s) < 8 {
      NameMarksPower(s);
    } else if Slot(s) < 13 {
      NameMarksCurrent(s);
    } else if Slot(s) < 17 {
      NameMarksPsi(s);
    } else if Slot(s) < 27 {
      NameMarksClock(s);
    } else if Slot(s) < 34 {
      NameMarksLimit(s);
    } else {
      NameMarksSwitch(s);
    }
  }

  lemma NoEqualsPower(s: Setting)
    requires Slot(s) < 8
    ensures '=' !in LongName(s)
  {
  }

  lemma NoEqualsCurrent(s: Setting)
    requires 8 <= Slot(s) < 17
    ensures '=' !in LongName(s)
  {
  }

  lemma NoEqualsClock(s: Setting)
    requires 17 <= Slot(s) < 24
    ensures '=' !in LongName(s)
  {
  }

  lemma NoEqualsLimit(s: Setting)
    requires 24 <= Slot(s) < 30
    ensures '=' !in LongName(s)
  {
  }

  lemma NoEqualsSwitch(s: Setting)
    requires 30 <= Slot(s)
    ensures '=' !in LongName(s)
  {
  }

  lemma NotNegatedFirst(s: Setting)
    requires Slot(s) < 20
    ensures |LongName(s)| > 3 && LongName(s)[0] != 'n'
  {
  }

  lemma NotNegatedRest(s: Setting)
    requires 20 <= Slot(s)
    ensures |LongName(s)| > 3 && LongName(s)[0] != 'n'
  {
  }

  lemma PreambleFacts()
    ensures forall o | o in Preamble() && o.long.Some? ::
              && |o.long.value| > 3 && o.long.value[0] != 'n' && '=' !in o.long.value
              && Recognise(o.long.value) == None
  {
    var help, info, dump := "help", "info", "dump-table";
    assert help[1] == 'e' && help[3] == 'p' && help[4 / 3] == 'e' && help[0] == 'h';
    assert info[1] == 'n' && info[3] == 'o' && info[4 / 3] == 'n' && info[0] == 'i';
    assert dump[1] == 'u' && dump[9] == 'e' && dump[10 / 3] == 'p' && dump[0] == 'd';
  }

  lemma NameFacts(s: Setting)
    ensures |LongName(s)| > 3 && LongName(s)[0] != 'n' && '=' !in LongName(s) && Recognise(LongName(s)) == Some(s)
  {
    hide LongName;
    hide Recognise;
    NameMarks(s);
    if Slot(s) < 20 {
      NotNegatedFirst(s);
    } else {
      NotNegatedRest(s);
    }
    if Slot(s) < 8 {
      NoEqualsPower(s);
    } else if Slot(s) < 17 {
      NoEqualsCurrent(s);
    } else if Slot(s) < 24 {
      NoEqualsClock(s);
    } else if Slot(s) < 30 {
      NoEqualsLimit(s);
    } else {
      NoEqualsSwitch(s);
    }
  }

  /** A row of the table is one of the first five, a setting's row, or a heading. */
  lemma RowKinds(i: nat)
    requires i < |Table()|
    ensures |Table()| == 48
    ensures Table()[i] in Preamble() || Table()[i] == Heading() || (5 <= i < 47 && Table()[i] == Row(TableAt(i - 5)))
  {
  }

  lemma TableIndex(s: Setting)
    ensures exists i :: 5 <= i < |Table()| && Table()[i] == Row(s)
  {
    SlotOf(s);
    var k := Slot(s);
    var j := if k < 33 || k == 36 then k
             else if k == 33 then 35
             else if k < 36 then k - 1
             else if k < 39 then k + 3
             else k - 2;
    assert TableAt(j) == s;
    assert Table()[5 + j] == Row(s);
  }

  /** No name of the table has a '=', and no name that can be negated begins its negated form. */
  lemma TableIsRegular()
    ensures forall o | o in Table() :: Regular(o)
    ensures ValidConf(MainConf(), CELLS)
  {
    hide LongName;
    hide Recognise;
    hide TableAt;
    PreambleFacts();
    forall o | o in Table()
      ensures Regular(o)
      ensures o.slot.Some? ==> o.slot.value < CELLS
      ensures o.typ == Group ==> o.short == None && o.long == None && o.slot == None
    {
      var i :| 0 <= i < |Table()| && Table()[i] == o;
      RowKinds(i);
      if o !in Preamble() && o != Heading() {
        NameFacts(TableAt(i - 5));
      }
    }
  }

  /** The only row named `s` is the row of `s`. */
  lemma OnlyRow(s: Setting, text: string, i: nat)
    requires Key(text) == LongName(s) && i < |Table()|
    ensures SpecMatch(Table()[i], text).Some? <==> Table()[i] == Row(s)
    ensures Table()[i] == Row(s) ==> SpecMatch(Table()[i], text) == Some(Hit(false, ValuePart(text)))
  {
    hide LongName;
    hide Recognise;
    hide TableAt;
    hide Key;
    hide ValuePart;
    NameFacts(s);
    RowKinds(i);
    PreambleFacts();
    var o := Table()[i];
    if o.long.Some? {
      assert ("no-" + o.long.value)[0] == 'n';
      if o !in Preamble() {
        NameFacts(TableAt(i - 5));
      }
    }
  }

  /** Looking a setting's name up finds the setting's row. */
  lemma FindRow(s: Setting, text: string)
    requires Key(text) == LongName(s)
    ensures
      var i := FindLong(Table(), text, 0);
      i < |Table()| && Table()[i] == Row(s) && MatchLong(Row(s), text) == Some(Hit(false, ValuePart(text)))
  {
    hide Table;
    TableIsRegular();
    FindLongExact(Table(), text);
    TableIndex(s);
    var j :| 5 <= j < |Table()| && Table()[j] == Row(s);
    var i := FindLong(Table(), text, 0);
    OnlyRow(s, text, j);
    if i < |Table()| {
      OnlyRow(s, text, i);
    }
  }

  /** The only row that "no-" and the name of a switch negate is the row of the switch. */
  lemma OnlyNegatedRow(s: Setting, text: string, i: nat)
    requires IsFlag(s) && Key(text) == "no-" + LongName(s) && i < |Table()|
    ensures SpecMatch(Table()[i], text).Some? <==> Table()[i] == Row(s)
    ensures Table()[i] == Row(s) ==> SpecMatch(Table()[i], text) == Some(Hit(true, ValuePart(text)))
  {
    hide LongName;
    hide Recognise;
    hide TableAt;
    hide Key;
    hide ValuePart;
    NameFacts(s);
    RowKinds(i);
    PreambleFacts();
    var o := Table()[i];
    assert ("no-" + LongName(s))[0] == 'n';
    if o.long.Some? {
      assert ("no-" + o.long.value)[3..] == o.long.value && ("no-" + LongName(s))[3..] == LongName(s);
      if o !in Preamble() {
        NameFacts(TableAt(i - 5));
      }
    }
  }

  /** Looking up the negated name of a switch finds its row. */
  lemma FindNegatedRow(s: Setting, text: string)
    requires IsFlag(s) && Key(text) == "no-" + LongName(s)
    ensures
      var i := FindLong(Table(), text, 0);
      i < |Table()| && Table()[i] == Row(s) && MatchLong(Row(s), text) == Some(Hit(true, ValuePart(text)))
  {
    hide Table;
    TableIsRegular();
    FindLongExact(Table(), text);
    TableIndex(s);
    var j :| 5 <= j < |Table()| && Table()[j] == Row(s);
    var i := FindLong(Table(), text, 0);
    OnlyNegatedRow(s, text, j);
    if i < |Table()| {
      OnlyNegatedRow(s, text, i);
    }
  }

  // ---------------------------------------------------------------- letters

  /** The setting a letter stands for. */
  function LetterOwner(c: char): Option<Setting> {
    match c
    case 'a' => Some(StapmLimit)
    case 'b' => Some(FastLimit)
    case 'c' => Some(SlowLimit)
    case 'd' => Some(SlowTime)
    case 'e' => Some(StapmTime)
    case 'f' => Some(TctlTemp)
    case 'g' => Some(VrmCurrent)
    case 'j' => Some(VrmSocCurrent)
    case 'k' => Some(VrmMaxCurrent)
    case 'l' => Some(VrmSocMaxCurrent)
    case 'm' => Some(Psi0Current)
    case 'n' => Some(Psi0SocCurrent)
    case 'o' => Some(MaxSocclkFreq)
    case 'p' => Some(MinSocclkFreq)
    case 'q' => Some(MaxFclkFreq)
    case 'r' => Some(MinFclkFreq)
    case 's' => Some(MaxVcn)
    case 't' => Some(MinVcn)
    case 'u' => Some(MaxLclk)
    case 'v' => Some(MinLclk)
    case 'w' => Some(MaxGfxclkFreq)
    case 'x' => Some(MinGfxclkFreq)
    case 'y' => Some(ProchotDeassertionRamp)
    case _ => None
  }

  /** Letters are different, are no '-', and belong to limits only. */
  lemma LetterFacts(s: Setting)
    ensures ShortName(s).Some? ==>
              && LetterOwner(ShortName(s).value) == Some(s) && ShortName(s).value !in {'h', 'i', '-'}
              && TypeOf(s) == U32
  {
  }

  /** Looking a setting's letter up finds the setting's row. */
  lemma FindLetter(s: Setting)
    requires ShortName(s).Some?
    ensures
      var i := FindShort(Table(), ShortName(s).value, 0);
      i < |Table()| && Table()[i] == Row(s) && TakesValue(Row(s))
  {
    hide LongName;
    hide ShortName;
    hide LetterOwner;
    hide TableAt;
    LetterFacts(s);
    TableIndex(s);
    var j :| 5 <= j < |Table()| && Table()[j] == Row(s);
    var i := FindShort(Table(), ShortName(s).value, 0);
    if i < |Table()| {
      RowKinds(i);
      if Table()[i] !in Preamble() && Table()[i] != Heading() {
        LetterFacts(TableAt(i - 5));
      }
    }
  }

  /** 'i' is the information switch. */
  lemma FindInfoLetter()
    ensures FindShort(Table(), 'i', 0) == 2 && Table()[2] == Preamble()[2]
  {
    hide TableAt;
    hide Row;
  }
}
