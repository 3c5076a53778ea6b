/**
 What a user can type, and what the tool makes of it: every spelling of every setting is read back
 as exactly the assignment it spells, and every mistake ends the tool before anything is sent.
 */
module CommandLine {
  import opened Words
  import opened Numerals
  import opened ArgOptions
  import opened ArgSemantics
  import opened ArgClusters
  import opened Setters
  import opened MainOptions
  import opened MainPlan

  /** A setting and its value. */
  datatype Assignment = Limit(s: Setting, v: Word) | Offset(s: Setting, o: int) | Switch(s: Setting, on: bool)

  /**
   "--name=value" or "--name"; "--name" "value"; or with the setting's letter, in one argument
   or two, perhaps after a number of "i" for the information table.
   */
  datatype Spelling = Joined | Apart | Letter(infos: nat) | LetterApart(infos: nat)

  datatype Item = Item(a: Assignment, how: Spelling)

  predicate Proper(a: Assignment) {
    match a
    case Limit(s, _) => TypeOf(s) == U32
    case Offset(s, o) => TypeOf(s) == CO32 && -CO32_LIMIT < o < CO32_LIMIT
    case Switch(s, _) => IsFlag(s)
  }

  predicate Spellable(it: Item) {
    && Proper(it.a)
    && (!it.how.Joined? ==> !it.a.Switch?)
    && (it.how.Letter? || it.how.LetterApart? ==> ShortName(it.a.s).Some?)
  }

  /** The value as a user writes it. */
  function ValueText(a: Assignment): Option<string> {
    match a
    case Limit(_, v) => Some(Print(v, 10))
    case Offset(_, o) => Some(PrintOffset(o))
    case Switch(_, _) => None
  }

  function NameText(a: Assignment): string {
    if a.Switch? && !a.on then "no-" + LongName(a.s) else LongName(a.s)
  }

  function OptionText(name: string, value: Option<string>): string {
    name + if value.Some? then "=" + value.value else ""
  }

  function Infos(n: nat): string {
    seq(n, _ => 'i')
  }

  /** The arguments a user types for it. */
  function Spell(it: Item): (r: seq<string>)
    requires Spellable(it)
    ensures 1 <= |r| <= 2
  {
    match it.how
    case Joined => ["--" + OptionText(NameText(it.a), ValueText(it.a))]
    case Apart => ["--" + NameText(it.a), ValueText(it.a).value]
    case Letter(infos) => ["-" + (Infos(infos) + ([ShortName(it.a.s).value] + ValueText(it.a).value))]
    case LetterApart(infos) => ["-" + (Infos(infos) + [ShortName(it.a.s).value]), ValueText(it.a).value]
  }

  function Assign(store: seq<Cell>, a: Assignment): (r: seq<Cell>)
    requires Typed(store)
    ensures |r| == |store|
  {
    match a
    case Limit(s, v) => store[Slot(s) := IntCell(v)]
    case Offset(s, o) => store[Slot(s) := IntCell(o)]
    case Switch(s, on) => store[Slot(s) := IntCell(Count(store[Slot(s)].i, !on))]
  }

  /** `n` more requests for the information table. */
  function AskInfo(store: seq<Cell>, n: nat): (r: seq<Cell>)
    requires Typed(store)
    ensures |r| == |store|
  {
    store[INFO_SLOT := IntCell(store[INFO_SLOT].i + n)]
  }

  function InfosOf(how: Spelling): nat {
    match how
    case Letter(infos) => infos
    case LetterApart(infos) => infos
    case _ => 0
  }

  function Effect(store: seq<Cell>, it: Item): (r: seq<Cell>)
    requires Typed(store) && Proper(it.a)
    ensures |r| == |store|
  {
    InfoIsNoSetting(store, store[INFO_SLOT].i + InfosOf(it.how));
    Assign(AskInfo(store, InfosOf(it.how)), it.a)
  }

  // ---------------------------------------------------------------- variables

  lemma AssignTyped(store: seq<Cell>, a: Assignment)
    requires Typed(store) && Proper(a)
    ensures Typed(Assign(store, a))
  {
    assert TypedCell(a.s, store[Slot(a.s)]);
    TypedUpdate(store, a.s, Assign(store, a)[Slot(a.s)]);
  }

  /** The information switch is not a setting. */
  lemma InfoIsNoSetting(store: seq<Cell>, count: nat)
    requires Typed(store)
    ensures Typed(store[INFO_SLOT := IntCell(count)])
    ensures forall s: Setting :: store[INFO_SLOT := IntCell(count)][Slot(s)] == store[Slot(s)]
  {
    forall s: Setting
      ensures store[INFO_SLOT := IntCell(count)][Slot(s)] == store[Slot(s)] && TypedCell(s, store[Slot(s)])
    {
      SlotOf(s);
    }
    hide Slot;
  }

  lemma EffectTyped(store: seq<Cell>, it: Item)
    requires Typed(store) && Proper(it.a)
    ensures Typed(Effect(store, it))
  {
    InfoIsNoSetting(store, store[INFO_SLOT].i + InfosOf(it.how));
    AssignTyped(AskInfo(store, InfosOf(it.how)), it.a);
  }

  // ---------------------------------------------------------------- texts

  lemma RenderedKey(name: string, value: Option<string>)
    requires '=' !in name
    ensures Key(OptionText(name, value)) == name
    ensures ValuePart(OptionText(name, value)) == value
  {
    var text := OptionText(name, value);
    KeyIs(text, name);
    if value.Some? {
      assert text[|name| + 1..] == value.value;
    } else {
      assert text == name;
    }
  }

  lemma NameFits(a: Assignment)
    ensures |NameText(a)| > 3 && '=' !in NameText(a)
  {
    hide LongName;
    NameFacts(a.s);
  }

  /** Looking the name up finds the setting's row, negated if the name is. */
  lemma FindName(a: Assignment, text: string)
    requires Proper(a) && Key(text) == NameText(a)
    ensures
      var i := FindLong(Table(), text, 0);
      && i < |Table()| && Table()[i] == Row(a.s)
      && MatchLong(Row(a.s), text) == Some(Hit(a.Switch? && !a.on, ValuePart(text)))
  {
    hide Table;
    hide LongName;
    hide Key;
    hide ValuePart;
    if a.Switch? && !a.on {
      FindNegatedRow(a.s, text);
    } else {
      FindRow(a.s, text);
    }
  }

  lemma RenderedValue(a: Assignment)
    requires Proper(a) && !a.Switch?
    ensures Interpret(TypeOf(a.s), ValueText(a).value) == Some(IntCell(if a.Limit? then a.v else a.o))
  {
    hide Print;
    hide PrintOffset;
    hide ParseU32;
    hide ParseCO32;
    if a.Limit? {
      PrintRoundTrip(a.v);
    } else {
      OffsetRoundTrip(a.o);
    }
  }

  /** The setting's row, with the value's text where the parser looks for it. */
  lemma ValueBound(args: seq<string>, ps: PS, k: nat, a: Assignment, unset: bool)
    requires Typed(ps.store) && ValidConf(MainConf(), CELLS) && ps.i < |args| && k < |Table()|
    requires Proper(a) && Table()[k] == Row(a.s)
    requires if a.Switch? then unset == !a.on
             else Fetch(args, ps).Some? && Fetch(args, ps).value.s == ValueText(a).value
    ensures
      var r := GetValue(MainConf(), args, ps, k, unset);
      && r.Ok? && r.ps.store == Assign(ps.store, a) && r.ps.out == ps.out
      && r.ps.i == (if !a.Switch? && ps.pending == None then ps.i + 1 else ps.i)
      && r.ps.pending == (if a.Switch? then ps.pending else None)
  {
    hide Table;
    hide LongName;
    hide ShortName;
    hide Slot;
    hide Interpret;
    hide Print;
    hide PrintOffset;
    assert TypedCell(a.s, ps.store[Slot(a.s)]);
    if !a.Switch? {
      RenderedValue(a);
    }
  }

  // ---------------------------------------------------------------- one item

  /** What a step of the loop over an item must do. */
  predicate Does(m: Move, ps: PS, n: nat, store: seq<Cell>) {
    m.Next? && m.ps.i == ps.i + n && m.ps.pending == None && m.ps.store == store && m.ps.out == ps.out
  }

  /** An argument with two dashes is one option of the table, with the text after '='. */
  lemma LongArg(conf: Conf, args: seq<string>, ps: PS, text: string, hit: Hit)
    requires ValidConf(conf, |ps.store|) && ps.i < |args| && args[ps.i] == "--" + text && text != ""
    requires
      var k := FindLong(conf.options, text, 0);
      k < |conf.options| && MatchLong(conf.options[k], text) == Some(hit)
    ensures
      var q := ps.(roles := ps.roles + [OptionArg]);
      ArgStep(conf, args, ps) ==
      Advance(GetValue(conf, args, if hit.value.Some? then q.(pending := Some(Text(hit.value.value, ps.i))) else q,
                       FindLong(conf.options, text, 0), hit.unset))
  {
    hide FindLong;
    hide MatchLong;
    hide GetValue;
    hide Cluster;
    assert args[ps.i][2..] == text;
  }

  /** An argument with one dash is a cluster. */
  lemma ShortArg(conf: Conf, args: seq<string>, ps: PS, text: string)
    requires ValidConf(conf, |ps.store|) && ps.i < |args| && args[ps.i] == "-" + text && text != "" && text[0] != '-'
    ensures
      ArgStep(conf, args, ps) ==
      Advance(Cluster(conf, args, ps.(pending := Some(Text(text, ps.i)), roles := ps.roles + [OptionArg])))
  {
    hide Cluster;
    hide LongOpt;
    assert args[ps.i][1..] == text && args[ps.i][1] == text[0];
  }

  /** "--name" or "--name=value". */
  lemma StepLong(args: seq<string>, ps: PS, a: Assignment, value: Option<string>)
    requires Typed(ps.store) && ValidConf(MainConf(), CELLS) && ps.i < |args| && ps.pending == None
    requires Proper(a) && args[ps.i] == "--" + OptionText(NameText(a), value)
    requires value == ValueText(a) || (value == None && ps.i + 1 < |args| && ValueText(a) == Some(args[ps.i + 1]))
    ensures Does(ArgStep(MainConf(), args, ps), ps, if value == ValueText(a) then 1 else 2, Assign(ps.store, a))
  {
    hide Table;
    hide Row;
    hide LongName;
    hide Slot;
    hide ValueText;
    hide NameText;
    hide GetValue;
    hide Assign;
    hide Key;
    hide ValuePart;
    var text := OptionText(NameText(a), value);
    NameFits(a);
    RenderedKey(NameText(a), value);
    FindName(a, text);
    var k := FindLong(Table(), text, 0);
    LongArg(MainConf(), args, ps, text, Hit(a.Switch? && !a.on, value));
    hide ArgStep;
    hide FindLong;
    hide MatchLong;
    hide OptionText;
    var q := ps.(roles := ps.roles + [OptionArg]);
    var t := if value.Some? then q.(pending := Some(Text(value.value, ps.i))) else q;
    SwitchHasNoText(a);
    ValueBound(args, t, k, a, a.Switch? && !a.on);
  }

  lemma SwitchHasNoText(a: Assignment)
    ensures ValueText(a) == None <==> a.Switch?
  {
  }

  /** Printed values are not empty. */
  lemma ValueIsText(a: Assignment)
    requires Proper(a) && !a.Switch?
    ensures ValueText(a).value != ""
  {
    RenderedValue(a);
    hide Print;
    hide PrintOffset;
    EmptyIsNoValue();
  }

  lemma EmptyIsNoValue()
    ensures Interpret(U32, "") == None && Interpret(CO32, "") == None
  {
  }

  lemma {:induction false} InfosCount(ps: PS, n: nat)
    requires Typed(ps.store) && ValidConf(MainConf(), CELLS) && AllFlagLetters(MainConf(), Infos(n))
    ensures
      var r := FlagAll(MainConf(), ps, Infos(n));
      r.store == AskInfo(ps.store, n)
    decreases n
  {
    if n > 0 {
      FindInfoLetter();
      assert Infos(n)[0] == 'i' && Infos(n)[1..] == Infos(n - 1);
      var q := Flag(MainConf(), ps, 2, false);
      InfoIsNoSetting(ps.store, ps.store[INFO_SLOT].i + 1);
      hide Table;
      InfosCount(q, n - 1);
    }
  }

  lemma InfosAreFlags(n: nat)
    ensures AllFlagLetters(MainConf(), Infos(n))
  {
    FindInfoLetter();
    hide Table;
  }

  lemma ClusterStarts(n: nat, c: char, value: string)
    ensures
      var text := Infos(n) + ([c] + value);
      text != "" && text[0] == if n > 0 then 'i' else c
  {
  }

  /** The cluster "iic" or "iicvalue". */
  lemma ClusterAssigns(args: seq<string>, q: PS, a: Assignment, n: nat, value: string)
    requires Typed(q.store) && ValidConf(MainConf(), CELLS) && q.i < |args|
    requires Proper(a) && !a.Switch? && ShortName(a.s).Some?
    requires q.pending == Some(Text(Infos(n) + ([ShortName(a.s).value] + value), q.i))
    requires value == ValueText(a).value || (value == "" && q.i + 1 < |args| && ValueText(a) == Some(args[q.i + 1]))
    ensures Typed(AskInfo(q.store, n))
    ensures
      var r := Cluster(MainConf(), args, q);
      && r.Ok? && r.ps.store == Assign(AskInfo(q.store, n), a) && r.ps.out == q.out && r.ps.pending == None
      && r.ps.i == (if value == "" then q.i + 1 else q.i)
  {
    hide Table;
    hide Row;
    hide Slot;
    hide ValueText;
    hide GetValue;
    hide Assign;
    hide ShortName;
    hide FindShort;
    hide Cluster;
    hide FlagAll;
    hide Infos;
    var conf, c := MainConf(), ShortName(a.s).value;
    LetterFacts(a.s);
    FindLetter(a.s);
    InfosAreFlags(n);
    ValueIsText(a);
    ClusterMeaning(conf, args, q, Infos(n), c, value, q.i);
    InfosCount(q, n);
    InfoIsNoSetting(q.store, q.store[INFO_SLOT].i + n);
    var t := FlagAll(conf, q, Infos(n)).(pending := if value == "" then None else Some(Text(value, q.i)));
    ValueBound(args, t, FindShort(Table(), c, 0), a, false);
  }

  /** "-iic" or "-iicvalue". */
  lemma StepLetter(args: seq<string>, ps: PS, a: Assignment, n: nat, value: string)
    requires Typed(ps.store) && ValidConf(MainConf(), CELLS) && ps.i < |args| && ps.pending == None
    requires Proper(a) && !a.Switch? && ShortName(a.s).Some?
    requires args[ps.i] == "-" + (Infos(n) + ([ShortName(a.s).value] + value))
    requires value == ValueText(a).value || (value == "" && ps.i + 1 < |args| && ValueText(a) == Some(args[ps.i + 1]))
    ensures Typed(AskInfo(ps.store, n))
    ensures Does(ArgStep(MainConf(), args, ps), ps, if value == "" then 2 else 1, Assign(AskInfo(ps.store, n), a))
  {
    hide Table;
    hide Slot;
    hide ValueText;
    hide Assign;
    hide AskInfo;
    hide ShortName;
    hide Cluster;
    var c := ShortName(a.s).value;
    var text := Infos(n) + ([c] + value);
    LetterFacts(a.s);
    ClusterStarts(n, c, value);
    ShortArg(MainConf(), args, ps, text);
    hide ArgStep;
    hide Infos;
    ClusterAssigns(args, ps.(pending := Some(Text(text, ps.i)), roles := ps.roles + [OptionArg]), a, n, value);
  }

  /** One item does what it spells and nothing else. */
  lemma StepSpelled(args: seq<string>, ps: PS, it: Item)
    requires Typed(ps.store) && ValidConf(MainConf(), CELLS) && ps.i <= |args| && ps.pending == None
    requires Spellable(it) && Spell(it) <= args[ps.i..]
    ensures Does(ArgStep(MainConf(), args, ps), ps, |Spell(it)|, Effect(ps.store, it))
  {
    hide Table;
    hide LongName;
    hide ShortName;
    hide Slot;
    hide ArgStep;
    var words := Spell(it);
    assert args[ps.i] == args[ps.i..][0] == words[0];
    assert |words| == 2 ==> args[ps.i + 1] == args[ps.i..][1] == words[1];
    assert AskInfo(ps.store, 0) == ps.store;
    match it.how
    case Joined => StepLong(args, ps, it.a, ValueText(it.a));
    case Apart =>
      assert OptionText(NameText(it.a), None) == NameText(it.a);
      StepLong(args, ps, it.a, None);
    case Letter(infos) =>
      ValueIsText(it.a);
      StepLetter(args, ps, it.a, infos, ValueText(it.a).value);
    case LetterApart(infos) =>
      var c := ShortName(it.a.s).value;
      assert [c] + "" == [c];
      StepLetter(args, ps, it.a, infos, "");
  }

  // ---------------------------------------------------------------- a whole command line

  predicate AllSpellable(items: seq<Item>) {
    forall it | it in items :: Spellable(it)
  }

  function Line(items: seq<Item>): seq<string>
    requires AllSpellable(items)
  {
    if items == [] then [] else Spell(items[0]) + Line(items[1..])
  }

  function EffectAll(store: seq<Cell>, items: seq<Item>): (r: seq<Cell>)
    requires Typed(store) && AllSpellable(items)
    ensures Typed(r)
    decreases |items|
  {
    if items == [] then store
    else
      assert items[0] in items;
      EffectTyped(store, items[0]);
      EffectAll(Effect(store, items[0]), items[1..])
  }

  /** The loop goes over a list of items, whatever follows. */
  lemma {:induction false} LoopSpelled(args: seq<string>, ps: PS, items: seq<Item>, rest: seq<string>) returns (q: PS)
    requires Typed(ps.store) && ValidConf(MainConf(), CELLS) && ps.i <= |args| && ps.pending == None
    requires AllSpellable(items) && args[ps.i..] == Line(items) + rest
    ensures q.i <= |args| && args[q.i..] == rest && q.store == EffectAll(ps.store, items)
    ensures q.pending == None && q.out == ps.out
    ensures Loop(MainConf(), args, ps) == Loop(MainConf(), args, q)
    decreases |items|
  {
    hide Spell;
    hide Effect;
    hide ArgStep;
    if items == [] {
      q := ps;
    } else {
      var n := |Spell(items[0])|;
      assert Spell(items[0]) <= args[ps.i..];
      StepSpelled(args, ps, items[0]);
      EffectTyped(ps.store, items[0]);
      var t := ArgStep(MainConf(), args, ps).ps;
      assert args[t.i..] == args[ps.i..][n..] == Line(items[1..]) + rest;
      q := LoopSpelled(args, t, items[1..], rest);
    }
  }

  /** Any list of settings in any spellings is read back as exactly these assignments, in order. */
  lemma CommandLineRoundTrip(program: string, items: seq<Item>)
    requires items != [] && AllSpellable(items)
    ensures
      var r := Variables([program] + Line(items));
      r.Done? && Typed(InitialStore()) && r.ps.store == EffectAll(InitialStore(), items)
  {
    hide Spell;
    TableIsRegular();
    InitialTyped();
    var args := [program] + Line(items);
    assert args[1..] == Line(items) + [];
    var q := LoopSpelled(args, InitPS(InitialStore()), items, []);
  }

  // ---------------------------------------------------------------- mistakes

  /** Arguments that no command line may contain. */
  datatype Mistake =
    | Stray(text: string)                  // neither an option nor a value
    | UnknownName(text: string)            // "--text", where the part before '=' names no option
    | UnknownLetter(c: char, more: string)
    | BadValue(s: Setting, text: string)   // "--name=text" that is no value of the setting's type
    | NoValue(s: Setting)                  // "--name" at the end

  predicate IsMistake(m: Mistake, rest: seq<string>) {
    match m
    case Stray(text) => IsWord(text)
    case UnknownName(text) => text != "" && forall o | o in Table() :: SpecMatch(o, text) == None
    case UnknownLetter(c, _) => c != '-' && forall o | o in Table() :: o.short != Some(c)
    case BadValue(s, text) => !IsFlag(s) && Interpret(TypeOf(s), text) == None
    case NoValue(s) => !IsFlag(s) && rest == []
  }

  function Typo(m: Mistake): string {
    match m
    case Stray(text) => text
    case UnknownName(text) => "--" + text
    case UnknownLetter(c, more) => "-" + ([c] + more)
    case BadValue(s, text) => "--" + OptionText(LongName(s), Some(text))
    case NoValue(s) => "--" + OptionText(LongName(s), None)
  }

  lemma StepUnknown(args: seq<string>, ps: PS, m: Mistake)
    requires ValidConf(MainConf(), |ps.store|) && ps.i < |args| && args[ps.i] == Typo(m) && IsMistake(m, args[ps.i + 1..])
    requires m.Stray? || m.UnknownName? || m.UnknownLetter?
    ensures ArgStep(MainConf(), args, ps).Quit? && ArgStep(MainConf(), args, ps).code == 1
  {
    hide Table;
    var arg := args[ps.i];
    match m
    case Stray(_) =>
    case UnknownName(text) =>
      assert arg[2..] == text;
      TableIsRegular();
      FindLongExact(Table(), text);
    case UnknownLetter(c, more) =>
      assert arg[1..] == [c] + more && arg[1] == c;
  }

  lemma StepBadValue(args: seq<string>, ps: PS, s: Setting, value: Option<string>)
    requires Typed(ps.store) && ValidConf(MainConf(), CELLS) && ps.i < |args| && ps.pending == None && !IsFlag(s)
    requires args[ps.i] == "--" + OptionText(LongName(s), value)
    requires if value == None then ps.i + 1 == |args| else Interpret(TypeOf(s), value.value) == None
    ensures ArgStep(MainConf(), args, ps).Quit? && ArgStep(MainConf(), args, ps).code == 1
  {
    hide Table;
    hide LongName;
    hide ShortName;
    hide Slot;
    hide Interpret;
    hide Key;
    hide ValuePart;
    var text := OptionText(LongName(s), value);
    NameFacts(s);
    RenderedKey(LongName(s), value);
    FindRow(s, text);
    LongArg(MainConf(), args, ps, text, Hit(false, value));
    hide ArgStep;
    hide FindLong;
    hide MatchLong;
    hide OptionText;
  }

  /** A mistake anywhere after a correct beginning ends the parse, and the tool, with status 1. */
  lemma MistakeFails(program: string, items: seq<Item>, m: Mistake, rest: seq<string>)
    requires AllSpellable(items) && IsMistake(m, rest)
    ensures
      var r := Variables([program] + (Line(items) + ([Typo(m)] + rest)));
      r.Failed? && r.code == 1
  {
    hide Spell;
    hide ArgStep;
    hide IsMistake;
    TableIsRegular();
    InitialTyped();
    var args := [program] + (Line(items) + ([Typo(m)] + rest));
    assert args[1..] == Line(items) + ([Typo(m)] + rest);
    var q := LoopSpelled(args, InitPS(InitialStore()), items, [Typo(m)] + rest);
    assert args[q.i] == args[q.i..][0] == Typo(m) && args[q.i + 1..] == args[q.i..][1..] == rest;
    MistakeStops(args, q, m);
  }

  lemma MistakeStops(args: seq<string>, ps: PS, m: Mistake)
    requires Typed(ps.store) && ValidConf(MainConf(), CELLS) && ps.i < |args| && ps.pending == None
    requires args[ps.i] == Typo(m) && IsMistake(m, args[ps.i + 1..])
    ensures ArgStep(MainConf(), args, ps).Quit? && ArgStep(MainConf(), args, ps).code == 1
  {
    hide ArgStep;
    match m
    case BadValue(s, text) => StepBadValue(args, ps, s, Some(text));
    case NoValue(s) => StepBadValue(args, ps, s, None);
    case _ => StepUnknown(args, ps, m);
  }

  /** Asking for help ends the tool with status 0, whatever follows. */
  lemma HelpEnds(program: string, items: seq<Item>, help: string, rest: seq<string>)
    requires AllSpellable(items) && help in {"-h", "--help"}
    ensures
      var r := Variables([program] + (Line(items) + ([help] + rest)));
      r.Failed? && r.code == 0
  {
    hide Spell;
    hide ArgStep;
    TableIsRegular();
    InitialTyped();
    var args := [program] + (Line(items) + ([help] + rest));
    assert args[1..] == Line(items) + ([help] + rest);
    var q := LoopSpelled(args, InitPS(InitialStore()), items, [help] + rest);
    assert args[q.i] == args[q.i..][0] == help;
    HelpStops(args, q);
  }

  lemma HelpStops(args: seq<string>, ps: PS)
    requires ValidConf(MainConf(), |ps.store|) && ps.i < |args| && args[ps.i] in {"-h", "--help"}
    ensures ArgStep(MainConf(), args, ps).Quit? && ArgStep(MainConf(), args, ps).code == 0
  {
    hide TableAt;
    hide Row;
    var table := Table();
    assert table[0] == Opt(Boolean, Some('h'), Some("help"), None, 0, true, true);
    if args[ps.i] == "-h" {
      assert "-h" == "-" + "h";
      ShortArg(MainConf(), args, ps, "h");
      assert FindShort(table, 'h', 0) == 0;
    } else {
      assert args[ps.i][2..] == "help";
      assert MatchLong(table[0], "help") == Some(Hit(false, None));
      assert FindLong(table, "help", 0) == 0;
    }
    hide Table;
  }

  // ---------------------------------------------------------------- one setting

  /** The variables after a single setting. */
  lemma OneLine(program: string, it: Item)
    requires Spellable(it)
    ensures Typed(InitialStore())
    ensures Variables([program] + Spell(it)).Done? && Variables([program] + Spell(it)).ps.store == Effect(InitialStore(), it)
  {
    hide Spell;
    hide Variables;
    hide Effect;
    InitialTyped();
    assert [it][1..] == [] && [program] + Line([it]) == [program] + Spell(it);
    CommandLineRoundTrip(program, [it]);
  }

  /** The other settings are left at their markers. */
  lemma OthersUnset(it: Item, t: Setting)
    requires Spellable(it) && Typed(InitialStore()) && t != it.a.s
    ensures Effect(InitialStore(), it)[Slot(t)] == Unset(t)
  {
    InitialTyped();
    InfoIsNoSetting(InitialStore(), InitialStore()[INFO_SLOT].i + InfosOf(it.how));
    SameSlot(t, it.a.s);
    hide InitialStore;
    hide Slot;
    hide Unset;
    hide Typed;
  }

  lemma OwnSet(it: Item)
    requires Spellable(it) && Typed(InitialStore())
    ensures
      Effect(InitialStore(), it)[Slot(it.a.s)] ==
      IntCell(match it.a case Limit(_, v) => v case Offset(_, o) => o case Switch(_, on) => if on then 1 else 0)
  {
    InitialTyped();
    InfoIsNoSetting(InitialStore(), InitialStore()[INFO_SLOT].i + InfosOf(it.how));
    hide InitialStore;
    hide Slot;
    hide Typed;
  }

  /** What main finds selected in them: the setting alone. */
  lemma OneSelected(it: Item)
    requires Spellable(it) && Typed(InitialStore())
    ensures Typed(Effect(InitialStore(), it))
    ensures forall t: Setting | t != it.a.s :: Selected(t, Effect(InitialStore(), it)[Slot(t)]) == None
    ensures Choice(it.a.s, Effect(InitialStore(), it)[Slot(it.a.s)]) == OneAdjustment(it.a)
  {
    hide Slot;
    hide CoWord;
    hide Effect;
    hide InitialStore;
    EffectTyped(InitialStore(), it);
    OwnSet(it);
    forall t: Setting | t != it.a.s
      ensures Selected(t, Effect(InitialStore(), it)[Slot(t)]) == None
    {
      OthersUnset(it, t);
    }
  }

  /** What a typed setting asks for: nothing if it is a limit of 2^32 - 1 or a switch turned off. */
  function OneAdjustment(a: Assignment): seq<Adjustment> {
    match a
    case Limit(s, v) => if v == ARG_UNSET then [] else [Adjustment(s, v)]
    case Offset(s, o) => [Adjustment(s, CoWord(o))]
    case Switch(s, on) => if on then [Adjustment(s, 0)] else []
  }

  /**
   A single setting on the command line, in any spelling, is the whole plan with the word typed, or
   no plan at all when a limit of 2^32 - 1 was typed or a switch was turned off.
   */
  lemma OneSetting(program: string, it: Item)
    requires Spellable(it)
    ensures Variables([program] + Spell(it)).Done? && Typed(Variables([program] + Spell(it)).ps.store)
    ensures Plan(Variables([program] + Spell(it)).ps.store) == OneAdjustment(it.a)
  {
    OneLine(program, it);
    OneSelected(it);
    PlanOfOne(Effect(InitialStore(), it), it.a.s);
  }

  lemma PlanOfOne(store: seq<Cell>, s: Setting)
    requires Typed(store) && forall t: Setting | t != s :: Selected(t, store[Slot(t)]) == None
    ensures Plan(store) == Choice(s, store[Slot(s)])
  {
    PlanExact(store);
    hide Slot;
    hide Plan;
    hide PlanTo;
    hide Selected;
    var plan, chosen := Plan(store), Selected(s, store[Slot(s)]);
    forall a | a in plan
      ensures a.setting == s && chosen == Some(a.word)
    {
    }
    if chosen.Some? {
      assert Adjustment(s, chosen.value) in plan;
    }
    InOrderOne(plan, s, chosen);
  }

  lemma InOrderOne(plan: seq<Adjustment>, s: Setting, chosen: Option<Word>)
    requires InOrder(plan) && forall a | a in plan :: a.setting == s && chosen == Some(a.word)
    requires chosen.Some? ==> Adjustment(s, chosen.value) in plan
    ensures plan == if chosen.Some? then [Adjustment(s, chosen.value)] else []
  {
    hide Slot;
    if plan != [] {
      assert plan[0] in plan && plan[|plan| - 1] in plan;
      assert |plan| == 1;
    }
  }

  // ---------------------------------------------------------------- a value left behind

  /** Looking "info" up finds the third row. */
  lemma FindInfo(text: string)
    requires Key(text) == "info"
    ensures FindLong(Table(), text, 0) == 2 && MatchLong(Table()[2], text) == Some(Hit(false, ValuePart(text)))
  {
    hide TableAt;
    hide Row;
    hide Key;
    hide ValuePart;
    TableIsRegular();
    FindLongExact(Table(), text);
    assert Table()[0].long == Some("help") && Table()[1].long == None && Table()[2].long == Some("info");
    assert "help"[0] == 'h' && "info"[0] == 'i' && "no-help"[0] == 'n';
    assert SpecMatch(Table()[2], text).Some? && SpecMatch(Table()[0], text) == None;
  }

  /** "--info=value" counts the switch, and leaves the value behind. */
  lemma StepInfo(args: seq<string>, ps: PS, value: string)
    requires Typed(ps.store) && ValidConf(MainConf(), CELLS) && ps.i < |args|
    requires args[ps.i] == "--" + OptionText("info", Some(value)) && ps.pending == None
    ensures
      var m := ArgStep(MainConf(), args, ps);
      && m.Next? && m.ps.i == ps.i + 1 && m.ps.pending == Some(Text(value, ps.i)) && m.ps.out == ps.out
      && m.ps.store == AskInfo(ps.store, 1)
  {
    var text := OptionText("info", Some(value));
    assert forall k | 0 <= k < 4 :: "info"[k] != '=';
    RenderedKey("info", Some(value));
    FindInfo(text);
    assert Table()[2] == Opt(Boolean, Some('i'), Some("info"), Some(INFO_SLOT), 0, false, false);
    hide Table;
    hide FindLong;
    hide MatchLong;
    hide Key;
    hide ValuePart;
    LongArg(MainConf(), args, ps, text, Hit(false, Some(value)));
    hide ArgStep;
  }

  /** A limit named without a value takes the one left behind. */
  lemma StepTakes(args: seq<string>, ps: PS, s: Setting, v: Word, at: nat)
    requires Typed(ps.store) && ValidConf(MainConf(), CELLS) && ps.i < |args| && TypeOf(s) == U32
    requires args[ps.i] == "--" + LongName(s) && ps.pending == Some(Text(Print(v, 10), at))
    ensures
      var m := ArgStep(MainConf(), args, ps);
      m.Next? && m.ps.i == ps.i + 1 && m.ps.store == ps.store[Slot(s) := IntCell(v)]
  {
    hide Table;
    hide Row;
    hide LongName;
    hide Slot;
    hide GetValue;
    hide Print;
    NameFacts(s);
    var text := LongName(s);
    RenderedKey(text, None);
    assert OptionText(text, None) == text;
    FindRow(s, text);
    LongArg(MainConf(), args, ps, text, Hit(false, None));
    hide ArgStep;
    hide FindLong;
    hide MatchLong;
    ValueBound(args, ps.(roles := ps.roles + [OptionArg]), FindLong(Table(), text, 0), Limit(s, v), false);
  }

  /**
   On the tool's own table: after "--info=v" a limit named without a value is applied with v, so
   "--info=5 --stapm-limit" sets a power limit of 5 mW, for every limit and every word.
   */
  lemma LeftBehindLimit(program: string, s: Setting, v: Word)
    requires TypeOf(s) == U32
    ensures
      var r := Variables([program, "--" + OptionText("info", Some(Print(v, 10))), "--" + LongName(s)]);
      r.Done? && Typed(r.ps.store) && Plan(r.ps.store) == if v == ARG_UNSET then [] else [Adjustment(s, v)]
  {
    hide Slot;
    hide Print;
    hide LongName;
    hide Plan;
    hide ArgStep;
    var args := [program, "--" + OptionText("info", Some(Print(v, 10))), "--" + LongName(s)];
    TableIsRegular();
    InitialTyped();
    var p0 := InitPS(InitialStore());
    StepInfo(args, p0, Print(v, 10));
    InfoIsNoSetting(InitialStore(), InitialStore()[INFO_SLOT].i + 1);
    var p1 := ArgStep(MainConf(), args, p0).ps;
    StepTakes(args, p1, s, v, 1);
    var p2 := ArgStep(MainConf(), args, p1).ps;
    assert Loop(MainConf(), args, p1) == Loop(MainConf(), args, p2) == Done(p2);
    assert Variables(args) == Done(p2);
    LimitAlone(p1.store, s, v);
  }

  lemma LimitAlone(store: seq<Cell>, s: Setting, v: Word)
    requires Typed(store) && TypeOf(s) == U32 && forall t: Setting :: store[Slot(t)] == Unset(t)
    ensures Typed(store[Slot(s) := IntCell(v)])
    ensures Plan(store[Slot(s) := IntCell(v)]) == if v == ARG_UNSET then [] else [Adjustment(s, v)]
  {
    hide Slot;
    hide Plan;
    TypedUpdate(store, s, IntCell(v));
    forall t: Setting | t != s
      ensures Selected(t, store[Slot(s) := IntCell(v)][Slot(t)]) == None
    {
      SameSlot(s, t);
    }
    PlanOfOne(store[Slot(s) := IntCell(v)], s);
  }
}
