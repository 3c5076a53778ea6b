/**
 From a command line to the adjustments it asks for: which settings are applied, in which order
 and with which words, as a function of the parsed variables, of the option occurrences, and of
 the command line itself.
 */
module MainPlan {
  import opened Words
  import opened Numerals
  import opened ArgOptions
  import opened ArgSemantics
  import opened ArgValues
  import opened Setters
  import opened MainOptions

  // ---------------------------------------------------------------- the variables keep their types

  predicate TypedCell(s: Setting, c: Cell) {
    && c.IntCell?
    && (if IsFlag(s) then c.i >= 0
        else if IsOffset(s) then c.i == CO_UNSET || -CO32_LIMIT < c.i < CO32_LIMIT
        else 0 <= c.i < WORD_LIMIT)
  }

  /** The variable of a BOOLEAN. */
  predicate IsCount(c: Cell) {
    c.IntCell? && c.i >= 0
  }

  ghost predicate Typed(store: seq<Cell>) {
    && |store| == CELLS && IsCount(store[INFO_SLOT]) && IsCount(store[DUMP_SLOT])
    && forall s: Setting :: TypedCell(s, store[Slot(s)])
  }

  lemma SameSlot(s: Setting, t: Setting)
    ensures Slot(s) == Slot(t) <==> s == t
  {
    SlotOf(s);
    SlotOf(t);
  }

  lemma TypedUpdate(store: seq<Cell>, s: Setting, c: Cell)
    requires Typed(store) && TypedCell(s, c)
    ensures Typed(store[Slot(s) := c])
  {
    hide Slot;
    forall t: Setting
      ensures TypedCell(t, store[Slot(s) := c][Slot(t)])
    {
      SameSlot(s, t);
    }
  }

  lemma InitialTyped()
    ensures Typed(InitialStore())
    ensures forall s: Setting :: InitialStore()[Slot(s)] == Unset(s)
  {
    hide Slot;
    hide At;
    forall s: Setting
      ensures InitialStore()[Slot(s)] == Unset(s) && TypedCell(s, InitialStore()[Slot(s)])
    {
      SlotOf(s);
    }
  }

  /** What a value text of a setting's type is read as fits its variable. */
  lemma InterpretTyped(s: Setting, text: string)
    ensures Interpret(TypeOf(s), text).Some? ==> TypedCell(s, Interpret(TypeOf(s), text).value)
  {
    match TypeOf(s) {
      case U32 => if ParseU32(text).Good? { U32Exact(text, ParseU32(text).value); }
      case CO32 => if ParseCO32(text).Good? { CO32Exact(text, ParseCO32(text).value); }
      case _ =>
    }
  }

  lemma EventTyped(store: seq<Cell>, e: Event)
    requires Typed(store) && ValidConf(MainConf(), CELLS)
    ensures Typed(ApplyEvent(MainConf(), store, e))
  {
    hide Slot;
    hide TableAt;
    hide LongName;
    hide ShortName;
    hide Interpret;
    if e.opt < |Table()| {
      RowKinds(e.opt);
      var o := Table()[e.opt];
      if o.slot.Some? && o !in Preamble() {
        var s := TableAt(e.opt - 5);
        var c := store[Slot(s)];
        assert TypedCell(s, c);
        if e.value == None {
          TypedUpdate(store, s, FlagCell(o, e.unset, c));
        } else {
          InterpretTyped(s, e.value.value.s);
          if Interpret(o.typ, e.value.value.s).Some? {
            TypedUpdate(store, s, Interpret(o.typ, e.value.value.s).value);
          }
        }
      } else if o.slot.Some? {
        PreambleTyped(store, e);
      }
    }
  }

  lemma PreambleTyped(store: seq<Cell>, e: Event)
    requires Typed(store) && ValidConf(MainConf(), CELLS)
    requires e.opt < |Table()| && Table()[e.opt] in Preamble()
    ensures Typed(ApplyEvent(MainConf(), store, e))
  {
    hide Table;
    var t := ApplyEvent(MainConf(), store, e);
    forall s: Setting
      ensures t[Slot(s)] == store[Slot(s)]
    {
    }
  }

  lemma {:induction false} ReplayTyped(store: seq<Cell>, events: seq<Event>)
    requires Typed(store) && ValidConf(MainConf(), CELLS)
    ensures Typed(Replay(MainConf(), store, events))
  {
    if events != [] {
      ReplayTyped(store, events[..|events| - 1]);
      EventTyped(Replay(MainConf(), store, events[..|events| - 1]), events[|events| - 1]);
    }
  }

  /** The variables after a successful parse. */
  function Variables(args: seq<string>): (r: Result)
    requires |args| > 0
  {
    TableIsRegular();
    Parse(MainConf(), args, InitialStore())
  }

  lemma VariablesTyped(args: seq<string>)
    requires |args| > 0 && Variables(args).Done?
    ensures Typed(Variables(args).ps.store)
  {
    TableIsRegular();
    InitialTyped();
    StoreIsReplay(MainConf(), args, InitialStore());
    ReplayTyped(InitialStore(), Variables(args).ps.events);
  }

  // ---------------------------------------------------------------- what the variables ask for

  /** The word a setting is applied with, if it is: not when the variable still holds its marker. */
  function Selected(s: Setting, c: Cell): Option<Word>
    requires TypedCell(s, c)
  {
    if IsFlag(s) then (if c.i != 0 then Some(0) else None)
    else if IsOffset(s) then (if c.i != CO_UNSET then Some(CoWord(c.i)) else None)
    else if c.i != ARG_UNSET then Some(c.i)
    else None
  }

  datatype Adjustment = Adjustment(setting: Setting, word: Word)

  function Choice(s: Setting, c: Cell): seq<Adjustment>
    requires TypedCell(s, c)
  {
    if Selected(s, c).Some? then [Adjustment(s, Selected(s, c).value)] else []
  }

  /** The adjustments among the first `n` of main's sequence. */
  function PlanTo(store: seq<Cell>, n: nat): seq<Adjustment>
    requires Typed(store) && n <= 42
  {
    if n == 0 then [] else PlanTo(store, n - 1) + Choice(At(n - 1), store[Slot(At(n - 1))])
  }

  function Plan(store: seq<Cell>): seq<Adjustment>
    requires Typed(store)
  {
    PlanTo(store, 42)
  }

  ghost predicate InOrder(plan: seq<Adjustment>) {
    forall i, j | 0 <= i < j < |plan| :: Slot(plan[i].setting) < Slot(plan[j].setting)
  }

  /** The plan is exactly the selected settings with their words, each once, in main's order. */
  lemma {:induction false} PlanToExact(store: seq<Cell>, n: nat)
    requires Typed(store) && n <= 42
    ensures InOrder(PlanTo(store, n))
    ensures forall a :: a in PlanTo(store, n) <==>
                        Slot(a.setting) < n && Selected(a.setting, store[Slot(a.setting)]) == Some(a.word)
  {
    hide Slot;
    hide At;
    hide Selected;
    if n > 0 {
      PlanToExact(store, n - 1);
      var s := At(n - 1);
      SlotAt(n - 1);
      var before, choice := PlanTo(store, n - 1), Choice(s, store[Slot(s)]);
      forall a: Adjustment
        ensures a in before + choice <==>
                Slot(a.setting) < n && Selected(a.setting, store[Slot(a.setting)]) == Some(a.word)
      {
        SameSlot(a.setting, s);
        assert a in before + choice <==> a in before || a in choice;
      }
      assert forall i | 0 <= i < |before| :: before[i] in before;
    }
  }

  lemma PlanExact(store: seq<Cell>)
    requires Typed(store)
    ensures InOrder(Plan(store))
    ensures forall a :: a in Plan(store) <==> Selected(a.setting, store[Slot(a.setting)]) == Some(a.word)
  {
    PlanToExact(store, 42);
  }

  /** Overclocking is switched on before clock and voltage are set, and off only after them. */
  lemma OverclockingOrder(store: seq<Cell>, i: nat, j: nat)
    requires Typed(store) && i < |Plan(store)| && j < |Plan(store)|
    requires Plan(store)[i].setting in {EnableOc, OcClk, OcVolt} && Plan(store)[j].setting in {OcClk, OcVolt, DisableOc}
    requires Plan(store)[i].setting == EnableOc || Plan(store)[j].setting == DisableOc
    ensures i < j
  {
    PlanExact(store);
  }

  // ---------------------------------------------------------------- from option occurrences

  /** Only a setting's own row writes its variable. */
  lemma OwnRow(s: Setting)
    ensures forall o | o in Table() && o.slot == Some(Slot(s)) :: o == Row(s)
  {
    hide Slot;
    hide TableAt;
    hide LongName;
    hide ShortName;
    forall o | o in Table() && o.slot == Some(Slot(s))
      ensures o == Row(s)
    {
      var i :| 0 <= i < |Table()| && Table()[i] == o;
      RowKinds(i);
      if o !in Preamble() {
        SameSlot(s, TableAt(i - 5));
      }
    }
  }

  /** `n` is one more than the number of the last occurrence of the setting, or 0. */
  ghost predicate LastOccurrence(events: seq<Event>, s: Setting, n: nat) {
    && n <= |events|
    && (n > 0 ==> OnSlot(MainConf(), events[n - 1], Slot(s)))
    && forall j | n <= j < |events| :: !OnSlot(MainConf(), events[j], Slot(s))
  }

  /** The variable of a setting with a value holds its last value, or its marker. */
  lemma LastValue(args: seq<string>, s: Setting, n: nat)
    requires |args| > 0 && Variables(args).Done? && !IsFlag(s)
    requires LastOccurrence(Variables(args).ps.events, s, n)
    ensures Typed(Variables(args).ps.store)
    ensures
      var c := Variables(args).ps.store[Slot(s)];
      if n == 0 then c == Unset(s)
      else
        var text := Variables(args).ps.events[n - 1].value;
        text.Some? && Interpret(TypeOf(s), text.value.s) == Some(c)
  {
    hide Interpret;
    hide Slot;
    hide LongName;
    hide ShortName;
    VariablesTyped(args);
    TableIsRegular();
    InitialTyped();
    OwnRow(s);
    ValueIsLastOccurrence(MainConf(), args, InitialStore(), Slot(s), n);
    if n > 0 {
      var e := Variables(args).ps.events[n - 1];
      assert MainConf().options[e.opt] == Row(s);
    }
  }

  /**
   Limits: the last occurrence decides, and its text is a sign-free numeral below 2^32. The
   setting is applied with exactly this value, except that 2^32 - 1 cannot be told from an
   option that was not given.
   */
  lemma LimitApplied(args: seq<string>, s: Setting, n: nat)
    requires |args| > 0 && Variables(args).Done? && TypeOf(s) == U32
    requires LastOccurrence(Variables(args).ps.events, s, n)
    ensures Typed(Variables(args).ps.store)
    ensures
      var chosen := Selected(s, Variables(args).ps.store[Slot(s)]);
      if n == 0 then chosen == None
      else
        var text := Variables(args).ps.events[n - 1].value;
        && text.Some?
        && exists v: Word :: AcceptsUnsigned(text.value.s, v) && chosen == if v == ARG_UNSET then None else Some(v)
  {
    hide Slot;
    hide Variables;
    LastValue(args, s, n);
    if n > 0 {
      var text, v := Variables(args).ps.events[n - 1].value.value.s, Variables(args).ps.store[Slot(s)].i;
      U32Exact(text, v);
    }
  }

  /** Curve Optimiser offsets: the last occurrence decides, and its low 32 bits are always applied. */
  lemma OffsetApplied(args: seq<string>, s: Setting, n: nat)
    requires |args| > 0 && Variables(args).Done? && TypeOf(s) == CO32
    requires LastOccurrence(Variables(args).ps.events, s, n)
    ensures Typed(Variables(args).ps.store)
    ensures
      var chosen := Selected(s, Variables(args).ps.store[Slot(s)]);
      if n == 0 then chosen == None
      else
        var text := Variables(args).ps.events[n - 1].value;
        && text.Some?
        && exists v: int :: -CO32_LIMIT < v < CO32_LIMIT && Accepts(text.value.s, v) && chosen == Some(CoWord(v))
  {
    hide Slot;
    hide Variables;
    LastValue(args, s, n);
    if n > 0 {
      var text, v := Variables(args).ps.events[n - 1].value.value.s, Variables(args).ps.store[Slot(s)].i;
      CO32Exact(text, v);
    }
  }

  /** Switches: applied exactly when some tail of the occurrences has more sets than unsets. */
  lemma SwitchApplied(args: seq<string>, s: Setting)
    requires |args| > 0 && Variables(args).Done? && IsFlag(s)
    ensures Typed(Variables(args).ps.store)
    ensures
      var signs := Signs(MainConf(), Variables(args).ps.events, Slot(s));
      Selected(s, Variables(args).ps.store[Slot(s)]).Some? <==> exists k :: 0 <= k <= |signs| && Net(signs[k..]) > 0
  {
    VariablesTyped(args);
    TableIsRegular();
    InitialTyped();
    OwnRow(s);
    BooleanIsReflectedWalk(MainConf(), args, InitialStore(), Slot(s));
  }
}
