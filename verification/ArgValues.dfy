/**
 The final values of the program's variables: replaying the option occurrences in order. A
 value option keeps its last occurrence; a BOOLEAN is a walk reflected at zero.
 */
module ArgValues {
  import opened Words
  import opened ArgOptions
  import opened ArgSemantics

  /** One option occurrence applied to the variables. */
  function ApplyEvent(conf: Conf, store: seq<Cell>, e: Event): (r: seq<Cell>)
    requires ValidConf(conf, |store|)
    ensures |r| == |store|
  {
    if e.opt >= |conf.options| then store
    else
      var o := conf.options[e.opt];
      assert o in conf.options;
      if o.slot == None then store
      else
        match e.value
        case None => store[o.slot.value := FlagCell(o, e.unset, store[o.slot.value])]
        case Some(text) =>
          match Interpret(o.typ, text.s)
          case None => store
          case Some(cell) => store[o.slot.value := cell]
  }

  function Replay(conf: Conf, store: seq<Cell>, events: seq<Event>): (r: seq<Cell>)
    requires ValidConf(conf, |store|)
    ensures |r| == |store|
  {
    if events == [] then store
    else ApplyEvent(conf, Replay(conf, store, events[..|events| - 1]), events[|events| - 1])
  }

  lemma ReplaySnoc(conf: Conf, store: seq<Cell>, events: seq<Event>, e: Event)
    requires ValidConf(conf, |store|)
    ensures Replay(conf, store, events + [e]) == ApplyEvent(conf, Replay(conf, store, events), e)
  {
    assert (events + [e])[..|events|] == events;
  }

  /** The recorded occurrences explain the variables, and every value option has its text. */
  ghost predicate Explained(conf: Conf, store: seq<Cell>, ps: PS) {
    && ValidConf(conf, |store|) && |ps.store| == |store|
    && ps.store == Replay(conf, store, ps.events)
    && (forall j | 0 <= j < |ps.events| :: WellBound(conf, ps.events[j]))
  }

  predicate WellBound(conf: Conf, e: Event) {
    && e.opt < |conf.options|
    && (TakesValue(conf.options[e.opt]) <==> e.value.Some?)
    && (e.value.Some? ==> Interpret(conf.options[e.opt].typ, e.value.value.s).Some?)
  }

  /** An option that is accepted leaves one occurrence, and changes the variables as this occurrence says. */
  lemma OneEvent(conf: Conf, args: seq<string>, ps: PS, k: nat, unset: bool)
    requires k < |conf.options| && ValidConf(conf, |ps.store|) && ps.i < |args|
    ensures
      var r := GetValue(conf, args, ps, k, unset);
      r.Ok? ==>
        && |r.ps.events| == |ps.events| + 1
        && var e := r.ps.events[|ps.events|];
           r.ps.events == ps.events + [e] && WellBound(conf, e) && r.ps.store == ApplyEvent(conf, ps.store, e)
  {
    hide Interpret;
    hide FlagCell;
    assert conf.options[k] in conf.options;
  }

  lemma ExplainedSnoc(conf: Conf, store: seq<Cell>, ps: PS, q: PS, e: Event)
    requires Explained(conf, store, ps) && WellBound(conf, e)
    requires q.events == ps.events + [e] && q.store == ApplyEvent(conf, ps.store, e)
    ensures Explained(conf, store, q)
  {
    ReplaySnoc(conf, store, ps.events, e);
    hide WellBound;
    hide ApplyEvent;
    hide ValidConf;
  }

  lemma GetValueExplained(conf: Conf, store: seq<Cell>, args: seq<string>, ps: PS, k: nat, unset: bool)
    requires k < |conf.options| && Explained(conf, store, ps) && ps.i < |args|
    ensures GetValue(conf, args, ps, k, unset).Ok? ==> Explained(conf, store, GetValue(conf, args, ps, k, unset).ps)
  {
    OneEvent(conf, args, ps, k, unset);
    hide GetValue;
    hide WellBound;
    hide ApplyEvent;
    hide ValidConf;
    hide Replay;
    var r := GetValue(conf, args, ps, k, unset);
    if r.Ok? {
      ExplainedSnoc(conf, store, ps, r.ps, r.ps.events[|ps.events|]);
    }
  }

  lemma {:induction false} ClusterExplained(conf: Conf, store: seq<Cell>, args: seq<string>, ps: PS)
    requires Explained(conf, store, ps) && ps.i < |args|
    requires ps.pending.Some? && ps.pending.value.s != ""
    ensures Cluster(conf, args, ps).Ok? ==> Explained(conf, store, Cluster(conf, args, ps).ps)
    decreases |ps.pending.value.s|
  {
    var t := ps.pending.value;
    var k := FindShort(conf.options, t.s[0], 0);
    if k < |conf.options| {
      GetValueExplained(conf, store, args, ps.(pending := if |t.s| > 1 then Some(Text(t.s[1..], t.at)) else None), k, false);
      var r := ShortOpt(conf, args, ps);
      if r.Ok? && r.ps.pending.Some? {
        ClusterExplained(conf, store, args, r.ps);
      }
    }
  }

  lemma ArgStepExplained(conf: Conf, store: seq<Cell>, args: seq<string>, ps: PS)
    requires Explained(conf, store, ps) && ps.i < |args|
    ensures !ArgStep(conf, args, ps).Quit? ==> Explained(conf, store, ArgStep(conf, args, ps).ps)
  {
    var arg := args[ps.i];
    if !IsWord(arg) {
      if arg[1] != '-' {
        ClusterExplained(conf, store, args, ps.(pending := Some(Text(arg[1..], ps.i)), roles := ps.roles + [OptionArg]));
      } else if |arg| > 2 {
        var q := ps.(roles := ps.roles + [OptionArg]);
        var k := FindLong(conf.options, arg[2..], 0);
        if k < |conf.options| {
          var hit := MatchLong(conf.options[k], arg[2..]).value;
          GetValueExplained(conf, store, args,
                            if hit.value.Some? then q.(pending := Some(Text(hit.value.value, q.i))) else q, k, hit.unset);
        }
      }
    }
  }

  lemma {:induction false} LoopExplained(conf: Conf, store: seq<Cell>, args: seq<string>, ps: PS)
    requires Explained(conf, store, ps) && ps.i <= |args|
    ensures Loop(conf, args, ps).Done? ==> Explained(conf, store, Loop(conf, args, ps).ps)
    decreases |args| - ps.i
  {
    if ps.i < |args| {
      ArgStepExplained(conf, store, args, ps);
      var m := ArgStep(conf, args, ps);
      if m.Next? {
        LoopExplained(conf, store, args, m.ps);
      }
    }
  }

  /** After a successful parse the variables are the replay of the option occurrences. */
  lemma StoreIsReplay(conf: Conf, args: seq<string>, store: seq<Cell>)
    requires ValidConf(conf, |store|) && |args| > 0
    ensures Parse(conf, args, store).Done? ==> Explained(conf, store, Parse(conf, args, store).ps)
  {
    LoopExplained(conf, store, args, InitPS(store));
  }

  // ---------------------------------------------------------------- value options

  predicate OnSlot(conf: Conf, e: Event, slot: nat) {
    e.opt < |conf.options| && conf.options[e.opt].slot == Some(slot)
  }

  /** Every occurrence that writes the variable is of an option with a value. */
  ghost predicate ValueSlot(conf: Conf, slot: nat) {
    forall o | o in conf.options && o.slot == Some(slot) :: TakesValue(o)
  }

  /** The last occurrence wins, and without one the variable is untouched. */
  lemma {:induction false} LastOccurrenceWins(conf: Conf, store: seq<Cell>, events: seq<Event>, slot: nat, n: nat)
    requires ValidConf(conf, |store|) && slot < |store| && ValueSlot(conf, slot)
    requires forall j | 0 <= j < |events| :: WellBound(conf, events[j])
    requires n <= |events| && forall j | n <= j < |events| :: !OnSlot(conf, events[j], slot)
    ensures n == 0 ==> Replay(conf, store, events)[slot] == store[slot]
    ensures n > 0 && OnSlot(conf, events[n - 1], slot) ==>
              && events[n - 1].value.Some?
              && Some(Replay(conf, store, events)[slot]) ==
                 Interpret(conf.options[events[n - 1].opt].typ, events[n - 1].value.value.s)
  {
    if n < |events| {
      LastOccurrenceWins(conf, store, events[..|events| - 1], slot, n);
    } else if n > 0 && OnSlot(conf, events[n - 1], slot) {
      assert conf.options[events[n - 1].opt] in conf.options;
    }
  }

  // ---------------------------------------------------------------- bit masks

  predicate OneBit(m: bv32) {
    m != 0 && m & (m - 1) == 0
  }

  /** Every occurrence that writes the variable sets or clears bits. */
  ghost predicate BitSlot(conf: Conf, slot: nat) {
    forall o | o in conf.options && o.slot == Some(slot) :: o.typ == Bit
  }

  /** Bit `m` of a mask. */
  predicate HasBit(c: Cell, m: bv32) {
    c.BitCell? && c.b & m != 0
  }

  /** The option is about bit `m`. */
  predicate Concerns(o: Opt, m: bv32) {
    o.data & m != 0
  }

  /** The occurrence sets or clears bit `m` of the variable. */
  predicate OnBit(conf: Conf, e: Event, slot: nat, m: bv32) {
    OnSlot(conf, e, slot) && Concerns(conf.options[e.opt], m)
  }

  lemma BitAfter(o: Opt, unset: bool, c: Cell, m: bv32)
    requires o.typ == Bit && c.BitCell? && OneBit(m)
    ensures FlagCell(o, unset, c).BitCell?
    ensures HasBit(FlagCell(o, unset, c), m) <==> if Concerns(o, m) then !unset else HasBit(c, m)
  {
  }

  lemma {:induction false} LastBitWins(conf: Conf, store: seq<Cell>, events: seq<Event>, slot: nat, m: bv32, n: nat)
    requires ValidConf(conf, |store|) && slot < |store| && BitSlot(conf, slot) && store[slot].BitCell? && OneBit(m)
    requires forall j | 0 <= j < |events| :: WellBound(conf, events[j])
    requires n <= |events| && forall j | n <= j < |events| :: !OnBit(conf, events[j], slot, m)
    requires n > 0 ==> OnBit(conf, events[n - 1], slot, m)
    ensures Replay(conf, store, events)[slot].BitCell?
    ensures HasBit(Replay(conf, store, events)[slot], m) <==> if n == 0 then HasBit(store[slot], m) else !events[n - 1].unset
    decreases |events|
  {
    hide OneBit;
    hide FlagCell;
    hide HasBit;
    hide Concerns;
    if events != [] {
      var k := |events| - 1;
      StaysBit(conf, store, events[..k], slot);
      if n <= k {
        LastBitWins(conf, store, events[..k], slot, m, n);
      }
      if OnSlot(conf, events[k], slot) {
        var o := conf.options[events[k].opt];
        assert o in conf.options;
        BitAfter(o, events[k].unset, Replay(conf, store, events[..k])[slot], m);
      }
    }
  }

  lemma {:induction false} StaysBit(conf: Conf, store: seq<Cell>, events: seq<Event>, slot: nat)
    requires ValidConf(conf, |store|) && slot < |store| && BitSlot(conf, slot) && store[slot].BitCell?
    requires forall j | 0 <= j < |events| :: WellBound(conf, events[j])
    ensures Replay(conf, store, events)[slot].BitCell?
  {
    if events != [] {
      StaysBit(conf, store, events[..|events| - 1], slot);
      var e := events[|events| - 1];
      if OnSlot(conf, e, slot) {
        assert conf.options[e.opt] in conf.options;
      }
    }
  }

  /** After a successful parse, each bit of a mask is as its last occurrence left it. */
  lemma BitIsLastOccurrence(conf: Conf, args: seq<string>, store: seq<Cell>, slot: nat, m: bv32, n: nat)
    requires ValidConf(conf, |store|) && |args| > 0 && slot < |store| && BitSlot(conf, slot) && store[slot].BitCell?
    requires OneBit(m) && Parse(conf, args, store).Done?
    requires n <= |Parse(conf, args, store).ps.events|
    requires forall j | n <= j < |Parse(conf, args, store).ps.events| ::
               !OnBit(conf, Parse(conf, args, store).ps.events[j], slot, m)
    requires n > 0 ==> OnBit(conf, Parse(conf, args, store).ps.events[n - 1], slot, m)
    ensures
      var ps := Parse(conf, args, store).ps;
      && ps.store[slot].BitCell?
      && (HasBit(ps.store[slot], m) <==> if n == 0 then HasBit(store[slot], m) else !ps.events[n - 1].unset)
  {
    hide OneBit;
    hide HasBit;
    hide Concerns;
    StoreIsReplay(conf, args, store);
    LastBitWins(conf, store, Parse(conf, args, store).ps.events, slot, m, n);
  }

  // ---------------------------------------------------------------- the clamped counter

  /** Sets minus unsets. */
  function Net(signs: seq<bool>): int {
    if signs == [] then 0
    else Net(signs[..|signs| - 1]) + (if signs[|signs| - 1] then -1 else 1)
  }

  /** The counter after a sequence of occurrences (true: negated), starting from 0. */
  function Walk(signs: seq<bool>): int {
    if signs == [] then 0 else Count(Walk(signs[..|signs| - 1]), signs[|signs| - 1])
  }

  /** The clamped counter is the largest net count of any tail of the occurrences. */
  lemma {:induction false} WalkIsMaxSuffix(signs: seq<bool>)
    ensures forall k | 0 <= k <= |signs| :: Net(signs[k..]) <= Walk(signs)
    ensures exists k :: 0 <= k <= |signs| && Net(signs[k..]) == Walk(signs)
  {
    if signs == [] {
      assert signs[0..] == [];
    } else {
      var n := |signs| - 1;
      var init := signs[..n];
      WalkIsMaxSuffix(init);
      forall k | 0 <= k <= n
        ensures Net(signs[k..]) == Net(init[k..]) + (if signs[n] then -1 else 1)
      {
        assert signs[k..][..n - k] == init[k..];
      }
      assert signs[|signs|..] == [];
      var k :| 0 <= k <= |init| && Net(init[k..]) == Walk(init);
      assert Net(signs[k..]) == Walk(init) + (if signs[n] then -1 else 1);
    }
  }

  /** The occurrences that write a variable, as negated or not. */
  function Signs(conf: Conf, events: seq<Event>, slot: nat): seq<bool> {
    if events == [] then []
    else
      var e := events[|events| - 1];
      Signs(conf, events[..|events| - 1], slot) + (if OnSlot(conf, e, slot) then [e.unset] else [])
  }

  ghost predicate BooleanSlot(conf: Conf, slot: nat) {
    forall o | o in conf.options && o.slot == Some(slot) :: o.typ == Boolean
  }

  lemma {:induction false} ReplayBoolean(conf: Conf, store: seq<Cell>, events: seq<Event>, slot: nat)
    requires ValidConf(conf, |store|) && slot < |store| && BooleanSlot(conf, slot)
    requires forall j | 0 <= j < |events| :: WellBound(conf, events[j])
    requires store[slot] == IntCell(0)
    ensures Replay(conf, store, events)[slot] == IntCell(Walk(Signs(conf, events, slot)))
  {
    if events != [] {
      var n := |events| - 1;
      ReplayBoolean(conf, store, events[..n], slot);
      var signs := Signs(conf, events[..n], slot);
      if OnSlot(conf, events[n], slot) {
        assert conf.options[events[n].opt] in conf.options;
        assert (signs + [events[n].unset])[..|signs|] == signs;
      } else {
        assert signs + [] == signs;
      }
    }
  }

  /**
   After a successful parse, a BOOLEAN that started at 0 holds the maximum, over all tails of
   its occurrences (the empty one included), of sets minus unsets.
   */
  lemma BooleanIsReflectedWalk(conf: Conf, args: seq<string>, store: seq<Cell>, slot: nat)
    requires ValidConf(conf, |store|) && |args| > 0
    requires slot < |store| && BooleanSlot(conf, slot) && store[slot] == IntCell(0)
    requires Parse(conf, args, store).Done?
    ensures
      var ps := Parse(conf, args, store).ps;
      var signs := Signs(conf, ps.events, slot);
      && ps.store[slot].IntCell?
      && (forall k | 0 <= k <= |signs| :: Net(signs[k..]) <= ps.store[slot].i)
      && (exists k :: 0 <= k <= |signs| && Net(signs[k..]) == ps.store[slot].i)
  {
    StoreIsReplay(conf, args, store);
    var ps := Parse(conf, args, store).ps;
    ReplayBoolean(conf, store, ps.events, slot);
    WalkIsMaxSuffix(Signs(conf, ps.events, slot));
  }

  /** After a successful parse, a value variable holds what its last occurrence said. */
  lemma ValueIsLastOccurrence(conf: Conf, args: seq<string>, store: seq<Cell>, slot: nat, n: nat)
    requires ValidConf(conf, |store|) && |args| > 0 && slot < |store| && ValueSlot(conf, slot)
    requires Parse(conf, args, store).Done?
    requires n <= |Parse(conf, args, store).ps.events|
    requires forall j | n <= j < |Parse(conf, args, store).ps.events| ::
               !OnSlot(conf, Parse(conf, args, store).ps.events[j], slot)
    requires n > 0 ==> OnSlot(conf, Parse(conf, args, store).ps.events[n - 1], slot)
    ensures
      var ps := Parse(conf, args, store).ps;
      if n == 0 then ps.store[slot] == store[slot]
      else
        && ps.events[n - 1].value.Some?
        && Some(ps.store[slot]) == Interpret(conf.options[ps.events[n - 1].opt].typ, ps.events[n - 1].value.value.s)
  {
    StoreIsReplay(conf, args, store);
    LastOccurrenceWins(conf, store, Parse(conf, args, store).ps.events, slot, n);
  }
}
