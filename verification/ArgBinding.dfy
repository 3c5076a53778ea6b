/**
 Which text becomes which option's value. The parser keeps its value pointer across arguments,
 so an option without a value that is spelled with '=' leaves a text behind that a later value
 option picks up. This module says exactly on which command lines that happens.
 */
module ArgBinding {
  import opened Words
  import opened ArgOptions
  import opened ArgSemantics

  // ---------------------------------------------------------------- the intended reading

  /** The same loop with the value pointer NULL before every argument. */
  function CleanLoop(conf: Conf, args: seq<string>, ps: PS): (r: Result)
    requires ValidConf(conf, |ps.store|) && ps.i <= |args|
    ensures r.Done? ==> ps.i <= r.ps.i <= |args|
    decreases |args| - ps.i
  {
    if ps.i == |args| then Done(ps)
    else
      match ArgStep(conf, args, ps.(pending := None))
      case Next(q) => CleanLoop(conf, args, q)
      case Stop(q) => Done(q)
      case Quit(code, q) => Failed(code, q)
  }

  function CleanParse(conf: Conf, args: seq<string>, store: seq<Cell>): Result
    requires ValidConf(conf, |store|) && |args| > 0
  {
    if |args| == 1 then Failed(1, InitPS(store)) else CleanLoop(conf, args, InitPS(store))
  }

  predicate IsSuffix(t: string, s: string) {
    |t| <= |s| && s[|s| - |t|..] == t
  }

  /** A value is part of its option's own argument, or the whole next argument. */
  predicate OwnText(args: seq<string>, e: Event) {
    e.value.Some? ==>
      var t := e.value.value;
      || (t.at == e.at < |args| && IsSuffix(t.s, args[e.at]))
      || (t.at == e.at + 1 < |args| && t.s == args[e.at + 1])
  }

  ghost predicate AllOwn(args: seq<string>, events: seq<Event>) {
    forall j | 0 <= j < |events| :: OwnText(args, events[j])
  }

  /** While an argument is processed, the pointer points into that argument. */
  predicate PendingOwn(args: seq<string>, ps: PS) {
    ps.pending.Some? ==> ps.pending.value.at == ps.i < |args| && IsSuffix(ps.pending.value.s, args[ps.i])
  }

  lemma GetValueOwn(conf: Conf, args: seq<string>, ps: PS, k: nat, unset: bool)
    requires k < |conf.options| && ValidConf(conf, |ps.store|) && ps.i < |args|
    requires PendingOwn(args, ps) && AllOwn(args, ps.events)
    ensures AllOwn(args, GetValue(conf, args, ps, k, unset).ps.events)
    ensures GetValue(conf, args, ps, k, unset).Ok? ==> PendingOwn(args, GetValue(conf, args, ps, k, unset).ps)
  {
  }

  lemma {:induction false} ClusterOwn(conf: Conf, args: seq<string>, ps: PS)
    requires ValidConf(conf, |ps.store|) && ps.i < |args|
    requires ps.pending.Some? && ps.pending.value.s != ""
    requires PendingOwn(args, ps) && AllOwn(args, ps.events)
    ensures AllOwn(args, Cluster(conf, args, ps).ps.events)
    decreases |ps.pending.value.s|
  {
    var t := ps.pending.value;
    var k := FindShort(conf.options, t.s[0], 0);
    if k < |conf.options| {
      var q := ps.(pending := if |t.s| > 1 then Some(Text(t.s[1..], t.at)) else None);
      GetValueOwn(conf, args, q, k, false);
      var r := ShortOpt(conf, args, ps);
      if r.Ok? && r.ps.pending.Some? {
        ClusterOwn(conf, args, r.ps);
      }
    }
  }

  lemma LongOwn(conf: Conf, args: seq<string>, ps: PS)
    requires ValidConf(conf, |ps.store|) && ps.i < |args| && |args[ps.i]| > 2
    requires ps.pending == None && AllOwn(args, ps.events)
    ensures AllOwn(args, LongOpt(conf, args, ps).ps.events)
  {
    var text := args[ps.i][2..];
    var k := FindLong(conf.options, text, 0);
    if k < |conf.options| {
      var hit := MatchLong(conf.options[k], text).value;
      if hit.value.Some? {
        HitIsSuffix(conf.options[k], text);
        var v := hit.value.value;
        assert args[ps.i][|args[ps.i]| - |v|..] == text[|text| - |v|..];
      }
      var q := if hit.value.Some? then ps.(pending := Some(Text(hit.value.value, ps.i))) else ps;
      GetValueOwn(conf, args, q, k, hit.unset);
    }
  }

  lemma HitIsSuffix(o: Opt, text: string)
    requires MatchLong(o, text).Some? && MatchLong(o, text).value.value.Some?
    ensures IsSuffix(MatchLong(o, text).value.value.value, text)
  {
  }

  lemma ArgStepOwn(conf: Conf, args: seq<string>, ps: PS)
    requires ValidConf(conf, |ps.store|) && ps.i < |args| && ps.pending == None && AllOwn(args, ps.events)
    ensures AllOwn(args, ArgStep(conf, args, ps).ps.events)
  {
    var arg := args[ps.i];
    if !IsWord(arg) {
      if arg[1] != '-' {
        ClusterOwn(conf, args, ps.(pending := Some(Text(arg[1..], ps.i)), roles := ps.roles + [OptionArg]));
      } else if |arg| > 2 {
        LongOwn(conf, args, ps.(roles := ps.roles + [OptionArg]));
      }
    }
  }

  lemma {:induction false} CleanLoopOwn(conf: Conf, args: seq<string>, ps: PS)
    requires ValidConf(conf, |ps.store|) && ps.i <= |args| && AllOwn(args, ps.events)
    ensures AllOwn(args, CleanLoop(conf, args, ps).ps.events)
    decreases |args| - ps.i
  {
    if ps.i < |args| {
      ArgStepOwn(conf, args, ps.(pending := None));
      var m := ArgStep(conf, args, ps.(pending := None));
      if m.Next? {
        CleanLoopOwn(conf, args, m.ps);
      }
    }
  }

  /** With the pointer cleared, every value comes from its own option's text or the next argument. */
  lemma CleanParseOwns(conf: Conf, args: seq<string>, store: seq<Cell>)
    requires ValidConf(conf, |store|) && |args| > 0
    ensures AllOwn(args, CleanParse(conf, args, store).ps.events)
  {
    CleanLoopOwn(conf, args, InitPS(store));
  }

  // ---------------------------------------------------------------- the guard

  predicate IsLong(arg: string) {
    !IsWord(arg) && arg[1] == '-' && |arg| > 2
  }

  /** The row and spelling of a long option, if it is one. */
  function LongHit(conf: Conf, arg: string): Option<(nat, Hit)>
  {
    if !IsLong(arg) then None
    else
      var k := FindLong(conf.options, arg[2..], 0);
      if k == |conf.options| then None else Some((k, MatchLong(conf.options[k], arg[2..]).value))
  }

  /** A long option that needs a value and is not spelled with '='. */
  predicate NeedsValue(conf: Conf, arg: string) {
    var h := LongHit(conf, arg);
    h.Some? && h.value.0 < |conf.options| && TakesValue(conf.options[h.value.0]) && h.value.1.value == None
  }

  /** Is a text left behind after this argument? */
  predicate Dangles(conf: Conf, arg: string, before: bool) {
    if IsWord(arg) then before
    else
      var h := LongHit(conf, arg);
      h.Some? && h.value.0 < |conf.options| && !TakesValue(conf.options[h.value.0]) && (before || h.value.1.value.Some?)
  }

  /**
   The command line has an option that takes no value but is spelled with '=', and later,
   with only words and options without values in between, a long option that needs a value.
   */
  predicate Misreads(conf: Conf, args: seq<string>, ps: PS, dangling: bool)
    requires ValidConf(conf, |ps.store|) && ps.i <= |args|
    decreases |args| - ps.i
  {
    ps.i < |args| &&
    ((dangling && NeedsValue(conf, args[ps.i])) ||
     match ArgStep(conf, args, ps.(pending := None))
     case Next(q) => Misreads(conf, args, q, Dangles(conf, args[ps.i], dangling))
     case _ => false)
  }

  // ---------------------------------------------------------------- agreement

  /** Equal up to the pointer, which nobody looks at after the parse. */
  predicate SamePS(p: PS, q: PS) {
    p.(pending := None) == q.(pending := None)
  }

  predicate SameResult(r: Result, c: Result) {
    match (r, c)
    case (Done(p), Done(q)) => SamePS(p, q)
    case (Failed(a, p), Failed(b, q)) => a == b && SamePS(p, q)
    case _ => false
  }

  predicate Stale(ps: PS) {
    ps.pending.Some? ==> ps.pending.value.at < ps.i
  }

  lemma LongAgrees(conf: Conf, args: seq<string>, ps: PS)
    requires ValidConf(conf, |ps.store|) && ps.i < |args| && IsLong(args[ps.i]) && Stale(ps)
    requires ps.pending.Some? ==> !NeedsValue(conf, args[ps.i])
    ensures
      var r := LongOpt(conf, args, ps);
      var c := LongOpt(conf, args, ps.(pending := None));
      && SamePS(r.ps, c.ps) && r == c.(ps := r.ps)
      && (r.Ok? ==> (r.ps.pending.Some? <==> Dangles(conf, args[ps.i], ps.pending.Some?)))
      && (r.ps.pending.Some? ==> r.ps.pending.value.at <= ps.i)
  {
  }

  lemma StepAgrees(conf: Conf, args: seq<string>, ps: PS)
    requires ValidConf(conf, |ps.store|) && ps.i < |args| && Stale(ps)
    requires ps.pending.Some? ==> !NeedsValue(conf, args[ps.i])
    ensures
      var m := ArgStep(conf, args, ps);
      var c := ArgStep(conf, args, ps.(pending := None));
      && SamePS(m.ps, c.ps) && m == c.(ps := m.ps)
      && (m.Next? ==> Stale(m.ps) && (m.ps.pending.Some? <==> Dangles(conf, args[ps.i], ps.pending.Some?)))
  {
    var arg := args[ps.i];
    if IsLong(arg) {
      LongAgrees(conf, args, ps.(roles := ps.roles + [OptionArg]));
    } else if !IsWord(arg) && arg[1] != '-' {
      var q := ps.(pending := Some(Text(arg[1..], ps.i)), roles := ps.roles + [OptionArg]);
      assert q == ps.(pending := None).(pending := Some(Text(arg[1..], ps.i)), roles := ps.roles + [OptionArg]);
    }
  }

  lemma {:induction false} LoopAgrees(conf: Conf, args: seq<string>, ps: PS)
    requires ValidConf(conf, |ps.store|) && ps.i <= |args| && Stale(ps)
    requires !Misreads(conf, args, ps, ps.pending.Some?)
    ensures SameResult(Loop(conf, args, ps), CleanLoop(conf, args, ps))
    decreases |args| - ps.i
  {
    if ps.i < |args| {
      StepAgrees(conf, args, ps);
      var m := ArgStep(conf, args, ps);
      var c := ArgStep(conf, args, ps.(pending := None));
      if m.Next? {
        CleanForgets(conf, args, m.ps, c.ps, m.ps.pending.Some?);
        LoopAgrees(conf, args, m.ps);
      }
    }
  }

  /** The clean loop does not look at the pointer it starts with. */
  lemma CleanForgets(conf: Conf, args: seq<string>, p: PS, q: PS, dangling: bool)
    requires ValidConf(conf, |p.store|) && p.i <= |args| && SamePS(p, q)
    ensures SameResult(CleanLoop(conf, args, p), CleanLoop(conf, args, q))
    ensures Misreads(conf, args, p, dangling) == Misreads(conf, args, q, dangling)
  {
    assert p.(pending := None) == q.(pending := None);
  }

  // ---------------------------------------------------------------- the guard is exact

  lemma {:induction false} ClusterGrows(conf: Conf, args: seq<string>, ps: PS)
    requires ValidConf(conf, |ps.store|) && ps.i < |args|
    requires ps.pending.Some? && ps.pending.value.s != ""
    ensures ps.events <= Cluster(conf, args, ps).ps.events
    decreases |ps.pending.value.s|
  {
    var r := ShortOpt(conf, args, ps);
    if r.Ok? && r.ps.pending.Some? {
      ClusterGrows(conf, args, r.ps);
    }
  }

  lemma ArgStepGrows(conf: Conf, args: seq<string>, ps: PS)
    requires ValidConf(conf, |ps.store|) && ps.i < |args|
    ensures ps.events <= ArgStep(conf, args, ps).ps.events
  {
    var arg := args[ps.i];
    if !IsWord(arg) && arg[1] != '-' {
      ClusterGrows(conf, args, ps.(pending := Some(Text(arg[1..], ps.i)), roles := ps.roles + [OptionArg]));
    }
  }

  lemma {:induction false} LoopGrows(conf: Conf, args: seq<string>, ps: PS)
    requires ValidConf(conf, |ps.store|) && ps.i <= |args|
    ensures ps.events <= Loop(conf, args, ps).ps.events
    decreases |args| - ps.i
  {
    if ps.i < |args| {
      ArgStepGrows(conf, args, ps);
      var m := ArgStep(conf, args, ps);
      if m.Next? {
        LoopGrows(conf, args, m.ps);
      }
    }
  }

  /** A value option that meets a left-behind text takes it, instead of the next argument. */
  lemma StaleTaken(conf: Conf, args: seq<string>, ps: PS)
    requires ValidConf(conf, |ps.store|) && ps.i < |args| && Stale(ps)
    requires ps.pending.Some? && NeedsValue(conf, args[ps.i])
    ensures |ArgStep(conf, args, ps).ps.events| > |ps.events|
    ensures !OwnText(args, ArgStep(conf, args, ps).ps.events[|ps.events|])
  {
    var text := args[ps.i][2..];
    var k := FindLong(conf.options, text, 0);
    var hit := MatchLong(conf.options[k], text).value;
    var q := ps.(roles := ps.roles + [OptionArg]);
    assert LongOpt(conf, args, q) == GetValue(conf, args, q, k, hit.unset);
    assert LongOpt(conf, args, q).ps.events == ps.events + [Event(k, hit.unset, ps.i, ps.pending)];
  }

  lemma {:induction false} MisreadShows(conf: Conf, args: seq<string>, ps: PS)
    requires ValidConf(conf, |ps.store|) && ps.i <= |args| && Stale(ps)
    requires Misreads(conf, args, ps, ps.pending.Some?)
    ensures !AllOwn(args, Loop(conf, args, ps).ps.events)
    decreases |args| - ps.i
  {
    var m := ArgStep(conf, args, ps);
    if ps.pending.Some? && NeedsValue(conf, args[ps.i]) {
      StaleTaken(conf, args, ps);
      if m.Next? {
        LoopGrows(conf, args, m.ps);
      }
      var j := |ps.events|;
      assert Loop(conf, args, ps).ps.events[j] == m.ps.events[j];
    } else {
      StepAgrees(conf, args, ps);
      var c := ArgStep(conf, args, ps.(pending := None));
      CleanForgets(conf, args, m.ps, c.ps, m.ps.pending.Some?);
      MisreadShows(conf, args, m.ps);
    }
  }

  /** Every value the parser binds is its option's own text exactly when the guard does not hold. */
  lemma ValuesAreOwnIff(conf: Conf, args: seq<string>, store: seq<Cell>)
    requires ValidConf(conf, |store|) && |args| > 0
    ensures AllOwn(args, Parse(conf, args, store).ps.events) <==> !Misreads(conf, args, InitPS(store), false)
  {
    var ps := InitPS(store);
    if Misreads(conf, args, ps, false) {
      MisreadShows(conf, args, ps);
    } else {
      LoopAgrees(conf, args, ps);
      CleanLoopOwn(conf, args, ps);
    }
  }

  /** The parser is the intended left-to-right reading on exactly the same command lines. */
  lemma ParseIsCleanIff(conf: Conf, args: seq<string>, store: seq<Cell>)
    requires ValidConf(conf, |store|) && |args| > 0
    ensures SameResult(Parse(conf, args, store), CleanParse(conf, args, store)) <==>
            !Misreads(conf, args, InitPS(store), false)
  {
    ValuesAreOwnIff(conf, args, store);
    CleanLoopOwn(conf, args, InitPS(store));
    if !Misreads(conf, args, InitPS(store), false) {
      LoopAgrees(conf, args, InitPS(store));
    }
  }

  // ---------------------------------------------------------------- an example

  /** A table with a flag "i" and a string option "a". */
  function SmallTable(): Conf {
    Conf([Opt(Boolean, None, Some("i"), Some(0), 0, false, false), Opt(Str, None, Some("a"), Some(1), 0, false, false)],
         false, false)
  }

  /** After "--i=5" the text "5" is still pending. */
  lemma StaleFirst(args: seq<string>, s0: PS)
    requires args == ["p", "--i=5", "--a"] && s0 == InitPS([IntCell(0), StrCell("")])
    ensures
      ArgStep(SmallTable(), args, s0) ==
      Next(PS(2, [], Some(Text("5", 1)), [IntCell(1), StrCell("")], [Event(0, false, 1, None)], [OptionArg]))
  {
    var conf := SmallTable();
    assert args[1][2..] == "i=5";
    assert MatchLong(conf.options[0], "i=5") == Some(Hit(false, Some("5"))) by {
      assert "i=5"[1..] == "=5" && "=5"[1..] == "5";
    }
    assert FindLong(conf.options, "i=5", 0) == 0;
  }

  /** "--a" takes the pending text. */
  lemma StaleSecond(args: seq<string>, s1: PS)
    requires args == ["p", "--i=5", "--a"] && s1.i == 2 && s1.pending == Some(Text("5", 1))
    requires s1.store == [IntCell(1), StrCell("")]
    ensures
      var m := ArgStep(SmallTable(), args, s1);
      m.Next? && m.ps.i == 3 && m.ps.store == [IntCell(1), StrCell("5")]
  {
    var options := SmallTable().options;
    assert args[2][2..] == "a";
    assert MatchLong(options[0], "a") == None by {
      assert "a"[0] != "i"[0];
    }
    assert MatchLong(options[1], "a") == Some(Hit(false, None)) by {
      assert "a"[1..] == "";
    }
    assert FindLong(options, "a", 0) == FindLong(options, "a", 1) == 1;
  }

  /** The flag written "--i=5" and a later "--a" without any value: "5" is stored in a's variable. */
  lemma StaleExample()
    ensures ValidConf(SmallTable(), 2)
    ensures
      var r := Parse(SmallTable(), ["p", "--i=5", "--a"], [IntCell(0), StrCell("")]);
      r.Done? && r.ps.store == [IntCell(1), StrCell("5")]
  {
    var conf, args := SmallTable(), ["p", "--i=5", "--a"];
    var s0 := InitPS([IntCell(0), StrCell("")]);
    StaleFirst(args, s0);
    var s1 := ArgStep(conf, args, s0).ps;
    StaleSecond(args, s1);
    var m := ArgStep(conf, args, s1);
    assert Loop(conf, args, s1) == Done(m.ps);
    assert Loop(conf, args, s0) == Loop(conf, args, s1);
  }
}
