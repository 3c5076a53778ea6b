/**
 What the parser reads, against what is written: the option occurrences of a successful parse are
 exactly those on the command line, in order, the parse ends where it should, and it fails only for
 a reason that can be pointed at.
 */
module ArgReading {
  import opened Words
  import opened ArgOptions
  import opened ArgSemantics
  import opened ArgProperties

  // ---------------------------------------------------------------- occurrences

  /** Option row `opt` is written in argument `at`. */
  datatype Occurrence = Occurrence(opt: nat, unset: bool, at: nat)

  function Seen(events: seq<Event>): seq<Occurrence> {
    if events == [] then []
    else
      var e := events[|events| - 1];
      Seen(events[..|events| - 1]) + [Occurrence(e.opt, e.unset, e.at)]
  }

  /** A cluster of letters: up to the first one that takes a value, the rest being that value. */
  function Letters(conf: Conf, s: string, at: nat): seq<Occurrence> {
    if s == "" then []
    else
      var k := FindShort(conf.options, s[0], 0);
      [Occurrence(k, false, at)] +
      (if k < |conf.options| && !TakesValue(conf.options[k]) then Letters(conf, s[1..], at) else [])
  }

  /** The options written in one argument. */
  function Written(conf: Conf, arg: string, at: nat): seq<Occurrence> {
    if IsWord(arg) || arg == "--" then []
    else if arg[1] != '-' then Letters(conf, arg[1..], at)
    else
      var k := FindLong(conf.options, arg[2..], 0);
      if k < |conf.options| then [Occurrence(k, MatchLong(conf.options[k], arg[2..]).value.unset, at)] else []
  }

  /** The options written in the arguments that are options; `roles[k]` belongs to argument `k + 1`. */
  function WrittenAll(conf: Conf, args: seq<string>, roles: seq<Role>): seq<Occurrence>
    requires |roles| < |args|
  {
    if roles == [] then []
    else
      var n := |roles|;
      WrittenAll(conf, args, roles[..n - 1]) + (if roles[n - 1] == OptionArg then Written(conf, args[n], n) else [])
  }

  lemma SeenSnoc(events: seq<Event>, e: Event)
    ensures Seen(events + [e]) == Seen(events) + [Occurrence(e.opt, e.unset, e.at)]
  {
    assert (events + [e])[..|events|] == events;
  }

  lemma WrittenSnoc(conf: Conf, args: seq<string>, roles: seq<Role>, r: Role)
    requires |roles| + 1 < |args|
    ensures WrittenAll(conf, args, roles + [r]) ==
            WrittenAll(conf, args, roles) +
            (if r == OptionArg then Written(conf, args[|roles| + 1], |roles| + 1) else [])
  {
    assert (roles + [r])[..|roles|] == roles;
  }

  /** An accepted occurrence is recorded once, and only a value ends the text of a cluster. */
  lemma ValueRead(conf: Conf, args: seq<string>, ps: PS, k: nat, unset: bool)
    requires k < |conf.options| && ValidConf(conf, |ps.store|) && ps.i < |args|
    ensures
      var r := GetValue(conf, args, ps, k, unset);
      r.Ok? ==>
        && Seen(r.ps.events) == Seen(ps.events) + [Occurrence(k, unset, ps.i)]
        && r.ps.pending == (if TakesValue(conf.options[k]) then None else ps.pending)
        && (!TakesValue(conf.options[k]) ==> r.ps.i == ps.i)
  {
    hide Interpret;
    hide FlagCell;
    hide Seen;
    var r := GetValue(conf, args, ps, k, unset);
    if r.Ok? {
      SeenSnoc(ps.events, r.ps.events[|ps.events|]);
    }
  }

  lemma {:induction false} ClusterRead(conf: Conf, args: seq<string>, ps: PS)
    requires ValidConf(conf, |ps.store|) && ps.i < |args|
    requires ps.pending.Some? && ps.pending.value.s != ""
    ensures
      var r := Cluster(conf, args, ps);
      r.Ok? ==> Seen(r.ps.events) == Seen(ps.events) + Letters(conf, ps.pending.value.s, ps.i)
    decreases |ps.pending.value.s|
  {
    hide GetValue;
    hide Seen;
    var t := ps.pending.value;
    var k := FindShort(conf.options, t.s[0], 0);
    var r := ShortOpt(conf, args, ps);
    if k < |conf.options| && r.Ok? {
      var q := ps.(pending := if |t.s| > 1 then Some(Text(t.s[1..], t.at)) else None);
      ValueRead(conf, args, q, k, false);
      if r.ps.pending.Some? {
        ClusterRead(conf, args, r.ps);
      } else {
        assert Letters(conf, t.s, ps.i) == [Occurrence(k, false, ps.i)];
      }
    }
  }

  lemma LongRead(conf: Conf, args: seq<string>, ps: PS)
    requires ValidConf(conf, |ps.store|) && ps.i < |args| && |args[ps.i]| > 2 && args[ps.i][..2] == "--"
    ensures
      var r := LongOpt(conf, args, ps);
      r.Ok? ==> Seen(r.ps.events) == Seen(ps.events) + Written(conf, args[ps.i], ps.i)
  {
    hide GetValue;
    hide Seen;
    var text := args[ps.i][2..];
    var k := FindLong(conf.options, text, 0);
    if k < |conf.options| {
      var hit := MatchLong(conf.options[k], text).value;
      ValueRead(conf, args, if hit.value.Some? then ps.(pending := Some(Text(hit.value.value, ps.i))) else ps, k, hit.unset);
    }
  }

  ghost predicate ReadSoFar(conf: Conf, args: seq<string>, ps: PS) {
    1 <= ps.i <= |args| && |ps.roles| == ps.i - 1 && Seen(ps.events) == WrittenAll(conf, args, ps.roles)
  }

  /** An option argument, perhaps with the next one as its value. */
  lemma OptionRead(conf: Conf, args: seq<string>, ps: PS, q: PS)
    requires ReadSoFar(conf, args, ps) && InOption(args, ps, q)
    requires Seen(q.events) == Seen(ps.events) + Written(conf, args[ps.i], ps.i)
    ensures ReadSoFar(conf, args, q.(i := q.i + 1))
  {
    WrittenSnoc(conf, args, ps.roles, OptionArg);
    if q.i == ps.i + 1 {
      WrittenSnoc(conf, args, ps.roles + [OptionArg], ValueArg);
      assert ps.roles + [OptionArg] + [ValueArg] == q.roles;
    }
  }

  lemma StepRead(conf: Conf, args: seq<string>, ps: PS)
    requires ValidConf(conf, |ps.store|) && ps.i < |args| && ReadSoFar(conf, args, ps)
    ensures !ArgStep(conf, args, ps).Quit? ==> ReadSoFar(conf, args, ArgStep(conf, args, ps).ps)
  {
    hide Cluster;
    hide LongOpt;
    hide WrittenAll;
    hide Seen;
    var arg := args[ps.i];
    if IsWord(arg) {
      WrittenSnoc(conf, args, ps.roles, Kept);
    } else if arg == "--" {
      WrittenSnoc(conf, args, ps.roles, DashDash);
    } else if arg[1] != '-' {
      var q := ps.(pending := Some(Text(arg[1..], ps.i)), roles := ps.roles + [OptionArg]);
      ClusterInOption(conf, args, ps, q);
      ClusterRead(conf, args, q);
      if Cluster(conf, args, q).Ok? {
        OptionRead(conf, args, ps, Cluster(conf, args, q).ps);
      }
    } else {
      var q := ps.(roles := ps.roles + [OptionArg]);
      LongInOption(conf, args, ps, q);
      LongRead(conf, args, q);
      if LongOpt(conf, args, q).Ok? {
        OptionRead(conf, args, ps, LongOpt(conf, args, q).ps);
      }
    }
  }

  lemma {:induction false} LoopRead(conf: Conf, args: seq<string>, ps: PS)
    requires ValidConf(conf, |ps.store|) && ReadSoFar(conf, args, ps)
    ensures Loop(conf, args, ps).Done? ==> ReadSoFar(conf, args, Loop(conf, args, ps).ps)
    decreases |args| - ps.i
  {
    hide ArgStep;
    if ps.i < |args| {
      StepRead(conf, args, ps);
      var m := ArgStep(conf, args, ps);
      if m.Next? {
        LoopRead(conf, args, m.ps);
      }
    }
  }

  /**
   The occurrences a successful parse has acted on are the options written in the arguments that are
   neither kept words nor values, each once, in order, and negated exactly if written so.
   */
  lemma EventsAreWritten(conf: Conf, args: seq<string>, store: seq<Cell>)
    requires ValidConf(conf, |store|) && |args| > 0
    ensures
      var r := Parse(conf, args, store);
      r.Done? ==> |r.ps.roles| < |args| && Seen(r.ps.events) == WrittenAll(conf, args, r.ps.roles)
  {
    LoopRead(conf, args, InitPS(store));
  }

  // ---------------------------------------------------------------- where a parse ends

  /** Why the loop stops: at the end, after "--", or in front of a word it must not go beyond. */
  predicate EndsHere(conf: Conf, args: seq<string>, ps: PS) {
    && 1 <= ps.i <= |args| && |ps.roles| == ps.i - 1
    && (|| ps.i == |args|
        || (ps.roles != [] && ps.roles[|ps.roles| - 1] == DashDash)
        || (conf.stopAtNonOption && IsWord(args[ps.i])))
  }

  predicate KeepsWords(conf: Conf) {
    !conf.stopAtNonOption && !conf.nonOptionInvalid
  }

  /** A help option was accepted last. */
  predicate HelpShown(conf: Conf, events: seq<Event>) {
    events != []
    && var e := events[|events| - 1];
       && e.opt < |conf.options| && conf.options[e.opt].help
       && (TakesValue(conf.options[e.opt]) ==> e.value.Some? && Interpret(conf.options[e.opt].typ, e.value.value.s).Some?)
  }

  /** The last occurrence has a text that is no value of its type. */
  predicate BadText(conf: Conf, events: seq<Event>) {
    events != []
    && var e := events[|events| - 1];
       && e.opt < |conf.options| && TakesValue(conf.options[e.opt])
       && e.value.Some? && Interpret(conf.options[e.opt].typ, e.value.value.s) == None
  }

  /** The argument has a name or a letter that the table does not know. */
  ghost predicate Unrecognised(conf: Conf, arg: string)
    requires |arg| >= 2
  {
    if arg[1] == '-' then FindLong(conf.options, arg[2..], 0) == |conf.options|
    else exists j :: 1 <= j < |arg| && FindShort(conf.options, arg[j], 0) == |conf.options|
  }

  /** The argument is the last one, and ends with an option whose value would be the next one. */
  predicate LacksValue(conf: Conf, args: seq<string>, at: nat)
    requires at < |args| && |args[at]| >= 2
  {
    var arg := args[at];
    && at == |args| - 1
    && if arg[1] == '-' then
         var k := FindLong(conf.options, arg[2..], 0);
         k < |conf.options| && TakesValue(conf.options[k]) && MatchLong(conf.options[k], arg[2..]).value.value == None
       else
         var k := FindShort(conf.options, arg[|arg| - 1], 0);
         k < |conf.options| && TakesValue(conf.options[k])
  }

  /** What is wrong with the option in argument `at`. */
  ghost predicate OptionFails(conf: Conf, args: seq<string>, at: nat, ps: PS, code: int)
    requires at < |args|
  {
    && !IsWord(args[at]) && args[at] != "--"
    && code == (if HelpShown(conf, ps.events) then 0 else 1)
    && (HelpShown(conf, ps.events) || BadText(conf, ps.events)
        || Unrecognised(conf, args[at]) || (LacksValue(conf, args, at) && ps.pending == None))
  }

  ghost predicate Cause(conf: Conf, args: seq<string>, ps: PS, code: int) {
    if |ps.roles| == ps.i - 1 then
      ps.i < |args| && IsWord(args[ps.i]) && conf.nonOptionInvalid && !conf.stopAtNonOption && code == 1
    else
      exists at | ps.i - 1 <= at <= ps.i && 1 <= at < |args| :: OptionFails(conf, args, at, ps, code)
  }

  lemma ValueFails(conf: Conf, args: seq<string>, ps: PS, k: nat, unset: bool)
    requires k < |conf.options| && ValidConf(conf, |ps.store|) && ps.i < |args| && !HelpShown(conf, ps.events)
    ensures
      match GetValue(conf, args, ps, k, unset)
      case Ok(q) => !HelpShown(conf, q.events) && |q.roles| - |ps.roles| == q.i - ps.i
      case Exit(code, q) =>
        && ps.i <= q.i <= ps.i + 1 && |q.roles| - |ps.roles| == q.i - ps.i
        && code == (if HelpShown(conf, q.events) then 0 else 1)
        && (|| HelpShown(conf, q.events) || BadText(conf, q.events)
            || (TakesValue(conf.options[k]) && q.i == ps.i == |args| - 1 && ps.pending == None && q.pending == None))
  {
    hide Interpret;
    hide FlagCell;
  }

  /** Processing the option in argument `at` has gone wrong, perhaps after its value was fetched. */
  ghost predicate FailedAt(conf: Conf, args: seq<string>, ps: PS, q: PS, code: int)
    requires ps.i < |args|
  {
    && ps.i <= q.i <= ps.i + 1 && |q.roles| - |ps.roles| == q.i - ps.i
    && OptionFails(conf, args, ps.i, q, code)
  }

  ghost predicate Sound(conf: Conf, args: seq<string>, ps: PS, r: Step)
    requires ps.i < |args|
  {
    match r
    case Ok(q) => !HelpShown(conf, q.events)
    case Exit(code, q) => FailedAt(conf, args, ps, q, code)
  }

  lemma {:induction false} ClusterFails(conf: Conf, args: seq<string>, ps: PS, from: nat)
    requires ValidConf(conf, |ps.store|) && ps.i < |args| && !HelpShown(conf, ps.events)
    requires !IsWord(args[ps.i]) && args[ps.i] != "--" && args[ps.i][1] != '-'
    requires 1 <= from < |args[ps.i]| && ps.pending == Some(Text(args[ps.i][from..], ps.i))
    ensures Sound(conf, args, ps, Cluster(conf, args, ps))
    decreases |args[ps.i]| - from
  {
    hide GetValue;
    hide HelpShown;
    hide BadText;
    var arg, t := args[ps.i], ps.pending.value;
    assert t.s[0] == arg[from];
    var k := FindShort(conf.options, t.s[0], 0);
    var r := ShortOpt(conf, args, ps);
    if k < |conf.options| {
      var q := ps.(pending := if |t.s| > 1 then Some(Text(t.s[1..], t.at)) else None);
      assert arg[from..][1..] == arg[from + 1..];
      ValueFails(conf, args, q, k, false);
      ValueRead(conf, args, q, k, false);
      if r.Ok? && r.ps.pending.Some? {
        ClusterFails(conf, args, r.ps, from + 1);
      }
    }
  }

  lemma LongFails(conf: Conf, args: seq<string>, ps: PS)
    requires ValidConf(conf, |ps.store|) && ps.i < |args| && !HelpShown(conf, ps.events)
    requires !IsWord(args[ps.i]) && args[ps.i] != "--" && args[ps.i][1] == '-'
    ensures Sound(conf, args, ps, LongOpt(conf, args, ps))
  {
    hide GetValue;
    hide HelpShown;
    hide BadText;
    var text := args[ps.i][2..];
    var k := FindLong(conf.options, text, 0);
    if k < |conf.options| {
      var hit := MatchLong(conf.options[k], text).value;
      ValueFails(conf, args, if hit.value.Some? then ps.(pending := Some(Text(hit.value.value, ps.i))) else ps, k, hit.unset);
    }
  }

  ghost predicate Underway(conf: Conf, args: seq<string>, ps: PS) {
    && 1 <= ps.i <= |args| && |ps.roles| == ps.i - 1 && !HelpShown(conf, ps.events)
    && (KeepsWords(conf) || ps.out == [])
  }

  lemma OptionEnds(conf: Conf, args: seq<string>, ps: PS, q: PS, code: int)
    requires ps.i < |args| && 1 <= ps.i && |ps.roles| == ps.i && FailedAt(conf, args, ps, q, code)
    ensures Cause(conf, args, q, code)
  {
    hide OptionFails;
    assert |q.roles| == q.i;
    assert q.i - 1 <= ps.i <= q.i && 1 <= ps.i < |args|;
  }

  lemma StepEnds(conf: Conf, args: seq<string>, ps: PS)
    requires ValidConf(conf, |ps.store|) && ps.i < |args| && Underway(conf, args, ps)
    ensures
      match ArgStep(conf, args, ps)
      case Next(q) => Underway(conf, args, q)
      case Stop(q) => Underway(conf, args, q) && EndsHere(conf, args, q)
      case Quit(code, q) => Cause(conf, args, q, code)
  {
    hide Cluster;
    hide LongOpt;
    hide HelpShown;
    hide OptionFails;
    var arg := args[ps.i];
    if !IsWord(arg) && arg != "--" {
      var p := ps.(roles := ps.roles + [OptionArg]);
      var r;
      if arg[1] != '-' {
        var q := p.(pending := Some(Text(arg[1..], ps.i)));
        ClusterInOption(conf, args, ps, q);
        ClusterFails(conf, args, q, 1);
        r := Cluster(conf, args, q);
      } else {
        LongInOption(conf, args, ps, p);
        LongFails(conf, args, p);
        r := LongOpt(conf, args, p);
      }
      if r.Exit? {
        OptionEnds(conf, args, p, r.ps, r.code);
      }
    }
  }

  lemma {:induction false} LoopEnds(conf: Conf, args: seq<string>, ps: PS)
    requires ValidConf(conf, |ps.store|) && Underway(conf, args, ps)
    ensures
      match Loop(conf, args, ps)
      case Done(q) => Underway(conf, args, q) && EndsHere(conf, args, q)
      case Failed(code, q) => Cause(conf, args, q, code)
    decreases |args| - ps.i
  {
    hide ArgStep;
    hide Cause;
    if ps.i < |args| {
      StepEnds(conf, args, ps);
      var m := ArgStep(conf, args, ps);
      if m.Next? {
        LoopEnds(conf, args, m.ps);
      }
    }
  }

  /** A successful parse has gone to the end, to "--", or to the first word where words stop it. */
  lemma DoneEnds(conf: Conf, args: seq<string>, store: seq<Cell>)
    requires ValidConf(conf, |store|) && |args| > 0
    ensures
      var r := Parse(conf, args, store);
      r.Done? ==> EndsHere(conf, args, r.ps) && (KeepsWords(conf) || r.ps.out == [])
  {
    LoopEnds(conf, args, InitPS(store));
  }

  /**
   A parse fails only for a missing command line, a word that is not allowed, or an option that asks
   for help, is not known, has a bad value or lacks one; the status is 0 exactly for help.
   */
  lemma FailureHasCause(conf: Conf, args: seq<string>, store: seq<Cell>)
    requires ValidConf(conf, |store|) && |args| > 0
    ensures
      var r := Parse(conf, args, store);
      r.Failed? ==> if |args| == 1 then r.code == 1 else Cause(conf, args, r.ps, r.code)
  {
    LoopEnds(conf, args, InitPS(store));
  }
}
