/**
 What argparse_parse computes, as a left-to-right fold over the command line. The state keeps
 the two things the code carries from one argument to the next: the value text pointer
 (`pending`) and the number of words kept so far; the rest is a record of what happened.
 */
module ArgSemantics {
  import opened Words
  import opened Numerals
  import opened ArgOptions

  datatype Conf = Conf(options: seq<Opt>, stopAtNonOption: bool, nonOptionInvalid: bool)

  /** A variable an option writes: an int (also the 32- and 64-bit numeral types), a bit mask or a string. */
  datatype Cell = IntCell(i: int) | BitCell(b: bv32) | StrCell(s: string)

  /** A value text and the argument it points into. */
  datatype Text = Text(s: string, at: nat)

  /** Option row `opt` occurred in argument `at`; value options fetched `value`. */
  datatype Event = Event(opt: nat, unset: bool, at: nat, value: Option<Text>)

  /** What an argument turned out to be. */
  datatype Role = Kept | OptionArg | ValueArg | DashDash

  datatype PS = PS(
    i: nat,                 // next argument
    out: seq<string>,       // kept words
    pending: Option<Text>,  // optvalue
    store: seq<Cell>,       // the program's variables
    events: seq<Event>,
    roles: seq<Role>)       // of arguments 1 .. i - 1

  /** Every option row writes an existing variable; group rows have no names. */
  predicate ValidConf(conf: Conf, cells: nat) {
    forall o | o in conf.options ::
      && (o.slot.Some? ==> o.slot.value < cells)
      && (o.typ == Group ==> o.short == None && o.long == None && o.slot == None)
  }

  // ---------------------------------------------------------------- argparse_getvalue

  /** The clamped counter of a BOOLEAN. */
  function Count(i: int, unset: bool): int {
    var j := if unset then i - 1 else i + 1;
    if j < 0 then 0 else j
  }

  /** Options without a value text change their variable in place. */
  function FlagCell(o: Opt, unset: bool, c: Cell): Cell {
    match (o.typ, c)
    case (Boolean, IntCell(i)) => IntCell(Count(i, unset))
    case (Bit, BitCell(b)) => BitCell(if unset then b & !o.data else b | o.data)
    case _ => c
  }

  function FromParsed(p: Parsed): Option<Cell> {
    match p
    case Good(v) => Some(IntCell(v))
    case Bad(_) => None
  }

  /** The stored value of a value text, or None when the option complains. */
  function Interpret(typ: OptType, s: string): Option<Cell> {
    match typ
    case Str => Some(StrCell(s))
    case Integer => FromParsed(ParseInteger(s))
    case U32 => FromParsed(ParseU32(s))
    case CO32 => FromParsed(ParseCO32(s))
    case _ => None
  }

  datatype Step = Ok(ps: PS) | Exit(code: int, ps: PS)

  /** Where the value text comes from: the pending pointer, else the next argument, else nowhere. */
  function Fetch(args: seq<string>, ps: PS): Option<Text> {
    if ps.pending.Some? then ps.pending
    else if ps.i + 1 < |args| then Some(Text(args[ps.i + 1], ps.i + 1))
    else None
  }

  function AfterFetch(ps: PS): PS {
    if ps.pending.Some? then ps.(pending := None) else ps.(i := ps.i + 1, roles := ps.roles + [ValueArg])
  }

  function Flag(conf: Conf, ps: PS, k: nat, unset: bool): PS
    requires k < |conf.options| && ValidConf(conf, |ps.store|)
  {
    var o := conf.options[k];
    assert o in conf.options;
    var store := if o.slot.Some? then ps.store[o.slot.value := FlagCell(o, unset, ps.store[o.slot.value])] else ps.store;
    ps.(store := store, events := ps.events + [Event(k, unset, ps.i, None)])
  }

  function GetValue(conf: Conf, args: seq<string>, ps: PS, k: nat, unset: bool): (r: Step)
    requires k < |conf.options| && ValidConf(conf, |ps.store|) && ps.i < |args|
    ensures |r.ps.store| == |ps.store| && ps.i <= r.ps.i < |args|
    ensures r.ps.pending == ps.pending || r.ps.pending == None
  {
    var o := conf.options[k];
    assert o in conf.options;
    if !TakesValue(o) then
      var q := Flag(conf, ps, k, unset);
      if o.help then Exit(0, q) else Ok(q)
    else
      match Fetch(args, ps)
      case None => Exit(1, ps)
      case Some(text) =>
        var q := AfterFetch(ps).(events := ps.events + [Event(k, unset, ps.i, Some(text))]);
        match Interpret(o.typ, text.s)
        case None => Exit(1, q)
        case Some(cell) =>
          var t := q.(store := q.store[o.slot.value := cell]);
          if o.help then Exit(0, t) else Ok(t)
  }

  // ---------------------------------------------------------------- one argument

  /** argparse_short_opt until the cluster's text is used up. */
  function Cluster(conf: Conf, args: seq<string>, ps: PS): (r: Step)
    requires ValidConf(conf, |ps.store|) && ps.i < |args|
    requires ps.pending.Some? && ps.pending.value.s != ""
    ensures |r.ps.store| == |ps.store| && ps.i <= r.ps.i < |args|
    ensures r.Ok? ==> r.ps.pending == None
    decreases |ps.pending.value.s|
  {
    var r := ShortOpt(conf, args, ps);
    if r.Ok? && r.ps.pending.Some? then Cluster(conf, args, r.ps) else r
  }

  function ShortOpt(conf: Conf, args: seq<string>, ps: PS): (r: Step)
    requires ValidConf(conf, |ps.store|) && ps.i < |args|
    requires ps.pending.Some? && ps.pending.value.s != ""
    ensures |r.ps.store| == |ps.store| && ps.i <= r.ps.i < |args|
    ensures r.Ok? && r.ps.pending.Some? ==>
              r.ps.pending.value.s != "" && |r.ps.pending.value.s| < |ps.pending.value.s|
  {
    var t := ps.pending.value;
    var k := FindShort(conf.options, t.s[0], 0);
    if k == |conf.options| then Exit(1, ps)
    else GetValue(conf, args, ps.(pending := if |t.s| > 1 then Some(Text(t.s[1..], t.at)) else None), k, false)
  }

  function LongOpt(conf: Conf, args: seq<string>, ps: PS): (r: Step)
    requires ValidConf(conf, |ps.store|) && ps.i < |args| && |args[ps.i]| > 2
    ensures |r.ps.store| == |ps.store| && ps.i <= r.ps.i < |args|
  {
    var text := args[ps.i][2..];
    var k := FindLong(conf.options, text, 0);
    if k == |conf.options| then Exit(1, ps)
    else
      var hit := MatchLong(conf.options[k], text).value;
      GetValue(conf, args, if hit.value.Some? then ps.(pending := Some(Text(hit.value.value, ps.i))) else ps,
               k, hit.unset)
  }

  /** Not an option: does not begin with '-', or is "-" alone. */
  predicate IsWord(arg: string) {
    |arg| < 2 || arg[0] != '-'
  }

  datatype Move = Next(ps: PS) | Stop(ps: PS) | Quit(code: int, ps: PS)

  function Advance(r: Step): Move {
    match r
    case Ok(ps) => Next(ps.(i := ps.i + 1))
    case Exit(code, ps) => Quit(code, ps)
  }

  /** One iteration of the main loop. */
  function ArgStep(conf: Conf, args: seq<string>, ps: PS): (m: Move)
    requires ValidConf(conf, |ps.store|) && ps.i < |args|
    ensures |m.ps.store| == |ps.store|
    ensures m.Next? ==> ps.i < m.ps.i <= |args|
    ensures m.Stop? ==> ps.i <= m.ps.i <= |args|
  {
    var arg := args[ps.i];
    if IsWord(arg) then
      if conf.stopAtNonOption then Stop(ps)
      else if conf.nonOptionInvalid then Quit(1, ps)
      else Next(ps.(out := ps.out + [arg], roles := ps.roles + [Kept], i := ps.i + 1))
    else
      if arg[1] != '-' then
        Advance(Cluster(conf, args, ps.(pending := Some(Text(arg[1..], ps.i)), roles := ps.roles + [OptionArg])))
      else if |arg| == 2 then Stop(ps.(roles := ps.roles + [DashDash], i := ps.i + 1))
      else Advance(LongOpt(conf, args, ps.(roles := ps.roles + [OptionArg])))
  }

  // ---------------------------------------------------------------- the whole command line

  datatype Result = Done(ps: PS) | Failed(code: int, ps: PS)

  function Loop(conf: Conf, args: seq<string>, ps: PS): (r: Result)
    requires ValidConf(conf, |ps.store|) && ps.i <= |args|
    ensures |r.ps.store| == |ps.store|
    ensures r.Done? ==> ps.i <= r.ps.i <= |args|
    decreases |args| - ps.i
  {
    if ps.i == |args| then Done(ps)
    else
      match ArgStep(conf, args, ps)
      case Next(q) => Loop(conf, args, q)
      case Stop(q) => Done(q)
      case Quit(code, q) => Failed(code, q)
  }

  function InitPS(store: seq<Cell>): PS {
    PS(1, [], None, store, [], [])
  }

  /** argparse_parse on argv = args; without arguments it prints the usage and exits. */
  function Parse(conf: Conf, args: seq<string>, store: seq<Cell>): (r: Result)
    requires ValidConf(conf, |store|) && |args| > 0
    ensures |r.ps.store| == |store|
    ensures r.Done? ==> 1 <= r.ps.i <= |args|
  {
    if |args| == 1 then Failed(1, InitPS(store)) else Loop(conf, args, InitPS(store))
  }

  /** What is left in argv: the kept words, then everything that was not looked at. */
  function Output(args: seq<string>, ps: PS): seq<string>
    requires ps.i <= |args|
  {
    ps.out + args[ps.i..]
  }
}
