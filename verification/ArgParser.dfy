/**
 argparse as it runs: one pass over argv that compacts the kept words towards the front of
 the same array, advances its cursor in steps of one or two, and writes option values through
 to the program's variables. Every method is proved against the fold of ArgSemantics.
 */
module ArgParser {
  import opened Words
  import opened ArgOptions
  import opened ArgSemantics

  datatype Status = Running | Exited(code: int)

  function AsStep(st: Status, ps: PS): Step {
    match st
    case Running => Ok(ps)
    case Exited(code) => Exit(code, ps)
  }

  function Wrap(ss: seq<string>): (r: seq<Option<string>>)
    ensures |r| == |ss| && forall k | 0 <= k < |ss| :: r[k] == Some(ss[k])
  {
    seq(|ss|, k requires 0 <= k < |ss| => Some(ss[k]))
  }

  class Parser {
    const conf: Conf
    const argv: array<Option<string>>  // argc words and the terminating NULL
    const store: array<Cell>           // the variables the option table points to
    var argc: nat                      // words not looked at yet, counting the current one
    var pos: nat                       // index of the current word
    var cpidx: nat                     // words kept so far
    var optvalue: Option<Text>
    ghost const args: seq<string>      // argv as it was given
    ghost var out: seq<string>
    ghost var events: seq<Event>
    ghost var roles: seq<Role>

    ghost predicate Valid()
      reads this, argv
    {
      && ValidConf(conf, store.Length)
      && argv.Length == |args| + 1 && |args| > 0
      && pos + argc == |args|
      && cpidx < pos && |out| == cpidx
      && argv[..cpidx] == Wrap(out)
      && (forall k | pos <= k < |args| :: argv[k] == Some(args[k]))
    }

    ghost function Abs(): PS
      reads this, store
    {
      PS(pos, out, optvalue, store[..], events, roles)
    }

    /** argparse_init followed by the first lines of argparse_parse. */
    constructor (conf: Conf, argv: array<Option<string>>, store: array<Cell>, ghost args: seq<string>)
      requires ValidConf(conf, store.Length) && |args| > 0
      requires argv.Length == |args| + 1 && argv[..|args|] == Wrap(args)
      ensures Valid() && Abs() == InitPS(store[..]) && this.args == args
      ensures this.argv == argv && this.store == store && this.conf == conf
    {
      this.conf, this.argv, this.store, this.args := conf, argv, store, args;
      argc, pos, cpidx, optvalue := argv.Length - 2, 1, 0, None;
      out, events, roles := [], [], [];
      new;
      assert forall k | 0 <= k < |args| :: argv[..|args|][k] == argv[k];
    }

    /** Fetch the value text: the pending pointer, or the next word, which is then consumed. */
    method FetchValue() returns (text: Option<Text>)
      requires Valid() && pos < |args|
      modifies this`argc, this`pos, this`optvalue, this`roles
      ensures Valid() && pos < |args|
      ensures text == Fetch(args, old(Abs()))
      ensures Abs() == if text.Some? then AfterFetch(old(Abs())) else old(Abs())
    {
      if optvalue.Some? {
        text := optvalue;
        optvalue := None;
      } else if argc > 1 {
        argc := argc - 1;
        pos := pos + 1;
        text := Some(Text(argv[pos].value, pos));
        roles := roles + [ValueArg];
      } else {
        text := None;
      }
    }

    /** argparse_getvalue. */
    method GetValue(k: nat, unset: bool) returns (st: Status)
      requires Valid() && pos < |args| && k < |conf.options|
      modifies this`argc, this`pos, this`optvalue, this`roles, this`events, store
      ensures Valid() && pos < |args|
      ensures ArgSemantics.GetValue(conf, args, old(Abs()), k, unset) == AsStep(st, Abs())
    {
      var o := conf.options[k];
      assert o in conf.options;
      if !TakesValue(o) {
        events := events + [Event(k, unset, pos, None)];
        if o.slot.Some? {
          store[o.slot.value] := FlagCell(o, unset, store[o.slot.value]);
        }
      } else {
        ghost var at := pos;
        var text := FetchValue();
        if text == None {
          return Exited(1);
        }
        events := events + [Event(k, unset, at, text)];
        var cell := Interpret(o.typ, text.value.s);
        if cell == None {
          return Exited(1);
        }
        store[o.slot.value] := cell.value;
      }
      st := if o.help then Exited(0) else Running;
    }

    /** argparse_short_opt: the first row with this letter. */
    method ShortOpt() returns (st: Status)
      requires Valid() && pos < |args| && optvalue.Some? && optvalue.value.s != ""
      modifies this`argc, this`pos, this`optvalue, this`roles, this`events, store
      ensures Valid() && pos < |args|
      ensures ArgSemantics.ShortOpt(conf, args, old(Abs())) == AsStep(st, Abs())
    {
      var text := optvalue.value;
      var k := 0;
      while k < |conf.options|
        invariant 0 <= k <= |conf.options|
        invariant FindShort(conf.options, text.s[0], 0) == FindShort(conf.options, text.s[0], k)
      {
        if conf.options[k].short == Some(text.s[0]) {
          optvalue := if |text.s| > 1 then Some(Text(text.s[1..], text.at)) else None;
          st := GetValue(k, false);
          return;
        }
        k := k + 1;
      }
      st := Exited(1);
    }

    /** argparse_long_opt: the first row that matches. */
    method LongOpt() returns (st: Status)
      requires Valid() && pos < |args| && |args[pos]| > 2
      modifies this`argc, this`pos, this`optvalue, this`roles, this`events, store
      ensures Valid() && pos < |args|
      ensures ArgSemantics.LongOpt(conf, args, old(Abs())) == AsStep(st, Abs())
    {
      var text := argv[pos].value[2..];
      var k := 0;
      while k < |conf.options|
        invariant 0 <= k <= |conf.options|
        invariant FindLong(conf.options, text, 0) == FindLong(conf.options, text, k)
      {
        var hit := MatchLong(conf.options[k], text);
        if hit.Some? {
          if hit.value.value.Some? {
            optvalue := Some(Text(hit.value.value.value, pos));
          }
          st := GetValue(k, hit.value.unset);
          return;
        }
        k := k + 1;
      }
      st := Exited(1);
    }

    /** A cluster of short options: once, and then as long as text is left. */
    method ShortCluster() returns (st: Status)
      requires Valid() && pos < |args| && optvalue.Some? && optvalue.value.s != ""
      modifies this`argc, this`pos, this`optvalue, this`roles, this`events, store
      ensures Valid() && pos < |args|
      ensures Cluster(conf, args, old(Abs())) == AsStep(st, Abs())
    {
      st := ShortOpt();
      while st == Running && optvalue.Some?
        invariant Valid() && pos < |args|
        invariant st == Running && optvalue.Some? ==> optvalue.value.s != ""
        invariant Cluster(conf, args, old(Abs())) ==
                  if st == Running && optvalue.Some? then Cluster(conf, args, Abs()) else AsStep(st, Abs())
        decreases st == Running, if optvalue.Some? then |optvalue.value.s| else 0
      {
        st := ShortOpt();
      }
    }

    /** A word that is not an option moves down to the kept words. */
    method Keep()
      requires Valid() && pos < |args|
      modifies this`argc, this`pos, this`cpidx, this`out, this`roles, argv
      ensures Valid()
      ensures Abs() == old(Abs()).(out := old(out) + [args[old(pos)]], roles := old(roles) + [Kept], i := old(pos) + 1)
    {
      argv[cpidx] := argv[pos];
      out := out + [args[pos]];
      roles := roles + [Kept];
      cpidx := cpidx + 1;
      argc, pos := argc - 1, pos + 1;
      assert argv[..cpidx] == argv[..cpidx - 1] + [argv[cpidx - 1]];
    }

    /** The word at `pos` has been dealt with. */
    method Step()
      requires Valid() && pos < |args|
      modifies this`argc, this`pos
      ensures Valid() && Abs() == old(Abs()).(i := old(pos) + 1)
    {
      argc, pos := argc - 1, pos + 1;
    }

    /** One iteration of the main loop; `more` is false at "--" or a word that stops the parse. */
    method Iterate() returns (st: Status, more: bool)
      requires Valid() && pos < |args|
      modifies this, store, argv
      ensures Valid()
      ensures
        ArgStep(conf, args, old(Abs())) ==
        match st
        case Running => if more then Next(Abs()) else ArgSemantics.Stop(Abs())
        case Exited(code) => Quit(code, Abs())
    {
      var arg := argv[pos].value;
      st, more := Running, true;
      if IsWord(arg) {
        if conf.stopAtNonOption {
          more := false;
        } else if conf.nonOptionInvalid {
          st := Exited(1);
        } else {
          Keep();
        }
      } else if arg[1] != '-' {
        optvalue := Some(Text(arg[1..], pos));
        roles := roles + [OptionArg];
        st := ShortCluster();
        if st == Running {
          Step();
        }
      } else if |arg| == 2 {
        roles := roles + [DashDash];
        Step();
        more := false;
      } else {
        roles := roles + [OptionArg];
        st := LongOpt();
        if st == Running {
          Step();
        }
      }
    }

    /** memmove of the unparsed tail behind the kept words, and the terminating NULL. */
    method MoveTail() returns (n: nat)
      requires Valid()
      modifies argv
      ensures n == cpidx + argc && n < argv.Length
      ensures argv[..n] == Wrap(Output(args, Abs())) && argv[n] == None
    {
      n := cpidx + argc;
      forall k | 0 <= k < argc {
        argv[cpidx + k] := argv[pos + k];
      }
      assert forall k | 0 <= k < cpidx :: argv[k] == old(argv[..cpidx])[k];
      argv[n] := None;
      assert forall k | 0 <= k < n :: argv[k] == Some(Output(args, Abs())[k]);
    }

    /** argparse_parse: the fold over argv, with its result compacted in place. */
    method Parse() returns (st: Status, n: nat)
      requires Valid() && Abs() == InitPS(store[..])
      modifies this, store, argv
      ensures
        ArgSemantics.Parse(conf, args, old(store[..])) ==
        match st
        case Running => Done(Abs())
        case Exited(code) => Failed(code, Abs())
      ensures st == Running ==>
                && pos <= |args|
                && n == |Output(args, Abs())| && n < argv.Length
                && argv[..n] == Wrap(Output(args, Abs())) && argv[n] == None
    {
      n := 0;
      if argc == 0 {
        return Exited(1), 0;
      }
      var more := true;
      st := Running;
      while st == Running && more && argc > 0
        invariant Valid()
        invariant
          Loop(conf, args, old(Abs())) ==
          match st
          case Running => if more then Loop(conf, args, Abs()) else Done(Abs())
          case Exited(code) => Failed(code, Abs())
        decreases st == Running && more, argc
      {
        st, more := Iterate();
      }
      if st == Running {
        n := MoveTail();
      }
    }
  }
}
