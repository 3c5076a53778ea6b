/**
 What the parser promises about a whole command line: every argument is accounted for, values
 belong to the option they are next to (and exactly when they do not), and the final variables
 are what replaying the option occurrences gives.
 */
module ArgProperties {
  import opened Words
  import opened ArgOptions
  import opened ArgSemantics

  // ---------------------------------------------------------------- every argument has one role

  /** The kept words, in order; `roles[k]` belongs to argument `k + 1`. */
  function KeptWords(args: seq<string>, roles: seq<Role>): seq<string>
    requires |roles| < |args|
  {
    if roles == [] then []
    else
      KeptWords(args, roles[..|roles| - 1]) +
      (if roles[|roles| - 1] == Kept then [args[|roles|]] else [])
  }

  /** The option row `k` occurred at argument `at` and fetched its value from argument `from`. */
  ghost predicate Fetched(args: seq<string>, events: seq<Event>, at: nat, from: nat) {
    exists j :: 0 <= j < |events| && events[j].at == at && events[j].value.Some? && events[j].value.value.at == from
                && from < |args| && events[j].value.value.s == args[from]
  }

  /** What a role says about the argument. */
  ghost predicate RoleFits(args: seq<string>, events: seq<Event>, roles: seq<Role>, k: nat)
    requires k < |roles| < |args|
  {
    match roles[k]
    case Kept => IsWord(args[k + 1])
    case OptionArg => !IsWord(args[k + 1]) && args[k + 1] != "--"
    case ValueArg => k > 0 && roles[k - 1] == OptionArg && Fetched(args, events, k, k + 1)
    case DashDash => args[k + 1] == "--" && k == |roles| - 1
  }

  /** The state between two arguments: everything up to the cursor has its role. */
  ghost predicate Accounted(args: seq<string>, ps: PS) {
    && 1 <= ps.i <= |args| && |ps.roles| == ps.i - 1
    && ps.out == KeptWords(args, ps.roles)
    && forall k | 0 <= k < |ps.roles| :: RoleFits(args, ps.events, ps.roles, k)
  }

  ghost predicate NoDashDash(ps: PS) {
    forall k | 0 <= k < |ps.roles| :: ps.roles[k] != DashDash
  }

  lemma FetchedGrows(args: seq<string>, events: seq<Event>, more: seq<Event>, at: nat, from: nat)
    requires events <= more && Fetched(args, events, at, from)
    ensures Fetched(args, more, at, from)
  {
    var j :| 0 <= j < |events| && events[j].at == at && events[j].value.Some? && events[j].value.value.at == from
             && from < |args| && events[j].value.value.s == args[from];
    assert more[j] == events[j];
  }

  /** Roles stay right when later arguments and events are added. */
  lemma RolesGrow(args: seq<string>, events: seq<Event>, more: seq<Event>, roles: seq<Role>, r: Role, k: nat)
    requires events <= more && k < |roles| && |roles| + 1 < |args|
    requires RoleFits(args, events, roles, k) && roles[k] != DashDash
    ensures RoleFits(args, more, roles + [r], k)
  {
    if roles[k] == ValueArg {
      FetchedGrows(args, events, more, k, k + 1);
    }
  }

  /** Inside the processing of the argument at `at`: it is an option, and may have fetched the next one. */
  ghost predicate InOption(args: seq<string>, start: PS, ps: PS) {
    && start.i < |args| && 1 <= start.i
    && ps.out == start.out && start.events <= ps.events
    && (|| (ps.i == start.i && ps.roles == start.roles + [OptionArg])
        || (ps.i == start.i + 1 < |args| && ps.roles == start.roles + [OptionArg, ValueArg] && ps.pending == None
            && Fetched(args, ps.events, start.i, start.i + 1)))
  }

  lemma GetValueInOption(conf: Conf, args: seq<string>, start: PS, ps: PS, k: nat, unset: bool)
    requires k < |conf.options| && ValidConf(conf, |ps.store|) && InOption(args, start, ps) && ps.i == start.i
    ensures GetValue(conf, args, ps, k, unset).Ok? ==> InOption(args, start, GetValue(conf, args, ps, k, unset).ps)
  {
    var r := GetValue(conf, args, ps, k, unset);
    if r.Ok? && r.ps.i == start.i + 1 {
      var j := |ps.events|;
      assert r.ps.events[j].at == start.i && r.ps.events[j].value == Some(Text(args[start.i + 1], start.i + 1));
    }
  }

  lemma {:induction false} ClusterInOption(conf: Conf, args: seq<string>, start: PS, ps: PS)
    requires ValidConf(conf, |ps.store|) && InOption(args, start, ps) && ps.i == start.i
    requires ps.pending.Some? && ps.pending.value.s != ""
    ensures Cluster(conf, args, ps).Ok? ==> InOption(args, start, Cluster(conf, args, ps).ps)
    decreases |ps.pending.value.s|
  {
    var t := ps.pending.value;
    var k := FindShort(conf.options, t.s[0], 0);
    if k < |conf.options| {
      var q := ps.(pending := if |t.s| > 1 then Some(Text(t.s[1..], t.at)) else None);
      GetValueInOption(conf, args, start, q, k, false);
      var r := ShortOpt(conf, args, ps);
      if r.Ok? && r.ps.pending.Some? {
        ClusterInOption(conf, args, start, r.ps);
      }
    }
  }

  lemma {:induction false} KeptSnoc(args: seq<string>, roles: seq<Role>, r: Role)
    requires |roles| + 1 < |args|
    ensures KeptWords(args, roles + [r]) == KeptWords(args, roles) + (if r == Kept then [args[|roles| + 1]] else [])
  {
    assert (roles + [r])[..|roles|] == roles;
  }

  lemma OptionAlone(args: seq<string>, start: PS, ps: PS)
    requires Accounted(args, start) && NoDashDash(start) && start.events <= ps.events && start.i < |args|
    requires !IsWord(args[start.i]) && args[start.i] != "--"
    ensures forall k | 0 <= k <= |start.roles| :: RoleFits(args, ps.events, start.roles + [OptionArg], k)
    ensures KeptWords(args, start.roles + [OptionArg]) == start.out
  {
    KeptSnoc(args, start.roles, OptionArg);
    forall k | 0 <= k < |start.roles|
      ensures RoleFits(args, ps.events, start.roles + [OptionArg], k)
    {
      RolesGrow(args, start.events, ps.events, start.roles, OptionArg, k);
    }
  }

  lemma OptionWithValue(args: seq<string>, events: seq<Event>, roles: seq<Role>)
    requires |roles| > 0 && |roles| + 1 < |args| && roles[|roles| - 1] == OptionArg
    requires forall k | 0 <= k < |roles| :: roles[k] != DashDash && RoleFits(args, events, roles, k)
    requires Fetched(args, events, |roles|, |roles| + 1)
    ensures forall k | 0 <= k <= |roles| :: RoleFits(args, events, roles + [ValueArg], k)
    ensures KeptWords(args, roles + [ValueArg]) == KeptWords(args, roles)
  {
    KeptSnoc(args, roles, ValueArg);
    forall k | 0 <= k < |roles|
      ensures RoleFits(args, events, roles + [ValueArg], k)
    {
      RolesGrow(args, events, events, roles, ValueArg, k);
    }
  }

  lemma OptionAccounted(args: seq<string>, start: PS, ps: PS)
    requires Accounted(args, start) && NoDashDash(start) && InOption(args, start, ps)
    requires !IsWord(args[start.i]) && args[start.i] != "--"
    ensures Accounted(args, ps.(i := ps.i + 1)) && NoDashDash(ps)
  {
    OptionAlone(args, start, ps);
    if ps.i == start.i + 1 {
      OptionWithValue(args, ps.events, start.roles + [OptionArg]);
      assert ps.roles == (start.roles + [OptionArg]) + [ValueArg];
    }
  }

  /** An argument that is not an option, or the "--" that ends them. */
  lemma PlainAccounted(args: seq<string>, ps: PS, q: PS, r: Role)
    requires ps.i < |args| && Accounted(args, ps) && NoDashDash(ps)
    requires (IsWord(args[ps.i]) && r == Kept) || (args[ps.i] == "--" && r == DashDash)
    requires q.i == ps.i + 1 && q.roles == ps.roles + [r] && q.events == ps.events
    requires q.out == ps.out + if r == Kept then [args[ps.i]] else []
    ensures Accounted(args, q) && (r == Kept ==> NoDashDash(q))
  {
    hide KeptWords;
    KeptSnoc(args, ps.roles, r);
    forall k | 0 <= k < |ps.roles|
      ensures RoleFits(args, ps.events, ps.roles + [r], k)
    {
      RolesGrow(args, ps.events, ps.events, ps.roles, r, k);
    }
  }

  /** One iteration of the main loop accounts for the arguments it consumes. */
  lemma ArgStepAccounted(conf: Conf, args: seq<string>, ps: PS)
    requires ValidConf(conf, |ps.store|) && ps.i < |args| && Accounted(args, ps) && NoDashDash(ps)
    ensures
      match ArgStep(conf, args, ps)
      case Next(q) => Accounted(args, q) && NoDashDash(q)
      case Stop(q) => Accounted(args, q)
      case Quit(_, _) => true
  {
    var arg := args[ps.i];
    if IsWord(arg) || arg == "--" {
      if !ArgStep(conf, args, ps).Quit? && (conf.stopAtNonOption ==> !IsWord(arg)) {
        PlainAccounted(args, ps, ArgStep(conf, args, ps).ps, if IsWord(arg) then Kept else DashDash);
      }
    } else if arg[1] != '-' {
      var q := ps.(pending := Some(Text(arg[1..], ps.i)), roles := ps.roles + [OptionArg]);
      ClusterInOption(conf, args, ps, q);
      if Cluster(conf, args, q).Ok? {
        OptionAccounted(args, ps, Cluster(conf, args, q).ps);
      }
    } else {
      var q := ps.(roles := ps.roles + [OptionArg]);
      LongInOption(conf, args, ps, q);
      if LongOpt(conf, args, q).Ok? {
        OptionAccounted(args, ps, LongOpt(conf, args, q).ps);
      }
    }
  }

  lemma LongInOption(conf: Conf, args: seq<string>, start: PS, ps: PS)
    requires ValidConf(conf, |ps.store|) && InOption(args, start, ps) && ps.i == start.i && |args[ps.i]| > 2
    ensures LongOpt(conf, args, ps).Ok? ==> InOption(args, start, LongOpt(conf, args, ps).ps)
  {
    var text := args[ps.i][2..];
    var k := FindLong(conf.options, text, 0);
    if k < |conf.options| {
      var hit := MatchLong(conf.options[k], text).value;
      var q := if hit.value.Some? then ps.(pending := Some(Text(hit.value.value, ps.i))) else ps;
      GetValueInOption(conf, args, start, q, k, hit.unset);
    }
  }

  lemma {:induction false} LoopAccounted(conf: Conf, args: seq<string>, ps: PS)
    requires ValidConf(conf, |ps.store|) && Accounted(args, ps) && NoDashDash(ps)
    ensures Loop(conf, args, ps).Done? ==> Accounted(args, Loop(conf, args, ps).ps)
    decreases |args| - ps.i
  {
    if ps.i < |args| {
      ArgStepAccounted(conf, args, ps);
      var m := ArgStep(conf, args, ps);
      if m.Next? {
        LoopAccounted(conf, args, m.ps);
      }
    }
  }

  /**
   A successful parse leaves exactly the kept words, in order, followed by the unparsed tail;
   every other argument before the tail is one option, the value of the option before it, or
   the "--" that ended the parse.
   */
  lemma ArgvConserved(conf: Conf, args: seq<string>, store: seq<Cell>)
    requires ValidConf(conf, |store|) && |args| > 0
    ensures
      var r := Parse(conf, args, store);
      r.Done? ==>
        && Accounted(args, r.ps)
        && Output(args, r.ps) == KeptWords(args, r.ps.roles) + args[r.ps.i..]
        && |Output(args, r.ps)| < |args|
  {
    LoopAccounted(conf, args, InitPS(store));
    if Parse(conf, args, store).Done? {
      KeptLength(args, Parse(conf, args, store).ps.roles);
    }
  }

  lemma {:induction false} KeptLength(args: seq<string>, roles: seq<Role>)
    requires |roles| < |args|
    ensures |KeptWords(args, roles)| <= |roles|
  {
    if roles != [] {
      KeptLength(args, roles[..|roles| - 1]);
    }
  }
}
