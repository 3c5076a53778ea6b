/**
 main: parse the command line, refuse contradictory switches, open the library, apply every
 setting that was given, and fold the results into the exit status.
 */
module Tool {
  import Numerals
  import opened Words
  import opened SmuLayout
  import opened ArgOptions
  import opened ArgSemantics
  import opened ArgParser
  import MailboxProtocol
  import MailboxCalls
  import opened MailboxClient
  import opened PmTable
  import opened ReadFull
  import opened Setters
  import opened MainOptions
  import opened MainPlan
  import CommandLine

  function Flatten(blocks: seq<seq<Call>>): seq<Call> {
    if blocks == [] then [] else Flatten(blocks[..|blocks| - 1]) + blocks[|blocks| - 1]
  }

  /** Every planned adjustment was carried out, one after the other, as its setter does. */
  ghost predicate Carried(f: Family, plan: seq<Adjustment>, blocks: seq<seq<Call>>) {
    && |blocks| == |plan|
    && forall i | 0 <= i < |plan| :: Block(f, plan[i].setting, plan[i].word, blocks[i])
  }

  ghost predicate AllSucceeded(blocks: seq<seq<Call>>) {
    forall i | 0 <= i < |blocks| :: Succeeded(blocks[i])
  }

  lemma FlattenSnoc(blocks: seq<seq<Call>>, block: seq<Call>)
    ensures Flatten(blocks + [block]) == Flatten(blocks) + block
  {
    assert (blocks + [block])[..|blocks|] == blocks;
  }

  lemma CarriedSnoc(f: Family, plan: seq<Adjustment>, blocks: seq<seq<Call>>, a: Adjustment, block: seq<Call>)
    requires Carried(f, plan, blocks) && Block(f, a.setting, a.word, block)
    ensures Carried(f, plan + [a], blocks + [block])
    ensures AllSucceeded(blocks + [block]) <==> AllSucceeded(blocks) && Succeeded(block)
  {
    hide Block;
    hide Succeeded;
    if AllSucceeded(blocks + [block]) {
      forall i | 0 <= i < |blocks|
        ensures Succeeded(blocks[i])
      {
        assert (blocks + [block])[i] == blocks[i];
      }
      assert (blocks + [block])[|blocks|] == block;
    }
  }

  /** The first `n` macros have been executed: what has been planned, requested and found. */
  ghost predicate Progress(f: Family, store: seq<Cell>, start: seq<Call>, n: nat,
                           plan: seq<Adjustment>, blocks: seq<seq<Call>>, requests: seq<Call>, err: int)
  {
    && n <= 42 && Typed(store)
    && plan == PlanTo(store, n)
    && Carried(f, plan, blocks)
    && requests == start + Flatten(blocks)
    && err == if AllSucceeded(blocks) then 0 else -1
  }

  lemma Skipped(f: Family, store: seq<Cell>, start: seq<Call>, s: Setting,
                plan: seq<Adjustment>, blocks: seq<seq<Call>>, requests: seq<Call>, err: int)
    requires Progress(f, store, start, Slot(s), plan, blocks, requests, err)
    requires Selected(s, store[Slot(s)]) == None
    ensures Progress(f, store, start, Slot(s) + 1, plan, blocks, requests, err)
  {
    SlotOf(s);
    hide Slot;
    hide At;
    hide Selected;
  }

  lemma OneMore(f: Family, store: seq<Cell>, start: seq<Call>, s: Setting,
                 plan: seq<Adjustment>, blocks: seq<seq<Call>>, requests: seq<Call>, err: int, block: seq<Call>)
    requires Progress(f, store, start, Slot(s), plan, blocks, requests, err)
    requires Selected(s, store[Slot(s)]).Some? && Block(f, s, Selected(s, store[Slot(s)]).value, block)
    ensures Progress(f, store, start, Slot(s) + 1, plan + Choice(s, store[Slot(s)]), blocks + [block], requests + block,
                     if Succeeded(block) then err else -1)
  {
    SlotOf(s);
    hide Slot;
    hide At;
    hide Selected;
    hide Block;
    hide Succeeded;
    FlattenSnoc(blocks, block);
    CarriedSnoc(f, plan, blocks, Adjustment(s, Selected(s, store[Slot(s)]).value), block);
    hide Flatten;
    hide Carried;
    hide AllSucceeded;
    assert start + Flatten(blocks) + block == start + (Flatten(blocks) + block);
  }

  /** The variables of main that the adjustment macros use. */
  class Session {
    const ry: Handle
    const store: seq<Cell>         // the option variables
    ghost const start: seq<Call>   // requests made before the first adjustment
    var err: int
    var anyAdjustApplied: bool
    ghost var plan: seq<Adjustment>
    ghost var blocks: seq<seq<Call>>

    /** The first `n` macros have been executed. */
    ghost predicate Applied(n: nat)
      reads this, ry, ry.client
    {
      && ry.Valid() && Progress(ry.family, store, start, n, plan, blocks, ry.requests, err)
      && (err == 0 ==> (anyAdjustApplied <==> blocks != []))
    }

    constructor (ry: Handle, store: seq<Cell>)
      requires ry.Valid() && Typed(store)
      ensures Applied(0) && this.ry == ry && this.store == store && start == ry.requests
    {
      this.ry, this.store, this.start := ry, store, ry.requests;
      err, anyAdjustApplied, plan, blocks := 0, false, [], [];
    }

    /** The macros _do_adjust, _do_adjust_co and _do_enable. */
    method Adjust(s: Setting)
      requires Applied(Slot(s))
      modifies this, ry`requests, ry.client
      ensures Applied(Slot(s) + 1)
    {
      hide Slot;
      hide Selected;
      hide PlanTo;
      hide Block;
      assert TypedCell(s, store[Slot(s)]);
      var word := Selected(s, store[Slot(s)]);
      if word.Some? {
        ghost var requests := ry.requests;
        var adjerr;
        ghost var block;
        adjerr, block := ry.Set(s, word.value);
        OneMore(ry.family, store, start, s, plan, blocks, requests, err, block);
        hide Progress;
        plan, blocks := plan + Choice(s, store[Slot(s)]), blocks + [block];
        if adjerr == 0 {
          anyAdjustApplied := true;
        } else {
          err := -1;
        }
      } else {
        Skipped(ry.family, store, start, s, plan, blocks, ry.requests, err);
      }
    }

    /** Power limits. */
    method ApplyPower()
      requires Applied(0)
      modifies this, ry`requests, ry.client
      ensures Applied(6)
    {
      hide Applied;
      Adjust(StapmLimit);
      Adjust(FastLimit);
      Adjust(SlowLimit);
      Adjust(SlowTime);
      Adjust(StapmTime);
      Adjust(TctlTemp);
    }

    /** Regulator currents. */
    method ApplyCurrents()
      requires Applied(6)
      modifies this, ry`requests, ry.client
      ensures Applied(13)
    {
      hide Applied;
      Adjust(VrmCurrent);
      Adjust(VrmSocCurrent);
      Adjust(VrmGfxCurrent);
      Adjust(VrmCvipCurrent);
      Adjust(VrmMaxCurrent);
      Adjust(VrmSocMaxCurrent);
      Adjust(VrmGfxMaxCurrent);
    }

    /** Low-load currents. */
    method ApplyPsi()
      requires Applied(13)
      modifies this, ry`requests, ry.client
      ensures Applied(17)
    {
      hide Applied;
      Adjust(Psi0Current);
      Adjust(Psi3CpuCurrent);
      Adjust(Psi0SocCurrent);
      Adjust(Psi3GfxCurrent);
    }

    /** Bus clocks. */
    method ApplyBusClocks()
      requires Applied(17)
      modifies this, ry`requests, ry.client
      ensures Applied(23)
    {
      hide Applied;
      Adjust(MaxSocclkFreq);
      Adjust(MinSocclkFreq);
      Adjust(MaxFclkFreq);
      Adjust(MinFclkFreq);
      Adjust(MaxVcn);
      Adjust(MinVcn);
    }

    /** Data launch and graphics clocks. */
    method ApplyClocks()
      requires Applied(23)
      modifies this, ry`requests, ry.client
      ensures Applied(28)
    {
      hide Applied;
      Adjust(MaxLclk);
      Adjust(MinLclk);
      Adjust(MaxGfxclkFreq);
      Adjust(MinGfxclkFreq);
      Adjust(ProchotDeassertionRamp);
    }

    /** Temperature limits and the forced graphics clock. */
    method ApplyTemperatures()
      requires Applied(28)
      modifies this, ry`requests, ry.client
      ensures Applied(33)
    {
      hide Applied;
      Adjust(ApuSkinTempLimit);
      Adjust(DgpuSkinTempLimit);
      Adjust(ApuSlowLimit);
      Adjust(SkinTempPowerLimit);
      Adjust(GfxClk);
    }

    /** Overclocking, which has to be on before its clock and voltage are accepted. */
    method ApplyOverclock()
      requires Applied(33)
      modifies this, ry`requests, ry.client
      ensures Applied(37)
    {
      hide Applied;
      Adjust(EnableOc);
      Adjust(OcClk);
      Adjust(OcVolt);
      Adjust(DisableOc);
    }

    /** Profiles and Curve Optimiser offsets. */
    method ApplyProfile()
      requires Applied(37)
      modifies this, ry`requests, ry.client
      ensures Applied(42)
    {
      hide Applied;
      Adjust(PowerSaving);
      Adjust(MaxPerformance);
      Adjust(CoAll);
      Adjust(CoPer);
      Adjust(CoGfx);
    }

    /** The whole sequence. */
    method ApplyAll()
      requires Applied(0)
      modifies this, ry`requests, ry.client
      ensures Applied(42)
    {
      hide Applied;
      ApplyPower();
      ApplyCurrents();
      ApplyPsi();
      ApplyBusClocks();
      ApplyClocks();
      ApplyTemperatures();
      ApplyOverclock();
      ApplyProfile();
    }
  }

  /** --power-saving with --max-performance, or --enable-oc with --disable-oc. */
  predicate Contradictory(store: seq<Cell>)
    requires Typed(store)
  {
    || (store[Slot(PowerSaving)].i != 0 && store[Slot(MaxPerformance)].i != 0)
    || (store[Slot(EnableOc)].i != 0 && store[Slot(DisableOc)].i != 0)
  }

  // ---------------------------------------------------------------- monitoring

  /**
   One refresh of the table: the cache before, what was seen in memory, the cache afterwards, the
   messages, and whether the driver's table could be read.
   */
  datatype Refresh = Refresh(before: seq<Byte>, compared: seq<Byte>, copied: seq<Byte>, after: seq<Byte>,
                             msgs: seq<Message>, readable: bool, err: int)

  /**
   What a refresh does: on the mapped backend a transfer exactly if the cache is stale, with its
   retries, and with the driver none; it fails exactly if the transfer does or the driver's table
   cannot be read; after a success the cache is the copy, and after a failure of the mapped backend it
   is what it was.
   */
  ghost predicate Refreshed(f: Family, mapped: bool, r: Refresh) {
    && 4 <= |r.before| == |r.after|
    && (forall i | 0 <= i < |r.msgs| :: Fitting(f, r.msgs[i]))
    && (mapped ==> (r.msgs != [] <==> FirstIsZero(r.before) || SamePrefix(r.before, r.compared)))
    && (r.msgs != [] ==> mapped && TransferRetries(r.msgs))
    && (r.err == 0 ==> |r.after| <= |r.copied| && r.after == r.copied[..|r.after|])
    && (mapped && r.err != 0 ==> r.after == r.before)
    && (r.err == 0 <==> if mapped then r.msgs == [] || r.msgs[|r.msgs| - 1].Resp() == REP_OK else r.readable)
  }

  /** What the refresh looked at in the mapping. */
  function Looks(mapped: bool, r: Refresh): seq<seq<Byte>>
    requires |r.before| >= 4
  {
    (if mapped && !FirstIsZero(r.before) then [r.compared] else []) + (if mapped && r.err == 0 then [r.copied] else [])
  }

  function ShownCalls(shows: seq<Refresh>): seq<Call> {
    if shows == [] then [] else ShownCalls(shows[..|shows| - 1]) + Calls(shows[|shows| - 1].msgs)
  }

  /**
   All calls of one run of the tool: the mailbox tests, the header of the information table, the
   initialisation of the metric table, the adjustments of the plan, and refreshes. The flags say what
   the operating system granted meanwhile.
   */
  datatype Trace = Trace(
    tests: seq<Call>, header: seq<Call>, init: seq<Message>, initialised: bool, granted: bool, readable: bool,
    blocks: seq<seq<Call>>, shows: seq<Refresh>, roomToDump: bool)

  ghost function Requests(t: Trace): seq<Call> {
    t.header + Calls(t.init) + Flatten(t.blocks) + ShownCalls(t.shows)
  }

  ghost function AllCalls(t: Trace): seq<Call> {
    t.tests + Requests(t)
  }

  /** The table is initialised before the adjustments: as far as answers and the operating system let it. */
  ghost predicate Begun(f: Family, mapped: bool, t: Trace) {
    && InitMessages(t.init, 0) && (forall i | 0 <= i < |t.init| :: Fitting(f, t.init[i]))
    && GoesAsFar(f, t.init, 0, mapped, t.granted)
    && (mapped ==> (t.initialised <==> |t.init| >= 3 && t.init[|t.init| - 1].Resp() == REP_OK))
    && (!mapped ==> (t.initialised <==> Addressed(f, t.init, 0) && t.granted && t.readable))
  }

  /** How many refreshes there are after the adjustments. */
  function Showings(info: bool, dump: bool, t: Trace): nat {
    (if dump && t.blocks != [] && t.roomToDump then 1 else 0) + if info then 1 else 0
  }

  /** What the refreshes after the adjustments have in common. */
  ghost predicate ShownRight(f: Family, mapped: bool, shows: seq<Refresh>) {
    && (forall i | 0 <= i < |shows| :: Refreshed(f, mapped, shows[i]))
    && (forall i | 0 < i < |shows| :: shows[i].before == shows[i - 1].after)
  }

  ghost predicate Unreadable(shows: seq<Refresh>) {
    exists i :: 0 <= i < |shows| && !shows[i].readable
  }

  /** What main does with the variables of a parsed command line. */
  ghost predicate Performed(f: Family, mapped: bool, store: seq<Cell>, t: Trace, code: int)
    requires Typed(store)
  {
    var info, dump := store[INFO_SLOT].i != 0, store[DUMP_SLOT].i != 0;
    // the header, and the table
    && (if info then |t.header| == 1 && t.header[0].req == RequestFor(MP1, 0x3, 0) else t.header == [])
    && (if info || dump then Begun(f, mapped, t) else t.init == [] && !t.initialised)
    // the plan
    && Carried(f, Plan(store), t.blocks)
    && code == (if AllSucceeded(t.blocks) then 0 else -1)
    // and the table again, if all that went well
    && |t.shows| == (if t.initialised && code == 0 then Showings(info, dump, t) else 0)
    && ShownRight(f, mapped, t.shows)
  }

  /** Every request of the plan carries its setting's word. */
  lemma PlanSent(f: Family, mapped: bool, store: seq<Cell>, t: Trace, code: int, i: nat, j: nat)
    requires Typed(store) && Performed(f, mapped, store, t, code)
    requires i < |t.blocks| && j < |t.blocks[i]|
    ensures i < |Plan(store)| && Carries(Plan(store)[i].setting, Plan(store)[i].word, t.blocks[i][j].req.args[0])
  {
    hide Begun;
    hide Plan;
    hide RouteOf;
    hide Carries;
    var a := Plan(store)[i];
    assert Block(f, a.setting, a.word, t.blocks[i]);
    FollowsReported(RouteOf(a.setting, f), Wire(a.setting, a.word), t.blocks[i]);
    hide Follows;
    WireCarries(a.setting, a.word);
  }

  /** All these requests carry a value of a setting. */
  predicate AllCarry(s: Setting, value: Word, calls: seq<Call>) {
    forall j | 0 <= j < |calls| :: Carries(s, value, calls[j].req.args[0])
  }

  /**
   From the words typed to the words sent, for a single setting in any spelling: a limit is sent as it
   was typed, an offset as its 32-bit two's complement, and nothing else is sent for the plan.
   */
  lemma TypedWordSent(f: Family, mapped: bool, program: string, it: CommandLine.Item, t: Trace, code: int)
    requires CommandLine.Spellable(it)
    requires Typed(Variables([program] + CommandLine.Spell(it)).ps.store)
    requires Performed(f, mapped, Variables([program] + CommandLine.Spell(it)).ps.store, t, code)
    ensures
      match it.a
      case Limit(s, v) => if v == ARG_UNSET then t.blocks == [] else |t.blocks| == 1 && AllCarry(s, v, t.blocks[0])
      case Offset(s, o) => |t.blocks| == 1 && AllCarry(s, if o < 0 then o + WORD_LIMIT else o, t.blocks[0])
      case Switch(s, on) => if on then |t.blocks| == 1 && AllCarry(s, 0, t.blocks[0]) else t.blocks == []
  {
    hide CommandLine.Spell;
    hide Variables;
    hide Plan;
    hide Carries;
    CommandLine.OneSetting(program, it);
    if it.a.Offset? {
      Numerals.LowWord(it.a.o);
    }
    var store := Variables([program] + CommandLine.Spell(it)).ps.store;
    assert |t.blocks| == |Plan(store)|;
    forall i, j | 0 <= i < |t.blocks| && 0 <= j < |t.blocks[i]|
      ensures Carries(Plan(store)[i].setting, Plan(store)[i].word, t.blocks[i][j].req.args[0])
    {
      PlanSent(f, mapped, store, t, code, i, j);
    }
    hide Performed;
  }

  /** What the operating system gives the library: the driver's table size and attribute, memory and mappings, and the page size. */
  datatype Backend = Backend(kmodSize: nat, pmFile: Attribute, supply: Supply, pageBits: nat)

  ghost function Resources(os: Option<Backend>): set<object> {
    if os.Some? then {os.value.pmFile, os.value.supply} else {}
  }

  ghost predicate Usable(os: Option<Backend>)
    reads if os.Some? then {os.value.pmFile} else {}
  {
    os.Some? ==> os.value.pmFile.Valid() && os.value.pageBits <= 62
  }

  /** The machine as seen from main: a client between two calls, and a backend. */
  ghost predicate Steady(client: Client, os: Option<Backend>)
    reads client, if os.Some? then {os.value.pmFile} else {}
  {
    client.Valid() && client.Me().pc == MailboxProtocol.Idle && Usable(os)
  }

  /** argparse_parse with main's table, writing main's variables. */
  method ParseOptions(argv: array<Option<string>>, ghost args: seq<string>) returns (status: Status, store: seq<Cell>)
    requires |args| > 0 && argv.Length == |args| + 1 && argv[..|args|] == Wrap(args)
    modifies argv
    ensures status.Exited? ==> Variables(args).Failed? && status.code == Variables(args).code
    ensures status == Running ==> Variables(args).Done? && store == Variables(args).ps.store && Typed(store)
  {
    TableIsRegular();
    var cells := new Cell[CELLS](k requires 0 <= k < CELLS => InitialStore()[k]);
    assert cells[..] == InitialStore();
    var parser := new Parser(MainConf(), argv, cells, args);
    var argc;
    status, argc := parser.Parse();
    store := cells[..];
    if status == Running {
      VariablesTyped(args);
    }
  }

  // ---------------------------------------------------------------- init_ryzenadj

  /** Whether the initialisation can get as far as testing the mailbox: of three allocations, `room` succeed. */
  predicate Reached(family: Family, os: Option<Backend>, room: nat, needed: nat) {
    family != Unknown && os.Some? && room >= needed
  }

  /**
   The tests of an initialisation: MP1 is tested if its object can be allocated, and PSMU if in
   addition the first test was answered with success.
   */
  ghost predicate Tested(family: Family, os: Option<Backend>, room: nat, tests: seq<Call>) {
    && |tests| <= 2
    && (|tests| > 0 <==> Reached(family, os, room, 2))
    && (|tests| > 0 ==> tests[0].req == MailboxProtocol.TestRequest(MP1))
    && (|tests| == 2 <==> Reached(family, os, room, 3) && tests[0].resp == REP_OK)
    && (|tests| == 2 ==> tests[1].req == MailboxProtocol.TestRequest(PSMU))
  }

  /** Both mailboxes answered. */
  ghost predicate BothUsable(tests: seq<Call>) {
    |tests| == 2 && tests[0].resp == REP_OK && tests[1].resp == REP_OK
  }

  /**
   get_smu: a mailbox object exists only for a mailbox whose test came back with success. Through the
   driver, and if no failure was noticed, this is the SMU's own answer to the test message.
   */
  method GetSmu(client: Client, mbox: Mbox, room: nat, ghost tests: seq<Call>) returns (found: bool, ghost more: seq<Call>)
    requires client.Valid() && client.Me().pc == MailboxProtocol.Idle && Recorded(client.pid, tests, client.now.done)
    modifies client
    ensures client.Valid() && client.Me().pc == MailboxProtocol.Idle && Recorded(client.pid, more, client.now.done)
    ensures client.starts == old(client.starts) + |more| - |tests| && tests <= more
    ensures if room == 0 then more == tests && !found
            else |more| == |tests| + 1 && more[|tests|].req == MailboxProtocol.TestRequest(mbox)
                 && (found <==> more[|tests|].resp == REP_OK)
    ensures found && !old(client.smnIoError) && client.faults == old(client.faults) ==>
              |client.now.done| > 0 && more[|tests|].index == |client.now.done| - 1 && client.LastVouched()
  {
    more := tests;
    if room == 0 {
      return false, more;
    }
    ghost var ss, acts, s := client.states, client.acts, client.now;
    ghost var resp;
    found, resp := client.SmuServiceTest(mbox);
    DoneGrows(client.cfg, ss, acts, s, client.states, client.acts, client.now);
    ghost var last := |client.now.done| - 1;
    ghost var call := Call(MailboxProtocol.TestRequest(mbox), resp, client.now.done[last].rets, last);
    RecordedSnoc(client.pid, tests, s.done, client.now.done, call);
    more := tests + [call];
  }

  /** The two tests of init_ryzenadj. */
  method TestMailboxes(client: Client, family: Family, os: Option<Backend>, room: nat)
      returns (usable: bool, ghost tests: seq<Call>)
    requires client.Valid() && client.Me().pc == MailboxProtocol.Idle
    modifies client
    ensures client.Valid() && client.Me().pc == MailboxProtocol.Idle && Recorded(client.pid, tests, client.now.done)
    ensures client.starts == old(client.starts) + |tests|
    ensures Tested(family, os, room, tests) && (usable <==> BothUsable(tests))
  {
    hide RecordOf;
    hide MailboxProtocol.Run;
    hide MailboxProtocol.ValidConfig;
    hide MailboxCalls.Starts;
    hide Ticking;
    usable, tests := false, [];
    if family == Unknown || room == 0 || os == None {
      return;
    }
    var mp1;
    mp1, tests := GetSmu(client, MP1, room - 1, []);
    if mp1 {
      ghost var one := tests;
      usable, tests := GetSmu(client, PSMU, room - 2, one);
    }
  }

  /** init_ryzenadj: the library object exists exactly if both mailboxes passed their test. */
  method InitRyzenadj(client: Client, family: Family, os: Option<Backend>, room: nat)
      returns (ry: RyzenAccess?, ghost tests: seq<Call>)
    requires Steady(client, os)
    modifies client
    ensures Steady(client, os) && Recorded(client.pid, tests, client.now.done)
    ensures client.starts == old(client.starts) + |tests|
    ensures Tested(family, os, room, tests) && (ry != null <==> BothUsable(tests))
    ensures ry != null ==>
              && fresh(ry) && fresh(ry.smu) && ry.smu.client == client && ry.family == family && ry.pmFile == os.value.pmFile
              && ry.supply == os.value.supply && ry.kmodSize == os.value.kmodSize && ry.isSmu == !client.cfg.Mapped(client.pid)
              && ry.Valid() && ry.values == null && !ry.busy && ry.smu.requests == []
              && ry.smu.tests == tests && ry.smu.first == old(client.starts) && ry.smu.biosIfVer == 0 && ry.sent == []
  {
    hide MailboxProtocol.Run;
    hide Recorded;
    var usable;
    usable, tests := TestMailboxes(client, family, os, room);
    if !usable {
      return null, tests;
    }
    var smu := new Handle(family, client, tests);
    ry := new RyzenAccess(smu, !client.cfg.Mapped(client.pid), os.value.kmodSize, os.value.pmFile, os.value.supply,
                          os.value.pageBits);
  }

  // ---------------------------------------------------------------- main

  /** The parsed command line cannot be executed. */
  ghost predicate Refused(args: seq<string>)
    requires |args| > 0
  {
    Variables(args).Failed? || (Typed(Variables(args).ps.store) && Contradictory(Variables(args).ps.store))
  }

  /** The trace of a run that makes the tests at most. */
  function NoTrace(tests: seq<Call>): Trace {
    Trace(tests, [], [], false, true, true, [], [], true)
  }

  /** The trace of a run that makes no call. */
  lemma NoCalls(cfg: MailboxProtocol.Config, p: MailboxProtocol.Pid, s: MailboxProtocol.State)
    ensures AllCalls(NoTrace([])) == [] && Recorded(p, [], s.done) && AllKept(cfg, p, [], s)
  {
  }

  /**
   main. `ready` says that the library could be initialised, and `trace` are all calls of the
   shared machine that this process made.
   */
  method RunTool(argv: array<Option<string>>, ghost args: seq<string>, client: Client, family: Family,
                 os: Option<Backend>, room: nat)
      returns (code: int, ghost ready: bool, ghost trace: Trace)
    requires |args| > 0 && argv.Length == |args| + 1 && argv[..|args|] == Wrap(args)
    requires Steady(client, os)
    modifies argv, client, Resources(os)
    ensures Steady(client, os)
    // the process takes no step for a command line that cannot be parsed, or that contradicts itself;
    ensures Variables(args).Failed? ==> !ready && code == Variables(args).code
    ensures Variables(args).Done? ==> Typed(Variables(args).ps.store) && (!ready ==> code == -1)
    ensures Refused(args) ==> !ready && trace.tests == [] && client.acts == old(client.acts)
    // otherwise it tests the mailboxes, gives up exactly if one of them does not answer,
    ensures !Refused(args) ==> Tested(family, os, room, trace.tests) && (ready <==> BothUsable(trace.tests))
    ensures !ready ==> AllCalls(trace) == trace.tests
    // or else carries out the plan;
    ensures ready ==> Performed(family, client.cfg.Mapped(client.pid), Variables(args).ps.store, trace, code)
    ensures ready ==> Honest(os, trace, old(Denied(os)), old(Failures(os)))
    // these are all the calls it makes, and each is a different finished call of the machine,
    ensures Recorded(client.pid, AllCalls(trace), client.now.done)
    ensures client.starts == old(client.starts) + |AllCalls(trace)|
    // executed by the SMU wherever flock works, the mailbox was quiet and success was reported
    ensures client.cfg.FlockWorks() ==> AllKept(client.cfg, client.pid, AllCalls(trace), client.now)
  {
    hide Performed;
    hide AllCalls;
    hide AllKept;
    hide Recorded;
    hide Tested;
    hide BothUsable;
    hide Usable;
    hide Block;
    hide MailboxProtocol.Run;
    ready, trace := false, NoTrace([]);
    NoCalls(client.cfg, client.pid, client.now);
    var status, store := ParseOptions(argv, args);
    if status != Running {
      return status.code, ready, trace;
    }
    if store[Slot(PowerSaving)].i != 0 && store[Slot(MaxPerformance)].i != 0 {
      return -1, ready, trace;
    }
    if store[Slot(EnableOc)].i != 0 && store[Slot(DisableOc)].i != 0 {
      return -1, ready, trace;
    }
    code, ready, trace := UseLibrary(store, client, family, os, room);
  }

  ghost function Denied(os: Option<Backend>): nat
    reads Resources(os)
  {
    if os.Some? then os.value.supply.denied else 0
  }

  ghost function Failures(os: Option<Backend>): nat
    reads Resources(os)
  {
    if os.Some? then os.value.pmFile.failures else 0
  }

  /** The trace blames the operating system only for what it did. */
  ghost predicate Honest(os: Option<Backend>, t: Trace, denied: nat, failures: nat)
    reads Resources(os)
  {
    && (!t.granted || !t.roomToDump ==> Denied(os) > denied)
    && (!t.readable || Unreadable(t.shows) ==>
          Failures(os) > failures || (os.Some? && !PlausibleSize(os.value.kmodSize)))
  }

  /** From opening the library to its cleanup. */
  method UseLibrary(store: seq<Cell>, client: Client, family: Family, os: Option<Backend>, room: nat)
      returns (code: int, ghost ready: bool, ghost trace: Trace)
    requires Typed(store) && Steady(client, os)
    modifies client, Resources(os)
    ensures Steady(client, os)
    ensures Tested(family, os, room, trace.tests) && (ready <==> BothUsable(trace.tests))
    ensures !ready ==> code == -1 && AllCalls(trace) == trace.tests
    ensures ready ==> Performed(family, client.cfg.Mapped(client.pid), store, trace, code)
    ensures ready ==> Honest(os, trace, old(Denied(os)), old(Failures(os)))
    ensures Recorded(client.pid, AllCalls(trace), client.now.done)
    ensures client.starts == old(client.starts) + |AllCalls(trace)|
    ensures client.cfg.FlockWorks() ==> AllKept(client.cfg, client.pid, AllCalls(trace), client.now)
  {
    hide Performed;
    hide MailboxCalls.Kept;
    var ry;
    ghost var tests;
    ry, tests := InitRyzenadj(client, family, os, room);
    ready := ry != null;
    if ry == null {
      code, trace := -1, NoTrace(tests);
      assert AllCalls(trace) == tests;
    } else {
      code, trace := AdjustAndShow(store, ry);
    }
    if client.cfg.FlockWorks() {
      SuccessesExecuted(client.cfg, client.states, client.acts, client.now, client.pid, AllCalls(trace));
    }
  }

  /** The information header. */
  method ShowHeader(ry: RyzenAccess, info: bool) returns (ghost header: seq<Call>)
    requires ry.Valid() && ry.smu.requests == [] && ry.smu.biosIfVer == 0 && ry.sent == []
    modifies ry.smu`requests, ry.smu`biosIfVer, ry.smu.client
    ensures ry.Valid() && ry.smu.requests == header
    ensures if info then |header| == 1 && header[0].req == RequestFor(MP1, 0x3, 0) else header == []
  {
    if info {
      var ver := ry.smu.GetBiosIfVer();
    }
    header := ry.smu.requests;
  }

  /** The messages of an initialisation, seen by themselves. */
  lemma FromTheStart(f: Family, header: seq<Call>, sent: seq<Message>, requests: seq<Call>)
    requires Logged(f, [], header, sent, requests)
    ensures requests == header + Calls(sent) && forall i | 0 <= i < |sent| :: Fitting(f, sent[i])
  {
    assert sent[0..] == sent;
  }

  /** What a trace says about the initialisation of the table. */
  ghost predicate InitRecord(f: Family, mapped: bool, init: seq<Message>, ok: bool, granted: bool, readable: bool) {
    Begun(f, mapped, Trace([], [], init, ok, granted, readable, [], [], true))
  }

  /** The table is initialised: buffer, mapping and size. */
  ghost predicate TableReady(ry: RyzenAccess)
    reads ry, ry.pmFile, ry.smu, ry.smu.client
  {
    && ry.Valid() && ry.values != null && MessageId(ry.family, Transfer).Some?
    && (!ry.isSmu ==> ry.mapped && ry.tableSize <= ry.mapLen - ry.mapOffset)
    && (ry.isSmu && PlausibleSize(ry.kmodSize) ==> ry.tableSize == ry.kmodSize)
  }

  lemma InitialisedIsReady(ry: RyzenAccess, granted: bool)
    requires ry.Valid() && ry.values != null && ry.Initialised([]) && Introduced(ry.sent, 0)
    requires GoesAsFar(ry.family, ry.sent, 0, !ry.isSmu, granted)
    ensures TableReady(ry)
  {
  }

  /** The metric table before the adjustments, to have the old values; a failure only ends the monitoring. */
  method ShowBefore(ry: RyzenAccess, ghost header: seq<Call>) returns (shown: bool, ghost granted: bool, ghost readable: bool)
    requires ry.Valid() && ry.values == null && !ry.busy && ry.sent == [] && ry.smu.requests == header
    modifies ry, ry.pmFile, ry.smu`requests, ry.smu.client, ry.supply
    ensures ry.Valid() && !ry.busy && (ry.values == null || fresh(ry.values)) && (shown ==> TableReady(ry))
    ensures ry.smu.requests == header + Calls(ry.sent)
    ensures InitRecord(ry.family, !ry.isSmu, ry.sent, shown, granted, readable)
    ensures ry.supply.denied >= old(ry.supply.denied) && ry.pmFile.failures >= old(ry.pmFile.failures)
    ensures !granted ==> ry.supply.denied > old(ry.supply.denied)
    ensures !readable ==> ry.pmFile.failures > old(ry.pmFile.failures) || !PlausibleSize(ry.kmodSize)
  {
    hide RyzenAccess.Sane;
    hide RyzenAccess.Initialised;
    hide RyzenAccess.GettersInBounds;
    hide RyzenAccess.Misfit;
    hide RyzenAccess.TimedOut;
    hide Introduced;
    hide Addressed;
    hide GoesAsFar;
    hide InitMessages;
    hide Logged;
    hide Transfers;
    hide SizeOf;
    ghost var denied, failures := ry.supply.denied, ry.pmFile.failures;
    var err, _ := ry.InitTable();
    shown := err == 0;
    if shown {
      InitialisedIsReady(ry, ry.supply.denied == denied);
    }
    hide TableReady;
    granted := ry.supply.denied == denied;
    readable := ry.isSmu && Addressed(ry.family, ry.sent, 0) && granted ==>
      ry.kmodSize != 0 && ry.tableSize <= ry.kmodSize && ry.pmFile.failures == failures;
    FromTheStart(ry.family, header, ry.sent, ry.smu.requests);
  }

  /** The adjustments. The handle's table keeps its state. */
  method AdjustAll(ry: RyzenAccess, store: seq<Cell>) returns (code: int, any: bool, ghost blocks: seq<seq<Call>>)
    requires Typed(store) && ry.Valid()
    modifies ry.smu`requests, ry.smu.client
    ensures ry.Valid() && (old(TableReady(ry)) ==> TableReady(ry))
    ensures Carried(ry.family, Plan(store), blocks) && code == if AllSucceeded(blocks) then 0 else -1
    ensures code == 0 ==> (any <==> blocks != [])
    ensures ry.smu.requests == old(ry.smu.requests) + Flatten(blocks)
  {
    var session := new Session(ry.smu, store);
    session.ApplyAll();
    code, any, blocks := session.err, session.anyAdjustApplied, session.blocks;
    assert forall i | 0 <= i < |ry.sent| :: ry.sent[i].call in ry.smu.requests;
  }

  /** One refresh, on record. */
  method Show(ry: RyzenAccess) returns (ghost r: Refresh)
    requires TableReady(ry)
    modifies ry, ry.pmFile, ry.values, ry.smu`requests, ry.smu.client, ry.supply
    ensures TableReady(ry) && ry.values == old(ry.values) && ry.supply.denied == old(ry.supply.denied)
    ensures ry.pmFile.failures >= old(ry.pmFile.failures)
    ensures Refreshed(ry.family, !ry.isSmu, r) && r.before == old(ry.values[..]) && r.after == ry.values[..]
    ensures ry.smu.requests == old(ry.smu.requests) + Calls(r.msgs)
    ensures ry.seen == old(ry.seen) + Looks(!ry.isSmu, r)
    ensures ry.isSmu && r.err == 0 ==> r.copied == ry.pmFile.content
    ensures !r.readable ==> ry.pmFile.failures > old(ry.pmFile.failures) || !PlausibleSize(ry.kmodSize)
  {
    ghost var before, n, failures := ry.values[..], |ry.sent|, ry.pmFile.failures;
    var err;
    ghost var compared, copied;
    err, compared, copied := ry.RefreshTable();
    ghost var readable := ry.isSmu ==>
      ry.kmodSize != 0 && ry.tableSize <= ry.kmodSize && ry.pmFile.failures == failures;
    r := Refresh(before, compared, copied, ry.values[..], ry.sent[n..], readable, err);
    RefreshRecord(ry.family, old(ry.sent), old(ry.smu.requests), ry.sent, ry.smu.requests);
    assert r.msgs != [] ==> ry.sent != old(ry.sent) && r.msgs[|r.msgs| - 1] == ry.sent[|ry.sent| - 1];
  }

  lemma RefreshRecord(f: Family, sent: seq<Message>, requests: seq<Call>, sent': seq<Message>, requests': seq<Call>)
    requires Logged(f, sent, requests, sent', requests')
    ensures forall i | 0 <= i < |sent'[|sent|..]| :: Fitting(f, sent'[|sent|..][i])
    ensures requests' == requests + Calls(sent'[|sent|..])
    ensures sent'[|sent|..] == [] <==> sent' == sent
  {
  }

  lemma ShownSnoc(shows: seq<Refresh>, r: Refresh)
    ensures ShownCalls(shows + [r]) == ShownCalls(shows) + Calls(r.msgs)
  {
    assert (shows + [r])[..|shows|] == shows;
  }

  /** show_table_dump: with adjustments the table is refreshed, if there is memory for two copies of it. */
  method ShowDump(ry: RyzenAccess, any: bool) returns (ghost shows: seq<Refresh>, ghost roomToDump: bool)
    requires TableReady(ry)
    modifies ry, ry.pmFile, ry.values, ry.smu`requests, ry.smu.client, ry.supply
    ensures TableReady(ry) && ry.values == old(ry.values)
    ensures if any && roomToDump then |shows| == 1 && shows[0].after == ry.values[..] else shows == []
    ensures ShownRight(ry.family, !ry.isSmu, shows) && ry.smu.requests == old(ry.smu.requests) + ShownCalls(shows)
    ensures ry.supply.denied >= old(ry.supply.denied) && (!roomToDump ==> ry.supply.denied > old(ry.supply.denied))
    ensures ry.pmFile.failures >= old(ry.pmFile.failures)
    ensures Unreadable(shows) ==> ry.pmFile.failures > old(ry.pmFile.failures) || !PlausibleSize(ry.kmodSize)
  {
    hide Refreshed;
    hide ShownCalls;
    hide RyzenAccess.Sane;
    hide RyzenAccess.Fits;
    NothingShown();
    shows, roomToDump := [], true;
    var copy := ry.supply.Grant();
    var room := copy;
    if copy && any {
      room := ry.supply.Grant();
    }
    roomToDump := room;
    if room && any {
      ghost var r := Show(ry);
      ShownSnoc([], r);
      assert [] + [r] == [r];
      shows := [r];
    }
  }

  /** The table dump and the information table after the adjustments. */
  method ShowAfter(ry: RyzenAccess, info: bool, dump: bool, any: bool)
      returns (ghost shows: seq<Refresh>, ghost roomToDump: bool)
    requires TableReady(ry)
    modifies ry, ry.pmFile, ry.values, ry.smu`requests, ry.smu.client, ry.supply
    ensures ry.Valid()
    ensures |shows| == (if dump && any && roomToDump then 1 else 0) + if info then 1 else 0
    ensures ShownRight(ry.family, !ry.isSmu, shows) && ry.smu.requests == old(ry.smu.requests) + ShownCalls(shows)
    ensures ry.supply.denied >= old(ry.supply.denied) && (!roomToDump ==> ry.supply.denied > old(ry.supply.denied))
    ensures ry.pmFile.failures >= old(ry.pmFile.failures)
    ensures Unreadable(shows) ==> ry.pmFile.failures > old(ry.pmFile.failures) || !PlausibleSize(ry.kmodSize)
  {
    hide Refreshed;
    hide ShownCalls;
    hide Unreadable;
    hide ShownRight;
    hide RyzenAccess.Sane;
    hide RyzenAccess.Fits;
    NothingShown();
    shows, roomToDump := [], true;
    if dump {
      shows, roomToDump := ShowDump(ry, any);
    }
    if info {
      ghost var r := Show(ry);
      ShownSnoc(shows, r);
      OneMoreShown(ry.family, !ry.isSmu, shows, r);
      shows := shows + [r];
    }
  }

  lemma OneMoreShown(f: Family, mapped: bool, shows: seq<Refresh>, r: Refresh)
    requires ShownRight(f, mapped, shows) && Refreshed(f, mapped, r)
    requires shows != [] ==> shows[|shows| - 1].after == r.before
    ensures ShownRight(f, mapped, shows + [r])
    ensures Unreadable(shows + [r]) ==> Unreadable(shows) || !r.readable
  {
    hide Refreshed;
    if Unreadable(shows + [r]) {
      var i :| 0 <= i < |shows + [r]| && !(shows + [r])[i].readable;
      assert i < |shows| ==> !shows[i].readable;
    }
  }

  /** The part of main that talks to the SMU. */
  method AdjustAndShow(store: seq<Cell>, ry: RyzenAccess) returns (code: int, ghost trace: Trace)
    requires Typed(store) && ry.Valid() && ry.values == null && !ry.busy
    requires ry.smu.requests == [] && ry.smu.biosIfVer == 0 && ry.sent == []
    modifies ry, ry.pmFile, ry.smu`requests, ry.smu`biosIfVer, ry.smu.client, ry.supply
    ensures ry.Valid()
    ensures Performed(ry.family, !ry.isSmu, store, trace, code)
    ensures ry.smu.requests == Requests(trace) && trace.tests == ry.smu.tests
    ensures !trace.granted || !trace.roomToDump ==> ry.supply.denied > old(ry.supply.denied)
    ensures !trace.readable || Unreadable(trace.shows) ==>
              ry.pmFile.failures > old(ry.pmFile.failures) || !PlausibleSize(ry.kmodSize)
  {
    hide Carried;
    hide AllSucceeded;
    hide Flatten;
    hide ShownCalls;
    hide Refreshed;
    hide Addressed;
    hide GoesAsFar;
    hide InitMessages;
    hide Fitting;
    hide TableReady;
    hide ShownRight;
    hide Unreadable;
    hide Begun;
    hide InitRecord;
    hide RyzenAccess.Sane;
    hide RyzenAccess.Fits;
    hide Plan;
    var info, dump := store[INFO_SLOT].i != 0, store[DUMP_SLOT].i != 0;
    ghost var header := ShowHeader(ry, info);
    var shown := false;
    ghost var granted, readable := true, true;
    if info || dump {
      shown, granted, readable := ShowBefore(ry, header);
    }
    ghost var init := ry.sent;
    var any;
    ghost var blocks;
    code, any, blocks := AdjustAll(ry, store);
    ghost var shows, roomToDump := [], true;
    if code == 0 && shown {
      shows, roomToDump := ShowAfter(ry, info, dump, any);
    }
    NothingShown();
    trace := Trace(ry.smu.tests, header, init, shown, granted, readable, blocks, shows, roomToDump);
    if info || dump {
      OnTrace(ry.family, !ry.isSmu, trace);
    }
    assert header + Calls(init) + Flatten(blocks) + ShownCalls(shows) == ry.smu.requests;
  }

  lemma OnTrace(f: Family, mapped: bool, t: Trace)
    requires InitRecord(f, mapped, t.init, t.initialised, t.granted, t.readable)
    ensures Begun(f, mapped, t)
  {
  }

  lemma NothingShown()
    ensures ShownCalls([]) == [] && Calls([]) == [] && !Unreadable([])
    ensures forall f: Family, mapped: bool :: ShownRight(f, mapped, [])
  {
  }
}
