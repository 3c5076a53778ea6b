/**
 The setters of the library: which request each of them makes on which family, the second try on
 the other mailbox, and what the caller is told. A setter sends its requests through the mailbox
 client, so the requests recorded here are calls of the shared machine.
 */
module Setters {
  import opened Words
  import opened SmuLayout
  import opened MailboxProtocol
  import opened MailboxCalls
  import opened MailboxResponses
  import opened MailboxClient

  /** The adjustments of the command line tool, in the order in which it applies them. */
  datatype Setting =
    | StapmLimit | FastLimit | SlowLimit | SlowTime | StapmTime | TctlTemp
    | VrmCurrent | VrmSocCurrent | VrmGfxCurrent | VrmCvipCurrent | VrmMaxCurrent | VrmSocMaxCurrent | VrmGfxMaxCurrent
    | Psi0Current | Psi3CpuCurrent | Psi0SocCurrent | Psi3GfxCurrent
    | MaxSocclkFreq | MinSocclkFreq | MaxFclkFreq | MinFclkFreq | MaxVcn | MinVcn | MaxLclk | MinLclk
    | MaxGfxclkFreq | MinGfxclkFreq | ProchotDeassertionRamp
    | ApuSkinTempLimit | DgpuSkinTempLimit | ApuSlowLimit | SkinTempPowerLimit
    | GfxClk | EnableOc | OcClk | OcVolt | DisableOc | PowerSaving | MaxPerformance
    | CoAll | CoPer | CoGfx

  /** No request; one request; or one on MP1 and, if that fails, another one on PSMU. */
  datatype Route = Unsupported | Single(mbox: Mbox, id: Word) | Retry(id: Word, psmuId: Word)

  datatype Generation = Zen1 | Zen2 | VanGoghApu | Newer | Desktop | Other

  function GenerationOf(f: Family): Generation {
    match f
    case Raven | Picasso | Dali => Zen1
    case Renoir | Lucienne | Cezanne => Zen2
    case VanGogh => VanGoghApu
    case Rembrandt | Mendocino | Phoenix | HawkPoint | KrackanPoint | StrixPoint | StrixHalo => Newer
    case DragonRange | FireRange => Desktop
    case Unknown => Other
  }

  predicate Apu(f: Family) {
    GenerationOf(f) in {Zen2, VanGoghApu, Newer}
  }

  /** Settings whose message differs between old and new APUs, and perhaps the desktop families. */
  function ByAge(f: Family, zen1: Word, apu: Word, desktop: Option<Word>): Route {
    if GenerationOf(f) == Zen1 then Single(MP1, zen1)
    else if Apu(f) then Single(MP1, apu)
    else if GenerationOf(f) == Desktop && desktop.Some? then Single(MP1, desktop.value)
    else Unsupported
  }

  function Only(supported: bool, mbox: Mbox, id: Word): Route {
    if supported then Single(mbox, id) else Unsupported
  }

  /** The switch over the family in each setter. */
  function RouteOf(s: Setting, f: Family): Route {
    var g := GenerationOf(f);
    match s
    case StapmLimit => if Apu(f) then Retry(0x14, 0x31) else ByAge(f, 0x1a, 0x14, Some(0x4f))
    case FastLimit => ByAge(f, 0x1b, 0x15, Some(0x3e))
    case SlowLimit => ByAge(f, 0x1c, 0x16, Some(0x5f))
    case SlowTime => ByAge(f, 0x1d, 0x17, Some(0x60))
    case StapmTime => ByAge(f, 0x1e, 0x18, Some(0x4e))
    case TctlTemp => ByAge(f, 0x1f, 0x19, Some(0x3f))
    case VrmCurrent => ByAge(f, 0x20, 0x1a, Some(0x3c))
    case VrmSocCurrent => ByAge(f, 0x21, 0x1b, None)
    case VrmGfxCurrent => Only(g == VanGoghApu, MP1, 0x1c)
    case VrmCvipCurrent => Only(g == VanGoghApu, MP1, 0x1d)
    case VrmMaxCurrent => if g == VanGoghApu then Single(MP1, 0x1e) else ByAge(f, 0x22, 0x1c, None)
    case VrmSocMaxCurrent => if g == VanGoghApu then Unsupported else ByAge(f, 0x23, 0x1d, None)
    case VrmGfxMaxCurrent => Only(g == VanGoghApu, MP1, 0x1f)
    case Psi0Current => if g == Zen2 then Single(MP1, 0x1e) else Only(g == Zen1, MP1, 0x24)
    case Psi3CpuCurrent => Only(g == VanGoghApu, MP1, 0x20)
    case Psi0SocCurrent => if g == Zen2 then Single(MP1, 0x1f) else Only(g == Zen1, MP1, 0x25)
    case Psi3GfxCurrent => Only(g == VanGoghApu, MP1, 0x21)
    case MaxSocclkFreq => Only(g == Zen1, MP1, 0x48)
    case MinSocclkFreq => Only(g == Zen1, MP1, 0x49)
    case MaxFclkFreq => Only(g == Zen1, MP1, 0x4A)
    case MinFclkFreq => Only(g == Zen1, MP1, 0x4B)
    case MaxVcn => Only(g == Zen1, MP1, 0x4C)
    case MinVcn => Only(g == Zen1, MP1, 0x4D)
    case MaxLclk => Only(g == Zen1, MP1, 0x4E)
    case MinLclk => Only(g == Zen1, MP1, 0x4F)
    case MaxGfxclkFreq => Only(g == Zen1 || f == Lucienne, MP1, 0x46)
    case MinGfxclkFreq => Only(g == Zen1 || f == Lucienne, MP1, 0x47)
    case ProchotDeassertionRamp =>
      if g == Zen1 then Single(MP1, 0x26)
      else if g == Zen2 then Single(MP1, 0x20)
      else if g == VanGoghApu then Single(MP1, 0x22)
      else Only(g == Newer, MP1, 0x1f)
    case ApuSkinTempLimit =>
      if g == Zen2 then Single(MP1, 0x38)
      else Only(f in {VanGogh, Rembrandt, Mendocino, Phoenix, HawkPoint}, MP1, 0x33)
    case DgpuSkinTempLimit =>
      if g == Zen2 then Single(MP1, 0x39)
      else Only(f in {VanGogh, Rembrandt, Mendocino, Phoenix, HawkPoint, StrixPoint}, MP1, 0x34)
    case ApuSlowLimit => if g == Zen2 then Single(MP1, 0x21) else Only(g == Newer && f != Mendocino, MP1, 0x23)
    case SkinTempPowerLimit => if g == Zen2 then Single(MP1, 0x53) else Only(Apu(f), MP1, 0x4a)
    case GfxClk => Only(Apu(f), PSMU, 0x89)
    case EnableOc => if f == Rembrandt then Single(PSMU, 0x17) else Only(g == Zen2, MP1, 0x2F)
    case OcClk => if g == Zen2 || f == Rembrandt then Retry(0x31, 0x19) else Unsupported
    case OcVolt => if g == Zen2 then Retry(0x33, 0x1b) else Unsupported
    case DisableOc =>
      if g == Zen2 then Retry(0x30, 0x1d) else Only(f == Rembrandt, PSMU, 0x18)
    case PowerSaving => ByAge(f, 0x19, 0x12, None)
    case MaxPerformance => ByAge(f, 0x18, 0x11, None)
    case CoAll =>
      if g == Zen2 then Single(MP1, 0x55)
      else if g == Desktop then Single(PSMU, 0x7)
      else Only(Apu(f) && f != Mendocino, MP1, 0x4C)
    case CoPer =>
      if g == Zen2 then Single(MP1, 0x54)
      else if g == Desktop then Single(PSMU, 0x6)
      else Only(Apu(f) && f != Mendocino, MP1, 0x4b)
    case CoGfx =>
      if g == Zen2 then Single(MP1, 0x64) else Only(f in {Rembrandt, Phoenix, HawkPoint, VanGogh}, PSMU, 0xB7)
  }

  predicate IsFlag(s: Setting) {
    s in {EnableOc, DisableOc, PowerSaving, MaxPerformance}
  }

  predicate IsSkinTemp(s: Setting) {
    s == ApuSkinTempLimit || s == DgpuSkinTempLimit
  }

  /** arg0 of the request: flags send 0, skin temperatures are in 1/256 degree and wrap. */
  function Wire(s: Setting, value: Word): Word {
    if IsFlag(s) then 0
    else if IsSkinTemp(s) then value * 256 % WORD_LIMIT
    else value
  }

  /** Two skin temperatures are sent as the same word exactly when their low 24 bits agree. */
  lemma SkinTempSharing(s: Setting, v: Word, w: Word)
    requires IsSkinTemp(s)
    ensures Wire(s, v) == Wire(s, w) <==> v % 0x100_0000 == w % 0x100_0000
  {
    ScaledRemainder(v);
    ScaledRemainder(w);
  }

  /**
   What arg0 says of a setting's value: flags have none, skin temperatures come in 1/256 degree with
   the upper eight bits of the value lost, and everything else is sent as it is.
   */
  predicate Carries(s: Setting, value: Word, arg0: Word) {
    match s
    case EnableOc | DisableOc | PowerSaving | MaxPerformance => arg0 == 0
    case ApuSkinTempLimit | DgpuSkinTempLimit => arg0 % 256 == 0 && arg0 / 256 == value % 0x100_0000
    case _ => arg0 == value
  }

  lemma WireCarries(s: Setting, value: Word)
    ensures Carries(s, value, Wire(s, value))
  {
    ScaledRemainder(value);
  }

  lemma ScaledRemainder(v: nat)
    ensures v * 256 % WORD_LIMIT == v % 0x100_0000 * 256
  {
    var q, r := v / 0x100_0000, v % 0x100_0000;
    assert v * 256 == q * WORD_LIMIT + r * 256;
  }

  // ---------------------------------------------------------------- what a setter does

  /** A request, its response and results, and which finished call of the machine it was. */
  datatype Call = Call(req: Request, resp: Word, rets: seq<Word>, index: nat)

  /** The request of a setter on a mailbox. */
  function RequestFor(mbox: Mbox, id: Word, arg0: Word): Request {
    Request(Req, mbox, id, [arg0, 0, 0, 0, 0, 0])
  }

  /** The requests of one setter call. */
  predicate Follows(route: Route, arg0: Word, calls: seq<Call>) {
    match route
    case Unsupported => calls == []
    case Single(mbox, id) => |calls| == 1 && calls[0].req == RequestFor(mbox, id, arg0)
    case Retry(id, psmuId) =>
      && 1 <= |calls| <= 2
      && calls[0].req == RequestFor(MP1, id, arg0)
      && (|calls| == 2 <==> calls[0].resp != REP_OK)
      && (|calls| == 2 ==> calls[1].req == RequestFor(PSMU, psmuId, arg0))
  }

  predicate Block(f: Family, s: Setting, value: Word, calls: seq<Call>) {
    Follows(RouteOf(s, f), Wire(s, value), calls)
  }

  /** What the caller of a setter is told. */
  function Verdict(calls: seq<Call>): int {
    if calls == [] then ERR_FAM_UNSUPPORTED
    else if calls[|calls| - 1].resp == REP_OK then 0
    else Translate(calls[|calls| - 1].resp)
  }

  predicate Succeeded(calls: seq<Call>) {
    calls != [] && calls[|calls| - 1].resp == REP_OK
  }

  /** What a setter's result says about its requests, whatever the family. */
  predicate Reported(arg0: Word, calls: seq<Call>, err: int) {
    && (err == ERR_FAM_UNSUPPORTED <==> calls == [])
    && (err == 0 <==> Succeeded(calls))
    && |calls| <= 2
    && (forall j | 0 <= j < |calls| :: calls[j].req.args == [arg0, 0, 0, 0, 0, 0])
    && (|calls| == 2 ==> calls[0].resp != REP_OK && calls[0].req.mbox == MP1 && calls[1].req.mbox == PSMU)
  }

  lemma FollowsReported(route: Route, arg0: Word, calls: seq<Call>)
    requires Follows(route, arg0, calls)
    ensures Reported(arg0, calls, Verdict(calls))
  {
  }

  // ---------------------------------------------------------------- history

  /** A longer run of the machine goes through the same states, and finished calls stay recorded. */
  lemma {:induction false} SameStates(cfg: Config, ss: seq<State>, acts: seq<Action>, ts: seq<State>, bcts: seq<Action>, k: nat)
    requires Run(cfg, ss, acts) && Run(cfg, ts, bcts) && ss[0] == ts[0] && acts <= bcts && k <= |acts|
    ensures ss[k] == ts[k]
  {
    if k > 0 {
      SameStates(cfg, ss, acts, ts, bcts, k - 1);
      assert StepBy(cfg, ss[k - 1], acts[k - 1], ss[k]);
      assert StepBy(cfg, ts[k - 1], bcts[k - 1], ts[k]);
    }
  }

  lemma StepKeepsDone(cfg: Config, s: State, a: Action)
    requires Enabled(cfg, s, a)
    ensures s.done <= Apply(cfg, s, a).done
  {
  }

  lemma {:induction false} DoneStays(cfg: Config, ts: seq<State>, bcts: seq<Action>, i: nat, j: nat)
    requires Run(cfg, ts, bcts) && i <= j <= |bcts|
    ensures ts[i].done <= ts[j].done
    decreases j
  {
    if i < j {
      DoneStays(cfg, ts, bcts, i, j - 1);
      assert StepBy(cfg, ts[j - 1], bcts[j - 1], ts[j]);
      StepKeepsDone(cfg, ts[j - 1], bcts[j - 1]);
    }
  }

  /** Finished calls stay recorded in a longer run from the same start. */
  lemma DoneGrows(cfg: Config, ss: seq<State>, acts: seq<Action>, s: State, ts: seq<State>, bcts: seq<Action>, t: State)
    requires Run(cfg, ss, acts) && Run(cfg, ts, bcts) && acts <= bcts
    requires ss[0] == ts[0] && ss[|acts|] == s && ts[|bcts|] == t
    ensures s.done <= t.done
  {
    SameStates(cfg, ss, acts, ts, bcts, |acts|);
    DoneStays(cfg, ts, bcts, |acts|, |bcts|);
  }

  /** The calls are different finished calls of the process, in this order, with these requests and answers. */
  predicate Recorded(p: Pid, calls: seq<Call>, done: seq<Tx>) {
    && (forall i | 0 <= i < |calls| :: calls[i].index < |done| && RecordOf(p, calls[i], done[calls[i].index]))
    && (forall i, j | 0 <= i < j < |calls| :: calls[i].index < calls[j].index)
  }

  predicate RecordOf(p: Pid, c: Call, tx: Tx) {
    tx.pid == p && tx.req == c.req && tx.resp == c.resp && tx.rets == c.rets
  }

  lemma RecordedSnoc(p: Pid, calls: seq<Call>, done: seq<Tx>, later: seq<Tx>, c: Call)
    requires Recorded(p, calls, done) && done <= later && |done| <= c.index < |later|
    requires RecordOf(p, c, later[c.index])
    ensures Recorded(p, calls + [c], later)
  {
  }

  /**
   What is promised of every single call that found its mailbox quiet when it took the lock: if it
   reports success, the SMU executed it, with this request; and through the driver's registers its
   response is what the SMU answered, a refusal as well.
   */
  ghost predicate AllKept(cfg: Config, p: Pid, calls: seq<Call>, s: State) {
    && Recorded(p, calls, s.done)
    && forall i | 0 <= i < |calls| :: Kept(s, s.done[calls[i].index]) && Genuine(cfg, s, s.done[calls[i].index])
  }

  /** Where flock works, the SMU executed every successful call that found a quiet mailbox, each for itself. */
  lemma SuccessesExecuted(cfg: Config, ss: seq<State>, acts: seq<Action>, s: State, p: Pid, calls: seq<Call>)
    requires ValidConfig(cfg) && Run(cfg, ss, acts) && ss[|acts|] == s && cfg.FlockWorks()
    requires p in s.procs && s.procs[p].pc == Idle && Recorded(p, calls, s.done)
    ensures AllKept(cfg, p, calls, s)
    ensures !cfg.Mapped(p) ==> forall i | 0 <= i < |calls| :: s.done[calls[i].index].lost == map[]
  {
    RunConsequences(cfg, ss, acts, s, p);
    hide Kept;
    hide Genuine;
    hide DoneMeant;
    hide Run;
    hide ValidConfig;
    forall i | 0 <= i < |calls|
      ensures !cfg.Mapped(p) ==> s.done[calls[i].index].lost == map[]
    {
      assert RecordOf(p, calls[i], s.done[calls[i].index]);
    }
  }

  // ---------------------------------------------------------------- the handle

  class Handle {
    const family: Family
    const client: Client
    ghost const tests: seq<Call>      // the test messages of the initialisation
    ghost const first: nat            // calls of the process before those
    var biosIfVer: Word
    ghost var requests: seq<Call>     // oldest first

    /** The requests of this handle are all calls the process has made since the first test. */
    ghost predicate Valid()
      reads this, client
    {
      && client.Valid() && client.Me().pc == Idle
      && Recorded(client.pid, tests + requests, client.now.done)
      && client.starts == first + |tests| + |requests|
    }

    constructor (family: Family, client: Client, ghost tests: seq<Call>)
      requires client.Valid() && client.Me().pc == Idle
      requires Recorded(client.pid, tests, client.now.done) && |tests| <= client.starts
      ensures Valid() && requests == [] && this.tests == tests && first == client.starts - |tests|
      ensures this.family == family && this.client == client && biosIfVer == 0
    {
      this.family, this.client, this.tests, first := family, client, tests, client.starts - |tests|;
      biosIfVer, requests := 0, [];
      new;
      assert this.tests + requests == tests;
    }

    /** smu_service_req with one argument; finished calls stay what they were, and this one is the last. */
    method Send(mbox: Mbox, id: Word, arg0: Word) returns (resp: Word, res0: Word, res1: Word)
      requires client.Valid() && client.Me().pc == Idle
      modifies client
      ensures client.Valid() && client.Me().pc == Idle && client.starts == old(client.starts) + 1
      ensures old(client.acts) <= client.acts && old(client.now.done) < client.now.done
      ensures
        var tx := client.now.done[|client.now.done| - 1];
        && tx.pid == client.pid && tx.req == RequestFor(mbox, id, arg0) && tx.resp == resp
        && |tx.rets| == 6 && tx.rets[..2] == [res0, res1]
      ensures resp == REP_TIMEOUT ==> res0 == arg0 && res1 == 0
    {
      hide Run;
      hide Kept;
      var args := new Word[6](_ => 0);
      args[0] := arg0;
      assert args[..] == [arg0, 0, 0, 0, 0, 0];
      ghost var ss, acts, s := client.states, client.acts, client.now;
      resp := client.SmuServiceReq(mbox, id, args);
      DoneGrows(client.cfg, ss, acts, s, client.states, client.acts, client.now);
      res0, res1 := args[0], args[1];
      assert args[..][0] == res0 && args[..][1] == res1;
    }

    /** A request of this handle: sent and recorded. */
    method Ask(mbox: Mbox, id: Word, arg0: Word) returns (resp: Word, res0: Word, res1: Word, ghost call: Call)
      requires Valid()
      modifies client, this`requests
      ensures Valid() && old(client.acts) <= client.acts
      ensures call.req == RequestFor(mbox, id, arg0) && call.resp == resp
      ensures |call.rets| == 6 && call.rets[..2] == [res0, res1]
      ensures resp == REP_TIMEOUT ==> res0 == arg0 && res1 == 0
      ensures requests == old(requests) + [call]
    {
      hide Run;
      ghost var done := client.now.done;
      resp, res0, res1 := Send(mbox, id, arg0);
      ghost var last := |client.now.done| - 1;
      call := Call(RequestFor(mbox, id, arg0), resp, client.now.done[last].rets, last);
      RecordedSnoc(client.pid, tests + requests, done, client.now.done, call);
      assert tests + requests + [call] == tests + (requests + [call]);
      requests := requests + [call];
    }

    /** get_bios_if_ver: asked once; the first result of the answer, kept only after a success. */
    method GetBiosIfVer() returns (ver: Word)
      requires Valid()
      modifies client, this`requests, this`biosIfVer
      ensures Valid() && old(client.acts) <= client.acts
      ensures old(biosIfVer) != 0 ==> ver == biosIfVer == old(biosIfVer) && requests == old(requests)
      ensures old(biosIfVer) == 0 ==>
                && |requests| == |old(requests)| + 1 && old(requests) <= requests
                && var c := requests[|old(requests)|];
                   && c.req == RequestFor(MP1, 0x3, 0) && ver == biosIfVer && |c.rets| == 6
                   && ver == if c.resp == REP_OK then c.rets[0] else 0
    {
      if biosIfVer != 0 {
        return biosIfVer;
      }
      var resp, res0, res1;
      ghost var call;
      resp, res0, res1, call := Ask(MP1, 0x3, 0);
      assert call.rets[..2][0] == call.rets[0];
      if resp != REP_OK {
        return 0;
      }
      biosIfVer := res0;
      ver := biosIfVer;
    }

    /** The macros _do_adjust and _do_adjust_psmu. */
    method DoAdjust(mbox: Mbox, id: Word, arg0: Word) returns (err: int, ghost call: Call)
      requires Valid()
      modifies client, this`requests
      ensures Valid() && old(client.acts) <= client.acts
      ensures call.req == RequestFor(mbox, id, arg0)
      ensures requests == old(requests) + [call]
      ensures err == Verdict([call])
      ensures call.resp == REP_OK ==> err == 0
      ensures call.resp == REP_TIMEOUT ==> err == ERR_SMU_TIMEOUT
      ensures call.resp == REP_UNKNOWN_CMD ==> err == ERR_SMU_UNSUPPORTED
      ensures call.resp !in {REP_OK, REP_TIMEOUT, REP_UNKNOWN_CMD} ==> err == ERR_SMU_REJECTED
    {
      var resp, res0, res1;
      resp, res0, res1, call := Ask(mbox, id, arg0);
      if resp == REP_OK {
        err := 0;
      } else if resp == REP_TIMEOUT {
        err := ERR_SMU_TIMEOUT;
      } else if resp == REP_UNKNOWN_CMD {
        err := ERR_SMU_UNSUPPORTED;
      } else {
        err := ERR_SMU_REJECTED;
      }
    }

    /** The branch of a setter's switch that the family selects. */
    method AdjustBy(route: Route, arg0: Word) returns (err: int, ghost block: seq<Call>)
      requires Valid()
      modifies client, this`requests
      ensures Valid() && old(client.acts) <= client.acts
      ensures requests == old(requests) + block && Follows(route, arg0, block) && err == Verdict(block)
    {
      err, block := ERR_FAM_UNSUPPORTED, [];
      match route
      case Unsupported =>
      case Single(mbox, id) =>
        ghost var call;
        err, call := DoAdjust(mbox, id, arg0);
        block := [call];
      case Retry(id, psmuId) =>
        ghost var first, second;
        err, first := DoAdjust(MP1, id, arg0);
        block := [first];
        if err != 0 {
          err, second := DoAdjust(PSMU, psmuId, arg0);
          block := [first, second];
        }
    }

    /**
     Any setter. It reports an unsupported family exactly when it asked the SMU nothing, and
     success exactly when its last request succeeded; a second request follows only a failed
     first one, on the PSMU mailbox and with the same argument.
     */
    method Set(s: Setting, value: Word) returns (err: int, ghost block: seq<Call>)
      requires Valid()
      modifies client, this`requests
      ensures Valid() && old(client.acts) <= client.acts
      ensures requests == old(requests) + block
      ensures Block(family, s, value, block) && err == Verdict(block)
      ensures Reported(Wire(s, value), block, err)
      ensures forall j | 0 <= j < |block| ::
                Carries(s, value, block[j].req.args[0]) && block[j].req.args[1..] == [0, 0, 0, 0, 0]
    {
      WireCarries(s, value);
      hide RouteOf;
      hide Wire;
      err, block := AdjustBy(RouteOf(s, family), Wire(s, value));
      FollowsReported(RouteOf(s, family), Wire(s, value), block);
    }
  }
}
