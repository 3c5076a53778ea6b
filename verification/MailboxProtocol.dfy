/**
 The SMU mailbox as a shared state machine.

 Any number of single-threaded processes drive two mailboxes through one shared
 "select address, then data" window. Each process runs smu_service_req (a `Req` call) or
 smu_service_test (a `Test` call) one register access at a time; the SMU is an environment
 process that latches a command when a doorbell register is written and answers it at any
 later moment. Every access may fail; on the mapped backend a failed data read goes unnoticed.
 All nondeterminism is in the chosen `Action`. Some fields are history: they record what
 happened and nothing depends on them.
 */
module MailboxProtocol {
  import opened Words
  import opened SmuLayout

  type Pid = nat

  /** How a process gets at the registers, and whether its driver runs whole transactions too. */
  datatype Backend = PciConfig | SmuDriver(transactions: bool)

  /** Register addresses of the machine, which processes can lock, the others going on unlocked, and their backends. */
  datatype Config = Config(addr: (Mbox, Reg) -> Word, flock: Pid -> bool, backend: Pid -> Backend) {
    /** The registers are accessed through PCI configuration space, two halves at a time. */
    predicate Mapped(p: Pid) {
      backend(p).PciConfig?
    }

    predicate HasTransactions(p: Pid) {
      backend(p) == SmuDriver(true)
    }

    /** flock works for every process. */
    ghost predicate FlockWorks() {
      forall p :: flock(p)
    }
  }

  ghost predicate ValidConfig(cfg: Config) {
    && (forall m: Mbox, r: Reg, n: Mbox, q: Reg | IsReg(r) && IsReg(q) && cfg.addr(m, r) == cfg.addr(n, q) ::
          m == n && r == q)
    && (forall m: Mbox, r: Reg | IsReg(r) :: cfg.addr(m, r) % 4 == 0)
  }

  function ConfigOf(family: Family, flock: Pid -> bool, backend: Pid -> Backend): Config {
    Config((m, r) => RegAddr(MailboxOf(family, m), r), flock, backend)
  }

  lemma ConfigOfIsValid(family: Family, flock: Pid -> bool, backend: Pid -> Backend)
    ensures ValidConfig(ConfigOf(family, flock, backend))
  {
    LayoutDisjoint(family);
    var cfg := ConfigOf(family, flock, backend);
    forall m: Mbox, r: Reg | IsReg(r)
      ensures cfg.addr(m, r) % 4 == 0
    {
      assert m == MP1 || m == PSMU;
    }
    forall m: Mbox, r: Reg, n: Mbox, q: Reg | IsReg(r) && IsReg(q) && cfg.addr(m, r) == cfg.addr(n, q)
      ensures m == n && r == q
    {
      assert (m == MP1 || m == PSMU) && (n == MP1 || n == PSMU);
    }
  }

  datatype Kind = Req | Test

  datatype Request = Request(kind: Kind, mbox: Mbox, id: Word, args: Args)

  const TEST_MSG: Word := 0x1
  const TEST_ARG: Word := 0x47

  function TestRequest(mbox: Mbox): Request {
    Request(Test, mbox, TEST_MSG, [TEST_ARG, 0, 0, 0, 0, 0])
  }

  /** What the SMU sees of a request. */
  datatype Cmd = Cmd(id: Word, args: Args)

  datatype Reply = Reply(rsp: Word, results: Args)

  /** One ring of a doorbell: the call that rang it, the command the SMU latched, and the call's `calm`. */
  datatype Latch = Latch(ticket: nat, req: Request, mbox: Mbox, cmd: Cmd, calm: bool)

  /** Where a process is inside the call. `Setup`, `Ring`, `Wait`, `Verify` and `ReadBack` access a register. */
  datatype Pc =
    | Idle
    | Locking
    | Raw                 // lock held, about to give the request to the driver's own transaction interface
    | Declined            // there is no such interface, or it refused the mailbox with EINVAL
    | Submitted(taken: bool) // the driver has the request, or failed so that nobody knows whether it ran
    | TakeError           // drop a stale I/O error before the first write
    | Setup(k: nat)       // clear the response, then the argument writes
    | Verify              // smu_service_test only: read arg0 back
    | Check               // smu_service_req only: any setup write failed?
    | Ring                // write the message id
    | Wait                // read the response register
    | Polled              // the response register read 0: poll again or give up
    | ReadBack(i: nat)    // read the result registers
    | Finish              // smu_service_req: any access failed?
    | Drop                // smu_service_test: drop the I/O error
    | Unlocking

  /** History: how far the call got. */
  datatype Via = Refused | Aborted | Driver | Registers | Died

  datatype Proc = Proc(
    pc: Pc,
    half: bool,           // the address of the current two-step access is selected
    err: bool,            // smn_io_error of this process
    ticket: nat,          // number of the current call
    req: Request,
    resp: Word,
    rets: seq<Word>,      // results read back so far
    mine: Option<nat>,    // history: which log entry this call produced
    via: Via,
    calm: bool,           // history: nothing was pending on the mailbox when the lock was taken
    lost: map<nat, Word>) // history: reads that failed unnoticed, and what they returned instead

  /** Keys of `lost`: 0 to 5 for the results, and this one for the response. */
  const RESPONSE: nat := 6

  /** What libpci returns for a failed read. */
  const ALL_ONES: Word := 0xFFFF_FFFF

  /** A call that is over, in the order the calls ended; one that ended with its process has no response. */
  datatype Tx = Tx(
    ticket: nat, pid: Pid, req: Request, resp: Word, rets: seq<Word>, sent: Option<nat>, via: Via,
    calm: bool, lost: map<nat, Word>)

  datatype State = State(
    regs: map<Word, Word>,
    sel: Word,                 // the globally selected address
    lock: Option<Pid>,
    procs: map<Pid, Proc>,
    log: seq<Latch>,           // every command latched so far
    answers: map<nat, Reply>,  // answers the SMU has given, by log index
    nextTicket: nat,
    done: seq<Tx>,
    order: seq<nat>)           // history: the calls that took the lock, in that order

  function Read(regs: map<Word, Word>, a: Word): Word {
    if a in regs then regs[a] else 0
  }

  /** The command at `i` has been latched and the SMU has not answered it. */
  predicate Open(s: State, i: nat) {
    i < |s.log| && i !in s.answers
  }

  predicate Quiet(s: State, mbox: Mbox) {
    forall i | 0 <= i < |s.log| :: s.log[i].mbox == mbox ==> i in s.answers
  }

  /** Holding the lock (or proceeding as if it were held). */
  predicate InCritical(pc: Pc) {
    pc != Idle && pc != Locking
  }

  // ---------------------------------------------------------------- register accesses

  datatype Access = NoAccess | WriteAcc(reg: Reg, value: Word) | ReadAcc(reg: Reg)

  /** smu_service_req clears the response and writes six arguments, smu_service_test only one. */
  function SetupLen(kind: Kind): nat {
    if kind == Req then 7 else 2
  }

  function SetupReg(k: nat): Reg {
    if k == 0 then Rep else Arg(k - 1)
  }

  function SetupValue(req: Request, k: nat): Word
    requires k < 7
  {
    if k == 0 then 0 else req.args[k - 1]
  }

  function CurrentAccess(pr: Proc): Access {
    match pr.pc
    case Setup(k) => if k < 7 then WriteAcc(SetupReg(k), SetupValue(pr.req, k)) else NoAccess
    case Ring => WriteAcc(Msg, pr.req.id)
    case Verify => ReadAcc(Arg(0))
    case Wait => ReadAcc(Rep)
    case ReadBack(i) => if i < 6 then ReadAcc(Arg(i)) else NoAccess
    case _ => NoAccess
  }

  function AfterWrite(pr: Proc): Proc {
    match pr.pc
    case Setup(k) =>
      if k + 1 < SetupLen(pr.req.kind) then pr.(pc := Setup(k + 1), half := false)
      else pr.(pc := if pr.req.kind == Req then Check else Verify, half := false)
    case _ => pr.(pc := Wait, half := false)
  }

  function AfterRead(pr: Proc, v: Word): Proc {
    match pr.pc
    case Verify =>
      if v == TEST_ARG then pr.(pc := Ring, half := false)
      else pr.(pc := Unlocking, half := false, resp := 0, via := Aborted)
    case Wait =>
      if v == REP_TIMEOUT then pr.(pc := Polled, half := false)
      else pr.(pc := if pr.req.kind == Req then ReadBack(0) else Drop, half := false, resp := v, rets := [])
    case ReadBack(i) =>
      pr.(pc := if i + 1 < 6 then ReadBack(i + 1) else Finish, half := false, rets := pr.rets + [v])
    case _ => pr
  }

  // ---------------------------------------------------------------- actions

  /** What the driver's write() of the request returned: only in the first two cases it certainly did not run. */
  datatype RawOutcome = NoInterface | Invalid | Broken | Taken

  /** What the driver's read() of its result slot returned, if the write got that far. */
  datatype RawResult = WriteFailed | ReadFailed(again: bool) | Got(words: seq<Word>)

  /** Whether the driver rang the doorbell for us, and whether the SMU answered it. */
  datatype RawEffect = NotRun | RanUnanswered | RanAnswered(reply: Reply)

  /** Steps that change only the process itself and the selected address. */
  datatype Step =
    | Fallback                           // on to the registers
    | Take                               // look at smn_io_error
    | Select(ok: bool, landed: bool)     // first half of a two-step access
    | ReadData(ok: bool)                 // second half of a read
    | ReadLost(v: Word)                  // second half of a read that failed unnoticed
    | ReadError                          // the driver call for a read failed: 0 is returned
    | Repoll
    | GiveUp

  /** A register write: the data half of a two-step access, or a single driver call. */
  datatype Store = DataHalf(ok: bool, landed: bool) | Whole(ok: bool, landed: bool, sel: Word)

  datatype Action =
    | Start(p: Pid, req: Request)
    | LockOk(p: Pid)
    | LockTimeout(p: Pid)
    | LockSkip(p: Pid)                   // flock unsupported: run unlocked
    | Die(p: Pid)                        // the process ends inside the call; the kernel drops its lock
    | RawWrite(p: Pid, outcome: RawOutcome, effect: RawEffect, regs: map<Word, Word>, sel: Word)
    | RawRead(p: Pid, result: RawResult)
    | Local(p: Pid, step: Step)
    | Write(p: Pid, store: Store)
    | Unlock(p: Pid)
    | Answer(i: nat, reply: Reply)       // the SMU answers a latched command

  /** The response the library reports for a driver result (SMU_Return values 0xFB.. are the driver's own). */
  function RawResponse(result: RawResult): Word {
    match result
    case WriteFailed => REP_FAILED
    case ReadFailed(again) => if again then REP_REJECTED_BUSY else REP_FAILED
    case Got(w) =>
      if |w| != 7 then REP_FAILED
      else if w[0] in {REP_OK, REP_FAILED, REP_UNKNOWN_CMD, REP_REJECTED_PREREQ, REP_REJECTED_BUSY} then w[0]
      else if w[0] == 0xFB then REP_TIMEOUT
      else REP_FAILED
  }

  /** The arguments are overwritten only when the driver reports success. */
  function RawRets(req: Request, result: RawResult): seq<Word> {
    if result.Got? && |result.words| == 7 && result.words[0] == REP_OK then result.words[1..] else req.args
  }

  /**
   The contract of the driver interface: a success result is the SMU's own answer to the
   command it was asked to run.
   */
  predicate RawContract(taken: bool, answers: map<nat, Reply>, sent: Option<nat>, result: RawResult) {
    && (result.WriteFailed? <==> !taken)
    && (result.Got? ==> |result.words| == 7)
    && (result.Got? && result.words[0] == REP_OK ==>
          sent.Some? && sent.value in answers && answers[sent.value] == Reply(REP_OK, result.words[1..]))
  }

  /** The request certainly did not run. */
  predicate Refuses(outcome: RawOutcome) {
    outcome.NoInterface? || outcome.Invalid?
  }

  predicate StepEnabled(pr: Proc, step: Step) {
    match step
    case Fallback => pr.pc == Declined
    case Take => pr.pc in {TakeError, Check, Finish, Drop}
    case Select(_, _) => CurrentAccess(pr) != NoAccess && !pr.half
    case ReadData(_) | ReadLost(_) => CurrentAccess(pr).ReadAcc? && pr.half
    case ReadError => CurrentAccess(pr).ReadAcc? && !pr.half
    case Repoll => pr.pc == Polled
    case GiveUp => pr.pc == Polled
  }

  /**
   Which accesses a backend makes. The driver writes address and data in one call, reports
   every failure, and does not read after a failed select. Through PCI configuration space all
   accesses have two halves, reading goes on after a failed select, and a failed data read is
   not reported.
   */
  predicate StepFits(mapped: bool, pr: Proc, step: Step) {
    match step
    case Select(ok, _) => mapped || (ok && CurrentAccess(pr).ReadAcc?)
    case ReadData(ok) => ok || !mapped
    case ReadLost(_) => mapped
    case ReadError => !mapped
    case _ => true
  }

  /** Steps that only the holder of the lock takes, between lock and unlock. */
  predicate Inside(a: Action) {
    a.RawWrite? || a.RawRead? || a.Local? || a.Write?
  }

  predicate StoreEnabled(pr: Proc, store: Store) {
    CurrentAccess(pr).WriteAcc? && pr.half == store.DataHalf?
  }

  predicate Enabled(cfg: Config, s: State, a: Action) {
    match a
    case Answer(i, reply) => Open(s, i) && reply.rsp != REP_TIMEOUT
    case Start(p, req) =>
      p in s.procs && s.procs[p].pc == Idle && (req.kind == Test ==> req == TestRequest(req.mbox))
    case LockOk(p) => p in s.procs && s.procs[p].pc == Locking && cfg.flock(p) && s.lock == None
    case LockTimeout(p) => p in s.procs && s.procs[p].pc == Locking && cfg.flock(p)
    case LockSkip(p) => p in s.procs && s.procs[p].pc == Locking && !cfg.flock(p)
    case RawWrite(p, outcome, effect, _, _) =>
      && p in s.procs && s.procs[p].pc == Raw
      && (outcome.NoInterface? <==> !cfg.HasTransactions(p)) && (Refuses(outcome) ==> effect.NotRun?)
    case RawRead(p, result) =>
      && p in s.procs && s.procs[p].pc.Submitted?
      && RawContract(s.procs[p].pc.taken, s.answers, s.procs[p].mine, result)
    case Local(p, step) => p in s.procs && StepEnabled(s.procs[p], step) && StepFits(cfg.Mapped(p), s.procs[p], step)
    case Write(p, store) => p in s.procs && StoreEnabled(s.procs[p], store) && store.Whole? == !cfg.Mapped(p)
    case Unlock(p) => p in s.procs && s.procs[p].pc == Unlocking
    case Die(p) => p in s.procs && InCritical(s.procs[p].pc)
  }

  /** Store `value` at `addr`; storing to a doorbell register makes the SMU latch a command. */
  function Poke(cfg: Config, s: State, p: Pid, addr: Word, value: Word): State
    requires p in s.procs
  {
    var s1 := s.(regs := s.regs[addr := value]);
    if addr == cfg.addr(MP1, Msg) then Latched(cfg, s1, p, MP1, value)
    else if addr == cfg.addr(PSMU, Msg) then Latched(cfg, s1, p, PSMU, value)
    else s1
  }

  /** The id and the six argument registers are taken at the doorbell. */
  function Latched(cfg: Config, s: State, p: Pid, mbox: Mbox, id: Word): State
    requires p in s.procs
  {
    var pr := s.procs[p];
    s.(log := s.log + [Latch(pr.ticket, pr.req, mbox, Cmd(id, ArgRegs(cfg, s.regs, mbox)), pr.calm)],
       procs := s.procs[p := pr.(mine := Some(|s.log|))])
  }

  function ArgRegs(cfg: Config, regs: map<Word, Word>, mbox: Mbox): Args {
    [Read(regs, cfg.addr(mbox, Arg(0))), Read(regs, cfg.addr(mbox, Arg(1))), Read(regs, cfg.addr(mbox, Arg(2))),
     Read(regs, cfg.addr(mbox, Arg(3))), Read(regs, cfg.addr(mbox, Arg(4))), Read(regs, cfg.addr(mbox, Arg(5)))]
  }

  /** The SMU's answer appears in the argument and response registers of its mailbox. */
  function PostReply(cfg: Config, regs: map<Word, Word>, mbox: Mbox, reply: Reply): map<Word, Word> {
    regs[cfg.addr(mbox, Arg(0)) := reply.results[0]]
        [cfg.addr(mbox, Arg(1)) := reply.results[1]]
        [cfg.addr(mbox, Arg(2)) := reply.results[2]]
        [cfg.addr(mbox, Arg(3)) := reply.results[3]]
        [cfg.addr(mbox, Arg(4)) := reply.results[4]]
        [cfg.addr(mbox, Arg(5)) := reply.results[5]]
        [cfg.addr(mbox, Rep) := reply.rsp]
  }

  function SetProc(s: State, p: Pid, pr: Proc): State {
    s.(procs := s.procs[p := pr])
  }

  /** The call returns: its record is appended and the process is idle again. */
  function Complete(s: State, p: Pid, resp: Word, rets: seq<Word>): State
    requires p in s.procs
  {
    var pr := s.procs[p];
    SetProc(s, p, pr.(pc := Idle, half := false, mine := None))
    .(done := s.done + [Tx(pr.ticket, p, pr.req, resp, rets, pr.mine, pr.via, pr.calm, pr.lost)])
  }

  /** The end of a call of `p` in `s`: `t`, with the lock released if `p` had it. */
  function Release(s: State, p: Pid, t: State): State {
    if s.lock == Some(p) then t.(lock := None) else t
  }

  /** A process that ended inside a call; whoever gets its number next starts without an error flag. */
  function Dead(pr: Proc): Proc {
    pr.(via := Died, half := false, err := false)
  }

  /** Reads select the word containing the address; the low two bits are dropped. */
  function SelectTarget(cfg: Config, pr: Proc): Word {
    match CurrentAccess(pr)
    case WriteAcc(reg, _) => cfg.addr(pr.req.mbox, reg)
    case ReadAcc(reg) => var a := cfg.addr(pr.req.mbox, reg); a - a % 4
    case NoAccess => 0
  }

  /** smn_io_take_error at each of the places that look at the flag. */
  function TakeFlag(pr: Proc): Proc {
    match pr.pc
    case TakeError => pr.(pc := Setup(0), err := false)
    case Check =>
      if pr.err then pr.(pc := Unlocking, err := false, resp := REP_FAILED, rets := pr.req.args, via := Aborted)
      else pr.(pc := Ring)
    case Finish =>
      pr.(pc := Unlocking, err := false, resp := if pr.err && pr.resp == REP_OK then REP_FAILED else pr.resp)
    case _ => pr.(pc := Unlocking, err := false)
  }

  function RawLatch(s: State, p: Pid, effect: RawEffect): State
    requires p in s.procs
  {
    var pr := s.procs[p];
    if effect == NotRun then s
    else
      var s1 := s.(log := s.log + [Latch(pr.ticket, pr.req, pr.req.mbox, Cmd(pr.req.id, pr.req.args), pr.calm)],
                   procs := s.procs[p := pr.(mine := Some(|s.log|))]);
      if effect.RanAnswered? then s1.(answers := s.answers[|s.log| := effect.reply]) else s1
  }

  /** A read that failed unnoticed is put on record. */
  function Lose(pr: Proc, v: Word): Proc {
    match pr.pc
    case Wait => pr.(lost := map[RESPONSE := v])
    case ReadBack(i) => pr.(lost := pr.lost[i := v])
    case _ => pr
  }

  /** The process after a private step; `v` is the content of the selected register. */
  function StepProc(pr: Proc, step: Step, v: Word): Proc {
    match step
    case Fallback => pr.(pc := if pr.req.kind == Req then TakeError else Setup(0), via := Registers)
    case Take => TakeFlag(pr)
    case Select(ok, _) =>
      if ok then pr.(half := true)
      else if CurrentAccess(pr).WriteAcc? then AfterWrite(pr.(err := true))
      else pr.(half := true, err := true)
    case ReadData(ok) => if ok then AfterRead(pr, v) else AfterRead(pr.(err := true), 0)
    case ReadLost(w) => AfterRead(Lose(pr, w), w)
    case ReadError => AfterRead(pr.(err := true), 0)
    case Repoll => pr.(pc := Wait, lost := map[])
    case GiveUp => pr.(pc := Unlocking, err := false, resp := REP_TIMEOUT, rets := pr.req.args)
  }

  function StepSel(cfg: Config, pr: Proc, step: Step, sel: Word): Word {
    if step.Select? && (step.ok || step.landed) then SelectTarget(cfg, pr) else sel
  }

  /** A store goes to whatever address is selected, unless address and data travel together. */
  function StoreAddr(cfg: Config, s: State, p: Pid, store: Store): Word
    requires p in s.procs && CurrentAccess(s.procs[p]).WriteAcc?
  {
    if store.DataHalf? then s.sel else cfg.addr(s.procs[p].req.mbox, CurrentAccess(s.procs[p]).reg)
  }

  function ApplyStore(cfg: Config, s: State, p: Pid, store: Store): State
    requires p in s.procs && CurrentAccess(s.procs[p]).WriteAcc?
  {
    var s1 := if store.ok || store.landed
              then Poke(cfg, s, p, StoreAddr(cfg, s, p, store), CurrentAccess(s.procs[p]).value)
              else s;
    SetProc(s1, p, AfterWrite(s1.procs[p].(err := s1.procs[p].err || !store.ok)))
    .(sel := if store.Whole? then store.sel else s1.sel)
  }

  function ApplyRaw(s: State, p: Pid, outcome: RawOutcome, effect: RawEffect, regs: map<Word, Word>, sel: Word): State
    requires p in s.procs
  {
    if Refuses(outcome) then SetProc(s, p, s.procs[p].(pc := Declined))
    else
      var s1 := RawLatch(s, p, effect);
      SetProc(s1, p, s1.procs[p].(pc := Submitted(outcome.Taken?), via := Driver, lost := map[]))
      .(regs := regs, sel := sel)
  }

  function Begin(s: State, p: Pid, req: Request): State
    requires p in s.procs
  {
    SetProc(s, p, s.procs[p].(pc := Locking, half := false, ticket := s.nextTicket, req := req,
                              resp := 0, rets := req.args, mine := None, via := Refused,
                              calm := false, lost := map[]))
    .(nextTicket := s.nextTicket + 1)
  }

  /** The call of `p` goes on inside the lock, or as if it had it. */
  function EnterLock(s: State, p: Pid): State
    requires p in s.procs
  {
    var pr := s.procs[p];
    SetProc(s, p, pr.(pc := Raw, calm := Quiet(s, pr.req.mbox))).(order := s.order + [pr.ticket])
  }

  function Apply(cfg: Config, s: State, a: Action): State
    requires Enabled(cfg, s, a)
  {
    match a
    case Answer(i, reply) =>
      s.(answers := s.answers[i := reply], regs := PostReply(cfg, s.regs, s.log[i].mbox, reply))
    case Start(p, req) => Begin(s, p, req)
    case LockOk(p) => EnterLock(s, p).(lock := Some(p))
    case LockTimeout(p) => Complete(s, p, REP_REJECTED_BUSY, s.procs[p].req.args)
    case LockSkip(p) => EnterLock(s, p)
    case RawWrite(p, outcome, effect, regs, sel) => ApplyRaw(s, p, outcome, effect, regs, sel)
    case RawRead(p, result) =>
      SetProc(s, p, s.procs[p].(pc := Unlocking, resp := RawResponse(result), rets := RawRets(s.procs[p].req, result)))
    case Local(p, step) =>
      SetProc(s, p, StepProc(s.procs[p], step, Read(s.regs, s.sel)))
      .(sel := StepSel(cfg, s.procs[p], step, s.sel))
    case Write(p, store) => ApplyStore(cfg, s, p, store)
    case Unlock(p) =>
      Release(s, p, Complete(s, p, s.procs[p].resp, s.procs[p].rets))
    case Die(p) =>
      Release(s, p, Complete(SetProc(s, p, Dead(s.procs[p])), p, REP_TIMEOUT, s.procs[p].req.args))
  }

  ghost predicate Init(s: State) {
    && s.lock == None && s.log == [] && s.answers == map[] && s.done == [] && s.nextTicket == 0 && s.order == []
    && forall p | p in s.procs :: s.procs[p].pc == Idle && s.procs[p].mine == None && s.procs[p].lost == map[]
  }

  /** `ss` is a run of the machine: `acts[i]` takes `ss[i]` to `ss[i + 1]`. */
  ghost predicate Run(cfg: Config, ss: seq<State>, acts: seq<Action>) {
    && |ss| == |acts| + 1
    && Init(ss[0])
    && forall i | 0 <= i < |acts| :: StepBy(cfg, ss[i], acts[i], ss[i + 1])
  }

  ghost predicate StepBy(cfg: Config, s: State, a: Action, t: State) {
    Enabled(cfg, s, a) && t == Apply(cfg, s, a)
  }
}
