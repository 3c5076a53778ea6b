/**
 What the advisory lock gives on every run where flock works, whatever fails and however
 the processes interleave: one process at a time touches the registers, every exit releases
 the lock, and one call makes the SMU run at most one command.
 */
module MailboxSafety {
  import opened Words
  import opened SmuLayout
  import opened MailboxProtocol

  /** The program points a call of each kind goes through. */
  predicate Shape(pr: Proc) {
    match pr.pc
    case Setup(k) => k < SetupLen(pr.req.kind)
    case ReadBack(i) => i < 6 && pr.req.kind == Req
    case TakeError | Check | Finish => pr.req.kind == Req
    case Verify | Drop => pr.req.kind == Test
    case _ => true
  }

  /** Program points before the doorbell write. */
  predicate BeforeRing(pc: Pc) {
    pc.Raw? || pc.Declined? || pc.TakeError? || pc.Setup? || pc.Verify? || pc.Check? || pc.Ring?
  }

  ghost predicate Mutex(s: State) {
    && (s.lock.Some? ==> s.lock.value in s.procs)
    && forall p | p in s.procs :: InCritical(s.procs[p].pc) <==> s.lock == Some(p)
  }

  predicate AtMostOnce(log: seq<Latch>) {
    forall i, j | 0 <= i < j < |log| :: log[i].ticket != log[j].ticket
  }

  ghost predicate Tickets(s: State) {
    && (forall p | p in s.procs && s.procs[p].pc != Idle :: s.procs[p].ticket < s.nextTicket)
    && (forall p, q | p in s.procs && q in s.procs && p != q && s.procs[p].pc != Idle && s.procs[q].pc != Idle ::
          s.procs[p].ticket != s.procs[q].ticket)
    && (forall i | 0 <= i < |s.log| :: s.log[i].ticket < s.nextTicket)
    && (forall p, i | p in s.procs && s.procs[p].pc != Idle && s.procs[p].mine == None && 0 <= i < |s.log| ::
          s.log[i].ticket != s.procs[p].ticket)
    && (forall p | p in s.procs && !InCritical(s.procs[p].pc) ::
          s.procs[p].mine == None && (s.procs[p].pc == Locking ==> !s.procs[p].half && s.procs[p].lost == map[]))
    && AtMostOnce(s.log)
  }

  /** What is true of the process that holds the lock, given the selected address... */
  ghost predicate HolderProc(cfg: Config, pr: Proc, sel: Word) {
    && Shape(pr)
    && InCritical(pr.pc)
    && (pr.half ==> CurrentAccess(pr) != NoAccess)
    && (pr.half ==> sel == SelectTarget(cfg, pr) || (CurrentAccess(pr).ReadAcc? && pr.err))
    && (pr.via == Aborted ==> pr.mine == None && pr.pc == Unlocking)
    && (pr.via == Refused ==> pr.pc == Raw || pr.pc == Declined)
    && (BeforeRing(pr.pc) ==> pr.mine == None)
  }

  /** ... and given what the SMU has latched: the holder's own command, if any, is the last one. */
  ghost predicate HolderLog(log: seq<Latch>, pr: Proc) {
    pr.mine.Some? ==>
      && 0 < |log| && pr.mine.value == |log| - 1
      && log[|log| - 1].ticket == pr.ticket && log[|log| - 1].req == pr.req
      && log[|log| - 1].mbox == pr.req.mbox && log[|log| - 1].calm == pr.calm
  }

  ghost predicate Holder(cfg: Config, s: State, p: Pid)
    requires p in s.procs
  {
    HolderProc(cfg, s.procs[p], s.sel) && HolderLog(s.log, s.procs[p])
  }

  ghost predicate AnswersKnown(s: State) {
    forall i | i in s.answers :: i < |s.log|
  }

  /** The record of a finished call points at the log entry of the same call. */
  predicate SentMatches(log: seq<Latch>, tx: Tx) {
    tx.sent.Some? ==>
      && tx.sent.value < |log|
      && log[tx.sent.value].ticket == tx.ticket && log[tx.sent.value].req == tx.req
      && log[tx.sent.value].calm == tx.calm
  }

  /** The records of finished calls agree with the log. */
  ghost predicate Records(s: State) {
    && (forall k | 0 <= k < |s.done| :: s.done[k].ticket < s.nextTicket)
    && (forall k, i | 0 <= k < |s.done| && s.done[k].sent == None && 0 <= i < |s.log| ::
          s.log[i].ticket != s.done[k].ticket)
    && (forall k, p | 0 <= k < |s.done| && p in s.procs && s.procs[p].pc != Idle ::
          s.procs[p].ticket != s.done[k].ticket)
    && (forall k | 0 <= k < |s.done| :: s.done[k].via == Refused || s.done[k].via == Aborted ==> s.done[k].sent == None)
    && (forall p | p in s.procs && s.procs[p].pc == Locking :: s.procs[p].via == Refused)
    && (forall k | 0 <= k < |s.done| :: SentMatches(s.log, s.done[k]))
  }

  ghost predicate LockInv(cfg: Config, s: State) {
    && Mutex(s)
    && Tickets(s)
    && AnswersKnown(s)
    && Records(s)
    && (s.lock.Some? ==> Holder(cfg, s, s.lock.value))
  }

  // ---------------------------------------------------------------- private steps

  /** Completing a read, whatever was read and whether or not the failure was noticed. */
  lemma AfterReadKeeps(cfg: Config, pr: Proc, q: Proc, v: Word, sel: Word)
    requires HolderProc(cfg, pr, sel) && CurrentAccess(pr).ReadAcc?
    requires q == pr.(err := q.err, lost := q.lost) && (pr.err ==> q.err)
    ensures HolderProc(cfg, AfterRead(q, v), sel)
    ensures AfterRead(q, v).ticket == pr.ticket && AfterRead(q, v).req == pr.req
    ensures AfterRead(q, v).mine == pr.mine && AfterRead(q, v).calm == pr.calm
  {
  }

  /** Looking at the error flag. */
  lemma TakeFlagKeeps(cfg: Config, pr: Proc, sel: Word)
    requires HolderProc(cfg, pr, sel) && pr.pc in {TakeError, Check, Finish, Drop}
    ensures HolderProc(cfg, TakeFlag(pr), sel)
    ensures TakeFlag(pr).ticket == pr.ticket && TakeFlag(pr).req == pr.req
    ensures TakeFlag(pr).mine == pr.mine && TakeFlag(pr).calm == pr.calm
  {
  }

  lemma StepProcKeeps(cfg: Config, pr: Proc, step: Step, v: Word, sel: Word)
    requires HolderProc(cfg, pr, sel) && StepEnabled(pr, step)
    ensures HolderProc(cfg, StepProc(pr, step, v), StepSel(cfg, pr, step, sel))
    ensures StepProc(pr, step, v).ticket == pr.ticket && StepProc(pr, step, v).req == pr.req
    ensures StepProc(pr, step, v).mine == pr.mine && StepProc(pr, step, v).calm == pr.calm
  {
    match step
    case ReadData(ok) => AfterReadKeeps(cfg, pr, if ok then pr else pr.(err := true), if ok then v else 0, sel);
    case ReadLost(w) => AfterReadKeeps(cfg, pr, Lose(pr, w), w, sel);
    case ReadError => AfterReadKeeps(cfg, pr, pr.(err := true), 0, sel);
    case Take => TakeFlagKeeps(cfg, pr, sel);
    case _ =>
    hide AfterRead;
    hide TakeFlag;
    hide Lose;
  }

  /** A step of the holder `p` that leaves log, lock and other processes alone. */
  ghost predicate SilentStep(s: State, t: State, p: Pid) {
    && p in s.procs && p in t.procs
    && t.procs == s.procs[p := t.procs[p]]
    && t.procs[p].ticket == s.procs[p].ticket && t.procs[p].req == s.procs[p].req
    && t.procs[p].mine == s.procs[p].mine && t.procs[p].calm == s.procs[p].calm
    && t.lock == s.lock && t.log == s.log && t.answers == s.answers && t.nextTicket == s.nextTicket
    && t.done == s.done && t.order == s.order
  }

  lemma SilentStepKeeps(cfg: Config, s: State, t: State, p: Pid)
    requires LockInv(cfg, s) && SilentStep(s, t, p) && s.lock == Some(p)
    requires HolderProc(cfg, t.procs[p], t.sel)
    ensures LockInv(cfg, t)
  {
    assert HolderLog(s.log, s.procs[p]);
    assert InCritical(s.procs[p].pc);
  }

  lemma LocalKeeps(cfg: Config, s: State, p: Pid, step: Step)
    requires LockInv(cfg, s) && s.lock == Some(p) && Enabled(cfg, s, Local(p, step))
    ensures LockInv(cfg, Apply(cfg, s, Local(p, step)))
  {
    assert Holder(cfg, s, p);
    StepProcKeeps(cfg, s.procs[p], step, Read(s.regs, s.sel), s.sel);
    SilentStepKeeps(cfg, s, Apply(cfg, s, Local(p, step)), p);
  }

  // ---------------------------------------------------------------- register writes

  lemma AfterWriteKeeps(cfg: Config, pr: Proc, sel: Word, sel': Word, ok: bool)
    requires HolderProc(cfg, pr, sel) && CurrentAccess(pr).WriteAcc?
    ensures HolderProc(cfg, AfterWrite(pr.(err := pr.err || !ok)), sel')
  {
  }

  /** The holder's data half goes to the register it selected. */
  lemma StoreAddrIsOwn(cfg: Config, s: State, p: Pid, store: Store)
    requires p in s.procs && HolderProc(cfg, s.procs[p], s.sel) && StoreEnabled(s.procs[p], store)
    ensures StoreAddr(cfg, s, p, store) == cfg.addr(s.procs[p].req.mbox, CurrentAccess(s.procs[p]).reg)
    ensures IsReg(CurrentAccess(s.procs[p]).reg)
    ensures CurrentAccess(s.procs[p]).reg == Msg <==> s.procs[p].pc == Ring
  {
  }

  /** The state after a setup write, or a write that did not reach the register. */
  function Stored(cfg: Config, s: State, p: Pid, store: Store): State
    requires p in s.procs && CurrentAccess(s.procs[p]).WriteAcc?
  {
    var pr := s.procs[p];
    var regs := if store.ok || store.landed
                then s.regs[cfg.addr(pr.req.mbox, CurrentAccess(pr).reg) := CurrentAccess(pr).value] else s.regs;
    s.(regs := regs, sel := if store.Whole? then store.sel else s.sel,
       procs := s.procs[p := AfterWrite(pr.(err := pr.err || !store.ok))])
  }

  /** The state after a doorbell write that reached the register. */
  function Rung(cfg: Config, s: State, p: Pid, store: Store): State
    requires p in s.procs
  {
    var pr := s.procs[p];
    var regs := s.regs[cfg.addr(pr.req.mbox, Msg) := pr.req.id];
    s.(regs := regs, sel := if store.Whole? then store.sel else s.sel,
       log := s.log + [Latch(pr.ticket, pr.req, pr.req.mbox, Cmd(pr.req.id, ArgRegs(cfg, regs, pr.req.mbox)), pr.calm)],
       procs := s.procs[p := pr.(mine := Some(|s.log|), err := pr.err || !store.ok, pc := Wait, half := false)])
  }

  predicate Rings(pr: Proc, store: Store) {
    pr.pc == Ring && (store.ok || store.landed)
  }

  lemma PokeRings(cfg: Config, s: State, p: Pid)
    requires ValidConfig(cfg) && p in s.procs
    ensures
      var pr := s.procs[p];
      var regs := s.regs[cfg.addr(pr.req.mbox, Msg) := pr.req.id];
      Poke(cfg, s, p, cfg.addr(pr.req.mbox, Msg), pr.req.id) ==
      s.(regs := regs,
         log := s.log + [Latch(pr.ticket, pr.req, pr.req.mbox, Cmd(pr.req.id, ArgRegs(cfg, regs, pr.req.mbox)), pr.calm)],
         procs := s.procs[p := pr.(mine := Some(|s.log|))])
  {
    assert IsReg(Msg);
  }

  lemma RingMeaning(cfg: Config, s: State, p: Pid, store: Store)
    requires ValidConfig(cfg) && p in s.procs && HolderProc(cfg, s.procs[p], s.sel)
    requires StoreEnabled(s.procs[p], store) && Rings(s.procs[p], store)
    ensures ApplyStore(cfg, s, p, store) == Rung(cfg, s, p, store)
  {
    StoreAddrIsOwn(cfg, s, p, store);
    assert IsReg(Msg);
    PokeRings(cfg, s, p);
    var t := ApplyStore(cfg, s, p, store);
    hide Poke;
    assert t.procs == Rung(cfg, s, p, store).procs;
  }

  lemma StoredMeaning(cfg: Config, s: State, p: Pid, store: Store)
    requires ValidConfig(cfg) && p in s.procs && HolderProc(cfg, s.procs[p], s.sel)
    requires StoreEnabled(s.procs[p], store) && !Rings(s.procs[p], store)
    ensures ApplyStore(cfg, s, p, store) == Stored(cfg, s, p, store)
  {
    StoreAddrIsOwn(cfg, s, p, store);
    assert IsReg(Msg);
    if store.ok || store.landed {
      var addr := StoreAddr(cfg, s, p, store);
      assert addr != cfg.addr(MP1, Msg) && addr != cfg.addr(PSMU, Msg);
    }
  }

  /** A step in which the holder `p` makes the SMU latch one command. */
  ghost predicate LatchStep(s: State, t: State, p: Pid, e: Latch) {
    && p in s.procs && p in t.procs
    && t.procs == s.procs[p := t.procs[p]]
    && s.procs[p].mine == None
    && t.procs[p].ticket == s.procs[p].ticket && t.procs[p].req == s.procs[p].req
    && t.procs[p].mine == Some(|s.log|) && t.procs[p].calm == s.procs[p].calm && e.calm == s.procs[p].calm
    && t.log == s.log + [e]
    && e.ticket == s.procs[p].ticket && e.req == s.procs[p].req && e.mbox == s.procs[p].req.mbox
    && t.lock == s.lock && t.nextTicket == s.nextTicket && t.done == s.done && t.order == s.order
    && (forall i | i in t.answers :: i in s.answers || i == |s.log|)
  }

  lemma LatchStepTickets(s: State, t: State, p: Pid, e: Latch)
    requires Tickets(s) && LatchStep(s, t, p, e) && InCritical(s.procs[p].pc) && InCritical(t.procs[p].pc)
    ensures Tickets(t)
  {
    hide AfterRead;
    assert AtMostOnce(t.log);
  }

  lemma LatchStepRecords(s: State, t: State, p: Pid, e: Latch)
    requires Tickets(s) && Records(s) && LatchStep(s, t, p, e)
    requires InCritical(s.procs[p].pc) && InCritical(t.procs[p].pc)
    ensures Records(t)
  {
  }

  lemma LatchStepKeeps(cfg: Config, s: State, t: State, p: Pid, e: Latch)
    requires LockInv(cfg, s) && LatchStep(s, t, p, e) && s.lock == Some(p)
    requires HolderProc(cfg, t.procs[p], t.sel)
    ensures LockInv(cfg, t)
  {
    assert InCritical(s.procs[p].pc);
    LatchStepTickets(s, t, p, e);
    LatchStepRecords(s, t, p, e);
  }

  lemma RingKeeps(cfg: Config, s: State, p: Pid, store: Store)
    requires LockInv(cfg, s) && s.lock == Some(p) && s.procs[p].pc == Ring
    ensures LockInv(cfg, Rung(cfg, s, p, store))
  {
    assert Holder(cfg, s, p);
    var t := Rung(cfg, s, p, store);
    LatchStepKeeps(cfg, s, t, p, t.log[|s.log|]);
  }

  lemma StoredKeeps(cfg: Config, s: State, p: Pid, store: Store)
    requires LockInv(cfg, s) && s.lock == Some(p) && CurrentAccess(s.procs[p]).WriteAcc?
    ensures LockInv(cfg, Stored(cfg, s, p, store))
  {
    hide Tickets;
    hide Shape;
    hide Records;
    assert Holder(cfg, s, p);
    AfterWriteKeeps(cfg, s.procs[p], s.sel, Stored(cfg, s, p, store).sel, store.ok);
    SilentStepKeeps(cfg, s, Stored(cfg, s, p, store), p);
  }

  lemma WriteKeeps(cfg: Config, s: State, p: Pid, store: Store)
    requires ValidConfig(cfg) && LockInv(cfg, s) && s.lock == Some(p) && StoreEnabled(s.procs[p], store)
    ensures LockInv(cfg, ApplyStore(cfg, s, p, store))
  {
    assert Holder(cfg, s, p);
    if Rings(s.procs[p], store) {
      RingMeaning(cfg, s, p, store);
      RingKeeps(cfg, s, p, store);
    } else {
      StoredMeaning(cfg, s, p, store);
      StoredKeeps(cfg, s, p, store);
    }
  }

  // ---------------------------------------------------------------- the other steps

  /** The driver does not run the command, or reports what came of it. */
  lemma RawSilentKeeps(cfg: Config, s: State, a: Action)
    requires a.RawRead? || (a.RawWrite? && a.effect == NotRun)
    requires LockInv(cfg, s) && Enabled(cfg, s, a) && s.lock == Some(a.p)
    ensures LockInv(cfg, Apply(cfg, s, a))
  {
    assert Holder(cfg, s, a.p);
    SilentStepKeeps(cfg, s, Apply(cfg, s, a), a.p);
  }

  /** The driver runs the command: one log entry of the holder's own mailbox. */
  lemma RawLatches(cfg: Config, s: State, a: Action)
    requires a.RawWrite? && a.effect != NotRun && Enabled(cfg, s, a)
    requires HolderProc(cfg, s.procs[a.p], s.sel)
    ensures
      var t := Apply(cfg, s, a);
      var pr := s.procs[a.p];
      && |t.log| == |s.log| + 1
      && t.log[|s.log|] == Latch(pr.ticket, pr.req, pr.req.mbox, Cmd(pr.req.id, pr.req.args), pr.calm)
      && LatchStep(s, t, a.p, t.log[|s.log|])
      && HolderProc(cfg, t.procs[a.p], t.sel)
  {
    assert s.procs[a.p].mine == None;
  }

  lemma RawWriteKeeps(cfg: Config, s: State, a: Action)
    requires a.RawWrite? && LockInv(cfg, s) && Enabled(cfg, s, a) && s.lock == Some(a.p)
    ensures LockInv(cfg, Apply(cfg, s, a))
  {
    if a.effect == NotRun {
      RawSilentKeeps(cfg, s, a);
    } else {
      assert Holder(cfg, s, a.p);
      RawLatches(cfg, s, a);
      var t := Apply(cfg, s, a);
      hide Apply;
      hide Enabled;
      LatchStepKeeps(cfg, s, t, a.p, t.log[|s.log|]);
    }
  }

  lemma StartTickets(s: State, p: Pid, req: Request)
    requires Tickets(s) && p in s.procs && s.procs[p].pc == Idle
    ensures Tickets(Begin(s, p, req))
  {
    hide AtMostOnce;
  }

  lemma StartRecords(s: State, p: Pid, req: Request)
    requires Tickets(s) && Records(s) && p in s.procs && s.procs[p].pc == Idle
    ensures Records(Begin(s, p, req))
  {
    hide AtMostOnce;
    hide SentMatches;
  }

  lemma StartKeeps(cfg: Config, s: State, p: Pid, req: Request)
    requires LockInv(cfg, s) && p in s.procs && s.procs[p].pc == Idle
    ensures LockInv(cfg, Begin(s, p, req))
  {
    StartTickets(s, p, req);
    StartRecords(s, p, req);
    hide Tickets;
    hide Records;
    hide HolderProc;
    hide HolderLog;
  }

  /** Taking the lock: only the program point of `p` and the owner change. */
  lemma LockOkKeeps(cfg: Config, s: State, p: Pid)
    requires LockInv(cfg, s) && p in s.procs && s.procs[p].pc == Locking && s.lock == None
    ensures LockInv(cfg, EnterLock(s, p).(lock := Some(p)))
  {
    var t := EnterLock(s, p).(lock := Some(p));
    assert Mutex(t);
    SameCallKeeps(s, t, p);
  }

  /** Tickets and records survive when `p` moves between two points of the same call. */
  lemma SameCallKeeps(s: State, t: State, p: Pid)
    requires Tickets(s) && Records(s)
    requires p in s.procs && p in t.procs && s.procs[p].pc != Idle && t.procs == s.procs[p := t.procs[p]]
    requires InCritical(t.procs[p].pc)
    requires t.procs[p].ticket == s.procs[p].ticket && t.procs[p].mine == s.procs[p].mine
    requires t.log == s.log && t.nextTicket == s.nextTicket && t.done == s.done
    ensures Tickets(t) && Records(t)
  {
  }

  /** Returning from a call, with the lock free afterwards or untouched. */
  lemma CompleteTickets(s: State, p: Pid, resp: Word, rets: seq<Word>)
    requires Tickets(s) && p in s.procs && s.procs[p].pc != Idle
    ensures Tickets(Complete(s, p, resp, rets))
  {
  }

  lemma CompleteRecords(s: State, p: Pid, resp: Word, rets: seq<Word>)
    requires Tickets(s) && Records(s) && p in s.procs && s.procs[p].pc != Idle
    requires s.procs[p].via == Refused || s.procs[p].via == Aborted ==> s.procs[p].mine == None
    requires HolderLog(s.log, s.procs[p])
    ensures Records(Complete(s, p, resp, rets))
  {
  }

  lemma TimeoutKeeps(cfg: Config, s: State, p: Pid, resp: Word, rets: seq<Word>)
    requires LockInv(cfg, s) && p in s.procs && s.procs[p].pc == Locking
    ensures LockInv(cfg, Complete(s, p, resp, rets))
  {
    CompleteTickets(s, p, resp, rets);
    CompleteRecords(s, p, resp, rets);
  }

  lemma UnlockKeeps(cfg: Config, s: State, p: Pid, resp: Word, rets: seq<Word>)
    requires LockInv(cfg, s) && p in s.procs && s.lock == Some(p)
    ensures LockInv(cfg, Complete(s, p, resp, rets).(lock := None))
  {
    assert Holder(cfg, s, p);
    CompleteTickets(s, p, resp, rets);
    CompleteRecords(s, p, resp, rets);
  }

  /** The holder of the lock dies: everything it has done so far stays. */
  lemma DeathIsSilent(cfg: Config, s: State, p: Pid)
    requires LockInv(cfg, s) && p in s.procs && s.lock == Some(p)
    ensures
      var s1 := SetProc(s, p, Dead(s.procs[p]));
      SilentStep(s, s1, p) && LockInv(cfg, s1)
  {
    assert Holder(cfg, s, p);
    SilentStepKeeps(cfg, s, SetProc(s, p, Dead(s.procs[p])), p);
  }

  lemma DieKeeps(cfg: Config, s: State, p: Pid)
    requires LockInv(cfg, s) && p in s.procs && s.lock == Some(p) && Enabled(cfg, s, Die(p))
    ensures LockInv(cfg, Apply(cfg, s, Die(p)))
  {
    DeathIsSilent(cfg, s, p);
    UnlockKeeps(cfg, SetProc(s, p, Dead(s.procs[p])), p, REP_TIMEOUT, s.procs[p].req.args);
    hide LockInv;
  }

  lemma AnswerKeeps(cfg: Config, s: State, i: nat, reply: Reply)
    requires LockInv(cfg, s) && Open(s, i)
    ensures LockInv(cfg, s.(answers := s.answers[i := reply], regs := PostReply(cfg, s.regs, s.log[i].mbox, reply)))
  {
  }

  /** Everything a call does after taking the lock and before returning, it does holding the lock. */
  lemma ActorHolds(cfg: Config, s: State, a: Action)
    requires cfg.FlockWorks() && Mutex(s) && Enabled(cfg, s, a)
    requires !a.Answer? && !a.Start? && !a.LockOk? && !a.LockTimeout?
    ensures !a.LockSkip? && s.lock == Some(a.p)
  {
  }

  /** Every step of every process, and every answer of the SMU, keeps the lock invariant. */
  lemma LockInvStep(cfg: Config, s: State, a: Action)
    requires ValidConfig(cfg) && cfg.FlockWorks()
    requires LockInv(cfg, s) && Enabled(cfg, s, a)
    ensures LockInv(cfg, Apply(cfg, s, a))
  {
    if Inside(a) || a.Unlock? || a.LockSkip? || a.Die? {
      ActorHolds(cfg, s, a);
    }
    match a
    case Answer(i, reply) => AnswerKeeps(cfg, s, i, reply);
    case Start(p, req) => StartKeeps(cfg, s, p, req);
    case LockOk(p) => LockOkKeeps(cfg, s, p);
    case LockTimeout(p) => TimeoutKeeps(cfg, s, p, REP_REJECTED_BUSY, s.procs[p].req.args);
    case LockSkip(_) =>
    case RawWrite(_, _, _, _, _) => RawWriteKeeps(cfg, s, a);
    case RawRead(_, _) => RawSilentKeeps(cfg, s, a);
    case Local(p, step) => LocalKeeps(cfg, s, p, step);
    case Write(p, store) => WriteKeeps(cfg, s, p, store);
    case Unlock(p) => UnlockKeeps(cfg, s, p, s.procs[p].resp, s.procs[p].rets);
    case Die(p) => DieKeeps(cfg, s, p);
  }

  lemma InitIsLocked(cfg: Config, s: State)
    requires Init(s)
    ensures LockInv(cfg, s)
  {
  }

  lemma {:induction false} LockInvRun(cfg: Config, ss: seq<State>, acts: seq<Action>, n: nat)
    requires ValidConfig(cfg) && cfg.FlockWorks()
    requires Run(cfg, ss, acts) && n < |ss|
    ensures LockInv(cfg, ss[n])
  {
    if n == 0 {
      InitIsLocked(cfg, ss[0]);
    } else {
      LockInvRun(cfg, ss, acts, n - 1);
      assert StepBy(cfg, ss[n - 1], acts[n - 1], ss[n]);
      LockInvStep(cfg, ss[n - 1], acts[n - 1]);
    }
  }

  /** A process with the same call and progress, but possibly a new log entry. */
  predicate SameBut(pr: Proc, qr: Proc) {
    pr == qr.(mine := pr.mine)
  }

  lemma PokeKeepsCall(cfg: Config, s: State, p: Pid, addr: Word, value: Word)
    requires p in s.procs
    ensures
      var t := Poke(cfg, s, p, addr, value);
      && p in t.procs && SameBut(s.procs[p], t.procs[p])
      && t.procs == s.procs[p := t.procs[p]] && t.done == s.done && t.nextTicket == s.nextTicket
  {
  }

  lemma WriteShape(cfg: Config, s: State, p: Pid, store: Store)
    requires ValidConfig(cfg) && p in s.procs && Holder(cfg, s, p) && StoreEnabled(s.procs[p], store)
    ensures
      var t := ApplyStore(cfg, s, p, store);
      || SilentStep(s, t, p)
      || (|t.log| == |s.log| + 1 && LatchStep(s, t, p, t.log[|s.log|]))
  {
    if Rings(s.procs[p], store) {
      RingMeaning(cfg, s, p, store);
    } else {
      StoredMeaning(cfg, s, p, store);
    }
    hide ApplyStore;
  }

  /** What the holder of the lock does is a private step, or one command for its own call. */
  lemma HolderStep(cfg: Config, s: State, a: Action)
    requires ValidConfig(cfg) && Inside(a) && Enabled(cfg, s, a) && Holder(cfg, s, a.p)
    ensures
      var t := Apply(cfg, s, a);
      || SilentStep(s, t, a.p)
      || (|t.log| == |s.log| + 1 && LatchStep(s, t, a.p, t.log[|s.log|]))
  {
    match a
    case RawWrite(_, _, effect, _, _) => if effect != NotRun { RawLatches(cfg, s, a); }
    case RawRead(_, _) =>
    case Local(p, step) => StepProcKeeps(cfg, s.procs[p], step, Read(s.regs, s.sel), s.sel);
    case Write(p, store) => WriteShape(cfg, s, p, store);
    hide ApplyStore;
    hide StepProc;
  }

  // ---------------------------------------------------------------- main results

  /** Actions that touch a register or the driver's transaction interface. */
  predicate TouchesHardware(a: Action) {
    a.RawWrite? || a.RawRead? || a.Write? || (a.Local? && (a.step.Select? || a.step.ReadData? || a.step.ReadLost? || a.step.ReadError?))
  }

  /**
   At most one process is between lock and unlock, hardware is touched only by the process
   that holds the lock, and a process that is not in a call holds nothing.
   */
  lemma LockSafety(cfg: Config, ss: seq<State>, acts: seq<Action>, n: nat)
    requires ValidConfig(cfg) && cfg.FlockWorks()
    requires Run(cfg, ss, acts) && n < |ss|
    ensures forall p, q | p in ss[n].procs && q in ss[n].procs ::
              InCritical(ss[n].procs[p].pc) && InCritical(ss[n].procs[q].pc) ==> p == q
    ensures forall p | p in ss[n].procs && !InCritical(ss[n].procs[p].pc) :: ss[n].lock != Some(p)
    ensures n < |acts| && TouchesHardware(acts[n]) ==> ss[n].lock == Some(acts[n].p)
  {
    LockInvRun(cfg, ss, acts, n);
    if n < |acts| && TouchesHardware(acts[n]) {
      assert StepBy(cfg, ss[n], acts[n], ss[n + 1]);
      ActorHolds(cfg, ss[n], acts[n]);
    }
  }

  /** A step that ends a call of `p` after the lock was taken is the unlocking step, or the end of `p` itself. */
  lemma ExitIsUnlock(cfg: Config, s: State, a: Action, p: Pid)
    requires Mutex(s) && Enabled(cfg, s, a) && Mutex(Apply(cfg, s, a))
    requires p in s.procs && p in Apply(cfg, s, a).procs
    requires InCritical(s.procs[p].pc) && Apply(cfg, s, a).procs[p].pc == Idle
    ensures (a == Unlock(p) || a == Die(p)) && Apply(cfg, s, a).lock == None
  {
    hide Open;
    hide AfterWrite;
  }

  /** Whatever way a call that took the lock ends, also with its process, the lock is free afterwards. */
  lemma EveryExitReleases(cfg: Config, ss: seq<State>, acts: seq<Action>, n: nat, p: Pid)
    requires ValidConfig(cfg) && cfg.FlockWorks()
    requires Run(cfg, ss, acts) && n < |acts|
    requires p in ss[n].procs && p in ss[n + 1].procs
    requires InCritical(ss[n].procs[p].pc) && ss[n + 1].procs[p].pc == Idle
    ensures ss[n + 1].lock == None
  {
    LockInvRun(cfg, ss, acts, n);
    LockInvRun(cfg, ss, acts, n + 1);
    assert StepBy(cfg, ss[n], acts[n], ss[n + 1]);
    ExitIsUnlock(cfg, ss[n], acts[n], p);
  }

  /** Over driver path and register fallback together, one call makes the SMU run at most one command. */
  lemma AtMostOneCommandPerCall(cfg: Config, ss: seq<State>, acts: seq<Action>, n: nat)
    requires ValidConfig(cfg) && cfg.FlockWorks()
    requires Run(cfg, ss, acts) && n < |ss|
    ensures AtMostOnce(ss[n].log)
  {
    LockInvRun(cfg, ss, acts, n);
  }

  /** A call that was refused the lock, or whose setup writes failed, never reaches the SMU. */
  lemma NothingSentWithoutSetup(cfg: Config, ss: seq<State>, acts: seq<Action>, n: nat, k: nat)
    requires ValidConfig(cfg) && cfg.FlockWorks()
    requires Run(cfg, ss, acts) && n < |ss| && k < |ss[n].done|
    requires ss[n].done[k].via == Refused || ss[n].done[k].via == Aborted
    ensures forall i | 0 <= i < |ss[n].log| :: ss[n].log[i].ticket != ss[n].done[k].ticket
  {
    LockInvRun(cfg, ss, acts, n);
  }
}
