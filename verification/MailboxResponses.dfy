/**
 What a response means, success or not. Through the driver a response read from the registers is the
 SMU's answer to the call's own command; without the driver it need not be. Every result is about any
 run where flock works and about calls that found their mailbox quiet, and every condition is exact.
 */
module MailboxResponses {
  import opened Words
  import opened SmuLayout
  import opened MailboxProtocol
  import opened MailboxSafety
  import opened MailboxIntegrity
  import opened MailboxPaths
  import opened MailboxCalls
  import opened SilentReads

  /** The SMU has answered this command, with `resp`. */
  predicate Replied(answers: map<nat, Reply>, sent: Option<nat>, resp: Word) {
    sent.Some? && sent.value in answers && answers[sent.value].rsp == resp
  }

  /** The response is the SMU's; a failure may also stand for a success whose results could not be read. */
  predicate Meant(answers: map<nat, Reply>, sent: Option<nat>, resp: Word) {
    Replied(answers, sent, resp) || (resp == REP_FAILED && Replied(answers, sent, REP_OK))
  }

  /** The call came back with a response that has a meaning: read from the registers, or the driver's success. */
  predicate Speaks(req: Request, via: Via, resp: Word) {
    || (via == Registers && req.kind == Req && resp != REP_TIMEOUT)
    || (via == Driver && resp == REP_OK)
  }

  /** A calm call of `p` with a response that should be the SMU's. */
  predicate Returned(tx: Tx, p: Pid) {
    tx.pid == p && tx.calm && Speaks(tx.req, tx.via, tx.resp)
  }

  // ---------------------------------------------------------------- invariant

  /** The response register is clear, or shows the answer to the holder's own command. */
  predicate OwnRegister(cfg: Config, regs: map<Word, Word>, answers: map<nat, Reply>, pr: Proc) {
    Read(regs, cfg.addr(pr.req.mbox, Rep)) ==
    if pr.mine.Some? && pr.mine.value in answers then answers[pr.mine.value].rsp else 0
  }

  /** What is known of the holder: a request checks its setup writes, a test only if no failure was noticed. */
  ghost predicate Sound(cfg: Config, regs: map<Word, Word>, answers: map<nat, Reply>, pr: Proc) {
    match pr.pc
    case Setup(k) => k > 0 && !pr.err ==> OwnRegister(cfg, regs, answers, pr)
    case Verify | Check => !pr.err ==> OwnRegister(cfg, regs, answers, pr)
    case Ring | Wait | Polled => pr.req.kind == Req || !pr.err ==> OwnRegister(cfg, regs, answers, pr)
    case ReadBack(_) | Finish | Drop => pr.req.kind == Req || !pr.err ==> Replied(answers, pr.mine, pr.resp)
    case Unlocking => Speaks(pr.req, pr.via, pr.resp) ==> Meant(answers, pr.mine, pr.resp)
    case _ => true
  }

  /** With the driver the address of a started read is always selected; and registers are the register path's. */
  predicate Aimed(cfg: Config, pr: Proc, sel: Word) {
    && (pr.half ==> sel == SelectTarget(cfg, pr))
    && (pr.pc.Submitted? ==> pr.via == Driver)
    && (!pr.pc.Raw? && !pr.pc.Declined? && !pr.pc.Submitted? && !pr.pc.Unlocking? ==> pr.via == Registers)
  }

  ghost predicate HolderSound(cfg: Config, s: State, p: Pid)
    requires p in s.procs
  {
    Aimed(cfg, s.procs[p], s.sel) && (s.procs[p].calm ==> Sound(cfg, s.regs, s.answers, s.procs[p]))
  }

  ghost predicate DoneMeant(s: State, p: Pid) {
    forall k | 0 <= k < |s.done| && Returned(s.done[k], p) :: Meant(s.answers, s.done[k].sent, s.done[k].resp)
  }

  ghost predicate RespInv(cfg: Config, s: State, p: Pid) {
    && (s.lock == Some(p) && p in s.procs ==> HolderSound(cfg, s, p))
    && DoneMeant(s, p)
  }

  // ---------------------------------------------------------------- private steps

  /** Completing a read of the driver: `v` is the register's content, or 0 after a failure. */
  lemma ReadSound(cfg: Config, regs: map<Word, Word>, answers: map<nat, Reply>, pr: Proc, q: Proc, v: Word)
    requires CurrentAccess(pr).ReadAcc? && Shape(pr) && Sound(cfg, regs, answers, pr)
    requires q == pr.(err := q.err) && (pr.err ==> q.err)
    requires v == 0 || v == Read(regs, cfg.addr(pr.req.mbox, CurrentAccess(pr).reg))
    ensures Sound(cfg, regs, answers, AfterRead(q, v))
  {
    hide AfterWrite;
  }

  lemma SelectedIsOwn(cfg: Config, pr: Proc, sel: Word)
    requires ValidConfig(cfg) && CurrentAccess(pr).ReadAcc? && pr.half && Aimed(cfg, pr, sel)
    ensures sel == cfg.addr(pr.req.mbox, CurrentAccess(pr).reg)
  {
    assert IsReg(CurrentAccess(pr).reg);
  }

  lemma StepSound(cfg: Config, regs: map<Word, Word>, answers: map<nat, Reply>, pr: Proc, step: Step, sel: Word)
    requires ValidConfig(cfg) && HolderProc(cfg, pr, sel) && StepEnabled(pr, step) && StepFits(false, pr, step)
    requires Aimed(cfg, pr, sel) && Sound(cfg, regs, answers, pr)
    ensures Sound(cfg, regs, answers, StepProc(pr, step, Read(regs, sel)))
  {
    match step
    case ReadData(ok) =>
      SelectedIsOwn(cfg, pr, sel);
      ReadSound(cfg, regs, answers, pr, if ok then pr else pr.(err := true), if ok then Read(regs, sel) else 0);
    case ReadError => ReadSound(cfg, regs, answers, pr, pr.(err := true), 0);
    case _ =>
  }

  lemma StepAimed(cfg: Config, pr: Proc, step: Step, v: Word, sel: Word)
    requires HolderProc(cfg, pr, sel) && StepEnabled(pr, step) && StepFits(false, pr, step) && Aimed(cfg, pr, sel)
    ensures Aimed(cfg, StepProc(pr, step, v), StepSel(cfg, pr, step, sel))
  {
  }

  lemma LocalSound(cfg: Config, s: State, p: Pid, step: Step)
    requires ValidConfig(cfg) && !cfg.Mapped(p) && LockInv(cfg, s) && RespInv(cfg, s, p)
    requires s.lock == Some(p) && Enabled(cfg, s, Local(p, step))
    ensures RespInv(cfg, Apply(cfg, s, Local(p, step)), p)
  {
    assert Holder(cfg, s, p) && HolderSound(cfg, s, p);
    var pr := s.procs[p];
    StepProcKeeps(cfg, pr, step, Read(s.regs, s.sel), s.sel);
    StepAimed(cfg, pr, step, Read(s.regs, s.sel), s.sel);
    if pr.calm {
      StepSound(cfg, s.regs, s.answers, pr, step, s.sel);
    }
    hide StepProc;
    hide StepSel;
    hide Sound;
    hide Aimed;
    hide LockInv;
  }

  // ---------------------------------------------------------------- register writes

  lemma StoredSound(cfg: Config, s: State, p: Pid, store: Store)
    requires ValidConfig(cfg) && p in s.procs && HolderProc(cfg, s.procs[p], s.sel) && RespInv(cfg, s, p)
    requires s.lock == Some(p) && StoreEnabled(s.procs[p], store) && !Rings(s.procs[p], store)
    ensures RespInv(cfg, Stored(cfg, s, p, store), p)
  {
    assert HolderSound(cfg, s, p);
    assert IsReg(Rep) && IsReg(CurrentAccess(s.procs[p]).reg);
    hide DoneMeant;
    assert DoneMeant(Stored(cfg, s, p, store), p) by { DoneStays(s, Stored(cfg, s, p, store), p); }
  }

  /** Nothing is forgotten: what was answered stays answered. */
  lemma DoneStays(s: State, t: State, p: Pid)
    requires DoneMeant(s, p) && t.done == s.done
    requires forall i | i in s.answers :: i in t.answers && t.answers[i] == s.answers[i]
    ensures DoneMeant(t, p)
  {
  }

  lemma RungSound(cfg: Config, s: State, p: Pid, store: Store)
    requires ValidConfig(cfg) && p in s.procs && HolderProc(cfg, s.procs[p], s.sel) && RespInv(cfg, s, p)
    requires s.lock == Some(p) && s.procs[p].pc == Ring && |s.log| !in s.answers
    ensures RespInv(cfg, Rung(cfg, s, p, store), p)
  {
    assert HolderSound(cfg, s, p);
    assert IsReg(Rep) && IsReg(Msg);
    var t := Rung(cfg, s, p, store);
    DoneStays(s, t, p);
    hide DoneMeant;
  }

  lemma WriteSound(cfg: Config, s: State, p: Pid, store: Store)
    requires ValidConfig(cfg) && LockInv(cfg, s) && RespInv(cfg, s, p)
    requires s.lock == Some(p) && StoreEnabled(s.procs[p], store)
    ensures RespInv(cfg, ApplyStore(cfg, s, p, store), p)
  {
    assert Holder(cfg, s, p) && AnswersKnown(s);
    hide RespInv;
    hide LockInv;
    if Rings(s.procs[p], store) {
      RingMeaning(cfg, s, p, store);
      RungSound(cfg, s, p, store);
    } else {
      StoredMeaning(cfg, s, p, store);
      StoredSound(cfg, s, p, store);
    }
  }

  // ---------------------------------------------------------------- the SMU's answers

  /** The response register shows the answer to the holder's own command, or has not changed. */
  lemma RegisterSound(cfg: Config, regs: map<Word, Word>, after: map<Word, Word>, answers: map<nat, Reply>, i: nat,
                      reply: Reply, pr: Proc, sel: Word)
    requires HolderProc(cfg, pr, sel) && Sound(cfg, regs, answers, pr) && i !in answers
    requires Read(after, cfg.addr(pr.req.mbox, Rep)) ==
             if pr.mine == Some(i) then reply.rsp else Read(regs, cfg.addr(pr.req.mbox, Rep))
    ensures Sound(cfg, after, answers[i := reply], pr)
  {
    hide Read;
  }

  lemma AnswerSound(cfg: Config, s: State, p: Pid, i: nat, reply: Reply)
    requires ValidConfig(cfg) && p in s.procs && Holder(cfg, s, p) && OwnPending(s, s.procs[p])
    requires Open(s, i) && Sound(cfg, s.regs, s.answers, s.procs[p])
    ensures Sound(cfg, PostReply(cfg, s.regs, s.log[i].mbox, reply), s.answers[i := reply], s.procs[p])
  {
    var pr := s.procs[p];
    if s.log[i].mbox == pr.req.mbox {
      PostReplyPosts(cfg, s.regs, pr.req.mbox, reply);
    } else {
      PostReplyFrame(cfg, s.regs, s.log[i].mbox, reply, pr.req.mbox, Rep);
    }
    RegisterSound(cfg, s.regs, PostReply(cfg, s.regs, s.log[i].mbox, reply), s.answers, i, reply, pr, s.sel);
    hide PostReply;
    hide ValidConfig;
    hide Sound;
    hide HolderProc;
  }

  lemma AnswerKeepsHolder(cfg: Config, s: State, p: Pid, i: nat, reply: Reply)
    requires ValidConfig(cfg) && p in s.procs && Holder(cfg, s, p) && HolderData(cfg, s, p) && HolderSound(cfg, s, p)
    requires Enabled(cfg, s, Answer(i, reply))
    ensures HolderSound(cfg, Apply(cfg, s, Answer(i, reply)), p)
  {
    if s.procs[p].calm {
      AnswerSound(cfg, s, p, i, reply);
    }
    hide Sound;
    hide PostReply;
    hide Holder;
    hide Aimed;
    hide OwnPending;
    hide DataProc;
  }

  lemma AnswerKeepsResponses(cfg: Config, s: State, p: Pid, i: nat, reply: Reply)
    requires ValidConfig(cfg) && DataInv(cfg, s) && RespInv(cfg, s, p) && Enabled(cfg, s, Answer(i, reply))
    ensures RespInv(cfg, Apply(cfg, s, Answer(i, reply)), p)
  {
    var t := Apply(cfg, s, Answer(i, reply));
    assert s.lock == Some(p) ==> Holder(cfg, s, p) && HolderData(cfg, s, p);
    hide LockInv;
    hide Data;
    hide Holder;
    hide HolderData;
    hide HolderSound;
    hide DoneMeant;
    hide PostReply;
    if s.lock == Some(p) {
      AnswerKeepsHolder(cfg, s, p, i, reply);
    }
    DoneStays(s, t, p);
  }

  // ---------------------------------------------------------------- the other steps

  lemma RawWriteSound(cfg: Config, s: State, p: Pid, a: Action)
    requires a.RawWrite? && a.p == p && Enabled(cfg, s, a) && s.lock == Some(p)
    requires LockInv(cfg, s) && RespInv(cfg, s, p)
    ensures RespInv(cfg, Apply(cfg, s, a), p)
  {
    assert Holder(cfg, s, p) && AnswersKnown(s);
    RawAnswers(cfg, s, a);
    DoneStays(s, Apply(cfg, s, a), p);
    hide LockInv;
    hide DoneMeant;
    hide Apply;
  }

  lemma RawReadSound(cfg: Config, s: State, p: Pid, a: Action)
    requires a.RawRead? && a.p == p && Enabled(cfg, s, a) && s.lock == Some(p)
    requires Holder(cfg, s, p) && RespInv(cfg, s, p)
    ensures RespInv(cfg, Apply(cfg, s, a), p)
  {
    assert HolderSound(cfg, s, p);
    DoneStays(s, Apply(cfg, s, a), p);
    hide DoneMeant;
  }

  /** A call of `p` ends, and what its record says has a meaning. */
  lemma EndMeant(s: State, p: Pid, pr: Proc, resp: Word, rets: seq<Word>)
    requires DoneMeant(s, p) && p in s.procs
    requires pr.calm && Speaks(pr.req, pr.via, resp) ==> Meant(s.answers, pr.mine, resp)
    ensures DoneMeant(Complete(SetProc(s, p, pr), p, resp, rets), p)
  {
  }

  /** A call of another process ends. */
  lemma OtherEndMeant(s: State, p: Pid, q: Pid, pr: Proc, resp: Word, rets: seq<Word>)
    requires DoneMeant(s, p) && q in s.procs && p != q
    ensures DoneMeant(Complete(SetProc(s, q, pr), q, resp, rets), p)
  {
  }

  /** Any call of `q` ends: returned, refused, or with its process. */
  lemma EndSound(cfg: Config, s: State, p: Pid, a: Action)
    requires cfg.FlockWorks() && LockInv(cfg, s) && RespInv(cfg, s, p) && Enabled(cfg, s, a)
    requires a.LockTimeout? || a.Unlock? || a.Die?
    ensures DoneMeant(Apply(cfg, s, a), p)
  {
    hide AtMostOnce;
    hide Shape;
    hide Complete;
    assert Mutex(s) && Records(s);
    var pr := s.procs[a.p];
    assert SetProc(s, a.p, pr) == s;
    match a
    case LockTimeout(q) =>
      if q == p { EndMeant(s, p, pr, REP_REJECTED_BUSY, pr.req.args); }
      else { OtherEndMeant(s, p, q, pr, REP_REJECTED_BUSY, pr.req.args); }
    case Unlock(q) =>
      if q == p { EndMeant(s, p, pr, pr.resp, pr.rets); }
      else { OtherEndMeant(s, p, q, pr, pr.resp, pr.rets); }
    case Die(q) =>
      if q == p { EndMeant(s, p, Dead(pr), REP_TIMEOUT, pr.req.args); }
      else { OtherEndMeant(s, p, q, Dead(pr), REP_TIMEOUT, pr.req.args); }
  }

  /** While another process holds the lock or nobody does, nothing is said of `p` but its finished calls. */
  lemma OthersStep(cfg: Config, s: State, p: Pid, a: Action)
    requires ValidConfig(cfg) && cfg.FlockWorks() && LockInv(cfg, s) && RespInv(cfg, s, p) && Enabled(cfg, s, a)
    requires Inside(a) && a.p != p
    ensures RespInv(cfg, Apply(cfg, s, a), p)
  {
    ActorHolds(cfg, s, a);
    assert Holder(cfg, s, a.p) && AnswersKnown(s);
    HolderStep(cfg, s, a);
    OtherAnswers(cfg, s, a);
    DoneStays(s, Apply(cfg, s, a), p);
    hide Apply;
    hide LockInv;
    hide DoneMeant;
  }

  lemma OtherAnswers(cfg: Config, s: State, a: Action)
    requires ValidConfig(cfg) && LockInv(cfg, s) && Enabled(cfg, s, a)
    requires Inside(a) && s.lock == Some(a.p)
    ensures forall i | i in s.answers :: i in Apply(cfg, s, a).answers && Apply(cfg, s, a).answers[i] == s.answers[i]
  {
    assert Holder(cfg, s, a.p) && AnswersKnown(s);
    if a.Write? {
      if Rings(s.procs[a.p], a.store) {
        RingMeaning(cfg, s, a.p, a.store);
      } else {
        StoredMeaning(cfg, s, a.p, a.store);
      }
      hide ApplyStore;
    }
  }

  lemma RespStep(cfg: Config, s: State, p: Pid, a: Action)
    requires ValidConfig(cfg) && cfg.FlockWorks() && !cfg.Mapped(p)
    requires DataInv(cfg, s) && RespInv(cfg, s, p) && Enabled(cfg, s, a)
    ensures RespInv(cfg, Apply(cfg, s, a), p)
  {
    match a
    case Answer(i, reply) => AnswerKeepsResponses(cfg, s, p, i, reply);
    case RawWrite(q, _, _, _, _) => ActorHolds(cfg, s, a); if q == p { RawWriteSound(cfg, s, p, a); } else { OthersStep(cfg, s, p, a); }
    case RawRead(q, _) => ActorHolds(cfg, s, a); if q == p { RawReadSound(cfg, s, p, a); } else { OthersStep(cfg, s, p, a); }
    case Local(q, step) => ActorHolds(cfg, s, a); if q == p { LocalSound(cfg, s, p, step); } else { OthersStep(cfg, s, p, a); }
    case Write(q, store) => ActorHolds(cfg, s, a); if q == p { WriteSound(cfg, s, p, store); } else { OthersStep(cfg, s, p, a); }
    case _ => OutsideStep(cfg, s, p, a);
  }

  /** Calls that begin, take the lock or end. */
  lemma OutsideStep(cfg: Config, s: State, p: Pid, a: Action)
    requires cfg.FlockWorks() && LockInv(cfg, s) && RespInv(cfg, s, p) && Enabled(cfg, s, a)
    requires a.Start? || a.LockOk? || a.LockSkip? || a.LockTimeout? || a.Unlock? || a.Die?
    ensures RespInv(cfg, Apply(cfg, s, a), p)
  {
    assert Mutex(s) && Tickets(s);
    if a.LockTimeout? || a.Unlock? || a.Die? {
      EndSound(cfg, s, p, a);
    } else {
      DoneStays(s, Apply(cfg, s, a), p);
    }
    if a.Unlock? || a.Die? || a.LockSkip? {
      ActorHolds(cfg, s, a);
    }
    hide LockInv;
    hide DoneMeant;
    hide Sound;
  }

  lemma {:induction false} RespInvRun(cfg: Config, ss: seq<State>, acts: seq<Action>, n: nat, p: Pid)
    requires ValidConfig(cfg) && cfg.FlockWorks() && !cfg.Mapped(p)
    requires Run(cfg, ss, acts) && n < |ss|
    ensures RespInv(cfg, ss[n], p)
    decreases n
  {
    hide Apply;
    if n > 0 {
      RespInvRun(cfg, ss, acts, n - 1, p);
      DataInvRun(cfg, ss, acts, n - 1);
      assert StepBy(cfg, ss[n - 1], acts[n - 1], ss[n]);
      RespStep(cfg, ss[n - 1], p, acts[n - 1]);
    }
  }

  // ---------------------------------------------------------------- the exact conditions

  /** The SMU took the call's own request, for this call, and gave the answer its response stands for. */
  predicate AnsweredAs(s: State, tx: Tx) {
    && Meant(s.answers, tx.sent, tx.resp)
    && tx.sent.value < |s.log|
    && var e := s.log[tx.sent.value];
       e.ticket == tx.ticket && e.cmd == CmdOf(tx.req) && e.mbox == tx.req.mbox
  }

  /**
   Every response to a request of a process is the SMU's answer to it if and only if the process
   uses the driver. This holds of refusals as of successes; only REP_TIMEOUT says nothing, and a
   failure can also be a success whose results could not be read.
   */
  lemma ResponsesIffDriver(cfg: Config, p: Pid)
    requires ValidConfig(cfg) && cfg.FlockWorks()
    ensures (forall ss: seq<State>, acts: seq<Action>, n: nat, k: nat |
               Run(cfg, ss, acts) && n < |ss| && k < |ss[n].done| && Returned(ss[n].done[k], p) && ss[n].done[k].req.kind == Req ::
               AnsweredAs(ss[n], ss[n].done[k]))
            <==> !cfg.Mapped(p)
  {
    if !cfg.Mapped(p) {
      forall ss: seq<State>, acts: seq<Action>, n: nat, k: nat |
        Run(cfg, ss, acts) && n < |ss| && k < |ss[n].done| && Returned(ss[n].done[k], p) && ss[n].done[k].req.kind == Req
        ensures AnsweredAs(ss[n], ss[n].done[k])
      {
        RequestAnswered(cfg, ss, acts, n, k, p);
      }
    } else {
      var tr, s := OwnIdReturned(cfg, p);
      assert Returned(s.done[0], p) && !AnsweredAs(s, s.done[0]);
      assert tr.ss[|tr.acts|].done[0] == s.done[0];
    }
  }

  /** What a finished request of a process on the driver promises. */
  predicate Genuine(cfg: Config, s: State, tx: Tx) {
    !cfg.Mapped(tx.pid) && Returned(tx, tx.pid) && tx.req.kind == Req ==> AnsweredAs(s, tx)
  }

  lemma RequestAnswered(cfg: Config, ss: seq<State>, acts: seq<Action>, n: nat, k: nat, p: Pid)
    requires ValidConfig(cfg) && cfg.FlockWorks() && !cfg.Mapped(p)
    requires Run(cfg, ss, acts) && n < |ss| && k < |ss[n].done|
    requires Returned(ss[n].done[k], p) && ss[n].done[k].req.kind == Req
    ensures AnsweredAs(ss[n], ss[n].done[k])
  {
    RespInvRun(cfg, ss, acts, n, p);
    DataInvRun(cfg, ss, acts, n);
    var s, tx := ss[n], ss[n].done[k];
    assert SentMatches(s.log, tx);
    assert Intact(s.log[tx.sent.value]);
  }

  /** A process whose test is over but for dropping the error flag, which is clear. */
  predicate Tested(s: State, p: Pid) {
    p in s.procs && s.procs[p].pc == Drop && s.procs[p].calm && !s.procs[p].err
  }

  predicate TestMeant(s: State, p: Pid) {
    Tested(s, p) ==> Replied(s.answers, s.procs[p].mine, s.procs[p].resp)
  }

  /**
   The mailbox test: when no failure was noticed, its response is the SMU's answer to the test
   message if and only if the process uses the driver. (SilentReads.UnsentTest shows that the
   flag, which the test throws away, cannot be left out.)
   */
  lemma TestsIffDriver(cfg: Config, p: Pid)
    requires ValidConfig(cfg) && cfg.FlockWorks()
    ensures (forall ss: seq<State>, acts: seq<Action>, n: nat | Run(cfg, ss, acts) && n < |ss| :: TestMeant(ss[n], p))
            <==> !cfg.Mapped(p)
  {
    if !cfg.Mapped(p) {
      forall ss: seq<State>, acts: seq<Action>, n: nat | Run(cfg, ss, acts) && n < |ss|
        ensures TestMeant(ss[n], p)
      {
        TestAnswered(cfg, ss, acts, n, p);
      }
    } else {
      var tr, s := LostTest(cfg, p);
      assert !TestMeant(tr.ss[|tr.acts|], p);
    }
  }

  lemma TestAnswered(cfg: Config, ss: seq<State>, acts: seq<Action>, n: nat, p: Pid)
    requires ValidConfig(cfg) && cfg.FlockWorks() && !cfg.Mapped(p)
    requires Run(cfg, ss, acts) && n < |ss|
    ensures TestMeant(ss[n], p)
  {
    RespInvRun(cfg, ss, acts, n, p);
    LockInvRun(cfg, ss, acts, n);
    if Tested(ss[n], p) {
      assert Mutex(ss[n]);
      assert HolderSound(cfg, ss[n], p);
    }
  }

  /** A calm success of `p` that returned exactly the SMU's results. */
  ghost predicate Exact(s: State, tx: Tx) {
    Executed(s, tx) && tx.sent.Some? && tx.sent.value in s.answers && tx.rets == s.answers[tx.sent.value].results
  }

  predicate CalmSuccess(tx: Tx, p: Pid) {
    tx.pid == p && tx.req.kind == Req && tx.calm && tx.resp == REP_OK
  }

  /** Every calm success of a process was executed and returns exactly the SMU's results if and only if it uses the driver. */
  lemma ResultsIffDriver(cfg: Config, p: Pid)
    requires ValidConfig(cfg) && cfg.FlockWorks()
    ensures (forall ss: seq<State>, acts: seq<Action>, n: nat, k: nat |
               Run(cfg, ss, acts) && n < |ss| && k < |ss[n].done| && CalmSuccess(ss[n].done[k], p) ::
               Exact(ss[n], ss[n].done[k]))
            <==> !cfg.Mapped(p)
  {
    if !cfg.Mapped(p) {
      forall ss: seq<State>, acts: seq<Action>, n: nat, k: nat |
        Run(cfg, ss, acts) && n < |ss| && k < |ss[n].done| && CalmSuccess(ss[n].done[k], p)
        ensures Exact(ss[n], ss[n].done[k])
      {
        DriverLosesNothing(cfg, ss, acts, n);
        ResultsExact(cfg, ss, acts, n, k);
      }
    } else {
      var tr, s := LostResult(cfg, p);
      assert CalmSuccess(s.done[0], p) && !Exact(s, s.done[0]);
      assert tr.ss[|tr.acts|].done[0] == s.done[0];
    }
  }
}
