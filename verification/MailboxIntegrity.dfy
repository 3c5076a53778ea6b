/**
 What reaches the SMU and what comes back, call by call, on every run where flock works. A call
 is calm if nothing was pending on its mailbox when it took the lock. Whatever happens before,
 after or elsewhere, a calm call that reaches the SMU carries the id and all six arguments of its
 one request, and a success it reports is the SMU's own answer, word by word, except for words
 whose reading failed unnoticed.
 */
module MailboxIntegrity {
  import opened Words
  import opened SmuLayout
  import opened MailboxProtocol
  import opened MailboxSafety

  function CmdOf(req: Request): Cmd {
    Cmd(req.id, req.args)
  }

  /** A command latched for a calm smu_service_req call is that call's own, and always on its own mailbox. */
  predicate Intact(e: Latch) {
    e.req.kind == Req ==> e.mbox == e.req.mbox && (e.calm ==> e.cmd == CmdOf(e.req))
  }

  ghost predicate LogIntact(log: seq<Latch>) {
    forall i | 0 <= i < |log| :: Intact(log[i])
  }

  // ---------------------------------------------------------------- invariant

  /** The first `k` setup writes of the request are in the registers. */
  ghost predicate Loaded(cfg: Config, regs: map<Word, Word>, req: Request, k: nat)
    requires k <= 7
  {
    forall j | 0 <= j < k :: Read(regs, cfg.addr(req.mbox, SetupReg(j))) == SetupValue(req, j)
  }

  ghost predicate Posted(cfg: Config, regs: map<Word, Word>, mbox: Mbox, reply: Reply) {
    && Read(regs, cfg.addr(mbox, Rep)) == reply.rsp
    && forall j | 0 <= j < 6 :: Read(regs, cfg.addr(mbox, Arg(j))) == reply.results[j]
  }

  /** The register contents agree with the state of the holder's own command. */
  ghost predicate OwnCommand(cfg: Config, regs: map<Word, Word>, answers: map<nat, Reply>, pr: Proc) {
    match pr.mine
    case None => pr.err
    case Some(i) =>
      if i in answers then Posted(cfg, regs, pr.req.mbox, answers[i]) && answers[i].rsp != REP_TIMEOUT
      else Read(regs, cfg.addr(pr.req.mbox, Rep)) == 0
  }

  /** Reads on record as lost returned what the record says. */
  predicate LostAre(lost: map<nat, Word>, resp: Word, rets: seq<Word>) {
    && (RESPONSE in lost ==> resp == lost[RESPONSE])
    && forall j | 0 <= j < |rets| && j in lost :: rets[j] == lost[j]
  }

  /** The response and the first `k` results are the SMU's answer, apart from lost words. */
  predicate Answered(answers: map<nat, Reply>, sent: Option<nat>, resp: Word, rets: seq<Word>, lost: map<nat, Word>, k: nat)
    requires k <= 6
  {
    && sent.Some? && sent.value in answers && resp == answers[sent.value].rsp && |rets| == k
    && forall j | 0 <= j < k && j !in lost :: rets[j] == answers[sent.value].results[j]
  }

  /** What has been read back so far is the SMU's answer, unless an access failed. */
  ghost predicate ReadSoFar(answers: map<nat, Reply>, pr: Proc, k: nat)
    requires k <= 6
  {
    && |pr.rets| == k && LostAre(pr.lost, pr.resp, pr.rets)
    && (forall j | j in pr.lost :: j < k || j == RESPONSE)
    && (!pr.err && RESPONSE !in pr.lost ==> Answered(answers, pr.mine, pr.resp, pr.rets, pr.lost, k))
  }

  /** A success response that was really read is the SMU's answer to this call's own command. */
  predicate Trusted(answers: map<nat, Reply>, sent: Option<nat>, resp: Word, rets: seq<Word>, lost: map<nat, Word>) {
    resp == REP_OK ==>
      && |rets| == 6 && LostAre(lost, resp, rets)
      && (RESPONSE !in lost ==> Answered(answers, sent, resp, rets, lost, 6))
  }

  ghost predicate DataProc(cfg: Config, regs: map<Word, Word>, answers: map<nat, Reply>, pr: Proc) {
    match pr.pc
    case Setup(k) => k < 7 && (!pr.err ==> Loaded(cfg, regs, pr.req, k)) && pr.lost == map[]
    case Check => (!pr.err ==> Loaded(cfg, regs, pr.req, 7)) && pr.lost == map[]
    case Raw | Declined | TakeError | Submitted(_) => pr.lost == map[]
    case Ring => Loaded(cfg, regs, pr.req, 7) && pr.lost == map[]
    case Wait => OwnCommand(cfg, regs, answers, pr) && pr.lost == map[]
    case Polled => OwnCommand(cfg, regs, answers, pr)
    case ReadBack(i) => i < 6 && OwnCommand(cfg, regs, answers, pr) && ReadSoFar(answers, pr, i)
    case Finish => ReadSoFar(answers, pr, 6)
    case Unlocking => Trusted(answers, pr.mine, pr.resp, pr.rets, pr.lost)
    case _ => true
  }

  /** On the holder's mailbox nothing is pending but its own command. */
  ghost predicate OwnPending(s: State, pr: Proc) {
    forall i | 0 <= i < |s.log| && s.log[i].mbox == pr.req.mbox && i !in s.answers :: pr.mine == Some(i)
  }

  ghost predicate HolderData(cfg: Config, s: State, p: Pid)
    requires p in s.procs
  {
    s.procs[p].calm ==>
      && OwnPending(s, s.procs[p])
      && (s.procs[p].req.kind == Req ==> DataProc(cfg, s.regs, s.answers, s.procs[p]))
  }

  predicate TxTrusted(answers: map<nat, Reply>, tx: Tx) {
    tx.req.kind == Req && tx.calm ==> Trusted(answers, tx.sent, tx.resp, tx.rets, tx.lost)
  }

  ghost predicate DoneTrusted(s: State) {
    forall k | 0 <= k < |s.done| :: TxTrusted(s.answers, s.done[k])
  }

  ghost predicate DataInv(cfg: Config, s: State) {
    LockInv(cfg, s) && Data(cfg, s)
  }

  ghost predicate Data(cfg: Config, s: State) {
    && (s.lock.Some? ==> s.lock.value in s.procs)
    && LogIntact(s.log)
    && DoneTrusted(s)
    && (s.lock.Some? ==> HolderData(cfg, s, s.lock.value))
  }

  /** Records of finished calls stay trusted while answers are only added. */
  lemma TrustStays(s: State, t: State)
    requires DoneTrusted(s) && t.done == s.done
    requires forall i | i in s.answers :: i in t.answers && t.answers[i] == s.answers[i]
    ensures DoneTrusted(t)
  {
  }

  // ---------------------------------------------------------------- private steps

  lemma ReadAtTarget(cfg: Config, pr: Proc, sel: Word)
    requires ValidConfig(cfg) && HolderProc(cfg, pr, sel)
    requires CurrentAccess(pr).ReadAcc? && pr.half && !pr.err
    ensures sel == cfg.addr(pr.req.mbox, CurrentAccess(pr).reg)
  {
    assert IsReg(CurrentAccess(pr).reg);
  }

  /** One more word of the SMU's answer is read back. */
  lemma GenuineWord(answers: map<nat, Reply>, pr: Proc, k: nat, v: Word)
    requires k < 6 && ReadSoFar(answers, pr, k)
    requires !pr.err && pr.mine.Some? && pr.mine.value in answers ==> v == answers[pr.mine.value].results[k]
    ensures ReadSoFar(answers, pr.(rets := pr.rets + [v]), k + 1)
  {
    var q := pr.(rets := pr.rets + [v]);
    assert forall j | 0 <= j < k :: q.rets[j] == pr.rets[j];
  }

  /** A read whose failure was noticed: nothing is claimed of what was read. */
  lemma FailedReadData(cfg: Config, regs: map<Word, Word>, answers: map<nat, Reply>, pr: Proc, v: Word, sel: Word)
    requires ValidConfig(cfg) && HolderProc(cfg, pr, sel) && CurrentAccess(pr).ReadAcc? && pr.err
    requires pr.req.kind == Req && DataProc(cfg, regs, answers, pr)
    ensures DataProc(cfg, regs, answers, AfterRead(pr, v))
  {
    if pr.pc.ReadBack? {
      GenuineWord(answers, pr, pr.pc.i, v);
      hide ReadSoFar;
    }
    hide Loaded;
  }

  /** A read of the register the process selected. */
  lemma GoodReadData(cfg: Config, regs: map<Word, Word>, answers: map<nat, Reply>, pr: Proc, sel: Word)
    requires ValidConfig(cfg) && HolderProc(cfg, pr, sel) && CurrentAccess(pr).ReadAcc? && pr.half && !pr.err
    requires pr.req.kind == Req && DataProc(cfg, regs, answers, pr)
    ensures DataProc(cfg, regs, answers, AfterRead(pr, Read(regs, sel)))
  {
    ReadAtTarget(cfg, pr, sel);
    hide ValidConfig;
    hide Loaded;
    if pr.pc.ReadBack? {
      GenuineWord(answers, pr, pr.pc.i, Read(regs, sel));
      hide ReadSoFar;
    }
  }

  lemma NoticedReadData(cfg: Config, regs: map<Word, Word>, answers: map<nat, Reply>, pr: Proc, ok: bool, sel: Word)
    requires ValidConfig(cfg) && HolderProc(cfg, pr, sel) && CurrentAccess(pr).ReadAcc? && (ok ==> pr.half)
    requires pr.req.kind == Req && DataProc(cfg, regs, answers, pr)
    ensures DataProc(cfg, regs, answers, if ok then AfterRead(pr, Read(regs, sel)) else AfterRead(pr.(err := true), 0))
  {
    if ok && !pr.err {
      GoodReadData(cfg, regs, answers, pr, sel);
    } else if ok {
      FailedReadData(cfg, regs, answers, pr, Read(regs, sel), sel);
    } else {
      var q := pr.(err := true);
      assert CurrentAccess(q) == CurrentAccess(pr);
      FailedReadData(cfg, regs, answers, q, 0, sel);
    }
  }

  /** One more word is read back; `lost` says whether its failure went unnoticed. */
  lemma OneMoreWord(answers: map<nat, Reply>, pr: Proc, k: nat, v: Word)
    requires k < 6 && ReadSoFar(answers, pr, k)
    ensures
      var q := pr.(lost := pr.lost[k := v], rets := pr.rets + [v]);
      ReadSoFar(answers, q, k + 1)
  {
    var q := pr.(lost := pr.lost[k := v], rets := pr.rets + [v]);
    assert forall j | 0 <= j < k :: q.rets[j] == pr.rets[j] && (j in q.lost <==> j in pr.lost);
  }

  /** A read that failed unnoticed. */
  lemma LostReadData(cfg: Config, regs: map<Word, Word>, answers: map<nat, Reply>, pr: Proc, v: Word, sel: Word)
    requires ValidConfig(cfg) && HolderProc(cfg, pr, sel) && CurrentAccess(pr).ReadAcc?
    requires pr.req.kind == Req && DataProc(cfg, regs, answers, pr)
    ensures DataProc(cfg, regs, answers, AfterRead(Lose(pr, v), v))
  {
    if pr.pc.ReadBack? {
      OneMoreWord(answers, pr, pr.pc.i, v);
      hide ReadSoFar;
    }
    hide Loaded;
  }

  lemma StepData(cfg: Config, regs: map<Word, Word>, answers: map<nat, Reply>, pr: Proc, step: Step, sel: Word)
    requires ValidConfig(cfg) && HolderProc(cfg, pr, sel) && StepEnabled(pr, step)
    requires pr.req.kind == Req && DataProc(cfg, regs, answers, pr)
    ensures DataProc(cfg, regs, answers, StepProc(pr, step, Read(regs, sel)))
  {
    match step
    case ReadData(ok) => NoticedReadData(cfg, regs, answers, pr, ok, sel);
    case ReadError => NoticedReadData(cfg, regs, answers, pr, false, sel);
    case ReadLost(v) => LostReadData(cfg, regs, answers, pr, v, sel);
    case _ =>
  }

  lemma LocalData(cfg: Config, s: State, p: Pid, step: Step)
    requires ValidConfig(cfg) && DataInv(cfg, s) && s.lock == Some(p) && Enabled(cfg, s, Local(p, step))
    ensures DataInv(cfg, Apply(cfg, s, Local(p, step)))
  {
    hide Tickets;
    LocalKeeps(cfg, s, p, step);
    assert Holder(cfg, s, p) && HolderData(cfg, s, p);
    StepProcKeeps(cfg, s.procs[p], step, Read(s.regs, s.sel), s.sel);
    if s.procs[p].req.kind == Req && s.procs[p].calm {
      StepData(cfg, s.regs, s.answers, s.procs[p], step, s.sel);
    }
    hide LockInv;
    hide StepProc;
    hide DataProc;
  }

  // ---------------------------------------------------------------- register writes

  lemma SetupStoreData(cfg: Config, regs: map<Word, Word>, answers: map<nat, Reply>, pr: Proc, stored: bool, ok: bool)
    requires ValidConfig(cfg) && pr.pc.Setup? && pr.req.kind == Req
    requires DataProc(cfg, regs, answers, pr) && (ok ==> stored)
    ensures
      var regs' := if stored then regs[cfg.addr(pr.req.mbox, CurrentAccess(pr).reg) := CurrentAccess(pr).value] else regs;
      DataProc(cfg, regs', answers, AfterWrite(pr.(err := pr.err || !ok)))
  {
    var k := pr.pc.k;
    forall j | 0 <= j <= k
      ensures IsReg(SetupReg(j))
      ensures j < k ==> cfg.addr(pr.req.mbox, SetupReg(j)) != cfg.addr(pr.req.mbox, SetupReg(k))
    {
    }
  }

  /** A doorbell write that did not reach the register. */
  lemma MissedRingData(cfg: Config, regs: map<Word, Word>, answers: map<nat, Reply>, pr: Proc)
    requires pr.pc == Ring && pr.mine == None && DataProc(cfg, regs, answers, pr)
    ensures DataProc(cfg, regs, answers, AfterWrite(pr.(err := true)))
  {
  }

  lemma AfterWriteSameCall(pr: Proc)
    ensures AfterWrite(pr).req == pr.req && AfterWrite(pr).mine == pr.mine && AfterWrite(pr).calm == pr.calm
  {
  }

  lemma StoredData(cfg: Config, s: State, p: Pid, store: Store)
    requires ValidConfig(cfg) && p in s.procs && Holder(cfg, s, p) && Data(cfg, s) && s.lock == Some(p)
    requires StoreEnabled(s.procs[p], store) && !Rings(s.procs[p], store)
    ensures Data(cfg, Stored(cfg, s, p, store))
  {
    assert HolderData(cfg, s, p);
    var pr := s.procs[p];
    if pr.req.kind == Req && pr.calm {
      if pr.pc.Setup? {
        SetupStoreData(cfg, s.regs, s.answers, pr, store.ok || store.landed, store.ok);
      } else {
        MissedRingData(cfg, s.regs, s.answers, pr);
      }
    }
    TrustStays(s, Stored(cfg, s, p, store));
    AfterWriteSameCall(pr.(err := pr.err || !store.ok));
    hide AfterWrite;
    hide Holder;
    hide ValidConfig;
    hide DataProc;
    hide LogIntact;
    hide DoneTrusted;
  }

  /** With all seven setup writes in place, the doorbell latches exactly the request. */
  lemma RingLatchesRequest(cfg: Config, regs: map<Word, Word>, req: Request)
    requires ValidConfig(cfg) && Loaded(cfg, regs, req, 7)
    ensures
      var regs' := regs[cfg.addr(req.mbox, Msg) := req.id];
      Cmd(req.id, ArgRegs(cfg, regs', req.mbox)) == CmdOf(req) && Read(regs', cfg.addr(req.mbox, Rep)) == 0
  {
    var regs' := regs[cfg.addr(req.mbox, Msg) := req.id];
    forall j | 0 <= j < 7
      ensures Read(regs', cfg.addr(req.mbox, SetupReg(j))) == SetupValue(req, j)
    {
      assert IsReg(SetupReg(j)) && IsReg(Msg);
    }
    assert SetupReg(0) == Rep;
    forall j | 0 <= j < 6
      ensures Read(regs', cfg.addr(req.mbox, Arg(j))) == req.args[j]
    {
      assert SetupReg(j + 1) == Arg(j) && SetupValue(req, j + 1) == req.args[j];
    }
    assert ArgRegs(cfg, regs', req.mbox) == req.args;
  }

  /** Adding a log entry of the holder's own mailbox that is its own command. */
  lemma LatchedPending(s: State, t: State, pr: Proc, pr': Proc, e: Latch)
    requires OwnPending(s, pr) && pr.mine == None
    requires t.log == s.log + [e] && pr'.mine == Some(|s.log|) && pr'.req == pr.req
    requires forall i | i in s.answers :: i in t.answers
    ensures OwnPending(t, pr')
  {
  }

  lemma IntactSnoc(log: seq<Latch>, e: Latch)
    requires LogIntact(log) && Intact(e)
    ensures LogIntact(log + [e])
  {
  }

  lemma RungData(cfg: Config, s: State, p: Pid, store: Store)
    requires ValidConfig(cfg) && p in s.procs && Holder(cfg, s, p) && Data(cfg, s) && s.lock == Some(p)
    requires s.procs[p].pc == Ring && |s.log| !in s.answers
    ensures Data(cfg, Rung(cfg, s, p, store))
  {
    assert HolderData(cfg, s, p);
    var pr := s.procs[p];
    var t := Rung(cfg, s, p, store);
    if pr.calm {
      LatchedPending(s, t, pr, t.procs[p], t.log[|s.log|]);
    }
    if pr.req.kind == Req && pr.calm {
      RingLatchesRequest(cfg, s.regs, pr.req);
    }
    IntactSnoc(s.log, t.log[|s.log|]);
  }

  lemma WriteData(cfg: Config, s: State, p: Pid, store: Store)
    requires ValidConfig(cfg) && DataInv(cfg, s) && s.lock == Some(p) && StoreEnabled(s.procs[p], store)
    ensures DataInv(cfg, ApplyStore(cfg, s, p, store))
  {
    assert Holder(cfg, s, p);
    WriteKeeps(cfg, s, p, store);
    if Rings(s.procs[p], store) {
      RingMeaning(cfg, s, p, store);
      RungData(cfg, s, p, store);
    } else {
      StoredMeaning(cfg, s, p, store);
      StoredData(cfg, s, p, store);
    }
  }

  // ---------------------------------------------------------------- the SMU's answers

  lemma PostReplyPosts(cfg: Config, regs: map<Word, Word>, mbox: Mbox, reply: Reply)
    requires ValidConfig(cfg)
    ensures Posted(cfg, PostReply(cfg, regs, mbox, reply), mbox, reply)
  {
    assert forall j | 0 <= j < 6 :: IsReg(Arg(j));
    assert IsReg(Rep);
  }

  lemma PostReplyFrame(cfg: Config, regs: map<Word, Word>, mbox: Mbox, reply: Reply, other: Mbox, r: Reg)
    requires ValidConfig(cfg) && mbox != other && IsReg(r)
    ensures Read(PostReply(cfg, regs, mbox, reply), cfg.addr(other, r)) == Read(regs, cfg.addr(other, r))
  {
    assert forall j | 0 <= j < 6 :: IsReg(Arg(j));
    assert IsReg(Rep);
  }

  /** What is known of the holder depends on the registers of its own mailbox and its own command only. */
  lemma OwnMailboxOnly(cfg: Config, regs: map<Word, Word>, after: map<Word, Word>, answers: map<nat, Reply>, i: nat,
                       reply: Reply, pr: Proc)
    requires i !in answers && pr.mine != Some(i) && DataProc(cfg, regs, answers, pr)
    requires forall r | IsReg(r) :: Read(after, cfg.addr(pr.req.mbox, r)) == Read(regs, cfg.addr(pr.req.mbox, r))
    ensures DataProc(cfg, after, answers[i := reply], pr)
  {
    hide Read;
    assert forall j | 0 <= j < 7 :: IsReg(SetupReg(j));
    assert forall j | 0 <= j < 6 :: IsReg(Arg(j));
    assert IsReg(Rep);
  }

  /** An answer on the other mailbox does not disturb the holder. */
  lemma OtherAnswerData(cfg: Config, s: State, p: Pid, mbox: Mbox, i: nat, reply: Reply)
    requires ValidConfig(cfg) && p in s.procs && s.procs[p].req.kind == Req && s.procs[p].req.mbox != mbox
    requires i !in s.answers && s.procs[p].mine != Some(i)
    requires DataProc(cfg, s.regs, s.answers, s.procs[p])
    ensures DataProc(cfg, PostReply(cfg, s.regs, mbox, reply), s.answers[i := reply], s.procs[p])
  {
    hide PostReply;
    hide DataProc;
    forall r | IsReg(r)
      ensures Read(PostReply(cfg, s.regs, mbox, reply), cfg.addr(s.procs[p].req.mbox, r)) ==
              Read(s.regs, cfg.addr(s.procs[p].req.mbox, r))
    {
      PostReplyFrame(cfg, s.regs, mbox, reply, s.procs[p].req.mbox, r);
    }
    OwnMailboxOnly(cfg, s.regs, PostReply(cfg, s.regs, mbox, reply), s.answers, i, reply, s.procs[p]);
  }

  /** The answer to the holder's own command arrives while it waits. */
  lemma OwnAnswerData(cfg: Config, s: State, p: Pid, i: nat, reply: Reply)
    requires ValidConfig(cfg) && p in s.procs && s.procs[p].req.kind == Req
    requires i !in s.answers && s.procs[p].mine == Some(i) && reply.rsp != REP_TIMEOUT
    requires !BeforeRing(s.procs[p].pc)
    requires DataProc(cfg, s.regs, s.answers, s.procs[p])
    ensures DataProc(cfg, PostReply(cfg, s.regs, s.procs[p].req.mbox, reply), s.answers[i := reply], s.procs[p])
  {
    PostReplyPosts(cfg, s.regs, s.procs[p].req.mbox, reply);
  }

  lemma AnswerHolder(cfg: Config, s: State, p: Pid, i: nat, reply: Reply)
    requires ValidConfig(cfg) && p in s.procs && Holder(cfg, s, p) && HolderData(cfg, s, p)
    requires Open(s, i) && reply.rsp != REP_TIMEOUT
    ensures HolderData(cfg, Apply(cfg, s, Answer(i, reply)), p)
  {
    if s.procs[p].req.kind == Req && s.procs[p].calm {
      if s.log[i].mbox == s.procs[p].req.mbox {
        OwnAnswerData(cfg, s, p, i, reply);
      } else {
        OtherAnswerData(cfg, s, p, s.log[i].mbox, i, reply);
      }
    }
  }

  lemma AnswerData(cfg: Config, s: State, i: nat, reply: Reply)
    requires ValidConfig(cfg) && DataInv(cfg, s) && Open(s, i) && reply.rsp != REP_TIMEOUT
    ensures DataInv(cfg, Apply(cfg, s, Answer(i, reply)))
  {
    hide PostReply;
    AnswerKeeps(cfg, s, i, reply);
    if s.lock.Some? {
      AnswerHolder(cfg, s, s.lock.value, i, reply);
    }
  }

  // ---------------------------------------------------------------- the other steps

  lemma RawWriteData(cfg: Config, s: State, a: Action)
    requires a.RawWrite? && Enabled(cfg, s, a) && Holder(cfg, s, a.p) && Data(cfg, s) && s.lock == Some(a.p)
    requires |s.log| !in s.answers
    ensures Data(cfg, Apply(cfg, s, a))
  {
    assert HolderData(cfg, s, a.p);
    var pr := s.procs[a.p];
    var t := Apply(cfg, s, a);
    RawAnswers(cfg, s, a);
    TrustStays(s, t);
    if a.effect != NotRun {
      RawLatches(cfg, s, a);
      IntactSnoc(s.log, t.log[|s.log|]);
      if pr.calm {
        LatchedPending(s, t, pr, t.procs[a.p], t.log[|s.log|]);
      }
    }
    hide Apply;
    hide DoneTrusted;
    hide LogIntact;
    hide HolderProc;
  }

  lemma RawAnswers(cfg: Config, s: State, a: Action)
    requires a.RawWrite? && Enabled(cfg, s, a)
    ensures
      var t, pr := Apply(cfg, s, a), s.procs[a.p];
      && (forall i | i in s.answers && i != |s.log| :: i in t.answers && t.answers[i] == s.answers[i])
      && t.done == s.done && t.lock == s.lock && a.p in t.procs
      && (a.effect == NotRun ==> t.log == s.log && t.answers == s.answers && t.procs[a.p].mine == pr.mine)
      && t.procs[a.p].pc == (if Refuses(a.outcome) then Declined else Submitted(a.outcome.Taken?))
      && t.procs[a.p].req == pr.req && t.procs[a.p].calm == pr.calm
      && t.procs[a.p].lost == (if Refuses(a.outcome) then pr.lost else map[])
      && t.procs[a.p].half == pr.half && t.procs[a.p].via == (if Refuses(a.outcome) then pr.via else Driver)
  {
  }

  /** The driver path reports success only with the SMU's own answer. */
  lemma RawTrusted(taken: bool, answers: map<nat, Reply>, mine: Option<nat>, req: Request, result: RawResult)
    requires RawContract(taken, answers, mine, result)
    ensures Trusted(answers, mine, RawResponse(result), RawRets(req, result), map[])
  {
  }

  lemma RawReadData(cfg: Config, s: State, a: Action)
    requires a.RawRead? && Enabled(cfg, s, a) && DataInv(cfg, s) && s.lock == Some(a.p)
    ensures Data(cfg, Apply(cfg, s, a))
  {
    assert Holder(cfg, s, a.p) && HolderData(cfg, s, a.p);
    var pr := s.procs[a.p];
    RawTrusted(pr.pc.taken, s.answers, pr.mine, pr.req, a.result);
    hide RawContract;
    hide RawResponse;
    hide RawRets;
    hide Trusted;
    hide LockInv;
    hide LogIntact;
    hide DoneTrusted;
  }

  lemma BeginData(cfg: Config, s: State, p: Pid, req: Request)
    requires DataInv(cfg, s) && p in s.procs && s.procs[p].pc == Idle
    ensures DataInv(cfg, Begin(s, p, req))
  {
    StartKeeps(cfg, s, p, req);
  }

  lemma LockOkData(cfg: Config, s: State, p: Pid)
    requires DataInv(cfg, s) && p in s.procs && s.procs[p].pc == Locking && s.lock == None
    ensures DataInv(cfg, EnterLock(s, p).(lock := Some(p)))
  {
    LockOkKeeps(cfg, s, p);
  }

  lemma TimeoutData(cfg: Config, s: State, p: Pid)
    requires DataInv(cfg, s) && p in s.procs && s.procs[p].pc == Locking
    ensures DataInv(cfg, Complete(s, p, REP_REJECTED_BUSY, s.procs[p].req.args))
  {
    hide Tickets;
    hide Records;
    hide Posted;
    hide LostAre;
    hide Mutex;
    TimeoutKeeps(cfg, s, p, REP_REJECTED_BUSY, s.procs[p].req.args);
    if s.lock.Some? {
      assert HolderData(cfg, s, s.lock.value);
    }
  }

  lemma UnlockData(cfg: Config, s: State, p: Pid)
    requires DataInv(cfg, s) && p in s.procs && s.lock == Some(p) && s.procs[p].pc == Unlocking
    ensures DataInv(cfg, Complete(s, p, s.procs[p].resp, s.procs[p].rets).(lock := None))
  {
    hide LockInv;
    hide Tickets;
    hide CurrentAccess;
    UnlockKeeps(cfg, s, p, s.procs[p].resp, s.procs[p].rets);
    assert HolderData(cfg, s, p);
  }

  lemma DieData(cfg: Config, s: State, p: Pid)
    requires DataInv(cfg, s) && s.lock == Some(p) && Enabled(cfg, s, Die(p))
    ensures DataInv(cfg, Apply(cfg, s, Die(p)))
  {
    DieKeeps(cfg, s, p);
    hide LockInv;
    hide LogIntact;
    hide HolderData;
  }

  lemma DataInvStep(cfg: Config, s: State, a: Action)
    requires ValidConfig(cfg) && cfg.FlockWorks()
    requires DataInv(cfg, s) && Enabled(cfg, s, a)
    ensures DataInv(cfg, Apply(cfg, s, a))
  {
    hide DataProc;
    hide HolderLog;
    if Inside(a) || a.Unlock? || a.LockSkip? || a.Die? {
      ActorHolds(cfg, s, a);
    }
    match a
    case Answer(i, reply) => AnswerData(cfg, s, i, reply);
    case Start(p, req) => BeginData(cfg, s, p, req);
    case LockOk(p) => LockOkData(cfg, s, p);
    case LockTimeout(p) => TimeoutData(cfg, s, p);
    case LockSkip(_) =>
    case RawWrite(p, _, _, _, _) => RawWriteKeeps(cfg, s, a); assert Holder(cfg, s, p); RawWriteData(cfg, s, a);
    case RawRead(p, _) => RawSilentKeeps(cfg, s, a); RawReadData(cfg, s, a);
    case Local(p, step) => LocalData(cfg, s, p, step);
    case Write(p, store) => WriteData(cfg, s, p, store);
    case Unlock(p) => UnlockData(cfg, s, p);
    case Die(p) => DieData(cfg, s, p);
  }

  lemma {:induction false} DataInvRun(cfg: Config, ss: seq<State>, acts: seq<Action>, n: nat)
    requires ValidConfig(cfg) && cfg.FlockWorks()
    requires Run(cfg, ss, acts) && n < |ss|
    ensures DataInv(cfg, ss[n])
  {
    if n == 0 {
      InitIsLocked(cfg, ss[0]);
    } else {
      DataInvRun(cfg, ss, acts, n - 1);
      assert StepBy(cfg, ss[n - 1], acts[n - 1], ss[n]);
      DataInvStep(cfg, ss[n - 1], acts[n - 1]);
    }
  }

  // ---------------------------------------------------------------- main results

  /** Every calm doorbell carries the id and all six arguments of its one call. */
  lemma DoorbellsAreIntact(cfg: Config, ss: seq<State>, acts: seq<Action>, n: nat)
    requires ValidConfig(cfg) && cfg.FlockWorks()
    requires Run(cfg, ss, acts) && n < |ss|
    ensures LogIntact(ss[n].log)
  {
    DataInvRun(cfg, ss, acts, n);
  }
}
