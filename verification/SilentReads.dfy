/**
 Responses and results that are not the SMU's. Without the driver the library does not check its
 data reads, goes on reading after a failed select, and looks at the error flag only after a
 success. Each lemma here is one complete run of any process on such a machine; the exact
 conditions are in MailboxResponses and MailboxCalls.ResultsExact.
 */
module SilentReads {
  import opened Words
  import opened SmuLayout
  import opened MailboxProtocol
  import opened MailboxSafety
  import opened MailboxIntegrity
  import opened MailboxPaths
  import opened MailboxCalls

  /** A machine with one process. */
  function Fresh(p: Pid, regs: map<Word, Word>): State {
    var idle := Proc(Idle, false, false, 0, TestRequest(MP1), 0, [], None, Refused, false, map[]);
    State(regs, 0, None, map[p := idle], [], map[], 0, [], [])
  }

  lemma FreshRun(cfg: Config, p: Pid, regs: map<Word, Word>)
    ensures Leads(cfg, Trail([Fresh(p, regs)], []), Fresh(p, regs))
  {
  }

  /** It asks for the version of the metric table. */
  function Query(): Request {
    Request(Req, PSMU, 0x6, [0, 0, 0, 0, 0, 0])
  }

  /** The SMU's answer. */
  function Version(): Reply {
    Reply(REP_OK, [0x400005, 0, 0, 0, 0, 0])
  }

  /** The process is about to poll. */
  lemma SendQuery(cfg: Config, p: Pid) returns (tr: Trail, s: State)
    requires ValidConfig(cfg) && cfg.FlockWorks()
    ensures Leads(cfg, tr, s) && p in s.procs && |s.log| == 1 && s.log[0].mbox == PSMU && s.answers == map[] && s.done == []
    ensures Read(s.regs, cfg.addr(PSMU, Msg)) == 0x6 && (cfg.Mapped(p) ==> s.sel == cfg.addr(PSMU, Msg))
    ensures
      var pr := s.procs[p];
      && pr.pc == Wait && !pr.half && !pr.err && pr.req == Query() && pr.rets == Query().args
      && pr.calm && pr.mine == Some(0) && pr.lost == map[] && pr.via == Registers
  {
    FreshRun(cfg, p, map[]);
    hide Leads;
    hide ValidConfig;
    tr, s := Trail([Fresh(p, map[])], []), Fresh(p, map[]);
    tr, s := Go(cfg, tr, s, Start(p, Query()));
    tr, s := Go(cfg, tr, s, LockOk(p));
    tr, s := Approach(cfg, tr, s, p);
    tr, s := Doorbell(cfg, tr, s, p);
  }

  // ---------------------------------------------------------------- data reads

  /** The result of the query is lost: the call succeeds and returns all ones. */
  lemma LostResult(cfg: Config, p: Pid) returns (tr: Trail, s: State)
    requires ValidConfig(cfg) && cfg.FlockWorks() && cfg.Mapped(p)
    ensures Leads(cfg, tr, s) && |s.done| == 1
    ensures
      var tx := s.done[0];
      && tx.pid == p && tx.req == Query() && tx.calm && tx.resp == REP_OK && RESPONSE !in tx.lost
      && tx.sent == Some(0) && 0 in s.answers && s.answers[0] == Version()
      && |tx.rets| == 6 && tx.rets[0] == ALL_ONES != Version().results[0]
  {
    hide Leads;
    hide ValidConfig;
    tr, s := SendQuery(cfg, p);
    tr, s := PollAnswer(cfg, tr, s, p);
    tr, s := FullRead(cfg, tr, s, p, ReadLost(ALL_ONES));
    assert s.procs[p].rets == [ALL_ONES];
    tr, s := ReadRest(cfg, tr, s, p, 1);
    tr, s := Leave(cfg, tr, s, p);
  }

  /** The SMU answers, and the response is really read. */
  lemma PollAnswer(cfg: Config, tr0: Trail, s0: State, p: Pid) returns (tr: Trail, s: State)
    requires ValidConfig(cfg) && Leads(cfg, tr0, s0) && p in s0.procs && |s0.log| == 1 && s0.log[0].mbox == PSMU
    requires s0.answers == map[] && s0.procs[p].pc == Wait && !s0.procs[p].half && s0.procs[p].req == Query()
    ensures Leads(cfg, tr, s) && p in s.procs && s.log == s0.log && s.done == s0.done && s.answers == map[0 := Version()]
    ensures s.procs[p] == s0.procs[p].(pc := ReadBack(0), resp := REP_OK, rets := [])
  {
    PostReplyPosts(cfg, s0.regs, PSMU, Version());
    assert IsReg(Rep);
    hide Leads;
    hide ValidConfig;
    hide PostReply;
    tr, s := Go(cfg, tr0, s0, Answer(0, Version()));
    assert Read(s.regs, cfg.addr(PSMU, Rep)) == REP_OK;
    tr, s := FullRead(cfg, tr, s, p, ReadData(true));
  }

  /** The first poll is lost: the call returns with a response before the SMU has answered. */
  lemma LostPoll(cfg: Config, p: Pid) returns (tr: Trail, s: State)
    requires ValidConfig(cfg) && cfg.FlockWorks() && cfg.Mapped(p)
    ensures Leads(cfg, tr, s) && |s.done| == 1
    ensures
      var tx := s.done[0];
      tx.pid == p && tx.req == Query() && tx.calm && tx.resp == ALL_ONES && tx.sent == Some(0) && Open(s, 0)
  {
    hide Leads;
    hide ValidConfig;
    tr, s := SendQuery(cfg, p);
    tr, s := FullRead(cfg, tr, s, p, ReadLost(ALL_ONES));
    tr, s := ReadRest(cfg, tr, s, p, 0);
    tr, s := Leave(cfg, tr, s, p);
  }

  // ---------------------------------------------------------------- selects

  /**
   No read is lost, but the first poll's select fails: the doorbell is still selected, and the call
   returns its own message id as the response. The failure is noticed and then not looked at,
   because the response is no success.
   */
  lemma OwnIdReturned(cfg: Config, p: Pid) returns (tr: Trail, s: State)
    requires ValidConfig(cfg) && cfg.FlockWorks() && cfg.Mapped(p)
    ensures Leads(cfg, tr, s) && |s.done| == 1
    ensures
      var tx := s.done[0];
      && tx.pid == p && tx.req == Query() && tx.calm && tx.via == Registers && tx.lost == map[]
      && tx.resp == Query().id && tx.sent == Some(0) && Open(s, 0)
  {
    hide Leads;
    hide ValidConfig;
    tr, s := SendQuery(cfg, p);
    tr, s := MissedRead(cfg, tr, s, p);
    tr, s := ReadRest(cfg, tr, s, p, 0);
    tr, s := Leave(cfg, tr, s, p);
  }

  // ---------------------------------------------------------------- the mailbox test

  /** The test has the lock and goes by the registers. */
  lemma BeginTest(cfg: Config, p: Pid, regs: map<Word, Word>) returns (tr: Trail, s: State)
    requires ValidConfig(cfg) && cfg.FlockWorks()
    ensures Leads(cfg, tr, s) && p in s.procs && s.log == [] && s.answers == map[] && s.done == [] && s.regs == regs
    ensures
      var pr := s.procs[p];
      && pr.pc == Setup(0) && !pr.half && !pr.err && pr.req == TestRequest(MP1) && pr.calm && pr.via == Registers
      && pr.mine == None && pr.lost == map[]
  {
    FreshRun(cfg, p, regs);
    hide Leads;
    hide ValidConfig;
    tr, s := Trail([Fresh(p, regs)], []), Fresh(p, regs);
    tr, s := Go(cfg, tr, s, Start(p, TestRequest(MP1)));
    tr, s := Go(cfg, tr, s, LockOk(p));
    tr, s := FallBack(cfg, tr, s, p);
  }

  /** The argument is written and read back. */
  lemma WriteAndVerify(cfg: Config, tr0: Trail, s0: State, p: Pid) returns (tr: Trail, s: State)
    requires ValidConfig(cfg) && Leads(cfg, tr0, s0) && p in s0.procs
    requires s0.procs[p].pc == Setup(1) && !s0.procs[p].half && s0.procs[p].req == TestRequest(MP1)
    ensures Leads(cfg, tr, s) && OnlyOwn(s0, s, p)
    ensures s.procs[p] == s0.procs[p].(pc := Ring)
    ensures Read(s.regs, cfg.addr(MP1, Rep)) == Read(s0.regs, cfg.addr(MP1, Rep))
  {
    assert IsReg(Arg(0)) && IsReg(Rep);
    hide Leads;
    tr, s := FullWrite(cfg, tr0, s0, p);
    tr, s := FullRead(cfg, tr, s, p, ReadData(true));
  }

  /** The id of the test message is the code of success: the test passes before the SMU has answered. */
  lemma UnansweredTest(cfg: Config, p: Pid) returns (tr: Trail, s: State)
    requires ValidConfig(cfg) && cfg.FlockWorks() && cfg.Mapped(p)
    ensures Leads(cfg, tr, s) && |s.done| == 1
    ensures
      var tx := s.done[0];
      && tx.pid == p && tx.req == TestRequest(MP1) && tx.calm && tx.resp == REP_OK && tx.lost == map[]
      && tx.sent == Some(0) && Open(s, 0)
  {
    hide Leads;
    hide ValidConfig;
    tr, s := BeginTest(cfg, p, map[]);
    tr, s := FullWrite(cfg, tr, s, p);
    tr, s := WriteAndVerify(cfg, tr, s, p);
    tr, s := Doorbell(cfg, tr, s, p);
    tr, s := MissedRead(cfg, tr, s, p);
    tr, s := Leave(cfg, tr, s, p);
  }

  /** The poll of a test is lost, and no failure is noticed. */
  lemma LostTest(cfg: Config, p: Pid) returns (tr: Trail, s: State)
    requires ValidConfig(cfg) && cfg.FlockWorks() && cfg.Mapped(p)
    ensures Leads(cfg, tr, s) && p in s.procs && s.answers == map[]
    ensures s.procs[p].pc == Drop && s.procs[p].calm && !s.procs[p].err && s.procs[p].resp == ALL_ONES
  {
    hide Leads;
    hide ValidConfig;
    tr, s := BeginTest(cfg, p, map[]);
    tr, s := FullWrite(cfg, tr, s, p);
    tr, s := WriteAndVerify(cfg, tr, s, p);
    tr, s := Doorbell(cfg, tr, s, p);
    tr, s := FullRead(cfg, tr, s, p, ReadLost(ALL_ONES));
  }

  /**
   On either backend: an old success is in the response register, clearing it fails, and so does
   the doorbell. The test passes although nothing was sent; the flag that tells is thrown away.
   */
  lemma UnsentTest(cfg: Config, p: Pid) returns (tr: Trail, s: State)
    requires ValidConfig(cfg) && cfg.FlockWorks()
    ensures Leads(cfg, tr, s) && |s.done| == 1
    ensures
      var tx := s.done[0];
      && tx.pid == p && tx.req == TestRequest(MP1) && tx.calm && tx.resp == REP_OK && tx.lost == map[]
      && tx.via == Registers && tx.sent == None && s.log == []
  {
    hide Leads;
    hide ValidConfig;
    tr, s := BeginTest(cfg, p, map[cfg.addr(MP1, Rep) := REP_OK]);
    tr, s := FailedWrite(cfg, tr, s, p);
    tr, s := WriteAndVerify(cfg, tr, s, p);
    tr, s := FailedWrite(cfg, tr, s, p);
    assert IsReg(Rep);
    tr, s := FullRead(cfg, tr, s, p, ReadData(true));
    tr, s := Leave(cfg, tr, s, p);
  }
}
