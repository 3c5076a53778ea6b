/**
 The code does not guard against a late answer to a command that timed out earlier. This
 module gives the exact condition under which a call is safe from it, at two moments: when it
 takes the lock, and, still, when everything is prepared and only the doorbell is missing. Both
 times it is certain that the SMU takes the call's own command if and only if no earlier command
 is pending on that mailbox.
 */
module LateAnswers {
  import opened Words
  import opened SmuLayout
  import opened MailboxProtocol
  import opened MailboxSafety
  import opened MailboxIntegrity
  import opened MailboxPaths
  import opened MailboxCalls

  ghost predicate Path(cfg: Config, ss: seq<State>, acts: seq<Action>) {
    && |ss| == |acts| + 1
    && forall i | 0 <= i < |acts| :: StepBy(cfg, ss[i], acts[i], ss[i + 1])
  }

  /** `p` stays at the doorbell while others move, and then rings it. */
  ghost predicate EndsInRing(ss: seq<State>, acts: seq<Action>, p: Pid) {
    && |acts| > 0 && |ss| == |acts| + 1
    && (forall i | 0 <= i < |acts| :: p in ss[i].procs && ss[i].procs[p].pc == Ring)
    && acts[|acts| - 1].Write? && acts[|acts| - 1].p == p
    && Rings(ss[|acts| - 1].procs[p], acts[|acts| - 1].store)
  }

  /** Whatever happens before it, the doorbell write of `p` makes the SMU latch p's own request. */
  ghost predicate CertainToSendOwn(cfg: Config, s: State, p: Pid)
    requires p in s.procs
  {
    hide LockInv;
    hide Loaded;
    hide Apply;
    hide ApplyStore;
    hide Quiet;
    forall ss: seq<State>, acts: seq<Action> | Path(cfg, ss, acts) && ss[0] == s && EndsInRing(ss, acts, p) ::
      var t := ss[|acts|];
      |t.log| > 0 && t.log[|t.log| - 1].cmd == CmdOf(s.procs[p].req)
  }

  /** All setup writes are done, and only the doorbell store itself is missing. */
  ghost predicate ReadyToRing(cfg: Config, s: State, p: Pid) {
    && LockInv(cfg, s) && s.lock == Some(p) && p in s.procs
    && s.procs[p].pc == Ring && s.procs[p].req.kind == Req && s.procs[p].half == cfg.Mapped(p)
    && Loaded(cfg, s.regs, s.procs[p].req, 7)
  }

  lemma AnswerStaysReady(cfg: Config, s: State, i: nat, reply: Reply, p: Pid)
    requires ValidConfig(cfg) && cfg.FlockWorks()
    requires ReadyToRing(cfg, s, p) && Quiet(s, s.procs[p].req.mbox)
    requires Enabled(cfg, s, Answer(i, reply))
    ensures
      var t := Apply(cfg, s, Answer(i, reply));
      ReadyToRing(cfg, t, p) && Quiet(t, s.procs[p].req.mbox)
  {
    LockInvStep(cfg, s, Answer(i, reply));
    assert Holder(cfg, s, p);
    hide LockInv;
    LoadedElsewhere(cfg, s.regs, s.log[i].mbox, reply, s.procs[p].req);
    hide PostReply;
    hide Loaded;
  }

  /** An answer on the other mailbox leaves the prepared registers alone. */
  lemma LoadedElsewhere(cfg: Config, regs: map<Word, Word>, mbox: Mbox, reply: Reply, req: Request)
    requires ValidConfig(cfg) && mbox != req.mbox && Loaded(cfg, regs, req, 7)
    ensures Loaded(cfg, PostReply(cfg, regs, mbox, reply), req, 7)
  {
    hide PostReply;
    forall j | 0 <= j < 7
      ensures Read(PostReply(cfg, regs, mbox, reply), cfg.addr(req.mbox, SetupReg(j))) == SetupValue(req, j)
    {
      PostReplyFrame(cfg, regs, mbox, reply, req.mbox, SetupReg(j));
    }
  }

  /** While the holder of the lock stays at the doorbell, only answers change registers or the log. */
  lemma RingUntouched(cfg: Config, s: State, a: Action, p: Pid)
    requires cfg.FlockWorks() && LockInv(cfg, s) && Enabled(cfg, s, a) && !a.Answer?
    requires s.lock == Some(p) && p in s.procs && s.procs[p].pc == Ring && s.procs[p].half == cfg.Mapped(p)
    requires p in Apply(cfg, s, a).procs && Apply(cfg, s, a).procs[p].pc == Ring
    ensures
      var t := Apply(cfg, s, a);
      && t.regs == s.regs && t.log == s.log && t.answers == s.answers && t.lock == s.lock
      && t.procs[p].req == s.procs[p].req && t.procs[p].half == s.procs[p].half
  {
    hide StoreEnabled;
    hide Tickets;
    hide Records;
    hide StepSel;
    hide TestRequest;
    assert Mutex(s);
    if Inside(a) || a.Unlock? {
      ActorHolds(cfg, s, a);
      if a.Write? {
        NoWriteStaysAtRing(cfg, s, p, a.store);
      }
    }
    hide LockInv;
    hide Mutex;
  }

  lemma StaysReady(cfg: Config, s: State, a: Action, p: Pid)
    requires ValidConfig(cfg) && cfg.FlockWorks()
    requires ReadyToRing(cfg, s, p) && Quiet(s, s.procs[p].req.mbox)
    requires Enabled(cfg, s, a)
    requires p in Apply(cfg, s, a).procs && Apply(cfg, s, a).procs[p].pc == Ring
    ensures ReadyToRing(cfg, Apply(cfg, s, a), p)
    ensures Apply(cfg, s, a).procs[p].req == s.procs[p].req
    ensures Quiet(Apply(cfg, s, a), s.procs[p].req.mbox)
  {
    LockInvStep(cfg, s, a);
    if a.Answer? {
      AnswerStaysReady(cfg, s, a.i, a.reply, p);
    } else {
      hide Apply;
      RingUntouched(cfg, s, a, p);
    }
  }

  lemma NoWriteStaysAtRing(cfg: Config, s: State, p: Pid, store: Store)
    requires p in s.procs && s.procs[p].pc == Ring && StoreEnabled(s.procs[p], store)
    ensures ApplyStore(cfg, s, p, store).procs[p].pc != Ring
  {
  }

  lemma {:induction false} ReadyAlongPath(cfg: Config, ss: seq<State>, acts: seq<Action>, p: Pid, n: nat)
    requires ValidConfig(cfg) && cfg.FlockWorks()
    requires Path(cfg, ss, acts) && EndsInRing(ss, acts, p) && n < |acts|
    requires ReadyToRing(cfg, ss[0], p) && Quiet(ss[0], ss[0].procs[p].req.mbox)
    ensures ReadyToRing(cfg, ss[n], p) && Quiet(ss[n], ss[0].procs[p].req.mbox)
    ensures ss[n].procs[p].req == ss[0].procs[p].req
  {
    if n > 0 {
      ReadyAlongPath(cfg, ss, acts, p, n - 1);
      assert StepBy(cfg, ss[n - 1], acts[n - 1], ss[n]);
      StaysReady(cfg, ss[n - 1], acts[n - 1], p);
    }
  }

  lemma RingSendsOwn(cfg: Config, s: State, p: Pid, store: Store)
    requires ValidConfig(cfg) && ReadyToRing(cfg, s, p)
    requires StoreEnabled(s.procs[p], store) && Rings(s.procs[p], store)
    ensures
      var t := ApplyStore(cfg, s, p, store);
      |t.log| > 0 && t.log[|t.log| - 1].cmd == CmdOf(s.procs[p].req)
  {
    assert Holder(cfg, s, p);
    RingMeaning(cfg, s, p, store);
    RingLatchesRequest(cfg, s.regs, s.procs[p].req);
  }

  lemma QuietPath(cfg: Config, ss: seq<State>, acts: seq<Action>, p: Pid)
    requires ValidConfig(cfg) && cfg.FlockWorks() && Path(cfg, ss, acts) && EndsInRing(ss, acts, p)
    requires ReadyToRing(cfg, ss[0], p) && Quiet(ss[0], ss[0].procs[p].req.mbox)
    ensures
      var log := ss[|acts|].log;
      |log| > 0 && log[|log| - 1].cmd == CmdOf(ss[0].procs[p].req)
  {
    var n := |acts| - 1;
    ReadyAlongPath(cfg, ss, acts, p, n);
    assert StepBy(cfg, ss[n], acts[n], ss[n + 1]);
    hide Path;
    hide ReadyToRing;
    hide ApplyStore;
    RingSendsOwn(cfg, ss[n], p, acts[n].store);
  }

  lemma QuietIsEnough(cfg: Config, s: State, p: Pid)
    requires ValidConfig(cfg) && cfg.FlockWorks()
    requires ReadyToRing(cfg, s, p) && Quiet(s, s.procs[p].req.mbox)
    ensures CertainToSendOwn(cfg, s, p)
  {
    assert p in s.procs;
    hide ReadyToRing;
    hide Quiet;
    forall ss: seq<State>, acts: seq<Action> | Path(cfg, ss, acts) && ss[0] == s && EndsInRing(ss, acts, p)
      ensures |ss[|acts|].log| > 0
      ensures ss[|acts|].log[|ss[|acts|].log| - 1].cmd == CmdOf(s.procs[p].req)
    {
      QuietPath(cfg, ss, acts, p);
    }
  }

  /** An answer that differs from the request in its first word. */
  function Clobber(req: Request): (reply: Reply)
    ensures reply.results[0] != req.args[0]
  {
    Reply(REP_OK, [if req.args[0] == 0 then 1 else 0, 0, 0, 0, 0, 0])
  }

  lemma LateAnswerStep(cfg: Config, s: State, mbox: Mbox, i: nat, reply: Reply) returns (s1: State)
    requires ValidConfig(cfg) && Open(s, i) && s.log[i].mbox == mbox && reply.rsp != REP_TIMEOUT
    ensures StepBy(cfg, s, Answer(i, reply), s1)
    ensures s1.procs == s.procs && s1.sel == s.sel && s1.log == s.log
    ensures Read(s1.regs, cfg.addr(mbox, Arg(0))) == reply.results[0]
  {
    s1 := Apply(cfg, s, Answer(i, reply));
    PostReplyPosts(cfg, s.regs, mbox, reply);
  }

  /** The doorbell latches whatever is in the first argument register. */
  lemma RingStep(cfg: Config, s: State, p: Pid, store: Store) returns (t: State)
    requires ValidConfig(cfg) && p in s.procs && HolderProc(cfg, s.procs[p], s.sel)
    requires StoreEnabled(s.procs[p], store) && Rings(s.procs[p], store) && store.Whole? == !cfg.Mapped(p)
    ensures StepBy(cfg, s, Write(p, store), t)
    ensures |t.log| == |s.log| + 1
    ensures t.log[|s.log|].cmd.args[0] == Read(s.regs, cfg.addr(s.procs[p].req.mbox, Arg(0)))
  {
    t := Rung(cfg, s, p, store);
    RingMeaning(cfg, s, p, store);
    assert IsReg(Arg(0)) && IsReg(Msg);
  }

  lemma TwoStepRing(cfg: Config, s: State, s1: State, s2: State, p: Pid, a: Action, b: Action)
    requires StepBy(cfg, s, a, s1) && StepBy(cfg, s1, b, s2)
    requires p in s.procs && s.procs[p].pc == Ring && s1.procs == s.procs
    requires b.Write? && b.p == p && Rings(s.procs[p], b.store)
    requires |s2.log| > 0 && s2.log[|s2.log| - 1].cmd != CmdOf(s.procs[p].req)
    ensures !CertainToSendOwn(cfg, s, p)
  {
    hide StepBy;
    var ss, acts := [s, s1, s2], [a, b];
    assert Path(cfg, ss, acts);
    assert EndsInRing(ss, acts, p);
    assert ss[0] == s && ss[|acts|] == s2;
  }

  /** The late answer to `i`, then the doorbell: the SMU latches a command nobody asked for. */
  lemma LateAnswerTears(cfg: Config, s: State, p: Pid, i: nat)
    requires ValidConfig(cfg) && ReadyToRing(cfg, s, p)
    requires Open(s, i) && s.log[i].mbox == s.procs[p].req.mbox
    ensures !CertainToSendOwn(cfg, s, p)
  {
    var req := s.procs[p].req;
    var reply := Clobber(req);
    var store := if s.procs[p].half then DataHalf(true, true) else Whole(true, true, s.sel);
    assert Holder(cfg, s, p);
    assert CurrentAccess(s.procs[p]).WriteAcc?;
    hide StepBy;
    hide LockInv;
    var s1 := LateAnswerStep(cfg, s, req.mbox, i, reply);
    var s2 := RingStep(cfg, s1, p, store);
    assert s2.log[|s2.log| - 1].cmd.args[0] != req.args[0];
    TwoStepRing(cfg, s, s1, s2, p, Answer(i, reply), Write(p, store));
  }

  /**
   The exact condition: a prepared request is certain to be sent intact if and only if
   nothing is pending on its mailbox.
   */
  lemma IntactIffQuiet(cfg: Config, s: State, p: Pid)
    requires ValidConfig(cfg) && cfg.FlockWorks() && ReadyToRing(cfg, s, p)
    ensures CertainToSendOwn(cfg, s, p) <==> Quiet(s, s.procs[p].req.mbox)
  {
    if Quiet(s, s.procs[p].req.mbox) {
      QuietIsEnough(cfg, s, p);
    } else {
      var i :| 0 <= i < |s.log| && s.log[i].mbox == s.procs[p].req.mbox && i !in s.answers;
      LateAnswerTears(cfg, s, p, i);
    }
  }

  // ---------------------------------------------------------------- at the lock

  /** However the run goes on after `p` has taken the lock, what the SMU takes for this call is its request. */
  ghost predicate CertainOwn(cfg: Config, tr: Trail, s: State, p: Pid)
    requires p in s.procs
  {
    forall later: Trail |
      && Continues(tr, later) && Run(cfg, later.ss, later.acts)
      && |later.acts| > |tr.acts| && later.acts[|tr.acts|] == LockOk(p) ::
      OwnOnly(later.ss[|later.acts|].log, s.procs[p])
  }

  predicate OwnOnly(log: seq<Latch>, pr: Proc) {
    forall i | 0 <= i < |log| && log[i].ticket == pr.ticket :: log[i].cmd == CmdOf(pr.req) && log[i].mbox == pr.req.mbox
  }

  /** Taking the lock and preparing the request. */
  lemma TakeAndPrepare(cfg: Config, tr: Trail, s: State, p: Pid) returns (later: Trail, t: State)
    requires ValidConfig(cfg) && cfg.FlockWorks() && Leads(cfg, tr, s) && Enabled(cfg, s, LockOk(p))
    requires s.procs[p].req.kind == Req
    ensures Leads(cfg, later, t) && Continues(tr, later)
    ensures |later.acts| > |tr.acts| && later.acts[|tr.acts|] == LockOk(p)
    ensures p in t.procs && t.procs[p].pc == Ring && !t.procs[p].half
    ensures t.procs[p].req == s.procs[p].req && t.procs[p].ticket == s.procs[p].ticket
    ensures t.log == s.log && t.answers == s.answers
  {
    LockInvRun(cfg, tr.ss, tr.acts, |tr.acts|);
    assert Tickets(s);
    hide Leads;
    hide LockInv;
    hide ValidConfig;
    later, t := Go(cfg, tr, s, LockOk(p));
    later, t := Approach(cfg, later, t, p);
  }

  /** A late answer, and then the doorbell. */
  lemma AnswerThenRing(cfg: Config, tr: Trail, s: State, p: Pid, i: nat) returns (later: Trail, t: State)
    requires ValidConfig(cfg) && Leads(cfg, tr, s) && p in s.procs && s.procs[p].pc == Ring && !s.procs[p].half
    requires Open(s, i) && s.log[i].mbox == s.procs[p].req.mbox
    ensures Leads(cfg, later, t) && Continues(tr, later)
    ensures |t.log| == |s.log| + 1 && t.log[|s.log|].ticket == s.procs[p].ticket
    ensures t.log[|s.log|].cmd.args[0] != s.procs[p].req.args[0]
  {
    var req := s.procs[p].req;
    var reply := Clobber(req);
    PostReplyPosts(cfg, s.regs, req.mbox, reply);
    hide Leads;
    hide ValidConfig;
    hide PostReply;
    later, t := Go(cfg, tr, s, Answer(i, reply));
    assert Read(t.regs, cfg.addr(req.mbox, Arg(0))) == reply.results[0];
    later, t := Doorbell(cfg, later, t, p);
  }

  /** With a command pending, a run in which its answer comes after the arguments were written. */
  lemma PendingTears(cfg: Config, tr: Trail, s: State, p: Pid, i: nat) returns (later: Trail)
    requires ValidConfig(cfg) && cfg.FlockWorks() && Leads(cfg, tr, s) && Enabled(cfg, s, LockOk(p))
    requires s.procs[p].req.kind == Req && Open(s, i) && s.log[i].mbox == s.procs[p].req.mbox
    ensures Continues(tr, later) && Run(cfg, later.ss, later.acts)
    ensures |later.acts| > |tr.acts| && later.acts[|tr.acts|] == LockOk(p)
    ensures !OwnOnly(later.ss[|later.acts|].log, s.procs[p])
  {
    hide Leads;
    hide ValidConfig;
    var mid, t, u;
    mid, t := TakeAndPrepare(cfg, tr, s, p);
    later, u := AnswerThenRing(cfg, mid, t, p, i);
    LeadsThere(cfg, later, u);
    assert !OwnOnly(u.log, s.procs[p]) by {
      assert u.log[|t.log|].cmd != CmdOf(s.procs[p].req);
    }
  }

  lemma LeadsThere(cfg: Config, tr: Trail, s: State)
    requires Leads(cfg, tr, s)
    ensures Run(cfg, tr.ss, tr.acts) && tr.ss[|tr.acts|] == s
  {
  }

  /**
   The exact condition for a call: that the SMU will take nothing but its own request for it is
   certain if and only if nothing is pending on its mailbox when it takes the lock.
   */
  lemma CallIntactIffQuiet(cfg: Config, tr: Trail, s: State, p: Pid)
    requires ValidConfig(cfg) && cfg.FlockWorks() && Leads(cfg, tr, s) && Enabled(cfg, s, LockOk(p))
    requires s.procs[p].req.kind == Req
    ensures CertainOwn(cfg, tr, s, p) <==> Quiet(s, s.procs[p].req.mbox)
  {
    if Quiet(s, s.procs[p].req.mbox) {
      forall later: Trail |
        && Continues(tr, later) && Run(cfg, later.ss, later.acts)
        && |later.acts| > |tr.acts| && later.acts[|tr.acts|] == LockOk(p)
        ensures OwnOnly(later.ss[|later.acts|].log, s.procs[p])
      {
        assert later.ss[|tr.acts|] == tr.ss[|tr.acts|] == s;
        CallIsIntact(cfg, later.ss, later.acts, |tr.acts|, |later.acts|, p);
      }
    } else {
      var i :| 0 <= i < |s.log| && s.log[i].mbox == s.procs[p].req.mbox && i !in s.answers;
      var later := PendingTears(cfg, tr, s, p, i);
      assert !CertainOwn(cfg, tr, s, p);
    }
  }
}
