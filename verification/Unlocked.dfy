/**
 Why the lock matters, and for every single process. smu_lock goes on without a lock when the lock
 file cannot be opened or flock is not supported; one process that does so is enough to make the SMU
 run commands that nobody asked for, although nothing was pending when any call began.
 */
module Unlocked {
  import opened Words
  import opened SmuLayout
  import opened MailboxProtocol
  import opened MailboxSafety
  import opened MailboxIntegrity
  import opened MailboxPaths

  /** The machine before any call, with two processes. */
  function Fresh(u: Pid, q: Pid): State {
    var idle := Proc(Idle, false, false, 0, TestRequest(MP1), 0, [], None, Refused, false, map[]);
    State(map[], 0, None, map[u := idle, q := idle], [], map[], 0, [], [])
  }

  /** A power limit. */
  function Limit(value: Word): Request {
    Request(Req, MP1, 0x1a, [value, 0, 0, 0, 0, 0])
  }

  lemma FreshRun(cfg: Config, u: Pid, q: Pid)
    ensures Leads(cfg, Trail([Fresh(u, q)], []), Fresh(u, q))
  {
  }

  /** A call up to its first register access, with the lock if it can. */
  lemma Enter(cfg: Config, tr0: Trail, s0: State, p: Pid, req: Request) returns (tr: Trail, s: State)
    requires ValidConfig(cfg) && Leads(cfg, tr0, s0) && s0.lock == None && s0.log == []
    requires p in s0.procs && s0.procs[p].pc == Idle && (req.kind == Test ==> req == TestRequest(req.mbox))
    ensures Leads(cfg, tr, s) && p in s.procs && s.procs == s0.procs[p := s.procs[p]] && s.log == []
    ensures !cfg.flock(p) ==> s.lock == None
    ensures
      var pr := s.procs[p];
      pr.pc == Raw && !pr.half && pr.req == req && pr.calm && pr.lost == map[] && pr.mine == None
  {
    hide Leads;
    hide ValidConfig;
    tr, s := Go(cfg, tr0, s0, Start(p, req));
    tr, s := Go(cfg, tr, s, if cfg.flock(p) then LockOk(p) else LockSkip(p));
  }

  // ---------------------------------------------------------------- arguments mix

  /** Process `q` writes its own limit over the one another process has prepared. */
  lemma Overwrite(cfg: Config, tr0: Trail, s0: State, q: Pid) returns (tr: Trail, s: State)
    requires ValidConfig(cfg) && Leads(cfg, tr0, s0) && q in s0.procs && s0.log == []
    requires s0.procs[q].pc == Raw && !s0.procs[q].half && s0.procs[q].req == Limit(90000)
    ensures Leads(cfg, tr, s) && OnlyOwn(s0, s, q) && Read(s.regs, cfg.addr(MP1, Arg(0))) == 90000
  {
    hide Leads;
    tr, s := FallBack(cfg, tr0, s0, q);
    tr, s := Go(cfg, tr, s, Local(q, Take));
    tr, s := FullWrite(cfg, tr, s, q);
    tr, s := FullWrite(cfg, tr, s, q);
  }

  /** One process without the lock, on any backends: it asks for 25000, and the SMU is told 90000. */
  lemma ArgumentsMix(cfg: Config, u: Pid, q: Pid) returns (tr: Trail, s: State)
    requires ValidConfig(cfg) && !cfg.flock(u) && u != q
    ensures Leads(cfg, tr, s) && |s.log| == 1
    ensures s.log[0].req == Limit(25000) && s.log[0].calm && s.log[0].cmd.args[0] == 90000
  {
    FreshRun(cfg, u, q);
    hide Leads;
    hide ValidConfig;
    tr, s := Enter(cfg, Trail([Fresh(u, q)], []), Fresh(u, q), u, Limit(25000));
    tr, s := Approach(cfg, tr, s, u);
    tr, s := Enter(cfg, tr, s, q, Limit(90000));
    tr, s := Overwrite(cfg, tr, s, q);
    tr, s := Doorbell(cfg, tr, s, u);
  }

  // ---------------------------------------------------------------- a limit runs as a command

  /** Process `u` has selected its first argument register and is about to store the limit. */
  lemma SelectLimit(cfg: Config, u: Pid, q: Pid) returns (tr: Trail, s: State)
    requires ValidConfig(cfg) && !cfg.flock(u) && cfg.Mapped(u) && u != q
    ensures Leads(cfg, tr, s) && s.log == [] && s.lock == None && u in s.procs && q in s.procs && s.procs[q].pc == Idle
    ensures
      var pr := s.procs[u];
      pr.pc == Setup(1) && pr.half && pr.req == Limit(25000) && pr.calm
  {
    hide ApplyStore;
    hide StepBy;
    hide Dead;
    hide Quiet;
    hide StepSel;
    hide Complete;
    hide Enabled;
    hide Init;
    FreshRun(cfg, u, q);
    hide Leads;
    hide ValidConfig;
    tr, s := Enter(cfg, Trail([Fresh(u, q)], []), Fresh(u, q), u, Limit(25000));
    tr, s := FallBack(cfg, tr, s, u);
    tr, s := Go(cfg, tr, s, Local(u, Take));
    tr, s := FullWrite(cfg, tr, s, u);
    tr, s := FirstHalf(cfg, tr, s, u);
  }

  /** Process `q` tests the mailbox and has selected the doorbell. */
  lemma SelectDoorbell(cfg: Config, tr0: Trail, s0: State, u: Pid, q: Pid) returns (tr: Trail, s: State)
    requires ValidConfig(cfg) && cfg.Mapped(q) && Leads(cfg, tr0, s0) && u != q && s0.lock == None
    requires s0.log == [] && u in s0.procs && q in s0.procs && s0.procs[q].pc == Idle
    ensures Leads(cfg, tr, s)
    ensures u in s.procs && s.procs[u] == s0.procs[u] && s.log == [] && s.sel == cfg.addr(MP1, Msg)
  {
    hide ValidConfig;
    hide Quiet;
    hide Leads;
    tr, s := Enter(cfg, tr0, s0, q, TestRequest(MP1));
    tr, s := FallBack(cfg, tr, s, q);
    tr, s := FullWrite(cfg, tr, s, q);
    tr, s := FullWrite(cfg, tr, s, q);
    assert IsReg(Arg(0));
    tr, s := FullRead(cfg, tr, s, q, ReadData(true));
    tr, s := FirstHalf(cfg, tr, s, q);
  }

  /**
   Through PCI configuration space the limit of a process without the lock is stored in the
   doorbell that another process has selected, and the SMU takes it for a message id.
   */
  lemma LimitRunsAsCommand(cfg: Config, u: Pid, q: Pid) returns (tr: Trail, s: State)
    requires ValidConfig(cfg) && !cfg.flock(u) && cfg.Mapped(u) && cfg.Mapped(q) && u != q
    ensures Leads(cfg, tr, s) && |s.log| == 1
    ensures s.log[0].req == Limit(25000) && s.log[0].calm && s.log[0].cmd.id == 25000 != Limit(25000).id
  {
    hide Leads;
    tr, s := SelectLimit(cfg, u, q);
    tr, s := SelectDoorbell(cfg, tr, s, u, q);
    tr, s := Go(cfg, tr, s, Write(u, DataHalf(true, true)));
  }

  // ---------------------------------------------------------------- the exact condition

  /**
   The lock is exactly what keeps requests together, and every process has to take part: every
   command the SMU takes for a call that began with a quiet mailbox is the whole request of that
   call if and only if flock works for all processes.
   */
  lemma IntactIffLocked(cfg: Config)
    requires ValidConfig(cfg)
    ensures (forall ss: seq<State>, acts: seq<Action>, n: nat | Run(cfg, ss, acts) && n < |ss| :: LogIntact(ss[n].log))
            <==> cfg.FlockWorks()
  {
    if cfg.FlockWorks() {
      forall ss: seq<State>, acts: seq<Action>, n: nat | Run(cfg, ss, acts) && n < |ss|
        ensures LogIntact(ss[n].log)
      {
        DoorbellsAreIntact(cfg, ss, acts, n);
      }
    } else {
      var u: Pid :| !cfg.flock(u);
      var tr, s := ArgumentsMix(cfg, u, u + 1);
      assert !Intact(s.log[0]);
      assert !LogIntact(tr.ss[|tr.acts|].log);
    }
  }
}
