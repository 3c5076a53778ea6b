/**
 smu_service_req and smu_service_test as one process executes them, against the shared machine of MailboxProtocol.
 Between any two of its own register accesses the process is overtaken by arbitrarily many
 steps of other processes and of the SMU. The object records the run; each method proves that
 what it does is a run of the machine, so every theorem about runs is a theorem about the code.
 */
module MailboxClient {
  import opened Words
  import opened SmuLayout
  import opened MailboxProtocol
  import opened MailboxSafety
  import opened MailboxPaths
  import opened MailboxCalls
  import opened MailboxResponses

  const LOCK_TIMEOUT_MS: nat := 2000
  const RESP_TIMEOUT_MS: nat := 1000

  /** Successive readings of CLOCK_MONOTONIC: never backwards, and past any bound eventually. */
  ghost predicate Ticking(clock: nat -> nat) {
    && (forall i, j | i <= j :: clock(i) <= clock(j))
    && (forall bound: nat :: Reaches(clock, bound))
  }

  ghost predicate Reaches(clock: nat -> nat, bound: nat) {
    exists i :: clock(i) >= bound
  }

  /** A step of process `p`. */
  predicate Moves(a: Action, p: Pid) {
    !a.Answer? && a.p == p
  }

  lemma OthersLeaveMeAlone(cfg: Config, s: State, a: Action, pid: Pid)
    requires Enabled(cfg, s, a) && pid in s.procs && !Moves(a, pid)
    ensures pid in Apply(cfg, s, a).procs && Apply(cfg, s, a).procs[pid] == s.procs[pid]
  {
    match a {
      case Write(p, store) => StoreLosesNothing(cfg, s, p, store);
      case RawWrite(p, _, effect, _, _) => RawLosesNothing(s, p, effect);
      case _ =>
    }
    hide ApplyStore;
    hide RawLatch;
    hide RawResponse;
    hide RawRets;
    hide StepProc;
    hide PostReply;
    hide Quiet;
  }

  /** One's own private step. */
  lemma OwnStep(cfg: Config, s: State, p: Pid, step: Step)
    requires p in s.procs && StepEnabled(s.procs[p], step) && StepFits(cfg.Mapped(p), s.procs[p], step)
    ensures Enabled(cfg, s, Local(p, step))
    ensures Apply(cfg, s, Local(p, step)).procs[p] == StepProc(s.procs[p], step, Read(s.regs, s.sel))
    ensures Apply(cfg, s, Local(p, step)).procs.Keys == s.procs.Keys
    ensures Apply(cfg, s, Local(p, step)).regs == s.regs && (!step.Select? ==> Apply(cfg, s, Local(p, step)).sel == s.sel)
    ensures Apply(cfg, s, Local(p, step)).answers == s.answers
  {
  }

  /** One's own register write. */
  lemma OwnStore(cfg: Config, s: State, p: Pid, store: Store)
    requires p in s.procs && StoreEnabled(s.procs[p], store) && store.Whole? == !cfg.Mapped(p)
    ensures Enabled(cfg, s, Write(p, store))
    ensures p in Apply(cfg, s, Write(p, store)).procs
    ensures SameBut(Apply(cfg, s, Write(p, store)).procs[p],
                    AfterWrite(s.procs[p].(err := s.procs[p].err || !store.ok)))
  {
    hide Lose;
    hide Latched;
    hide Read;
    if store.ok || store.landed {
      PokeKeepsCall(cfg, s, p, StoreAddr(cfg, s, p, store), CurrentAccess(s.procs[p]).value);
    }
  }

  lemma StillEarly(clock: nat -> nat, i: nat, last: nat)
    requires Ticking(clock) && clock(i) < clock(last)
    ensures i < last
  {
  }

  /** Taking the lock, or going on without it. */
  lemma LockStep(cfg: Config, s: State, p: Pid)
    requires p in s.procs && s.procs[p].pc == Locking
    ensures !cfg.flock(p) ==>
              && Enabled(cfg, s, LockSkip(p))
              && Apply(cfg, s, LockSkip(p)).procs == s.procs[p := s.procs[p].(pc := Raw, calm := Quiet(s, s.procs[p].req.mbox))]
    ensures cfg.flock(p) && s.lock == None ==>
              && Enabled(cfg, s, LockOk(p))
              && Apply(cfg, s, LockOk(p)).procs == s.procs[p := s.procs[p].(pc := Raw, calm := Quiet(s, s.procs[p].req.mbox))]
              && Apply(cfg, s, LockOk(p)).lock == Some(p)
  {
  }

  lemma UnlockStep(cfg: Config, s: State, p: Pid)
    requires p in s.procs && s.procs[p].pc == Unlocking
    ensures Enabled(cfg, s, Unlock(p))
    ensures
      var t := Apply(cfg, s, Unlock(p));
      var pr := s.procs[p];
      && p in t.procs && t.procs[p].pc == Idle && t.procs[p].err == pr.err && t.lock != Some(p)
      && t.done == s.done + [Tx(pr.ticket, p, pr.req, pr.resp, pr.rets, pr.mine, pr.via, pr.calm, pr.lost)]
      && t.answers == s.answers
  {
  }

  lemma TimeoutStep(cfg: Config, s: State, p: Pid)
    requires p in s.procs && s.procs[p].pc == Locking && cfg.flock(p)
    ensures Enabled(cfg, s, LockTimeout(p))
    ensures
      var t := Apply(cfg, s, LockTimeout(p));
      var pr := s.procs[p];
      && p in t.procs && t.procs[p].pc == Idle && t.procs[p].err == pr.err
      && t.done == s.done + [Tx(pr.ticket, p, pr.req, REP_REJECTED_BUSY, pr.req.args, pr.mine, pr.via, pr.calm, pr.lost)]
  {
  }

  lemma StartStep(cfg: Config, s: State, p: Pid, req: Request)
    requires p in s.procs && s.procs[p].pc == Idle && (req.kind == Test ==> req == TestRequest(req.mbox))
    ensures Enabled(cfg, s, Start(p, req))
    ensures
      var t := Apply(cfg, s, Start(p, req));
      && p in t.procs && t.procs[p].pc == Locking && t.procs[p].req == req && !t.procs[p].half && t.procs[p].via == Refused
      && t.procs[p].err == s.procs[p].err
  {
  }

  lemma RawWriteStep(cfg: Config, s: State, p: Pid, outcome: RawOutcome, effect: RawEffect, regs: map<Word, Word>, sel: Word)
    requires p in s.procs && s.procs[p].pc == Raw && (outcome.NoInterface? <==> !cfg.HasTransactions(p))
    requires Refuses(outcome) ==> effect.NotRun?
    ensures Enabled(cfg, s, RawWrite(p, outcome, effect, regs, sel))
    ensures
      var t := Apply(cfg, s, RawWrite(p, outcome, effect, regs, sel));
      && p in t.procs && t.procs[p].req == s.procs[p].req && t.procs[p].err == s.procs[p].err
      && t.procs[p].half == s.procs[p].half && t.done == s.done
      && (Refuses(outcome) ==> t.procs[p].pc == Declined)
      && (!Refuses(outcome) ==> t.procs[p].pc == Submitted(outcome.Taken?) && t.procs[p].via == Driver)
  {
  }

  lemma RawReadStep(cfg: Config, s: State, p: Pid, result: RawResult)
    requires p in s.procs && s.procs[p].pc.Submitted? && RawContract(s.procs[p].pc.taken, s.answers, s.procs[p].mine, result)
    ensures Enabled(cfg, s, RawRead(p, result))
    ensures Apply(cfg, s, RawRead(p, result)).done == s.done
    ensures
      var t := Apply(cfg, s, RawRead(p, result));
      && p in t.procs && t.procs[p].pc == Unlocking && t.procs[p].req == s.procs[p].req
      && t.procs[p].err == s.procs[p].err
      && t.procs[p].resp == RawResponse(result) && t.procs[p].rets == RawRets(s.procs[p].req, result)
      && t.procs[p].via == s.procs[p].via
  {
  }

  lemma ResponsesMeant(cfg: Config, ss: seq<State>, acts: seq<Action>, s: State, p: Pid)
    requires ValidConfig(cfg) && cfg.FlockWorks() && Run(cfg, ss, acts) && ss[|acts|] == s
    ensures forall k | 0 <= k < |s.done| :: Genuine(cfg, s, s.done[k])
    ensures !cfg.Mapped(p) ==> DoneMeant(s, p)
  {
    if !cfg.Mapped(p) {
      RespInvRun(cfg, ss, acts, |acts|, p);
    }
    hide AnsweredAs;
    hide Returned;
    hide DoneMeant;
    hide Run;
    forall k | 0 <= k < |s.done|
      ensures Genuine(cfg, s, s.done[k])
    {
      var q := s.done[k].pid;
      if !cfg.Mapped(q) && Returned(s.done[k], q) && s.done[k].req.kind == Req {
        RequestAnswered(cfg, ss, acts, |acts|, k, q);
      }
    }
  }

  /** What the theorems about runs say at the end of a call. */
  lemma RunConsequences(cfg: Config, ss: seq<State>, acts: seq<Action>, s: State, p: Pid)
    requires ValidConfig(cfg) && Run(cfg, ss, acts) && ss[|acts|] == s
    requires p in s.procs && s.procs[p].pc == Idle
    ensures cfg.FlockWorks() ==> s.lock != Some(p)
    ensures cfg.FlockWorks() ==> forall k | 0 <= k < |s.done| :: Kept(s, s.done[k])
    ensures cfg.FlockWorks() ==> forall k | 0 <= k < |s.done| :: Genuine(cfg, s, s.done[k])
    ensures cfg.FlockWorks() && !cfg.Mapped(p) ==> DoneMeant(s, p)
    ensures NothingLost(cfg, s)
  {
    if cfg.FlockWorks() {
      ResponsesMeant(cfg, ss, acts, s, p);
    }
    hide Genuine;
    hide DoneMeant;
    DriverLosesNothing(cfg, ss, acts, |acts|);
    if cfg.FlockWorks() {
      LockSafety(cfg, ss, acts, |acts|);
      forall k | 0 <= k < |s.done|
        ensures Kept(s, s.done[k])
      {
        var tx := s.done[k];
        if tx.req.kind == Req && tx.calm && tx.resp == REP_OK {
          if RESPONSE !in tx.lost {
            SuccessMeansExecuted(cfg, ss, acts, |acts|, k);
          } else if OnesOnly(tx.lost) {
            ResultsExact(cfg, ss, acts, |acts|, k);
          }
        }
      }
    }
  }

  /** Steps that are failed accesses, or failed halves of one, as far as the library notices. */
  predicate Fails(step: Step) {
    step.ReadError? || (step.Select? && !step.ok) || (step.ReadData? && !step.ok)
  }

  /** Completing an access clears the half-way mark. */
  lemma AfterWriteForgets(pr: Proc, err: bool)
    ensures AfterWrite(pr.(half := true, err := err)) == AfterWrite(pr.(err := err))
  {
  }

  /** Completing a read clears the half-way mark. */
  lemma AfterReadForgets(pr: Proc, qr: Proc, err: bool)
    requires pr == qr.(half := true, err := err) && CurrentAccess(qr).ReadAcc?
    ensures CurrentAccess(pr) == CurrentAccess(qr)
    ensures forall lost: map<nat, Word>, v: Word ::
              AfterRead(pr.(lost := lost), v) == AfterRead(qr.(err := err, lost := lost), v)
    ensures forall v: Word :: Lose(pr, v).lost == Lose(qr, v).lost
  {
  }

  class Client {
    const cfg: Config
    const pid: Pid
    const clock: nat -> nat
    const start: State             // the machine when the object was made

    var now: State                 // the machine
    var smnIoError: bool           // static smn_io_error
    var ticks: nat                 // clock readings so far
    ghost var states: seq<State>
    ghost var acts: seq<Action>
    ghost var faults: nat          // register accesses of this process whose failure was noticed
    ghost var starts: nat          // calls this process has begun

    ghost predicate Valid()
      reads this
    {
      && ValidConfig(cfg) && Ticking(clock)
      && Run(cfg, states, acts) && states[0] == start && states[|acts|] == now
      && pid in now.procs && now.procs[pid].err == smnIoError
      && starts == Starts(acts, pid)
    }

    /** The process's own state in the machine. */
    function Me(): Proc
      requires pid in now.procs
      reads this
    {
      now.procs[pid]
    }

    /** A later point of the same run (the states follow from the start and the actions); no record of a call is lost. */
    twostate predicate Extends()
      reads this
    {
      old(acts) <= acts && |old(now.done)| <= |now.done|
    }

    /** The sticky flag is set exactly if it was set or an access has failed meanwhile. */
    twostate predicate Flagged()
      reads this
    {
      old(faults) <= faults && (smnIoError <==> old(smnIoError) || old(faults) < faults)
    }

    constructor (cfg: Config, pid: Pid, clock: nat -> nat, start: State)
      requires ValidConfig(cfg) && Ticking(clock) && Init(start) && pid in start.procs
      ensures Valid() && now == start && acts == [] && Me().pc == Idle
      ensures this.cfg == cfg && this.pid == pid
    {
      this.cfg, this.pid, this.clock, this.start := cfg, pid, clock, start;
      now, smnIoError, ticks := start, start.procs[pid].err, 0;
      states, acts, faults, starts := [start], [], 0, 0;
    }

    /** One step of the machine. */
    method Do(a: Action)
      requires Run(cfg, states, acts) && states[|acts|] == now && Enabled(cfg, now, a)
      modifies this`now, this`states, this`acts
      ensures Run(cfg, states, acts) && states[0] == old(states)[0] && states[|acts|] == now && Extends()
      ensures now == Apply(cfg, old(now), a)
      ensures Starts(acts, pid) == Starts(old(acts), pid) + if a.Start? && a.p == pid then 1 else 0
    {
      RunSnoc(cfg, states, acts, a);
      StartsSnoc(acts, a, pid);
      now := Apply(cfg, now, a);
      states, acts := states + [now], acts + [a];
    }

    /** Any number of steps of other processes and of the SMU. */
    method Interfere()
      requires Valid()
      modifies this`now, this`states, this`acts
      ensures Valid() && Extends()
      ensures Me() == old(Me())
    {
      var n: nat := *;
      while n > 0
        invariant Valid() && Extends() && Me() == old(Me())
      {
        var a: Action := *;
        if Enabled(cfg, now, a) && !Moves(a, pid) {
          OthersLeaveMeAlone(cfg, now, a, pid);
          Do(a);
        }
        n := n - 1;
      }
    }

    /**
     A bounded wait of `limit` milliseconds that began with reading number `from` of the clock:
     no reading but the last reaches the limit, and the last one does exactly if the wait is `over`.
     */
    ghost predicate Timed(from: nat, limit: nat, over: bool)
      reads this`ticks
    {
      && from < ticks && (over ==> from + 1 < ticks)
      && forall i | from < i < ticks :: clock(i) < clock(from) + limit <==> !(over && i == ticks - 1)
    }

    /** Reading CLOCK_MONOTONIC. */
    method MonotonicMs() returns (t: nat)
      modifies this`ticks
      ensures t == clock(old(ticks)) && ticks == old(ticks) + 1
    {
      t := clock(ticks);
      ticks := ticks + 1;
    }

    /** A private step of this process. */
    method Private(step: Step)
      requires Valid() && StepEnabled(Me(), step) && StepFits(cfg.Mapped(pid), Me(), step)
      modifies this`now, this`states, this`acts, this`smnIoError, this`faults
      ensures Valid() && Extends()
      ensures Me() == StepProc(old(Me()), step, Read(old(now).regs, old(now).sel))
      ensures now.regs == old(now).regs && now.answers == old(now).answers && (!step.Select? ==> now.sel == old(now).sel)
      ensures faults == old(faults) + if Fails(step) then 1 else 0
    {
      hide Starts;
      hide ValidConfig;
      hide Ticking;
      hide StepProc;
      hide StepSel;
      hide StepEnabled;
      OwnStep(cfg, now, pid, step);
      Do(Local(pid, step));
      smnIoError := now.procs[pid].err;
      faults := faults + if Fails(step) then 1 else 0;
    }

    method Put(store: Store)
      requires Valid() && StoreEnabled(Me(), store) && store.Whole? == !cfg.Mapped(pid)
      modifies this`now, this`states, this`acts, this`smnIoError, this`faults
      ensures Valid() && Extends()
      ensures SameBut(Me(), AfterWrite(old(Me()).(err := old(Me()).err || !store.ok)))
      ensures faults == old(faults) + if store.ok then 0 else 1
    {
      hide Starts;
      hide ValidConfig;
      hide Ticking;
      hide ApplyStore;
      hide StoreEnabled;
      OwnStore(cfg, now, pid, store);
      Do(Write(pid, store));
      smnIoError := smnIoError || !store.ok;
      faults := faults + if store.ok then 0 else 1;
    }

    /** Address and data separately; a failed select skips the data. */
    method SelectThenStore(ghost reg: Reg, ghost data: Word)
      requires Valid() && CurrentAccess(Me()) == WriteAcc(reg, data) && !Me().half && cfg.Mapped(pid)
      modifies this`now, this`states, this`acts, this`smnIoError, this`faults
      ensures Valid() && Extends()
      ensures SameBut(Me(), AfterWrite(old(Me()).(err := smnIoError)))
      ensures Flagged()
    {
      hide Run;
      hide Starts;
      hide ValidConfig;
      var ok: bool, landed: bool := *, *;
      Private(Select(ok, landed));
      if ok {
        assert Me() == old(Me()).(half := true);
        Interfere();
        ok, landed := *, *;
        Put(DataHalf(ok, landed));
        AfterWriteForgets(old(Me()), smnIoError);
      }
    }

    /**
     smn_reg_write: one driver call, or through PCI configuration space address and data
     separately; either half may fail, and a failed half may still have reached the hardware.
     */
    method SmnRegWrite(reg: Reg, data: Word)
      requires Valid() && CurrentAccess(Me()) == WriteAcc(reg, data) && !Me().half
      modifies this`now, this`states, this`acts, this`smnIoError, this`faults
      ensures Valid() && Extends()
      ensures SameBut(Me(), AfterWrite(old(Me()).(err := smnIoError)))
      ensures Flagged()
    {
      hide Run;
      hide Starts;
      hide ValidConfig;
      Interfere();
      if cfg.Mapped(pid) {
        SelectThenStore(reg, data);
      } else {
        var ok: bool, landed: bool, sel: Word := *, *, *;
        Put(Whole(ok, landed, sel));
      }
    }

    /**
     smn_reg_read. Through the driver any failure returns 0 and is noticed. Through PCI
     configuration space a failed select is noticed but what is selected is read all the same,
     and a failed data read goes unnoticed, whatever it returns.
     */
    method SmnRegRead(reg: Reg) returns (v: Word)
      requires Valid() && CurrentAccess(Me()) == ReadAcc(reg) && !Me().half
      modifies this`now, this`states, this`acts, this`smnIoError, this`faults
      ensures Valid() && Extends()
      ensures Me() == AfterRead(old(Me()).(err := smnIoError, lost := Me().lost), v)
      ensures Me().lost == old(Me().lost) || (cfg.Mapped(pid) && Me().lost == Lose(old(Me()), v).lost)
      ensures Flagged() && (!cfg.Mapped(pid) ==> v == if faults == old(faults) then Read(now.regs, now.sel) else 0)
    {
      hide Run;
      hide Starts;
      hide ValidConfig;
      Interfere();
      if cfg.Mapped(pid) {
        ghost var missed;
        v, missed := ReadMapped(reg);
      } else {
        v := ReadDriver(reg);
      }
    }

    /** The second half of smn_reg_read_mem. */
    method TakeData(ghost reg: Reg) returns (v: Word, ghost missed: bool)
      requires Valid() && CurrentAccess(Me()) == ReadAcc(reg) && Me().half && cfg.Mapped(pid)
      modifies this`now, this`states, this`acts, this`smnIoError, this`faults
      ensures Valid() && Extends()
      ensures Me() == AfterRead(old(Me()).(lost := Me().lost), v)
      ensures if missed then Me().lost == Lose(old(Me()), v).lost
              else Me().lost == old(Me().lost) && v == Read(now.regs, now.sel)
      ensures smnIoError == old(smnIoError) && faults == old(faults)
    {
      hide SetupReg;
      hide Read;
      hide Ticking;
      hide StepSel;
      hide Run;
      hide Starts;
      hide ValidConfig;
      Interfere();
      var read: bool := *;
      v, missed := *, !read;
      if read {
        v := Read(now.regs, now.sel);
        Private(ReadData(true));
      } else {
        Private(ReadLost(v));
      }
    }

    /** smn_reg_read_mem: a failed select is noticed, a failed data read is not. */
    method ReadMapped(ghost reg: Reg) returns (v: Word, ghost missed: bool)
      requires Valid() && CurrentAccess(Me()) == ReadAcc(reg) && !Me().half && cfg.Mapped(pid)
      modifies this`now, this`states, this`acts, this`smnIoError, this`faults
      ensures Valid() && Extends()
      ensures Me() == AfterRead(old(Me()).(err := smnIoError, lost := Me().lost), v)
      ensures if missed then Me().lost == Lose(old(Me()), v).lost
              else Me().lost == old(Me().lost) && v == Read(now.regs, now.sel)
      ensures Flagged()
    {
      hide Run;
      hide Starts;
      hide ValidConfig;
      var ok: bool, landed: bool := *, *;
      Private(Select(ok, landed));
      assert Me() == old(Me()).(half := true, err := smnIoError);
      AfterReadForgets(Me(), old(Me()), smnIoError);
      v, missed := TakeData(reg);
    }

    /** smn_reg_read_kmod. */
    method ReadDriver(ghost reg: Reg) returns (v: Word)
      requires Valid() && CurrentAccess(Me()) == ReadAcc(reg) && !Me().half && !cfg.Mapped(pid)
      modifies this`now, this`states, this`acts, this`smnIoError, this`faults
      ensures Valid() && Extends()
      ensures Me() == AfterRead(old(Me()).(err := smnIoError), v)
      ensures Flagged() && v == if faults == old(faults) then Read(now.regs, now.sel) else 0
    {
      hide Reaches;
      hide Ticking;
      hide Run;
      hide Starts;
      hide ValidConfig;
      var selected: bool, ok: bool := *, *;
      if !selected {
        Private(ReadError);
        v := 0;
      } else {
        Private(Select(true, true));
        Interfere();
        v := if ok then Read(now.regs, now.sel) else 0;
        Private(ReadData(ok));
      }
    }

    /** smn_io_take_error: return the flag and clear it. */
    method SmnIoTakeError() returns (e: bool)
      requires Valid() && (Me().pc in {TakeError, Check, Finish, Drop} || Me().pc == Polled)
      modifies this`now, this`states, this`acts, this`smnIoError, this`faults
      ensures Valid() && Extends()
      ensures e == old(smnIoError) && !smnIoError && faults == old(faults) && now.answers == old(now).answers
      ensures Me() == StepProc(old(Me()), if old(Me()).pc == Polled then GiveUp else Take, 0)
    {
      e := smnIoError;
      Private(if Me().pc == Polled then GiveUp else Take);
    }

    /** One non-blocking flock; it may be interrupted. */
    method TryFlock() returns (locked: bool)
      requires Valid() && Me().pc == Locking && cfg.flock(pid)
      modifies this`now, this`states, this`acts
      ensures Valid() && Extends()
      ensures !locked ==> Me() == old(Me())
      ensures locked ==>
                && Me() == old(Me()).(pc := Raw, calm := Quiet(now, old(Me()).req.mbox))
                && now.lock == Some(pid)
    {
      hide Run;
      hide Starts;
      hide ValidConfig;
      hide Ticking;
      Interfere();
      var interrupted: bool := *;
      locked := now.lock == None && !interrupted;
      if locked {
        LockStep(cfg, now, pid);
        Do(LockOk(pid));
      }
    }

    /** Going on without a lock. */
    method SkipLock()
      requires Valid() && Me().pc == Locking && !cfg.flock(pid)
      modifies this`now, this`states, this`acts
      ensures Valid() && Extends()
      ensures Me() == old(Me()).(pc := Raw, calm := Quiet(now, old(Me()).req.mbox))
    {
      hide Run;
      hide Starts;
      hide ValidConfig;
      hide Ticking;
      Interfere();
      LockStep(cfg, now, pid);
      Do(LockSkip(pid));
    }

    /**
     smu_lock: retry the non-blocking flock until the deadline; 0 when the lock is held (or
     flock does not work here), -1 when the deadline passed.
     */
    method SmuLock() returns (r: int, ghost tries: nat)
      requires Valid() && Me().pc == Locking
      modifies this`now, this`states, this`acts, this`ticks
      ensures Valid() && Extends()
      ensures r == 0 || r == -1
      ensures r == 0 ==>
                && Me() == old(Me()).(pc := Raw, calm := Quiet(now, old(Me()).req.mbox))
                && (cfg.flock(pid) ==> now.lock == Some(pid))
      ensures r == -1 ==> Me() == old(Me()) && cfg.flock(pid)
      // a try is made before each reading of the clock, and the first reading that reaches the deadline is the last
      ensures if cfg.flock(pid) then Timed(old(ticks), 2000, r == -1) && ticks == old(ticks) + tries + (if r == 0 then 0 else 1)
              else r == 0 && ticks == old(ticks)
    {
      hide Run;
      hide Starts;
      hide ValidConfig;
      hide Quiet;
      tries := 0;
      if !cfg.flock(pid) {
        SkipLock();
        return 0, tries;
      }
      var start := MonotonicMs();
      var deadline := start + LOCK_TIMEOUT_MS;
      assert Reaches(clock, deadline);
      ghost var last: nat :| clock(last) >= deadline;
      while true
        invariant Valid() && Extends() && Me() == old(Me()) && ticks == old(ticks) + 1 + tries
        invariant Timed(old(ticks), 2000, false)
        decreases last - ticks
      {
        var locked := TryFlock();
        tries := tries + 1;
        if locked {
          return 0, tries;
        }
        var t := MonotonicMs();
        if t >= deadline {
          return -1, tries;
        }
        StillEarly(clock, ticks - 1, last);
      }
    }

    /** One poll; a response of 0 changes nothing but the error flag. */
    method Poll() returns (response: Word)
      requires Valid() && Me().pc == Wait && !Me().half
      modifies this`now, this`states, this`acts, this`smnIoError, this`faults
      ensures Valid() && Extends() && Flagged()
      ensures Me() == AfterRead(old(Me()).(err := smnIoError, lost := Me().lost), response)
      ensures response == REP_TIMEOUT ==> Me() == old(Me()).(pc := Polled, err := smnIoError, lost := Me().lost)
    {
      hide Run;
      hide Starts;
      hide ValidConfig;
      hide Ticking;
      response := SmnRegRead(Rep);
    }

    /** Back to the poll. */
    method PollAgain()
      requires Valid() && Me().pc == Polled
      modifies this`now, this`states, this`acts, this`smnIoError, this`faults
      ensures Valid() && Extends()
      ensures Me() == old(Me()).(pc := Wait, lost := map[])
      ensures smnIoError == old(smnIoError) && faults == old(faults)
    {
      hide Run;
      hide Starts;
      hide ValidConfig;
      hide Ticking;
      Private(Repoll);
    }

    /**
     smu_wait_for_response: poll until the response register is nonzero or the clock has
     advanced by a second. `polls` records what the polls read.
     */
    method SmuWaitForResponse() returns (response: Word, ghost polls: seq<Word>)
      requires Valid() && Me().pc == Wait && !Me().half
      modifies this`now, this`states, this`acts, this`smnIoError, this`faults, this`ticks
      ensures Valid() && Extends()
      ensures |polls| > 0 && response == polls[|polls| - 1]
      ensures forall i | 0 <= i < |polls| - 1 :: polls[i] == REP_TIMEOUT
      // one reading of the clock after each poll that read 0, and the first that reaches the deadline is the last
      ensures Timed(old(ticks), 1000, response == REP_TIMEOUT)
      ensures ticks == old(ticks) + |polls| + (if response == REP_TIMEOUT then 1 else 0)
      ensures Me() == AfterRead(old(Me()).(err := smnIoError, lost := Me().lost), response)
      ensures Flagged()
    {
      hide AfterRead;
      hide CurrentAccess;
      hide Run;
      hide Starts;
      hide ValidConfig;
      var start := MonotonicMs();
      var deadline := start + RESP_TIMEOUT_MS;
      assert Reaches(clock, deadline);
      ghost var last: nat :| clock(last) >= deadline;
      polls := [];
      while true
        invariant Valid() && Extends() && Me() == old(Me()).(err := smnIoError, lost := Me().lost)
        invariant ticks == old(ticks) + 1 + |polls| && Timed(old(ticks), 1000, false)
        invariant forall i | 0 <= i < |polls| :: polls[i] == REP_TIMEOUT
        invariant Flagged()
        decreases last - ticks
      {
        response := Poll();
        polls := polls + [response];
        if response != REP_TIMEOUT {
          return;
        }
        var t := MonotonicMs();
        if t >= deadline {
          return;
        }
        StillEarly(clock, ticks - 1, last);
        PollAgain();
      }
    }

    /** The process is between accesses at `pc` of the call for `req`. */
    predicate At(pc: Pc, req: Request)
      requires pid in now.procs
      reads this
    {
      && Me().pc == pc && Me().req == req && !Me().half
      && Me().via == if pc.Locking? || pc.Raw? then Refused else Registers
    }

    /** The `k`-th register write of the setup. */
    method SetupWrite(reg: Reg, data: Word, ghost k: nat, ghost req: Request)
      requires Valid() && k < 7 && req.kind == Req && At(Setup(k), req)
      requires reg == SetupReg(k) && data == SetupValue(req, k)
      modifies this`now, this`states, this`acts, this`smnIoError, this`faults
      ensures Valid() && Extends() && At(if k < 6 then Setup(k + 1) else Check, req) && Flagged()
    {
      hide Run;
      hide Starts;
      hide ValidConfig;
      SmnRegWrite(reg, data);
    }

    /** Clear the response register and write the six argument registers. */
    method PassArguments(args: array<Word>, ghost req: Request)
      requires Valid() && At(Setup(0), req) && req.kind == Req
      requires args.Length == 6 && args[..] == req.args
      modifies this`now, this`states, this`acts, this`smnIoError, this`faults
      ensures Valid() && Extends() && At(Check, req) && Flagged()
    {
      hide Valid;
      hide At;
      SetupWrite(Rep, 0, 0, req);
      SetupWrite(Arg(0), args[0], 1, req);
      SetupWrite(Arg(1), args[1], 2, req);
      SetupWrite(Arg(2), args[2], 3, req);
      SetupWrite(Arg(3), args[3], 4, req);
      SetupWrite(Arg(4), args[4], 5, req);
      SetupWrite(Arg(5), args[5], 6, req);
    }

    /** Write the message id and wait for the response. */
    method RingAndWait(id: Word, ghost req: Request) returns (response: Word)
      requires Valid() && At(Ring, req) && req.id == id
      modifies this`now, this`states, this`acts, this`smnIoError, this`faults, this`ticks
      ensures Valid() && Extends() && Flagged()
      ensures Timed(old(ticks), 1000, response == REP_TIMEOUT)
      ensures response == REP_TIMEOUT ==> At(Polled, req)
      ensures response != REP_TIMEOUT ==>
                At(if req.kind == Req then ReadBack(0) else Drop, req) && Me().resp == response && Me().rets == []
    {
      hide Ticking;
      hide Quiet;
      hide Run;
      hide Starts;
      hide ValidConfig;
      SmnRegWrite(Msg, id);
      ghost var polls;
      response, polls := SmuWaitForResponse();
    }

    /** One result register. */
    method Fetch(args: array<Word>, i: nat, ghost req: Request)
      requires Valid() && i < 6 && At(ReadBack(i), req)
      requires args.Length == 6 && Me().rets == args[..i]
      modifies this`now, this`states, this`acts, this`smnIoError, this`faults, args
      ensures Valid() && Extends() && At(if i < 5 then ReadBack(i + 1) else Finish, req) && Flagged()
      ensures Me().rets == args[..i + 1] && Me().resp == old(Me()).resp
    {
      hide Run;
      hide Starts;
      hide ValidConfig;
      args[i] := SmnRegRead(Arg(i));
      assert args[..i + 1] == args[..i] + [args[i]];
    }

    /** Read the six result registers back into the caller's argument structure. */
    method ReadBackArguments(args: array<Word>, ghost req: Request)
      requires Valid() && At(ReadBack(0), req) && args.Length == 6 && Me().rets == []
      modifies this`now, this`states, this`acts, this`smnIoError, this`faults, args
      ensures Valid() && Extends() && At(Finish, req) && Flagged()
      ensures Me().rets == args[..] && Me().resp == old(Me()).resp
    {
      hide Me;
      hide Valid;
      hide At;
      Fetch(args, 0, req);
      Fetch(args, 1, req);
      Fetch(args, 2, req);
      Fetch(args, 3, req);
      Fetch(args, 4, req);
      Fetch(args, 5, req);
      assert args[..6] == args[..];
    }

    /** smu_unlock: the call is over, and its record is the last one. */
    method SmuUnlock()
      requires Valid() && Me().pc == Unlocking
      modifies this`now, this`states, this`acts
      ensures Valid() && Extends() && Me().pc == Idle && now.lock != Some(pid)
      ensures |now.done| > |old(now.done)|
      ensures Finished(old(Me()).req, old(Me()).resp, old(Me()).rets)
      ensures
        var tx, pr := now.done[|now.done| - 1], old(Me());
        tx.sent == pr.mine && tx.via == pr.via && tx.calm == pr.calm
      ensures now.answers == old(now).answers
    {
      UnlockStep(cfg, now, pid);
      Do(Unlock(pid));
    }

    /** The last finished call is this one. */
    predicate Finished(req: Request, resp: Word, rets: seq<Word>)
      reads this
    {
      && |now.done| > 0
      && var tx := now.done[|now.done| - 1];
         tx.pid == pid && tx.req == req && tx.resp == resp && tx.rets == rets
    }

    /**
     How long the last call took, if it began before reading number `from` of the clock: it was
     refused exactly at the lock's deadline, and a wait for the response ended without one exactly
     at its own.
     */
    ghost predicate Punctual(from: nat)
      requires |now.done| > 0
      reads this
    {
      var tx := now.done[|now.done| - 1];
      && (tx.via == Refused ==> Timed(from, 2000, true))
      && (tx.via == Registers ==> Waited(from, tx.resp == REP_TIMEOUT))
    }

    /** A wait for the response that began at a reading of the clock not before `from`. */
    ghost predicate Waited(from: nat, over: bool)
      reads this`ticks
    {
      exists t :: Began(from, t, over)
    }

    ghost predicate Began(from: nat, t: nat, over: bool)
      reads this`ticks
    {
      from <= t && Timed(t, 1000, over)
    }

    lemma WaitBegan(from: nat, over: bool)
      requires Timed(from, 1000, over)
      ensures Waited(from, over) && from < ticks
    {
      assert Began(from, from, over);
    }

    lemma PunctualSince(from: nat, t: nat)
      requires from <= t && |now.done| > 0 && now.done[|now.done| - 1].via != Refused && Punctual(t)
      ensures Punctual(from)
    {
      var over := now.done[|now.done| - 1].resp == REP_TIMEOUT;
      if Waited(t, over) {
        var u :| Began(t, u, over);
        assert Began(from, u, over);
      }
    }

    /** Writing the request to the driver's transaction interface, if there is one. */
    method SubmitRaw(ghost req: Request) returns (outcome: RawOutcome)
      requires Valid() && At(Raw, req)
      modifies this`now, this`states, this`acts
      ensures Valid() && Extends() && Me().req == req && !Me().half
      ensures outcome.NoInterface? <==> !cfg.HasTransactions(pid)
      ensures if Refuses(outcome) then Me().pc == Declined else Me().pc == Submitted(outcome.Taken?) && Me().via == Driver
    {
      hide Run;
      hide Starts;
      hide ValidConfig;
      hide Ticking;
      Interfere();
      outcome := NoInterface;
      var effect := NotRun;
      if cfg.HasTransactions(pid) {
        outcome :| !outcome.NoInterface?;
        if !outcome.Invalid? {
          effect := *;
        }
      }
      var regs: map<Word, Word>, sel: Word := *, *;
      RawWriteStep(cfg, now, pid, outcome, effect, regs, sel);
      hide Apply;
      hide Enabled;
      Do(RawWrite(pid, outcome, effect, regs, sel));
    }

    /** The driver path is over. */
    method EndRaw(result: RawResult)
      requires Valid() && Me().pc.Submitted? && RawContract(Me().pc.taken, now.answers, Me().mine, result)
      modifies this`now, this`states, this`acts
      ensures Valid() && Extends() && Me().pc == Unlocking && Me().req == old(Me()).req && Me().via == old(Me()).via
      ensures Me().resp == RawResponse(result) && Me().rets == RawRets(Me().req, result)
    {
      hide Run;
      hide Starts;
      hide ValidConfig;
      hide Ticking;
      RawReadStep(cfg, now, pid, result);
      hide Apply;
      hide Enabled;
      Do(RawRead(pid, result));
    }

    /**
     smu_raw_cmd: false exactly when there is no driver interface or the driver rejected the
     mailbox with EINVAL, so that the caller falls back to the registers. After any other failed
     write it is unknown whether the command ran, and the call is over as failed.
     */
    method SmuRawCmd(args: array<Word>, ghost req: Request)
        returns (ran: bool, response: Word, ghost outcome: RawOutcome, ghost result: RawResult)
      requires Valid() && At(Raw, req) && args.Length == 6 && args[..] == req.args
      modifies this`now, this`states, this`acts, this`smnIoError, this`faults, args
      ensures Valid() && Extends() && faults == old(faults)
      ensures outcome.NoInterface? <==> !cfg.HasTransactions(pid)
      ensures !ran <==> outcome.NoInterface? || outcome.Invalid?
      ensures outcome.Broken? ==> response == REP_FAILED && args[..] == req.args
      ensures outcome.Taken? ==> !result.WriteFailed? && response == RawResponse(result)
      ensures !ran ==> At(if req.kind == Req then TakeError else Setup(0), req) && args[..] == req.args
      ensures !ran ==> smnIoError == old(smnIoError)
      ensures ran ==> Me().via == Driver
      ensures ran ==> Me().pc == Unlocking && Me().req == req && Me().resp == response && Me().rets == args[..]
      ensures response == REP_TIMEOUT ==> args[..] == req.args
    {
      hide CurrentAccess;
      hide TakeFlag;
      hide Run;
      hide Starts;
      hide ValidConfig;
      response, result := REP_TIMEOUT, WriteFailed;
      var wrote := SubmitRaw(req);
      outcome := wrote;
      if wrote.NoInterface? || wrote.Invalid? {
        Private(Fallback);
        return false, response, outcome, result;
      }
      ran := true;
      if wrote.Broken? {
        response := REP_FAILED;
        EndRaw(WriteFailed);
        return;
      }
      Interfere();
      var readable: bool, again: bool := *, *;
      if !readable {
        response := if again then REP_REJECTED_BUSY else REP_FAILED;
        result := ReadFailed(again);
        EndRaw(ReadFailed(again));
        return;
      }
      assert |[0, 0, 0, 0, 0, 0, 0]| == 7 && RawContract(true, now.answers, Me().mine, Got([0, 0, 0, 0, 0, 0, 0]));
      var res: seq<Word> :| |res| == 7 && RawContract(true, now.answers, Me().mine, Got(res));
      result := Got(res);
      EndRaw(Got(res));
      response := CopyResult(args, res);
    }

    /** The switch over the driver's status word. */
    method CopyResult(args: array<Word>, res: seq<Word>) returns (response: Word)
      requires args.Length == 6 && |res| == 7
      modifies args
      ensures response == RawResponse(Got(res))
      ensures res[0] in {0x01, 0xFF, 0xFE, 0xFD, 0xFC} ==> response == res[0]
      ensures res[0] == 0xFB ==> response == REP_TIMEOUT
      ensures res[0] !in {0x01, 0xFF, 0xFE, 0xFD, 0xFC, 0xFB} ==> response == REP_FAILED
      ensures args[..] == if res[0] == REP_OK then res[1..] else old(args[..])
    {
      if res[0] == REP_OK {
        args[0], args[1], args[2] := res[1], res[2], res[3];
        args[3], args[4], args[5] := res[4], res[5], res[6];
        assert args[..] == res[1..];
        response := res[0];
      } else if res[0] in {REP_FAILED, REP_UNKNOWN_CMD, REP_REJECTED_PREREQ, REP_REJECTED_BUSY} {
        response := res[0];
      } else if res[0] == 0xFB {
        response := REP_TIMEOUT;
      } else {
        response := REP_FAILED;
      }
    }

    /** smu_lock, giving the call up when it fails. */
    method Enter(ghost req: Request) returns (locked: bool)
      requires Valid() && At(Locking, req)
      modifies this`now, this`states, this`acts, this`ticks
      ensures Valid() && Extends()
      ensures locked ==> At(Raw, req) && (cfg.flock(pid) ==> now.lock == Some(pid))
      ensures !locked ==> Me().pc == Idle && Finished(req, REP_REJECTED_BUSY, req.args) && |now.done| > |old(now.done)|
      ensures !locked ==> now.done[|now.done| - 1].via == Refused && Timed(old(ticks), 2000, true)
      ensures old(ticks) <= ticks
    {
      hide Run;
      hide Starts;
      hide ValidConfig;
      var r;
      ghost var tries;
      r, tries := SmuLock();
      locked := r == 0;
      if !locked {
        TimeoutStep(cfg, now, pid);
        Do(LockTimeout(pid));
      }
    }

    /** Setup, up to the decision whether the doorbell may be rung. */
    method Prepare(args: array<Word>, ghost req: Request) returns (failed: bool)
      requires Valid() && At(TakeError, req) && req.kind == Req
      requires args.Length == 6 && args[..] == req.args
      modifies this`now, this`states, this`acts, this`smnIoError, this`faults
      ensures Valid() && Extends()
      ensures failed ==> Me().via == Aborted
      ensures failed ==> Me().pc == Unlocking && Me().req == req && Me().resp == REP_FAILED && Me().rets == args[..]
      ensures !failed ==> At(Ring, req) && !smnIoError
      ensures failed <==> faults > old(faults)
      ensures faults >= old(faults)
    {
      hide Run;
      hide Starts;
      hide ValidConfig;
      var e := SmnIoTakeError();
      PassArguments(args, req);
      failed := SmnIoTakeError();
    }

    /** The wait is over without a response. */
    method Expire(args: array<Word>, ghost req: Request)
      requires Valid() && At(Polled, req) && args.Length == 6 && args[..] == req.args
      modifies this`now, this`states, this`acts, this`smnIoError, this`faults
      ensures Valid() && Extends() && Me().pc == Idle && Finished(req, REP_TIMEOUT, args[..])
      ensures |now.done| > |old(now.done)| && now.done[|now.done| - 1].via == Registers
    {
      hide Run;
      hide Starts;
      hide ValidConfig;
      var e := SmnIoTakeError();
      SmuUnlock();
    }

    /** Read the results back; a success whose results could not be read is a failure. */
    method Collect(args: array<Word>, response0: Word, ghost req: Request) returns (response: Word)
      requires Valid() && At(ReadBack(0), req) && args.Length == 6 && Me().resp == response0 && Me().rets == []
      modifies this`now, this`states, this`acts, this`smnIoError, this`faults, args
      ensures Valid() && Extends() && Me().pc == Idle && Finished(req, response, args[..])
      ensures |now.done| > |old(now.done)| && now.done[|now.done| - 1].via == Registers
      ensures response == REP_OK <==> response0 == REP_OK && !old(smnIoError) && faults == old(faults)
      ensures response == response0 || response == REP_FAILED
      ensures faults >= old(faults)
    {
      hide Lose;
      hide SetupReg;
      hide Run;
      hide Starts;
      hide ValidConfig;
      response := response0;
      ReadBackArguments(args, req);
      var e := SmnIoTakeError();
      if e && response == REP_OK {
        response := REP_FAILED;
      }
      SmuUnlock();
    }

    /** The register path of smu_service_req, from the stale error to the unlock. */
    method RegisterPath(args: array<Word>, id: Word, ghost req: Request) returns (response: Word)
      requires Valid() && At(TakeError, req) && req.kind == Req && req.id == id
      requires args.Length == 6 && args[..] == req.args
      modifies this`now, this`states, this`acts, this`smnIoError, this`faults, this`ticks, args
      ensures Valid() && Extends() && Me().pc == Idle
      ensures Finished(req, response, args[..]) && |now.done| > |old(now.done)|
      ensures response == REP_OK ==> faults == old(faults)
      ensures response == REP_TIMEOUT ==> args[..] == req.args
      ensures old(ticks) <= ticks && Punctual(old(ticks)) && now.done[|now.done| - 1].via != Refused
    {
      hide At;
      hide Valid;
      hide Me;
      hide Timed;
      hide Waited;
      hide Run;
      hide Starts;
      hide ValidConfig;
      var failed := Prepare(args, req);
      if failed {
        SmuUnlock();
        return REP_FAILED;
      }
      response := RingAndWait(id, req);
      WaitBegan(old(ticks), response == REP_TIMEOUT);
      if response == REP_TIMEOUT {
        Expire(args, req);
      } else {
        response := Collect(args, response, req);
      }
    }

    /** Clear the response, write the one argument, and read it back. */
    method TryArgument(ghost req: Request) returns (writable: bool)
      requires Valid() && At(Setup(0), req) && req.kind == Test && req == TestRequest(req.mbox)
      modifies this`now, this`states, this`acts, this`smnIoError, this`faults
      ensures Valid() && Extends() && Flagged()
      ensures writable ==> At(Ring, req)
      ensures !writable ==> Me().pc == Unlocking && Me().req == req && Me().resp == 0 && Me().via == Aborted
    {
      hide Run;
      hide Starts;
      hide ValidConfig;
      SmnRegWrite(Rep, 0);
      SmnRegWrite(Arg(0), TEST_ARG);
      var v := SmnRegRead(Arg(0));
      writable := v == TEST_ARG;
    }

    /** The response to a test, on the driver and with no failure noticed, is the SMU's. */
    ghost predicate Vouched(sent: Option<nat>, calm: bool, resp: Word)
      reads this
    {
      cfg.FlockWorks() && !cfg.Mapped(pid) && calm && resp == REP_OK ==> Replied(now.answers, sent, REP_OK)
    }

    /** Before the error flag is dropped. */
    lemma VouchedAtDrop()
      requires Valid() && Me().pc == Drop && !smnIoError
      ensures Vouched(Me().mine, Me().calm, Me().resp)
    {
      if cfg.FlockWorks() && !cfg.Mapped(pid) {
        TestAnswered(cfg, states, acts, |acts|, pid);
      }
    }

    /** Ring with the test message and wait; the error flag is only cleared. */
    method RingTest(ghost req: Request) returns (response: Word)
      requires Valid() && At(Ring, req) && req.kind == Test && req.id == TEST_MSG
      modifies this`now, this`states, this`acts, this`smnIoError, this`faults, this`ticks
      ensures Valid() && Extends() && old(faults) <= faults
      ensures Me().pc == Unlocking && Me().req == req && Me().resp == response && Me().via == Registers
      ensures Timed(old(ticks), 1000, response == REP_TIMEOUT)
      ensures !old(smnIoError) && faults == old(faults) ==> Vouched(Me().mine, Me().calm, response)
    {
      hide Ticking;
      hide StepSel;
      hide Quiet;
      hide Run;
      hide Starts;
      hide ValidConfig;
      response := RingAndWait(TEST_MSG, req);
      if response != REP_TIMEOUT && !smnIoError {
        VouchedAtDrop();
      }
      var e := SmnIoTakeError();
    }

    /** The test message without the driver. Nothing looks at failed writes here. */
    method TestRegisters(ghost req: Request) returns (response: Word)
      requires Valid() && At(Setup(0), req) && req.kind == Test && req == TestRequest(req.mbox)
      modifies this`now, this`states, this`acts, this`smnIoError, this`faults, this`ticks
      ensures Valid() && Extends() && Me().pc == Idle && old(faults) <= faults
      ensures Ended(req, response) && |now.done| > |old(now.done)|
      ensures old(ticks) <= ticks && Punctual(old(ticks)) && now.done[|now.done| - 1].via != Refused
      ensures !old(smnIoError) && faults == old(faults) ==> LastVouched()
    {
      hide Run;
      hide Starts;
      hide ValidConfig;
      hide At;
      hide Valid;
      hide Me;
      hide Replied;
      hide Timed;
      hide Waited;
      response := 0;
      var writable := TryArgument(req);
      if writable {
        response := RingTest(req);
        WaitBegan(old(ticks), response == REP_TIMEOUT);
      }
      SmuUnlock();
    }

    /** The last finished call of the machine is vouched for. */
    ghost predicate LastVouched()
      requires |now.done| > 0
      reads this
    {
      var tx := now.done[|now.done| - 1];
      Vouched(tx.sent, tx.calm, tx.resp)
    }

    /** The last finished call is this one, whatever its results. */
    predicate Ended(req: Request, resp: Word)
      reads this
    {
      && |now.done| > 0
      && var tx := now.done[|now.done| - 1];
         tx.pid == pid && tx.req == req && tx.resp == resp
    }

    /** A call begins. */
    method BeginCall(req: Request)
      requires Valid() && Me().pc == Idle && (req.kind == Test ==> req == TestRequest(req.mbox))
      modifies this`now, this`states, this`acts, this`starts
      ensures Valid() && Extends() && At(Locking, req) && |now.done| >= |old(now.done)|
      ensures starts == old(starts) + 1
    {
      hide Apply;
      hide Enabled;
      hide Ticking;
      hide Quiet;
      hide Run;
      hide Starts;
      hide ValidConfig;
      StartStep(cfg, now, pid, req);
      Do(Start(pid, req));
      starts := starts + 1;
    }

    /** The test as a sequence of steps. */
    method CallTest(mbox: Mbox) returns (usable: bool, ghost resp: Word)
      requires Valid() && Me().pc == Idle
      modifies this
      ensures Valid() && Extends() && Me().pc == Idle
      ensures Ended(TestRequest(mbox), resp) && |now.done| > |old(now.done)|
      ensures usable <==> resp == REP_OK
      ensures Punctual(old(ticks))
      ensures starts == old(starts) + 1 && old(faults) <= faults
      ensures !old(smnIoError) && faults == old(faults) && resp == REP_OK && now.done[|now.done| - 1].via != Driver ==>
                LastVouched()
    {
      hide Ticking;
      hide Valid;
      hide At;
      hide Vouched;
      hide Timed;
      hide Waited;
      hide Run;
      hide Starts;
      hide ValidConfig;
      ghost var req := TestRequest(mbox);
      BeginCall(TestRequest(mbox));
      var locked := Enter(req);
      if !locked {
        return false, REP_REJECTED_BUSY;
      }
      var targs := new Word[6](_ => 0);
      targs[0] := TEST_ARG;
      assert targs[..] == req.args;
      ghost var entered := ticks;
      var response := TestTransaction(targs, req);
      PunctualSince(old(ticks), entered);
      usable, resp := response == REP_OK, response;
    }

    /**
     smu_service_test: is the mailbox usable? The answer is yes exactly when the recorded
     response is success; unlike smu_service_req this does not mean that the message was run.
     */
    method SmuServiceTest(mbox: Mbox) returns (usable: bool, ghost resp: Word)
      requires Valid() && Me().pc == Idle
      modifies this
      ensures Valid() && Extends() && Me().pc == Idle
      ensures Ended(TestRequest(mbox), resp) && |now.done| > |old(now.done)|
      ensures usable <==> resp == REP_OK
      ensures cfg.FlockWorks() ==> now.lock != Some(pid)
      ensures Punctual(old(ticks))
      ensures starts == old(starts) + 1 && old(faults) <= faults
      ensures !old(smnIoError) && faults == old(faults) ==> LastVouched()
    {
      hide Run;
      hide Punctual;
      hide Starts;
      hide ValidConfig;
      hide Kept;
      hide Genuine;
      hide NothingLost;
      hide DoneMeant;
      hide Vouched;
      usable, resp := CallTest(mbox);
      RunConsequences(cfg, states, acts, now, pid);
      VouchedOtherwise();
    }

    /** A finished test that did not end at the registers. */
    lemma VouchedOtherwise()
      requires |now.done| > 0 && now.done[|now.done| - 1].pid == pid
      requires cfg.FlockWorks() && !cfg.Mapped(pid) ==> DoneMeant(now, pid)
      ensures now.done[|now.done| - 1].via == Driver || now.done[|now.done| - 1].resp != REP_OK ==> LastVouched()
    {
    }

    /** Under the lock: the driver, else the registers. */
    method TestTransaction(targs: array<Word>, ghost req: Request) returns (response: Word)
      requires Valid() && At(Raw, req) && req.kind == Test && req == TestRequest(req.mbox)
      requires targs.Length == 6 && targs[..] == req.args
      modifies this`now, this`states, this`acts, this`smnIoError, this`faults, this`ticks, targs
      ensures Valid() && Extends() && Me().pc == Idle
      ensures Ended(req, response) && |now.done| > |old(now.done)| && old(faults) <= faults
      ensures old(ticks) <= ticks && Punctual(old(ticks)) && now.done[|now.done| - 1].via != Refused
      ensures !old(smnIoError) && faults == old(faults) && now.done[|now.done| - 1].via != Driver ==> LastVouched()
    {
      hide Run;
      hide Valid;
      hide At;
      hide Starts;
      hide ValidConfig;
      hide Replied;
      hide Timed;
      hide Waited;
      var ran;
      ghost var outcome, result;
      ran, response, outcome, result := SmuRawCmd(targs, req);
      if ran {
        SmuUnlock();
      } else {
        response := TestRegisters(req);
      }
    }

    /** Under the lock: the driver, else the registers. */
    method Transaction(args: array<Word>, id: Word, ghost req: Request) returns (response: Word)
      requires Valid() && At(Raw, req) && req.kind == Req && req.id == id
      requires args.Length == 6 && args[..] == req.args
      modifies this`now, this`states, this`acts, this`smnIoError, this`faults, this`ticks, args
      ensures Valid() && Extends() && Me().pc == Idle
      ensures Finished(req, response, args[..]) && |now.done| > |old(now.done)|
      ensures response == REP_OK ==> faults == old(faults)
      ensures response == REP_TIMEOUT ==> args[..] == req.args
      ensures old(ticks) <= ticks && Punctual(old(ticks)) && now.done[|now.done| - 1].via != Refused
    {
      hide Run;
      hide Timed;
      hide Waited;
      hide Starts;
      hide ValidConfig;
      var ran;
      ghost var outcome, result;
      ran, response, outcome, result := SmuRawCmd(args, req);
      if ran {
        SmuUnlock();
      } else {
        response := RegisterPath(args, id, req);
      }
    }

    /** The call as a sequence of steps. */
    method Call(mbox: Mbox, id: Word, args: array<Word>) returns (response: Word)
      requires Valid() && Me().pc == Idle && args.Length == 6
      modifies this, args
      ensures Valid() && Extends() && Me().pc == Idle
      ensures Finished(Request(Req, mbox, id, old(args[..])), response, args[..]) && |now.done| > |old(now.done)|
      ensures response == REP_OK ==> faults == old(faults)
      ensures response == REP_TIMEOUT ==> args[..] == old(args[..])
      ensures Punctual(old(ticks))
      ensures starts == old(starts) + 1
    {
      hide Valid;
      hide Timed;
      hide Waited;
      hide At;
      hide Finished;
      hide Ticking;
      hide Run;
      hide Starts;
      hide ValidConfig;
      ghost var req := Request(Req, mbox, id, args[..]);
      BeginCall(Request(Req, mbox, id, args[..]));
      var locked := Enter(req);
      if !locked {
        response := REP_REJECTED_BUSY;
      } else {
        ghost var entered := ticks;
        response := Transaction(args, id, req);
        PunctualSince(old(ticks), entered);
      }
    }

    /**
     smu_service_req. The call is one call of the shared machine: its response and the argument
     structure it leaves behind are the record of that call, and where flock works a success of
     a call that found its mailbox quiet means that the SMU ran this request.
     */
    method SmuServiceReq(mbox: Mbox, id: Word, args: array<Word>) returns (response: Word)
      requires Valid() && Me().pc == Idle && args.Length == 6
      modifies this, args
      ensures Valid() && Extends() && Me().pc == Idle
      ensures Finished(Request(Req, mbox, id, old(args[..])), response, args[..]) && |now.done| > |old(now.done)|
      ensures response == REP_OK ==> faults == old(faults)
      ensures cfg.FlockWorks() ==> now.lock != Some(pid)
      ensures response == REP_TIMEOUT ==> args[..] == old(args[..])
      ensures cfg.FlockWorks() ==> Kept(now, now.done[|now.done| - 1]) && Genuine(cfg, now, now.done[|now.done| - 1])
      ensures !cfg.Mapped(pid) ==> now.done[|now.done| - 1].lost == map[]
      ensures Punctual(old(ticks))
      ensures starts == old(starts) + 1
    {
      hide Run;
      hide Punctual;
      hide Starts;
      hide ValidConfig;
      response := Call(mbox, id, args);
      RunConsequences(cfg, states, acts, now, pid);
    }
  }
}
