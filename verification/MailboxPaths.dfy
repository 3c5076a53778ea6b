/**
 Building runs: what one process does when nothing fails, and single failures, as steps of the
 machine. The counterexamples and the "only if" directions are made of these pieces.
 */
module MailboxPaths {
  import opened Words
  import opened SmuLayout
  import opened MailboxProtocol
  import opened MailboxSafety
  import opened MailboxIntegrity

  /** A run and the actions that made it. */
  datatype Trail = Trail(ss: seq<State>, acts: seq<Action>)

  ghost predicate Leads(cfg: Config, tr: Trail, s: State) {
    Run(cfg, tr.ss, tr.acts) && tr.ss[|tr.acts|] == s
  }

  /** The second trail goes on where the first one ends. */
  predicate Continues(tr: Trail, later: Trail) {
    tr.ss <= later.ss && tr.acts <= later.acts
  }

  lemma RunSnoc(cfg: Config, ss: seq<State>, acts: seq<Action>, a: Action)
    requires Run(cfg, ss, acts) && Enabled(cfg, ss[|acts|], a)
    ensures Run(cfg, ss + [Apply(cfg, ss[|acts|], a)], acts + [a])
  {
    var t := Apply(cfg, ss[|acts|], a);
    assert StepBy(cfg, ss[|acts|], a, t);
    hide StepBy;
    forall i | 0 <= i < |acts| + 1
      ensures StepBy(cfg, (ss + [t])[i], (acts + [a])[i], (ss + [t])[i + 1])
    {
      if i < |acts| {
        assert StepBy(cfg, ss[i], acts[i], ss[i + 1]);
      }
    }
  }

  lemma Go(cfg: Config, tr: Trail, s: State, a: Action) returns (later: Trail, t: State)
    requires Leads(cfg, tr, s) && Enabled(cfg, s, a)
    ensures Leads(cfg, later, t) && Continues(tr, later) && later.acts == tr.acts + [a]
    ensures t == Apply(cfg, s, a)
  {
    RunSnoc(cfg, tr.ss, tr.acts, a);
    t := Apply(cfg, s, a);
    later := Trail(tr.ss + [t], tr.acts + [a]);
  }

  /** Only `p` and the registers have changed. */
  predicate OnlyOwn(s: State, t: State, p: Pid) {
    && p in s.procs && p in t.procs && t.procs == s.procs[p := t.procs[p]]
    && t.lock == s.lock && t.log == s.log && t.answers == s.answers && t.nextTicket == s.nextTicket
    && t.done == s.done && t.order == s.order
  }

  /** The first half of an access: the register is selected. */
  lemma FirstHalf(cfg: Config, tr: Trail, s: State, p: Pid) returns (later: Trail, t: State)
    requires Leads(cfg, tr, s) && p in s.procs && CurrentAccess(s.procs[p]) != NoAccess && !s.procs[p].half
    requires cfg.Mapped(p) || CurrentAccess(s.procs[p]).ReadAcc?
    ensures Leads(cfg, later, t) && Continues(tr, later) && later.acts == tr.acts + [Local(p, Select(true, true))]
    ensures t == s.(sel := SelectTarget(cfg, s.procs[p]), procs := s.procs[p := s.procs[p].(half := true)])
  {
    hide Run;
    hide SelectTarget;
    hide CurrentAccess;
    later, t := Go(cfg, tr, s, Local(p, Select(true, true)));
  }

  /** Storing to a register of the setup is only that. */
  lemma PokeIsPlain(cfg: Config, s: State, p: Pid, mbox: Mbox, k: nat, value: Word)
    requires ValidConfig(cfg) && p in s.procs && k < 7
    ensures Poke(cfg, s, p, cfg.addr(mbox, SetupReg(k)), value) == s.(regs := s.regs[cfg.addr(mbox, SetupReg(k)) := value])
  {
    assert IsReg(SetupReg(k)) && IsReg(Msg);
  }

  lemma StoreIsPlain(cfg: Config, s: State, p: Pid, store: Store)
    requires ValidConfig(cfg) && p in s.procs && s.procs[p].pc.Setup? && s.procs[p].pc.k < 7 && store.ok
    requires store.DataHalf? ==> s.sel == cfg.addr(s.procs[p].req.mbox, SetupReg(s.procs[p].pc.k))
    ensures
      var t, pr := ApplyStore(cfg, s, p, store), s.procs[p];
      && OnlyOwn(s, t, p) && t.procs[p] == AfterWrite(pr)
      && t.regs == s.regs[cfg.addr(pr.req.mbox, SetupReg(pr.pc.k)) := SetupValue(pr.req, pr.pc.k)]
  {
    PokeIsPlain(cfg, s, p, s.procs[p].req.mbox, s.procs[p].pc.k, SetupValue(s.procs[p].req, s.procs[p].pc.k));
    hide Poke;
    hide ValidConfig;
    hide AfterWrite;
    hide SetupReg;
    hide SetupValue;
  }

  lemma AfterWriteForgetsHalf(pr: Proc)
    ensures AfterWrite(pr.(half := true)) == AfterWrite(pr)
  {
  }

  /** A register write that is not the doorbell. */
  lemma FullWrite(cfg: Config, tr: Trail, s: State, p: Pid) returns (later: Trail, t: State)
    requires ValidConfig(cfg) && Leads(cfg, tr, s) && p in s.procs
    requires s.procs[p].pc.Setup? && s.procs[p].pc.k < 7 && !s.procs[p].half
    ensures Leads(cfg, later, t) && Continues(tr, later) && OnlyOwn(s, t, p)
    ensures t.procs[p] == AfterWrite(s.procs[p])
    ensures t.regs == s.regs[cfg.addr(s.procs[p].req.mbox, SetupReg(s.procs[p].pc.k)) :=
                             SetupValue(s.procs[p].req, s.procs[p].pc.k)]
  {
    hide Leads;
    hide ValidConfig;
    hide AfterWrite;
    if cfg.Mapped(p) {
      var mid;
      later, mid := FirstHalf(cfg, tr, s, p);
      StoreIsPlain(cfg, mid, p, DataHalf(true, true));
      AfterWriteForgetsHalf(s.procs[p]);
      hide ApplyStore;
      later, t := Go(cfg, later, mid, Write(p, DataHalf(true, true)));
    } else {
      StoreIsPlain(cfg, s, p, Whole(true, true, s.sel));
      hide ApplyStore;
      later, t := Go(cfg, tr, s, Write(p, Whole(true, true, s.sel)));
    }
  }

  /** A register write that fails and does not reach the register. */
  lemma FailedWrite(cfg: Config, tr: Trail, s: State, p: Pid) returns (later: Trail, t: State)
    requires Leads(cfg, tr, s) && p in s.procs && CurrentAccess(s.procs[p]).WriteAcc? && !s.procs[p].half
    ensures Leads(cfg, later, t) && Continues(tr, later) && OnlyOwn(s, t, p) && t.regs == s.regs
    ensures t.procs[p] == AfterWrite(s.procs[p].(err := true))
  {
    hide Run;
    hide AfterWrite;
    if cfg.Mapped(p) {
      later, t := Go(cfg, tr, s, Local(p, Select(false, false)));
    } else {
      later, t := Go(cfg, tr, s, Write(p, Whole(false, false, s.sel)));
    }
  }

  /** A read whose first half fails noticed: what is selected is read all the same. */
  lemma MissedRead(cfg: Config, tr: Trail, s: State, p: Pid) returns (later: Trail, t: State)
    requires Leads(cfg, tr, s) && p in s.procs && CurrentAccess(s.procs[p]).ReadAcc? && !s.procs[p].half && cfg.Mapped(p)
    ensures Leads(cfg, later, t) && Continues(tr, later) && OnlyOwn(s, t, p) && t.regs == s.regs
    ensures t.procs[p] == AfterRead(s.procs[p].(half := true, err := true), Read(s.regs, s.sel))
  {
    hide Run;
    hide AfterRead;
    var mid;
    later, mid := Go(cfg, tr, s, Local(p, Select(false, false)));
    later, t := Go(cfg, later, mid, Local(p, ReadData(true)));
  }

  /** All the setup writes of a request from the `k`-th on. */
  lemma {:induction false} SetupAll(cfg: Config, tr: Trail, s: State, p: Pid, k: nat) returns (later: Trail, t: State)
    requires ValidConfig(cfg) && Leads(cfg, tr, s) && p in s.procs && k < 7
    requires s.procs[p].pc == Setup(k) && !s.procs[p].half && s.procs[p].req.kind == Req
    requires Loaded(cfg, s.regs, s.procs[p].req, k)
    ensures Leads(cfg, later, t) && Continues(tr, later) && OnlyOwn(s, t, p)
    ensures t.procs[p] == s.procs[p].(pc := Check)
    ensures Loaded(cfg, t.regs, s.procs[p].req, 7)
    decreases 7 - k
  {
    hide Run;
    later, t := FullWrite(cfg, tr, s, p);
    StillLoaded(cfg, s.regs, s.procs[p].req, k);
    if k < 6 {
      later, t := SetupAll(cfg, later, t, p, k + 1);
    }
  }

  lemma StillLoaded(cfg: Config, regs: map<Word, Word>, req: Request, k: nat)
    requires ValidConfig(cfg) && k < 7 && Loaded(cfg, regs, req, k)
    ensures Loaded(cfg, regs[cfg.addr(req.mbox, SetupReg(k)) := SetupValue(req, k)], req, k + 1)
  {
    assert forall j | 0 <= j <= k :: IsReg(SetupReg(j));
  }

  /** No transaction interface, or it refuses the mailbox: on to the registers. */
  lemma FallBack(cfg: Config, tr: Trail, s: State, p: Pid) returns (later: Trail, t: State)
    requires Leads(cfg, tr, s) && p in s.procs && s.procs[p].pc == Raw
    ensures Leads(cfg, later, t) && Continues(tr, later)
    ensures t == s.(procs := s.procs[p := s.procs[p].(pc := if s.procs[p].req.kind == Req then TakeError else Setup(0),
                                                      via := Registers)])
  {
    hide Leads;
    var outcome := if cfg.HasTransactions(p) then Invalid else NoInterface;
    later, t := Go(cfg, tr, s, RawWrite(p, outcome, NotRun, map[], 0));
    later, t := Go(cfg, later, t, Local(p, Fallback));
  }

  /** From inside the lock to the doorbell, without the driver's transaction interface. */
  lemma Approach(cfg: Config, tr: Trail, s: State, p: Pid) returns (later: Trail, t: State)
    requires ValidConfig(cfg) && Leads(cfg, tr, s) && p in s.procs
    requires s.procs[p].pc == Raw && !s.procs[p].half && s.procs[p].req.kind == Req
    ensures Leads(cfg, later, t) && Continues(tr, later) && OnlyOwn(s, t, p)
    ensures t.procs[p] == s.procs[p].(pc := Ring, err := false, via := Registers)
    ensures Loaded(cfg, t.regs, s.procs[p].req, 7)
  {
    hide Run;
    later, t := FallBack(cfg, tr, s, p);
    later, t := Go(cfg, later, t, Local(p, Take));
    later, t := SetupAll(cfg, later, t, p, 0);
    later, t := Go(cfg, later, t, Local(p, Take));
  }

  /** The state after a doorbell write: the SMU takes what is in the argument registers. */
  function Rang(cfg: Config, s: State, p: Pid, sel: Word): State
    requires p in s.procs
  {
    var pr := s.procs[p];
    s.(sel := sel, regs := s.regs[cfg.addr(pr.req.mbox, Msg) := pr.req.id],
       log := s.log + [Latch(pr.ticket, pr.req, pr.req.mbox, Cmd(pr.req.id, ArgRegs(cfg, s.regs, pr.req.mbox)), pr.calm)],
       procs := s.procs[p := pr.(pc := Wait, mine := Some(|s.log|))])
  }

  lemma Doorbell(cfg: Config, tr: Trail, s: State, p: Pid) returns (later: Trail, t: State)
    requires ValidConfig(cfg) && Leads(cfg, tr, s) && p in s.procs && s.procs[p].pc == Ring && !s.procs[p].half
    ensures Leads(cfg, later, t) && Continues(tr, later) && t == Rang(cfg, s, p, t.sel)
    ensures cfg.Mapped(p) ==> t.sel == cfg.addr(s.procs[p].req.mbox, Msg)
  {
    hide Leads;
    hide ValidConfig;
    if cfg.Mapped(p) {
      var mid;
      later, mid := Go(cfg, tr, s, Local(p, Select(true, true)));
      RingsHalf(cfg, s, mid, p);
      hide ApplyStore;
      hide Rang;
      later, t := Go(cfg, later, mid, Write(p, DataHalf(true, true)));
    } else {
      RingsWhole(cfg, s, p);
      hide ApplyStore;
      hide Rang;
      later, t := Go(cfg, tr, s, Write(p, Whole(true, true, s.sel)));
    }
  }

  lemma RingsWhole(cfg: Config, s: State, p: Pid)
    requires ValidConfig(cfg) && p in s.procs && s.procs[p].pc == Ring && !s.procs[p].half
    ensures ApplyStore(cfg, s, p, Whole(true, true, s.sel)) == Rang(cfg, s, p, s.sel)
  {
    PokeRings(cfg, s, p);
    RingIsNoArgument(cfg, s.regs, s.procs[p].req);
    hide Poke;
  }

  lemma RingsHalf(cfg: Config, s: State, mid: State, p: Pid)
    requires ValidConfig(cfg) && p in s.procs && s.procs[p].pc == Ring && !s.procs[p].half
    requires mid == s.(sel := cfg.addr(s.procs[p].req.mbox, Msg), procs := s.procs[p := s.procs[p].(half := true)])
    ensures ApplyStore(cfg, mid, p, DataHalf(true, true)) == Rang(cfg, s, p, mid.sel)
  {
    PokeRings(cfg, mid, p);
    RingIsNoArgument(cfg, s.regs, s.procs[p].req);
    hide Poke;
  }

  lemma RingIsNoArgument(cfg: Config, regs: map<Word, Word>, req: Request)
    requires ValidConfig(cfg)
    ensures ArgRegs(cfg, regs[cfg.addr(req.mbox, Msg) := req.id], req.mbox) == ArgRegs(cfg, regs, req.mbox)
  {
    assert forall j | 0 <= j < 6 :: IsReg(Arg(j));
    assert IsReg(Msg);
  }

  lemma SelectsItself(cfg: Config, pr: Proc)
    requires ValidConfig(cfg) && CurrentAccess(pr).ReadAcc? && IsReg(CurrentAccess(pr).reg)
    ensures SelectTarget(cfg, pr) == cfg.addr(pr.req.mbox, CurrentAccess(pr).reg)
  {
  }

  lemma AfterReadForgetsHalf(pr: Proc, v: Word)
    requires CurrentAccess(pr).ReadAcc?
    ensures AfterRead(pr.(half := true), v) == AfterRead(pr, v)
    ensures AfterRead(Lose(pr.(half := true), v), v) == AfterRead(Lose(pr, v), v)
  {
  }

  /** A read whose first half succeeds, with the given second half. */
  lemma FullRead(cfg: Config, tr: Trail, s: State, p: Pid, second: Step) returns (later: Trail, t: State)
    requires ValidConfig(cfg) && Leads(cfg, tr, s) && p in s.procs && CurrentAccess(s.procs[p]).ReadAcc? && !s.procs[p].half
    requires second == ReadData(true) || (second.ReadLost? && cfg.Mapped(p))
    requires IsReg(CurrentAccess(s.procs[p]).reg)
    ensures Leads(cfg, later, t) && Continues(tr, later) && OnlyOwn(s, t, p) && t.regs == s.regs
    ensures
      var pr := s.procs[p];
      t.procs[p] == if second.ReadLost? then AfterRead(Lose(pr, second.v), second.v)
                    else AfterRead(pr, Read(s.regs, cfg.addr(pr.req.mbox, CurrentAccess(pr).reg)))
  {
    hide Leads;
    SelectsItself(cfg, s.procs[p]);
    var mid;
    later, mid := FirstHalf(cfg, tr, s, p);
    hide ValidConfig;
    hide SelectTarget;
    AfterReadForgetsHalf(s.procs[p], if second.ReadLost? then second.v else Read(mid.regs, mid.sel));
    hide AfterRead;
    hide Lose;
    hide Read;
    later, t := Go(cfg, later, mid, Local(p, second));
  }

  /** The result reads from the `i`-th on. */
  lemma {:induction false} ReadRest(cfg: Config, tr: Trail, s: State, p: Pid, i: nat) returns (later: Trail, t: State)
    requires ValidConfig(cfg) && Leads(cfg, tr, s) && p in s.procs && i < 6
    requires s.procs[p].pc == ReadBack(i) && !s.procs[p].half && |s.procs[p].rets| == i
    ensures Leads(cfg, later, t) && Continues(tr, later) && OnlyOwn(s, t, p)
    ensures t.procs[p] == s.procs[p].(pc := Finish, rets := t.procs[p].rets)
    ensures |t.procs[p].rets| == 6 && s.procs[p].rets <= t.procs[p].rets
    decreases 6 - i
  {
    hide Run;
    later, t := FullRead(cfg, tr, s, p, ReadData(true));
    if i < 5 {
      later, t := ReadRest(cfg, later, t, p, i + 1);
    }
  }

  /** The last look at the error flag, and the unlock. */
  lemma Leave(cfg: Config, tr: Trail, s: State, p: Pid) returns (later: Trail, t: State)
    requires Leads(cfg, tr, s) && p in s.procs && s.procs[p].pc in {Finish, Drop}
    requires s.procs[p].err && s.procs[p].pc == Finish ==> s.procs[p].resp != REP_OK
    ensures Leads(cfg, later, t) && Continues(tr, later)
    ensures
      var pr := s.procs[p];
      t.done == s.done + [Tx(pr.ticket, p, pr.req, pr.resp, pr.rets, pr.mine, pr.via, pr.calm, pr.lost)]
    ensures t.log == s.log && t.answers == s.answers
  {
    hide Leads;
    later, t := Go(cfg, tr, s, Local(p, Take));
    later, t := Go(cfg, later, t, Unlock(p));
  }
}
