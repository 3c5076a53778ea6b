/**
 One call at a time: what the caller of smu_service_req knows about its own request, on any run where
 flock works, whatever else happens on the machine. Everything depends on one condition at the
 moment the call takes the lock, that nothing is pending on its mailbox, and the last result says
 that the condition is exact.
 */
module MailboxCalls {
  import opened Words
  import opened SmuLayout
  import opened MailboxProtocol
  import opened MailboxSafety
  import opened MailboxIntegrity
  import opened MailboxPaths

  /**
   The SMU ran the request exactly once, for this call, and answered it with success; the
   returned words are its results, apart from those whose reading failed unnoticed.
   */
  ghost predicate Executed(s: State, tx: Tx) {
    exists i ::
      && 0 <= i < |s.log| && tx.sent == Some(i)
      && s.log[i].ticket == tx.ticket && s.log[i].cmd == CmdOf(tx.req) && s.log[i].mbox == tx.req.mbox
      && Answered(s.answers, tx.sent, REP_OK, tx.rets, tx.lost, 6)
      && forall j | 0 <= j < |s.log| && s.log[j].ticket == tx.ticket :: j == i
  }

  /** All lost reads returned what a failed read of libpci returns. */
  predicate OnesOnly(lost: map<nat, Word>) {
    forall j | j in lost :: lost[j] == ALL_ONES
  }

  /** What a finished call promises: a calm success was executed, if the response was really read or failed reads are all ones. */
  ghost predicate Kept(s: State, tx: Tx) {
    tx.req.kind == Req && tx.calm && tx.resp == REP_OK && (RESPONSE !in tx.lost || OnesOnly(tx.lost)) ==> Executed(s, tx)
  }

  // ---------------------------------------------------------------- success

  /** A calm call that reports a success it really read was executed. */
  lemma SuccessMeansExecuted(cfg: Config, ss: seq<State>, acts: seq<Action>, n: nat, k: nat)
    requires ValidConfig(cfg) && cfg.FlockWorks()
    requires Run(cfg, ss, acts) && n < |ss| && k < |ss[n].done|
    requires
      var tx := ss[n].done[k];
      tx.req.kind == Req && tx.calm && tx.resp == REP_OK && RESPONSE !in tx.lost
    ensures Executed(ss[n], ss[n].done[k])
  {
    DataInvRun(cfg, ss, acts, n);
    var tx := ss[n].done[k];
    assert TxTrusted(ss[n].answers, tx);
    var i := tx.sent.value;
    assert SentMatches(ss[n].log, tx);
    assert Intact(ss[n].log[i]);
    assert AtMostOnce(ss[n].log);
  }

  /**
   If failed reads return all ones, a success was really read; every other word returned is the
   SMU's; and the whole result is the SMU's exactly if every lost word is all ones in its answer.
   */
  lemma ResultsExact(cfg: Config, ss: seq<State>, acts: seq<Action>, n: nat, k: nat)
    requires ValidConfig(cfg) && cfg.FlockWorks()
    requires Run(cfg, ss, acts) && n < |ss| && k < |ss[n].done|
    requires
      var tx := ss[n].done[k];
      tx.req.kind == Req && tx.calm && tx.resp == REP_OK && OnesOnly(tx.lost)
    ensures
      var tx := ss[n].done[k];
      && Executed(ss[n], tx)
      && tx.sent.Some? && tx.sent.value in ss[n].answers && |tx.rets| == 6
      && var results := ss[n].answers[tx.sent.value].results;
         && (forall j | 0 <= j < 6 && tx.rets[j] != ALL_ONES :: tx.rets[j] == results[j])
         && (tx.rets == results <==> forall j | 0 <= j < 6 && j in tx.lost :: results[j] == ALL_ONES)
  {
    DataInvRun(cfg, ss, acts, n);
    var tx := ss[n].done[k];
    assert TxTrusted(ss[n].answers, tx);
    SuccessMeansExecuted(cfg, ss, acts, n, k);
  }

  /** Through the driver no read fails unnoticed. */
  ghost predicate NothingLost(cfg: Config, s: State) {
    && (forall p | p in s.procs && !cfg.Mapped(p) :: s.procs[p].lost == map[])
    && (forall k | 0 <= k < |s.done| && !cfg.Mapped(s.done[k].pid) :: s.done[k].lost == map[])
  }

  lemma StepLosesNothing(pr: Proc, step: Step, v: Word)
    requires pr.lost == map[] && !step.ReadLost?
    ensures StepProc(pr, step, v).lost == map[]
  {
  }

  lemma StoreLosesNothing(cfg: Config, s: State, p: Pid, store: Store)
    requires p in s.procs && StoreEnabled(s.procs[p], store)
    ensures
      var t := ApplyStore(cfg, s, p, store);
      && p in t.procs && t.procs == s.procs[p := t.procs[p]] && t.procs[p].lost == s.procs[p].lost && t.done == s.done
  {
    if store.ok || store.landed {
      PokeKeepsCall(cfg, s, p, StoreAddr(cfg, s, p, store), CurrentAccess(s.procs[p]).value);
    }
    hide Poke;
  }

  lemma RawLosesNothing(s: State, p: Pid, effect: RawEffect)
    requires p in s.procs
    ensures
      var t := RawLatch(s, p, effect);
      p in t.procs && t.procs == s.procs[p := t.procs[p]] && t.done == s.done
  {
  }

  /** Only `p` changes, and loses nothing if it uses the driver. */
  lemma NothingLostBy(cfg: Config, s: State, t: State, p: Pid)
    requires NothingLost(cfg, s) && p in t.procs && t.procs == s.procs[p := t.procs[p]] && t.done == s.done
    requires !cfg.Mapped(p) ==> t.procs[p].lost == map[]
    ensures NothingLost(cfg, t)
  {
  }

  lemma NothingLostAtEnd(cfg: Config, s: State, p: Pid, resp: Word, rets: seq<Word>)
    requires NothingLost(cfg, s) && p in s.procs
    ensures NothingLost(cfg, Complete(s, p, resp, rets))
  {
  }

  lemma NothingLostStep(cfg: Config, s: State, a: Action)
    requires NothingLost(cfg, s) && Enabled(cfg, s, a)
    ensures NothingLost(cfg, Apply(cfg, s, a))
  {
    var t := Apply(cfg, s, a);
    match a
    case RawWrite(_, _, _, _, _) => NothingLostInside(cfg, s, a);
    case RawRead(_, _) => NothingLostInside(cfg, s, a);
    case Local(_, _) => NothingLostInside(cfg, s, a);
    case Write(_, _) => NothingLostInside(cfg, s, a);
    case LockTimeout(p) => NothingLostAtEnd(cfg, s, p, REP_REJECTED_BUSY, s.procs[p].req.args);
    case Unlock(p) => NothingLostAtEnd(cfg, s, p, s.procs[p].resp, s.procs[p].rets);
    case Die(p) =>
      NothingLostBy(cfg, s, SetProc(s, p, Dead(s.procs[p])), p);
      NothingLostAtEnd(cfg, SetProc(s, p, Dead(s.procs[p])), p, REP_TIMEOUT, s.procs[p].req.args);
    case Start(p, _) => NothingLostBy(cfg, s, t, p);
    case LockOk(p) => NothingLostBy(cfg, s, t, p);
    case LockSkip(p) => NothingLostBy(cfg, s, t, p);
    case Answer(_, _) =>
    hide Complete;
    hide ApplyRaw;
    hide ApplyStore;
    hide PostReply;
    hide StepProc;
    hide Quiet;
  }

  lemma NothingLostInside(cfg: Config, s: State, a: Action)
    requires NothingLost(cfg, s) && Enabled(cfg, s, a) && Inside(a)
    ensures NothingLost(cfg, Apply(cfg, s, a))
  {
    hide NothingLost;
    hide StepProc;
    hide ApplyStore;
    if !cfg.Mapped(a.p) {
      NothingLostNow(cfg, s, a.p);
    }
    match a {
      case RawWrite(p, _, effect, _, _) => RawLosesNothing(s, p, effect);
      case RawRead(_, _) =>
      case Local(p, step) =>
        if !cfg.Mapped(p) {
          StepLosesNothing(s.procs[p], step, Read(s.regs, s.sel));
        }
      case Write(p, store) => StoreLosesNothing(cfg, s, p, store);
    }
    hide RawLatch;
    hide RawResponse;
    hide RawRets;
    NothingLostBy(cfg, s, Apply(cfg, s, a), a.p);
  }

  lemma NothingLostNow(cfg: Config, s: State, p: Pid)
    requires NothingLost(cfg, s) && p in s.procs && !cfg.Mapped(p)
    ensures s.procs[p].lost == map[]
  {
  }

  lemma {:induction false} DriverLosesNothing(cfg: Config, ss: seq<State>, acts: seq<Action>, n: nat)
    requires Run(cfg, ss, acts) && n < |ss|
    ensures NothingLost(cfg, ss[n])
  {
    if n > 0 {
      DriverLosesNothing(cfg, ss, acts, n - 1);
      assert StepBy(cfg, ss[n - 1], acts[n - 1], ss[n]);
      NothingLostStep(cfg, ss[n - 1], acts[n - 1]);
    }
  }

  // ---------------------------------------------------------------- what `calm` means

  /** Whatever is recorded under a call's number belongs to this request and this state of the mailbox. */
  ghost predicate CallIs(s: State, ticket: nat, req: Request, calm: bool) {
    && ticket < s.nextTicket
    && (forall p | p in s.procs && s.procs[p].pc != Idle && s.procs[p].ticket == ticket ::
          InCritical(s.procs[p].pc) && s.procs[p].req == req && s.procs[p].calm == calm)
    && (forall i | 0 <= i < |s.log| && s.log[i].ticket == ticket :: s.log[i].req == req && s.log[i].calm == calm)
    && (forall k | 0 <= k < |s.done| && s.done[k].ticket == ticket :: s.done[k].req == req && s.done[k].calm == calm)
  }

  lemma CallBegins(cfg: Config, s: State, p: Pid)
    requires LockInv(cfg, s) && Enabled(cfg, s, LockOk(p))
    ensures
      var pr := s.procs[p];
      CallIs(Apply(cfg, s, LockOk(p)), pr.ticket, pr.req, Quiet(s, pr.req.mbox))
  {
  }

  lemma CallIsSilent(s: State, t: State, p: Pid, ticket: nat, req: Request, calm: bool)
    requires CallIs(s, ticket, req, calm) && SilentStep(s, t, p) && InCritical(s.procs[p].pc) && InCritical(t.procs[p].pc)
    ensures CallIs(t, ticket, req, calm)
  {
  }

  lemma CallIsLatched(s: State, t: State, p: Pid, e: Latch, ticket: nat, req: Request, calm: bool)
    requires CallIs(s, ticket, req, calm) && LatchStep(s, t, p, e) && InCritical(s.procs[p].pc) && InCritical(t.procs[p].pc)
    ensures CallIs(t, ticket, req, calm)
  {
  }

  lemma CallIsDone(s: State, p: Pid, resp: Word, rets: seq<Word>, ticket: nat, req: Request, calm: bool)
    requires CallIs(s, ticket, req, calm) && p in s.procs && s.procs[p].pc != Idle
    ensures CallIs(Complete(s, p, resp, rets), ticket, req, calm)
  {
  }

  lemma CallIsInside(cfg: Config, s: State, a: Action, ticket: nat, req: Request, calm: bool)
    requires ValidConfig(cfg) && cfg.FlockWorks() && LockInv(cfg, s) && Enabled(cfg, s, a) && CallIs(s, ticket, req, calm)
    requires Inside(a)
    ensures CallIs(Apply(cfg, s, a), ticket, req, calm)
  {
    var t := Apply(cfg, s, a);
    ActorHolds(cfg, s, a);
    LockInvStep(cfg, s, a);
    assert Holder(cfg, s, a.p) && Mutex(s) && Mutex(t);
    HolderStep(cfg, s, a);
    hide Apply;
    hide LockInv;
    hide CallIs;
    if SilentStep(s, t, a.p) {
      CallIsSilent(s, t, a.p, ticket, req, calm);
    } else {
      CallIsLatched(s, t, a.p, t.log[|s.log|], ticket, req, calm);
    }
  }

  lemma CallIsOutside(cfg: Config, s: State, a: Action, ticket: nat, req: Request, calm: bool)
    requires cfg.FlockWorks() && Mutex(s) && Tickets(s) && Enabled(cfg, s, a) && CallIs(s, ticket, req, calm)
    requires a.Answer? || a.Start? || a.LockOk? || a.LockSkip?
    ensures CallIs(Apply(cfg, s, a), ticket, req, calm)
  {
    hide PostReply;
    hide Quiet;
    hide Tickets;
    if a.LockSkip? {
      ActorHolds(cfg, s, a);
    }
  }

  lemma CallIsStep(cfg: Config, s: State, a: Action, ticket: nat, req: Request, calm: bool)
    requires ValidConfig(cfg) && cfg.FlockWorks() && LockInv(cfg, s) && Enabled(cfg, s, a) && CallIs(s, ticket, req, calm)
    ensures CallIs(Apply(cfg, s, a), ticket, req, calm)
  {
    hide CallIs;
    hide Complete;
    hide EnterLock;
    hide Begin;
    hide ApplyStore;
    hide ApplyRaw;
    hide StepProc;
    hide PostReply;
    match a
    case Unlock(p) =>
      ActorHolds(cfg, s, a);
      CallIsUnlocked(s, p, ticket, req, calm);
    case Die(p) =>
      ActorHolds(cfg, s, a);
      CallIsDead(s, p, ticket, req, calm);
    case LockTimeout(p) => CallIsDone(s, p, REP_REJECTED_BUSY, s.procs[p].req.args, ticket, req, calm);
    case RawWrite(_, _, _, _, _) => CallIsInside(cfg, s, a, ticket, req, calm);
    case RawRead(_, _) => CallIsInside(cfg, s, a, ticket, req, calm);
    case Local(_, _) => CallIsInside(cfg, s, a, ticket, req, calm);
    case Write(_, _) => CallIsInside(cfg, s, a, ticket, req, calm);
    case _ => CallIsOutside(cfg, s, a, ticket, req, calm);
  }

  lemma CallIsUnlocked(s: State, p: Pid, ticket: nat, req: Request, calm: bool)
    requires CallIs(s, ticket, req, calm) && p in s.procs && s.procs[p].pc == Unlocking
    ensures CallIs(Complete(s, p, s.procs[p].resp, s.procs[p].rets).(lock := None), ticket, req, calm)
  {
    CallIsDone(s, p, s.procs[p].resp, s.procs[p].rets, ticket, req, calm);
    hide Complete;
  }

  lemma CallIsDead(s: State, p: Pid, ticket: nat, req: Request, calm: bool)
    requires CallIs(s, ticket, req, calm) && p in s.procs && InCritical(s.procs[p].pc)
    ensures
      var s1 := SetProc(s, p, Dead(s.procs[p]));
      CallIs(Complete(s1, p, REP_TIMEOUT, s.procs[p].req.args).(lock := None), ticket, req, calm)
  {
    var s1 := SetProc(s, p, Dead(s.procs[p]));
    assert CallIs(s1, ticket, req, calm);
    CallIsDone(s1, p, REP_TIMEOUT, s.procs[p].req.args, ticket, req, calm);
    hide Complete;
  }

  /** From the moment a call takes the lock its records say whether its mailbox was quiet then. */
  lemma {:induction false} CalmMeansQuiet(cfg: Config, ss: seq<State>, acts: seq<Action>, m: nat, n: nat, p: Pid)
    requires ValidConfig(cfg) && cfg.FlockWorks()
    requires Run(cfg, ss, acts) && m < n < |ss| && acts[m] == LockOk(p) && p in ss[m].procs
    ensures
      var pr := ss[m].procs[p];
      CallIs(ss[n], pr.ticket, pr.req, Quiet(ss[m], pr.req.mbox))
    decreases n
  {
    hide LockInv;
    hide StepBy;
    hide CallIs;
    hide Quiet;
    LockInvRun(cfg, ss, acts, n - 1);
    assert StepBy(cfg, ss[n - 1], acts[n - 1], ss[n]);
    var pr := ss[m].procs[p];
    hide Run;
    if n == m + 1 {
      CallBeginsBy(cfg, ss[m], ss[n], p);
    } else {
      CalmMeansQuiet(cfg, ss, acts, m, n - 1, p);
      CallIsBy(cfg, ss[n - 1], acts[n - 1], ss[n], pr.ticket, pr.req, Quiet(ss[m], pr.req.mbox));
    }
  }

  lemma CallBeginsBy(cfg: Config, s: State, t: State, p: Pid)
    requires LockInv(cfg, s) && StepBy(cfg, s, LockOk(p), t)
    ensures p in s.procs && CallIs(t, s.procs[p].ticket, s.procs[p].req, Quiet(s, s.procs[p].req.mbox))
  {
    CallBegins(cfg, s, p);
  }

  lemma CallIsBy(cfg: Config, s: State, a: Action, t: State, ticket: nat, req: Request, calm: bool)
    requires ValidConfig(cfg) && cfg.FlockWorks() && LockInv(cfg, s) && StepBy(cfg, s, a, t) && CallIs(s, ticket, req, calm)
    ensures CallIs(t, ticket, req, calm)
  {
    CallIsStep(cfg, s, a, ticket, req, calm);
  }

  /**
   If the mailbox was quiet when the call took the lock, then from there on whatever the SMU takes
   for this call is its own request, with all six arguments, on its own mailbox.
   */
  lemma CallIsIntact(cfg: Config, ss: seq<State>, acts: seq<Action>, m: nat, n: nat, p: Pid)
    requires ValidConfig(cfg) && cfg.FlockWorks()
    requires Run(cfg, ss, acts) && m < n < |ss| && acts[m] == LockOk(p) && p in ss[m].procs
    requires ss[m].procs[p].req.kind == Req && Quiet(ss[m], ss[m].procs[p].req.mbox)
    ensures
      var pr, log := ss[m].procs[p], ss[n].log;
      forall i | 0 <= i < |log| && log[i].ticket == pr.ticket ::
        log[i].req == pr.req && log[i].cmd == CmdOf(pr.req) && log[i].mbox == pr.req.mbox
  {
    CalmMeansQuiet(cfg, ss, acts, m, n, p);
    DataInvRun(cfg, ss, acts, n);
    var log := ss[n].log;
    assert forall i | 0 <= i < |log| :: Intact(log[i]);
  }

  /** And when it has returned a success that it really read, the SMU executed it. */
  lemma CallSucceeds(cfg: Config, ss: seq<State>, acts: seq<Action>, m: nat, n: nat, p: Pid, k: nat)
    requires ValidConfig(cfg) && cfg.FlockWorks()
    requires Run(cfg, ss, acts) && m < n < |ss| && acts[m] == LockOk(p) && p in ss[m].procs
    requires ss[m].procs[p].req.kind == Req && Quiet(ss[m], ss[m].procs[p].req.mbox)
    requires k < |ss[n].done| && ss[n].done[k].ticket == ss[m].procs[p].ticket
    requires ss[n].done[k].resp == REP_OK && RESPONSE !in ss[n].done[k].lost
    ensures ss[n].done[k].req == ss[m].procs[p].req && Executed(ss[n], ss[n].done[k])
  {
    CalmMeansQuiet(cfg, ss, acts, m, n, p);
    SuccessMeansExecuted(cfg, ss, acts, n, k);
  }

  // ---------------------------------------------------------------- counting calls

  /** How many calls a process has begun. */
  function Starts(acts: seq<Action>, p: Pid): nat {
    if acts == [] then 0
    else
      var a := acts[|acts| - 1];
      Starts(acts[..|acts| - 1], p) + if a.Start? && a.p == p then 1 else 0
  }

  lemma StartsSnoc(acts: seq<Action>, a: Action, p: Pid)
    ensures Starts(acts + [a], p) == Starts(acts, p) + if a.Start? && a.p == p then 1 else 0
  {
    assert (acts + [a])[..|acts|] == acts;
  }
}
