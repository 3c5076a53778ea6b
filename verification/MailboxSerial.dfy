/**
 The interleaved machine as a sequential one: on every run where flock works, each step is no
 step or one whole call of a machine that does one call after the other, in the order in which
 the calls took the lock.
 */
module MailboxSerial {
  import opened Words
  import opened SmuLayout
  import opened MailboxProtocol
  import opened MailboxSafety
  import opened MailboxIntegrity

  /** The sequential machine: commands run, calls finished, and calls that have had the lock. */
  datatype Atomic = Atomic(executed: seq<Latch>, finished: seq<Tx>, order: seq<nat>)

  /** The last command is still in flight while its caller holds the lock. */
  function InFlight(s: State): nat {
    if s.lock.Some? && s.lock.value in s.procs && s.procs[s.lock.value].mine.Some? && |s.log| > 0 then 1 else 0
  }

  /** The call that holds the lock is not over. */
  function Current(s: State): nat {
    if s.lock.Some? && |s.order| > 0 then 1 else 0
  }

  function Abs(s: State): Atomic {
    Atomic(s.log[..|s.log| - InFlight(s)], s.done, s.order[..|s.order| - Current(s)])
  }

  /**
   One call as a single step. A refused call does nothing. Any other comes next in the order; it
   runs nothing, or one command at the end of the log, which is its own whole request if it was
   calm; and a success it really read is the SMU's answer to this command.
   */
  ghost predicate Transaction(a: Atomic, b: Atomic, answers: map<nat, Reply>) {
    && |b.finished| == |a.finished| + 1
    && var tx := b.finished[|a.finished|];
       && b.finished == a.finished + [tx]
       && TxTrusted(answers, tx)
       && if tx.via == Refused then tx.sent == None && b.executed == a.executed && b.order == a.order
          else
            && b.order == a.order + [tx.ticket]
            && match tx.sent
               case None => b.executed == a.executed
               case Some(i) => i == |a.executed| && Ran(a.executed, b.executed, tx)
  }

  /** The command of a finished call, after those that ran before. */
  ghost predicate Ran(before: seq<Latch>, after: seq<Latch>, tx: Tx) {
    && |after| == |before| + 1
    && var e := after[|before|];
       after == before + [e] && e.ticket == tx.ticket && e.req == tx.req && e.calm == tx.calm && Intact(e)
  }

  /** The holder of the lock is the last call that took it. */
  ghost predicate HolderLast(s: State) {
    s.lock.Some? && s.lock.value in s.procs ==>
      |s.order| > 0 && s.order[|s.order| - 1] == s.procs[s.lock.value].ticket
  }

  lemma HolderLastStep(cfg: Config, s: State, a: Action)
    requires ValidConfig(cfg) && cfg.FlockWorks() && LockInv(cfg, s) && HolderLast(s) && Enabled(cfg, s, a)
    ensures HolderLast(Apply(cfg, s, a))
  {
    hide Tickets;
    hide StepProc;
    hide Records;
    hide ApplyRaw;
    hide Mutex;
    if Inside(a) {
      ActorHolds(cfg, s, a);
      assert Holder(cfg, s, a.p) && Mutex(s);
      HolderStep(cfg, s, a);
      hide Apply;
    } else if a.Unlock? || a.LockSkip? || a.Die? {
      ActorHolds(cfg, s, a);
    } else {
      assert Mutex(s);
      hide PostReply;
    }
  }

  // ---------------------------------------------------------------- steps inside a call

  lemma SilentIsStutter(s: State, t: State, p: Pid)
    requires SilentStep(s, t, p) && s.lock == Some(p)
    ensures Abs(t) == Abs(s)
  {
  }

  lemma LatchIsStutter(s: State, t: State, p: Pid, e: Latch)
    requires LatchStep(s, t, p, e) && s.lock == Some(p)
    ensures Abs(t) == Abs(s)
  {
    assert t.log[..|s.log|] == s.log == s.log[..|s.log|];
  }

  lemma InsideIsStutter(cfg: Config, s: State, a: Action)
    requires ValidConfig(cfg) && Inside(a) && Enabled(cfg, s, a)
    requires s.lock == Some(a.p) && Holder(cfg, s, a.p)
    ensures Abs(Apply(cfg, s, a)) == Abs(s)
  {
    HolderStep(cfg, s, a);
    var t := Apply(cfg, s, a);
    hide Apply;
    hide Abs;
    hide SilentStep;
    hide LatchStep;
    if SilentStep(s, t, a.p) {
      SilentIsStutter(s, t, a.p);
    } else {
      LatchIsStutter(s, t, a.p, t.log[|s.log|]);
    }
  }

  // ---------------------------------------------------------------- the ends of calls

  lemma UnlockIsTransaction(cfg: Config, s: State, p: Pid)
    requires p in s.procs && Holder(cfg, s, p) && s.lock == Some(p) && s.procs[p].pc == Unlocking
    requires Data(cfg, s) && HolderLast(s)
    ensures
      Transaction(Abs(s), Abs(Complete(s, p, s.procs[p].resp, s.procs[p].rets).(lock := None)), s.answers)
  {
    var pr := s.procs[p];
    var t := Complete(s, p, pr.resp, pr.rets).(lock := None);
    assert HolderData(cfg, s, p);
    assert Abs(t).order == s.order == Abs(s).order + [pr.ticket];
    assert Abs(t).executed == s.log;
    if pr.mine.Some? {
      assert s.log == s.log[..|s.log| - 1] + [s.log[|s.log| - 1]];
      assert Intact(s.log[|s.log| - 1]);
    }
  }

  lemma DieIsTransaction(cfg: Config, s: State, p: Pid)
    requires p in s.procs && Holder(cfg, s, p) && s.lock == Some(p)
    requires Data(cfg, s) && HolderLast(s)
    ensures
      var s1 := SetProc(s, p, Dead(s.procs[p]));
      Transaction(Abs(s), Abs(Complete(s1, p, REP_TIMEOUT, s.procs[p].req.args).(lock := None)), s.answers)
  {
    var pr := s.procs[p];
    var t := Complete(SetProc(s, p, Dead(pr)), p, REP_TIMEOUT, pr.req.args).(lock := None);
    assert Abs(t).order == s.order == Abs(s).order + [pr.ticket];
    assert Abs(t).executed == s.log;
    if pr.mine.Some? {
      assert s.log == s.log[..|s.log| - 1] + [s.log[|s.log| - 1]];
      assert Intact(s.log[|s.log| - 1]);
    }
  }

  lemma TimeoutIsTransaction(cfg: Config, s: State, p: Pid)
    requires LockInv(cfg, s) && p in s.procs && s.procs[p].pc == Locking
    ensures Transaction(Abs(s), Abs(Complete(s, p, REP_REJECTED_BUSY, s.procs[p].req.args)), s.answers)
  {
    assert Mutex(s) && Tickets(s) && Records(s);
    assert s.lock != Some(p);
    hide LockInv;
    hide Tickets;
    hide Records;
    var t := Complete(s, p, REP_REJECTED_BUSY, s.procs[p].req.args);
    assert Abs(t).executed == Abs(s).executed && Abs(t).order == Abs(s).order;
  }

  /** Every step of the interleaved machine is no step or one whole transaction of the sequential one. */
  lemma TransactionStep(cfg: Config, s: State, a: Action)
    requires ValidConfig(cfg) && cfg.FlockWorks()
    requires DataInv(cfg, s) && HolderLast(s) && Enabled(cfg, s, a)
    ensures
      var t := Apply(cfg, s, a);
      Abs(t) == Abs(s) || Transaction(Abs(s), Abs(t), t.answers)
  {
    match a
    case LockTimeout(p) => TimeoutIsTransaction(cfg, s, p);
    case Unlock(p) =>
      ActorHolds(cfg, s, a);
      UnlockIsTransaction(cfg, s, p);
    case Die(p) =>
      ActorHolds(cfg, s, a);
      DieIsTransaction(cfg, s, p);
    case RawWrite(_, _, _, _, _) => ActorHolds(cfg, s, a); InsideIsStutter(cfg, s, a);
    case RawRead(_, _) => ActorHolds(cfg, s, a); InsideIsStutter(cfg, s, a);
    case Local(_, _) => ActorHolds(cfg, s, a); InsideIsStutter(cfg, s, a);
    case Write(_, _) => ActorHolds(cfg, s, a); InsideIsStutter(cfg, s, a);
    case _ => OutsideIsStutter(cfg, s, a);
  }

  lemma OutsideIsStutter(cfg: Config, s: State, a: Action)
    requires cfg.FlockWorks() && LockInv(cfg, s) && Enabled(cfg, s, a)
    requires a.Answer? || a.Start? || a.LockOk? || a.LockSkip?
    ensures Abs(Apply(cfg, s, a)) == Abs(s)
  {
    hide SetupValue;
    hide Records;
    hide StepSel;
    assert Mutex(s) && Tickets(s);
    hide PostReply;
    hide LockInv;
    hide Tickets;
    var t := Apply(cfg, s, a);
    if a.LockOk? {
      assert t.order[..|s.order|] == s.order == s.order[..|s.order|];
      assert t.log[..|t.log|] == s.log[..|s.log|];
    }
  }

  // ---------------------------------------------------------------- lock order

  /** The finished calls that had the lock. */
  function Taken(finished: seq<Tx>): seq<Tx> {
    if finished == [] then []
    else
      var last := finished[|finished| - 1];
      Taken(finished[..|finished| - 1]) + if last.via != Refused then [last] else []
  }

  /** Those that made the SMU run a command. */
  function Sent(finished: seq<Tx>): seq<Tx> {
    if finished == [] then []
    else
      var last := finished[|finished| - 1];
      Sent(finished[..|finished| - 1]) + if last.sent.Some? then [last] else []
  }

  lemma TakenSnoc(finished: seq<Tx>, tx: Tx)
    ensures Taken(finished + [tx]) == Taken(finished) + if tx.via != Refused then [tx] else []
  {
    assert (finished + [tx])[..|finished|] == finished;
  }

  lemma SentSnoc(finished: seq<Tx>, tx: Tx)
    ensures Sent(finished + [tx]) == Sent(finished) + if tx.sent.Some? then [tx] else []
  {
    assert (finished + [tx])[..|finished|] == finished;
  }

  /** These calls, in this order. */
  predicate OrderIs(order: seq<nat>, calls: seq<Tx>) {
    |order| == |calls| && forall j | 0 <= j < |calls| :: order[j] == calls[j].ticket
  }

  /** The commands of these calls, in this order. */
  predicate CommandsOf(log: seq<Latch>, calls: seq<Tx>) {
    |log| == |calls| && forall j | 0 <= j < |calls| ::
      log[j].ticket == calls[j].ticket && log[j].req == calls[j].req && log[j].calm == calls[j].calm && Intact(log[j])
  }

  ghost predicate Serial(a: Atomic) {
    && OrderIs(a.order, Taken(a.finished))
    && CommandsOf(a.executed, Sent(Taken(a.finished)))
  }

  lemma CommandsSnoc(log: seq<Latch>, after: seq<Latch>, calls: seq<Tx>, tx: Tx)
    requires CommandsOf(log, calls) && Ran(log, after, tx)
    ensures CommandsOf(after, calls + [tx])
  {
  }

  lemma TransactionSerial(a: Atomic, b: Atomic, answers: map<nat, Reply>)
    requires Transaction(a, b, answers) && Serial(a)
    ensures Serial(b)
  {
    hide Sent;
    hide Taken;
    hide Trusted;
    hide CommandsOf;
    hide Intact;
    var tx := b.finished[|a.finished|];
    var taken := Taken(a.finished);
    TakenSnoc(a.finished, tx);
    if tx.via != Refused {
      SentSnoc(taken, tx);
      assert Taken(b.finished) == taken + [tx];
      if tx.sent.Some? {
        CommandsSnoc(a.executed, b.executed, Sent(taken), tx);
        assert Sent(taken + [tx]) == Sent(taken) + [tx];
      } else {
        assert Sent(taken + [tx]) == Sent(taken);
      }
    } else {
      assert Taken(b.finished) == taken;
    }
  }

  /**
   Lock order is execution order: the calls that had the lock finished in the order in which
   they took it, and what the SMU has run for them is their commands in that order, leaving out
   the calls that sent nothing.
   */
  lemma {:induction false} ExecutedInLockOrder(cfg: Config, ss: seq<State>, acts: seq<Action>, n: nat)
    requires ValidConfig(cfg) && cfg.FlockWorks()
    requires Run(cfg, ss, acts) && n < |ss|
    ensures HolderLast(ss[n]) && Serial(Abs(ss[n]))
  {
    hide LockInv;
    hide SetProc;
    hide Tickets;
    hide ValidConfig;
    if n > 0 {
      ExecutedInLockOrder(cfg, ss, acts, n - 1);
      DataInvRun(cfg, ss, acts, n - 1);
      assert StepBy(cfg, ss[n - 1], acts[n - 1], ss[n]);
      HolderLastStep(cfg, ss[n - 1], acts[n - 1]);
      TransactionStep(cfg, ss[n - 1], acts[n - 1]);
      if Abs(ss[n]) != Abs(ss[n - 1]) {
        TransactionSerial(Abs(ss[n - 1]), Abs(ss[n]), ss[n].answers);
      }
    }
  }
}
