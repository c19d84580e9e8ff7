/**
 When a rejected payment has moved money all the same: the exact condition, and runs on which it happens.
 The same exceptions make the service publish PAYMENT_FAILED, which reads as if no money had moved.
 */
module TransferCharges {
  import opened Prelude
  import opened FraudEngine
  import opened Books
  import opened TransferProtocol
  import opened TransferInvariant
  import opened TransferSafety

  /** The calls after the point of no return: the COMMIT itself, and what follows an acknowledged one. */
  predicate IsLate(pr: Proc) {
    || pr.pc.CacheResponse? || pr.pc.FlushReads?
    || ((pr.pc.UnlockFirst? || pr.pc.UnlockSecond?) && pr.transactionRow.Some?)
  }

  /** In this step a late call of p throws: a COMMIT that was executed, or one of the calls behind it. */
  predicate FailsLate(s: State, step: Step, p: Pid) {
    && Running(s, p)
    && ((step.Advance? && step.p == p && !step.ok && (s.procs[p].pc.CommitTrx? || IsLate(s.procs[p])))
        || (step.Fail? && step.p == p && IsLate(s.procs[p])))
  }

  /** It did so in some step of the run. */
  predicate FailedLate(s0: State, steps: seq<Step>, p: Pid) {
    && steps != []
    && (FailsLate(Run(s0, steps[..|steps| - 1]), steps[|steps| - 1], p) || FailedLate(s0, steps[..|steps| - 1], p))
  }

  ghost predicate Charged(db: Db, p: Pid) { exists r :: r in db.books.rows && r.id == p }

  /** What p has to do with its row, given whether one of its late calls has thrown. */
  ghost predicate Settled(db: Db, p: Pid, pr: Proc, late: bool) {
    && (late ==> Charged(db, p) && pr.outcome.Rejected?)
    && (Charged(db, p) && !late ==> pr.transactionRow.Some? && !pr.outcome.Rejected?)
  }

  /** A step of somebody else changes nothing for p. */
  lemma OthersKeepSettled(db: Db, db': Db, p: Pid, pr: Proc, late: bool)
    requires Settled(db, p, pr, late) && Respects(db, db', p)
    ensures Settled(db', p, pr, late)
  {
    if Charged(db, p) {
      var r :| r in db.books.rows && r.id == p;
      assert r in db'.books.rows;
    }
    if Charged(db', p) {
      var r :| r in db'.books.rows && r.id == p;
      assert r in db.books.rows;
    }
  }

  lemma ThrowKeepsSettled(db: Db, p: Pid, pr: Proc, e: Error, late: bool)
    requires ProcOk(db, p, pr) && Settled(db, p, pr, late) && !pr.pc.Returned?
    ensures Settled(db, p, Throw(pr, e), late || IsLate(pr))
  {
    if IsLate(pr) { assert NewRow(p, pr) in db.books.rows; }
  }

  lemma DbStepKeepsSettled(db: Db, p: Pid, pr: Proc, ok: bool)
    requires InTrx(pr.pc) && ProcOk(db, p, pr)
    ensures var (db', pr') := DbStep(db, p, pr, ok); Settled(db', p, pr', pr.pc.CommitTrx? && !ok)
  {
    var (db', pr') := DbStep(db, p, pr, ok);
    if pr.pc.CommitTrx? {
      assert pr.trx.rows == [NewRow(p, pr)];
      assert db'.books.rows[|db.books.rows|] == NewRow(p, pr);
    } else {
      OnlyCommitsWriteBooks(db, p, pr, ok);
    }
  }

  lemma AfterLockCallKeepsSettled(db: Db, p: Pid, pr: Proc, client: Option<Locks.Client>, late: bool)
    requires AtLocks(pr.pc) && ProcOk(db, p, pr) && Settled(db, p, pr, late)
    ensures Settled(db, p, AfterLockCall(pr, client), late)
  {
    if pr.pc.LockFirst? || pr.pc.UndoFirst? { ThrowKeepsSettled(db, p, pr, AccountLocked, late); }
  }

  lemma LockStepKeepsSettled(db: Db, locks: Locks.State, p: Pid, pr: Proc, ok: bool, late: bool)
    requires AtLocks(pr.pc) && ProcOk(db, p, pr) && Settled(db, p, pr, late)
    ensures Settled(db, p, LockStep(locks, p, pr, ok).1, late || (!ok && IsLate(pr)))
  {
    if ok {
      AfterLockCallKeepsSettled(db, p, pr, ClientOf(LockStep(locks, p, pr, ok).0, p), late);
    } else {
      ThrowKeepsSettled(db, p, pr, RedisError, late);
    }
  }

  lemma PlainStepKeepsSettled(db: Db, cache: map<string, Row>, p: Pid, pr: Proc, reply: Reply, ok: bool, late: bool)
    requires !InTrx(pr.pc) && !AtLocks(pr.pc) && ProcOk(db, p, pr) && Settled(db, p, pr, late)
    ensures Settled(db, p, PlainStep(db, cache, pr, reply, ok).1, late || (!ok && IsLate(pr)))
  {
    if IsLate(pr) { ThrowKeepsSettled(db, p, pr, RedisError, late); }
  }

  lemma AdvanceKeepsSettled(s: State, p: Pid, reply: Reply, ok: bool, late: bool)
    requires Running(s, p) && ProcOk(s.db, p, s.procs[p]) && Settled(s.db, p, s.procs[p], late)
    ensures var late' := late || FailsLate(s, Advance(p, reply, ok), p);
      Settled(AdvancedDb(s, p, ok), p, AdvancedProc(s, p, reply, ok), late')
  {
    var pr := s.procs[p];
    if InTrx(pr.pc) {
      DbStepKeepsSettled(s.db, p, pr, ok);
    } else if AtLocks(pr.pc) {
      LockStepKeepsSettled(s.db, s.locks, p, pr, ok, late);
    } else {
      PlainStepKeepsSettled(s.db, s.cache, p, pr, reply, ok, late);
    }
  }

  lemma OtherAdvanceRespects(s: State, q: Pid, reply: Reply, ok: bool, p: Pid)
    requires Inv(s) && q != p
    ensures Respects(s.db, Apply(s, Advance(q, reply, ok)).db, p)
  {
    if Running(s, q) {
      AdvanceIs(s, q, reply, ok);
      if InTrx(s.procs[q].pc) { DbStepRespects(s.db, q, s.procs[q], ok, p); }
    }
  }

  lemma OtherReapRespects(s: State, q: Pid, p: Pid)
    requires q != p
    ensures Respects(s.db, Apply(s, Reap(q)).db, p)
  {
    ReleaseRespects(s.db, q, p);
  }

  lemma QuietStepRespects(s: State, step: Step, p: Pid)
    requires !step.Advance? && !step.Reap?
    ensures Respects(s.db, Apply(s, step).db, p)
  {
    assert step.OpenAccount? || Apply(s, step).db == s.db;
  }

  lemma OtherStepRespects(s: State, step: Step, p: Pid)
    requires Inv(s) && (step.Advance? || step.Reap? ==> step.p != p)
    ensures Respects(s.db, Apply(s, step).db, p)
  {
    match step
    case Advance(q, reply, ok) => OtherAdvanceRespects(s, q, reply, ok, p);
    case Reap(q) => OtherReapRespects(s, q, p);
    case _ => QuietStepRespects(s, step, p);
  }

  lemma OtherStepLeavesProc(s: State, step: Step, p: Pid)
    requires p in s.procs && (step.Advance? || step.Fail? || step.Reap? ==> step.p != p)
    ensures p in Apply(s, step).procs && Apply(s, step).procs[p] == s.procs[p]
  {}

  lemma FailKeepsSettled(s: State, p: Pid, late: bool)
    requires Inv(s) && p in s.procs && Settled(s.db, p, s.procs[p], late)
    ensures var s' := Apply(s, Fail(p));
      p in s'.procs && Settled(s'.db, p, s'.procs[p], late || FailsLate(s, Fail(p), p))
  {
    if Running(s, p) && MayFail(s.procs[p].pc) {
      ThrowKeepsSettled(s.db, p, s.procs[p], StoreError(s.procs[p].pc), late);
    }
  }

  lemma ReapKeepsSettled(s: State, p: Pid, late: bool)
    requires Inv(s) && p in s.procs && Settled(s.db, p, s.procs[p], late)
    ensures var s' := Apply(s, Reap(p)); p in s'.procs && Settled(s'.db, p, s'.procs[p], late)
  {
    assert ProcOk(s.db, p, s.procs[p]);
    assert InTrx(s.procs[p].pc) ==> !Charged(s.db, p);
  }

  /** A step that is no call of p's leaves p as it is. */
  lemma OtherStepKeepsSettled(s: State, step: Step, p: Pid, late: bool)
    requires Inv(s) && p in s.procs && Settled(s.db, p, s.procs[p], late)
    requires step.Advance? || step.Fail? || step.Reap? ==> step.p != p
    ensures var s' := Apply(s, step); p in s'.procs && Settled(s'.db, p, s'.procs[p], late)
  {
    OtherStepLeavesProc(s, step, p);
    OtherStepRespects(s, step, p);
    OthersKeepSettled(s.db, Apply(s, step).db, p, s.procs[p], late);
  }

  lemma ArrivesUncharged(s: State, step: Step, p: Pid)
    requires Inv(s) && p !in s.procs && p in Apply(s, step).procs
    ensures Settled(Apply(s, step).db, p, Apply(s, step).procs[p], false)
  {
    assert !Charged(s.db, p);
  }

  lemma StepKeepsSettled(s: State, step: Step, p: Pid, late: bool)
    requires Inv(s) && if p in s.procs then Settled(s.db, p, s.procs[p], late) else !late
    ensures var s', late' := Apply(s, step), late || FailsLate(s, step, p);
      if p in s'.procs then Settled(s'.db, p, s'.procs[p], late') else !late'
  {
    if p !in s.procs {
      if p in Apply(s, step).procs { ArrivesUncharged(s, step, p); }
    } else if step.Advance? && step.p == p {
      if Running(s, p) {
        AdvanceIs(s, p, step.reply, step.ok);
        AdvanceKeepsSettled(s, p, step.reply, step.ok, late);
      }
    } else if step.Fail? && step.p == p {
      FailKeepsSettled(s, p, late);
    } else if step.Reap? && step.p == p {
      ReapKeepsSettled(s, p, late);
    } else {
      OtherStepKeepsSettled(s, step, p, late);
    }
  }

  lemma {:induction false} RunKeepsSettled(s0: State, steps: seq<Step>, p: Pid)
    requires Initial(s0)
    ensures var s := Run(s0, steps);
      if p in s.procs then Settled(s.db, p, s.procs[p], FailedLate(s0, steps, p)) else !FailedLate(s0, steps, p)
  {
    if steps != [] {
      var n := |steps| - 1;
      RunKeepsSettled(s0, steps[..n], p);
      RunKeepsInv(s0, steps[..n]);
      StepKeepsSettled(Run(s0, steps[..n]), steps[n], p, FailedLate(s0, steps[..n], p));
    }
  }

  /** A rejected payment has moved money exactly when one of its late calls has thrown. */
  lemma RejectedYetChargedIff(s0: State, steps: seq<Step>, p: Pid)
    requires Initial(s0) && p in Run(s0, steps).procs && Run(s0, steps).procs[p].outcome.Rejected?
    ensures Charged(Run(s0, steps).db, p) <==> FailedLate(s0, steps, p)
  {
    RunKeepsSettled(s0, steps, p);
  }
}
