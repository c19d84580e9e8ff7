/**
 What a transfer leaves behind when it ends: row locks and reserved idempotency keys in the database, lock
 keys in Redis. Exactly which failures leave something is said step by step.
 */
module TransferLeftovers {
  import opened Prelude
  import opened FraudEngine
  import opened TransferProtocol
  import opened TransferInvariant
  import opened TransferLocks

  // ---------------------------------------------------------------- the database

  /** The ROLLBACK throws without having had any effect; the code goes on as if it had. */
  predicate FailsToRollBack(s: State, step: Step) {
    step.Fail? && Running(s, step.p) && s.procs[step.p].pc.RollBack?
  }

  /** The requests whose ROLLBACK has failed and whose transaction the database has not ended yet. */
  function Dangling(s0: State, steps: seq<Step>): set<Pid> {
    if steps == [] then {}
    else
      var n := |steps| - 1;
      var before := Dangling(s0, steps[..n]);
      if FailsToRollBack(Run(s0, steps[..n]), steps[n]) then before + {steps[n].p}
      else if steps[n].Reap? then before - {steps[n].p}
      else before
  }

  ghost predicate OwnerOk(s: State, p: Pid, dangling: set<Pid>) {
    p in s.procs && (InTrx(s.procs[p].pc) || p in dangling)
  }

  /** Row locks and uncommitted index entries belong to open or dangling transactions. */
  ghost predicate OpenOwners(s: State, dangling: set<Pid>) {
    && (forall id :: id in s.db.rowLocks ==> OwnerOk(s, s.db.rowLocks[id], dangling))
    && (forall k :: k in s.db.keyIndex && s.db.keyIndex[k].Some? ==> OwnerOk(s, s.db.keyIndex[k].value, dangling))
  }

  /** A dangling transaction's request is on its way out, rejected by the failure of a store. */
  ghost predicate DanglingOk(s: State, dangling: set<Pid>) {
    forall p :: p in dangling ==> p in s.procs && LeavesRejected(s.procs[p])
  }

  predicate LeavesRejected(pr: Proc) {
    && (pr.pc.UnlockFirst? || pr.pc.UnlockSecond? || pr.pc.Returned?)
    && (pr.outcome == Rejected(DatabaseError) || pr.outcome == Rejected(RedisError))
  }

  lemma StatementLocks(db: Db, p: Pid, pr: Proc)
    requires InTrx(pr.pc) && !pr.pc.CommitTrx? && !pr.pc.RollBack?
    ensures var db' := Statement(db, p, pr).0;
      && (forall id :: id in db'.rowLocks ==>
            db'.rowLocks[id] == p || (id in db.rowLocks && db'.rowLocks[id] == db.rowLocks[id]))
      && (forall k :: k in db'.keyIndex && db'.keyIndex[k].Some? ==>
            db'.keyIndex[k] == Some(p) || (k in db.keyIndex && db'.keyIndex[k] == db.keyIndex[k]))
  {}

  /** A call of the transaction adds locks of p only, and none remain when it leaves the transaction. */
  lemma DbStepLocks(db: Db, p: Pid, pr: Proc, ok: bool)
    requires InTrx(pr.pc)
    ensures var (db', pr') := DbStep(db, p, pr, ok);
      && (forall id :: id in db'.rowLocks ==>
            || (db'.rowLocks[id] == p && InTrx(pr'.pc))
            || (id in db.rowLocks && db'.rowLocks[id] == db.rowLocks[id] != p))
      && (forall k :: k in db'.keyIndex && db'.keyIndex[k].Some? ==>
            || (db'.keyIndex[k] == Some(p) && InTrx(pr'.pc))
            || (k in db.keyIndex && db'.keyIndex[k] == db.keyIndex[k] != Some(p)))
  {
    if !pr.pc.CommitTrx? && !pr.pc.RollBack? {
      StatementLocks(db, p, pr);
      StatementKeepsPlace(db, p, pr);
    }
  }

  lemma AdvanceKeepsOwners(s: State, p: Pid, reply: Reply, ok: bool, dangling: set<Pid>)
    requires OpenOwners(s, dangling)
    ensures OpenOwners(Apply(s, Advance(p, reply, ok)), dangling)
  {
    if Running(s, p) {
      AdvanceIs(s, p, reply, ok);
      if InTrx(s.procs[p].pc) { DbStepLocks(s.db, p, s.procs[p], ok); }
    }
  }

  lemma FailKeepsOwners(s: State, p: Pid, dangling: set<Pid>)
    requires OpenOwners(s, dangling)
    ensures OpenOwners(Apply(s, Fail(p)), if FailsToRollBack(s, Fail(p)) then dangling + {p} else dangling)
  {}

  lemma ReapKeepsOwners(s: State, p: Pid, dangling: set<Pid>)
    requires OpenOwners(s, dangling)
    ensures OpenOwners(Apply(s, Reap(p)), dangling - {p})
  {}

  /** The set that Dangling goes on to. */
  function DanglingAfter(s: State, step: Step, dangling: set<Pid>): set<Pid> {
    if FailsToRollBack(s, step) then dangling + {step.p} else if step.Reap? then dangling - {step.p} else dangling
  }

  lemma StepKeepsOwners(s: State, step: Step, dangling: set<Pid>)
    requires OpenOwners(s, dangling)
    ensures OpenOwners(Apply(s, step), DanglingAfter(s, step, dangling))
  {
    match step
    case Advance(p, reply, ok) => AdvanceKeepsOwners(s, p, reply, ok, dangling);
    case Fail(p) => FailKeepsOwners(s, p, dangling);
    case Reap(p) => ReapKeepsOwners(s, p, dangling);
    case _ =>
  }

  lemma LockStepKeepsLeaving(locks: Locks.State, p: Pid, pr: Proc, ok: bool)
    requires AtLocks(pr.pc) && LeavesRejected(pr)
    ensures LeavesRejected(LockStep(locks, p, pr, ok).1)
  {}

  lemma StepKeepsDanglingOk(s: State, step: Step, dangling: set<Pid>)
    requires DanglingOk(s, dangling)
    ensures DanglingOk(Apply(s, step), DanglingAfter(s, step, dangling))
  {
    var s' := Apply(s, step);
    forall p | p in DanglingAfter(s, step, dangling) ensures p in s'.procs && LeavesRejected(s'.procs[p]) {
      if step.Advance? && step.p == p && Running(s, p) {
        AdvanceIs(s, p, step.reply, step.ok);
        if AtLocks(s.procs[p].pc) { LockStepKeepsLeaving(s.locks, p, s.procs[p], step.ok); }
      }
    }
  }

  lemma {:induction false} RunKeepsOwners(s0: State, steps: seq<Step>)
    requires Initial(s0)
    ensures OpenOwners(Run(s0, steps), Dangling(s0, steps)) && DanglingOk(Run(s0, steps), Dangling(s0, steps))
  {
    if steps != [] {
      var n := |steps| - 1;
      RunKeepsOwners(s0, steps[..n]);
      StepKeepsOwners(Run(s0, steps[..n]), steps[n], Dangling(s0, steps[..n]));
      StepKeepsDanglingOk(Run(s0, steps[..n]), steps[n], Dangling(s0, steps[..n]));
    }
  }

  // ---------------------------------------------------------------- Redis

  /** p's client has set a key that it has not deleted. */
  predicate KeepsKeys(s: State, p: Pid) { p in s.locks.clients && Locks.Owned(s.locks.clients[p]) != map[] }

  /** Between the first SET and the last DEL a request has at least one of its keys. */
  predicate HasKeys(pc: Pc) { !pc.CheckCache? && !pc.LockFirst? && !pc.Returned? }

  /**
   The failures that leave a key: a throw at the second SET or at the first DEL of the release, a first SET
   that throws but has been executed and found its key free, an undo or a last DEL that throws and has not
   been executed, and the death of the process while it has a key.
   */
  predicate LeavesKey(s: State, step: Step, p: Pid) {
    && Running(s, p)
    && var pr := s.procs[p];
       || (step.Advance? && step.p == p && !step.ok
           && (pr.pc.LockSecond? || pr.pc.UnlockFirst? || (pr.pc.LockFirst? && !Locks.Live(s.locks, FirstKey(pr.req)))))
       || (step.Fail? && step.p == p
           && (pr.pc.LockSecond? || pr.pc.UnlockFirst? || pr.pc.UndoFirst? || pr.pc.UnlockSecond?))
       || (step.Crash? && step.p == p && HasKeys(pr.pc))
  }

  /** One of them has happened to p. */
  predicate LeftKey(s0: State, steps: seq<Step>, p: Pid) {
    && steps != []
    && (LeavesKey(Run(s0, steps[..|steps| - 1]), steps[|steps| - 1], p) || LeftKey(s0, steps[..|steps| - 1], p))
  }

  /** As long as p's client is there nothing is left; once it is gone, what it had is. */
  predicate KeysTold(s: State, p: Pid, left: bool) { if p in s.locks.gone then KeepsKeys(s, p) <==> left else !left }

  lemma OwnsWhileAtWork(c: Locks.Client)
    ensures Locks.Owned(c) != map[] <==> c.First? || c.Undo? || c.Held? || c.Half?
  {
    if c.First? || c.Undo? { assert c.k1 in Locks.Owned(c); }
    if c.Held? || c.Half? { assert c.k2 in Locks.Owned(c); }
  }

  lemma HasKeysIfRunning(s: State, p: Pid)
    requires Inv(s) && Running(s, p)
    ensures KeepsKeys(s, p) <==> HasKeys(s.procs[p].pc)
  {
    assert LocksFit(s.procs[p].pc, ClientOf(s.locks, p));
    if p in s.locks.clients { OwnsWhileAtWork(s.locks.clients[p]); }
  }

  lemma LockCallTellsKeys(locks: Locks.State, p: Pid, pr: Proc, ok: bool)
    requires AtLocks(pr.pc) && LocksFit(pr.pc, ClientOf(locks, p)) && p !in locks.gone
    ensures var locks' := LockStep(locks, p, pr, ok).0;
      && p in locks'.clients && (p in locks'.gone <==> !ok)
      && (Locks.Owned(locks'.clients[p]) != map[] <==>
            pr.pc.LockSecond? || pr.pc.UnlockFirst? || (pr.pc.LockFirst? && !Locks.Live(locks, FirstKey(pr.req))))
  {
    OwnsWhileAtWork(LockStep(locks, p, pr, ok).0.clients[p]);
  }

  lemma OwnAdvanceTells(s: State, p: Pid, reply: Reply, ok: bool)
    requires Inv(s) && Running(s, p)
    ensures KeysTold(Apply(s, Advance(p, reply, ok)), p, LeavesKey(s, Advance(p, reply, ok), p))
  {
    if AtLocks(s.procs[p].pc) {
      assert LocksFit(s.procs[p].pc, ClientOf(s.locks, p));
      LockCallTellsKeys(s.locks, p, s.procs[p], ok);
      AdvanceLocksAre(s, p, reply, ok);
    } else {
      OtherAdvanceLocksAre(s, p, reply, ok);
    }
  }

  lemma AdvanceLocksAre(s: State, p: Pid, reply: Reply, ok: bool)
    requires Running(s, p) && AtLocks(s.procs[p].pc)
    ensures Apply(s, Advance(p, reply, ok)).locks == LockStep(s.locks, p, s.procs[p], ok).0
  {}

  lemma OtherAdvanceLocksAre(s: State, p: Pid, reply: Reply, ok: bool)
    requires Running(s, p) && !AtLocks(s.procs[p].pc)
    ensures Apply(s, Advance(p, reply, ok)).locks == s.locks
  {}

  lemma OwnEndTells(s: State, step: Step, p: Pid)
    requires Inv(s) && Running(s, p) && (step == Fail(p) || step == Crash(p))
    ensures KeysTold(Apply(s, step), p, LeavesKey(s, step, p))
  {
    HasKeysIfRunning(s, p);
  }

  lemma OthersLeaveKeys(s: State, step: Step, p: Pid)
    requires !(Running(s, p) && (step.Advance? || step.Fail? || step.Crash?) && step.p == p)
    requires p in s.procs || !(step.Crash? && step.p == p)
    ensures KeepsKeys(Apply(s, step), p) <==> KeepsKeys(s, p)
    ensures p in Apply(s, step).locks.gone <==> p in s.locks.gone
  {}

  lemma StepTellsKeys(s: State, step: Step, p: Pid, left: bool)
    requires Inv(s) && KeysTold(s, p, left)
    ensures KeysTold(Apply(s, step), p, left || LeavesKey(s, step, p))
  {
    if Running(s, p) && step.Advance? && step.p == p {
      OwnAdvanceTells(s, p, step.reply, step.ok);
    } else if Running(s, p) && (step.Fail? || step.Crash?) && step.p == p {
      OwnEndTells(s, step, p);
    } else if p in s.procs || !(step.Crash? && step.p == p) {
      OthersLeaveKeys(s, step, p);
    }
  }

  lemma {:induction false} RunTellsKeys(s0: State, steps: seq<Step>, p: Pid)
    requires Initial(s0)
    ensures KeysTold(Run(s0, steps), p, LeftKey(s0, steps, p))
  {
    if steps != [] {
      var n := |steps| - 1;
      RunTellsKeys(s0, steps[..n], p);
      RunKeepsInv(s0, steps[..n]);
      StepTellsKeys(Run(s0, steps[..n]), steps[n], p, LeftKey(s0, steps[..n], p));
    }
  }

  /** A request that has returned, thrown or died has left a key in Redis exactly when one of these failures hit it. */
  lemma KeysAreLeftIff(s0: State, steps: seq<Step>, p: Pid)
    requires Initial(s0) && p in Run(s0, steps).procs
    requires !Running(Run(s0, steps), p) || Run(s0, steps).procs[p].pc.Returned?
    ensures KeepsKeys(Run(s0, steps), p) <==> LeftKey(s0, steps, p)
  {
    RunTellsKeys(s0, steps, p);
    RunKeepsInv(s0, steps);
    if Running(Run(s0, steps), p) { HasKeysIfRunning(Run(s0, steps), p); }
  }

  // ---------------------------------------------------------------- together

  /** p does nothing any more, and if it died the database has noticed. */
  predicate Over(s: State, p: Pid) {
    p in s.procs && if Running(s, p) then s.procs[p].pc.Returned? else !InTrx(s.procs[p].pc)
  }

  /**
   When all work is over, every row lock and every reserved idempotency key that is left belongs to a request
   whose ROLLBACK failed and whose transaction the database has yet to end, and every key that is left in
   Redis was set by a request that a failure of LeavesKey has hit. So if there are none of these, nothing is left.
   */
  lemma NothingIsLeftLocked(s0: State, steps: seq<Step>)
    requires Initial(s0)
    requires forall p :: p in Run(s0, steps).procs ==> Over(Run(s0, steps), p)
    ensures var s := Run(s0, steps);
      && (forall id :: id in s.db.rowLocks ==> s.db.rowLocks[id] in Dangling(s0, steps))
      && (forall k :: k in s.db.keyIndex && s.db.keyIndex[k].Some? ==> s.db.keyIndex[k].value in Dangling(s0, steps))
      && (forall k :: k in s.locks.keys ==> exists p :: LeftKey(s0, steps, p) && Locks.SetBy(s.locks, p, k))
  {
    var s := Run(s0, steps);
    LocksRun(s0, steps);
    RunKeepsInv(s0, steps);
    RunKeepsOwners(s0, steps);
    Locks.NoLeak(s0.locks, LockLog(s0, steps));
    forall k | k in s.locks.keys ensures exists p :: LeftKey(s0, steps, p) && Locks.SetBy(s.locks, p, k) {
      var p :| Locks.SetBy(s.locks, p, k) && !Locks.Finished(s.locks.clients[p]);
      assert Over(s, p);
      KeysAreLeftIff(s0, steps, p);
    }
  }
}
