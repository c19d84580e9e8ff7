/**
 Why a request is refused, whatever else goes on: for each answer the state of affairs, at the moment of one of
 the request's own calls, that makes the service give it.
 */
module TransferCauses {
  import opened FraudEngine
  import opened Books
  import opened TransferProtocol
  import opened TransferInvariant
  import opened TransferLocks
  import opened Interference
  import opened TransferVerdict

  /** What p's next call, if it is answered, finds out that refuses p with error e. */
  predicate Cause(s: State, p: Pid, reply: Reply, e: Error)
    requires p in s.procs
  {
    var pr, db := s.procs[p], s.db;
    var req, accounts := pr.req, db.books.accounts;
    match e
    case Validation =>
      && pr.pc.CheckCache? && req.key !in s.cache
      && (req.amount < 1 || req.amount > 1_000_000_000 || req.from == req.to)
    case AccountLocked => (pr.pc.LockFirst? && FirstVisible(s, req)) || (pr.pc.LockSecond? && SecondVisible(s, req))
    case SenderNotFound =>
      (pr.pc.Preload? || (pr.pc.LockSender? && !RowLocked(db, p, req.from))) && req.from !in accounts
    case RecipientNotFound =>
      || (pr.pc.Preload? && req.from in accounts && req.to !in accounts)
      || (pr.pc.LockRecipient? && !RowLocked(db, p, req.to) && req.to !in accounts)
    case FraudBlocked(score) => pr.pc.FraudCheck? && PointsIn(reply) >= 60 && score == Capped(PointsIn(reply))
    case AccountFrozen =>
      || (pr.pc.LockSender? && !RowLocked(db, p, req.from)
          && req.from in accounts && accounts[req.from].status != Active)
      || (pr.pc.LockRecipient? && !RowLocked(db, p, req.to)
          && req.to in accounts && accounts[req.to].status != Active)
    case InsufficientBalance =>
      && pr.pc.LockRecipient? && !RowLocked(db, p, req.to) && req.to in accounts && accounts[req.to].status == Active
      && req.from in accounts && accounts[req.from].balance < req.amount
    case DatabaseError =>
      || (pr.pc.LockSender? && RowLocked(db, p, req.from)) || (pr.pc.LockRecipient? && RowLocked(db, p, req.to))
      || (pr.pc.InsertRow? && req.key in db.keyIndex && db.keyIndex[req.key].None?)
    case _ => false
  }

  /** Refused with e, or about to be once the first lock is given back. */
  predicate Refused(pr: Proc, e: Error) { pr.outcome == Rejected(e) || (pr.pc.UndoFirst? && e.AccountLocked?) }

  lemma SenderRefusedIff(s: State, p: Pid, e: Error)
    requires Running(s, p) && s.procs[p].pc.LockSender? && ProcOk(s.db, p, s.procs[p])
    ensures Refused(Statement(s.db, p, s.procs[p]).1, e) <==> Cause(s, p, Unreachable, e)
  {}

  lemma RecipientRefusedIff(s: State, p: Pid, e: Error)
    requires Running(s, p) && s.procs[p].pc.LockRecipient? && ProcOk(s.db, p, s.procs[p])
    ensures Refused(Statement(s.db, p, s.procs[p]).1, e) <==> Cause(s, p, Unreachable, e)
  {}

  lemma WriteRefusedIff(s: State, p: Pid, e: Error)
    requires Running(s, p) && InTrx(s.procs[p].pc) && ProcOk(s.db, p, s.procs[p])
    requires !s.procs[p].pc.LockSender? && !s.procs[p].pc.LockRecipient?
    requires !s.procs[p].pc.CommitTrx? && !s.procs[p].pc.RollBack?
    ensures Refused(Statement(s.db, p, s.procs[p]).1, e) <==> Cause(s, p, Unreachable, e)
  {}

  lemma LockRefusedIff(s: State, p: Pid, e: Error)
    requires Running(s, p) && (s.procs[p].pc.LockFirst? || s.procs[p].pc.LockSecond?)
    requires ProcOk(s.db, p, s.procs[p]) && LocksFit(s.procs[p].pc, ClientOf(s.locks, p)) && KeysFit(s)
    ensures Refused(LockStep(s.locks, p, s.procs[p], true).1, e) <==> Cause(s, p, Unreachable, e)
  {
    if s.procs[p].pc.LockSecond? { assert KeyFits(s, p); }
  }

  lemma PlainRefusedIff(s: State, p: Pid, reply: Reply, e: Error)
    requires Running(s, p) && (s.procs[p].pc.CheckCache? || s.procs[p].pc.Preload? || s.procs[p].pc.FraudCheck?)
    requires ProcOk(s.db, p, s.procs[p])
    ensures Refused(PlainStep(s.db, s.cache, s.procs[p], reply, true).1, e) <==> Cause(s, p, reply, e)
  {
    CheckByPoints(reply);
  }

  lemma CauseIsOfTheCall(s: State, p: Pid, reply: Reply, other: Reply, e: Error)
    requires p in s.procs && !s.procs[p].pc.FraudCheck?
    ensures Cause(s, p, reply, e) <==> Cause(s, p, other, e)
  {}

  /** The calls at which a request can be refused. */
  predicate Decides(pc: Pc) {
    || pc.CheckCache? || pc.LockFirst? || pc.LockSecond? || pc.Preload? || pc.FraudCheck?
    || (InTrx(pc) && !pc.CommitTrx? && !pc.RollBack?)
  }

  lemma AnsweredCallRefusesIff(s: State, p: Pid, reply: Reply, e: Error)
    requires Inv(s) && KeysFit(s) && Running(s, p) && Decides(s.procs[p].pc)
    ensures var s' := Apply(s, Advance(p, reply, true));
      p in s'.procs && (Refused(s'.procs[p], e) <==> Cause(s, p, reply, e))
  {
    var pr := s.procs[p];
    assert ProcOk(s.db, p, pr) && LocksFit(pr.pc, ClientOf(s.locks, p));
    if !pr.pc.FraudCheck? { CauseIsOfTheCall(s, p, reply, Unreachable, e); }
    if InTrx(pr.pc) {
      AnsweredDbCall(s, p, reply);
      if pr.pc.LockSender? { SenderRefusedIff(s, p, e); }
      else if pr.pc.LockRecipient? { RecipientRefusedIff(s, p, e); }
      else { WriteRefusedIff(s, p, e); }
    } else if AtLocks(pr.pc) {
      AnsweredLockCall(s, p, reply);
      LockRefusedIff(s, p, e);
    } else {
      AnsweredPlainCall(s, p, reply);
      PlainRefusedIff(s, p, reply, e);
    }
  }

  /**
   On every run: a request whose call is answered is thereby refused with a given error exactly when the state at
   this moment is a cause for it.
   */
  lemma RefusedIff(s0: State, steps: seq<Step>, p: Pid, reply: Reply, e: Error)
    requires Initial(s0) && Running(Run(s0, steps), p) && Decides(Run(s0, steps).procs[p].pc)
    ensures var s := Run(s0, steps); var s' := Apply(s, Advance(p, reply, true));
      p in s'.procs && (Refused(s'.procs[p], e) <==> Cause(s, p, reply, e))
  {
    RunKeepsInv(s0, steps);
    RunKeepsKeysFit(s0, steps);
    AnsweredCallRefusesIff(Run(s0, steps), p, reply, e);
  }

  // ---------------------------------------------------------------- over a run

  /** One of p's calls throws in this step. */
  predicate Throws(s: State, step: Step, p: Pid) {
    Running(s, p) && ((step.Advance? && step.p == p && !step.ok) || (step.Fail? && step.p == p))
  }

  /** In this step p finds a cause for e. */
  predicate FindsCause(s: State, step: Step, p: Pid, e: Error) {
    && step.Advance? && step.p == p && step.ok && Running(s, p) && Decides(s.procs[p].pc)
    && Cause(s, p, step.reply, e)
  }

  /** The calls to PostgreSQL, and those to Redis. */
  predicate CallsDatabase(pc: Pc) {
    || pc.Preload? || pc.LockSender? || pc.LockRecipient? || pc.DebitSender? || pc.CreditRecipient? || pc.InsertRow?
    || pc.InsertLedger? || pc.InsertSignals? || pc.CommitTrx? || pc.RollBack?
  }

  predicate CallsRedis(pc: Pc) {
    || pc.CheckCache? || pc.LockFirst? || pc.LockSecond? || pc.UndoFirst? || pc.CacheResponse? || pc.FlushReads?
    || pc.UnlockFirst? || pc.UnlockSecond?
  }

  /** A call of p throws in this step, and e is the error of what it called. */
  predicate StoreFails(s: State, step: Step, p: Pid, e: Error) {
    && Throws(s, step, p)
    && match e
       case DatabaseError => CallsDatabase(s.procs[p].pc)
       case RedisError => CallsRedis(s.procs[p].pc)
       case KafkaError => step.Advance? && s.procs[p].pc.FraudCheck? && PointsIn(step.reply) >= 60
       case _ => false
  }

  /** In this step p meets a cause for e; for the failure of a store that may be the call that throws. */
  predicate MeetsCause(s: State, step: Step, p: Pid, e: Error) {
    FindsCause(s, step, p, e) || StoreFails(s, step, p, e)
  }

  predicate MetCause(s0: State, steps: seq<Step>, p: Pid, e: Error) {
    && steps != []
    && (MeetsCause(Run(s0, steps[..|steps| - 1]), steps[|steps| - 1], p, e) || MetCause(s0, steps[..|steps| - 1], p, e))
  }

  lemma EndOfTransactionRefusesNobody(db: Db, p: Pid, pr: Proc, e: Error)
    requires (pr.pc.CommitTrx? || pr.pc.RollBack?) && ProcOk(db, p, pr)
    ensures Refused(DbStep(db, p, pr, true).1, e) ==> Refused(pr, e)
  {}

  lemma LaterLockCallsRefuseNobody(locks: Locks.State, p: Pid, pr: Proc, e: Error)
    requires pr.pc.UndoFirst? || pr.pc.UnlockFirst? || pr.pc.UnlockSecond?
    ensures Refused(LockStep(locks, p, pr, true).1, e) ==> Refused(pr, e)
  {}

  lemma LaterPlainCallsRefuseNobody(db: Db, cache: map<string, Row>, p: Pid, pr: Proc, reply: Reply, e: Error)
    requires (pr.pc.CacheResponse? || pr.pc.FlushReads? || pr.pc.Returned?) && ProcOk(db, p, pr)
    ensures Refused(PlainStep(db, cache, pr, reply, true).1, e) ==> Refused(pr, e)
  {}

  lemma LaterCallsRefuseNobody(s: State, p: Pid, reply: Reply, e: Error)
    requires Running(s, p) && !Decides(s.procs[p].pc) && ProcOk(s.db, p, s.procs[p])
    ensures var s' := Apply(s, Advance(p, reply, true));
      p in s'.procs && (Refused(s'.procs[p], e) ==> Refused(s.procs[p], e))
  {
    var pr := s.procs[p];
    if InTrx(pr.pc) {
      AnsweredDbCall(s, p, reply);
      EndOfTransactionRefusesNobody(s.db, p, pr, e);
    } else if AtLocks(pr.pc) {
      AnsweredLockCall(s, p, reply);
      LaterLockCallsRefuseNobody(s.locks, p, pr, e);
    } else {
      AnsweredPlainCall(s, p, reply);
      LaterPlainCallsRefuseNobody(s.db, s.cache, p, pr, reply, e);
    }
  }

  lemma ThrownDbCall(db: Db, p: Pid, pr: Proc)
    requires InTrx(pr.pc)
    ensures DbStep(db, p, pr, false).1.outcome == Rejected(DatabaseError) && !DbStep(db, p, pr, false).1.pc.UndoFirst?
  {}

  lemma ThrownLockCall(locks: Locks.State, p: Pid, pr: Proc)
    requires AtLocks(pr.pc)
    ensures var pr' := LockStep(locks, p, pr, false).1; pr'.outcome == Rejected(RedisError) && !pr'.pc.UndoFirst?
  {}

  lemma ThrownPlainCall(db: Db, cache: map<string, Row>, p: Pid, pr: Proc, reply: Reply, e: Error)
    requires !InTrx(pr.pc) && !AtLocks(pr.pc) && ProcOk(db, p, pr)
    requires Refused(PlainStep(db, cache, pr, reply, false).1, e)
    ensures Refused(pr, e)
      || (e.KafkaError? && pr.pc.FraudCheck? && PointsIn(reply) >= 60)
      || (e.DatabaseError? && pr.pc.Preload?)
      || (e.RedisError? && (pr.pc.CheckCache? || pr.pc.CacheResponse? || pr.pc.FlushReads?))
  {
    CheckByPoints(reply);
  }

  /** A call that throws, executed or not, refuses with the error of what it called. */
  lemma ThrownCallRefuses(s: State, p: Pid, reply: Reply, e: Error)
    requires Running(s, p) && ProcOk(s.db, p, s.procs[p])
    ensures var step := Advance(p, reply, false);
      && p in Apply(s, step).procs
      && (Refused(Apply(s, step).procs[p], e) ==> Refused(s.procs[p], e) || StoreFails(s, step, p, e))
  {
    var pr := s.procs[p];
    AdvanceIs(s, p, reply, false);
    if InTrx(pr.pc) { ThrownDbCall(s.db, p, pr); }
    else if AtLocks(pr.pc) { ThrownLockCall(s.locks, p, pr); }
    else if Refused(AdvancedProc(s, p, reply, false), e) { ThrownPlainCall(s.db, s.cache, p, pr, reply, e); }
  }

  lemma OtherStepsRefuseNobody(s: State, step: Step, p: Pid, e: Error)
    requires p in s.procs && !(step.Advance? && step.p == p && Running(s, p)) && !Throws(s, step, p)
    ensures p in Apply(s, step).procs && (Refused(Apply(s, step).procs[p], e) ==> Refused(s.procs[p], e))
  {}

  lemma FailRefuses(s: State, p: Pid, e: Error)
    requires Running(s, p)
    ensures p in Apply(s, Fail(p)).procs
    ensures Refused(Apply(s, Fail(p)).procs[p], e) ==> Refused(s.procs[p], e) || StoreFails(s, Fail(p), p, e)
  {}

  lemma StepRefuses(s: State, step: Step, p: Pid, e: Error)
    requires Inv(s) && KeysFit(s) && p in Apply(s, step).procs && Refused(Apply(s, step).procs[p], e)
    ensures MeetsCause(s, step, p, e) || (p in s.procs && Refused(s.procs[p], e))
  {
    if p !in s.procs {
      ArrivesUndecided(s, step, p);
    } else if Throws(s, step, p) {
      assert ProcOk(s.db, p, s.procs[p]);
      if step.Advance? { ThrownCallRefuses(s, p, step.reply, e); } else { FailRefuses(s, p, e); }
    } else if step.Advance? && step.p == p && Running(s, p) {
      assert ProcOk(s.db, p, s.procs[p]);
      if Decides(s.procs[p].pc) { AnsweredCallRefusesIff(s, p, step.reply, e); }
      else { LaterCallsRefuseNobody(s, p, step.reply, e); }
    } else {
      OtherStepsRefuseNobody(s, step, p, e);
    }
  }

  lemma ArrivesUndecided(s: State, step: Step, p: Pid)
    requires p !in s.procs && p in Apply(s, step).procs
    ensures Apply(s, step).procs[p].outcome.Undecided? && Apply(s, step).procs[p].pc.CheckCache?
  {}

  /** Any state of a run is as good a start as the first. */
  lemma {:induction false} RunKeepsBoth(s0: State, steps: seq<Step>)
    requires Inv(s0) && KeysFit(s0)
    ensures Inv(Run(s0, steps)) && KeysFit(Run(s0, steps))
  {
    if steps != [] {
      var n := |steps| - 1;
      RunKeepsBoth(s0, steps[..n]);
      StepKeepsInv(Run(s0, steps[..n]), steps[n]);
      StepKeepsKeysFit(Run(s0, steps[..n]), steps[n]);
    }
  }

  /**
   On every run, with anything going on beside it: whoever is refused has met the cause of just that refusal;
   only for the errors of the stores that may have been a call to just that store that threw.
   */
  lemma {:induction false} RefusalHasItsCause(s0: State, steps: seq<Step>, p: Pid, e: Error)
    requires Inv(s0) && KeysFit(s0) && p !in s0.procs
    requires p in Run(s0, steps).procs && Refused(Run(s0, steps).procs[p], e)
    ensures MetCause(s0, steps, p, e)
  {
    if steps != [] {
      var n := |steps| - 1;
      RunKeepsBoth(s0, steps[..n]);
      StepRefuses(Run(s0, steps[..n]), steps[n], p, e);
      if !MeetsCause(Run(s0, steps[..n]), steps[n], p, e) { RefusalHasItsCause(s0, steps[..n], p, e); }
    }
  }

  // ---------------------------------------------------------------- where no call throws

  /** The transaction's INSERT waits for another open transaction with the same key. */
  predicate Waits(s: State, p: Pid, req: Request) {
    p in s.procs && s.procs[p].pc.InsertRow? && req.key in s.db.keyIndex && s.db.keyIndex[req.key].Some?
  }

  /** In some step p finds a cause for e, or gives up waiting for a key. */
  predicate FoundCause(s0: State, steps: seq<Step>, p: Pid, req: Request, e: Error) {
    && steps != []
    && var n := |steps| - 1; var s := Run(s0, steps[..n]);
       || FindsCause(s, steps[n], p, e) || (e.DatabaseError? && Concerns(steps[n], p) && Waits(s, p, req))
       || FoundCause(s0, steps[..n], p, req, e)
  }

  /** Where p's calls are executed and answered, all refusals have causes, and a store never fails. */
  lemma {:induction false} SmoothRefusalHasItsCause(s0: State, steps: seq<Step>, p: Pid, req: Request, reply: Reply,
                                                    e: Error)
    requires Inv(s0) && KeysFit(s0) && p !in s0.procs && Smooth(s0, steps, p, req, reply)
    requires p in Run(s0, steps).procs && Refused(Run(s0, steps).procs[p], e)
    ensures FoundCause(s0, steps, p, req, e) && !e.RedisError? && !e.KafkaError?
  {
    var n := |steps| - 1;
    if steps != [] {
      var s := Run(s0, steps[..n]);
      RunKeepsBoth(s0, steps[..n]);
      OneStepLess(s0, steps, p, req, reply);
      StepRefuses(s, steps[n], p, e);
      if !MeetsCause(s, steps[n], p, e) {
        SmoothRefusalHasItsCause(s0, steps[..n], p, req, reply, e);
      } else if !FindsCause(s, steps[n], p, e) {
        ThrownInsert(s, steps[n], p, req, reply, e);
      }
    }
  }

  lemma ThrownInsert(s: State, step: Step, p: Pid, req: Request, reply: Reply, e: Error)
    requires CalmStep(s, step, p, req, reply) && Throws(s, step, p) && ProcOk(s.db, p, s.procs[p])
    requires p in Apply(s, step).procs && Refused(Apply(s, step).procs[p], e)
    ensures Waits(s, p, req) && Concerns(step, p) && e.DatabaseError?
  {
    if step.Advance? { AdvanceIs(s, p, step.reply, false); }
  }
}
