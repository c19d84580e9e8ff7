/**
 Where the score of a committed transfer comes from: it is what the fraud check of that very request answered,
 and its signal rows are exactly the signals of that answer. A check that failed open leaves score 0 and none.
 */
module TransferScores {
  import opened Prelude
  import opened FraudEngine
  import opened Books
  import opened TransferProtocol
  import opened TransferInvariant
  import opened TransferSafety

  /** In this step p's fraud check is made. */
  predicate Checks(s: State, step: Step, p: Pid) {
    step.Advance? && step.p == p && Running(s, p) && s.procs[p].pc.FraudCheck?
  }

  /** What p's fraud check was answered on the run, if it has been made. */
  function ReplyTo(s0: State, steps: seq<Step>, p: Pid): Option<Reply> {
    if steps == [] then None
    else
      var n := |steps| - 1;
      if Checks(Run(s0, steps[..n]), steps[n], p) then Some(steps[n].reply) else ReplyTo(s0, steps[..n], p)
  }

  /** The signals recorded for one transfer, in order. */
  function SignalsOf(signals: seq<SignalRow>, id: nat): seq<Signal> {
    if signals == [] then []
    else
      var last := signals[|signals| - 1];
      SignalsOf(signals[..|signals| - 1], id) + if last.transactionId == id then [last.signal] else []
  }

  lemma {:induction false} SignalsOfAppend(signals: seq<SignalRow>, id: nat, added: seq<Signal>, of: nat)
    ensures SignalsOf(signals + SignalRows(id, added), of) == SignalsOf(signals, of) + if of == id then added else []
  {
    var all := signals + SignalRows(id, added);
    if added == [] {
      assert all == signals;
    } else {
      var n := |added| - 1;
      assert all[..|all| - 1] == signals + SignalRows(id, added[..n]);
      SignalsOfAppend(signals, id, added[..n], of);
      assert added[..n] + [added[n]] == added;
    }
  }

  /** The rows and signals of p are those of a fraud check with this result. */
  ghost predicate Bears(b: Books, p: Pid, fraud: FraudResult) {
    forall r :: r in b.rows && r.id == p ==>
      (r.fraudScore, r.fraudAction) == (fraud.score, fraud.action) && SignalsOf(b.signals, p) == fraud.signals
  }

  ghost predicate NoSignals(b: Books, p: Pid) {
    (forall r :: r in b.rows ==> r.id != p) ==> SignalsOf(b.signals, p) == []
  }

  /** The check has been made and lets the payment through. */
  predicate Passed(reply: Option<Reply>) { reply.Some? && !Blocked(RunFraudCheck(reply.value)) }

  /** How p's state agrees with the answer to its fraud check. */
  ghost predicate Traced(db: Db, p: Pid, pr: Proc, reply: Option<Reply>) {
    && (Passed(reply) ==> pr.fraud == RunFraudCheck(reply.value))
    && (InTrx(pr.pc) && !pr.pc.RollBack? ==> Passed(reply))
    && (!Passed(reply) ==> forall r :: r in db.books.rows ==> r.id != p)
    && Bears(db.books, p, pr.fraud) && NoSignals(db.books, p)
  }

  lemma CommitBears(db: Db, p: Pid, pr: Proc)
    requires pr.pc.CommitTrx? && ProcOk(db, p, pr) && NoSignals(db.books, p)
    ensures Bears(Commit(db, p, pr.trx).books, p, pr.fraud) && NoSignals(Commit(db, p, pr.trx).books, p)
  {
    var b, b' := db.books, Commit(db, p, pr.trx).books;
    assert pr.trx.rows == [NewRow(p, pr)] && pr.trx.signals == SignalRows(p, pr.fraud.signals);
    SignalsOfAppend(b.signals, p, pr.fraud.signals, p);
    assert [] + pr.fraud.signals == pr.fraud.signals;
    assert b'.rows[|b.rows|] == NewRow(p, pr);
    assert NewRow(p, pr) in b'.rows;
  }

  lemma DbStepKeepsFraud(db: Db, p: Pid, pr: Proc, ok: bool)
    requires InTrx(pr.pc)
    ensures DbStep(db, p, pr, ok).1.fraud == pr.fraud
    ensures pr.retries == 0 && pr.outcome != Rejected(ConcurrentModification) && pr.pc.RollBack? ==>
      !InTrx(DbStep(db, p, pr, ok).1.pc)
  {}

  lemma DbStepKeepsTraced(db: Db, p: Pid, pr: Proc, ok: bool, reply: Option<Reply>)
    requires InTrx(pr.pc) && ProcOk(db, p, pr) && Traced(db, p, pr, reply)
    ensures var (db', pr') := DbStep(db, p, pr, ok); Traced(db', p, pr', reply)
  {
    DbStepKeepsFraud(db, p, pr, ok);
    if pr.pc.CommitTrx? { CommitBears(db, p, pr); } else { OnlyCommitsWriteBooks(db, p, pr, ok); }
  }

  lemma FraudCheckIsTraced(db: Db, cache: map<string, Row>, p: Pid, pr: Proc, reply: Reply, ok: bool)
    requires pr.pc.FraudCheck? && ProcOk(db, p, pr) && NoSignals(db.books, p)
    ensures Traced(db, p, PlainStep(db, cache, pr, reply, ok).1, Some(reply))
  {}

  /** A call that neither changes the books nor begins a transaction. */
  lemma QuietCallKeepsTraced(db: Db, p: Pid, pr: Proc, pr': Proc, reply: Option<Reply>)
    requires Traced(db, p, pr, reply) && pr'.fraud == pr.fraud
    requires InTrx(pr'.pc) && !pr'.pc.RollBack? ==> InTrx(pr.pc) && !pr.pc.RollBack?
    ensures Traced(db, p, pr', reply)
  {}

  lemma LockStepIsQuiet(locks: Locks.State, p: Pid, pr: Proc, ok: bool)
    requires AtLocks(pr.pc)
    ensures var pr' := LockStep(locks, p, pr, ok).1; pr'.fraud == pr.fraud && !InTrx(pr'.pc)
  {}

  lemma PlainStepIsQuiet(db: Db, cache: map<string, Row>, pr: Proc, reply: Reply, ok: bool)
    requires !InTrx(pr.pc) && !AtLocks(pr.pc) && !pr.pc.FraudCheck?
    ensures var pr' := PlainStep(db, cache, pr, reply, ok).1; pr'.fraud == pr.fraud && !InTrx(pr'.pc)
  {}

  lemma OwnAdvanceKeepsTraced(s: State, p: Pid, reply: Reply, ok: bool, before: Option<Reply>)
    requires Running(s, p) && ProcOk(s.db, p, s.procs[p]) && Traced(s.db, p, s.procs[p], before)
    ensures Traced(AdvancedDb(s, p, ok), p, AdvancedProc(s, p, reply, ok),
                   if s.procs[p].pc.FraudCheck? then Some(reply) else before)
  {
    var pr := s.procs[p];
    if InTrx(pr.pc) {
      DbStepKeepsTraced(s.db, p, pr, ok, before);
    } else if AtLocks(pr.pc) {
      LockStepIsQuiet(s.locks, p, pr, ok);
      QuietCallKeepsTraced(s.db, p, pr, AdvancedProc(s, p, reply, ok), before);
    } else if pr.pc.FraudCheck? {
      FraudCheckIsTraced(s.db, s.cache, p, pr, reply, ok);
    } else {
      PlainStepIsQuiet(s.db, s.cache, pr, reply, ok);
      QuietCallKeepsTraced(s.db, p, pr, AdvancedProc(s, p, reply, ok), before);
    }
  }

  /** The same for a request that may not have come in yet. */
  ghost predicate Told(s: State, p: Pid, reply: Option<Reply>) {
    if p in s.procs then Traced(s.db, p, s.procs[p], reply)
    else reply.None? && (forall r :: r in s.db.books.rows ==> r.id != p) && NoSignals(s.db.books, p)
  }

  ghost predicate SameFor(b: Books, b': Books, p: Pid) {
    && (forall r :: r in b.rows ==> r in b'.rows) && (forall r :: r in b'.rows && r.id == p ==> r in b.rows)
    && SignalsOf(b'.signals, p) == SignalsOf(b.signals, p)
  }

  /** What others do to the books leaves p's rows and signals alone. */
  lemma OthersKeepTold(s: State, s': State, p: Pid, reply: Option<Reply>)
    requires Told(s, p, reply)
    requires if p in s.procs then p in s'.procs && s'.procs[p] == s.procs[p]
             else p in s'.procs ==> s'.procs[p] == Newcomer(s'.procs[p].req)
    requires SameFor(s.db.books, s'.db.books, p)
    ensures Told(s', p, reply)
  {}

  lemma OtherCommitKeeps(db: Db, q: Pid, pr: Proc, ok: bool, p: Pid)
    requires p != q && InTrx(pr.pc) && ProcOk(db, q, pr)
    ensures SameFor(db.books, DbStep(db, q, pr, ok).0.books, p)
  {
    if pr.pc.CommitTrx? {
      SignalsOfAppend(db.books.signals, q, pr.fraud.signals, p);
      assert SignalsOf(db.books.signals, p) + [] == SignalsOf(db.books.signals, p);
    } else {
      OnlyCommitsWriteBooks(db, q, pr, ok);
    }
  }

  lemma OtherAdvanceKeepsTold(s: State, q: Pid, r: Reply, ok: bool, p: Pid, reply: Option<Reply>)
    requires Inv(s) && q != p && Told(s, p, reply)
    ensures Told(Apply(s, Advance(q, r, ok)), p, reply)
  {
    if Running(s, q) {
      AdvanceIs(s, q, r, ok);
      if InTrx(s.procs[q].pc) { OtherCommitKeeps(s.db, q, s.procs[q], ok, p); }
      assert p in s.procs <==> p in Apply(s, Advance(q, r, ok)).procs;
      OthersKeepTold(s, Apply(s, Advance(q, r, ok)), p, reply);
    }
  }

  lemma FailKeepsTold(s: State, p: Pid, reply: Option<Reply>)
    requires p in s.procs && Told(s, p, reply)
    ensures Told(Apply(s, Fail(p)), p, reply)
  {
    if Running(s, p) && MayFail(s.procs[p].pc) {
      QuietCallKeepsTraced(s.db, p, s.procs[p], Throw(s.procs[p], StoreError(s.procs[p].pc)), reply);
    }
  }

  lemma ReapKeepsTold(s: State, p: Pid, reply: Option<Reply>)
    requires p in s.procs && Told(s, p, reply)
    ensures Told(Apply(s, Reap(p)), p, reply)
  {}

  lemma QuietStepKeepsTold(s: State, step: Step, p: Pid, reply: Option<Reply>)
    requires Told(s, p, reply) && !step.Advance? && ((step.Fail? || step.Reap?) && p in s.procs ==> step.p != p)
    ensures Told(Apply(s, step), p, reply)
  {
    var s' := Apply(s, step);
    assert s'.db.books.rows == s.db.books.rows && s'.db.books.signals == s.db.books.signals;
    OthersKeepTold(s, s', p, reply);
  }

  lemma StepKeepsTold(s: State, step: Step, p: Pid, reply: Option<Reply>)
    requires Inv(s) && Told(s, p, reply)
    ensures Told(Apply(s, step), p, if Checks(s, step, p) then Some(step.reply) else reply)
  {
    if step.Advance? {
      if step.p != p {
        OtherAdvanceKeepsTold(s, step.p, step.reply, step.ok, p, reply);
      } else if Running(s, p) {
        AdvanceIs(s, p, step.reply, step.ok);
        OwnAdvanceKeepsTraced(s, p, step.reply, step.ok, reply);
      }
    } else if step.Fail? && step.p == p && p in s.procs {
      FailKeepsTold(s, p, reply);
    } else if step.Reap? && step.p == p && p in s.procs {
      ReapKeepsTold(s, p, reply);
    } else {
      QuietStepKeepsTold(s, step, p, reply);
    }
  }

  lemma {:induction false} RunKeepsTold(s0: State, steps: seq<Step>, p: Pid)
    requires Initial(s0)
    ensures Told(Run(s0, steps), p, ReplyTo(s0, steps, p))
  {
    if steps != [] {
      var n := |steps| - 1;
      RunKeepsTold(s0, steps[..n], p);
      RunKeepsInv(s0, steps[..n]);
      StepKeepsTold(Run(s0, steps[..n]), steps[n], p, ReplyTo(s0, steps[..n], p));
    }
  }

  /**
   On every run, each committed row carries the score and the action that the fraud check of its request was
   answered with, and its signal rows are that answer's signals, in order. If the fraud service could not be
   reached the score is 0 and there are no signal rows.
   */
  lemma ScoreIsTheAnswer(s0: State, steps: seq<Step>, r: Row)
    requires Initial(s0) && r in Run(s0, steps).db.books.rows
    ensures var b, reply := Run(s0, steps).db.books, ReplyTo(s0, steps, r.id);
      && reply.Some?
      && var fraud := RunFraudCheck(reply.value);
         && PointsIn(reply.value) < 60 && r.fraudScore == PointsIn(reply.value)
         && r.fraudAction == (if PointsIn(reply.value) < 30 then Approve else Review)
         && SignalsOf(b.signals, r.id) == fraud.signals
         && (reply.value.Unreachable? ==>
               && r.fraudScore == 0 && r.fraudAction == Approve
               && forall row :: row in b.signals ==> row.transactionId != r.id)
  {
    var b := Run(s0, steps).db.books;
    RunKeepsTold(s0, steps, r.id);
    RunKeepsInv(s0, steps);
    if ReplyTo(s0, steps, r.id).Some? { CheckByPoints(ReplyTo(s0, steps, r.id).value); }
    if SignalsOf(b.signals, r.id) == [] { NoneOf(b.signals, r.id); }
  }

  lemma {:induction false} NoneOf(signals: seq<SignalRow>, id: nat)
    requires SignalsOf(signals, id) == []
    ensures forall row :: row in signals ==> row.transactionId != id
  {
    if signals != [] {
      NoneOf(signals[..|signals| - 1], id);
      assert signals == signals[..|signals| - 1] + [signals[|signals| - 1]];
    }
  }
}
