/**
 What a request is answered when nothing goes wrong and nobody disturbs it: one verdict, spelled out from the
 state in which the request comes in. A run of the machine on which only this request acts and no call throws
 ends with exactly that answer, and with the books either as they were or one transfer further.
 */
module TransferVerdict {
  import opened Prelude
  import opened FraudEngine
  import opened Books
  import opened TransferProtocol
  import opened TransferInvariant
  import opened TransferSafety
  import opened TransferLocks
  import opened Interference

  /** The lock key of an account is set and has not expired. */
  predicate LockVisible(locks: Locks.State, id: Id) {
    var key := "lock:account:" + id;
    key in locks.keys && locks.now < locks.keys[key]
  }

  /** Another transaction holds the row. */
  predicate RowLocked(db: Db, p: Pid, id: Id) { id in db.rowLocks && db.rowLocks[id] != p }

  function Capped(points: nat): nat { if points < 100 then points else 100 }

  /** The row that p's transfer would record. */
  function VerdictRow(p: Pid, req: Request, reply: Reply): Row {
    Row(p, req.key, req.from, req.to, req.amount, PointsIn(reply), if PointsIn(reply) < 30 then Approve else Review)
  }

  /** The answer to a request that nothing disturbs. */
  function Verdict(s: State, p: Pid, req: Request, reply: Reply): Outcome {
    var accounts := s.db.books.accounts;
    if req.key in s.cache then Replayed(s.cache[req.key])
    else if req.amount < 1 || req.amount > 1_000_000_000 || req.from == req.to then Rejected(Validation)
    else if LockVisible(s.locks, req.from) || LockVisible(s.locks, req.to) then Rejected(AccountLocked)
    else if req.from !in accounts then Rejected(SenderNotFound)
    else if req.to !in accounts then Rejected(RecipientNotFound)
    else if PointsIn(reply) >= 60 then Rejected(FraudBlocked(Capped(PointsIn(reply))))
    else if RowLocked(s.db, p, req.from) then Rejected(DatabaseError)
    else if accounts[req.from].status != Active then Rejected(AccountFrozen)
    else if RowLocked(s.db, p, req.to) then Rejected(DatabaseError)
    else if accounts[req.to].status != Active then Rejected(AccountFrozen)
    else if accounts[req.from].balance < req.amount then Rejected(InsufficientBalance)
    else if req.key in s.db.keyIndex then Rejected(DatabaseError)
    else Succeeded(VerdictRow(p, req, reply))
  }

  /** p's answered call, or its giving up an INSERT that waits for another transaction with the same key. */
  predicate CalmStep(s: State, step: Step, p: Pid, req: Request, reply: Reply) {
    || step == Arrive(p, req) || step == Advance(p, reply, true)
    || ((step == Advance(p, reply, false) || step == Fail(p))
        && p in s.procs && s.procs[p].pc.InsertRow? && req.key in s.db.keyIndex && s.db.keyIndex[req.key].Some?)
  }

  /** Only p acts, and no call of it throws otherwise. */
  predicate Calm(s: State, steps: seq<Step>, p: Pid, req: Request, reply: Reply) {
    forall i :: 0 <= i < |steps| ==> CalmStep(Run(s, steps[..i]), steps[i], p, req, reply)
  }

  /** Others may act, but no call of p throws otherwise. */
  predicate Smooth(s: State, steps: seq<Step>, p: Pid, req: Request, reply: Reply) {
    forall i :: 0 <= i < |steps| && Concerns(steps[i], p) ==> CalmStep(Run(s, steps[..i]), steps[i], p, req, reply)
  }

  lemma OneStepMore(s: State, steps: seq<Step>, step: Step, p: Pid, req: Request, reply: Reply)
    ensures Smooth(s, steps + [step], p, req, reply) <==>
      Smooth(s, steps, p, req, reply) && (Concerns(step, p) ==> CalmStep(Run(s, steps), step, p, req, reply))
    ensures Calm(s, steps + [step], p, req, reply) <==>
      Calm(s, steps, p, req, reply) && CalmStep(Run(s, steps), step, p, req, reply)
  {
    var all := steps + [step];
    assert all[..|steps|] == steps && all[|steps|] == step;
    assert forall i :: 0 <= i < |steps| ==> all[..i] == steps[..i] && all[i] == steps[i];
  }

  lemma OneStepLess(s: State, steps: seq<Step>, p: Pid, req: Request, reply: Reply)
    requires steps != []
    ensures var n := |steps| - 1;
      && (Smooth(s, steps, p, req, reply) ==>
            && Smooth(s, steps[..n], p, req, reply)
            && (Concerns(steps[n], p) ==> CalmStep(Run(s, steps[..n]), steps[n], p, req, reply)))
      && (Calm(s, steps, p, req, reply) ==>
            Calm(s, steps[..n], p, req, reply) && CalmStep(Run(s, steps[..n]), steps[n], p, req, reply))
  {
    var n := |steps| - 1;
    assert steps == steps[..n] + [steps[n]];
    OneStepMore(s, steps[..n], steps[n], p, req, reply);
  }

  // ---------------------------------------------------------------- the calls one by one

  /** The calls of a transfer that meets no obstacle. */
  const PATH: seq<Pc> :=
    [CheckCache, LockFirst, LockSecond, Preload, FraudCheck, LockSender, LockRecipient, DebitSender, CreditRecipient,
     InsertRow, InsertLedger, InsertSignals, CommitTrx, CacheResponse, FlushReads, UnlockFirst, UnlockSecond, Returned]

  predicate FirstVisible(s: State, req: Request) {
    var key := FirstKey(req); key in s.locks.keys && s.locks.now < s.locks.keys[key]
  }

  predicate SecondVisible(s: State, req: Request) {
    var key := SecondKey(req); key in s.locks.keys && s.locks.now < s.locks.keys[key]
  }

  lemma KeysOfTheAccounts(s: State, req: Request)
    ensures FirstVisible(s, req) || SecondVisible(s, req) <==>
      LockVisible(s.locks, req.from) || LockVisible(s.locks, req.to)
  {
    assert {FirstKey(req), SecondKey(req)} == {"lock:account:" + req.from, "lock:account:" + req.to};
  }

  /** The obstacle, if any, that the n-th call meets. */
  function Obstacle(s: State, p: Pid, req: Request, reply: Reply, n: nat): Option<Outcome> {
    var db := s.db;
    if n == 0 then
      if req.key in s.cache then Some(Replayed(s.cache[req.key]))
      else if req.amount < 1 || req.amount > 1_000_000_000 || req.from == req.to then Some(Rejected(Validation))
      else None
    else if n == 1 then if FirstVisible(s, req) then Some(Rejected(AccountLocked)) else None
    else if n == 2 then if SecondVisible(s, req) then Some(Rejected(AccountLocked)) else None
    else if n == 3 then
      if req.from !in db.books.accounts then Some(Rejected(SenderNotFound))
      else if req.to !in db.books.accounts then Some(Rejected(RecipientNotFound))
      else None
    else if n == 4 then
      if PointsIn(reply) >= 60 then Some(Rejected(FraudBlocked(Capped(PointsIn(reply))))) else None
    else if n == 5 && req.from in db.books.accounts then
      if RowLocked(db, p, req.from) then Some(Rejected(DatabaseError))
      else if db.books.accounts[req.from].status != Active then Some(Rejected(AccountFrozen))
      else None
    else if n == 6 && req.from in db.books.accounts && req.to in db.books.accounts then
      if RowLocked(db, p, req.to) then Some(Rejected(DatabaseError))
      else if db.books.accounts[req.to].status != Active then Some(Rejected(AccountFrozen))
      else if db.books.accounts[req.from].balance < req.amount then Some(Rejected(InsufficientBalance))
      else None
    else if n == 9 then if req.key in db.keyIndex then Some(Rejected(DatabaseError)) else None
    else None
  }

  /** The first n calls meet none. */
  predicate Clear(s: State, p: Pid, req: Request, reply: Reply, n: nat) {
    forall k :: 0 <= k < n ==> Obstacle(s, p, req, reply, k).None?
  }

  /** The verdict is the first obstacle, or success. */
  lemma VerdictIsFirstObstacle(s: State, p: Pid, req: Request, reply: Reply, n: nat)
    requires Clear(s, p, req, reply, n)
    ensures Obstacle(s, p, req, reply, n).Some? ==> Verdict(s, p, req, reply) == Obstacle(s, p, req, reply, n).value
    ensures n >= 10 ==> Verdict(s, p, req, reply) == Succeeded(VerdictRow(p, req, reply))
  {
    KeysOfTheAccounts(s, req);
    assert n > 0 ==> Obstacle(s, p, req, reply, 0).None?;
    assert n > 1 ==> Obstacle(s, p, req, reply, 1).None?;
    assert n > 2 ==> Obstacle(s, p, req, reply, 2).None?;
    assert n > 3 ==> Obstacle(s, p, req, reply, 3).None?;
    assert n > 4 ==> Obstacle(s, p, req, reply, 4).None?;
    assert n > 5 ==> Obstacle(s, p, req, reply, 5).None?;
    assert n > 6 ==> Obstacle(s, p, req, reply, 6).None?;
    assert n > 9 ==> Obstacle(s, p, req, reply, 9).None?;
  }

  // ---------------------------------------------------------------- on the way

  /** What the first n calls have made of the database of the arrival. */
  ghost predicate DbOnWay(db0: Db, db: Db, p: Pid, n: nat) {
    && (n <= 12 ==>
          && db.books == db0.books
          && (forall id :: RowLocked(db, p, id) <==> RowLocked(db0, p, id)))
    && (n <= 9 ==> db.keyIndex == db0.keyIndex)
  }

  ghost predicate LocksOnWay(locks0: Locks.State, locks: Locks.State, p: Pid, req: Request, n: nat) {
    && (n <= 1 ==> locks.keys == locks0.keys && locks.now == locks0.now && p !in locks.clients)
    && (n == 2 ==>
          && locks.now == locks0.now && locks.keys == locks0.keys[FirstKey(req) := locks.now + 10_000]
          && p in locks.clients && locks.clients[p].First?
          && locks.clients[p].k1 == FirstKey(req) && locks.clients[p].k2 == SecondKey(req))
  }

  predicate ProcOnWay(pr: Proc, p: Pid, req: Request, reply: Reply, n: nat) {
    && n < |PATH| && pr.pc == PATH[n] && pr.req == req
    && (5 <= n ==> pr.fraud == RunFraudCheck(reply))
    && (n < 15 ==> pr.outcome.Undecided?)
    && (n >= 13 ==> pr.transactionRow == Some(VerdictRow(p, req, reply)))
    && (n >= 15 ==> pr.outcome == Succeeded(VerdictRow(p, req, reply)))
  }

  /** Stopped by an obstacle, on the way out. */
  predicate ProcOnWayOut(pr: Proc, req: Request, o: Outcome) {
    && pr.req == req
    && if pr.pc.UndoFirst? then o == Rejected(AccountLocked) && pr.outcome.Undecided?
       else
         && (pr.pc.RollBack? || pr.pc.UnlockFirst? || pr.pc.UnlockSecond? || pr.pc.Returned?)
         && pr.outcome == o && !o.Undecided? && !o.Succeeded? && o != Rejected(ConcurrentModification)
  }

  /** The money has moved once, as the verdict says. */
  ghost predicate Moved(b: Books, b': Books, p: Pid, req: Request, reply: Reply) {
    var e := Transferred(VerdictRow(p, req, reply), RunFraudCheck(reply).signals);
    Allowed(b, e) && b' == Perform(b, e)
  }

  // ---------------------------------------------------------------- calls of the database transaction

  lemma SenderCall(s0: State, db: Db, p: Pid, pr: Proc, req: Request, reply: Reply)
    requires Clear(s0, p, req, reply, 5) && ProcOnWay(pr, p, req, reply, 5) && DbOnWay(s0.db, db, p, 5)
    ensures var (db', pr'), o := Statement(db, p, pr), Obstacle(s0, p, req, reply, 5);
      if o.Some? then ProcOnWayOut(pr', req, o.value) && db'.books == s0.db.books
      else ProcOnWay(pr', p, req, reply, 6) && DbOnWay(s0.db, db', p, 6)
  {
    assert Obstacle(s0, p, req, reply, 3).None?;
  }

  lemma RecipientCall(s0: State, db: Db, p: Pid, pr: Proc, req: Request, reply: Reply)
    requires Clear(s0, p, req, reply, 6) && ProcOnWay(pr, p, req, reply, 6) && DbOnWay(s0.db, db, p, 6)
    requires ProcOk(db, p, pr)
    ensures var (db', pr'), o := Statement(db, p, pr), Obstacle(s0, p, req, reply, 6);
      if o.Some? then ProcOnWayOut(pr', req, o.value) && db'.books == s0.db.books
      else ProcOnWay(pr', p, req, reply, 7) && DbOnWay(s0.db, db', p, 7)
  {
    assert Obstacle(s0, p, req, reply, 3).None?;
  }

  lemma DebitCall(db0: Db, db: Db, p: Pid, pr: Proc, req: Request, reply: Reply)
    requires ProcOnWay(pr, p, req, reply, 7) && DbOnWay(db0, db, p, 7) && ProcOk(db, p, pr)
    ensures var (db', pr') := Statement(db, p, pr); ProcOnWay(pr', p, req, reply, 8) && DbOnWay(db0, db', p, 8)
  {}

  lemma CreditCall(db0: Db, db: Db, p: Pid, pr: Proc, req: Request, reply: Reply)
    requires ProcOnWay(pr, p, req, reply, 8) && DbOnWay(db0, db, p, 8)
    ensures var (db', pr') := Statement(db, p, pr); ProcOnWay(pr', p, req, reply, 9) && DbOnWay(db0, db', p, 9)
  {}

  /** Where the key belongs to another open transaction, the call waits. */
  lemma InsertCall(s0: State, db: Db, p: Pid, pr: Proc, req: Request, reply: Reply)
    requires ProcOnWay(pr, p, req, reply, 9) && DbOnWay(s0.db, db, p, 9)
    ensures var (db', pr'), o := Statement(db, p, pr), Obstacle(s0, p, req, reply, 9);
      if o.None? then ProcOnWay(pr', p, req, reply, 10) && DbOnWay(s0.db, db', p, 10)
      else if db.keyIndex[req.key].None? then ProcOnWayOut(pr', req, o.value) && db'.books == s0.db.books
      else (db', pr') == (db, pr)
  {}

  lemma RecordCalls(db0: Db, db: Db, p: Pid, pr: Proc, req: Request, reply: Reply, n: nat)
    requires (n == 10 || n == 11) && ProcOnWay(pr, p, req, reply, n) && DbOnWay(db0, db, p, n)
    ensures var (db', pr') := Statement(db, p, pr); ProcOnWay(pr', p, req, reply, n + 1) && DbOnWay(db0, db', p, n + 1)
  {}

  lemma CommitCall(db0: Db, db: Db, p: Pid, pr: Proc, req: Request, reply: Reply)
    requires ProcOnWay(pr, p, req, reply, 12) && DbOnWay(db0, db, p, 12) && ProcOk(db, p, pr) && DbOk(db)
    requires PointsIn(reply) < 60
    ensures var (db', pr') := DbStep(db, p, pr, true);
      ProcOnWay(pr', p, req, reply, 13) && Moved(db0.books, db'.books, p, req, reply)
  {
    CheckByPoints(reply);
    CommitIsAtomic(db, p, pr);
  }

  lemma RollBackCall(db: Db, p: Pid, pr: Proc, req: Request, o: Outcome)
    requires pr.pc.RollBack? && ProcOnWayOut(pr, req, o)
    ensures var (db', pr') := DbStep(db, p, pr, true); ProcOnWayOut(pr', req, o) && db'.books == db.books
  {}

  // ---------------------------------------------------------------- calls on the locks

  lemma FirstLockCall(s0: State, locks: Locks.State, p: Pid, pr: Proc, req: Request, reply: Reply)
    requires ProcOnWay(pr, p, req, reply, 1) && LocksOnWay(s0.locks, locks, p, req, 1) && p !in locks.gone
    ensures var (locks', pr'), o := LockStep(locks, p, pr, true), Obstacle(s0, p, req, reply, 1);
      if o.Some? then ProcOnWayOut(pr', req, o.value)
      else ProcOnWay(pr', p, req, reply, 2) && LocksOnWay(s0.locks, locks', p, req, 2)
  {}

  lemma SecondLockCall(s0: State, locks: Locks.State, p: Pid, pr: Proc, req: Request, reply: Reply)
    requires req.from != req.to && p !in locks.gone
    requires ProcOnWay(pr, p, req, reply, 2) && LocksOnWay(s0.locks, locks, p, req, 2)
    ensures var (locks', pr'), o := LockStep(locks, p, pr, true), Obstacle(s0, p, req, reply, 2);
      if o.Some? then ProcOnWayOut(pr', req, o.value) else ProcOnWay(pr', p, req, reply, 3)
  {
    Locks.SortPairSorts(req.from, req.to);
    LessIsTotal(FirstKey(req), SecondKey(req));
  }

  lemma ReleaseCalls(locks: Locks.State, p: Pid, pr: Proc, req: Request, reply: Reply, n: nat)
    requires (n == 15 || n == 16) && ProcOnWay(pr, p, req, reply, n)
    ensures ProcOnWay(LockStep(locks, p, pr, true).1, p, req, reply, n + 1)
  {}

  lemma WayOutCalls(locks: Locks.State, p: Pid, pr: Proc, req: Request, o: Outcome)
    requires AtLocks(pr.pc) && ProcOnWayOut(pr, req, o)
    ensures ProcOnWayOut(LockStep(locks, p, pr, true).1, req, o)
  {}

  // ---------------------------------------------------------------- the other calls

  lemma FirstCall(s0: State, db: Db, p: Pid, pr: Proc, req: Request, reply: Reply)
    requires ProcOnWay(pr, p, req, reply, 0)
    ensures var pr', o := PlainStep(db, s0.cache, pr, reply, true).1, Obstacle(s0, p, req, reply, 0);
      if o.Some? then ProcOnWayOut(pr', req, o.value) else ProcOnWay(pr', p, req, reply, 1)
  {}

  lemma AccountsCall(s0: State, db: Db, cache: map<string, Row>, p: Pid, pr: Proc, req: Request, reply: Reply)
    requires ProcOnWay(pr, p, req, reply, 3) && db.books == s0.db.books
    ensures var pr', o := PlainStep(db, cache, pr, reply, true).1, Obstacle(s0, p, req, reply, 3);
      if o.Some? then ProcOnWayOut(pr', req, o.value) else ProcOnWay(pr', p, req, reply, 4)
  {}

  lemma FraudCall(s0: State, db: Db, cache: map<string, Row>, p: Pid, pr: Proc, req: Request, reply: Reply)
    requires ProcOnWay(pr, p, req, reply, 4)
    ensures var pr', o := PlainStep(db, cache, pr, reply, true).1, Obstacle(s0, p, req, reply, 4);
      if o.Some? then ProcOnWayOut(pr', req, o.value) else ProcOnWay(pr', p, req, reply, 5)
  {
    CheckByPoints(reply);
  }

  lemma LastCalls(db: Db, cache: map<string, Row>, p: Pid, pr: Proc, req: Request, reply: Reply, n: nat)
    requires (n == 13 || n == 14) && ProcOnWay(pr, p, req, reply, n)
    ensures var (cache', pr') := PlainStep(db, cache, pr, reply, true);
      && ProcOnWay(pr', p, req, reply, n + 1)
      && cache' == if n == 13 then cache[req.key := VerdictRow(p, req, reply)] else cache
  {}

  /** No earlier call writes the cache. */
  lemma ReadsLeaveCache(db: Db, cache: map<string, Row>, pr: Proc, reply: Reply)
    requires !InTrx(pr.pc) && !AtLocks(pr.pc) && !pr.pc.CacheResponse?
    ensures PlainStep(db, cache, pr, reply, true).0 == cache
  {}

  // ---------------------------------------------------------------- the whole way

  ghost predicate OnWay(s0: State, s: State, p: Pid, req: Request, reply: Reply, n: nat) {
    && Running(s, p) && ProcOnWay(s.procs[p], p, req, reply, n) && Clear(s0, p, req, reply, n)
    && DbOnWay(s0.db, s.db, p, n) && LocksOnWay(s0.locks, s.locks, p, req, n)
    && s.cache == (if n <= 13 then s0.cache else s0.cache[req.key := VerdictRow(p, req, reply)])
    && (n >= 13 ==> Moved(s0.db.books, s.db.books, p, req, reply))
  }

  ghost predicate OutOfWay(s0: State, s: State, p: Pid, req: Request, reply: Reply) {
    && Running(s, p) && ProcOnWayOut(s.procs[p], req, Verdict(s0, p, req, reply))
    && s.db.books == s0.db.books && s.cache == s0.cache
  }

  /** The run so far agrees with the verdict on its start. */
  ghost predicate Agrees(s0: State, s: State, p: Pid, req: Request, reply: Reply) {
    s == s0 || OutOfWay(s0, s, p, req, reply) || exists n :: OnWay(s0, s, p, req, reply, n)
  }

  lemma ClearOneMore(s0: State, p: Pid, req: Request, reply: Reply, n: nat)
    requires Clear(s0, p, req, reply, n)
    ensures Obstacle(s0, p, req, reply, n).None? ==> Clear(s0, p, req, reply, n + 1)
    ensures Obstacle(s0, p, req, reply, n).Some? ==> Verdict(s0, p, req, reply) == Obstacle(s0, p, req, reply, n).value
  {
    VerdictIsFirstObstacle(s0, p, req, reply, n);
  }

  /** The n-th call, a statement, goes on, stops at its obstacle, or waits. */
  ghost predicate StatementLeads(s0: State, db: Db, p: Pid, pr: Proc, db': Db, pr': Proc,
                                 req: Request, reply: Reply, n: nat)
  {
    var o := Obstacle(s0, p, req, reply, n);
    || (db', pr') == (db, pr)
    || (o.Some? && ProcOnWayOut(pr', req, o.value) && db'.books == s0.db.books)
    || (o.None? && ProcOnWay(pr', p, req, reply, n + 1) && DbOnWay(s0.db, db', p, n + 1))
  }

  lemma StatementOnWay(s0: State, db: Db, p: Pid, pr: Proc, req: Request, reply: Reply, n: nat)
    requires 5 <= n <= 11 && Clear(s0, p, req, reply, n) && ProcOnWay(pr, p, req, reply, n)
    requires DbOnWay(s0.db, db, p, n) && ProcOk(db, p, pr)
    ensures StatementLeads(s0, db, p, pr, Statement(db, p, pr).0, Statement(db, p, pr).1, req, reply, n)
  {
    if n <= 6 { ReadOnWay(s0, db, p, pr, req, reply, n); } else { WriteOnWay(s0, db, p, pr, req, reply, n); }
  }

  lemma ReadOnWay(s0: State, db: Db, p: Pid, pr: Proc, req: Request, reply: Reply, n: nat)
    requires 5 <= n <= 6 && Clear(s0, p, req, reply, n) && ProcOnWay(pr, p, req, reply, n)
    requires DbOnWay(s0.db, db, p, n) && ProcOk(db, p, pr)
    ensures StatementLeads(s0, db, p, pr, Statement(db, p, pr).0, Statement(db, p, pr).1, req, reply, n)
  {
    if n == 5 { SenderCall(s0, db, p, pr, req, reply); } else { RecipientCall(s0, db, p, pr, req, reply); }
  }

  lemma WriteOnWay(s0: State, db: Db, p: Pid, pr: Proc, req: Request, reply: Reply, n: nat)
    requires 7 <= n <= 11 && ProcOnWay(pr, p, req, reply, n) && DbOnWay(s0.db, db, p, n) && ProcOk(db, p, pr)
    ensures StatementLeads(s0, db, p, pr, Statement(db, p, pr).0, Statement(db, p, pr).1, req, reply, n)
  {
    if n == 7 { DebitCall(s0.db, db, p, pr, req, reply); }
    else if n == 8 { CreditCall(s0.db, db, p, pr, req, reply); }
    else if n == 9 { InsertCall(s0, db, p, pr, req, reply); }
    else { RecordCalls(s0.db, db, p, pr, req, reply, n); }
  }

  /** Where an answered call leads, by the store it goes to. */
  lemma AnsweredDbCall(s: State, p: Pid, reply: Reply)
    requires Running(s, p) && InTrx(s.procs[p].pc)
    ensures var s', (db', pr') := Apply(s, Advance(p, reply, true)), DbStep(s.db, p, s.procs[p], true);
      Running(s', p) && s'.db == db' && s'.procs[p] == pr' && s'.locks == s.locks && s'.cache == s.cache
  {}

  lemma AnsweredLockCall(s: State, p: Pid, reply: Reply)
    requires Running(s, p) && AtLocks(s.procs[p].pc)
    ensures var s', (locks', pr') := Apply(s, Advance(p, reply, true)), LockStep(s.locks, p, s.procs[p], true);
      Running(s', p) && s'.locks == locks' && s'.procs[p] == pr' && s'.db == s.db && s'.cache == s.cache
  {}

  lemma AnsweredPlainCall(s: State, p: Pid, reply: Reply)
    requires Running(s, p) && !InTrx(s.procs[p].pc) && !AtLocks(s.procs[p].pc)
    ensures var s' := Apply(s, Advance(p, reply, true));
      var (cache', pr') := PlainStep(s.db, s.cache, s.procs[p], reply, true);
      Running(s', p) && s'.procs[p] == pr' && s'.db == s.db && s'.locks == s.locks && s'.cache == cache'
  {}

  lemma StatementAgrees(s0: State, s: State, p: Pid, req: Request, reply: Reply, n: nat)
    requires OnWay(s0, s, p, req, reply, n) && 5 <= n <= 11 && ProcOk(s.db, p, s.procs[p])
    ensures Agrees(s0, Apply(s, Advance(p, reply, true)), p, req, reply)
  {
    var s' := Apply(s, Advance(p, reply, true));
    AnsweredDbCall(s, p, reply);
    ClearOneMore(s0, p, req, reply, n);
    StatementOnWay(s0, s.db, p, s.procs[p], req, reply, n);
    assert OnWay(s0, s', p, req, reply, n) || OutOfWay(s0, s', p, req, reply) || OnWay(s0, s', p, req, reply, n + 1);
  }

  lemma ClearHasFewPoints(s0: State, p: Pid, req: Request, reply: Reply, n: nat)
    requires Clear(s0, p, req, reply, n) && n > 4
    ensures PointsIn(reply) < 60
  {
    assert Obstacle(s0, p, req, reply, 4).None?;
  }

  /** From the commit on there are no obstacles left. */
  lemma CommittedOnWay(s0: State, s': State, p: Pid, req: Request, reply: Reply, n: nat)
    requires 13 <= n && Running(s', p) && Clear(s0, p, req, reply, n - 1) && ProcOnWay(s'.procs[p], p, req, reply, n)
    requires Moved(s0.db.books, s'.db.books, p, req, reply)
    requires s'.cache == if n == 13 then s0.cache else s0.cache[req.key := VerdictRow(p, req, reply)]
    ensures OnWay(s0, s', p, req, reply, n)
  {
    ClearOneMore(s0, p, req, reply, n - 1);
  }

  lemma CommitAgrees(s0: State, s: State, p: Pid, req: Request, reply: Reply)
    requires OnWay(s0, s, p, req, reply, 12) && ProcOk(s.db, p, s.procs[p]) && DbOk(s.db)
    ensures Agrees(s0, Apply(s, Advance(p, reply, true)), p, req, reply)
  {
    ClearHasFewPoints(s0, p, req, reply, 12);
    CommitCall(s0.db, s.db, p, s.procs[p], req, reply);
    AnsweredDbCall(s, p, reply);
    CommittedOnWay(s0, Apply(s, Advance(p, reply, true)), p, req, reply, 13);
  }

  lemma FirstLockAgrees(s0: State, s: State, p: Pid, req: Request, reply: Reply)
    requires OnWay(s0, s, p, req, reply, 1)
    ensures Agrees(s0, Apply(s, Advance(p, reply, true)), p, req, reply)
  {
    var s' := Apply(s, Advance(p, reply, true));
    AnsweredLockCall(s, p, reply);
    ClearOneMore(s0, p, req, reply, 1);
    FirstLockCall(s0, s.locks, p, s.procs[p], req, reply);
    assert OutOfWay(s0, s', p, req, reply) || OnWay(s0, s', p, req, reply, 2);
  }

  lemma SecondLockAgrees(s0: State, s: State, p: Pid, req: Request, reply: Reply)
    requires OnWay(s0, s, p, req, reply, 2)
    ensures Agrees(s0, Apply(s, Advance(p, reply, true)), p, req, reply)
  {
    var s' := Apply(s, Advance(p, reply, true));
    AnsweredLockCall(s, p, reply);
    ClearOneMore(s0, p, req, reply, 2);
    assert Obstacle(s0, p, req, reply, 0).None?;
    SecondLockCall(s0, s.locks, p, s.procs[p], req, reply);
    assert OutOfWay(s0, s', p, req, reply) || OnWay(s0, s', p, req, reply, 3);
  }

  lemma ReleaseAgrees(s0: State, s: State, p: Pid, req: Request, reply: Reply, n: nat)
    requires OnWay(s0, s, p, req, reply, n) && (n == 15 || n == 16)
    ensures Agrees(s0, Apply(s, Advance(p, reply, true)), p, req, reply)
  {
    AnsweredLockCall(s, p, reply);
    ReleaseCalls(s.locks, p, s.procs[p], req, reply, n);
    CommittedOnWay(s0, Apply(s, Advance(p, reply, true)), p, req, reply, n + 1);
  }

  lemma CacheCheckAgrees(s0: State, s: State, p: Pid, req: Request, reply: Reply)
    requires OnWay(s0, s, p, req, reply, 0)
    ensures Agrees(s0, Apply(s, Advance(p, reply, true)), p, req, reply)
  {
    var s' := Apply(s, Advance(p, reply, true));
    AnsweredPlainCall(s, p, reply);
    ReadsLeaveCache(s.db, s.cache, s.procs[p], reply);
    ClearOneMore(s0, p, req, reply, 0);
    FirstCall(s0, s.db, p, s.procs[p], req, reply);
    assert OutOfWay(s0, s', p, req, reply) || OnWay(s0, s', p, req, reply, 1);
  }

  lemma AccountsAgree(s0: State, s: State, p: Pid, req: Request, reply: Reply)
    requires OnWay(s0, s, p, req, reply, 3)
    ensures Agrees(s0, Apply(s, Advance(p, reply, true)), p, req, reply)
  {
    var s' := Apply(s, Advance(p, reply, true));
    AnsweredPlainCall(s, p, reply);
    ReadsLeaveCache(s.db, s.cache, s.procs[p], reply);
    ClearOneMore(s0, p, req, reply, 3);
    AccountsCall(s0, s.db, s.cache, p, s.procs[p], req, reply);
    assert OutOfWay(s0, s', p, req, reply) || OnWay(s0, s', p, req, reply, 4);
  }

  lemma FraudAgrees(s0: State, s: State, p: Pid, req: Request, reply: Reply)
    requires OnWay(s0, s, p, req, reply, 4)
    ensures Agrees(s0, Apply(s, Advance(p, reply, true)), p, req, reply)
  {
    var s' := Apply(s, Advance(p, reply, true));
    AnsweredPlainCall(s, p, reply);
    ReadsLeaveCache(s.db, s.cache, s.procs[p], reply);
    ClearOneMore(s0, p, req, reply, 4);
    FraudCall(s0, s.db, s.cache, p, s.procs[p], req, reply);
    assert OutOfWay(s0, s', p, req, reply) || OnWay(s0, s', p, req, reply, 5);
  }

  lemma LastCallsAgree(s0: State, s: State, p: Pid, req: Request, reply: Reply, n: nat)
    requires OnWay(s0, s, p, req, reply, n) && (n == 13 || n == 14)
    ensures Agrees(s0, Apply(s, Advance(p, reply, true)), p, req, reply)
  {
    AnsweredPlainCall(s, p, reply);
    LastCalls(s.db, s.cache, p, s.procs[p], req, reply, n);
    CommittedOnWay(s0, Apply(s, Advance(p, reply, true)), p, req, reply, n + 1);
  }

  lemma WayOutAgrees(s0: State, s: State, p: Pid, req: Request, reply: Reply)
    requires OutOfWay(s0, s, p, req, reply)
    ensures OutOfWay(s0, Apply(s, Advance(p, reply, true)), p, req, reply)
  {
    var o := Verdict(s0, p, req, reply);
    if s.procs[p].pc.RollBack? {
      AnsweredDbCall(s, p, reply);
      RollBackCall(s.db, p, s.procs[p], req, o);
    } else if AtLocks(s.procs[p].pc) {
      AnsweredLockCall(s, p, reply);
      WayOutCalls(s.locks, p, s.procs[p], req, o);
    } else {
      ReturnedStays(s, p, reply);
    }
  }

  lemma ReturnedStays(s: State, p: Pid, reply: Reply)
    requires Running(s, p) && s.procs[p].pc.Returned?
    ensures Apply(s, Advance(p, reply, true)) == s
  {
    assert s.procs[p := s.procs[p]] == s.procs;
  }

  lemma AnsweredCallAgrees(s0: State, s: State, p: Pid, req: Request, reply: Reply)
    requires Inv(s) && p !in s0.procs && Agrees(s0, s, p, req, reply)
    ensures Agrees(s0, Apply(s, Advance(p, reply, true)), p, req, reply)
  {
    if s == s0 {
    } else if OutOfWay(s0, s, p, req, reply) {
      WayOutAgrees(s0, s, p, req, reply);
    } else {
      var n :| OnWay(s0, s, p, req, reply, n);
      assert ProcOk(s.db, p, s.procs[p]);
      if n == 0 { CacheCheckAgrees(s0, s, p, req, reply); }
      else if n == 1 { FirstLockAgrees(s0, s, p, req, reply); }
      else if n == 2 { SecondLockAgrees(s0, s, p, req, reply); }
      else if n == 3 { AccountsAgree(s0, s, p, req, reply); }
      else if n == 4 { FraudAgrees(s0, s, p, req, reply); }
      else if n <= 11 { StatementAgrees(s0, s, p, req, reply, n); }
      else if n == 12 { CommitAgrees(s0, s, p, req, reply); }
      else if n <= 14 { LastCallsAgree(s0, s, p, req, reply, n); }
      else if n <= 16 { ReleaseAgrees(s0, s, p, req, reply, n); }
      else { ReturnedStays(s, p, reply); }
    }
  }

  lemma GivingUpThrows(s: State, step: Step, p: Pid, req: Request, reply: Reply)
    requires Running(s, p) && s.procs[p].req == req && CalmStep(s, step, p, req, reply)
    requires step == Advance(p, reply, false) || step == Fail(p)
    ensures var s', pr := Apply(s, step), s.procs[p];
      && s.procs[p].pc.InsertRow? && req.key in s.db.keyIndex
      && Running(s', p) && s'.db == s.db && s'.cache == s.cache && s'.procs[p] == Throw(pr, DatabaseError)
  {
    if step.Advance? { AdvanceIs(s, p, reply, false); }
  }

  lemma InsertIsTheNinth(pr: Proc, p: Pid, req: Request, reply: Reply, n: nat)
    requires ProcOnWay(pr, p, req, reply, n) && pr.pc.InsertRow?
    ensures n == 9
  {}

  /** Giving up the wait for another transaction's key is the answer of the ninth obstacle. */
  lemma GivingUpAgrees(s0: State, s: State, step: Step, p: Pid, req: Request, reply: Reply)
    requires p !in s0.procs && Agrees(s0, s, p, req, reply) && CalmStep(s, step, p, req, reply)
    requires step == Advance(p, reply, false) || step == Fail(p)
    ensures Agrees(s0, Apply(s, step), p, req, reply)
  {
    if Running(s, p) && !OutOfWay(s0, s, p, req, reply) {
      var n :| OnWay(s0, s, p, req, reply, n);
      GivingUpThrows(s, step, p, req, reply);
      InsertIsTheNinth(s.procs[p], p, req, reply, n);
      VerdictIsFirstObstacle(s0, p, req, reply, 9);
      assert OutOfWay(s0, Apply(s, step), p, req, reply);
    }
  }

  lemma ArrivalAgrees(s0: State, s: State, p: Pid, req: Request, reply: Reply)
    requires Absent(s0, p) && Agrees(s0, s, p, req, reply)
    ensures Agrees(s0, Apply(s, Arrive(p, req)), p, req, reply)
  {
    if s == s0 { assert OnWay(s0, Apply(s, Arrive(p, req)), p, req, reply, 0); }
  }

  lemma {:induction false} CalmRunAgrees(s0: State, steps: seq<Step>, p: Pid, req: Request, reply: Reply)
    requires Inv(s0) && Absent(s0, p) && Calm(s0, steps, p, req, reply)
    ensures Inv(Run(s0, steps)) && Agrees(s0, Run(s0, steps), p, req, reply)
  {
    if steps != [] {
      var n := |steps| - 1;
      var s := Run(s0, steps[..n]);
      OneStepLess(s0, steps, p, req, reply);
      CalmRunAgrees(s0, steps[..n], p, req, reply);
      StepKeepsInv(s, steps[n]);
      if steps[n] == Arrive(p, req) { ArrivalAgrees(s0, s, p, req, reply); }
      else if steps[n] == Advance(p, reply, true) { AnsweredCallAgrees(s0, s, p, req, reply); }
      else { GivingUpAgrees(s0, s, steps[n], p, req, reply); }
    }
  }

  lemma ReturnedGivesTheVerdict(s0: State, s: State, p: Pid, req: Request, reply: Reply)
    requires p !in s0.procs && Agrees(s0, s, p, req, reply) && p in s.procs && s.procs[p].pc.Returned?
    ensures var verdict := Verdict(s0, p, req, reply);
      && s.procs[p].outcome == verdict
      && (if verdict.Succeeded? then Moved(s0.db.books, s.db.books, p, req, reply) else s.db.books == s0.db.books)
      && s.cache == (if verdict.Succeeded? then s0.cache[req.key := verdict.row] else s0.cache)
  {
    if !OutOfWay(s0, s, p, req, reply) {
      var n :| OnWay(s0, s, p, req, reply, n);
      assert n == 17;
      VerdictIsFirstObstacle(s0, p, req, reply, 17);
    }
  }

  /**
   From any reachable state: if from a request's arrival on nobody else acts and none of its calls throws, it is
   answered by the verdict on that state. If it succeeds the books are one transfer further and the cache holds its
   row under its key; if not, both are unchanged.
   */
  lemma CalmRunGivesTheVerdict(s0: State, steps: seq<Step>, p: Pid, req: Request, reply: Reply)
    requires Inv(s0) && Absent(s0, p) && Calm(s0, steps, p, req, reply)
    requires p in Run(s0, steps).procs && Run(s0, steps).procs[p].pc.Returned?
    ensures var s, verdict := Run(s0, steps), Verdict(s0, p, req, reply);
      && s.procs[p].outcome == verdict
      && (if verdict.Succeeded? then Moved(s0.db.books, s.db.books, p, req, reply) else s.db.books == s0.db.books)
      && s.cache == (if verdict.Succeeded? then s0.cache[req.key := verdict.row] else s0.cache)
  {
    CalmRunAgrees(s0, steps, p, req, reply);
    ReturnedGivesTheVerdict(s0, Run(s0, steps), p, req, reply);
  }
}
