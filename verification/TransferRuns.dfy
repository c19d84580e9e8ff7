/**
 Runs that really happen: a single request on books that allow it goes through every call of the protocol. So
 the theorems about all runs speak of something, and each late failure of TransferCharges can be reached.
 */
module TransferRuns {
  import opened Prelude
  import opened FraudEngine
  import opened Books
  import opened TransferProtocol
  import opened TransferInvariant
  import opened TransferSafety
  import opened TransferLocks
  import opened TransferCharges
  import opened TransferLeftovers

  /** The calls of a transfer that meets no obstacle. */
  const PATH: seq<Pc> :=
    [CheckCache, LockFirst, LockSecond, Preload, FraudCheck, LockSender, LockRecipient, DebitSender, CreditRecipient,
     InsertRow, InsertLedger, InsertSignals, CommitTrx, CacheResponse, FlushReads, UnlockFirst, UnlockSecond, Returned]

  function Onward(p: Pid): Step { Advance(p, Unreachable, true) }

  /** The request comes in and makes its first n calls. */
  function Script(p: Pid, req: Request, n: nat): seq<Step> {
    if n == 0 then [Arrive(p, req)] else Script(p, req, n - 1) + [Onward(p)]
  }

  /** The books allow what the request asks for. */
  predicate Fits(b: Books, req: Request) {
    && ValidTerms(req.from, req.to, req.amount)
    && req.from in b.accounts && b.accounts[req.from].status.Active? && req.amount <= b.accounts[req.from].balance
    && req.to in b.accounts && b.accounts[req.to].status.Active?
  }

  ghost predicate DbOnPath(db: Db, b: Books, p: Pid, n: nat) {
    && (forall id :: id in db.rowLocks ==> db.rowLocks[id] == p)
    && (n <= 12 ==> db.books == b)
    && (n <= 9 ==> db.keyIndex == map[])
  }

  ghost predicate LocksOnPath(locks: Locks.State, p: Pid, req: Request, n: nat) {
    var expiry := locks.now + Locks.LOCK_TTL_MS;
    && (n <= 1 ==> p !in locks.clients && locks.keys == map[])
    && (n == 2 ==>
          && p in locks.clients && locks.clients[p].First?
          && locks.clients[p].k1 == FirstKey(req) && locks.clients[p].k2 == SecondKey(req)
          && locks.keys == map[FirstKey(req) := expiry])
    && (3 <= n <= 15 ==> locks.keys == map[FirstKey(req) := expiry, SecondKey(req) := expiry])
  }

  predicate ProcOnPath(pr: Proc, req: Request, n: nat) {
    n < |PATH| && pr.pc == PATH[n] && pr.req == req && (n >= 15 ==> pr.outcome.Succeeded?)
  }

  ghost predicate OnPath(s: State, b: Books, p: Pid, req: Request, n: nat) {
    && Running(s, p) && ProcOnPath(s.procs[p], req, n)
    && DbOnPath(s.db, b, p, n) && LocksOnPath(s.locks, p, req, n) && CacheOnPath(s.cache, req, n)
  }

  predicate CacheOnPath(cache: map<string, Row>, req: Request, n: nat) {
    (n == 0 ==> cache == map[]) && (n >= 14 ==> req.key in cache)
  }

  lemma ReadsStayOnPath(db: Db, b: Books, p: Pid, pr: Proc, req: Request, n: nat)
    requires Fits(b, req) && 5 <= n <= 7 && ProcOnPath(pr, req, n) && DbOnPath(db, b, p, n) && ProcOk(db, p, pr)
    ensures var (db', pr') := DbStep(db, p, pr, true); ProcOnPath(pr', req, n + 1) && DbOnPath(db', b, p, n + 1)
  {}

  lemma WritesStayOnPath(db: Db, b: Books, p: Pid, pr: Proc, req: Request, n: nat)
    requires 8 <= n <= 12 && ProcOnPath(pr, req, n) && DbOnPath(db, b, p, n)
    ensures var (db', pr') := DbStep(db, p, pr, true); ProcOnPath(pr', req, n + 1) && DbOnPath(db', b, p, n + 1)
  {}

  lemma DbStepStaysOnPath(db: Db, b: Books, p: Pid, pr: Proc, req: Request, n: nat)
    requires Fits(b, req) && 5 <= n <= 12 && ProcOnPath(pr, req, n) && DbOnPath(db, b, p, n) && ProcOk(db, p, pr)
    ensures var (db', pr') := DbStep(db, p, pr, true); ProcOnPath(pr', req, n + 1) && DbOnPath(db', b, p, n + 1)
  {
    if n <= 7 { ReadsStayOnPath(db, b, p, pr, req, n); } else { WritesStayOnPath(db, b, p, pr, req, n); }
  }

  lemma FirstLockIsFree(locks: Locks.State, p: Pid, pr: Proc, req: Request)
    requires req.from != req.to && ProcOnPath(pr, req, 1) && LocksOnPath(locks, p, req, 1) && p !in locks.gone
    ensures var (locks', pr') := LockStep(locks, p, pr, true);
      ProcOnPath(pr', req, 2) && LocksOnPath(locks', p, req, 2) && p !in locks'.gone
  {}

  lemma SecondLockIsFree(locks: Locks.State, p: Pid, pr: Proc, req: Request)
    requires req.from != req.to && ProcOnPath(pr, req, 2) && LocksOnPath(locks, p, req, 2) && p !in locks.gone
    ensures var (locks', pr') := LockStep(locks, p, pr, true);
      ProcOnPath(pr', req, 3) && LocksOnPath(locks', p, req, 3) && p !in locks'.gone
  {
    Locks.SortPairSorts(req.from, req.to);
    LessIsTotal(FirstKey(req), SecondKey(req));
  }

  lemma ReleaseStaysOnPath(locks: Locks.State, p: Pid, pr: Proc, req: Request, n: nat)
    requires 15 <= n <= 16 && ProcOnPath(pr, req, n) && p !in locks.gone
    ensures var (locks', pr') := LockStep(locks, p, pr, true);
      ProcOnPath(pr', req, n + 1) && LocksOnPath(locks', p, req, n + 1) && p !in locks'.gone
  {}

  lemma LockStepStaysOnPath(locks: Locks.State, p: Pid, pr: Proc, req: Request, n: nat)
    requires AtLocks(pr.pc) && n < 17 && req.from != req.to && ProcOnPath(pr, req, n) && LocksOnPath(locks, p, req, n)
    requires p !in locks.gone
    ensures var (locks', pr') := LockStep(locks, p, pr, true);
      ProcOnPath(pr', req, n + 1) && LocksOnPath(locks', p, req, n + 1) && p !in locks'.gone
  {
    if n == 1 { FirstLockIsFree(locks, p, pr, req); }
    else if n == 2 { SecondLockIsFree(locks, p, pr, req); }
    else { ReleaseStaysOnPath(locks, p, pr, req, n); }
  }

  lemma BeforeTrxStaysOnPath(db: Db, cache: map<string, Row>, p: Pid, pr: Proc, req: Request, n: nat)
    requires Fits(db.books, req) && (n == 0 || n == 3 || n == 4) && ProcOnPath(pr, req, n)
      && (n == 0 ==> cache == map[])
    ensures ProcOnPath(PlainStep(db, cache, pr, Unreachable, true).1, req, n + 1)
  {}

  lemma AfterTrxStaysOnPath(db: Db, cache: map<string, Row>, p: Pid, pr: Proc, req: Request, n: nat)
    requires (n == 13 || n == 14) && ProcOnPath(pr, req, n) && ProcOk(db, p, pr)
    requires CacheOnPath(cache, req, n)
    ensures var (cache', pr') := PlainStep(db, cache, pr, Unreachable, true);
      ProcOnPath(pr', req, n + 1) && CacheOnPath(cache', req, n + 1)
  {}

  lemma PlainStepStaysOnPath(db: Db, cache: map<string, Row>, b: Books, p: Pid, pr: Proc, req: Request, n: nat)
    requires Fits(b, req) && n < 17 && ProcOnPath(pr, req, n) && !InTrx(pr.pc) && !AtLocks(pr.pc)
    requires ProcOk(db, p, pr) && DbOnPath(db, b, p, n) && CacheOnPath(cache, req, n)
    ensures var (cache', pr') := PlainStep(db, cache, pr, Unreachable, true);
      ProcOnPath(pr', req, n + 1) && CacheOnPath(cache', req, n + 1)
    ensures forall locks :: LocksOnPath(locks, p, req, n) ==> LocksOnPath(locks, p, req, n + 1)
  {
    if n < 5 { BeforeTrxStaysOnPath(db, cache, p, pr, req, n); } else { AfterTrxStaysOnPath(db, cache, p, pr, req, n); }
  }

  lemma DbCallStaysOnPath(s: State, b: Books, p: Pid, req: Request, n: nat)
    requires Running(s, p) && ProcOk(s.db, p, s.procs[p]) && Fits(b, req) && OnPath(s, b, p, req, n) && 5 <= n <= 12
    ensures OnPath(Apply(s, Onward(p)), b, p, req, n + 1)
  {
    DbStepStaysOnPath(s.db, b, p, s.procs[p], req, n);
    DbCallLeaves(s, p);
    AdvanceIs(s, p, Unreachable, true);
  }

  lemma LockCallStaysOnPath(s: State, b: Books, p: Pid, req: Request, n: nat)
    requires Fits(b, req) && n < 17 && OnPath(s, b, p, req, n) && AtLocks(s.procs[p].pc)
    ensures OnPath(Apply(s, Onward(p)), b, p, req, n + 1)
  {
    LockStepStaysOnPath(s.locks, p, s.procs[p], req, n);
    AdvanceLocksAre(s, p, Unreachable, true);
    LockCallLeaves(s, p);
    AdvanceIs(s, p, Unreachable, true);
  }

  lemma PlainCallStaysOnPath(s: State, b: Books, p: Pid, req: Request, n: nat)
    requires Running(s, p) && ProcOk(s.db, p, s.procs[p]) && Fits(b, req) && n < 17 && OnPath(s, b, p, req, n)
    requires !InTrx(s.procs[p].pc) && !AtLocks(s.procs[p].pc)
    ensures OnPath(Apply(s, Onward(p)), b, p, req, n + 1)
  {
    PlainStepStaysOnPath(s.db, s.cache, b, p, s.procs[p], req, n);
    AdvanceIs(s, p, Unreachable, true);
    PlainCallLeaves(s, p);
  }

  lemma PlainCallLeaves(s: State, p: Pid)
    requires Running(s, p) && !InTrx(s.procs[p].pc) && !AtLocks(s.procs[p].pc)
    ensures var s' := Apply(s, Onward(p));
      s'.locks == s.locks && s'.cache == PlainStep(s.db, s.cache, s.procs[p], Unreachable, true).0
  {}

  lemma DbCallLeaves(s: State, p: Pid)
    requires Running(s, p) && InTrx(s.procs[p].pc)
    ensures Apply(s, Onward(p)).cache == s.cache && Apply(s, Onward(p)).locks == s.locks
  {}

  lemma LockCallLeaves(s: State, p: Pid)
    requires Running(s, p) && AtLocks(s.procs[p].pc)
    ensures Apply(s, Onward(p)).cache == s.cache && Apply(s, Onward(p)).db == s.db
  {}

  lemma StaysOnPath(s: State, b: Books, p: Pid, req: Request, n: nat)
    requires Running(s, p) && ProcOk(s.db, p, s.procs[p]) && Fits(b, req) && n < 17 && OnPath(s, b, p, req, n)
    ensures OnPath(Apply(s, Onward(p)), b, p, req, n + 1)
  {
    if InTrx(s.procs[p].pc) {
      DbCallStaysOnPath(s, b, p, req, n);
    } else if AtLocks(s.procs[p].pc) {
      LockCallStaysOnPath(s, b, p, req, n);
    } else {
      PlainCallStaysOnPath(s, b, p, req, n);
    }
  }

  lemma {:induction false} ScriptStaysOnPath(s0: State, p: Pid, req: Request, n: nat)
    requires Initial(s0) && p !in s0.locks.gone && Fits(s0.db.books, req) && n <= 17
    ensures OnPath(Run(s0, Script(p, req, n)), s0.db.books, p, req, n)
  {
    if n == 0 {
      assert [Arrive(p, req)][..0] == [];
    } else {
      ScriptStaysOnPath(s0, p, req, n - 1);
      RunKeepsInv(s0, Script(p, req, n - 1));
      StaysOnPath(Run(s0, Script(p, req, n - 1)), s0.db.books, p, req, n - 1);
      RunOneMore(s0, Script(p, req, n - 1), Onward(p));
    }
  }

  /** A request that meets no obstacle is answered and charged. */
  lemma AloneItSucceeds(s0: State, p: Pid, req: Request)
    requires Initial(s0) && p !in s0.locks.gone && Fits(s0.db.books, req)
    ensures var s := Run(s0, Script(p, req, 17));
      p in s.procs && s.procs[p].pc.Returned? && s.procs[p].outcome.Succeeded? && Charged(s.db, p)
  {
    ScriptStaysOnPath(s0, p, req, 17);
    WhoWasCharged(s0, Script(p, req, 17));
  }

  lemma ALateFailureRejects(s: State, step: Step, p: Pid)
    requires FailsLate(s, step, p) && ProcOk(s.db, p, s.procs[p])
    ensures p in Apply(s, step).procs && Apply(s, step).procs[p].outcome.Rejected?
  {}

  lemma LateOnPath(s: State, b: Books, p: Pid, req: Request, n: nat, step: Step)
    requires OnPath(s, b, p, req, n) && ProcOk(s.db, p, s.procs[p]) && 12 <= n <= 16
    requires step == Advance(p, Unreachable, false) || (step == Fail(p) && n > 12)
    ensures FailsLate(s, step, p)
  {}

  /**
   Each late failure can be reached: COMMIT executed but not answered (n = 12), the cache write, the flush or
   a release failing (n = 13 to 16), with or without having had its effect. The payment is rejected and charged.
   */
  lemma LateFailuresHappen(s0: State, p: Pid, req: Request, n: nat, step: Step)
    requires Initial(s0) && p !in s0.locks.gone && Fits(s0.db.books, req) && 12 <= n <= 16
    requires step == Advance(p, Unreachable, false) || (step == Fail(p) && n > 12)
    ensures var s := Run(s0, Script(p, req, n) + [step]);
      p in s.procs && s.procs[p].outcome.Rejected? && Charged(s.db, p)
  {
    var before := Script(p, req, n);
    ScriptStaysOnPath(s0, p, req, n);
    RunKeepsInv(s0, before);
    LateOnPath(Run(s0, before), s0.db.books, p, req, n, step);
    ALateFailureRejects(Run(s0, before), step, p);
    RunOneMore(s0, before, step);
    assert (before + [step])[..|before|] == before;
    RejectedYetChargedIff(s0, before + [step], p);
  }

  lemma FailedReleaseLeaves(s: State, b: Books, p: Pid, req: Request)
    requires OnPath(s, b, p, req, 15)
    ensures var s' := Apply(s, Fail(p));
      && p in s'.procs && s'.procs[p].pc.Returned?
      && Locks.Live(s'.locks, FirstKey(req)) && Locks.Live(s'.locks, SecondKey(req))
  {}

  /** A release that throws leaves both locks in Redis, although the request has ended. */
  lemma FailedReleaseLeavesLocks(s0: State, p: Pid, req: Request)
    requires Initial(s0) && p !in s0.locks.gone && Fits(s0.db.books, req)
    ensures var s := Run(s0, Script(p, req, 15) + [Fail(p)]);
      && p in s.procs && s.procs[p].pc.Returned?
      && Locks.Live(s.locks, FirstKey(req)) && Locks.Live(s.locks, SecondKey(req))
  {
    ScriptStaysOnPath(s0, p, req, 15);
    FailedReleaseLeaves(Run(s0, Script(p, req, 15)), s0.db.books, p, req);
    RunOneMore(s0, Script(p, req, 15), Fail(p));
  }

  lemma FailLeavesDb(s: State, p: Pid)
    requires Running(s, p) && InTrx(s.procs[p].pc)
    ensures var s' := Apply(s, Fail(p));
      && Running(s', p) && s'.db == s.db
      && s'.procs[p].pc == if s.procs[p].pc.RollBack? then UnlockFirst else RollBack
  {}

  lemma LockedAtDebit(s: State, b: Books, p: Pid, req: Request)
    requires OnPath(s, b, p, req, 7) && ProcOk(s.db, p, s.procs[p])
    ensures s.procs[p].pc.DebitSender? && req.from in s.db.rowLocks && s.db.rowLocks[req.from] == p
  {}

  lemma DanglesAfter(s0: State, before: seq<Step>, p: Pid)
    requires Running(Run(s0, before), p) && Run(s0, before).procs[p].pc.RollBack?
    ensures p in Dangling(s0, before + [Fail(p)])
  {
    assert (before + [Fail(p)])[..|before|] == before;
  }

  /** A ROLLBACK that throws leaves the sender's row locked: the debit fails, the ROLLBACK fails, the call goes on. */
  lemma FailedRollbackLeavesRow(s0: State, p: Pid, req: Request)
    requires Initial(s0) && p !in s0.locks.gone && Fits(s0.db.books, req)
    ensures var steps := Script(p, req, 7) + [Fail(p)] + [Fail(p)];
      var s := Run(s0, steps);
      && p in Dangling(s0, steps) && Running(s, p) && s.procs[p].pc.UnlockFirst?
      && req.from in s.db.rowLocks && s.db.rowLocks[req.from] == p
  {
    var before := Script(p, req, 7);
    var s := Run(s0, before);
    ScriptStaysOnPath(s0, p, req, 7);
    RunKeepsInv(s0, before);
    LockedAtDebit(s, s0.db.books, p, req);
    FailLeavesDb(s, p);
    RunOneMore(s0, before, Fail(p));
    FailLeavesDb(Apply(s, Fail(p)), p);
    RunOneMore(s0, before + [Fail(p)], Fail(p));
    DanglesAfter(s0, before + [Fail(p)], p);
  }

  lemma NewcomerIsReplayed(s: State, q: Pid, other: Request)
    requires q !in s.procs && q !in s.locks.gone && other.key in s.cache
    ensures var s' := Apply(Apply(s, Arrive(q, other)), Onward(q));
      q in s'.procs && s'.procs[q].outcome == Replayed(s.cache[other.key])
  {
    var s1 := Apply(s, Arrive(q, other));
    assert Running(s1, q) && s1.procs[q] == Newcomer(other) && s1.cache == s.cache;
    AdvanceIs(s1, q, Unreachable, true);
  }

  lemma CachedIsAskedFor(s: State, p: Pid, req: Request)
    requires Inv(s) && s.procs.Keys <= {p} && p in s.procs && s.procs[p].req == req && req.key in s.cache
    ensures AskedFor(s.cache[req.key], req)
  {
    assert Stored(s.db, s.cache[req.key], req.key);
  }

  /**
   An idempotency key that is used again for another transfer: the second request is answered with the row of
   the first, which is not what it asks for.
   */
  lemma ReplayMayBeAnothers(s0: State, p: Pid, req: Request, q: Pid, other: Request)
    requires Initial(s0) && p !in s0.locks.gone && q !in s0.locks.gone && p != q && Fits(s0.db.books, req)
    requires other.key == req.key && other != req
    ensures var s := Run(s0, Script(p, req, 17) + [Arrive(q, other)] + [Onward(q)]);
      && q in s.procs && s.procs[q].outcome.Replayed?
      && AskedFor(s.procs[q].outcome.row, req) && !AskedFor(s.procs[q].outcome.row, other)
  {
    var before := Script(p, req, 17);
    var s := Run(s0, before);
    ScriptStaysOnPath(s0, p, req, 17);
    OnlyRequest(s0, p, req, 17);
    RunKeepsInv(s0, before);
    CachedIsAskedFor(s, p, req);
    NewcomerIsReplayed(s, q, other);
    RunOneMore(s0, before, Arrive(q, other));
    RunOneMore(s0, before + [Arrive(q, other)], Onward(q));
  }

  lemma {:induction false} OnlyRequest(s0: State, p: Pid, req: Request, n: nat)
    requires Initial(s0)
    ensures var s := Run(s0, Script(p, req, n)); s.procs.Keys <= {p} && s.locks.gone == s0.locks.gone
  {
    if n == 0 {
      assert [Arrive(p, req)][..0] == [];
    } else {
      OnlyRequest(s0, p, req, n - 1);
      RunOneMore(s0, Script(p, req, n - 1), Onward(p));
      OnwardLeavesOthers(Run(s0, Script(p, req, n - 1)), p);
    }
  }

  lemma OnwardLeavesOthers(s: State, p: Pid)
    ensures Apply(s, Onward(p)).procs.Keys <= s.procs.Keys + {p} && Apply(s, Onward(p)).locks.gone == s.locks.gone
  {}

  /** An example: two accounts, one payment, and everything else empty. */
  function Example(): (State, Request) {
    var accounts := map["a" := Account(100, 0, Active), "b" := Account(0, 0, Active)];
    (State(Db(Books(accounts, [], [], []), map[], map[]), map[], Locks.State(0, map[], map[], {}), map[]),
     Request("key", "a", "b", 40))
  }

  lemma ExampleFits()
    ensures Initial(Example().0) && Fits(Example().0.db.books, Example().1)
  {
    assert "a" != "b";
  }
}
