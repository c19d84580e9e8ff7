/**
 initiatePayment in its own form: methods that change the tables, the cache and the Redis keys step by step,
 with the retry loop and the try, catch and finally of payment.service.ts. Whatever else the system does
 happens between its awaited calls. The whole history is proved to be a run of the machine in
 TransferProtocol, so that its theorems are theorems about this code.
 */
module PaymentService {
  import opened Prelude
  import opened FraudEngine
  import opened Books
  import opened TransferProtocol
  import opened TransferInvariant
  import opened TransferSafety
  import opened TransferLocks
  import opened TransferCharges
  import opened TransferLeftovers
  import opened Interference
  import opened TransferVerdict
  import opened TransferCauses

  /** What an asynchronous call returns or throws. */
  datatype Result<+T> = Ok(value: T) | Thrown(error: Error) {
    predicate IsFailure() { Thrown? }
    function PropagateFailure<U>(): Result<U>
      requires Thrown?
    { Thrown(error) }
    function Extract(): T
      requires Ok?
    { value }
  }

  datatype Response = Response(data: Row, fromCache: bool, statusCode: nat)

  /** The answer to a COMMIT or ROLLBACK: not executed, executed, or executed without an answer. */
  datatype EndReply = Unsent | Acknowledged | Lost

  /**
   What happens around one awaited call: the steps that the rest of the system takes before the call is executed,
   whether it is executed, and whether its answer comes back.
   */
  datatype Turn = Turn(others: seq<Step>, sent: bool, answered: bool)

  /** The steps among these that are not p's own. */
  function NotOf(steps: seq<Step>, p: Pid): seq<Step> {
    if steps == [] then []
    else
      var n := |steps| - 1;
      NotOf(steps[..n], p) + if Concerns(steps[n], p) then [] else [steps[n]]
  }

  /** Each of the first n turns has its call executed and answered. */
  ghost predicate AllAnswered(plan: nat -> Turn, n: nat) {
    n > 0 ==> plan(n - 1).sent && plan(n - 1).answered && AllAnswered(plan, n - 1)
  }

  /** Moreover nobody else does anything. */
  ghost predicate AllQuiet(plan: nat -> Turn, n: nat) {
    n > 0 ==> plan(n - 1) == Turn([], true, true) && AllQuiet(plan, n - 1)
  }

  /**
   One call of initiatePayment, the stores it works on, and the rest of the system. All that the call does not
   decide itself is fixed by constants: what happens around each of its awaited calls, what the fraud service
   answers, and how often a blocked INSERT is waited for. The ghost fields record how far this call is in the
   machine and the run since it came in.
   */
  class Payment {
    const pid: Pid
    const req: Request
    const plan: nat -> Turn
    const reply: Reply
    const patience: nat

    var calls: nat                         // the turns that are over
    var db: Db                             // PostgreSQL
    var trx: Trx                           // the uncommitted work of this call's transaction
    var cache: map<string, Row>            // the idempotency keys in Redis
    var keys: map<string, nat>             // the lock keys in Redis, with their expiry
    var now: nat
    var others: map<Pid, Proc>             // the other requests
    var clients: map<Pid, Locks.Client>
    var gone: set<Pid>

    ghost const start: State
    ghost const history: seq<Step>         // from the start to the state in which the call comes in
    ghost const arrived: State
    ghost var trace: seq<Step>
    ghost var mine: Option<Proc>
    ghost var client: Option<Locks.Client>
    ghost var left: bool                   // one of its calls on the locks has thrown

    function Environment(): State
      reads this`db, this`cache, this`keys, this`now, this`others, this`clients, this`gone
    {
      State(db, cache, Locks.State(now, keys, clients, gone), others)
    }

    ghost function View(): State
      reads this
    {
      With(Environment(), pid, mine, client, left)
    }

    ghost predicate SmoothSoFar()
      reads this`calls
    {
      AllAnswered(plan, calls)
    }

    ghost predicate CalmSoFar()
      reads this`calls
    {
      AllQuiet(plan, calls)
    }

    /** The run has come to now; a call that throws is one that the plan does not answer. */
    ghost predicate Tells(run: seq<Step>, now: State)
      reads this`calls
    {
      && now == Run(arrived, run)
      && (SmoothSoFar() ==> Smooth(arrived, run, pid, req, reply))
      && (CalmSoFar() ==> Calm(arrived, run, pid, req, reply))
    }

    /** Up to now the system has run as the machine does; was is what it last recorded. */
    ghost predicate Recorded(was: State)
      reads this`calls, this`trace, this`mine, this`client, this`left
    {
      Absent(was, pid) && Tells(trace, With(was, pid, mine, client, left))
    }

    ghost predicate Valid()
      reads this
    {
      && Recorded(Environment()) && (trx == if mine.Some? then mine.value.trx else NO_TRX)
      && (left ==> mine.Some? && mine.value.pc.Returned?)
    }

    ghost predicate At(pc: Pc)
      reads this
    {
      Valid() && mine.Some? && mine.value.pc == pc && mine.value.req == req
    }

    /** The call comes in after any history. */
    ghost predicate ComesIn() { Initial(start) && arrived == Run(start, history) && Absent(arrived, pid) }

    /** Not called yet. */
    ghost predicate Untouched()
      reads this
    {
      ComesIn() && Valid() && mine.None? && client.None? && trace == [] && calls == 0
    }

    constructor (pid: Pid, req: Request, start: State, history: seq<Step>, plan: nat -> Turn, reply: Reply,
                 patience: nat)
      requires Initial(start) && Absent(Run(start, history), pid)
      ensures Untouched() && this.pid == pid && this.req == req && this.start == start && this.history == history
      ensures this.plan == plan && this.reply == reply && this.patience == patience
      ensures View() == Run(start, history)
    {
      this.pid, this.req, this.plan, this.reply, this.patience, calls := pid, req, plan, reply, patience, 0;
      var s := Run(start, history);
      db, trx, cache, others := s.db, NO_TRX, s.cache, s.procs;
      keys, now, clients, gone := s.locks.keys, s.locks.now, s.locks.clients, s.locks.gone;
      this.start, this.history, arrived := start, history, s;
      trace, mine, client, left := [], None, None, false;
    }

    // -------------------------------------------------------------- the rest of the system

    /** The rest of the system after one more step of its own. */
    lemma OthersTell(was: State, step: Step, s: State)
      requires Recorded(was) && !Concerns(step, pid) && !CalmSoFar() && s == Apply(was, step)
      ensures Absent(s, pid) && Tells(trace + [step], With(s, pid, mine, client, left))
    {
      OthersGoOn(arrived, trace, was, step, pid, mine, client, left);
      OneStepMore(arrived, trace, step, pid, req, reply);
    }

    method Install(s: State)
      modifies this`db, this`cache, this`keys, this`now, this`others, this`clients, this`gone
      ensures Environment() == s
    {
      db, cache, others := s.db, s.cache, s.procs;
      keys, now, clients, gone := s.locks.keys, s.locks.now, s.locks.clients, s.locks.gone;
    }

    method NextState(step: Step) returns (s: State)
      requires Valid() && !Concerns(step, pid) && !CalmSoFar()
      ensures Absent(s, pid) && Tells(trace + [step], With(s, pid, mine, client, left))
    {
      s := Apply(Environment(), step);
      OthersTell(Environment(), step, s);
    }

    method Adopt(s: State, step: Step)
      requires Absent(s, pid) && Tells(trace + [step], With(s, pid, mine, client, left))
      requires trx == if mine.Some? then mine.value.trx else NO_TRX
      requires left ==> mine.Some? && mine.value.pc.Returned?
      modifies this`db, this`cache, this`keys, this`now, this`others, this`clients, this`gone, this`trace
      ensures Valid() && trace == old(trace) + [step]
    {
      Install(s);
      trace := trace + [step];
    }

    /** One step of another request, or time passing, or a cached response expiring, or an account opened. */
    method OtherStep(step: Step)
      requires Valid() && !Concerns(step, pid) && !CalmSoFar()
      modifies this`db, this`cache, this`keys, this`now, this`others, this`clients, this`gone, this`trace
      ensures Valid() && trace == old(trace) + [step]
    {
      var s := NextState(step);
      Adopt(s, step);
    }

    method StartTurn()
      requires Valid()
      modifies this`calls
      ensures Valid() && calls == old(calls) + 1 && (SmoothSoFar() ==> old(SmoothSoFar()))
    {
      calls := calls + 1;
    }

    method OthersTurn(steps: seq<Step>)
      requires Valid() && (steps != [] ==> !CalmSoFar())
      modifies this`db, this`cache, this`keys, this`now, this`others, this`clients, this`gone, this`trace
      ensures Valid() && trace == old(trace) + NotOf(steps, pid)
    {
      for i := 0 to |steps|
        invariant Valid() && trace == old(trace) + NotOf(steps[..i], pid)
      {
        assert steps[..i + 1][..i] == steps[..i];
        if !Concerns(steps[i], pid) { OtherStep(steps[i]); }
      }
      assert steps[..|steps|] == steps;
    }

    /** This request waits for a call to be executed and answered; meanwhile the others go on. */
    method Await() returns (sent: bool, answered: bool)
      requires Valid()
      modifies this`db, this`cache, this`keys, this`now, this`others, this`clients, this`gone, this`trace, this`calls
      ensures Valid() && calls == old(calls) + 1
      ensures sent == plan(old(calls)).sent && answered == (sent && plan(old(calls)).answered)
      ensures SmoothSoFar() ==> sent && answered && old(SmoothSoFar())
      ensures trace == old(trace) + NotOf(plan(old(calls)).others, pid)
    {
      StartTurn();
      var turn := plan(calls - 1);
      OthersTurn(turn.others);
      return turn.sent, turn.sent && turn.answered;
    }

    // -------------------------------------------------------------- the run so far

    /** A step of this call, after which nothing else has changed. */
    lemma OwnStep(was: State, step: Step, now: State)
      requires Tells(trace, was) && now == Apply(was, step)
      requires SmoothSoFar() ==> CalmStep(was, step, pid, req, reply)
      ensures Tells(trace + [step], now)
    {
      RunOneMore(arrived, trace, step);
      OneStepMore(arrived, trace, step, pid, req, reply);
      QuietIsAnswered(plan, calls);
    }

    ghost method Record(step: Step, me: Proc, c: Option<Locks.Client>, l: bool)
      requires Absent(Environment(), pid) && trx == me.trx && (l ==> me.pc.Returned?)
      requires Tells(trace + [step], With(Environment(), pid, Some(me), c, l))
      modifies this`mine, this`client, this`left, this`trace
      ensures Valid() && mine == Some(me) && client == c && left == l
    {
      mine, client, left, trace := Some(me), c, l, trace + [step];
    }

    ghost method Arrived()
      requires Untouched()
      modifies this`mine, this`client, this`left, this`trace
      ensures At(CheckCache) && mine == Some(Newcomer(req)) && client.None?
    {
      var was := Environment();
      OwnStep(With(was, pid, None, None, false), Arrive(pid, req), With(was, pid, Some(Newcomer(req)), None, false));
      Record(Arrive(pid, req), Newcomer(req), None, false);
    }

    /** The INSERT of p's transaction finds its key reserved by another open one. */
    ghost predicate KeyReserved(was: Db)
      reads this`mine
    {
      mine.Some? && mine.value.pc.InsertRow? && req.key in was.keyIndex && was.keyIndex[req.key].Some?
    }

    lemma FailTells(s: State, me: Proc)
      requires Absent(s, pid) && Tells(trace, With(s, pid, Some(me), client, false)) && MayFail(me.pc)
      requires SmoothSoFar() ==> me.pc.InsertRow? && req.key in s.db.keyIndex && s.db.keyIndex[req.key].Some?
      ensures Tells(trace + [Fail(pid)], With(s, pid, Some(Throw(me, StoreError(me.pc))), client, AtLocks(me.pc)))
    {
      OwnFail(s, pid, me, client);
      var was := With(s, pid, Some(me), client, false);
      OwnStep(was, Fail(pid), Apply(was, Fail(pid)));
    }

    /** The next call has thrown without effect; that is in the plan, or it was a wait that was given up. */
    ghost method Failed()
      requires Recorded(Environment()) && !left && mine.Some? && MayFail(mine.value.pc)
      requires SmoothSoFar() ==> KeyReserved(db)
      requires trx == if mine.value.pc.RollBack? then NO_TRX else mine.value.trx
      modifies this`mine, this`client, this`left, this`trace
      ensures Valid() && mine == Some(Throw(old(mine.value), StoreError(old(mine.value.pc))))
      ensures client == old(client) && left == AtLocks(old(mine.value.pc))
    {
      FailTells(Environment(), mine.value);
      Record(Fail(pid), Throw(mine.value, StoreError(mine.value.pc)), client, AtLocks(mine.value.pc));
    }

    ghost method TookDbStep(was: Db, ok: bool)
      requires Recorded(Environment().(db := was)) && !left && mine.Some? && InTrx(mine.value.pc)
      requires SmoothSoFar() ==> ok
      requires var (db', me) := DbStep(was, pid, mine.value, ok); db == db' && trx == me.trx
      modifies this`mine, this`client, this`left, this`trace
      ensures Valid() && mine == Some(DbStep(was, pid, old(mine.value), ok).1) && client == old(client) && !left
    {
      var before, me := Environment().(db := was), DbStep(was, pid, mine.value, ok).1;
      OwnDbStep(before, pid, mine.value, client, reply, ok);
      OwnStep(With(before, pid, mine, client, false), Advance(pid, reply, ok),
              With(Environment(), pid, Some(me), client, false));
      Record(Advance(pid, reply, ok), me, client, false);
    }

    /** A statement of the transaction is over: it was executed or not, and has been answered or has thrown. */
    ghost method StatementIsOver(was: Db, executed: bool, ok: bool)
      requires Recorded(Environment().(db := was)) && !left && (ok ==> executed)
      requires SmoothSoFar() && !ok ==> !executed && KeyReserved(was)
      requires mine.Some? && InTrx(mine.value.pc) && !mine.value.pc.CommitTrx? && !mine.value.pc.RollBack?
      requires var (db', me) := Statement(was, pid, mine.value);
        if executed then db == db' && trx == me.trx else db == was && trx == mine.value.trx
      modifies this`mine, this`client, this`left, this`trace
      ensures Valid() && client == old(client) && !left
      ensures mine == Some(
        if ok then Statement(was, pid, old(mine.value)).1 else Throw(old(mine.value).(trx := trx), DatabaseError))
    {
      if executed { TookDbStep(was, ok); } else { Failed(); }
    }

    ghost method TookPlainStep(was: map<string, Row>, ok: bool)
      requires Recorded(Environment().(cache := was)) && !left && (SmoothSoFar() ==> ok)
      requires mine.Some? && !InTrx(mine.value.pc) && !AtLocks(mine.value.pc)
      requires var (cache', me) := PlainStep(db, was, mine.value, reply, ok); cache == cache' && trx == me.trx
      modifies this`mine, this`client, this`left, this`trace
      ensures Valid() && mine == Some(PlainStep(db, was, old(mine.value), reply, ok).1) && client == old(client)
        && !left
    {
      var before, me := Environment().(cache := was), PlainStep(db, was, mine.value, reply, ok).1;
      OwnPlainStep(before, pid, mine.value, client, reply, ok);
      OwnStep(With(before, pid, mine, client, false), Advance(pid, reply, ok),
              With(Environment(), pid, Some(me), client, false));
      Record(Advance(pid, reply, ok), me, client, false);
    }

    ghost function LocksWere(was: map<string, nat>): Locks.State
      reads this
    {
      Locks.State(now, was, clients, gone)
    }

    ghost method TookLockStep(was: map<string, nat>, ok: bool)
      requires Recorded(Environment().(locks := LocksWere(was))) && !left && (SmoothSoFar() ==> ok)
      requires mine.Some? && AtLocks(mine.value.pc) && (mine.value.pc.LockFirst? || client.Some?)
      requires keys == LockStepWith(LocksWere(was), pid, mine.value, client, ok).0.keys && trx == mine.value.trx
      modifies this`mine, this`client, this`left, this`trace
      ensures Valid() && left == !ok
      ensures var (locks', me) := old(LockStepWith(LocksWere(was), pid, mine.value, client, ok));
        mine == Some(me) && client == ClientOf(locks', pid)
    {
      var before := Environment().(locks := LocksWere(was));
      var (locks', me) := LockStepWith(LocksWere(was), pid, mine.value, client, ok);
      OwnLockStep(before, pid, mine.value, client, reply, ok);
      OwnStep(With(before, pid, mine, client, false), Advance(pid, reply, ok),
              With(Environment(), pid, Some(me), ClientOf(locks', pid), !ok));
      Record(Advance(pid, reply, ok), me, ClientOf(locks', pid), !ok);
    }

    ghost method TookSet(was: map<string, nat>, key: string, ok: bool)
      requires SmoothSoFar() ==> ok
      requires Recorded(Environment().(locks := LocksWere(was))) && !left && mine.Some? && trx == mine.value.trx
      requires SetsNext(mine.value, client, key)
      requires keys == if Locks.Live(LocksWere(was), key) then was else was[key := now + Locks.LOCK_TTL_MS]
      modifies this`mine, this`client, this`left, this`trace
      ensures Valid() && left == !ok
      ensures client == Some(AfterSet(old(mine.value), old(client), key, !Locks.Live(LocksWere(was), key), now))
      ensures mine == Some(if ok then AfterLockCall(old(mine.value), client) else Throw(old(mine.value), RedisError))
    {
      SetCall(LocksWere(was), pid, mine.value, client, key, ok);
      TookLockStep(was, ok);
    }

    ghost method TookDel(was: map<string, nat>, key: string, ok: bool)
      requires SmoothSoFar() ==> ok
      requires Recorded(Environment().(locks := LocksWere(was))) && !left && mine.Some? && trx == mine.value.trx
      requires client.Some? && DeletesNext(mine.value, client.value, key) && keys == was - {key}
      modifies this`mine, this`client, this`left, this`trace
      ensures Valid() && left == !ok && client == Some(AfterDel(old(client.value)))
      ensures mine == Some(if ok then AfterLockCall(old(mine.value), client) else Throw(old(mine.value), RedisError))
    {
      DelCall(LocksWere(was), pid, mine.value, client.value, key, ok);
      TookLockStep(was, ok);
    }

    /** How this call ends when one of its calls on the locks throws. */
    ghost predicate EndedByRedis()
      reads this
    {
      At(Returned) && mine.value.outcome == Rejected(RedisError) && left
    }

    /** A SET is over: it was executed or not, and has been answered or has thrown. */
    ghost method SetIsOver(was: map<string, nat>, key: string, executed: bool, ok: bool)
      requires Recorded(Environment().(locks := LocksWere(was))) && !left && (ok ==> executed) && (SmoothSoFar() ==> ok)
      requires mine.Some? && mine.value.req == req && trx == mine.value.trx && SetsNext(mine.value, client, key)
      requires keys == if executed && !Locks.Live(LocksWere(was), key) then was[key := now + Locks.LOCK_TTL_MS] else was
      modifies this`mine, this`client, this`left, this`trace
      ensures ok ==>
        && Valid() && !left
        && client == Some(AfterSet(old(mine.value), old(client), key, !Locks.Live(LocksWere(was), key), now))
        && mine == Some(AfterLockCall(old(mine.value), client))
      ensures !ok ==> EndedByRedis()
    {
      if executed { TookSet(was, key, ok); } else { Failed(); }
    }

    /** A DEL is over. */
    ghost method DelIsOver(was: map<string, nat>, key: string, executed: bool, ok: bool)
      requires Recorded(Environment().(locks := LocksWere(was))) && !left && (ok ==> executed) && (SmoothSoFar() ==> ok)
      requires mine.Some? && mine.value.req == req && trx == mine.value.trx
      requires client.Some? && DeletesNext(mine.value, client.value, key)
      requires keys == if executed then was - {key} else was
      modifies this`mine, this`client, this`left, this`trace
      ensures ok ==> Valid() && !left && client == Some(AfterDel(old(client.value)))
      ensures ok && old(mine.value).pc.UndoFirst? ==> TurnedAway()
      ensures ok && old(mine.value).pc.UnlockFirst? ==> mine == Some(old(mine.value).(pc := UnlockSecond))
      ensures ok && old(mine.value).pc.UnlockSecond? ==> mine == Some(old(mine.value).(pc := Returned))
      ensures !ok ==> EndedByRedis()
    {
      if executed { TookDel(was, key, ok); } else { Failed(); }
    }

    /** The COMMIT is over. */
    ghost method CommitIsOver(was: Db, end: EndReply)
      requires SmoothSoFar() ==> end.Acknowledged?
      requires Recorded(Environment().(db := was)) && !left && mine.Some? && mine.value.pc.CommitTrx?
      requires if end.Unsent? then db == was && trx == mine.value.trx
               else db == TransferProtocol.Commit(was, pid, mine.value.trx) && trx == NO_TRX
      modifies this`mine, this`client, this`left, this`trace
      ensures Valid() && client == old(client) && mine.Some?
      ensures var me, done := old(mine.value), old(mine.value).(trx := NO_TRX);
        mine.value == match end
          case Unsent => Throw(me, DatabaseError)
          case Acknowledged => done.(pc := CacheResponse, transactionRow := Some(NewRow(pid, me)))
          case Lost => done.(pc := UnlockFirst, outcome := Rejected(DatabaseError))
    {
      if end.Unsent? { Failed(); } else { TookDbStep(was, end.Acknowledged?); }
    }

    /** The ROLLBACK is over. */
    ghost method RollbackIsOver(was: Db, end: EndReply)
      requires SmoothSoFar() ==> end.Acknowledged?
      requires Recorded(Environment().(db := was)) && !left
      requires mine.Some? && mine.value.pc.RollBack? && mine.value.req == req
      requires trx == NO_TRX && db == if end.Unsent? then was else TransferProtocol.Rollback(was, pid)
      modifies this`mine, this`client, this`left, this`trace
      ensures Valid() && client == old(client)
      ensures if end.Acknowledged? then mine == Some(RolledBack(old(mine.value)))
              else At(UnlockFirst) && mine.value.outcome == Rejected(DatabaseError)
    {
      if end.Unsent? { Failed(); } else { TookDbStep(was, end.Acknowledged?); }
    }

    ghost predicate TurnedAway()
      reads this
    {
      && At(Returned) && mine.value.outcome == Rejected(AccountLocked)
      && client.Some? && Locks.Finished(client.value) && !left
    }

    // -------------------------------------------------------------- packages/redis/client.ts

    /** SET key NX EX 10; if it throws it may have been executed all the same. */
    method AcquireLock(key: string, sent: bool, answered: bool) returns (r: Result<bool>)
      requires answered ==> sent
      modifies this`keys
      ensures var free := key in old(keys) ==> old(keys)[key] <= now;
        && keys == (if sent && free then old(keys)[key := now + 10_000] else old(keys))
        && r == if answered then Ok(free) else Thrown(RedisError)
    {
      var acquired := key !in keys || keys[key] <= now;
      if sent && acquired { keys := keys[key := now + Locks.LOCK_TTL_MS]; }
      r := if answered then Ok(acquired) else Thrown(RedisError);
    }

    /** DEL key, whoever has set it. */
    method ReleaseLock(key: string, sent: bool, answered: bool) returns (r: Result<()>)
      requires answered ==> sent
      modifies this`keys
      ensures keys == if sent then old(keys) - {key} else old(keys)
      ensures r == if answered then Ok(()) else Thrown(RedisError)
    {
      if sent { keys := keys - {key}; }
      r := if answered then Ok(()) else Thrown(RedisError);
    }

    method TakeFirst(key: string) returns (r: Result<bool>)
      requires At(LockFirst) && client.None? && key == FirstKey(req)
      modifies this
      ensures r == Ok(true) ==>
        && At(LockSecond) && mine == Some(old(mine.value).(pc := LockSecond)) && client.Some? && client.value.First?
        && client.value.k1 == FirstKey(req) && client.value.k2 == SecondKey(req)
      ensures r == Ok(false) ==> TurnedAway()
      ensures r.Thrown? ==> r.error.RedisError? && EndedByRedis()
    {
      var sent, answered := Await();
      ghost var was := keys;
      r := AcquireLock(key, sent, answered);
      SetIsOver(was, key, sent, answered);
    }

    method TakeSecond(key: string) returns (r: Result<bool>)
      requires At(LockSecond) && client.Some? && client.value.First? && client.value.k2 == key
      modifies this
      ensures r.Ok? ==>
        && At(if r.value then Preload else UndoFirst) && mine == Some(old(mine.value).(pc := mine.value.pc))
        && client.Some? && client.value.k1 == old(client.value.k1) && client.value.k2 == key
        && (if r.value then client.value.Held? else client.value.Undo?)
      ensures r.Thrown? ==> r.error.RedisError? && EndedByRedis()
    {
      var sent, answered := Await();
      ghost var was := keys;
      r := AcquireLock(key, sent, answered);
      SetIsOver(was, key, sent, answered);
    }

    method GiveBackFirst(key: string) returns (r: Result<()>)
      requires At(UndoFirst) && client.Some? && client.value.Undo? && client.value.k1 == key
      modifies this
      ensures r.Ok? ==> TurnedAway()
      ensures r.Thrown? ==> r.error.RedisError? && EndedByRedis()
    {
      var sent, answered := Await();
      ghost var was := keys;
      r := ReleaseLock(key, sent, answered);
      DelIsOver(was, key, sent, answered);
    }

    /** Both keys, or none of them, unless a call throws: then what is set stays set. */
    method AcquireAccountLocks() returns (r: Result<(bool, seq<string>)>)
      requires At(LockFirst) && client.None?
      modifies this
      ensures r.Ok? && r.value.0 ==>
        && At(Preload) && mine == Some(old(mine.value).(pc := Preload))
        && client.Some? && client.value.Held? && r.value.1 == [client.value.k1, client.value.k2]
      ensures r.Ok? && !r.value.0 ==> TurnedAway() && r.value.1 == []
      ensures r.Thrown? ==> r.error.RedisError? && EndedByRedis()
    {
      var sorted := Locks.SortPair(req.from, req.to);
      var lockKey1, lockKey2 := Locks.LockKey(sorted.0), Locks.LockKey(sorted.1);
      var lock1 :- TakeFirst(lockKey1);
      if !lock1 { return Ok((false, [])); }
      var lock2 :- TakeSecond(lockKey2);
      if !lock2 {
        var _ :- GiveBackFirst(lockKey1);
        return Ok((false, []));
      }
      return Ok((true, [lockKey1, lockKey2]));
    }

    method ReleaseOne(key: string) returns (r: Result<()>)
      requires At(UnlockFirst) || At(UnlockSecond)
      requires client.Some? && (if mine.value.pc.UnlockFirst? then client.value.Held? && client.value.k1 == key
                                else client.value.Half? && client.value.k2 == key)
      modifies this
      ensures r.Ok? ==>
        && Valid() && !left && client.Some? && client.value.k2 == old(client.value.k2)
        && (if old(mine.value).pc.UnlockFirst?
            then mine == Some(old(mine.value).(pc := UnlockSecond)) && client.value.Half?
            else mine == Some(old(mine.value).(pc := Returned)) && client.value.Done?)
      ensures r.Thrown? ==> r.error.RedisError? && EndedByRedis()
    {
      var sent, answered := Await();
      ghost var was := keys;
      r := ReleaseLock(key, sent, answered);
      DelIsOver(was, key, sent, answered);
    }

    /** The keys are deleted one after the other; a DEL that throws ends the loop. */
    method ReleaseAllLocks(lockKeys: seq<string>) returns (r: Result<()>)
      requires At(UnlockFirst) && client.Some? && client.value.Held? && lockKeys == [client.value.k1, client.value.k2]
      modifies this
      ensures r.Ok? ==>
        && At(Returned) && mine == Some(old(mine.value).(pc := Returned))
        && !left && client.Some? && client.value.Done?
      ensures r.Thrown? ==> r.error.RedisError? && EndedByRedis()
    {
      ghost var me, k1, k2 := mine.value, lockKeys[0], lockKeys[1];
      for i := 0 to |lockKeys|
        invariant Valid() && mine.Some? && client.Some?
        invariant i == 0 ==> mine == Some(me) && client.value.Held? && client.value.k1 == k1 && client.value.k2 == k2
        invariant i == 1 ==> mine == Some(me.(pc := UnlockSecond)) && client.value.Half? && client.value.k2 == k2
        invariant i == 2 ==> mine == Some(me.(pc := Returned)) && client.value.Done? && !left
      {
        var _ :- ReleaseOne(lockKeys[i]);
      }
      return Ok(());
    }

    // -------------------------------------------------------------- payment.repository.ts, ledger.repository.ts

    /** SELECT ... FOR UPDATE NOWAIT */
    method LockAccount(id: Id, sent: bool, answered: bool) returns (r: Result<Option<Account>>)
      requires answered ==> sent
      modifies this`db
      ensures var (db', result) := TransferProtocol.LockAccount(old(db), pid, id);
        && db == (if sent then db' else old(db))
        && r == if !answered || result.NotAvailable? then Thrown(DatabaseError)
                else Ok(if result.Locked? then Some(result.account) else None)
    {
      if !sent || (id in db.rowLocks && db.rowLocks[id] != pid) { return Thrown(DatabaseError); }
      if id in db.books.accounts { db := db.(rowLocks := db.rowLocks[id := pid]); }
      if !answered { return Thrown(DatabaseError); }
      return Ok(if id in db.books.accounts then Some(db.books.accounts[id]) else None);
    }

    /** UPDATE ... WHERE id AND version; the transaction sees its own writes. */
    method UpdateBalance(id: Id, newBalance: int, currentVersion: nat, sent: bool, answered: bool)
        returns (r: Result<nat>)
      requires answered ==> sent
      modifies this`trx
      ensures var row := if id in old(trx).writes then Some(old(trx).writes[id]) else Committed(id);
        var hit := row.Some? && row.value.version == currentVersion;
        && r == (if answered then Ok(if hit then 1 else 0) else Thrown(DatabaseError))
        && trx == if sent && hit then Written(old(trx), id, row.value, newBalance, currentVersion) else old(trx)
    {
      var row, rows := Visible(db, trx, id), 0;
      if sent && row.Some? && row.value.version == currentVersion {
        trx := trx.(writes := trx.writes[id := row.value.(balance := newBalance, version := currentVersion + 1)]);
        rows := 1;
      }
      r := if answered then Ok(rows) else Thrown(DatabaseError);
    }

    /** UPDATE ... WHERE id, whatever the version. */
    method CreditAccount(id: Id, newBalance: int, currentVersion: nat, sent: bool, answered: bool)
        returns (r: Result<()>)
      requires answered ==> sent
      modifies this`trx
      ensures var row := if id in old(trx).writes then Some(old(trx).writes[id]) else Committed(id);
        trx == if sent && row.Some? then Written(old(trx), id, row.value, newBalance, currentVersion) else old(trx)
      ensures r == if answered then Ok(()) else Thrown(DatabaseError)
    {
      var row := Visible(db, trx, id);
      if sent && row.Some? {
        trx := trx.(writes := trx.writes[id := row.value.(balance := newBalance, version := currentVersion + 1)]);
      }
      r := if answered then Ok(()) else Thrown(DatabaseError);
    }

    /** The committed row of an account. */
    function Committed(id: Id): Option<Account>
      reads this`db
    {
      if id in db.books.accounts then Some(db.books.accounts[id]) else None
    }

    function Written(work: Trx, id: Id, row: Account, newBalance: int, currentVersion: nat): Trx {
      work.(writes := work.writes[id := row.(balance := newBalance, version := currentVersion + 1)])
    }

    /** The INSERT waits for another open transaction with the same key, and may be aborted waiting. */
    method AwaitKey(key: string) returns (sent: bool, answered: bool)
      requires Valid()
      modifies this`db, this`cache, this`keys, this`now, this`others, this`clients, this`gone, this`trace, this`calls
      ensures Valid() && (answered ==> sent) && (SmoothSoFar() ==> answered)
    {
      sent, answered := Await();
      var waits := 0;
      while waits < patience && key in db.keyIndex && db.keyIndex[key].Some?
        invariant Valid() && (SmoothSoFar() ==> answered)
      {
        var _, _ := Await();
        waits := waits + 1;
      }
    }

    method Create(key: string, from: Id, to: Id, amount: int, fraudScore: nat, fraudAction: Action,
                  sent: bool, answered: bool)
        returns (r: Result<Row>)
      requires answered ==> sent
      modifies this`db, this`trx
      ensures var row := Row(pid, key, from, to, amount, fraudScore, fraudAction);
        var inserts := sent && key !in old(db).keyIndex;
        && db == (if inserts then old(db).(keyIndex := old(db).keyIndex[key := Some(pid)]) else old(db))
        && trx == (if inserts then old(trx).(rows := old(trx).rows + [row]) else old(trx))
        && r == if answered && inserts then Ok(row) else Thrown(DatabaseError)
    {
      if !sent || key in db.keyIndex { return Thrown(DatabaseError); }
      var row := Row(pid, key, from, to, amount, fraudScore, fraudAction);
      db := db.(keyIndex := db.keyIndex[key := Some(pid)]);
      trx := trx.(rows := trx.rows + [row]);
      r := if answered then Ok(row) else Thrown(DatabaseError);
    }

    method CreateEntries(transactionId: nat, from: Id, to: Id, amount: int,
                         fromBefore: int, fromAfter: int, toBefore: int, toAfter: int, sent: bool, answered: bool)
        returns (r: Result<()>)
      requires answered ==> sent
      modifies this`trx
      ensures trx == if !sent then old(trx) else old(trx).(entries := old(trx).entries
        + [Entry(transactionId, from, Debit, amount, fromBefore, fromAfter),
           Entry(transactionId, to, Credit, amount, toBefore, toAfter)])
      ensures r == if answered then Ok(()) else Thrown(DatabaseError)
    {
      if sent {
        var debit := Entry(transactionId, from, Debit, amount, fromBefore, fromAfter);
        var credit := Entry(transactionId, to, Credit, amount, toBefore, toAfter);
        trx := trx.(entries := trx.entries + [debit, credit]);
      }
      r := if answered then Ok(()) else Thrown(DatabaseError);
    }

    method InsertFraudSignals(transactionId: nat, signals: seq<Signal>, sent: bool, answered: bool)
        returns (r: Result<()>)
      requires (answered ==> sent) && (|signals| == 0 ==> answered)
      modifies this`trx
      ensures trx == if !sent then old(trx)
        else old(trx).(signals := old(trx).signals + SignalRows(transactionId, signals))
      ensures r == if answered then Ok(()) else Thrown(DatabaseError)
    {
      if |signals| == 0 {
        assert trx.signals + SignalRows(transactionId, signals) == trx.signals;
        return Ok(());
      }
      if sent { trx := trx.(signals := trx.signals + SignalRows(transactionId, signals)); }
      r := if answered then Ok(()) else Thrown(DatabaseError);
    }

    method Commit(sent: bool, answered: bool) returns (end: EndReply)
      modifies this`db, this`trx
      ensures end == if !sent then Unsent else if answered then Acknowledged else Lost
      ensures end.Unsent? ==> db == old(db) && trx == old(trx)
      ensures !end.Unsent? ==> db == TransferProtocol.Commit(old(db), pid, old(trx)) && trx == NO_TRX
    {
      if !sent { return Unsent; }
      db, trx := TransferProtocol.Commit(db, pid, trx), NO_TRX;
      return if answered then Acknowledged else Lost;
    }

    /** If it is not executed the transaction stays open, but nobody works on it any more. */
    method Rollback(sent: bool, answered: bool) returns (end: EndReply)
      modifies this`db, this`trx
      ensures end == if !sent then Unsent else if answered then Acknowledged else Lost
      ensures trx == NO_TRX && db == if end.Unsent? then old(db) else TransferProtocol.Rollback(old(db), pid)
    {
      trx := NO_TRX;
      if !sent { return Unsent; }
      db := TransferProtocol.Rollback(db, pid);
      return if answered then Acknowledged else Lost;
    }

    // -------------------------------------------------------------- inside the database transaction

    method ReadSender() returns (r: Result<Account>)
      requires At(LockSender)
      modifies this
      ensures Valid() && client == old(client)
      ensures mine == Some(if r.Ok? then old(mine.value).(pc := LockRecipient, sender := r.value)
        else Throw(old(mine.value), r.error))
    {
      var sent, answered := Await();
      ghost var was := db;
      var row := LockAccount(req.from, sent, answered);
      StatementIsOver(was, sent, answered);
      if row.Thrown? { return Thrown(row.error); }
      if row.value.None? { return Thrown(SenderNotFound); }
      if !row.value.value.status.Active? { return Thrown(AccountFrozen); }
      return Ok(row.value.value);
    }

    method ReadRecipient(fromAccount: Account) returns (r: Result<Account>)
      requires At(LockRecipient) && mine.value.sender == fromAccount
      modifies this
      ensures Valid() && client == old(client)
      ensures mine == Some(if r.Ok? then old(mine.value).(pc := DebitSender, recipient := r.value)
        else Throw(old(mine.value), r.error))
    {
      var sent, answered := Await();
      ghost var was := db;
      var row := LockAccount(req.to, sent, answered);
      StatementIsOver(was, sent, answered);
      if row.Thrown? { return Thrown(row.error); }
      if row.value.None? { return Thrown(RecipientNotFound); }
      if !row.value.value.status.Active? { return Thrown(AccountFrozen); }
      if fromAccount.balance < req.amount { return Thrown(InsufficientBalance); }
      return Ok(row.value.value);
    }

    method WriteSender(fromAccount: Account) returns (r: Result<()>)
      requires At(DebitSender) && mine.value.sender == fromAccount
      modifies this
      ensures Valid() && client == old(client)
      ensures mine == Some(if r.Ok? then old(mine.value).(pc := CreditRecipient, trx := trx)
        else Throw(old(mine.value).(trx := trx), r.error))
    {
      var sent, answered := Await();
      var newBalance := fromAccount.balance - req.amount;
      var rowsUpdated := UpdateBalance(req.from, newBalance, fromAccount.version, sent, answered);
      StatementIsOver(db, sent, answered);
      if rowsUpdated.Thrown? { return Thrown(rowsUpdated.error); }
      if rowsUpdated.value == 0 { return Thrown(ConcurrentModification); }
      return Ok(());
    }

    method WriteRecipient(toAccount: Account) returns (r: Result<()>)
      requires At(CreditRecipient) && mine.value.recipient == toAccount
      modifies this
      ensures Valid() && client == old(client)
      ensures mine == Some(if r.Ok? then old(mine.value).(pc := InsertRow, trx := trx)
        else Throw(old(mine.value).(trx := trx), r.error))
    {
      var sent, answered := Await();
      r := CreditAccount(req.to, toAccount.balance + req.amount, toAccount.version, sent, answered);
      StatementIsOver(db, sent, answered);
    }

    method RecordTransaction(fraud: FraudResult) returns (r: Result<Row>)
      requires At(InsertRow) && mine.value.fraud == fraud
      modifies this
      ensures Valid() && client == old(client)
      ensures r.Ok? ==> r.value == NewRow(pid, old(mine.value))
      ensures mine == Some(if r.Ok? then old(mine.value).(pc := InsertLedger, trx := trx)
        else Throw(old(mine.value).(trx := trx), r.error))
    {
      var sent, answered := AwaitKey(req.key);
      ghost var was, waiting := db, KeyReserved(db);
      r := Create(req.key, req.from, req.to, req.amount, fraud.score, fraud.action, sent, answered);
      StatementIsOver(was, sent && !waiting, answered && !waiting);
    }

    method RecordEntries(row: Row, fromAccount: Account, toAccount: Account) returns (r: Result<()>)
      requires At(InsertLedger) && row == NewRow(pid, mine.value)
      requires mine.value.sender == fromAccount && mine.value.recipient == toAccount
      modifies this
      ensures Valid() && client == old(client)
      ensures mine == Some(if r.Ok? then old(mine.value).(pc := InsertSignals, trx := trx)
        else Throw(old(mine.value).(trx := trx), r.error))
    {
      var sent, answered := Await();
      r := CreateEntries(row.id, req.from, req.to, req.amount,
                         fromAccount.balance, fromAccount.balance - req.amount,
                         toAccount.balance, toAccount.balance + req.amount, sent, answered);
      StatementIsOver(db, sent, answered);
    }

    method RecordSignals(row: Row, fraud: FraudResult) returns (r: Result<()>)
      requires At(InsertSignals) && row == NewRow(pid, mine.value) && mine.value.fraud == fraud
      modifies this
      ensures Valid() && client == old(client)
      ensures mine == Some(if r.Ok? then old(mine.value).(pc := CommitTrx, trx := trx)
        else Throw(old(mine.value).(trx := trx), r.error))
    {
      var sent, answered := true, true;
      if |fraud.signals| > 0 { sent, answered := Await(); }
      r := InsertFraudSignals(row.id, fraud.signals, sent, answered);
      StatementIsOver(db, sent, answered);
    }

    /** The exception is on its way to the ROLLBACK; me is where the transaction was before. */
    ghost predicate Aborting(me: Proc, e: Error)
      reads this
    {
      At(RollBack) && mine.value.outcome == Rejected(e) && SameTransfer(me, mine.value)
    }

    method ReadAccounts() returns (r: Result<(Account, Account)>)
      requires At(LockSender)
      modifies this
      ensures client == old(client)
      ensures r.Ok? ==>
        && At(DebitSender) && mine.value.sender == r.value.0 && mine.value.recipient == r.value.1
        && mine.value.outcome == old(mine.value.outcome) && SameTransfer(old(mine.value), mine.value)
      ensures r.Thrown? ==> Aborting(old(mine.value), r.error)
    {
      var fromAccount :- ReadSender();
      var toAccount :- ReadRecipient(fromAccount);
      return Ok((fromAccount, toAccount));
    }

    method MoveMoney(fromAccount: Account, toAccount: Account) returns (r: Result<()>)
      requires At(DebitSender) && mine.value.sender == fromAccount && mine.value.recipient == toAccount
      modifies this
      ensures client == old(client)
      ensures r.Ok? ==> At(InsertRow) && mine == Some(old(mine.value).(pc := InsertRow, trx := trx))
      ensures r.Thrown? ==> Aborting(old(mine.value), r.error)
    {
      var _ :- WriteSender(fromAccount);
      r := WriteRecipient(toAccount);
    }

    method RecordTransfer(fraud: FraudResult, fromAccount: Account, toAccount: Account) returns (r: Result<Row>)
      requires At(InsertRow) && mine.value.fraud == fraud
      requires mine.value.sender == fromAccount && mine.value.recipient == toAccount
      modifies this
      ensures client == old(client)
      ensures r.Ok? ==>
        && At(CommitTrx) && mine == Some(old(mine.value).(pc := CommitTrx, trx := trx))
        && r.value == NewRow(pid, mine.value)
      ensures r.Thrown? ==> Aborting(old(mine.value), r.error)
    {
      var newTransaction :- RecordTransaction(fraud);
      var _ :- RecordEntries(newTransaction, fromAccount, toAccount);
      var _ :- RecordSignals(newTransaction, fraud);
      return Ok(newTransaction);
    }

    /** The callback given to db.transaction. */
    method TransferWithin(fraud: FraudResult) returns (r: Result<Row>)
      requires At(LockSender) && mine.value.fraud == fraud
      modifies this
      ensures client == old(client) && mine.Some? && SameTransfer(old(mine.value), mine.value)
      ensures r.Ok? ==>
        && At(CommitTrx) && r.value == NewRow(pid, mine.value)
        && mine.value.outcome == old(mine.value.outcome)
      ensures r.Thrown? ==> At(RollBack) && mine.value.outcome == Rejected(r.error)
    {
      var accounts :- ReadAccounts();
      var _ :- MoveMoney(accounts.0, accounts.1);
      r := RecordTransfer(fraud, accounts.0, accounts.1);
    }

    /** A ROLLBACK that throws hides what it was for. */
    method UndoTransaction() returns (r: Result<()>)
      requires At(RollBack)
      modifies this
      ensures Valid() && client == old(client)
      ensures r.Ok? ==> mine == Some(RolledBack(old(mine.value)))
      ensures r.Thrown? ==> r.error.DatabaseError? && At(UnlockFirst) && mine.value.outcome == Rejected(DatabaseError)
    {
      var sent, answered := Await();
      ghost var was := db;
      var end := Rollback(sent, answered);
      RollbackIsOver(was, end);
      r := if end.Acknowledged? then Ok(()) else Thrown(DatabaseError);
    }

    method AskToCommit() returns (end: EndReply)
      requires At(CommitTrx)
      modifies this
      ensures Valid() && client == old(client) && mine.Some?
      ensures var me, done := old(mine.value), old(mine.value).(trx := NO_TRX);
        mine.value == match end
          case Unsent => Throw(me, DatabaseError)
          case Acknowledged => done.(pc := CacheResponse, transactionRow := Some(NewRow(pid, me)))
          case Lost => done.(pc := UnlockFirst, outcome := Rejected(DatabaseError))
    {
      var sent, answered := Await();
      ghost var was := db;
      end := Commit(sent, answered);
      CommitIsOver(was, end);
    }

    /** A refused COMMIT is rolled back; to the caller a lost answer is the same error. */
    method CommitTransaction(row: Row) returns (r: Result<Row>)
      requires At(CommitTrx) && row == NewRow(pid, mine.value) && mine.value.outcome.Undecided?
      modifies this
      ensures client == old(client)
      ensures r.Ok? ==> r.value == row && At(CacheResponse) && mine.value.transactionRow == Some(row)
      ensures r.Thrown? ==> r.error.DatabaseError? && At(UnlockFirst) && mine.value.outcome == Rejected(r.error)
    {
      var end := AskToCommit();
      if end.Acknowledged? { return Ok(row); }
      if end.Unsent? { var _ := UndoTransaction(); }
      return Thrown(DatabaseError);
    }

    /** db.transaction: COMMIT when the callback returns, ROLLBACK when it throws. */
    method Transaction(fraud: FraudResult) returns (r: Result<Row>)
      requires At(LockSender) && mine.value.fraud == fraud && mine.value.outcome.Undecided?
        && mine.value.transactionRow.None?
      modifies this
      ensures client == old(client) && mine.Some?
      ensures r.Ok? ==> At(CacheResponse) && mine.value.transactionRow == Some(r.value)
      ensures r == Thrown(ConcurrentModification) && old(mine.value.retries) < 2 ==>
        && At(LockSender) && mine.value.retries == old(mine.value.retries) + 1
        && mine.value.fraud == fraud && mine.value.outcome.Undecided? && mine.value.transactionRow.None?
      ensures r.Thrown? && !(r.error.ConcurrentModification? && old(mine.value.retries) < 2) ==>
        At(UnlockFirst) && mine.value.outcome == Rejected(r.error)
    {
      r := TransferWithin(fraud);
      if r.Thrown? {
        var undone := UndoTransaction();
        if undone.Thrown? { r := Thrown(undone.error); }
        return;
      }
      r := CommitTransaction(r.value);
    }

    /** The retry loop; the wait between two attempts is one more moment for the others. */
    method TransferWithRetries(fraud: FraudResult) returns (r: Result<Row>)
      requires At(LockSender) && mine.value.fraud == fraud && mine.value.retries == 0
      requires mine.value.outcome.Undecided? && mine.value.transactionRow.None?
      modifies this
      ensures client == old(client) && mine.Some?
      ensures r.Ok? ==> At(CacheResponse) && mine.value.transactionRow == Some(r.value)
      ensures r.Thrown? ==> At(UnlockFirst) && mine.value.outcome == Rejected(r.error)
    {
      var retries := 0;
      var transactionRow: Option<Row> := None;
      while retries < 3
        invariant client == old(client) && retries <= 2 && transactionRow.None?
        invariant At(LockSender) && mine.value.fraud == fraud && mine.value.retries == retries
        invariant mine.value.outcome.Undecided? && mine.value.transactionRow.None?
      {
        r := Transaction(fraud);
        if r.Ok? {
          transactionRow := Some(r.value);
          break;
        }
        if r.error.ConcurrentModification? && retries < 2 {
          retries := retries + 1;
          var _, _ := Await();
          continue;
        }
        return;
      }
      if transactionRow.None? {
        assert false;                      // the loop is left only with a row or by an exception
      }
    }

    // -------------------------------------------------------------- outside the database transaction

    method IdempotencyGet(key: string, answered: bool) returns (r: Result<Option<Row>>)
      ensures r == if !answered then Thrown(RedisError) else Ok(if key in cache then Some(cache[key]) else None)
    {
      if !answered { return Thrown(RedisError); }
      return Ok(if key in cache then Some(cache[key]) else None);
    }

    /** SETEX; if it throws it may have been executed all the same. */
    method IdempotencySet(key: string, row: Row, sent: bool, answered: bool) returns (r: Result<()>)
      requires answered ==> sent
      modifies this`cache
      ensures cache == if sent then old(cache)[key := row] else old(cache)
      ensures r == if answered then Ok(()) else Thrown(RedisError)
    {
      if sent { cache := cache[key := row]; }
      r := if answered then Ok(()) else Thrown(RedisError);
    }

    /** An exception has left the try block. */
    ghost predicate Leaving<T>(r: Result<T>)
      reads this
    {
      r.Thrown? ==> At(UnlockFirst) && mine.value.outcome == Rejected(r.error)
    }

    /** Both accounts must exist; what is read here is not used for the transfer. */
    method LoadAccounts() returns (r: Result<()>)
      requires At(Preload)
      modifies this
      ensures Valid() && client == old(client) && Leaving(r)
      ensures mine == Some(if r.Ok? then old(mine.value).(pc := FraudCheck) else Throw(old(mine.value), r.error))
    {
      var _, answered := Await();
      TookPlainStep(cache, answered);
      if !answered { return Thrown(DatabaseError); }
      if req.from !in db.books.accounts { return Thrown(SenderNotFound); }
      if req.to !in db.books.accounts { return Thrown(RecipientNotFound); }
      return Ok(());
    }

    /** The fraud service answers anything or nothing at all; that a payment is blocked is published first. */
    method CheckFraud() returns (r: Result<FraudResult>)
      requires At(FraudCheck)
      modifies this
      ensures Valid() && client == old(client) && Leaving(r)
      ensures r.Ok? ==> !Blocked(r.value)
      ensures mine == Some(if r.Ok? then old(mine.value).(pc := LockSender, fraud := r.value)
        else Throw(old(mine.value), r.error))
    {
      var _, published := Await();
      var fraudResult := RunFraudCheck(reply);
      TookPlainStep(cache, published);
      if fraudResult.action.Decline? || fraudResult.action.Challenge? {
        return Thrown(if published then FraudBlocked(fraudResult.score) else KafkaError);
      }
      return Ok(fraudResult);
    }

    method Screen() returns (r: Result<FraudResult>)
      requires At(Preload)
      modifies this
      ensures Valid() && client == old(client)
      ensures r.Ok? ==> mine == Some(old(mine.value).(pc := LockSender, fraud := r.value))
      ensures r.Thrown? ==> At(UnlockFirst) && mine.value.outcome == Rejected(r.error)
    {
      var _ :- LoadAccounts();
      r := CheckFraud();
    }

    method RememberResponse(row: Row) returns (r: Result<()>)
      requires At(CacheResponse) && mine.value.transactionRow == Some(row)
      modifies this
      ensures Valid() && client == old(client) && Leaving(r)
      ensures mine == Some(if r.Ok? then old(mine.value).(pc := FlushReads) else Throw(old(mine.value), r.error))
    {
      var sent, answered := Await();
      ghost var was := cache;
      r := IdempotencySet(req.key, row, sent, answered);
      if sent { TookPlainStep(was, answered); } else { Failed(); }
    }

    /** The eight DELs of cached reads, of which only the failure matters here. */
    method DropReadCaches(row: Row) returns (r: Result<()>)
      requires At(FlushReads) && mine.value.transactionRow == Some(row)
      modifies this
      ensures Valid() && client == old(client) && Leaving(r)
      ensures mine == Some(if r.Ok? then old(mine.value).(pc := UnlockFirst, outcome := Succeeded(row))
        else Throw(old(mine.value), r.error))
    {
      var _, answered := Await();
      TookPlainStep(cache, answered);
      return if answered then Ok(()) else Thrown(RedisError);
    }

    method Conclude(transaction: Row) returns (r: Result<Response>)
      requires At(CacheResponse) && mine.value.transactionRow == Some(transaction)
      modifies this
      ensures At(UnlockFirst) && client == old(client)
      ensures mine.value.outcome == if r.Ok? then Succeeded(r.value.data) else Rejected(r.error)
      ensures r.Ok? ==> r.value == Response(transaction, false, 201)
    {
      var _ :- RememberResponse(transaction);
      var _ :- DropReadCaches(transaction);
      return Ok(Response(transaction, false, 201));
    }

    /** The body of the try statement. */
    method TransferUnderLocks() returns (r: Result<Response>)
      requires At(Preload) && mine.value.retries == 0 && mine.value.outcome.Undecided?
        && mine.value.transactionRow.None?
      modifies this
      ensures At(UnlockFirst) && client == old(client)
      ensures mine.value.outcome == if r.Ok? then Succeeded(r.value.data) else Rejected(r.error)
      ensures r.Ok? ==> !r.value.fromCache && r.value.statusCode == 201
    {
      var fraudResult :- Screen();
      var transaction :- TransferWithRetries(fraudResult);
      r := Conclude(transaction);
    }

    /**
     Whatever the rest of the system does meanwhile: the call returns with its locks released and no row
     locked, unless a call on the locks or the ROLLBACK threw, which the caller then gets to see; the money
     has moved once if it succeeds, not at all if it is replayed, and if it is rejected exactly when a late
     call has thrown; the caller never sees CONCURRENT_MODIFICATION; and the books are sound. Every refusal has
     met its cause. If nothing throws and nobody else acts while it runs, the answer is the verdict on the state
     in which the call came in, and the books are one transfer further or unchanged.
     */
    method InitiatePayment() returns (r: Result<Response>)
      requires Untouched()
      modifies this
      ensures At(Returned) && HoldsNoRowUnless(r) && ReleasedUnless(r)
      ensures Sound(start.db.books, db.books)
      ensures r.Ok? ==> Stored(db, r.value.data, req.key)
      ensures r.Ok? && !r.value.fromCache ==> r.value.data.id == pid
      ensures forall row :: row in db.books.rows && row.id == pid ==> AskedFor(row, req)
      ensures r.Ok? && r.value.fromCache ==> !Charged(db, pid)
      ensures r.Thrown? ==> (Charged(db, pid) <==> FailedLate(start, history + trace, pid))
      ensures r.Thrown? && !r.error.DatabaseError? && !r.error.RedisError? ==> !Charged(db, pid)
      ensures r.Thrown? ==> !r.error.ConcurrentModification?
      ensures CalmSoFar() ==> GivesTheVerdict(old(View()), r)
      ensures r.Thrown? ==> MetCause(old(View()), trace, pid, r.error)
      ensures r.Thrown? && SmoothSoFar() ==>
        && !r.error.RedisError? && !r.error.KafkaError?
        && FoundCause(old(View()), trace, pid, req, r.error)
    {
      assert View() == arrived;
      r := Respond();
      Guarantees(r);
      Reasons(r);
    }

    method Respond() returns (r: Result<Response>)
      requires Untouched()
      modifies this
      ensures At(Returned) && ReleasedUnless(r)
      ensures Answers(r, mine.value.outcome)
    {
      Arrived();
      var cached :- LookUp();
      if cached.Some? { return Ok(Response(cached.value, true, 200)); }

      if req.amount < MIN_TRANSFER_PAISE { return Thrown(Validation); }
      if req.amount > MAX_TRANSFER_PAISE { return Thrown(Validation); }
      if req.from == req.to { return Thrown(Validation); }

      r := Pay();
    }

    method Pay() returns (r: Result<Response>)
      requires At(LockFirst) && client.None? && mine.value.retries == 0
      requires mine.value.outcome.Undecided? && mine.value.transactionRow.None?
      modifies this
      ensures At(Returned) && ReleasedUnless(r)
      ensures Answers(r, mine.value.outcome)
    {
      var locks :- AcquireAccountLocks();
      if !locks.0 { return Thrown(AccountLocked); }

      r := TransferUnderLocks();
      var _ :- ReleaseAllLocks(locks.1);
    }

    ghost predicate EndedBeforeLocks(o: Outcome)
      reads this
    {
      At(Returned) && mine.value.outcome == o && client.None? && !left
    }

    /** The cache check; what the cache holds decides together with the request where the code goes on. */
    method LookUp() returns (r: Result<Option<Row>>)
      requires At(CheckCache) && client.None?
      modifies this
      ensures r.Thrown? ==> EndedBeforeLocks(Rejected(r.error))
      ensures r.Ok? && r.value.Some? ==> EndedBeforeLocks(Replayed(r.value.value))
      ensures r == Ok(None) && !ValidTerms(req.from, req.to, req.amount) ==> EndedBeforeLocks(Rejected(Validation))
      ensures r == Ok(None) && ValidTerms(req.from, req.to, req.amount) ==>
        At(LockFirst) && mine == Some(old(mine.value).(pc := LockFirst)) && client.None?
    {
      var _, answered := Await();
      r := IdempotencyGet(req.key, answered);
      if answered { TookPlainStep(cache, true); } else { Failed(); }
    }

    /** The Redis locks are gone, unless one of the calls on them threw. */
    ghost predicate ReleasedUnless(r: Result<Response>)
      reads this
    {
      if left then r == Thrown(RedisError) else client.Some? ==> Locks.Finished(client.value)
    }

    /** What the theorems about the machine say of this call once it has returned. */
    lemma Guarantees(r: Result<Response>)
      requires ComesIn() && At(Returned) && Answers(r, mine.value.outcome)
      ensures HoldsNoRowUnless(r) && Sound(start.db.books, db.books)
      ensures r.Ok? ==> Stored(db, r.value.data, req.key)
      ensures r.Ok? && !r.value.fromCache ==> r.value.data.id == pid
      ensures forall row :: row in db.books.rows && row.id == pid ==> AskedFor(row, req)
      ensures r.Ok? && r.value.fromCache ==> !Charged(db, pid)
      ensures r.Thrown? ==> (Charged(db, pid) <==> FailedLate(start, history + trace, pid))
      ensures r.Thrown? && !r.error.DatabaseError? && !r.error.RedisError? ==> !Charged(db, pid)
      ensures r.Thrown? ==> !r.error.ConcurrentModification?
    {
      RunAppend(start, history, trace);
      ReturnedIsSound(start, history + trace, View(), pid);
    }

    /** The answer to an undisturbed call, and what it does to the books. */
    ghost predicate GivesTheVerdict(was: State, r: Result<Response>)
      reads this
    {
      && Answers(r, Verdict(was, pid, req, reply))
      && if r.Ok? && !r.value.fromCache
         then Moved(was.db.books, db.books, pid, req, reply) && cache == was.cache[req.key := r.value.data]
         else db.books == was.db.books && cache == was.cache
    }

    lemma Reasons(r: Result<Response>)
      requires ComesIn() && At(Returned) && Answers(r, mine.value.outcome)
      ensures CalmSoFar() ==> GivesTheVerdict(arrived, r)
      ensures r.Thrown? ==> MetCause(arrived, trace, pid, r.error)
      ensures r.Thrown? && SmoothSoFar() ==>
        !r.error.RedisError? && !r.error.KafkaError? && FoundCause(arrived, trace, pid, req, r.error)
    {
      RunKeepsInv(start, history);
      RunKeepsKeysFit(start, history);
      if CalmSoFar() { CalmRunGivesTheVerdict(arrived, trace, pid, req, reply); }
      if r.Thrown? {
        RefusalHasItsCause(arrived, trace, pid, r.error);
        if SmoothSoFar() { SmoothRefusalHasItsCause(arrived, trace, pid, req, reply, r.error); }
      }
    }

    /** No row lock and no reserved key is left, unless the ROLLBACK failed, which the caller gets to see. */
    ghost predicate HoldsNoRowUnless(r: Result<Response>)
      reads this
    {
      if pid in Dangling(start, history + trace) then r == Thrown(DatabaseError) || r == Thrown(RedisError)
      else HoldsNoRow()
    }

    ghost predicate HoldsNoRow()
      reads this
    {
      && (forall id :: id in db.rowLocks ==> db.rowLocks[id] != pid)
      && (forall k :: k in db.keyIndex ==> db.keyIndex[k] != Some(pid))
    }
  }

  /** What a request leaves behind on a run of the machine. */
  lemma ReturnedIsSound(start: State, run: seq<Step>, s: State, p: Pid)
    requires Initial(start) && s == Run(start, run) && p in s.procs && s.procs[p].pc.Returned?
    ensures Sound(start.db.books, s.db.books) && ProcOk(s.db, p, s.procs[p])
    ensures forall row :: row in s.db.books.rows && row.id == p ==> AskedFor(row, s.procs[p].req)
    ensures s.procs[p].outcome.Rejected? ==> (Charged(s.db, p) <==> FailedLate(start, run, p))
    ensures p !in Dangling(start, run) ==>
      && (forall id :: id in s.db.rowLocks ==> s.db.rowLocks[id] != p)
      && (forall k :: k in s.db.keyIndex ==> s.db.keyIndex[k] != Some(p))
    ensures p in Dangling(start, run) ==>
      s.procs[p].outcome == Rejected(DatabaseError) || s.procs[p].outcome == Rejected(RedisError)
  {
    BooksAreSound(start, run);
    RunKeepsInv(start, run);
    RunKeepsOwners(start, run);
    if s.procs[p].outcome.Rejected? { RejectedYetChargedIff(start, run, p); }
  }

  lemma QuietIsAnswered(plan: nat -> Turn, n: nat)
    ensures AllQuiet(plan, n) ==> AllAnswered(plan, n)
  {}

  /** What no statement of the transaction changes. */
  predicate SameTransfer(me: Proc, now: Proc) {
    now.retries == me.retries && now.fraud == me.fraud && now.transactionRow == me.transactionRow
  }

  /** The caller's view of an outcome. */
  predicate Answers(r: Result<Response>, o: Outcome) {
    match r
    case Ok(Response(row, true, code)) => o == Replayed(row) && code == 200
    case Ok(Response(row, false, code)) => o == Succeeded(row) && code == 201
    case Thrown(e) => o == Rejected(e)
  }
}
