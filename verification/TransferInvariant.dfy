/**
 The inductive invariant of the transfer protocol. Its heart is ProcOk: what an open transaction has read is
 still what the database stores, because it holds the row locks of what it has read. Redis plays no part.
 */
module TransferInvariant {
  import opened Prelude
  import opened FraudEngine
  import opened Books
  import opened TransferProtocol

  /** How many of the transaction's statements have been executed. */
  function Phase(pc: Pc): nat
    requires InTrx(pc) && !pc.RollBack?
  {
    match pc
    case LockSender => 0
    case LockRecipient => 1
    case DebitSender => 2
    case CreditRecipient => 3
    case InsertRow => 4
    case InsertLedger => 5
    case InsertSignals => 6
    case CommitTrx => 7
  }

  function Debited(pr: Proc): Account {
    pr.sender.(balance := pr.sender.balance - pr.req.amount, version := pr.sender.version + 1)
  }

  function Credited(pr: Proc): Account {
    pr.recipient.(balance := pr.recipient.balance + pr.req.amount, version := pr.recipient.version + 1)
  }

  /** What an undisturbed transaction has written after a given number of statements. */
  function Expected(p: Pid, pr: Proc, phase: nat): Trx {
    Trx(
      if phase < 3 then map[]
      else if phase < 4 then map[pr.req.from := Debited(pr)]
      else map[pr.req.from := Debited(pr), pr.req.to := Credited(pr)],
      if phase < 5 then [] else [NewRow(p, pr)],
      if phase < 6 then [] else EntryPair(NewRow(p, pr), pr.sender.balance, pr.recipient.balance),
      if phase < 7 then [] else SignalRows(p, pr.fraud.signals))
  }

  /** p holds the row lock of an active account and has read what is stored there. */
  ghost predicate HasRead(db: Db, p: Pid, id: Id, a: Account) {
    && id in db.rowLocks && db.rowLocks[id] == p
    && id in db.books.accounts && db.books.accounts[id] == a && a.status.Active?
  }

  ghost predicate TrxOk(db: Db, p: Pid, pr: Proc)
    requires InTrx(pr.pc) && !pr.pc.RollBack?
  {
    var phase := Phase(pr.pc);
    && pr.trx == Expected(p, pr, phase)
    && pr.fraud.score == Sum(pr.fraud.signals) < 60
    && pr.fraud.action == (if pr.fraud.score < 30 then Approve else Review)
    && (phase >= 1 ==> HasRead(db, p, pr.req.from, pr.sender))
    && (phase >= 2 ==> HasRead(db, p, pr.req.to, pr.recipient) && pr.req.amount <= pr.sender.balance)
    && (phase >= 5 ==> pr.req.key in db.keyIndex && db.keyIndex[pr.req.key] == Some(p))
  }

  ghost predicate Stored(db: Db, row: Row, key: string) { row in db.books.rows && row.key == key }

  predicate AfterCommit(pc: Pc) {
    pc.CacheResponse? || pc.FlushReads? || pc.UnlockFirst? || pc.UnlockSecond? || pc.Returned?
  }

  ghost predicate ProcOk(db: Db, p: Pid, pr: Proc) {
    && (!pr.pc.CheckCache? && !pr.pc.Returned? ==> ValidTerms(pr.req.from, pr.req.to, pr.req.amount))
    && pr.retries == 0 && pr.outcome != Rejected(ConcurrentModification)
    && (InTrx(pr.pc) && !pr.pc.RollBack? ==> TrxOk(db, p, pr))
    && (!InTrx(pr.pc) ==> pr.trx == NO_TRX)
    && (!AfterCommit(pr.pc) ==> pr.transactionRow.None? && forall r :: r in db.books.rows ==> r.id != p)
    && (pr.pc.CacheResponse? || pr.pc.FlushReads? ==> pr.transactionRow.Some?)
    && (pr.transactionRow.Some? ==> pr.transactionRow.value == NewRow(p, pr) && Stored(db, NewRow(p, pr), pr.req.key))
    && (pr.outcome.Replayed? ==> Stored(db, pr.outcome.row, pr.req.key))
    && (pr.outcome.Succeeded? ==> pr.transactionRow == Some(pr.outcome.row))
    && (!Ending(pr.pc) ==> pr.outcome.Undecided?)
    && (NotCharged(pr.outcome) ==> forall r :: r in db.books.rows ==> r.id != p)
  }

  predicate Ending(pc: Pc) { pc.RollBack? || pc.UnlockFirst? || pc.UnlockSecond? || pc.Returned? }

  /** The answers that leave no doubt that this request moved no money. */
  predicate NotCharged(o: Outcome) {
    o.Replayed? || (o.Rejected? && !o.error.DatabaseError? && !o.error.RedisError?)
  }

  /** The place in the code agrees with how far the acquisition of the Redis locks has come. */
  predicate LocksFit(pc: Pc, client: Option<Locks.Client>) {
    if pc.CheckCache? || pc.LockFirst? then client.None?
    else if pc.Returned? then client.None? || Locks.Finished(client.value)
    else
      && client.Some?
      && (if pc.LockSecond? then client.value.First?
          else if pc.UndoFirst? then client.value.Undo?
          else if pc.UnlockSecond? then client.value.Half?
          else client.value.Held?)
  }

  /** The row is what the request asks for. */
  predicate AskedFor(r: Row, req: Request) {
    (r.key, r.from, r.to, r.amount) == (req.key, req.from, req.to, req.amount)
  }

  ghost predicate DbOk(db: Db) {
    forall r :: r in db.books.rows ==> r.key in db.keyIndex && db.keyIndex[r.key].None?
  }

  ghost predicate Inv(s: State) {
    && DbOk(s.db)
    && (forall p :: p in s.procs ==> ProcOk(s.db, p, s.procs[p]))
    && (forall k :: k in s.cache ==> Stored(s.db, s.cache[k], k))
    && (forall p :: Running(s, p) ==> LocksFit(s.procs[p].pc, ClientOf(s.locks, p)))
    && (forall p :: p in s.locks.clients ==> p in s.procs)
    && (forall r :: r in s.db.books.rows ==> r.id in s.procs && AskedFor(r, s.procs[r.id].req))
  }

  /** What a step of another process leaves alone for q. */
  ghost predicate Respects(db: Db, db': Db, q: Pid) {
    && (forall id :: id in db.rowLocks && db.rowLocks[id] == q && id in db.books.accounts ==>
          && id in db'.rowLocks && db'.rowLocks[id] == q
          && id in db'.books.accounts && db'.books.accounts[id] == db.books.accounts[id])
    && (forall k :: k in db.keyIndex && db.keyIndex[k] == Some(q) ==> k in db'.keyIndex && db'.keyIndex[k] == Some(q))
    && (forall r :: r in db.books.rows ==> r in db'.books.rows)
    && (forall r :: r in db'.books.rows && r.id == q ==> r in db.books.rows)
  }

  lemma RespectedStaysOk(db: Db, db': Db, q: Pid, pr: Proc)
    requires ProcOk(db, q, pr) && Respects(db, db', q)
    ensures ProcOk(db', q, pr)
  {}

  // ---------------------------------------------------------------- the database steps

  lemma ReleaseRespects(db: Db, p: Pid, q: Pid)
    requires q != p
    ensures Respects(db, Rollback(db, p), q)
  {}

  /** A commit changes only rows that p has locked, so it disturbs nobody else's reads. */
  lemma CommitRespects(db: Db, p: Pid, pr: Proc, q: Pid)
    requires q != p && pr.pc.CommitTrx? && TrxOk(db, p, pr)
    ensures Respects(db, Commit(db, p, pr.trx), q)
  {}

  lemma StatementRespects(db: Db, p: Pid, pr: Proc, q: Pid)
    requires q != p && InTrx(pr.pc) && !pr.pc.CommitTrx? && !pr.pc.RollBack?
    ensures Respects(db, Statement(db, p, pr).0, q)
  {}

  lemma DbStepRespects(db: Db, p: Pid, pr: Proc, ok: bool, q: Pid)
    requires q != p && InTrx(pr.pc) && ProcOk(db, p, pr)
    ensures Respects(db, DbStep(db, p, pr, ok).0, q)
  {
    match pr.pc
    case CommitTrx => CommitRespects(db, p, pr, q);
    case RollBack => ReleaseRespects(db, p, q);
    case _ => StatementRespects(db, p, pr, q);
  }

  lemma LockSenderKeepsOk(db: Db, p: Pid, pr: Proc)
    requires pr.pc.LockSender? && DbOk(db) && ProcOk(db, p, pr)
    ensures var (db', pr') := Statement(db, p, pr); DbOk(db') && ProcOk(db', p, pr')
  {}

  lemma LockRecipientKeepsOk(db: Db, p: Pid, pr: Proc)
    requires pr.pc.LockRecipient? && DbOk(db) && ProcOk(db, p, pr)
    ensures var (db', pr') := Statement(db, p, pr); DbOk(db') && ProcOk(db', p, pr')
  {}

  lemma WriteStepKeepsOk(db: Db, p: Pid, pr: Proc)
    requires (pr.pc.DebitSender? || pr.pc.CreditRecipient?) && DbOk(db) && ProcOk(db, p, pr)
    ensures var (db', pr') := Statement(db, p, pr); DbOk(db') && ProcOk(db', p, pr')
  {}

  lemma InsertRowKeepsOk(db: Db, p: Pid, pr: Proc)
    requires pr.pc.InsertRow? && DbOk(db) && ProcOk(db, p, pr)
    ensures var (db', pr') := Statement(db, p, pr); DbOk(db') && ProcOk(db', p, pr')
  {}

  lemma InsertLedgerKeepsOk(db: Db, p: Pid, pr: Proc)
    requires pr.pc.InsertLedger? && DbOk(db) && ProcOk(db, p, pr)
    ensures var (db', pr') := Statement(db, p, pr); DbOk(db') && ProcOk(db', p, pr')
  {
    var pair := EntryPair(NewRow(p, pr), pr.sender.balance, pr.recipient.balance);
    assert [] + pair == pair;
  }

  lemma InsertSignalsKeepsOk(db: Db, p: Pid, pr: Proc)
    requires pr.pc.InsertSignals? && DbOk(db) && ProcOk(db, p, pr)
    ensures var (db', pr') := Statement(db, p, pr); DbOk(db') && ProcOk(db', p, pr')
  {
    var signals := SignalRows(p, pr.fraud.signals);
    assert [] + signals == signals;
  }

  lemma StatementKeepsOk(db: Db, p: Pid, pr: Proc)
    requires InTrx(pr.pc) && !pr.pc.CommitTrx? && !pr.pc.RollBack? && DbOk(db) && ProcOk(db, p, pr)
    ensures var (db', pr') := Statement(db, p, pr); DbOk(db') && ProcOk(db', p, pr')
  {
    match pr.pc
    case LockSender => LockSenderKeepsOk(db, p, pr);
    case LockRecipient => LockRecipientKeepsOk(db, p, pr);
    case DebitSender => WriteStepKeepsOk(db, p, pr);
    case CreditRecipient => WriteStepKeepsOk(db, p, pr);
    case InsertRow => InsertRowKeepsOk(db, p, pr);
    case InsertLedger => InsertLedgerKeepsOk(db, p, pr);
    case InsertSignals => InsertSignalsKeepsOk(db, p, pr);
  }

  lemma StatementLeavesBooks(db: Db, p: Pid, pr: Proc)
    requires InTrx(pr.pc) && !pr.pc.CommitTrx? && !pr.pc.RollBack?
    ensures Statement(db, p, pr).0.books == db.books
  {}

  /** A statement that throws, whatever it has done to the transaction, is on its way to the ROLLBACK. */
  lemma ThrownStatementKeepsOk(db: Db, db': Db, p: Pid, pr: Proc, trx: Trx)
    requires InTrx(pr.pc) && !pr.pc.RollBack? && ProcOk(db, p, pr) && db'.books == db.books
    ensures ProcOk(db', p, Throw(pr.(trx := trx), DatabaseError))
  {}

  lemma CommitKeepsOk(db: Db, p: Pid, pr: Proc, ok: bool)
    requires pr.pc.CommitTrx? && DbOk(db) && ProcOk(db, p, pr)
    ensures var (db', pr') := DbStep(db, p, pr, ok); DbOk(db') && ProcOk(db', p, pr')
  {
    assert pr.trx.rows == [NewRow(p, pr)];
  }

  lemma RollBackKeepsOk(db: Db, p: Pid, pr: Proc, ok: bool)
    requires pr.pc.RollBack? && DbOk(db) && ProcOk(db, p, pr)
    ensures var (db', pr') := DbStep(db, p, pr, ok); DbOk(db') && ProcOk(db', p, pr')
  {}

  lemma DbStepKeepsOk(db: Db, p: Pid, pr: Proc, ok: bool)
    requires InTrx(pr.pc) && DbOk(db) && ProcOk(db, p, pr)
    ensures var (db', pr') := DbStep(db, p, pr, ok); DbOk(db') && ProcOk(db', p, pr')
  {
    if pr.pc.CommitTrx? {
      CommitKeepsOk(db, p, pr, ok);
    } else if pr.pc.RollBack? {
      RollBackKeepsOk(db, p, pr, ok);
    } else {
      var (db', pr') := Statement(db, p, pr);
      StatementKeepsOk(db, p, pr);
      StatementLeavesBooks(db, p, pr);
      ThrownStatementKeepsOk(db, db', p, pr, pr'.trx);
    }
  }

  lemma StatementKeepsPlace(db: Db, p: Pid, pr: Proc)
    requires InTrx(pr.pc) && !pr.pc.CommitTrx? && !pr.pc.RollBack?
    ensures InTrx(Statement(db, p, pr).1.pc) && Statement(db, p, pr).1.req == pr.req
  {}

  lemma DbStepKeepsRequest(db: Db, p: Pid, pr: Proc, ok: bool)
    requires InTrx(pr.pc)
    ensures DbStep(db, p, pr, ok).1.req == pr.req
  {
    if !pr.pc.CommitTrx? && !pr.pc.RollBack? { StatementKeepsPlace(db, p, pr); }
  }

  /** A database step leaves p where it holds both Redis locks, and rows are never removed. */
  lemma DbStepKeepsPlace(db: Db, p: Pid, pr: Proc, ok: bool, client: Option<Locks.Client>)
    requires InTrx(pr.pc) && LocksFit(pr.pc, client)
    ensures var (db', pr') := DbStep(db, p, pr, ok);
      && LocksFit(pr'.pc, client)
      && (forall r :: r in db.books.rows ==> r in db'.books.rows)
      && (ProcOk(db, p, pr) ==> forall r :: r in db'.books.rows ==>
          r in db.books.rows || (r.id == p && AskedFor(r, pr.req)))
  {
    if !pr.pc.CommitTrx? && !pr.pc.RollBack? {
      StatementKeepsPlace(db, p, pr);
      StatementLeavesBooks(db, p, pr);
    }
  }

  // ---------------------------------------------------------------- the other steps

  lemma ThrowKeepsOk(db: Db, p: Pid, pr: Proc, e: Error)
    requires ProcOk(db, p, pr) && !pr.pc.Returned? && e != ConcurrentModification
    requires AfterCommit(pr.pc) ==> e.RedisError?
    ensures ProcOk(db, p, Throw(pr, e))
  {}

  lemma AfterLockCallKeepsOk(db: Db, p: Pid, pr: Proc, client: Option<Locks.Client>)
    requires AtLocks(pr.pc) && ProcOk(db, p, pr)
    ensures ProcOk(db, p, AfterLockCall(pr, client))
  {
    if pr.pc.LockFirst? || pr.pc.UndoFirst? { ThrowKeepsOk(db, p, pr, AccountLocked); }
  }

  lemma LockStepKeepsOk(db: Db, locks: Locks.State, p: Pid, pr: Proc, ok: bool)
    requires AtLocks(pr.pc) && ProcOk(db, p, pr)
    ensures ProcOk(db, p, LockStep(locks, p, pr, ok).1)
  {
    if ok {
      AfterLockCallKeepsOk(db, p, pr, ClientOf(LockStep(locks, p, pr, ok).0, p));
    } else {
      ThrowKeepsOk(db, p, pr, RedisError);
    }
  }

  lemma LockStepKeepsPlace(locks: Locks.State, p: Pid, pr: Proc, ok: bool)
    requires AtLocks(pr.pc) && LocksFit(pr.pc, ClientOf(locks, p)) && p !in locks.gone
    ensures var (locks', pr') := LockStep(locks, p, pr, ok);
      && (ok ==> LocksFit(pr'.pc, ClientOf(locks', p)))
      && p in locks'.clients && pr'.req == pr.req
      && locks'.gone == (if ok then locks.gone else locks.gone + {p})
      && locks'.clients == locks.clients[p := locks'.clients[p]]
  {}

  lemma CacheCheckKeepsOk(db: Db, cache: map<string, Row>, p: Pid, pr: Proc, reply: Reply, ok: bool)
    requires pr.pc.CheckCache? && ProcOk(db, p, pr)
    requires forall k :: k in cache ==> Stored(db, cache[k], k)
    ensures ProcOk(db, p, PlainStep(db, cache, pr, reply, ok).1)
  {
    ThrowKeepsOk(db, p, pr, RedisError);
    ThrowKeepsOk(db, p, pr, Validation);
  }

  lemma PreloadKeepsOk(db: Db, cache: map<string, Row>, p: Pid, pr: Proc, reply: Reply, ok: bool)
    requires pr.pc.Preload? && ProcOk(db, p, pr)
    ensures ProcOk(db, p, PlainStep(db, cache, pr, reply, ok).1)
  {
    ThrowKeepsOk(db, p, pr, DatabaseError);
    ThrowKeepsOk(db, p, pr, SenderNotFound);
    ThrowKeepsOk(db, p, pr, RecipientNotFound);
  }

  lemma FraudCheckKeepsOk(db: Db, cache: map<string, Row>, p: Pid, pr: Proc, reply: Reply, ok: bool)
    requires pr.pc.FraudCheck? && ProcOk(db, p, pr)
    ensures ProcOk(db, p, PlainStep(db, cache, pr, reply, ok).1)
  {
    UnblockedIsExplained(reply);
    CheckByPoints(reply);
    var fraud := RunFraudCheck(reply);
    if Blocked(fraud) { ThrowKeepsOk(db, p, pr, if ok then FraudBlocked(fraud.score) else KafkaError); }
  }

  lemma LastCallsKeepOk(db: Db, cache: map<string, Row>, p: Pid, pr: Proc, reply: Reply, ok: bool)
    requires (pr.pc.CacheResponse? || pr.pc.FlushReads?) && ProcOk(db, p, pr)
    ensures ProcOk(db, p, PlainStep(db, cache, pr, reply, ok).1)
  {
    ThrowKeepsOk(db, p, pr, RedisError);
  }

  lemma PlainStepKeepsOk(db: Db, cache: map<string, Row>, p: Pid, pr: Proc, reply: Reply, ok: bool)
    requires !InTrx(pr.pc) && !AtLocks(pr.pc) && ProcOk(db, p, pr)
    requires forall k :: k in cache ==> Stored(db, cache[k], k)
    ensures var (cache', pr') := PlainStep(db, cache, pr, reply, ok);
      ProcOk(db, p, pr') && forall k :: k in cache' ==> Stored(db, cache'[k], k)
  {
    if pr.pc.CacheResponse? || pr.pc.FlushReads? {
      LastCallsKeepOk(db, cache, p, pr, reply, ok);
    } else if pr.pc.CheckCache? {
      CacheCheckKeepsOk(db, cache, p, pr, reply, ok);
    } else if pr.pc.Preload? {
      PreloadKeepsOk(db, cache, p, pr, reply, ok);
    } else if pr.pc.FraudCheck? {
      FraudCheckKeepsOk(db, cache, p, pr, reply, ok);
    }
  }

  lemma PlainStepKeepsPlace(db: Db, cache: map<string, Row>, pr: Proc, reply: Reply, ok: bool,
                            client: Option<Locks.Client>)
    requires !InTrx(pr.pc) && !AtLocks(pr.pc) && LocksFit(pr.pc, client)
    ensures var pr' := PlainStep(db, cache, pr, reply, ok).1; LocksFit(pr'.pc, client) && pr'.req == pr.req
  {}

  lemma FailKeepsOk(db: Db, p: Pid, pr: Proc)
    requires ProcOk(db, p, pr) && MayFail(pr.pc)
    ensures ProcOk(db, p, Throw(pr, StoreError(pr.pc)))
  {
    ThrowKeepsOk(db, p, pr, StoreError(pr.pc));
  }

  lemma FailKeepsPlace(pr: Proc, client: Option<Locks.Client>)
    requires MayFail(pr.pc) && !AtLocks(pr.pc) && LocksFit(pr.pc, client)
    ensures LocksFit(Throw(pr, StoreError(pr.pc)).pc, client)
  {}

  // ---------------------------------------------------------------- every step

  /** p's state after its own step, whatever kind of call it is at. */
  function AdvancedProc(s: State, p: Pid, reply: Reply, ok: bool): Proc
    requires Running(s, p)
  {
    var pr := s.procs[p];
    if InTrx(pr.pc) then DbStep(s.db, p, pr, ok).1
    else if AtLocks(pr.pc) then LockStep(s.locks, p, pr, ok).1
    else PlainStep(s.db, s.cache, pr, reply, ok).1
  }

  function AdvancedDb(s: State, p: Pid, ok: bool): Db
    requires Running(s, p)
  {
    if InTrx(s.procs[p].pc) then DbStep(s.db, p, s.procs[p], ok).0 else s.db
  }

  lemma AdvanceIs(s: State, p: Pid, reply: Reply, ok: bool)
    requires Running(s, p)
    ensures var s' := Apply(s, Advance(p, reply, ok));
      p in s'.procs && s'.procs[p] == AdvancedProc(s, p, reply, ok) && s'.db == AdvancedDb(s, p, ok)
  {}

  lemma OthersStayOk(s: State, s': State, p: Pid)
    requires Inv(s) && p in s'.procs && s'.procs == s.procs[p := s'.procs[p]]
    requires forall q :: q != p ==> Respects(s.db, s'.db, q)
    ensures forall q :: q in s'.procs && q != p ==> ProcOk(s'.db, q, s'.procs[q])
  {
    forall q | q in s'.procs && q != p ensures ProcOk(s'.db, q, s'.procs[q]) {
      RespectedStaysOk(s.db, s'.db, q, s.procs[q]);
    }
  }

  lemma OthersStayInPlace(s: State, s': State, p: Pid)
    requires forall q :: Running(s, q) ==> LocksFit(s.procs[q].pc, ClientOf(s.locks, q))
    requires forall q :: q in s.locks.clients ==> q in s.procs
    requires p in s'.procs && s'.procs == s.procs[p := s'.procs[p]]
    requires forall q :: q != p ==> (q in s'.locks.gone <==> q in s.locks.gone)
    requires forall q :: q != p ==> ClientOf(s'.locks, q) == ClientOf(s.locks, q)
    requires p !in s'.locks.gone ==> LocksFit(s'.procs[p].pc, ClientOf(s'.locks, p))
    ensures forall q :: Running(s', q) ==> LocksFit(s'.procs[q].pc, ClientOf(s'.locks, q))
    ensures forall q :: q in s'.locks.clients ==> q in s'.procs
  {
    forall q | Running(s', q) ensures LocksFit(s'.procs[q].pc, ClientOf(s'.locks, q)) {
      if q != p { assert Running(s, q); }
    }
    forall q | q in s'.locks.clients ensures q in s'.procs {
      if q != p { assert ClientOf(s.locks, q).Some?; }
    }
  }

  /** Inv is kept by a step that is fine for p and respects all others. */
  lemma Reassemble(s: State, s': State, p: Pid)
    requires Inv(s) && p in s'.procs && s'.procs == s.procs[p := s'.procs[p]]
    requires DbOk(s'.db) && ProcOk(s'.db, p, s'.procs[p])
    requires forall q :: q != p ==> Respects(s.db, s'.db, q)
    requires forall r :: r in s'.db.books.rows ==> r in s.db.books.rows || (r.id == p && AskedFor(r, s'.procs[p].req))
    requires p in s.procs ==> s'.procs[p].req == s.procs[p].req
    requires forall k :: k in s'.cache ==> Stored(s'.db, s'.cache[k], k)
    requires forall q :: q != p ==> (q in s'.locks.gone <==> q in s.locks.gone)
    requires forall q :: q != p ==> ClientOf(s'.locks, q) == ClientOf(s.locks, q)
    requires p !in s'.locks.gone ==> LocksFit(s'.procs[p].pc, ClientOf(s'.locks, p))
    ensures Inv(s')
  {
    OthersStayOk(s, s', p);
    OthersStayInPlace(s, s', p);
  }

  lemma TrxStepKeepsInv(s: State, p: Pid, ok: bool)
    requires Inv(s) && Running(s, p) && InTrx(s.procs[p].pc)
    ensures var (db, pr) := DbStep(s.db, p, s.procs[p], ok); Inv(Put(s.(db := db), p, pr))
  {
    var (db, pr) := DbStep(s.db, p, s.procs[p], ok);
    DbStepKeepsOk(s.db, p, s.procs[p], ok);
    DbStepKeepsPlace(s.db, p, s.procs[p], ok, ClientOf(s.locks, p));
    DbStepKeepsRequest(s.db, p, s.procs[p], ok);
    forall q | q != p ensures Respects(s.db, db, q) { DbStepRespects(s.db, p, s.procs[p], ok, q); }
    Reassemble(s, Put(s.(db := db), p, pr), p);
  }

  lemma LockStepKeepsInv(s: State, p: Pid, ok: bool)
    requires Inv(s) && Running(s, p) && AtLocks(s.procs[p].pc)
    ensures var (locks, pr) := LockStep(s.locks, p, s.procs[p], ok); Inv(Put(s.(locks := locks), p, pr))
  {
    var (locks, pr) := LockStep(s.locks, p, s.procs[p], ok);
    LockStepKeepsOk(s.db, s.locks, p, s.procs[p], ok);
    LockStepKeepsPlace(s.locks, p, s.procs[p], ok);
    Reassemble(s, Put(s.(locks := locks), p, pr), p);
  }

  lemma PlainStepKeepsInv(s: State, p: Pid, reply: Reply, ok: bool)
    requires Inv(s) && Running(s, p) && !InTrx(s.procs[p].pc) && !AtLocks(s.procs[p].pc)
    ensures var (cache, pr) := PlainStep(s.db, s.cache, s.procs[p], reply, ok); Inv(Put(s.(cache := cache), p, pr))
  {
    var (cache, pr) := PlainStep(s.db, s.cache, s.procs[p], reply, ok);
    PlainStepKeepsOk(s.db, s.cache, p, s.procs[p], reply, ok);
    PlainStepKeepsPlace(s.db, s.cache, s.procs[p], reply, ok, ClientOf(s.locks, p));
    Reassemble(s, Put(s.(cache := cache), p, pr), p);
  }

  lemma FailedLockCallKeepsInv(s: State, p: Pid)
    requires Inv(s) && Running(s, p) && AtLocks(s.procs[p].pc)
    ensures Inv(Put(s.(locks := Locks.Apply(s.locks, Locks.Abandon(p))), p,
      Throw(s.procs[p], StoreError(s.procs[p].pc))))
  {
    FailKeepsOk(s.db, p, s.procs[p]);
    var locks, pr := Locks.Apply(s.locks, Locks.Abandon(p)), Throw(s.procs[p], StoreError(s.procs[p].pc));
    Reassemble(s, Put(s.(locks := locks), p, pr), p);
  }

  lemma FailedCallKeepsInv(s: State, p: Pid)
    requires Inv(s) && Running(s, p) && !AtLocks(s.procs[p].pc) && MayFail(s.procs[p].pc)
    ensures Inv(Put(s, p, Throw(s.procs[p], StoreError(s.procs[p].pc))))
  {
    FailKeepsOk(s.db, p, s.procs[p]);
    FailKeepsPlace(s.procs[p], ClientOf(s.locks, p));
    Reassemble(s, Put(s, p, Throw(s.procs[p], StoreError(s.procs[p].pc))), p);
  }

  lemma FailKeepsInv(s: State, p: Pid)
    requires Inv(s)
    ensures Inv(Apply(s, Fail(p)))
  {
    if Running(s, p) && MayFail(s.procs[p].pc) {
      if AtLocks(s.procs[p].pc) { FailedLockCallKeepsInv(s, p); } else { FailedCallKeepsInv(s, p); }
    }
  }

  lemma ReapKeepsOk(db: Db, p: Pid, pr: Proc)
    requires DbOk(db) && ProcOk(db, p, pr)
    ensures DbOk(Rollback(db, p))
    ensures ProcOk(Rollback(db, p), p, if InTrx(pr.pc) then pr.(pc := Returned, trx := NO_TRX) else pr)
  {}

  lemma ReapKeepsInv(s: State, p: Pid)
    requires Inv(s)
    ensures Inv(Apply(s, Reap(p)))
  {
    var s' := Apply(s, Reap(p));
    if p in s.procs && (!InTrx(s.procs[p].pc) || p in s.locks.gone) {
      ReapKeepsOk(s.db, p, s.procs[p]);
      forall q | q != p ensures Respects(s.db, s'.db, q) { ReleaseRespects(s.db, p, q); }
      Reassemble(s, s', p);
    }
  }

  lemma ArriveKeepsInv(s: State, p: Pid, req: Request)
    requires Inv(s)
    ensures Inv(Apply(s, Arrive(p, req)))
  {
    var s' := Apply(s, Arrive(p, req));
    if s' != s {
      assert p !in s.locks.clients;
      Reassemble(s, s', p);
    }
  }

  lemma OpenAccountKeepsInv(s: State, id: Id)
    requires Inv(s)
    ensures Inv(Apply(s, OpenAccount(id)))
  {
    var s' := Apply(s, OpenAccount(id));
    forall q | q in s'.procs ensures ProcOk(s'.db, q, s'.procs[q]) {
      RespectedStaysOk(s.db, s'.db, q, s.procs[q]);
    }
  }

  lemma AdvanceKeepsInv(s: State, p: Pid, reply: Reply, ok: bool)
    requires Inv(s)
    ensures Inv(Apply(s, Advance(p, reply, ok)))
  {
    if Running(s, p) {
      if InTrx(s.procs[p].pc) { TrxStepKeepsInv(s, p, ok); }
      else if AtLocks(s.procs[p].pc) { LockStepKeepsInv(s, p, ok); }
      else { PlainStepKeepsInv(s, p, reply, ok); }
    }
  }

  lemma StepKeepsInv(s: State, step: Step)
    requires Inv(s)
    ensures Inv(Apply(s, step))
  {
    match step
    case Arrive(p, req) => ArriveKeepsInv(s, p, req);
    case Advance(p, reply, ok) => AdvanceKeepsInv(s, p, reply, ok);
    case Fail(p) => FailKeepsInv(s, p);
    case Reap(p) => ReapKeepsInv(s, p);
    case OpenAccount(id) => OpenAccountKeepsInv(s, id);
    case _ =>
  }

  lemma {:induction false} RunKeepsInv(s0: State, steps: seq<Step>)
    requires Initial(s0)
    ensures Inv(Run(s0, steps))
  {
    if steps != [] {
      RunKeepsInv(s0, steps[..|steps| - 1]);
      StepKeepsInv(Run(s0, steps[..|steps| - 1]), steps[|steps| - 1]);
    }
  }
}
