/**
 The money transfer of services/payment-service as a step machine. Any number of requests run
 initiatePayment side by side, one awaited call per step, over the shared database, idempotency cache and
 Redis locks. Between any two steps a lock or a cached response may expire, a call may throw, with or without
 having had its effect, and a process may crash. Apply is total: a step that is not enabled changes nothing,
 so a run is simply a sequence of steps.
 */
module TransferProtocol {
  import opened Prelude
  import opened FraudEngine
  import opened Books
  import Locks = AccountLocks

  type Pid = Locks.Pid

  datatype Request = Request(key: string, from: Id, to: Id, amount: int)

  datatype Error =
    | Validation | AccountLocked | SenderNotFound | RecipientNotFound | FraudBlocked(score: nat)
    | AccountFrozen | InsufficientBalance | ConcurrentModification | DatabaseError | RedisError | KafkaError

  datatype Outcome = Undecided | Replayed(row: Row) | Succeeded(row: Row) | Rejected(error: Error)

  /** The awaited call that comes next. */
  datatype Pc =
    | CheckCache | LockFirst | LockSecond | UndoFirst | Preload | FraudCheck
    | LockSender | LockRecipient | DebitSender | CreditRecipient | InsertRow | InsertLedger | InsertSignals | CommitTrx
    | RollBack | CacheResponse | FlushReads | UnlockFirst | UnlockSecond | Returned

  /** The uncommitted work of one database transaction. */
  datatype Trx = Trx(writes: map<Id, Account>, rows: seq<Row>, entries: seq<Entry>, signals: seq<SignalRow>)

  const NO_TRX := Trx(map[], [], [], [])

  /** One running initiatePayment: its request, its place in the code, and its local variables. */
  datatype Proc = Proc(req: Request, pc: Pc, fraud: FraudResult, sender: Account, recipient: Account,
                       trx: Trx, retries: nat, transactionRow: Option<Row>, outcome: Outcome)

  /**
   The database: committed books, row locks with their transaction, and the unique index on idempotency
   keys, where a key belongs to an open transaction (Some) or to a committed row (None).
   */
  datatype Db = Db(books: Books, rowLocks: map<Id, Pid>, keyIndex: map<string, Option<Pid>>)

  datatype State = State(db: Db, cache: map<string, Row>, locks: Locks.State, procs: map<Pid, Proc>)

  datatype Step =
    | Arrive(p: Pid, req: Request)                // a request comes in
    | Advance(p: Pid, reply: Reply, ok: bool)     // p's next call takes effect; if not ok it throws all the same
    | Fail(p: Pid)                                // p's next call throws without having had any effect
    | Crash(p: Pid)                               // p's process dies
    | Reap(p: Pid)                                // the database ends a transaction that p does not work on any more
    | OpenAccount(id: Id)
    | ForgetCached(key: string)                   // a cached response expires
    | Tick(dt: nat)                               // time passes, and Redis locks with it

  // ---------------------------------------------------------------- payment.repository.ts, ledger.repository.ts

  datatype LockResult = NotAvailable | NoRow | Locked(account: Account)

  /** SELECT ... FOR UPDATE NOWAIT */
  function LockAccount(db: Db, p: Pid, id: Id): (Db, LockResult) {
    if id in db.rowLocks && db.rowLocks[id] != p then (db, NotAvailable)
    else if id !in db.books.accounts then (db, NoRow)
    else (db.(rowLocks := db.rowLocks[id := p]), Locked(db.books.accounts[id]))
  }

  /** The account as the transaction sees it: its own write, or else the committed row. */
  function Visible(db: Db, trx: Trx, id: Id): Option<Account> {
    if id in trx.writes then Some(trx.writes[id])
    else if id in db.books.accounts then Some(db.books.accounts[id])
    else None
  }

  /** UPDATE ... WHERE id AND version: the write and the number of rows updated. */
  function UpdateBalance(db: Db, trx: Trx, id: Id, balance: int, version: nat): (Trx, nat) {
    var row := Visible(db, trx, id);
    if row.Some? && row.value.version == version
    then (trx.(writes := trx.writes[id := row.value.(balance := balance, version := version + 1)]), 1)
    else (trx, 0)
  }

  /** UPDATE ... WHERE id, whatever the stored version is. */
  function CreditAccount(db: Db, trx: Trx, id: Id, balance: int, version: nat): Trx {
    var row := Visible(db, trx, id);
    if row.None? then trx
    else trx.(writes := trx.writes[id := row.value.(balance := balance, version := version + 1)])
  }

  /** gen_random_uuid() never repeats, so the number of the inserting request stands for the new id. */
  function NewRow(p: Pid, pr: Proc): Row {
    Row(p, pr.req.key, pr.req.from, pr.req.to, pr.req.amount, pr.fraud.score, pr.fraud.action)
  }

  function Commit(db: Db, p: Pid, trx: Trx): Db {
    var b := db.books;
    Db(Books(b.accounts + trx.writes, b.rows + trx.rows, b.ledger + trx.entries, b.signals + trx.signals),
       map id | id in db.rowLocks && db.rowLocks[id] != p :: db.rowLocks[id],
       map k | k in db.keyIndex :: if db.keyIndex[k] == Some(p) then None else db.keyIndex[k])
  }

  function Rollback(db: Db, p: Pid): Db {
    db.(rowLocks := map id | id in db.rowLocks && db.rowLocks[id] != p :: db.rowLocks[id],
        keyIndex := map k | k in db.keyIndex && db.keyIndex[k] != Some(p) :: db.keyIndex[k])
  }

  // ---------------------------------------------------------------- initiatePayment

  predicate InTrx(pc: Pc) {
    pc.LockSender? || pc.LockRecipient? || pc.DebitSender? || pc.CreditRecipient? || pc.InsertRow?
    || pc.InsertLedger? || pc.InsertSignals? || pc.CommitTrx? || pc.RollBack?
  }

  predicate AtLocks(pc: Pc) { pc.LockFirst? || pc.LockSecond? || pc.UndoFirst? || pc.UnlockFirst? || pc.UnlockSecond? }

  /** An exception: it leaves the database transaction, or the try block, or the whole call. */
  function Throw(pr: Proc, e: Error): Proc {
    pr.(outcome := Rejected(e),
        trx := if pr.pc.RollBack? then NO_TRX else pr.trx,
        pc := if InTrx(pr.pc) && !pr.pc.RollBack? then RollBack
              else if AtLocks(pr.pc) || pr.pc.CheckCache? then Returned else UnlockFirst)
  }

  /** What is thrown when the store behind the next call fails. */
  function StoreError(pc: Pc): Error { if InTrx(pc) || pc.Preload? then DatabaseError else RedisError }

  /** A statement inside the database transaction, answered. */
  function Statement(db: Db, p: Pid, pr: Proc): (Db, Proc)
    requires InTrx(pr.pc) && !pr.pc.CommitTrx? && !pr.pc.RollBack?
  {
    var req := pr.req;
    match pr.pc
    case LockSender =>
      (match LockAccount(db, p, req.from)
       case (_, NotAvailable) => (db, Throw(pr, DatabaseError))
       case (_, NoRow) => (db, Throw(pr, SenderNotFound))
       case (db', Locked(a)) =>
         (db', if !a.status.Active? then Throw(pr, AccountFrozen) else pr.(pc := LockRecipient, sender := a)))
    case LockRecipient =>
      (match LockAccount(db, p, req.to)
       case (_, NotAvailable) => (db, Throw(pr, DatabaseError))
       case (_, NoRow) => (db, Throw(pr, RecipientNotFound))
       case (db', Locked(a)) =>
         (db', if !a.status.Active? then Throw(pr, AccountFrozen)
               else if pr.sender.balance < req.amount then Throw(pr, InsufficientBalance)
               else pr.(pc := DebitSender, recipient := a)))
    case DebitSender =>
      var (trx, rowsUpdated) := UpdateBalance(db, pr.trx, req.from, pr.sender.balance - req.amount, pr.sender.version);
      (db, if rowsUpdated == 0 then Throw(pr, ConcurrentModification) else pr.(pc := CreditRecipient, trx := trx))
    case CreditRecipient =>
      (db, pr.(pc := InsertRow,
               trx := CreditAccount(db, pr.trx, req.to, pr.recipient.balance + req.amount, pr.recipient.version)))
    case InsertRow =>
      if req.key !in db.keyIndex then
        (db.(keyIndex := db.keyIndex[req.key := Some(p)]),
         pr.(pc := InsertLedger, trx := pr.trx.(rows := pr.trx.rows + [NewRow(p, pr)])))
      else if db.keyIndex[req.key].None? then (db, Throw(pr, DatabaseError))   // unique violation
      else (db, pr)                                                            // waits for the other transaction
    case InsertLedger =>
      (db, pr.(pc := InsertSignals,
               trx := pr.trx.(entries := pr.trx.entries
                   + EntryPair(NewRow(p, pr), pr.sender.balance, pr.recipient.balance))))
    case InsertSignals =>
      (db, pr.(pc := CommitTrx, trx := pr.trx.(signals := pr.trx.signals + SignalRows(p, pr.fraud.signals))))
  }

  /** Where the retry loop goes on. */
  function RolledBack(pr: Proc): Proc {
    var undone := pr.(trx := NO_TRX);
    if pr.outcome == Rejected(ConcurrentModification) && pr.retries < 2
    then undone.(pc := LockSender, retries := pr.retries + 1, outcome := Undecided)
    else undone.(pc := UnlockFirst)
  }

  /** A call of the database transaction: a statement, the COMMIT or the ROLLBACK, executed and perhaps answered. */
  function DbStep(db: Db, p: Pid, pr: Proc, ok: bool): (Db, Proc)
    requires InTrx(pr.pc)
  {
    match pr.pc
    case CommitTrx =>
      var done := pr.(trx := NO_TRX);
      (Commit(db, p, pr.trx),
       if ok then done.(pc := CacheResponse, transactionRow := Some(NewRow(p, pr)))
       else done.(pc := UnlockFirst, outcome := Rejected(DatabaseError)))      // committed, acknowledgement lost
    case RollBack => (Rollback(db, p), if ok then RolledBack(pr) else Throw(pr, DatabaseError))
    case _ =>
      var (db', pr') := Statement(db, p, pr);
      (db', if ok then pr' else Throw(pr.(trx := pr'.trx), DatabaseError))
  }

  function ClientOf(locks: Locks.State, p: Pid): Option<Locks.Client> {
    if p in locks.clients then Some(locks.clients[p]) else None
  }

  /**
   A call on the Redis locks: acquireAccountLocks at the start, releaseAllLocks in the finally block. Where it
   throws, nobody deletes the keys that are left.
   */
  function LockStep(locks: Locks.State, p: Pid, pr: Proc, ok: bool): (Locks.State, Proc)
    requires AtLocks(pr.pc)
  {
    var locks' := if pr.pc.LockFirst? then Locks.Apply(locks, Locks.Begin(p, pr.req.from, pr.req.to))
                  else Locks.Proceed(locks, p);
    if !ok then (Locks.Apply(locks', Locks.Abandon(p)), Throw(pr, RedisError))
    else (locks', AfterLockCall(pr, ClientOf(locks', p)))
  }

  /** Where the code goes on after a call on the locks, given what it did. */
  function AfterLockCall(pr: Proc, client: Option<Locks.Client>): Proc
    requires AtLocks(pr.pc)
  {
    match pr.pc
    case LockFirst =>
      if client.Some? && client.value.First? then pr.(pc := LockSecond)
      else pr.(pc := Returned, outcome := Rejected(AccountLocked))
    case LockSecond => pr.(pc := if client.Some? && client.value.Held? then Preload else UndoFirst)
    case UndoFirst => pr.(pc := Returned, outcome := Rejected(AccountLocked))
    case UnlockFirst => pr.(pc := UnlockSecond)
    case UnlockSecond => pr.(pc := Returned)
  }

  /** Any other call: it reads the committed books or the cache, or writes the cache. */
  function PlainStep(db: Db, cache: map<string, Row>, pr: Proc, reply: Reply, ok: bool): (map<string, Row>, Proc)
    requires !InTrx(pr.pc) && !AtLocks(pr.pc)
  {
    var req := pr.req;
    match pr.pc
    case CheckCache =>
      (cache, if !ok then Throw(pr, RedisError)
              else if req.key in cache then pr.(pc := Returned, outcome := Replayed(cache[req.key]))
              else if !ValidTerms(req.from, req.to, req.amount) then Throw(pr, Validation)
              else pr.(pc := LockFirst))
    case Preload =>
      (cache, if !ok then Throw(pr, DatabaseError)
              else if req.from !in db.books.accounts then Throw(pr, SenderNotFound)
              else if req.to !in db.books.accounts then Throw(pr, RecipientNotFound)
              else pr.(pc := FraudCheck))
    case FraudCheck =>
      var fraud := RunFraudCheck(reply);
      (cache, if !Blocked(fraud) then pr.(pc := LockSender, fraud := fraud)
              else Throw(pr, if ok then FraudBlocked(fraud.score) else KafkaError))  // its publication is awaited
    case CacheResponse =>
      if pr.transactionRow.None? then (cache, Throw(pr, ConcurrentModification))
      else (cache[req.key := pr.transactionRow.value], if ok then pr.(pc := FlushReads) else Throw(pr, RedisError))
    case FlushReads =>
      (cache, if ok && pr.transactionRow.Some?
          then pr.(pc := UnlockFirst, outcome := Succeeded(pr.transactionRow.value))
              else Throw(pr, RedisError))
    case _ => (cache, pr)
  }

  function Put(s: State, p: Pid, pr: Proc): State { s.(procs := s.procs[p := pr]) }

  /** The fraud check catches what it calls. */
  predicate MayFail(pc: Pc) { !pc.FraudCheck? && !pc.Returned? }

  /** p is in the middle of the call: its process has not died, and no call on its locks has thrown. */
  predicate Running(s: State, p: Pid) { p in s.procs && p !in s.locks.gone }

  function Newcomer(req: Request): Proc {
    var nobody := Account(0, 0, Active);
    Proc(req, CheckCache, FraudResult(0, Approve, []), nobody, nobody, NO_TRX, 0, None, Undecided)
  }

  function Apply(s: State, step: Step): State {
    match step
    case Arrive(p, req) => if p in s.procs then s else Put(s, p, Newcomer(req))
    case Advance(p, reply, ok) =>
      if !Running(s, p) then s
      else if InTrx(s.procs[p].pc) then
        var (db, pr) := DbStep(s.db, p, s.procs[p], ok);
        Put(s.(db := db), p, pr)
      else if AtLocks(s.procs[p].pc) then
        var (locks, pr) := LockStep(s.locks, p, s.procs[p], ok);
        Put(s.(locks := locks), p, pr)
      else
        var (cache, pr) := PlainStep(s.db, s.cache, s.procs[p], reply, ok);
        Put(s.(cache := cache), p, pr)
    case Fail(p) =>
      if !Running(s, p) || !MayFail(s.procs[p].pc) then s
      else
        var failed := if AtLocks(s.procs[p].pc) then s.(locks := Locks.Apply(s.locks, Locks.Abandon(p))) else s;
        Put(failed, p, Throw(s.procs[p], StoreError(s.procs[p].pc)))
    case Crash(p) => if p in s.procs then s.(locks := Locks.Apply(s.locks, Locks.Abandon(p))) else s
    case Reap(p) =>
      if p !in s.procs then s
      else if !InTrx(s.procs[p].pc) then s.(db := Rollback(s.db, p))       // left over if its ROLLBACK has failed
      else if p in s.locks.gone then Put(s.(db := Rollback(s.db, p)), p, s.procs[p].(pc := Returned, trx := NO_TRX))
      else s
    case OpenAccount(id) =>
      if id in s.db.books.accounts then s
      else s.(db := s.db.(books := s.db.books.(accounts := s.db.books.accounts[id := Account(0, 0, Active)])))
    case ForgetCached(key) => s.(cache := s.cache - {key})
    case Tick(dt) => s.(locks := Locks.Apply(s.locks, Locks.Tick(dt)))
  }

  function Run(s: State, steps: seq<Step>): State {
    if steps == [] then s else Apply(Run(s, steps[..|steps| - 1]), steps[|steps| - 1])
  }

  lemma RunOneMore(s: State, steps: seq<Step>, step: Step)
    ensures Run(s, steps + [step]) == Apply(Run(s, steps), step)
  {
    assert (steps + [step])[..|steps|] == steps;
  }

  lemma {:induction false} RunAppend(s: State, steps: seq<Step>, more: seq<Step>)
    ensures Run(s, steps + more) == Run(Run(s, steps), more)
  {
    if more == [] {
      assert steps + more == steps;
    } else {
      var n := |more| - 1;
      assert steps + more == (steps + more[..n]) + [more[n]];
      RunOneMore(s, steps + more[..n], more[n]);
      RunAppend(s, steps, more[..n]);
    }
  }

  /** Before the first request: any accounts, no money owed, nothing recorded, locked or cached. */
  ghost predicate Initial(s: State) {
    && Opening(s.db.books) && s.db.rowLocks == map[] && s.db.keyIndex == map[]
    && s.cache == map[] && s.procs == map[] && Locks.Initial(s.locks)
  }
}
