/** What the transfer protocol guarantees on every run, for any number of requests and any interleaving. */
module TransferSafety {
  import opened Prelude
  import opened Books
  import opened TransferProtocol
  import opened TransferInvariant

  // ---------------------------------------------------------------- serial refinement

  /** What a step means for the books: nothing, an account opened, or one whole transfer. */
  function EventOf(s: State, step: Step): seq<Event> {
    match step
    case Advance(p, _, _) =>
      if Running(s, p) && s.procs[p].pc.CommitTrx?
      then [Transferred(NewRow(p, s.procs[p]), s.procs[p].fraud.signals)] else []
    case OpenAccount(id) => if id in s.db.books.accounts then [] else [Opened(id)]
    case _ => []
  }

  /** The events of a run, in the order of the commits. */
  function Log(s0: State, steps: seq<Step>): seq<Event> {
    if steps == [] then []
    else
      var n := |steps| - 1;
      Log(s0, steps[..n]) + EventOf(Run(s0, steps[..n]), steps[n])
  }

  /** The credit overwrites the recipient's balance blindly, and still the commit is one atomic transfer. */
  lemma CommitIsAtomic(db: Db, p: Pid, pr: Proc)
    requires DbOk(db) && ProcOk(db, p, pr) && pr.pc.CommitTrx?
    ensures var e := Transferred(NewRow(p, pr), pr.fraud.signals);
      Allowed(db.books, e) && Commit(db, p, pr.trx).books == Perform(db.books, e)
  {
    var e := Transferred(NewRow(p, pr), pr.fraud.signals);
    assert Allowed(db.books, e) by {
      assert forall r :: r in db.books.rows ==> r.key in db.keyIndex && db.keyIndex[r.key].None?;
    }
    assert pr.trx == Expected(p, pr, 7);
    assert Commit(db, p, pr.trx).books.accounts == Perform(db.books, e).accounts;
  }

  lemma OnlyCommitsWriteBooks(db: Db, p: Pid, pr: Proc, ok: bool)
    requires InTrx(pr.pc) && !pr.pc.CommitTrx?
    ensures DbStep(db, p, pr, ok).0.books == db.books
  {
    if !pr.pc.RollBack? { StatementLeavesBooks(db, p, pr); }
  }

  lemma StepPerformsItsEvent(s: State, step: Step)
    requires Inv(s)
    ensures var events, b, b' := EventOf(s, step), s.db.books, Apply(s, step).db.books;
      if events == [] then b' == b else Allowed(b, events[0]) && b' == Perform(b, events[0])
  {
    if step.Advance? && Running(s, step.p) && InTrx(s.procs[step.p].pc) {
      var pr := s.procs[step.p];
      if pr.pc.CommitTrx? {
        CommitIsAtomic(s.db, step.p, pr);
      } else {
        OnlyCommitsWriteBooks(s.db, step.p, pr, step.ok);
      }
    }
  }

  /**
   Serial refinement: whatever the interleaving, the failures, the crashes and the expired locks, the
   committed books are exactly what performing the committed transfers one by one in commit order makes.
   */
  lemma {:induction false} SerialRefinement(s0: State, steps: seq<Step>)
    requires Initial(s0)
    ensures Replay(s0.db.books, Log(s0, steps)) == Some(Run(s0, steps).db.books)
  {
    if steps != [] {
      var n := |steps| - 1;
      var before, events := Log(s0, steps[..n]), EventOf(Run(s0, steps[..n]), steps[n]);
      SerialRefinement(s0, steps[..n]);
      RunKeepsInv(s0, steps[..n]);
      StepPerformsItsEvent(Run(s0, steps[..n]), steps[n]);
      if events == [] {
        assert before + events == before;
      } else {
        assert (before + events)[..|before|] == before;
      }
    }
  }

  /**
   Hence in every reachable state money is conserved and nobody is overdrawn; each account's ledger entries
   chain from its first balance to its stored one and its version counts them; the ledger is one debit and
   one credit per transfer; keys are unique; and every fraud score is explained by its signals.
   */
  lemma BooksAreSound(s0: State, steps: seq<Step>)
    requires Initial(s0)
    ensures Sound(s0.db.books, Run(s0, steps).db.books)
  {
    SerialRefinement(s0, steps);
    ReplayIsSound(s0.db.books, Log(s0, steps));
  }

  // ---------------------------------------------------------------- numbers

  const MAX_SAFE_INTEGER := 9_007_199_254_740_991

  predicate Safe(n: int) { 0 <= n <= MAX_SAFE_INTEGER }

  /**
   If all the money fits a safe integer at the start, then so does, at any time, every stored balance, every
   amount and balance in the committed rows and ledger, every balance an open transaction has read and every
   balance or ledger amount it has written but not committed.
   */
  lemma EveryBalanceIsSafe(s0: State, steps: seq<Step>)
    requires Initial(s0) && Total(s0.db.books.accounts) <= MAX_SAFE_INTEGER
    ensures var s := Run(s0, steps);
      && (forall id :: id in s.db.books.accounts ==> Safe(s.db.books.accounts[id].balance))
      && (forall e :: e in s.db.books.ledger ==> EntrySafe(e))
      && (forall r :: r in s.db.books.rows ==> Safe(r.amount))
      && (forall p :: p in s.procs && InTrx(s.procs[p].pc) && !s.procs[p].pc.RollBack? ==> TrxSafe(s.procs[p]))
  {
    var s := Run(s0, steps);
    BooksAreSound(s0, steps);
    RunKeepsInv(s0, steps);
    CommittedIsSafe(s0, steps);
    var accounts := s.db.books.accounts;
    forall id | id in accounts ensures Safe(accounts[id].balance) { NoBalanceExceedsTotal(accounts, id); }
    forall p | p in s.procs && InTrx(s.procs[p].pc) && !s.procs[p].pc.RollBack? ensures TrxSafe(s.procs[p]) {
      OpenTrxIsSafe(s.db, p, s.procs[p]);
    }
  }

  lemma CommittedIsSafe(s0: State, steps: seq<Step>)
    requires Initial(s0) && Total(s0.db.books.accounts) <= MAX_SAFE_INTEGER
    ensures var b := Run(s0, steps).db.books;
      (forall e :: e in b.ledger ==> EntrySafe(e)) && (forall r :: r in b.rows ==> Safe(r.amount))
  {
    SerialRefinement(s0, steps);
    ReplayKeepsEntriesWithin(s0.db.books, Log(s0, steps));
    BooksAreSound(s0, steps);
    var b := Run(s0, steps).db.books;
    forall i | 0 <= i < |b.rows| ensures Safe(b.rows[i].amount) {
      assert b.ledger[2 * i] in b.ledger && b.ledger[2 * i].amount == b.rows[i].amount;
    }
  }

  predicate EntrySafe(e: Entry) { Safe(e.amount) && Safe(e.before) && Safe(e.after) }

  ghost predicate TrxSafe(pr: Proc)
    requires InTrx(pr.pc) && !pr.pc.RollBack?
  {
    && (Phase(pr.pc) >= 1 ==> Safe(pr.sender.balance))
    && (Phase(pr.pc) >= 2 ==> Safe(pr.recipient.balance))
    && (forall id :: id in pr.trx.writes ==> Safe(pr.trx.writes[id].balance))
    && (forall e :: e in pr.trx.entries ==> EntrySafe(e))
  }

  lemma OpenTrxIsSafe(db: Db, p: Pid, pr: Proc)
    requires ProcOk(db, p, pr) && InTrx(pr.pc) && !pr.pc.RollBack?
    requires forall id :: id in db.books.accounts ==> db.books.accounts[id].balance >= 0
    requires Total(db.books.accounts) <= MAX_SAFE_INTEGER
    ensures TrxSafe(pr)
  {
    var accounts := db.books.accounts;
    if Phase(pr.pc) >= 1 { NoBalanceExceedsTotal(accounts, pr.req.from); }
    if Phase(pr.pc) >= 2 { TwoBalancesWithinTotal(accounts, pr.req.from, pr.req.to); }
  }

  /**
   The optimistic lock never bites: when a transfer comes to its debit the version it read is still stored,
   so exactly one row is updated; and the unchecked credit writes what a version-checked one would.
   */
  lemma VersionCheckNeverFails(s0: State, steps: seq<Step>, p: Pid)
    requires Initial(s0) && p in Run(s0, steps).procs
    ensures var s := Run(s0, steps); var pr := s.procs[p];
      && pr.retries == 0 && pr.outcome != Rejected(ConcurrentModification)
      && (pr.pc.DebitSender? ==>
            UpdateBalance(s.db, pr.trx, pr.req.from, pr.sender.balance - pr.req.amount, pr.sender.version).1 == 1)
      && (pr.pc.CreditRecipient? ==>
            UpdateBalance(s.db, pr.trx, pr.req.to, pr.recipient.balance + pr.req.amount, pr.recipient.version)
            == (CreditAccount(s.db, pr.trx, pr.req.to, pr.recipient.balance + pr.req.amount, pr.recipient.version), 1))
  {
    RunKeepsInv(s0, steps);
    assert ProcOk(Run(s0, steps).db, p, Run(s0, steps).procs[p]);
  }

  // ---------------------------------------------------------------- charging

  /** The row an answer carries. */
  function Answer(o: Outcome): Option<Row> {
    match o
    case Replayed(row) => Some(row)
    case Succeeded(row) => Some(row)
    case _ => None
  }

  predicate Answered(s: State, p: Pid) { p in s.procs && Answer(s.procs[p].outcome).Some? }

  /**
   At most one charge per idempotency key: committed rows have different keys, every cached or answered row
   is the committed one of its key, and so all answers to requests with one key carry one and the same row.
   */
  lemma AtMostOneCharge(s0: State, steps: seq<Step>)
    requires Initial(s0)
    ensures var s := Run(s0, steps);
      && Unique(s.db.books)
      && (forall k :: k in s.cache ==> Stored(s.db, s.cache[k], k))
      && (forall p :: Answered(s, p) ==> Stored(s.db, Answer(s.procs[p].outcome).value, s.procs[p].req.key))
      && (forall p, q :: Answered(s, p) && Answered(s, q) && s.procs[p].req.key == s.procs[q].req.key ==>
            Answer(s.procs[p].outcome) == Answer(s.procs[q].outcome))
  {
    var s := Run(s0, steps);
    RunKeepsInv(s0, steps);
    BooksAreSound(s0, steps);
    forall p | Answered(s, p)
      ensures Stored(s.db, Answer(s.procs[p].outcome).value, s.procs[p].req.key)
    {
      assert ProcOk(s.db, p, s.procs[p]);
    }
  }

  /**
   What a replayed answer is worth: it is the row of the request that was charged for the key, and so it is
   what the replayed request asks for exactly when the two requests are the same.
   */
  lemma ReplayedIsAskedForIff(s0: State, steps: seq<Step>, p: Pid)
    requires Initial(s0) && p in Run(s0, steps).procs && Run(s0, steps).procs[p].outcome.Replayed?
    ensures var s := Run(s0, steps); var row := s.procs[p].outcome.row;
      && row in s.db.books.rows && row.id in s.procs && AskedFor(row, s.procs[row.id].req)
      && (AskedFor(row, s.procs[p].req) <==> s.procs[row.id].req == s.procs[p].req)
  {
    RunKeepsInv(s0, steps);
    assert ProcOk(Run(s0, steps).db, p, Run(s0, steps).procs[p]);
  }

  /** Row r is the charge of request p. */
  ghost predicate Charges(s: State, r: Row, p: Pid) { r in s.db.books.rows && r.id == p }

  /**
   Who was charged: every committed row belongs to one request and is what that request asks for. A request
   that succeeded has exactly the row it was answered with; one that was replayed has none, and one that was
   rejected has none unless the error came from the database or from Redis.
   */
  lemma WhoWasCharged(s0: State, steps: seq<Step>)
    requires Initial(s0)
    ensures var s := Run(s0, steps);
      && (forall r :: r in s.db.books.rows ==> r.id in s.procs && AskedFor(r, s.procs[r.id].req))
      && (forall p, r :: Charges(s, r, p) && p in s.procs ==>
            && !NotCharged(s.procs[p].outcome)
            && (s.procs[p].outcome.Succeeded? ==> s.procs[p].outcome.row == r))
      && (forall p :: p in s.procs && s.procs[p].outcome.Succeeded? ==> Charges(s, s.procs[p].outcome.row, p))
  {
    var s := Run(s0, steps);
    RunKeepsInv(s0, steps);
    BooksAreSound(s0, steps);
    forall p | p in s.procs && s.procs[p].outcome.Succeeded? ensures Charges(s, s.procs[p].outcome.row, p) {
      assert ProcOk(s.db, p, s.procs[p]);
    }
    forall p, r | Charges(s, r, p) && p in s.procs
      ensures !NotCharged(s.procs[p].outcome) && (s.procs[p].outcome.Succeeded? ==> s.procs[p].outcome.row == r)
    {
      assert ProcOk(s.db, p, s.procs[p]);
      if s.procs[p].outcome.Succeeded? { SameIdSameRow(s.db.books, s.procs[p].outcome.row, r); }
    }
  }

  lemma SameIdSameRow(b: Books, r: Row, q: Row)
    requires Unique(b) && r in b.rows && q in b.rows && r.id == q.id
    ensures r == q
  {
    var i :| 0 <= i < |b.rows| && b.rows[i] == r;
    var j :| 0 <= j < |b.rows| && b.rows[j] == q;
  }
}
