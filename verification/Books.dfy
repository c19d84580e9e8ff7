/**
 What the database means to an accountant: accounts, the transfer rows, the double-entry ledger and the
 fraud signals, with one atomic operation "debit, credit, record". The module proves what any sequence of
 such operations keeps; TransferProtocol proves that the concurrent service performs just such a sequence.
 */
module Books {
  import opened Prelude
  import opened FraudEngine

  type Id = string

  datatype Status = Active | Frozen | Closed

  datatype Account = Account(balance: int, version: nat, status: Status)

  datatype Row = Row(id: nat, key: string, from: Id, to: Id, amount: int, fraudScore: nat, fraudAction: Action)

  datatype EntryType = Debit | Credit

  datatype Entry = Entry(transactionId: nat, account: Id, entryType: EntryType, amount: int, before: int, after: int)

  datatype SignalRow = SignalRow(transactionId: nat, signal: Signal)

  datatype Books = Books(accounts: map<Id, Account>, rows: seq<Row>, ledger: seq<Entry>, signals: seq<SignalRow>)

  datatype Event =
    | Opened(id: Id)
    | Transferred(row: Row, signals: seq<Signal>)

  const MIN_TRANSFER_PAISE := 1
  const MAX_TRANSFER_PAISE := 10_000_000_00

  predicate ValidTerms(from: Id, to: Id, amount: int) {
    MIN_TRANSFER_PAISE <= amount <= MAX_TRANSFER_PAISE && from != to
  }

  /** The two ledger entries of a transfer between accounts with the given balances. */
  function EntryPair(row: Row, fromBalance: int, toBalance: int): seq<Entry> {
    [Entry(row.id, row.from, Debit, row.amount, fromBalance, fromBalance - row.amount),
     Entry(row.id, row.to, Credit, row.amount, toBalance, toBalance + row.amount)]
  }

  function SignalRows(id: nat, signals: seq<Signal>): seq<SignalRow> {
    seq(|signals|, i requires 0 <= i < |signals| => SignalRow(id, signals[i]))
  }

  ghost predicate Allowed(b: Books, e: Event) {
    match e
    case Opened(id) => id !in b.accounts
    case Transferred(row, signals) =>
      && ValidTerms(row.from, row.to, row.amount)
      && row.from in b.accounts && b.accounts[row.from].status.Active?
      && row.to in b.accounts && b.accounts[row.to].status.Active?
      && row.amount <= b.accounts[row.from].balance
      && (forall r :: r in b.rows ==> r.key != row.key && r.id != row.id)
      && row.fraudScore == Sum(signals) < 60 && row.fraudAction == if row.fraudScore < 30 then Approve else Review
  }

  /** One atomic operation on the books. */
  function Perform(b: Books, e: Event): Books
    requires Allowed(b, e)
  {
    match e
    case Opened(id) => b.(accounts := b.accounts[id := Account(0, 0, Active)])
    case Transferred(row, signals) =>
      var sender, recipient := b.accounts[row.from], b.accounts[row.to];
      Books(
        b.accounts[row.from := sender.(balance := sender.balance - row.amount, version := sender.version + 1)]
                  [row.to := recipient.(balance := recipient.balance + row.amount, version := recipient.version + 1)],
        b.rows + [row],
        b.ledger + EntryPair(row, sender.balance, recipient.balance),
        b.signals + SignalRows(row.id, signals))
  }

  /** The events performed one by one; None as soon as one is not allowed where it comes. */
  ghost function Replay(b: Books, events: seq<Event>): Option<Books> {
    if events == [] then Some(b)
    else
      var before := Replay(b, events[..|events| - 1]);
      if before.Some? && Allowed(before.value, events[|events| - 1])
      then Some(Perform(before.value, events[|events| - 1])) else None
  }

  ghost predicate Opening(b: Books) {
    b.rows == [] && b.ledger == [] && b.signals == [] && forall id :: id in b.accounts ==> b.accounts[id].balance >= 0
  }

  // ---------------------------------------------------------------- total money

  ghost function Total(accounts: map<Id, Account>): int {
    if accounts == map[] then 0
    else
      var id :| id in accounts;
      accounts[id].balance + Total(accounts - {id})
  }

  /** Total does not depend on the order in which the accounts are added up. */
  lemma {:induction false} TotalWithout(accounts: map<Id, Account>, id: Id)
    requires id in accounts
    ensures Total(accounts) == accounts[id].balance + Total(accounts - {id})
    decreases |accounts|
  {
    var first :| first in accounts && Total(accounts) == accounts[first].balance + Total(accounts - {first});
    if first != id {
      TotalWithout(accounts - {first}, id);
      TotalWithout(accounts - {id}, first);
      assert accounts - {first} - {id} == accounts - {id} - {first};
    }
  }

  lemma TotalAfterUpdate(accounts: map<Id, Account>, id: Id, a: Account)
    ensures Total(accounts[id := a]) ==
      Total(accounts) + a.balance - (if id in accounts then accounts[id].balance else 0)
  {
    TotalWithout(accounts[id := a], id);
    if id in accounts {
      TotalWithout(accounts, id);
      assert accounts[id := a] - {id} == accounts - {id};
    } else {
      assert accounts[id := a] - {id} == accounts;
    }
  }

  lemma {:induction false} NoBalanceExceedsTotal(accounts: map<Id, Account>, id: Id)
    requires forall a :: a in accounts ==> accounts[a].balance >= 0
    ensures 0 <= Total(accounts)
    ensures id in accounts ==> accounts[id].balance <= Total(accounts)
    decreases |accounts|
  {
    if accounts != map[] {
      var first := if id in accounts then id else var a :| a in accounts; a;
      TotalWithout(accounts, first);
      NoBalanceExceedsTotal(accounts - {first}, first);
    }
  }

  lemma TwoBalancesWithinTotal(accounts: map<Id, Account>, id: Id, other: Id)
    requires forall a :: a in accounts ==> accounts[a].balance >= 0
    requires id in accounts && other in accounts && id != other
    ensures accounts[id].balance + accounts[other].balance <= Total(accounts)
  {
    TotalWithout(accounts, id);
    NoBalanceExceedsTotal(accounts - {id}, other);
  }

  // ---------------------------------------------------------------- ledger

  function EntriesOf(ledger: seq<Entry>, id: Id): seq<Entry> {
    if ledger == [] then []
    else
      var rest := EntriesOf(ledger[..|ledger| - 1], id);
      if ledger[|ledger| - 1].account == id then rest + [ledger[|ledger| - 1]] else rest
  }

  function Change(e: Entry): int { if e.entryType.Debit? then -e.amount else e.amount }

  /** The entries lead from one balance to the other without a gap, each by its own amount. */
  predicate Chained(entries: seq<Entry>, start: int, end: int) {
    if entries == [] then start == end
    else
      var last := entries[|entries| - 1];
      && last.after == end && last.after == last.before + Change(last)
      && Chained(entries[..|entries| - 1], start, last.before)
  }

  function ScoreOf(signals: seq<SignalRow>, id: nat): nat {
    if signals == [] then 0
    else
      var last := signals[|signals| - 1];
      ScoreOf(signals[..|signals| - 1], id) + if last.transactionId == id then last.signal.scoreAdded else 0
  }

  function StartBalance(b0: Books, id: Id): int { if id in b0.accounts then b0.accounts[id].balance else 0 }

  function StartVersion(b0: Books, id: Id): nat { if id in b0.accounts then b0.accounts[id].version else 0 }

  /** Total money is what it was at the start, and nobody is overdrawn. */
  ghost predicate Conserved(b0: Books, b: Books) {
    && Total(b.accounts) == Total(b0.accounts)
    && forall id :: id in b.accounts ==> b.accounts[id].balance >= 0
  }

  /** The ledger is the rows' debit and credit pairs, in order and nothing else. */
  ghost predicate Paired(b: Books) {
    && |b.ledger| == 2 * |b.rows|
    && forall i :: 0 <= i < |b.rows| ==>
         var r, debit, credit := b.rows[i], b.ledger[2 * i], b.ledger[2 * i + 1];
         && debit.transactionId == credit.transactionId == r.id
         && debit.amount == credit.amount == r.amount
         && debit.account == r.from && debit.entryType.Debit?
         && credit.account == r.to && credit.entryType.Credit?
         && ValidTerms(r.from, r.to, r.amount)
  }

  /** No two rows share an idempotency key or an id. */
  ghost predicate Unique(b: Books) {
    forall i, j :: 0 <= i < j < |b.rows| ==> b.rows[i].key != b.rows[j].key && b.rows[i].id != b.rows[j].id
  }

  /** Every row's fraud score is below 60, is the sum of the points of its signal rows, and has its action. */
  ghost predicate ScoresExplained(b: Books) {
    && (forall r :: r in b.rows ==>
          && r.fraudScore == ScoreOf(b.signals, r.id) < 60
          && r.fraudAction == if r.fraudScore < 30 then Approve else Review)
    && (forall s :: s in b.signals ==> exists r :: r in b.rows && r.id == s.transactionId)
  }

  /** An account's entries lead from its first balance to its stored one, and its version counts them. */
  ghost predicate AccountAgrees(b0: Books, b: Books, id: Id) {
    if id in b.accounts then
      && Chained(EntriesOf(b.ledger, id), StartBalance(b0, id), b.accounts[id].balance)
      && b.accounts[id].version == StartVersion(b0, id) + |EntriesOf(b.ledger, id)|
    else id !in b0.accounts && EntriesOf(b.ledger, id) == []
  }

  ghost predicate LedgerAgrees(b0: Books, b: Books) {
    forall id :: AccountAgrees(b0, b, id)
  }

  ghost predicate Sound(b0: Books, b: Books) {
    Conserved(b0, b) && LedgerAgrees(b0, b) && Paired(b) && Unique(b) && ScoresExplained(b)
  }

  lemma {:induction false} ScoreOfAppend(signals: seq<SignalRow>, id: nat, added: seq<Signal>, of: nat)
    ensures ScoreOf(signals + SignalRows(id, added), of) == ScoreOf(signals, of) + if of == id then Sum(added) else 0
  {
    var all := signals + SignalRows(id, added);
    if added == [] {
      assert all == signals;
    } else {
      var n := |added| - 1;
      assert all[..|all| - 1] == signals + SignalRows(id, added[..n]);
      ScoreOfAppend(signals, id, added[..n], of);
    }
  }

  lemma {:induction false} NoRowsNoScore(signals: seq<SignalRow>, id: nat)
    requires forall s :: s in signals ==> s.transactionId != id
    ensures ScoreOf(signals, id) == 0
  {
    if signals != [] { NoRowsNoScore(signals[..|signals| - 1], id); }
  }

  lemma EntriesOfAppend(ledger: seq<Entry>, debit: Entry, credit: Entry, id: Id)
    requires debit.account != credit.account
    ensures EntriesOf(ledger + [debit, credit], id) ==
      EntriesOf(ledger, id) + if debit.account == id then [debit] else if credit.account == id then [credit] else []
  {
    var one, two := ledger + [debit], ledger + [debit, credit];
    assert one[..|one| - 1] == ledger && two[..|two| - 1] == one;
  }

  lemma ChainedAppend(entries: seq<Entry>, start: int, e: Entry)
    requires Chained(entries, start, e.before) && e.after == e.before + Change(e)
    ensures Chained(entries + [e], start, e.after)
  {
    assert (entries + [e])[..|entries|] == entries;
  }

  lemma TransferKeepsConserved(b0: Books, b: Books, e: Event)
    requires Conserved(b0, b) && Allowed(b, e) && e.Transferred?
    ensures Conserved(b0, Perform(b, e))
  {
    var row := e.row;
    var sender, recipient := b.accounts[row.from], b.accounts[row.to];
    var paid := sender.(balance := sender.balance - row.amount, version := sender.version + 1);
    var debited := b.accounts[row.from := paid];
    TotalAfterUpdate(b.accounts, row.from, debited[row.from]);
    TotalAfterUpdate(debited, row.to, Perform(b, e).accounts[row.to]);
  }

  lemma TransferKeepsLedger(b0: Books, b: Books, e: Event, id: Id)
    requires AccountAgrees(b0, b, id) && Allowed(b, e) && e.Transferred?
    ensures AccountAgrees(b0, Perform(b, e), id)
  {
    var pair := EntryPair(e.row, b.accounts[e.row.from].balance, b.accounts[e.row.to].balance);
    EntriesOfAppend(b.ledger, pair[0], pair[1], id);
    assert EntriesOf(b.ledger, id) + [] == EntriesOf(b.ledger, id);
    if id == e.row.from { ChainedAppend(EntriesOf(b.ledger, id), StartBalance(b0, id), pair[0]); }
    if id == e.row.to { ChainedAppend(EntriesOf(b.ledger, id), StartBalance(b0, id), pair[1]); }
  }

  lemma TransferKeepsScores(b: Books, e: Event)
    requires ScoresExplained(b) && Allowed(b, e) && e.Transferred?
    ensures ScoresExplained(Perform(b, e))
  {
    var b' := Perform(b, e);
    forall r | r in b'.rows ensures r.fraudScore == ScoreOf(b'.signals, r.id) {
      ScoreOfAppend(b.signals, e.row.id, e.signals, r.id);
      if r == e.row { NoRowsNoScore(b.signals, r.id); }
    }
    forall s | s in b'.signals ensures exists r :: r in b'.rows && r.id == s.transactionId {
      if s in b.signals {
        var r :| r in b.rows && r.id == s.transactionId;
        assert r in b'.rows;
      } else {
        assert e.row in b'.rows;
      }
    }
  }

  lemma TransferKeepsPairs(b: Books, e: Event)
    requires Paired(b) && Unique(b) && Allowed(b, e) && e.Transferred?
    ensures Paired(Perform(b, e)) && Unique(Perform(b, e))
  {
    var b', n := Perform(b, e), |b.rows|;
    assert b'.ledger[2 * n..] == EntryPair(e.row, b.accounts[e.row.from].balance, b.accounts[e.row.to].balance);
  }

  lemma OpeningKeepsSound(b0: Books, b: Books, e: Event)
    requires Sound(b0, b) && Allowed(b, e) && e.Opened?
    ensures Sound(b0, Perform(b, e))
  {
    TotalAfterUpdate(b.accounts, e.id, Account(0, 0, Active));
    forall id ensures AccountAgrees(b0, Perform(b, e), id) { assert AccountAgrees(b0, b, id); }
  }

  lemma PerformKeepsSound(b0: Books, b: Books, e: Event)
    requires Sound(b0, b) && Allowed(b, e)
    ensures Sound(b0, Perform(b, e))
  {
    match e
    case Opened(_) =>
      OpeningKeepsSound(b0, b, e);
    case Transferred(_, _) =>
      TransferKeepsConserved(b0, b, e);
      forall id ensures AccountAgrees(b0, Perform(b, e), id) { TransferKeepsLedger(b0, b, e, id); }
      TransferKeepsPairs(b, e);
      TransferKeepsScores(b, e);
  }

  /** Whatever is performed, the books stay sound. */
  lemma {:induction false} ReplayIsSound(b0: Books, events: seq<Event>)
    requires Opening(b0) && Replay(b0, events).Some?
    ensures Sound(b0, Replay(b0, events).value)
  {
    if events != [] {
      ReplayIsSound(b0, events[..|events| - 1]);
      PerformKeepsSound(b0, Replay(b0, events[..|events| - 1]).value, events[|events| - 1]);
    }
  }

  /** One debit and one credit for every transfer, so the ledger's debits and credits cancel out. */
  lemma ExactlyOnePairPerTransfer(b: Books, i: nat)
    requires Paired(b) && Unique(b) && i < |b.rows|
    ensures forall j :: 0 <= j < |b.ledger| ==>
      (b.ledger[j].transactionId == b.rows[i].id <==> j == 2 * i || j == 2 * i + 1)
  {
    forall j | 0 <= j < |b.ledger|
      ensures b.ledger[j].transactionId == b.rows[i].id <==> j == 2 * i || j == 2 * i + 1
    {
      var r := b.rows[j / 2];
      assert j == 2 * (j / 2) || j == 2 * (j / 2) + 1;
    }
  }

  /** No number in the ledger exceeds the total money. */
  ghost predicate EntriesWithin(b: Books, total: int) {
    forall e :: e in b.ledger ==> 0 <= e.amount <= total && 0 <= e.before <= total && 0 <= e.after <= total
  }

  lemma PerformKeepsEntriesWithin(b0: Books, b: Books, e: Event)
    requires Conserved(b0, b) && EntriesWithin(b, Total(b0.accounts)) && Allowed(b, e)
    ensures EntriesWithin(Perform(b, e), Total(b0.accounts))
  {
    if e.Transferred? {
      TwoBalancesWithinTotal(b.accounts, e.row.from, e.row.to);
      NoBalanceExceedsTotal(b.accounts, e.row.from);
      NoBalanceExceedsTotal(b.accounts, e.row.to);
    }
  }

  lemma {:induction false} ReplayKeepsEntriesWithin(b0: Books, events: seq<Event>)
    requires Opening(b0) && Replay(b0, events).Some?
    ensures EntriesWithin(Replay(b0, events).value, Total(b0.accounts))
  {
    if events != [] {
      var n := |events| - 1;
      ReplayKeepsEntriesWithin(b0, events[..n]);
      ReplayIsSound(b0, events[..n]);
      PerformKeepsEntriesWithin(b0, Replay(b0, events[..n]).value, events[n]);
    }
  }
}
