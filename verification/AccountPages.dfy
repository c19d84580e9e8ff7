/**
 The paginated histories of services/account-service: the UNION ALL query for an account's transfers, the
 query for its ledger entries, and the page arithmetic around both.
 */
module AccountPages {
  import opened Prelude
  import opened Books
  import opened TransferProtocol
  import opened TransferSafety

  /** A row of the transactions table or of the ledger, with its created_at. */
  datatype Stored<+T> = Stored(row: T, createdAt: int)

  function Where<T>(table: seq<T>, wanted: T -> bool): seq<T> {
    if table == [] then []
    else
      var n := |table| - 1;
      Where(table[..n], wanted) + if wanted(table[n]) then [table[n]] else []
  }

  // ---------------------------------------------------------------- UNION ALL

  function Sends(id: Id): Stored<Row> -> bool { (t: Stored<Row>) => t.row.from == id }

  function Receives(id: Id): Stored<Row> -> bool { (t: Stored<Row>) => t.row.to == id }

  function Either(id: Id): Stored<Row> -> bool { (t: Stored<Row>) => t.row.from == id || t.row.to == id }

  function Both(id: Id): Stored<Row> -> bool { (t: Stored<Row>) => t.row.from == id && t.row.to == id }

  /** The two arms of the query, one after the other. */
  function UnionAll(table: seq<Stored<Row>>, id: Id): seq<Stored<Row>> {
    Where(table, Sends(id)) + Where(table, Receives(id))
  }

  /** The filter that it replaces. */
  function OrFilter(table: seq<Stored<Row>>, id: Id): seq<Stored<Row>> {
    Where(table, Either(id))
  }

  function SelfTransfers(table: seq<Stored<Row>>, id: Id): seq<Stored<Row>> {
    Where(table, Both(id))
  }

  function Bag<T>(table: seq<T>, wanted: T -> bool): multiset<T> { multiset(Where(table, wanted)) }

  lemma OneRowMore<T>(table: seq<T>, wanted: T -> bool)
    requires table != []
    ensures var n := |table| - 1;
      Bag(table, wanted) ==
        if wanted(table[n]) then Bag(table[..n], wanted) + multiset{table[n]} else Bag(table[..n], wanted)
  {}

  lemma Regroup<T>(a: multiset<T>, b: multiset<T>, c: multiset<T>, d: multiset<T>, one: multiset<T>)
    requires a + b == c + d
    ensures (a + one) + (b + one) == (c + one) + (d + one)
    ensures (a + one) + b == (c + one) + d == a + (b + one)
  {
    assert (a + one) + (b + one) == (a + b) + (one + one);
    assert (a + one) + b == (a + b) + one;
    assert a + (b + one) == (a + b) + one;
  }

  lemma {:induction false} BagsOverlap(table: seq<Stored<Row>>, id: Id)
    ensures Bag(table, Sends(id)) + Bag(table, Receives(id)) == Bag(table, Either(id)) + Bag(table, Both(id))
  {
    if table != [] {
      var before := table[..|table| - 1];
      BagsOverlap(before, id);
      OneRowMore(table, Sends(id));
      OneRowMore(table, Receives(id));
      OneRowMore(table, Either(id));
      OneRowMore(table, Both(id));
      Regroup(Bag(before, Sends(id)), Bag(before, Receives(id)), Bag(before, Either(id)), Bag(before, Both(id)),
              multiset{table[|table| - 1]});
    }
  }

  /** A row from the account to itself comes from both arms. */
  lemma ArmsOverlap(table: seq<Stored<Row>>, id: Id)
    ensures multiset(UnionAll(table, id)) == multiset(OrFilter(table, id)) + multiset(SelfTransfers(table, id))
  {
    BagsOverlap(table, id);
  }

  lemma {:induction false} WhereContains<T>(table: seq<T>, wanted: T -> bool)
    ensures forall t :: t in Where(table, wanted) <==> t in table && wanted(t)
  {
    if table != [] {
      var n := |table| - 1;
      WhereContains(table[..n], wanted);
      assert table == table[..n] + [table[n]];
    }
  }

  /** A filter keeps each row it wants as often as the table holds it. */
  lemma {:induction false} WhereCounts<T>(table: seq<T>, wanted: T -> bool, t: T)
    ensures multiset(Where(table, wanted))[t] == if wanted(t) then multiset(table)[t] else 0
  {
    if table != [] {
      var n := |table| - 1;
      WhereCounts(table[..n], wanted, t);
      OneRowMore(table, wanted);
      assert table == table[..n] + [table[n]];
    }
  }

  /** The rewrite gives the same rows equally often exactly when no stored row is the account's own self-transfer. */
  lemma UnionAllIsOrFilterIff(table: seq<Stored<Row>>, id: Id)
    ensures multiset(UnionAll(table, id)) == multiset(OrFilter(table, id))
            <==> forall t :: t in table ==> !(t.row.from == id && t.row.to == id)
  {
    ArmsOverlap(table, id);
    WhereContains(table, Both(id));
    var both := SelfTransfers(table, id);
    assert both == [] <==> forall t :: t in table ==> !(t.row.from == id && t.row.to == id) by {
      if both != [] { assert both[0] in both; }
    }
    assert |multiset(UnionAll(table, id))| == |multiset(OrFilter(table, id))| + |multiset(both)|;
    assert |multiset(both)| == |both|;
  }

  /** So at any time in any run of the transfer service the two queries agree, for every account. */
  lemma RewriteIsRight(s0: State, steps: seq<Step>, table: seq<Stored<Row>>, id: Id)
    requires Initial(s0) && forall t :: t in table ==> t.row in Run(s0, steps).db.books.rows
    ensures multiset(UnionAll(table, id)) == multiset(OrFilter(table, id))
  {
    BooksAreSound(s0, steps);
    var b := Run(s0, steps).db.books;
    forall t | t in table ensures !(t.row.from == id && t.row.to == id) {
      var i :| 0 <= i < |b.rows| && b.rows[i] == t.row;
      assert ValidTerms(b.rows[i].from, b.rows[i].to, b.rows[i].amount);
    }
    UnionAllIsOrFilterIff(table, id);
  }

  // ---------------------------------------------------------------- ORDER BY created_at DESC

  /** One of the orders in which the database may return the rows. */
  ghost predicate NewestFirst<T(!new)>(rows: multiset<Stored<T>>, order: seq<Stored<T>>) {
    multiset(order) == rows && forall i, j :: 0 <= i < j < |order| ==> order[i].createdAt >= order[j].createdAt
  }

  ghost predicate NoTies<T(!new)>(order: seq<Stored<T>>) {
    forall i, j :: 0 <= i < j < |order| && order[i].createdAt == order[j].createdAt ==> order[i] == order[j]
  }

  /** Both orders begin with a newest row. */
  lemma SameHead<T(!new)>(order: seq<Stored<T>>, other: seq<Stored<T>>)
    requires NewestFirst(multiset(order), order) && NewestFirst(multiset(order), other) && NoTies(order)
    requires order != [] && other != []
    ensures other[0] == order[0]
  {
    assert order[0] in multiset(other) && other[0] in multiset(order);
    var i :| 0 <= i < |order| && order[i] == other[0];
    var j :| 0 <= j < |other| && other[j] == order[0];
  }

  lemma TailOf<T>(head: T, order: seq<T>)
    requires order != [] && order[0] == head
    ensures order == [head] + order[1..] && multiset(order[1..]) == multiset(order) - multiset{head}
  {
    assert order == [head] + order[1..];
  }

  lemma {:induction false} WithoutTiesOneOrder<T(!new)>(order: seq<Stored<T>>, other: seq<Stored<T>>)
    requires NewestFirst(multiset(order), order) && NewestFirst(multiset(order), other) && NoTies(order)
    ensures other == order
  {
    assert |other| == |multiset(other)| == |order|;
    if order != [] {
      SameHead(order, other);
      TailOf(order[0], order);
      TailOf(order[0], other);
      WithoutTiesOneOrder(order[1..], other[1..]);
    }
  }

  lemma TiedRowsSwap<T(!new)>(order: seq<Stored<T>>, i: nat, j: nat)
    requires NewestFirst(multiset(order), order)
    requires i < j < |order| && order[i].createdAt == order[j].createdAt && order[i] != order[j]
    ensures exists other :: NewestFirst(multiset(order), other) && other != order
  {
    var other := order[i := order[j]][j := order[i]];
    assert multiset(other) == multiset(order);
    assert NewestFirst(multiset(order), other);
    assert other[i] != order[i];
  }

  /** The order is determined exactly when rows created at the same time do not differ. */
  lemma OrderIsFixedIff<T(!new)>(order: seq<Stored<T>>)
    requires NewestFirst(multiset(order), order)
    ensures (forall other :: NewestFirst(multiset(order), other) ==> other == order) <==> NoTies(order)
  {
    if NoTies(order) {
      forall other | NewestFirst(multiset(order), other) ensures other == order { WithoutTiesOneOrder(order, other); }
    } else {
      var i, j :| 0 <= i < j < |order| && order[i].createdAt == order[j].createdAt && order[i] != order[j];
      TiedRowsSwap(order, i, j);
    }
  }

  // ---------------------------------------------------------------- pages

  datatype Fetched<T> = Fetched(items: seq<T>, total: nat)

  datatype Page<T> = Page(items: seq<T>, total: nat, page: int, limit: int, totalPages: nat, hasMore: bool)

  function Min(a: int, b: int): int { if a < b then a else b }

  function Max(a: int, b: int): int { if a < b then b else a }

  function SafeLimit(limit: int): (r: int)
    ensures 1 <= r <= 100
  { Min(Max(limit, 1), 100) }

  /** LIMIT and OFFSET, with COUNT(*) OVER () on every returned row; PostgreSQL refuses a negative offset. */
  function Fetch<T>(order: seq<T>, page: int, limit: int): Option<Fetched<T>>
    requires limit > 0
  {
    var offset := (page - 1) * limit;
    if offset < 0 then None
    else
      var from := Min(offset, |order|);
      var rows := order[from..Min(from + limit, |order|)];
      Some(Fetched(rows, if |rows| > 0 then |order| else 0))
  }

  /** getTransactions and getLedgerEntries of account.service.ts, for a history in the given order. */
  function GetPage<T>(order: seq<T>, page: int, limit: int): Option<Page<T>> {
    var safeLimit := SafeLimit(limit);
    var fetched := Fetch(order, page, safeLimit);
    if fetched.None? then None
    else
      var totalPages := CeilDiv(fetched.value.total, safeLimit);
      Some(Page(fetched.value.items, fetched.value.total, page, safeLimit, totalPages, page < totalPages))
  }

  /** How many pages a history really has. */
  function PageCount(n: nat, limit: int): nat { CeilDiv(n, SafeLimit(limit)) }

  lemma CeilIsLeast(n: nat, d: nat)
    requires d > 0
    ensures (CeilDiv(n, d) - 1) * d < n <= CeilDiv(n, d) * d
  {
    assert n + d - 1 == CeilDiv(n, d) * d + (n + d - 1) % d;
    assert (CeilDiv(n, d) - 1) * d == CeilDiv(n, d) * d - d;
  }

  lemma OffsetWithin(n: nat, page: nat, limit: nat)
    requires limit > 0 && page >= 1
    ensures (page - 1) * limit < n <==> page <= CeilDiv(n, limit)
    ensures (page - 1) * limit >= 0
  {
    var k := CeilDiv(n, limit);
    CeilIsLeast(n, limit);
    MultiplyKeepsOrder(0, page - 1, limit);
    if page <= k { MultiplyKeepsOrder(page - 1, k - 1, limit); } else { MultiplyKeepsOrder(k, page - 1, limit); }
  }

  lemma NoRowsNoPages(limit: nat)
    requires limit > 0
    ensures CeilDiv(0, limit) == 0
  {}

  /** With a page size inside the bounds: the rows of the page. */
  lemma PageItems<T>(order: seq<T>, page: int, limit: int)
    requires page >= 1 && 1 <= limit <= 100
    ensures var got, n, from := GetPage(order, page, limit), |order|, (page - 1) * limit;
      && got.Some? && got.value.page == page && got.value.limit == limit && 0 <= from <= page * limit
      && got.value.items == order[if from < n then from else n..if page * limit < n then page * limit else n]
      && got.value.total == (if from < n then n else 0)
      && got.value.totalPages == CeilDiv(got.value.total, limit)
      && (got.value.hasMore <==> page < got.value.totalPages)
  {
    MultiplyKeepsOrder(0, page - 1, limit);
    assert page * limit == (page - 1) * limit + limit;
  }

  /** And for a page that has rows the least number of pages. */
  lemma PageIsExact<T>(order: seq<T>, page: int, limit: int)
    requires page >= 1 && 1 <= limit <= 100
    ensures var got, n, from := GetPage(order, page, limit), |order|, (page - 1) * limit;
      && got.Some?
      && (from < n ==>
            && (got.value.hasMore <==> page * limit < n)
            && (got.value.totalPages - 1) * limit < n <= got.value.totalPages * limit)
      && (from >= n ==> got.value.totalPages == 0 && !got.value.hasMore)
  {
    PageItems(order, page, limit);
    CeilIsLeast(|order|, limit);
    OffsetWithin(|order|, page + 1, limit);
    NoRowsNoPages(limit);
  }

  /** Any limit is answered as the nearest one within the bounds. */
  lemma LimitIsClamped<T>(order: seq<T>, page: int, limit: int)
    ensures limit < 1 ==> GetPage(order, page, limit) == GetPage(order, page, 1)
    ensures limit > 100 ==> GetPage(order, page, limit) == GetPage(order, page, 100)
  {}

  /**
   Every answer to a page request: a page below 1 is an error; any other page has the rows from
   (page - 1) * limit up to page * limit, as far as there are any, where limit stands for the nearest number from
   1 to 100. A page with rows states the true total and the least number of pages that holds all rows, and has
   more exactly when rows follow. A page beyond the last is empty and claims that there is nothing at all.
   */
  lemma EachPage<T>(order: seq<T>, page: int, wanted: int)
    ensures var limit := if wanted < 1 then 1 else if wanted > 100 then 100 else wanted;
      var got, n, from := GetPage(order, page, wanted), |order|, (page - 1) * limit;
      && (got.None? <==> page < 1)
      && (page >= 1 ==>
            && 0 <= from <= page * limit && got.value.page == page && got.value.limit == limit
            && got.value.items == order[if from < n then from else n..if page * limit < n then page * limit else n]
            && (from < n ==>
                  && got.value.total == n && (got.value.hasMore <==> page * limit < n)
                  && (got.value.totalPages - 1) * limit < n <= got.value.totalPages * limit)
            && (from >= n ==> got.value.total == 0 && got.value.totalPages == 0 && !got.value.hasMore))
  {
    var limit := if wanted < 1 then 1 else if wanted > 100 then 100 else wanted;
    LimitIsClamped(order, page, wanted);
    if page < 1 {
      MultiplyKeepsOrder(page - 1, -1, limit);
    } else {
      PageItems(order, page, limit);
      PageIsExact(order, page, limit);
    }
  }

  /** The pages from 1 on, one after the other. */
  function Pages<T>(order: seq<T>, pages: nat, limit: int): seq<T> {
    if pages == 0 then []
    else
      var got := GetPage(order, pages, limit);
      Pages(order, pages - 1, limit) + if got.Some? then got.value.items else []
  }

  /** How many rows the first pages show if there are enough. */
  function Capacity(pages: nat, limit: int): int { pages * SafeLimit(limit) }

  lemma OnePageMore(pages: nat, limit: int)
    ensures Capacity(pages, limit) >= 0
    ensures Capacity(pages + 1, limit) == Capacity(pages, limit) + SafeLimit(limit)
  {
    MultiplyKeepsOrder(0, pages, SafeLimit(limit));
  }

  lemma NextPage<T>(order: seq<T>, page: nat, limit: int)
    requires page >= 1 && Capacity(page - 1, limit) >= 0
    ensures var before := Capacity(page - 1, limit);
      && GetPage(order, page, limit).Some?
      && order[..Min(before, |order|)] + GetPage(order, page, limit).value.items ==
          order[..Min(before + SafeLimit(limit), |order|)]
  {
    var before := Capacity(page - 1, limit);
    assert Min(Min(before, |order|) + SafeLimit(limit), |order|) == Min(before + SafeLimit(limit), |order|);
  }

  lemma {:induction false} PagesArePrefix<T>(order: seq<T>, pages: nat, limit: int)
    ensures 0 <= Capacity(pages, limit)
    ensures Pages(order, pages, limit) == order[..Min(Capacity(pages, limit), |order|)]
  {
    if pages == 0 {
      assert Capacity(0, limit) == 0;
    } else {
      PagesArePrefix(order, pages - 1, limit);
      OnePageMore(pages - 1, limit);
      NextPage(order, pages, limit);
    }
  }

  /**
   The pages from the first to the last are the whole history, every row once and in order. A client that
   asks on until hasMore is false stops just there, because of EachPage.
   */
  lemma PagesAreTheHistory<T>(order: seq<T>, limit: int)
    ensures Pages(order, PageCount(|order|, limit), limit) == order
    ensures forall k :: 0 <= k < PageCount(|order|, limit) ==> |Pages(order, k, limit)| < |order|
  {
    var last := PageCount(|order|, limit);
    PagesArePrefix(order, last, limit);
    OffsetWithin(|order|, last + 1, SafeLimit(limit));
    forall k | 0 <= k < last ensures |Pages(order, k, limit)| < |order| { FewerPagesShowLess(order, k, limit); }
  }

  lemma FewerPagesShowLess<T>(order: seq<T>, pages: nat, limit: int)
    requires pages < PageCount(|order|, limit)
    ensures |Pages(order, pages, limit)| < |order|
  {
    PagesArePrefix(order, pages, limit);
    OffsetWithin(|order|, pages + 1, SafeLimit(limit));
  }

  /**
   Put together for the transfer history: whatever order the query returns at some time in some run, the pages
   from first to last show exactly the transfers from or to the account, each as often as it is stored.
   */
  lemma PagesShowTheTransfers(s0: State, steps: seq<Step>, table: seq<Stored<Row>>, id: Id,
                              order: seq<Stored<Row>>, limit: int, t: Stored<Row>)
    requires Initial(s0) && forall t :: t in table ==> t.row in Run(s0, steps).db.books.rows
    requires NewestFirst(multiset(UnionAll(table, id)), order)
    ensures multiset(Pages(order, PageCount(|order|, limit), limit))[t] ==
      if t.row.from == id || t.row.to == id then multiset(table)[t] else 0
  {
    RewriteIsRight(s0, steps, table, id);
    PagesAreTheHistory(order, limit);
    WhereCounts(table, Either(id), t);
  }

  /** Where two rows tie, the database may order them differently for each page: a row is shown twice, another never. */
  lemma TiesMayRepeatARow<T(!new)>(a: Stored<T>, b: Stored<T>)
    requires a.createdAt == b.createdAt && a != b
    ensures var one, two := [a, b], [b, a];
      && NewestFirst(multiset{a, b}, one) && NewestFirst(multiset{a, b}, two)
      && GetPage(one, 1, 1).value.items == [a] && GetPage(two, 2, 1).value.items == [a]
  {
    assert [b, a][1..2] == [a] && [a, b][0..1] == [a];
  }
}
