/**
 The amount rule of amountAnomalyRule.ts: a Redis sorted set whose members are amounts and whose scores are
 the times of use, trimmed to 20 after every call. Because an amount is a member of the set, using it again
 moves it instead of adding it. The set is compared with the untrimmed ranking of the whole history.
 */
module AmountAnomaly {
  import opened Prelude
  import opened FraudEngine
  import opened FraudRules

  datatype Member = Member(amount: nat, score: nat)

  datatype Use = Use(amount: nat, time: nat)

  const KEPT: nat := 20

  // ---------------------------------------------------------------- amounts as strings

  const DIGITS: string := "0123456789"

  function ToString(n: nat): string {
    if n < 10 then [DIGITS[n]] else ToString(n / 10) + [DIGITS[n % 10]]
  }

  function ToNumber(s: string): int {
    if s == [] then 0 else 10 * ToNumber(s[..|s| - 1]) + (s[|s| - 1] as int - '0' as int)
  }

  lemma {:induction false} NumberOfString(n: nat)
    ensures ToNumber(ToString(n)) == n
  {
    if n >= 10 { NumberOfString(n / 10); }
  }

  // ---------------------------------------------------------------- the sorted set

  /** The order of a Redis sorted set: by score, then by the member's characters. */
  predicate Before(x: Member, y: Member) {
    x.score < y.score || (x.score == y.score && Less(ToString(x.amount), ToString(y.amount)))
  }

  predicate Ranked(s: seq<Member>) {
    forall i, j :: 0 <= i < j < |s| ==> Before(s[i], s[j])
  }

  function Remove(s: seq<Member>, amount: nat): seq<Member> {
    if s == [] then []
    else if s[|s| - 1].amount == amount then s[..|s| - 1]
    else Remove(s[..|s| - 1], amount) + [s[|s| - 1]]
  }

  function Insert(s: seq<Member>, m: Member): seq<Member> {
    if s == [] || Before(s[|s| - 1], m) then s + [m]
    else Insert(s[..|s| - 1], m) + [s[|s| - 1]]
  }

  /** ZADD: a member already there gets the new score. */
  function ZAdd(s: seq<Member>, m: Member): seq<Member> { Insert(Remove(s, m.amount), m) }

  /** ZREMRANGEBYRANK key 0 -(n+1): only the n highest ranks stay. */
  function Last(n: nat, s: seq<Member>): seq<Member> { if |s| <= n then s else s[|s| - n..] }

  function SumOf(s: seq<Member>): nat { if s == [] then 0 else SumOf(s[..|s| - 1]) + s[|s| - 1].amount }

  /** amount > 5 * average, over exact rationals. */
  predicate Anomalous(s: seq<Member>, amount: nat) { |s| >= 3 && amount * |s| > 5 * SumOf(s) }

  datatype Amounts = Amounts(members: seq<Member>, expiresAt: nat)

  /** What is left of the set at a given time. */
  function Alive(a: Amounts, now: nat): seq<Member> { if now < a.expiresAt then a.members else [] }

  function Touch(a: Amounts, u: Use, kept: Option<nat>): Amounts {
    var added := ZAdd(Alive(a, u.time), Member(u.amount, u.time));
    Amounts(if kept.Some? then Last(kept.value, added) else added, u.time + AMOUNTS_TTL)
  }

  class AmountAnomalyRule {
    var key: Amounts

    constructor ()
      ensures key == Amounts([], 0)
    { key := Amounts([], 0); }

    /** ZADD, ZREMRANGEBYRANK and EXPIRE, on what has not expired. */
    method Store(amount: nat, now: nat)
      modifies this
      ensures key == Touch(old(key), Use(amount, now), Some(KEPT))
    {
      if key.expiresAt <= now { key := Amounts([], 0); }
      key := key.(members := ZAdd(key.members, Member(amount, now)));
      if |key.members| > KEPT { key := key.(members := key.members[|key.members| - KEPT..]); }
      key := key.(expiresAt := now + AMOUNTS_TTL);
    }

    method CheckAmountAnomaly(amount: nat, now: nat) returns (signal: Option<Signal>)
      modifies this
      ensures key == Touch(old(key), Use(amount, now), Some(KEPT))
      ensures signal == if Anomalous(key.members, amount) then Some(Signal("AMOUNT_ANOMALY", 30)) else None
    {
      Store(amount, now);
      var amounts := key.members;
      if |amounts| < 3 { return None; }
      var total := Reduce(amounts);
      return if amount * |amounts| > 5 * total then Some(RULES[1]) else None;
    }
  }

  /** The reduction that sums up the amounts. */
  method Reduce(amounts: seq<Member>) returns (total: nat)
    ensures total == SumOf(amounts)
  {
    total := 0;
    for i := 0 to |amounts|
      invariant total == SumOf(amounts[..i])
    {
      total := total + amounts[i].amount;
      assert amounts[..i + 1][..i] == amounts[..i];
    }
    assert amounts[..|amounts|] == amounts;
  }

  /** The stored set after a history of calls, and the same without the trimming. */
  function After(uses: seq<Use>, kept: Option<nat>): Amounts {
    if uses == [] then Amounts([], 0) else Touch(After(uses[..|uses| - 1], kept), uses[|uses| - 1], kept)
  }

  function Times(uses: seq<Use>): seq<nat> { seq(|uses|, i requires 0 <= i < |uses| => uses[i].time) }

  // ---------------------------------------------------------------- trimming loses nothing that counts

  lemma LastOfAppend(n: nat, u: seq<Member>, v: seq<Member>)
    requires |v| <= n
    ensures Last(n, u + v) == Last(n - |v|, u) + v
  {}

  lemma {:induction false} TrimmedInsert(s: seq<Member>, m: Member, n: nat)
    ensures Last(n, Insert(Last(n, s), m)) == Last(n, Insert(s, m))
  {
    if s != [] && n > 0 {
      var init, x := s[..|s| - 1], s[|s| - 1];
      assert s == init + [x];
      LastOfAppend(n, init, [x]);
      InsertAtEnd(init, x, m);
      InsertAtEnd(Last(n - 1, init), x, m);
      if Before(x, m) {
        LastOfAppend(n, s, [m]);
        LastOfAppend(n, Last(n, s), [m]);
      } else {
        TrimmedInsert(init, m, n - 1);
        LastOfAppend(n, Insert(init, m), [x]);
        LastOfAppend(n, Insert(Last(n - 1, init), m), [x]);
      }
    }
  }

  lemma InsertAtEnd(s: seq<Member>, x: Member, m: Member)
    ensures Insert(s + [x], m) == if Before(x, m) then s + [x] + [m] else Insert(s, m) + [x]
  {
    assert (s + [x])[..|s|] == s;
  }

  /** Where everything up to an element ranks before m, m is inserted after it. */
  lemma {:induction false} InsertAfter(u: seq<Member>, v: seq<Member>, m: Member)
    requires forall x :: x in u ==> Before(x, m)
    ensures Insert(u + v, m) == u + Insert(v, m)
  {
    if v == [] {
      assert u + v == u;
    } else {
      var init, x := v[..|v| - 1], v[|v| - 1];
      assert v == init + [x] && u + v == u + init + [x];
      InsertAtEnd(u + init, x, m);
      InsertAtEnd(init, x, m);
      InsertAfter(u, init, m);
    }
  }

  predicate Has(s: seq<Member>, amount: nat) { exists x :: x in s && x.amount == amount }

  lemma {:induction false} RemoveAbsent(s: seq<Member>, amount: nat)
    requires !Has(s, amount)
    ensures Remove(s, amount) == s
  {
    if s != [] {
      assert s[|s| - 1] in s;
      forall x | x in s[..|s| - 1] ensures x.amount != amount { assert x in s; }
      RemoveAbsent(s[..|s| - 1], amount);
    }
  }

  /** Remove takes out the last occurrence. */
  lemma {:induction false} RemoveSplits(s: seq<Member>, amount: nat) returns (u: seq<Member>, x: Member, v: seq<Member>)
    requires Has(s, amount)
    ensures s == u + [x] + v && x.amount == amount && !Has(v, amount) && Remove(s, amount) == u + v
  {
    var init, last := s[..|s| - 1], s[|s| - 1];
    if last.amount == amount {
      u, x, v := init, last, [];
    } else {
      var y :| y in s && y.amount == amount;
      assert y in init;
      u, x, v := RemoveSplits(init, amount);
      v := v + [last];
    }
  }

  lemma {:induction false} RemoveAcross(u: seq<Member>, v: seq<Member>, amount: nat)
    ensures Remove(u + v, amount) == if Has(v, amount) then u + Remove(v, amount) else Remove(u, amount) + v
  {
    if v == [] {
      assert u + v == u && Remove(u, amount) + v == Remove(u, amount);
    } else {
      assert (u + v)[..|u + v| - 1] == u + v[..|v| - 1];
      RemoveAcross(u, v[..|v| - 1], amount);
      assert v == v[..|v| - 1] + [v[|v| - 1]];
    }
  }

  /** One call on the trimmed set has the same outcome as on the full ranking, as long as time does not run back. */
  lemma TrimmedZAdd(full: seq<Member>, m: Member, n: nat)
    requires Ranked(full) && forall x :: x in full ==> x.score <= m.score
    ensures Last(n, ZAdd(Last(n, full), m)) == Last(n, ZAdd(full, m))
  {
    var kept := Last(n, full);
    var gone := full[..|full| - |kept|];
    assert full == gone + kept;
    RemoveAcross(gone, kept, m.amount);
    if Has(kept, m.amount) {
      var u, x, v := RemoveSplits(kept, m.amount);
      ReusedStaysKept(gone, u, x, v, m, n);
    } else {
      RemoveAbsent(kept, m.amount);
      LowerOnesStayGone(Remove(gone, m.amount), kept, m, n);
    }
  }

  lemma LowerOnesStayGone(gone: seq<Member>, kept: seq<Member>, m: Member, n: nat)
    requires |kept| <= n && (gone == [] || |kept| == n)
    ensures Last(n, Insert(kept, m)) == Last(n, Insert(gone + kept, m))
  {
    LastOfAppend(n, gone, kept);
    assert Last(n, gone + kept) == kept;
    TrimmedInsert(gone + kept, m, n);
  }

  /** An amount that is in the trimmed set goes up when it is used again, past nothing that was trimmed. */
  lemma ReusedStaysKept(gone: seq<Member>, u: seq<Member>, x: Member, v: seq<Member>, m: Member, n: nat)
    requires Ranked(gone + (u + [x] + v)) && x.amount == m.amount && x.score <= m.score
    requires |u| + 1 + |v| <= n && (gone == [] || |u| + 1 + |v| == n)
    ensures Last(n, Insert(u + v, m)) == Last(n, Insert(gone + (u + v), m))
  {
    var full := gone + (u + [x] + v);
    forall y | y in gone + u ensures Before(y, m) {
      var i :| 0 <= i < |gone + u| && (gone + u)[i] == y;
      assert full[i] == y && full[|gone + u|] == x;
    }
    InsertAfter(u, v, m);
    assert gone + (u + v) == (gone + u) + v && gone + (u + Insert(v, m)) == (gone + u) + Insert(v, m);
    InsertAfter(gone + u, v, m);
    InsertGrows(v, m);
    LastOfAppend(n, gone, u + Insert(v, m));
  }

  lemma {:induction false} InsertGrows(s: seq<Member>, m: Member)
    ensures |Insert(s, m)| == |s| + 1
  {
    if s != [] { InsertGrows(s[..|s| - 1], m); }
  }

  // ---------------------------------------------------------------- the ranking of the whole history

  predicate DistinctAmounts(s: seq<Member>) {
    forall i, j :: 0 <= i < j < |s| ==> s[i].amount != s[j].amount
  }

  lemma BeforeIsTotal(x: Member, y: Member)
    requires x.amount != y.amount
    ensures Before(x, y) || Before(y, x)
  {
    NumberOfString(x.amount);
    NumberOfString(y.amount);
    LessIsTotal(ToString(x.amount), ToString(y.amount));
  }

  lemma BeforeIsTransitive(x: Member, y: Member, z: Member)
    requires Before(x, y) && Before(y, z)
    ensures Before(x, z)
  {
    if x.score == y.score == z.score {
      LessIsTransitive(ToString(x.amount), ToString(y.amount), ToString(z.amount));
    }
  }

  lemma {:induction false} RemoveKeepsRanked(s: seq<Member>, amount: nat)
    requires Ranked(s) && DistinctAmounts(s)
    ensures var r := Remove(s, amount);
      Ranked(r) && DistinctAmounts(r) && forall x :: x in r <==> x in s && x.amount != amount
  {
    if s != [] && s[|s| - 1].amount != amount {
      var init, last := s[..|s| - 1], s[|s| - 1];
      assert s == init + [last];
      RemoveKeepsRanked(init, amount);
      forall x | x in Remove(init, amount) ensures Before(x, last) && x.amount != last.amount {
        assert x in init;
      }
    }
  }

  lemma {:induction false} InsertKeepsRanked(s: seq<Member>, m: Member)
    requires Ranked(s) && DistinctAmounts(s) && !Has(s, m.amount)
    ensures var r := Insert(s, m);
      Ranked(r) && DistinctAmounts(r) && forall x :: x in r <==> x in s || x == m
  {
    if s != [] {
      var init, last := s[..|s| - 1], s[|s| - 1];
      assert s == init + [last] && last in s;
      if Before(last, m) {
        forall x | x in s ensures Before(x, m) && x.amount != m.amount {
          if x != last { BeforeIsTransitive(x, last, m); }
        }
      } else {
        BeforeIsTotal(last, m);
        forall x | x in init ensures x in s && x.amount != m.amount {}
        InsertKeepsRanked(init, m);
        forall x | x in Insert(init, m) ensures Before(x, last) && x.amount != last.amount {
          assert x in init || x == m;
        }
      }
    }
  }

  lemma ZAddKeepsRanked(s: seq<Member>, m: Member)
    requires Ranked(s) && DistinctAmounts(s)
    ensures var r := ZAdd(s, m);
      Ranked(r) && DistinctAmounts(r) && forall x :: x in r <==> x == m || (x in s && x.amount != m.amount)
  {
    RemoveKeepsRanked(s, m.amount);
    assert !Has(Remove(s, m.amount), m.amount);
    InsertKeepsRanked(Remove(s, m.amount), m);
  }

  /** The i-th use is linked to the last call and its amount has not been used since. */
  predicate IsLatestUse(uses: seq<Use>, i: int) {
    && |uses| - Chain(Times(uses), 2_592_000_000) <= i < |uses|
    && forall j :: i < j < |uses| ==> uses[j].amount != uses[i].amount
  }

  function MemberOf(u: Use): Member { Member(u.amount, u.time) }

  /** The distinct amounts of the history since its last 30-day gap, each with the time of its latest use. */
  function LatestUses(uses: seq<Use>): set<Member> {
    set i | 0 <= i < |uses| && IsLatestUse(uses, i) :: MemberOf(uses[i])
  }

  /** How one more call changes the latest uses. */
  lemma LatestUsesGrow(uses: seq<Use>, now: Use)
    ensures var linked := uses != [] && now.time < uses[|uses| - 1].time + 2_592_000_000;
      forall x :: x in LatestUses(uses + [now]) <==>
        x == MemberOf(now) || (linked && x in LatestUses(uses) && x.amount != now.amount)
  {
    var all, n := uses + [now], |uses|;
    assert all[..n] == uses && Times(all)[..n] == Times(uses);
    assert IsLatestUse(all, n);
    if uses != [] && now.time < uses[n - 1].time + 2_592_000_000 {
      forall i | 0 <= i < n ensures IsLatestUse(all, i) <==> IsLatestUse(uses, i) && uses[i].amount != now.amount {
        assert forall j :: i < j < n ==> all[j] == uses[j];
        assert all[n] == now;
      }
    }
  }

  /** Untrimmed, the set ranks exactly the latest uses. */
  lemma {:induction false} FullRanking(uses: seq<Use>)
    requires FraudRules.InOrder(Times(uses))
    ensures var full := After(uses, None);
      && Ranked(full.members) && DistinctAmounts(full.members)
      && (forall x :: x in full.members <==> x in LatestUses(uses))
      && (forall x :: x in full.members ==> x.score <= uses[|uses| - 1].time)
      && (uses != [] ==> full.expiresAt == uses[|uses| - 1].time + 2_592_000_000)
  {
    if uses != [] {
      var n := |uses| - 1;
      assert Times(uses)[..n] == Times(uses[..n]) && uses[..n] + [uses[n]] == uses;
      assert forall i :: 0 <= i <= n ==> Times(uses)[i] == uses[i].time && Times(uses)[i] <= Times(uses)[n];
      FullRanking(uses[..n]);
      LatestUsesGrow(uses[..n], uses[n]);
      ZAddKeepsRanked(Alive(After(uses[..n], None), uses[n].time), MemberOf(uses[n]));
    }
  }

  /**
   The trimmed set equals the full history: whatever was dropped on the way, the stored amounts are the 20
   highest of the ranking of all distinct amounts by their latest use.
   */
  lemma {:induction false} StoredIsTopOfRanking(uses: seq<Use>)
    requires FraudRules.InOrder(Times(uses))
    ensures After(uses, Some(20)).members == Last(20, After(uses, None).members)
    ensures After(uses, Some(20)).expiresAt == After(uses, None).expiresAt
  {
    if uses != [] {
      var n := |uses| - 1;
      assert Times(uses)[..n] == Times(uses[..n]);
      assert forall i :: 0 <= i <= n ==> Times(uses)[i] == uses[i].time && Times(uses)[i] <= Times(uses)[n];
      StoredIsTopOfRanking(uses[..n]);
      FullRanking(uses[..n]);
      TrimmedZAdd(Alive(After(uses[..n], None), uses[n].time), MemberOf(uses[n]), 20);
    }
  }

  // ---------------------------------------------------------------- the last 20 amounts

  /** The last k calls since the last 30-day gap. */
  function RecentUses(uses: seq<Use>, k: nat): seq<Use> {
    var n := Chain(Times(uses), 2_592_000_000);
    uses[|uses| - (if k < n then k else n)..]
  }

  function Members(uses: seq<Use>): seq<Member> {
    seq(|uses|, i requires 0 <= i < |uses| => MemberOf(uses[i]))
  }

  predicate NoAmountTwice(uses: seq<Use>) {
    forall i, j :: 0 <= i < j < |uses| ==> uses[i].amount != uses[j].amount
  }

  predicate StrictlyInOrder(uses: seq<Use>) {
    forall i, j :: 0 <= i < j < |uses| ==> uses[i].time < uses[j].time
  }

  /** With a call that is later than everything stored, its amount goes on top. */
  lemma LatestGoesOnTop(s: seq<Member>, m: Member)
    requires forall x :: x in s ==> x.score < m.score
    ensures Insert(s, m) == s + [m]
  {
    if s != [] { assert s[|s| - 1] in s; }
  }

  /** An amount that is not among the highest k is removed from below them. */
  lemma RemovedBelow(s: seq<Member>, amount: nat, k: nat)
    requires !Has(Last(k, s), amount)
    ensures Last(k, Remove(s, amount)) == Last(k, s)
  {
    var top := Last(k, s);
    var low := s[..|s| - |top|];
    assert s == low + top;
    RemoveAcross(low, top, amount);
    if low != [] { LastOfAppend(k, Remove(low, amount), top); }
  }

  lemma TopAfterCall(s: seq<Member>, m: Member, k: nat)
    requires k > 0 && (forall x :: x in s ==> x.score < m.score) && !Has(Last(k - 1, s), m.amount)
    ensures Last(k, ZAdd(s, m)) == Last(k - 1, s) + [m]
  {
    var rest := Remove(s, m.amount);
    RemoveOnlyRemoves(s, m.amount);
    LatestGoesOnTop(rest, m);
    RemovedBelow(s, m.amount, k - 1);
    LastOfAppend(k, rest, [m]);
  }

  lemma {:induction false} RemoveOnlyRemoves(s: seq<Member>, amount: nat)
    ensures forall x :: x in Remove(s, amount) ==> x in s
  {
    if s != [] { RemoveOnlyRemoves(s[..|s| - 1], amount); }
  }

  lemma RecentUsesGrow(uses: seq<Use>, now: Use, k: nat)
    requires k > 0
    ensures RecentUses(uses + [now], k) ==
      (if uses != [] && now.time < uses[|uses| - 1].time + 2_592_000_000 then RecentUses(uses, k - 1) else []) + [now]
  {
    var all := uses + [now];
    assert Times(all)[..|uses|] == Times(uses);
  }

  lemma OneMoreRecent(alive: seq<Member>, recent: seq<Use>, now: Use, k: nat)
    requires k > 0 && (forall x :: x in alive ==> x.score < now.time)
    requires Last(k - 1, alive) == Members(recent) && NoAmountTwice(recent + [now])
    ensures Last(k, ZAdd(alive, MemberOf(now))) == Members(recent + [now])
  {
    NotAmong(recent, now);
    TopAfterCall(alive, MemberOf(now), k);
  }

  lemma StrictlyBefore(before: seq<Use>, now: Use)
    requires StrictlyInOrder(before + [now])
    ensures StrictlyInOrder(before) && FraudRules.InOrder(Times(before))
    ensures before != [] ==> before[|before| - 1].time < now.time
  {
    var all := before + [now];
    assert forall i :: 0 <= i < |before| ==> all[i] == before[i];
    if before != [] { assert all[|before| - 1].time < all[|before|].time; }
  }

  /** The call goes on with the stored set exactly when it is linked to the one before. */
  predicate Linked(before: seq<Use>, now: Use) {
    before != [] && now.time < before[|before| - 1].time + 2_592_000_000
  }

  lemma StoredIsEarlier(before: seq<Use>, now: Use)
    requires StrictlyInOrder(before + [now])
    ensures var full := After(before, None);
      && (forall x :: x in full.members ==> x.score < now.time) && (now.time < full.expiresAt <==> Linked(before, now))
  {
    StrictlyBefore(before, now);
    FullRanking(before);
  }

  lemma AfterOneMore(before: seq<Use>, now: Use, kept: Option<nat>)
    ensures After(before + [now], kept) == Touch(After(before, kept), now, kept)
  {
    assert (before + [now])[..|before|] == before;
  }

  lemma TouchedTop(full: Amounts, recent: seq<Use>, now: Use, k: nat)
    requires k > 0 && (forall x :: x in full.members ==> x.score < now.time)
    requires now.time < full.expiresAt ==> Last(k - 1, full.members) == Members(recent)
    requires now.time >= full.expiresAt ==> recent == []
    requires NoAmountTwice(recent + [now])
    ensures Last(k, Touch(full, now, None).members) == Members(recent + [now])
  {
    OneMoreRecent(Alive(full, now.time), recent, now, k);
  }

  lemma TopOneMore(before: seq<Use>, now: Use, k: nat)
    requires k > 0 && StrictlyInOrder(before + [now]) && NoAmountTwice(RecentUses(before + [now], k))
    requires NoAmountTwice(RecentUses(before, k - 1)) ==> TopIsRecent(before, k - 1)
    ensures TopIsRecent(before + [now], k)
  {
    var full := After(before, None);
    var recent := if Linked(before, now) then RecentUses(before, k - 1) else [];
    AfterOneMore(before, now, None);
    StoredIsEarlier(before, now);
    RecentUsesGrow(before, now, k);
    assert RecentUses(before + [now], k) == recent + [now];
    SuffixHasNoneTwice(recent, now);
    TouchedTop(full, recent, now, k);
  }

  /** The k highest of the ranking are the last k calls. */
  predicate TopIsRecent(uses: seq<Use>, k: nat) {
    Last(k, After(uses, None).members) == Members(RecentUses(uses, k))
  }

  lemma NoneOfRecentIsTop(uses: seq<Use>)
    ensures TopIsRecent(uses, 0)
  {}

  lemma NothingIsTop(k: nat)
    ensures TopIsRecent([], k)
  {}

  /** So it is where no amount occurs twice among the last k calls. */
  predicate TopIsRecentIfDistinct(uses: seq<Use>, k: nat) {
    StrictlyInOrder(uses) && NoAmountTwice(RecentUses(uses, k)) ==> TopIsRecent(uses, k)
  }

  lemma DistinctOneMore(before: seq<Use>, now: Use, k: nat)
    requires k > 0 && TopIsRecentIfDistinct(before, k - 1)
    ensures TopIsRecentIfDistinct(before + [now], k)
  {
    if StrictlyInOrder(before + [now]) && NoAmountTwice(RecentUses(before + [now], k)) {
      StrictlyBefore(before, now);
      TopOneMore(before, now, k);
    }
  }

  /** What holds of no calls at all, and of more calls as it does of fewer, holds of any. */
  lemma {:induction false} ByOneMore(holds: (seq<Use>, nat) -> bool, uses: seq<Use>, k: nat)
    requires forall u :: holds(u, 0)
    requires forall n :: holds([], n)
    requires forall u, x, n: nat :: n > 0 && holds(u, n - 1) ==> holds(u + [x], n)
    ensures holds(uses, k)
  {
    if uses != [] && k > 0 {
      var before, now := uses[..|uses| - 1], uses[|uses| - 1];
      ByOneMore(holds, before, k - 1);
      assert uses == before + [now];
    }
  }

  lemma DistinctIsEnough(uses: seq<Use>, k: nat)
    ensures TopIsRecentIfDistinct(uses, k)
  {
    forall u ensures TopIsRecentIfDistinct(u, 0) { NoneOfRecentIsTop(u); }
    forall n ensures TopIsRecentIfDistinct([], n) { NothingIsTop(n); }
    forall u, x, n: nat | n > 0 && TopIsRecentIfDistinct(u, n - 1) ensures TopIsRecentIfDistinct(u + [x], n) {
      DistinctOneMore(u, x, n);
    }
    ByOneMore(TopIsRecentIfDistinct, uses, k);
  }

  lemma SuffixHasNoneTwice(recent: seq<Use>, now: Use)
    requires NoAmountTwice(recent + [now])
    ensures NoAmountTwice(recent)
  {
    assert forall i :: 0 <= i < |recent| ==> recent[i] == (recent + [now])[i];
  }

  lemma NotAmong(recent: seq<Use>, now: Use)
    requires NoAmountTwice(recent + [now])
    ensures !Has(Members(recent), now.amount)
  {
    var all := recent + [now];
    forall x | x in Members(recent) ensures x.amount != now.amount {
      var i :| 0 <= i < |recent| && Members(recent)[i] == x;
      assert all[i].amount != all[|recent|].amount;
    }
  }

  /**
   The comment in the code says that the last 20 amounts are kept. With times that strictly increase, that is
   so exactly when no amount occurs twice among the last 20 calls (or those since the last 30-day gap, if fewer).
   */
  lemma KeepsTheLastTwentyIff(uses: seq<Use>)
    requires StrictlyInOrder(uses)
    ensures var recent := RecentUses(uses, 20);
      After(uses, Some(20)).members == Members(recent) <==> NoAmountTwice(recent)
  {
    var recent := RecentUses(uses, 20);
    StoredIsTopOfRanking(uses);
    if NoAmountTwice(recent) { DistinctIsEnough(uses, 20); }
    if After(uses, Some(20)).members == Members(recent) {
      FullRanking(uses);
      forall i, j | 0 <= i < j < |recent| ensures recent[i].amount != recent[j].amount {
        assert Members(recent)[i].amount != Members(recent)[j].amount;
      }
    }
  }

  /** One amount used twice is stored once. */
  lemma TwoUsesOneMember(a: nat, t: nat)
    ensures After([Use(a, t), Use(a, t + 1)], Some(20)).members == [Member(a, t + 1)]
    ensures RecentUses([Use(a, t), Use(a, t + 1)], 20) == [Use(a, t), Use(a, t + 1)]
  {
    var uses := [Use(a, t), Use(a, t + 1)];
    assert uses[..1] == [Use(a, t)] && uses[..1][..0] == [];
    assert Touch(Amounts([], 0), Use(a, t), Some(20)).members == [Member(a, t)];
    assert After(uses[..1], Some(20)) == Touch(Amounts([], 0), Use(a, t), Some(20));
    assert Times(uses)[..1] == [t];
  }

  // ---------------------------------------------------------------- when the rule fires

  /** A call later than all before it puts its amount on top. */
  lemma CurrentAmountIsOnTop(uses: seq<Use>)
    requires FraudRules.InOrder(Times(uses)) && uses != []
    requires |uses| > 1 ==> uses[|uses| - 2].time < uses[|uses| - 1].time
    ensures var s := After(uses, Some(20)).members; s != [] && s[|s| - 1].amount == uses[|uses| - 1].amount
  {
    var n := |uses| - 1;
    assert Times(uses)[..n] == Times(uses[..n]);
    FullRanking(uses[..n]);
    StoredIsTopOfRanking(uses);
    var base := Alive(After(uses[..n], None), uses[n].time);
    RemoveKeepsRanked(base, uses[n].amount);
    var rest := Remove(base, uses[n].amount);
    assert rest != [] ==> rest[|rest| - 1] in rest;
  }

  /** The sum of the stored amounts other than the given one. */
  function Others(s: seq<Member>, amount: nat): nat { SumOf(Remove(s, amount)) }

  lemma {:induction false} SumOfRest(s: seq<Member>, amount: nat)
    requires Has(s, amount)
    ensures SumOf(s) == amount + Others(s, amount) && |Remove(s, amount)| == |s| - 1
  {
    if s[|s| - 1].amount != amount {
      var x :| x in s && x.amount == amount;
      assert x in s[..|s| - 1];
      SumOfRest(s[..|s| - 1], amount);
    }
  }

  lemma Weighing(n: nat, amount: nat, others: nat)
    ensures amount * n > 5 * (amount + others) <==> (n - 5) * amount > 5 * others
    ensures n <= 5 ==> (n - 5) * amount <= 0
  {
    assert (n - 5) * amount == amount * n - 5 * amount;
  }

  /**
   With n stored amounts, the current one among them, the rule fires exactly when (n - 5) times the current
   amount exceeds five times the sum of the others. So it needs six distinct amounts; the code's own minimum
   of three never decides anything.
   */
  lemma FiresIff(s: seq<Member>, amount: nat)
    requires Has(s, amount)
    ensures Anomalous(s, amount) <==> (|s| - 5) * amount > 5 * Others(s, amount)
    ensures Anomalous(s, amount) ==> |s| >= 6
  {
    SumOfRest(s, amount);
    Weighing(|s|, amount, Others(s, amount));
  }

  /** The stored amounts are amounts of the history, and no more than it has distinct ones. */
  lemma StoredComesFromHistory(uses: seq<Use>)
    requires FraudRules.InOrder(Times(uses))
    ensures var s := After(uses, Some(20)).members;
      |s| <= |LatestUses(uses)| && forall x :: x in s ==> x in LatestUses(uses)
  {
    var full := After(uses, None).members;
    StoredIsTopOfRanking(uses);
    FullRanking(uses);
    assert forall x :: x in Last(20, full) ==> x in full;
    RankingHasNoMore(full, LatestUses(uses));
  }

  /** A member ranks among the highest k, or all of these rank above it. */
  lemma RankOf(s: seq<Member>, i: nat, k: nat)
    requires Ranked(s) && i < |s|
    ensures s[i] in Last(k, s) || (|Last(k, s)| == k && forall x :: x in Last(k, s) ==> Before(s[i], x))
  {
    var top := Last(k, s);
    var start := |s| - |top|;
    assert forall j :: 0 <= j < |top| ==> top[j] == s[start + j];
    if i >= start { assert top[i - start] == s[i]; }
  }

  /** The current amount is in the full ranking, and if it was trimmed then only by calls in the same millisecond. */
  lemma TrimmedByTiesOnly(uses: seq<Use>)
    requires FraudRules.InOrder(Times(uses)) && uses != []
    ensures var s, now := After(uses, Some(20)).members, uses[|uses| - 1];
      Has(s, now.amount) || (|s| == 20 && forall x :: x in s ==> x.score == now.time)
  {
    var full, s, now := After(uses, None).members, After(uses, Some(20)).members, uses[|uses| - 1];
    StoredIsTopOfRanking(uses);
    FullRanking(uses);
    assert IsLatestUse(uses, |uses| - 1);
    assert MemberOf(now) in full;
    var i :| 0 <= i < |full| && full[i] == MemberOf(now);
    RankOf(full, i, 20);
    assert forall x :: x in s ==> x in full;
  }

  /**
   On every history: if the current amount is stored, as it is whenever the call is later than those before it,
   the rule fires as FiresIff says; otherwise 20 other amounts were used in this same millisecond, and it is
   compared with their average.
   */
  lemma FiresOnHistoryIff(uses: seq<Use>)
    requires FraudRules.InOrder(Times(uses)) && uses != []
    ensures var s, now := After(uses, Some(20)).members, uses[|uses| - 1];
      && (if Has(s, now.amount) then Anomalous(s, now.amount) <==> (|s| - 5) * now.amount > 5 * Others(s, now.amount)
          else
            && |s| == 20 && (forall x :: x in s ==> x.score == now.time)
            && (Anomalous(s, now.amount) <==> 20 * now.amount > 5 * SumOf(s)))
      && (Anomalous(s, now.amount) ==> 6 <= |s| <= |LatestUses(uses)|)
      && (|uses| > 1 && uses[|uses| - 2].time < now.time ==> Has(s, now.amount))
  {
    var s, now := After(uses, Some(20)).members, uses[|uses| - 1];
    TrimmedByTiesOnly(uses);
    StoredComesFromHistory(uses);
    if Has(s, now.amount) { FiresIff(s, now.amount); }
    if |uses| > 1 && uses[|uses| - 2].time < now.time {
      CurrentAmountIsOnTop(uses);
      assert s[|s| - 1] in s;
    }
  }

  lemma {:induction false} RankingHasNoMore(s: seq<Member>, all: set<Member>)
    requires DistinctAmounts(s) && forall x :: x in s ==> x in all
    ensures |s| <= |all|
  {
    if s != [] {
      var last := s[|s| - 1];
      assert last in s;
      forall x | x in s[..|s| - 1] ensures x in all - {last} { assert x in s; }
      RankingHasNoMore(s[..|s| - 1], all - {last});
    }
  }
}
