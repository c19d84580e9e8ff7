/**
 Two of the fraud rules that remember, velocityRule.ts and recipientRiskRule.ts (AmountAnomaly has the third). Each
 keeps a Redis value whose expiry is refreshed by every call, and each value turns out to be a function of
 the whole history of calls. Times are in milliseconds; a key is gone from the moment of its expiry on.
 */
module FraudRules {
  import opened Prelude
  import opened FraudEngine

  const VELOCITY_TTL: nat := 60_000
  const RECIPIENT_TTL: nat := 3_600_000
  const AMOUNTS_TTL: nat := 2_592_000_000

  predicate InOrder(times: seq<nat>) {
    forall i, j :: 0 <= i < j < |times| ==> times[i] <= times[j]
  }

  /** How many calls a key refreshed by each of them survives: those linked to the last by gaps under ttl. */
  function Chain(times: seq<nat>, ttl: nat): (n: nat)
    ensures n <= |times| && (times != [] ==> n > 0)
  {
    var last := |times| - 1;
    if times == [] then 0
    else if last > 0 && times[last] < times[last - 1] + ttl then 1 + Chain(times[..last], ttl)
    else 1
  }

  /** Chain is the length of the longest suffix in which consecutive calls are less than ttl apart. */
  lemma {:induction false} ChainIsLongest(times: seq<nat>, ttl: nat)
    ensures var start := |times| - Chain(times, ttl);
      && (forall i :: start < i < |times| ==> times[i] < times[i - 1] + ttl)
      && (0 < start < |times| ==> times[start] >= times[start - 1] + ttl)
  {
    if times != [] {
      var last, start := |times| - 1, |times| - Chain(times, ttl);
      ChainIsLongest(times[..last], ttl);
      forall i | start < i < |times| ensures times[i] < times[i - 1] + ttl {
        if i < last { assert times[..last][i] < times[..last][i - 1] + ttl; }
      }
    }
  }

  /** It reaches back to every call less than ttl ago. */
  lemma RecentCallsAreChained(times: seq<nat>, ttl: nat, i: nat)
    requires InOrder(times) && i < |times| && times[|times| - 1] < times[i] + ttl
    ensures |times| - Chain(times, ttl) <= i
  {
    ChainIsLongest(times, ttl);
  }

  // ---------------------------------------------------------------- velocity

  datatype Velocity = Velocity(count: nat, expiresAt: nat)

  function Incr(v: Velocity, now: nat): Velocity {
    Velocity(if now < v.expiresAt then v.count + 1 else 1, now + VELOCITY_TTL)
  }

  class VelocityRule {
    var key: Velocity

    constructor ()
      ensures key == Velocity(0, 0)
    { key := Velocity(0, 0); }

    method CheckVelocity(now: nat) returns (signal: Option<Signal>)
      modifies this
      ensures key == Incr(old(key), now)
      ensures signal == if key.count > 3 then Some(Signal("VELOCITY_CHECK", 25)) else None
    {
      if key.expiresAt <= now { key := Velocity(0, 0); }
      key := key.(count := key.count + 1);
      var count := key.count;
      key := key.(expiresAt := now + VELOCITY_TTL);
      return if count > 3 then Some(RULES[0]) else None;
    }
  }

  function VelocityAfter(times: seq<nat>): Velocity {
    if times == [] then Velocity(0, 0) else Incr(VelocityAfter(times[..|times| - 1]), times[|times| - 1])
  }

  lemma {:induction false} VelocityCountsTheChain(times: seq<nat>)
    ensures VelocityAfter(times).count == Chain(times, 60_000)
    ensures times != [] ==> VelocityAfter(times).expiresAt == times[|times| - 1] + 60_000
  {
    if times != [] { VelocityCountsTheChain(times[..|times| - 1]); }
  }

  /** The rule fires exactly when the last four calls follow each other at less than 60 s. */
  lemma VelocityFiresIff(times: seq<nat>)
    ensures VelocityAfter(times).count > 3 <==>
      |times| > 3 && forall i :: |times| - 3 <= i < |times| ==> times[i] < times[i - 1] + 60_000
  {
    VelocityCountsTheChain(times);
    ChainIsLongest(times, 60_000);
  }

  /**
   The documented rule, "more than three in 60 seconds", misses nothing that way, but the code also fires
   beyond it: exactly when the last four calls are chained and yet span 60 s or more.
   */
  lemma VelocityAgainstItsDocumentation(times: seq<nat>)
    requires InOrder(times)
    ensures var n := |times|;
      var documented := n > 3 && times[n - 1] < times[n - 4] + 60_000;
      var fires := VelocityAfter(times).count > 3;
      && (documented ==> fires)
      && (fires && !documented <==>
            n > 3 && times[n - 1] >= times[n - 4] + 60_000
            && forall i :: n - 3 <= i < n ==> times[i] < times[i - 1] + 60_000)
  {
    VelocityFiresIff(times);
  }

  /** The calls of a history within a minute from a given time on. */
  function InMinute(times: seq<nat>, from: nat): set<nat> {
    set i | 0 <= i < |times| && from <= times[i] < from + 60_000 :: i
  }

  /** Such a history: four calls, one every 59 s, of which no more than two ever fall into one minute. */
  lemma VelocityFiresOnSlowCalls(t: nat)
    ensures var times := [t, t + 59_000, t + 118_000, t + 177_000];
      VelocityAfter(times).count > 3 && forall from :: |InMinute(times, from)| <= 2
  {
    var times := [t, t + 59_000, t + 118_000, t + 177_000];
    VelocityFiresIff(times);
    forall from ensures |InMinute(times, from)| <= 2 {
      var first := if t + 59_000 < from then 2 else if t < from then 1 else 0;
      assert InMinute(times, from) <= {first, first + 1};
      SubsetIsNoLarger(InMinute(times, from), {first, first + 1});
    }
  }

  // ---------------------------------------------------------------- recipient risk

  datatype Senders = Senders(members: set<string>, expiresAt: nat)

  datatype Receipt = Receipt(time: nat, sender: string)

  function SAdd(s: Senders, r: Receipt): Senders {
    Senders((if r.time < s.expiresAt then s.members else {}) + {r.sender}, r.time + RECIPIENT_TTL)
  }

  class RecipientRiskRule {
    var key: Senders

    constructor ()
      ensures key == Senders({}, 0)
    { key := Senders({}, 0); }

    method CheckRecipientRisk(fromAccountId: string, now: nat) returns (signal: Option<Signal>)
      modifies this
      ensures key == SAdd(old(key), Receipt(now, fromAccountId))
      ensures signal == if |key.members| > 10 then Some(Signal("RECIPIENT_RISK", 20)) else None
    {
      if key.expiresAt <= now { key := Senders({}, 0); }
      key := key.(members := key.members + {fromAccountId});
      key := key.(expiresAt := now + RECIPIENT_TTL);
      var uniqueSenders := |key.members|;
      return if uniqueSenders > 10 then Some(RULES[5]) else None;
    }
  }

  function SendersAfter(receipts: seq<Receipt>): Senders {
    if receipts == [] then Senders({}, 0) else SAdd(SendersAfter(receipts[..|receipts| - 1]), receipts[|receipts| - 1])
  }

  function Times(receipts: seq<Receipt>): seq<nat> {
    seq(|receipts|, i requires 0 <= i < |receipts| => receipts[i].time)
  }

  function ChainedSenders(receipts: seq<Receipt>): set<string> {
    set i | |receipts| - Chain(Times(receipts), 3_600_000) <= i < |receipts| :: receipts[i].sender
  }

  /** The stored set is the set of senders of the chained receipts. */
  lemma {:induction false} SendersAreTheChain(receipts: seq<Receipt>)
    ensures SendersAfter(receipts).members == ChainedSenders(receipts)
    ensures receipts != [] ==> SendersAfter(receipts).expiresAt == receipts[|receipts| - 1].time + 3_600_000
  {
    if receipts != [] {
      var n := |receipts| - 1;
      SendersAreTheChain(receipts[..n]);
      assert Times(receipts)[..n] == Times(receipts[..n]);
      var chain := Chain(Times(receipts), 3_600_000);
      assert chain == 1 || chain == 1 + Chain(Times(receipts[..n]), 3_600_000);
    }
  }

  /** From the i-th receipt on there was never a gap of an hour. */
  predicate NoGapSince(receipts: seq<Receipt>, i: nat) {
    forall j :: i < j < |receipts| ==> receipts[j].time < receipts[j - 1].time + 3_600_000
  }

  lemma {:induction false} ChainedIff(times: seq<nat>, ttl: nat, i: nat)
    requires i < |times|
    ensures |times| - Chain(times, ttl) <= i <==> forall j :: i < j < |times| ==> times[j] < times[j - 1] + ttl
  {
    var start := |times| - Chain(times, ttl);
    ChainIsLongest(times, ttl);
    if i < start { assert !(times[start] < times[start - 1] + ttl); }
  }

  lemma SinceIff(receipts: seq<Receipt>, i: nat)
    requires i < |receipts|
    ensures |receipts| - Chain(Times(receipts), 3_600_000) <= i <==> NoGapSince(receipts, i)
  {
    var times := Times(receipts);
    ChainedIff(times, 3_600_000, i);
    if NoGapSince(receipts, i) {
      forall j | i < j < |times| ensures times[j] < times[j - 1] + 3_600_000 {
        assert receipts[j].time < receipts[j - 1].time + 3_600_000;
      }
    } else {
      var j :| i < j < |receipts| && !(receipts[j].time < receipts[j - 1].time + 3_600_000);
      assert !(times[j] < times[j - 1] + 3_600_000);
    }
  }

  /** A sender is remembered exactly from one of his receipts on through gaps of less than an hour. */
  lemma RecipientRiskRemembers(receipts: seq<Receipt>, sender: string)
    ensures sender in SendersAfter(receipts).members <==>
      exists i :: 0 <= i < |receipts| && receipts[i].sender == sender && NoGapSince(receipts, i)
  {
    SendersAreTheChain(receipts);
    forall i | 0 <= i < |receipts|
      ensures |receipts| - Chain(Times(receipts), 3_600_000) <= i <==> NoGapSince(receipts, i)
    {
      SinceIff(receipts, i);
    }
  }

  /** The senders of the hour before the last receipt. */
  function LastHour(receipts: seq<Receipt>): set<string>
    requires receipts != []
  {
    set i | 0 <= i < |receipts|
        && receipts[|receipts| - 1].time < receipts[i].time + 3_600_000 :: receipts[i].sender
  }

  /** The rule misses nothing: it has every sender of the last hour, and fires if there were more than ten. */
  lemma RecipientRiskMissesNothing(receipts: seq<Receipt>)
    requires receipts != [] && InOrder(Times(receipts))
    ensures LastHour(receipts) <= SendersAfter(receipts).members
    ensures |LastHour(receipts)| > 10 ==> |SendersAfter(receipts).members| > 10
  {
    SendersAreTheChain(receipts);
    forall i | 0 <= i < |receipts| && receipts[|receipts| - 1].time < receipts[i].time + 3_600_000
      ensures receipts[i].sender in ChainedSenders(receipts)
    {
      RecentCallsAreChained(Times(receipts), 3_600_000, i);
    }
    SubsetIsNoLarger(LastHour(receipts), SendersAfter(receipts).members);
  }
}
