/** The scoring of services/fraud-service/src/engine/fraudEngine.ts, and its use by the payment service. */
module FraudEngine {
  import opened Prelude

  datatype Action = Approve | Review | Challenge | Decline

  datatype Signal = Signal(ruleName: string, scoreAdded: nat)

  datatype FraudResult = FraudResult(score: nat, action: Action, signals: seq<Signal>)

  const APPROVE_BELOW := 30
  const REVIEW_BELOW := 60
  const CHALLENGE_BELOW := 80
  const MAX_SCORE := 100

  function ScoreToAction(score: nat): Action {
    if score < APPROVE_BELOW then Approve
    else if score < REVIEW_BELOW then Review
    else if score < CHALLENGE_BELOW then Challenge
    else Decline
  }

  /** The rules that fired, in order. */
  function Fired(results: seq<Option<Signal>>): seq<Signal> {
    if results == [] then []
    else if results[0].None? then Fired(results[1..])
    else [results[0].value] + Fired(results[1..])
  }

  function Sum(signals: seq<Signal>): nat {
    if signals == [] then 0 else Sum(signals[..|signals| - 1]) + signals[|signals| - 1].scoreAdded
  }

  function RunFraudEngine(results: seq<Option<Signal>>): FraudResult {
    var signals := Fired(results);
    var score := if Sum(signals) < MAX_SCORE then Sum(signals) else MAX_SCORE;
    FraudResult(score, ScoreToAction(score), signals)
  }

  /** What the payment service gets: the engine's answer, or its own default when the call failed. */
  datatype Reply = Unreachable | Answered(results: seq<Option<Signal>>)

  function RunFraudCheck(reply: Reply): FraudResult {
    match reply
    case Unreachable => FraudResult(0, Approve, [])
    case Answered(results) => RunFraudEngine(results)
  }

  predicate Blocked(r: FraudResult) { r.action.Challenge? || r.action.Decline? }

  /** A payment that is let through has a score below 60 that its signals add up to exactly. */
  lemma UnblockedIsExplained(reply: Reply)
    ensures var r := RunFraudCheck(reply); !Blocked(r) <==> Sum(r.signals) < 60
    ensures var r := RunFraudCheck(reply); !Blocked(r) ==> r.score == Sum(r.signals)
    ensures var r := RunFraudCheck(reply);
      r.action == if r.score < 30 then Approve else if r.score < 60 then Review else if r.score < 80 then Challenge
                  else Decline
    ensures reply.Unreachable? ==> RunFraudCheck(reply) == FraudResult(0, Approve, [])
  {}

  /** The points of the rules that fired, added up one by one. */
  function PointsOf(results: seq<Option<Signal>>): nat {
    if results == [] then 0
    else
      var last := results[|results| - 1];
      PointsOf(results[..|results| - 1]) + if last.Some? then last.value.scoreAdded else 0
  }

  /** What is known of the points when the answer has come, or has not. */
  function PointsIn(reply: Reply): nat { if reply.Unreachable? then 0 else PointsOf(reply.results) }

  /** The filter keeps every signal, in order, and nothing else. */
  lemma {:induction false} FiredIsTheFilter(results: seq<Option<Signal>>, more: seq<Option<Signal>>)
    ensures Fired(results + more) == Fired(results) + Fired(more)
    ensures Fired([]) == [] && Fired([None]) == [] && forall s :: Fired([Some(s)]) == [s]
  {
    if results == [] {
      assert results + more == more;
    } else {
      assert (results + more)[1..] == results[1..] + more;
      FiredIsTheFilter(results[1..], more);
    }
  }

  lemma {:induction false} SumIsPoints(results: seq<Option<Signal>>)
    ensures Sum(Fired(results)) == PointsOf(results)
  {
    if results != [] {
      var before, last := results[..|results| - 1], results[|results| - 1];
      assert results == before + [last];
      SumIsPoints(before);
      FiredSnoc(before, last);
      if last.Some? {
        assert (Fired(before) + [last.value])[..|Fired(before)|] == Fired(before);
      } else {
        assert Fired(before) + [] == Fired(before);
      }
    }
  }

  /** The engine's answer in numbers: the points, capped at 100, and the four actions. */
  lemma ActionByPoints(results: seq<Option<Signal>>)
    ensures var n, r := PointsOf(results), RunFraudEngine(results);
      && r.score == (if n < 100 then n else 100) && r.signals == Fired(results)
      && (r.action == Approve <==> n < 30)
      && (r.action == Review <==> 30 <= n < 60)
      && (r.action == Challenge <==> 60 <= n < 80)
      && (r.action == Decline <==> n >= 80)
  {
    SumIsPoints(results);
  }

  /** So a payment is stopped exactly from 60 points on; a fraud service that does not answer counts as 0 points. */
  lemma CheckByPoints(reply: Reply)
    ensures var n, r := PointsIn(reply), RunFraudCheck(reply);
      && (Blocked(r) <==> n >= 60)
      && r.score == (if n < 100 then n else 100)
      && (n < 60 ==> r.action == if n < 30 then Approve else Review)
      && r.signals == (if reply.Unreachable? then [] else Fired(reply.results))
  {
    if reply.Answered? { ActionByPoints(reply.results); }
  }

  // The points of the six rules, in the order in which the engine lists them.
  const RULES: seq<Signal> :=
    [Signal("VELOCITY_CHECK", 25), Signal("AMOUNT_ANOMALY", 30), Signal("UNUSUAL_HOUR", 10),
     Signal("NEW_ACCOUNT", 15), Signal("ROUND_AMOUNT", 5), Signal("RECIPIENT_RISK", 20)]

  /** The answers of the first k rules, given which of them fire. */
  function Results(fires: seq<bool>, k: nat): seq<Option<Signal>>
    requires k <= |fires| == |RULES|
  {
    seq(k, i requires 0 <= i < k => if fires[i] then Some(RULES[i]) else None)
  }

  function Points(fires: seq<bool>, k: nat): nat
    requires k <= |fires| == |RULES|
  {
    if k == 0 then 0 else Points(fires, k - 1) + if fires[k - 1] then RULES[k - 1].scoreAdded else 0
  }

  lemma {:induction false} FiredSnoc(results: seq<Option<Signal>>, last: Option<Signal>)
    ensures Fired(results + [last]) == Fired(results) + if last.Some? then [last.value] else []
  {
    if results == [] {
      assert [last][1..] == [];
    } else {
      assert (results + [last])[1..] == results[1..] + [last];
      FiredSnoc(results[1..], last);
    }
  }

  lemma {:induction false} PointsOfResults(fires: seq<bool>, k: nat)
    requires k <= |fires| == |RULES|
    ensures PointsOf(Results(fires, k)) == Points(fires, k)
  {
    if k != 0 {
      PointsOfResults(fires, k - 1);
      assert Results(fires, k)[..k - 1] == Results(fires, k - 1);
    }
  }

  lemma SumOfResults(fires: seq<bool>, k: nat)
    requires k <= |fires| == |RULES|
    ensures Sum(Fired(Results(fires, k))) == Points(fires, k)
  {
    SumIsPoints(Results(fires, k));
    PointsOfResults(fires, k);
  }

  /** The cap at 100 takes effect in exactly one case: when all six rules fire, 105 points in all. */
  lemma CapOnlyWhenAllFire(fires: seq<bool>)
    requires |fires| == |RULES|
    ensures var r := RunFraudEngine(Results(fires, |fires|));
      r.score != Sum(r.signals) <==> forall i :: 0 <= i < |fires| ==> fires[i]
  {
    SumOfResults(fires, 6);
    assert Points(fires, 1) == if fires[0] then 25 else 0;
    assert Points(fires, 2) == (if fires[0] then 25 else 0) + (if fires[1] then 30 else 0);
    assert Points(fires, 4) == Points(fires, 2) + (if fires[2] then 10 else 0) + (if fires[3] then 15 else 0);
    assert Points(fires, 6) == Points(fires, 4) + (if fires[4] then 5 else 0) + (if fires[5] then 20 else 0);
  }
}
