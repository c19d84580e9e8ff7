/**
 The webhook service in its own form: webhook.repository.ts, dispatcher.ts and retryWorker.ts as methods that
 update the deliveries table. Whatever else the system does, other dispatches and the worker included,
 happens while a method waits. The history is proved to be a run of the machine in Webhooks, so that the
 theorems there are theorems about these loops.
 */
module WebhookService {
  import opened Prelude
  import opened Webhooks
  import opened WebhookOutcomes

  /** A step that only the owner of a delivery takes, or only the one worker. */
  predicate Reserved(s: State, step: Step, own: set<Id>, worker: bool) {
    || ((step.Post? || step.Answer?) && step.id in own)
    || (worker && (step.Poll? || step.Visit? || (step.Answer? && s.queue != [] && step.id == s.queue[0].0)))
  }

  /** No row disappears, changes its endpoint or becomes pending again. */
  ghost predicate Forward(s: State, s': State) {
    forall id :: id in s.deliveries ==>
      && id in s'.deliveries && s'.deliveries[id].endpoint == s.deliveries[id].endpoint
      && (s'.deliveries[id].status.Pending? ==> s.deliveries[id].status.Pending?)
  }

  /** A delivery's first attempt is left to its owner. */
  ghost predicate OwnKept(s: State, s': State, own: set<Id>) {
    forall id :: id in own && id in s.deliveries && s.deliveries[id].status.Pending? ==>
      && id in s'.deliveries && s'.deliveries[id] == s.deliveries[id]
      && (if id in s.open then id in s'.open && s'.open[id] == s.open[id] else id !in s'.open)
  }

  /** The queue and all rows that are not pending are left to the worker. */
  ghost predicate QueueKept(s: State, s': State) {
    && s'.queue == s.queue
    && (forall id :: id in s.deliveries && !s.deliveries[id].status.Pending? ==>
          id in s'.deliveries && s'.deliveries[id] == s.deliveries[id])
    && (s.queue != [] ==>
          var head := s.queue[0].0;
          if head in s.open then head in s'.open && s'.open[head] == s.open[head] else head !in s'.open)
  }

  ghost predicate Respected(s: State, s': State, own: set<Id>, worker: bool) {
    Forward(s, s') && OwnKept(s, s', own) && (worker ==> QueueKept(s, s'))
  }

  lemma RespectedOn(s: State, s': State, s'': State, own: set<Id>, worker: bool)
    requires Respected(s, s', own, worker) && Respected(s', s'', own, worker)
    ensures Respected(s, s'', own, worker)
  {}

  lemma AnswerGoesForward(s: State, id: Id, response: Response)
    requires Inv(s)
    ensures Forward(s, Apply(s, Answer(id, response)))
  {
    if id in s.open { assert RowOk(s, id); }
  }

  lemma VisitGoesForward(s: State)
    requires Inv(s)
    ensures Forward(s, Apply(s, Visit))
  {
    assert s.queue != [] ==> Due(s, s.queue[0].0);
  }

  lemma StepGoesForward(s: State, step: Step)
    requires Inv(s)
    ensures Forward(s, Apply(s, step))
  {
    match step
    case Answer(id, response) => AnswerGoesForward(s, id, response);
    case Visit => VisitGoesForward(s);
    case _ =>
  }

  lemma OthersKeepOwn(s: State, step: Step, own: set<Id>)
    requires Inv(s) && !Reserved(s, step, own, false)
    ensures OwnKept(s, Apply(s, step), own)
  {
    assert s.queue != [] ==> Due(s, s.queue[0].0);
  }

  lemma OthersKeepQueue(s: State, step: Step, own: set<Id>)
    requires Inv(s) && !Reserved(s, step, own, true)
    ensures QueueKept(s, Apply(s, step))
  {
    assert s.queue != [] ==> Due(s, s.queue[0].0);
    if step.Answer? && step.id in s.open { assert RowOk(s, step.id); }
  }

  lemma OthersRespect(s: State, step: Step, own: set<Id>, worker: bool)
    requires Inv(s) && !Reserved(s, step, own, worker)
    ensures Respected(s, Apply(s, step), own, worker)
  {
    StepGoesForward(s, step);
    OthersKeepOwn(s, step, own);
    if worker { OthersKeepQueue(s, step, own); }
  }

  /** What the rest of the system makes of s with these steps, of which it takes those that are not reserved. */
  function Play(s: State, steps: seq<Step>, own: set<Id>, worker: bool): State {
    if steps == [] then s
    else
      var n := |steps| - 1;
      var before := Play(s, steps[..n], own, worker);
      if Reserved(before, steps[n], own, worker) then before else Apply(before, steps[n])
  }

  lemma {:induction false} PlayRespects(s: State, steps: seq<Step>, own: set<Id>, worker: bool)
    requires Inv(s)
    ensures Inv(Play(s, steps, own, worker)) && Respected(s, Play(s, steps, own, worker), own, worker)
  {
    if steps != [] {
      var n := |steps| - 1;
      var before, after := Play(s, steps[..n], own, worker), Play(s, steps, own, worker);
      PlayRespects(s, steps[..n], own, worker);
      if !Reserved(before, steps[n], own, worker) {
        StepKeepsInv(before, steps[n]);
        OthersRespect(before, steps[n], own, worker);
        RespectedOn(s, before, after, own, worker);
      }
    }
  }

  /** What the others do while a method waits, and what the POSTs are answered, is fixed by two constants. */
  class Service {
    const plan: nat -> seq<Step>
    const answers: nat -> Response

    var turns: nat                         // how often a method has waited
    var asked: nat                         // how many POSTs have been answered
    var now: nat
    var deliveries: map<Id, Delivery>
    var endpoints: map<Id, bool>
    var queue: seq<(Id, Delivery)>         // what the worker has fetched and is not yet done with
    var open: map<Id, nat>                 // POSTs under way
    var posts: map<Id, seq<nat>>           // POSTs made
    ghost const start: State
    ghost var trace: seq<Step>

    function View(): State
      reads this`now, this`deliveries, this`endpoints, this`queue, this`open, this`posts
    {
      State(now, deliveries, endpoints, queue, open, posts)
    }

    /** Up to now the system has run as the machine does, to state s. */
    ghost predicate Recorded(s: State)
      reads this`trace
    {
      Initial(start) && Inv(s) && s == Run(start, trace)
    }

    ghost predicate Valid()
      reads this
    {
      Recorded(View())
    }

    constructor (s: State, plan: nat -> seq<Step>, answers: nat -> Response)
      requires Initial(s)
      ensures Valid() && View() == s == start && trace == [] && this.plan == plan && this.answers == answers
    {
      this.plan, this.answers, turns, asked := plan, answers, 0, 0;
      now, deliveries, endpoints, queue, open, posts := s.now, s.deliveries, s.endpoints, s.queue, s.open, s.posts;
      start, trace := s, [];
    }

    // -------------------------------------------------------------- the rest of the system

    /** The state after one more step. */
    method Record(was: State, step: Step) returns (s: State)
      requires Recorded(was)
      modifies this`trace
      ensures Recorded(s) && s == Apply(was, step) && trace == old(trace) + [step]
    {
      StepKeepsInv(was, step);
      RunOneMore(start, trace, step);
      trace := trace + [step];
      s := Apply(was, step);
    }

    method Install(s: State)
      modifies this`now, this`deliveries, this`endpoints, this`queue, this`open, this`posts
      ensures View() == s
    {
      now, deliveries, endpoints, queue, open, posts := s.now, s.deliveries, s.endpoints, s.queue, s.open, s.posts;
    }

    /** Whatever happens while a method waits that owns some deliveries, or is the worker. */
    method Others(own: set<Id>, worker: bool)
      requires Valid()
      modifies this
      ensures Valid() && Respected(old(View()), View(), own, worker)
      ensures View() == Play(old(View()), plan(old(turns)), own, worker)
      ensures turns == old(turns) + 1 && asked == old(asked)
    {
      PlayRespects(View(), plan(turns), own, worker);
      PlayOut(plan(turns), own, worker);
      turns := turns + 1;
    }

    method PlayOut(schedule: seq<Step>, own: set<Id>, worker: bool)
      requires Valid()
      modifies this`trace, this`now, this`deliveries, this`endpoints, this`queue, this`open, this`posts
      ensures Valid() && View() == Play(old(View()), schedule, own, worker)
    {
      for i := 0 to |schedule|
        invariant Valid() && View() == Play(old(View()), schedule[..i], own, worker)
      {
        assert schedule[..i + 1][..i] == schedule[..i];
        OtherStep(schedule[i], own, worker);
      }
      assert schedule[..|schedule|] == schedule;
    }

    method OtherStep(step: Step, own: set<Id>, worker: bool)
      requires Valid()
      modifies this`trace, this`now, this`deliveries, this`endpoints, this`queue, this`open, this`posts
      ensures Valid()
      ensures View() == if Reserved(old(View()), step, own, worker) then old(View()) else Apply(old(View()), step)
    {
      if Reserved(View(), step, own, worker) { return; }
      var s := Record(View(), step);
      Install(s);
    }

    // -------------------------------------------------------------- webhook.repository.ts

    /** A number that is no delivery's id; the database generates it. */
    method FreshId() returns (id: Id)
      ensures id !in deliveries
    {
      id := 0;
      var rest := deliveries.Keys;
      while rest != {}
        invariant forall o :: o in deliveries ==> o in rest || o < id
      {
        var o :| o in rest;
        if id <= o { id := o + 1; }
        rest := rest - {o};
      }
    }

    method CreateDelivery(endpoint: Id) returns (id: Id, row: Delivery)
      requires Valid()
      modifies this
      ensures Valid() && View() == Apply(old(View()), Create(id, endpoint)) && id !in old(deliveries) && id !in open
      ensures id in deliveries && deliveries[id] == row == Delivery(endpoint, Pending, 1, 0, None)
      ensures asked == old(asked) && turns == old(turns)
    {
      id := FreshId();
      assert id !in open;
      var _ := Record(View(), Create(id, endpoint));
      row := Delivery(endpoint, Pending, 1, 0, None);
      deliveries := deliveries[id := row];
      posts := posts[id := []];
    }

    method MarkDelivered(id: Id, responseCode: nat)
      requires id in deliveries
      modifies this`deliveries
      ensures deliveries ==
        old(deliveries)[id := old(deliveries)[id].(status := Delivered, responseCode := Some(responseCode))]
    {
      deliveries := deliveries[id := deliveries[id].(status := Delivered, responseCode := Some(responseCode))];
    }

    method MarkFailed(id: Id, responseCode: Option<nat>)
      requires id in deliveries
      modifies this`deliveries
      ensures deliveries == old(deliveries)[id := old(deliveries)[id].(status := Failed, responseCode := responseCode)]
    {
      deliveries := deliveries[id := deliveries[id].(status := Failed, responseCode := responseCode)];
    }

    /** The repository's scheduleRetry: the stored attempt number is incremented in place. */
    method StoreRetry(id: Id, nextRetryAt: nat, responseCode: Option<nat>)
      requires id in deliveries
      modifies this`deliveries
      ensures deliveries == old(deliveries)[id := old(deliveries)[id].(
        status := Retrying, responseCode := responseCode,
        attemptNumber := old(deliveries)[id].attemptNumber + 1, nextRetryAt := nextRetryAt)]
    {
      var row := deliveries[id];
      deliveries := deliveries[id := row.(status := Retrying, responseCode := responseCode,
                                          attemptNumber := row.attemptNumber + 1, nextRetryAt := nextRetryAt)];
    }

    /** One of the earliest rows of a non-empty set. */
    method Earliest(ids: set<Id>) returns (first: Id)
      requires ids != {} && ids <= deliveries.Keys
      ensures first in ids && forall id :: id in ids ==> deliveries[first].nextRetryAt <= deliveries[id].nextRetryAt
    {
      first :| first in ids;
      var rest := ids - {first};
      while rest != {}
        invariant rest <= ids && first in ids
        invariant forall id :: id in ids - rest ==> deliveries[first].nextRetryAt <= deliveries[id].nextRetryAt
      {
        var id :| id in rest;
        if deliveries[id].nextRetryAt < deliveries[first].nextRetryAt { first := id; }
        rest := rest - {id};
      }
    }

    /** SELECT the retrying rows whose time has come ORDER BY next_retry_at LIMIT 50 */
    method FindPendingRetries() returns (batch: seq<Id>)
      ensures IsBatch(View(), batch)
    {
      batch := [];
      var due := set id | id in deliveries && Due(View(), id);
      while due != {} && |batch| < BATCH_SIZE
        invariant |batch| <= BATCH_SIZE && due <= deliveries.Keys
        invariant forall id :: id in due ==> Due(View(), id) && id !in batch
        invariant forall id :: id in deliveries && Due(View(), id) ==> id in due || id in batch
        invariant forall i :: 0 <= i < |batch| ==> Due(View(), batch[i])
        invariant forall i, j :: 0 <= i < j < |batch| ==>
                    batch[i] != batch[j] && deliveries[batch[i]].nextRetryAt <= deliveries[batch[j]].nextRetryAt
        invariant forall i, id :: 0 <= i < |batch| && id in due ==>
          deliveries[batch[i]].nextRetryAt <= deliveries[id].nextRetryAt
      {
        var first := Earliest(due);
        batch := batch + [first];
        due := due - {first};
      }
    }

    // -------------------------------------------------------------- dispatcher.ts

    /** The dispatcher's scheduleRetry. */
    method ScheduleRetry(id: Id, delivery: Delivery, responseCode: Option<nat>)
      requires id in deliveries && delivery.attemptNumber > 0
      modifies this`deliveries
      ensures deliveries ==
        old(deliveries)[id := Webhooks.ScheduleRetry(old(deliveries)[id], delivery.attemptNumber, responseCode, now)]
    {
      var delayIndex := delivery.attemptNumber - 1;
      if delayIndex >= |RETRY_DELAYS_SECONDS| {
        MarkFailed(id, responseCode);
        return;
      }
      StoreRetry(id, now + RETRY_DELAYS_SECONDS[delayIndex] * 1000, responseCode);
    }

    /** The POST of attemptDelivery, for a new delivery or for the row at the head of the worker's queue. */
    method SendPost(id: Id, delivery: Delivery, worker: bool)
      requires Valid() && id in deliveries && deliveries[id] == delivery && id !in open
      requires if worker then queue != [] && queue[0] == (id, delivery) && Live(View(), delivery.endpoint)
               else delivery.status.Pending?
      modifies this`trace, this`posts, this`open
      ensures Valid() && View() == Posted(old(View()), id, delivery.attemptNumber)
    {
      assert RowOk(View(), id);
      var _ := Record(View(), if worker then Visit else Post(id));
      posts := posts[id := (if id in posts then posts[id] else []) + [now]];
      open := open[id := delivery.attemptNumber];
    }

    /** The rest of attemptDelivery. */
    method WriteOutcome(id: Id, delivery: Delivery, response: Response)
      requires id in deliveries && delivery.attemptNumber > 0
      modifies this`deliveries
      ensures deliveries == old(deliveries)[id := Settle(old(deliveries)[id], delivery.attemptNumber, response, now)]
    {
      match response {
        case Ok(code) => MarkDelivered(id, code);
        case NotOk(code) => ScheduleRetry(id, delivery, Some(code));
        case Threw => ScheduleRetry(id, delivery, None);
      }
    }

    method SettleDelivery(id: Id, delivery: Delivery, response: Response)
      requires Valid() && id in open && open[id] == delivery.attemptNumber
      modifies this`trace, this`deliveries, this`open, this`queue
      ensures Valid() && View() == Apply(old(View()), Answer(id, response))
      ensures id in deliveries && RowFor(deliveries[id], Heard(response, now, delivery.attemptNumber))
    {
      AnswerIs(View(), id, response);
      var s := Record(View(), Answer(id, response));
      WriteOutcome(id, delivery, response);
      FinishPost(id, s);
    }

    /** The POST is done with, and the worker, if it was his, turns to its next row. */
    method FinishPost(id: Id, ghost s: State)
      requires Recorded(s)
      requires s == View().(open := open - {id},
                            queue := if queue != [] && queue[0].0 == id then queue[1..] else queue)
      modifies this`open, this`queue
      ensures Valid() && View() == s
    {
      open := open - {id};
      if queue != [] && queue[0].0 == id { queue := queue[1..]; }
    }

    /** A POST that has been sent waits for its answer; its row is as it was, whatever else happens. */
    method PostAndWait(id: Id, delivery: Delivery, worker: bool)
      requires Valid() && id in deliveries && deliveries[id] == delivery && id !in open
      requires if worker then queue != [] && queue[0] == (id, delivery) && Live(View(), delivery.endpoint)
               else delivery.status.Pending?
      modifies this
      ensures Valid() && Waits(old(View()), View(), id, delivery, worker) && asked == old(asked)
    {
      assert worker ==> Due(View(), queue[0].0);
      SendPost(id, delivery, worker);
      ghost var sent := View();
      Others({id}, worker);
      assert worker ==> sent.queue[0].0 == id;
      SamePosts(sent, old(View()).(open := old(open)[id := delivery.attemptNumber]), View(), {id}, worker);
    }

    /** The answer, or none; was is what the attempt began with. */
    method AwaitAnswer(id: Id, delivery: Delivery, worker: bool, ghost was: State) returns (response: Response)
      requires Valid() && Waits(was, View(), id, delivery, worker)
      modifies this
      ensures Valid() && Attempted(was, View(), id, worker) && id in posts && posts[id] != []
      ensures response == answers(old(asked)) && asked == old(asked) + 1
      ensures RowFor(deliveries[id], Heard(response, now, delivery.attemptNumber))
    {
      ghost var waiting := View();
      response := answers(asked);
      AnswerCompletes(was, waiting, id, delivery, response, worker);
      SettleDelivery(id, delivery, response);
      asked := asked + 1;
    }

    /** The row ends up as the answer calls for, its time being now: delivered exactly if that was a success. */
    method AttemptDelivery(id: Id, delivery: Delivery, worker: bool) returns (response: Response)
      requires Valid() && id in deliveries && deliveries[id] == delivery && id !in open
      requires if worker then queue != [] && queue[0] == (id, delivery) && Live(View(), delivery.endpoint)
               else delivery.status.Pending?
      modifies this
      ensures Valid() && Attempted(old(View()), View(), id, worker) && id in posts && posts[id] != []
      ensures response == answers(old(asked)) && asked == old(asked) + 1
      ensures RowFor(deliveries[id], Heard(response, now, delivery.attemptNumber))
      ensures deliveries[id].status.Delivered? <==> response.Ok?
    {
      PostAndWait(id, delivery, worker);
      response := AwaitAnswer(id, delivery, worker, old(View()));
    }

    /** The row's endpoint is gone. */
    method GiveUp(id: Id, delivery: Delivery)
      requires Valid() && queue != [] && queue[0] == (id, delivery) && id !in open && !Live(View(), delivery.endpoint)
      modifies this`trace, this`deliveries, this`queue
      ensures Valid() && View() == Apply(old(View()), Visit)
      ensures id in deliveries && RowFor(deliveries[id], Gone)
    {
      assert Due(View(), queue[0].0);
      var s := Record(View(), Visit);
      MarkFailed(id, None);
      queue := queue[1..];
      assert View() == s;
    }

    /** Once the endpoint has been looked up. */
    method RetryAwaited(id: Id, delivery: Delivery) returns (answer: Option<Response>)
      requires Valid() && queue != [] && queue[0] == (id, delivery) && id !in open
      modifies this
      ensures Valid() && Attempted(old(View()), View(), id, true)
      ensures answer.None? <==> IsGone(old(View()), delivery.endpoint)
      ensures RetriedAs(old(asked), id, delivery, answer)
    {
      assert Due(View(), queue[0].0);
      if Live(View(), delivery.endpoint) {
        var response := AttemptDelivery(id, delivery, true);
        return Some(response);
      }
      GiveUp(id, delivery);
      VisitCompletes(old(View()), id, delivery);
      return None;
    }

    /** The row is as the answer to its POST calls for, or as the loss of its endpoint does. */
    ghost predicate RetriedAs(before: nat, id: Id, delivery: Delivery, answer: Option<Response>)
      reads this`asked, this`deliveries, this`now
    {
      && id in deliveries
      && match answer
         case None => asked == before && RowFor(deliveries[id], Gone)
         case Some(response) =>
           && response == answers(before) && asked == before + 1
           && RowFor(deliveries[id], Heard(response, now, delivery.attemptNumber))
    }

    /** The worker's turn; others go on while the endpoint is looked up. */
    method RetryDelivery(id: Id, delivery: Delivery) returns (answer: Option<Response>)
      requires Valid() && queue != [] && queue[0] == (id, delivery) && id !in open
      modifies this
      ensures Valid() && Attempted(old(View()), View(), id, true)
      ensures answer.None? <==> IsGone(Play(old(View()), plan(old(turns)), {id}, true), delivery.endpoint)
      ensures RetriedAs(old(asked), id, delivery, answer)
    {
      assert Due(View(), queue[0].0);
      Others({id}, true);
      ghost var was := View();
      answer := RetryAwaited(id, delivery);
      AttemptedAfter(old(View()), was, View(), id);
    }

    // -------------------------------------------------------------- retryWorker.ts

    /** The query, and the worker's queue filled with what it returns. */
    method FetchRetries() returns (batch: seq<Id>)
      requires Valid() && queue == []
      modifies this
      ensures Valid() && IsBatch(old(View()), batch)
      ensures View() == old(View()).(queue := Fetched(old(View()), batch))
      ensures SettledUpTo(old(View()), View(), batch, 0) && (queue != [] ==> queue[0].0 !in open)
    {
      batch := FindPendingRetries();
      if batch != [] { assert RowOk(View(), batch[0]) && Due(View(), batch[0]); }
      var s := Record(View(), Poll(batch));
      Install(s);
    }

    /** The worker's turn to the next row of what it fetched. */
    method RetryNext(batch: seq<Id>, rows: seq<(Id, Delivery)>, i: nat, ghost fetched: State)
      requires Valid() && |rows| == |batch| && i < |batch| && queue == rows[i..] && rows[i].0 == batch[i]
        && batch[i] !in open
      requires forall j, k :: 0 <= j < k < |batch| ==> batch[j] != batch[k]
      requires SettledUpTo(fetched, View(), batch, i)
      modifies this
      ensures Valid() && queue == rows[i + 1..] && SettledUpTo(fetched, View(), batch, i + 1)
      ensures queue != [] ==> queue[0].0 !in open
    {
      assert queue[0] == rows[i];
      var _ := RetryDelivery(batch[i], rows[i].1);
      SettledOneMore(fetched, old(View()), View(), batch, i);
    }

    /** Every row the query returned is settled, one after the other, and none stays as it was fetched. */
    method ProcessRetries() returns (ghost batch: seq<Id>, ghost fetched: State)
      requires Valid() && queue == []
      modifies this
      ensures Valid() && queue == [] && IsBatch(fetched, batch) && SettledUpTo(fetched, View(), batch, |batch|)
    {
      Others({}, true);
      fetched := View();
      var pending := FetchRetries();
      var rows := queue;
      batch := pending;
      for i := 0 to |pending|
        invariant Valid() && queue == rows[i..] && (queue != [] ==> queue[0].0 !in open)
        invariant SettledUpTo(fetched, View(), pending, i)
      {
        assert queue[0] == rows[i];
        RetryNext(pending, rows, i, fetched);
      }
    }

    // -------------------------------------------------------------- dispatcher.ts, dispatchWebhook

    /** A delivery created for one endpoint and attempted at once. */
    method DispatchOne(endpoint: Id) returns (id: Id)
      requires Valid()
      modifies this
      ensures Valid() && Forward(old(View()), View())
      ensures id !in old(deliveries) && Dispatched(View(), id, endpoint)
      ensures RowFor(deliveries[id], Heard(answers(old(asked)), now, 1)) && asked == old(asked) + 1
    {
      var delivery;
      id, delivery := CreateDelivery(endpoint);
      ghost var created := View();
      Others({id}, false);
      ghost var was := View();
      CreatedIsOwn(old(View()), created, was, id, endpoint);
      var _ := AttemptDelivery(id, delivery, false);
      DispatchCompletes(old(View()), was, View(), id, endpoint);
    }

    /** One delivery for every endpoint found, each created and attempted; ids are those of the deliveries. */
    method DispatchWebhook(found: seq<Id>) returns (ids: seq<Id>)
      requires Valid()
      modifies this
      ensures Valid() && Forward(old(View()), View()) && |ids| == |found|
      ensures AllDispatched(old(View()), View(), ids, found)
    {
      ids := [];
      for n := 0 to |found|
        invariant Valid() && Forward(old(View()), View()) && |ids| == n
          && AllDispatched(old(View()), View(), ids, found)
      {
        ids := DispatchNext(ids, found, n, old(View()));
      }
    }

    method DispatchNext(ids: seq<Id>, found: seq<Id>, n: nat, ghost first: State) returns (longer: seq<Id>)
      requires Valid() && |ids| == n < |found| && Forward(first, View()) && AllDispatched(first, View(), ids, found)
      modifies this
      ensures Valid() && Forward(first, View())
      ensures |longer| == n + 1 && AllDispatched(first, View(), longer, found)
    {
      ghost var was := View();
      Others({}, false);
      ghost var now := View();
      var id := DispatchOne(found[n]);
      longer := ids + [id];
      OneMoreDispatched(first, was, now, View(), ids, found, id);
    }
  }

  /** All have been created since, are different, and are dispatched to the endpoints found. */
  ghost predicate AllDispatched(first: State, s: State, ids: seq<Id>, found: seq<Id>) {
    && |ids| <= |found|
    && (forall i :: 0 <= i < |ids| ==> ids[i] !in first.deliveries && Dispatched(s, ids[i], found[i]))
    && (forall i, j :: 0 <= i < j < |ids| ==> ids[i] != ids[j])
  }

  lemma OneMoreDispatched(first: State, was: State, now: State, s: State, ids: seq<Id>, found: seq<Id>, id: Id)
    requires Forward(first, was) && Forward(was, now) && Forward(now, s)
    requires AllDispatched(first, was, ids, found) && |ids| < |found|
    requires id !in now.deliveries && Dispatched(s, id, found[|ids|])
    ensures Forward(first, s) && AllDispatched(first, s, ids + [id], found)
  {
    assert forall i :: 0 <= i < |ids| ==> ids[i] in was.deliveries && ids[i] in now.deliveries;
  }

  lemma CreatedIsOwn(first: State, created: State, now: State, id: Id, endpoint: Id)
    requires created == Apply(first, Create(id, endpoint)) && id !in first.deliveries && id !in created.open
    requires Respected(created, now, {id}, false)
    ensures Forward(first, now) && id !in now.open
    ensures id in now.deliveries && now.deliveries[id] == Delivery(endpoint, Pending, 1, 0, None)
  {
    assert id in {id};
  }

  lemma DispatchCompletes(first: State, was: State, s: State, id: Id, endpoint: Id)
    requires Forward(first, was) && Attempted(was, s, id, false) && was.deliveries[id].endpoint == endpoint
    ensures Forward(first, s) && Dispatched(s, id, endpoint)
  {}

  /** The delivery exists, is for the endpoint, and is no longer pending. */
  predicate Dispatched(s: State, id: Id, endpoint: Id) {
    id in s.deliveries && s.deliveries[id].endpoint == endpoint && !s.deliveries[id].status.Pending?
  }

  /** The first i rows of the batch are no longer as they were fetched, the others still are. */
  ghost predicate SettledUpTo(fetched: State, s: State, batch: seq<Id>, i: nat) {
    forall j :: 0 <= j < |batch| ==>
      && batch[j] in fetched.deliveries && batch[j] in s.deliveries
      && !fetched.deliveries[batch[j]].status.Pending? && !s.deliveries[batch[j]].status.Pending?
      && (if j < i then s.deliveries[batch[j]] != fetched.deliveries[batch[j]]
          else s.deliveries[batch[j]] == fetched.deliveries[batch[j]])
  }

  lemma SettledOneMore(fetched: State, was: State, s: State, batch: seq<Id>, i: nat)
    requires i < |batch| && forall j, k :: 0 <= j < k < |batch| ==> batch[j] != batch[k]
    requires SettledUpTo(fetched, was, batch, i) && Attempted(was, s, batch[i], true)
    ensures SettledUpTo(fetched, s, batch, i + 1)
  {}

  /** What an attempt has done for sure: its row is settled, and the worker has gone on by one row. */
  ghost predicate Attempted(was: State, s: State, id: Id, worker: bool) {
    && Forward(was, s)
    && id in was.deliveries && id in s.deliveries && s.deliveries[id] != was.deliveries[id]
        && !s.deliveries[id].status.Pending?
    && (worker ==>
          && was.queue != [] && s.queue == was.queue[1..] && RowsKept(was, s, id)
          && (s.queue != [] ==> s.queue[0].0 !in s.open))
  }

  /** The other rows that were not pending are as they were. */
  ghost predicate RowsKept(was: State, s: State, except: Id) {
    forall o :: o in was.deliveries && o != except && !was.deliveries[o].status.Pending? ==>
      o in s.deliveries && s.deliveries[o] == was.deliveries[o]
  }

  /** The POST for d waits for its answer, and others have left alone what they must. */
  ghost predicate Waits(was: State, s: State, id: Id, d: Delivery, worker: bool) {
    && id in was.deliveries && was.deliveries[id] == d && (worker ==> was.queue != [] && was.queue[0].0 == id)
    && id in s.open && s.open[id] == d.attemptNumber && id in s.deliveries && s.deliveries[id] == d
    && Respected(was.(open := was.open[id := d.attemptNumber]), s, {id}, worker)
  }

  lemma SamePosts(sent: State, same: State, s: State, own: set<Id>, worker: bool)
    requires sent.(posts := same.posts) == same && Respected(sent, s, own, worker)
    ensures Respected(same, s, own, worker)
  {}

  /** Only the row at the head of the queue can have a POST under way. */
  lemma NextIsClosed(s: State)
    requires Inv(s)
    ensures |s.queue| > 1 ==> s.queue[1].0 !in s.open
  {
    if |s.queue| > 1 { assert Due(s, s.queue[1].0) && RowOk(s, s.queue[1].0); }
  }

  /** The answer completes what was sent and waited for. */
  lemma AnswerCompletes(was: State, waiting: State, id: Id, d: Delivery, response: Response, worker: bool)
    requires Inv(waiting)
    requires Waits(was, waiting, id, d, worker)
    ensures Attempted(was, Apply(waiting, Answer(id, response)), id, worker)
  {
    assert RowOk(waiting, id);
    if worker { NextIsClosed(waiting); }
    AnswerGoesForward(waiting, id, response);
  }

  lemma VisitCompletes(was: State, id: Id, d: Delivery)
    requires Inv(was) && was.queue != [] && was.queue[0] == (id, d) && id !in was.open && !Live(was, d.endpoint)
    ensures Attempted(was, Apply(was, Visit), id, true)
  {
    assert Due(was, was.queue[0].0);
    NextIsClosed(was);
    VisitGoesForward(was);
  }

  lemma AttemptedAfter(was: State, now: State, s: State, id: Id)
    requires Respected(was, now, {id}, true) && Attempted(now, s, id, true)
    requires id in was.deliveries && !was.deliveries[id].status.Pending?
    ensures Attempted(was, s, id, true)
  {}
}
