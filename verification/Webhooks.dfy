/**
 Webhook deliveries of services/webhook-service as a step machine: deliveries are created and attempted as
 events come in, and a worker polls for those due for a retry and works through the rows it found, one by
 one, before it polls again. Times are in milliseconds.
 */
module Webhooks {
  import opened Prelude

  type Id = nat

  const RETRY_DELAYS_SECONDS: seq<nat> := [30, 300, 1800, 7200]
  const MAX_ATTEMPTS: nat := 5
  const BATCH_SIZE: nat := 50

  function DelayMs(k: nat): nat
    requires k < |RETRY_DELAYS_SECONDS|
  {
    RETRY_DELAYS_SECONDS[k] * 1000
  }

  datatype Status = Pending | Delivered | Retrying | Failed

  datatype Delivery = Delivery(endpoint: Id, status: Status, attemptNumber: nat, nextRetryAt: nat,
                               responseCode: Option<nat>)

  /** What comes back from one POST. */
  datatype Response = Ok(code: nat) | NotOk(code: nat) | Threw

  /**
   The deliveries table, the endpoints that exist with their is_active flag, the rows the worker has fetched
   and not yet done with, the POSTs that wait for an answer, with the attempt number of the row as it was
   fetched, and, for each delivery, the times of its POSTs so far.
   */
  datatype State = State(now: nat, deliveries: map<Id, Delivery>, endpoints: map<Id, bool>,
                         queue: seq<(Id, Delivery)>, open: map<Id, nat>, posts: map<Id, seq<nat>>)

  datatype Step =
    | Create(id: Id, endpoint: Id)             // createDelivery
    | Post(id: Id)                             // the first attempt's POST
    | Poll(batch: seq<Id>)                     // findPendingRetries
    | Visit                                    // retryDelivery on the next fetched row, up to its POST
    | Answer(id: Id, response: Response)       // the answer to a POST, or its failure, and the row updated
    | SetEndpoint(endpoint: Id, active: bool)
    | Tick(dt: nat)

  /** scheduleRetry in dispatcher.ts: attemptNumber is that of the row as it was fetched. */
  function ScheduleRetry(d: Delivery, attemptNumber: nat, code: Option<nat>, now: nat): Delivery
    requires attemptNumber > 0
  {
    var delayIndex := attemptNumber - 1;
    if delayIndex >= |RETRY_DELAYS_SECONDS| then d.(status := Failed, responseCode := code)
    else d.(status := Retrying, responseCode := code, attemptNumber := d.attemptNumber + 1,
            nextRetryAt := now + DelayMs(delayIndex))
  }

  /** What an attempt makes of the stored row d, the row having been fetched with the given attempt number. */
  function Settle(d: Delivery, attemptNumber: nat, response: Response, now: nat): Delivery
    requires attemptNumber > 0
  {
    match response
    case Ok(code) => d.(status := Delivered, responseCode := Some(code))
    case NotOk(code) => ScheduleRetry(d, attemptNumber, Some(code), now)
    case Threw => ScheduleRetry(d, attemptNumber, None, now)
  }

  /** attemptDelivery up to its POST. */
  function Posted(s: State, id: Id, attemptNumber: nat): State {
    var before := if id in s.posts then s.posts[id] else [];
    s.(posts := s.posts[id := before + [s.now]], open := s.open[id := attemptNumber])
  }

  /** attemptDelivery from the answer on; the worker then turns to its next row. */
  function Answered(s: State, id: Id, response: Response): State
    requires id in s.open && id in s.deliveries && s.open[id] > 0
  {
    s.(deliveries := s.deliveries[id := Settle(s.deliveries[id], s.open[id], response, s.now)],
       open := s.open - {id},
       queue := if s.queue != [] && s.queue[0].0 == id then s.queue[1..] else s.queue)
  }

  predicate Due(s: State, id: Id) {
    id in s.deliveries && s.deliveries[id].status.Retrying? && s.deliveries[id].nextRetryAt <= s.now
  }

  /** An answer findPendingRetries may give: the BATCH_SIZE due rows with the earliest next_retry_at, in order. */
  predicate IsBatch(s: State, batch: seq<Id>) {
    && (forall i :: 0 <= i < |batch| ==> Due(s, batch[i]))
    && (forall i, j :: 0 <= i < j < |batch| ==>
          batch[i] != batch[j] && s.deliveries[batch[i]].nextRetryAt <= s.deliveries[batch[j]].nextRetryAt)
    && |batch| <= BATCH_SIZE
    && (forall id :: id in s.deliveries && Due(s, id) && id !in batch ==>
          |batch| == BATCH_SIZE
          && forall i :: 0 <= i < |batch| ==> s.deliveries[batch[i]].nextRetryAt <= s.deliveries[id].nextRetryAt)
  }

  function Fetched(s: State, batch: seq<Id>): seq<(Id, Delivery)>
    requires forall i :: 0 <= i < |batch| ==> batch[i] in s.deliveries
  {
    seq(|batch|, i requires 0 <= i < |batch| => (batch[i], s.deliveries[batch[i]]))
  }

  predicate Live(s: State, endpoint: Id) { endpoint in s.endpoints && s.endpoints[endpoint] }

  /** retryDelivery: a missing or inactive endpoint ends the delivery without a POST. */
  function Visited(s: State, id: Id, fetched: Delivery): State
    requires id in s.deliveries && s.queue != []
  {
    if Live(s, fetched.endpoint) then Posted(s, id, fetched.attemptNumber)
    else s.(deliveries := s.deliveries[id := s.deliveries[id].(status := Failed, responseCode := None)],
        queue := s.queue[1..])
  }

  function Apply(s: State, step: Step): State {
    match step
    case Create(id, endpoint) =>
      if id in s.deliveries then s
      else s.(deliveries := s.deliveries[id := Delivery(endpoint, Pending, 1, 0, None)], posts := s.posts[id := []])
    case Post(id) =>
      if id in s.deliveries && s.deliveries[id].status.Pending? && id !in s.open then Posted(s, id, 1) else s
    case Poll(batch) => if s.queue == [] && IsBatch(s, batch) then s.(queue := Fetched(s, batch)) else s
    case Visit =>
      if s.queue == [] || s.queue[0].0 !in s.deliveries || s.queue[0].0 in s.open then s
      else Visited(s, s.queue[0].0, s.queue[0].1)
    case Answer(id, response) =>
      if id in s.open && id in s.deliveries && s.open[id] > 0 then Answered(s, id, response) else s
    case SetEndpoint(endpoint, active) => s.(endpoints := s.endpoints[endpoint := active])
    case Tick(dt) => s.(now := s.now + dt)
  }

  function Run(s: State, steps: seq<Step>): State {
    if steps == [] then s else Apply(Run(s, steps[..|steps| - 1]), steps[|steps| - 1])
  }

  lemma RunOneMore(s: State, steps: seq<Step>, step: Step)
    ensures Run(s, steps + [step]) == Apply(Run(s, steps), step)
  {
    assert (steps + [step])[..|steps|] == steps;
  }

  predicate Initial(s: State) { s.deliveries == map[] && s.queue == [] && s.open == map[] && s.posts == map[] }

  // ---------------------------------------------------------------- the life of one delivery

  /** Each POST comes no earlier than the prescribed delay after the one before it. */
  predicate Spaced(posts: seq<nat>)
    requires |posts| <= MAX_ATTEMPTS
  {
    forall k :: 0 < k < |posts| ==> posts[k] >= posts[k - 1] + DelayMs(k - 1)
  }

  /** How a row agrees with the POSTs made for it, the last of which may still wait for its answer. */
  predicate LifeOk(d: Delivery, posts: seq<nat>, waits: bool, now: nat) {
    && |posts| <= MAX_ATTEMPTS && Spaced(posts)
    && (posts != [] ==> posts[|posts| - 1] <= now)
    && (d.status.Pending? ==> d.attemptNumber == 1 && |posts| == if waits then 1 else 0)
    && (d.status.Retrying? ==>
          if waits then d.attemptNumber == |posts| >= 2
          else
            && 1 <= |posts| < MAX_ATTEMPTS && d.attemptNumber == |posts| + 1
            && d.nextRetryAt >= posts[|posts| - 1] + DelayMs(|posts| - 1))
    && (Final(d) ==> !waits) && (d.status.Delivered? ==> posts != [])
  }

  predicate Final(d: Delivery) { d.status.Delivered? || d.status.Failed? }

  predicate RowOk(s: State, id: Id) {
    && id in s.deliveries && id in s.posts && LifeOk(s.deliveries[id], s.posts[id], id in s.open, s.now)
    && (id in s.open ==> s.open[id] == s.deliveries[id].attemptNumber)
    && (id in s.open && s.deliveries[id].status.Retrying? ==> s.queue != [] && s.queue[0].0 == id)
  }

  predicate QueueOk(s: State) {
    && (forall i :: 0 <= i < |s.queue| ==> Due(s, s.queue[i].0) && s.queue[i].1 == s.deliveries[s.queue[i].0])
    && (forall i, j :: 0 <= i < j < |s.queue| ==> s.queue[i].0 != s.queue[j].0)
  }

  predicate Inv(s: State) {
    && (forall id :: id in s.deliveries ==> RowOk(s, id))
    && (forall id :: id in s.open ==> id in s.deliveries)
    && QueueOk(s)
  }

  /** The first POST, or a POST that does not come too early, continues the life of the delivery. */
  lemma PostKeepsLife(d: Delivery, posts: seq<nat>, now: nat)
    requires LifeOk(d, posts, false, now) && (d.status.Pending? || (d.status.Retrying? && d.nextRetryAt <= now))
    ensures LifeOk(d, posts + [now], true, now)
  {}

  lemma AnswerKeepsLife(d: Delivery, posts: seq<nat>, now: nat, response: Response)
    requires LifeOk(d, posts, true, now)
    ensures d.attemptNumber > 0 && LifeOk(Settle(d, d.attemptNumber, response, now), posts, false, now)
  {}

  /** Inv is kept when only the row id changes, its place in the queue being the head if it has one. */
  lemma OneRowChanges(s: State, s': State, id: Id)
    requires Inv(s) && s'.now == s.now && id in s'.deliveries
    requires s'.deliveries == s.deliveries[id := s'.deliveries[id]]
    requires id in s'.posts && s'.posts == s.posts[id := s'.posts[id]]
    requires forall o :: o != id ==> (o in s'.open <==> o in s.open) && (o in s.open ==> s'.open[o] == s.open[o])
    requires RowOk(s', id) && QueueOk(s')
    requires s'.queue == s.queue || (s.queue != [] && s.queue[0].0 == id && s'.queue == s.queue[1..])
    ensures Inv(s')
  {
    forall o | o in s'.deliveries ensures RowOk(s', o) {
      if o != id { assert RowOk(s, o); }
    }
  }

  lemma QueueStaysOk(s: State, s': State, id: Id)
    requires QueueOk(s) && s'.now == s.now && id in s'.deliveries
      && s'.deliveries == s.deliveries[id := s'.deliveries[id]]
    requires if s.queue != [] && s.queue[0].0 == id
             then s'.queue == s.queue[1..] || (s'.queue == s.queue && s'.deliveries[id] == s.deliveries[id])
             else s'.queue == s.queue && (id in s.deliveries ==>
                 !s.deliveries[id].status.Retrying? || s'.deliveries[id] == s.deliveries[id])
    ensures QueueOk(s')
  {
    var shift := if s'.queue == s.queue then 0 else 1;
    forall i | 0 <= i < |s'.queue|
      ensures Due(s', s'.queue[i].0) && s'.queue[i].1 == s'.deliveries[s'.queue[i].0]
    {
      assert s'.queue[i] == s.queue[i + shift] && Due(s, s.queue[i + shift].0);
    }
  }

  lemma CreateKeepsInv(s: State, id: Id, endpoint: Id)
    requires Inv(s) && id !in s.deliveries
    ensures Inv(Apply(s, Create(id, endpoint)))
  {
    QueueStaysOk(s, Apply(s, Create(id, endpoint)), id);
    OneRowChanges(s, Apply(s, Create(id, endpoint)), id);
  }

  lemma PostedKeepsInv(s: State, id: Id)
    requires Inv(s) && id in s.deliveries && id !in s.open
    requires s.deliveries[id].status.Pending? || (s.queue != [] && s.queue[0].0 == id)
    ensures Inv(Posted(s, id, s.deliveries[id].attemptNumber))
  {
    assert RowOk(s, id);
    PostKeepsLife(s.deliveries[id], s.posts[id], s.now);
    QueueStaysOk(s, Posted(s, id, s.deliveries[id].attemptNumber), id);
    OneRowChanges(s, Posted(s, id, s.deliveries[id].attemptNumber), id);
  }

  lemma VisitKeepsInv(s: State)
    requires Inv(s)
    ensures Inv(Apply(s, Visit))
  {
    if s.queue != [] && s.queue[0].0 !in s.open {
      var (id, fetched) := s.queue[0];
      assert Due(s, id) && RowOk(s, id);
      if Live(s, fetched.endpoint) {
        PostedKeepsInv(s, id);
      } else {
        QueueStaysOk(s, Visited(s, id, fetched), id);
        OneRowChanges(s, Visited(s, id, fetched), id);
      }
    }
  }

  lemma AnswerKeepsInv(s: State, id: Id, response: Response)
    requires Inv(s)
    ensures Inv(Apply(s, Answer(id, response)))
  {
    if id in s.open {
      assert RowOk(s, id);
      AnswerKeepsLife(s.deliveries[id], s.posts[id], s.now, response);
      QueueStaysOk(s, Answered(s, id, response), id);
      OneRowChanges(s, Answered(s, id, response), id);
    }
  }

  lemma PollKeepsInv(s: State, batch: seq<Id>)
    requires Inv(s)
    ensures Inv(Apply(s, Poll(batch)))
  {
    forall id | id in s.deliveries ensures RowOk(Apply(s, Poll(batch)), id) { assert RowOk(s, id); }
  }

  lemma TickKeepsInv(s: State, dt: nat)
    requires Inv(s)
    ensures Inv(Apply(s, Tick(dt)))
  {
    var s' := Apply(s, Tick(dt));
    forall id | id in s.deliveries ensures RowOk(s', id) { assert RowOk(s, id); }
    forall i | 0 <= i < |s'.queue| ensures Due(s', s'.queue[i].0) { assert Due(s, s.queue[i].0); }
  }

  lemma StepKeepsInv(s: State, step: Step)
    requires Inv(s)
    ensures Inv(Apply(s, step))
  {
    match step
    case Create(id, endpoint) => if id !in s.deliveries { CreateKeepsInv(s, id, endpoint); }
    case Post(id) =>
      if id in s.deliveries && s.deliveries[id].status.Pending? && id !in s.open {
        assert RowOk(s, id);
        PostedKeepsInv(s, id);
      }
    case Poll(batch) => PollKeepsInv(s, batch);
    case Visit => VisitKeepsInv(s);
    case Answer(id, response) => AnswerKeepsInv(s, id, response);
    case SetEndpoint(_, _) => forall id | id in s.deliveries ensures RowOk(Apply(s, step), id) { assert RowOk(s, id); }
    case Tick(dt) => TickKeepsInv(s, dt);
  }

  lemma {:induction false} RunKeepsInv(s0: State, steps: seq<Step>)
    requires Initial(s0)
    ensures Inv(Run(s0, steps))
  {
    if steps != [] {
      RunKeepsInv(s0, steps[..|steps| - 1]);
      StepKeepsInv(Run(s0, steps[..|steps| - 1]), steps[|steps| - 1]);
    }
  }

  function DelaySum(k: nat): nat
    requires k <= |RETRY_DELAYS_SECONDS|
  {
    if k == 0 then 0 else DelaySum(k - 1) + DelayMs(k - 1)
  }

  lemma {:induction false} SpacedAddsUp(posts: seq<nat>, k: nat)
    requires k < |posts| <= MAX_ATTEMPTS && Spaced(posts)
    ensures posts[k] >= posts[0] + DelaySum(k)
  {
    if k > 0 { SpacedAddsUp(posts, k - 1); }
  }

  /**
   The life of a delivery on every run: at most five POSTs; while pending or retrying its attempt number is
   the number of POSTs answered plus one; and POST k comes no earlier than the first POST plus the delays
   between.
   */
  lemma Lifecycle(s0: State, steps: seq<Step>, id: Id)
    requires Initial(s0) && id in Run(s0, steps).deliveries
    ensures var s := Run(s0, steps);
      && id in s.posts && |s.posts[id]| <= 5
      && (!Final(s.deliveries[id]) ==> s.deliveries[id].attemptNumber == |s.posts[id]| + if id in s.open then 0 else 1)
      && (forall k: nat :: k < |s.posts[id]| ==> s.posts[id][k] >= s.posts[id][0] + DelaySum(k))
  {
    var s := Run(s0, steps);
    RunKeepsInv(s0, steps);
    assert RowOk(s, id);
    forall k: nat | k < |s.posts[id]| ensures s.posts[id][k] >= s.posts[id][0] + DelaySum(k) {
      SpacedAddsUp(s.posts[id], k);
    }
  }

  lemma StepLeavesFinal(s: State, step: Step, id: Id)
    requires Inv(s) && id in s.deliveries && Final(s.deliveries[id])
    ensures var s' := Apply(s, step);
      id in s'.deliveries && s'.deliveries[id] == s.deliveries[id] && id in s'.posts && s'.posts[id] == s.posts[id]
  {
    assert RowOk(s, id);
    assert forall i :: 0 <= i < |s.queue| ==> Due(s, s.queue[i].0);
  }

  /** Delivered and failed are final: however a run goes on, such a row stays as it is and gets no POST. */
  lemma {:induction false} FinalIsFinal(s0: State, steps: seq<Step>, more: seq<Step>, id: Id)
    requires Initial(s0) && id in Run(s0, steps).deliveries && Final(Run(s0, steps).deliveries[id])
    ensures var s, s' := Run(s0, steps), Run(s0, steps + more);
      && id in s'.deliveries && s'.deliveries[id] == s.deliveries[id]
      && id in s.posts && id in s'.posts && s'.posts[id] == s.posts[id]
  {
    RunKeepsInv(s0, steps);
    if more == [] {
      assert steps + more == steps;
      assert RowOk(Run(s0, steps), id);
    } else {
      var n := |more| - 1;
      assert steps + more == (steps + more[..n]) + [more[n]];
      RunOneMore(s0, steps + more[..n], more[n]);
      FinalIsFinal(s0, steps, more[..n], id);
      RunKeepsInv(s0, steps + more[..n]);
      StepLeavesFinal(Run(s0, steps + more[..n]), more[n], id);
    }
  }

  /** A delivery whose POST fails is given up exactly when that was the fifth, and not before. */
  lemma GivenUpAfterFivePosts(s0: State, steps: seq<Step>, id: Id, response: Response)
    requires Initial(s0) && id in Run(s0, steps).open && !response.Ok?
    ensures var s' := Apply(Run(s0, steps), Answer(id, response));
      && id in s'.deliveries && id in s'.posts
      && (s'.deliveries[id].status.Failed? <==> |s'.posts[id]| == 5)
      && (s'.deliveries[id].status.Retrying? <==> |s'.posts[id]| < 5)
  {
    RunKeepsInv(s0, steps);
    assert RowOk(Run(s0, steps), id);
  }

  // ---------------------------------------------------------------- no delivery starves

  /** The retrying deliveries scheduled no later than a given time. */
  ghost function ScheduledBy(s: State, time: nat): set<Id> {
    set id | id in s.deliveries && s.deliveries[id].status.Retrying? && s.deliveries[id].nextRetryAt <= time
  }

  ghost function Queued(s: State): set<Id> { set i | 0 <= i < |s.queue| :: s.queue[i].0 }

  /** The rows that wait behind the current batch. */
  ghost function Waiting(s: State, time: nat): set<Id> { ScheduledBy(s, time) - Queued(s) }

  /** The row is due and still as it was. */
  predicate Unchanged(s: State, id: Id, d: Delivery) {
    id in s.deliveries && s.deliveries[id] == d && d.status.Retrying? && d.nextRetryAt <= s.now
  }

  lemma AnswerSettles(s: State, id: Id, response: Response)
    requires Inv(s) && id in s.open
    ensures var s' := Apply(s, Answer(id, response));
      && s'.now == s.now && id in s.posts && s.posts[id] != []
      && s'.deliveries == s.deliveries[id := s'.deliveries[id]]
      && (s'.deliveries[id].status.Retrying? ==> s'.deliveries[id].nextRetryAt > s.now)
  {
    assert RowOk(s, id);
  }

  /** The endpoint of the row at the head of the queue is gone, and the worker gives the row up. */
  predicate GivenUp(s: State, step: Step, id: Id) {
    && step.Visit? && s.queue != [] && s.queue[0].0 == id
    && id in s.deliveries && !Live(s, s.deliveries[id].endpoint)
  }

  /** A retrying row changes only when a POST made for it is answered, or when its endpoint is gone. */
  lemma RowChangesOnlyBy(s: State, step: Step, id: Id)
    requires Inv(s) && id in s.deliveries && s.deliveries[id].status.Retrying?
    ensures id in Apply(s, step).deliveries
    ensures var d, d' := s.deliveries[id], Apply(s, step).deliveries[id];
      || d' == d
      || (step.Answer? && step.id == id && id in s.open && s.posts[id] != []
          && (d'.status.Retrying? ==> d'.nextRetryAt > Apply(s, step).now))
      || (GivenUp(s, step, id) && d'.status.Failed?)
  {
    assert s.queue != [] ==> Due(s, s.queue[0].0);
    if step.Answer? && step.id in s.open { AnswerSettles(s, step.id, step.response); }
  }

  /** What is not retrying becomes so only with a date after now. */
  lemma NewRetriesLieAhead(s: State, step: Step, id: Id)
    requires Inv(s) && id in Apply(s, step).deliveries && !(id in s.deliveries && s.deliveries[id].status.Retrying?)
    ensures var d := Apply(s, step).deliveries[id]; d.status.Retrying? ==> d.nextRetryAt > Apply(s, step).now
  {
    if id in s.deliveries { assert RowOk(s, id); }
    assert s.queue != [] ==> Due(s, s.queue[0].0);
  }

  /** Once the time has come, the set of rows scheduled by then only shrinks. */
  lemma ScheduledOnlyShrinks(s: State, step: Step, time: nat)
    requires Inv(s) && time <= s.now
    ensures ScheduledBy(Apply(s, step), time) <= ScheduledBy(s, time)
  {
    forall id | id in ScheduledBy(Apply(s, step), time) ensures id in ScheduledBy(s, time) {
      if id in s.deliveries && s.deliveries[id].status.Retrying? {
        RowChangesOnlyBy(s, step, id);
      } else {
        NewRetriesLieAhead(s, step, id);
      }
    }
  }

  lemma {:induction false} SizeOfDistinct(batch: seq<Id>)
    requires forall i, j :: 0 <= i < j < |batch| ==> batch[i] != batch[j]
    ensures |set i | 0 <= i < |batch| :: batch[i]| == |batch|
  {
    if batch != [] {
      var n := |batch| - 1;
      SizeOfDistinct(batch[..n]);
      var before := set i | 0 <= i < n :: batch[..n][i];
      assert (set i | 0 <= i < |batch| :: batch[i]) == before + {batch[n]};
      assert batch[n] !in before;
    }
  }

  lemma PollQueues(s: State, batch: seq<Id>)
    requires s.queue == [] && IsBatch(s, batch)
    ensures Queued(s) == {} && Queued(Apply(s, Poll(batch))) == set i | 0 <= i < |batch| :: batch[i]
  {
    var s' := Apply(s, Poll(batch));
    assert forall i :: 0 <= i < |batch| ==> s'.queue[i].0 == batch[i];
  }

  /** A poll whose batch is full and leaves id out takes BATCH_SIZE rows scheduled before it out of the way. */
  lemma BatchComesFirst(s: State, batch: seq<Id>, id: Id, d: Delivery)
    requires IsBatch(s, batch) && Unchanged(s, id, d) && id !in batch
    ensures |batch| == BATCH_SIZE
    ensures (set i | 0 <= i < |batch| :: batch[i]) <= ScheduledBy(s, d.nextRetryAt)
  {
    assert Due(s, id);
    forall i | 0 <= i < |batch| ensures batch[i] in ScheduledBy(s, d.nextRetryAt) { assert Due(s, batch[i]); }
  }

  lemma PollTakesFifty(s: State, batch: seq<Id>, id: Id, d: Delivery)
    requires s.queue == [] && IsBatch(s, batch) && Unchanged(s, id, d) && id !in batch
    ensures |Waiting(Apply(s, Poll(batch)), d.nextRetryAt)| == |Waiting(s, d.nextRetryAt)| - BATCH_SIZE
  {
    var s' := Apply(s, Poll(batch));
    var taken := set i | 0 <= i < |batch| :: batch[i];
    PollQueues(s, batch);
    BatchComesFirst(s, batch, id, d);
    SizeOfDistinct(batch);
    assert Waiting(s', d.nextRetryAt) == ScheduledBy(s, d.nextRetryAt) - taken;
    assert Waiting(s, d.nextRetryAt) == ScheduledBy(s, d.nextRetryAt);
  }

  /** The worker fetches a batch in this step. */
  predicate PollMade(s: State, step: Step) { step.Poll? && s.queue == [] && IsBatch(s, step.batch) }

  lemma HeadLeaves(s: State, step: Step)
    requires Inv(s) && !PollMade(s, step) && Apply(s, step).queue != s.queue
    ensures var s' := Apply(s, step);
      && s.queue != [] && s'.queue == s.queue[1..]
      && s.queue[0].0 in s'.deliveries && s'.deliveries[s.queue[0].0] != s.deliveries[s.queue[0].0]
  {
    assert Due(s, s.queue[0].0) && RowOk(s, s.queue[0].0);
  }

  /** Outside a poll, a row leaves the queue only as its head, and changed so that it is not scheduled by now. */
  lemma QueueOnlyShrinks(s: State, step: Step)
    requires Inv(s) && !PollMade(s, step)
    ensures var s' := Apply(s, step);
      && Queued(s') <= Queued(s)
      && forall id :: id in Queued(s) && id !in Queued(s') ==>
          id in s'.deliveries && s'.deliveries[id] != s.deliveries[id]
  {
    var s' := Apply(s, step);
    if s'.queue != s.queue {
      HeadLeaves(s, step);
      forall i | 0 <= i < |s.queue| ensures i == 0 || s.queue[i].0 in Queued(s') {
        if i > 0 { assert s'.queue[i - 1] == s.queue[i]; }
      }
      forall i | 0 <= i < |s'.queue| ensures s'.queue[i].0 in Queued(s) { assert s'.queue[i] == s.queue[i + 1]; }
    }
  }

  /** Any other step leaves no more rows waiting than before. */
  lemma WaitingOnlyShrinks(s: State, step: Step, time: nat)
    requires Inv(s) && time <= s.now && !PollMade(s, step)
    ensures |Waiting(Apply(s, step), time)| <= |Waiting(s, time)|
  {
    var s' := Apply(s, step);
    ScheduledOnlyShrinks(s, step, time);
    QueueOnlyShrinks(s, step);
    forall id | id in Waiting(s', time) ensures id in Waiting(s, time) {
      if id in Queued(s) {
        assert exists i :: 0 <= i < |s.queue| && s.queue[i].0 == id;
        RowChangesOnlyBy(s, step, id);
      }
    }
    SubsetIsNoLarger(Waiting(s', time), Waiting(s, time));
  }

  /** How many polls a run makes. */
  function Polls(s: State, steps: seq<Step>): nat {
    if steps == [] then 0
    else
      var n := |steps| - 1;
      Polls(s, steps[..n]) + if PollMade(Run(s, steps[..n]), steps[n]) then 1 else 0
  }

  /** The row was still as it was after every prefix of the run. */
  predicate UnchangedThroughout(s: State, steps: seq<Step>, id: Id, d: Delivery) {
    Unchanged(Run(s, steps), id, d) && (steps != [] ==> UnchangedThroughout(s, steps[..|steps| - 1], id, d))
  }

  /**
   How far things have come after some polls, n rows having been ahead at first: a row not yet fetched has at
   most n minus fifty per poll rows ahead; and the poll that fetched it was made in time.
   */
  ghost predicate OnSchedule(s: State, id: Id, d: Delivery, polls: nat, n: nat) {
    if id in Queued(s) then polls > 0 && BATCH_SIZE * (polls - 1) < n
    else |Waiting(s, d.nextRetryAt)| + BATCH_SIZE * polls <= n
  }

  lemma PollStaysOnSchedule(s: State, batch: seq<Id>, id: Id, d: Delivery, polls: nat, n: nat)
    requires s.queue == [] && IsBatch(s, batch) && Unchanged(s, id, d) && OnSchedule(s, id, d, polls, n)
    ensures OnSchedule(Apply(s, Poll(batch)), id, d, polls + 1, n)
  {
    PollQueues(s, batch);
    if id in batch {
      assert id in Waiting(s, d.nextRetryAt);
      assert |Waiting(s, d.nextRetryAt)| > 0;
    } else {
      PollTakesFifty(s, batch, id, d);
    }
  }

  lemma StepStaysOnSchedule(s: State, step: Step, id: Id, d: Delivery, polls: nat, n: nat)
    requires Inv(s) && Unchanged(s, id, d)
    ensures OnSchedule(s, id, d, polls, n) && Unchanged(Apply(s, step), id, d) ==>
      OnSchedule(Apply(s, step), id, d, polls + if PollMade(s, step) then 1 else 0, n)
  {
    if PollMade(s, step) {
      if OnSchedule(s, id, d, polls, n) { PollStaysOnSchedule(s, step.batch, id, d, polls, n); }
    } else {
      QueueOnlyShrinks(s, step);
      WaitingOnlyShrinks(s, step, d.nextRetryAt);
    }
  }

  lemma {:induction false} RunStaysOnSchedule(s: State, steps: seq<Step>, id: Id, d: Delivery)
    requires Inv(s) && UnchangedThroughout(s, steps, id, d) && id !in Queued(s)
    ensures Inv(Run(s, steps))
    ensures OnSchedule(Run(s, steps), id, d, Polls(s, steps), |Waiting(s, d.nextRetryAt)|)
  {
    if steps != [] {
      var n := |steps| - 1;
      RunStaysOnSchedule(s, steps[..n], id, d);
      StepKeepsInv(Run(s, steps[..n]), steps[n]);
      StepStaysOnSchedule(Run(s, steps[..n]), steps[n], id, d, Polls(s, steps[..n]), |Waiting(s, d.nextRetryAt)|);
    }
  }

  /**
   Starvation freedom: let n count the retrying deliveries scheduled no later than a due one that is not being
   worked on, itself included. As long as that one is as it was, at most ceil(n / 50) polls have been made,
   and fewer once the worker is done with its batch: so with the ceil(n / 50)-th batch it is attempted and
   settled, whatever else is created, attempted or rescheduled meanwhile.
   */
  lemma NoDeliveryStarves(s0: State, before: seq<Step>, steps: seq<Step>, id: Id, d: Delivery)
    requires Initial(s0) && id !in Queued(Run(s0, before)) && UnchangedThroughout(Run(s0, before), steps, id, d)
    ensures var s := Run(s0, before); var n := |ScheduledBy(s, d.nextRetryAt)|;
      && 50 * (Polls(s, steps) - 1) < n
      && (Run(s, steps).queue == [] ==> 50 * Polls(s, steps) < n)
  {
    var s := Run(s0, before);
    var s' := Run(s, steps);
    var n := |Waiting(s, d.nextRetryAt)|;
    RunKeepsInv(s0, before);
    RunStaysOnSchedule(s, steps, id, d);
    assert Waiting(s, d.nextRetryAt) <= ScheduledBy(s, d.nextRetryAt);
    SubsetIsNoLarger(Waiting(s, d.nextRetryAt), ScheduledBy(s, d.nextRetryAt));
    if id !in Queued(s') {
      assert id in Waiting(s', d.nextRetryAt);
      assert |Waiting(s', d.nextRetryAt)| > 0;
    }
  }
}
