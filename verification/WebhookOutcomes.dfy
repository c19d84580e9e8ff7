/**
 What a row of the deliveries table says, on every run: exactly what the answers to its POSTs, in their order
 and at their times, or the loss of its endpoint call for. The history is read off the steps of the run, and
 the row it calls for is spelled out, apart from the code that writes it.
 */
module WebhookOutcomes {
  import opened Prelude
  import opened Webhooks

  /** The last that was heard of a delivery: nothing, the n-th answer to a POST, or that its endpoint is gone. */
  datatype Word = Unheard | Heard(response: Response, at: nat, n: nat) | Gone

  /** How long after its n-th failure a delivery is due again. */
  function WaitAfter(n: nat): nat {
    if n == 1 then 30_000 else if n == 2 then 300_000 else if n == 3 then 1_800_000 else 7_200_000
  }

  /** The row that this calls for. */
  predicate RowFor(d: Delivery, word: Word) {
    match word
    case Unheard => d.status == Pending && d.attemptNumber == 1 && d.responseCode == None
    case Gone => d.status == Failed && d.responseCode == None
    case Heard(Ok(code), _, n) => n <= 5 && d.status == Delivered && d.responseCode == Some(code)
    case Heard(failure, at, n) =>
      && d.responseCode == (if failure.NotOk? then Some(failure.code) else None)
      && if n == 5 then d.status == Failed
         else n < 5 && d.status == Retrying && d.attemptNumber == n + 1 && d.nextRetryAt == at + WaitAfter(n)
  }

  /** An endpoint that does not exist or is not active. */
  predicate IsGone(s: State, endpoint: Id) { endpoint !in s.endpoints || !s.endpoints[endpoint] }

  /** The worker turns to this delivery, and no POST for it is under way. */
  predicate TurnsTo(s: State, step: Step, id: Id) {
    step.Visit? && s.queue != [] && s.queue[0].0 == id && id in s.deliveries && id !in s.open
  }

  function NextWord(s: State, step: Step, id: Id, word: Word): Word {
    if step.Answer? && step.id == id && id in s.open then
      Heard(step.response, s.now, 1 + if word.Heard? then word.n else 0)
    else if TurnsTo(s, step, id) && IsGone(s, s.deliveries[id].endpoint) then Gone
    else word
  }

  /** The last that was heard of a delivery on a run. */
  function LastWord(s0: State, steps: seq<Step>, id: Id): Word {
    if steps == [] then Unheard
    else
      var n := |steps| - 1;
      NextWord(Run(s0, steps[..n]), steps[n], id, LastWord(s0, steps[..n], id))
  }

  lemma AnswerSaysSo(d: Delivery, response: Response, now: nat, word: Word)
    requires RowFor(d, word) && (d.status.Pending? || d.status.Retrying?)
    ensures var n := 1 + if word.Heard? then word.n else 0;
      n == d.attemptNumber && RowFor(Settle(d, d.attemptNumber, response, now), Heard(response, now, n))
  {}

  lemma SettledRow(d: Delivery, response: Response, now: nat)
    requires 1 <= d.attemptNumber <= 5
    ensures RowFor(Settle(d, d.attemptNumber, response, now), Heard(response, now, d.attemptNumber))
  {}

  /** What an answer changes: the row as it calls for, and nothing else but that the POST is done with. */
  lemma AnswerIs(s: State, id: Id, response: Response)
    requires Inv(s) && id in s.open
    ensures id in s.deliveries && s.open[id] == s.deliveries[id].attemptNumber && s.open[id] > 0
    ensures Apply(s, Answer(id, response)) == Answered(s, id, response)
    ensures RowFor(Settle(s.deliveries[id], s.open[id], response, s.now), Heard(response, s.now, s.open[id]))
  {
    assert RowOk(s, id);
    SettledRow(s.deliveries[id], response, s.now);
  }

  lemma AnswerTells(s: State, id: Id, response: Response, word: Word)
    requires Inv(s) && id in s.open && RowFor(s.deliveries[id], word)
    ensures var step := Answer(id, response);
      id in Apply(s, step).deliveries && RowFor(Apply(s, step).deliveries[id], NextWord(s, step, id, word))
  {
    assert RowOk(s, id);
    AnswerSaysSo(s.deliveries[id], response, s.now, word);
  }

  /** Any other step leaves the row as it is, unless its endpoint is gone. */
  lemma OtherStepTells(s: State, step: Step, id: Id, word: Word)
    requires Inv(s) && id in s.deliveries && RowFor(s.deliveries[id], word)
    requires !(step.Answer? && step.id == id && id in s.open)
    ensures id in Apply(s, step).deliveries && RowFor(Apply(s, step).deliveries[id], NextWord(s, step, id, word))
  {
    if s.queue != [] { assert Due(s, s.queue[0].0); }
  }

  lemma CreatedTells(s: State, step: Step, id: Id)
    requires Inv(s) && id !in s.deliveries
    ensures NextWord(s, step, id, Unheard) == Unheard
    ensures id in Apply(s, step).deliveries ==> RowFor(Apply(s, step).deliveries[id], Unheard)
  {}

  /** On every run: each row is exactly the one that the last heard of it calls for. */
  lemma {:induction false} RowTellsItsHistory(s0: State, steps: seq<Step>, id: Id)
    requires Initial(s0)
    ensures var s, word := Run(s0, steps), LastWord(s0, steps, id);
      if id in s.deliveries then RowFor(s.deliveries[id], word) else word == Unheard
  {
    if steps != [] {
      var n := |steps| - 1;
      var s, step, word := Run(s0, steps[..n]), steps[n], LastWord(s0, steps[..n], id);
      RowTellsItsHistory(s0, steps[..n], id);
      RunKeepsInv(s0, steps[..n]);
      if id !in s.deliveries { CreatedTells(s, step, id); }
      else if step.Answer? && step.id == id && id in s.open { AnswerTells(s, id, step.response, word); }
      else { OtherStepTells(s, step, id, word); }
    }
  }

  /** Delivered exactly if the last POST was answered with success, and then with that answer's code. */
  lemma DeliveredIff(s0: State, steps: seq<Step>, id: Id)
    requires Initial(s0) && id in Run(s0, steps).deliveries
    ensures var d, word := Run(s0, steps).deliveries[id], LastWord(s0, steps, id);
      d.status.Delivered? <==> word.Heard? && word.response.Ok? && d.responseCode == Some(word.response.code)
  {
    RowTellsItsHistory(s0, steps, id);
  }

  /** However a run goes on after a successful answer, the row stays delivered and no POST is made again. */
  lemma SuccessIsTheEnd(s0: State, steps: seq<Step>, id: Id, code: nat, more: seq<Step>)
    requires Initial(s0) && id in Run(s0, steps).open
    ensures var s, s' := Run(s0, steps), Run(s0, steps + [Answer(id, Ok(code))] + more);
      && id in s'.deliveries && s'.deliveries[id].status == Delivered && s'.deliveries[id].responseCode == Some(code)
      && id in s.posts && id in s'.posts && s'.posts[id] == s.posts[id]
  {
    var answered := steps + [Answer(id, Ok(code))];
    RunKeepsInv(s0, steps);
    RunOneMore(s0, steps, Answer(id, Ok(code)));
    assert RowOk(Run(s0, steps), id);
    FinalIsFinal(s0, answered, more, id);
  }

  predicate IsDue(s: State, id: Id) {
    id in s.deliveries && s.deliveries[id].status == Retrying && s.deliveries[id].nextRetryAt <= s.now
  }

  /** The fifty earliest of the rows that are due, in their order, or all of them if they are fewer. */
  predicate FiftyEarliest(s: State, batch: seq<Id>) {
    && (forall i :: 0 <= i < |batch| ==> IsDue(s, batch[i]))
    && (forall i, j :: 0 <= i < j < |batch| ==>
          batch[i] != batch[j] && s.deliveries[batch[i]].nextRetryAt <= s.deliveries[batch[j]].nextRetryAt)
    && (|batch| < 50 ==> forall id :: id in s.deliveries && IsDue(s, id) ==> id in batch)
    && (|batch| >= 50 ==>
          && |batch| == 50
          && forall id :: id in s.deliveries && IsDue(s, id) && id !in batch ==>
              forall i :: 0 <= i < 50 ==> s.deliveries[batch[i]].nextRetryAt <= s.deliveries[id].nextRetryAt)
  }

  /** That is what the worker may fetch. */
  lemma BatchIsFiftyEarliest(s: State, batch: seq<Id>)
    ensures IsBatch(s, batch) <==> FiftyEarliest(s, batch)
  {
    assert forall id :: IsDue(s, id) <==> Due(s, id);
  }

  /** The worker's turn: a POST exactly if the endpoint exists and is active, and otherwise the end of the row. */
  lemma VisitIff(s0: State, steps: seq<Step>, id: Id)
    requires Initial(s0) && TurnsTo(Run(s0, steps), Visit, id)
    ensures var s, s' := Run(s0, steps), Apply(Run(s0, steps), Visit);
      && id in s'.deliveries && id in s.posts && id in s'.posts
      && if IsGone(s, s.deliveries[id].endpoint)
         then s'.deliveries[id].status == Failed && s'.posts[id] == s.posts[id] && id !in s'.open
         else s'.deliveries == s.deliveries && s'.posts[id] == s.posts[id] + [s.now] && id in s'.open
  {
    RunKeepsInv(s0, steps);
    var s := Run(s0, steps);
    assert Due(s, s.queue[0].0) && RowOk(s, id);
  }

  lemma PostComesOf(s: State, step: Step, id: Id)
    requires Inv(s) && id in s.deliveries
    ensures var d, s' := s.deliveries[id], Apply(s, step);
      && id in s.posts && id in s'.posts
      && (s'.posts[id] == s.posts[id]
          || (s'.posts[id] == s.posts[id] + [s.now] && id !in s.open
              && (d.status.Pending? || (d.status.Retrying? && d.nextRetryAt <= s.now))))
  {
    assert RowOk(s, id);
    if s.queue != [] { assert Due(s, s.queue[0].0); }
  }

  /** What must have been heard when a POST is made at the given time, after so many others. */
  predicate MayPost(word: Word, posts: nat, now: nat) {
    match word
    case Unheard => posts == 0
    case Heard(response, at, n) => !response.Ok? && n < 5 && n == posts && now >= at + WaitAfter(n)
    case Gone => false
  }

  lemma DueMayPost(d: Delivery, word: Word, posts: seq<nat>, now: nat)
    requires RowFor(d, word) && LifeOk(d, posts, false, now)
    requires d.status.Pending? || (d.status.Retrying? && d.nextRetryAt <= now)
    ensures MayPost(word, |posts|, now)
  {}

  /** Every POST of a run is the first of a new row, or repeats the n-th once its wait is over. */
  lemma PostsAreDue(s0: State, steps: seq<Step>, step: Step, id: Id)
    requires Initial(s0) && id in Run(s0, steps).deliveries
    ensures var s, s' := Run(s0, steps), Apply(Run(s0, steps), step);
      && id in s.posts && id in s'.posts
      && (s'.posts[id] == s.posts[id]
          || (s'.posts[id] == s.posts[id] + [s.now] && MayPost(LastWord(s0, steps, id), |s.posts[id]|, s.now)))
  {
    var s := Run(s0, steps);
    RunKeepsInv(s0, steps);
    RowTellsItsHistory(s0, steps, id);
    PostComesOf(s, step, id);
    assert RowOk(s, id);
    if Apply(s, step).posts[id] != s.posts[id] {
      DueMayPost(s.deliveries[id], LastWord(s0, steps, id), s.posts[id], s.now);
    }
  }
}
