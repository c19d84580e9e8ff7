/**
 The duplicate filter of packages/kafka/consumer.ts: a set of event ids that grows with every event handled
 successfully and is cleared whole as soon as it exceeds its maximum size. One message at a time.
 */
module EventConsumer {

  const MAX_DEDUP_SET_SIZE: nat := 10_000

  /** What a Kafka message turns out to hold. */
  datatype Body = Empty | Malformed | Event(eventId: string)

  /** A message, whether its topic has a handler, and whether that handler would succeed on it. */
  datatype Message = Message(hasHandler: bool, body: Body, succeeds: bool)

  datatype Result = NoHandler | Ignored | Duplicate | Handled | HandlerFailed

  class Consumer {
    var processedEventIds: set<string>

    constructor ()
      ensures processedEventIds == {}
    { processedEventIds := {}; }

    method PruneDeduplicationSet()
      modifies this
      ensures processedEventIds == Pruned(old(processedEventIds))
    {
      if |processedEventIds| > MAX_DEDUP_SET_SIZE {
        processedEventIds := {};
      }
    }

    method EachMessage(message: Message) returns (result: Result)
      modifies this
      ensures processedEventIds == Next(old(processedEventIds), message)
      ensures result ==
        if !message.hasHandler then NoHandler
        else if !message.body.Event? then Ignored
        else if message.body.eventId in old(processedEventIds) then Duplicate
        else if message.succeeds then Handled
        else HandlerFailed
      ensures processedEventIds ==
        if !result.Handled? then old(processedEventIds)
        else if |old(processedEventIds)| >= 10_000 then {}
        else old(processedEventIds) + {message.body.eventId}
    {
      if !message.hasHandler { return NoHandler; }
      if !message.body.Event? { return Ignored; }
      if message.body.eventId in processedEventIds { return Duplicate; }
      if !message.succeeds { return HandlerFailed; }
      processedEventIds := processedEventIds + {message.body.eventId};
      PruneDeduplicationSet();
      return Handled;
    }
  }

  function Pruned(ids: set<string>): set<string> { if |ids| > MAX_DEDUP_SET_SIZE then {} else ids }

  /** The handler is called. */
  predicate Invokes(ids: set<string>, m: Message) { m.hasHandler && m.body.Event? && m.body.eventId !in ids }

  predicate Succeeds(ids: set<string>, m: Message) { Invokes(ids, m) && m.succeeds }

  function Next(ids: set<string>, m: Message): set<string> {
    if Succeeds(ids, m) then Pruned(ids + {m.body.eventId}) else ids
  }

  function After(messages: seq<Message>): set<string> {
    if messages == [] then {} else Next(After(messages[..|messages| - 1]), messages[|messages| - 1])
  }

  /** The id was handled successfully in the current period: one ends with every 10,001st success. */
  predicate Repeats(log: seq<string>, id: string) {
    exists i :: 0 <= i < |log| && log[i] == id && i / 10_001 == |log| / 10_001
  }

  /** The ids handled successfully, in order; a failed handler leaves no trace. */
  function Log(messages: seq<Message>): seq<string> {
    if messages == [] then []
    else
      var log, m := Log(messages[..|messages| - 1]), messages[|messages| - 1];
      if m.hasHandler && m.body.Event? && m.succeeds && !Repeats(log, m.body.eventId) then log + [m.body.eventId]
      else log
  }

  const PERIOD: nat := MAX_DEDUP_SET_SIZE + 1

  /** The part of the log since the last time the set was cleared: that happens every PERIOD successes. */
  function SinceClear(log: seq<string>): seq<string> { log[|log| - |log| % PERIOD..] }

  predicate NoRepeats(ids: seq<string>) { forall i, j :: 0 <= i < j < |ids| ==> ids[i] != ids[j] }

  function Elements(ids: seq<string>): set<string> { set id | id in ids }

  lemma {:induction false} SizeOfElements(ids: seq<string>)
    requires NoRepeats(ids)
    ensures |Elements(ids)| == |ids|
  {
    if ids != [] {
      var n := |ids| - 1;
      SizeOfElements(ids[..n]);
      assert Elements(ids) == Elements(ids[..n]) + {ids[n]};
    }
  }

  lemma OneMoreElement(recent: seq<string>, id: string)
    requires NoRepeats(recent) && id !in recent
    ensures NoRepeats(recent + [id]) && Elements(recent + [id]) == Elements(recent) + {id}
    ensures |Elements(recent) + {id}| == |recent| + 1
  {
    SizeOfElements(recent + [id]);
  }

  lemma SinceClearGrows(log: seq<string>, id: string)
    ensures SinceClear(log + [id]) == if |log| % PERIOD == MAX_DEDUP_SET_SIZE then [] else SinceClear(log) + [id]
  {
    var n, k := |log|, |log| % PERIOD;
    if k == MAX_DEDUP_SET_SIZE {
      assert n + 1 == PERIOD * (n / PERIOD + 1);
    } else {
      assert (n + 1) % PERIOD == k + 1;
    }
  }

  lemma SamePeriod(i: nat, n: nat)
    requires i < n
    ensures i / PERIOD == n / PERIOD <==> n - n % PERIOD <= i
  {}

  lemma RepeatsIff(log: seq<string>, id: string)
    ensures Repeats(log, id) <==> id in SinceClear(log)
  {
    var start := |log| - |log| % PERIOD;
    forall i | 0 <= i < |log| ensures i / PERIOD == |log| / PERIOD <==> start <= i { SamePeriod(i, |log|); }
    if id in SinceClear(log) {
      var j :| 0 <= j < |SinceClear(log)| && SinceClear(log)[j] == id;
      assert log[start + j] == id;
    }
  }

  /**
   At any time the set holds exactly the ids handled successfully since it was last cleared, none of them
   twice, and at most 10,000 of them.
   */
  lemma {:induction false} SetIsRecentLog(messages: seq<Message>)
    ensures var recent := SinceClear(Log(messages));
      && After(messages) == Elements(recent) && NoRepeats(recent)
      && |After(messages)| == |Log(messages)| % 10_001 <= 10_000
  {
    if messages != [] {
      var n := |messages| - 1;
      SetIsRecentLog(messages[..n]);
      if messages[n].body.Event? {
        var log, id := Log(messages[..n]), messages[n].body.eventId;
        RepeatsIff(log, id);
        if Succeeds(After(messages[..n]), messages[n]) {
          SinceClearGrows(log, id);
          OneMoreElement(SinceClear(log), id);
        }
      }
    }
  }

  /** A redelivered event is skipped exactly when one of its successes falls into the current period. */
  lemma SkippedIffHandledThisPeriod(messages: seq<Message>, m: Message)
    requires m.hasHandler && m.body.Event?
    ensures !Invokes(After(messages), m) <==> Repeats(Log(messages), m.body.eventId)
  {
    SetIsRecentLog(messages);
    RepeatsIff(Log(messages), m.body.eventId);
  }

  /** An event whose handler has failed is handled again whenever it comes again before another success. */
  lemma FailureIsRetried(messages: seq<Message>, m: Message, again: Message)
    requires Invokes(After(messages), m) && !m.succeeds && again.hasHandler && again.body == m.body
    ensures Log(messages + [m]) == Log(messages) && Invokes(After(messages + [m]), again)
  {
    assert (messages + [m])[..|messages|] == messages;
    SkippedIffHandledThisPeriod(messages, m);
    SkippedIffHandledThisPeriod(messages + [m], again);
  }

  function Count(log: seq<string>, id: string): nat {
    if log == [] then 0 else Count(log[..|log| - 1], id) + if log[|log| - 1] == id then 1 else 0
  }

  /** One more success: the period advances exactly when the set is cleared. */
  lemma PruningStartsAPeriod(ids: set<string>, id: string, n: nat)
    requires id !in ids && |ids| == n % PERIOD
    ensures Pruned(ids + {id}) == if n % PERIOD == MAX_DEDUP_SET_SIZE then {} else ids + {id}
    ensures (n + 1) / PERIOD == n / PERIOD + if n % PERIOD == MAX_DEDUP_SET_SIZE then 1 else 0
  {
    assert |ids + {id}| == |ids| + 1;
    NextPeriod(n);
  }

  lemma NextPeriod(n: nat)
    ensures (n + 1) / PERIOD == n / PERIOD + if n % PERIOD == MAX_DEDUP_SET_SIZE then 1 else 0
  {}

  lemma LogGrows(messages: seq<Message>, m: Message, id: string)
    ensures var before, after := Log(messages), Log(messages + [m]);
      && After(messages + [m]) == Next(After(messages), m)
      && |after| == |before| + (if Succeeds(After(messages), m) then 1 else 0)
      && Count(after, id) == Count(before, id) + if Succeeds(After(messages), m) && m.body.eventId == id then 1 else 0
  {
    assert (messages + [m])[..|messages|] == messages;
    if m.hasHandler && m.body.Event? { SkippedIffHandledThisPeriod(messages, m); }
    if Succeeds(After(messages), m) {
      assert (Log(messages) + [m.body.eventId])[..|Log(messages)|] == Log(messages);
    }
  }

  /** What can be said of one id: how often it was handled, against the number of finished periods. */
  predicate Rationed(ids: set<string>, count: nat, n: nat, id: string) {
    count <= n / PERIOD + if id in ids then 1 else 0
  }

  /** An id is handled successfully at most once per period, so at most 1 + N / 10,001 times in N successes. */
  lemma {:induction false} HandledAtMostOncePerPeriod(messages: seq<Message>, id: string)
    ensures Rationed(After(messages), Count(Log(messages), id), |Log(messages)|, id)
    ensures Count(Log(messages), id) <= 1 + |Log(messages)| / 10_001
  {
    if messages != [] {
      var before, m := messages[..|messages| - 1], messages[|messages| - 1];
      assert messages == before + [m];
      HandledAtMostOncePerPeriod(before, id);
      LogGrows(before, m, id);
      SetIsRecentLog(before);
      StillRationed(After(before), m, Count(Log(before), id), |Log(before)|, id);
    }
  }

  lemma StillRationed(ids: set<string>, m: Message, count: nat, n: nat, id: string)
    requires Rationed(ids, count, n, id) && |ids| == n % PERIOD
    ensures !Succeeds(ids, m) ==> Rationed(Next(ids, m), count, n, id)
    ensures Succeeds(ids, m) ==> Rationed(Next(ids, m), count + (if m.body.eventId == id then 1 else 0), n + 1, id)
  {
    if Succeeds(ids, m) {
      PruningStartsAPeriod(ids, m.body.eventId, n);
    }
  }
}
