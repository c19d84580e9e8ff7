/**
 One request of the transfer protocol seen apart from all the others: what the rest of the system does, it
 does in the same way whether that request is there or not.
 */
module Interference {
  import opened Prelude
  import opened FraudEngine
  import opened TransferProtocol

  /** A step of the given request, as opposed to one of the rest of the system. */
  predicate Concerns(step: Step, p: Pid) {
    (step.Arrive? || step.Advance? || step.Fail? || step.Crash? || step.Reap?) && step.p == p
  }

  ghost predicate Absent(s: State, p: Pid) { p !in s.procs && p !in s.locks.clients && p !in s.locks.gone }

  /** The locks together with p's client, which may have left because a call threw. */
  function WithClient(locks: Locks.State, p: Pid, client: Option<Locks.Client>, left: bool): Locks.State {
    var all := if client.Some? then Locks.Become(locks, p, client.value) else locks;
    if left then Locks.Apply(all, Locks.Abandon(p)) else all
  }

  /** The rest of the system together with request p. */
  function With(s: State, p: Pid, me: Option<Proc>, client: Option<Locks.Client>, left: bool): State {
    var all := s.(locks := WithClient(s.locks, p, client, left));
    if me.Some? then Put(all, p, me.value) else all
  }

  lemma Swap<V>(m: map<Pid, V>, p: Pid, v: V, q: Pid, w: V)
    requires p != q
    ensures m[p := v][q := w] == m[q := w][p := v]
  {}

  lemma OthersBegin(locks: Locks.State, q: Pid, a: string, b: string, p: Pid, client: Option<Locks.Client>, left: bool)
    requires p != q
    ensures Locks.Apply(WithClient(locks, p, client, left), Locks.Begin(q, a, b))
         == WithClient(Locks.Apply(locks, Locks.Begin(q, a, b)), p, client, left)
  {
    var locks' := Locks.Apply(locks, Locks.Begin(q, a, b));
    if q !in locks.clients && q in locks'.clients && client.Some? {
      Swap(locks.clients, p, client.value, q, locks'.clients[q]);
    }
  }

  lemma OthersProceed(locks: Locks.State, q: Pid, p: Pid, client: Option<Locks.Client>, left: bool)
    requires p != q
    ensures Locks.Proceed(WithClient(locks, p, client, left), q) == WithClient(Locks.Proceed(locks, q), p, client, left)
  {
    var locks' := Locks.Proceed(locks, q);
    if q in locks.clients && client.Some? { Swap(locks.clients, p, client.value, q, locks'.clients[q]); }
  }

  lemma OthersAbandon(locks: Locks.State, q: Pid, p: Pid, client: Option<Locks.Client>, left: bool)
    ensures Locks.Apply(WithClient(locks, p, client, left), Locks.Abandon(q))
         == WithClient(Locks.Apply(locks, Locks.Abandon(q)), p, client, left)
  {
    assert locks.gone + {p} + {q} == locks.gone + {q} + {p};
  }

  lemma OthersLockCall(locks: Locks.State, q: Pid, pr: Proc, p: Pid, client: Option<Locks.Client>, left: bool)
    requires p != q && p !in locks.clients && AtLocks(pr.pc)
    ensures var (locks', pr') := LockStep(locks, q, pr, true);
      && p !in locks'.clients && locks'.gone == locks.gone
      && LockStep(WithClient(locks, p, client, left), q, pr, true) == (WithClient(locks', p, client, left), pr')
  {
    OthersBegin(locks, q, pr.req.from, pr.req.to, p, client, left);
    OthersProceed(locks, q, p, client, left);
  }

  lemma OthersLockStep(locks: Locks.State, q: Pid, pr: Proc, ok: bool, p: Pid, client: Option<Locks.Client>, left: bool)
    requires p != q && p !in locks.clients && p !in locks.gone && AtLocks(pr.pc)
    ensures var (locks', pr') := LockStep(locks, q, pr, ok);
      && p !in locks'.clients && p !in locks'.gone
      && LockStep(WithClient(locks, p, client, left), q, pr, ok) == (WithClient(locks', p, client, left), pr')
  {
    OthersLockCall(locks, q, pr, p, client, left);
    if !ok { OthersAbandon(LockStep(locks, q, pr, true).0, q, p, client, left); }
  }

  lemma PutBesides(s: State, locks': Locks.State, q: Pid, pr': Proc,
                   p: Pid, me: Option<Proc>, client: Option<Locks.Client>, left: bool)
    requires p != q
    ensures With(Put(s.(locks := locks'), q, pr'), p, me, client, left)
         == Put(With(s, p, me, client, left).(locks := WithClient(locks', p, client, left)), q, pr')
  {
    if me.Some? { Swap(s.procs, p, me.value, q, pr'); }
  }

  lemma OthersAdvanceOnLocks(s: State, q: Pid, reply: Reply, ok: bool,
                             p: Pid, me: Option<Proc>, client: Option<Locks.Client>, left: bool)
    requires Absent(s, p) && q != p && Running(s, q) && AtLocks(s.procs[q].pc)
    ensures Absent(Apply(s, Advance(q, reply, ok)), p)
    ensures With(Apply(s, Advance(q, reply, ok)), p, me, client, left)
         == Apply(With(s, p, me, client, left), Advance(q, reply, ok))
  {
    OthersLockStep(s.locks, q, s.procs[q], ok, p, client, left);
    var (locks', pr') := LockStep(s.locks, q, s.procs[q], ok);
    PutBesides(s, locks', q, pr', p, me, client, left);
  }

  lemma OthersAdvance(s: State, q: Pid, reply: Reply, ok: bool,
                      p: Pid, me: Option<Proc>, client: Option<Locks.Client>, left: bool)
    requires Absent(s, p) && q != p && Running(s, q)
    ensures Absent(Apply(s, Advance(q, reply, ok)), p)
    ensures With(Apply(s, Advance(q, reply, ok)), p, me, client, left)
         == Apply(With(s, p, me, client, left), Advance(q, reply, ok))
  {
    if AtLocks(s.procs[q].pc) {
      OthersAdvanceOnLocks(s, q, reply, ok, p, me, client, left);
    } else if me.Some? {
      Swap(s.procs, p, me.value, q, Apply(s, Advance(q, reply, ok)).procs[q]);
    }
  }

  lemma OthersFailedCall(s: State, q: Pid, p: Pid, me: Option<Proc>, client: Option<Locks.Client>, left: bool)
    requires Absent(s, p) && q != p && Running(s, q) && MayFail(s.procs[q].pc)
    ensures Absent(Apply(s, Fail(q)), p)
    ensures With(Apply(s, Fail(q)), p, me, client, left) == Apply(With(s, p, me, client, left), Fail(q))
  {
    if AtLocks(s.procs[q].pc) { OthersAbandon(s.locks, q, p, client, left); }
    if me.Some? { Swap(s.procs, p, me.value, q, Throw(s.procs[q], StoreError(s.procs[q].pc))); }
  }

  lemma OthersFail(s: State, q: Pid, p: Pid, me: Option<Proc>, client: Option<Locks.Client>, left: bool)
    requires Absent(s, p) && q != p
    ensures Absent(Apply(s, Fail(q)), p)
    ensures With(Apply(s, Fail(q)), p, me, client, left) == Apply(With(s, p, me, client, left), Fail(q))
  {
    if Running(s, q) && MayFail(s.procs[q].pc) { OthersFailedCall(s, q, p, me, client, left); }
  }

  lemma OthersReap(s: State, q: Pid, p: Pid, me: Option<Proc>, client: Option<Locks.Client>, left: bool)
    requires Absent(s, p) && q != p
    ensures Absent(Apply(s, Reap(q)), p)
    ensures With(Apply(s, Reap(q)), p, me, client, left) == Apply(With(s, p, me, client, left), Reap(q))
  {
    if me.Some? && q in s.procs { Swap(s.procs, p, me.value, q, Apply(s, Reap(q)).procs[q]); }
  }

  /** What the rest of the system does, it does in the presence of p just as well. */
  lemma OthersStep(s: State, step: Step, p: Pid, me: Option<Proc>, client: Option<Locks.Client>, left: bool)
    requires Absent(s, p) && !Concerns(step, p)
    ensures Absent(Apply(s, step), p)
    ensures With(Apply(s, step), p, me, client, left) == Apply(With(s, p, me, client, left), step)
  {
    match step
    case Advance(q, reply, ok) =>
      if Running(s, q) { OthersAdvance(s, q, reply, ok, p, me, client, left); }
    case Arrive(q, req) =>
      if me.Some? { Swap(s.procs, p, me.value, q, Newcomer(req)); }
    case Fail(q) => OthersFail(s, q, p, me, client, left);
    case Reap(q) => OthersReap(s, q, p, me, client, left);
    case Crash(q) => OthersAbandon(s.locks, q, p, client, left);
    case _ =>
  }

  /** The same, for what a run has come to. */
  lemma OthersGoOn(start: State, trace: seq<Step>, s: State, step: Step,
                   p: Pid, me: Option<Proc>, client: Option<Locks.Client>, left: bool)
    requires Absent(s, p) && !Concerns(step, p) && With(s, p, me, client, left) == Run(start, trace)
    ensures Absent(Apply(s, step), p) && With(Apply(s, step), p, me, client, left) == Run(start, trace + [step])
  {
    OthersStep(s, step, p, me, client, left);
    RunOneMore(start, trace, step);
  }

  // ---------------------------------------------------------------- the request's own steps

  lemma OwnDbStep(s: State, p: Pid, me: Proc, client: Option<Locks.Client>, reply: Reply, ok: bool)
    requires Absent(s, p) && InTrx(me.pc)
    ensures var (db, me') := DbStep(s.db, p, me, ok);
      With(s.(db := db), p, Some(me'), client, false) ==
          Apply(With(s, p, Some(me), client, false), Advance(p, reply, ok))
  {}

  lemma OwnPlainStep(s: State, p: Pid, me: Proc, client: Option<Locks.Client>, reply: Reply, ok: bool)
    requires Absent(s, p) && !InTrx(me.pc) && !AtLocks(me.pc)
    ensures var (cache, me') := PlainStep(s.db, s.cache, me, reply, ok);
      With(s.(cache := cache), p, Some(me'), client, false) ==
          Apply(With(s, p, Some(me), client, false), Advance(p, reply, ok))
  {}

  /** A call on the locks changes the keys and its own client's place, and ends the client if it throws. */
  lemma LockStepIsLocal(locks: Locks.State, p: Pid, pr: Proc, ok: bool)
    requires AtLocks(pr.pc) && p !in locks.gone && (pr.pc.LockFirst? || p in locks.clients)
    ensures var locks' := LockStep(locks, p, pr, ok).0;
      && p in locks'.clients && locks'.now == locks.now && locks'.gone == (if ok then locks.gone else locks.gone + {p})
      && locks'.clients == locks.clients[p := locks'.clients[p]]
  {}

  function LockStepWith(locks: Locks.State, p: Pid, me: Proc, client: Option<Locks.Client>, ok: bool)
    : (Locks.State, Proc)
    requires AtLocks(me.pc)
  {
    LockStep(WithClient(locks, p, client, false), p, me, ok)
  }

  lemma LockStepBesides(locks: Locks.State, p: Pid, me: Proc, client: Option<Locks.Client>, ok: bool)
    requires p !in locks.clients && p !in locks.gone && AtLocks(me.pc) && (me.pc.LockFirst? || client.Some?)
    ensures var locks' := LockStepWith(locks, p, me, client, ok).0;
      locks' == WithClient(locks.(keys := locks'.keys), p, ClientOf(locks', p), !ok)
  {
    LockStepIsLocal(WithClient(locks, p, client, false), p, me, ok);
  }

  lemma OwnLockStep(s: State, p: Pid, me: Proc, client: Option<Locks.Client>, reply: Reply, ok: bool)
    requires Absent(s, p) && AtLocks(me.pc) && (me.pc.LockFirst? || client.Some?)
    ensures var (locks', me') := LockStepWith(s.locks, p, me, client, ok);
      With(s.(locks := s.locks.(keys := locks'.keys)), p, Some(me'), ClientOf(locks', p), !ok)
      == Apply(With(s, p, Some(me), client, false), Advance(p, reply, ok))
  {
    LockStepBesides(s.locks, p, me, client, ok);
  }

  lemma OwnFail(s: State, p: Pid, me: Proc, client: Option<Locks.Client>)
    requires Absent(s, p) && MayFail(me.pc)
    ensures With(s, p, Some(Throw(me, StoreError(me.pc))), client, AtLocks(me.pc))
      == Apply(With(s, p, Some(me), client, false), Fail(p))
  {}

  /** Where a SET leads the client: it gets on exactly when the key is free. */
  function AfterSet(me: Proc, client: Option<Locks.Client>, key: string, free: bool, now: nat): Locks.Client
    requires me.pc.LockSecond? ==> client.Some? && client.value.First?
  {
    if me.pc.LockSecond? then
      if free then Locks.Held(client.value.k1, key, client.value.t1, now)
      else Locks.Undo(client.value.k1, key, client.value.t1)
    else
      var second := Locks.LockKey(Locks.SortPair(me.req.from, me.req.to).1);
      if free then Locks.First(key, second, now) else Locks.Refused(key, second, false)
  }

  /** Where a DEL leads it. */
  function AfterDel(c: Locks.Client): Locks.Client
    requires c.Undo? || c.Held? || c.Half?
  {
    match c
    case Undo(k1, k2, _) => Locks.Refused(k1, k2, true)
    case Held(k1, k2, _, t2) => Locks.Half(k1, k2, t2)
    case Half(k1, k2, _) => Locks.Done(k1, k2)
  }

  predicate SetsNext(me: Proc, client: Option<Locks.Client>, key: string) {
    if me.pc.LockFirst? then client.None? && key == Locks.LockKey(Locks.SortPair(me.req.from, me.req.to).0)
    else me.pc.LockSecond? && client.Some? && client.value.First? && client.value.k2 == key
  }

  predicate DeletesNext(me: Proc, c: Locks.Client, key: string) {
    if me.pc.UndoFirst? then c.Undo? && c.k1 == key
    else if me.pc.UnlockFirst? then c.Held? && c.k1 == key
    else me.pc.UnlockSecond? && c.Half? && c.k2 == key
  }

  lemma SetCall(locks: Locks.State, p: Pid, me: Proc, client: Option<Locks.Client>, key: string, ok: bool)
    requires p !in locks.clients && p !in locks.gone && SetsNext(me, client, key)
    ensures var (locks', me'), free := LockStepWith(locks, p, me, client, ok), !Locks.Live(locks, key);
      && locks'.keys == (if free then locks.keys[key := locks.now + Locks.LOCK_TTL_MS] else locks.keys)
      && ClientOf(locks', p) == Some(AfterSet(me, client, key, free, locks.now))
      && me' == if ok then AfterLockCall(me, ClientOf(locks', p)) else Throw(me, RedisError)
  {}

  lemma DelCall(locks: Locks.State, p: Pid, me: Proc, c: Locks.Client, key: string, ok: bool)
    requires p !in locks.clients && p !in locks.gone && DeletesNext(me, c, key)
    ensures var (locks', me') := LockStepWith(locks, p, me, Some(c), ok);
      && locks'.keys == locks.keys - {key} && ClientOf(locks', p) == Some(AfterDel(c))
      && me' == if ok then AfterLockCall(me, ClientOf(locks', p)) else Throw(me, RedisError)
  {}
}
