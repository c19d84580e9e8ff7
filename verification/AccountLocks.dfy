/**
 The distributed account locks of packages/redis/client.ts as a step machine: any number of clients
 run acquireAccountLocks and later releaseAllLocks, one Redis command per step, while time passes.
 A lock is a key that is visible until its expiry; a DEL does not ask who set the key.
 */
module AccountLocks {
  import opened Prelude

  type Pid = nat

  const LOCK_TTL_MS: nat := 10_000

  /** How far a client has come with its two keys; t1 and t2 are the times at which it set them. */
  datatype Client =
    | First(k1: string, k2: string, t1: nat)            // first key set, second still to try
    | Undo(k1: string, k2: string, t1: nat)             // second key was taken, first to be deleted
    | Held(k1: string, k2: string, t1: nat, t2: nat)    // both keys set: between acquire and release
    | Half(k1: string, k2: string, t2: nat)             // first key deleted, second to be deleted
    | Done(k1: string, k2: string)                      // both deleted
    | Refused(k1: string, k2: string, second: bool)     // gave up on the first or on the second key

  /**
   A client that is gone takes no further step and leaves its keys behind: its process has died, or one of
   its commands has thrown.
   */
  datatype State = State(now: nat, keys: map<string, nat>, clients: map<Pid, Client>, gone: set<Pid>)

  datatype Step =
    | Begin(p: Pid, a: string, b: string)
    | Continue(p: Pid)
    | Abandon(p: Pid)
    | Tick(dt: nat)

  function LockKey(accountId: string): string { "lock:account:" + accountId }

  function SortPair(a: string, b: string): (string, string) {
    if Less(b, a) then (b, a) else (a, b)
  }

  predicate Live(s: State, k: string) { k in s.keys && s.now < s.keys[k] }

  function Set(s: State, k: string): State { s.(keys := s.keys[k := s.now + LOCK_TTL_MS]) }

  function Del(s: State, k: string): State { s.(keys := s.keys - {k}) }

  function Become(s: State, p: Pid, c: Client): State { s.(clients := s.clients[p := c]) }

  /** The first command of acquireAccountLocks: SET k1 NX. */
  function Start(s: State, p: Pid, k1: string, k2: string): State {
    if p in s.clients || p in s.gone then s
    else if Live(s, k1) then Become(s, p, Refused(k1, k2, false))
    else Become(Set(s, k1), p, First(k1, k2, s.now))
  }

  /** The client's next command: SET k2 NX, or the DEL of a failed attempt, or the two DELs of releaseAllLocks. */
  function Proceed(s: State, p: Pid): State {
    if p !in s.clients || p in s.gone then s else
      match s.clients[p]
      case First(k1, k2, t1) =>
        if Live(s, k2) then Become(s, p, Undo(k1, k2, t1)) else Become(Set(s, k2), p, Held(k1, k2, t1, s.now))
      case Undo(k1, k2, _) => Become(Del(s, k1), p, Refused(k1, k2, true))
      case Held(k1, k2, _, t2) => Become(Del(s, k1), p, Half(k1, k2, t2))
      case Half(k1, k2, _) => Become(Del(s, k2), p, Done(k1, k2))
      case _ => s
  }

  /** One step; a step that its client is not ready for changes nothing. */
  function Apply(s: State, step: Step): State {
    match step
    case Begin(p, a, b) => Start(s, p, LockKey(SortPair(a, b).0), LockKey(SortPair(a, b).1))
    case Continue(p) => Proceed(s, p)
    case Abandon(p) => s.(gone := s.gone + {p})
    case Tick(dt) => s.(now := s.now + dt)
  }

  function Run(s: State, steps: seq<Step>): State {
    if steps == [] then s else Apply(Run(s, steps[..|steps| - 1]), steps[|steps| - 1])
  }

  ghost predicate Initial(s: State) { s.keys == map[] && s.clients == map[] }

  /** The keys a client has set and not deleted since, each with the expiry it gave it. */
  function Owned(c: Client): map<string, nat> {
    match c
    case First(k1, _, t1) => map[k1 := t1 + LOCK_TTL_MS]
    case Undo(k1, _, t1) => map[k1 := t1 + LOCK_TTL_MS]
    case Held(k1, k2, t1, t2) => map[k1 := t1 + LOCK_TTL_MS, k2 := t2 + LOCK_TTL_MS]
    case Half(_, k2, t2) => map[k2 := t2 + LOCK_TTL_MS]
    case _ => map[]
  }

  predicate Finished(c: Client) { c.Done? || c.Refused? }

  /** The caller never asks for one account twice (payment.service.ts rejects such a request first). */
  ghost predicate Distinct(steps: seq<Step>) {
    forall i :: 0 <= i < |steps| && steps[i].Begin? ==> steps[i].a != steps[i].b
  }

  ghost predicate Sorted(s: State) {
    forall p :: p in s.clients ==> Less(s.clients[p].k1, s.clients[p].k2)
  }

  /** All that exclusion and the absence of leaks need of the sorted order. */
  ghost predicate Apart(s: State) {
    forall p :: p in s.clients ==> s.clients[p].k1 != s.clients[p].k2
  }

  lemma SortedIsApart(s: State)
    requires Sorted(s)
    ensures Apart(s)
  {
    forall p | p in s.clients ensures s.clients[p].k1 != s.clients[p].k2 {
      LessIsTotal(s.clients[p].k1, s.clients[p].k2);
    }
  }

  lemma StepKeepsSorted(s: State, step: Step)
    requires Sorted(s) && (step.Begin? ==> step.a != step.b)
    ensures Sorted(Apply(s, step))
  {
    if step.Begin? { SortPairSorts(step.a, step.b); }
  }

  lemma SortPairSorts(a: string, b: string)
    requires a != b
    ensures var (x, y) := SortPair(a, b); Less(LockKey(x), LockKey(y)) && {x, y} == {a, b}
  {
    LessIsTotal(a, b);
    var (x, y) := SortPair(a, b);
    LessUnderPrefix("lock:account:", x, y);
  }

  lemma ProceedMovesOneClient(s: State, p: Pid)
    requires p in s.clients
    ensures var s', c := Proceed(s, p), s.clients[p];
      && s'.now == s.now && s'.gone == s.gone && s'.clients == s.clients[p := s'.clients[p]]
      && (s'.clients[p].k1, s'.clients[p].k2) == (c.k1, c.k2)
      && forall k :: k in Owned(s'.clients[p]) ==>
           Owned(s'.clients[p])[k] == s.now + LOCK_TTL_MS || (k in Owned(c) && Owned(s'.clients[p])[k] == Owned(c)[k])
  {}

  /** A client works on the keys with which it began. */
  lemma ClientsKeepTheirKeys(s: State, step: Step)
    ensures forall p :: p in s.clients ==> p in Apply(s, step).clients
    ensures forall p :: p in s.clients ==>
      Apply(s, step).clients[p].k1 == s.clients[p].k1 && Apply(s, step).clients[p].k2 == s.clients[p].k2
    ensures forall p :: p in Apply(s, step).clients && p !in s.clients ==> step.Begin? && step.p == p
    ensures step.Begin? && step.p !in s.clients && step.p !in s.gone ==> var c := Apply(s, step).clients[step.p];
      c.k1 == LockKey(SortPair(step.a, step.b).0) && c.k2 == LockKey(SortPair(step.a, step.b).1)
  {
    if step.Continue? && step.p in s.clients { ProceedMovesOneClient(s, step.p); }
  }

  // ---------------------------------------------------------------- no leak

  ghost predicate SetBy(s: State, p: Pid, k: string) {
    p in s.clients && k in s.keys && k in Owned(s.clients[p]) && s.keys[k] == Owned(s.clients[p])[k]
  }

  /** Every key in Redis was last set by a client that has not deleted it yet. */
  ghost predicate Accounted(s: State) {
    forall k :: k in s.keys ==> exists p :: SetBy(s, p, k)
  }

  /** A key that p's step leaves as it was keeps its setter; any other key was set by p. */
  lemma KeptByOthers(s: State, s': State, p: Pid)
    requires Accounted(s)
    requires forall q :: q in s.clients && q != p ==> q in s'.clients && s'.clients[q] == s.clients[q]
    requires forall k :: k in s'.keys ==> SetBy(s', p, k) || (k in s.keys && s'.keys[k] == s.keys[k] && !SetBy(s, p, k))
    ensures Accounted(s')
  {
    forall k | k in s'.keys && !SetBy(s', p, k) ensures exists q :: SetBy(s', q, k) {
      var q :| SetBy(s, q, k);
      assert SetBy(s', q, k);
    }
  }

  lemma StartKeepsAccounted(s: State, p: Pid, k1: string, k2: string)
    requires Accounted(s)
    ensures Accounted(Start(s, p, k1, k2))
  {
    var s' := Start(s, p, k1, k2);
    if p !in s.clients && p !in s.gone {
      if !Live(s, k1) { assert SetBy(s', p, k1); }
      KeptByOthers(s, s', p);
    }
  }

  /** What a client keeps of its keys it keeps with their expiry, and what it gives up it has deleted. */
  lemma ProceedAccountsForItself(s: State, p: Pid)
    requires p in s.clients && s.clients[p].k1 != s.clients[p].k2
    ensures var s', c := Proceed(s, p), s.clients[p];
      && p in s'.clients
      && (forall k :: k in s'.keys && k in Owned(c) ==>
            k in Owned(s'.clients[p]) && Owned(s'.clients[p])[k] == Owned(c)[k])
      && (forall k :: k in s'.keys ==> SetBy(s', p, k) || (k in s.keys && s'.keys[k] == s.keys[k]))
  {}

  lemma ProceedKeepsAccounted(s: State, p: Pid)
    requires Apart(s) && Accounted(s)
    ensures Accounted(Proceed(s, p))
  {
    if p in s.clients && p !in s.gone {
      ProceedAccountsForItself(s, p);
      KeptByOthers(s, Proceed(s, p), p);
    }
  }

  lemma StepKeepsAccounted(s: State, step: Step)
    requires Apart(s) && Accounted(s)
    ensures Accounted(Apply(s, step))
  {
    match step
    case Begin(p, a, b) => StartKeepsAccounted(s, p, LockKey(SortPair(a, b).0), LockKey(SortPair(a, b).1));
    case Continue(p) => ProceedKeepsAccounted(s, p);
    case _ =>
      var s' := Apply(s, step);
      forall k | k in s'.keys ensures exists p :: SetBy(s', p, k) {
        var p :| SetBy(s, p, k);
        assert SetBy(s', p, k);
      }
  }

  lemma {:induction false} RunKeepsAccounted(s0: State, steps: seq<Step>)
    requires Initial(s0) && Distinct(steps)
    ensures Sorted(Run(s0, steps)) && Accounted(Run(s0, steps))
  {
    if steps != [] {
      var n := |steps| - 1;
      RunKeepsAccounted(s0, steps[..n]);
      SortedIsApart(Run(s0, steps[..n]));
      StepKeepsSorted(Run(s0, steps[..n]), steps[n]);
      StepKeepsAccounted(Run(s0, steps[..n]), steps[n]);
    }
  }

  /**
   No leak, on every run, whatever expires: a key in Redis was set by a client that has not finished, and a
   visible one by a client still at work or by one gone, less than LOCK_TTL_MS after it set the key. So
   once every request has returned or thrown no key is left.
   */
  lemma NoLeak(s0: State, steps: seq<Step>)
    requires Initial(s0) && Distinct(steps)
    ensures var s := Run(s0, steps);
      && (forall k :: k in s.keys ==> exists p :: SetBy(s, p, k) && !Finished(s.clients[p]))
      && (forall k :: Live(s, k) ==>
            exists p :: SetBy(s, p, k) && !Finished(s.clients[p]) && (p in s.gone ==> s.now < Owned(s.clients[p])[k]))
      && ((forall p :: p in s.clients ==> Finished(s.clients[p])) ==> s.keys == map[])
  {
    RunKeepsAccounted(s0, steps);
    var s := Run(s0, steps);
    forall k | k in s.keys
      ensures exists p :: SetBy(s, p, k) && !Finished(s.clients[p]) && s.keys[k] == Owned(s.clients[p])[k]
    {
      var p :| SetBy(s, p, k);
      assert !Finished(s.clients[p]);
    }
  }

  // ---------------------------------------------------------------- exclusion

  ghost predicate Owns(s: State, p: Pid, k: string) {
    p in s.clients && p !in s.gone && k in Owned(s.clients[p])
  }

  /** No running client still owns a key whose TTL has passed. */
  ghost predicate InTime(s: State) {
    forall p, k :: Owns(s, p, k) ==> s.now < Owned(s.clients[p])[k]
  }

  ghost predicate AlwaysInTime(s: State, steps: seq<Step>) {
    InTime(Run(s, steps)) && (steps != [] ==> AlwaysInTime(s, steps[..|steps| - 1]))
  }

  lemma ProceedIsInTime(s: State, p: Pid)
    requires InTime(s)
    ensures InTime(Proceed(s, p))
  {
    if p in s.clients {
      ProceedMovesOneClient(s, p);
      assert forall k :: Owns(Proceed(s, p), p, k) && k in Owned(s.clients[p]) ==> Owns(s, p, k);
      assert forall q, k :: Owns(Proceed(s, p), q, k) && q != p ==> Owns(s, q, k);
    }
  }

  lemma OnlyTimeMakesLate(s: State, step: Step)
    requires InTime(s) && !step.Tick?
    ensures InTime(Apply(s, step))
  {
    match step
    case Continue(p) => ProceedIsInTime(s, p);
    case Begin(p, _, _) => assert forall q, k :: Owns(Apply(s, step), q, k) ==> Owns(s, q, k) || q == p;
    case Abandon(_) => assert forall q, k :: Owns(Apply(s, step), q, k) ==> Owns(s, q, k);
    case Tick(_) =>
  }

  /** A running owner finds its own value in Redis, and no key has two running owners. */
  ghost predicate Exclusive(s: State) {
    && (forall p, k :: Owns(s, p, k) ==> k in s.keys && s.keys[k] == Owned(s.clients[p])[k])
    && (forall p, q, k :: Owns(s, p, k) && Owns(s, q, k) ==> p == q)
  }

  /** What p's step must respect: it frees its own keys or sets keys that are not visible, and no others. */
  lemma ExclusiveForOthers(s: State, s': State, p: Pid)
    requires Exclusive(s) && InTime(s) && s'.gone == s.gone
    requires forall q :: q in s'.clients && q != p ==> q in s.clients && s'.clients[q] == s.clients[q]
    requires forall k :: Owns(s', p, k) ==>
      k in s'.keys && s'.keys[k] == Owned(s'.clients[p])[k] && (Owns(s, p, k) || !Live(s, k))
    requires forall k :: Live(s, k) && !Owns(s, p, k) ==> k in s'.keys && s'.keys[k] == s.keys[k]
    ensures Exclusive(s')
  {
    assert forall q, k :: Owns(s', q, k) && q != p ==> Owns(s, q, k);
    forall q, k | Owns(s', q, k) && q != p
      ensures k in s'.keys && s'.keys[k] == Owned(s'.clients[q])[k] && !Owns(s', p, k)
    {
      assert Owns(s, q, k);
      assert Live(s, k);
    }
  }

  lemma StartKeepsExclusive(s: State, p: Pid, k1: string, k2: string)
    requires Exclusive(s) && InTime(s)
    ensures Exclusive(Start(s, p, k1, k2))
  {
    if p !in s.clients && p !in s.gone { ExclusiveForOthers(s, Start(s, p, k1, k2), p); }
  }

  lemma ProceedKeepsExclusive(s: State, p: Pid)
    requires Apart(s) && Exclusive(s) && InTime(s)
    ensures Exclusive(Proceed(s, p))
  {
    if p in s.clients && p !in s.gone {
      var c := s.clients[p];
      assert c.First? || c.Undo? || c.Held? ==> Owns(s, p, c.k1);
      assert c.Held? || c.Half? ==> Owns(s, p, c.k2);
      ExclusiveForOthers(s, Proceed(s, p), p);
    }
  }

  lemma StepKeepsExclusive(s: State, step: Step)
    requires Apart(s) && Exclusive(s) && InTime(s)
    ensures Exclusive(Apply(s, step))
  {
    match step
    case Begin(p, a, b) => StartKeepsExclusive(s, p, LockKey(SortPair(a, b).0), LockKey(SortPair(a, b).1));
    case Continue(p) => ProceedKeepsExclusive(s, p);
    case _ => assert forall p, k :: Owns(Apply(s, step), p, k) ==> Owns(s, p, k);
  }

  /**
   Lock exclusion: as long as no lock outlives its TTL, two running clients that share an account are never
   both between acquire and release, and whoever is there holds both of its keys in Redis.
   */
  lemma {:induction false} Exclusion(s0: State, steps: seq<Step>)
    requires Initial(s0) && Distinct(steps) && AlwaysInTime(s0, steps)
    ensures var s := Run(s0, steps);
      && Exclusive(s)
      && (forall p, q :: Inside(s, p) && Inside(s, q) && p != q ==>
            {s.clients[p].k1, s.clients[p].k2} !! {s.clients[q].k1, s.clients[q].k2})
      && (forall p :: Inside(s, p) ==> Live(s, s.clients[p].k1) && Live(s, s.clients[p].k2))
  {
    if steps != [] {
      var n := |steps| - 1;
      Exclusion(s0, steps[..n]);
      RunKeepsAccounted(s0, steps[..n]);
      SortedIsApart(Run(s0, steps[..n]));
      StepKeepsExclusive(Run(s0, steps[..n]), steps[n]);
    }
    var s := Run(s0, steps);
    assert forall p :: Inside(s, p) ==> Owns(s, p, s.clients[p].k1) && Owns(s, p, s.clients[p].k2);
  }

  /** p is between acquire and release. */
  predicate Inside(s: State, p: Pid) { p in s.clients && p !in s.gone && s.clients[p].Held? }

  predicate Holds(s: State, p: Pid, a: string, b: string) {
    && Inside(s, p)
    && (s.clients[p].k1, s.clients[p].k2) == (LockKey(SortPair(a, b).0), LockKey(SortPair(a, b).1))
  }

  lemma {:induction false} RunIs(s: State, steps: seq<Step>, states: seq<State>)
    requires |states| == |steps| + 1 && states[0] == s
    requires forall i :: 0 <= i < |steps| ==> states[i + 1] == Apply(states[i], steps[i])
    ensures Run(s, steps) == states[|steps|]
  {
    if steps != [] { RunIs(s, steps[..|steps| - 1], states[..|steps|]); }
  }

  lemma {:induction false} RunAppend(s: State, steps: seq<Step>, more: seq<Step>)
    ensures Run(s, steps + more) == Run(Run(s, steps), more)
  {
    if more == [] {
      assert steps + more == steps;
    } else {
      var n := |more| - 1;
      assert (steps + more)[..|steps + more| - 1] == steps + more[..n];
      RunAppend(s, steps, more[..n]);
    }
  }

  /** The state after q has tried for the locks of two accounts. */
  function Tried(s: State, q: Pid, a: string, b: string): State { Run(s, [Begin(q, a, b), Continue(q)]) }

  /** A newcomer holds both keys after two steps exactly when neither was visible; nobody else notices. */
  lemma NewcomerGetsInIff(s: State, q: Pid, a: string, b: string)
    requires a != b && q !in s.clients && q !in s.gone
    ensures var s' := Tried(s, q, a, b);
      && (Holds(s', q, a, b) <==> !Live(s, LockKey(a)) && !Live(s, LockKey(b)))
      && s'.now == s.now && s'.gone == s.gone
      && (forall p :: p in s.clients ==> p in s'.clients && s'.clients[p] == s.clients[p])
  {
    SortPairSorts(a, b);
    LessIsTotal(LockKey(SortPair(a, b).0), LockKey(SortPair(a, b).1));
    var s1 := Apply(s, Begin(q, a, b));
    RunIs(s, [Begin(q, a, b), Continue(q)], [s, s1, Apply(s1, Continue(q))]);
    assert {SortPair(a, b).0, SortPair(a, b).1} == {a, b};
  }

  /** There is always an account that nobody has locked. */
  lemma {:induction false} SomeFreeAccount(keys: set<string>) returns (b: string)
    ensures forall k :: k in keys ==> |k| < |b|
  {
    if keys == {} {
      b := "x";
    } else {
      var k :| k in keys;
      b := SomeFreeAccount(keys - {k});
      if |b| <= |k| { b := k + "x"; }
    }
  }

  /**
   The TTL is the whole protection, and the converse of Exclusion: somebody can get in beside a holder, on an
   account they share, exactly when the holder's lock on that account has expired or been deleted.
   */
  lemma ExpiryLetsAnotherIn(s: State, p: Pid, q: Pid, a: string)
    requires Inside(s, p) && LockKey(a) in {s.clients[p].k1, s.clients[p].k2} && q !in s.clients && q !in s.gone
    ensures forall b :: b != a ==> Inside(Tried(s, q, a, b), p)
    ensures (exists b :: b != a && Holds(Tried(s, q, a, b), q, a, b)) <==> !Live(s, LockKey(a))
  {
    forall b | b != a
      ensures Inside(Tried(s, q, a, b), p)
      ensures Holds(Tried(s, q, a, b), q, a, b) <==> !Live(s, LockKey(a)) && !Live(s, LockKey(b))
    {
      NewcomerGetsInIff(s, q, a, b);
    }
    var b := SomeFreeAccount(s.keys.Keys + {a});
    assert a in s.keys.Keys + {a};
    assert |LockKey(b)| > |b|;
    assert LockKey(b) !in s.keys.Keys;
    assert b != a && !Live(s, LockKey(b));
  }

  /**
   A late release does further harm, because DEL does not check the owner: a holder p that overran deletes
   the keys of its successor q, however much in time q is, and a third client r gets in beside q.
   */
  lemma LateReleaseLetsAnotherIn(s: State, p: Pid, q: Pid, r: Pid, a: string, b: string)
    requires a != b && p != q && r !in s.clients && r !in s.gone
    requires Holds(s, p, a, b) && Holds(s, q, a, b)
    ensures var s' := Run(s, [Continue(p), Continue(p), Begin(r, a, b), Continue(r)]);
      && Holds(s', q, a, b) && Holds(s', r, a, b) && s'.now == s.now && s'.clients[q] == s.clients[q]
  {
    SortPairSorts(a, b);
    var s1 := Apply(s, Continue(p));
    var s2 := Apply(s1, Continue(p));
    RunIs(s, [Continue(p), Continue(p)], [s, s1, s2]);
    assert {SortPair(a, b).0, SortPair(a, b).1} == {a, b};
    assert !Live(s2, LockKey(a)) && !Live(s2, LockKey(b));
    NewcomerGetsInIff(s2, r, a, b);
    assert [Continue(p), Continue(p), Begin(r, a, b), Continue(r)] ==
        [Continue(p), Continue(p)] + [Begin(r, a, b), Continue(r)];
    RunAppend(s, [Continue(p), Continue(p)], [Begin(r, a, b), Continue(r)]);
  }

  /** A run that leads there from the start: p overruns its TTL, q comes in, p releases, r comes in beside q. */
  function LateRelease(p: Pid, q: Pid, r: Pid, a: string, b: string): seq<Step> {
    [Begin(p, a, b), Continue(p)] + [Tick(LOCK_TTL_MS)] + [Begin(q, a, b), Continue(q)]
    + [Continue(p), Continue(p), Begin(r, a, b), Continue(r)]
  }

  /** So it happens: q is in time and has lost its exclusion all the same. */
  lemma LateReleaseHappens(s0: State, p: Pid, q: Pid, r: Pid, a: string, b: string)
    requires Initial(s0) && a != b && p != q && q != r && p != r
    requires p !in s0.gone && q !in s0.gone && r !in s0.gone
    ensures var s := Run(s0, LateRelease(p, q, r, a, b));
      && Holds(s, q, a, b) && Holds(s, r, a, b) && s.now < s.clients[q].t1 + LOCK_TTL_MS
  {
    var first, wait, second := [Begin(p, a, b), Continue(p)], [Tick(LOCK_TTL_MS)], [Begin(q, a, b), Continue(q)];
    var s1 := Tried(s0, p, a, b);
    NewcomerGetsInIff(s0, p, a, b);
    var s2 := Apply(s1, Tick(LOCK_TTL_MS));
    KeysAfterTrying(s0, p, a, b);
    RunAppend(s0, first, wait);
    RunIs(s1, wait, [s1, s2]);
    NewcomerGetsInIff(s2, q, a, b);
    KeysAfterTrying(s2, q, a, b);
    RunAppend(s0, first + wait, second);
    LateReleaseLetsAnotherIn(Tried(s2, q, a, b), p, q, r, a, b);
    RunAppend(s0, first + wait + second, [Continue(p), Continue(p), Begin(r, a, b), Continue(r)]);
  }

  lemma KeysAfterTrying(s: State, q: Pid, a: string, b: string)
    requires a != b && q !in s.clients && q !in s.gone && !Live(s, LockKey(a)) && !Live(s, LockKey(b))
    ensures var s' := Tried(s, q, a, b);
      && s'.clients.Keys == s.clients.Keys + {q}
      && s'.clients[q].Held? && s'.clients[q].t1 == s.now
      && (forall k :: k in s'.keys ==> s'.keys[k] == s.now + LOCK_TTL_MS || (k in s.keys && s'.keys[k] == s.keys[k]))
  {
    SortPairSorts(a, b);
    LessIsTotal(LockKey(SortPair(a, b).0), LockKey(SortPair(a, b).1));
    var s1 := Apply(s, Begin(q, a, b));
    RunIs(s, [Begin(q, a, b), Continue(q)], [s, s1, Apply(s1, Continue(q))]);
    assert {SortPair(a, b).0, SortPair(a, b).1} == {a, b};
  }

  // ---------------------------------------------------------------- progress

  /** The keys a client has ever obtained. */
  function Got(c: Client): set<string> {
    match c
    case First(k1, _, _) => {k1}
    case Undo(k1, _, _) => {k1}
    case Refused(k1, _, second) => if second then {k1} else {}
    case _ => {c.k1, c.k2}
  }

  /** The key on which a client found somebody else's lock. */
  function Missed(c: Client): Option<string> {
    match c
    case Undo(_, k2, _) => Some(k2)
    case Refused(k1, k2, second) => Some(if second then k2 else k1)
    case _ => None
  }

  /** The acquisition is over, with or without success. */
  predicate Settled(c: Client) { !c.First? && !c.Undo? }

  predicate Succeeded(c: Client) { c.Held? || c.Half? || c.Done? }

  ghost predicate GotBy(s: State, q: Pid, k: string) { q in s.clients && k in Got(s.clients[q]) }

  ghost predicate MissedBy(s: State, p: Pid, k: string) { p in s.clients && Missed(s.clients[p]) == Some(k) }

  /** Whoever was refused a key was refused it because somebody else obtained it. */
  ghost predicate Blamed(s: State) {
    forall p, k :: MissedBy(s, p, k) ==> exists q :: GotBy(s, q, k)
  }

  lemma StepKeepsBlamed(s: State, step: Step)
    requires Accounted(s) && Blamed(s)
    ensures Blamed(Apply(s, step))
  {
    var s' := Apply(s, step);
    forall p, k | MissedBy(s', p, k) ensures exists q :: GotBy(s', q, k) {
      if MissedBy(s, p, k) {
        var q :| GotBy(s, q, k);
        assert GotBy(s', q, k);
      } else {
        assert Live(s, k);
        var q :| SetBy(s, q, k);
        assert GotBy(s', q, k);
      }
    }
  }

  lemma {:induction false} RunKeepsBlamed(s0: State, steps: seq<Step>)
    requires Initial(s0) && Distinct(steps)
    ensures Blamed(Run(s0, steps))
  {
    if steps != [] {
      var n := |steps| - 1;
      RunKeepsBlamed(s0, steps[..n]);
      RunKeepsAccounted(s0, steps[..n]);
      StepKeepsBlamed(Run(s0, steps[..n]), steps[n]);
    }
  }

  /** Where nobody succeeded, whoever obtained a key went on to be refused a greater one. */
  lemma BlameGoesUp(s: State, p: Pid, k: string) returns (up: string)
    requires Sorted(s) && Blamed(s) && MissedBy(s, p, k)
    requires forall q :: q in s.clients ==> Settled(s.clients[q]) && !Succeeded(s.clients[q])
    ensures Less(k, up) && exists q :: MissedBy(s, q, up)
  {
    var q :| GotBy(s, q, k);
    up := s.clients[q].k2;
    assert MissedBy(s, q, up);
  }

  /**
   Progress from sorted try-locks, on every run with or without expiry: once every started two-account
   acquisition is over, at least one of them succeeded. Otherwise take the greatest key on which anyone
   was refused: whoever obtained it was refused a greater one.
   */
  lemma Progress(s0: State, steps: seq<Step>)
    requires Initial(s0) && Distinct(steps)
    requires Run(s0, steps).clients != map[]
    requires forall p :: p in Run(s0, steps).clients ==> Settled(Run(s0, steps).clients[p])
    ensures exists p :: p in Run(s0, steps).clients && Succeeded(Run(s0, steps).clients[p])
  {
    var s := Run(s0, steps);
    RunKeepsAccounted(s0, steps);
    RunKeepsBlamed(s0, steps);
    if forall p :: p in s.clients ==> !Succeeded(s.clients[p]) {
      var missed := set p | p in s.clients :: Missed(s.clients[p]).value;
      var p :| p in s.clients;
      assert Missed(s.clients[p]).value in missed;
      var top := Greatest(missed);
      p :| p in s.clients && Missed(s.clients[p]).value == top;
      var up := BlameGoesUp(s, p, top);
      var q :| MissedBy(s, q, up);
      assert up in missed;
      LessIsTotal(up, top);
    }
  }
}
