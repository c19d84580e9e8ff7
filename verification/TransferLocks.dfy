/** The theorems about locks, carried over to running transfers: Redis locks and database locks alike. */
module TransferLocks {
  import opened FraudEngine
  import opened TransferProtocol
  import opened TransferInvariant

  /** The lock machine's steps behind a step of the protocol: a call that throws is the client's last. */
  function LockStepsOf(s: State, step: Step): seq<Locks.Step> {
    match step
    case Advance(p, _, ok) =>
      if !Running(s, p) || !AtLocks(s.procs[p].pc) then []
      else [LockCall(p, s.procs[p])] + if ok then [] else [Locks.Abandon(p)]
    case Fail(p) => if Running(s, p) && AtLocks(s.procs[p].pc) then [Locks.Abandon(p)] else []
    case Crash(p) => if p in s.procs then [Locks.Abandon(p)] else []
    case Tick(dt) => [Locks.Tick(dt)]
    case _ => []
  }

  function LockCall(p: Pid, pr: Proc): Locks.Step {
    if pr.pc.LockFirst? then Locks.Begin(p, pr.req.from, pr.req.to) else Locks.Continue(p)
  }

  function LockLog(s0: State, steps: seq<Step>): seq<Locks.Step> {
    if steps == [] then []
    else
      var n := |steps| - 1;
      LockLog(s0, steps[..n]) + LockStepsOf(Run(s0, steps[..n]), steps[n])
  }

  /** No running transfer ever still owns a Redis lock whose TTL has passed. */
  ghost predicate AlwaysInTime(s0: State, steps: seq<Step>) {
    Locks.InTime(Run(s0, steps).locks) && (steps != [] ==> AlwaysInTime(s0, steps[..|steps| - 1]))
  }

  lemma RunOfTwo(locks: Locks.State, first: Locks.Step, second: Locks.Step)
    ensures Locks.Run(locks, [first]) == Locks.Apply(locks, first)
    ensures Locks.Run(locks, [first] + [second]) == Locks.Apply(Locks.Apply(locks, first), second)
  {
    Locks.RunAppend(locks, [first], [second]);
    assert [first][..0] == [] && [second][..0] == [];
  }

  lemma AdvanceLocksIs(s: State, p: Pid, reply: Reply, ok: bool)
    requires Running(s, p) && AtLocks(s.procs[p].pc)
    ensures var called := Locks.Apply(s.locks, LockCall(p, s.procs[p]));
      Apply(s, Advance(p, reply, ok)).locks == if ok then called else Locks.Apply(called, Locks.Abandon(p))
  {}

  lemma LockCallTakesItsSteps(s: State, p: Pid, reply: Reply, ok: bool)
    requires Inv(s) && Running(s, p) && AtLocks(s.procs[p].pc)
    ensures var call := LockCall(p, s.procs[p]);
      && Apply(s, Advance(p, reply, ok)).locks == Locks.Run(s.locks, [call] + if ok then [] else [Locks.Abandon(p)])
      && (call.Begin? ==> call.a != call.b)
  {
    assert ProcOk(s.db, p, s.procs[p]);
    AdvanceLocksIs(s, p, reply, ok);
    RunOfTwo(s.locks, LockCall(p, s.procs[p]), Locks.Abandon(p));
    assert [LockCall(p, s.procs[p])] + [] == [LockCall(p, s.procs[p])];
  }

  lemma OtherStepsTakeTheirs(s: State, step: Step)
    requires step.Advance? ==> !(Running(s, step.p) && AtLocks(s.procs[step.p].pc))
    ensures Apply(s, step).locks == Locks.Run(s.locks, LockStepsOf(s, step))
  {
    var todo := LockStepsOf(s, step);
    if todo != [] { RunOfTwo(s.locks, todo[0], todo[0]); }
  }

  /** At most a call and the end of its client, and a call never names one account twice. */
  ghost predicate Plausible(todo: seq<Locks.Step>) {
    && |todo| <= 2 && (todo != [] && todo[0].Begin? ==> todo[0].a != todo[0].b)
    && (|todo| == 2 ==> !todo[0].Tick? && todo[1].Abandon?)
  }

  lemma LocksTakeTheirSteps(s: State, step: Step)
    requires Inv(s)
    ensures Plausible(LockStepsOf(s, step))
    ensures Apply(s, step).locks == Locks.Run(s.locks, LockStepsOf(s, step))
  {
    if step.Advance? && Running(s, step.p) && AtLocks(s.procs[step.p].pc) {
      LockCallTakesItsSteps(s, step.p, step.reply, step.ok);
    } else {
      OtherStepsTakeTheirs(s, step);
    }
  }

  lemma LocksRunOn(start: Locks.State, log: seq<Locks.Step>, todo: seq<Locks.Step>)
    requires Locks.Distinct(log) && Plausible(todo)
    ensures Locks.Distinct(log + todo)
    ensures Locks.Run(start, log + todo) == Locks.Run(Locks.Run(start, log), todo)
    ensures Locks.AlwaysInTime(start, log) && Locks.InTime(Locks.Run(start, log + todo)) ==>
      Locks.AlwaysInTime(start, log + todo)
  {
    Locks.RunAppend(start, log, todo);
    if |todo| == 0 {
      assert log + todo == log;
    } else {
      assert (log + todo[..1])[..|log|] == log;
      if |todo| == 2 {
        assert (log + todo)[..|log| + 1] == log + todo[..1];
        if Locks.InTime(Locks.Run(start, log)) { Locks.OnlyTimeMakesLate(Locks.Run(start, log), todo[0]); }
      } else {
        assert log + todo == log + todo[..1];
      }
    }
  }

  /** Seen from Redis, a run of the protocol is a run of the lock machine. */
  lemma {:induction false} LocksRun(s0: State, steps: seq<Step>)
    requires Initial(s0)
    ensures Run(s0, steps).locks == Locks.Run(s0.locks, LockLog(s0, steps))
    ensures Locks.Distinct(LockLog(s0, steps))
    ensures AlwaysInTime(s0, steps) ==> Locks.AlwaysInTime(s0.locks, LockLog(s0, steps))
  {
    if steps != [] {
      var n := |steps| - 1;
      LocksRun(s0, steps[..n]);
      RunKeepsInv(s0, steps[..n]);
      LocksTakeTheirSteps(Run(s0, steps[..n]), steps[n]);
      LocksRunOn(s0.locks, LockLog(s0, steps[..n]), LockStepsOf(Run(s0, steps[..n]), steps[n]));
    }
  }

  /** The two lock keys of a request, in the order in which they are tried. */
  function FirstKey(req: Request): string { Locks.LockKey(Locks.SortPair(req.from, req.to).0) }

  function SecondKey(req: Request): string { Locks.LockKey(Locks.SortPair(req.from, req.to).1) }

  ghost predicate KeyFits(s: State, p: Pid) {
    p in s.procs && p in s.locks.clients
    && s.locks.clients[p].k1 == FirstKey(s.procs[p].req) && s.locks.clients[p].k2 == SecondKey(s.procs[p].req)
  }

  /** Every client works on the keys of its request's two accounts. */
  ghost predicate KeysFit(s: State) {
    forall p :: p in s.locks.clients ==> KeyFits(s, p)
  }

  lemma RequestsNeverChange(s: State, step: Step)
    ensures forall p :: p in s.procs ==> p in Apply(s, step).procs && Apply(s, step).procs[p].req == s.procs[p].req
  {
    if step.Advance? && Running(s, step.p) && InTrx(s.procs[step.p].pc) {
      DbStepKeepsRequest(s.db, step.p, s.procs[step.p], step.ok);
    }
  }

  /** Ending a client leaves all clients where they were. */
  lemma FirstStepDecides(locks: Locks.State, todo: seq<Locks.Step>)
    requires Plausible(todo)
    ensures Locks.Run(locks, todo).clients == if todo == [] then locks.clients else Locks.Apply(locks, todo[0]).clients
  {
    if todo != [] {
      RunOfTwo(locks, todo[0], todo[|todo| - 1]);
      assert todo == if |todo| == 1 then [todo[0]] else [todo[0]] + [todo[1]];
    }
  }

  lemma StepKeepsKeysFit(s: State, step: Step)
    requires Inv(s) && KeysFit(s)
    ensures KeysFit(Apply(s, step))
  {
    RequestsNeverChange(s, step);
    LocksTakeTheirSteps(s, step);
    var s', todo := Apply(s, step), LockStepsOf(s, step);
    FirstStepDecides(s.locks, todo);
    if todo != [] { Locks.ClientsKeepTheirKeys(s.locks, todo[0]); }
    forall p | p in s'.locks.clients ensures KeyFits(s', p) {
      if p in s.locks.clients {
        assert KeyFits(s, p);
      } else {
        assert todo[0] == Locks.Begin(p, s.procs[p].req.from, s.procs[p].req.to);
      }
    }
  }

  lemma {:induction false} RunKeepsKeysFit(s0: State, steps: seq<Step>)
    requires Initial(s0)
    ensures KeysFit(Run(s0, steps))
  {
    if steps != [] {
      RunKeepsKeysFit(s0, steps[..|steps| - 1]);
      RunKeepsInv(s0, steps[..|steps| - 1]);
      StepKeepsKeysFit(Run(s0, steps[..|steps| - 1]), steps[|steps| - 1]);
    }
  }

  /** p is running and between acquireAccountLocks and releaseAllLocks. */
  predicate Critical(s: State, p: Pid) {
    && Running(s, p)
    && (InTrx(s.procs[p].pc) || s.procs[p].pc.Preload? || s.procs[p].pc.FraudCheck?
        || s.procs[p].pc.CacheResponse? || s.procs[p].pc.FlushReads? || s.procs[p].pc.UnlockFirst?)
  }

  lemma KeysOfBothAccounts(r: Request)
    ensures {Locks.LockKey(r.from), Locks.LockKey(r.to)} == {FirstKey(r), SecondKey(r)}
  {}

  lemma SharedAccountsShareKeys(r: Request, q: Request)
    requires {FirstKey(r), SecondKey(r)} !! {FirstKey(q), SecondKey(q)}
    ensures {r.from, r.to} !! {q.from, q.to}
  {
    KeysOfBothAccounts(r);
    KeysOfBothAccounts(q);
    var ours, theirs := {r.from, r.to}, {q.from, q.to};
    forall id | id in ours ensures id !in theirs {
      assert Locks.LockKey(id) in {FirstKey(r), SecondKey(r)};
    }
  }

  lemma CriticalIsInside(s: State, p: Pid)
    requires Inv(s) && Critical(s, p)
    ensures Locks.Inside(s.locks, p)
  {
    assert LocksFit(s.procs[p].pc, ClientOf(s.locks, p));
  }

  /** While no lock outlives its TTL, two transfers that share an account are never both inside. */
  lemma TransfersExclude(s0: State, steps: seq<Step>, p: Pid, q: Pid)
    requires Initial(s0) && AlwaysInTime(s0, steps) && p != q
    requires Critical(Run(s0, steps), p) && Critical(Run(s0, steps), q)
    ensures var s := Run(s0, steps);
      {s.procs[p].req.from, s.procs[p].req.to} !! {s.procs[q].req.from, s.procs[q].req.to}
  {
    var s := Run(s0, steps);
    RunKeepsInv(s0, steps);
    CriticalIsInside(s, p);
    CriticalIsInside(s, q);
    InsideOnesAreApart(s0, steps, p, q);
    SharedAccountsShareKeys(s.procs[p].req, s.procs[q].req);
  }

  lemma InsideOnesAreApart(s0: State, steps: seq<Step>, p: Pid, q: Pid)
    requires Initial(s0) && AlwaysInTime(s0, steps) && p != q
    requires Locks.Inside(Run(s0, steps).locks, p) && Locks.Inside(Run(s0, steps).locks, q)
    ensures var s := Run(s0, steps);
      && p in s.procs && q in s.procs
      && {FirstKey(s.procs[p].req), SecondKey(s.procs[p].req)} !! {FirstKey(s.procs[q].req), SecondKey(s.procs[q].req)}
  {
    var s := Run(s0, steps);
    LocksRun(s0, steps);
    RunKeepsKeysFit(s0, steps);
    Locks.Exclusion(s0.locks, LockLog(s0, steps));
    assert KeyFits(s, p) && KeyFits(s, q);
  }

  /**
   Not everybody fails on the locks: once nobody is in the middle of acquiring them, one of the transfers
   that went for them got both.
   */
  lemma SomeTransferGetsItsLocks(s0: State, steps: seq<Step>)
    requires Initial(s0)
    requires Run(s0, steps).locks.clients != map[]
    requires forall p :: p in Run(s0, steps).locks.clients ==> Locks.Settled(Run(s0, steps).locks.clients[p])
    ensures exists p :: p in Run(s0, steps).locks.clients && Locks.Succeeded(Run(s0, steps).locks.clients[p])
  {
    LocksRun(s0, steps);
    Locks.Progress(s0.locks, LockLog(s0, steps));
  }
}
