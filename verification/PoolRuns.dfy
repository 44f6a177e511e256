/** Runs of a thread pool: worker threads and threads that use the pool, interleaved.

    What a caller does under the scheduler's lock is one step.  `Job::run` drops the lock while a
    body executes, so a round of a worker's loop is two steps: up to the start of the body, and from
    its end to the top of the loop.  There the worker of the source still has the lock; here others
    may come first. */
module PoolRuns {
  import opened CondVar
  import opened Jobs
  import opened JobInvariant

  /** Where a worker is: at the top of its loop (asleep, woken or about to take the lock), in the
      body of a job, or out of the loop. */
  datatype Slot = Idle | Busy(job: nat) | Gone

  /** `callers` are the trigger bodies that `updateTrigger` runs on the caller's own thread;
      `counter` is `shutdown_counter`. */
  datatype Sys = Sys(pool: Pool, slots: seq<Slot>, callers: multiset<nat>, cond: Cond,
                     closing: bool, counter: nat)

  datatype Action =
    | Create
    | NewTrigger(kind: Kind)
    | Start(j: nat)
    | Schedule(js: seq<nat>, ds: seq<nat>)
    | Cancel(j: nat)
    | Update(t: nat, units: nat)
    | Return(t: nat)
    | Chain(t: nat, j: nat)
    | Exec
    | Turn(w: nat, j: nat)
    | Finish(w: nat, result: bool)
    | Wake(w: nat)
    | Close(wait: bool)
    | Recheck

  ghost predicate Init(s: Sys) {
    && |s.slots| > 0
    && s == Sys(Pool([], multiset{}, seq(|s.slots| + 1, _ => []), 0, 0),
                seq(|s.slots|, _ => Idle), multiset{}, Cond({}, {}), false, 0)
  }

  /** A job that somebody can pass to the commands below. */
  predicate Handle(p: Pool, j: nat) { j < |p.jobs| && p.jobs[j].Named() }

  predicate Handles(p: Pool, l: seq<nat>) { forall i | 0 <= i < |l| :: Handle(p, l[i]) }

  function AddJob(p: Pool, job: Job): Pool { p.(jobs := p.jobs + [job]) }

  /** `updateTrigger`, up to the body if the trigger fires. */
  function UpdateTrigger(p: Pool, t: nat, units: nat): Pool
    requires Refs(p) && t < |p.jobs|
  {
    if !Accepts(p.jobs[t].kind, units > 0) then p else
      var q := Put(p, t, Activated(p.jobs[t], units));
      assert SameGraph(p, q);
      if !Ready(q, t) then q
      else if q.jobs[t].cancelled then SkipBody(q, t)
      else StartBody(q, t)
  }

  predicate Fires(p: Pool, t: nat, units: nat)
    requires Refs(p) && t < |p.jobs|
  {
    && Accepts(p.jobs[t].kind, units > 0) && !p.jobs[t].cancelled
    && DepsDone(p, t) && Activated(p.jobs[t], units).kind.Fired()
  }

  function ChainTrigger(p: Pool, t: nat, j: nat): Pool
    requires j < |p.jobs|
  {
    Put(p, j, p.jobs[j].(triggers := p.jobs[j].triggers + [t]))
  }

  /** `threadPoolExec` appends a job to every private queue and wakes nobody. */
  function BroadcastJob(p: Pool): Pool {
    AddJob(p, NEW_JOB.(kind := Broadcast, pool := true))
      .(private := seq(|p.private|, w requires 0 <= w < |p.private| => p.private[w] + [|p.jobs|]))
  }

  function NewTriggerJob(p: Pool, kind: Kind): Pool
    requires Refs(p) && kind.Trigger()
  {
    AttachJob(AddJob(p, NEW_JOB.(kind := kind)), |p.jobs|)
  }

  predicate HasPrivate(p: Pool, w: nat) { w < |p.private| && p.private[w] != [] }

  /** The loop body takes job `j` off a queue; it signals when global work is left. */
  function Take(p: Pool, w: nat, j: nat): Pool {
    var q := if HasPrivate(p, w) then p.(private := p.private[w := p.private[w][1..]]) else Pop(p, j);
    if q.queue != multiset{} then Signal(q) else q
  }

  predicate MayTake(p: Pool, w: nat, j: nat) {
    if HasPrivate(p, w) then j == p.private[w][0] else j in p.queue
  }

  /** The new pool, and the wake-ups its signals caused among `c`. */
  ghost predicate Becomes(s: Sys, c: Cond, p: Pool, s': Sys) {
    && s.pool.signals <= p.signals
    && s'.pool == p && Signals(c, p.signals - s.pool.signals, s'.cond)
  }

  /** One step.  `Refs` is part of the invariant that `PoolInvariant.RunKeeps` proves. */
  ghost predicate Next(s: Sys, a: Action, s': Sys) {
    Refs(s.pool) && Step(s, a, s')
  }

  ghost predicate Step(s: Sys, a: Action, s': Sys)
    requires Refs(s.pool)
  {
    var p := s.pool;
    match a
    case Create => s' == s.(pool := AddJob(p, NEW_JOB))
    case NewTrigger(kind) =>
      kind.Trigger() && Becomes(s, s.cond, NewTriggerJob(p, kind), s')
      && s' == s.(pool := s'.pool, cond := s'.cond)
    case Start(j) =>
      Handle(p, j) && Becomes(s, s.cond, StartJob(p, j), s')
      && s' == s.(pool := s'.pool, cond := s'.cond)
    case Schedule(js, ds) =>
      Handles(p, js) && Handles(p, ds) && Becomes(s, s.cond, ScheduleJobs(p, js, ds), s')
      && s' == s.(pool := s'.pool, cond := s'.cond)
    case Cancel(j) =>
      Handle(p, j) && p.jobs[j].pool && s' == s.(pool := CancelJob(p, j))
    case Update(t, units) =>
      Handle(p, t) && p.jobs[t].kind.Trigger() && Becomes(s, s.cond, UpdateTrigger(p, t, units), s')
      && s' == s.(pool := s'.pool, cond := s'.cond,
                  callers := if Fires(p, t, units) then s.callers + multiset{t} else s.callers)
    case Return(t) =>
      t in s.callers && t < |p.jobs| && Becomes(s, s.cond, FinishBody(p, t, p.jobs[t].kind.Acc?), s')
      && s' == s.(pool := s'.pool, cond := s'.cond, callers := s.callers - multiset{t})
    case Chain(t, j) =>
      Handle(p, t) && p.jobs[t].kind.Trigger() && Handle(p, j) && p.jobs[j].pool
      && s' == s.(pool := ChainTrigger(p, t, j))
    case Exec => s' == s.(pool := BroadcastJob(p))
    case Turn(w, j) => w < |s.slots| && s.slots[w].Idle? && w !in s.cond.asleep && LoopBody(s, w, j, s')
    case Finish(w, result) =>
      w < |s.slots| && s.slots[w].Busy? && s.slots[w].job < |p.jobs|
      && Becomes(s, s.cond, FinishBody(p, s.slots[w].job, result), s')
      && s' == s.(pool := s'.pool, cond := s'.cond, slots := s.slots[w := Idle])
    case Wake(w) => w in s.cond.asleep && s' == s.(cond := s.cond.Wake(w))
    case Close(wait) =>
      (wait ==> p.queue == multiset{}) && s' == ShutdownLoop(s.(closing := true))
    case Recheck => s.closing && s' == ShutdownLoop(s)
  }

  /** One round of the second loop of `shutdown`. */
  function ShutdownLoop(s: Sys): Sys {
    if s.counter < |s.slots| then s.(cond := s.cond.Broadcast()) else s
  }

  /** One iteration of the worker loop, up to the point where it gives up the lock. */
  ghost predicate LoopBody(s: Sys, w: nat, j: nat, s': Sys)
    requires Refs(s.pool) && w < |s.slots|
  {
    var p, c := s.pool, s.cond.Resume(w);
    if s.closing then
      s' == s.(cond := c, slots := s.slots[w := Gone], counter := s.counter + 1)
    else if !HasPrivate(p, w) && p.queue == multiset{} then
      s' == s.(cond := c.Sleep(w))
    else
      && MayTake(p, w, j) && j < |p.jobs| && Refs(Take(p, w, j))
      && (if p.jobs[j].cancelled
          then Becomes(s, c, SkipBody(Take(p, w, j), j), s') && s' == s.(pool := s'.pool, cond := s'.cond)
          else Becomes(s, c, StartBody(Take(p, w, j), j), s')
               && s' == s.(pool := s'.pool, cond := s'.cond, slots := s.slots[w := Busy(j)]))
  }

  // ---------------------------------------------------------------- the invariant

  /** How many bodies of `j` are being executed. */
  ghost function Executing(s: Sys, j: nat): nat { multiset(s.slots)[Busy(j)] + s.callers[j] }

  ghost predicate BodiesOk(s: Sys) {
    && (forall j | 0 <= j < |s.pool.jobs| ::
          s.pool.jobs[j].starts == s.pool.jobs[j].finishes + Executing(s, j))
    && (forall w | 0 <= w < |s.slots| && s.slots[w].Busy? :: s.slots[w].job < |s.pool.jobs|)
    && (forall t | t in s.callers :: t < |s.pool.jobs|)
  }

  ghost predicate WorkersOk(s: Sys) {
    && |s.pool.private| == |s.slots| + 1
    && s.cond.Valid()
    && (forall w | w in s.cond.asleep + s.cond.woken :: w < |s.slots| && s.slots[w].Idle?)
    && (if s.closing then s.cond.asleep == {} else Covered(s.cond, |s.pool.queue|))
    && s.counter == multiset(s.slots)[Gone]
  }

  ghost predicate SysInv(s: Sys) {
    Stable(s.pool) && BodiesOk(s) && WorkersOk(s)
  }

  /** A run: the states it passes through and the actions between them. */
  ghost predicate Run(states: seq<Sys>, acts: seq<Action>) {
    && |states| == |acts| + 1 && Init(states[0])
    && (forall i | 0 <= i < |acts| :: Next(states[i], acts[i], states[i + 1]))
  }

  lemma InitHolds(s: Sys)
    requires Init(s)
    ensures SysInv(s)
  {
    assert forall w | 0 <= w < |s.slots| :: s.slots[w] == Idle;
    assert Gone !in multiset(s.slots);
  }
}
