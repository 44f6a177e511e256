/** A pool with any number of workers that is left alone works off everything: without triggers and
    without further calls from outside, the workers can only take so many steps, and when they
    cannot go on every job of the pool is done. */
module PoolDrain {
  import opened CondVar
  import opened Jobs
  import opened JobInvariant
  import opened CalmSteps
  import opened PoolRuns
  import opened PoolSteps
  import opened PoolInvariant
  import opened PoolTheorems
  import opened Continuations
  import opened DrainMeasure

  predicate WorkerAct(a: Action) { a.Turn? || a.Finish? || a.Wake? }

  /** A body returns, or a job is taken off a queue; anything else a worker does is going to sleep,
      waking up and leaving. */
  predicate Working(s: Sys, a: Action) {
    a.Finish? || (a.Turn? && !s.closing && (HasPrivate(s.pool, a.w) || s.pool.queue != multiset{}))
  }

  // ---------------------------------------------------------------- the measure

  function Total(private: seq<seq<nat>>): nat {
    if private == [] then 0 else |private[0]| + Total(private[1..])
  }

  function BusyCount(slots: seq<Slot>): nat {
    if slots == [] then 0 else (if slots[0].Busy? then 1 else 0) + BusyCount(slots[1..])
  }

  /** Each entry of a queue, and each job that may still be queued by a notification, is good for
      two steps, and each body that is being executed for one. */
  ghost function Work(s: Sys): nat {
    2 * (|s.pool.queue| + Unqueued(s.pool.jobs)) + 2 * Total(s.pool.private) + BusyCount(s.slots)
  }

  lemma {:induction false} TotalUpdate(private: seq<seq<nat>>, w: nat, l: seq<nat>)
    requires w < |private|
    ensures Total(private[w := l]) == Total(private) - |private[w]| + |l|
  {
    if w > 0 {
      assert private[w := l][1..] == private[1..][w - 1 := l];
      TotalUpdate(private[1..], w - 1, l);
    } else {
      assert private[w := l][1..] == private[1..];
    }
  }

  lemma {:induction false} BusyUpdate(slots: seq<Slot>, w: nat, x: Slot)
    requires w < |slots|
    ensures BusyCount(slots[w := x])
         == BusyCount(slots) - (if slots[w].Busy? then 1 else 0) + (if x.Busy? then 1 else 0)
  {
    if w > 0 {
      assert slots[w := x][1..] == slots[1..][w - 1 := x];
      BusyUpdate(slots[1..], w - 1, x);
    } else {
      assert slots[w := x][1..] == slots[1..];
    }
  }

  lemma {:induction false} UnqueuedUpdate(s: seq<Job>, j: nat, job: Job)
    requires j < |s|
    ensures Unqueued(s[j := job])
         == Unqueued(s) - (if s[j].queued then 0 else 1) + (if job.queued then 0 else 1)
  {
    if j > 0 {
      assert s[j := job][1..] == s[1..][j - 1 := job];
      UnqueuedUpdate(s[1..], j - 1, job);
    } else {
      assert s[j := job][1..] == s[1..];
    }
  }

  // ---------------------------------------------------------------- what notifications do to it

  /** Queued entries and jobs that may still be queued. */
  function Stock(p: Pool): nat { |p.queue| + Unqueued(p.jobs) }

  lemma NotifyOneStock(p: Pool, k: nat)
    requires Refs(p) && k < |p.jobs| && NoTriggers(p)
    ensures Stock(NotifyOne(p, k)) == Stock(p) && NoTriggers(NotifyOne(p, k))
  {
    var q := NotifyOne(p, k);
    if q != p {
      UnqueuedUpdate(p.jobs, k, q.jobs[k]);
    }
  }

  lemma {:induction false} NotifyAllStock(p: Pool, l: seq<nat>)
    requires Refs(p) && Ids(|p.jobs|, l) && NoTriggers(p)
    ensures Stock(NotifyAll(p, l)) == Stock(p) && NoTriggers(NotifyAll(p, l))
    decreases |l|
  {
    hide NotifyOne, NoTriggers, Stock;
    if l != [] {
      NotifyOneStock(p, l[0]);
      NotifyAllStock(NotifyOne(p, l[0]), l[1..]);
    }
  }

  lemma NotifyStock(p: Pool, j: nat)
    requires Refs(p) && Kinds(p) && NoTriggers(p) && j < |p.jobs|
    ensures Stock(NotifyDeps(p, j)) == Stock(p) && NoTriggers(NotifyDeps(p, j))
  {
    hide NotifyAll, Stock;
    NotifyAllStock(p, p.jobs[j].notify);
    if p.jobs[j].triggers != [] {
      Chained(p, p.jobs[j].triggers);
    }
  }

  lemma Chained(p: Pool, l: seq<nat>)
    requires Ids(|p.jobs|, l) && Trig(p, l) && l != []
    ensures !NoTriggers(p)
  {
    assert p.jobs[l[0]].kind.Trigger();
  }

  /** The kinds of jobs do not change with their flags. */
  lemma PutStock(p: Pool, j: nat, job: Job)
    requires Refs(p) && Kinds(p) && NoTriggers(p) && j < |p.jobs|
    requires job == p.jobs[j].(running := job.running, done := job.done,
                               finishes := job.finishes, hasResult := job.hasResult)
    ensures var q := Put(p, j, job); Refs(q) && Kinds(q) && NoTriggers(q) && Stock(q) == Stock(p)
  {
    var q := Put(p, j, job);
    TouchRefs(p, q, j);
    TouchKinds(p, q, j);
    UnqueuedUpdate(p.jobs, j, job);
  }

  lemma FinishStock(p: Pool, j: nat, result: bool)
    requires Refs(p) && Kinds(p) && NoTriggers(p) && j < |p.jobs|
    ensures var q := FinishBody(p, j, result); Stock(q) == Stock(p) && NoTriggers(q)
  {
    hide Kinds, NoTriggers, Stock, NotifyDeps;
    PutStock(p, j, Finished(p.jobs[j], result));
    NotifyStock(Put(p, j, Finished(p.jobs[j], result)), j);
  }

  lemma SkipStock(p: Pool, j: nat)
    requires Refs(p) && Kinds(p) && NoTriggers(p) && j < |p.jobs|
    ensures var q := SkipBody(p, j); Stock(q) == Stock(p) && NoTriggers(q)
  {
    hide Kinds, NoTriggers, Stock, NotifyDeps;
    PutStock(p, j, p.jobs[j].(done := true));
    NotifyStock(Put(p, j, p.jobs[j].(done := true)), j);
  }

  /** Taking a job off a queue. */
  lemma TakeStock(p: Pool, w: nat, j: nat)
    requires Refs(p) && Kinds(p) && MayTake(p, w, j)
    ensures var q := Take(p, w, j);
      Refs(q) && q.jobs == p.jobs && j < |p.jobs| && Stock(q) + Total(q.private) + 1 == Stock(p) + Total(p.private)
  {
    TakeIsRefs(p, w, j);
    TakeCounts(p, w, j);
    if HasPrivate(p, w) {
      TotalUpdate(p.private, w, p.private[w][1..]);
    }
  }

  lemma TakeKinds(p: Pool, w: nat, j: nat)
    requires Refs(p) && Kinds(p) && MayTake(p, w, j) && Refs(Take(p, w, j))
    ensures Kinds(Take(p, w, j))
  {
    hide Take, Trig, Broadcasts, Refs;
    var q := Take(p, w, j);
    TakePrivate(p, w, j);
    forall k | 0 <= k < |q.jobs| ensures Ids(|q.jobs|, q.jobs[k].triggers) && Trig(q, q.jobs[k].triggers) {
      RefsAt(p, k);
      SameTrig(p, q, p.jobs[k].triggers);
    }
    forall v | 0 <= v < |q.private| ensures Ids(|q.jobs|, q.private[v]) && Broadcasts(q, q.private[v]) {
      PrivateRefs(p, v);
      TailBroadcasts(p, q, p.private[v], q.private[v]);
    }
  }

  lemma RefsAt(p: Pool, k: nat)
    requires Refs(p) && k < |p.jobs|
    ensures Ids(|p.jobs|, p.jobs[k].triggers)
  {
    assert JobRefs(|p.jobs|, p.jobs[k]);
  }

  lemma PrivateRefs(p: Pool, v: nat)
    requires Refs(p) && v < |p.private|
    ensures Ids(|p.jobs|, p.private[v])
  {
  }

  lemma SameTrig(p: Pool, q: Pool, l: seq<nat>)
    requires q.jobs == p.jobs && Ids(|p.jobs|, l) && Trig(p, l)
    ensures Trig(q, l)
  {
  }

  lemma TailBroadcasts(p: Pool, q: Pool, l: seq<nat>, m: seq<nat>)
    requires q.jobs == p.jobs && Ids(|p.jobs|, l) && Broadcasts(p, l) && (m == l || (l != [] && m == l[1..]))
    ensures Ids(|q.jobs|, m) && Broadcasts(q, m)
  {
  }

  lemma TakePrivate(p: Pool, w: nat, j: nat)
    requires MayTake(p, w, j)
    ensures var q := Take(p, w, j);
      q.jobs == p.jobs && q.jobid == p.jobid && |q.private| == |p.private|
      && forall v | 0 <= v < |p.private| ::
           q.private[v] == p.private[v] || (p.private[v] != [] && q.private[v] == p.private[v][1..])
  {
  }

  lemma StartStock(p: Pool, j: nat)
    requires NoTriggers(p) && j < |p.jobs|
    ensures var q := StartBody(p, j); Stock(q) == Stock(p) && NoTriggers(q) && q.private == p.private
  {
    UnqueuedUpdate(p.jobs, j, StartBody(p, j).jobs[j]);
  }

  // ---------------------------------------------------------------- every step

  lemma FinishWork(s: Sys, w: nat, result: bool, s': Sys)
    requires SysInv(s) && NoTriggers(s.pool) && Next(s, Finish(w, result), s')
    ensures Work(s') < Work(s) && NoTriggers(s'.pool) && s'.callers == s.callers && s'.closing == s.closing
  {
    hide FinishBody, Signals, NoTriggers, WorkersOk, BodiesOk, Locals, Edges, Progressing, Symmetric, Kinds;
    FinishStock(s.pool, s.slots[w].job, result);
    FinishBodyCounts(s.pool, s.slots[w].job, result);
    BusyUpdate(s.slots, w, Idle);
  }

  lemma TurnWork(s: Sys, w: nat, j: nat, s': Sys)
    requires SysInv(s) && NoTriggers(s.pool) && Next(s, Turn(w, j), s')
    ensures if Working(s, Turn(w, j)) then Work(s') < Work(s) else Work(s') == Work(s)
    ensures NoTriggers(s'.pool) && s'.callers == s.callers && s'.closing == s.closing
  {
    hide SkipBody, Signals, Take, WorkersOk, BodiesOk, Stable, Kinds, NoTriggers;
    if s.closing {
      BusyUpdate(s.slots, w, Gone);
    } else if Working(s, Turn(w, j)) {
      StableKinds(s.pool);
      TakeStock(s.pool, w, j);
      TakeKinds(s.pool, w, j);
      var q := Take(s.pool, w, j);
      SameTriggers(s.pool, q);
      if s.pool.jobs[j].cancelled {
        SkipStock(q, j);
        SkipBodyIsCalm(q, j);
      } else {
        StartStock(q, j);
        BusyUpdate(s.slots, w, Busy(j));
      }
    }
  }

  lemma StableKinds(p: Pool)
    requires Stable(p)
    ensures Refs(p) && Kinds(p)
  {
  }

  lemma SameTriggers(p: Pool, q: Pool)
    requires q.jobs == p.jobs && NoTriggers(p)
    ensures NoTriggers(q)
  {
  }

  lemma WorkStep(s: Sys, a: Action, s': Sys)
    requires SysInv(s) && NoTriggers(s.pool) && WorkerAct(a) && Next(s, a, s')
    ensures if Working(s, a) then Work(s') < Work(s) else Work(s') == Work(s)
    ensures NoTriggers(s'.pool) && s'.callers == s.callers && s'.closing == s.closing
  {
    hide SysInv, LoopBody, FinishBody;
    match a
    case Finish(w, result) => FinishWork(s, w, result, s');
    case Turn(w, j) => TurnWork(s, w, j, s');
    case Wake(_) =>
  }

  // ---------------------------------------------------------------- workers can go on while there is work

  /** Nothing is queued for all, and nobody executes a body. */
  ghost predicate AtEase(s: Sys) {
    s.pool.queue == multiset{} && forall w | 0 <= w < |s.slots| :: !s.slots[w].Busy?
  }

  /** A worker that is at the top of its loop, if none is occupied and there is global work. */
  lemma SomebodyAtTop(s: Sys) returns (w: nat)
    requires SysInv(s) && !s.closing && s.pool.queue != multiset{}
    requires |s.slots| > 0 && forall v | 0 <= v < |s.slots| :: s.slots[v].Idle?
    ensures AtTop(s, w)
  {
    hide Stable, BodiesOk;
    w := 0;
    if s.cond.asleep != {} {
      assert |s.pool.queue| > 0 && |s.cond.woken| > 0;
      w :| w in s.cond.woken;
    }
  }

  /** As long as the pool is not at ease, some worker can work. */
  lemma WorkGoesOn(s: Sys) returns (a: Action, s': Sys)
    requires SysInv(s) && !s.closing && |s.slots| > 0 && !AtEase(s)
    requires forall v | 0 <= v < |s.slots| :: s.slots[v] != Gone
    ensures WorkerAct(a) && Working(s, a) && Next(s, a, s')
  {
    hide SysInv, Next;
    if v :| 0 <= v < |s.slots| && s.slots[v].Busy? {
      a := Finish(v, false);
      s' := FinishGoesOn(s, v);
    } else {
      var w := SomebodyAtTop(s);
      a, s' := TakeGoesOn(s, w);
    }
  }

  lemma FinishGoesOn(s: Sys, v: nat) returns (s': Sys)
    requires SysInv(s) && v < |s.slots| && s.slots[v].Busy?
    ensures Next(s, Finish(v, false), s')
  {
    hide SysInv, FinishBody;
    BusyFacts(s, v);
    var q := FinishBody(s.pool, s.slots[v].job, false);
    FinishBodyCounts(s.pool, s.slots[v].job, false);
    var c := SignalsExist(s.cond, q.signals - s.pool.signals);
    s' := s.(pool := q, cond := c, slots := s.slots[v := Idle]);
  }

  lemma TakeGoesOn(s: Sys, w: nat) returns (a: Action, s': Sys)
    requires SysInv(s) && !s.closing && AtTop(s, w) && s.pool.queue != multiset{}
    ensures WorkerAct(a) && Working(s, a) && Next(s, a, s')
  {
    hide SysInv, Next, Take, SkipBody;
    SysStable(s);
    SomethingToTake(s.pool, w);
    var j: nat :| MayTake(s.pool, w, j);
    TakeIsRefs(s.pool, w, j);
    a := Turn(w, j);
    if s.pool.jobs[j].cancelled {
      s' := SkipGoesOn(s, w, j);
    } else {
      s' := StartGoesOn(s, w, j);
    }
  }

  lemma SkipGoesOn(s: Sys, w: nat, j: nat) returns (s': Sys)
    requires Refs(s.pool) && !s.closing && AtTop(s, w) && MayTake(s.pool, w, j) && j < |s.pool.jobs|
    requires s.pool.jobs[j].cancelled && Refs(Take(s.pool, w, j)) && Take(s.pool, w, j).jobs == s.pool.jobs
    requires s.pool.signals <= Take(s.pool, w, j).signals
    ensures Next(s, Turn(w, j), s')
  {
    hide Take, SkipBody, Refs, Next;
    var t := Take(s.pool, w, j);
    SkipBodyIsCalm(t, j);
    var q := SkipBody(t, j);
    var c := SignalsExist(s.cond.Resume(w), q.signals - s.pool.signals);
    s' := s.(pool := q, cond := c);
    SkipIsStep(s, w, j, s');
  }

  lemma StartGoesOn(s: Sys, w: nat, j: nat) returns (s': Sys)
    requires Refs(s.pool) && !s.closing && AtTop(s, w) && MayTake(s.pool, w, j) && j < |s.pool.jobs|
    requires !s.pool.jobs[j].cancelled && Refs(Take(s.pool, w, j)) && Take(s.pool, w, j).jobs == s.pool.jobs
    requires s.pool.signals <= Take(s.pool, w, j).signals
    ensures Next(s, Turn(w, j), s')
  {
    hide Take, Refs, Next;
    var q := StartBody(Take(s.pool, w, j), j);
    var c := SignalsExist(s.cond.Resume(w), q.signals - s.pool.signals);
    s' := s.(pool := q, cond := c, slots := s.slots[w := Busy(j)]);
    StartsIsStep(s, w, j, s');
  }

  lemma SomethingToTake(p: Pool, w: nat)
    requires p.queue != multiset{}
    ensures exists j: nat :: MayTake(p, w, j)
  {
    if HasPrivate(p, w) {
      assert MayTake(p, w, p.private[w][0]);
    } else {
      var j :| j in p.queue;
      assert MayTake(p, w, j);
    }
  }

  /** A pool at ease without triggers has done everything. */
  lemma EaseIsDone(s: Sys, j: nat)
    requires SysInv(s) && NoTriggers(s.pool) && s.callers == multiset{} && AtEase(s)
    requires j < |s.pool.jobs| && s.pool.jobs[j].pool && s.pool.jobs[j].Named()
    ensures s.pool.jobs[j].done
  {
    hide Stable, WorkersOk;
    forall k | 0 <= k < |s.pool.jobs| ensures s.pool.jobs[k].starts == s.pool.jobs[k].finishes {
      assert Busy(k) !in s.slots;
    }
    DrainedIsDone(s.pool, j);
  }

  // ---------------------------------------------------------------- whole runs

  /** Until the pool is shut down, all workers are there. */
  lemma {:induction false} AllThere(states: seq<Sys>, acts: seq<Action>, i: nat)
    requires Run(states, acts) && i < |states|
    ensures |states[i].slots| > 0
    ensures !states[i].closing ==> forall w | 0 <= w < |states[i].slots| :: states[i].slots[w] != Gone
  {
    hide Next;
    if i > 0 {
      AllThere(states, acts, i - 1);
      SlotsStay(states[i - 1], acts[i - 1], states[i]);
    }
  }

  lemma SlotsStay(s: Sys, a: Action, s': Sys)
    requires Next(s, a, s')
    ensures |s'.slots| == |s.slots| && (s.closing ==> s'.closing)
    ensures !s'.closing ==> forall w | 0 <= w < |s.slots| && s.slots[w] != Gone :: s'.slots[w] != Gone
  {
    hide FinishBody, ScheduleJobs, CancelJob, StartJob, UpdateTrigger, NewTriggerJob, SkipBody, Take, Signals, Fires;
    if a.Turn? {
      TurnStays(s, a.w, a.j, s');
    }
  }

  lemma TurnStays(s: Sys, w: nat, j: nat, s': Sys)
    requires Next(s, Turn(w, j), s')
    ensures |s'.slots| == |s.slots| && s'.closing == s.closing
    ensures !s'.closing ==> forall v | 0 <= v < |s.slots| && s.slots[v] != Gone :: s'.slots[v] != Gone
  {
    hide SkipBody, Take, Signals;
  }

  /** How many of the steps from the `i`-th on are work. */
  ghost function Worked(states: seq<Sys>, acts: seq<Action>, i: nat, k: nat): nat
    requires |states| == |acts| + 1 && i <= k <= |acts|
    decreases k
  {
    if k == i then 0 else Worked(states, acts, i, k - 1) + if Working(states[k - 1], acts[k - 1]) then 1 else 0
  }

  lemma {:induction false} WorkIsBounded(states: seq<Sys>, acts: seq<Action>, i: nat, k: nat)
    requires Run(states, acts) && i <= k <= |acts|
    requires forall m | i <= m < |acts| :: WorkerAct(acts[m])
    requires NoTriggers(states[i].pool)
    ensures Worked(states, acts, i, k) + Work(states[k]) <= Work(states[i])
    ensures NoTriggers(states[k].pool)
    ensures states[k].callers == states[i].callers && states[k].closing == states[i].closing
    decreases k
  {
    hide Next, SysInv, NoTriggers, Work, Init;
    if k > i {
      WorkIsBounded(states, acts, i, k - 1);
      RunKeeps(states, acts, k - 1);
      WorkStep(states[k - 1], acts[k - 1], states[k]);
    }
  }

  /** No worker can work. */
  ghost predicate Exhausted(s: Sys) {
    forall a, s' :: WorkerAct(a) && Working(s, a) ==> !Next(s, a, s')
  }

  /** From any reachable state without triggers in which callers leave the pool alone: however the
      workers are interleaved, the jobs they take and the bodies they finish are limited by the work
      there was, and when they cannot go on every job of the pool is done. */
  lemma WorkersDrain(states: seq<Sys>, acts: seq<Action>, i: nat)
    requires Run(states, acts) && i <= |acts|
    requires forall m | i <= m < |acts| :: WorkerAct(acts[m])
    requires NoTriggers(states[i].pool) && states[i].callers == multiset{} && !states[i].closing
    ensures Worked(states, acts, i, |acts|) <= Work(states[i])
    ensures var s := states[|acts|]; Exhausted(s) ==>
      forall j | 0 <= j < |s.pool.jobs| && s.pool.jobs[j].pool && s.pool.jobs[j].Named() :: s.pool.jobs[j].done
  {
    hide Next, SysInv, NoTriggers, Work, Init, AtEase;
    var s := states[|acts|];
    WorkIsBounded(states, acts, i, |acts|);
    RunKeeps(states, acts, |acts|);
    AllThere(states, acts, |acts|);
    if Exhausted(s) {
      if !AtEase(s) {
        var a, s' := WorkGoesOn(s);
        assert false;
      }
      forall j | 0 <= j < |s.pool.jobs| && s.pool.jobs[j].pool && s.pool.jobs[j].Named()
        ensures s.pool.jobs[j].done
      {
        EaseIsDone(s, j);
      }
    }
  }
}
