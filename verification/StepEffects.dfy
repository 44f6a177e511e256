/** What the other steps of a pool do, in terms of the fields alone: each lemma says what a step is
    for, not how it is computed. */
module StepEffects {
  import opened CondVar
  import opened Jobs
  import opened JobInvariant
  import opened Cancellation
  import opened CalmSteps
  import opened PoolRuns
  import opened PoolSteps
  import opened PoolInvariant
  import opened PoolTheorems
  import opened Continuations
  import opened PrematureStart

  /** The jobs that were there are as they were. */
  ghost predicate OldJobsStay(p: Pool, q: Pool) {
    |p.jobs| <= |q.jobs| && forall k | 0 <= k < |p.jobs| :: q.jobs[k] == p.jobs[k]
  }

  /** Nothing changes but job `j` and its places in the queue. */
  ghost predicate OnlyJob(p: Pool, q: Pool, j: nat) {
    && |q.jobs| == |p.jobs| && q.private == p.private
    && forall k | 0 <= k < |p.jobs| && k != j :: q.jobs[k] == p.jobs[k] && q.queue[k] == p.queue[k]
  }

  // ---------------------------------------------------------------- new jobs

  /** `createJob`: a plain job outside the pool, without edges. */
  lemma CreateEffect(s: Sys, s': Sys)
    requires Next(s, Create, s')
    ensures OldJobsStay(s.pool, s'.pool) && |s'.pool.jobs| == |s.pool.jobs| + 1 && s'.slots == s.slots
    ensures s'.pool.queue == s.pool.queue && s'.pool.private == s.pool.private
    ensures var job := s'.pool.jobs[|s.pool.jobs|];
      job.kind.Plain? && !job.pool && !job.done && !job.cancelled && job.starts == 0 && job.deps == job.notify == []
  {
  }

  /** `startJob`: the job is in the pool and, having no dependencies, in the global queue, once; a job
      that is in the pool already is left alone. */
  lemma StartEffect(s: Sys, j: nat, s': Sys)
    requires SysInv(s) && Next(s, Start(j), s')
    ensures j < |s.pool.jobs|
    ensures s.pool.jobs[j].pool ==> s'.pool == s.pool
    ensures !s.pool.jobs[j].pool ==>
      && OnlyJob(s.pool, s'.pool, j) && s'.pool.jobs[j].pool && !s'.pool.jobs[j].cancelled
      && s'.pool.queue[j] == 1
  {
    hide Signals, Locals, Edges, Progressing, Symmetric, Kinds, WorkersOk, BodiesOk;
    InvAt(s.pool, j, {}, {}, {});
  }

  /** `createTrigger`: a trigger of the given kind; it is queued at once if nothing is left to wait
      for. */
  lemma NewTriggerEffect(s: Sys, kind: Kind, s': Sys)
    requires SysInv(s) && Next(s, NewTrigger(kind), s')
    ensures OldJobsStay(s.pool, s'.pool) && |s'.pool.jobs| == |s.pool.jobs| + 1
    ensures var t := |s.pool.jobs|;
      && s'.pool.jobs[t].kind == kind && s'.pool.jobs[t].pool && !s'.pool.jobs[t].done
      && s'.pool.queue[t] == if kind == Count(0) || kind == Acc(0) then 1 else 0
  {
    hide Signals, Locals, Edges, Progressing, Symmetric, Kinds, WorkersOk, BodiesOk;
    assert |s.pool.jobs| !in s.pool.queue;
  }

  /** `threadPoolExec`: one new job stands at the end of every private queue. */
  lemma ExecEffect(s: Sys, s': Sys)
    requires Next(s, Exec, s')
    ensures OldJobsStay(s.pool, s'.pool) && |s'.pool.jobs| == |s.pool.jobs| + 1
    ensures s'.pool.jobs[|s.pool.jobs|].kind.Broadcast? && s'.pool.jobs[|s.pool.jobs|].pool
    ensures |s'.pool.private| == |s.pool.private| && s'.pool.queue == s.pool.queue
    ensures forall w | 0 <= w < |s.pool.private| :: s'.pool.private[w] == s.pool.private[w] + [|s.pool.jobs|]
  {
  }

  /** `chainTrigger`: the trigger is appended to the list of the job. */
  lemma ChainEffect(s: Sys, t: nat, j: nat, s': Sys)
    requires Next(s, Chain(t, j), s')
    ensures OnlyJob(s.pool, s'.pool, j) && s'.pool.queue == s.pool.queue
    ensures j < |s.pool.jobs| && s'.pool.jobs[j] == s.pool.jobs[j].(triggers := s.pool.jobs[j].triggers + [t])
  {
  }

  // ---------------------------------------------------------------- bodies

  /** A dependent that may run has been queued, or has even been started. */
  ghost predicate Served(p: Pool, k: nat)
    requires k < |p.jobs|
  {
    p.queue[k] > 0 || p.jobs[k].starts > 0
  }

  /** In every state, whatever has only done dependencies and is neither cancelled nor a trigger has
      been served. */
  lemma AllDoneServed(s: Sys, k: nat)
    requires SysInv(s) && k < |s.pool.jobs| && s.pool.jobs[k].kind.Plain? && s.pool.jobs[k].pool
    requires !s.pool.jobs[k].cancelled
    requires forall d | d in s.pool.jobs[k].deps ::
               d < |s.pool.jobs| && s.pool.jobs[d].done && s.pool.jobs[d].starts > 0
    ensures Served(s.pool, k)
  {
    InvAt(s.pool, k, {}, {}, {});
    assert DepsRun(s.pool, k) && ProgressOk(s.pool, k);
  }

  lemma FinishedFlags(p: Pool, e: nat, result: bool)
    requires Refs(p) && e < |p.jobs|
    ensures var q := FinishBody(p, e, result);
      && |q.jobs| == |p.jobs| && q.jobs[e].done && !q.jobs[e].running
      && q.jobs[e].finishes == p.jobs[e].finishes + 1
      && (q.jobs[e].hasResult <==> p.jobs[e].hasResult || result)
      && (forall k | 0 <= k < |p.jobs| && k != e ::
            && q.jobs[k].done == p.jobs[k].done && q.jobs[k].running == p.jobs[k].running
            && q.jobs[k].cancelled == p.jobs[k].cancelled && q.jobs[k].hasResult == p.jobs[k].hasResult)
  {
    hide NotifyDeps;
    var m := Put(p, e, Finished(p.jobs[e], result));
    TouchRefs(p, m, e);
    NotifyDepsPushes(m, e);
    forall k | 0 <= k < |p.jobs| ensures Replayed(m.jobs[k], NotifyDeps(m, e).jobs[k]) {
    }
  }

  lemma SkippedFlags(p: Pool, e: nat)
    requires Refs(p) && e < |p.jobs|
    ensures var q := SkipBody(p, e);
      && |q.jobs| == |p.jobs| && q.jobs[e].done && q.jobs[e].running == p.jobs[e].running
      && (forall k | 0 <= k < |p.jobs| ::
            && q.jobs[k].starts == p.jobs[k].starts && q.jobs[k].finishes == p.jobs[k].finishes
            && q.jobs[k].cancelled == p.jobs[k].cancelled && q.jobs[k].hasResult == p.jobs[k].hasResult
            && (k != e ==> q.jobs[k].done == p.jobs[k].done))
  {
    hide NotifyDeps;
    var m := Put(p, e, p.jobs[e].(done := true));
    TouchRefs(p, m, e);
    NotifyDepsPushes(m, e);
    forall k | 0 <= k < |p.jobs| ensures Replayed(m.jobs[k], NotifyDeps(m, e).jobs[k]) {
    }
  }

  /** A body returns: the worker is free, the job is done and keeps any result, and no other job is
      finished or cancelled by that. */
  lemma FinishEffect(s: Sys, w: nat, result: bool, s': Sys)
    requires SysInv(s) && Next(s, Finish(w, result), s')
    ensures w < |s.slots| && s.slots[w].Busy? && s'.slots == s.slots[w := Idle]
    ensures var e := s.slots[w].job;
      && e < |s.pool.jobs| == |s'.pool.jobs| && s'.pool.jobs[e].done && !s'.pool.jobs[e].running
      && s'.pool.jobs[e].finishes == s.pool.jobs[e].finishes + 1
      && (s'.pool.jobs[e].hasResult <==> s.pool.jobs[e].hasResult || result)
      && (forall k | 0 <= k < |s.pool.jobs| && k != e ::
            s'.pool.jobs[k].done == s.pool.jobs[k].done && s'.pool.jobs[k].cancelled == s.pool.jobs[k].cancelled)
  {
    hide FinishBody, Signals, WorkersOk, BodiesOk, Stable;
    FinishedFlags(s.pool, s.slots[w].job, result);
  }

  lemma TakenQueue(p: Pool, w: nat, j: nat)
    requires MayTake(p, w, j)
    ensures var q := Take(p, w, j);
      && q.jobs == p.jobs && |q.private| == |p.private|
      && (if w < |p.private| && p.private[w] != []
          then j == p.private[w][0] && q.private == p.private[w := p.private[w][1..]] && q.queue == p.queue
          else p.queue[j] > 0 && q.queue == p.queue - multiset{j} && q.private == p.private)
  {
  }

  /** A round of a worker's loop begins: it leaves if the pool is shutting down, sleeps if there is
      nothing for it, and otherwise takes the first job of its private queue or, if that is empty, a
      job from the global queue; it starts the body, unless the job has been cancelled. */
  lemma TurnEffect(s: Sys, w: nat, j: nat, s': Sys)
    requires SysInv(s) && Next(s, Turn(w, j), s')
    ensures w < |s.slots| && s.slots[w].Idle? && w < |s.pool.private|
    ensures s.closing ==> s'.pool == s.pool && s'.slots == s.slots[w := Gone] && s'.counter == s.counter + 1
    ensures !s.closing && s.pool.private[w] == [] && s.pool.queue == multiset{} ==>
      s'.pool == s.pool && s'.slots == s.slots && w in s'.cond.asleep
    ensures !s.closing && (s.pool.private[w] != [] || s.pool.queue != multiset{}) ==>
      && j < |s.pool.jobs| == |s'.pool.jobs|
      && (if s.pool.private[w] != []
          then j == s.pool.private[w][0] && s'.pool.private == s.pool.private[w := s.pool.private[w][1..]]
          else s.pool.queue[j] > 0 && s'.pool.private == s.pool.private)
      && (if s.pool.jobs[j].cancelled
          then s'.slots == s.slots && s'.pool.jobs[j].done && s'.pool.jobs[j].starts == s.pool.jobs[j].starts
          else s'.slots == s.slots[w := Busy(j)] && s'.pool.jobs[j].running
               && s'.pool.jobs[j].starts == s.pool.jobs[j].starts + 1
               && s'.pool.queue == if s.pool.private[w] != [] then s.pool.queue else s.pool.queue - multiset{j})
  {
    hide SkipBody, Signals, Take, Stable, BodiesOk;
    if !s.closing && (s.pool.private[w] != [] || s.pool.queue != multiset{}) {
      TakenQueue(s.pool, w, j);
      if s.pool.jobs[j].cancelled {
        SkippedFlags(Take(s.pool, w, j), j);
        SkipBodyIsCalm(Take(s.pool, w, j), j);
      }
    }
  }

  /** `shutdown` that waits does so until the global queue is empty; from then on the pool is closing
      and nobody sleeps. */
  lemma CloseEffect(s: Sys, wait: bool, s': Sys)
    requires SysInv(s) && Next(s, Close(wait), s')
    ensures wait ==> s.pool.queue == multiset{}
    ensures s'.closing && s'.pool == s.pool && s'.slots == s.slots && s'.cond.asleep == {}
  {
    hide Stable, BodiesOk;
    CloseStep(s, s');
  }

  // ---------------------------------------------------------------- the job of threadPoolExec

  /** Whether this step is worker `w` taking job `j` off its private queue. */
  predicate TakesPrivate(s: Sys, a: Action, w: nat, j: nat) {
    a == Turn(w, j) && !s.closing && w < |s.pool.private| && s.pool.private[w] != []
  }

  lemma NextPrivate(s: Sys, a: Action, s': Sys, w: nat, j: nat)
    requires SysInv(s) && Next(s, a, s') && w < |s.slots| && j < |s.pool.jobs|
    ensures |s'.slots| == |s.slots| && w < |s.pool.private| && w < |s'.pool.private|
    ensures multiset(s'.pool.private[w])[j] + (if TakesPrivate(s, a, w, j) then 1 else 0)
         == multiset(s.pool.private[w])[j]
  {
    hide FinishBody, ScheduleJobs, CancelJob, AttachJob, UpdateTrigger, NewTriggerJob, Signals, LoopBody, Fires;
    hide Stable, BodiesOk, Calm;
    match a
    case Turn(v, e) => TurnPrivate(s, v, e, s', w, j);
    case Exec =>
      var l := s.pool.private[w];
      assert multiset(l + [|s.pool.jobs|]) == multiset(l) + multiset{|s.pool.jobs|};
    case Finish(v, result) => FinishBodyCounts(s.pool, s.slots[v].job, result);
    case Return(t) => FinishBodyCounts(s.pool, t, s.pool.jobs[t].kind.Acc?);
    case Update(t, units) => UpdateCounts(s.pool, t, units);
    case Start(k) => if !s.pool.jobs[k].pool { AttachIsCalm(s.pool, k); CalmCounts(s.pool, s'.pool); }
    case NewTrigger(kind) => NewTriggerPrivate(s.pool, kind);
    case Cancel(k) => CancelIsCalm(s.pool, k); CalmCounts(s.pool, s'.pool);
    case Schedule(js, ds) =>
      HandlesAreIds(s.pool, js);
      HandlesAreIds(s.pool, ds);
      ScheduleIsCalm(s.pool, js, ds);
      CalmCounts(s.pool, s'.pool);
    case _ =>
  }

  lemma NewTriggerPrivate(p: Pool, kind: Kind)
    requires Refs(p) && kind.Trigger()
    ensures NewTriggerJob(p, kind).private == p.private
  {
  }

  lemma TurnPrivate(s: Sys, v: nat, e: nat, s': Sys, w: nat, j: nat)
    requires SysInv(s) && Next(s, Turn(v, e), s') && w < |s.slots|
    ensures |s'.slots| == |s.slots| && w < |s.pool.private| && w < |s'.pool.private|
    ensures multiset(s'.pool.private[w])[j] + (if TakesPrivate(s, Turn(v, e), w, j) then 1 else 0)
         == multiset(s.pool.private[w])[j]
  {
    hide Stable, BodiesOk, Next;
    TurnEffect(s, v, e, s');
    if !s.closing && s.pool.private[v] != [] {
      var l := s.pool.private[v];
      assert multiset(l) == multiset{l[0]} + multiset(l[1..]) by { assert l == [l[0]] + l[1..]; }
    }
  }

  /** How often worker `w` took job `j` off its private queue between steps `i` and `k`. */
  function TakenPrivately(states: seq<Sys>, acts: seq<Action>, i: nat, k: nat, w: nat, j: nat): nat
    requires |states| == |acts| + 1 && i <= k <= |acts|
    decreases k
  {
    if k == i then 0
    else TakenPrivately(states, acts, i, k - 1, w, j) + if TakesPrivate(states[k - 1], acts[k - 1], w, j) then 1 else 0
  }

  lemma {:induction false} PrivateCounts(states: seq<Sys>, acts: seq<Action>, i: nat, k: nat, w: nat, j: nat)
    requires Run(states, acts) && i <= k < |states| && w < |states[i].slots| && j < |states[i].pool.jobs|
    ensures |states[k].slots| == |states[i].slots| && j < |states[k].pool.jobs|
    ensures w < |states[k].pool.private| && w < |states[i].pool.private|
    ensures TakenPrivately(states, acts, i, k, w, j) + multiset(states[k].pool.private[w])[j]
         == multiset(states[i].pool.private[w])[j]
    decreases k
  {
    hide Next, Init, SysInv, TakesPrivate;
    if i < k {
      PrivateCounts(states, acts, i, k - 1, w, j);
      RunKeeps(states, acts, k - 1);
      NextPrivate(states[k - 1], acts[k - 1], states[k], w, j);
      NextIsLater(states[k - 1], acts[k - 1], states[k]);
    } else {
      RunKeeps(states, acts, i);
      PrivateQueues(states[i], w);
    }
  }

  lemma PrivateQueues(s: Sys, w: nat)
    requires SysInv(s) && w < |s.slots|
    ensures w < |s.pool.private|
  {
  }

  /** `threadPoolExec` reaches every worker once: at every later moment of the run each worker has
      either taken the new job exactly once or still has it in its private queue. */
  lemma ExecOncePerWorker(states: seq<Sys>, acts: seq<Action>, i: nat, k: nat, w: nat)
    requires Run(states, acts) && i < |acts| && acts[i] == Exec && i < k < |states| && w < |states[i].slots|
    ensures |states[i + 1].slots| == |states[i].slots| && w < |states[k].pool.private|
    ensures var j := |states[i].pool.jobs|;
      && j < |states[i + 1].pool.jobs| && states[i + 1].pool.jobs[j].kind.Broadcast?
      && TakenPrivately(states, acts, i + 1, k, w, j) + multiset(states[k].pool.private[w])[j] == 1
  {
    hide Init, SysInv, TakesPrivate;
    var j := |states[i].pool.jobs|;
    RunKeeps(states, acts, i);
    PrivateQueues(states[i], w);
    ExecEffect(states[i], states[i + 1]);
    NotYetThere(states[i], w);
    var l := states[i].pool.private[w];
    assert multiset(l + [j]) == multiset(l) + multiset{j};
    hide Next;
    PrivateCounts(states, acts, i + 1, k, w, j);
  }

  lemma NotYetThere(s: Sys, w: nat)
    requires SysInv(s) && w < |s.slots|
    ensures w < |s.pool.private| && multiset(s.pool.private[w])[|s.pool.jobs|] == 0
  {
    assert Ids(|s.pool.jobs|, s.pool.private[w]);
    assert |s.pool.jobs| !in s.pool.private[w];
  }

  // ---------------------------------------------------------------- cancelled jobs

  lemma FinishPushes(p: Pool, e: nat, result: bool)
    requires Refs(p) && e < |p.jobs| && p.jobs[e].cancelled && p.jobs[e].kind.Plain?
    ensures FinishBody(p, e, result).jobs[e].pushes == p.jobs[e].pushes
  {
    hide NotifyDeps;
    var m := Put(p, e, Finished(p.jobs[e], result));
    TouchRefs(p, m, e);
    NotifyDepsPushes(m, e);
    assert Replayed(m.jobs[e], NotifyDeps(m, e).jobs[e]);
  }

  lemma SkipPushes(p: Pool, e: nat)
    requires Refs(p) && e < |p.jobs| && p.jobs[e].cancelled && p.jobs[e].kind.Plain?
    ensures SkipBody(p, e).jobs[e].pushes == p.jobs[e].pushes
  {
    hide NotifyDeps;
    var m := Put(p, e, p.jobs[e].(done := true));
    TouchRefs(p, m, e);
    NotifyDepsPushes(m, e);
    assert Replayed(m.jobs[e], NotifyDeps(m, e).jobs[e]);
  }

  lemma TurnPushes(s: Sys, w: nat, e: nat, s': Sys)
    requires Next(s, Turn(w, e), s') && e < |s.pool.jobs| && s.pool.jobs[e].cancelled && s.pool.jobs[e].kind.Plain?
    ensures e < |s'.pool.jobs| && s'.pool.jobs[e].pushes == s.pool.jobs[e].pushes
  {
    hide SkipBody, Signals, Take;
    if s'.pool != s.pool {
      TakenQueue(s.pool, w, e);
      SkipPushes(Take(s.pool, w, e), e);
      SkipBodyIsCalm(Take(s.pool, w, e), e);
    }
  }

  lemma OwnPushes(s: Sys, a: Action, s': Sys, k: nat)
    requires Next(s, a, s') && k < |s.pool.jobs| && s.pool.jobs[k].cancelled && s.pool.jobs[k].kind.Plain?
    requires !PassesBy(s, a, s', k)
    ensures k < |s'.pool.jobs| && s'.pool.jobs[k].pushes == s.pool.jobs[k].pushes
  {
    hide FinishBody, ScheduleJobs, CancelJob, StartJob, UpdateTrigger, NewTriggerJob, Signals, LoopBody;
    match a
    case Finish(w, result) => FinishPushes(s.pool, k, result); FinishBodyCounts(s.pool, k, result);
    case Return(t) =>
      FinishPushes(s.pool, k, s.pool.jobs[t].kind.Acc?);
      FinishBodyCounts(s.pool, k, s.pool.jobs[t].kind.Acc?);
    case Turn(w, e) => TurnPushes(s, w, k, s');
  }

  /** A job that has been cancelled never enters the global queue again. */
  lemma {:induction false} CancelledNotQueued(states: seq<Sys>, acts: seq<Action>, i: nat, k: nat, j: nat)
    requires Run(states, acts) && i <= k < |states| && j < |states[i].pool.jobs|
    requires states[i].pool.jobs[j].cancelled && states[i].pool.jobs[j].kind.Plain?
    ensures j < |states[k].pool.jobs| && states[k].pool.jobs[j].cancelled && states[k].pool.jobs[j].kind.Plain?
    ensures states[k].pool.jobs[j].pushes == states[i].pool.jobs[j].pushes
    decreases k
  {
    hide Next, Init, SysInv, PassesBy;
    if i < k {
      CancelledNotQueued(states, acts, i, k - 1, j);
      var s, a, s' := states[k - 1], acts[k - 1], states[k];
      RunKeeps(states, acts, k - 1);
      NextIsLater(s, a, s');
      assert Later(s.pool.jobs[j], s'.pool.jobs[j]);
      CancelledPooled(s, j);
      if PassesBy(s, a, s', j) {
        NextSteady(s, a, s', j);
      } else {
        OwnPushes(s, a, s', j);
      }
    }
  }

  lemma CancelledPooled(s: Sys, j: nat)
    requires SysInv(s) && j < |s.pool.jobs| && s.pool.jobs[j].cancelled
    ensures s.pool.jobs[j].pool
  {
    InvAt(s.pool, j, {}, {}, {});
  }
}
