/** What holds in every run of a thread pool. */
module PoolTheorems {
  import opened CondVar
  import opened Jobs
  import opened JobInvariant
  import opened Cancellation
  import opened CalmSteps
  import opened PoolRuns
  import opened PoolInvariant

  // ---------------------------------------------------------------- order of execution

  /** When the body of a job has started, all its dependencies are done and have been started, and
      the body of each has returned, unless that dependency was cancelled while it was running and
      still is.  Such a dependency is a trigger, the job of `threadPoolExec`, or was queued twice. */
  lemma StartedAfterDependencies(states: seq<Sys>, acts: seq<Action>, i: nat, j: nat, d: nat)
    requires Run(states, acts) && i < |states|
    requires j < |states[i].pool.jobs| && d in states[i].pool.jobs[j].deps && d < |states[i].pool.jobs|
    requires states[i].pool.jobs[j].starts > 0
    ensures var dep := states[i].pool.jobs[d];
      && dep.done && dep.starts > 0
      && (dep.finishes > 0
          || (dep.cancelled && dep.running && Executing(states[i], d) > 0
              && (dep.kind.Plain? ==> dep.pushes > 1 && !dep.late)))
  {
    var p := states[i].pool;
    RunKeeps(states, acts, i);
    InvAt(p, d, {}, {}, {});
    assert EdgeOk(p.jobs[j], p.queue[j], p.jobs[d], d in {} || j in {});
  }

  // ---------------------------------------------------------------- progress

  /** Each job of the path depends on the next. */
  ghost predicate DepPath(p: Pool, path: seq<nat>) {
    && path != [] && Ids(|p.jobs|, path)
    && (forall i | 0 <= i < |path| - 1 :: path[i + 1] in p.jobs[path[i]].deps)
  }

  /** A trigger that still needs activations. */
  ghost predicate Unfired(job: Job) {
    job.kind.Trigger() && !job.kind.Fired() && !job.done && !job.cancelled
  }

  ghost predicate DependsOnUnfired(p: Pool, j: nat) {
    exists path :: DepPath(p, path) && path[0] == j && Unfired(p.jobs[path[|path| - 1]])
  }

  ghost predicate AtRest(p: Pool) {
    p.queue == multiset{} && forall j | 0 <= j < |p.jobs| :: p.jobs[j].starts == p.jobs[j].finishes
  }

  ghost predicate Outstanding(job: Job) {
    job.pool && job.Named() && !job.cancelled && !job.done
  }

  lemma OutstandingDependency(p: Pool, j: nat) returns (d: nat)
    requires Stable(p) && AtRest(p) && j < |p.jobs| && Outstanding(p.jobs[j]) && p.jobs[j].kind.Fired()
    ensures d < |p.jobs| && d in p.jobs[j].deps && Outstanding(p.jobs[d])
    ensures 0 <= p.jobs[d].id < p.jobs[j].id
  {
    InvAt(p, j, {}, {}, {});
    assert !DepsRun(p, j);
    d :| d in p.jobs[j].deps && !(p.jobs[d].done && p.jobs[d].starts > 0);
    InvAt(p, d, {}, {}, {});
    assert EdgeOk(p.jobs[j], p.queue[j], p.jobs[d], d in {} || j in {});
  }

  /** In a pool at rest, whatever is not finished waits for a trigger that has not fired. */
  lemma {:induction false} Progress(p: Pool, j: nat)
    requires Stable(p) && AtRest(p) && j < |p.jobs| && Outstanding(p.jobs[j])
    ensures DependsOnUnfired(p, j)
    decreases p.jobs[j].id
  {
    hide Stable, AtRest;
    if !p.jobs[j].kind.Fired() {
      assert DepPath(p, [j]) && [j][0] == j && Unfired(p.jobs[[j][|[j]| - 1]]);
    } else {
      var d := OutstandingDependency(p, j);
      Progress(p, d);
      var path :| DepPath(p, path) && path[0] == d && Unfired(p.jobs[path[|path| - 1]]);
      var longer := [j] + path;
      forall i | 0 <= i < |longer| - 1 ensures longer[i + 1] in p.jobs[longer[i]].deps {
        if i > 0 {
          assert path[i] in p.jobs[path[i - 1]].deps;
        }
      }
      assert DepPath(p, longer) && longer[0] == j && Unfired(p.jobs[longer[|longer| - 1]]);
    }
  }

  /** The same for a state of a run: the lock is free, nobody executes a body and the global queue
      is empty. */
  lemma RunProgress(states: seq<Sys>, acts: seq<Action>, i: nat, j: nat)
    requires Run(states, acts) && i < |states|
    requires states[i].pool.queue == multiset{} && states[i].callers == multiset{}
    requires forall w | 0 <= w < |states[i].slots| :: !states[i].slots[w].Busy?
    requires j < |states[i].pool.jobs| && Outstanding(states[i].pool.jobs[j])
    ensures DependsOnUnfired(states[i].pool, j)
  {
    var s := states[i];
    RunKeeps(states, acts, i);
    forall k | 0 <= k < |s.pool.jobs| ensures s.pool.jobs[k].starts == s.pool.jobs[k].finishes {
      assert Busy(k) !in s.slots;
    }
    Progress(s.pool, j);
  }

  // ---------------------------------------------------------------- at most once

  /** A job scheduled while a dependency was unfinished enters the global queue at most once in the
      whole run, and its body starts at most once. */
  lemma AtMostOnce(states: seq<Sys>, acts: seq<Action>, i: nat, j: nat)
    requires Run(states, acts) && i < |states|
    requires j < |states[i].pool.jobs| && states[i].pool.jobs[j].late
    ensures var job := states[i].pool.jobs[j];
      job.pushes <= 1 && job.starts + states[i].pool.queue[j] <= 1 && Executing(states[i], j) <= 1
  {
    RunKeeps(states, acts, i);
    InvAt(states[i].pool, j, {}, {}, {});
  }

  // ---------------------------------------------------------------- wake-ups and shutdown

  /** No worker sleeps on available work, and none sleeps through a shutdown. */
  lemma NoIdleSleep(states: seq<Sys>, acts: seq<Action>, i: nat)
    requires Run(states, acts) && i < |states| && states[i].cond.asleep != {}
    ensures !states[i].closing && |states[i].pool.queue| <= |states[i].cond.woken|
  {
    RunKeeps(states, acts, i);
  }

  /** `shutdown_counter` counts the workers that left their loop. */
  lemma ShutdownCount(states: seq<Sys>, acts: seq<Action>, i: nat)
    requires Run(states, acts) && i < |states|
    ensures states[i].counter == multiset(states[i].slots)[Gone] <= |states[i].slots|
    ensures states[i].counter == |states[i].slots| ==>
              forall w | 0 <= w < |states[i].slots| :: states[i].slots[w] == Gone
  {
    RunKeeps(states, acts, i);
    AllGone(states[i].slots);
  }

  /** Workers that left never come back. */
  lemma GoneStays(s: Sys, a: Action, s': Sys)
    requires Next(s, a, s') && forall w | 0 <= w < |s.slots| :: s.slots[w] == Gone
    ensures !a.Turn? && !a.Finish? && s'.slots == s.slots && s'.counter == s.counter
  {
  }

  /** Once `shutdown` has passed its second loop, no worker is inside a body and none takes a job
      any more. */
  lemma {:induction false} ShutdownFinal(states: seq<Sys>, acts: seq<Action>, i: nat, k: nat)
    requires Run(states, acts) && i <= k < |states| && states[i].counter >= |states[i].slots|
    ensures states[k].slots == states[i].slots && states[k].counter == states[i].counter
    ensures forall w | 0 <= w < |states[k].slots| :: states[k].slots[w] == Gone
    ensures k < |acts| ==> !acts[k].Turn? && !acts[k].Finish?
    decreases k
  {
    hide SysInv, Next, Init;
    if k == i {
      ShutdownCount(states, acts, i);
    } else {
      ShutdownFinal(states, acts, i, k - 1);
      GoneStays(states[k - 1], acts[k - 1], states[k]);
    }
    if k < |acts| {
      GoneStays(states[k], acts[k], states[k + 1]);
    }
  }

  // ---------------------------------------------------------------- history

  ghost predicate AllLater(p: Pool, q: Pool) {
    |p.jobs| <= |q.jobs| && forall j | 0 <= j < |p.jobs| :: Later(p.jobs[j], q.jobs[j])
  }

  lemma CalmIsLater(p: Pool, q: Pool)
    requires Calm(p, q)
    ensures AllLater(p, q)
  {
    forall j | 0 <= j < |p.jobs| ensures Later(p.jobs[j], q.jobs[j]) {
      assert CalmJob(p.jobs[j], q.jobs[j]);
    }
  }

  lemma LaterTransitive(p: Pool, q: Pool, r: Pool)
    requires AllLater(p, q) && AllLater(q, r)
    ensures AllLater(p, r)
  {
    forall j | 0 <= j < |p.jobs| ensures Later(p.jobs[j], r.jobs[j]) {
      assert Later(p.jobs[j], q.jobs[j]) && Later(q.jobs[j], r.jobs[j]);
    }
  }

  lemma PutIsLater(p: Pool, j: nat, job: Job)
    requires j < |p.jobs| && Later(p.jobs[j], job)
    ensures AllLater(p, Put(p, j, job))
  {
  }

  lemma FinishIsLater(p: Pool, j: nat, result: bool)
    requires Refs(p) && j < |p.jobs|
    ensures AllLater(p, FinishBody(p, j, result))
  {
    hide NotifyDeps;
    var m := Put(p, j, Finished(p.jobs[j], result));
    TouchRefs(p, m, j);
    PutIsLater(p, j, Finished(p.jobs[j], result));
    NotifyDepsIsCalm(m, j);
    CalmIsLater(m, FinishBody(p, j, result));
    LaterTransitive(p, m, FinishBody(p, j, result));
  }

  lemma UpdateIsLater(p: Pool, t: nat, units: nat)
    requires Refs(p) && t < |p.jobs|
    ensures AllLater(p, UpdateTrigger(p, t, units))
  {
    hide SkipBody;
    if Accepts(p.jobs[t].kind, units > 0) {
      var q := Put(p, t, Activated(p.jobs[t], units));
      TouchRefs(p, q, t);
      PutIsLater(p, t, Activated(p.jobs[t], units));
      if Ready(q, t) && q.jobs[t].cancelled {
        SkipBodyIsCalm(q, t);
        CalmIsLater(q, SkipBody(q, t));
        LaterTransitive(p, q, SkipBody(q, t));
      }
    }
  }

  lemma TurnIsLater(s: Sys, w: nat, j: nat, s': Sys)
    requires Next(s, Turn(w, j), s')
    ensures AllLater(s.pool, s'.pool)
  {
    hide SkipBody, Signals, Take;
    if s'.pool != s.pool {
      TakeCounts(s.pool, w, j);
      if s.pool.jobs[j].cancelled {
        SkipBodyIsCalm(Take(s.pool, w, j), j);
        CalmIsLater(Take(s.pool, w, j), s'.pool);
      }
    }
  }

  lemma NewTriggerIsLater(p: Pool, kind: Kind)
    requires Refs(p) && kind.Trigger()
    ensures AllLater(p, NewTriggerJob(p, kind))
  {
    hide AttachJob;
    var q := AddJob(p, NEW_JOB.(kind := kind));
    forall k | 0 <= k < |q.jobs| ensures JobRefs(|q.jobs|, q.jobs[k]) {
      assert k < |p.jobs| ==> JobRefs(|p.jobs|, p.jobs[k]);
    }
    AttachIsCalm(q, |p.jobs|);
    CalmIsLater(q, NewTriggerJob(p, kind));
    LaterTransitive(p, q, NewTriggerJob(p, kind));
  }

  lemma ApiIsLater(s: Sys, a: Action, s': Sys)
    requires Next(s, a, s') && (a.NewTrigger? || a.Start? || a.Schedule? || a.Cancel? || a.Update?)
    ensures AllLater(s.pool, s'.pool)
  {
    hide FinishBody, ScheduleJobs, CancelJob, AttachJob, UpdateTrigger, NewTriggerJob, Signals, AllLater, Fires;
    var p := s.pool;
    match a
    case NewTrigger(kind) => NewTriggerIsLater(p, kind);
    case Start(j) => StartIsLater(p, j);
    case Schedule(js, ds) => ScheduleIsLater(p, js, ds);
    case Cancel(j) => CancelIsCalm(p, j); CalmIsLater(p, s'.pool);
    case Update(t, units) => UpdateIsLater(p, t, units);
  }

  lemma StartIsLater(p: Pool, j: nat)
    requires Refs(p) && j < |p.jobs|
    ensures AllLater(p, StartJob(p, j))
  {
    hide AttachJob;
    if !p.jobs[j].pool {
      AttachIsCalm(p, j);
      CalmIsLater(p, AttachJob(p, j));
    }
  }

  lemma NextIsLater(s: Sys, a: Action, s': Sys)
    requires Next(s, a, s')
    ensures AllLater(s.pool, s'.pool)
  {
    hide LoopBody, FinishBody, ScheduleJobs, CancelJob, StartJob, UpdateTrigger, NewTriggerJob, Signals, Fires;
    match a
    case Return(t) => FinishIsLater(s.pool, t, s.pool.jobs[t].kind.Acc?);
    case Finish(w, result) => FinishIsLater(s.pool, s.slots[w].job, result);
    case Turn(w, j) => TurnIsLater(s, w, j, s');
    case Create =>
    case Chain(_, _) =>
    case Exec =>
    case Wake(_) =>
    case Close(_) =>
    case Recheck =>
    case _ => ApiIsLater(s, a, s');
  }

  lemma ScheduleIsLater(p: Pool, js: seq<nat>, ds: seq<nat>)
    requires Refs(p) && Handles(p, js) && Handles(p, ds)
    ensures Ids(|p.jobs|, js) && Ids(|p.jobs|, ds)
    ensures AllLater(p, ScheduleJobs(p, js, ds))
  {
    hide ScheduleJobs;
    forall i | 0 <= i < |js| ensures js[i] < |p.jobs| { assert Handle(p, js[i]); }
    forall i | 0 <= i < |ds| ensures ds[i] < |p.jobs| { assert Handle(p, ds[i]); }
    ScheduleIsCalm(p, js, ds);
    CalmIsLater(p, ScheduleJobs(p, js, ds));
  }

  /** Along a run, what has been done, cancelled or queued stays so, counts only grow, a cancelled
      job never starts again, and the dependencies of a scheduled job never change. */
  lemma {:induction false} HistoryGrows(states: seq<Sys>, acts: seq<Action>, i: nat, k: nat)
    requires Run(states, acts) && i <= k < |states|
    ensures AllLater(states[i].pool, states[k].pool)
    decreases k
  {
    hide Next, Init;
    if i < k {
      HistoryGrows(states, acts, i, k - 1);
      NextIsLater(states[k - 1], acts[k - 1], states[k]);
      LaterTransitive(states[i].pool, states[k - 1].pool, states[k].pool);
    }
  }

  // ---------------------------------------------------------------- cancellation

  /** In any run, cancelling a job cancels exactly what it hits.  Nothing that is cancelled starts
      again, and if the job was neither running nor done, all it hits is done without ever
      starting. */
  lemma CancelInRun(states: seq<Sys>, acts: seq<Action>, i: nat, j: nat, k: nat, later: nat)
    requires Run(states, acts) && i < |acts| && acts[i] == Cancel(j) && i < later < |states|
    requires j < |states[i].pool.jobs| && k < |states[i].pool.jobs|
    ensures |states[i + 1].pool.jobs| == |states[i].pool.jobs| <= |states[later].pool.jobs|
    ensures states[i + 1].pool.jobs[k].cancelled
        <==> states[i].pool.jobs[k].cancelled || Hits(states[i].pool, j, k)
    ensures states[i + 1].pool.jobs[k].cancelled ==>
      states[later].pool.jobs[k].starts == states[i].pool.jobs[k].starts
    ensures !states[i].pool.jobs[j].running && !states[i].pool.jobs[j].done && Hits(states[i].pool, j, k) ==>
      states[i + 1].pool.jobs[k].done && states[later].pool.jobs[k].starts == 0
  {
    hide Stable, BodiesOk, WorkersOk, CancelJob, Hits;
    RunKeeps(states, acts, i);
    var p := states[i].pool;
    assert Next(states[i], Cancel(j), states[i + 1]);
    assert states[i + 1].pool == CancelJob(p, j);
    CancelExact(p, j, k);
    CancelIsCalm(p, j);
    HistoryGrows(states, acts, i + 1, later);
    assert CalmJob(p.jobs[k], states[i + 1].pool.jobs[k]);
    assert Later(states[i + 1].pool.jobs[k], states[later].pool.jobs[k]);
  }
}
