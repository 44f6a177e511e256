/** A job may start before the body of its dependency has returned.  `Job::run` marks a cancelled
    job done without looking whether its body is being executed elsewhere; a job whose dependencies
    are all done when it is scheduled is queued twice, and the job of `threadPoolExec` stands in
    every private queue.  This module says for every reachable state, and for whatever workers and
    callers do next, exactly when that can happen. */
module PrematureStart {
  import opened CondVar
  import opened Jobs
  import opened JobInvariant
  import opened Cancellation
  import opened CalmSteps
  import opened PoolRuns
  import opened PoolInvariant
  import opened PoolTheorems
  import opened Continuations

  /** Job `j` has not started, and a dependency `d` of it has, but no body of `d` has returned. */
  ghost predicate Pending(s: Sys, d: nat, j: nat) {
    && SysInv(s) && j < |s.pool.jobs| && d < |s.pool.jobs| && d in s.pool.jobs[j].deps
    && s.pool.jobs[j].starts == 0 && s.pool.jobs[d].starts > 0 && s.pool.jobs[d].finishes == 0
  }

  /** The pool can go on in such a way that `j` starts before any body of `d` has returned. */
  ghost predicate StartsEarly(s: Sys, d: nat, j: nat) {
    exists s' :: Leads(s, s') && Overtaken(s', d, j)
  }

  ghost predicate Overtaken(s: Sys, d: nat, j: nat) {
    && j < |s.pool.jobs| && s.pool.jobs[j].starts > 0
    && d < |s.pool.jobs| && s.pool.jobs[d].finishes == 0
  }

  /** Worker `w` is neither out of its loop nor occupied with `d`. */
  ghost predicate Free(s: Sys, d: nat, w: nat) { w < |s.slots| && s.slots[w] != Gone && s.slots[w] != Busy(d) }

  ghost predicate HandFree(s: Sys, d: nat) { exists w: nat :: Free(s, d, w) }

  /** A worker that is not occupied with `d` has it in its private queue. */
  ghost predicate Awaited(s: Sys, d: nat) { exists w: nat :: Free(s, d, w) && Stands(s.pool, w, d) }

  /** Somebody can mark `d` done while its body is being executed: a worker that finds it in the
      global queue once more or in its private queue, or, for a trigger, a caller of
      `updateTrigger`. */
  ghost predicate Skippable(s: Sys, d: nat)
    requires d < |s.pool.jobs|
  {
    s.pool.jobs[d].done || s.pool.jobs[d].kind.Trigger() || s.pool.queue[d] > 0 || Awaited(s, d)
  }

  /** What a caller can look up before. */
  ghost predicate Hazard(s: Sys, d: nat, j: nat)
    requires j < |s.pool.jobs| && d < |s.pool.jobs|
  {
    !s.closing && !s.pool.jobs[j].cancelled && HandFree(s, d) && Skippable(s, d)
  }

  // ---------------------------------------------------------------- what concerns other jobs

  /** What leaves a job alone that is no trigger.  Entering the global queue and being marked
      `queued` go together, and a job that is running is not marked done. */
  ghost predicate Steady(a: Job, b: Job) {
    && b.deps == a.deps && b.kind == a.kind && (a.queued ==> b.queued) && (a.pool ==> b.pool)
    && (a.cancelled ==> b.cancelled && b.queued == a.queued)
    && (a.kind.Plain? ==> b.pushes == a.pushes + (if b.queued && !a.queued then 1 else 0))
    && (a.running && !a.done ==> b.running && !b.done)
  }

  ghost predicate SteadyAt(p: Pool, q: Pool, k: nat) {
    k < |p.jobs| <= |q.jobs| && Steady(p.jobs[k], q.jobs[k])
  }

  lemma TellSteady(m: Pool, e: nat, k: nat)
    requires Refs(m) && e < |m.jobs| && k < |m.jobs| && !m.jobs[k].kind.Trigger()
    ensures SteadyAt(m, NotifyDeps(m, e), k)
  {
    hide NotifyDeps;
    NotifyDepsPushes(m, e);
    assert Replayed(m.jobs[k], NotifyDeps(m, e).jobs[k]);
  }

  lemma FinishSteady(p: Pool, e: nat, result: bool, k: nat)
    requires Refs(p) && e < |p.jobs| && k < |p.jobs| && !p.jobs[k].kind.Trigger() && e != k
    ensures SteadyAt(p, FinishBody(p, e, result), k)
  {
    hide NotifyDeps;
    var m := Put(p, e, Finished(p.jobs[e], result));
    TouchRefs(p, m, e);
    TellSteady(m, e, k);
  }

  lemma SkipSteady(p: Pool, e: nat, k: nat)
    requires Refs(p) && e < |p.jobs| && k < |p.jobs| && !p.jobs[k].kind.Trigger() && e != k
    ensures SteadyAt(p, SkipBody(p, e), k)
  {
    hide NotifyDeps;
    var m := Put(p, e, p.jobs[e].(done := true));
    TouchRefs(p, m, e);
    TellSteady(m, e, k);
  }

  lemma UpdateSteady(p: Pool, t: nat, units: nat, k: nat)
    requires Refs(p) && t < |p.jobs| && p.jobs[t].kind.Trigger() && k < |p.jobs| && !p.jobs[k].kind.Trigger()
    ensures SteadyAt(p, UpdateTrigger(p, t, units), k)
  {
    hide SkipBody;
    var m := Put(p, t, Activated(p.jobs[t], units));
    TouchRefs(p, m, t);
    SkipSteady(m, t, k);
  }

  lemma {:induction false} AddDepsSteady(p: Pool, js: seq<nat>, ds: seq<nat>, k: nat)
    requires Refs(p) && Ids(|p.jobs|, js) && Ids(|p.jobs|, ds) && k < |p.jobs| && k !in js
    ensures SteadyAt(p, AddDeps(p, js, ds), k)
    decreases |js|
  {
    if js != [] {
      AddDepsSteady(Put(p, js[0], WithDeps(p, p.jobs[js[0]], ds)), js[1..], ds, k);
    }
  }

  lemma {:induction false} AddNotifiesSteady(p: Pool, ds: seq<nat>, js: seq<nat>, k: nat)
    requires Refs(p) && Ids(|p.jobs|, js) && Ids(|p.jobs|, ds) && k < |p.jobs| && !p.jobs[k].kind.Trigger()
    ensures SteadyAt(p, AddNotifies(p, ds, js), k)
    decreases |ds|
  {
    hide NotifyDeps;
    if ds != [] {
      var m := Put(p, ds[0], WithNotify(p.jobs[ds[0]], js));
      assert Refs(m) by { NotifyRefs(p, ds[0], js); }
      var q := AddNotify(p, ds[0], js);
      TellSteady(m, ds[0], k);
      AddNotifiesSteady(q, ds[1..], js, k);
    }
  }

  lemma {:induction false} AttachAllSteady(p: Pool, js: seq<nat>, k: nat)
    requires Refs(p) && Ids(|p.jobs|, js) && k < |p.jobs| && k !in js
    ensures SteadyAt(p, AttachAll(p, js), k)
    decreases |js|
  {
    if js != [] {
      assert js[0] in js;
      AttachAllSteady(AttachJob(p, js[0]), js[1..], k);
    }
  }

  lemma CancelSteady(p: Pool, e: nat, k: nat)
    requires Refs(p) && e < |p.jobs| && k < |p.jobs|
    ensures SteadyAt(p, CancelJob(p, e), k)
  {
    hide CancelJob;
  }

  lemma SteadyTwice(p: Pool, q: Pool, r: Pool, k: nat)
    requires SteadyAt(p, q, k) && SteadyAt(q, r, k)
    ensures SteadyAt(p, r, k)
  {
  }

  lemma {:induction false} CancelAllSteady(p: Pool, js: seq<nat>, k: nat)
    requires Refs(p) && Ids(|p.jobs|, js) && k < |p.jobs|
    ensures SteadyAt(p, CancelAll(p, js), k)
    decreases |js|
  {
    hide CancelJob, SameGraph, OnlyMarked;
    if js != [] {
      var m := Put(p, js[0], Joined(p.jobs[js[0]]));
      assert SteadyAt(p, m, k);
      hide SteadyAt;
      TouchRefs(p, m, js[0]);
      var q := CancelJob(m, js[0]);
      MarkedGraph(m, q);
      CancelSteady(m, js[0], k);
      SteadyTwice(p, m, q, k);
      CancelAllSteady(q, js[1..], k);
      SteadyTwice(p, q, CancelAll(p, js), k);
    }
  }

  lemma ScheduleSteady(p: Pool, js: seq<nat>, ds: seq<nat>, k: nat)
    requires Refs(p) && Ids(|p.jobs|, js) && Ids(|p.jobs|, ds)
    requires k < |p.jobs| && !p.jobs[k].kind.Trigger() && p.jobs[k].pool
    ensures SteadyAt(p, ScheduleJobs(p, js, ds), k)
  {
    hide AddDeps, AddNotifies, AttachAll, CancelAll;
    if MaySchedule(p, js, ds) {
      assert k !in js;
      var q := AddDeps(p, js, ds);
      AddDepsSteady(p, js, ds, k);
      var r := AddNotifies(q, ds, js);
      AddNotifiesSteady(q, ds, js, k);
      AttachAllSteady(r, js, k);
      CancelAllSteady(r, js, k);
    }
  }

  lemma TurnSteady(s: Sys, w: nat, e: nat, s': Sys, k: nat)
    requires Next(s, Turn(w, e), s') && k < |s.pool.jobs| && !s.pool.jobs[k].kind.Trigger()
    requires s'.pool != s.pool ==> e != k
    ensures SteadyAt(s.pool, s'.pool, k)
  {
    hide SkipBody, Signals, Take;
    if s'.pool != s.pool {
      TakeCounts(s.pool, w, e);
      SkipSteady(Take(s.pool, w, e), e, k);
    }
  }

  lemma AttachSteady(p: Pool, e: nat, k: nat)
    requires Refs(p) && e < |p.jobs| && k < |p.jobs| && k != e
    ensures SteadyAt(p, AttachJob(p, e), k)
  {
  }

  lemma NewTriggerSteady(p: Pool, kind: Kind, k: nat)
    requires Refs(p) && kind.Trigger() && k < |p.jobs|
    ensures SteadyAt(p, NewTriggerJob(p, kind), k)
  {
    hide AttachJob;
    var m := AddJob(p, NEW_JOB.(kind := kind));
    assert Refs(m);
    AttachSteady(m, |p.jobs|, k);
  }

  lemma OtherSteady(s: Sys, a: Action, s': Sys, k: nat)
    requires Next(s, a, s') && k < |s.pool.jobs| && s.pool.jobs[k].pool
    requires !a.Schedule? && !a.Update? && !a.Return? && !a.Finish? && !a.Turn?
    ensures SteadyAt(s.pool, s'.pool, k)
  {
    hide LoopBody, FinishBody, ScheduleJobs, CancelJob, UpdateTrigger, AttachJob, NewTriggerJob, Signals;
    match a
    case NewTrigger(kind) => NewTriggerSteady(s.pool, kind, k);
    case Start(e) => if !s.pool.jobs[e].pool { AttachSteady(s.pool, e, k); }
    case Cancel(e) => CancelSteady(s.pool, e, k);
    case _ =>
  }

  /** No body of `k` returns or is skipped in this step. */
  ghost predicate PassesBy(s: Sys, a: Action, s': Sys, k: nat) {
    && (a.Finish? ==> a.w < |s.slots| && s.slots[a.w] != Busy(k))
    && (a.Return? ==> a.t != k)
    && (a.Turn? && s'.pool != s.pool ==> a.j != k)
  }

  lemma NextSteady(s: Sys, a: Action, s': Sys, k: nat)
    requires Next(s, a, s') && k < |s.pool.jobs| && !s.pool.jobs[k].kind.Trigger() && s.pool.jobs[k].pool
    requires PassesBy(s, a, s', k)
    ensures SteadyAt(s.pool, s'.pool, k)
  {
    hide LoopBody, FinishBody, ScheduleJobs, CancelJob, UpdateTrigger, AttachJob, NewTriggerJob, Signals, SteadyAt;
    var p := s.pool;
    match a
    case Schedule(js, ds) => HandlesAreIds(p, js); HandlesAreIds(p, ds); ScheduleSteady(p, js, ds, k);
    case Update(t, units) => UpdateSteady(p, t, units, k);
    case Return(t) => FinishSteady(p, t, p.jobs[t].kind.Acc?, k);
    case Finish(w, result) => FinishSteady(p, s.slots[w].job, result, k);
    case Turn(w, e) => TurnSteady(s, w, e, s', k);
    case _ => OtherSteady(s, a, s', k);
  }

  lemma HandlesAreIds(p: Pool, l: seq<nat>)
    requires Handles(p, l)
    ensures Ids(|p.jobs|, l)
  {
    forall i | 0 <= i < |l| ensures l[i] < |p.jobs| {
      assert Handle(p, l[i]);
    }
  }

  // ---------------------------------------------------------------- plain jobs start in workers only

  lemma ApiStarts(s: Sys, a: Action, s': Sys, j: nat)
    requires Next(s, a, s') && j < |s.pool.jobs| && (a.NewTrigger? || a.Start? || a.Schedule? || a.Cancel?)
    ensures j < |s'.pool.jobs| && s'.pool.jobs[j].starts == s.pool.jobs[j].starts
  {
    hide ScheduleJobs, CancelJob, AttachJob, NewTriggerJob, Signals, Calm;
    var p := s.pool;
    match a
    case NewTrigger(kind) => NewTriggerStarts(p, kind, j);
    case Start(k) => if !p.jobs[k].pool { AttachIsCalm(p, k); CalmStarts(p, s'.pool, j); }
    case Schedule(js, ds) =>
      HandlesAreIds(p, js);
      HandlesAreIds(p, ds);
      ScheduleIsCalm(p, js, ds);
      CalmStarts(p, s'.pool, j);
    case Cancel(k) => CancelIsCalm(p, k); CalmStarts(p, s'.pool, j);
  }

  lemma StartsInTurn(s: Sys, a: Action, s': Sys, j: nat)
    requires Next(s, a, s') && j < |s.pool.jobs| && s.pool.jobs[j].kind.Plain?
    requires !a.Turn?
    ensures j < |s'.pool.jobs| && s'.pool.jobs[j].starts == s.pool.jobs[j].starts
  {
    hide FinishBody, ScheduleJobs, CancelJob, StartJob, UpdateTrigger, NewTriggerJob, Signals, Fires;
    var p := s.pool;
    match a
    case Update(t, units) => UpdateCounts(p, t, units);
    case Return(t) => FinishBodyCounts(p, t, p.jobs[t].kind.Acc?);
    case Finish(w, result) => FinishBodyCounts(p, s.slots[w].job, result);
    case Create =>
    case Chain(_, _) =>
    case Exec =>
    case Wake(_) =>
    case Close(_) =>
    case Recheck =>
    case _ => ApiStarts(s, a, s', j);
  }

  lemma CalmStarts(p: Pool, q: Pool, j: nat)
    requires Calm(p, q) && j < |p.jobs|
    ensures j < |q.jobs| && q.jobs[j].starts == p.jobs[j].starts
  {
    assert CalmJob(p.jobs[j], q.jobs[j]);
  }

  lemma NewTriggerStarts(p: Pool, kind: Kind, j: nat)
    requires Refs(p) && kind.Trigger() && j < |p.jobs|
    ensures var q := NewTriggerJob(p, kind); j < |q.jobs| && q.jobs[j].starts == p.jobs[j].starts
  {
  }

  /** A turn starts nothing when the pool is closing or the worker is not idle. */
  lemma TurnStarts(s: Sys, w: nat, e: nat, s': Sys, j: nat)
    requires Next(s, Turn(w, e), s') && j < |s.pool.jobs|
    requires j < |s'.pool.jobs| && s'.pool.jobs[j].starts != s.pool.jobs[j].starts
    ensures !s.closing && w < |s.slots| && s.slots[w].Idle? && !s.pool.jobs[j].cancelled
  {
    hide SkipBody, Signals, Take;
    if s'.pool != s.pool {
      TakeCounts(s.pool, w, e);
      if s.pool.jobs[e].cancelled {
        SkipBodyIsCalm(Take(s.pool, w, e), e);
        CalmStarts(Take(s.pool, w, e), s'.pool, j);
      }
    }
  }

  // ---------------------------------------------------------------- the condition is needed

  lemma PendingFacts(s: Sys, d: nat, j: nat)
    requires Pending(s, d, j)
    ensures s.pool.jobs[j].kind.Plain? && s.pool.jobs[j].pool && !s.pool.jobs[j].done == !s.pool.jobs[j].cancelled
    ensures s.pool.jobs[d].pool && s.pool.jobs[d].running
  {
    InvAt(s.pool, j, {}, {}, {});
    InvAt(s.pool, d, {}, {}, {});
    assert EdgeOk(s.pool.jobs[j], s.pool.queue[j], s.pool.jobs[d], d in {} || j in {});
  }

  /** As long as no body of `d` returns and nobody finds it in a queue, no step concerns it. */
  lemma NobodyTakes(s: Sys, a: Action, s': Sys, d: nat)
    requires Next(s, a, s') && d < |s.pool.jobs| && !Skippable(s, d)
    requires d < |s'.pool.jobs| && s'.pool.jobs[d].finishes == 0
    ensures PassesBy(s, a, s', d)
  {
    hide FinishBody, ScheduleJobs, CancelJob, StartJob, UpdateTrigger, NewTriggerJob, Signals, LoopBody, Skippable;
    match a
    case Finish(w, result) => FinishBodyCounts(s.pool, s.slots[w].job, result);
    case Return(t) => FinishBodyCounts(s.pool, t, s.pool.jobs[t].kind.Acc?);
    case Turn(w, j) => NobodyTurns(s, w, j, s', d);
    case _ =>
  }

  lemma NobodyTurns(s: Sys, w: nat, j: nat, s': Sys, d: nat)
    requires Next(s, Turn(w, j), s') && d < |s.pool.jobs| && !Skippable(s, d)
    ensures s'.pool != s.pool ==> j != d
  {
    hide Signals, SkipBody, Take;
    assert Free(s, d, w);
  }

  /** The private queues get shorter, or a new job is appended to all of them. */
  ghost predicate Shrinks(p: Pool, q: Pool) {
    |q.private| == |p.private| && forall w | 0 <= w < |p.private| ::
      || q.private[w] == p.private[w]
      || (p.private[w] != [] && q.private[w] == p.private[w][1..])
      || q.private[w] == p.private[w] + [|p.jobs|]
  }

  lemma CalmShrinks(p: Pool, q: Pool)
    requires q.private == p.private
    ensures Shrinks(p, q)
  {
  }

  lemma ApiShrinks(s: Sys, a: Action, s': Sys)
    requires Next(s, a, s') && (a.NewTrigger? || a.Start? || a.Schedule? || a.Cancel? || a.Update?)
    ensures Shrinks(s.pool, s'.pool)
  {
    hide FinishBody, ScheduleJobs, CancelJob, AttachJob, UpdateTrigger, Signals, Calm, Shrinks;
    var p := s.pool;
    match a
    case NewTrigger(kind) =>
      AttachIsCalm(AddJob(p, NEW_JOB.(kind := kind)), |p.jobs|) by { NewTriggerRefs(p, kind); }
      CalmCounts(AddJob(p, NEW_JOB.(kind := kind)), s'.pool);
      CalmShrinks(p, s'.pool);
    case Start(j) =>
      if !p.jobs[j].pool { AttachIsCalm(p, j); CalmCounts(p, s'.pool); }
      CalmShrinks(p, s'.pool);
    case Schedule(js, ds) =>
      HandlesAreIds(p, js);
      HandlesAreIds(p, ds);
      ScheduleIsCalm(p, js, ds);
      CalmCounts(p, s'.pool);
      CalmShrinks(p, s'.pool);
    case Cancel(j) => CancelIsCalm(p, j); CalmCounts(p, s'.pool); CalmShrinks(p, s'.pool);
    case Update(t, units) => UpdateCounts(p, t, units); CalmShrinks(p, s'.pool);
  }

  lemma NewTriggerRefs(p: Pool, kind: Kind)
    requires Refs(p) && kind.Trigger()
    ensures Refs(AddJob(p, NEW_JOB.(kind := kind)))
  {
  }

  lemma TakeShrinks(p: Pool, w: nat, e: nat)
    ensures Take(p, w, e).jobs == p.jobs && Shrinks(p, Take(p, w, e))
  {
  }

  lemma SamePrivate(p: Pool, q: Pool, r: Pool)
    requires Shrinks(p, q) && r.private == q.private
    ensures Shrinks(p, r)
  {
  }

  lemma TurnShrinks(s: Sys, w: nat, e: nat, s': Sys)
    requires Next(s, Turn(w, e), s')
    ensures Shrinks(s.pool, s'.pool)
  {
    hide SkipBody, Signals, Take, Shrinks, Calm;
    if s'.pool == s.pool {
      CalmShrinks(s.pool, s'.pool);
    } else {
      var q := Take(s.pool, w, e);
      TakeShrinks(s.pool, w, e);
      if s.pool.jobs[e].cancelled {
        SkipBodyIsCalm(q, e);
        CalmCounts(q, SkipBody(q, e));
      }
      SamePrivate(s.pool, q, s'.pool);
    }
  }

  lemma NextShrinks(s: Sys, a: Action, s': Sys)
    requires Next(s, a, s')
    ensures Shrinks(s.pool, s'.pool)
  {
    hide LoopBody, FinishBody, ScheduleJobs, CancelJob, StartJob, UpdateTrigger, NewTriggerJob, Signals, Fires;
    match a
    case Return(t) => FinishBodyCounts(s.pool, t, s.pool.jobs[t].kind.Acc?);
    case Finish(w, result) => FinishBodyCounts(s.pool, s.slots[w].job, result);
    case Turn(w, j) => TurnShrinks(s, w, j, s');
    case Create =>
    case Chain(_, _) =>
    case Exec =>
    case Wake(_) =>
    case Close(_) =>
    case Recheck =>
    case _ => ApiShrinks(s, a, s');
  }

  /** A worker that is free for `d` was so before, unless a body of `d` has just returned. */
  lemma FreeBefore(s: Sys, a: Action, s': Sys, d: nat, w: nat)
    requires Next(s, a, s') && PassesBy(s, a, s', d) && Free(s', d, w)
    ensures Free(s, d, w)
  {
    hide FinishBody, ScheduleJobs, CancelJob, AttachJob, UpdateTrigger, NewTriggerJob, Signals, SkipBody, Take;
  }

  lemma NotAwaited(s: Sys, a: Action, s': Sys, d: nat)
    requires Next(s, a, s') && PassesBy(s, a, s', d) && d < |s.pool.jobs| && !Awaited(s, d)
    ensures !Awaited(s', d)
  {
    hide Next, PassesBy, Free;
    NextShrinks(s, a, s');
    forall w: nat | Free(s', d, w) ensures !Stands(s'.pool, w, d) {
      FreeBefore(s, a, s', d, w);
      assert !Stands(s.pool, w, d);
    }
  }

  /** A started job that cannot be skipped stays so until its body returns. */
  lemma UnskippableStays(s: Sys, a: Action, s': Sys, d: nat)
    requires SysInv(s) && Next(s, a, s') && d < |s.pool.jobs| && s.pool.jobs[d].pool && s.pool.jobs[d].running
    requires s.pool.jobs[d].starts > 0 && !Skippable(s, d)
    requires d < |s'.pool.jobs| && s'.pool.jobs[d].finishes == 0 && SysInv(s')
    ensures !Skippable(s', d)
  {
    hide Next, PassesBy, Awaited;
    NobodyTakes(s, a, s', d);
    NotAwaited(s, a, s', d);
    NextSteady(s, a, s', d);
    NextIsLater(s, a, s');
    assert Later(s.pool.jobs[d], s'.pool.jobs[d]);
    InvAt(s.pool, d, {}, {}, {});
    InvAt(s'.pool, d, {}, {}, {});
  }

  lemma ClosingStays(s: Sys, a: Action, s': Sys)
    requires Next(s, a, s') && s.closing
    ensures s'.closing
  {
    hide FinishBody, ScheduleJobs, CancelJob, AttachJob, UpdateTrigger, NewTriggerJob, Signals, SkipBody, Take;
  }

  /** When every worker is gone or occupied with `d`, that does not change until `d` returns. */
  lemma HandsStay(s: Sys, a: Action, s': Sys, d: nat)
    requires Next(s, a, s') && !HandFree(s, d) && d < |s'.pool.jobs| && s'.pool.jobs[d].finishes == 0
    ensures s'.slots == s.slots
  {
    hide FinishBody, ScheduleJobs, CancelJob, AttachJob, UpdateTrigger, NewTriggerJob, Signals, LoopBody;
    if a.Finish? {
      assert !Free(s, d, a.w);
      FinishBodyCounts(s.pool, d, a.result);
    } else if a.Turn? {
      IdleHand(s, d, a.w);
      assert false;
    }
  }

  /** Without the hazard the job does not start, and the hazard does not come up. */
  lemma SafeStep(s: Sys, a: Action, s': Sys, d: nat, j: nat)
    requires Pending(s, d, j) && !Hazard(s, d, j) && Next(s, a, s')
    requires d < |s'.pool.jobs| && s'.pool.jobs[d].finishes == 0
    ensures Pending(s', d, j) && !Hazard(s', d, j)
  {
    hide Next, SysInv, HandFree;
    PendingFacts(s, d, j);
    NextKeeps(s, a, s');
    NextIsLater(s, a, s');
    assert Later(s.pool.jobs[j], s'.pool.jobs[j]) && Later(s.pool.jobs[d], s'.pool.jobs[d]);
    if s.closing {
      ClosingStays(s, a, s');
    } else if !HandFree(s, d) {
      HandsStay(s, a, s', d);
      SameHands(s, s', d);
    } else if !Skippable(s, d) {
      UnskippableStays(s, a, s', d);
    }
    SafeWaits(s, a, s', d, j);
  }

  lemma SameHands(s: Sys, s': Sys, d: nat)
    requires s'.slots == s.slots && !HandFree(s, d)
    ensures !HandFree(s', d)
  {
    forall w: nat ensures !Free(s', d, w) {
      assert !Free(s, d, w);
    }
  }

  lemma SafeWaits(s: Sys, a: Action, s': Sys, d: nat, j: nat)
    requires Pending(s, d, j) && !Hazard(s, d, j) && Next(s, a, s') && SysInv(s')
    requires s.pool.jobs[j].kind.Plain? && j < |s'.pool.jobs| && d in s'.pool.jobs[j].deps && d < |s'.pool.jobs|
    requires !s.closing && !s.pool.jobs[j].cancelled && HandFree(s, d) ==> !Skippable(s', d)
    ensures s'.pool.jobs[j].starts == 0
  {
    hide Next, SysInv, HandFree;
    if !a.Turn? {
      StartsInTurn(s, a, s', j);
    } else if s'.pool.jobs[j].starts > 0 {
      TurnStarts(s, a.w, a.j, s', j);
      IdleHand(s, d, a.w);
      StartedEdge(s', j, d);
      assert false;
    }
  }

  lemma IdleHand(s: Sys, d: nat, w: nat)
    requires w < |s.slots| && s.slots[w].Idle?
    ensures HandFree(s, d)
  {
    assert Free(s, d, w);
  }

  lemma StartedEdge(s: Sys, j: nat, d: nat)
    requires SysInv(s) && j < |s.pool.jobs| && d in s.pool.jobs[j].deps && d < |s.pool.jobs|
    requires s.pool.jobs[j].starts > 0
    ensures s.pool.jobs[d].done
  {
    assert EdgeOk(s.pool.jobs[j], s.pool.queue[j], s.pool.jobs[d], d in {} || j in {});
  }

  lemma {:induction false} SafeRun(states: seq<Sys>, acts: seq<Action>, i: nat, d: nat, j: nat)
    requires Continues(states, acts) && Pending(states[0], d, j) && !Hazard(states[0], d, j) && i < |states|
    ensures d < |states[i].pool.jobs| && j < |states[i].pool.jobs|
    ensures states[i].pool.jobs[d].finishes == 0 ==> Pending(states[i], d, j) && !Hazard(states[i], d, j)
  {
    hide Next, SysInv, HandFree, Skippable;
    if i > 0 {
      SafeRun(states, acts, i - 1, d, j);
      var s, s' := states[i - 1], states[i];
      NextIsLater(s, acts[i - 1], s');
      assert Later(s.pool.jobs[d], s'.pool.jobs[d]);
      if s'.pool.jobs[d].finishes == 0 {
        SafeStep(s, acts[i - 1], s', d, j);
      }
    }
  }

  // ---------------------------------------------------------------- the condition is enough

  lemma CancelOne(s0: Sys, s: Sys, d: nat, w: nat) returns (s': Sys)
    requires Going(s, d, w) && Leads(s0, s) && s.pool.jobs[d].pool && s.pool.jobs[d].running && !s.pool.jobs[d].done
    ensures Onward(s0, s, s', d, w) && s' == s.(pool := s'.pool) && s'.pool.jobs[d].cancelled
    ensures s'.pool.queue == s.pool.queue && s'.pool.private == s.pool.private
  {
    hide SysInv, Leads;
    SysRefs(s);
    CancelStarted(s.pool, d);
    s' := s.(pool := CancelJob(s.pool, d));
    StepOnward(s0, s, Cancel(d), s', d, w);
  }

  /** A trigger is cancelled, and the next update that finds it ready skips it. */
  lemma SkipTrigger(s0: Sys, s: Sys, d: nat, w: nat) returns (s': Sys)
    requires Going(s, d, w) && Leads(s0, s) && s.pool.jobs[d].pool && s.pool.jobs[d].running
    requires s.pool.jobs[d].kind.Trigger() && !s.pool.jobs[d].done
    ensures Onward(s0, s, s', d, w) && s'.pool.jobs[d].done
  {
    hide SysInv, Leads, Gentle;
    var m := CancelOne(s0, s, d, w);
    KeptAt(s.pool, m.pool, d, d);
    s' := Activate(s0, m, d, w, d);
    OnwardTwice(s0, s, m, s', d, w);
  }

  /** Another job is cancelled, and the worker that takes it off a queue again skips it. */
  lemma SkipQueued(s0: Sys, s: Sys, d: nat, w: nat) returns (s': Sys)
    requires Going(s, d, w) && Leads(s0, s) && s.pool.jobs[d].pool && s.pool.jobs[d].running && !s.pool.jobs[d].done
    requires s.pool.queue[d] > 0 || Stands(s.pool, w, d)
    ensures Onward(s0, s, s', d, w) && s'.pool.jobs[d].done
  {
    hide SysInv, Leads, Gentle;
    var m := CancelOne(s0, s, d, w);
    s' := Unburden(s0, m, d, w);
    OnwardTwice(s0, s, m, s', d, w);
    if !s'.pool.jobs[d].done {
      var n := s';
      KeptAt(m.pool, n.pool, d, d);
      QueuedKind(s, d, w);
      KeptAt(s.pool, m.pool, d, d);
      s' := SkipOne(s0, n, d, w, d);
      OnwardTwice(s0, s, n, s', d, w);
    }
  }

  lemma QueuedKind(s: Sys, d: nat, w: nat)
    requires Going(s, d, w) && s.pool.queue[d] > 0
    ensures !s.pool.jobs[d].kind.Broadcast?
  {
    InvAt(s.pool, d, {}, {}, {});
  }

  /** Whatever can be marked done is marked done. */
  lemma SkipIt(s0: Sys, s: Sys, d: nat, w: nat) returns (s': Sys)
    requires Going(s, d, w) && Leads(s0, s) && s.pool.jobs[d].pool && s.pool.jobs[d].running
    requires s.pool.jobs[d].done || s.pool.jobs[d].kind.Trigger() || s.pool.queue[d] > 0 || Stands(s.pool, w, d)
    ensures Onward(s0, s, s', d, w) && s'.pool.jobs[d].done
  {
    hide SysInv, Leads;
    if s.pool.jobs[d].done {
      GentleNothing(s.pool, s.pool, d);
      s' := s;
    } else if s.pool.jobs[d].kind.Trigger() {
      s' := SkipTrigger(s0, s, d, w);
    } else {
      s' := SkipQueued(s0, s, d, w);
    }
  }

  /** The worker that can bring it about. */
  lemma Skipper(s: Sys, d: nat) returns (w: nat)
    requires d < |s.pool.jobs| && HandFree(s, d) && Skippable(s, d)
    ensures Free(s, d, w)
    ensures s.pool.jobs[d].done || s.pool.jobs[d].kind.Trigger() || s.pool.queue[d] > 0 || Stands(s.pool, w, d)
  {
    if Awaited(s, d) {
      w :| Free(s, d, w) && Stands(s.pool, w, d);
    } else {
      w :| Free(s, d, w);
    }
  }

  /** First `d` is skipped, then whatever else `j` depends on is done, and then `j` starts. */
  lemma HazardStarts(s: Sys, d: nat, j: nat)
    requires Pending(s, d, j) && Hazard(s, d, j)
    ensures StartsEarly(s, d, j)
  {
    hide SysInv, Leads, Gentle, Skippable;
    PendingFacts(s, d, j);
    var w := Skipper(s, d);
    LeadsNowhere(s);
    var m := SkipIt(s, s, d, w);
    KeptAt(s.pool, m.pool, d, j);
    PooledId(m, j) by { assert m.pool.jobs[j].pool; }
    var n := MakeAllDone(s, m, d, w, j, m.pool.jobs[j].deps);
    KeptAt(m.pool, n.pool, d, j);
    KeptAt(m.pool, n.pool, d, d);
    var s' := StartNow(s, n, d, w, j);
    assert Overtaken(s', d, j);
  }

  lemma PooledId(s: Sys, j: nat)
    requires SysInv(s) && j < |s.pool.jobs|
    requires s.pool.jobs[j].pool && !s.pool.jobs[j].cancelled && s.pool.jobs[j].kind.Plain?
    ensures s.pool.jobs[j].id >= 0
  {
    InvAt(s.pool, j, {}, {}, {});
  }

  lemma StartNow(s0: Sys, s: Sys, d: nat, w: nat, j: nat) returns (s': Sys)
    requires Going(s, d, w) && Leads(s0, s) && j != d && Feasible(s.pool, j) && s.pool.jobs[j].kind.Plain?
    requires !s.pool.jobs[j].cancelled && AllDone(s.pool, s.pool.jobs[j].deps) && s.pool.jobs[d].done
    ensures Going(s', d, w) && Leads(s0, s') && j < |s'.pool.jobs| && s'.pool.jobs[j].starts > 0
  {
    hide SysInv, Leads, Gentle, AllDone;
    s' := s;
    if s.pool.jobs[j].starts == 0 {
      NotDone(s, j);
      DoneAside(s, d, w);
      ReadyIsQueued(s.pool, j) by { SysStable(s); }
      var m := Unburden(s0, s, d, w);
      KeptAt(s.pool, m.pool, d, j);
      s' := StartOne(s0, m, d, w, j);
      KeptAt(m.pool, s'.pool, d, j);
    }
  }

  lemma NotDone(s: Sys, j: nat)
    requires SysInv(s) && j < |s.pool.jobs| && s.pool.jobs[j].starts == 0 && !s.pool.jobs[j].cancelled
    ensures !s.pool.jobs[j].done
  {
    InvAt(s.pool, j, {}, {}, {});
  }

  /** The exact condition, in every reachable state and over everything that workers and callers may
      do next: `j` can start before any body of its dependency `d` has returned if and only if the
      pool is not closing, `j` is not cancelled, some worker is not occupied with `d`, and `d` is
      marked done, is a trigger, stands in the global queue once more, or stands in the private
      queue of such a worker. */
  lemma StartsEarlyExactly(s: Sys, d: nat, j: nat)
    requires Pending(s, d, j)
    ensures StartsEarly(s, d, j) <==> Hazard(s, d, j)
  {
    hide SysInv, Next, Hazard;
    if Hazard(s, d, j) {
      HazardStarts(s, d, j);
    } else if StartsEarly(s, d, j) {
      var s' :| Leads(s, s') && Overtaken(s', d, j);
      var states: seq<Sys>, acts: seq<Action> :|
        Continues(states, acts) && states[0] == s && states[|acts|] == s';
      SafeRun(states, acts, |acts|, d, j);
      assert false;
    }
  }

  /** A job scheduled while one of its own dependencies was unfinished is never overtaken by those
      that depend on it. */
  lemma LateIsNotOvertaken(states: seq<Sys>, acts: seq<Action>, i: nat, d: nat, j: nat)
    requires Run(states, acts) && i < |states| && Pending(states[i], d, j)
    requires states[i].pool.jobs[d].late
    ensures !StartsEarly(states[i], d, j)
  {
    hide Next, Init, StartsEarly;
    RunKeeps(states, acts, i);
    InvAt(states[i].pool, d, {}, {}, {});
    LateNotAwaited(states[i], d);
    StartsEarlyExactly(states[i], d, j);
  }

  lemma LateNotAwaited(s: Sys, d: nat)
    requires SysInv(s) && d < |s.pool.jobs| && s.pool.jobs[d].late
    ensures !Awaited(s, d)
  {
    hide Locals, LocalOk;
    forall w: nat | Stands(s.pool, w, d) ensures s.pool.jobs[d].kind.Broadcast? {
      assert Ids(|s.pool.jobs|, s.pool.private[w]) && Broadcasts(s.pool, s.pool.private[w]);
    }
    LateIsPlain(s.pool, d);
  }

  lemma LateIsPlain(p: Pool, d: nat)
    requires Stable(p) && d < |p.jobs| && p.jobs[d].late
    ensures p.jobs[d].kind.Plain?
  {
    InvAt(p, d, {}, {}, {});
  }
}
