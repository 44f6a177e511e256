/** What `scheduleJob` does, in terms of the fields alone, and what that means for the rest of a run. */
module ScheduleEffect {
  import opened Jobs
  import opened JobInvariant
  import opened Cancellation
  import opened Scheduling
  import opened CalmSteps
  import opened PoolRuns
  import opened PoolInvariant
  import opened PoolTheorems

  /** Two jobs with the same flags. */
  predicate SameFlags(a: Job, b: Job) {
    && b.pool == a.pool && b.done == a.done && b.cancelled == a.cancelled && b.late == a.late
    && b.starts == a.starts && b.finishes == a.finishes
  }

  ghost predicate AllSameFlags(p: Pool, q: Pool) {
    |q.jobs| == |p.jobs| && forall k | 0 <= k < |p.jobs| :: SameFlags(p.jobs[k], q.jobs[k])
  }

  /** Somebody in `ds` is not done. */
  predicate SomeUndone(p: Pool, ds: seq<nat>)
    requires Ids(|p.jobs|, ds)
  {
    exists d | d in ds :: !p.jobs[d].done
  }

  // ---------------------------------------------------------------- flags while edges are added

  lemma {:induction false} AddDepsFlags(p: Pool, js: seq<nat>, ds: seq<nat>)
    requires Refs(p) && Ids(|p.jobs|, js) && Ids(|p.jobs|, ds)
    ensures var q := AddDeps(p, js, ds);
      forall k | 0 <= k < |p.jobs| ::
        && SameFlags(p.jobs[k].(late := q.jobs[k].late), q.jobs[k])
        && q.jobs[k].late == if k in js then SomeUndone(p, ds) else p.jobs[k].late
    ensures forall k | 0 <= k < |p.jobs| && k !in js :: AddDeps(p, js, ds).jobs[k] == p.jobs[k]
    decreases |js|
  {
    if js != [] {
      var q := Put(p, js[0], WithDeps(p, p.jobs[js[0]], ds));
      assert SomeUndone(q, ds) == SomeUndone(p, ds);
      AddDepsFlags(q, js[1..], ds);
      assert js == [js[0]] + js[1..];
    }
  }

  lemma TellFlags(p: Pool, d: nat)
    requires Refs(p) && d < |p.jobs|
    ensures AllSameFlags(p, NotifyDeps(p, d))
  {
    NotifyDepsPushes(p, d);
    forall k | 0 <= k < |p.jobs| ensures SameFlags(p.jobs[k], NotifyDeps(p, d).jobs[k]) {
      assert Replayed(p.jobs[k], NotifyDeps(p, d).jobs[k]);
    }
  }

  lemma {:induction false} AddNotifiesFlags(p: Pool, ds: seq<nat>, js: seq<nat>)
    requires Refs(p) && Ids(|p.jobs|, js) && Ids(|p.jobs|, ds)
    ensures AllSameFlags(p, AddNotifies(p, ds, js))
    decreases |ds|
  {
    hide NotifyDeps;
    if ds != [] {
      var m := Put(p, ds[0], WithNotify(p.jobs[ds[0]], js));
      assert Refs(m) by { NotifyRefs(p, ds[0], js); }
      if m.jobs[ds[0]].done {
        TellFlags(m, ds[0]);
      }
      AddNotifiesFlags(AddNotify(p, ds[0], js), ds[1..], js);
    }
  }

  /** The pool after all edges have been added and all dependencies told. */
  lemma EdgesFlags(p: Pool, js: seq<nat>, ds: seq<nat>)
    requires Refs(p) && Ids(|p.jobs|, js) && Ids(|p.jobs|, ds)
    ensures var q := AddNotifies(AddDeps(p, js, ds), ds, js);
      && SomeCancelled(q, ds) == SomeCancelled(p, ds) && SomeUndone(q, ds) == SomeUndone(p, ds)
      && (forall k | 0 <= k < |p.jobs| ::
            && SameFlags(p.jobs[k].(late := q.jobs[k].late), q.jobs[k])
            && q.jobs[k].late == if k in js then SomeUndone(p, ds) else p.jobs[k].late)
  {
    hide AddDeps, AddNotifies;
    AddDepsFlags(p, js, ds);
    AddNotifiesFlags(AddDeps(p, js, ds), ds, js);
    var q := AddNotifies(AddDeps(p, js, ds), ds, js);
    forall k | 0 <= k < |p.jobs|
      ensures SameFlags(p.jobs[k].(late := q.jobs[k].late), q.jobs[k])
      ensures q.jobs[k].late == if k in js then SomeUndone(p, ds) else p.jobs[k].late
    {
      assert SameFlags(AddDeps(p, js, ds).jobs[k], q.jobs[k]);
    }
  }

  // ---------------------------------------------------------------- the new jobs

  /** What has become of job `j` scheduled after `ds`. */
  ghost predicate Scheduled(p: Pool, q: Pool, j: nat, ds: seq<nat>)
    requires Ids(|p.jobs|, ds) && j < |q.jobs|
  {
    var job := q.jobs[j];
    && job.pool && job.starts == 0 && (forall d :: d in job.deps <==> d in ds)
    && (job.cancelled <==> exists d | d in ds :: p.jobs[d].cancelled)
    && (job.late <==> exists d | d in ds :: !p.jobs[d].done)
    && (job.done <==> job.cancelled)
    && (!job.cancelled ==> (q.queue[j] > 0 <==> forall d | d in ds :: p.jobs[d].done))
  }

  lemma ReadyQueued(r: Pool, j: nat)
    requires Stable(r) && j < |r.jobs| && r.jobs[j].pool && r.jobs[j].kind.Plain?
    requires !r.jobs[j].cancelled && !r.jobs[j].done && r.jobs[j].starts == 0
    requires forall d | d in r.jobs[j].deps :: d < |r.jobs| && !r.jobs[d].cancelled
    ensures r.queue[j] > 0 <==> forall d | d in r.jobs[j].deps :: r.jobs[d].done
  {
    InvAt(r, j, {}, {}, {});
    forall d | d in r.jobs[j].deps && r.jobs[d].done ensures r.jobs[d].starts > 0 {
      InvAt(r, d, {}, {}, {});
    }
    assert ProgressOk(r, j);
    if r.queue[j] > 0 {
      forall d | d in r.jobs[j].deps ensures r.jobs[d].done {
        assert EdgeOk(r.jobs[j], r.queue[j], r.jobs[d], d in {} || j in {});
      }
    }
  }

  lemma AttachEffect(p: Pool, q: Pool, js: seq<nat>, ds: seq<nat>)
    requires Ids(|p.jobs|, ds) && |q.jobs| == |p.jobs| && Refs(q) && Ids(|q.jobs|, js)
    requires Telling(q, Members(js), ds, ds) && Symmetric(q, {}) && !SomeCancelled(q, ds)
    requires forall k | 0 <= k < |p.jobs| :: SameFlags(p.jobs[k].(late := q.jobs[k].late), q.jobs[k])
    requires forall j | j in js :: q.jobs[j].late == SomeUndone(p, ds)
    ensures var r := AttachAll(q, js);
      && |r.jobs| == |p.jobs| && (forall j | j in js :: Scheduled(p, r, j, ds))
      && (forall k | 0 <= k < |p.jobs| && k !in js ::
            SameFlags(p.jobs[k].(late := q.jobs[k].late, pool := r.jobs[k].pool), r.jobs[k]))
  {
    hide Inv, Symmetric, AttachAll, Telling, Scheduled;
    var e, r := Members(js), AttachAll(q, js);
    ScheduleAttached(q, js, ds);
    AttachingOf(q, js, ds);
    AttachAllKeeps(q, js, e, ds);
    forall k | 0 <= k < |p.jobs| ensures SameFlags(q.jobs[k].(pool := r.jobs[k].pool), r.jobs[k]) {
      assert AttachedJob(q.jobs[k], r.jobs[k]);
    }
    forall j | j in js ensures Scheduled(p, r, j, ds) {
      OneAttached(p, q, r, j, js, ds);
    }
  }

  lemma AttachingOf(q: Pool, js: seq<nat>, ds: seq<nat>)
    requires Telling(q, Members(js), ds, ds) && Ids(|q.jobs|, js) && !SomeCancelled(q, ds)
    ensures Attaching(q, Members(js), ds) && Within(js, Members(js))
  {
    hide Inv, Symmetric, Newcomer;
  }

  lemma OneAttached(p: Pool, q: Pool, r: Pool, j: nat, js: seq<nat>, ds: seq<nat>)
    requires Ids(|p.jobs|, ds) && |r.jobs| == |q.jobs| == |p.jobs| && j in js && Ids(|q.jobs|, js)
    requires Stable(r) && Attaching(r, Members(js), ds) && Numbered(r, js)
    requires forall k | 0 <= k < |p.jobs| :: SameFlags(p.jobs[k].(late := q.jobs[k].late), q.jobs[k])
    requires forall k | 0 <= k < |p.jobs| :: SameFlags(q.jobs[k].(pool := r.jobs[k].pool), r.jobs[k])
    requires q.jobs[j].late == SomeUndone(p, ds)
    ensures Scheduled(p, r, j, ds)
  {
    hide Inv, Symmetric;
    var i :| 0 <= i < |js| && js[i] == j;
    assert r.jobs[js[i]].pool;
    assert Newcomer(r, r.jobs[j], ds, ds);
    forall d | d in ds ensures !p.jobs[d].cancelled && r.jobs[d].done == p.jobs[d].done && d in r.jobs[j].deps {
      assert SameFlags(p.jobs[d].(late := q.jobs[d].late), q.jobs[d]);
    }
    ReadyQueued(r, j) by {
      forall d | d in r.jobs[j].deps ensures d < |r.jobs| && !r.jobs[d].cancelled { assert d in ds; }
    }
  }

  lemma CancelEffect(p: Pool, q: Pool, js: seq<nat>, ds: seq<nat>)
    requires Ids(|p.jobs|, ds) && |q.jobs| == |p.jobs| && Refs(q) && Ids(|q.jobs|, js)
    requires Telling(q, Members(js), ds, ds) && Symmetric(q, {})
    requires forall k | 0 <= k < |p.jobs| :: SameFlags(p.jobs[k].(late := q.jobs[k].late), q.jobs[k])
    requires SomeCancelled(p, ds) && forall j | j in js :: q.jobs[j].late == SomeUndone(p, ds)
    ensures var r := CancelAll(q, js);
      && |r.jobs| == |p.jobs| && (forall j | j in js :: Scheduled(p, r, j, ds))
      && (forall k | 0 <= k < |p.jobs| && k !in js :: SameFlags(p.jobs[k].(late := q.jobs[k].late), r.jobs[k]))
  {
    hide Inv, Symmetric, CancelAll, Scheduled, Telling, Dropping;
    var e, r := Members(js), CancelAll(q, js);
    DroppingOf(q, js, ds);
    DropAll(q, js, e);
    DropsOnlyThem(q, js, e);
    CancelAllLate(q, js);
    forall j | j in js ensures Scheduled(p, r, j, ds) {
      var i :| 0 <= i < |js| && js[i] == j;
      assert r.jobs[js[i]].cancelled;
      DependenciesOf(q, j, js, ds);
      OneCancelled(p, q, r, j, e, ds);
    }
  }

  lemma DependenciesOf(q: Pool, j: nat, js: seq<nat>, ds: seq<nat>)
    requires Telling(q, Members(js), ds, ds) && Ids(|q.jobs|, js) && j in js
    ensures SameMembers(q.jobs[j].deps, ds)
  {
    hide Inv, Symmetric;
    assert Newcomer(q, q.jobs[j], ds, ds);
  }

  lemma OneCancelled(p: Pool, q: Pool, r: Pool, j: nat, e: set<nat>, ds: seq<nat>)
    requires Ids(|p.jobs|, ds) && |r.jobs| == |q.jobs| == |p.jobs| && j < |q.jobs| && SomeCancelled(p, ds)
    requires Dropping(r, e) && j in e && r.jobs[j].cancelled && SameGraph(q, r) && SameMembers(q.jobs[j].deps, ds)
    requires r.jobs[j].late == q.jobs[j].late == SomeUndone(p, ds)
    ensures Scheduled(p, r, j, ds)
  {
    hide Symmetric, Edges, Progressing, Kinds;
    assert Dropped(r.jobs[j]);
    InvAt(r, j, {}, {}, e);
  }

  lemma DroppingOf(q: Pool, js: seq<nat>, ds: seq<nat>)
    requires Telling(q, Members(js), ds, ds) && Symmetric(q, {}) && Ids(|q.jobs|, js)
    ensures Dropping(q, Members(js)) && Within(js, Members(js))
  {
    hide Symmetric;
    forall j | j in Members(js) ensures Dropped(q.jobs[j]) {
      InvAt(q, j, {}, {}, Members(js));
      assert Newcomer(q, q.jobs[j], ds, ds);
    }
  }

  lemma {:induction false} CancelAllLate(p: Pool, js: seq<nat>)
    requires Refs(p) && Ids(|p.jobs|, js)
    ensures forall k | 0 <= k < |p.jobs| :: CancelAll(p, js).jobs[k].late == p.jobs[k].late
    decreases |js|
  {
    hide CancelJob, SameGraph;
    if js != [] {
      var q := Put(p, js[0], Joined(p.jobs[js[0]]));
      TouchRefs(p, q, js[0]);
      var r := CancelJob(q, js[0]);
      MarkedGraph(q, r);
      CancelAllLate(r, js[1..]);
    }
  }

  // ---------------------------------------------------------------- the command

  /** The request is refused, and nothing happens, when one of the jobs is in a pool already or one of
      the dependencies is in none. */
  lemma Refused(p: Pool, js: seq<nat>, ds: seq<nat>)
    requires Refs(p) && Ids(|p.jobs|, js) && Ids(|p.jobs|, ds)
    requires (exists j | j in js :: p.jobs[j].pool) || (exists d | d in ds :: !p.jobs[d].pool)
    ensures ScheduleJobs(p, js, ds) == p
  {
  }

  /** Otherwise each job has exactly the given dependencies and is in the pool; it is cancelled exactly
      if one of them is, and is queued exactly if all of them are done.  The flags of all other jobs
      stay. */
  lemma Accepted(p: Pool, js: seq<nat>, ds: seq<nat>)
    requires Stable(p) && Ids(|p.jobs|, js) && Ids(|p.jobs|, ds) && forall d | d in ds :: p.jobs[d].Named()
    requires (forall j | j in js :: !p.jobs[j].pool) && (forall d | d in ds :: p.jobs[d].pool)
    ensures var q := ScheduleJobs(p, js, ds);
      && |q.jobs| == |p.jobs| && (forall j | j in js :: Scheduled(p, q, j, ds))
      && (forall k | 0 <= k < |p.jobs| && k !in js ::
            q.jobs[k].done == p.jobs[k].done && q.jobs[k].cancelled == p.jobs[k].cancelled
            && q.jobs[k].starts == p.jobs[k].starts)
  {
    hide Inv, Symmetric, AddDeps, AddNotifies, AttachAll, CancelAll, Telling, Scheduled;
    assert Refs(p) by { StableRefs(p); }
    var q := AddNotifies(AddDeps(p, js, ds), ds, js);
    ScheduleTells(p, js, ds);
    Told(q, Members(js), ds) by { assert Telling(q, Members(js), ds, ds); }
    EdgesFlags(p, js, ds);
    if SomeCancelled(q, ds) {
      CancelEffect(p, q, js, ds);
    } else {
      AttachEffect(p, q, js, ds);
    }
  }

  // ---------------------------------------------------------------- the rest of the run

  lemma HandlesIds(p: Pool, l: seq<nat>)
    requires Handles(p, l)
    ensures Ids(|p.jobs|, l) && forall j | j in l :: p.jobs[j].Named()
  {
    forall i | 0 <= i < |l| ensures l[i] < |p.jobs| && p.jobs[l[i]].Named() {
      assert Handle(p, l[i]);
    }
  }

  lemma SysStablePool(s: Sys)
    requires SysInv(s)
    ensures Stable(s.pool) && Refs(s.pool)
  {
  }

  lemma AcceptedStep(s: Sys, js: seq<nat>, ds: seq<nat>, s': Sys)
    requires SysInv(s) && Next(s, Schedule(js, ds), s')
    ensures Ids(|s.pool.jobs|, js) && Ids(|s.pool.jobs|, ds) && |s'.pool.jobs| == |s.pool.jobs|
    ensures (exists j | j in js :: s.pool.jobs[j].pool) || (exists d | d in ds :: !s.pool.jobs[d].pool) ==>
      s'.pool == s.pool
    ensures (forall j | j in js :: !s.pool.jobs[j].pool) && (forall d | d in ds :: s.pool.jobs[d].pool) ==>
      forall j | j in js :: Scheduled(s.pool, s'.pool, j, ds)
  {
    hide SysInv, ScheduleJobs, Scheduled, Stable;
    SysStablePool(s);
    HandlesIds(s.pool, js);
    HandlesIds(s.pool, ds);
    if (forall j | j in js :: !s.pool.jobs[j].pool) && (forall d | d in ds :: s.pool.jobs[d].pool) {
      Accepted(s.pool, js, ds);
    } else {
      Refused(s.pool, js, ds);
    }
  }

  /** From the moment jobs are scheduled, and for the rest of the run, each of them depends on each of
      the given dependencies, stands in its `notify` list and belongs to the pool; and when its body
      has started, all of these dependencies are done and have been started before. */
  lemma ScheduleTakesEffect(states: seq<Sys>, acts: seq<Action>, i: nat, js: seq<nat>, ds: seq<nat>, k: nat)
    requires Run(states, acts) && i < |acts| && acts[i] == Schedule(js, ds) && i < k < |states|
    requires Ids(|states[i].pool.jobs|, js) && Ids(|states[i].pool.jobs|, ds)
    requires forall j | j in js :: !states[i].pool.jobs[j].pool
    requires forall d | d in ds :: states[i].pool.jobs[d].pool
    ensures |states[k].pool.jobs| >= |states[i].pool.jobs|
    ensures forall j | j in js :: Scheduled(states[i].pool, states[i + 1].pool, j, ds)
    ensures forall j | j in js :: states[k].pool.jobs[j].pool
    ensures forall j, d | j in js && d in ds ::
      d in states[k].pool.jobs[j].deps && j in states[k].pool.jobs[d].notify
    ensures forall j, d | j in js && d in ds && states[k].pool.jobs[j].starts > 0 ::
      states[k].pool.jobs[d].done && states[k].pool.jobs[d].starts > 0
  {
    hide SysInv, Next, Init;
    var p, q := states[i + 1].pool, states[k].pool;
    RunKeeps(states, acts, i);
    AcceptedStep(states[i], js, ds, states[i + 1]);
    HistoryGrows(states, acts, i + 1, k);
    RunKeeps(states, acts, k);
    SysStablePool(states[k]);
    forall j | j in js ensures q.jobs[j].pool && q.jobs[j].deps == p.jobs[j].deps {
      assert Later(p.jobs[j], q.jobs[j]);
      assert Scheduled(states[i].pool, p, j, ds);
    }
    forall j, d | j in js && d in ds ensures d in q.jobs[j].deps && j in q.jobs[d].notify {
      assert Scheduled(states[i].pool, p, j, ds);
    }
    forall j, d | j in js && d in ds && q.jobs[j].starts > 0 ensures q.jobs[d].done && q.jobs[d].starts > 0 {
      StartedAfterDependencies(states, acts, k, j, d);
    }
  }
}
