/** What the operations that start and finish no body leave alone. */
module CalmSteps {
  import opened Jobs
  import opened JobInvariant
  import opened Cancellation

  /** A job only gets further: flags are raised and never taken back, history grows, and a
      cancelled job never starts again. */
  ghost predicate Later(a: Job, b: Job) {
    && a.kind.Plain? == b.kind.Plain? && SameKind(a, b)
    && (a.done ==> b.done) && (a.cancelled ==> b.cancelled) && (a.pool ==> b.pool) && (a.queued ==> b.queued)
    && a.starts <= b.starts && a.finishes <= b.finishes && a.pushes <= b.pushes
    && (a.cancelled ==> b.starts == a.starts)
    && (a.pool ==> b.deps == a.deps && b.late == a.late)
  }

  ghost predicate CalmJob(a: Job, b: Job) {
    Later(a, b) && a.starts == b.starts && a.finishes == b.finishes
  }

  /** No body starts or returns, the private queues stay, and each push is announced. */
  ghost predicate Calm(p: Pool, q: Pool) {
    && |q.jobs| == |p.jobs| && q.private == p.private
    && p.signals <= q.signals && q.signals - p.signals == |q.queue| - |p.queue|
    && (forall j | 0 <= j < |p.jobs| :: CalmJob(p.jobs[j], q.jobs[j]))
  }

  lemma CalmTransitive(p: Pool, q: Pool, r: Pool)
    requires Calm(p, q) && Calm(q, r)
    ensures Calm(p, r)
  {
    forall j | 0 <= j < |p.jobs| ensures CalmJob(p.jobs[j], r.jobs[j]) {
      assert CalmJob(p.jobs[j], q.jobs[j]) && CalmJob(q.jobs[j], r.jobs[j]);
    }
  }

  lemma PushedIsCalm(p: Pool, q: Pool)
    requires Pushed(p, q)
    ensures Calm(p, q)
  {
    forall j | 0 <= j < |p.jobs| ensures CalmJob(p.jobs[j], q.jobs[j]) {
      assert Replayed(p.jobs[j], q.jobs[j]);
    }
  }

  lemma PutIsCalm(p: Pool, j: nat, job: Job)
    requires j < |p.jobs| && CalmJob(p.jobs[j], job)
    ensures Calm(p, Put(p, j, job))
  {
    forall k | 0 <= k < |p.jobs| && k != j ensures CalmJob(p.jobs[k], p.jobs[k]) {
    }
  }

  lemma CancelIsCalm(p: Pool, j: nat)
    requires Refs(p) && j < |p.jobs|
    ensures Calm(p, CancelJob(p, j))
  {
    var q := CancelJob(p, j);
    forall k | 0 <= k < |p.jobs| ensures CalmJob(p.jobs[k], q.jobs[k]) {
      assert q.jobs[k] == p.jobs[k] || q.jobs[k] == Mark(p.jobs[k]);
    }
  }

  lemma AttachIsCalm(p: Pool, j: nat)
    requires Refs(p) && j < |p.jobs|
    ensures Calm(p, AttachJob(p, j))
  {
    var q := AttachJob(p, j);
    forall k | 0 <= k < |p.jobs| ensures CalmJob(p.jobs[k], q.jobs[k]) {
    }
  }

  lemma NotifyDepsIsCalm(p: Pool, j: nat)
    requires Refs(p) && j < |p.jobs|
    ensures Calm(p, NotifyDeps(p, j))
  {
    NotifyDepsPushes(p, j);
    PushedIsCalm(p, NotifyDeps(p, j));
  }

  // ---------------------------------------------------------------- scheduleJob

  lemma {:induction false} AddDepsIsCalm(p: Pool, js: seq<nat>, ds: seq<nat>)
    requires Refs(p) && Ids(|p.jobs|, js) && Ids(|p.jobs|, ds)
    requires forall i | 0 <= i < |js| :: !p.jobs[js[i]].pool
    ensures Calm(p, AddDeps(p, js, ds))
    decreases |js|
  {
    if js == [] {
      PushedNothing(p);
      PushedIsCalm(p, p);
    } else {
      var job := WithDeps(p, p.jobs[js[0]], ds);
      var q := Put(p, js[0], job);
      PutIsCalm(p, js[0], job);
      AddDepsIsCalm(q, js[1..], ds);
      CalmTransitive(p, q, AddDeps(q, js[1..], ds));
    }
  }

  lemma PushedNothing(p: Pool)
    ensures Pushed(p, p)
  {
  }

  lemma {:induction false} AddNotifiesIsCalm(p: Pool, ds: seq<nat>, js: seq<nat>)
    requires Refs(p) && Ids(|p.jobs|, js) && Ids(|p.jobs|, ds)
    ensures Calm(p, AddNotifies(p, ds, js))
    decreases |ds|
  {
    hide NotifyDeps;
    if ds == [] {
      PushedNothing(p);
      PushedIsCalm(p, p);
    } else {
      var q := Put(p, ds[0], WithNotify(p.jobs[ds[0]], js));
      PutIsCalm(p, ds[0], WithNotify(p.jobs[ds[0]], js));
      assert Refs(q) by { NotifyRefs(p, ds[0], js); }
      var r := AddNotify(p, ds[0], js);
      if q.jobs[ds[0]].done {
        NotifyDepsIsCalm(q, ds[0]);
        CalmTransitive(p, q, r);
      }
      AddNotifiesIsCalm(r, ds[1..], js);
      CalmTransitive(p, r, AddNotifies(r, ds[1..], js));
    }
  }

  lemma NotifyRefs(p: Pool, d: nat, js: seq<nat>)
    requires Refs(p) && Ids(|p.jobs|, js) && d < |p.jobs|
    ensures Refs(Put(p, d, WithNotify(p.jobs[d], js)))
  {
    var q := Put(p, d, WithNotify(p.jobs[d], js));
    forall k | 0 <= k < |q.jobs| ensures JobRefs(|q.jobs|, q.jobs[k]) {
      assert JobRefs(|p.jobs|, p.jobs[k]);
    }
  }

  lemma {:induction false} AttachAllIsCalm(p: Pool, js: seq<nat>)
    requires Refs(p) && Ids(|p.jobs|, js)
    ensures Calm(p, AttachAll(p, js))
    decreases |js|
  {
    hide AttachJob;
    if js == [] {
      PushedNothing(p);
      PushedIsCalm(p, p);
    } else {
      var q := AttachJob(p, js[0]);
      AttachIsCalm(p, js[0]);
      AttachAllIsCalm(q, js[1..]);
      CalmTransitive(p, q, AttachAll(q, js[1..]));
    }
  }

  lemma {:induction false} CancelAllIsCalm(p: Pool, js: seq<nat>)
    requires Refs(p) && Ids(|p.jobs|, js)
    ensures Calm(p, CancelAll(p, js))
    decreases |js|
  {
    hide CancelJob, SameGraph;
    if js == [] {
      PushedNothing(p);
      PushedIsCalm(p, p);
    } else {
      var q := Put(p, js[0], Joined(p.jobs[js[0]]));
      PutIsCalm(p, js[0], Joined(p.jobs[js[0]]));
      TouchRefs(p, q, js[0]);
      CancelIsCalm(q, js[0]);
      var r := CancelJob(q, js[0]);
      MarkedGraph(q, r);
      CalmTransitive(p, q, r);
      CancelAllIsCalm(r, js[1..]);
      CalmTransitive(p, r, CancelAll(r, js[1..]));
    }
  }

  lemma ScheduleIsCalm(p: Pool, js: seq<nat>, ds: seq<nat>)
    requires Refs(p) && Ids(|p.jobs|, js) && Ids(|p.jobs|, ds)
    ensures Calm(p, ScheduleJobs(p, js, ds))
  {
    hide AddDeps, AddNotifies, CancelAll, AttachAll;
    if MaySchedule(p, js, ds) {
      forall i | 0 <= i < |js| ensures !p.jobs[js[i]].pool {
        assert js[i] in js;
      }
      var q := AddDeps(p, js, ds);
      AddDepsIsCalm(p, js, ds);
      var r := AddNotifies(q, ds, js);
      AddNotifiesIsCalm(q, ds, js);
      CalmTransitive(p, q, r);
      CancelAllIsCalm(r, js);
      AttachAllIsCalm(r, js);
      CalmTransitive(p, r, ScheduleJobs(p, js, ds));
    } else {
      PushedNothing(p);
      PushedIsCalm(p, p);
    }
  }
}
