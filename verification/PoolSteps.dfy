/** Every step of a run keeps the invariant of the pool. */
module PoolSteps {
  import opened CondVar
  import opened Jobs
  import opened JobInvariant
  import opened Cancellation
  import opened Scheduling
  import opened CalmSteps
  import opened PoolRuns

  // ---------------------------------------------------------------- new jobs

  /** `q` has one more job, without edges. */
  ghost predicate Appends(p: Pool, q: Pool) {
    && |q.jobs| == |p.jobs| + 1 && q.jobs[..|p.jobs|] == p.jobs
    && q.jobs[|p.jobs|].deps == [] && q.jobs[|p.jobs|].notify == [] && q.jobs[|p.jobs|].triggers == []
    && (forall j | 0 <= j < |p.jobs| :: q.queue[j] == p.queue[j])
    && (forall j | j in q.queue :: j < |q.jobs|)
    && p.jobid <= q.jobid && q.jobs[|p.jobs|].id < q.jobid
    && LocalOk(q.jobs[|p.jobs|], q.queue[|p.jobs|], false)
    && |q.private| == |p.private|
    && (forall w | 0 <= w < |p.private| :: q.private[w] == p.private[w]
          || (q.private[w] == p.private[w] + [|p.jobs|] && q.jobs[|p.jobs|].kind.Broadcast?))
  }

  lemma AppendsAt(p: Pool, q: Pool, j: nat)
    requires Appends(p, q) && j < |p.jobs|
    ensures q.jobs[j] == p.jobs[j]
  {
    assert q.jobs[..|p.jobs|][j] == q.jobs[j];
  }

  lemma AppendRefs(p: Pool, q: Pool)
    requires Refs(p) && Kinds(p) && Appends(p, q)
    ensures Refs(q) && Kinds(q)
  {
    forall j | 0 <= j < |p.jobs|
      ensures q.jobs[j] == p.jobs[j]
      ensures JobRefs(|p.jobs|, p.jobs[j]) && Trig(p, p.jobs[j].triggers)
    {
      AppendsAt(p, q, j);
    }
    forall w | 0 <= w < |q.private| ensures Ids(|q.jobs|, q.private[w]) && Broadcasts(q, q.private[w]) {
      assert Ids(|p.jobs|, p.private[w]) && Broadcasts(p, p.private[w]);
    }
  }

  lemma AppendKeeps(p: Pool, q: Pool)
    requires Stable(p) && Appends(p, q)
    requires Refs(q) ==> ProgressOk(q, |p.jobs|)
    ensures Stable(q)
  {
    hide Kinds, Locals, Edges, Progressing, Symmetric;
    AppendRefs(p, q);
    AppendLocals(p, q);
    AppendEdges(p, q);
    AppendSymmetric(p, q);
    AppendProgress(p, q);
  }

  lemma AppendLocals(p: Pool, q: Pool)
    requires Locals(p, {}) && Appends(p, q)
    ensures Locals(q, {})
  {
    forall j | 0 <= j < |q.jobs| ensures LocalOk(q.jobs[j], q.queue[j], false) {
      if j < |p.jobs| {
        AppendsAt(p, q, j);
        assert LocalOk(p.jobs[j], p.queue[j], j in {});
      }
    }
  }

  lemma AppendEdges(p: Pool, q: Pool)
    requires Refs(p) && Edges(p, {}, {}) && Refs(q) && Appends(p, q)
    ensures Edges(q, {}, {})
  {
    forall j, d | 0 <= j < |q.jobs| && d in q.jobs[j].deps
      ensures EdgeOk(q.jobs[j], q.queue[j], q.jobs[d], d in {} || j in {})
    {
      if j < |p.jobs| {
        AppendsAt(p, q, j);
        assert JobRefs(|p.jobs|, p.jobs[j]);
        AppendsAt(p, q, d);
        assert EdgeOk(p.jobs[j], p.queue[j], p.jobs[d], d in {} || j in {});
      }
    }
  }

  lemma AppendSymmetric(p: Pool, q: Pool)
    requires Refs(p) && Symmetric(p, {}) && Refs(q) && Appends(p, q)
    ensures Symmetric(q, {})
  {
    forall j, d | 0 <= j < |q.jobs| && 0 <= d < |q.jobs|
      ensures j in q.jobs[d].notify <==> d in q.jobs[j].deps
    {
      if j < |p.jobs| {
        AppendsAt(p, q, j);
        assert JobRefs(|p.jobs|, p.jobs[j]);
      }
      if d < |p.jobs| {
        AppendsAt(p, q, d);
        assert JobRefs(|p.jobs|, p.jobs[d]);
      }
    }
  }

  lemma AppendProgress(p: Pool, q: Pool)
    requires Refs(p) && Progressing(p, {}) && Refs(q) && Appends(p, q) && ProgressOk(q, |p.jobs|)
    ensures Progressing(q, {})
  {
    forall j | 0 <= j < |q.jobs| ensures ProgressOk(q, j) {
      if j < |p.jobs| {
        AppendsAt(p, q, j);
        assert JobRefs(|p.jobs|, p.jobs[j]);
        forall d | d in p.jobs[j].deps ensures q.jobs[d] == p.jobs[d] {
          AppendsAt(p, q, d);
        }
        assert ProgressOk(p, j);
      }
    }
  }

  lemma CreateKeeps(p: Pool)
    requires Stable(p)
    ensures Stable(AddJob(p, NEW_JOB))
  {
    hide Kinds, Locals, Edges, Progressing, Symmetric;
    AppendKeeps(p, AddJob(p, NEW_JOB));
  }

  lemma NewTriggerKeeps(p: Pool, kind: Kind)
    requires Stable(p) && kind.Trigger()
    ensures Refs(AddJob(p, NEW_JOB.(kind := kind))) && Stable(NewTriggerJob(p, kind))
  {
    hide Kinds, Locals, Edges, Progressing, Symmetric;
    var p1 := AddJob(p, NEW_JOB.(kind := kind));
    assert Refs(p1);
    var q := NewTriggerJob(p, kind);
    assert |p.jobs| !in p.queue;
    assert q.jobs[..|p.jobs|] == p.jobs;
    AppendKeeps(p, q);
  }

  lemma BroadcastKeeps(p: Pool)
    requires Stable(p)
    ensures Stable(BroadcastJob(p))
  {
    hide Kinds, Locals, Edges, Progressing, Symmetric;
    var q := BroadcastJob(p);
    assert |p.jobs| !in p.queue;
    assert q.jobs[..|p.jobs|] == p.jobs;
    AppendKeeps(p, q);
  }

  // ---------------------------------------------------------------- triggers

  lemma ChainKeeps(p: Pool, t: nat, j: nat)
    requires Stable(p) && Handle(p, t) && p.jobs[t].kind.Trigger() && Handle(p, j) && p.jobs[j].pool
    ensures Stable(ChainTrigger(p, t, j))
  {
    hide Kinds, Locals, Edges, Progressing;
    InvAt(p, j, {}, {}, {});
    ListsKeep(p, j, p.jobs[j].(triggers := p.jobs[j].triggers + [t]), {});
  }

  lemma UpdateKeeps(p: Pool, t: nat, units: nat)
    requires Stable(p) && Handle(p, t) && p.jobs[t].kind.Trigger()
    ensures Stable(UpdateTrigger(p, t, units))
  {
    hide Stable, SkipBody, Yields;
    if Accepts(p.jobs[t].kind, units > 0) {
      var q := Put(p, t, Activated(p.jobs[t], units));
      ActivatedRefs(p, t, units);
      if Ready(q, t) && !q.jobs[t].cancelled {
        FiredKeeps(p, t, units);
      } else {
        ActivatedKeeps(p, t, units);
        if Ready(q, t) {
          YieldsItself(q, t);
          SkipBodyKeeps(q, q, t);
        }
      }
    }
  }

  lemma YieldsItself(p: Pool, t: nat)
    requires t < |p.jobs| && !p.jobs[t].kind.Plain?
    ensures Yields(p, p, t)
  {
  }

  lemma ActivatedRefs(p: Pool, t: nat, units: nat)
    requires Stable(p) && t < |p.jobs|
    ensures Refs(Put(p, t, Activated(p.jobs[t], units)))
  {
    TouchRefs(p, Put(p, t, Activated(p.jobs[t], units)), t);
  }

  /** A trigger that is activated but is not to run, or is cancelled. */
  lemma ActivatedKeeps(p: Pool, t: nat, units: nat)
    requires Stable(p) && t < |p.jobs| && p.jobs[t].kind.Trigger()
    requires var q := Put(p, t, Activated(p.jobs[t], units));
      Refs(q) && (!Ready(q, t) || p.jobs[t].cancelled)
    ensures Stable(Put(p, t, Activated(p.jobs[t], units)))
  {
    hide Kinds, Locals, Edges, Progressing, Symmetric;
    var q := Put(p, t, Activated(p.jobs[t], units));
    InvAt(p, t, {}, {}, {});
    TouchRefs(p, q, t);
    TouchKeeps(p, q, t, {}, {}, {}, {}, {});
    SymmetricFrame(p, q, {});
  }

  /** A trigger that runs. */
  lemma FiredKeeps(p: Pool, t: nat, units: nat)
    requires Stable(p) && t < |p.jobs| && p.jobs[t].kind.Trigger() && !p.jobs[t].cancelled
    ensures Stable(StartBody(Put(p, t, Activated(p.jobs[t], units)), t))
  {
    hide Kinds, Locals, Edges, Progressing, Symmetric;
    var r := StartBody(Put(p, t, Activated(p.jobs[t], units)), t);
    InvAt(p, t, {}, {}, {});
    TouchRefs(p, r, t);
    TouchKeeps(p, r, t, {}, {}, {}, {}, {});
    SymmetricFrame(p, r, {});
  }

  // ---------------------------------------------------------------- taking a job

  lemma SignalKeeps(p: Pool)
    requires Stable(p)
    ensures Stable(Signal(p))
  {
    assert SameGraph(p, Signal(p));
    forall j | 0 <= j < |p.jobs| ensures JobRefs(|p.jobs|, p.jobs[j]) && Trig(Signal(p), p.jobs[j].triggers) {
      assert Trig(p, p.jobs[j].triggers);
    }
    forall j | 0 <= j < |p.jobs| ensures ProgressOk(Signal(p), j) {
      assert ProgressOk(p, j);
    }
  }

  lemma PrivateKeeps(p: Pool, w: nat)
    requires Stable(p) && HasPrivate(p, w)
    ensures Stable(p.(private := p.private[w := p.private[w][1..]]))
    ensures p.private[w][0] < |p.jobs| && p.jobs[p.private[w][0]].kind.Broadcast?
  {
    hide LocalOk, EdgeOk;
    var q := p.(private := p.private[w := p.private[w][1..]]);
    PrivateKinds(p, w);
    forall j | 0 <= j < |p.jobs| ensures ProgressOk(q, j) {
      assert ProgressOk(p, j);
    }
  }

  lemma PrivateKinds(p: Pool, w: nat)
    requires Refs(p) && Kinds(p) && HasPrivate(p, w)
    ensures var q := p.(private := p.private[w := p.private[w][1..]]); Refs(q) && Kinds(q)
    ensures p.private[w][0] < |p.jobs| && p.jobs[p.private[w][0]].kind.Broadcast?
  {
    var q := p.(private := p.private[w := p.private[w][1..]]);
    assert Ids(|p.jobs|, p.private[w]) && Broadcasts(p, p.private[w]);
    forall v | 0 <= v < |q.private| ensures Ids(|q.jobs|, q.private[v]) && Broadcasts(q, q.private[v]) {
      assert Ids(|p.jobs|, p.private[v]) && Broadcasts(p, p.private[v]);
    }
    forall j | 0 <= j < |p.jobs| ensures JobRefs(|p.jobs|, p.jobs[j]) && Trig(q, p.jobs[j].triggers) {
      assert Trig(p, p.jobs[j].triggers);
    }
  }

  lemma TakeYields(p: Pool, w: nat, j: nat)
    requires !HasPrivate(p, w) && j in p.queue && j < |p.jobs|
    ensures Yields(p, Take(p, w, j), j)
  {
    hide LocalOk, Inv;
  }

  /** A worker takes a job from its private queue. */
  lemma TakePrivateKeeps(p: Pool, w: nat, j: nat)
    requires Stable(p) && HasPrivate(p, w) && j == p.private[w][0] && Refs(Take(p, w, j))
    ensures j < |p.jobs|
    ensures Stable(if p.jobs[j].cancelled then SkipBody(Take(p, w, j), j) else StartBody(Take(p, w, j), j))
  {
    hide Kinds, Locals, Edges, Progressing, Symmetric, SkipBody, Yields;
    var q := Take(p, w, j);
    PrivateKeeps(p, w);
    SignalKeeps(p.(private := p.private[w := p.private[w][1..]]));
    if p.jobs[j].cancelled {
      YieldsItself(q, j);
      SkipBodyKeeps(q, q, j);
    } else {
      StartOtherKeeps(q, j);
    }
  }

  /** A worker takes a job and starts it, or skips it. */
  lemma TakeKeeps(p: Pool, w: nat, j: nat)
    requires Stable(p) && MayTake(p, w, j) && j < |p.jobs| && Refs(Take(p, w, j))
    ensures Stable(if p.jobs[j].cancelled then SkipBody(Take(p, w, j), j) else StartBody(Take(p, w, j), j))
  {
    hide Stable, SkipBody, Yields;
    if HasPrivate(p, w) {
      TakePrivateKeeps(p, w, j);
    } else if p.jobs[j].cancelled {
      TakeYields(p, w, j);
      SkipBodyKeeps(p, Take(p, w, j), j);
    } else {
      PopStartKeeps(p, j);
      SignalKeeps(StartBody(Pop(p, j), j));
    }
  }
}
