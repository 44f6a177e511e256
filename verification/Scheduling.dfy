/** `startJob` and `scheduleJob` keep the invariant. */
module Scheduling {
  import opened Jobs
  import opened JobInvariant
  import opened Cancellation

  /** What is known about the jobs `e` while they are being scheduled after `ds`.  The dependencies
      in `seen` have been told about them. */
  ghost predicate Entering(p: Pool, e: set<nat>, ds: seq<nat>, seen: seq<nat>) {
    && Ids(|p.jobs|, ds) && Ids(|p.jobs|, seen)
    && (forall d | d in ds :: p.jobs[d].pool && p.jobs[d].Named())
    && (forall j | j in e :: j < |p.jobs| && Newcomer(p, p.jobs[j], ds, seen))
    && (forall j, d | j in e && d in seen :: j in p.jobs[d].notify)
    && (forall j, k | j in e && 0 <= k < |p.jobs| :: j !in p.jobs[k].deps)
  }

  ghost predicate Newcomer(p: Pool, job: Job, ds: seq<nat>, seen: seq<nat>)
    requires Ids(|p.jobs|, ds)
  {
    && job.kind.Plain? && !job.cancelled && !job.done && job.starts == 0
    && SameMembers(job.deps, ds)
    && (job.late ==> !AllDone(p, ds))
    && (seen != [] && AllDone(p, ds) ==> job.queued)
  }

  ghost predicate SameMembers(a: seq<nat>, b: seq<nat>) {
    (forall d | d in a :: d in b) && (forall d | d in b :: d in a)
  }

  ghost predicate AllDone(p: Pool, ds: seq<nat>)
    requires Ids(|p.jobs|, ds)
  {
    forall d | d in ds :: p.jobs[d].done
  }

  lemma AllDoneIsDepsDone(p: Pool, j: nat, ds: seq<nat>)
    requires Refs(p) && Ids(|p.jobs|, ds) && j < |p.jobs| && SameMembers(p.jobs[j].deps, ds)
    ensures AllDone(p, ds) <==> DepsDone(p, j)
  {
  }

  /** The dependencies have been told about the newcomers `e`, and none of them is cancelled. */
  ghost predicate Attaching(p: Pool, e: set<nat>, ds: seq<nat>) {
    && Inv(p, {}, {}, e) && Entering(p, e, ds, ds)
    && (forall d | d in ds :: !p.jobs[d].cancelled && d !in e)
  }

  ghost predicate MayAttach(p: Pool, j: nat, e: set<nat>, ds: seq<nat>) {
    Attaching(p, e, ds) && j in e && j < |p.jobs|
  }

  lemma AttachTouches(p: Pool, j: nat)
    requires Refs(p) && j < |p.jobs|
    ensures var q := AttachJob(p, j);
      && Touches(p, q, j) && q.jobid == p.jobid + 1
      && q.jobs[j] == p.jobs[j].(pool := true, id := p.jobid, pushes := q.jobs[j].pushes)
      && q.jobs[j].pushes == p.jobs[j].pushes + (if Ready(p, j) then 1 else 0)
      && q.queue[j] == p.queue[j] + (if Ready(p, j) then 1 else 0)
  {
  }

  lemma AttachLocal(p: Pool, j: nat, e: set<nat>, ds: seq<nat>)
    requires MayAttach(p, j, e, ds)
    ensures LocalOk(AttachJob(p, j).jobs[j], AttachJob(p, j).queue[j], true)
  {
    InvAt(p, j, {}, {}, e);
    AllDoneIsDepsDone(p, j, ds);
    AttachTouches(p, j);
    if p.jobs[j].deps != [] {
      assert p.jobs[j].deps[0] in p.jobs[j].deps;
    }
  }

  lemma AttachEdges(p: Pool, j: nat, e: set<nat>, ds: seq<nat>)
    requires MayAttach(p, j, e, ds)
    ensures EdgesOf(AttachJob(p, j), j, {}, e)
  {
    var q := AttachJob(p, j);
    AttachTouches(p, j);
    InvAt(p, j, {}, {}, e);
    forall d | d in q.jobs[j].deps ensures EdgeOk(q.jobs[j], q.queue[j], q.jobs[d], true) {
      assert d in ds;
      InvAt(p, d, {}, {}, e);
      assert EdgeOk(p.jobs[j], p.queue[j], p.jobs[d], true);
    }
  }

  /** `attachJob` on a job that is being scheduled. */
  lemma AttachKeeps(p: Pool, j: nat, e: set<nat>, ds: seq<nat>)
    requires MayAttach(p, j, e, ds)
    ensures Inv(AttachJob(p, j), {}, {}, e)
  {
    hide Locals, Edges, Progressing, Kinds;
    var q := AttachJob(p, j);
    AttachTouches(p, j);
    AttachLocal(p, j, e, ds);
    AttachEdges(p, j, e, ds);
    if DepsRun(q, j) {
      assert DepsDone(p, j);
    }
    TouchFreeKeeps(p, q, j, e);
  }

  /** Jobs entered the pool; nothing else about them changed but their number of pushes. */
  ghost predicate Attached(p: Pool, q: Pool) {
    |q.jobs| == |p.jobs| && forall k | 0 <= k < |p.jobs| :: AttachedJob(p.jobs[k], q.jobs[k])
  }

  ghost predicate AttachedJob(a: Job, b: Job) {
    b == a.(pool := b.pool, id := b.id, pushes := b.pushes) && (a.pool ==> b.pool) && (a.id >= 0 ==> b.id >= 0)
  }

  lemma EnteringAttached(p: Pool, q: Pool, e: set<nat>, ds: seq<nat>, seen: seq<nat>)
    requires Entering(p, e, ds, seen) && Attached(p, q)
    ensures Entering(q, e, ds, seen)
  {
    forall j | 0 <= j < |p.jobs|
      ensures q.jobs[j] == p.jobs[j].(pool := q.jobs[j].pool, id := q.jobs[j].id, pushes := q.jobs[j].pushes)
      ensures p.jobs[j].pool ==> q.jobs[j].pool
    {
      assert AttachedJob(p.jobs[j], q.jobs[j]);
    }
    assert AllDone(q, ds) == AllDone(p, ds);
    forall j | j in e ensures Newcomer(q, q.jobs[j], ds, seen) {
      assert Newcomer(p, p.jobs[j], ds, seen) && AttachedJob(p.jobs[j], q.jobs[j]);
    }
  }

  lemma AttachStep(p: Pool, j: nat, e: set<nat>, ds: seq<nat>)
    requires MayAttach(p, j, e, ds)
    ensures var q := AttachJob(p, j);
      Attaching(q, e, ds) && Attached(p, q) && q.jobs[j].pool && q.jobs[j].id >= 0
  {
    hide AttachJob, Locals, Edges, Progressing, Kinds;
    var q := AttachJob(p, j);
    AttachTouches(p, j);
    AttachKeeps(p, j, e, ds);
    InvAt(q, j, {}, {}, e);
    EnteringAttached(p, q, e, ds, ds);
  }

  lemma AttachedTransitive(p: Pool, q: Pool, r: Pool)
    requires Attached(p, q) && Attached(q, r)
    ensures Attached(p, r)
  {
    forall k | 0 <= k < |p.jobs| ensures AttachedJob(p.jobs[k], r.jobs[k]) {
      assert AttachedJob(p.jobs[k], q.jobs[k]) && AttachedJob(q.jobs[k], r.jobs[k]);
    }
  }

  ghost predicate Numbered(p: Pool, l: seq<nat>)
    requires Ids(|p.jobs|, l)
  {
    forall i | 0 <= i < |l| :: p.jobs[l[i]].pool && p.jobs[l[i]].id >= 0
  }

  lemma {:induction false} AttachAllKeeps(p: Pool, js: seq<nat>, e: set<nat>, ds: seq<nat>)
    requires Attaching(p, e, ds) && Within(js, e) && Ids(|p.jobs|, js)
    ensures var q := AttachAll(p, js);
      Attaching(q, e, ds) && Attached(p, q) && Numbered(q, js)
    decreases |js|
  {
    hide AttachJob, Locals, Edges, Progressing, Kinds, SameGraph, Newcomer;
    if js != [] {
      var q := AttachJob(p, js[0]);
      AttachStep(p, js[0], e, ds);
      AttachAllKeeps(q, js[1..], e, ds);
      AttachedTransitive(p, q, AttachAll(q, js[1..]));
      assert AttachedJob(q.jobs[js[0]], AttachAll(q, js[1..]).jobs[js[0]]);
    }
  }

  ghost predicate Within(l: seq<nat>, e: set<nat>) {
    forall i | 0 <= i < |l| :: l[i] in e
  }

  /** When every newcomer is numbered or cancelled, the pool is in order again. */
  lemma Settle(p: Pool, e: set<nat>)
    requires Inv(p, {}, {}, e) && Symmetric(p, {})
    requires forall j | j in e && j < |p.jobs| :: p.jobs[j].pool && (p.jobs[j].cancelled || p.jobs[j].id >= 0)
    requires forall j, d | j in e && j < |p.jobs| && d in p.jobs[j].deps ::
               p.jobs[d].cancelled && p.jobs[d].starts == 0 ==> p.jobs[j].cancelled
    ensures Stable(p)
  {
    forall j | 0 <= j < |p.jobs| ensures LocalOk(p.jobs[j], p.queue[j], false) {
      assert LocalOk(p.jobs[j], p.queue[j], j in e);
    }
    forall j, d | 0 <= j < |p.jobs| && d in p.jobs[j].deps
      ensures EdgeOk(p.jobs[j], p.queue[j], p.jobs[d], false)
    {
      assert EdgeOk(p.jobs[j], p.queue[j], p.jobs[d], d in {} || j in e);
    }
  }

  /** The invariant is weaker while jobs are being scheduled. */
  lemma Enter(p: Pool, e: set<nat>)
    requires Stable(p)
    ensures Inv(p, {}, {}, e) && Symmetric(p, e)
  {
    forall j | 0 <= j < |p.jobs| ensures LocalOk(p.jobs[j], p.queue[j], j in e) {
      assert LocalOk(p.jobs[j], p.queue[j], false);
    }
    forall j, d | 0 <= j < |p.jobs| && d in p.jobs[j].deps
      ensures EdgeOk(p.jobs[j], p.queue[j], p.jobs[d], d in {} || j in e)
    {
      assert EdgeOk(p.jobs[j], p.queue[j], p.jobs[d], false);
    }
  }

  /** Nobody depends on a job outside the pool, and such a job has no history. */
  lemma Outside(p: Pool, j: nat)
    requires Stable(p) && j < |p.jobs| && !p.jobs[j].pool
    ensures p.jobs[j].kind.Plain? && !p.jobs[j].cancelled && !p.jobs[j].done && !p.jobs[j].late
    ensures p.jobs[j].starts == 0 && p.jobs[j].deps == [] && p.jobs[j].notify == []
    ensures forall k | 0 <= k < |p.jobs| :: j !in p.jobs[k].deps
  {
    InvAt(p, j, {}, {}, {});
    forall k | 0 <= k < |p.jobs| ensures j !in p.jobs[k].deps {
      InvAt(p, k, {}, {}, {});
    }
  }

  lemma StartJobKeeps(p: Pool, j: nat)
    requires Stable(p) && j < |p.jobs|
    ensures Stable(StartJob(p, j))
  {
    hide Stable, Inv, Symmetric, AttachJob, SameGraph, MayAttach;
    assert Refs(p) by { StableRefs(p); }
    if !p.jobs[j].pool {
      var q := AttachJob(p, j);
      AloneMayAttach(p, j);
      AttachAlone(p, j);
      SymmetricFrame(p, q, {});
      Settle(q, {j});
    }
  }

  /** A job outside the pool, as the only newcomer. */
  lemma AloneMayAttach(p: Pool, j: nat)
    requires Stable(p) && j < |p.jobs| && !p.jobs[j].pool
    ensures MayAttach(p, j, {j}, []) && Symmetric(p, {}) && p.jobs[j].deps == [] && !p.jobs[j].cancelled
  {
    hide Inv, Symmetric;
    Outside(p, j);
    Enter(p, {j});
    assert SameMembers(p.jobs[j].deps, []);
  }

  lemma AttachAlone(p: Pool, j: nat)
    requires Refs(p) && j < |p.jobs| && MayAttach(p, j, {j}, []) && p.jobs[j].deps == [] && !p.jobs[j].cancelled
    ensures var q := AttachJob(p, j);
      && Inv(q, {}, {}, {j}) && |q.jobs| == |p.jobs|
      && q.jobs[j].pool && q.jobs[j].id >= 0 && q.jobs[j].deps == []
  {
    hide Inv, MayAttach, AttachJob;
    AttachTouches(p, j);
    AttachKeeps(p, j, {j}, []);
    InvAt(AttachJob(p, j), j, {}, {}, {j});
  }

  // ---------------------------------------------------------------- adding the edges

  /** Before and after `addDep`: jobs outside the pool, of which some have got their `deps`. */
  ghost predicate Preparing(p: Pool, e: set<nat>, ds: seq<nat>) {
    && Inv(p, {}, {}, e) && Symmetric(p, e) && Ids(|p.jobs|, ds)
    && (forall d | d in ds :: p.jobs[d].pool && p.jobs[d].Named())
    && (forall j | j in e :: j < |p.jobs| && Prepared(p, p.jobs[j], ds))
    && (forall j, k | j in e && 0 <= k < |p.jobs| :: j !in p.jobs[k].deps)
  }

  ghost predicate Prepared(p: Pool, job: Job, ds: seq<nat>)
    requires Ids(|p.jobs|, ds)
  {
    && !job.pool && !job.done && !job.queued && job.pushes == 0
    && (forall d | d in job.deps :: d in ds)
    && (job.late ==> !AllDone(p, ds))
  }

  lemma AddDepEdges(p: Pool, j: nat, e: set<nat>, ds: seq<nat>)
    requires Preparing(p, e, ds) && j in e
    requires var q := Put(p, j, WithDeps(p, p.jobs[j], ds)); Refs(q)
    ensures Edges(Put(p, j, WithDeps(p, p.jobs[j], ds)), {}, e)
  {
    hide Kinds, Progressing, Symmetric;
    var q := Put(p, j, WithDeps(p, p.jobs[j], ds));
    InvAt(p, j, {}, {}, e);
    forall k, d | 0 <= k < |q.jobs| && d in q.jobs[k].deps
      ensures EdgeOk(q.jobs[k], q.queue[k], q.jobs[d], d in {} || k in e)
    {
      if d in p.jobs[k].deps {
        assert EdgeOk(p.jobs[k], p.queue[k], p.jobs[d], d in {} || k in e);
      }
    }
  }

  lemma AddDepLocals(p: Pool, j: nat, e: set<nat>, ds: seq<nat>)
    requires Preparing(p, e, ds) && j in e
    ensures Refs(Put(p, j, WithDeps(p, p.jobs[j], ds)))
    ensures Locals(Put(p, j, WithDeps(p, p.jobs[j], ds)), e)
    ensures Kinds(Put(p, j, WithDeps(p, p.jobs[j], ds)))
  {
    hide Edges, Progressing, Symmetric;
    var q := Put(p, j, WithDeps(p, p.jobs[j], ds));
    InvAt(p, j, {}, {}, e);
    forall k | 0 <= k < |q.jobs| ensures JobRefs(|q.jobs|, q.jobs[k]) && Trig(q, q.jobs[k].triggers) {
      assert JobRefs(|p.jobs|, p.jobs[k]) && Trig(p, p.jobs[k].triggers);
    }
    forall w | 0 <= w < |q.private| ensures Broadcasts(q, q.private[w]) {
      assert Broadcasts(p, p.private[w]);
    }
  }

  lemma AddDepProgress(p: Pool, j: nat, e: set<nat>, ds: seq<nat>)
    requires Preparing(p, e, ds) && j in e
    requires Refs(Put(p, j, WithDeps(p, p.jobs[j], ds)))
    ensures Progressing(Put(p, j, WithDeps(p, p.jobs[j], ds)), {})
  {
    hide Edges, Locals, Kinds, Symmetric;
    var q := Put(p, j, WithDeps(p, p.jobs[j], ds));
    assert Prepared(p, p.jobs[j], ds);
    forall k | 0 <= k < |q.jobs| ensures ProgressOk(q, k) {
      assert ProgressOk(p, k);
    }
  }

  lemma AddDepKeeps(p: Pool, j: nat, e: set<nat>, ds: seq<nat>)
    requires Preparing(p, e, ds) && j in e
    ensures Preparing(Put(p, j, WithDeps(p, p.jobs[j], ds)), e, ds)
    ensures var q := Put(p, j, WithDeps(p, p.jobs[j], ds)); forall d | d in ds :: d in q.jobs[j].deps
  {
    hide Edges, Locals, Kinds, Progressing;
    var q := Put(p, j, WithDeps(p, p.jobs[j], ds));
    AddDepLocals(p, j, e, ds);
    AddDepEdges(p, j, e, ds);
    AddDepProgress(p, j, e, ds);
    assert Prepared(p, p.jobs[j], ds);
    assert AllDone(p, ds) == AllDone(q, ds);
    forall k | k in e ensures Prepared(q, q.jobs[k], ds) {
      assert Prepared(p, p.jobs[k], ds);
    }
  }

  lemma {:induction false} AddDepsKeeps(p: Pool, js: seq<nat>, e: set<nat>, ds: seq<nat>)
    requires Preparing(p, e, ds) && Within(js, e) && Ids(|p.jobs|, js)
    ensures Preparing(AddDeps(p, js, ds), e, ds)
    ensures forall k, d | 0 <= k < |p.jobs| && d in p.jobs[k].deps :: d in AddDeps(p, js, ds).jobs[k].deps
    ensures forall i, d | 0 <= i < |js| && d in ds :: d in AddDeps(p, js, ds).jobs[js[i]].deps
    decreases |js|
  {
    hide Locals, Edges, Progressing, Kinds, Prepared, Symmetric;
    if js != [] {
      var q := Put(p, js[0], WithDeps(p, p.jobs[js[0]], ds));
      AddDepKeeps(p, js[0], e, ds);
      AddDepsKeeps(q, js[1..], e, ds);
      forall i, d | 0 <= i < |js| && d in ds ensures d in AddDeps(p, js, ds).jobs[js[i]].deps {
        if i > 0 {
          assert js[i] == js[1..][i - 1];
        }
      }
    }
  }

  // ---------------------------------------------------------------- telling the dependencies

  ghost predicate Telling(p: Pool, e: set<nat>, ds: seq<nat>, seen: seq<nat>) {
    && Inv(p, {}, {}, e) && Symmetric(p, e) && Entering(p, e, ds, seen)
    && (forall j | j in e :: !p.jobs[j].pool)
  }

  lemma StartTelling(p: Pool, e: set<nat>, ds: seq<nat>)
    requires Preparing(p, e, ds)
    requires forall j, d | j in e && d in ds :: d in p.jobs[j].deps
    ensures Telling(p, e, ds, [])
  {
    forall j | j in e ensures Newcomer(p, p.jobs[j], ds, []) {
      assert Prepared(p, p.jobs[j], ds);
      InvAt(p, j, {}, {}, e);
    }
  }

  /** The change concerns the lists of those to be told only. */
  ghost predicate SameButLists(a: Job, b: Job) { b == a.(notify := b.notify, triggers := b.triggers) }

  lemma ListsKeep(p: Pool, d: nat, job: Job, e: set<nat>)
    requires Inv(p, {}, {}, e) && d < |p.jobs| && SameButLists(p.jobs[d], job)
    requires JobRefs(|p.jobs|, job) && Trig(p, job.triggers)
    requires p.jobs[d].pool
    ensures Inv(Put(p, d, job), {}, {}, e)
  {
    hide Locals, Edges, Progressing;
    var q := Put(p, d, job);
    forall k | 0 <= k < |q.jobs| ensures JobRefs(|q.jobs|, q.jobs[k]) && Trig(q, q.jobs[k].triggers) {
      assert JobRefs(|p.jobs|, p.jobs[k]) && Trig(p, p.jobs[k].triggers);
    }
    forall w | 0 <= w < |q.private| ensures Broadcasts(q, q.private[w]) {
      assert Broadcasts(p, p.private[w]);
    }
    ListsLocals(p, d, job, e);
    ListsEdges(p, d, job, e);
    ListsProgress(p, d, job);
  }

  lemma ListsLocals(p: Pool, d: nat, job: Job, e: set<nat>)
    requires Locals(p, e) && d < |p.jobs| && SameButLists(p.jobs[d], job)
    requires p.jobs[d].pool
    ensures Locals(Put(p, d, job), e)
  {
    var q := Put(p, d, job);
    forall k | 0 <= k < |q.jobs| ensures LocalOk(q.jobs[k], q.queue[k], k in e) {
      assert LocalOk(p.jobs[k], p.queue[k], k in e);
    }
  }

  lemma ListsEdges(p: Pool, d: nat, job: Job, e: set<nat>)
    requires Refs(p) && Edges(p, {}, e) && d < |p.jobs| && SameButLists(p.jobs[d], job) && Refs(Put(p, d, job))
    ensures Edges(Put(p, d, job), {}, e)
  {
    var q := Put(p, d, job);
    forall k, c | 0 <= k < |q.jobs| && c in q.jobs[k].deps
      ensures EdgeOk(q.jobs[k], q.queue[k], q.jobs[c], c in {} || k in e)
    {
      assert c in p.jobs[k].deps;
      assert EdgeOk(p.jobs[k], p.queue[k], p.jobs[c], c in {} || k in e);
    }
  }

  lemma ListsProgress(p: Pool, d: nat, job: Job)
    requires Refs(p) && Progressing(p, {}) && d < |p.jobs| && SameButLists(p.jobs[d], job) && Refs(Put(p, d, job))
    ensures Progressing(Put(p, d, job), {})
  {
    var q := Put(p, d, job);
    forall k | 0 <= k < |q.jobs| ensures ProgressOk(q, k) {
      assert ProgressOk(p, k);
      forall c | c in p.jobs[k].deps
        ensures q.jobs[c].done == p.jobs[c].done && q.jobs[c].starts == p.jobs[c].starts
      {
      }
    }
  }

  lemma NotifyOneQueues(p: Pool, k: nat)
    requires Refs(p) && k < |p.jobs|
    requires DepsDone(p, k) && p.jobs[k].kind.Plain? && !p.jobs[k].cancelled
    ensures NotifyOne(p, k).jobs[k].queued
  {
  }

  lemma PushedDepsDone(p: Pool, q: Pool, k: nat)
    requires Refs(p) && Refs(q) && SameGraph(p, q) && Pushed(p, q) && k < |p.jobs|
    ensures DepsDone(q, k) == DepsDone(p, k)
  {
    forall d | d in p.jobs[k].deps ensures q.jobs[d].done == p.jobs[d].done {
      assert Replayed(p.jobs[d], q.jobs[d]);
    }
  }

  /** Everything in a replayed `notify` list that may run has been queued afterwards. */
  lemma {:induction false} NotifyAllQueues(p: Pool, l: seq<nat>, i: nat)
    requires Refs(p) && Ids(|p.jobs|, l) && i < |l|
    requires DepsDone(p, l[i]) && p.jobs[l[i]].kind.Plain? && !p.jobs[l[i]].cancelled
    ensures NotifyAll(p, l).jobs[l[i]].queued
    decreases |l|
  {
    hide NotifyOne, DepsDone;
    var k := l[i];
    var q := NotifyOne(p, l[0]);
    NotifyOnePushes(p, l[0]);
    assert Replayed(p.jobs[k], q.jobs[k]);
    if i > 0 {
      PushedDepsDone(p, q, k);
      NotifyAllQueues(q, l[1..], i - 1);
    } else {
      NotifyOneQueues(p, k);
      NotifyAllPushes(q, l[1..]);
      assert Replayed(q.jobs[k], NotifyAll(q, l[1..]).jobs[k]);
    }
  }

  lemma NotifyDepsQueues(p: Pool, d: nat, j: nat)
    requires Refs(p) && d < |p.jobs| && j < |p.jobs| && j in p.jobs[d].notify
    requires DepsDone(p, j) && p.jobs[j].kind.Plain? && !p.jobs[j].cancelled
    ensures NotifyDeps(p, d).jobs[j].queued
  {
    var l := p.jobs[d].notify;
    var i :| 0 <= i < |l| && l[i] == j;
    var q := NotifyAll(p, l);
    NotifyAllQueues(p, l, i);
    TriggerAllPushes(q, p.jobs[d].triggers, p.jobs[d].hasResult);
    assert Replayed(q.jobs[j], NotifyDeps(p, d).jobs[j]);
  }

  lemma TellOneLists(p: Pool, d: nat, js: seq<nat>, e: set<nat>, ds: seq<nat>, seen: seq<nat>)
    requires Telling(p, e, ds, seen) && d in ds && Ids(|p.jobs|, js) && Within(js, e)
    ensures Inv(Put(p, d, WithNotify(p.jobs[d], js)), {}, {}, e)
  {
    hide Locals, Edges, Progressing, Kinds, Symmetric;
    InvAt(p, d, {}, {}, e);
    ListsKeep(p, d, WithNotify(p.jobs[d], js), e);
  }

  lemma TellOneSymmetric(p: Pool, d: nat, js: seq<nat>, e: set<nat>, ds: seq<nat>, seen: seq<nat>)
    requires Telling(p, e, ds, seen) && d in ds && Ids(|p.jobs|, js) && Within(js, e)
    requires Refs(Put(p, d, WithNotify(p.jobs[d], js)))
    ensures Symmetric(Put(p, d, WithNotify(p.jobs[d], js)), e)
  {
    hide Locals, Edges, Progressing, Kinds, LocalOk;
    var q := Put(p, d, WithNotify(p.jobs[d], js));
    forall j, c | 0 <= j < |q.jobs| && 0 <= c < |q.jobs| && j in q.jobs[c].notify
      ensures c in q.jobs[j].deps
    {
      if j !in p.jobs[c].notify {
        assert c == d && j in js;
        var i :| 0 <= i < |js| && js[i] == j;
        assert js[i] in e;
        assert Newcomer(p, p.jobs[j], ds, seen);
      }
    }
  }

  lemma TellOnePut(p: Pool, d: nat, js: seq<nat>, e: set<nat>, ds: seq<nat>, seen: seq<nat>)
    requires Telling(p, e, ds, seen) && d in ds && Ids(|p.jobs|, js) && Within(js, e)
    ensures var q := Put(p, d, WithNotify(p.jobs[d], js));
      && Inv(q, {}, {}, e) && Symmetric(q, e) && Ids(|q.jobs|, ds)
      && (forall j | j in e :: Newcomer(q, q.jobs[j], ds, seen))
  {
    hide Locals, Edges, Progressing, Kinds, LocalOk;
    var q := Put(p, d, WithNotify(p.jobs[d], js));
    TellOneLists(p, d, js, e, ds, seen);
    TellOneSymmetric(p, d, js, e, ds, seen);
    hide Inv, Symmetric;
    assert AllDone(p, ds) == AllDone(q, ds);
    assert !p.jobs[d].done ==> !AllDone(p, ds);
    forall j | j in e ensures Newcomer(q, q.jobs[j], ds, seen) {
      assert Newcomer(p, p.jobs[j], ds, seen);
    }
  }

  /** Replaying changes nothing that matters to a newcomer but its `queued` flag. */
  lemma NewcomerReplayed(p: Pool, q: Pool, j: nat, ds: seq<nat>, seen: seq<nat>, seen': seq<nat>)
    requires Refs(p) && Pushed(p, q) && Ids(|p.jobs|, ds) && j < |p.jobs| && Newcomer(p, p.jobs[j], ds, seen)
    requires AllDone(p, ds) && seen' != [] ==> q.jobs[j].queued
    ensures Newcomer(q, q.jobs[j], ds, seen')
  {
    assert Replayed(p.jobs[j], q.jobs[j]);
    forall d | d in ds ensures q.jobs[d].done == p.jobs[d].done {
      assert Replayed(p.jobs[d], q.jobs[d]);
    }
    assert AllDone(q, ds) == AllDone(p, ds);
  }

  lemma TellOneReplay(p: Pool, d: nat, j: nat, ds: seq<nat>, seen: seq<nat>)
    requires Refs(p) && d < |p.jobs| && j < |p.jobs| && Ids(|p.jobs|, ds) && Newcomer(p, p.jobs[j], ds, seen)
    requires j in p.jobs[d].notify
    ensures Newcomer(NotifyDeps(p, d), NotifyDeps(p, d).jobs[j], ds, seen + [d])
  {
    NotifyDepsPushes(p, d);
    AllDoneIsDepsDone(p, j, ds);
    if AllDone(p, ds) {
      NotifyDepsQueues(p, d, j);
    }
    NewcomerReplayed(p, NotifyDeps(p, d), j, ds, seen, seen + [d]);
  }

  lemma ReplayKeeps(p: Pool, d: nat, e: set<nat>)
    requires Inv(p, {}, {}, e) && Symmetric(p, e) && d < |p.jobs|
    ensures Inv(NotifyDeps(p, d), {}, {}, e) && SameGraph(p, NotifyDeps(p, d)) && Symmetric(NotifyDeps(p, d), e)
  {
    assert Inv(p, {} + Members(p.jobs[d].notify), {}, e);
    NotifyDepsKeeps(p, d, {}, {}, e);
  }

  /** `q` is `p` with one more dependency told, and `r` is `q` after a replay, if any. */
  lemma TellOneNotify(p: Pool, q: Pool, r: Pool, d: nat, js: seq<nat>, e: set<nat>, ds: seq<nat>, seen: seq<nat>)
    requires Telling(p, e, ds, seen) && d in ds && Ids(|p.jobs|, js) && (forall j | j in e :: j in js)
    requires q == Put(p, d, WithNotify(p.jobs[d], js)) && SameGraph(q, r)
    ensures Ids(|r.jobs|, seen + [d])
    ensures forall j, c | j in e && c in seen + [d] :: j in r.jobs[c].notify
    ensures forall j, k | j in e && 0 <= k < |r.jobs| :: j !in r.jobs[k].deps
  {
    hide Inv, Newcomer, Symmetric;
    forall j, c | j in e && c in seen + [d] ensures j in r.jobs[c].notify {
      assert j in js;
    }
  }

  /** `q` is `p` with one more dependency told, and `r` is `q` after a replay, if any. */
  lemma TellOneRest(p: Pool, q: Pool, r: Pool, d: nat, js: seq<nat>, e: set<nat>, ds: seq<nat>, seen: seq<nat>)
    requires Telling(p, e, ds, seen) && d in ds && Ids(|p.jobs|, js) && (forall j | j in e :: j in js)
    requires q == Put(p, d, WithNotify(p.jobs[d], js)) && SameGraph(q, r) && Pushed(q, r)
    requires Inv(r, {}, {}, e) && Symmetric(r, e)
    requires Ids(|r.jobs|, ds) && forall j | j in e :: j < |r.jobs| && Newcomer(r, r.jobs[j], ds, seen + [d])
    ensures Telling(r, e, ds, seen + [d])
  {
    hide Inv, Symmetric, Newcomer, SameGraph;
    TellOneNotify(p, q, r, d, js, e, ds, seen);
    forall k | 0 <= k < |q.jobs|
      ensures p.jobs[k].pool == r.jobs[k].pool && p.jobs[k].Named() == r.jobs[k].Named()
    {
      assert Replayed(q.jobs[k], r.jobs[k]);
    }
  }

  lemma TellOne(p: Pool, d: nat, js: seq<nat>, e: set<nat>, ds: seq<nat>, seen: seq<nat>)
    requires Telling(p, e, ds, seen) && d in ds && Ids(|p.jobs|, js)
    requires Within(js, e) && (forall j | j in e :: j in js)
    ensures Telling(AddNotify(p, d, js), e, ds, seen + [d])
  {
    hide Locals, Edges, Progressing, Kinds, NotifyDeps, Newcomer, Symmetric;
    var q := Put(p, d, WithNotify(p.jobs[d], js));
    TellOnePut(p, d, js, e, ds, seen);
    if q.jobs[d].done {
      var r := NotifyDeps(q, d);
      ReplayKeeps(q, d, e);
      NotifyDepsPushes(q, d);
      forall j | j in e ensures Newcomer(r, r.jobs[j], ds, seen + [d]) {
        assert j in js;
        TellOneReplay(q, d, j, ds, seen);
      }
      TellOneRest(p, q, r, d, js, e, ds, seen);
    } else {
      forall j | j in e ensures Newcomer(q, q.jobs[j], ds, seen + [d]) {
        PushedNothing(q);
        NewcomerReplayed(q, q, j, ds, seen, seen + [d]);
      }
      PushedNothing(q);
      TellOneRest(p, q, q, d, js, e, ds, seen);
    }
  }

  lemma PushedNothing(p: Pool)
    ensures Pushed(p, p)
  {
  }

  lemma {:induction false} TellAll(p: Pool, l: seq<nat>, js: seq<nat>, e: set<nat>, ds: seq<nat>, seen: seq<nat>)
    requires Telling(p, e, ds, seen) && Ids(|p.jobs|, js) && Ids(|p.jobs|, l)
    requires Within(js, e) && (forall j | j in e :: j in js) && (forall d | d in l :: d in ds)
    ensures Telling(AddNotifies(p, l, js), e, ds, seen + l)
    decreases |l|
  {
    hide Locals, Edges, Progressing, Kinds, AddNotify, Entering, Symmetric;
    if l == [] {
      assert seen + l == seen;
    } else {
      assert l[0] in l;
      TellOne(p, l[0], js, e, ds, seen);
      assert seen + l == seen + [l[0]] + l[1..];
      TellAll(AddNotify(p, l[0], js), l[1..], js, e, ds, seen + [l[0]]);
    }
  }

  /** When all dependencies have been told, the edges are symmetric again. */
  lemma Told(p: Pool, e: set<nat>, ds: seq<nat>)
    requires Telling(p, e, ds, ds)
    ensures Symmetric(p, {})
  {
    forall j, d | 0 <= j < |p.jobs| && 0 <= d < |p.jobs| && d in p.jobs[j].deps ensures j in p.jobs[d].notify {
      if j in e {
        assert Newcomer(p, p.jobs[j], ds, ds);
      }
    }
  }

  // ---------------------------------------------------------------- entering cancelled

  /** Newcomers with a cancelled dependency: each is still untouched or already cancelled. */
  ghost predicate Dropping(p: Pool, e: set<nat>) {
    && Inv(p, {}, {}, e) && Symmetric(p, {})
    && (forall j | j in e :: j < |p.jobs| && Dropped(p.jobs[j]))
    && (forall j, k | j in e && 0 <= k < |p.jobs| :: j !in p.jobs[k].deps)
  }

  ghost predicate Dropped(job: Job) {
    job.kind.Plain? && job.notify == [] && job.starts == 0 && (if job.cancelled then job.pool else !job.done)
  }

  function DroppedNow(job: Job): Job { Mark(Joined(job)) }

  lemma CancelDropped(p: Pool, j: nat)
    requires Refs(p) && j < |p.jobs| && Dropped(p.jobs[j]) && !p.jobs[j].cancelled && !p.jobs[j].running
    requires Refs(Put(p, j, Joined(p.jobs[j])))
    ensures CancelJob(Put(p, j, Joined(p.jobs[j])), j) == Put(p, j, DroppedNow(p.jobs[j]))
  {
    var q := Put(p, j, Joined(p.jobs[j]));
    assert Put(q, j, Mark(q.jobs[j])) == Put(p, j, DroppedNow(p.jobs[j]));
  }

  lemma DroppedOk(p: Pool, j: nat, e: set<nat>)
    requires Dropping(p, e) && j in e && !p.jobs[j].cancelled
    ensures var r := Put(p, j, DroppedNow(p.jobs[j]));
      Touches(p, r, j) && NewOk(p, r, j, {}, {}, e) && SameGraph(p, r)
    ensures !p.jobs[j].running
  {
    hide Locals, Edges, Progressing, Kinds, Symmetric;
    var r := Put(p, j, DroppedNow(p.jobs[j]));
    InvAt(p, j, {}, {}, e);
    TouchRefs(p, r, j);
  }

  lemma DropOneKeeps(p: Pool, j: nat, e: set<nat>)
    requires Dropping(p, e) && j in e && !p.jobs[j].cancelled
    ensures Refs(Put(p, j, Joined(p.jobs[j])))
    ensures CancelJob(Put(p, j, Joined(p.jobs[j])), j) == Put(p, j, DroppedNow(p.jobs[j]))
    ensures Inv(Put(p, j, DroppedNow(p.jobs[j])), {}, {}, e) && SameGraph(p, Put(p, j, DroppedNow(p.jobs[j])))
  {
    hide Locals, Edges, Progressing, Kinds, Symmetric, CancelJob, NewOk, LocalOk;
    DroppedOk(p, j, e);
    TouchRefs(p, Put(p, j, Joined(p.jobs[j])), j);
    CancelDropped(p, j);
    TouchFreeKeeps(p, Put(p, j, DroppedNow(p.jobs[j])), j, e);
  }

  lemma DropOne(p: Pool, j: nat, e: set<nat>)
    requires Dropping(p, e) && j in e
    ensures Refs(Put(p, j, Joined(p.jobs[j])))
    ensures var r := CancelJob(Put(p, j, Joined(p.jobs[j])), j);
      && Dropping(r, e) && r.jobs[j].pool && r.jobs[j].cancelled
      && (forall k | 0 <= k < |p.jobs| && k != j :: r.jobs[k] == p.jobs[k])
  {
    hide Locals, Edges, Progressing, Kinds;
    if p.jobs[j].cancelled {
      assert Put(p, j, Joined(p.jobs[j])).jobs == p.jobs;
    } else {
      DropOneKeeps(p, j, e);
      SymmetricFrame(p, Put(p, j, DroppedNow(p.jobs[j])), {});
    }
  }

  lemma {:induction false} DropAll(p: Pool, js: seq<nat>, e: set<nat>)
    requires Dropping(p, e) && Within(js, e) && Ids(|p.jobs|, js)
    ensures Dropping(CancelAll(p, js), e)
    ensures forall i | 0 <= i < |js| :: CancelAll(p, js).jobs[js[i]].cancelled
    ensures forall k | 0 <= k < |p.jobs| && p.jobs[k].cancelled :: CancelAll(p, js).jobs[k].cancelled
    decreases |js|
  {
    hide Locals, Edges, Progressing, Kinds, Symmetric, Joined, CancelJob;
    if js != [] {
      var q := Put(p, js[0], Joined(p.jobs[js[0]]));
      DropOne(p, js[0], e);
      DropAll(CancelJob(q, js[0]), js[1..], e);
    }
  }

  /** Nobody else is touched. */
  lemma {:induction false} DropsOnlyThem(p: Pool, js: seq<nat>, e: set<nat>)
    requires Dropping(p, e) && Within(js, e) && Ids(|p.jobs|, js)
    ensures |CancelAll(p, js).jobs| == |p.jobs|
    ensures forall k | 0 <= k < |p.jobs| && k !in js :: CancelAll(p, js).jobs[k] == p.jobs[k]
    decreases |js|
  {
    hide Inv, Symmetric, Joined, CancelJob, Dropping;
    if js != [] {
      DropOne(p, js[0], e);
      DropsOnlyThem(CancelJob(Put(p, js[0], Joined(p.jobs[js[0]])), js[0]), js[1..], e);
    }
  }

  // ---------------------------------------------------------------- the whole of scheduleJob

  lemma SchedulePrepares(p: Pool, js: seq<nat>, ds: seq<nat>)
    requires Stable(p) && Ids(|p.jobs|, js) && Ids(|p.jobs|, ds) && MaySchedule(p, js, ds)
    requires forall d | d in ds :: p.jobs[d].Named()
    ensures Preparing(p, Members(js), ds)
  {
    hide Locals, Edges, Progressing, Kinds, Symmetric;
    Enter(p, Members(js));
    forall j | j in Members(js)
      ensures Prepared(p, p.jobs[j], ds)
      ensures forall k | 0 <= k < |p.jobs| :: j !in p.jobs[k].deps
    {
      Outside(p, j);
      InvAt(p, j, {}, {}, {});
    }
  }

  lemma ScheduleTells(p: Pool, js: seq<nat>, ds: seq<nat>)
    requires Stable(p) && Ids(|p.jobs|, js) && Ids(|p.jobs|, ds) && MaySchedule(p, js, ds)
    requires forall d | d in ds :: p.jobs[d].Named()
    ensures var q := AddNotifies(AddDeps(p, js, ds), ds, js);
      Telling(q, Members(js), ds, ds)
  {
    hide Locals, Edges, Progressing, Kinds, Symmetric, Prepared, AddNotifies, AddDeps;
    var e := Members(js);
    var q := AddDeps(p, js, ds);
    SchedulePrepares(p, js, ds);
    AddDepsKeeps(p, js, e, ds);
    forall j, d | j in e && d in ds ensures d in q.jobs[j].deps {
      var i :| 0 <= i < |js| && js[i] == j;
      assert d in AddDeps(p, js, ds).jobs[js[i]].deps;
    }
    StartTelling(q, e, ds);
    TellAll(q, ds, js, e, ds, []);
    assert [] + ds == ds;
  }

  lemma ScheduleJobsKeeps(p: Pool, js: seq<nat>, ds: seq<nat>)
    requires Stable(p) && Ids(|p.jobs|, js) && Ids(|p.jobs|, ds)
    requires forall d | d in ds :: p.jobs[d].Named()
    ensures Stable(ScheduleJobs(p, js, ds))
  {
    if MaySchedule(p, js, ds) {
      var e := Members(js);
      var q := AddNotifies(AddDeps(p, js, ds), ds, js);
      ScheduleTells(p, js, ds);
      Told(q, e, ds);
      if SomeCancelled(q, ds) {
        ScheduleCancelled(q, js, ds);
      } else {
        ScheduleAttached(q, js, ds);
      }
    }
  }

  lemma ScheduleCancelled(q: Pool, js: seq<nat>, ds: seq<nat>)
    requires Telling(q, Members(js), ds, ds) && Symmetric(q, {}) && Ids(|q.jobs|, js)
    ensures Stable(CancelAll(q, js))
  {
    var e := Members(js);
    forall j | j in e ensures Dropped(q.jobs[j]) {
      InvAt(q, j, {}, {}, e);
      assert Newcomer(q, q.jobs[j], ds, ds);
    }
    DropAll(q, js, e);
    forall j | j in e ensures CancelAll(q, js).jobs[j].cancelled {
      var i :| 0 <= i < |js| && js[i] == j;
    }
    Settle(CancelAll(q, js), e);
  }

  lemma ScheduleAttached(q: Pool, js: seq<nat>, ds: seq<nat>)
    requires Telling(q, Members(js), ds, ds) && Symmetric(q, {}) && Ids(|q.jobs|, js)
    requires !SomeCancelled(q, ds)
    ensures Stable(AttachAll(q, js))
  {
    var e := Members(js);
    var r := AttachAll(q, js);
    AttachAllKeeps(q, js, e, ds);
    SymmetricFrame(q, r, {});
    forall j | j in e ensures r.jobs[j].pool && r.jobs[j].id >= 0 && SameMembers(r.jobs[j].deps, ds) {
      var i :| 0 <= i < |js| && js[i] == j;
      assert Newcomer(r, r.jobs[j], ds, ds);
    }
    Settle(r, e);
  }
}
