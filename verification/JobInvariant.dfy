/** What every lock-held operation keeps. */
module JobInvariant {
  import opened Jobs

  /** Facts about one job.  `q` is how often it stands in the global queue; `entering` says that it is
      being scheduled right now. */
  ghost predicate LocalOk(job: Job, q: nat, entering: bool) {
    && job.finishes <= job.starts
    && (job.finishes > 0 ==> job.done)
    && (job.running ==> job.finishes < job.starts)
    && (job.starts > 0 && job.finishes == 0 ==> job.running)
    && (job.done ==> job.finishes > 0 || job.cancelled)
    && (job.cancelled && !job.done ==> job.running)
    && (!job.kind.Plain? ==> job.pool && job.deps == [] && !job.queued && !job.late)
    && (job.kind.Broadcast? ==> q == 0)
    && (job.late ==> job.pushes == if job.queued then 1 else 0)
    && (job.kind.Plain? ==> job.starts + q <= job.pushes)
    && (job.kind.Plain? && !job.done ==> job.starts + q == job.pushes)
    && (job.kind.Plain? && job.done && job.starts > 0 && job.finishes == 0 ==> job.starts + q < job.pushes)
    && (job.deps != [] && (q > 0 || job.starts > 0) ==> job.queued)
    && (job.queued ==> job.deps != [])
    && (job.queued && !job.cancelled && !job.done ==> q > 0 || job.finishes < job.starts)
    && (job.pool && !job.cancelled && !job.kind.Broadcast? && !entering ==> job.id >= 0)
    && (!job.pool ==> job.starts == 0 && !job.cancelled && job.id == -1
                      && job.notify == [] && job.triggers == [])
    && (!job.pool && !entering ==> job.deps == [] && !job.queued && q == 0 && job.pushes == 0 && !job.late)
  }

  /** Facts about a job and one of its dependencies.  `exempt` suspends the closure of
      cancellation while it is being established. */
  ghost predicate EdgeOk(job: Job, q: nat, dep: Job, exempt: bool) {
    && dep.pool && dep.Named()
    && (q > 0 || job.queued || job.starts > 0 ==> dep.done)
    && (job.starts > 0 ==> dep.starts > 0)
    && (dep.cancelled && dep.starts == 0 && !exempt ==> job.cancelled)
    && (job.id >= 0 ==> dep.kind.Broadcast? || 0 <= dep.id < job.id)
  }

  /** Every dependency has been run. */
  ghost predicate DepsRun(p: Pool, j: nat)
    requires Refs(p) && j < |p.jobs|
  {
    forall d | d in p.jobs[j].deps :: p.jobs[d].done && p.jobs[d].starts > 0
  }

  /** A job that may run has been queued and has not been lost since. */
  ghost predicate ProgressOk(p: Pool, j: nat)
    requires Refs(p) && j < |p.jobs|
  {
    var job := p.jobs[j];
    job.pool && !job.kind.Broadcast? && !job.cancelled && !job.done && job.kind.Fired() && DepsRun(p, j)
    ==> p.queue[j] > 0 || job.finishes < job.starts
  }

  ghost predicate Trig(p: Pool, l: seq<nat>)
    requires Ids(|p.jobs|, l)
  {
    forall i | 0 <= i < |l| :: p.jobs[l[i]].kind.Trigger()
  }

  ghost predicate Broadcasts(p: Pool, l: seq<nat>)
    requires Ids(|p.jobs|, l)
  {
    forall i | 0 <= i < |l| :: p.jobs[l[i]].kind.Broadcast?
  }

  /** The `deps` and `notify` lists describe the same edges; jobs in `entering` have not been entered
      in all `notify` lists yet. */
  ghost predicate Symmetric(p: Pool, entering: set<nat>)
    requires Refs(p)
  {
    && (forall j, d | 0 <= j < |p.jobs| && 0 <= d < |p.jobs| ::
          j in p.jobs[d].notify ==> d in p.jobs[j].deps)
    && (forall j, d | 0 <= j < |p.jobs| && 0 <= d < |p.jobs| && j !in entering ::
          d in p.jobs[j].deps ==> j in p.jobs[d].notify)
  }

  ghost predicate Kinds(p: Pool)
    requires Refs(p)
  {
    && (forall j | 0 <= j < |p.jobs| :: Trig(p, p.jobs[j].triggers))
    && (forall w | 0 <= w < |p.private| :: Broadcasts(p, p.private[w]))
    && (forall j | 0 <= j < |p.jobs| :: p.jobs[j].id < p.jobid)
  }

  ghost predicate Locals(p: Pool, entering: set<nat>) {
    forall j | 0 <= j < |p.jobs| :: LocalOk(p.jobs[j], p.queue[j], j in entering)
  }

  ghost predicate Edges(p: Pool, open: set<nat>, entering: set<nat>)
    requires Refs(p)
  {
    forall j, d | 0 <= j < |p.jobs| && d in p.jobs[j].deps ::
      EdgeOk(p.jobs[j], p.queue[j], p.jobs[d], d in open || j in entering)
  }

  ghost predicate Progressing(p: Pool, due: set<nat>)
    requires Refs(p)
  {
    forall j | 0 <= j < |p.jobs| && j !in due :: ProgressOk(p, j)
  }

  /** `due`: jobs that need not have been queued yet.  `open`: cancelled jobs whose dependents
      are still being cancelled.  `entering`: jobs being scheduled.  Between two operations all
      three sets are empty. */
  ghost predicate Inv(p: Pool, due: set<nat>, open: set<nat>, entering: set<nat>) {
    Refs(p) && Kinds(p) && Locals(p, entering) && Edges(p, open, entering) && Progressing(p, due)
  }

  ghost predicate Stable(p: Pool) {
    Inv(p, {}, {}, {}) && Symmetric(p, {})
  }

  lemma SymmetricFrame(p: Pool, q: Pool, entering: set<nat>)
    requires Refs(p) && Refs(q) && SameGraph(p, q) && Symmetric(p, entering)
    ensures Symmetric(q, entering)
  {
  }

  // ---------------------------------------------------------------- changing one job

  /** Job `k` and its place in the queues are all that changed, and not its place in the graph. */
  ghost predicate Touches(p: Pool, q: Pool, k: nat) {
    && k < |p.jobs| == |q.jobs|
    && (forall j | 0 <= j < |p.jobs| && j != k :: q.jobs[j] == p.jobs[j] && q.queue[j] == p.queue[j])
    && q.jobs[k].deps == p.jobs[k].deps
    && q.jobs[k].notify == p.jobs[k].notify
    && q.jobs[k].triggers == p.jobs[k].triggers
    && (forall j | j in q.queue :: j in p.queue || j == k)
    && q.private == p.private
  }

  ghost predicate SameKind(d: Job, d': Job) {
    d'.kind.Broadcast? == d.kind.Broadcast? && d'.kind.Trigger() == d.kind.Trigger()
  }

  /** The change is harmless to those that depend on the job. */
  ghost predicate Grows(d: Job, d': Job) {
    && d'.pool == d.pool && d'.id == d.id && SameKind(d, d')
    && (d.done ==> d'.done)
    && d.starts <= d'.starts
  }

  /** Job `k` changes harmlessly, or nobody depends on it. */
  ghost predicate Harmless(p: Pool, q: Pool, k: nat, open: set<nat>)
    requires k < |p.jobs| == |q.jobs|
  {
    || (forall j | 0 <= j < |p.jobs| :: k !in p.jobs[j].deps)
    || (&& Grows(p.jobs[k], q.jobs[k])
        && (q.jobs[k].cancelled && q.jobs[k].starts == 0 ==> p.jobs[k].cancelled || k in open))
  }

  ghost predicate EdgesOf(q: Pool, k: nat, open: set<nat>, entering: set<nat>)
    requires Refs(q) && k < |q.jobs|
  {
    forall d | d in q.jobs[k].deps ::
      EdgeOk(q.jobs[k], q.queue[k], q.jobs[d], d in open || k in entering)
  }

  /** A dependent of `k` may have become ready; it is in `due` then. */
  ghost predicate Releases(p: Pool, q: Pool, k: nat, due: set<nat>)
    requires k < |p.jobs| == |q.jobs|
  {
    q.jobs[k].done && q.jobs[k].starts > 0 && !(p.jobs[k].done && p.jobs[k].starts > 0) ==>
      forall j | 0 <= j < |p.jobs| && k in p.jobs[j].deps :: j in due
  }

  lemma TouchRefs(p: Pool, q: Pool, k: nat)
    requires Refs(p) && Touches(p, q, k)
    ensures Refs(q) && SameGraph(p, q)
  {
    forall j | 0 <= j < |q.jobs| ensures JobRefs(|q.jobs|, q.jobs[j]) {
      assert JobRefs(|p.jobs|, p.jobs[j]);
    }
    forall w | 0 <= w < |q.private| ensures Ids(|q.jobs|, q.private[w]) {
      assert Ids(|p.jobs|, p.private[w]);
    }
  }

  lemma TouchKinds(p: Pool, q: Pool, k: nat)
    requires Refs(p) && Refs(q) && Kinds(p) && Touches(p, q, k) && SameKind(p.jobs[k], q.jobs[k])
    requires p.jobid <= q.jobid && q.jobs[k].id < q.jobid
    ensures Kinds(q)
  {
    forall j | 0 <= j < |q.jobs| ensures Trig(q, q.jobs[j].triggers) {
      assert Trig(p, p.jobs[j].triggers);
    }
    forall w | 0 <= w < |q.private| ensures Broadcasts(q, q.private[w]) {
      assert Broadcasts(p, p.private[w]);
    }
  }

  lemma TouchEdges(p: Pool, q: Pool, k: nat, open: set<nat>, open': set<nat>, entering: set<nat>)
    requires Refs(p) && Refs(q) && Edges(p, open, entering) && Touches(p, q, k)
    requires Harmless(p, q, k, open') && open <= open'
    requires EdgesOf(q, k, open', entering)
    ensures Edges(q, open', entering)
  {
    forall j, d | 0 <= j < |q.jobs| && d in q.jobs[j].deps
      ensures EdgeOk(q.jobs[j], q.queue[j], q.jobs[d], d in open' || j in entering)
    {
      if j != k {
        assert d in p.jobs[j].deps;
        assert EdgeOk(p.jobs[j], p.queue[j], p.jobs[d], d in open || j in entering);
      }
    }
  }

  lemma TouchProgress(p: Pool, q: Pool, k: nat, due: set<nat>, due': set<nat>)
    requires Refs(p) && Refs(q) && Progressing(p, due) && Touches(p, q, k)
    requires due <= due' + {k}
    requires k in due' || ProgressOk(q, k)
    requires Releases(p, q, k, due')
    ensures Progressing(q, due')
  {
    forall j | 0 <= j < |q.jobs| && j !in due' ensures ProgressOk(q, j) {
      if j != k {
        assert ProgressOk(p, j);
        if DepsRun(q, j) && !DepsRun(p, j) {
          var d :| d in p.jobs[j].deps && !(p.jobs[d].done && p.jobs[d].starts > 0);
          assert d in q.jobs[j].deps;
        }
      }
    }
  }

  /** What is to be shown about the job that changed. */
  ghost predicate NewOk(p: Pool, q: Pool, k: nat, due: set<nat>, open: set<nat>, entering: set<nat>)
    requires k < |p.jobs| == |q.jobs|
  {
    && SameKind(p.jobs[k], q.jobs[k]) && p.jobid <= q.jobid && q.jobs[k].id < q.jobid
    && LocalOk(q.jobs[k], q.queue[k], k in entering)
    && Refs(q)
    && EdgesOf(q, k, open, entering)
    && (k in due || ProgressOk(q, k))
    && Releases(p, q, k, due)
  }

  /** The five parts together. */
  lemma TouchKeeps(p: Pool, q: Pool, k: nat, due: set<nat>, due': set<nat>,
                   open: set<nat>, open': set<nat>, entering: set<nat>)
    requires Inv(p, due, open, entering) && Touches(p, q, k)
    requires open <= open' && due <= due' + {k}
    requires Grows(p.jobs[k], q.jobs[k])
    requires q.jobs[k].cancelled && q.jobs[k].starts == 0 ==> p.jobs[k].cancelled || k in open'
    requires NewOk(p, q, k, due', open', entering)
    ensures Inv(q, due', open', entering) && SameGraph(p, q)
  {
    TouchKinds(p, q, k);
    TouchEdges(p, q, k, open, open', entering);
    TouchProgress(p, q, k, due, due');
  }

  /** The same for a job nobody depends on. */
  lemma TouchFreeKeeps(p: Pool, q: Pool, k: nat, entering: set<nat>)
    requires Inv(p, {}, {}, entering) && Touches(p, q, k)
    requires forall j | 0 <= j < |p.jobs| :: k !in p.jobs[j].deps
    requires NewOk(p, q, k, {}, {}, entering)
    ensures Inv(q, {}, {}, entering) && SameGraph(p, q)
  {
    TouchKinds(p, q, k);
    TouchEdges(p, q, k, {}, {}, entering);
    TouchProgress(p, q, k, {}, {});
  }

  // ---------------------------------------------------------------- finishing a job

  ghost function Members(l: seq<nat>): set<nat> { set k | k in l }

  lemma MembersHead(l: seq<nat>)
    requires l != []
    ensures Members(l) == {l[0]} + Members(l[1..])
  {
    assert l == [l[0]] + l[1..];
  }

  /** What the invariant says about one job. */
  lemma InvAt(p: Pool, k: nat, due: set<nat>, open: set<nat>, entering: set<nat>)
    requires Inv(p, due, open, entering) && k < |p.jobs|
    ensures LocalOk(p.jobs[k], p.queue[k], k in entering)
    ensures EdgesOf(p, k, open, entering)
    ensures k in due || ProgressOk(p, k)
    ensures JobRefs(|p.jobs|, p.jobs[k]) && p.jobs[k].id < p.jobid
    ensures Trig(p, p.jobs[k].triggers)
  {
  }

  lemma PushEdges(p: Pool, q: Pool, k: nat, open: set<nat>, entering: set<nat>)
    requires Refs(p) && Refs(q) && k < |p.jobs| && EdgesOf(p, k, open, entering) && DepsDone(p, k)
    requires |q.jobs| == |p.jobs| && (forall d | 0 <= d < |p.jobs| && d != k :: q.jobs[d] == p.jobs[d])
    requires q.jobs[k].deps == p.jobs[k].deps && q.jobs[k].starts == p.jobs[k].starts
    requires q.jobs[k].id == p.jobs[k].id && q.jobs[k].cancelled == p.jobs[k].cancelled
    requires q.jobs[k].done == p.jobs[k].done && q.jobs[k].pool == p.jobs[k].pool && q.jobs[k].kind == p.jobs[k].kind
    ensures EdgesOf(q, k, open, entering)
  {
  }

  lemma NotifyOneKeeps(p: Pool, k: nat, due: set<nat>, open: set<nat>, entering: set<nat>)
    requires Inv(p, due, open, entering) && k < |p.jobs| && p.jobs[k].deps != []
    ensures Inv(NotifyOne(p, k), due - {k}, open, entering) && SameGraph(p, NotifyOne(p, k))
  {
    hide Locals, Edges, Kinds;
    var q := NotifyOne(p, k);
    InvAt(p, k, due, open, entering);
    if q == p {
      assert ProgressOk(p, k);
    } else {
      TouchRefs(p, q, k);
      PushEdges(p, q, k, open, entering);
      TouchKeeps(p, q, k, due, due - {k}, open, open, entering);
    }
  }

  /** What replaying a `notify` list and the triggers does to one job: it may be queued unless it is
      cancelled, and a trigger may need fewer activations. */
  ghost predicate Replayed(a: Job, b: Job) {
    && b == a.(queued := b.queued, pushes := b.pushes, kind := b.kind)
    && a.pushes <= b.pushes
    && (a.queued ==> b.queued) && (a.cancelled ==> b.queued == a.queued)
    && (a.kind.Plain? ==> b.kind == a.kind && b.pushes == a.pushes + (if b.queued && !a.queued then 1 else 0))
    && (a.kind.Broadcast? <==> b.kind.Broadcast?)
    && (a.kind.Trigger() <==> b.kind.Trigger())
  }

  /** Every push is announced by one signal. */
  ghost predicate Pushed(p: Pool, q: Pool) {
    && q == p.(jobs := q.jobs, queue := q.queue, signals := q.signals)
    && |q.jobs| == |p.jobs|
    && (forall j | 0 <= j < |p.jobs| :: Replayed(p.jobs[j], q.jobs[j]))
    && (forall j | 0 <= j < |p.jobs| :: q.queue[j] + p.jobs[j].pushes == p.queue[j] + q.jobs[j].pushes)
    && p.signals <= q.signals && q.signals - p.signals == |q.queue| - |p.queue|
  }

  lemma EnqueuePushes(p: Pool, j: nat, job: Job)
    requires j < |p.jobs| && Replayed(p.jobs[j], job.(pushes := job.pushes + 1))
    requires job.pushes == p.jobs[j].pushes
    ensures Pushed(p, Enqueue(p, j, job)) && Touches(p, Enqueue(p, j, job), j)
  {
  }

  lemma PutPushes(p: Pool, j: nat, job: Job)
    requires j < |p.jobs| && Replayed(p.jobs[j], job) && job.pushes == p.jobs[j].pushes
    ensures Pushed(p, Put(p, j, job)) && Touches(p, Put(p, j, job), j)
  {
  }

  lemma NotifyOnePushes(p: Pool, k: nat)
    requires Refs(p) && k < |p.jobs|
    ensures Pushed(p, NotifyOne(p, k))
  {
    if NotifyOne(p, k) != p {
      EnqueuePushes(p, k, p.jobs[k].(queued := true));
    }
  }

  lemma {:induction false} NotifyAllPushes(p: Pool, l: seq<nat>)
    requires Refs(p) && Ids(|p.jobs|, l)
    ensures Pushed(p, NotifyAll(p, l))
    decreases |l|
  {
    if l != [] {
      var q := NotifyOne(p, l[0]);
      NotifyOnePushes(p, l[0]);
      TouchRefs(p, q, l[0]);
      NotifyAllPushes(q, l[1..]);
      PushedTransitive(p, q, NotifyAll(p, l));
    }
  }

  lemma PushedTransitive(p: Pool, q: Pool, r: Pool)
    requires Pushed(p, q) && Pushed(q, r)
    ensures Pushed(p, r)
  {
    forall j | 0 <= j < |p.jobs| ensures Replayed(p.jobs[j], r.jobs[j]) {
      assert Replayed(p.jobs[j], q.jobs[j]) && Replayed(q.jobs[j], r.jobs[j]);
    }
  }

  lemma TriggerOnePushes(p: Pool, t: nat, hasArg: bool)
    requires Refs(p) && t < |p.jobs|
    ensures Pushed(p, TriggerOne(p, t, hasArg))
    ensures Touches(p, TriggerOne(p, t, hasArg), t)
  {
    if Accepts(p.jobs[t].kind, hasArg) {
      var job := Activated(p.jobs[t], if hasArg then 1 else 0);
      if DepsDone(p, t) && job.kind.Fired() {
        EnqueuePushes(p, t, job);
      } else {
        PutPushes(p, t, job);
      }
    }
  }

  lemma {:induction false} TriggerAllPushes(p: Pool, l: seq<nat>, hasArg: bool)
    requires Refs(p) && Ids(|p.jobs|, l)
    ensures Pushed(p, TriggerAll(p, l, hasArg))
    decreases |l|
  {
    if l != [] {
      var q := TriggerOne(p, l[0], hasArg);
      TriggerOnePushes(p, l[0], hasArg);
      TouchRefs(p, q, l[0]);
      TriggerAllPushes(q, l[1..], hasArg);
      PushedTransitive(p, q, TriggerAll(p, l, hasArg));
    }
  }

  lemma NotifyDepsPushes(p: Pool, j: nat)
    requires Refs(p) && j < |p.jobs|
    ensures Pushed(p, NotifyDeps(p, j))
  {
    var q := NotifyAll(p, p.jobs[j].notify);
    NotifyAllPushes(p, p.jobs[j].notify);
    TriggerAllPushes(q, p.jobs[j].triggers, p.jobs[j].hasResult);
    PushedTransitive(p, q, NotifyDeps(p, j));
  }

  /** Replaying a `notify` list queues exactly those that are due. */
  lemma {:induction false} NotifyAllKeeps(p: Pool, l: seq<nat>, due: set<nat>, open: set<nat>, entering: set<nat>)
    requires Inv(p, due, open, entering) && Ids(|p.jobs|, l)
    requires forall k | k in Members(l) :: p.jobs[k].deps != []
    ensures Inv(NotifyAll(p, l), due - Members(l), open, entering)
    ensures SameGraph(p, NotifyAll(p, l))
    decreases |l|
  {
    if l == [] {
      assert due - Members(l) == due;
    } else {
      MembersHead(l);
      var q := NotifyOne(p, l[0]);
      NotifyOneKeeps(p, l[0], due, open, entering);
      forall k | k in Members(l[1..]) ensures q.jobs[k].deps != [] {
        assert k in Members(l);
      }
      NotifyAllKeeps(q, l[1..], due - {l[0]}, open, entering);
      assert due - {l[0]} - Members(l[1..]) == due - Members(l);
    }
  }

  lemma TriggerOneKeeps(p: Pool, t: nat, hasArg: bool, due: set<nat>, open: set<nat>, entering: set<nat>)
    requires Inv(p, due, open, entering) && t < |p.jobs| && p.jobs[t].kind.Trigger()
    ensures Inv(TriggerOne(p, t, hasArg), due, open, entering)
    ensures SameGraph(p, TriggerOne(p, t, hasArg))
  {
    hide Symmetric, Locals, Edges, Progressing, Kinds;
    var q := TriggerOne(p, t, hasArg);
    InvAt(p, t, due, open, entering);
    TriggerOnePushes(p, t, hasArg);
    if q != p {
      TouchRefs(p, q, t);
      TouchKeeps(p, q, t, due, due, open, open, entering);
    }
  }

  lemma {:induction false} TriggerAllKeeps(p: Pool, l: seq<nat>, hasArg: bool,
                                           due: set<nat>, open: set<nat>, entering: set<nat>)
    requires Inv(p, due, open, entering) && Ids(|p.jobs|, l) && Trig(p, l)
    ensures Inv(TriggerAll(p, l, hasArg), due, open, entering)
    ensures SameGraph(p, TriggerAll(p, l, hasArg))
    decreases |l|
  {
    if l != [] {
      var q := TriggerOne(p, l[0], hasArg);
      TriggerOneKeeps(p, l[0], hasArg, due, open, entering);
      TriggerOnePushes(p, l[0], hasArg);
      assert Trig(q, l[1..]);
      TriggerAllKeeps(q, l[1..], hasArg, due, open, entering);
    }
  }

  /** `notifyDeps` settles everything that waited for `j` only. */
  lemma NotifyDepsKeeps(p: Pool, j: nat, due: set<nat>, open: set<nat>, entering: set<nat>)
    requires j < |p.jobs| && due !! Members(p.jobs[j].notify)
    requires Inv(p, due + Members(p.jobs[j].notify), open, entering) && Symmetric(p, entering)
    ensures Inv(NotifyDeps(p, j), due, open, entering)
    ensures SameGraph(p, NotifyDeps(p, j)) && Symmetric(NotifyDeps(p, j), entering)
  {
    var l := p.jobs[j].notify;
    var q := NotifyAll(p, l);
    forall k | k in Members(l) ensures p.jobs[k].deps != [] {
      assert j in p.jobs[k].deps;
    }
    NotifyAllKeeps(p, l, due + Members(l), open, entering);
    assert due + Members(l) - Members(l) == due;
    NotifyAllPushes(p, l);
    InvAt(q, j, due, open, entering);
    TriggerAllKeeps(q, q.jobs[j].triggers, p.jobs[j].hasResult, due, open, entering);
    SymmetricFrame(p, NotifyDeps(p, j), entering);
  }

  /** A job is marked done and nothing else of interest to its dependents changes. */
  ghost predicate Completes(job: Job, job': Job) {
    job' == job.(running := job'.running, done := true, finishes := job'.finishes, hasResult := job'.hasResult)
  }

  /** `q` is `p`, except that job `j` is done and perhaps no longer queued. */
  ghost predicate Ends(p: Pool, q: Pool, j: nat) {
    && Touches(p, q, j) && Completes(p.jobs[j], q.jobs[j]) && LocalOk(q.jobs[j], q.queue[j], false)
    && q.queue[j] <= p.queue[j] && q.jobid == p.jobid
  }

  lemma DoneReleases(p: Pool, q: Pool, j: nat)
    requires Refs(p) && Symmetric(p, {}) && j < |p.jobs| == |q.jobs|
    ensures Releases(p, q, j, Members(p.jobs[j].notify))
  {
  }

  /** Marking a job done makes its dependents due. */
  lemma DoneTouches(p: Pool, q: Pool, j: nat)
    requires Stable(p) && Ends(p, q, j)
    ensures Refs(q) && SameGraph(p, q) && Inv(q, Members(p.jobs[j].notify), {}, {})
  {
    hide Locals, Edges, Progressing, Kinds, LocalOk, Symmetric, Releases;
    InvAt(p, j, {}, {}, {});
    TouchRefs(p, q, j);
    DoneReleases(p, q, j);
    TouchKeeps(p, q, j, {}, Members(p.jobs[j].notify), {}, {}, {});
  }

  /** ... and `notifyDeps` serves them. */
  lemma DoneKeeps(p: Pool, q: Pool, j: nat)
    requires Stable(p) && Ends(p, q, j)
    ensures Refs(q) && Stable(NotifyDeps(q, j))
  {
    hide Inv, LocalOk, Symmetric, SameGraph, NotifyDeps;
    assert Refs(p) by { StableRefs(p); }
    DoneTouches(p, q, j);
    SymmetricFrame(p, q, {});
    assert {} + Members(p.jobs[j].notify) == Members(p.jobs[j].notify);
    NotifyDepsKeeps(q, j, {}, {}, {});
  }

  lemma StableRefs(p: Pool)
    requires Stable(p)
    ensures Refs(p)
  {
  }

  lemma FinishBodyKeeps(p: Pool, j: nat, result: bool)
    requires Stable(p) && j < |p.jobs| && p.jobs[j].finishes < p.jobs[j].starts
    ensures Stable(FinishBody(p, j, result))
  {
    hide Kinds, Locals, Edges, Progressing, Symmetric, NotifyDeps;
    InvAt(p, j, {}, {}, {});
    DoneKeeps(p, Put(p, j, Finished(p.jobs[j], result)), j);
  }

  /** `q` is `p` without one entry of job `j` in the queue, or `j` is a trigger that
      `updateTrigger` runs. */
  ghost predicate Yields(p: Pool, q: Pool, j: nat) {
    && Touches(p, q, j) && q.jobs[j] == p.jobs[j] && q.jobid == p.jobid
    && (q.queue[j] + 1 == p.queue[j] || (!p.jobs[j].kind.Plain? && q.queue[j] == p.queue[j]))
  }

  lemma SkipBodyKeeps(p: Pool, q: Pool, j: nat)
    requires Stable(p) && Yields(p, q, j) && p.jobs[j].cancelled
    ensures Refs(q) && Stable(SkipBody(q, j))
  {
    hide Kinds, Locals, Edges, Progressing, Symmetric, NotifyDeps;
    assert Refs(q) by { TouchRefs(p, q, j); }
    InvAt(p, j, {}, {}, {});
    DoneKeeps(p, Put(q, j, q.jobs[j].(done := true)), j);
  }

  // ---------------------------------------------------------------- taking a job

  function Pop(p: Pool, j: nat): Pool { p.(queue := p.queue - multiset{j}) }

  /** A queued, uncancelled job waits for nothing: the bodies of its dependencies have started. */
  lemma QueuedDepsRun(p: Pool, j: nat)
    requires Stable(p) && p.queue[j] > 0 && j < |p.jobs| && !p.jobs[j].cancelled
    ensures DepsRun(p, j)
  {
    forall d | d in p.jobs[j].deps ensures p.jobs[d].done && p.jobs[d].starts > 0 {
      InvAt(p, d, {}, {}, {});
      assert EdgeOk(p.jobs[j], p.queue[j], p.jobs[d], d in {} || j in {});
    }
  }

  /** A worker pops an uncancelled job and starts its body. */
  lemma PopStartKeeps(p: Pool, j: nat)
    requires Stable(p) && p.queue[j] > 0 && j < |p.jobs| && !p.jobs[j].cancelled
    ensures Stable(StartBody(Pop(p, j), j))
  {
    hide Symmetric, Locals, Edges, Progressing, Kinds, LocalOk, EdgesOf, ProgressOk, Releases;
    var q := StartBody(Pop(p, j), j);
    InvAt(p, j, {}, {}, {});
    TouchRefs(p, q, j);
    PopStartEdges(p, j);
    PopStartLocal(p, j);
    TouchKeeps(p, q, j, {}, {}, {}, {}, {});
    SymmetricFrame(p, q, {});
  }

  lemma PopStartLocal(p: Pool, j: nat)
    requires Stable(p) && p.queue[j] > 0 && j < |p.jobs| && !p.jobs[j].cancelled
    ensures var q := StartBody(Pop(p, j), j);
      && Refs(q) && LocalOk(q.jobs[j], q.queue[j], false) && ProgressOk(q, j) && Releases(p, q, j, {})
      && p.jobs[j].id < p.jobid
  {
    hide Symmetric, Edges, Progressing;
    var q := StartBody(Pop(p, j), j);
    TouchRefs(p, q, j);
    InvAt(p, j, {}, {}, {});
  }

  lemma PopStartEdges(p: Pool, j: nat)
    requires Stable(p) && p.queue[j] > 0 && j < |p.jobs| && !p.jobs[j].cancelled
    ensures var q := StartBody(Pop(p, j), j); Refs(q) && EdgesOf(q, j, {}, {})
  {
    hide LocalOk, Progressing, Kinds, Symmetric;
    var q := StartBody(Pop(p, j), j);
    TouchRefs(p, q, j);
    QueuedDepsRun(p, j);
    forall d | d in q.jobs[j].deps ensures EdgeOk(q.jobs[j], q.queue[j], q.jobs[d], d in {} || j in {}) {
      assert EdgeOk(p.jobs[j], p.queue[j], p.jobs[d], d in {} || j in {});
    }
  }

  /** A body starts without the global queue: a broadcast job, or a trigger in `updateTrigger`. */
  lemma StartOtherKeeps(p: Pool, j: nat)
    requires Stable(p) && j < |p.jobs| && !p.jobs[j].kind.Plain? && !p.jobs[j].cancelled
    ensures Stable(StartBody(p, j))
  {
    hide Symmetric, Locals, Edges, Progressing, Kinds;
    var q := StartBody(p, j);
    InvAt(p, j, {}, {}, {});
    TouchRefs(p, q, j);
    TouchKeeps(p, q, j, {}, {}, {}, {}, {});
    SymmetricFrame(p, q, {});
  }
}
