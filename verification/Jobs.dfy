/** Jobs, their dependency graph and the lock-held operations of `Scheduler` on them, as functions
    on values.  `Scheduler.dfy` holds the methods that compute these functions in place. */
module Jobs {

  /** What kind of job an object is.  `Broadcast` is the job of `threadPoolExec`; the two triggers
      carry the number of activations they still need. */
  datatype Kind = Plain | Broadcast | Count(need: nat) | Acc(need: nat) {
    predicate Trigger() { Count? || Acc? }
    predicate Fired() { Trigger() ==> need == 0 }
  }

  /** `pool` says that the job belongs to the pool; `id` is -1 until `attachJob` numbers the job.
      The last four fields are history: how often the job entered the global queue, how often its
      body started and returned, and whether it was scheduled with an unfinished dependency. */
  datatype Job = Job(
    kind: Kind, pool: bool, id: int,
    deps: seq<nat>, notify: seq<nat>, triggers: seq<nat>,
    queued: bool, running: bool, done: bool, cancelled: bool, hasResult: bool,
    pushes: nat, starts: nat, finishes: nat, late: bool) {
    /** `threadPoolExec` returns nothing; its job can be named, by `currentJob`, once a worker
        executes it. */
    predicate Named() { kind.Broadcast? ==> starts > 0 }
  }

  const NEW_JOB := Job(Plain, false, -1, [], [], [], false, false, false, false, false, 0, 0, 0, false)

  /** The fields of `Scheduler`.  The priority queue is a bag: any queued job may be popped next.
      `signals` counts the signals sent to the workers' condition variable. */
  datatype Pool = Pool(
    jobs: seq<Job>, queue: multiset<nat>, private: seq<seq<nat>>, jobid: nat, signals: nat)

  /** All numbers in `l` are numbers of jobs. */
  predicate Ids(n: nat, l: seq<nat>) {
    forall i | 0 <= i < |l| :: l[i] < n
  }

  predicate JobRefs(n: nat, job: Job) {
    Ids(n, job.deps) && Ids(n, job.notify) && Ids(n, job.triggers)
  }

  /** No dangling references. */
  ghost predicate Refs(p: Pool) {
    && (forall j | 0 <= j < |p.jobs| :: JobRefs(|p.jobs|, p.jobs[j]))
    && (forall j | j in p.queue :: j < |p.jobs|)
    && (forall w | 0 <= w < |p.private| :: Ids(|p.jobs|, p.private[w]))
  }

  function Put(p: Pool, j: nat, job: Job): Pool
    requires j < |p.jobs|
  {
    p.(jobs := p.jobs[j := job])
  }

  /** Jobs keep their place in the graph, and nothing but the graph is looked at. */
  ghost predicate SameGraph(p: Pool, q: Pool) {
    && |q.jobs| == |p.jobs|
    && (forall j | 0 <= j < |p.jobs| ::
          && q.jobs[j].deps == p.jobs[j].deps
          && q.jobs[j].notify == p.jobs[j].notify
          && q.jobs[j].triggers == p.jobs[j].triggers)
  }

  // ---------------------------------------------------------------- readiness and the queue

  predicate DepsDone(p: Pool, j: nat)
    requires j < |p.jobs| && Ids(|p.jobs|, p.jobs[j].deps)
  {
    forall d | d in p.jobs[j].deps :: p.jobs[d].done
  }

  predicate Ready(p: Pool, j: nat)
    requires j < |p.jobs| && Ids(|p.jobs|, p.jobs[j].deps)
  {
    DepsDone(p, j) && p.jobs[j].kind.Fired()
  }

  function Signal(p: Pool): Pool { p.(signals := p.signals + 1) }

  /** Job `j` becomes `job` and enters the global queue. */
  function Enqueue(p: Pool, j: nat, job: Job): (q: Pool)
    requires j < |p.jobs|
    ensures Refs(p) && JobRefs(|p.jobs|, job) ==> Refs(q)
  {
    Signal(Put(p, j, job.(pushes := job.pushes + 1)).(queue := p.queue + multiset{j}))
  }

  function AttachJob(p: Pool, j: nat): (q: Pool)
    requires Refs(p) && j < |p.jobs|
    ensures Refs(q) && SameGraph(p, q)
  {
    var job := p.jobs[j].(pool := true, id := p.jobid);
    var q := p.(jobid := p.jobid + 1);
    if Ready(p, j) then Enqueue(q, j, job) else Put(q, j, job)
  }

  // ---------------------------------------------------------------- finishing a job

  /** One entry of a `notify` list. */
  function NotifyOne(p: Pool, k: nat): (q: Pool)
    requires Refs(p) && k < |p.jobs|
    ensures Refs(q) && SameGraph(p, q)
  {
    if !p.jobs[k].queued && Ready(p, k) && !p.jobs[k].cancelled
    then Enqueue(p, k, p.jobs[k].(queued := true))
    else p
  }

  function NotifyAll(p: Pool, l: seq<nat>): (q: Pool)
    requires Refs(p) && Ids(|p.jobs|, l)
    ensures Refs(q) && SameGraph(p, q)
    decreases |l|
  {
    if l == [] then p else
      NotifyAll(NotifyOne(p, l[0]), l[1..])
  }

  /** A chained trigger is offered the result of the job that finished.  A counter takes only an
      absent result; an accumulator takes any, and a present one counts. */
  function TriggerOne(p: Pool, t: nat, hasArg: bool): (q: Pool)
    requires Refs(p) && t < |p.jobs|
    ensures Refs(q) && SameGraph(p, q)
  {
    if !Accepts(p.jobs[t].kind, hasArg) then p else
      var job := Activated(p.jobs[t], if hasArg then 1 else 0);
      if DepsDone(p, t) && job.kind.Fired() then Enqueue(p, t, job) else Put(p, t, job)
  }

  predicate Accepts(k: Kind, hasArg: bool) {
    k.Acc? || (k.Count? && !hasArg)
  }

  /** `activate` with a chain of `units` values. */
  function Counted(k: Kind, units: nat): (k': Kind)
    ensures k'.Trigger() == k.Trigger() && k'.Broadcast? == k.Broadcast? && k'.Plain? == k.Plain?
  {
    match k
    case Count(n) => Count(if n > 0 then n - 1 else 0)
    case Acc(n) => Acc(if n > units then n - units else 0)
    case _ => k
  }

  function Activated(job: Job, units: nat): Job { job.(kind := Counted(job.kind, units)) }

  function TriggerAll(p: Pool, l: seq<nat>, hasArg: bool): (q: Pool)
    requires Refs(p) && Ids(|p.jobs|, l)
    ensures Refs(q) && SameGraph(p, q)
    decreases |l|
  {
    if l == [] then p else
      TriggerAll(TriggerOne(p, l[0], hasArg), l[1..], hasArg)
  }

  function NotifyDeps(p: Pool, j: nat): (q: Pool)
    requires Refs(p) && j < |p.jobs|
    ensures Refs(q) && SameGraph(p, q)
  {
    TriggerAll(NotifyAll(p, p.jobs[j].notify), p.jobs[j].triggers, p.jobs[j].hasResult)
  }

  /** The part of `Job::run` before the lock is dropped. */
  function StartBody(p: Pool, j: nat): Pool
    requires j < |p.jobs|
  {
    Put(p, j, p.jobs[j].(running := true, starts := p.jobs[j].starts + 1))
  }

  /** `Job::run` for a cancelled job: the body is skipped. */
  function SkipBody(p: Pool, j: nat): Pool
    requires Refs(p) && j < |p.jobs|
  {
    var q := Put(p, j, p.jobs[j].(done := true));
    assert SameGraph(p, q);
    NotifyDeps(q, j)
  }

  function Finished(job: Job, result: bool): Job {
    job.(running := false, done := true, finishes := job.finishes + 1,
         hasResult := job.hasResult || result)
  }

  /** The part of `Job::run` after the lock is taken again, and what the worker does next.
      `result` says whether the body left a result. */
  function FinishBody(p: Pool, j: nat, result: bool): Pool
    requires Refs(p) && j < |p.jobs|
  {
    var q := Put(p, j, Finished(p.jobs[j], result));
    assert SameGraph(p, q);
    NotifyDeps(q, j)
  }

  // ---------------------------------------------------------------- cancelling

  function Uncancelled(s: seq<Job>): (n: nat) {
    if s == [] then 0 else (if s[0].cancelled then 0 else 1) + Uncancelled(s[1..])
  }

  lemma {:induction false} UncancelledUpdate(s: seq<Job>, j: nat, job: Job)
    requires j < |s|
    ensures Uncancelled(s[j := job])
         == Uncancelled(s) - (if s[j].cancelled then 0 else 1) + (if job.cancelled then 0 else 1)
  {
    if j == 0 {
      assert s[0 := job][1..] == s[1..];
    } else {
      assert s[j := job][1..] == s[1..][j - 1 := job];
      UncancelledUpdate(s[1..], j - 1, job);
    }
  }

  /** What cancelling does to one job. */
  function Mark(job: Job): Job {
    job.(cancelled := true, done := job.done || !job.running)
  }

  /** Cancelling only marks jobs that were not cancelled before. */
  ghost predicate OnlyMarked(p: Pool, q: Pool) {
    && q == p.(jobs := q.jobs)
    && |q.jobs| == |p.jobs|
    && (forall k | 0 <= k < |p.jobs| ::
          q.jobs[k] == p.jobs[k] || (!p.jobs[k].cancelled && q.jobs[k] == Mark(p.jobs[k])))
  }

  lemma MarkedTransitive(p: Pool, q: Pool, r: Pool)
    requires OnlyMarked(p, q) && OnlyMarked(q, r)
    ensures OnlyMarked(p, r)
  {
    forall k | 0 <= k < |p.jobs|
      ensures r.jobs[k] == p.jobs[k] || (!p.jobs[k].cancelled && r.jobs[k] == Mark(p.jobs[k]))
    {
      assert q.jobs[k] == p.jobs[k] || (!p.jobs[k].cancelled && q.jobs[k] == Mark(p.jobs[k]));
    }
  }

  lemma MarkedGraph(p: Pool, q: Pool)
    requires Refs(p) && OnlyMarked(p, q)
    ensures Refs(q) && SameGraph(p, q)
  {
    forall j | 0 <= j < |q.jobs| ensures JobRefs(|q.jobs|, q.jobs[j]) {
      assert JobRefs(|p.jobs|, p.jobs[j]);
    }
  }

  lemma MarkedOne(p: Pool, j: nat)
    requires j < |p.jobs| && !p.jobs[j].cancelled
    ensures OnlyMarked(p, Put(p, j, Mark(p.jobs[j])))
    ensures Uncancelled(Put(p, j, Mark(p.jobs[j])).jobs) == Uncancelled(p.jobs) - 1
  {
    UncancelledUpdate(p.jobs, j, Mark(p.jobs[j]));
  }

  function CancelJob(p: Pool, j: nat): (q: Pool)
    requires Refs(p) && j < |p.jobs|
    ensures OnlyMarked(p, q) && Uncancelled(q.jobs) <= Uncancelled(p.jobs)
    decreases Uncancelled(p.jobs), 0
  {
    if p.jobs[j].cancelled then p else
      var m := Put(p, j, Mark(p.jobs[j]));
      MarkedOne(p, j);
      MarkedGraph(p, m);
      if p.jobs[j].running || p.jobs[j].done then m else
        var q := CancelDeps(m, p.jobs[j].notify);
        MarkedTransitive(p, m, q);
        q
  }

  function CancelDeps(p: Pool, l: seq<nat>): (q: Pool)
    requires Refs(p) && Ids(|p.jobs|, l)
    ensures OnlyMarked(p, q) && Uncancelled(q.jobs) <= Uncancelled(p.jobs)
    decreases Uncancelled(p.jobs), |l|
  {
    if l == [] then p else
      var q := if p.jobs[l[0]].cancelled then p else CancelJob(p, l[0]);
      MarkedGraph(p, q);
      var r := CancelDeps(q, l[1..]);
      MarkedTransitive(p, q, r);
      r
  }

  // ---------------------------------------------------------------- scheduling

  /** `startJob`: refused when the job already belongs to a pool. */
  function StartJob(p: Pool, j: nat): Pool
    requires Refs(p) && j < |p.jobs|
  {
    if p.jobs[j].pool then p else AttachJob(p, j)
  }

  /** The checks of `scheduleJob`, made before the lock is taken. */
  predicate MaySchedule(p: Pool, js: seq<nat>, ds: seq<nat>)
    requires Ids(|p.jobs|, js) && Ids(|p.jobs|, ds)
  {
    && (forall j | j in js :: !p.jobs[j].pool)
    && (forall d | d in ds :: p.jobs[d].pool)
  }

  predicate SomeCancelled(p: Pool, ds: seq<nat>)
    requires Ids(|p.jobs|, ds)
  {
    exists d | d in ds :: p.jobs[d].cancelled
  }

  /** `addDep`; `late` records whether a dependency was unfinished then. */
  function WithDeps(p: Pool, job: Job, ds: seq<nat>): Job
    requires Ids(|p.jobs|, ds)
  {
    job.(deps := job.deps + ds, late := exists d | d in ds :: !p.jobs[d].done)
  }

  function AddDeps(p: Pool, js: seq<nat>, ds: seq<nat>): (q: Pool)
    requires Refs(p) && Ids(|p.jobs|, js) && Ids(|p.jobs|, ds)
    ensures Refs(q) && |q.jobs| == |p.jobs|
    decreases |js|
  {
    if js == [] then p else
      AddDeps(Put(p, js[0], WithDeps(p, p.jobs[js[0]], ds)), js[1..], ds)
  }

  function WithNotify(job: Job, js: seq<nat>): Job { job.(notify := job.notify + js) }

  /** `addNotify` on one dependency; a finished one is replayed. */
  function AddNotify(p: Pool, d: nat, js: seq<nat>): (q: Pool)
    requires Refs(p) && d < |p.jobs| && Ids(|p.jobs|, js)
    ensures Refs(q) && |q.jobs| == |p.jobs|
  {
    var q := Put(p, d, WithNotify(p.jobs[d], js));
    if q.jobs[d].done then NotifyDeps(q, d) else q
  }

  function AddNotifies(p: Pool, ds: seq<nat>, js: seq<nat>): (q: Pool)
    requires Refs(p) && Ids(|p.jobs|, js) && Ids(|p.jobs|, ds)
    ensures Refs(q) && |q.jobs| == |p.jobs|
    decreases |ds|
  {
    if ds == [] then p else AddNotifies(AddNotify(p, ds[0], js), ds[1..], js)
  }

  function AttachAll(p: Pool, js: seq<nat>): (q: Pool)
    requires Refs(p) && Ids(|p.jobs|, js)
    ensures Refs(q) && SameGraph(p, q)
    decreases |js|
  {
    if js == [] then p else AttachAll(AttachJob(p, js[0]), js[1..])
  }

  function Joined(job: Job): Job { job.(pool := true) }

  /** New jobs with a cancelled dependency enter the pool cancelled. */
  function CancelAll(p: Pool, js: seq<nat>): (q: Pool)
    requires Refs(p) && Ids(|p.jobs|, js)
    ensures Refs(q) && SameGraph(p, q)
    decreases |js|
  {
    if js == [] then p else
      var q := Put(p, js[0], Joined(p.jobs[js[0]]));
      assert SameGraph(p, q);
      var r := CancelJob(q, js[0]);
      MarkedGraph(q, r);
      CancelAll(r, js[1..])
  }

  function ScheduleJobs(p: Pool, js: seq<nat>, ds: seq<nat>): (q: Pool)
    requires Refs(p) && Ids(|p.jobs|, js) && Ids(|p.jobs|, ds)
    ensures Refs(q) && |q.jobs| == |p.jobs|
  {
    if !MaySchedule(p, js, ds) then p else
      var q := AddNotifies(AddDeps(p, js, ds), ds, js);
      if SomeCancelled(q, ds) then CancelAll(q, js) else AttachAll(q, js)
  }
}
