/** Why the single-threaded loop comes to an end, and what it leaves. */
module DrainMeasure {
  import opened Jobs
  import opened JobInvariant
  import opened CalmSteps
  import opened PoolRuns
  import opened PoolSteps
  import opened PoolInvariant
  import opened PoolTheorems

  /** Jobs that can still be queued by a `notify` list. */
  function Unqueued(s: seq<Job>): (n: nat) {
    if s == [] then 0 else (if s[0].queued then 0 else 1) + Unqueued(s[1..])
  }

  lemma {:induction false} UnqueuedFalls(s: seq<Job>, t: seq<Job>)
    requires |s| == |t| && forall j | 0 <= j < |s| :: s[j].queued ==> t[j].queued
    ensures Unqueued(t) <= Unqueued(s)
    ensures Unqueued(t) == Unqueued(s) ==> forall j | 0 <= j < |s| :: s[j].queued == t[j].queued
  {
    if s != [] {
      UnqueuedFalls(s[1..], t[1..]);
      if Unqueued(t) == Unqueued(s) {
        forall j | 0 <= j < |s| ensures s[j].queued == t[j].queued {
          if j > 0 {
            assert s[1..][j - 1].queued == t[1..][j - 1].queued;
          }
        }
      }
    }
  }

  ghost predicate NoTriggers(p: Pool) {
    forall j | 0 <= j < |p.jobs| :: !p.jobs[j].kind.Trigger()
  }

  /** Nothing is pushed unless a job becomes queued for the first time. */
  lemma PushesQueue(p: Pool, q: Pool)
    requires Pushed(p, q) && NoTriggers(p) && Refs(p) && Refs(q) && Locals(q, {})
    ensures Unqueued(q.jobs) < Unqueued(p.jobs) || (Unqueued(q.jobs) == Unqueued(p.jobs) && |q.queue| <= |p.queue|)
    ensures NoTriggers(q)
  {
    forall j | 0 <= j < |p.jobs| ensures p.jobs[j].queued ==> q.jobs[j].queued {
      assert Replayed(p.jobs[j], q.jobs[j]);
    }
    UnqueuedFalls(p.jobs, q.jobs);
    if Unqueued(q.jobs) == Unqueued(p.jobs) {
      forall j | j in q.queue ensures q.queue[j] <= p.queue[j] {
        assert Replayed(p.jobs[j], q.jobs[j]);
        assert LocalOk(q.jobs[j], q.queue[j], j in {});
      }
      assert p.queue == q.queue + (p.queue - q.queue);
    }
    forall j | 0 <= j < |q.jobs| ensures !q.jobs[j].kind.Trigger() {
      assert Replayed(p.jobs[j], q.jobs[j]);
    }
  }

  ghost predicate NoBodies(p: Pool) {
    forall j | 0 <= j < |p.jobs| :: p.jobs[j].starts == p.jobs[j].finishes
  }

  lemma NoUnfired(p: Pool, j: nat)
    requires NoTriggers(p)
    ensures !DependsOnUnfired(p, j)
  {
    forall path | DepPath(p, path) ensures !Unfired(p.jobs[path[|path| - 1]]) {
    }
  }

  /** A pool at rest in which there are no triggers has nothing left to do. */
  lemma DrainedIsDone(p: Pool, j: nat)
    requires Stable(p) && NoBodies(p) && NoTriggers(p) && p.queue == multiset{}
    requires j < |p.jobs| && p.jobs[j].pool && p.jobs[j].Named()
    ensures p.jobs[j].done
  {
    InvAt(p, j, {}, {}, {});
    if !p.jobs[j].done {
      Progress(p, j);
      NoUnfired(p, j);
      assert false;
    }
  }

  /** In a pool without executing bodies, a queued job's dependencies have all run to the end. */
  lemma QueuedDepsFinished(p: Pool, j: nat, d: nat)
    requires Stable(p) && NoBodies(p) && j < |p.jobs| && p.queue[j] > 0 && !p.jobs[j].cancelled
    requires d in p.jobs[j].deps
    ensures d < |p.jobs| && p.jobs[d].finishes > 0
  {
    QueuedDepsRun(p, j);
  }

  // ---------------------------------------------------------------- one round of the loop

  /** One round of the single-threaded loop: a job is taken, its body is executed unless it has
      been cancelled, and its dependents are told. */
  function Round(p: Pool, j: nat, result: bool): Pool
    requires Refs(Take(p, 0, j)) && j < |p.jobs|
  {
    var q := Take(p, 0, j);
    if p.jobs[j].cancelled then SkipBody(q, j) else
      TouchRefs(q, StartBody(q, j), j);
      FinishBody(StartBody(q, j), j, result)
  }

  lemma RoundKeeps(p: Pool, j: nat, result: bool)
    requires Stable(p) && NoBodies(p) && NoTriggers(p) && MayTake(p, 0, j) && j < |p.jobs| && Refs(Take(p, 0, j))
    ensures Stable(Round(p, j, result)) && NoBodies(Round(p, j, result))
  {
    hide Stable, Take, FinishBody, SkipBody;
    var q := Take(p, 0, j);
    TakeKeeps(p, 0, j);
    TakeCounts(p, 0, j);
    if p.jobs[j].cancelled {
      SkipBodyIsCalm(q, j);
      forall k | 0 <= k < |p.jobs|
        ensures Round(p, j, result).jobs[k].starts == Round(p, j, result).jobs[k].finishes
      {
        assert CalmJob(q.jobs[k], SkipBody(q, j).jobs[k]);
      }
    } else {
      TouchRefs(q, StartBody(q, j), j);
      FinishBodyKeeps(StartBody(q, j), j, result);
      FinishBodyCounts(StartBody(q, j), j, result);
    }
  }

  /** The job that is marked done before its dependents are told. */
  function Served(p: Pool, j: nat, result: bool): Pool
    requires j < |p.jobs|
  {
    if p.jobs[j].cancelled then Put(Take(p, 0, j), j, p.jobs[j].(done := true))
    else Put(StartBody(Take(p, 0, j), j), j, Finished(StartBody(Take(p, 0, j), j).jobs[j], result))
  }

  lemma RoundServes(p: Pool, j: nat, result: bool)
    requires Refs(Take(p, 0, j)) && j < |p.jobs|
    ensures Refs(Served(p, j, result)) && Round(p, j, result) == NotifyDeps(Served(p, j, result), j)
  {
    hide Take, NotifyDeps;
    var q := Take(p, 0, j);
    TakeJobs(p, j);
    TouchRefs(q, StartBody(q, j), j);
    if p.jobs[j].cancelled {
      TouchRefs(q, Served(p, j, result), j);
    } else {
      TouchRefs(StartBody(q, j), Served(p, j, result), j);
    }
  }

  lemma TakeJobs(p: Pool, j: nat)
    ensures Take(p, 0, j).jobs == p.jobs
  {
  }

  /** Work gets less: either some job is queued for the first time, or a queue gets shorter. */
  lemma RoundShrinks(p: Pool, j: nat, result: bool)
    requires Stable(p) && NoTriggers(p) && MayTake(p, 0, j) && j < |p.jobs| && Refs(Take(p, 0, j))
    requires Stable(Round(p, j, result))
    ensures var q := Round(p, j, result);
      && NoTriggers(q) && |q.jobs| == |p.jobs|
      && (|| Unqueued(q.jobs) < Unqueued(p.jobs)
          || (Unqueued(q.jobs) == Unqueued(p.jobs)
              && |q.queue| + PrivateWork(q) < |p.queue| + PrivateWork(p)))
  {
    hide Take, NotifyDeps, Round, Served;
    var m, q := Served(p, j, result), Round(p, j, result);
    RoundServes(p, j, result);
    ServedWork(p, j, result);
    NotifyDepsPushes(m, j);
    PushesQueue(m, q);
  }

  function PrivateWork(p: Pool): nat { if p.private == [] then 0 else |p.private[0]| }

  lemma ServedWork(p: Pool, j: nat, result: bool)
    requires NoTriggers(p) && MayTake(p, 0, j) && j < |p.jobs|
    ensures var m := Served(p, j, result);
      && NoTriggers(m) && |m.jobs| == |p.jobs| && Unqueued(m.jobs) == Unqueued(p.jobs)
      && |m.queue| + PrivateWork(m) < |p.queue| + PrivateWork(p)
  {
    hide Take;
    TakeJobs(p, j);
    TakeShrinks(p, j);
    var m := Served(p, j, result);
    ServedSameQueued(p, j, result);
    UnqueuedFalls(p.jobs, m.jobs);
    UnqueuedFalls(m.jobs, p.jobs);
  }

  lemma ServedSameQueued(p: Pool, j: nat, result: bool)
    requires j < |p.jobs|
    ensures var m := Served(p, j, result);
      && |m.jobs| == |p.jobs| && m.queue == Take(p, 0, j).queue && m.private == Take(p, 0, j).private
      && forall k | 0 <= k < |p.jobs| :: m.jobs[k].queued == p.jobs[k].queued && m.jobs[k].kind == p.jobs[k].kind
  {
    hide Take;
    TakeJobs(p, j);
  }

  lemma TakeShrinks(p: Pool, j: nat)
    requires MayTake(p, 0, j)
    ensures |Take(p, 0, j).queue| + PrivateWork(Take(p, 0, j)) < |p.queue| + PrivateWork(p)
  {
    TakeCounts(p, 0, j);
  }

  /** What a round adds to the history. */
  lemma RoundCounts(p: Pool, j: nat, result: bool)
    requires Refs(p) && Refs(Take(p, 0, j)) && j < |p.jobs|
    ensures var q := Round(p, j, result);
      && SameGraph(p, q) && |q.private| == |p.private|
      && (forall k | 0 <= k < |p.jobs| ::
            q.jobs[k].finishes == p.jobs[k].finishes + (if k == j && !p.jobs[j].cancelled then 1 else 0))
  {
    hide Take, NotifyDeps, Round, Served;
    RoundServes(p, j, result);
    ServedCounts(p, j, result);
    var m, q := Served(p, j, result), Round(p, j, result);
    NotifyDepsPushes(m, j);
    forall k | 0 <= k < |p.jobs| ensures q.jobs[k].finishes == m.jobs[k].finishes {
      assert Replayed(m.jobs[k], q.jobs[k]);
    }
  }

  lemma ServedCounts(p: Pool, j: nat, result: bool)
    requires j < |p.jobs|
    ensures var m := Served(p, j, result);
      && SameGraph(p, m) && |m.private| == |p.private|
      && (forall k | 0 <= k < |p.jobs| ::
            m.jobs[k].finishes == p.jobs[k].finishes + (if k == j && !p.jobs[j].cancelled then 1 else 0))
  {
    TakeJobs(p, j);
  }

  // ---------------------------------------------------------------- the order of execution

  /** Before each entry of `order`, the bodies of its dependencies have returned. */
  ghost predicate Linear(jobs: seq<Job>, order: seq<nat>) {
    forall i | 0 <= i < |order| ::
      order[i] < |jobs| && DepsBefore(jobs, jobs[order[i]].deps, order[..i])
  }

  ghost predicate DepsBefore(jobs: seq<Job>, deps: seq<nat>, before: seq<nat>) {
    forall d | d in deps :: d < |jobs| && (jobs[d].finishes > 0 || d in before)
  }

  /** `order` accounts for all bodies executed since `p0`. */
  ghost predicate Accounted(p0: Pool, p: Pool, order: seq<nat>) {
    |p.jobs| == |p0.jobs| && forall k | 0 <= k < |p.jobs| ::
      p.jobs[k].finishes == p0.jobs[k].finishes + multiset(order)[k]
  }

  lemma TakenDepsFinished(p: Pool, j: nat)
    requires Stable(p) && NoBodies(p) && MayTake(p, 0, j) && j < |p.jobs| && !p.jobs[j].cancelled
    ensures forall d | d in p.jobs[j].deps :: d < |p.jobs| && p.jobs[d].finishes > 0
  {
    if HasPrivate(p, 0) {
      PrivateKeeps(p, 0);
      InvAt(p, j, {}, {}, {});
    } else {
      forall d | d in p.jobs[j].deps ensures d < |p.jobs| && p.jobs[d].finishes > 0 {
        QueuedDepsFinished(p, j, d);
      }
    }
  }

  lemma LinearStep(p0: Pool, p: Pool, order: seq<nat>, j: nat)
    requires Linear(p0.jobs, order) && SameGraph(p0, p) && Accounted(p0, p, order)
    requires Stable(p) && NoBodies(p) && MayTake(p, 0, j) && j < |p.jobs|
    ensures Linear(p0.jobs, order + if p.jobs[j].cancelled then [] else [j])
  {
    hide Stable;
    if !p.jobs[j].cancelled {
      TakenDepsFinished(p, j);
      forall d | d in p0.jobs[j].deps
        ensures d < |p0.jobs| && (p0.jobs[d].finishes > 0 || d in order)
      {
        assert d in p.jobs[j].deps;
      }
      forall i | 0 <= i < |order| + 1
        ensures (order + [j])[i] < |p0.jobs|
        ensures DepsBefore(p0.jobs, p0.jobs[(order + [j])[i]].deps, (order + [j])[..i])
      {
        assert (order + [j])[..i] == order[..i];
        if i == |order| {
          assert order[..i] == order;
        }
      }
    } else {
      assert order + [] == order;
    }
  }

  /** The invariant of the loop. */
  ghost predicate Draining(p0: Pool, p: Pool, order: seq<nat>) {
    && Stable(p) && NoBodies(p) && NoTriggers(p) && p.private != []
    && SameGraph(p0, p) && Accounted(p0, p, order) && Linear(p0.jobs, order)
  }

  lemma TakeRefs(p: Pool, j: nat)
    requires Refs(p) && MayTake(p, 0, j)
    ensures Refs(Take(p, 0, j))
  {
    forall v | 0 <= v < |p.private| ensures Ids(|p.jobs|, p.private[v]) {
    }
  }

  lemma DrainingRound(p0: Pool, p: Pool, order: seq<nat>, j: nat, result: bool)
    requires Draining(p0, p, order) && MayTake(p, 0, j) && j < |p.jobs|
    ensures Refs(Take(p, 0, j))
    ensures Draining(p0, Round(p, j, result), order + if p.jobs[j].cancelled then [] else [j])
    ensures var q := Round(p, j, result);
      || Unqueued(q.jobs) < Unqueued(p.jobs)
      || (Unqueued(q.jobs) == Unqueued(p.jobs) && |q.queue| + PrivateWork(q) < |p.queue| + PrivateWork(p))
  {
    hide Stable, Round, Take, Linear, Accounted, SameGraph, NoBodies, NoTriggers;
    assert Refs(p) by { StableRefs(p); }
    TakeRefs(p, j);
    RoundKeeps(p, j, result);
    RoundShrinks(p, j, result);
    RoundAccounted(p0, p, order, j, result);
    LinearStep(p0, p, order, j);
  }

  lemma RoundAccounted(p0: Pool, p: Pool, order: seq<nat>, j: nat, result: bool)
    requires SameGraph(p0, p) && Accounted(p0, p, order) && Refs(p) && Refs(Take(p, 0, j)) && j < |p.jobs|
    ensures var q := Round(p, j, result);
      && SameGraph(p0, q) && |q.private| == |p.private|
      && Accounted(p0, q, order + if p.jobs[j].cancelled then [] else [j])
  {
    hide Round, Take;
    RoundCounts(p, j, result);
    var more := if p.jobs[j].cancelled then [] else [j];
    assert multiset(order + more) == multiset(order) + multiset(more);
  }

  lemma DrainingMeans(p0: Pool, p: Pool, order: seq<nat>)
    requires Draining(p0, p, order)
    ensures Stable(p) && Refs(p) && NoBodies(p) && NoTriggers(p) && p.private != [] && |p.jobs| == |p0.jobs|
    ensures SameGraph(p0, p) && Accounted(p0, p, order) && Linear(p0.jobs, order)
  {
  }

  lemma DrainingBegins(p: Pool)
    requires Stable(p) && NoBodies(p) && NoTriggers(p) && p.private != []
    ensures Draining(p, p, [])
  {
  }
}
