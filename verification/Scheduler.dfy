/** The class `Scheduler`: its lock-held methods change the fields step by step, and each is proved
    to compute the function of `Jobs` that the runs of `PoolRuns` are made of. */
module SchedulerClass {
  import opened Jobs
  import opened JobInvariant
  import opened Cancellation
  import opened Scheduling
  import opened CalmSteps
  import opened PoolRuns
  import opened PoolSteps
  import opened PoolTheorems
  import ScheduleEffect
  import opened DrainMeasure

  /** Activating a trigger does not change whether its dependencies are done. */
  lemma ActivatedReady(p: Pool, t: nat, units: nat)
    requires Refs(p) && t < |p.jobs|
    ensures Refs(Put(p, t, Activated(p.jobs[t], units)))
    ensures Ready(Put(p, t, Activated(p.jobs[t], units)), t)
        <==> DepsDone(p, t) && Activated(p.jobs[t], units).kind.Fired()
  {
    var q := Put(p, t, Activated(p.jobs[t], units));
    TouchRefs(p, q, t);
    forall d | d in p.jobs[t].deps ensures q.jobs[d].done == p.jobs[d].done {
    }
  }

  class Scheduler {
    var jobs: seq<Job>
    var globalQueue: multiset<nat>
    var threadQueues: seq<seq<nat>>
    var jobid: nat
    /** How often `cond.signal()` has been called. */
    var signals: nat
    var shuttingDown: bool
    var shutdownCounter: nat

    function View(): Pool
      reads this
    {
      Pool(jobs, globalQueue, threadQueues, jobid, signals)
    }

    constructor ()
      ensures View() == Pool([], multiset{}, [[]], 0, 0) && !shuttingDown && shutdownCounter == 0
    {
      jobs, globalQueue, threadQueues, jobid, signals := [], multiset{}, [[]], 0, 0;
      shuttingDown, shutdownCounter := false, 0;
    }

    /** `Job::ready`, the test on the trigger included. */
    method IsReady(j: nat) returns (r: bool)
      requires Refs(View()) && j < |jobs|
      ensures r == Ready(View(), j)
    {
      var deps := jobs[j].deps;
      var i := 0;
      while i < |deps|
        invariant 0 <= i <= |deps|
        invariant forall k | 0 <= k < i :: jobs[deps[k]].done
      {
        if !jobs[deps[i]].done {
          assert deps[i] in deps;
          return false;
        }
        i := i + 1;
      }
      return jobs[j].kind.Fired();
    }

    method QueueJob(j: nat)
      requires j < |jobs|
      modifies this`jobs, this`globalQueue, this`signals
      ensures View() == Enqueue(old(View()), j, old(jobs[j]))
    {
      jobs := jobs[j := jobs[j].(pushes := jobs[j].pushes + 1)];
      globalQueue := globalQueue + multiset{j};
      signals := signals + 1;
    }

    method AttachJob(j: nat)
      requires Refs(View()) && j < |jobs|
      modifies this`jobs, this`globalQueue, this`signals, this`jobid
      ensures View() == Jobs.AttachJob(old(View()), j)
    {
      var r := IsReady(j);
      jobs := jobs[j := jobs[j].(pool := true, id := jobid)];
      jobid := jobid + 1;
      if r {
        QueueJob(j);
      }
    }

    method NotifyDeps(j: nat)
      requires Refs(View()) && j < |jobs|
      modifies this`jobs, this`globalQueue, this`signals
      ensures View() == Jobs.NotifyDeps(old(View()), j)
    {
      hide NotifyOne, TriggerOne, SameGraph;
      var notify, triggers, hasArg := jobs[j].notify, jobs[j].triggers, jobs[j].hasResult;
      ghost var p := View();
      var i := 0;
      while i < |notify|
        invariant 0 <= i <= |notify| && Refs(View()) && |jobs| == |p.jobs|
        invariant NotifyAll(View(), notify[i..]) == NotifyAll(p, notify)
      {
        NotifyOneInPlace(notify[i]);
        i := i + 1;
      }
      ghost var q := View();
      i := 0;
      while i < |triggers|
        invariant 0 <= i <= |triggers| && Refs(View()) && |jobs| == |p.jobs|
        invariant TriggerAll(View(), triggers[i..], hasArg) == TriggerAll(q, triggers, hasArg)
      {
        TriggerOneInPlace(triggers[i], hasArg);
        i := i + 1;
      }
    }

    method NotifyOneInPlace(k: nat)
      requires Refs(View()) && k < |jobs|
      modifies this`jobs, this`globalQueue, this`signals
      ensures View() == NotifyOne(old(View()), k) && |jobs| == old(|jobs|)
    {
      var r := IsReady(k);
      if !jobs[k].queued && r && !jobs[k].cancelled {
        jobs := jobs[k := jobs[k].(queued := true)];
        QueueJob(k);
      }
    }

    method TriggerOneInPlace(t: nat, hasArg: bool)
      requires Refs(View()) && t < |jobs|
      modifies this`jobs, this`globalQueue, this`signals
      ensures View() == TriggerOne(old(View()), t, hasArg) && |jobs| == old(|jobs|)
    {
      if Accepts(jobs[t].kind, hasArg) {
        ghost var p := View();
        jobs := jobs[t := Activated(jobs[t], if hasArg then 1 else 0)];
        ActivatedReady(p, t, if hasArg then 1 else 0);
        var r := IsReady(t);
        if r {
          QueueJob(t);
        }
      }
    }

    method CancelDeps(j: nat)
      requires Refs(View()) && j < |jobs|
      modifies this`jobs
      ensures View() == Jobs.CancelDeps(old(View()), old(jobs[j].notify))
      decreases Uncancelled(jobs), 1
    {
      hide OnlyMarked, Jobs.CancelJob, SameGraph;
      var notify := jobs[j].notify;
      ghost var p := View();
      var i := 0;
      while i < |notify|
        invariant 0 <= i <= |notify| && Refs(View()) && |jobs| == |p.jobs| && Ids(|jobs|, notify)
        invariant Uncancelled(jobs) <= Uncancelled(p.jobs)
        invariant Jobs.CancelDeps(View(), notify[i..]) == Jobs.CancelDeps(p, notify)
      {
        ghost var q := View();
        if !jobs[notify[i]].cancelled {
          CancelJob(notify[i]);
          MarkedGraph(q, View());
        }
        i := i + 1;
      }
    }

    method CancelJob(j: nat)
      requires Refs(View()) && j < |jobs|
      modifies this`jobs
      ensures View() == Jobs.CancelJob(old(View()), j) && |jobs| == old(|jobs|)
      decreases Uncancelled(jobs), 0
    {
      if !jobs[j].cancelled {
        ghost var p := View();
        MarkedOne(p, j);
        MarkedGraph(p, Put(p, j, Mark(p.jobs[j])));
        jobs := jobs[j := jobs[j].(cancelled := true)];
        if !jobs[j].running && !jobs[j].done {
          jobs := jobs[j := jobs[j].(done := true)];
          assert View() == Put(p, j, Mark(p.jobs[j]));
          CancelDeps(j);
        } else {
          assert View() == Put(p, j, Mark(p.jobs[j]));
        }
      }
    }

    /** `scheduleJob`.  Reports whether the request was refused. */
    method ScheduleJob(js: seq<nat>, ds: seq<nat>) returns (error: bool)
      requires Refs(View()) && Ids(|jobs|, js) && Ids(|jobs|, ds)
      modifies this`jobs, this`globalQueue, this`signals, this`jobid
      ensures View() == ScheduleJobs(old(View()), js, ds)
      ensures error <==> (exists j | j in js :: old(jobs)[j].pool) || (exists d | d in ds :: !old(jobs)[d].pool)
      ensures error ==> View() == old(View())
      // Each job has all of the dependencies; it is cancelled if one of them is, and queued if all are done.
      ensures !error && Stable(old(View())) && (forall d | d in ds :: old(jobs)[d].Named()) ==>
        forall j | j in js :: j < |jobs| && ScheduleEffect.Scheduled(old(View()), View(), j, ds)
    {
      hide Stable, ScheduleEffect.Scheduled;
      if Stable(View()) && (forall d | d in ds :: jobs[d].Named()) && MaySchedule(View(), js, ds) {
        ScheduleEffect.Accepted(View(), js, ds);
      }
      hide Jobs.AddDeps, Jobs.AttachAll, Jobs.CancelAll, Jobs.AddNotifies;
      error := !MaySchedule(View(), js, ds);
      if error {
        return;
      }
      AddDeps(js, ds);
      var cancelled := AddNotifies(ds, js);
      if cancelled {
        CancelAll(js);
      } else {
        AttachAll(js);
      }
    }

    method AddDeps(js: seq<nat>, ds: seq<nat>)
      requires Refs(View()) && Ids(|jobs|, js) && Ids(|jobs|, ds)
      modifies this`jobs
      ensures View() == Jobs.AddDeps(old(View()), js, ds) && Refs(View()) && |jobs| == old(|jobs|)
    {
      ghost var p := View();
      var i := 0;
      while i < |js|
        invariant 0 <= i <= |js| && Refs(View()) && |jobs| == |p.jobs|
        invariant Jobs.AddDeps(View(), js[i..], ds) == Jobs.AddDeps(p, js, ds)
      {
        assert js[i..][1..] == js[i + 1..];
        jobs := jobs[js[i] := WithDeps(View(), jobs[js[i]], ds)];
        i := i + 1;
      }
    }

    method AddNotify(d: nat, js: seq<nat>)
      requires Refs(View()) && d < |jobs| && Ids(|jobs|, js)
      modifies this`jobs, this`globalQueue, this`signals
      ensures View() == Jobs.AddNotify(old(View()), d, js) && Refs(View()) && |jobs| == old(|jobs|)
    {
      ghost var p := View();
      jobs := jobs[d := WithNotify(jobs[d], js)];
      assert View() == Put(p, d, WithNotify(p.jobs[d], js));
      NotifyRefs(p, d, js);
      if jobs[d].done {
        NotifyDeps(d);
      }
    }

    method AddNotifies(ds: seq<nat>, js: seq<nat>) returns (cancelled: bool)
      requires Refs(View()) && Ids(|jobs|, js) && Ids(|jobs|, ds)
      modifies this`jobs, this`globalQueue, this`signals
      ensures View() == Jobs.AddNotifies(old(View()), ds, js) && Refs(View()) && |jobs| == old(|jobs|)
      ensures cancelled <==> SomeCancelled(View(), ds)
    {
      hide Jobs.AddNotify, SameFlags, SomeBefore, SomeCancelled;
      ghost var p := View();
      FlagsBegin(p, ds);
      cancelled := false;
      var i := 0;
      while i < |ds|
        invariant 0 <= i <= |ds| && Refs(View()) && |jobs| == |p.jobs|
        invariant Jobs.AddNotifies(View(), ds[i..], js) == Jobs.AddNotifies(p, ds, js)
        invariant SameFlags(p, View()) && (cancelled <==> SomeBefore(p, ds, i))
      {
        ghost var q := View();
        assert ds[i..][1..] == ds[i + 1..];
        AddNotify(ds[i], js);
        SameCancelled(q, ds[i], js);
        FlagsNext(p, q, View(), ds, i);
        cancelled := cancelled || jobs[ds[i]].cancelled;
        i := i + 1;
      }
      FlagsEnd(p, View(), ds);
    }

    method AttachAll(js: seq<nat>)
      requires Refs(View()) && Ids(|jobs|, js)
      modifies this`jobs, this`globalQueue, this`signals, this`jobid
      ensures View() == Jobs.AttachAll(old(View()), js)
    {
      hide Jobs.AttachJob;
      ghost var p := View();
      var i := 0;
      while i < |js|
        invariant 0 <= i <= |js| && Refs(View()) && |jobs| == |p.jobs|
        invariant Jobs.AttachAll(View(), js[i..]) == Jobs.AttachAll(p, js)
      {
        assert js[i..][1..] == js[i + 1..];
        AttachJob(js[i]);
        i := i + 1;
      }
    }

    method CancelAll(js: seq<nat>)
      requires Refs(View()) && Ids(|jobs|, js)
      modifies this`jobs
      ensures View() == Jobs.CancelAll(old(View()), js)
    {
      hide Jobs.CancelJob, OnlyMarked, SameGraph, Joined;
      ghost var p := View();
      var i := 0;
      while i < |js|
        invariant 0 <= i <= |js| && Refs(View()) && |jobs| == |p.jobs|
        invariant Jobs.CancelAll(View(), js[i..]) == Jobs.CancelAll(p, js)
      {
        assert js[i..][1..] == js[i + 1..];
        CancelNew(js[i]);
        i := i + 1;
      }
    }

    /** A new job one of whose dependencies is cancelled: it joins the pool and is cancelled. */
    method CancelNew(j: nat)
      requires Refs(View()) && j < |jobs|
      modifies this`jobs
      ensures Refs(Put(old(View()), j, Joined(old(jobs[j]))))
      ensures View() == Jobs.CancelJob(Put(old(View()), j, Joined(old(jobs[j]))), j)
      ensures Refs(View()) && |jobs| == old(|jobs|)
    {
      hide OnlyMarked;
      ghost var q := View();
      jobs := jobs[j := Joined(jobs[j])];
      ghost var m := View();
      assert m == Put(q, j, Joined(q.jobs[j]));
      TouchRefs(q, m, j);
      CancelJob(j);
      MarkedGraph(m, View());
    }

    // -------------------------------------------------------------- the single-threaded loop

    /** `Job::run` and what the worker does around it.  `result` says whether the body leaves a
        result; bodies that use the pool themselves are not part of this loop. */
    method RunJob(j: nat, result: bool)
      requires Refs(View()) && j < |jobs|
      modifies this`jobs, this`globalQueue, this`signals
      ensures Refs(Ran(old(View()), j, result))
      ensures View() == Jobs.NotifyDeps(Ran(old(View()), j, result), j)
      ensures j < |jobs| == old(|jobs|) && jobs[j].done
      ensures jobs[j].finishes == old(jobs[j].finishes) + (if old(jobs[j].cancelled) then 0 else 1)
      ensures jobs[j].hasResult <==> old(jobs[j].hasResult) || (result && !old(jobs[j].cancelled))
    {
      hide Jobs.NotifyDeps, Refs, Finished;
      ghost var p := View();
      RanRefs(p, j, result);
      if !jobs[j].cancelled {
        jobs := jobs[j := jobs[j].(running := true, starts := jobs[j].starts + 1)];
        jobs := jobs[j := Finished(jobs[j], result)];
      } else {
        jobs := jobs[j := jobs[j].(done := true)];
      }
      assert View() == Ran(p, j, result);
      RanFlags(p, j, result);
      NotifyDeps(j);
    }

    /** `Scheduler::main` in a pool without threads: takes jobs until `target` is done, or until
        none is left.  `order` lists the bodies it executed. */
    method MainSingle(target: Target, results: nat -> bool) returns (ghost order: seq<nat>)
      requires Stable(View()) && NoBodies(View()) && NoTriggers(View())
      requires threadQueues != [] && (target.Job? ==> target.id < |jobs|)
      modifies this
      ensures Stable(View()) && NoBodies(View()) && SameGraph(old(View()), View()) && threadQueues != []
      // A pool that is shutting down executes nothing more.
      ensures shuttingDown == old(shuttingDown) && (shuttingDown ==> View() == old(View()))
      // Whatever was waited for is done.
      ensures !shuttingDown && target.Job? && jobs[target.id].pool && jobs[target.id].Named() ==>
                jobs[target.id].done
      // Without a target, everything is done and nothing is left to take.
      ensures !shuttingDown && target.All? ==> globalQueue == multiset{} && threadQueues[0] == []
      ensures !shuttingDown && target.All? ==>
                forall j | 0 <= j < |jobs| && jobs[j].pool && jobs[j].Named() :: jobs[j].done
      // The bodies were executed in a linear extension of the dependency order.
      ensures Accounted(old(View()), View(), order) && Linear(old(jobs), order)
    {
      hide Stable, Jobs.NotifyDeps, Round, Ran, Served, Take, Linear, Accounted, SameGraph, NoBodies, NoTriggers;
      hide Draining;
      ghost var p0 := View();
      order := [];
      DrainingBegins(p0);
      DrainingMeans(p0, p0, []);
      while true
        invariant Draining(p0, View(), order) && |jobs| == |p0.jobs| && threadQueues != []
        invariant shuttingDown == old(shuttingDown) && (shuttingDown ==> View() == p0)
        decreases Unqueued(jobs), |globalQueue| + |threadQueues[0]|
      {
        ghost var p := View();
        DrainingMeans(p0, p, order);
        hide Unqueued;
        if target.Job? && jobs[target.id].done {
          break;
        }
        if shuttingDown {
          shutdownCounter := shutdownCounter + 1;
          break;
        }
        if threadQueues[0] == [] && globalQueue == multiset{} {
          forall j | 0 <= j < |jobs| && jobs[j].pool && jobs[j].Named() ensures jobs[j].done {
            DrainedIsDone(p, j);
          }
          DrainingMeans(p0, View(), order);
          break;
        }
        order := ServeOne(p0, order, results);
      }
    }

    /** One round of the loop: a job is taken and run. */
    method ServeOne(ghost p0: Pool, ghost order: seq<nat>, results: nat -> bool) returns (ghost order': seq<nat>)
      requires Draining(p0, View(), order) && threadQueues != []
      requires threadQueues[0] != [] || globalQueue != multiset{}
      modifies this`jobs, this`globalQueue, this`threadQueues, this`signals
      ensures Draining(p0, View(), order') && |jobs| == |p0.jobs| && threadQueues != []
      ensures Unqueued(jobs) < old(Unqueued(jobs))
        || (Unqueued(jobs) == old(Unqueued(jobs))
            && |globalQueue| + |threadQueues[0]| < old(|globalQueue| + |threadQueues[0]|))
    {
      hide Stable, Jobs.NotifyDeps, Round, Ran, Served, Take, Draining, Unqueued;
      ghost var p := View();
      DrainingMeans(p0, p, order);
      var j := TakeOne();
      DrainingRound(p0, p, order, j, results(j));
      RanIsServed(p, j, results(j));
      RoundServes(p, j, results(j));
      order' := order + if jobs[j].cancelled then [] else [j];
      RunJob(j, results(j));
      assert View() == Round(p, j, results(j));
      DrainingMeans(p0, View(), order');
    }

    /** Takes the next job off the private or the global queue. */
    method TakeOne() returns (j: nat)
      requires Refs(View()) && threadQueues != []
      requires threadQueues[0] != [] || globalQueue != multiset{}
      modifies this`globalQueue, this`threadQueues, this`signals
      ensures MayTake(old(View()), 0, j) && j < |jobs|
      ensures View() == Take(old(View()), 0, j)
    {
      if threadQueues[0] != [] {
        assert Ids(|jobs|, threadQueues[0]);
        j := threadQueues[0][0];
        threadQueues := threadQueues[0 := threadQueues[0][1..]];
      } else {
        var k :| k in globalQueue;
        j := k;
        globalQueue := globalQueue - multiset{j};
      }
      if globalQueue != multiset{} {
        signals := signals + 1;
      }
    }
  }

  /** What the single-threaded loop waits for. */
  datatype Target = All | Job(id: nat)

  /** Telling a dependency cancels nobody. */
  lemma SameCancelled(p: Pool, d: nat, js: seq<nat>)
    requires Refs(p) && d < |p.jobs| && Ids(|p.jobs|, js)
    ensures SameFlags(p, Jobs.AddNotify(p, d, js))
  {
    hide Jobs.NotifyDeps;
    var m := Put(p, d, WithNotify(p.jobs[d], js));
    NotifyRefs(p, d, js);
    if m.jobs[d].done {
      NotifyDepsPushes(m, d);
      forall k | 0 <= k < |p.jobs| ensures Jobs.AddNotify(p, d, js).jobs[k].cancelled == p.jobs[k].cancelled {
        assert Replayed(m.jobs[k], Jobs.NotifyDeps(m, d).jobs[k]);
      }
    }
  }

  ghost predicate SameFlags(p: Pool, q: Pool) {
    |q.jobs| == |p.jobs| && forall k | 0 <= k < |p.jobs| :: q.jobs[k].cancelled == p.jobs[k].cancelled
  }

  /** One of the first `i` dependencies is cancelled. */
  ghost predicate SomeBefore(p: Pool, ds: seq<nat>, i: nat)
    requires Ids(|p.jobs|, ds) && i <= |ds|
  {
    exists k | 0 <= k < i :: p.jobs[ds[k]].cancelled
  }

  lemma FlagsBegin(p: Pool, ds: seq<nat>)
    requires Ids(|p.jobs|, ds)
    ensures SameFlags(p, p) && !SomeBefore(p, ds, 0)
  {
  }

  lemma FlagsNext(p: Pool, q: Pool, r: Pool, ds: seq<nat>, i: nat)
    requires Ids(|p.jobs|, ds) && i < |ds| && SameFlags(p, q) && SameFlags(q, r)
    ensures SameFlags(p, r) && ds[i] < |r.jobs|
    ensures SomeBefore(p, ds, i + 1) <==> SomeBefore(p, ds, i) || r.jobs[ds[i]].cancelled
  {
  }

  lemma FlagsEnd(p: Pool, q: Pool, ds: seq<nat>)
    requires Ids(|p.jobs|, ds) && SameFlags(p, q)
    ensures Ids(|q.jobs|, ds) && (SomeBefore(p, ds, |ds|) <==> SomeCancelled(q, ds))
  {
    if SomeBefore(p, ds, |ds|) {
      var k :| 0 <= k < |ds| && p.jobs[ds[k]].cancelled;
      assert ds[k] in ds && q.jobs[ds[k]].cancelled;
    }
  }

  /** `Job::run` on one job, before its dependents are told. */
  function Ran(p: Pool, j: nat, result: bool): Pool
    requires j < |p.jobs|
  {
    if p.jobs[j].cancelled then Put(p, j, p.jobs[j].(done := true))
    else Put(StartBody(p, j), j, Finished(StartBody(p, j).jobs[j], result))
  }

  /** What `Job::run` leaves, when the dependents have been told, too. */
  lemma RanFlags(p: Pool, j: nat, result: bool)
    requires j < |p.jobs| && Refs(Ran(p, j, result))
    ensures var q := Jobs.NotifyDeps(Ran(p, j, result), j);
      && |q.jobs| == |p.jobs| && q.jobs[j].done
      && q.jobs[j].finishes == p.jobs[j].finishes + (if p.jobs[j].cancelled then 0 else 1)
      && (q.jobs[j].hasResult <==> p.jobs[j].hasResult || (result && !p.jobs[j].cancelled))
  {
    hide Jobs.NotifyDeps;
    NotifyDepsPushes(Ran(p, j, result), j);
    assert Replayed(Ran(p, j, result).jobs[j], Jobs.NotifyDeps(Ran(p, j, result), j).jobs[j]);
  }

  lemma RanRefs(p: Pool, j: nat, result: bool)
    requires Refs(p) && j < |p.jobs|
    ensures Refs(Ran(p, j, result))
  {
    var m := StartBody(p, j);
    TouchRefs(p, m, j);
    TouchRefs(m, Put(m, j, Finished(m.jobs[j], result)), j);
    TouchRefs(p, Put(p, j, p.jobs[j].(done := true)), j);
  }

  lemma RanIsServed(p: Pool, j: nat, result: bool)
    requires j < |p.jobs|
    ensures Take(p, 0, j).jobs == p.jobs
    ensures Ran(Take(p, 0, j), j, result) == Served(p, j, result)
  {
  }
}
