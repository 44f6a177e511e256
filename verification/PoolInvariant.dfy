/** The invariant of whole runs: worker states, executing bodies and wake-ups included. */
module PoolInvariant {
  import opened CondVar
  import opened Jobs
  import opened JobInvariant
  import opened Cancellation
  import opened Scheduling
  import opened CalmSteps
  import opened PoolRuns
  import opened PoolSteps

  lemma SlotUpdate(slots: seq<Slot>, w: nat, x: Slot, y: Slot)
    requires w < |slots|
    ensures multiset(slots[w := x])[y]
         == multiset(slots)[y] - (if slots[w] == y then 1 else 0) + (if x == y then 1 else 0)
  {
    assert slots[w := x] == slots[..w] + [x] + slots[w + 1..];
    assert slots == slots[..w] + [slots[w]] + slots[w + 1..];
  }

  lemma SignalsKeepWorkers(s: Sys, c: Cond, work: nat, k: nat, c': Cond)
    requires c.Valid() && Signals(c, k, c')
    requires if s.closing then c.asleep == {} else Covered(c, work)
    ensures c'.Valid() && c'.asleep + c'.woken <= c.asleep + c.woken
    ensures if s.closing then c'.asleep == {} else Covered(c', work + k)
  {
    if !s.closing {
      SignalsCover(c, k, c', work);
    }
  }

  /** A step that leaves bodies and private queues alone. */
  lemma CalmStep(s: Sys, p: Pool, s': Sys)
    requires SysInv(s) && Stable(p) && Calm(s.pool, p) && Becomes(s, s.cond, p, s')
    requires s' == s.(pool := p, cond := s'.cond)
    ensures SysInv(s')
  {
    hide Stable, WorkersOk, BodiesOk, Signals;
    CalmBodies(s, s');
    OutsideStep(s, s');
  }

  lemma CalmBodies(s: Sys, s': Sys)
    requires BodiesOk(s) && Calm(s.pool, s'.pool) && s'.slots == s.slots && s'.callers == s.callers
    ensures BodiesOk(s')
  {
    forall j | 0 <= j < |s'.pool.jobs|
      ensures s'.pool.jobs[j].starts == s'.pool.jobs[j].finishes + Executing(s', j)
    {
      assert CalmJob(s.pool.jobs[j], s'.pool.jobs[j]);
    }
  }

  /** A job was added, and nobody was signalled. */
  lemma AppendStep(s: Sys, p: Pool, s': Sys)
    requires SysInv(s) && Stable(p) && s' == s.(pool := p)
    requires |p.jobs| == |s.pool.jobs| + 1 && p.jobs[..|s.pool.jobs|] == s.pool.jobs
    requires p.jobs[|s.pool.jobs|].starts == 0 && p.jobs[|s.pool.jobs|].finishes == 0
    requires p.queue == s.pool.queue && |p.private| == |s.pool.private|
    ensures SysInv(s')
  {
    hide Stable;
    forall j | 0 <= j < |p.jobs| ensures p.jobs[j].starts == p.jobs[j].finishes + Executing(s', j) {
      if j < |s.pool.jobs| {
        assert p.jobs[..|s.pool.jobs|][j] == p.jobs[j];
      } else {
        NotExecuting(s, j);
      }
    }
  }

  lemma NotExecuting(s: Sys, j: nat)
    requires BodiesOk(s) && j >= |s.pool.jobs|
    ensures Executing(s, j) == 0
  {
    assert forall w | 0 <= w < |s.slots| :: s.slots[w] != Busy(j);
    assert Busy(j) !in s.slots;
  }

  // ---------------------------------------------------------------- bodies

  /** Job `j` starts or finishes a body; all else is calm. */
  ghost predicate OneBody(p: Pool, q: Pool, j: nat, started: nat, finished: nat) {
    && j < |p.jobs| == |q.jobs|
    && p.signals <= q.signals
    && (forall k | 0 <= k < |p.jobs| ::
          && q.jobs[k].starts == p.jobs[k].starts + (if k == j then started else 0)
          && q.jobs[k].finishes == p.jobs[k].finishes + (if k == j then finished else 0))
  }

  lemma FinishBodyCounts(p: Pool, j: nat, result: bool)
    requires Refs(p) && j < |p.jobs|
    ensures var q := FinishBody(p, j, result);
      OneBody(p, q, j, 0, 1) && q.private == p.private && q.signals - p.signals == |q.queue| - |p.queue|
  {
    hide NotifyDeps, Calm;
    var m := Put(p, j, Finished(p.jobs[j], result));
    TouchRefs(p, m, j);
    NotifyDepsIsCalm(m, j);
    CalmCounts(m, FinishBody(p, j, result));
  }

  lemma SkipBodyIsCalm(p: Pool, j: nat)
    requires Refs(p) && j < |p.jobs|
    ensures Calm(p, SkipBody(p, j))
  {
    hide NotifyDeps;
    var m := Put(p, j, p.jobs[j].(done := true));
    TouchRefs(p, m, j);
    PutIsCalm(p, j, p.jobs[j].(done := true));
    NotifyDepsIsCalm(m, j);
    CalmTransitive(p, m, SkipBody(p, j));
  }

  lemma BodiesStep(s: Sys, s': Sys, j: nat, started: nat, finished: nat)
    requires BodiesOk(s) && OneBody(s.pool, s'.pool, j, started, finished)
    requires forall k | 0 <= k < |s.pool.jobs| ::
               Executing(s', k) + (if k == j then finished else 0) == Executing(s, k) + (if k == j then started else 0)
    requires forall w | 0 <= w < |s'.slots| && s'.slots[w].Busy? :: s'.slots[w].job < |s.pool.jobs|
    requires forall t | t in s'.callers :: t < |s.pool.jobs|
    ensures BodiesOk(s')
  {
    forall k | 0 <= k < |s.pool.jobs|
      ensures s'.pool.jobs[k].starts == s'.pool.jobs[k].finishes + Executing(s', k)
    {
      assert s.pool.jobs[k].starts == s.pool.jobs[k].finishes + Executing(s, k);
    }
  }

  /** The wake-ups of a step that ends with worker `w` at the top of its loop, or in a body. */
  lemma WorkersStep(s: Sys, s': Sys, w: nat, x: Slot, c: Cond, work: nat)
    requires WorkersOk(s) && w < |s.slots| && !s.slots[w].Gone? && !x.Gone?
    requires s'.slots == s.slots[w := x] && s'.counter == s.counter && s'.closing == s.closing
    requires |s'.pool.private| == |s.pool.private| && s.pool.signals <= s'.pool.signals
    requires c.Valid() && c.asleep <= s.cond.asleep && c.woken <= s.cond.woken && w !in c.asleep + c.woken
    requires if s.closing then c.asleep == {} else Covered(c, work)
    requires Signals(c, s'.pool.signals - s.pool.signals, s'.cond)
    requires |s'.pool.queue| <= work + s'.pool.signals - s.pool.signals
    ensures WorkersOk(s')
  {
    hide Signals;
    SignalsKeepWorkers(s, c, work, s'.pool.signals - s.pool.signals, s'.cond);
    SlotUpdate(s.slots, w, x, Gone);
    WaitersIdle(s, s', w, x, c);
  }

  lemma WaitersIdle(s: Sys, s': Sys, w: nat, x: Slot, c: Cond)
    requires WorkersOk(s) && w < |s.slots| && s'.slots == s.slots[w := x]
    requires c.asleep <= s.cond.asleep && c.woken <= s.cond.woken && w !in c.asleep + c.woken
    requires s'.cond.asleep + s'.cond.woken <= c.asleep + c.woken
    ensures forall v | v in s'.cond.asleep + s'.cond.woken :: v < |s'.slots| && s'.slots[v].Idle?
  {
    forall v | v in s'.cond.asleep + s'.cond.woken ensures v < |s'.slots| && s'.slots[v].Idle? {
      assert v in c.asleep + c.woken && v in s.cond.asleep + s.cond.woken;
    }
  }

  lemma FinishStep(s: Sys, w: nat, result: bool, s': Sys)
    requires SysInv(s) && Next(s, Finish(w, result), s')
    ensures SysInv(s')
  {
    hide Stable, FinishBody, WorkersOk, BodiesOk;
    var j := s.slots[w].job;
    FinishBodies(s, w, result, s');
    FinishBodyKeeps(s.pool, j, result) by { FinishRuns(s, w); }
    FinishWorkers(s, w, result, s') by { StableRefs(s.pool); }
  }

  lemma FinishRuns(s: Sys, w: nat)
    requires BodiesOk(s) && w < |s.slots| && s.slots[w].Busy?
    ensures s.slots[w].job < |s.pool.jobs| && s.pool.jobs[s.slots[w].job].finishes < s.pool.jobs[s.slots[w].job].starts
  {
    assert Busy(s.slots[w].job) in multiset(s.slots);
  }

  lemma FinishBodies(s: Sys, w: nat, result: bool, s': Sys)
    requires BodiesOk(s) && Next(s, Finish(w, result), s')
    ensures BodiesOk(s')
  {
    hide FinishBody, Signals, Refs;
    var j := s.slots[w].job;
    FinishBodyCounts(s.pool, j, result);
    FinishSlots(s, s', w, j);
    hide BodiesOk, Executing, OneBody;
    BodiesStep(s, s', j, 0, 1) by { SlotJobs(s, s', w); }
  }

  lemma SlotJobs(s: Sys, s': Sys, w: nat)
    requires BodiesOk(s) && w < |s.slots| && s'.slots == s.slots[w := Idle] && s'.callers == s.callers
    ensures forall v | 0 <= v < |s'.slots| && s'.slots[v].Busy? :: s'.slots[v].job < |s.pool.jobs|
    ensures forall t | t in s'.callers :: t < |s.pool.jobs|
  {
  }

  lemma FinishSlots(s: Sys, s': Sys, w: nat, j: nat)
    requires w < |s.slots| && s.slots[w] == Busy(j) && s'.slots == s.slots[w := Idle] && s'.callers == s.callers
    ensures forall k | 0 <= k < |s.pool.jobs| ::
              Executing(s', k) + (if k == j then 1 else 0) == Executing(s, k)
  {
    forall k | 0 <= k < |s.pool.jobs|
      ensures Executing(s', k) + (if k == j then 1 else 0) == Executing(s, k)
    {
      SlotUpdate(s.slots, w, Idle, Busy(k));
    }
  }

  lemma FinishWorkers(s: Sys, w: nat, result: bool, s': Sys)
    requires WorkersOk(s) && Refs(s.pool) && Next(s, Finish(w, result), s')
    ensures WorkersOk(s')
  {
    hide FinishBody;
    FinishBodyCounts(s.pool, s.slots[w].job, result);
    WorkersStep(s, s', w, Idle, s.cond, |s.pool.queue|);
  }

  /** The same for a step of a thread outside the pool. */
  lemma OutsideStep(s: Sys, s': Sys)
    requires WorkersOk(s) && s'.slots == s.slots && s'.counter == s.counter && s'.closing == s.closing
    requires |s'.pool.private| == |s.pool.private| && s.pool.signals <= s'.pool.signals
    requires Signals(s.cond, s'.pool.signals - s.pool.signals, s'.cond)
    requires s'.pool.signals - s.pool.signals == |s'.pool.queue| - |s.pool.queue|
    ensures WorkersOk(s')
  {
    SignalsKeepWorkers(s, s.cond, |s.pool.queue|, s'.pool.signals - s.pool.signals, s'.cond);
  }

  lemma ReturnStep(s: Sys, t: nat, s': Sys)
    requires SysInv(s) && Next(s, Return(t), s')
    ensures SysInv(s')
  {
    hide Kinds, Locals, Edges, Progressing, Symmetric, FinishBody, WorkersOk, Signals;
    var r := s.pool.jobs[t].kind.Acc?;
    FinishBodyKeeps(s.pool, t, r);
    FinishBodyCounts(s.pool, t, r);
    BodiesStep(s, s', t, 0, 1);
    OutsideStep(s, s');
  }

  lemma UpdateStep(s: Sys, t: nat, units: nat, s': Sys)
    requires SysInv(s) && Next(s, Update(t, units), s')
    ensures SysInv(s')
  {
    hide Stable, WorkersOk, BodiesOk, Signals, UpdateTrigger;
    UpdateKeeps(s.pool, t, units);
    UpdateBodies(s, t, units, s');
    UpdateCounts(s.pool, t, units);
    OutsideStep(s, s');
  }

  lemma UpdateBodies(s: Sys, t: nat, units: nat, s': Sys)
    requires BodiesOk(s) && Next(s, Update(t, units), s')
    ensures BodiesOk(s')
  {
    hide Signals, UpdateTrigger, Fires;
    UpdateCounts(s.pool, t, units);
    BodiesStep(s, s', t, if Fires(s.pool, t, units) then 1 else 0, 0);
  }

  lemma UpdateCounts(p: Pool, t: nat, units: nat)
    requires Refs(p) && t < |p.jobs|
    ensures var q := UpdateTrigger(p, t, units);
      && OneBody(p, q, t, if Fires(p, t, units) then 1 else 0, 0)
      && q.private == p.private && q.signals - p.signals == |q.queue| - |p.queue|
  {
    hide SkipBody, Calm, Fires, Ready, SameGraph, OneBody;
    ActivatedBody(p, t, units);
    if Accepts(p.jobs[t].kind, units > 0) {
      var q := Put(p, t, Activated(p.jobs[t], units));
      TouchRefs(p, q, t);
      ActivatedFires(p, t, units);
      if Ready(q, t) && q.jobs[t].cancelled {
        SkipBodyIsCalm(q, t);
        CalmCounts(q, SkipBody(q, t));
        CalmBody(p, q, SkipBody(q, t), t);
      }
    } else {
      assert !Fires(p, t, units) by { NotAccepted(p, t, units); }
    }
  }

  lemma ActivatedBody(p: Pool, t: nat, units: nat)
    requires t < |p.jobs|
    ensures var q := Put(p, t, Activated(p.jobs[t], units));
      OneBody(p, p, t, 0, 0) && OneBody(p, q, t, 0, 0) && OneBody(p, StartBody(q, t), t, 1, 0)
  {
  }

  lemma CalmBody(p: Pool, q: Pool, r: Pool, t: nat)
    requires OneBody(p, q, t, 0, 0) && Calm(q, r)
    ensures OneBody(p, r, t, 0, 0)
  {
    CalmCounts(q, r);
  }

  lemma NotAccepted(p: Pool, t: nat, units: nat)
    requires Refs(p) && t < |p.jobs| && !Accepts(p.jobs[t].kind, units > 0)
    ensures !Fires(p, t, units)
  {
  }

  lemma ActivatedFires(p: Pool, t: nat, units: nat)
    requires Refs(p) && t < |p.jobs|
    ensures var q := Put(p, t, Activated(p.jobs[t], units));
      Refs(q) ==> (Fires(p, t, units) <==> Accepts(p.jobs[t].kind, units > 0) && Ready(q, t) && !q.jobs[t].cancelled)
  {
    var q := Put(p, t, Activated(p.jobs[t], units));
    forall d | d in p.jobs[t].deps ensures q.jobs[d].done == p.jobs[d].done {
    }
  }

  lemma CalmCounts(p: Pool, q: Pool)
    requires Calm(p, q)
    ensures |q.jobs| == |p.jobs| && q.private == p.private
    ensures p.signals <= q.signals && q.signals - p.signals == |q.queue| - |p.queue|
    ensures forall k | 0 <= k < |p.jobs| ::
              q.jobs[k].starts == p.jobs[k].starts && q.jobs[k].finishes == p.jobs[k].finishes
  {
    forall k | 0 <= k < |p.jobs|
      ensures q.jobs[k].starts == p.jobs[k].starts && q.jobs[k].finishes == p.jobs[k].finishes
    {
      assert CalmJob(p.jobs[k], q.jobs[k]);
    }
  }

  // ---------------------------------------------------------------- the worker loop

  lemma LeaveStep(s: Sys, w: nat, s': Sys)
    requires SysInv(s) && s.closing && w < |s.slots| && s.slots[w].Idle?
    requires s' == s.(cond := s.cond.Resume(w), slots := s.slots[w := Gone], counter := s.counter + 1)
    ensures SysInv(s')
  {
    hide Stable;
    SlotUpdate(s.slots, w, Gone, Gone);
    forall j | 0 <= j < |s.pool.jobs| ensures Executing(s', j) == Executing(s, j) {
      SlotUpdate(s.slots, w, Gone, Busy(j));
    }
  }

  lemma SleepStep(s: Sys, w: nat, s': Sys)
    requires SysInv(s) && !s.closing && w < |s.slots| && s.slots[w].Idle? && s.pool.queue == multiset{}
    requires s' == s.(cond := s.cond.Resume(w).Sleep(w))
    ensures SysInv(s')
  {
    hide Stable;
  }

  /** What taking a job means for the work that is left and the signals that are sent. */
  lemma TakeCounts(p: Pool, w: nat, j: nat)
    requires MayTake(p, w, j)
    ensures var q := Take(p, w, j);
      && q.jobs == p.jobs && |q.private| == |p.private|
      && q.signals == p.signals + (if |q.queue| > 0 then 1 else 0)
      && |q.queue| == (if HasPrivate(p, w) then |p.queue| else |p.queue| - 1)
  {
    if !HasPrivate(p, w) {
      assert p.queue == (p.queue - multiset{j}) + multiset{j};
    }
  }

  /** The coverage left when worker `w` resumes and takes a job. */
  lemma ResumeWork(s: Sys, w: nat)
    requires WorkersOk(s) && w !in s.cond.asleep && !s.closing
    ensures s.cond.Resume(w).Valid()
    ensures Covered(s.cond.Resume(w), if |s.pool.queue| > 0 then |s.pool.queue| - 1 else 0)
  {
    if w in s.cond.woken {
      ResumeCovers(s.cond, w, |s.pool.queue|);
    } else {
      assert s.cond.woken - {w} == s.cond.woken;
    }
  }

  lemma StartStep(s: Sys, w: nat, j: nat, s': Sys)
    requires SysInv(s) && !s.closing && w < |s.slots| && s.slots[w].Idle? && w !in s.cond.asleep
    requires MayTake(s.pool, w, j) && j < |s.pool.jobs| && !s.pool.jobs[j].cancelled && Refs(Take(s.pool, w, j))
    requires Becomes(s, s.cond.Resume(w), StartBody(Take(s.pool, w, j), j), s')
    requires s' == s.(pool := s'.pool, cond := s'.cond, slots := s.slots[w := Busy(j)])
    ensures SysInv(s')
  {
    hide Kinds, Locals, Edges, Progressing, Symmetric, WorkersOk, Signals, Take;
    var q := Take(s.pool, w, j);
    TakeKeeps(s.pool, w, j);
    TakeCounts(s.pool, w, j);
    forall k | 0 <= k < |s.pool.jobs|
      ensures Executing(s', k) == Executing(s, k) + (if k == j then 1 else 0)
    {
      SlotUpdate(s.slots, w, Busy(j), Busy(k));
    }
    BodiesStep(s, s', j, 1, 0);
    TurnWorkers(s, w, j, Busy(j), s');
  }

  lemma SkipStep(s: Sys, w: nat, j: nat, s': Sys)
    requires SysInv(s) && !s.closing && w < |s.slots| && s.slots[w].Idle? && w !in s.cond.asleep
    requires MayTake(s.pool, w, j) && j < |s.pool.jobs| && s.pool.jobs[j].cancelled && Refs(Take(s.pool, w, j))
    requires Becomes(s, s.cond.Resume(w), SkipBody(Take(s.pool, w, j), j), s')
    requires s' == s.(pool := s'.pool, cond := s'.cond)
    ensures SysInv(s')
  {
    hide Kinds, Locals, Edges, Progressing, Symmetric, WorkersOk, Signals, Take, SkipBody;
    var q := Take(s.pool, w, j);
    TakeKeeps(s.pool, w, j);
    TakeCounts(s.pool, w, j);
    SkipBodyIsCalm(q, j);
    forall k | 0 <= k < |s.pool.jobs|
      ensures s'.pool.jobs[k].starts == s.pool.jobs[k].starts && s'.pool.jobs[k].finishes == s.pool.jobs[k].finishes
    {
      assert CalmJob(q.jobs[k], s'.pool.jobs[k]);
    }
    BodiesStep(s, s', j, 0, 0);
    assert s.slots[w := Idle] == s.slots;
    TurnWorkers(s, w, j, Idle, s');
  }

  /** The worker resumed, took a job and pushed what it made ready. */
  lemma TurnWorkers(s: Sys, w: nat, j: nat, x: Slot, s': Sys)
    requires WorkersOk(s) && !s.closing && w < |s.slots| && s.slots[w].Idle? && w !in s.cond.asleep && !x.Gone?
    requires MayTake(s.pool, w, j) && |s'.pool.private| == |s.pool.private|
    requires s'.slots == s.slots[w := x] && s'.counter == s.counter && s'.closing == s.closing
    requires var q := Take(s.pool, w, j);
      q.signals <= s'.pool.signals && s'.pool.signals - q.signals == |s'.pool.queue| - |q.queue|
    requires Signals(s.cond.Resume(w), s'.pool.signals - s.pool.signals, s'.cond)
    ensures WorkersOk(s')
  {
    hide Take;
    TakeCounts(s.pool, w, j);
    ResumeWork(s, w);
    WorkersStep(s, s', w, x, s.cond.Resume(w), if |s.pool.queue| > 0 then |s.pool.queue| - 1 else 0);
  }

  lemma TurnStep(s: Sys, w: nat, j: nat, s': Sys)
    requires SysInv(s) && Next(s, Turn(w, j), s')
    ensures SysInv(s')
  {
    hide SysInv, Take, SkipBody, Becomes;
    if s.closing {
      LeaveStep(s, w, s');
    } else if !HasPrivate(s.pool, w) && s.pool.queue == multiset{} {
      SleepStep(s, w, s');
    } else if s.pool.jobs[j].cancelled {
      SkipStep(s, w, j, s');
    } else {
      StartStep(s, w, j, s');
    }
  }

  // ---------------------------------------------------------------- all steps

  lemma WakeStep(s: Sys, w: nat, s': Sys)
    requires SysInv(s) && w in s.cond.asleep && s' == s.(cond := s.cond.Wake(w))
    ensures SysInv(s')
  {
    hide Stable, BodiesOk, WorkersOk;
    SameBodies(s, s');
    WakeWorkers(s, w, s');
  }

  /** Bodies are a matter of jobs, slots and callers. */
  lemma SameBodies(s: Sys, s': Sys)
    requires BodiesOk(s) && s'.pool.jobs == s.pool.jobs && s'.slots == s.slots && s'.callers == s.callers
    ensures BodiesOk(s')
  {
    forall j | 0 <= j < |s'.pool.jobs|
      ensures s'.pool.jobs[j].starts == s'.pool.jobs[j].finishes + Executing(s', j)
    {
      assert s.pool.jobs[j].starts == s.pool.jobs[j].finishes + Executing(s, j);
    }
  }

  lemma WakeWorkers(s: Sys, w: nat, s': Sys)
    requires WorkersOk(s) && w in s.cond.asleep && s' == s.(cond := s.cond.Wake(w))
    ensures WorkersOk(s')
  {
    WakeCounts(s.cond, w);
    assert w !in s.cond.woken && |s.cond.woken + {w}| == |s.cond.woken| + 1;
    forall v | v in s'.cond.asleep + s'.cond.woken ensures v in s.cond.asleep + s.cond.woken {
    }
  }

  lemma CloseStep(s: Sys, s': Sys)
    requires SysInv(s) && s' == ShutdownLoop(s.(closing := true))
    ensures SysInv(s')
  {
    hide Stable, BodiesOk, WorkersOk;
    SameBodies(s, s');
    CloseWorkers(s, s');
  }

  lemma CloseWorkers(s: Sys, s': Sys)
    requires WorkersOk(s) && s' == ShutdownLoop(s.(closing := true))
    ensures WorkersOk(s')
  {
    if s.counter >= |s.slots| {
      AllGone(s.slots);
      if s.cond.asleep != {} {
        SleeperIsThere(s);
      }
    }
  }

  lemma SleeperIsThere(s: Sys)
    requires WorkersOk(s) && s.cond.asleep != {}
    ensures exists v :: 0 <= v < |s.slots| && s.slots[v] != Gone
  {
    var v :| v in s.cond.asleep;
    assert s.slots[v] != Gone;
  }

  lemma RecheckStep(s: Sys, s': Sys)
    requires SysInv(s) && s.closing && s' == ShutdownLoop(s)
    ensures SysInv(s')
  {
    hide Stable, BodiesOk;
    SameBodies(s, s');
  }

  /** A full count leaves nobody else. */
  lemma {:induction false} AllGone(slots: seq<Slot>)
    ensures multiset(slots)[Gone] <= |slots|
    ensures multiset(slots)[Gone] == |slots| ==> forall w | 0 <= w < |slots| :: slots[w] == Gone
  {
    if slots != [] {
      var rest := slots[..|slots| - 1];
      assert slots == rest + [slots[|slots| - 1]];
      AllGone(rest);
    }
  }

  lemma ApiStep(s: Sys, a: Action, s': Sys)
    requires SysInv(s) && Next(s, a, s') && (a.Start? || a.Schedule? || a.Cancel? || a.Chain?)
    ensures SysInv(s')
  {
    hide Kinds, Locals, Edges, Progressing, Symmetric, WorkersOk, BodiesOk, Signals, ScheduleJobs, CancelJob, AttachJob;
    var p := s.pool;
    match a
    case Start(j) =>
      StartJobKeeps(p, j);
      if p.jobs[j].pool { CalmSteps.PushedNothing(p); PushedIsCalm(p, p); } else { AttachIsCalm(p, j); }
      CalmStep(s, s'.pool, s');
    case Schedule(js, ds) =>
      forall d | d in ds ensures d < |p.jobs| && p.jobs[d].Named() {
        var i :| 0 <= i < |ds| && ds[i] == d;
        assert Handle(p, ds[i]);
      }
      assert Ids(|p.jobs|, js) && Ids(|p.jobs|, ds) by {
        assert forall i | 0 <= i < |js| :: Handle(p, js[i]);
        assert forall i | 0 <= i < |ds| :: Handle(p, ds[i]);
      }
      ScheduleJobsKeeps(p, js, ds);
      ScheduleIsCalm(p, js, ds);
      CalmStep(s, s'.pool, s');
    case Cancel(j) =>
      CancelJobKeeps(p, j, {});
      CancelIsCalm(p, j);
      QuietStep(s, s'.pool, s');
    case Chain(t, j) =>
      ChainKeeps(p, t, j);
      PutIsCalm(p, j, p.jobs[j].(triggers := p.jobs[j].triggers + [t]));
      QuietStep(s, s'.pool, s');
  }

  /** A calm step without signals. */
  lemma QuietStep(s: Sys, p: Pool, s': Sys)
    requires SysInv(s) && Stable(p) && Calm(s.pool, p) && p.signals == s.pool.signals
    requires s' == s.(pool := p)
    ensures SysInv(s')
  {
    hide Stable, WorkersOk, BodiesOk, Calm;
    assert s.cond.asleep - s.cond.asleep == {};
    assert s.cond.woken + {} == s.cond.woken;
    CalmStep(s, p, s');
  }

  lemma NewJobStep(s: Sys, a: Action, s': Sys)
    requires SysInv(s) && Next(s, a, s') && (a.Create? || a.Exec?)
    ensures SysInv(s')
  {
    hide Kinds, Locals, Edges, Progressing, Symmetric, WorkersOk, BodiesOk;
    CreateKeeps(s.pool);
    BroadcastKeeps(s.pool);
    assert s'.pool.jobs[..|s.pool.jobs|] == s.pool.jobs;
    AppendStep(s, s'.pool, s');
  }

  lemma NewTriggerStep(s: Sys, kind: Kind, s': Sys)
    requires SysInv(s) && Next(s, NewTrigger(kind), s')
    ensures SysInv(s')
  {
    hide Kinds, Locals, Edges, Progressing, Symmetric, WorkersOk, Signals;
    var p := s'.pool;
    NewTriggerKeeps(s.pool, kind);
    assert p.jobs[..|s.pool.jobs|] == s.pool.jobs;
    forall j | 0 <= j < |p.jobs| ensures p.jobs[j].starts == p.jobs[j].finishes + Executing(s', j) {
      if j < |s.pool.jobs| {
        assert p.jobs[..|s.pool.jobs|][j] == p.jobs[j];
      } else {
        NotExecuting(s, j);
      }
    }
    OutsideStep(s, s');
  }

  lemma NextKeeps(s: Sys, a: Action, s': Sys)
    requires SysInv(s) && Next(s, a, s')
    ensures SysInv(s')
  {
    hide Stable, WorkersOk, BodiesOk, LoopBody, Becomes;
    match a
    case Create => NewJobStep(s, a, s');
    case Exec => NewJobStep(s, a, s');
    case NewTrigger(kind) => NewTriggerStep(s, kind, s');
    case Start(_) => ApiStep(s, a, s');
    case Schedule(_, _) => ApiStep(s, a, s');
    case Cancel(_) => ApiStep(s, a, s');
    case Chain(_, _) => ApiStep(s, a, s');
    case Update(t, units) => UpdateStep(s, t, units, s');
    case Return(t) => ReturnStep(s, t, s');
    case Turn(w, j) => TurnStep(s, w, j, s');
    case Finish(w, result) => FinishStep(s, w, result, s');
    case Wake(w) => WakeStep(s, w, s');
    case Close(wait) => CloseStep(s, s');
    case Recheck => RecheckStep(s, s');
  }

  /** Every state of every run satisfies the invariant. */
  lemma {:induction false} RunKeeps(states: seq<Sys>, acts: seq<Action>, i: nat)
    requires Run(states, acts) && i < |states|
    ensures SysInv(states[i])
    decreases i
  {
    hide SysInv, Next, Init;
    if i == 0 {
      InitHolds(states[0]);
    } else {
      RunKeeps(states, acts, i - 1);
      NextKeeps(states[i - 1], acts[i - 1], states[i]);
    }
  }
}
