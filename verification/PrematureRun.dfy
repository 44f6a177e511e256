/** Two runs in which a job starts although the body of its dependency has not returned: concrete
    cases of what `PrematureStart` characterises.  In the first the dependency was queued twice, in
    the second it is the job of `threadPoolExec`. */
module PrematureRun {
  import opened CondVar
  import opened Jobs
  import opened JobInvariant
  import opened PoolRuns
  import opened PoolInvariant
  import opened Continuations
  import opened PrematureStart

  /** After its own step the worker stands at the top of its loop, and it has the lock. */
  ghost predicate KeepsLock(a: Action, s': Sys) { (a.Turn? || a.Finish?) && AtTop(s', a.w) }

  /** A worker that has executed or skipped a body keeps the lock until it has started the next one
      or waits: nobody else acts in between. */
  ghost predicate Seamless(states: seq<Sys>, acts: seq<Action>)
    requires |states| == |acts| + 1
  {
    forall i | 0 <= i < |acts| - 1 && KeepsLock(acts[i], states[i + 1]) ::
      acts[i + 1].Turn? && acts[i + 1].w == acts[i].w
  }

  // ---------------------------------------------------------------- a dependency queued twice

  /** Job 0 runs first.  Job 1 depends on it and is scheduled when it is done; job 2 depends on
      job 1, which is cancelled while it runs. */
  const NEW := NEW_JOB
  const A1 := NEW_JOB.(pool := true, id := 0, pushes := 1)
  const A2 := A1.(running := true, starts := 1)
  const A3 := A1.(done := true, starts := 1, finishes := 1)
  const A4 := A3.(notify := [1])
  const B1 := NEW_JOB.(pool := true, id := 1, deps := [0], queued := true, pushes := 2)
  const B2 := B1.(running := true, starts := 1)
  const B3 := B2.(notify := [2])
  const B4 := B3.(cancelled := true)
  const B5 := B4.(done := true)
  const C1 := NEW_JOB.(pool := true, id := 2, deps := [1], late := true)
  const C2 := C1.(queued := true, pushes := 1)
  const C3 := C2.(running := true, starts := 1)

  function State(jobs: seq<Job>, queue: multiset<nat>, jobid: nat, signals: nat, first: Slot): Sys {
    Sys(P(jobs, queue, jobid, signals), [first, Idle], multiset{}, Cond({}, {}), false, 0)
  }

  const S0 := State([], multiset{}, 0, 0, Idle)
  const S1 := State([NEW], multiset{}, 0, 0, Idle)
  const S2 := State([NEW, NEW], multiset{}, 0, 0, Idle)
  const S3 := State([NEW, NEW, NEW], multiset{}, 0, 0, Idle)
  const S4 := State([A1, NEW, NEW], multiset{0}, 1, 1, Idle)
  const S5 := State([A2, NEW, NEW], multiset{}, 1, 1, Busy(0))
  const S6 := State([A3, NEW, NEW], multiset{}, 1, 1, Idle)
  const S6Asleep := S6.(cond := Cond({0}, {}))
  const S7 := State([A4, B1, NEW], multiset{1, 1}, 2, 3, Idle).(cond := Cond({}, {0}))
  const S8 := State([A4, B2, NEW], multiset{1}, 2, 4, Busy(1))
  const S9 := State([A4, B3, C1], multiset{1}, 3, 4, Busy(1))
  const S10 := State([A4, B4, C1], multiset{1}, 3, 4, Busy(1))
  const S11 := State([A4, B5, C2], multiset{2}, 3, 5, Busy(1))
  const S12 := State([A4, B5, C3], multiset{}, 3, 5, Busy(1)).(slots := [Busy(1), Busy(2)])

  /** Nobody sleeps, so no signal wakes anybody. */
  lemma NoSleepers(k: nat)
    ensures Signals(Cond({}, {}), k, Cond({}, {}))
  {
    var nobody: set<nat> := {};
    assert nobody - nobody == {};
  }

  lemma StartFirst()
    ensures Next(S3, Start(0), S4)
  {
    NoSleepers(1);
    assert S4.pool == StartJob(S3.pool, 0);
  }

  lemma RunFirst()
    ensures Next(S4, Turn(0, 0), S5)
  {
    assert Take(S4.pool, 0, 0).queue == multiset{};
    assert StartBody(Take(S4.pool, 0, 0), 0) == S5.pool;
    TurnsTo(S4, 0, 0, S5);
  }

  /** A worker starts a job while nobody sleeps. */
  lemma TurnsTo(s: Sys, w: nat, e: nat, s': Sys)
    requires Refs(s.pool) && !s.closing && AtTop(s, w) && MayTake(s.pool, w, e) && s.cond.Resume(w) == Cond({}, {})
    requires e < |s.pool.jobs| && !s.pool.jobs[e].cancelled && s.pool.signals <= s'.pool.signals
    requires s'.pool == StartBody(Take(s.pool, w, e), e)
    requires s' == s.(pool := s'.pool, slots := s.slots[w := Busy(e)], cond := Cond({}, {}))
    ensures Next(s, Turn(w, e), s')
  {
    hide Take, Next;
    TakeIsRefs(s.pool, w, e);
    NoSleepers(s'.pool.signals - s.pool.signals);
    StartsIsStep(s, w, e, s');
  }

  /** A worker skips a cancelled job while nobody sleeps. */
  lemma SkipsTo(s: Sys, w: nat, e: nat, s': Sys)
    requires Refs(s.pool) && !s.closing && AtTop(s, w) && MayTake(s.pool, w, e) && s.cond == Cond({}, {})
    requires e < |s.pool.jobs| && s.pool.jobs[e].cancelled && s.pool.signals <= s'.pool.signals
    requires Refs(Take(s.pool, w, e)) && s' == s.(pool := SkipBody(Take(s.pool, w, e), e))
    ensures Next(s, Turn(w, e), s')
  {
    hide Take, Next, SkipBody;
    TakeIsRefs(s.pool, w, e);
    NoSleepers(s'.pool.signals - s.pool.signals);
    assert s.cond.Resume(w) == Cond({}, {});
    SkipIsStep(s, w, e, s');
  }

  lemma FinishFirst()
    ensures Next(S5, Finish(0, false), S6)
  {
    NoSleepers(0);
    assert FinishBody(S5.pool, 0, false) == S6.pool;
  }

  lemma FirstSleeps()
    ensures Next(S6, Turn(0, 0), S6Asleep)
  {
    assert S6.cond.Resume(0).Sleep(0) == Cond({0}, {});
  }

  function P(jobs: seq<Job>, queue: multiset<nat>, jobid: nat, signals: nat): Pool {
    Pool(jobs, queue, [[], [], []], jobid, signals)
  }

  const B0 := NEW_JOB.(deps := [0])
  const BQ := B0.(queued := true, pushes := 1)
  const C0 := NEW_JOB.(deps := [1], late := true)

  lemma MiddleDeps()
    ensures AddDeps(S6.pool, [1], [0]) == P([A3, B0, NEW], multiset{}, 1, 1)
  {
    var p := S6.pool;
    assert p.jobs[1].deps + [0] == [0];
    assert forall d | d in [0] :: p.jobs[d].done;
    assert WithDeps(p, p.jobs[1], [0]) == B0;
    assert p.jobs[1 := B0] == [A3, B0, NEW];
    assert [1][1..] == [];
  }

  /** `addNotify` on the finished job queues job 1. */
  lemma MiddleNotified()
    ensures AddNotifies(P([A3, B0, NEW], multiset{}, 1, 1), [0], [1]) == P([A4, BQ, NEW], multiset{1}, 1, 2)
  {
    var p := P([A3, B0, NEW], multiset{}, 1, 1);
    var q := P([A4, B0, NEW], multiset{}, 1, 1);
    var r := P([A4, BQ, NEW], multiset{1}, 1, 2);
    assert p.jobs[0].notify + [1] == [1];
    assert Put(p, 0, WithNotify(p.jobs[0], [1])).jobs == [A4, B0, NEW];
    MiddleTold(q, r);
    hide NotifyDeps;
    assert [0][1..] == [];
    assert AddNotify(p, 0, [1]) == NotifyDeps(q, 0);
    assert AddNotifies(r, [], [1]) == r;
  }

  lemma MiddleTold(q: Pool, r: Pool)
    requires q == P([A4, B0, NEW], multiset{}, 1, 1) && r == P([A4, BQ, NEW], multiset{1}, 1, 2)
    ensures Refs(q) && NotifyDeps(q, 0) == r
  {
    assert NotifyOne(q, 1) == r by {
      assert DepsDone(q, 1);
      assert r.jobs == q.jobs[1 := BQ];
    }
    hide NotifyOne;
    assert [1][1..] == [];
    assert NotifyAll(q, [1]) == NotifyAll(r, []) == r;
  }

  /** ... and `attachJob` queues it again. */
  lemma MiddleAttached()
    ensures AttachAll(P([A4, BQ, NEW], multiset{1}, 1, 2), [1]) == S7.pool
  {
    var p := P([A4, BQ, NEW], multiset{1}, 1, 2);
    assert DepsDone(p, 1);
    assert AttachJob(p, 1).jobs == [A4, B1, NEW];
    assert [1][1..] == [];
  }

  lemma ScheduleMiddle()
    ensures Next(S6Asleep, Schedule([1], [0]), S7)
  {
    hide AddDeps, AddNotifies, AttachAll, CancelAll;
    assert Signals(Cond({0}, {}), 2, Cond({}, {0})) by {
      var one: set<nat> := {0};
      assert one - {} == one && |one| == 1;
    }
    MiddleDeps();
    MiddleNotified();
    MiddleAttached();
    assert ScheduleJobs(S6.pool, [1], [0]) == S7.pool;
  }

  lemma LastDeps()
    ensures AddDeps(S8.pool, [2], [1]) == P([A4, B2, C0], multiset{1}, 2, 4)
  {
    var p := S8.pool;
    assert p.jobs[2].deps + [1] == [1];
    assert 1 in [1] && !p.jobs[1].done;
    assert WithDeps(p, p.jobs[2], [1]) == C0;
    assert p.jobs[2 := C0] == [A4, B2, C0];
    assert [2][1..] == [];
  }

  lemma LastNotified()
    ensures AddNotifies(P([A4, B2, C0], multiset{1}, 2, 4), [1], [2]) == P([A4, B3, C0], multiset{1}, 2, 4)
  {
    var p := P([A4, B2, C0], multiset{1}, 2, 4);
    assert p.jobs[1].notify + [2] == [2];
    assert Put(p, 1, WithNotify(p.jobs[1], [2])).jobs == [A4, B3, C0];
    assert [1][1..] == [];
  }

  lemma LastAttached()
    ensures AttachAll(P([A4, B3, C0], multiset{1}, 2, 4), [2]) == S9.pool
  {
    var p := P([A4, B3, C0], multiset{1}, 2, 4);
    assert 1 in p.jobs[2].deps && !p.jobs[1].done;
    assert AttachJob(p, 2).jobs == [A4, B3, C1];
    assert [2][1..] == [];
  }

  lemma RunMiddle()
    ensures Next(S7, Turn(0, 1), S8)
  {
    assert Take(S7.pool, 0, 1).queue == multiset{1};
    assert StartBody(Take(S7.pool, 0, 1), 1) == S8.pool;
    assert S7.cond.Resume(0) == Cond({}, {});
    TurnsTo(S7, 0, 1, S8);
  }

  lemma ScheduleLast()
    ensures Next(S8, Schedule([2], [1]), S9)
  {
    hide AddDeps, AddNotifies, AttachAll, CancelAll;
    NoSleepers(0);
    LastDeps();
    LastNotified();
    LastAttached();
    assert ScheduleJobs(S8.pool, [2], [1]) == S9.pool;
  }

  lemma CancelMiddle()
    ensures Next(S9, Cancel(1), S10)
  {
  }

  /** Telling job 2 that job 1 is done. */
  lemma LastTold(q: Pool, r: Pool)
    requires q == P([A4, B5, C1], multiset{}, 3, 4) && r == P([A4, B5, C2], multiset{2}, 3, 5)
    ensures Refs(q) && NotifyDeps(q, 1) == r
  {
    assert NotifyOne(q, 2) == r by {
      assert DepsDone(q, 2);
      assert r.jobs == q.jobs[2 := C2];
    }
    hide NotifyOne;
    assert [2][1..] == [];
    assert NotifyAll(q, [2]) == NotifyAll(r, []) == r;
  }

  lemma SkipMiddle()
    ensures Next(S10, Turn(1, 1), S11)
  {
    hide NotifyDeps;
    var t := Take(S10.pool, 1, 1);
    assert t == P([A4, B4, C1], multiset{}, 3, 4);
    assert Put(t, 1, B5).jobs == [A4, B5, C1];
    LastTold(P([A4, B5, C1], multiset{}, 3, 4), S11.pool);
    SkipsTo(S10, 1, 1, S11);
  }

  lemma RunLast()
    ensures Next(S11, Turn(1, 2), S12)
  {
    var t := Take(S11.pool, 1, 2);
    assert t == P([A4, B5, C2], multiset{}, 3, 5);
    assert StartBody(t, 2).jobs == [A4, B5, C3];
    assert StartBody(t, 2) == S12.pool;
    hide Take, StartBody;
    TurnsTo(S11, 1, 2, S12);
  }

  const STATES := [S0, S1, S2, S3, S4, S5, S6, S6Asleep, S7, S8, S9, S10, S11, S12]
  const ACTS := [Create, Create, Create, Start(0), Turn(0, 0), Finish(0, false), Turn(0, 0),
                 Schedule([1], [0]), Turn(0, 1), Schedule([2], [1]), Cancel(1), Turn(1, 1), Turn(1, 2)]

  lemma Begins()
    ensures Init(S0)
  {
  }

  lemma CreateThree()
    ensures Next(S0, Create, S1) && Next(S1, Create, S2) && Next(S2, Create, S3)
  {
  }

  lemma IsRun()
    ensures Run(STATES, ACTS)
  {
    hide Next, Init;
    Begins();
    CreateThree();
    StartFirst();
    RunFirst();
    FinishFirst();
    FirstSleeps();
    ScheduleMiddle();
    RunMiddle();
    ScheduleLast();
    CancelMiddle();
    SkipMiddle();
    RunLast();
  }

  lemma IsSeamless()
    ensures Seamless(STATES, ACTS)
  {
    assert !AtTop(S5, 0) && !AtTop(S6Asleep, 0) && !AtTop(S8, 0);
    hide AtTop, State, P;
  }

  /** In this run job 2 starts while the body of job 1, on which it depends, is still being executed
      for the first time. */
  lemma StartsBeforeDependencyReturns()
    ensures Run(STATES, ACTS) && Seamless(STATES, ACTS)
    ensures 1 in S12.pool.jobs[2].deps && S12.pool.jobs[1].kind.Plain? && Executing(S12, 2) == 1
    ensures S12.pool.jobs[1].finishes == 0 && Executing(S12, 1) == 1
  {
    IsRun();
    IsSeamless();
    assert S12.slots == [Busy(1), Busy(2)];
  }

  // ---------------------------------------------------------------- the job of threadPoolExec

  /** Job 0 is that job.  While worker 0 executes it, its body asks for `currentJob`, schedules job 1
      after it, and cancels it. */
  const D1 := NEW_JOB.(kind := Broadcast, pool := true)
  const D2 := D1.(running := true, starts := 1)
  const D3 := D2.(notify := [1])
  const D4 := D3.(cancelled := true)
  const D5 := D4.(done := true)
  const E0 := NEW_JOB.(deps := [0], late := true)
  const E1 := E0.(pool := true, id := 0)
  const E2 := E1.(queued := true, pushes := 1)
  const E3 := E2.(running := true, starts := 1)

  function Doing(jobs: seq<Job>, queue: multiset<nat>, private: seq<seq<nat>>, jobid: nat, signals: nat,
                 slots: seq<Slot>): Sys {
    Sys(Pool(jobs, queue, private, jobid, signals), slots, multiset{}, Cond({}, {}), false, 0)
  }

  const T1 := Doing([D1], multiset{}, [[0], [0], [0]], 0, 0, [Idle, Idle])
  const T2 := Doing([D2], multiset{}, [[], [0], [0]], 0, 0, [Busy(0), Idle])
  const T3 := Doing([D2, NEW], multiset{}, [[], [0], [0]], 0, 0, [Busy(0), Idle])
  const T4 := Doing([D3, E1], multiset{}, [[], [0], [0]], 1, 0, [Busy(0), Idle])
  const T5 := Doing([D4, E1], multiset{}, [[], [0], [0]], 1, 0, [Busy(0), Idle])
  const T6 := Doing([D5, E2], multiset{1}, [[], [], [0]], 1, 1, [Busy(0), Idle])
  const T7 := Doing([D5, E3], multiset{}, [[], [], [0]], 1, 1, [Busy(0), Busy(1)])

  lemma ExecBegins()
    ensures Next(S0, Exec, T1)
  {
    var q := BroadcastJob(S0.pool);
    forall w | 0 <= w < 3 ensures q.private[w] == [0] {
      assert S0.pool.private[w] + [0] == [0];
    }
    assert q.private == T1.pool.private;
  }

  lemma ExecRuns()
    ensures Next(T1, Turn(0, 0), T2)
  {
    assert [0][1..] == [];
    assert Take(T1.pool, 0, 0).private == [[], [0], [0]];
    assert StartBody(Take(T1.pool, 0, 0), 0) == T2.pool;
    TurnsTo(T1, 0, 0, T2);
  }

  lemma DependentDeps()
    ensures AddDeps(T3.pool, [1], [0]) == T3.pool.(jobs := [D2, E0])
  {
    var p := T3.pool;
    assert p.jobs[1].deps + [0] == [0];
    assert 0 in [0] && !p.jobs[0].done;
    assert WithDeps(p, p.jobs[1], [0]) == E0;
    assert p.jobs[1 := E0] == [D2, E0];
    assert [1][1..] == [];
  }

  lemma DependentNotified()
    ensures AddNotifies(T3.pool.(jobs := [D2, E0]), [0], [1]) == T3.pool.(jobs := [D3, E0])
  {
    var p := T3.pool.(jobs := [D2, E0]);
    assert p.jobs[0].notify + [1] == [1];
    assert Put(p, 0, WithNotify(p.jobs[0], [1])).jobs == [D3, E0];
    assert [0][1..] == [];
  }

  lemma DependentAttached()
    ensures AttachAll(T3.pool.(jobs := [D3, E0]), [1]) == T4.pool
  {
    var p := T3.pool.(jobs := [D3, E0]);
    assert 0 in p.jobs[1].deps && !p.jobs[0].done;
    assert AttachJob(p, 1).jobs == [D3, E1];
    assert [1][1..] == [];
  }

  lemma ScheduleDependent()
    ensures Next(T3, Schedule([1], [0]), T4)
  {
    hide AddDeps, AddNotifies, AttachAll, CancelAll;
    NoSleepers(0);
    DependentDeps();
    DependentNotified();
    DependentAttached();
    assert ScheduleJobs(T3.pool, [1], [0]) == T4.pool;
  }

  lemma CancelExec()
    ensures Next(T4, Cancel(0), T5)
  {
  }

  lemma DependentTold(q: Pool, r: Pool)
    requires q == T6.pool.(jobs := [D5, E1], queue := multiset{}, signals := 0) && r == T6.pool
    ensures Refs(q) && NotifyDeps(q, 0) == r
  {
    assert NotifyOne(q, 1) == r by {
      assert DepsDone(q, 1);
      assert r.jobs == q.jobs[1 := E2];
    }
    hide NotifyOne;
    assert [1][1..] == [];
    assert NotifyAll(q, [1]) == NotifyAll(r, []) == r;
  }

  /** The second worker finds the cancelled job in its private queue. */
  lemma SkipExec()
    ensures Next(T5, Turn(1, 0), T6)
  {
    hide NotifyDeps;
    var t := Take(T5.pool, 1, 0);
    assert [0][1..] == [];
    assert t == T5.pool.(private := [[], [], [0]]);
    assert Put(t, 0, D5).jobs == [D5, E1];
    DependentTold(T6.pool.(jobs := [D5, E1], queue := multiset{}, signals := 0), T6.pool);
    SkipsTo(T5, 1, 0, T6);
  }

  lemma RunDependent()
    ensures Next(T6, Turn(1, 1), T7)
  {
    var t := Take(T6.pool, 1, 1);
    assert t == T6.pool.(queue := multiset{});
    assert StartBody(t, 1).jobs == [D5, E3];
    TurnsTo(T6, 1, 1, T7);
  }

  const EXEC_STATES := [S0, T1, T2, T3, T4, T5, T6, T7]
  const EXEC_ACTS := [Exec, Turn(0, 0), Create, Schedule([1], [0]), Cancel(0), Turn(1, 0), Turn(1, 1)]

  lemma CreateDependent()
    ensures Next(T2, Create, T3)
  {
  }

  /** In this run job 1 starts while the body of the job of `threadPoolExec`, on which it depends, is
      still being executed for the first time. */
  lemma StartsBeforeExecReturns()
    ensures Run(EXEC_STATES, EXEC_ACTS) && Seamless(EXEC_STATES, EXEC_ACTS)
    ensures 0 in T7.pool.jobs[1].deps && T7.pool.jobs[0].kind.Broadcast? && Executing(T7, 1) == 1
    ensures T7.pool.jobs[0].finishes == 0 && T7.pool.jobs[0].pushes == 0 && Executing(T7, 0) == 1
  {
    ExecIsRun();
    assert T7.slots == [Busy(0), Busy(1)];
  }

  lemma ExecIsRun()
    ensures Run(EXEC_STATES, EXEC_ACTS) && Seamless(EXEC_STATES, EXEC_ACTS)
  {
    hide Next, Init;
    Begins();
    CreateDependent();
    ExecBegins();
    ExecRuns();
    ScheduleDependent();
    CancelExec();
    SkipExec();
    RunDependent();
  }
}
