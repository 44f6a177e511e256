/** `Lock` and `ConditionVariable` of thread.h, one memory access or blocking call at a time.

    `lock` reads `owner` before it has the mutex, and `wait` gives up its fields before it gives up
    the mutex; the phases below are the points in between at which other threads can run. */
module Monitor {
  import opened CondVar
  import opened Options

  /** The mutex, and the fields of the lock and of one condition variable. */
  datatype Fields = Fields(mutex: Option<nat>, owner: Option<nat>, locked: int, recursive: bool, waiting: int) {
    predicate IsLocked(t: nat) { locked != 0 && owner == Some(t) }

    /** The end of `lock`. */
    function Owned(t: nat): Fields { this.(owner := Some(t), locked := locked + 1) }

    /** `unlock` up to the call that frees the mutex. */
    function Unlocked(): Fields { this.(owner := if locked == 1 then None else owner, locked := locked - 1) }

    /** `wait` up to the call that sleeps: it counts itself and breaks the lock. */
    function Broken(): Fields { this.(owner := None, locked := 0, waiting := waiting + 1) }

    /** `wait` after it woke up and has the mutex again. */
    function Resumed(t: nat, depth: int): Fields {
      this.(owner := Some(t), locked := depth, waiting := waiting - 1)
    }

    function Taken(t: nat): Fields { this.(mutex := Some(t)) }

    function Freed(): Fields { this.(mutex := None) }
  }

  /** Where a thread is. */
  datatype Phase =
    | Running
    | Entering            // in `lock`, about to take the mutex
    | Entered             // in `lock`, has the mutex
    | Leaving             // in `unlock`, about to free the mutex
    | Parked(depth: int)  // in `wait`, about to sleep and free the mutex
    | Asleep(depth: int)
    | Woken(depth: int)   // in `wait`, about to take the mutex
    | Returned(depth: int) // in `wait`, has the mutex again
  {
    /** Between `waiting++` and `waiting--`. */
    predicate Waiting() { Parked? || Asleep? || Woken? || Returned? }

    predicate HasMutex() { Entered? || Leaving? || Parked? || Returned? }
  }

  /** A thread: where it is, and how often it has completed `lock` and begun `unlock`. */
  datatype Thread = Thread(phase: Phase, locks: nat, unlocks: nat) {
    function Depth(): int { locks - unlocks }
  }

  datatype Sys = Sys(f: Fields, threads: seq<Thread>, aborted: bool)

  datatype Action =
    | Lock(t: nat)
    | Acquire(t: nat)
    | FinishLock(t: nat)
    | Unlock(t: nat)
    | Release(t: nat)
    | Wait(t: nat)
    | Sleep(t: nat)
    | Wake(t: nat)
    | Reacquire(t: nat)
    | Resume(t: nat)
    | Signal(t: nat)
    | Broadcast(t: nat)

  function At(s: Sys, t: nat, phase: Phase): Sys
    requires t < |s.threads|
  {
    s.(threads := s.threads[t := s.threads[t].(phase := phase)])
  }

  function Locks(s: Sys, t: nat): Sys
    requires t < |s.threads|
  {
    s.(f := s.f.Owned(t), threads := s.threads[t := Thread(Running, s.threads[t].locks + 1, s.threads[t].unlocks)])
  }

  function Unlocks(s: Sys, t: nat): Sys
    requires t < |s.threads|
  {
    var phase := if s.f.locked == 1 then Leaving else Running;
    s.(f := s.f.Unlocked(),
       threads := s.threads[t := Thread(phase, s.threads[t].locks, s.threads[t].unlocks + 1)])
  }

  function Abort(s: Sys): Sys { s.(aborted := true) }

  /** Thread `u`, if it sleeps, is woken. */
  function Woke(th: Thread): Thread { if th.phase.Asleep? then th.(phase := Woken(th.phase.depth)) else th }

  /** `pthread_cond_signal`: some sleeper is woken, if there is one. */
  ghost predicate CondSignal(s: Sys, s': Sys) {
    if exists u | 0 <= u < |s.threads| :: s.threads[u].phase.Asleep? then
      exists u | 0 <= u < |s.threads| :: s.threads[u].phase.Asleep? && s' == At(s, u, Woken(s.threads[u].phase.depth))
    else s' == s
  }

  function CondBroadcast(s: Sys): Sys {
    s.(threads := seq(|s.threads|, u requires 0 <= u < |s.threads| => Woke(s.threads[u])))
  }

  /** One step of a thread.  `eliding` says whether signals are skipped while nobody is counted as
      waiting, as thread.h does, or always sent. */
  ghost predicate Next(s: Sys, a: Action, s': Sys, eliding: bool) {
    !s.aborted && a.t < |s.threads| && Step(s, a, s', eliding)
  }

  ghost predicate Step(s: Sys, a: Action, s': Sys, eliding: bool)
    requires a.t < |s.threads|
  {
    var f, t, phase := s.f, a.t, s.threads[a.t].phase;
    match a
    case Lock(_) =>
      phase.Running? && s' == (
        if f.owner != Some(t) then At(s, t, Entering)
        else if f.locked != 0 && !f.recursive then Abort(s)
        else Locks(s, t))
    case Acquire(_) => phase.Entering? && f.mutex.None? && s' == At(s.(f := f.Taken(t)), t, Entered)
    case FinishLock(_) => phase.Entered? && s' == Locks(s, t)
    case Unlock(_) => phase.Running? && s' == (if f.owner != Some(t) then Abort(s) else Unlocks(s, t))
    case Release(_) => phase.Leaving? && s' == At(s.(f := f.Freed()), t, Running)
    case Wait(_) =>
      phase.Running? && s' == (if !f.IsLocked(t) then Abort(s) else At(s.(f := f.Broken()), t, Parked(f.locked)))
    case Sleep(_) => phase.Parked? && s' == At(s.(f := f.Freed()), t, Asleep(phase.depth))
    case Wake(_) => phase.Asleep? && s' == At(s, t, Woken(phase.depth))
    case Reacquire(_) => phase.Woken? && f.mutex.None? && s' == At(s.(f := f.Taken(t)), t, Returned(phase.depth))
    case Resume(_) => phase.Returned? && s' == At(s.(f := f.Resumed(t, phase.depth)), t, Running)
    case Signal(_) =>
      phase.Running? && (
        if !f.IsLocked(t) then s' == Abort(s)
        else if eliding && f.waiting == 0 then s' == s
        else CondSignal(s, s'))
    case Broadcast(_) =>
      phase.Running? && s' == (
        if !f.IsLocked(t) then Abort(s)
        else if eliding && f.waiting == 0 then s
        else CondBroadcast(s))
  }

  ghost predicate Init(s: Sys) {
    && s.f.mutex.None? && s.f.owner.None? && s.f.locked == 0 && s.f.waiting == 0 && !s.aborted
    && (forall t | 0 <= t < |s.threads| :: s.threads[t] == Thread(Running, 0, 0))
  }

  ghost predicate Run(states: seq<Sys>, acts: seq<Action>, eliding: bool) {
    && |states| == |acts| + 1 && Init(states[0])
    && (forall i | 0 <= i < |acts| :: Next(states[i], acts[i], states[i + 1], eliding))
  }

  // -------------------------------------------------------------------------------- the invariant

  /** The threads counted by `waiting`. */
  function Waiters(threads: seq<Thread>): set<nat> {
    set t | 0 <= t < |threads| && threads[t].phase.Waiting()
  }

  /** What holds of one thread and the fields, whatever the other threads do. */
  predicate ThreadOk(f: Fields, t: nat, th: Thread) {
    && th.Depth() >= 0 && (!f.recursive ==> th.Depth() <= 1)
    // Who has the mutex.
    && (f.mutex == Some(t) <==> th.phase.HasMutex() || (th.phase.Running? && th.Depth() > 0))
    // The fields belong to whoever runs inside.
    && (th.phase.Running? && th.Depth() > 0 <==> f.owner == Some(t))
    && (f.owner == Some(t) ==> f.locked == th.Depth())
    && (th.phase.Entering? || th.phase.Entered? || th.phase.Leaving? ==> th.Depth() == 0)
    // A waiting thread keeps its depth.
    && (th.phase.Waiting() ==> th.phase.depth == th.Depth() > 0)
  }

  ghost predicate Inv(s: Sys) {
    && (forall t | 0 <= t < |s.threads| :: ThreadOk(s.f, t, s.threads[t]))
    && (s.f.owner == None ==> s.f.locked == 0)
    && (s.f.owner.Some? ==> s.f.owner == s.f.mutex)
    && (s.f.mutex.Some? ==> s.f.mutex.value < |s.threads|)
    && s.f.waiting == |Waiters(s.threads)|
  }

  lemma InitHolds(s: Sys)
    requires Init(s)
    ensures Inv(s)
  {
    hide ThreadOk, Waiters;
    forall t | 0 <= t < |s.threads| ensures ThreadOk(s.f, t, s.threads[t]) {
      NewThreadOk(s.f, t, s.threads[t]);
    }
    NoWaiters(s.threads);
  }

  lemma NewThreadOk(f: Fields, t: nat, th: Thread)
    requires f.mutex.None? && f.owner.None? && th.phase.Running? && th.locks == th.unlocks
    ensures ThreadOk(f, t, th)
  {
  }

  lemma NoWaiters(threads: seq<Thread>)
    requires forall t | 0 <= t < |threads| :: !threads[t].phase.Waiting()
    ensures |Waiters(threads)| == 0
  {
    assert Waiters(threads) == {};
  }

  /** Replacing one thread changes the count of the waiting by that thread only. */
  lemma WaitersUpdate(threads: seq<Thread>, t: nat, th: Thread)
    requires t < |threads|
    ensures |Waiters(threads[t := th])|
         == |Waiters(threads)| + (if th.phase.Waiting() then 1 else 0) - (if threads[t].phase.Waiting() then 1 else 0)
  {
    var others := Waiters(threads) - {t};
    assert Waiters(threads) == others + if threads[t].phase.Waiting() then {t} else {};
    assert Waiters(threads[t := th]) == others + if th.phase.Waiting() then {t} else {};
  }

  lemma BroadcastWaiters(s: Sys)
    ensures Waiters(CondBroadcast(s).threads) == Waiters(s.threads)
  {
  }

  function One(b: bool): int { if b then 1 else 0 }

  /** A step that replaces the fields and one thread. */
  lemma OneMoves(s: Sys, f: Fields, t: nat, th: Thread)
    requires Inv(s) && t < |s.threads|
    requires ThreadOk(f, t, th) && f.recursive == s.f.recursive
    requires f.waiting == s.f.waiting + One(th.phase.Waiting()) - One(s.threads[t].phase.Waiting())
    requires f.owner == None ==> f.locked == 0
    requires f.owner.Some? ==> f.owner == f.mutex
    requires f.mutex == s.f.mutex || (s.f.mutex.None? && f.mutex == Some(t)) || (s.f.mutex == Some(t) && f.mutex.None?)
    requires s.f.mutex == Some(t) || f.mutex == Some(t) || (f.owner == s.f.owner && f.locked == s.f.locked)
    ensures Inv(s.(f := f, threads := s.threads[t := th]))
  {
    var s' := s.(f := f, threads := s.threads[t := th]);
    WaitersUpdate(s.threads, t, th);
    forall u | 0 <= u < |s'.threads| ensures ThreadOk(f, u, s'.threads[u]) {
      assert ThreadOk(s.f, u, s.threads[u]);
      assert ThreadOk(s.f, t, s.threads[t]);
    }
  }

  /** Every step keeps the invariant, with or without elision. */
  lemma NextKeeps(s: Sys, a: Action, s': Sys, eliding: bool)
    requires Inv(s) && Next(s, a, s', eliding)
    ensures Inv(s')
  {
    hide ThreadOk, Waiters;
    if a.Signal? {
      SignalKeeps(s, a.t, s', eliding);
    } else if a.Broadcast? {
      BroadcastKeeps(s, a.t, s', eliding);
    } else if a.Lock? || a.Acquire? || a.FinishLock? {
      EnterKeeps(s, a, s', eliding);
    } else if a.Unlock? || a.Release? {
      LeaveKeeps(s, a, s', eliding);
    } else {
      WaitKeeps(s, a, s', eliding);
    }
  }

  lemma EnterKeeps(s: Sys, a: Action, s': Sys, eliding: bool)
    requires Inv(s) && Next(s, a, s', eliding) && (a.Lock? || a.Acquire? || a.FinishLock?)
    ensures Inv(s')
  {
    var t := a.t;
    assert ThreadOk(s.f, t, s.threads[t]);
    if !s'.aborted {
      OneMoves(s, s'.f, t, s'.threads[t]);
    }
  }

  lemma LeaveKeeps(s: Sys, a: Action, s': Sys, eliding: bool)
    requires Inv(s) && Next(s, a, s', eliding) && (a.Unlock? || a.Release?)
    ensures Inv(s')
  {
    var t := a.t;
    assert ThreadOk(s.f, t, s.threads[t]);
    if !s'.aborted {
      OneMoves(s, s'.f, t, s'.threads[t]);
    }
  }

  lemma WaitKeeps(s: Sys, a: Action, s': Sys, eliding: bool)
    requires Inv(s) && Next(s, a, s', eliding) && (a.Wait? || a.Sleep? || a.Wake? || a.Reacquire? || a.Resume?)
    ensures Inv(s')
  {
    var t := a.t;
    assert ThreadOk(s.f, t, s.threads[t]);
    if !s'.aborted {
      OneMoves(s, s'.f, t, s'.threads[t]);
    }
  }

  lemma SignalKeeps(s: Sys, t: nat, s': Sys, eliding: bool)
    requires Inv(s) && Next(s, Signal(t), s', eliding)
    ensures Inv(s')
  {
    if s' != s && !s'.aborted {
      var u :| 0 <= u < |s.threads| && s.threads[u].phase.Asleep? && s' == At(s, u, Woken(s.threads[u].phase.depth));
      assert ThreadOk(s.f, u, s.threads[u]);
      OneMoves(s, s.f, u, s'.threads[u]);
    }
  }

  lemma BroadcastKeeps(s: Sys, t: nat, s': Sys, eliding: bool)
    requires Inv(s) && Next(s, Broadcast(t), s', eliding)
    ensures Inv(s')
  {
    BroadcastWaiters(s);
    forall u | 0 <= u < |s'.threads| ensures ThreadOk(s'.f, u, s'.threads[u]) {
      assert ThreadOk(s.f, u, s.threads[u]);
    }
  }

  lemma {:induction false} RunKeeps(states: seq<Sys>, acts: seq<Action>, eliding: bool, i: nat)
    requires Run(states, acts, eliding) && i < |states|
    ensures Inv(states[i])
  {
    if i == 0 {
      InitHolds(states[0]);
    } else {
      RunKeeps(states, acts, eliding, i - 1);
      NextKeeps(states[i - 1], acts[i - 1], states[i], eliding);
    }
  }

  // ------------------------------------------------------------------------------------ theorems

  /** A thread runs inside the lock, as its own history has it. */
  predicate Inside(s: Sys, t: nat) { t < |s.threads| && s.threads[t].phase.Running? && s.threads[t].Depth() > 0 }

  /** Mutual exclusion, and what the fields mean: at most one thread runs inside; it is the owner,
      it has the mutex, and `locked` is the number of its locks that are still to be unlocked.
      Nobody else sees itself as the owner, although `lock` looks without holding the mutex. */
  lemma MutualExclusion(states: seq<Sys>, acts: seq<Action>, eliding: bool, i: nat, t: nat)
    requires Run(states, acts, eliding) && i < |states| && t < |states[i].threads|
    ensures var s := states[i];
      && (Inside(s, t) ==> s.f.mutex == Some(t) && s.f.locked == s.threads[t].Depth())
      && (Inside(s, t) <==> s.f.IsLocked(t))
      && (Inside(s, t) <==> s.f.owner == Some(t))
      && (Inside(s, t) ==> forall u: nat | Inside(s, u) :: u == t)
  {
    RunKeeps(states, acts, eliding, i);
    var s := states[i];
    assert ThreadOk(s.f, t, s.threads[t]);
    forall u: nat | Inside(s, u) ensures s.f.mutex == Some(u) {
      assert ThreadOk(s.f, u, s.threads[u]);
    }
  }

  /** How often `t` called `lock`, and how often `unlock`. */
  function LockCalls(acts: seq<Action>, t: nat): nat {
    if acts == [] then 0
    else LockCalls(acts[..|acts| - 1], t) + if acts[|acts| - 1] == Lock(t) then 1 else 0
  }

  function UnlockCalls(acts: seq<Action>, t: nat): nat {
    if acts == [] then 0
    else UnlockCalls(acts[..|acts| - 1], t) + if acts[|acts| - 1] == Unlock(t) then 1 else 0
  }

  lemma HistoryStep(s: Sys, a: Action, s': Sys, eliding: bool, t: nat)
    requires Next(s, a, s', eliding) && !s'.aborted && t < |s'.threads|
    ensures !s.aborted && |s'.threads| == |s.threads|
    ensures s'.threads[t].locks + One(s'.threads[t].phase.Entering? || s'.threads[t].phase.Entered?)
         == s.threads[t].locks + One(s.threads[t].phase.Entering? || s.threads[t].phase.Entered?) + One(a == Lock(t))
    ensures s'.threads[t].unlocks == s.threads[t].unlocks + One(a == Unlock(t))
  {
  }

  /** The history of a thread is its calls: each call of `lock` counts once it is over, each call of
      `unlock` once it has begun. */
  lemma {:induction false} CallsCount(states: seq<Sys>, acts: seq<Action>, eliding: bool, i: nat, t: nat)
    requires Run(states, acts, eliding) && i < |states| && t < |states[i].threads| && !states[i].aborted
    ensures var th := states[i].threads[t];
      && LockCalls(acts[..i], t) == th.locks + One(th.phase.Entering? || th.phase.Entered?)
      && UnlockCalls(acts[..i], t) == th.unlocks
  {
    hide Next;
    if i > 0 {
      HistoryStep(states[i - 1], acts[i - 1], states[i], eliding, t);
      CallsCount(states, acts, eliding, i - 1, t);
      assert acts[..i][..i - 1] == acts[..i - 1];
    }
  }

  /** A thread that is not in the middle of a call is inside exactly when it has called `lock` more
      often than `unlock`, and `locked` is the difference. */
  lemma InsideByCalls(states: seq<Sys>, acts: seq<Action>, eliding: bool, i: nat, t: nat)
    requires Run(states, acts, eliding) && i < |states| && t < |states[i].threads| && !states[i].aborted
    requires states[i].threads[t].phase.Running?
    ensures LockCalls(acts[..i], t) >= UnlockCalls(acts[..i], t)
    ensures states[i].f.owner == Some(t) <==> LockCalls(acts[..i], t) > UnlockCalls(acts[..i], t)
    ensures states[i].f.owner == Some(t) ==>
      states[i].f.mutex == Some(t) && states[i].f.locked == LockCalls(acts[..i], t) - UnlockCalls(acts[..i], t)
  {
    hide LockCalls, UnlockCalls;
    RunKeeps(states, acts, eliding, i);
    assert ThreadOk(states[i].f, t, states[i].threads[t]);
    CallsCount(states, acts, eliding, i, t);
  }

  /** The mutex is free only when every lock has been matched by an unlock, except by threads that
      wait; so `d` nested locks need `d` unlocks. */
  lemma FreeMeansMatched(states: seq<Sys>, acts: seq<Action>, eliding: bool, i: nat, t: nat)
    requires Run(states, acts, eliding) && i < |states| && t < |states[i].threads|
    requires states[i].f.mutex.None?
    ensures var th := states[i].threads[t]; th.phase.Waiting() || th.locks == th.unlocks
    ensures var phase := states[i].threads[t].phase; phase.Running? && !states[i].aborted ==>
      LockCalls(acts[..i], t) == UnlockCalls(acts[..i], t)
  {
    hide LockCalls, UnlockCalls;
    RunKeeps(states, acts, eliding, i);
    assert ThreadOk(states[i].f, t, states[i].threads[t]);
    if !states[i].aborted {
      CallsCount(states, acts, eliding, i, t);
    }
  }

  /** The process aborts exactly when a thread unlocks, waits or signals without being inside, or
      locks a lock twice that is not recursive. */
  lemma AbortsExactly(states: seq<Sys>, acts: seq<Action>, eliding: bool, i: nat)
    requires Run(states, acts, eliding) && i < |acts|
    ensures var s, a := states[i], acts[i];
      states[i + 1].aborted <==>
        if a.Lock? then !s.f.recursive && Inside(s, a.t)
        else (a.Unlock? || a.Wait? || a.Signal? || a.Broadcast?) && !Inside(s, a.t)
  {
    assert Next(states[i], acts[i], states[i + 1], eliding);
    MutualExclusion(states, acts, eliding, i, acts[i].t);
  }

  /** `wait` gives up the whole lock, however deep, and gives back exactly the same depth. */
  lemma WaitRestores(states: seq<Sys>, acts: seq<Action>, eliding: bool, i: nat, j: nat, t: nat)
    requires Run(states, acts, eliding) && i < j < |acts| && !states[i + 1].aborted
    requires acts[i] == Wait(t) && acts[j] == Resume(t)
    requires forall k | i < k < j :: acts[k].t == t ==> acts[k].Sleep? || acts[k].Wake? || acts[k].Reacquire?
    ensures states[i].f.owner == Some(t) && states[i + 1].f.owner == None && states[i + 1].f.locked == 0
    ensures states[j + 1].f.owner == Some(t) && states[j + 1].f.locked == states[i].f.locked
  {
    MutualExclusion(states, acts, eliding, i, t);
    Undisturbed(states, acts, eliding, i + 1, j, t);
    RunKeeps(states, acts, eliding, i + 1);
    RunKeeps(states, acts, eliding, j + 1);
    assert ThreadOk(states[j + 1].f, t, states[j + 1].threads[t]);
    assert ThreadOk(states[i + 1].f, t, states[i + 1].threads[t]);
  }

  /** While a thread waits nobody changes how deep it is. */
  lemma {:induction false} Undisturbed(states: seq<Sys>, acts: seq<Action>, eliding: bool, i: nat, j: nat, t: nat)
    requires Run(states, acts, eliding) && i <= j < |states| && t < |states[i].threads|
    requires forall k | i <= k < j :: acts[k].t == t ==> acts[k].Sleep? || acts[k].Wake? || acts[k].Reacquire?
    ensures |states[j].threads| == |states[i].threads|
    ensures states[j].threads[t].locks == states[i].threads[t].locks
    ensures states[j].threads[t].unlocks == states[i].threads[t].unlocks
    decreases j
  {
    if i < j {
      Undisturbed(states, acts, eliding, i, j - 1, t);
      assert Next(states[j - 1], acts[j - 1], states[j], eliding);
    }
  }

  // ------------------------------------------------------------------ elided signals lose nothing

  /** `waiting` never undercounts the sleepers. */
  lemma WaitingCounts(s: Sys)
    requires Inv(s) && s.f.waiting == 0
    ensures forall t | 0 <= t < |s.threads| :: !s.threads[t].phase.Waiting()
  {
    forall t | 0 <= t < |s.threads| ensures !s.threads[t].phase.Waiting() {
      assert Waiters(s.threads) == {};
      assert t !in Waiters(s.threads);
    }
  }

  /** In every reachable state, skipping a signal while `waiting` is zero is the same step as
      sending it. */
  lemma ElidingStep(s: Sys, a: Action, s': Sys)
    requires Inv(s)
    ensures Next(s, a, s', true) <==> Next(s, a, s', false)
  {
    if !s.aborted && a.t < |s.threads| && s.f.waiting == 0 {
      WaitingCounts(s);
      assert CondBroadcast(s).threads == s.threads;
    }
  }

  /** The lock with elided signals has exactly the runs of the one that always signals. */
  lemma ElidingRefines(states: seq<Sys>, acts: seq<Action>)
    ensures Run(states, acts, true) <==> Run(states, acts, false)
  {
    if Run(states, acts, true) {
      forall i | 0 <= i < |acts| ensures Next(states[i], acts[i], states[i + 1], false) {
        RunKeeps(states, acts, true, i);
        ElidingStep(states[i], acts[i], states[i + 1]);
      }
    }
    if Run(states, acts, false) {
      forall i | 0 <= i < |acts| ensures Next(states[i], acts[i], states[i + 1], true) {
        RunKeeps(states, acts, false, i);
        ElidingStep(states[i], acts[i], states[i + 1]);
      }
    }
  }

  // --------------------------------------------------------- what users of the monitor rely on

  /** The condition variable as `CondVar` sees it. */
  function CondOf(s: Sys): Cond {
    Cond(set t | 0 <= t < |s.threads| && (s.threads[t].phase.Parked? || s.threads[t].phase.Asleep?),
         set t | 0 <= t < |s.threads| && (s.threads[t].phase.Woken? || s.threads[t].phase.Returned?))
  }

  /** What `CondVar` says a step does. */
  ghost predicate CondStep(c: Cond, a: Action, c': Cond) {
    match a
    case Wait(t) => c' == c.Sleep(t)
    case Wake(t) => c' == c.Wake(t)
    case Resume(t) => c' == c.Resume(t)
    case Signal(_) => Signals(c, 1, c')
    case Broadcast(_) => c' == c.Broadcast()
    case _ => c' == c
  }

  lemma CondSteps(s: Sys, a: Action, s': Sys)
    requires Inv(s) && Next(s, a, s', true) && !s'.aborted
    ensures CondStep(CondOf(s), a, CondOf(s'))
  {
    hide Inv, CondSignal, CondBroadcast, Signals;
    ElidingStep(s, a, s');
    if a.Signal? {
      SignalStep(s, a.t, s');
    } else if a.Broadcast? {
      BroadcastStep(s, a.t, s');
    }
  }

  /** Every step of every run that does not abort is what `CondVar` says it is. */
  lemma CondInRun(states: seq<Sys>, acts: seq<Action>, i: nat)
    requires Run(states, acts, true) && i < |acts| && !states[i + 1].aborted
    ensures CondStep(CondOf(states[i]), acts[i], CondOf(states[i + 1]))
  {
    hide Inv, Next, CondStep, CondOf;
    RunKeeps(states, acts, true, i);
    CondSteps(states[i], acts[i], states[i + 1]);
  }

  lemma NobodyParks(s: Sys, t: nat)
    requires Inv(s) && t < |s.threads| && s.f.IsLocked(t)
    ensures forall u | 0 <= u < |s.threads| :: !s.threads[u].phase.Parked?
  {
    assert ThreadOk(s.f, t, s.threads[t]);
    forall u | 0 <= u < |s.threads| ensures !s.threads[u].phase.Parked? {
      assert ThreadOk(s.f, u, s.threads[u]);
    }
  }

  lemma SignalStep(s: Sys, t: nat, s': Sys)
    requires Inv(s) && Next(s, Signal(t), s', false) && !s'.aborted
    ensures Signals(CondOf(s), 1, CondOf(s'))
  {
    hide Inv, CondOf, Signals;
    NobodyParks(s, t);
    if exists u | 0 <= u < |s.threads| :: s.threads[u].phase.Asleep? {
      var u :| 0 <= u < |s.threads| && s.threads[u].phase.Asleep? && s' == At(s, u, Woken(s.threads[u].phase.depth));
      WokenOne(s, u);
      WakeSignals(CondOf(s), u);
    } else {
      NobodySleeps(s);
      SignalsNobody(CondOf(s), 1);
    }
  }

  lemma WokenOne(s: Sys, u: nat)
    requires u < |s.threads| && s.threads[u].phase.Asleep?
    ensures u in CondOf(s).asleep && CondOf(At(s, u, Woken(s.threads[u].phase.depth))) == CondOf(s).Wake(u)
  {
  }

  lemma NobodySleeps(s: Sys)
    requires forall u | 0 <= u < |s.threads| :: !s.threads[u].phase.Parked? && !s.threads[u].phase.Asleep?
    ensures CondOf(s).asleep == {}
  {
  }

  lemma BroadcastStep(s: Sys, t: nat, s': Sys)
    requires Inv(s) && Next(s, Broadcast(t), s', false) && !s'.aborted
    ensures CondOf(s') == CondOf(s).Broadcast()
  {
    hide Inv;
    NobodyParks(s, t);
  }
}
