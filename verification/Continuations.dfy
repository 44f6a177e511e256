/** How a pool can go on from a reachable state: runs are built step by step to show that something
    can happen.  All steps spare one body, that of a job `d` which is being executed: it does not
    return. */
module Continuations {
  import opened CondVar
  import opened Jobs
  import opened JobInvariant
  import opened Cancellation
  import opened CalmSteps
  import opened PoolRuns
  import opened PoolInvariant

  ghost predicate Continues(states: seq<Sys>, acts: seq<Action>) {
    && |states| == |acts| + 1
    && (forall i | 0 <= i < |acts| :: Next(states[i], acts[i], states[i + 1]))
  }

  ghost predicate Leads(s: Sys, s': Sys) {
    exists states: seq<Sys>, acts: seq<Action> :: Continues(states, acts) && states[0] == s && states[|acts|] == s'
  }

  lemma LeadsNowhere(s: Sys)
    ensures Leads(s, s)
  {
    var states: seq<Sys>, acts: seq<Action> := [s], [];
    assert Continues(states, acts) && states[0] == s && states[|acts|] == s;
  }

  lemma LeadsOn(s0: Sys, s: Sys, a: Action, s': Sys)
    requires Leads(s0, s) && Next(s, a, s')
    ensures Leads(s0, s')
  {
    hide Next;
    var states: seq<Sys>, acts: seq<Action> :|
      Continues(states, acts) && states[0] == s0 && states[|acts|] == s;
    var states', acts' := states + [s'], acts + [a];
    forall i | 0 <= i < |acts'| ensures Next(states'[i], acts'[i], states'[i + 1]) {
    }
    assert Continues(states', acts') && states'[0] == s0 && states'[|acts'|] == s';
  }

  // ---------------------------------------------------------------- what the steps leave alone

  /** Job `d` is cancelled at most, any other job at most gets further. */
  ghost predicate Kept(a: Job, b: Job, spared: bool) {
    && b.deps == a.deps && b.id == a.id && b.pool == a.pool
    && SameKind(a, b) && b.kind.Plain? == a.kind.Plain?
    && (if spared then b.finishes == a.finishes else b.cancelled == a.cancelled)
    && (a.done ==> b.done) && (a.cancelled ==> b.cancelled) && a.starts <= b.starts
  }

  ghost predicate Gentle(p: Pool, q: Pool, d: nat) {
    |q.jobs| == |p.jobs| && forall k | 0 <= k < |p.jobs| :: Kept(p.jobs[k], q.jobs[k], k == d)
  }

  lemma GentleTwice(p: Pool, q: Pool, r: Pool, d: nat)
    requires Gentle(p, q, d) && Gentle(q, r, d)
    ensures Gentle(p, r, d)
  {
    forall k | 0 <= k < |p.jobs| ensures Kept(p.jobs[k], r.jobs[k], k == d) {
      assert Kept(p.jobs[k], q.jobs[k], k == d) && Kept(q.jobs[k], r.jobs[k], k == d);
    }
  }

  lemma GentleNothing(p: Pool, q: Pool, d: nat)
    requires q.jobs == p.jobs
    ensures Gentle(p, q, d)
  {
  }

  /** Worker `w` can go on while the first body of `d` is being executed. */
  ghost predicate Going(s: Sys, d: nat, w: nat) {
    && SysInv(s) && !s.closing
    && w < |s.slots| && s.slots[w] != Gone && s.slots[w] != Busy(d)
    && d < |s.pool.jobs| && s.pool.jobs[d].starts > 0 && s.pool.jobs[d].finishes == 0
  }

  /** From `s` the continuation of `s0` has gone on to `s'`. */
  ghost predicate Onward(s0: Sys, s: Sys, s': Sys, d: nat, w: nat) {
    Going(s', d, w) && Leads(s0, s') && Gentle(s.pool, s'.pool, d)
  }

  /** One more step. */
  lemma StepOnward(s0: Sys, s: Sys, a: Action, s': Sys, d: nat, w: nat)
    requires Going(s, d, w) && Leads(s0, s) && Next(s, a, s') && Gentle(s.pool, s'.pool, d)
    requires !s'.closing && |s'.slots| == |s.slots| && s'.slots[w] != Gone && s'.slots[w] != Busy(d)
    ensures Onward(s0, s, s', d, w)
  {
    hide SysInv, Next, Leads;
    NextKeeps(s, a, s');
    LeadsOn(s0, s, a, s');
    assert Kept(s.pool.jobs[d], s'.pool.jobs[d], true);
  }

  lemma OnwardTwice(s0: Sys, s: Sys, m: Sys, s': Sys, d: nat, w: nat)
    requires Onward(s0, s, m, d, w) && Onward(s0, m, s', d, w)
    ensures Onward(s0, s, s', d, w)
  {
    hide Going, Leads, Gentle;
    GentleTwice(s.pool, m.pool, s'.pool, d);
  }

  /** Work may be added to the global queue, and private queues stay. */
  ghost predicate Adds(p: Pool, q: Pool) {
    && q.private == p.private && |q.jobs| == |p.jobs| && p.signals <= q.signals
    && forall k | 0 <= k < |p.jobs| :: q.queue[k] >= p.queue[k]
  }

  /** Telling the dependents of `e` after it has changed from `p` to `m`. */
  lemma TellKept(p: Pool, m: Pool, e: nat, d: nat)
    requires Refs(m) && e < |p.jobs| == |m.jobs| && Kept(p.jobs[e], m.jobs[e], e == d) && m.jobs[e].done
    requires forall k | 0 <= k < |p.jobs| && k != e :: m.jobs[k] == p.jobs[k]
    ensures var q := NotifyDeps(m, e); Gentle(p, q, d) && Adds(m, q) && q.jobs[e].done
  {
    hide NotifyDeps;
    NotifyDepsPushes(m, e);
    var q := NotifyDeps(m, e);
    forall k | 0 <= k < |p.jobs| ensures Kept(p.jobs[k], q.jobs[k], k == d) && q.queue[k] >= m.queue[k] {
      assert Replayed(m.jobs[k], q.jobs[k]);
    }
    assert Replayed(m.jobs[e], q.jobs[e]);
  }

  lemma FinishKept(p: Pool, e: nat, result: bool, d: nat)
    requires Refs(p) && e < |p.jobs| && e != d
    ensures var q := FinishBody(p, e, result);
      |q.jobs| == |p.jobs| && p.signals <= q.signals && Gentle(p, q, d) && Adds(p, q) && q.jobs[e].done
  {
    hide NotifyDeps;
    var m := Put(p, e, Finished(p.jobs[e], result));
    TouchRefs(p, m, e);
    TellKept(p, m, e, d);
  }

  lemma SkipKept(p: Pool, e: nat, d: nat)
    requires Refs(p) && e < |p.jobs|
    ensures var q := SkipBody(p, e);
      |q.jobs| == |p.jobs| && p.signals <= q.signals && Gentle(p, q, d) && Adds(p, q) && q.jobs[e].done
  {
    hide NotifyDeps;
    var m := Put(p, e, p.jobs[e].(done := true));
    TouchRefs(p, m, e);
    TellKept(p, m, e, d);
  }

  // ---------------------------------------------------------------- single steps

  /** The body in slot `v`, which is not that of `d`, returns. */
  lemma FinishOne(s0: Sys, s: Sys, d: nat, w: nat, v: nat) returns (s': Sys)
    requires Going(s, d, w) && Leads(s0, s) && v < |s.slots| && s.slots[v].Busy? && s.slots[v] != Busy(d)
    ensures Onward(s0, s, s', d, w) && Adds(s.pool, s'.pool) && s'.slots == s.slots[v := Idle]
    ensures s.slots[v].job < |s'.pool.jobs| && s'.pool.jobs[s.slots[v].job].done
    ensures v !in s'.cond.asleep
  {
    hide SysInv, FinishBody, Leads, Gentle, Adds;
    var e := s.slots[v].job;
    BusyFacts(s, v);
    FinishKept(s.pool, e, false, d);
    var q := FinishBody(s.pool, e, false);
    var c := SignalsExist(s.cond, q.signals - s.pool.signals);
    s' := s.(pool := q, cond := c, slots := s.slots[v := Idle]);
    StepOnward(s0, s, Finish(v, false), s', d, w);
  }

  lemma BusyFacts(s: Sys, v: nat)
    requires SysInv(s) && v < |s.slots| && s.slots[v].Busy?
    ensures Refs(s.pool) && s.slots[v].job < |s.pool.jobs| && v !in s.cond.asleep
  {
  }

  /** The body of `t` that a caller of `updateTrigger` executes returns. */
  lemma ReturnOne(s0: Sys, s: Sys, d: nat, w: nat, t: nat) returns (s': Sys)
    requires Going(s, d, w) && Leads(s0, s) && t in s.callers && t != d
    ensures Onward(s0, s, s', d, w) && t < |s'.pool.jobs| && s'.pool.jobs[t].done
  {
    hide SysInv, FinishBody, Leads, Gentle, Adds, Next;
    CallerFacts(s, t);
    var r := s.pool.jobs[t].kind.Acc?;
    FinishKept(s.pool, t, r, d);
    var q := FinishBody(s.pool, t, r);
    var c := SignalsExist(s.cond, q.signals - s.pool.signals);
    s' := s.(pool := q, cond := c, callers := s.callers - multiset{t});
    ReturnIsStep(s, t, s');
    StepOnward(s0, s, Return(t), s', d, w);
  }

  lemma ReturnIsStep(s: Sys, t: nat, s': Sys)
    requires Refs(s.pool) && t in s.callers && t < |s.pool.jobs|
    requires Becomes(s, s.cond, FinishBody(s.pool, t, s.pool.jobs[t].kind.Acc?), s')
    requires s' == s.(pool := s'.pool, cond := s'.cond, callers := s.callers - multiset{t})
    ensures Next(s, Return(t), s')
  {
    hide FinishBody, Becomes, Refs;
  }

  lemma CallerFacts(s: Sys, t: nat)
    requires SysInv(s) && t in s.callers
    ensures Refs(s.pool) && t < |s.pool.jobs|
  {
  }

  /** Whatever body of `e` is being executed returns. */
  lemma FinishJob(s0: Sys, s: Sys, d: nat, w: nat, e: nat) returns (s': Sys)
    requires Going(s, d, w) && Leads(s0, s) && e != d && Executing(s, e) > 0
    ensures Onward(s0, s, s', d, w) && e < |s'.pool.jobs| && s'.pool.jobs[e].done
  {
    hide Going, Onward, Leads;
    if e in s.callers {
      s' := ReturnOne(s0, s, d, w, e);
    } else {
      assert Busy(e) in multiset(s.slots);
      var v :| 0 <= v < |s.slots| && s.slots[v] == Busy(e);
      s' := FinishOne(s0, s, d, w, v);
    }
  }

  /** A spurious wake-up. */
  lemma WakeOne(s0: Sys, s: Sys, d: nat, w: nat) returns (s': Sys)
    requires Going(s, d, w) && Leads(s0, s) && w in s.cond.asleep
    ensures Onward(s0, s, s', d, w) && s'.pool == s.pool && s'.slots == s.slots && w !in s'.cond.asleep
  {
    hide SysInv, Leads, Gentle;
    assert Refs(s.pool) by { SysRefs(s); }
    s' := s.(cond := s.cond.Wake(w));
    GentleNothing(s.pool, s'.pool, d);
    StepOnward(s0, s, Wake(w), s', d, w);
  }

  lemma SysRefs(s: Sys)
    requires SysInv(s)
    ensures Refs(s.pool)
  {
  }

  /** Worker `w` stands at the top of its loop. */
  ghost predicate AtTop(s: Sys, w: nat) { w < |s.slots| && s.slots[w].Idle? && w !in s.cond.asleep }

  lemma TakeIsRefs(p: Pool, w: nat, j: nat)
    requires Refs(p) && MayTake(p, w, j)
    ensures Refs(Take(p, w, j)) && Take(p, w, j).jobs == p.jobs && p.signals <= Take(p, w, j).signals && j < |p.jobs|
  {
    assert HasPrivate(p, w) ==> Ids(|p.jobs|, p.private[w]);
    forall v | 0 <= v < |p.private| ensures Ids(|p.jobs|, Take(p, w, j).private[v]) {
    }
  }

  /** A ready worker takes a job other than `d` and executes its body to the end. */
  lemma ServeOne(s0: Sys, s: Sys, d: nat, w: nat, e: nat) returns (s': Sys)
    requires Going(s, d, w) && Leads(s0, s) && AtTop(s, w) && MayTake(s.pool, w, e)
    requires e < |s.pool.jobs| && e != d && !s.pool.jobs[e].cancelled
    ensures Onward(s0, s, s', d, w) && AtTop(s', w) && s'.pool.jobs[e].done
    ensures s'.pool.private == Take(s.pool, w, e).private
    ensures forall k | 0 <= k < |s.pool.jobs| && k != e :: s'.pool.queue[k] >= s.pool.queue[k]
  {
    hide Going, Leads, Take;
    var m := StartOne(s0, s, d, w, e);
    s' := FinishOne(s0, m, d, w, w);
    OnwardTwice(s0, s, m, s', d, w);
    TakeLeaves(s.pool, w, e);
  }

  lemma TakeLeaves(p: Pool, w: nat, e: nat)
    ensures forall k | 0 <= k < |p.jobs| && k != e :: Take(p, w, e).queue[k] == p.queue[k]
  {
  }

  lemma StartOne(s0: Sys, s: Sys, d: nat, w: nat, e: nat) returns (s': Sys)
    requires Going(s, d, w) && Leads(s0, s) && AtTop(s, w) && MayTake(s.pool, w, e)
    requires e < |s.pool.jobs| && e != d && !s.pool.jobs[e].cancelled
    ensures Onward(s0, s, s', d, w) && s'.slots == s.slots[w := Busy(e)]
    ensures s'.pool == StartBody(Take(s.pool, w, e), e) && s'.pool.jobs[e].starts > 0
  {
    hide SysInv, Leads, Take;
    assert Refs(s.pool) by { SysRefs(s); }
    TakeIsRefs(s.pool, w, e);
    var q := StartBody(Take(s.pool, w, e), e);
    var c := SignalsExist(s.cond.Resume(w), q.signals - s.pool.signals);
    s' := s.(pool := q, cond := c, slots := s.slots[w := Busy(e)]);
    StartsIsStep(s, w, e, s');
    StepOnward(s0, s, Turn(w, e), s', d, w);
  }

  lemma StartsIsStep(s: Sys, w: nat, e: nat, s': Sys)
    requires Refs(s.pool) && !s.closing && AtTop(s, w) && MayTake(s.pool, w, e)
    requires e < |s.pool.jobs| && !s.pool.jobs[e].cancelled
    requires Refs(Take(s.pool, w, e)) && Take(s.pool, w, e).jobs == s.pool.jobs
    requires Becomes(s, s.cond.Resume(w), StartBody(Take(s.pool, w, e), e), s')
    requires s' == s.(pool := s'.pool, cond := s'.cond, slots := s.slots[w := Busy(e)])
    ensures Next(s, Turn(w, e), s')
  {
    hide Take, Becomes, Refs;
  }

  /** A ready worker takes a cancelled job and skips its body. */
  lemma SkipOne(s0: Sys, s: Sys, d: nat, w: nat, e: nat) returns (s': Sys)
    requires Going(s, d, w) && Leads(s0, s) && AtTop(s, w) && MayTake(s.pool, w, e)
    requires e < |s.pool.jobs| && s.pool.jobs[e].cancelled
    ensures Onward(s0, s, s', d, w) && AtTop(s', w) && s'.pool.jobs[e].done
    ensures s'.pool.private == Take(s.pool, w, e).private
    ensures forall k | 0 <= k < |s.pool.jobs| && k != e :: s'.pool.queue[k] >= s.pool.queue[k]
  {
    hide SysInv, Leads, Take, SkipBody, Gentle;
    assert Refs(s.pool) by { SysRefs(s); }
    TakeIsRefs(s.pool, w, e);
    var t := Take(s.pool, w, e);
    SkipKept(t, e, d);
    var q := SkipBody(t, e);
    var c := SignalsExist(s.cond.Resume(w), q.signals - s.pool.signals);
    s' := s.(pool := q, cond := c);
    SkipIsStep(s, w, e, s');
    GentleNothing(s.pool, t, d);
    GentleTwice(s.pool, t, q, d);
    StepOnward(s0, s, Turn(w, e), s', d, w);
    TakeLeaves(s.pool, w, e);
  }

  lemma SkipIsStep(s: Sys, w: nat, e: nat, s': Sys)
    requires Refs(s.pool) && !s.closing && AtTop(s, w) && MayTake(s.pool, w, e)
    requires e < |s.pool.jobs| && s.pool.jobs[e].cancelled
    requires Refs(Take(s.pool, w, e)) && Take(s.pool, w, e).jobs == s.pool.jobs
    requires Becomes(s, s.cond.Resume(w), SkipBody(Take(s.pool, w, e), e), s')
    requires s' == s.(pool := s'.pool, cond := s'.cond)
    ensures Next(s, Turn(w, e), s')
  {
    hide Take, Becomes, Refs, SkipBody;
  }

  /** The job `d` does not come up in a private queue, or its body is skipped there. */
  ghost predicate Aside(p: Pool, d: nat) { d < |p.jobs| && (p.jobs[d].kind.Broadcast? ==> p.jobs[d].cancelled) }

  lemma AsideStays(p: Pool, q: Pool, d: nat)
    requires Aside(p, d) && Gentle(p, q, d)
    ensures Aside(q, d)
  {
    assert Kept(p.jobs[d], q.jobs[d], true);
  }

  ghost predicate Stands(p: Pool, w: nat, d: nat) { w < |p.private| && d in p.private[w] }

  /** Worker `w` finishes what it does and comes to the top of its loop. */
  lemma ComeUp(s0: Sys, s: Sys, d: nat, w: nat) returns (s': Sys)
    requires Going(s, d, w) && Leads(s0, s)
    ensures Onward(s0, s, s', d, w) && AtTop(s', w) && s'.pool.private == s.pool.private
    ensures forall k | 0 <= k < |s.pool.jobs| :: s'.pool.queue[k] >= s.pool.queue[k]
  {
    hide Leads, SysInv, Gentle;
    GentleNothing(s.pool, s.pool, d);
    s' := s;
    if s.slots[w].Busy? {
      s' := FinishOne(s0, s, d, w, w);
    } else if w in s.cond.asleep {
      s' := WakeOne(s0, s, d, w);
    }
  }

  /** ... and then serves or skips the first job of its private queue. */
  lemma ClearOne(s0: Sys, s: Sys, d: nat, w: nat) returns (s': Sys)
    requires Going(s, d, w) && Leads(s0, s) && AtTop(s, w) && HasPrivate(s.pool, w) && Aside(s.pool, d)
    ensures Onward(s0, s, s', d, w) && AtTop(s', w)
    ensures s'.pool.private == s.pool.private[w := s.pool.private[w][1..]]
    ensures forall k | 0 <= k < |s.pool.jobs| && !s.pool.jobs[k].kind.Broadcast? :: s'.pool.queue[k] >= s.pool.queue[k]
    ensures s.pool.private[w][0] == d ==> s'.pool.jobs[d].done
  {
    hide Going, Leads, Gentle;
    var e := s.pool.private[w][0];
    PrivateJob(s, d, w);
    if s.pool.jobs[e].cancelled {
      s' := SkipOne(s0, s, d, w, e);
    } else {
      s' := ServeOne(s0, s, d, w, e);
    }
  }

  /** The private queue of `w` gets empty; if `d` stands in it, `d` is done then. */
  lemma {:induction false} ClearAll(s0: Sys, s: Sys, d: nat, w: nat) returns (s': Sys)
    requires Going(s, d, w) && Leads(s0, s) && AtTop(s, w) && Aside(s.pool, d)
    ensures Onward(s0, s, s', d, w) && AtTop(s', w) && !HasPrivate(s'.pool, w)
    ensures forall k | 0 <= k < |s.pool.jobs| && !s.pool.jobs[k].kind.Broadcast? :: s'.pool.queue[k] >= s.pool.queue[k]
    ensures Stands(s.pool, w, d) ==> s'.pool.jobs[d].done
    decreases if w < |s.pool.private| then |s.pool.private[w]| else 0
  {
    hide Going, Leads, Gentle, Aside;
    if HasPrivate(s.pool, w) {
      var m := ClearOne(s0, s, d, w);
      AsideStays(s.pool, m.pool, d);
      s' := ClearAll(s0, m, d, w);
      OnwardTwice(s0, s, m, s', d, w);
      KeptKinds(s, m, s', d);
      KeptAt(m.pool, s'.pool, d, d) by { assert d < |m.pool.jobs| by { GoingJob(m, d, w); } }
    } else {
      GentleNothing(s.pool, s.pool, d);
      s' := s;
    }
  }

  lemma GoingJob(s: Sys, d: nat, w: nat)
    requires Going(s, d, w)
    ensures d < |s.pool.jobs|
  {
  }

  /** Worker `w` finishes what it does, wakes up and works off its private queue. */
  lemma Unburden(s0: Sys, s: Sys, d: nat, w: nat) returns (s': Sys)
    requires Going(s, d, w) && Leads(s0, s) && Aside(s.pool, d)
    ensures Onward(s0, s, s', d, w) && AtTop(s', w) && !HasPrivate(s'.pool, w)
    ensures forall k | 0 <= k < |s.pool.jobs| && !s.pool.jobs[k].kind.Broadcast? :: s'.pool.queue[k] >= s.pool.queue[k]
    ensures Stands(s.pool, w, d) ==> s'.pool.jobs[d].done
  {
    hide Going, Leads, Gentle, Aside;
    var m := ComeUp(s0, s, d, w);
    AsideStays(s.pool, m.pool, d);
    s' := ClearAll(s0, m, d, w);
    OnwardTwice(s0, s, m, s', d, w);
    KeptKinds(s, m, s', d);
  }

  lemma KeptKinds(s: Sys, m: Sys, n: Sys, d: nat)
    requires Gentle(s.pool, m.pool, d) && Gentle(s.pool, n.pool, d)
    ensures |m.pool.jobs| == |n.pool.jobs| == |s.pool.jobs|
    ensures forall k | 0 <= k < |s.pool.jobs| ::
              m.pool.jobs[k].kind.Broadcast? == s.pool.jobs[k].kind.Broadcast? == n.pool.jobs[k].kind.Broadcast?
  {
    forall k | 0 <= k < |s.pool.jobs|
      ensures m.pool.jobs[k].kind.Broadcast? == s.pool.jobs[k].kind.Broadcast? == n.pool.jobs[k].kind.Broadcast?
    {
      assert Kept(s.pool.jobs[k], m.pool.jobs[k], k == d) && Kept(s.pool.jobs[k], n.pool.jobs[k], k == d);
    }
  }

  lemma PrivateJob(s: Sys, d: nat, w: nat)
    requires Going(s, d, w) && HasPrivate(s.pool, w) && Aside(s.pool, d)
    ensures var e := s.pool.private[w][0];
      e < |s.pool.jobs| && s.pool.jobs[e].kind.Broadcast? && (e == d ==> s.pool.jobs[e].cancelled)
  {
    assert Ids(|s.pool.jobs|, s.pool.private[w]) && Broadcasts(s.pool, s.pool.private[w]);
  }

  /** A job that is marked done while its first body is being executed has been cancelled. */
  lemma DoneAside(s: Sys, d: nat, w: nat)
    requires Going(s, d, w) && s.pool.jobs[d].done
    ensures Aside(s.pool, d)
  {
    InvAt(s.pool, d, {}, {}, {});
  }

  // ---------------------------------------------------------------- triggers

  /** The argument that brings a trigger nearest to firing. */
  function Units(k: Kind): nat { if k.Acc? then k.need else 0 }

  function Need(k: Kind): nat { if k.Count? || k.Acc? then k.need else 0 }

  lemma UpdateKept(p: Pool, t: nat, units: nat, d: nat)
    requires Refs(p) && t < |p.jobs| && p.jobs[t].kind.Trigger()
    ensures var q := UpdateTrigger(p, t, units); |q.jobs| == |p.jobs| && p.signals <= q.signals && Gentle(p, q, d)
  {
    hide SkipBody, Gentle;
    UpdateCounts(p, t, units);
    var m := Put(p, t, Activated(p.jobs[t], units));
    TouchRefs(p, m, t);
    ActivatedKept(p, t, units, d);
    if Accepts(p.jobs[t].kind, units > 0) && Ready(m, t) {
      if m.jobs[t].cancelled {
        SkipKept(m, t, d);
        GentleTwice(p, m, SkipBody(m, t), d);
      }
    } else if !Accepts(p.jobs[t].kind, units > 0) {
      GentleNothing(p, p, d);
    }
  }

  lemma ActivatedKept(p: Pool, t: nat, units: nat, d: nat)
    requires t < |p.jobs| && p.jobs[t].kind.Trigger()
    ensures Gentle(p, Put(p, t, Activated(p.jobs[t], units)), d)
    ensures Gentle(p, StartBody(Put(p, t, Activated(p.jobs[t], units)), t), d)
  {
  }

  /** What one call of `updateTrigger` does for a trigger: it fires, or needs less. */
  lemma UpdateFires(p: Pool, t: nat)
    requires Stable(p) && t < |p.jobs| && p.jobs[t].kind.Trigger()
    ensures var q := UpdateTrigger(p, t, Units(p.jobs[t].kind));
      && |q.jobs| == |p.jobs|
      && (if Fires(p, t, Units(p.jobs[t].kind)) then !p.jobs[t].cancelled
          else q.jobs[t].done || Need(q.jobs[t].kind) < Need(p.jobs[t].kind))
  {
    hide SkipBody, Kinds, Locals, Edges, Progressing, Symmetric;
    InvAt(p, t, {}, {}, {});
    var m := Put(p, t, Activated(p.jobs[t], Units(p.jobs[t].kind)));
    TouchRefs(p, m, t);
    SkipKept(m, t, t);
  }

  /** Updates, until the trigger is done or its body is being executed. */
  lemma {:induction false} Activate(s0: Sys, s: Sys, d: nat, w: nat, t: nat) returns (s': Sys)
    requires Going(s, d, w) && Leads(s0, s) && t < |s.pool.jobs| && s.pool.jobs[t].kind.Trigger()
    requires t == d ==> s.pool.jobs[t].cancelled
    ensures Onward(s0, s, s', d, w) && (s'.pool.jobs[t].done || (t != d && Executing(s', t) > 0))
    decreases Need(s.pool.jobs[t].kind)
  {
    hide SysInv, Leads, Gentle, UpdateTrigger, Executing, Fires;
    var units := Units(s.pool.jobs[t].kind);
    var m := UpdateOne(s0, s, d, w, t, units);
    UpdateFires(s.pool, t) by { SysStable(s); }
    s' := m;
    if Fires(s.pool, t, units) {
      FiredExecutes(s, t, m);
    } else if !m.pool.jobs[t].done {
      KeptAt(s.pool, m.pool, d, t);
      if t == d {
        UpdateCancels(s.pool, t, units, d) by { SysStable(s); }
      }
      s' := Activate(s0, m, d, w, t);
      OnwardTwice(s0, s, m, s', d, w);
    }
  }

  lemma SysStable(s: Sys)
    requires SysInv(s)
    ensures Stable(s.pool) && Refs(s.pool)
  {
  }

  lemma KeptAt(p: Pool, q: Pool, d: nat, k: nat)
    requires Gentle(p, q, d) && k < |p.jobs|
    ensures k < |q.jobs| && Kept(p.jobs[k], q.jobs[k], k == d)
  {
  }

  lemma UpdateCancels(p: Pool, t: nat, units: nat, d: nat)
    requires Stable(p) && Refs(p) && t < |p.jobs| && p.jobs[t].cancelled && p.jobs[t].kind.Trigger()
    ensures var q := UpdateTrigger(p, t, units); t < |q.jobs| && q.jobs[t].cancelled
  {
    hide SkipBody, Stable;
    var m := Put(p, t, Activated(p.jobs[t], units));
    TouchRefs(p, m, t);
    SkipBodyIsCalm(m, t);
    assert CalmJob(m.jobs[t], SkipBody(m, t).jobs[t]);
  }

  lemma FiredExecutes(s: Sys, t: nat, s': Sys)
    requires t in s'.callers
    ensures Executing(s', t) > 0
  {
  }

  lemma UpdateOne(s0: Sys, s: Sys, d: nat, w: nat, t: nat, units: nat) returns (s': Sys)
    requires Going(s, d, w) && Leads(s0, s) && t < |s.pool.jobs| && s.pool.jobs[t].kind.Trigger()
    ensures Refs(s.pool) && Onward(s0, s, s', d, w) && s'.pool == UpdateTrigger(s.pool, t, units)
    ensures Fires(s.pool, t, units) ==> t in s'.callers
  {
    hide SysInv, Leads, Gentle, UpdateTrigger, Fires, Next;
    SysStable(s);
    UpdateKept(s.pool, t, units, d);
    var q := UpdateTrigger(s.pool, t, units);
    var c := SignalsExist(s.cond, q.signals - s.pool.signals);
    s' := s.(pool := q, cond := c,
             callers := if Fires(s.pool, t, units) then s.callers + multiset{t} else s.callers);
    UpdateIsStep(s, t, units, s');
    StepOnward(s0, s, Update(t, units), s', d, w);
  }

  lemma UpdateIsStep(s: Sys, t: nat, units: nat, s': Sys)
    requires Refs(s.pool) && t < |s.pool.jobs| && s.pool.jobs[t].kind.Trigger()
    requires Becomes(s, s.cond, UpdateTrigger(s.pool, t, units), s')
    requires s' == s.(pool := s'.pool, cond := s'.cond,
                      callers := if Fires(s.pool, t, units) then s.callers + multiset{t} else s.callers)
    ensures Next(s, Update(t, units), s')
  {
    hide UpdateTrigger, Fires, Becomes, Refs;
  }

  // ---------------------------------------------------------------- getting a job done

  /** A job that can be got done without the body of `d`. */
  ghost predicate Feasible(p: Pool, e: nat) {
    && e < |p.jobs| && p.jobs[e].pool && p.jobs[e].Named()
    && (p.jobs[e].cancelled ==> p.jobs[e].starts > 0)
  }

  ghost predicate AllDone(p: Pool, l: seq<nat>) { forall i | 0 <= i < |l| :: l[i] < |p.jobs| && p.jobs[l[i]].done }

  /** Any job of the pool that has not been cancelled before it started can be got done, whatever it
      depends on, once `d` itself is done. */
  lemma {:induction false} MakeDone(s0: Sys, s: Sys, d: nat, w: nat, e: nat) returns (s': Sys)
    requires Going(s, d, w) && Leads(s0, s) && s.pool.jobs[d].done && e != d && Feasible(s.pool, e)
    ensures Onward(s0, s, s', d, w) && e < |s'.pool.jobs| && s'.pool.jobs[e].done
    decreases Rank(s.pool, e), 1, 0
  {
    hide SysInv, Leads, Gentle;
    GentleNothing(s.pool, s.pool, d);
    s' := s;
    if !s.pool.jobs[e].done {
      if Executing(s, e) > 0 {
        s' := FinishJob(s0, s, d, w, e);
      } else {
        NotStarted(s, e);
        if s.pool.jobs[e].kind.Trigger() {
          s' := MakeTriggerDone(s0, s, d, w, e);
        } else {
          var m := MakeAllDone(s0, s, d, w, e, s.pool.jobs[e].deps);
          KeptAt(s.pool, m.pool, d, e);
          KeptAt(s.pool, m.pool, d, d);
          s' := RunReady(s0, m, d, w, e);
          OnwardTwice(s0, s, m, s', d, w);
        }
      }
    }
  }

  /** The number of a job; the job of `threadPoolExec` has none and depends on nothing. */
  function Rank(p: Pool, e: nat): nat {
    if e < |p.jobs| && !p.jobs[e].kind.Broadcast? && p.jobs[e].id >= 0 then p.jobs[e].id + 1 else 0
  }

  lemma NotStarted(s: Sys, e: nat)
    requires SysInv(s) && Feasible(s.pool, e) && !s.pool.jobs[e].done && Executing(s, e) == 0
    ensures s.pool.jobs[e].starts == 0 && !s.pool.jobs[e].cancelled && s.pool.jobs[e].id >= 0
    ensures !s.pool.jobs[e].kind.Broadcast?
  {
    InvAt(s.pool, e, {}, {}, {});
  }

  lemma MakeTriggerDone(s0: Sys, s: Sys, d: nat, w: nat, t: nat) returns (s': Sys)
    requires Going(s, d, w) && Leads(s0, s) && t != d && t < |s.pool.jobs| && s.pool.jobs[t].kind.Trigger()
    ensures Onward(s0, s, s', d, w) && t < |s'.pool.jobs| && s'.pool.jobs[t].done
  {
    hide SysInv, Leads, Executing;
    var m := Activate(s0, s, d, w, t);
    s' := m;
    if !m.pool.jobs[t].done {
      s' := FinishJob(s0, m, d, w, t);
      OnwardTwice(s0, s, m, s', d, w);
    }
  }

  /** A dependency of a job that is still to run can be got done, and comes before it. */
  lemma DepFeasible(p: Pool, e: nat, x: nat)
    requires Stable(p) && e < |p.jobs| && !p.jobs[e].cancelled && p.jobs[e].id >= 0 && x in p.jobs[e].deps
    ensures Feasible(p, x) && Rank(p, x) < Rank(p, e)
  {
    InvAt(p, e, {}, {}, {});
    assert JobRefs(|p.jobs|, p.jobs[e]);
    assert EdgeOk(p.jobs[e], p.queue[e], p.jobs[x], x in {} || e in {});
  }

  /** The dependencies of `e`, one after the other. */
  lemma {:induction false} MakeAllDone(s0: Sys, s: Sys, d: nat, w: nat, e: nat, l: seq<nat>) returns (s': Sys)
    requires Going(s, d, w) && Leads(s0, s) && s.pool.jobs[d].done
    requires e < |s.pool.jobs| && e != d && !s.pool.jobs[e].cancelled && s.pool.jobs[e].id >= 0
    requires forall x | x in l :: x in s.pool.jobs[e].deps
    ensures Onward(s0, s, s', d, w) && AllDone(s'.pool, l)
    decreases Rank(s.pool, e), 0, |l|
  {
    hide SysInv, Leads, Gentle, Rank;
    GentleNothing(s.pool, s.pool, d);
    s' := s;
    if l != [] {
      var m := s;
      if l[0] != d {
        DepFeasible(s.pool, e, l[0]) by { SysStable(s); }
        m := MakeDone(s0, s, d, w, l[0]);
      }
      KeptAt(s.pool, m.pool, d, e);
      KeptAt(s.pool, m.pool, d, d);
      SameRank(s.pool, m.pool, d, e);
      s' := MakeAllDone(s0, m, d, w, e, l[1..]);
      KeptAt(m.pool, s'.pool, d, l[0]);
      OnwardTwice(s0, s, m, s', d, w);
      assert l == [l[0]] + l[1..];
    }
  }

  lemma SameRank(p: Pool, q: Pool, d: nat, e: nat)
    requires Gentle(p, q, d) && e < |p.jobs|
    ensures Rank(q, e) == Rank(p, e)
  {
    KeptAt(p, q, d, e);
  }

  /** A job whose dependencies are done has been queued; a worker runs it. */
  lemma RunReady(s0: Sys, s: Sys, d: nat, w: nat, e: nat) returns (s': Sys)
    requires Going(s, d, w) && Leads(s0, s) && e != d && Feasible(s.pool, e) && s.pool.jobs[e].kind.Plain?
    requires AllDone(s.pool, s.pool.jobs[e].deps) && s.pool.jobs[d].done
    ensures Onward(s0, s, s', d, w) && e < |s'.pool.jobs| && s'.pool.jobs[e].done
  {
    hide SysInv, Leads, Gentle, AllDone;
    GentleNothing(s.pool, s.pool, d);
    s' := s;
    if !s.pool.jobs[e].done {
      if Executing(s, e) > 0 {
        s' := FinishJob(s0, s, d, w, e);
      } else {
        NotStarted(s, e);
        ReadyIsQueued(s.pool, e) by { SysStable(s); }
        DoneAside(s, d, w);
        var m := Unburden(s0, s, d, w);
        KeptAt(s.pool, m.pool, d, e);
        s' := ServeOne(s0, m, d, w, e);
        KeptAt(m.pool, s'.pool, d, e);
        OnwardTwice(s0, s, m, s', d, w);
      }
    }
  }

  lemma ReadyIsQueued(p: Pool, e: nat)
    requires Stable(p) && Feasible(p, e) && p.jobs[e].kind.Plain? && AllDone(p, p.jobs[e].deps)
    requires !p.jobs[e].done && !p.jobs[e].cancelled && p.jobs[e].starts == 0
    ensures p.queue[e] > 0
  {
    InvAt(p, e, {}, {}, {});
    forall x | x in p.jobs[e].deps ensures p.jobs[x].done && p.jobs[x].starts > 0 {
      InvAt(p, x, {}, {}, {});
      assert EdgeOk(p.jobs[e], p.queue[e], p.jobs[x], x in {} || e in {});
    }
    assert DepsRun(p, e) && ProgressOk(p, e);
  }
}
