/** How many activations a trigger needs: along every run what is left is what it was created with,
    less everything that `updateTrigger` and finished jobs have offered it since. */
module TriggerLaws {
  import opened CondVar
  import opened Jobs
  import opened JobInvariant
  import opened Cancellation
  import opened Scheduling
  import opened CalmSteps
  import opened PoolRuns
  import opened PoolInvariant
  import opened PoolTheorems
  import opened PrematureStart
  import ScheduleEffect
  import StepEffects

  /** `b` is `a` after `n` activations. */
  ghost predicate Lowered(a: Kind, b: Kind, n: nat) {
    match a
    case Count(need) => b == Count(if need > n then need - n else 0)
    case Acc(need) => b == Acc(if need > n then need - n else 0)
    case _ => b == a
  }

  lemma LoweredTwice(a: Kind, b: Kind, c: Kind, m: nat, n: nat)
    requires Lowered(a, b, m) && Lowered(b, c, n)
    ensures Lowered(a, c, m + n)
  {
  }

  /** A counter takes an absent result, an accumulator a present one. */
  predicate Takes(k: Kind, hasResult: bool) { (k.Count? && !hasResult) || (k.Acc? && hasResult) }

  /** What a job offers to the trigger when it is done: one activation for each time it is chained. */
  ghost function Gain(k: Kind, chained: seq<nat>, t: nat, hasResult: bool): nat {
    if Takes(k, hasResult) then multiset(chained)[t] else 0
  }

  // ---------------------------------------------------------------- telling the dependents of a job

  lemma {:induction false} NotifyAllKinds(p: Pool, l: seq<nat>)
    requires Refs(p) && Ids(|p.jobs|, l)
    ensures forall k | 0 <= k < |p.jobs| :: NotifyAll(p, l).jobs[k].kind == p.jobs[k].kind
    decreases |l|
  {
    if l != [] {
      NotifyAllKinds(NotifyOne(p, l[0]), l[1..]);
    }
  }

  lemma TriggerOneNeeds(p: Pool, u: nat, hasArg: bool, t: nat)
    requires Refs(p) && u < |p.jobs| && t < |p.jobs|
    ensures Lowered(p.jobs[t].kind, TriggerOne(p, u, hasArg).jobs[t].kind,
                    if u == t && Takes(p.jobs[t].kind, hasArg) then 1 else 0)
  {
  }

  lemma {:induction false} TriggerAllNeeds(p: Pool, l: seq<nat>, hasArg: bool, t: nat)
    requires Refs(p) && Ids(|p.jobs|, l) && t < |p.jobs|
    ensures Lowered(p.jobs[t].kind, TriggerAll(p, l, hasArg).jobs[t].kind, Gain(p.jobs[t].kind, l, t, hasArg))
    decreases |l|
  {
    hide TriggerOne;
    if l != [] {
      var q := TriggerOne(p, l[0], hasArg);
      TriggerOneNeeds(p, l[0], hasArg, t);
      TriggerAllNeeds(q, l[1..], hasArg, t);
      assert multiset(l) == multiset{l[0]} + multiset(l[1..]) by { assert l == [l[0]] + l[1..]; }
      LoweredTwice(p.jobs[t].kind, q.jobs[t].kind, TriggerAll(q, l[1..], hasArg).jobs[t].kind,
                   if l[0] == t && Takes(p.jobs[t].kind, hasArg) then 1 else 0,
                   Gain(q.jobs[t].kind, l[1..], t, hasArg));
    }
  }

  lemma TellNeeds(p: Pool, e: nat, t: nat)
    requires Refs(p) && e < |p.jobs| && t < |p.jobs|
    ensures Lowered(p.jobs[t].kind, NotifyDeps(p, e).jobs[t].kind,
                    Gain(p.jobs[t].kind, p.jobs[e].triggers, t, p.jobs[e].hasResult))
  {
    hide TriggerAll, Gain;
    NotifyAllKinds(p, p.jobs[e].notify);
    TriggerAllNeeds(NotifyAll(p, p.jobs[e].notify), p.jobs[e].triggers, p.jobs[e].hasResult, t);
  }

  lemma FinishNeeds(p: Pool, e: nat, result: bool, t: nat)
    requires Refs(p) && e < |p.jobs| && t < |p.jobs|
    ensures Lowered(p.jobs[t].kind, FinishBody(p, e, result).jobs[t].kind,
                    Gain(p.jobs[t].kind, p.jobs[e].triggers, t, p.jobs[e].hasResult || result))
  {
    hide NotifyDeps, Gain;
    var m := Put(p, e, Finished(p.jobs[e], result));
    TouchRefs(p, m, e);
    TellNeeds(m, e, t);
  }

  lemma SkipNeeds(p: Pool, e: nat, t: nat)
    requires Refs(p) && e < |p.jobs| && t < |p.jobs|
    ensures Lowered(p.jobs[t].kind, SkipBody(p, e).jobs[t].kind,
                    Gain(p.jobs[t].kind, p.jobs[e].triggers, t, p.jobs[e].hasResult))
  {
    hide NotifyDeps, Gain;
    var m := Put(p, e, p.jobs[e].(done := true));
    TouchRefs(p, m, e);
    TellNeeds(m, e, t);
  }

  // ---------------------------------------------------------------- scheduling

  /** Finished dependencies are replayed, one after the other. */
  ghost function ToldGain(p: Pool, k: Kind, ds: seq<nat>, t: nat): nat
    requires Ids(|p.jobs|, ds)
  {
    if ds == [] then 0
    else
      (if p.jobs[ds[0]].done then Gain(k, p.jobs[ds[0]].triggers, t, p.jobs[ds[0]].hasResult) else 0)
      + ToldGain(p, k, ds[1..], t)
  }

  ghost predicate SameOffers(p: Pool, q: Pool) {
    |q.jobs| == |p.jobs| && forall k | 0 <= k < |p.jobs| ::
      q.jobs[k].done == p.jobs[k].done && q.jobs[k].triggers == p.jobs[k].triggers
      && q.jobs[k].hasResult == p.jobs[k].hasResult
  }

  lemma {:induction false} SameGain(p: Pool, q: Pool, k: Kind, k': Kind, ds: seq<nat>, t: nat)
    requires SameOffers(p, q) && Ids(|p.jobs|, ds) && k.Count? == k'.Count? && k.Acc? == k'.Acc?
    ensures ToldGain(q, k', ds, t) == ToldGain(p, k, ds, t)
  {
    if ds != [] {
      SameGain(p, q, k, k', ds[1..], t);
    }
  }

  lemma AddNotifyNeeds(p: Pool, d: nat, js: seq<nat>, t: nat)
    requires Refs(p) && d < |p.jobs| && Ids(|p.jobs|, js) && t < |p.jobs|
    ensures SameOffers(p, AddNotify(p, d, js))
    ensures Lowered(p.jobs[t].kind, AddNotify(p, d, js).jobs[t].kind,
                    if p.jobs[d].done then Gain(p.jobs[t].kind, p.jobs[d].triggers, t, p.jobs[d].hasResult) else 0)
  {
    hide NotifyDeps, Gain;
    var m := Put(p, d, WithNotify(p.jobs[d], js));
    assert Refs(m) by { NotifyRefs(p, d, js); }
    if m.jobs[d].done {
      TellNeeds(m, d, t);
      NotifyDepsPushes(m, d);
      forall k | 0 <= k < |p.jobs| ensures Replayed(m.jobs[k], NotifyDeps(m, d).jobs[k]) {
      }
    }
  }

  lemma {:induction false} AddNotifiesNeeds(p: Pool, ds: seq<nat>, js: seq<nat>, t: nat)
    requires Refs(p) && Ids(|p.jobs|, js) && Ids(|p.jobs|, ds) && t < |p.jobs|
    ensures Lowered(p.jobs[t].kind, AddNotifies(p, ds, js).jobs[t].kind, ToldGain(p, p.jobs[t].kind, ds, t))
    decreases |ds|
  {
    hide AddNotify, Gain;
    if ds != [] {
      var q := AddNotify(p, ds[0], js);
      AddNotifyNeeds(p, ds[0], js, t);
      AddNotifiesNeeds(q, ds[1..], js, t);
      SameGain(p, q, p.jobs[t].kind, q.jobs[t].kind, ds[1..], t);
      LoweredTwice(p.jobs[t].kind, q.jobs[t].kind, AddNotifies(q, ds[1..], js).jobs[t].kind,
                   if p.jobs[ds[0]].done
                   then Gain(p.jobs[t].kind, p.jobs[ds[0]].triggers, t, p.jobs[ds[0]].hasResult) else 0,
                   ToldGain(q, q.jobs[t].kind, ds[1..], t));
    }
  }

  lemma {:induction false} AddDepsOffers(p: Pool, js: seq<nat>, ds: seq<nat>)
    requires Refs(p) && Ids(|p.jobs|, js) && Ids(|p.jobs|, ds)
    ensures SameOffers(p, AddDeps(p, js, ds))
    ensures forall k | 0 <= k < |p.jobs| :: AddDeps(p, js, ds).jobs[k].kind == p.jobs[k].kind
    decreases |js|
  {
    if js != [] {
      AddDepsOffers(Put(p, js[0], WithDeps(p, p.jobs[js[0]], ds)), js[1..], ds);
    }
  }

  lemma {:induction false} AttachAllKinds(p: Pool, js: seq<nat>)
    requires Refs(p) && Ids(|p.jobs|, js)
    ensures forall k | 0 <= k < |p.jobs| :: AttachAll(p, js).jobs[k].kind == p.jobs[k].kind
    decreases |js|
  {
    if js != [] {
      AttachAllKinds(AttachJob(p, js[0]), js[1..]);
    }
  }

  lemma {:induction false} CancelAllKinds(p: Pool, js: seq<nat>)
    requires Refs(p) && Ids(|p.jobs|, js)
    ensures forall k | 0 <= k < |p.jobs| :: CancelAll(p, js).jobs[k].kind == p.jobs[k].kind
    decreases |js|
  {
    hide CancelJob, SameGraph;
    if js != [] {
      var q := Put(p, js[0], Joined(p.jobs[js[0]]));
      TouchRefs(p, q, js[0]);
      MarkedGraph(q, CancelJob(q, js[0]));
      CancelAllKinds(CancelJob(q, js[0]), js[1..]);
    }
  }

  lemma ScheduleNeeds(p: Pool, js: seq<nat>, ds: seq<nat>, t: nat)
    requires Refs(p) && Ids(|p.jobs|, js) && Ids(|p.jobs|, ds) && t < |p.jobs|
    ensures Lowered(p.jobs[t].kind, ScheduleJobs(p, js, ds).jobs[t].kind,
                    if (forall j | j in js :: !p.jobs[j].pool) && (forall d | d in ds :: p.jobs[d].pool)
                    then ToldGain(p, p.jobs[t].kind, ds, t) else 0)
  {
    hide AddDeps, AddNotifies, AttachAll, CancelAll, ToldGain;
    if MaySchedule(p, js, ds) {
      var q := AddDeps(p, js, ds);
      AddDepsOffers(p, js, ds);
      AddNotifiesNeeds(q, ds, js, t);
      SameGain(p, q, p.jobs[t].kind, q.jobs[t].kind, ds, t);
      AttachAllKinds(AddNotifies(q, ds, js), js);
      CancelAllKinds(AddNotifies(q, ds, js), js);
    }
  }

  // ---------------------------------------------------------------- updateTrigger

  /** What a call of `updateTrigger` with `units` arguments is worth. */
  function Own(k: Kind, units: nat): nat {
    match k
    case Count(_) => if units == 0 then 1 else 0
    case Acc(_) => units
    case _ => 0
  }

  /** Whether the call leaves nothing to wait for. */
  predicate Enough(k: Kind, units: nat) {
    match k
    case Count(need) => units == 0 && need <= 1
    case Acc(need) => need <= units
    case _ => false
  }

  lemma OwnNeeds(p: Pool, u: nat, units: nat, t: nat)
    requires Refs(p) && u < |p.jobs| && t < |p.jobs| && p.jobs[u].deps == []
    ensures Lowered(p.jobs[t].kind, UpdateTrigger(p, u, units).jobs[t].kind,
                    (if u == t then Own(p.jobs[t].kind, units) else 0)
                    + (if p.jobs[u].cancelled && Enough(p.jobs[u].kind, units)
                       then Gain(p.jobs[t].kind, p.jobs[u].triggers, t, p.jobs[u].hasResult) else 0))
  {
    hide SkipBody, Gain;
    var m := Put(p, u, Activated(p.jobs[u], units));
    TouchRefs(p, m, u);
    if Accepts(p.jobs[u].kind, units > 0) {
      assert Lowered(p.jobs[t].kind, m.jobs[t].kind, if u == t then Own(p.jobs[t].kind, units) else 0);
      if Ready(m, u) && m.jobs[u].cancelled {
        SkipNeeds(m, u, t);
        SameGainOf(p.jobs[t].kind, m.jobs[t].kind, p.jobs[u].triggers, t, p.jobs[u].hasResult);
      }
    }
  }

  lemma SameGainOf(k: Kind, k': Kind, l: seq<nat>, t: nat, hasResult: bool)
    requires k.Count? == k'.Count? && k.Acc? == k'.Acc?
    ensures Gain(k', l, t, hasResult) == Gain(k, l, t, hasResult)
  {
  }

  /** A call that leaves nothing to wait for runs the trigger on the thread of its caller, unless the
      trigger has been cancelled, when it is only marked done; no other call runs anything. */
  lemma UpdateRuns(s: Sys, t: nat, units: nat, s': Sys)
    requires SysInv(s) && Next(s, Update(t, units), s')
    ensures t < |s.pool.jobs| == |s'.pool.jobs| && s.pool.jobs[t].kind.Trigger()
    ensures s'.callers == if Enough(s.pool.jobs[t].kind, units) && !s.pool.jobs[t].cancelled
                          then s.callers + multiset{t} else s.callers
    ensures Enough(s.pool.jobs[t].kind, units) && !s.pool.jobs[t].cancelled ==> s'.pool.jobs[t].running
    ensures Enough(s.pool.jobs[t].kind, units) && s.pool.jobs[t].cancelled ==> s'.pool.jobs[t].done
  {
    hide SkipBody, Signals, Locals, Edges, Progressing, Symmetric, Kinds, WorkersOk, BodiesOk;
    InvAt(s.pool, t, {}, {}, {});
    var m := Put(s.pool, t, Activated(s.pool.jobs[t], units));
    TouchRefs(s.pool, m, t);
    StepEffects.SkippedFlags(m, t);
  }

  // ---------------------------------------------------------------- whole runs

  /** What a step offers to trigger `t`: an update, or the end of a job it is chained to. */
  ghost function Offered(s: Sys, a: Action, t: nat): nat {
    var jobs := s.pool.jobs;
    if t >= |jobs| then 0
    else
      match a
      case Update(u, units) =>
        if u >= |jobs| then 0
        else
          (if u == t then Own(jobs[t].kind, units) else 0)
          + (if jobs[u].cancelled && Enough(jobs[u].kind, units)
             then Gain(jobs[t].kind, jobs[u].triggers, t, jobs[u].hasResult) else 0)
      case Return(u) =>
        if u < |jobs| then Gain(jobs[t].kind, jobs[u].triggers, t, jobs[u].hasResult || jobs[u].kind.Acc?) else 0
      case Finish(w, result) =>
        if w < |s.slots| && s.slots[w].Busy? && s.slots[w].job < |jobs|
        then Gain(jobs[t].kind, jobs[s.slots[w].job].triggers, t, jobs[s.slots[w].job].hasResult || result) else 0
      case Turn(w, j) =>
        if !s.closing && j < |jobs| && jobs[j].cancelled
           && ((w < |s.pool.private| && s.pool.private[w] != []) || s.pool.queue != multiset{})
        then Gain(jobs[t].kind, jobs[j].triggers, t, jobs[j].hasResult) else 0
      case Schedule(js, ds) =>
        if Ids(|jobs|, js) && Ids(|jobs|, ds)
           && (forall j | j in js :: !jobs[j].pool) && (forall d | d in ds :: jobs[d].pool)
        then ToldGain(s.pool, jobs[t].kind, ds, t) else 0
      case _ => 0
  }

  lemma TurnNeeds(s: Sys, w: nat, j: nat, s': Sys, t: nat)
    requires Next(s, Turn(w, j), s') && t < |s.pool.jobs|
    ensures t < |s'.pool.jobs|
    ensures Lowered(s.pool.jobs[t].kind, s'.pool.jobs[t].kind, Offered(s, Turn(w, j), t))
  {
    hide SkipBody, Signals, Take, Gain;
    if !s.closing && (HasPrivate(s.pool, w) || s.pool.queue != multiset{}) {
      StepEffects.TakenQueue(s.pool, w, j);
      if s.pool.jobs[j].cancelled {
        SkipNeeds(Take(s.pool, w, j), j, t);
        SkipBodyIsCalm(Take(s.pool, w, j), j);
      }
    }
  }

  lemma QuietNeeds(s: Sys, a: Action, s': Sys, t: nat)
    requires Next(s, a, s') && t < |s.pool.jobs|
    requires a.NewTrigger? || a.Start? || a.Cancel?
    ensures t < |s'.pool.jobs| && s'.pool.jobs[t].kind == s.pool.jobs[t].kind
  {
    hide CancelJob, Signals;
  }

  lemma ApiNeeds(s: Sys, a: Action, s': Sys, t: nat)
    requires SysInv(s) && Next(s, a, s') && t < |s.pool.jobs| && (a.Update? || a.Return? || a.Finish? || a.Schedule?)
    ensures t < |s'.pool.jobs| && Lowered(s.pool.jobs[t].kind, s'.pool.jobs[t].kind, Offered(s, a, t))
  {
    hide FinishBody, ScheduleJobs, UpdateTrigger, Signals, Gain, ToldGain, Locals, Edges, Progressing, Symmetric, Fires;
    hide WorkersOk, BodiesOk, Kinds;
    match a
    case Update(u, units) =>
      InvAt(s.pool, u, {}, {}, {});
      OwnNeeds(s.pool, u, units, t);
      UpdateCounts(s.pool, u, units);
    case Return(u) =>
      FinishNeeds(s.pool, u, s.pool.jobs[u].kind.Acc?, t);
      FinishBodyCounts(s.pool, u, s.pool.jobs[u].kind.Acc?);
    case Finish(w, result) =>
      FinishNeeds(s.pool, s.slots[w].job, result, t);
      FinishBodyCounts(s.pool, s.slots[w].job, result);
    case Schedule(js, ds) =>
      ScheduleEffect.HandlesIds(s.pool, js);
      ScheduleEffect.HandlesIds(s.pool, ds);
      ScheduleNeeds(s.pool, js, ds, t);
  }

  /** Every step lowers what a trigger needs by exactly what it offers. */
  lemma NeedStep(s: Sys, a: Action, s': Sys, t: nat)
    requires SysInv(s) && Next(s, a, s') && t < |s.pool.jobs|
    ensures t < |s'.pool.jobs| && Lowered(s.pool.jobs[t].kind, s'.pool.jobs[t].kind, Offered(s, a, t))
  {
    hide SysInv, FinishBody, ScheduleJobs, UpdateTrigger, CancelJob, StartJob, NewTriggerJob, Signals, LoopBody, Fires;
    match a
    case Turn(w, j) => TurnNeeds(s, w, j, s', t);
    case Update(_, _) => ApiNeeds(s, a, s', t);
    case Return(_) => ApiNeeds(s, a, s', t);
    case Finish(_, _) => ApiNeeds(s, a, s', t);
    case Schedule(_, _) => ApiNeeds(s, a, s', t);
    case NewTrigger(_) => QuietNeeds(s, a, s', t);
    case Start(_) => QuietNeeds(s, a, s', t);
    case Cancel(_) => QuietNeeds(s, a, s', t);
    case _ =>
  }

  ghost function OfferedBy(states: seq<Sys>, acts: seq<Action>, i: nat, k: nat, t: nat): nat
    requires |states| == |acts| + 1 && i <= k <= |acts|
    decreases k
  {
    if k == i then 0 else OfferedBy(states, acts, i, k - 1, t) + Offered(states[k - 1], acts[k - 1], t)
  }

  /** Along a run a trigger needs exactly as many activations less as it was offered: a counter of `n`
      is ready after `n` updates or ends of jobs it is chained to, and not before. */
  lemma {:induction false} NeedCounts(states: seq<Sys>, acts: seq<Action>, i: nat, k: nat, t: nat)
    requires Run(states, acts) && i <= k < |states| && t < |states[i].pool.jobs|
    ensures t < |states[k].pool.jobs|
    ensures Lowered(states[i].pool.jobs[t].kind, states[k].pool.jobs[t].kind, OfferedBy(states, acts, i, k, t))
    decreases k
  {
    hide Next, Init, SysInv, Offered;
    if i < k {
      NeedCounts(states, acts, i, k - 1, t);
      RunKeeps(states, acts, k - 1);
      NeedStep(states[k - 1], acts[k - 1], states[k], t);
      LoweredTwice(states[i].pool.jobs[t].kind, states[k - 1].pool.jobs[t].kind, states[k].pool.jobs[t].kind,
                   OfferedBy(states, acts, i, k - 1, t), Offered(states[k - 1], acts[k - 1], t));
    }
  }
}
