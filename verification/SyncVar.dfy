/** The synchronization variable of shared.cc: written once, then read and updated. */
module SyncVar {
  import opened CondVar
  import opened Options

  /** An update runs a procedure on the value while it holds the lock; it may fail. */
  type Procedure<!T> = T -> Option<T>

  /** What a thread that waits for the first value came for. */
  datatype Op<!T> = Read | Update(proc: Procedure<T>)

  /** What a thread saw: the value, and after how many updates. */
  datatype Seen<T> = Seen(reader: nat, item: T, updates: nat)

  /** The fields, and the threads that are blocked with what they came for. */
  datatype Sys<!T> = Sys(value: Option<T>, cond: Cond, blocked: map<nat, Op<T>>)

  datatype Action<!T> =
    | Write(t: nat, item: T, success: bool)
    | Call(t: nat, op: Op<T>)
    | Resume(t: nat)
    | Wake(t: nat)

  /** Applying updates, first to last; each succeeded on the value the one before it left. */
  function Fold<T>(first: T, procs: seq<Procedure<T>>): Option<T> {
    if procs == [] then Some(first)
    else
      match Fold(first, procs[..|procs| - 1])
      case None => None
      case Some(v) => procs[|procs| - 1](v)
  }

  // ---------------------------------------------------------------- the stretches under the lock

  function Wrote<T>(s: Sys<T>, item: T): Sys<T> {
    s.(value := Some(item), cond := s.cond.Broadcast())
  }

  function Waits<T>(s: Sys<T>, t: nat, op: Op<T>): Sys<T> {
    s.(cond := s.cond.Sleep(t), blocked := s.blocked[t := op])
  }

  function Unblocked<T>(s: Sys<T>, t: nat): Sys<T> {
    s.(cond := s.cond.Resume(t), blocked := s.blocked - {t})
  }

  /** An operation once the variable has a value. */
  function Acted<T>(s: Sys<T>, t: nat, op: Op<T>): Sys<T>
    requires s.value.Some?
  {
    match op
    case Read => s
    case Update(proc) =>
      match proc(s.value.value)
      case None => s
      case Some(v) => s.(value := Some(v), cond := s.cond.Broadcast())
  }

  function Attempt<T>(s: Sys<T>, t: nat, op: Op<T>): Sys<T> {
    if s.value.None? then Waits(s, t, op) else Acted(s, t, op)
  }

  ghost predicate Next<T>(s: Sys<T>, a: Action<T>, s': Sys<T>) {
    match a
    case Write(t, item, success) =>
      t !in s.blocked && success == s.value.None? && s' == if success then Wrote(s, item) else s
    case Call(t, op) => t !in s.blocked && s' == Attempt(s, t, op)
    case Resume(t) => t in s.cond.woken && t in s.blocked && s' == Attempt(Unblocked(s, t), t, s.blocked[t])
    case Wake(t) => t in s.cond.asleep && s' == s.(cond := s.cond.Wake(t))
  }

  ghost predicate Run<T>(states: seq<Sys<T>>, acts: seq<Action<T>>) {
    && |states| == |acts| + 1 && states[0] == Sys(None, Cond({}, {}), map[])
    && (forall i | 0 <= i < |acts| :: Next(states[i], acts[i], states[i + 1]))
  }

  // ------------------------------------------------------------ what the actions of a run amount to

  /** The items of the writes that reported success. */
  function Written<T>(acts: seq<Action<T>>): seq<T> {
    if acts == [] then []
    else
      var a := acts[|acts| - 1];
      Written(acts[..|acts| - 1]) + if a.Write? && a.success then [a.item] else []
  }

  /** What thread `t` called last. */
  function LastCall<T>(acts: seq<Action<T>>, t: nat): Option<Op<T>> {
    if acts == [] then None
    else
      var a := acts[|acts| - 1];
      if a.Call? && a.t == t then Some(a.op) else LastCall(acts[..|acts| - 1], t)
  }

  /** What the thread of the `i`-th action tries with the lock held: what it calls, or, on its return
      from `wait`, what it called last. */
  function Tries<T>(acts: seq<Action<T>>, i: nat): Option<Op<T>>
    requires i < |acts|
  {
    match acts[i]
    case Call(_, op) => Some(op)
    case Resume(t) => LastCall(acts[..i], t)
    case _ => None
  }

  /** The procedures of the updates that found a value and did not fail on it. */
  function Updated<T>(states: seq<Sys<T>>, acts: seq<Action<T>>, i: nat): seq<Procedure<T>>
    requires i <= |acts| && |states| == |acts| + 1
  {
    if i == 0 then []
    else
      var s, op := states[i - 1], Tries(acts, i - 1);
      Updated(states, acts, i - 1)
      + if op.Some? && op.value.Update? && s.value.Some? && op.value.proc(s.value.value).Some?
        then [op.value.proc] else []
  }

  /** The reads that found a value, with what they returned. */
  function Reads<T>(states: seq<Sys<T>>, acts: seq<Action<T>>, i: nat): seq<Seen<T>>
    requires i <= |acts| && |states| == |acts| + 1
  {
    if i == 0 then []
    else
      var s, op := states[i - 1], Tries(acts, i - 1);
      Reads(states, acts, i - 1)
      + if op == Some(Op.Read) && s.value.Some?
        then [Seen(acts[i - 1].t, s.value.value, |Updated(states, acts, i - 1)|)] else []
  }

  // -------------------------------------------------------------------------------- the invariant

  ghost predicate Inv<T>(s: Sys<T>) {
    && s.cond.Valid() && s.blocked.Keys == s.cond.asleep + s.cond.woken
    && (s.value.Some? ==> s.cond.asleep == {})
  }

  lemma NextKeeps<T>(s: Sys<T>, a: Action<T>, s': Sys<T>)
    requires Inv(s) && Next(s, a, s')
    ensures Inv(s')
  {
  }

  lemma {:induction false} RunKeeps<T>(states: seq<Sys<T>>, acts: seq<Action<T>>, i: nat)
    requires Run(states, acts) && i < |states|
    ensures Inv(states[i])
  {
    if i > 0 {
      RunKeeps(states, acts, i - 1);
      NextKeeps(states[i - 1], acts[i - 1], states[i]);
    }
  }

  // ------------------------------------------------------------------------------------ theorems

  /** At most one write ever succeeds, and one has as soon as the variable has a value. */
  lemma {:induction false} OneWrite<T>(states: seq<Sys<T>>, acts: seq<Action<T>>, i: nat)
    requires Run(states, acts) && i < |states|
    ensures |Written(acts[..i])| == if states[i].value.Some? then 1 else 0
  {
    if i > 0 {
      OneWrite(states, acts, i - 1);
      assert Next(states[i - 1], acts[i - 1], states[i]);
      assert acts[..i][..i - 1] == acts[..i - 1];
    }
  }

  lemma FoldExtends<T>(first: T, procs: seq<Procedure<T>>, proc: Procedure<T>)
    requires Fold(first, procs).Some?
    ensures Fold(first, procs + [proc]) == proc(Fold(first, procs).value)
  {
    assert (procs + [proc])[..|procs|] == procs;
  }

  /** A blocked thread is blocked for what it called last. */
  lemma {:induction false} BlockedForItsCall<T>(states: seq<Sys<T>>, acts: seq<Action<T>>, i: nat, t: nat)
    requires Run(states, acts) && i < |states| && t in states[i].blocked
    ensures LastCall(acts[..i], t) == Some(states[i].blocked[t])
  {
    if i > 0 {
      assert Next(states[i - 1], acts[i - 1], states[i]);
      assert acts[..i][..i - 1] == acts[..i - 1];
      if t in states[i - 1].blocked {
        BlockedForItsCall(states, acts, i - 1, t);
      }
    }
  }

  /** One step: an update is applied to the value, a write sets it, and nothing else touches it. */
  lemma ValueStep<T>(states: seq<Sys<T>>, acts: seq<Action<T>>, i: nat)
    requires Run(states, acts) && i < |acts|
    ensures var s, a, op := states[i], acts[i], Tries(acts, i);
      states[i + 1].value ==
        if a.Write? && a.success then Some(a.item)
        else if op.Some? && op.value.Update? && s.value.Some? && op.value.proc(s.value.value).Some?
          then op.value.proc(s.value.value)
        else s.value
    ensures acts[i].Write? && acts[i].success ==> states[i].value.None?
  {
    assert Next(states[i], acts[i], states[i + 1]);
    if acts[i].Resume? {
      BlockedForItsCall(states, acts, i, acts[i].t);
    }
  }

  /** At every moment the value is the fold of the successful updates so far, in the order of the
      lock, over the one item that was written. */
  lemma {:induction false} ValueIsTheFold<T>(states: seq<Sys<T>>, acts: seq<Action<T>>, i: nat)
    requires Run(states, acts) && i < |states|
    ensures states[i].value.None? ==> Written(acts[..i]) == [] && Updated(states, acts, i) == []
    ensures states[i].value.Some? ==>
      |Written(acts[..i])| == 1 && Fold(Written(acts[..i])[0], Updated(states, acts, i)) == states[i].value
  {
    hide Fold, Next, LastCall;
    if i > 0 {
      var s, a, s' := states[i - 1], acts[i - 1], states[i];
      ValueIsTheFold(states, acts, i - 1);
      OneWrite(states, acts, i);
      hide Tries;
      ValueStep(states, acts, i - 1);
      assert acts[..i][..i - 1] == acts[..i - 1];
      if s.value.None? {
        if s'.value.Some? {
          FoldNothing(a.item);
        }
      } else if Updated(states, acts, i) != Updated(states, acts, i - 1) {
        FoldExtends(Written(acts[..i])[0], Updated(states, acts, i - 1), Tries(acts, i - 1).value.proc);
      }
    }
  }

  lemma FoldNothing<T>(first: T)
    ensures Fold(first, []) == Some(first)
  {
  }

  /** Updates are only ever added behind. */
  lemma {:induction false} UpdatesGrow<T>(states: seq<Sys<T>>, acts: seq<Action<T>>, k: nat, i: nat)
    requires k <= i <= |acts| && |states| == |acts| + 1
    ensures Updated(states, acts, k) <= Updated(states, acts, i)
    decreases i
  {
    if k < i {
      UpdatesGrow(states, acts, k, i - 1);
    }
  }

  lemma {:induction false} WritesGrow<T>(acts: seq<Action<T>>, k: nat, i: nat)
    requires k <= i <= |acts|
    ensures Written(acts[..k]) <= Written(acts[..i])
    decreases i
  {
    if k < i {
      WritesGrow(acts, k, i - 1);
      assert acts[..i][..i - 1] == acts[..i - 1];
    }
  }

  lemma ReadsStep<T>(states: seq<Sys<T>>, acts: seq<Action<T>>, i: nat, r: Seen<T>)
    requires 0 < i <= |acts| && |states| == |acts| + 1 && r in Reads(states, acts, i)
    ensures r in Reads(states, acts, i - 1)
      || (states[i - 1].value == Some(r.item) && r.updates == |Updated(states, acts, i - 1)|)
  {
    hide Updated;
  }

  /** What `r` saw is the fold of as many updates as it had before it. */
  ghost predicate SeenOk<T>(states: seq<Sys<T>>, acts: seq<Action<T>>, i: nat, r: Seen<T>)
    requires i <= |acts| && |states| == |acts| + 1
  {
    && |Written(acts[..i])| == 1 && r.updates <= |Updated(states, acts, i)|
    && Fold(Written(acts[..i])[0], Updated(states, acts, i)[..r.updates]) == Some(r.item)
  }

  /** The value is just now what a read sees. */
  lemma SeesTheValue<T>(states: seq<Sys<T>>, acts: seq<Action<T>>, i: nat, r: Seen<T>)
    requires Run(states, acts) && i < |states|
    requires states[i].value == Some(r.item) && r.updates == |Updated(states, acts, i)|
    ensures SeenOk(states, acts, i, r)
  {
    hide Fold, Next, Updated, Written;
    ValueIsTheFold(states, acts, i);
    assert Updated(states, acts, i)[..r.updates] == Updated(states, acts, i);
  }

  lemma FoldOfPrefix<T>(first: seq<T>, first': seq<T>, before: seq<Procedure<T>>, after: seq<Procedure<T>>, n: nat)
    requires |first| == |first'| == 1 && first <= first' && n <= |before| && before <= after
    ensures Fold(first'[0], after[..n]) == Fold(first[0], before[..n])
  {
    assert after[..n] == before[..n];
  }

  lemma SeenStays<T>(states: seq<Sys<T>>, acts: seq<Action<T>>, i: nat, r: Seen<T>)
    requires Run(states, acts) && i < |acts| && SeenOk(states, acts, i, r)
    ensures SeenOk(states, acts, i + 1, r)
  {
    hide Fold, Next, Updated, Written, LastCall, Tries;
    UpdatesGrow(states, acts, i, i + 1);
    WritesGrow(acts, i, i + 1);
    OneWrite(states, acts, i);
    OneWrite(states, acts, i + 1);
    FoldOfPrefix(Written(acts[..i]), Written(acts[..i + 1]), Updated(states, acts, i), Updated(states, acts, i + 1),
                 r.updates);
  }

  /** Every read returns the fold of the updates that succeeded before it over the one item that was
      written. */
  lemma {:induction false} ReadsSeeTheFold<T>(states: seq<Sys<T>>, acts: seq<Action<T>>, i: nat, r: Seen<T>)
    requires Run(states, acts) && i < |states| && r in Reads(states, acts, i)
    ensures SeenOk(states, acts, i, r)
  {
    hide Fold, Next, LastCall, Tries, SeenOk;
    if i > 0 {
      ReadsStep(states, acts, i, r);
      if r in Reads(states, acts, i - 1) {
        ReadsSeeTheFold(states, acts, i - 1, r);
      } else {
        SeesTheValue(states, acts, i - 1, r);
      }
      SeenStays(states, acts, i - 1, r);
    }
  }

  /** Once the variable has a value nobody is left asleep; whoever is still blocked was woken. */
  lemma NobodySleepsOn<T>(states: seq<Sys<T>>, acts: seq<Action<T>>, i: nat)
    requires Run(states, acts) && i < |states| && states[i].value.Some?
    ensures states[i].cond.asleep == {} && states[i].blocked.Keys == states[i].cond.woken
  {
    RunKeeps(states, acts, i);
  }

  // ------------------------------------------------------------------------------------ the class

  class SingularSyncVar<!T> {
    var value: Option<T>
    ghost var cond: Cond
    ghost var blocked: map<nat, Op<T>>

    ghost function View(): Sys<T>
      reads this
    {
      Sys(value, cond, blocked)
    }

    constructor ()
      ensures View() == Sys(None, Cond({}, {}), map[])
    {
      value, cond, blocked := None, Cond({}, {}), map[];
    }

    method Write(t: nat, item: T) returns (result: bool)
      requires t !in blocked
      modifies this
      ensures result <==> old(value).None?
      ensures value == if result then Some(item) else old(value)
      ensures Next(old(View()), Action.Write(t, item, result), View())
    {
      result := false;
      if value.None? {
        value := Some(item);
        cond := cond.Broadcast();
        result := true;
      }
    }

    /** `read` from its start; nothing when it has to wait. */
    method Read(t: nat) returns (result: Option<T>)
      requires t !in blocked
      modifies this
      ensures result == old(value) == value
      ensures Next(old(View()), Action.Call(t, Op.Read), View())
    {
      result := FinishRead(t);
    }

    /** `read` from its return from `wait`. */
    method ResumeRead(t: nat) returns (result: Option<T>)
      requires t in cond.woken && t in blocked && blocked[t] == Op.Read
      modifies this
      ensures result == old(value) == value
      ensures Next(old(View()), Action.Resume(t), View())
    {
      Unblock(t);
      result := FinishRead(t);
    }

    /** The thread has the lock again. */
    ghost method Unblock(t: nat)
      requires t in cond.woken && t in blocked
      modifies this`cond, this`blocked
      ensures View() == Unblocked(old(View()), t)
    {
      cond := cond.Resume(t);
      blocked := blocked - {t};
    }

    method FinishRead(t: nat) returns (result: Option<T>)
      modifies this
      ensures result == old(value) == value
      ensures View() == Attempt(old(View()), t, Op.Read)
    {
      if value.None? {
        cond := cond.Sleep(t);
        blocked := blocked[t := Op.Read];
      }
      result := value;
    }

    /** `updateSyncVar` from its start.  Reports an error of the procedure. */
    method Update(t: nat, proc: Procedure<T>) returns (waits: bool, error: bool)
      requires t !in blocked
      modifies this
      ensures waits <==> old(value).None?
      ensures error <==> old(value).Some? && proc(old(value).value).None?
      ensures value == if waits || error then old(value) else proc(old(value).value)
      ensures Next(old(View()), Action.Call(t, Op.Update(proc)), View())
    {
      waits, error := FinishUpdate(t, proc);
    }

    /** `updateSyncVar` from its return from `wait`. */
    method ResumeUpdate(t: nat, proc: Procedure<T>) returns (waits: bool, error: bool)
      requires t in cond.woken && t in blocked && blocked[t] == Op.Update(proc)
      modifies this
      ensures waits <==> old(value).None?
      ensures error <==> old(value).Some? && proc(old(value).value).None?
      ensures value == if waits || error then old(value) else proc(old(value).value)
      ensures Next(old(View()), Action.Resume(t), View())
    {
      Unblock(t);
      waits, error := FinishUpdate(t, proc);
    }

    method FinishUpdate(t: nat, proc: Procedure<T>) returns (waits: bool, error: bool)
      modifies this
      ensures waits <==> old(value).None?
      ensures error <==> old(value).Some? && proc(old(value).value).None?
      ensures value == if waits || error then old(value) else proc(old(value).value)
      ensures View() == Attempt(old(View()), t, Op.Update(proc))
    {
      waits, error := value.None?, false;
      if waits {
        cond := cond.Sleep(t);
        blocked := blocked[t := Op.Update(proc)];
      } else {
        var result := proc(value.value);
        error := result.None?;
        if !error {
          value := result;
          cond := cond.Broadcast();
        }
      }
    }
  }
}
