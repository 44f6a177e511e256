/** The class template `SyncVar` of syncvar.h, whose writer wakes one reader and whose readers wake
    each other. */
module HeaderSyncVar {
  import opened CondVar

  /** `waiting` is the class's own count of the readers that are inside `read`. */
  datatype Sys<T> = Sys(init: bool, value: T, waiting: int, cond: Cond)

  datatype Action<T> =
    | Write(t: nat, item: T)
    | Read(t: nat)
    | Resume(t: nat)
    | Wake(t: nat)

  function Stored<T>(s: Sys<T>, item: T): Sys<T> { if s.init then s else s.(init := true, value := item) }

  /** The end of `read`: this reader leaves, and wakes another if there is one. */
  ghost predicate Leaves<T>(s: Sys<T>, waiting: int, c: Cond, s': Sys<T>) {
    && Signals(c, if waiting != 0 then 1 else 0, s'.cond)
    && s' == s.(waiting := waiting, cond := s'.cond)
  }

  ghost predicate Next<T>(s: Sys<T>, a: Action<T>, s': Sys<T>) {
    match a
    case Write(t, item) =>
      && t !in s.cond.asleep + s.cond.woken
      && Signals(s.cond, if s.waiting != 0 then 1 else 0, s'.cond)
      && s' == Stored(s, item).(cond := s'.cond)
    case Read(t) =>
      && t !in s.cond.asleep + s.cond.woken
      && if s.init then Leaves(s, s.waiting, s.cond, s')
         else s' == s.(waiting := s.waiting + 1, cond := s.cond.Sleep(t))
    case Resume(t) =>
      && t in s.cond.woken
      && if s.init then Leaves(s, s.waiting - 1, s.cond.Resume(t), s')
         else s' == s.(cond := s.cond.Resume(t).Sleep(t))
    case Wake(t) => t in s.cond.asleep && s' == s.(cond := s.cond.Wake(t))
  }

  ghost predicate Run<T>(states: seq<Sys<T>>, acts: seq<Action<T>>) {
    && |states| == |acts| + 1
    && !states[0].init && states[0].waiting == 0 && states[0].cond == Cond({}, {})
    && (forall i | 0 <= i < |acts| :: Next(states[i], acts[i], states[i + 1]))
  }

  ghost predicate Inv<T>(s: Sys<T>) {
    && s.cond.Valid() && s.waiting == s.cond.Count()
    && (s.init && s.cond.asleep != {} ==> s.cond.woken != {})
  }

  lemma LeavesKeeps<T>(s: Sys<T>, waiting: int, c: Cond, s': Sys<T>)
    requires c.Valid() && waiting == c.Count() && Leaves(s, waiting, c, s')
    ensures Inv(s')
  {
    hide Signals;
    SignalsCount(c, if waiting != 0 then 1 else 0, s'.cond);
  }

  lemma NextKeeps<T>(s: Sys<T>, a: Action<T>, s': Sys<T>)
    requires Inv(s) && Next(s, a, s')
    ensures Inv(s')
  {
    hide Signals, Leaves;
    match a {
      case Write(_, _) => SignalsCount(s.cond, if s.waiting != 0 then 1 else 0, s'.cond);
      case Read(t) =>
        if s.init {
          LeavesKeeps(s, s.waiting, s.cond, s');
        } else {
          SleepCounts(s.cond, t);
        }
      case Resume(t) =>
        ResumeCounts(s.cond, t);
        if s.init {
          LeavesKeeps(s, s.waiting - 1, s.cond.Resume(t), s');
        } else {
          SleepCounts(s.cond.Resume(t), t);
        }
      case Wake(t) => WakeCounts(s.cond, t);
    }
  }

  lemma {:induction false} RunKeeps<T>(states: seq<Sys<T>>, acts: seq<Action<T>>, i: nat)
    requires Run(states, acts) && i < |states|
    ensures Inv(states[i])
  {
    if i > 0 {
      RunKeeps(states, acts, i - 1);
      NextKeeps(states[i - 1], acts[i - 1], states[i]);
    }
  }

  /** The chain of wake-ups does not break: whenever the variable has a value and readers sleep,
      one that was woken is still to come; and `waiting` counts the readers inside. */
  lemma ChainHolds<T>(states: seq<Sys<T>>, acts: seq<Action<T>>, i: nat)
    requires Run(states, acts) && i < |states|
    ensures states[i].waiting == states[i].cond.Count()
    ensures states[i].init && states[i].cond.woken == {} ==> states[i].cond.asleep == {} && states[i].waiting == 0
  {
    RunKeeps(states, acts, i);
  }

  /** The item of the first call of `write`, whoever made it. */
  function FirstWritten<T>(acts: seq<Action<T>>): seq<T> {
    if acts == [] then []
    else
      var rest, a := acts[..|acts| - 1], acts[|acts| - 1];
      if FirstWritten(rest) == [] && a.Write? then [a.item] else FirstWritten(rest)
  }

  /** The variable has a value as soon as `write` was called, and it is the item of the first call. */
  lemma {:induction false} ValueIsTheFirst<T>(states: seq<Sys<T>>, acts: seq<Action<T>>, i: nat)
    requires Run(states, acts) && i < |states|
    ensures if states[i].init then FirstWritten(acts[..i]) == [states[i].value] else FirstWritten(acts[..i]) == []
  {
    if i > 0 {
      ValueIsTheFirst(states, acts, i - 1);
      assert Next(states[i - 1], acts[i - 1], states[i]);
      assert acts[..i][..i - 1] == acts[..i - 1];
    }
  }

  /** The first value stays. */
  lemma {:induction false} FirstValueStays<T>(states: seq<Sys<T>>, acts: seq<Action<T>>, i: nat, j: nat)
    requires Run(states, acts) && i <= j < |states| && states[i].init
    ensures states[j].init && states[j].value == states[i].value
  {
    if i < j {
      FirstValueStays(states, acts, i, j - 1);
      assert Next(states[j - 1], acts[j - 1], states[j]);
    }
  }

  /** The class; each method is one stretch with the lock held. */
  class SyncVar<T> {
    var init: bool
    var value: T
    var waiting: int
    ghost var cond: Cond

    ghost function View(): Sys<T>
      reads this
    {
      Sys(init, value, waiting, cond)
    }

    constructor (unset: T)
      ensures View() == Sys(false, unset, 0, Cond({}, {}))
    {
      init, value, waiting, cond := false, unset, 0, Cond({}, {});
    }

    /** `if (waiting) cond.signal()`. */
    ghost method SignalIfWaiting()
      modifies this`cond
      ensures Signals(old(cond), if waiting != 0 then 1 else 0, cond)
    {
      cond := SignalsExist(cond, if waiting != 0 then 1 else 0);
    }

    method Write(ghost t: nat, item: T)
      requires t !in cond.asleep + cond.woken
      modifies this
      ensures init && value == if old(init) then old(value) else item
      ensures Next(old(View()), Action.Write(t, item), View())
    {
      if !init {
        value := item;
        init := true;
      }
      SignalIfWaiting();
    }

    /** `read` from its start; it is over unless the thread has to wait. */
    method Read(ghost t: nat) returns (over: bool)
      requires t !in cond.asleep + cond.woken
      modifies this
      ensures Next(old(View()), Action.Read(t), View()) && over == init
    {
      waiting := waiting + 1;
      over := Finish(t);
    }

    /** `read` from its return from `wait`. */
    method ResumeRead(ghost t: nat) returns (over: bool)
      requires t in cond.woken
      modifies this
      ensures Next(old(View()), Action.Resume(t), View()) && over == init
    {
      cond := cond.Resume(t);
      over := Finish(t);
    }

    method Finish(ghost t: nat) returns (over: bool)
      modifies this
      ensures over == init
      ensures if init then Leaves(old(View()), old(waiting) - 1, old(cond), View())
              else View() == old(View()).(cond := old(cond).Sleep(t))
    {
      if !init {
        cond := cond.Sleep(t);
        return false;
      }
      waiting := waiting - 1;
      SignalIfWaiting();
      over := true;
    }

    method TryRead() returns (success: bool, result: T)
      ensures success == init && result == value
    {
      success, result := init, value;
    }
  }
}
