/** `SingularChannel` of shared.cc: any number of threads send to it and receive from it. */
module Channel {
  import opened CondVar

  /** An item and the thread that received it. */
  datatype Receipt<T> = Receipt(receiver: nat, item: T)

  datatype Sys<T> = Sys(q: seq<T>, cond: Cond)

  datatype Action<T> =
    | Send(t: nat, item: T)
    | Receive(t: nat)  // begins, or goes on after `wait`; ends, or waits
    | Wake(t: nat)     // spuriously

  ghost predicate Next<T>(s: Sys<T>, a: Action<T>, s': Sys<T>) {
    match a
    case Send(t, item) =>
      t !in s.cond.asleep + s.cond.woken && Signals(s.cond, 1, s'.cond) && s'.q == s.q + [item]
    case Receive(t) =>
      t !in s.cond.asleep && (
        if s.q == [] then s' == s.(cond := s.cond.Resume(t).Sleep(t))
        else
          && Signals(s.cond.Resume(t), if |s.q| > 1 then 1 else 0, s'.cond)
          && s'.q == s.q[1..])
    case Wake(t) => t in s.cond.asleep && s' == s.(cond := s.cond.Wake(t))
  }

  ghost predicate Run<T>(states: seq<Sys<T>>, acts: seq<Action<T>>) {
    && |states| == |acts| + 1 && states[0] == Sys([], Cond({}, {}))
    && (forall i | 0 <= i < |acts| :: Next(states[i], acts[i], states[i + 1]))
  }

  // ------------------------------------------------------------ what the actions of a run amount to

  /** What was sent: the items of the calls of `send`, in order. */
  function SentBy<T>(acts: seq<Action<T>>): seq<T> {
    if acts == [] then [] else SentBy(acts[..|acts| - 1]) + Sends(acts[|acts| - 1])
  }

  function Sends<T>(a: Action<T>): seq<T> { if a.Send? then [a.item] else [] }

  /** What the first `i` actions returned: each `receive` that finds the queue not empty leaves with
      its front. */
  function ReceivedBy<T>(states: seq<Sys<T>>, acts: seq<Action<T>>, i: nat): seq<Receipt<T>>
    requires i <= |acts| && |states| == |acts| + 1
  {
    if i == 0 then [] else ReceivedBy(states, acts, i - 1) + Returns(states[i - 1], acts[i - 1])
  }

  function Returns<T>(s: Sys<T>, a: Action<T>): seq<Receipt<T>> {
    if a.Receive? && s.q != [] then [Receipt(a.t, s.q[0])] else []
  }

  function Items<T>(rs: seq<Receipt<T>>): (s: seq<T>)
    ensures |s| == |rs|
  {
    seq(|rs|, i requires 0 <= i < |rs| => rs[i].item)
  }

  ghost predicate Inv<T>(s: Sys<T>) { s.cond.Valid() && Covered(s.cond, |s.q|) }

  /** A receiver that takes an item and passes the signal on while items are left. */
  lemma ReceiverCovers(c: Cond, t: nat, n: nat, c': Cond)
    requires c.Valid() && t !in c.asleep && Covered(c, n) && n > 0
    requires Signals(c.Resume(t), if n > 1 then 1 else 0, c')
    ensures c'.Valid() && Covered(c', n - 1)
  {
    var r := c.Resume(t);
    if t in c.woken {
      ResumeCovers(c, t, n);
    } else {
      assert r.woken == c.woken;
    }
    SignalsCover(r, if n > 1 then 1 else 0, c', if n > 1 then n - 2 else 0);
  }

  lemma NextKeeps<T>(s: Sys<T>, a: Action<T>, s': Sys<T>)
    requires Inv(s) && Next(s, a, s')
    ensures Inv(s')
  {
    hide Signals;
    match a {
      case Send(t, item) =>
        SignalsCover(s.cond, 1, s'.cond, |s.q|);
      case Receive(t) =>
        if s.q != [] {
          ReceiverCovers(s.cond, t, |s.q|, s'.cond);
        }
      case Wake(t) =>
        assert s'.cond.woken == s.cond.woken + {t};
        assert s.cond.woken <= s'.cond.woken;
        Grows(s.cond.woken, t);
    }
  }

  lemma Grows(a: set<nat>, t: nat)
    ensures |a| <= |a + {t}|
  {
    assert t in a ==> a + {t} == a;
  }

  lemma {:induction false} RunKeeps<T>(states: seq<Sys<T>>, acts: seq<Action<T>>, i: nat)
    requires Run(states, acts) && i < |states|
    ensures Inv(states[i])
  {
    if i > 0 {
      RunKeeps(states, acts, i - 1);
      NextKeeps(states[i - 1], acts[i - 1], states[i]);
    }
  }

  lemma ItemsAppend<T>(rs: seq<Receipt<T>>, more: seq<Receipt<T>>)
    ensures Items(rs + more) == Items(rs) + Items(more)
  {
  }

  /** What one step adds to the queue, and what it takes from it. */
  lemma QueueStep<T>(s: Sys<T>, a: Action<T>, s': Sys<T>)
    requires Next(s, a, s')
    ensures s.q + Sends(a) == Items(Returns(s, a)) + s'.q
  {
    hide Signals;
    if a.Receive? && s.q != [] {
      assert s.q == [s.q[0]] + s'.q && Items([Receipt(a.t, s.q[0])]) == [s.q[0]];
    } else {
      assert Items(Returns(s, a)) == [];
    }
  }

  /** First in, first out, nothing lost and nothing twice: at every moment the items of all calls of
      `send` are the items that calls of `receive` returned, to whichever thread, and then the
      queue. */
  lemma {:induction false} Fifo<T>(states: seq<Sys<T>>, acts: seq<Action<T>>, i: nat)
    requires Run(states, acts) && i < |states|
    ensures SentBy(acts[..i]) == Items(ReceivedBy(states, acts, i)) + states[i].q
  {
    hide Next, Items;
    if i == 0 {
      assert Items<T>([]) == [] by { ItemsNothing<T>(); }
    } else {
      Fifo(states, acts, i - 1);
      var s, a, s' := states[i - 1], acts[i - 1], states[i];
      QueueStep(s, a, s');
      SentSplit(acts, i);
      ItemsAppend(ReceivedBy(states, acts, i - 1), Returns(s, a));
      hide SentBy, Returns, Sends;
      MovesOn(Items(ReceivedBy(states, acts, i - 1)), s.q, Sends(a), Items(Returns(s, a)), s'.q);
    }
  }

  lemma SentSplit<T>(acts: seq<Action<T>>, i: nat)
    requires 0 < i <= |acts|
    ensures SentBy(acts[..i]) == SentBy(acts[..i - 1]) + Sends(acts[i - 1])
  {
    assert acts[..i][..i - 1] == acts[..i - 1];
  }

  /** What moves from the front of one sequence to the end of another while it grows behind. */
  lemma MovesOn<T>(a: seq<T>, b: seq<T>, c: seq<T>, x: seq<T>, b': seq<T>)
    requires b + c == x + b'
    ensures a + b + c == a + x + b'
  {
    assert a + b + c == a + (b + c) && a + (x + b') == a + x + b';
  }

  lemma ItemsNothing<T>()
    ensures Items<T>([]) == []
  {
  }

  /** No lost wake-up: while a receiver sleeps, every item in the queue has a woken receiver that
      will come for it. */
  lemma NoSleepOnItems<T>(states: seq<Sys<T>>, acts: seq<Action<T>>, i: nat)
    requires Run(states, acts) && i < |states| && states[i].cond.asleep != {}
    ensures |states[i].q| <= |states[i].cond.woken|
  {
    RunKeeps(states, acts, i);
  }

  /** The class; each method is one stretch with the lock held. */
  class SingularChannel<T> {
    var q: seq<T>
    ghost var cond: Cond

    ghost function View(): Sys<T>
      reads this
    {
      Sys(q, cond)
    }

    constructor ()
      ensures View() == Sys([], Cond({}, {}))
    {
      q, cond := [], Cond({}, {});
    }

    /** `cond.signal()`. */
    ghost method Signal()
      modifies this`cond
      ensures Signals(old(cond), 1, cond)
    {
      cond := SignalsExist(cond, 1);
    }

    method Send(ghost t: nat, item: T)
      requires t !in cond.asleep + cond.woken
      modifies this
      ensures q == old(q) + [item]
      ensures Next(old(View()), Action.Send(t, item), View())
    {
      q := q + [item];
      Signal();
    }

    /** `receive` from its start, or from its return from `wait`: the item, or nothing when the
        thread has to wait. */
    method Receive(ghost t: nat) returns (result: seq<T>)
      requires t !in cond.asleep
      modifies this
      ensures Next(old(View()), Action.Receive(t), View())
      ensures old(q) == result + q && (result == [] <==> old(q) == []) && |result| <= 1
    {
      cond := cond.Resume(t);
      if q == [] {
        cond := cond.Sleep(t);
        return [];
      }
      result := [q[0]];
      q := q[1..];
      if q != [] {
        Signal();
      } else {
        NoSignals(cond);
      }
    }

    method Count() returns (n: nat)
      ensures n == |q|
    {
      n := |q|;
    }
  }
}
