/** The condition variable of thread.h, seen from the threads that use it.

    A thread that called `wait` is `asleep` until it is signalled (or wakes up by itself), then
    `woken` until it holds the lock again.  The two sets together are what the field `waiting`
    counts.  Every lost-wake-up argument of this project is about these two sets. */
module CondVar {

  datatype Cond = Cond(asleep: set<nat>, woken: set<nat>) {
    ghost predicate Valid() { asleep !! woken }

    /** How many threads are inside `wait`. */
    function Count(): nat { |asleep| + |woken| }

    /** Thread `t` waits: it gives up the lock and sleeps. */
    function Sleep(t: nat): Cond { this.(asleep := asleep + {t}) }

    /** Thread `t` is awake and has got the lock back. */
    function Resume(t: nat): Cond { this.(woken := woken - {t}) }

    /** All sleepers are woken. */
    function Broadcast(): Cond { Cond({}, woken + asleep) }

    /** One sleeper is woken: by a signal, or spuriously. */
    function Wake(t: nat): Cond { Cond(asleep - {t}, woken + {t}) }
  }

  /** The outcome of `k` signals: as many sleepers as there are, up to `k`, are woken.  Which ones
      is not determined. */
  ghost predicate Signals(c: Cond, k: nat, c': Cond) {
    && c'.asleep <= c.asleep
    && c'.woken == c.woken + (c.asleep - c'.asleep)
    && |c.asleep - c'.asleep| == if k <= |c.asleep| then k else |c.asleep|
  }

  /** No lost wake-up: whoever sleeps does so because every piece of available work has a woken
      thread that will look at it. */
  ghost predicate Covered(c: Cond, work: nat) {
    c.asleep != {} ==> work <= |c.woken|
  }

  /** `k` new pieces of work, each announced by a signal, keep every sleeper justified. */
  lemma SignalsCover(c: Cond, k: nat, c': Cond, work: nat)
    requires c.Valid() && Covered(c, work) && Signals(c, k, c')
    ensures c'.Valid() && Covered(c', work + k)
  {
    var moved := c.asleep - c'.asleep;
    if c'.asleep != {} {
      assert c.asleep == c'.asleep + moved;
      assert |c.asleep| == |c'.asleep| + |moved|;
      assert |c.woken + moved| == |c.woken| + |moved|;
    }
  }

  /** A woken thread that takes one piece of work and passes a signal on when some is left. */
  lemma ResumeCovers(c: Cond, t: nat, work: nat)
    requires c.Valid() && Covered(c, work) && t in c.woken
    ensures c.Resume(t).Valid() && Covered(c.Resume(t), if work > 0 then work - 1 else 0)
  {
    assert c.woken == c.Resume(t).woken + {t};
  }

  /** Waking one sleeper is an outcome of one signal. */
  lemma WakeSignals(c: Cond, t: nat)
    requires t in c.asleep
    ensures Signals(c, 1, c.Wake(t))
  {
    assert c.asleep - (c.asleep - {t}) == {t};
  }

  /** Without sleepers signals do nothing. */
  lemma SignalsNobody(c: Cond, k: nat)
    requires c.asleep == {}
    ensures Signals(c, k, c)
  {
    assert c.asleep - c.asleep == {};
    assert c.woken + {} == c.woken;
  }

  lemma NoSignals(c: Cond)
    ensures Signals(c, 0, c)
  {
    assert c.asleep - c.asleep == {};
    assert c.woken + {} == c.woken;
  }

  /** Any number of signals has an outcome. */
  lemma SignalsExist(c: Cond, k: nat) returns (c': Cond)
    ensures Signals(c, k, c')
    decreases k
  {
    hide Signals;
    if k == 0 {
      c' := c;
      NoSignals(c);
    } else if c.asleep == {} {
      c' := c;
      SignalsNobody(c, k);
    } else {
      var t :| t in c.asleep;
      c' := SignalsExist(c.Wake(t), k - 1);
      OneMoreSignal(c, t, k, c');
    }
  }

  lemma OneMoreSignal(c: Cond, t: nat, k: nat, c': Cond)
    requires t in c.asleep && k > 0 && Signals(c.Wake(t), k - 1, c')
    ensures Signals(c, k, c')
  {
    var rest := c.Wake(t);
    assert c.asleep == rest.asleep + {t} && |c.asleep| == |rest.asleep| + 1;
    var moved := rest.asleep - c'.asleep;
    assert c.asleep - c'.asleep == moved + {t};
    assert |moved + {t}| == |moved| + 1;
  }

  // --------------------------------------------------------------------- counting the waiting

  lemma SleepCounts(c: Cond, t: nat)
    requires c.Valid() && t !in c.asleep && t !in c.woken
    ensures c.Sleep(t).Valid() && c.Sleep(t).Count() == c.Count() + 1
  {
  }

  lemma ResumeCounts(c: Cond, t: nat)
    requires c.Valid() && t in c.woken
    ensures c.Resume(t).Valid() && c.Resume(t).Count() == c.Count() - 1 && t !in c.Resume(t).woken
  {
    assert c.woken == c.Resume(t).woken + {t};
  }

  lemma WakeCounts(c: Cond, t: nat)
    requires c.Valid() && t in c.asleep
    ensures c.Wake(t).Valid() && c.Wake(t).Count() == c.Count()
  {
    assert c.asleep == c.Wake(t).asleep + {t};
  }

  /** Signals move threads from one set to the other, at least one if one is sent and anybody
      sleeps. */
  lemma SignalsCount(c: Cond, k: nat, c': Cond)
    requires c.Valid() && Signals(c, k, c')
    ensures c'.Valid() && c'.Count() == c.Count() && c.woken <= c'.woken
    ensures k > 0 && c'.asleep != {} ==> c'.woken != {}
  {
    var moved := c.asleep - c'.asleep;
    assert c.asleep == c'.asleep + moved;
    assert |c.asleep| == |c'.asleep| + |moved|;
    assert |c.woken + moved| == |c.woken| + |moved|;
    if k > 0 && c'.asleep != {} {
      assert c.asleep != {} && |c.asleep| > 0;
      assert moved != {};
    }
  }
}
