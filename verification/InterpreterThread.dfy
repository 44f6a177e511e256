/** An interpreter thread of shared.cc and its parent: requests go to the thread as pairs of a tag
    and an expression, results come back.

    Evaluating an expression is an uninterpreted function of its text. */
module InterpreterThread {
  import opened CondVar

  type Text = seq<char>

  type Evaluator = Text -> Text

  const WORKER: nat := 0
  const PARENT: nat := 1

  datatype Parent = Free | AwaitsResult | Joining | Joined

  /** The two queues, and who waits at which condition. */
  datatype Sys = Sys(
    to: seq<Text>, from: seq<Text>, toCond: Cond, fromCond: Cond, exited: bool, parent: Parent)

  datatype Action =
    | Eval(expr: Text)
    | Exec(expr: Text)
    | Result          // `threadResult`, from its start or from its return from `wait`
    | Join
    | JoinReturns
    | Work            // the thread's loop, from its head or from its return from `wait`, for one request
    | WakeWorker      // spuriously
    | WakeParent

  /** The expressions a request queue still has to evaluate for the parent. */
  function Evals(to: seq<Text>): seq<Text> {
    if |to| < 2 then [] else (if to[0] == "e" then [to[1]] else []) + Evals(to[2..])
  }

  /** Complete pairs, and at most a quit at the end. */
  predicate Requests(to: seq<Text>, quit: bool) {
    if |to| < 2 then to == if quit then ["q"] else []
    else (to[0] == "e" || to[0] == "x") && Requests(to[2..], quit)
  }

  function Map(eval: Evaluator, xs: seq<Text>): (ys: seq<Text>)
    ensures |ys| == |xs|
  {
    if xs == [] then [] else [eval(xs[0])] + Map(eval, xs[1..])
  }

  function Requested(s: Sys, tag: Text, expr: Text, c: Cond): Sys {
    s.(to := s.to + [tag, expr], toCond := c)
  }

  /** Whether the tag asks for the result to be sent back. */
  predicate Evaluates(tag: Text) { tag != "" && tag[0] == 'e' }

  /** One request is served: two elements leave the queue, and a result may enter the other. */
  function Served(eval: Evaluator, s: Sys, c: Cond): Sys
    requires |s.to| >= 2
  {
    s.(to := s.to[2..], fromCond := c,
       from := if Evaluates(s.to[0]) then s.from + [eval(s.to[1])] else s.from)
  }

  /** Whether the tag makes the thread exit: it is empty, or begins with `q`. */
  predicate Quits(tag: Text) { tag == "" || tag[0] == 'q' }

  ghost predicate Next(eval: Evaluator, s: Sys, a: Action, s': Sys) {
    match a
    case Eval(expr) =>
      s.parent.Free? && Signals(s.toCond, 1, s'.toCond) && s' == Requested(s, "e", expr, s'.toCond)
    case Exec(expr) =>
      s.parent.Free? && Signals(s.toCond, 1, s'.toCond) && s' == Requested(s, "x", expr, s'.toCond)
    case Result =>
      && (s.parent.Free? || s.parent.AwaitsResult?) && PARENT !in s.fromCond.asleep
      && s' == (
        if s.from == [] then s.(fromCond := s.fromCond.Resume(PARENT).Sleep(PARENT), parent := AwaitsResult)
        else s.(from := s.from[1..], fromCond := s.fromCond.Resume(PARENT), parent := Free))
    case Join =>
      s.parent.Free? && Signals(s.toCond, 1, s'.toCond)
      && s' == s.(to := s.to + ["q"], toCond := s'.toCond, parent := Joining)
    case JoinReturns => s.parent.Joining? && s.exited && s' == s.(parent := Joined)
    case Work =>
      && !s.exited && WORKER !in s.toCond.asleep
      && var c := s.toCond.Resume(WORKER);
         if s.to == [] then s' == s.(toCond := c.Sleep(WORKER))
         else if Quits(s.to[0]) then s' == s.(toCond := c, exited := true)
         // The second element must be there, too.
         else |s.to| >= 2 && Signals(s.fromCond, 1, s'.fromCond)
              && s' == Served(eval, s.(toCond := c), s'.fromCond)
    case WakeWorker => WORKER in s.toCond.asleep && s' == s.(toCond := s.toCond.Wake(WORKER))
    case WakeParent => PARENT in s.fromCond.asleep && s' == s.(fromCond := s.fromCond.Wake(PARENT))
  }

  const START := Sys([], [], Cond({}, {}), Cond({}, {}), false, Free)

  ghost predicate Run(eval: Evaluator, states: seq<Sys>, acts: seq<Action>) {
    && |states| == |acts| + 1 && states[0] == START
    && (forall i | 0 <= i < |acts| :: Next(eval, states[i], acts[i], states[i + 1]))
  }

  // ------------------------------------------------------------ what the actions of a run amount to

  /** What the parent wants done with an expression. */
  datatype Request = ToEval(expr: Text) | ToExec(expr: Text)

  function Demands(a: Action): seq<Request> {
    match a
    case Eval(expr) => [ToEval(expr)]
    case Exec(expr) => [ToExec(expr)]
    case _ => []
  }

  function RequestsOf(acts: seq<Action>): seq<Request> {
    if acts == [] then [] else RequestsOf(acts[..|acts| - 1]) + Demands(acts[|acts| - 1])
  }

  /** The expressions the parent wants the values of. */
  function Asks(a: Action): seq<Text> { if a.Eval? then [a.expr] else [] }

  function Asked(acts: seq<Action>): seq<Text> {
    if acts == [] then [] else Asked(acts[..|acts| - 1]) + Asks(acts[|acts| - 1])
  }

  /** A call of `threadResult` that finds a result leaves with the front. */
  function Leaves(s: Sys, a: Action): seq<Text> { if a.Result? && s.from != [] then [s.from[0]] else [] }

  function Returned(states: seq<Sys>, acts: seq<Action>, i: nat): seq<Text>
    requires i <= |acts| && |states| == |acts| + 1
  {
    if i == 0 then []
    else
      Returned(states, acts, i - 1) + Leaves(states[i - 1], acts[i - 1])
  }

  /** A round of the thread's loop that finds a pair at the front serves it. */
  function Serves(s: Sys, a: Action): seq<Request> { if a.Work? && |s.to| >= 2 then [Front(s.to)] else [] }

  function ServedBy(states: seq<Sys>, acts: seq<Action>, i: nat): seq<Request>
    requires i <= |acts| && |states| == |acts| + 1
  {
    if i == 0 then []
    else
      ServedBy(states, acts, i - 1) + Serves(states[i - 1], acts[i - 1])
  }

  function Front(to: seq<Text>): Request
    requires |to| >= 2
  {
    if to[0] == "e" then ToEval(to[1]) else ToExec(to[1])
  }

  function Pending(to: seq<Text>): seq<Request> { if |to| < 2 then [] else [Front(to)] + Pending(to[2..]) }

  // -------------------------------------------------------------------------------- the invariant

  /** The request queue. */
  ghost predicate Content(s: Sys) {
    Requests(s.to, s.parent.Joining? || s.parent.Joined?) && (s.exited ==> s.to == ["q"])
  }

  /** At each condition only one thread waits, and only for an empty queue. */
  ghost predicate Waits(s: Sys) {
    && s.toCond.Valid() && s.toCond.asleep + s.toCond.woken <= {WORKER}
    && s.fromCond.Valid() && s.fromCond.asleep + s.fromCond.woken <= {PARENT}
    && (s.toCond.asleep != {} ==> s.to == [])
    && (s.fromCond.asleep != {} ==> s.from == [] && s.parent.AwaitsResult?)
  }

  ghost predicate Inv(s: Sys) { Content(s) && Waits(s) }

  lemma MapFirst(eval: Evaluator, xs: seq<Text>)
    requires xs != []
    ensures Map(eval, xs) == [eval(xs[0])] + Map(eval, xs[1..])
  {
  }

  lemma {:induction false} MapAppend(eval: Evaluator, xs: seq<Text>, ys: seq<Text>)
    ensures Map(eval, xs + ys) == Map(eval, xs) + Map(eval, ys)
  {
    if xs == [] {
      assert xs + ys == ys && Map(eval, xs) == [];
    } else {
      hide Map;
      MapAppend(eval, xs[1..], ys);
      MapFirst(eval, xs);
      MapFirst(eval, xs + ys);
      assert (xs + ys)[1..] == xs[1..] + ys && (xs + ys)[0] == xs[0];
    }
  }

  lemma MapOne(eval: Evaluator, x: Text)
    ensures Map(eval, [x]) == [eval(x)]
  {
  }

  /** A further request at the end of complete pairs. */
  lemma {:induction false} RequestAppend(to: seq<Text>, tag: Text, expr: Text)
    requires Requests(to, false) && (tag == "e" || tag == "x")
    ensures Requests(to + [tag, expr], false)
    ensures Evals(to + [tag, expr]) == Evals(to) + if tag == "e" then [expr] else []
  {
    if to == [] {
      assert [] + [tag, expr] == [tag, expr] && [tag, expr][2..] == [];
    } else {
      RequestAppend(to[2..], tag, expr);
      assert (to + [tag, expr])[2..] == to[2..] + [tag, expr];
    }
  }

  lemma {:induction false} PendingAppend(to: seq<Text>, tag: Text, expr: Text)
    requires Requests(to, false)
    ensures Pending(to + [tag, expr]) == Pending(to) + [if tag == "e" then ToEval(expr) else ToExec(expr)]
  {
    if to == [] {
      assert [] + [tag, expr] == [tag, expr] && [tag, expr][2..] == [];
    } else {
      PendingAppend(to[2..], tag, expr);
      assert (to + [tag, expr])[2..] == to[2..] + [tag, expr];
    }
  }

  lemma {:induction false} QuitAppend(to: seq<Text>)
    requires Requests(to, false)
    ensures Requests(to + ["q"], true) && Evals(to + ["q"]) == Evals(to) && Pending(to + ["q"]) == Pending(to)
  {
    if to == [] {
      assert [] + ["q"] == ["q"];
    } else {
      QuitAppend(to[2..]);
      assert (to + ["q"])[2..] == to[2..] + ["q"];
    }
  }

  /** A single sleeper is woken by one signal. */
  lemma SoleSleeperWakes(c: Cond, t: nat, c': Cond)
    requires c.Valid() && c.asleep + c.woken <= {t} && Signals(c, 1, c')
    ensures c'.Valid() && c'.asleep == {} && c'.woken <= {t}
  {
    SignalsCount(c, 1, c');
    if c.asleep != {} {
      assert c.asleep == {t};
      assert c.asleep == c'.asleep + (c.asleep - c'.asleep);
      assert |c'.asleep| == 0;
    }
  }

  lemma QuitIsNoPair()
    ensures !Requests(["q"], false)
  {
  }

  lemma RequestKeeps(s: Sys, tag: Text, expr: Text, s': Sys)
    requires Inv(s) && s.parent.Free? && (tag == "e" || tag == "x")
    requires Signals(s.toCond, 1, s'.toCond) && s' == Requested(s, tag, expr, s'.toCond)
    ensures Inv(s')
  {
    hide Signals, Requests, Evals;
    SoleSleeperWakes(s.toCond, WORKER, s'.toCond);
    RequestAppend(s.to, tag, expr);
    assert !s.exited by { QuitIsNoPair(); }
  }

  lemma JoinKeeps(eval: Evaluator, s: Sys, s': Sys)
    requires Inv(s) && Next(eval, s, Join, s')
    ensures Inv(s')
  {
    hide Signals, Requests, Evals;
    SoleSleeperWakes(s.toCond, WORKER, s'.toCond);
    QuitAppend(s.to);
    assert !s.exited by { QuitIsNoPair(); }
  }

  lemma WorkKeeps(eval: Evaluator, s: Sys, s': Sys)
    requires Inv(s) && Next(eval, s, Work, s')
    ensures Inv(s')
  {
    hide Signals;
    if s.to != [] && !Quits(s.to[0]) {
      SoleSleeperWakes(s.fromCond, PARENT, s'.fromCond);
    }
  }

  lemma NextKeeps(eval: Evaluator, s: Sys, a: Action, s': Sys)
    requires Inv(s) && Next(eval, s, a, s')
    ensures Inv(s')
  {
    hide Content, Waits, Signals;
    match a {
      case Eval(expr) => RequestKeeps(s, "e", expr, s');
      case Exec(expr) => RequestKeeps(s, "x", expr, s');
      case Join => JoinKeeps(eval, s, s');
      case Work => WorkKeeps(eval, s, s');
      case _ => QuietKeeps(eval, s, a, s');
    }
  }

  lemma QuietKeeps(eval: Evaluator, s: Sys, a: Action, s': Sys)
    requires Inv(s) && Next(eval, s, a, s') && (a.Result? || a.JoinReturns? || a.WakeWorker? || a.WakeParent?)
    ensures Inv(s')
  {
    hide Requests, Evals, Signals;
  }

  lemma {:induction false} RunKeeps(eval: Evaluator, states: seq<Sys>, acts: seq<Action>, i: nat)
    requires Run(eval, states, acts) && i < |states|
    ensures Inv(states[i])
  {
    hide Next;
    if i > 0 {
      RunKeeps(eval, states, acts, i - 1);
      NextKeeps(eval, states[i - 1], acts[i - 1], states[i]);
    }
  }

  // ------------------------------------------------------------------------------------ theorems

  /** Whenever the thread takes a request off its queue the expression is there, too: it never
      looks at the front of an empty queue. */
  lemma RequestsAreComplete(eval: Evaluator, states: seq<Sys>, acts: seq<Action>, i: nat)
    requires Run(eval, states, acts) && i < |states|
    ensures var to := states[i].to; to != [] && !Quits(to[0]) ==> |to| >= 2 && (to[0] == "e" || to[0] == "x")
  {
    RunKeeps(eval, states, acts, i);
  }

  /** What a step adds to the requests, and what it takes from them. */
  lemma RequestStep(eval: Evaluator, s: Sys, a: Action, s': Sys)
    requires Inv(s) && Next(eval, s, a, s')
    ensures Pending(s.to) + Demands(a) == Serves(s, a) + Pending(s'.to)
  {
    hide Signals;
    match a {
      case Eval(expr) => PendingAppend(s.to, "e", expr);
      case Exec(expr) => PendingAppend(s.to, "x", expr);
      case Join => QuitAppend(s.to);
      case _ =>
    }
  }

  lemma RequestsSplit(acts: seq<Action>, i: nat)
    requires 0 < i <= |acts|
    ensures RequestsOf(acts[..i]) == RequestsOf(acts[..i - 1]) + Demands(acts[i - 1])
    ensures Asked(acts[..i]) == Asked(acts[..i - 1]) + Asks(acts[i - 1])
  {
    assert acts[..i][..i - 1] == acts[..i - 1];
  }

  /** The thread serves all requests, evaluations and executions alike, in the order of the calls of
      `threadEval` and `threadExec`: at every moment these are those it has served and then those in
      its queue. */
  lemma {:induction false} RequestsInOrder(eval: Evaluator, states: seq<Sys>, acts: seq<Action>, i: nat)
    requires Run(eval, states, acts) && i < |states|
    ensures RequestsOf(acts[..i]) == ServedBy(states, acts, i) + Pending(states[i].to)
  {
    hide Next, RequestsOf, Pending, Inv;
    if i == 0 {
      assert RequestsOf([]) == [] && Pending([]) == [] by { NoRequests(); }
    } else {
      RequestsInOrder(eval, states, acts, i - 1);
      RunKeeps(eval, states, acts, i - 1);
      var s, a, s' := states[i - 1], acts[i - 1], states[i];
      RequestStep(eval, s, a, s');
      RequestsSplit(acts, i);
      MovesOn(ServedBy(states, acts, i - 1), Pending(s.to), Demands(a), Serves(s, a), Pending(s'.to));
    }
  }

  /** What moves from the front of one sequence to the end of another while it grows behind. */
  lemma MovesOn<A>(a: seq<A>, b: seq<A>, c: seq<A>, x: seq<A>, b': seq<A>)
    requires b + c == x + b'
    ensures a + b + c == a + x + b'
  {
    assert a + b + c == a + (b + c) && a + (x + b') == a + x + b';
  }

  lemma NoRequests()
    ensures RequestsOf([]) == [] && Pending([]) == [] && Asked([]) == [] && Evals([]) == []
  {
  }

  /** What a step adds to the evaluations, and what it takes from the results. */
  lemma ResultStep(eval: Evaluator, s: Sys, a: Action, s': Sys)
    requires Inv(s) && Next(eval, s, a, s')
    ensures s.from + Map(eval, Evals(s.to)) + Map(eval, Asks(a)) == Leaves(s, a) + s'.from + Map(eval, Evals(s'.to))
  {
    hide Signals, Map, Evals, Requests;
    MapNothing(eval);
    match a {
      case Eval(expr) =>
        EvalStep(eval, s, expr);
        Regroup(s.from, Map(eval, Evals(s.to)), Map(eval, [expr]));
      case Exec(expr) =>
        RequestAppend(s.to, "x", expr);
        assert Evals(s.to) + [] == Evals(s.to);
      case Join => QuitAppend(s.to);
      case Work => WorkStep(eval, s, s');
      case Result => if s.from != [] { assert s.from == [s.from[0]] + s'.from; }
      case _ =>
    }
  }

  lemma MapNothing(eval: Evaluator)
    ensures Map(eval, []) == []
  {
  }

  lemma EvalStep(eval: Evaluator, s: Sys, expr: Text)
    requires Inv(s) && s.parent.Free?
    ensures Map(eval, Evals(s.to + ["e", expr])) == Map(eval, Evals(s.to)) + Map(eval, [expr])
  {
    hide Map, Evals;
    RequestAppend(s.to, "e", expr);
    MapAppend(eval, Evals(s.to), [expr]);
  }

  /** Serving a request turns its pending evaluation into a queued result. */
  lemma WorkStep(eval: Evaluator, s: Sys, s': Sys)
    requires Inv(s) && Next(eval, s, Work, s')
    ensures s.from + Map(eval, Evals(s.to)) == s'.from + Map(eval, Evals(s'.to))
  {
    hide Signals, Map;
    if |s.to| >= 2 && s.to[0] == "e" {
      MapAppend(eval, [s.to[1]], Evals(s.to[2..]));
      MapOne(eval, s.to[1]);
    } else if |s.to| >= 2 {
      assert Evals(s.to) == Evals(s.to[2..]);
    }
  }

  /** The results returned, then the results queued, then the evaluations pending are, in this
      order, the evaluations of everything `threadEval` was called for. */
  lemma {:induction false} ResultsInOrder(eval: Evaluator, states: seq<Sys>, acts: seq<Action>, i: nat)
    requires Run(eval, states, acts) && i < |states|
    ensures Returned(states, acts, i) + states[i].from + Map(eval, Evals(states[i].to)) == Map(eval, Asked(acts[..i]))
  {
    hide Next, Map, Evals, Asked, Inv;
    if i == 0 {
      NoRequests();
      MapNothing(eval);
    } else {
      ResultsInOrder(eval, states, acts, i - 1);
      RunKeeps(eval, states, acts, i - 1);
      var s, a, s' := states[i - 1], acts[i - 1], states[i];
      ResultStep(eval, s, a, s');
      RequestsSplit(acts, i);
      MapAppend(eval, Asked(acts[..i - 1]), Asks(a));
      Regroup(Returned(states, acts, i - 1), s.from, Map(eval, Evals(s.to)));
      Regroup(Leaves(s, a), s'.from, Map(eval, Evals(s'.to)));
      MovesOn(Returned(states, acts, i - 1), s.from + Map(eval, Evals(s.to)), Map(eval, Asks(a)),
              Leaves(s, a), s'.from + Map(eval, Evals(s'.to)));
      Regroup(Returned(states, acts, i), s'.from, Map(eval, Evals(s'.to)));
    }
  }

  lemma Regroup<A>(a: seq<A>, b: seq<A>, c: seq<A>)
    ensures a + b + c == a + (b + c)
  {
  }

  /** The n-th result the parent gets is the value of the n-th expression it sent to be evaluated. */
  lemma ResultIsItsOwn(eval: Evaluator, states: seq<Sys>, acts: seq<Action>, i: nat, n: nat)
    requires Run(eval, states, acts) && i < |states| && n < |Returned(states, acts, i)|
    ensures n < |Asked(acts[..i])| && Returned(states, acts, i)[n] == eval(Asked(acts[..i])[n])
  {
    hide Asked, Returned, Evals;
    ResultsInOrder(eval, states, acts, i);
    assert Map(eval, Asked(acts[..i]))[n] == Returned(states, acts, i)[n];
    MapAt(eval, Asked(acts[..i]), n);
  }

  lemma {:induction false} MapAt(eval: Evaluator, xs: seq<Text>, n: nat)
    requires n < |xs|
    ensures Map(eval, xs)[n] == eval(xs[n])
  {
    if n > 0 {
      MapAt(eval, xs[1..], n - 1);
    }
  }

  /** Neither side sleeps while there is something in its queue, and a thread that has exited, which
      joining waits for, has served every request: all the results are there. */
  lemma NothingForgotten(eval: Evaluator, states: seq<Sys>, acts: seq<Action>, i: nat)
    requires Run(eval, states, acts) && i < |states|
    ensures var s := states[i];
      && (s.toCond.asleep != {} ==> s.to == [])
      && (s.fromCond.asleep != {} ==> s.from == [])
      && (s.exited || s.parent.Joined? ==>
            && ServedBy(states, acts, i) == RequestsOf(acts[..i])
            && Returned(states, acts, i) + s.from == Map(eval, Asked(acts[..i])))
  {
    hide Next, ServedBy, RequestsOf, Returned, Asked;
    RunKeeps(eval, states, acts, i);
    JoinedExited(eval, states, acts, i);
    RequestsInOrder(eval, states, acts, i);
    ResultsInOrder(eval, states, acts, i);
    if states[i].exited {
      assert Evals(states[i].to) == [] && Pending(states[i].to) == [];
    }
  }

  lemma {:induction false} JoinedExited(eval: Evaluator, states: seq<Sys>, acts: seq<Action>, i: nat)
    requires Run(eval, states, acts) && i < |states|
    ensures states[i].parent.Joined? ==> states[i].exited
  {
    if i > 0 {
      JoinedExited(eval, states, acts, i - 1);
      assert Next(eval, states[i - 1], acts[i - 1], states[i]);
    }
  }

  // ------------------------------------------------------------------------------------ the class

  /** A stretch of the thread's loop: one request after the other, without a `wait`. */
  ghost predicate Stretch(eval: Evaluator, states: seq<Sys>) {
    states != [] && forall i | 0 <= i < |states| - 1 :: Next(eval, states[i], Work, states[i + 1])
  }

  lemma StretchOn(eval: Evaluator, states: seq<Sys>, s: Sys)
    requires Stretch(eval, states) && Next(eval, states[|states| - 1], Work, s)
    ensures Stretch(eval, states + [s])
  {
    hide Next;
  }

  /** The fields of `ThreadState`; who waits and what has happened are ghosts.  Each method is a step
      of the protocol, signals included. */
  class ThreadState {
    var to: seq<Text>
    var from: seq<Text>
    ghost var toCond: Cond
    ghost var fromCond: Cond
    ghost var exited: bool
    ghost var parent: Parent

    ghost function View(): Sys
      reads this
    {
      Sys(to, from, toCond, fromCond, exited, parent)
    }

    constructor ()
      ensures View() == START
    {
      to, from, toCond, fromCond := [], [], Cond({}, {}), Cond({}, {});
      exited, parent := false, Free;
    }

    /** `to_cond.signal()`. */
    ghost method SignalWorker()
      modifies this`toCond
      ensures Signals(old(toCond), 1, toCond)
    {
      toCond := SignalsExist(toCond, 1);
    }

    /** `from_cond.signal()`. */
    ghost method SignalParent()
      modifies this`fromCond
      ensures Signals(old(fromCond), 1, fromCond)
    {
      fromCond := SignalsExist(fromCond, 1);
    }

    /** `threadEval`. */
    method ThreadEval(ghost eval: Evaluator, expr: Text)
      requires parent.Free?
      modifies this
      ensures Next(eval, old(View()), Eval(expr), View())
      ensures to == old(to) + ["e", expr] && from == old(from)
    {
      to := to + ["e"];
      to := to + [expr];
      assert to == old(to) + ["e", expr];
      SignalWorker();
    }

    /** `threadExec`. */
    method ThreadExec(ghost eval: Evaluator, expr: Text)
      requires parent.Free?
      modifies this
      ensures Next(eval, old(View()), Exec(expr), View())
      ensures to == old(to) + ["x", expr] && from == old(from)
    {
      to := to + ["x"];
      to := to + [expr];
      assert to == old(to) + ["x", expr];
      SignalWorker();
    }

    /** `joinInterpreterThread` up to the point where it waits for the thread. */
    method Quit(ghost eval: Evaluator)
      requires parent.Free?
      modifies this
      ensures Next(eval, old(View()), Join, View())
    {
      to := to + ["q"];
      parent := Joining;
      SignalWorker();
    }

    /** `joinInterpreterThread` once the thread has exited. */
    ghost method Joins(eval: Evaluator)
      requires parent.Joining? && exited
      modifies this
      ensures Next(eval, old(View()), JoinReturns, View())
    {
      parent := Joined;
    }

    /** `threadResult` from its start or its return from `wait`; nothing when it has to wait. */
    method ThreadResult(ghost eval: Evaluator) returns (r: seq<Text>)
      requires (parent.Free? || parent.AwaitsResult?) && PARENT !in fromCond.asleep
      modifies this
      ensures Next(eval, old(View()), Result, View())
      ensures old(from) == r + from && (r == [] <==> old(from) == []) && |r| <= 1
    {
      fromCond := fromCond.Resume(PARENT);
      if from == [] {
        fromCond := fromCond.Sleep(PARENT);
        parent := AwaitsResult;
        return [];
      }
      r := [from[0]];
      from := from[1..];
      parent := Free;
    }

    /** The loop of `interpreter_thread` from one `wait` to the next, or to its exit: it serves all
        the requests that are queued.  `states` is what it goes through. */
    method Serve(eval: Evaluator, ghost quit: bool) returns (exits: bool, ghost states: seq<Sys>)
      requires Requests(to, quit) && !exited && WORKER !in toCond.asleep
      modifies this
      ensures exits <==> quit
      ensures to == if quit then ["q"] else []
      ensures from == old(from) + Map(eval, old(Evals(to)))
      ensures Stretch(eval, states) && states[0] == old(View()) && states[|states| - 1] == View()
    {
      states := [View()];
      while true
        invariant Requests(to, quit) && !exited && WORKER !in toCond.asleep
        invariant from + Map(eval, Evals(to)) == old(from) + Map(eval, old(Evals(to)))
        invariant Stretch(eval, states) && states[0] == old(View()) && states[|states| - 1] == View()
        decreases |to|
      {
        hide Map, Next, Stretch;
        if to == [] {
          Sleeps(eval);
          StretchOn(eval, states, View());
          states := states + [View()];
          exits := false;
          break;
        }
        var tag := to[0];
        if Quits(tag) {
          Exits(eval);
          StretchOn(eval, states, View());
          states := states + [View()];
          exits := true;
          break;
        }
        ServeOne(eval, tag, quit);
        StretchOn(eval, states, View());
        states := states + [View()];
      }
      assert from + [] == from;
    }

    ghost method Sleeps(eval: Evaluator)
      requires !exited && WORKER !in toCond.asleep && to == []
      modifies this`toCond
      ensures Next(eval, old(View()), Work, View())
    {
      toCond := toCond.Resume(WORKER).Sleep(WORKER);
    }

    ghost method Exits(eval: Evaluator)
      requires !exited && WORKER !in toCond.asleep && to != [] && Quits(to[0])
      modifies this`toCond, this`exited
      ensures Next(eval, old(View()), Work, View())
    {
      toCond := toCond.Resume(WORKER);
      exited := true;
    }

    /** Takes a tag and its expression off the queue. */
    method ServeOne(eval: Evaluator, tag: Text, ghost quit: bool)
      requires Requests(to, quit) && to != [] && tag == to[0] && !Quits(tag)
      requires !exited && WORKER !in toCond.asleep
      modifies this
      ensures to == old(to)[2..] && Requests(to, quit) && !exited && WORKER !in toCond.asleep
      ensures from + Map(eval, Evals(to)) == old(from) + Map(eval, old(Evals(to)))
      ensures Next(eval, old(View()), Work, View())
    {
      hide Map, Signals;
      ghost var s, before := View(), to;
      toCond := toCond.Resume(WORKER);
      to := to[1..];
      var expr := to[0];
      var val := eval(expr);
      to := to[1..];
      assert to == before[2..];
      if Evaluates(tag) {
        from := from + [val];
        EvalServed(eval, old(from), expr, to);
      } else {
        assert Evals(before) == Evals(to);
      }
      hide Evals, Requests;
      SignalParent();
      ServedIsStep(eval, s, View());
    }
  }

  lemma ServedIsStep(eval: Evaluator, s: Sys, s': Sys)
    requires !s.exited && WORKER !in s.toCond.asleep && |s.to| >= 2 && !Quits(s.to[0])
    requires Signals(s.fromCond, 1, s'.fromCond)
    requires s' == Served(eval, s.(toCond := s.toCond.Resume(WORKER)), s'.fromCond)
    ensures Next(eval, s, Work, s')
  {
    hide Signals;
  }

  lemma EvalServed(eval: Evaluator, from: seq<Text>, expr: Text, to: seq<Text>)
    ensures (from + [eval(expr)]) + Map(eval, Evals(to)) == from + Map(eval, [expr] + Evals(to))
  {
    hide Map;
    MapAppend(eval, [expr], Evals(to));
    MapOne(eval, expr);
    assert (from + [eval(expr)]) + Map(eval, Evals(to)) == from + ([eval(expr)] + Map(eval, Evals(to)));
  }
}
