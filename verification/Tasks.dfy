/** The task system of threadtasks.lib: interpreters submit tasks to one shared channel, workers
    execute them, and each result goes to the channel of the interpreter that submitted the task.

    Interpreter 0 is the main one, the others are the workers; a task may submit tasks itself.
    A channel is first in, first out (`Channel.Fifo`); calling a procedure is an uninterpreted
    function of its name and arguments. */
module Tasks {
  import opened Options

  type Func = seq<char>

  /** What travels on the task queue. */
  datatype Job<A> = Job(func: Func, args: A, source: nat, id: nat)

  /** What travels back. */
  datatype Reply<R> = Reply(id: int, result: R)

  /** An entry of `localTasks`. */
  datatype Task<A, R> = Task(func: Func, args: A, result: Option<R>) {
    predicate Done() { result.Some? }
  }

  datatype Slot<A> = Idle | Busy(job: Job<A>)

  /** `tasks[p]` is `localTasks` of interpreter `p`, whose `taskID` is its length; task ids count
      from 1. `slots[w]` is what interpreter `w` executes. */
  datatype Sys<A, R> = Sys(
    queue: seq<Job<A>>, slots: seq<Slot<A>>, replies: seq<seq<Reply<R>>>, tasks: seq<seq<Task<A, R>>>)

  datatype Action<A> =
    | Run(p: nat, func: Func, args: A)
    | Take(w: nat)
    | Finish(w: nat)
    | Poll(p: nat)

  type Caller<!A, R> = (Func, A) -> R

  function Submitted<A, R>(s: Sys<A, R>, p: nat, func: Func, args: A): Sys<A, R>
    requires p < |s.tasks|
  {
    s.(queue := s.queue + [Job(func, args, p, |s.tasks[p]| + 1)],
       tasks := s.tasks[p := s.tasks[p] + [Task(func, args, None)]])
  }

  function Started<A, R>(s: Sys<A, R>, w: nat): Sys<A, R>
    requires w < |s.slots| && s.queue != []
  {
    s.(queue := s.queue[1..], slots := s.slots[w := Busy(s.queue[0])])
  }

  function Finished<A, R>(call: Caller<A, R>, s: Sys<A, R>, w: nat): Sys<A, R>
    requires w < |s.slots| && s.slots[w].Busy? && s.slots[w].job.source < |s.replies|
  {
    var job := s.slots[w].job;
    s.(slots := s.slots[w := Idle],
       replies := s.replies[job.source := s.replies[job.source] + [Reply(job.id, call(job.func, job.args))]])
  }

  /** `pollIncoming`: a message without a task is left to `handleInit`. */
  function Recorded<A, R>(tasks: seq<Task<A, R>>, reply: Reply<R>): seq<Task<A, R>>
    requires reply.id <= |tasks|
  {
    if reply.id <= 0 then tasks
    else tasks[reply.id - 1 := tasks[reply.id - 1].(result := Some(reply.result))]
  }

  function Polled<A, R>(s: Sys<A, R>, p: nat): Sys<A, R>
    requires p < |s.tasks| && p < |s.replies| && s.replies[p] != []
    requires s.replies[p][0].id <= |s.tasks[p]|
  {
    s.(replies := s.replies[p := s.replies[p][1..]],
       tasks := s.tasks[p := Recorded(s.tasks[p], s.replies[p][0])])
  }

  /** An interpreter that is running a program: the main one, or a worker inside a task. */
  predicate Active<A, R>(s: Sys<A, R>, p: nat) {
    p < |s.tasks| && p < |s.slots| && (p == 0 || s.slots[p].Busy?)
  }

  ghost predicate Next<A, R>(call: Caller<A, R>, s: Sys<A, R>, a: Action<A>, s': Sys<A, R>) {
    match a
    case Run(p, func, args) => Active(s, p) && s' == Submitted(s, p, func, args)
    case Take(w) => 0 < w < |s.slots| && s.slots[w].Idle? && s.queue != [] && s' == Started(s, w)
    case Finish(w) =>
      w < |s.slots| && s.slots[w].Busy? && s.slots[w].job.source < |s.replies| && s' == Finished(call, s, w)
    case Poll(p) =>
      && Active(s, p) && p < |s.replies| && s.replies[p] != []
      && s.replies[p][0].id <= |s.tasks[p]| && s' == Polled(s, p)
  }

  ghost predicate Init<A, R>(s: Sys<A, R>) {
    && s.queue == [] && |s.slots| == |s.replies| == |s.tasks| > 0
    && (forall w | 0 <= w < |s.slots| :: s.slots[w].Idle? && s.replies[w] == [] && s.tasks[w] == [])
  }

  ghost predicate Runs<A, R>(call: Caller<A, R>, states: seq<Sys<A, R>>, acts: seq<Action<A>>) {
    && |states| == |acts| + 1 && Init(states[0])
    && (forall i | 0 <= i < |acts| :: Next(call, states[i], acts[i], states[i + 1]))
  }

  // -------------------------------------------------------------------------------- the invariant

  /** The message that stands for task `id` of interpreter `p`, and its answer. */
  function JobOf<A, R>(s: Sys<A, R>, p: nat, id: nat): Job<A>
    requires p < |s.tasks| && 0 < id <= |s.tasks[p]|
  {
    Job(s.tasks[p][id - 1].func, s.tasks[p][id - 1].args, p, id)
  }

  function ResultOf<A, R>(call: Caller<A, R>, s: Sys<A, R>, p: nat, id: nat): R
    requires p < |s.tasks| && 0 < id <= |s.tasks[p]|
  {
    call(s.tasks[p][id - 1].func, s.tasks[p][id - 1].args)
  }

  predicate JobOk<A(==), R>(s: Sys<A, R>, j: Job<A>) {
    j.source < |s.tasks| && 0 < j.id <= |s.tasks[j.source]| && j == JobOf(s, j.source, j.id)
  }

  predicate ReplyOk<A, R(==)>(call: Caller<A, R>, s: Sys<A, R>, p: nat, r: Reply<R>) {
    p < |s.tasks| && 0 < r.id <= |s.tasks[p]| && r.result == ResultOf(call, s, p, r.id)
  }

  predicate TaskOk<A, R(==)>(call: Caller<A, R>, t: Task<A, R>) { t.Done() ==> t.result.value == call(t.func, t.args) }

  /** In how many places task `id` of interpreter `p` is: in the queue, in the hands of a worker, on
      its way back, or recorded as done. */
  ghost function Places<A, R>(call: Caller<A, R>, s: Sys<A, R>, p: nat, id: nat): nat
    requires p < |s.tasks| && p < |s.replies| && 0 < id <= |s.tasks[p]|
  {
    multiset(s.queue)[JobOf(s, p, id)]
    + multiset(s.slots)[Busy(JobOf(s, p, id))]
    + multiset(s.replies[p])[Reply(id, ResultOf(call, s, p, id))]
    + (if s.tasks[p][id - 1].Done() then 1 else 0)
  }

  ghost predicate Messages<A, R>(call: Caller<A, R>, s: Sys<A, R>) {
    && (forall j | j in s.queue :: JobOk(s, j))
    && (forall w | 0 <= w < |s.slots| && s.slots[w].Busy? :: JobOk(s, s.slots[w].job))
    && (forall p, r | 0 <= p < |s.replies| && r in s.replies[p] :: ReplyOk(call, s, p, r))
  }

  ghost predicate Conserved<A, R>(call: Caller<A, R>, s: Sys<A, R>)
    requires |s.replies| == |s.tasks|
  {
    forall p, id | 0 <= p < |s.tasks| && 0 < id <= |s.tasks[p]| :: Places(call, s, p, id) == 1
  }

  ghost predicate Results<A, R>(call: Caller<A, R>, s: Sys<A, R>) {
    forall p, k | 0 <= p < |s.tasks| && 0 <= k < |s.tasks[p]| :: TaskOk(call, s.tasks[p][k])
  }

  ghost predicate Inv<A, R>(call: Caller<A, R>, s: Sys<A, R>) {
    && |s.slots| == |s.replies| == |s.tasks| > 0
    && Messages(call, s) && Conserved(call, s) && Results(call, s)
  }

  /** The tasks of the interpreters keep their functions and arguments. */
  ghost predicate SameTasks<A, R>(s: Sys<A, R>, s': Sys<A, R>) {
    && |s'.tasks| == |s.tasks|
    && forall p, k | 0 <= p < |s.tasks| && 0 <= k < |s.tasks[p]| ::
         |s'.tasks[p]| >= |s.tasks[p]|
         && s'.tasks[p][k].func == s.tasks[p][k].func && s'.tasks[p][k].args == s.tasks[p][k].args
  }

  lemma JobStays<A, R>(s: Sys<A, R>, s': Sys<A, R>, j: Job<A>)
    requires SameTasks(s, s') && JobOk(s, j)
    ensures JobOk(s', j)
  {
    assert s.tasks[j.source][j.id - 1].func == s'.tasks[j.source][j.id - 1].func;
  }

  lemma ReplyStays<A, R>(call: Caller<A, R>, s: Sys<A, R>, s': Sys<A, R>, p: nat, r: Reply<R>)
    requires SameTasks(s, s') && ReplyOk(call, s, p, r)
    ensures ReplyOk(call, s', p, r)
  {
    assert s.tasks[p][r.id - 1].func == s'.tasks[p][r.id - 1].func;
  }

  // ------------------------------------------------------------------------- submitting a task

  lemma SubmittedSame<A, R>(s: Sys<A, R>, p: nat, func: Func, args: A)
    requires p < |s.tasks|
    ensures SameTasks(s, Submitted(s, p, func, args))
  {
  }

  lemma NoSuchJob<A, R>(call: Caller<A, R>, s: Sys<A, R>, p: nat, j: Job<A>, r: Reply<R>)
    requires Messages(call, s) && p < |s.tasks| && p < |s.replies|
    requires j.source == p && j.id > |s.tasks[p]| && r.id > |s.tasks[p]|
    ensures j !in s.queue && Busy(j) !in s.slots && r !in s.replies[p]
  {
    forall w | 0 <= w < |s.slots| ensures s.slots[w] != Busy(j) {
      assert s.slots[w].Busy? ==> JobOk(s, s.slots[w].job);
    }
    forall x | x in s.replies[p] ensures x != r {
      assert ReplyOk(call, s, p, x);
    }
    forall x | x in s.queue ensures x != j {
      assert JobOk(s, x);
    }
  }

  lemma SubmitMessages<A, R>(call: Caller<A, R>, s: Sys<A, R>, p: nat, func: Func, args: A)
    requires Inv(call, s) && p < |s.tasks|
    ensures Messages(call, Submitted(s, p, func, args))
  {
    hide Conserved, Results, SameTasks;
    var s' := Submitted(s, p, func, args);
    SubmittedSame(s, p, func, args);
    forall j | j in s'.queue ensures JobOk(s', j) {
      if j in s.queue {
        JobStays(s, s', j);
      }
    }
    forall w | 0 <= w < |s'.slots| && s'.slots[w].Busy? ensures JobOk(s', s'.slots[w].job) {
      JobStays(s, s', s.slots[w].job);
    }
    forall q, r | 0 <= q < |s'.replies| && r in s'.replies[q] ensures ReplyOk(call, s', q, r) {
      ReplyStays(call, s, s', q, r);
    }
  }

  lemma SubmitPlaces<A, R>(call: Caller<A, R>, s: Sys<A, R>, p: nat, func: Func, args: A, q: nat, id: nat)
    requires Inv(call, s) && p < |s.tasks|
    requires var s' := Submitted(s, p, func, args); q < |s'.tasks| && 0 < id <= |s'.tasks[q]|
    ensures Places(call, Submitted(s, p, func, args), q, id) == 1
  {
    hide Messages;
    var s' := Submitted(s, p, func, args);
    var job := Job(func, args, p, |s.tasks[p]| + 1);
    assert multiset(s'.queue) == multiset(s.queue) + multiset{job};
    if q == p && id == |s.tasks[p]| + 1 {
      NoSuchJob(call, s, p, job, Reply(id, call(func, args)));
      assert JobOf(s', q, id) == job;
    } else {
      assert JobOf(s', q, id) == JobOf(s, q, id) != job;
      assert Places(call, s, q, id) == 1;
    }
  }

  // ------------------------------------------------------------------------------ the other steps

  lemma TakeKeeps<A, R>(call: Caller<A, R>, s: Sys<A, R>, w: nat)
    requires Inv(call, s) && w < |s.slots| && s.slots[w].Idle? && s.queue != []
    ensures Inv(call, Started(s, w))
  {
    hide Messages, Places;
    TakeMessages(call, s, w);
    var s' := Started(s, w);
    forall p, id | 0 <= p < |s'.tasks| && 0 < id <= |s'.tasks[p]| ensures Places(call, s', p, id) == 1 {
      TakePlaces(call, s, w, p, id);
    }
  }

  lemma TakePlaces<A, R>(call: Caller<A, R>, s: Sys<A, R>, w: nat, p: nat, id: nat)
    requires Inv(call, s) && w < |s.slots| && s.slots[w].Idle? && s.queue != []
    requires p < |s.tasks| && 0 < id <= |s.tasks[p]|
    ensures Places(call, Started(s, w), p, id) == 1
  {
    hide Messages, Results;
    var s' := Started(s, w);
    assert s.queue == [s.queue[0]] + s.queue[1..];
    assert multiset(s.queue) == multiset{s.queue[0]} + multiset(s'.queue);
    assert multiset(s'.slots) == multiset(s.slots) - multiset{Idle} + multiset{Busy(s.queue[0])};
    assert Places(call, s, p, id) == 1;
    assert JobOf(s', p, id) == JobOf(s, p, id);
  }

  lemma TakeMessages<A, R>(call: Caller<A, R>, s: Sys<A, R>, w: nat)
    requires Messages(call, s) && w < |s.slots| && s.queue != []
    ensures Messages(call, Started(s, w))
  {
    var s' := Started(s, w);
    forall j | j in s'.queue ensures JobOk(s', j) {
      assert JobOk(s, j);
    }
    forall v | 0 <= v < |s'.slots| && s'.slots[v].Busy? ensures JobOk(s', s'.slots[v].job) {
      assert s.queue[0] in s.queue && JobOk(s, s.queue[0]);
      assert v != w ==> JobOk(s, s.slots[v].job);
    }
    forall p, r | 0 <= p < |s'.replies| && r in s'.replies[p] ensures ReplyOk(call, s', p, r) {
      assert ReplyOk(call, s, p, r);
    }
  }

  lemma FinishMessages<A, R>(call: Caller<A, R>, s: Sys<A, R>, w: nat)
    requires Inv(call, s) && w < |s.slots| && s.slots[w].Busy? && s.slots[w].job.source < |s.replies|
    ensures Messages(call, Finished(call, s, w))
  {
    hide Conserved, Results, Places;
    var s', job := Finished(call, s, w), s.slots[w].job;
    assert JobOk(s, job);
    forall j | j in s'.queue ensures JobOk(s', j) {
      assert JobOk(s, j);
    }
    forall v | 0 <= v < |s'.slots| && s'.slots[v].Busy? ensures JobOk(s', s'.slots[v].job) {
      assert JobOk(s, s.slots[v].job);
    }
    forall p, r | 0 <= p < |s'.replies| && r in s'.replies[p] ensures ReplyOk(call, s', p, r) {
      if r in s.replies[p] {
        assert ReplyOk(call, s, p, r);
      } else {
        assert p == job.source && r == Reply(job.id, call(job.func, job.args));
      }
    }
  }

  lemma FinishPlaces<A, R>(call: Caller<A, R>, s: Sys<A, R>, w: nat, p: nat, id: nat)
    requires Inv(call, s) && w < |s.slots| && s.slots[w].Busy? && s.slots[w].job.source < |s.replies|
    requires p < |s.tasks| && 0 < id <= |s.tasks[p]|
    ensures Places(call, Finished(call, s, w), p, id) == 1
  {
    hide Results;
    var s', job := Finished(call, s, w), s.slots[w].job;
    var r := Reply(job.id, call(job.func, job.args));
    assert JobOk(s, job);
    assert Places(call, s, p, id) == 1;
    assert multiset(s'.slots) == multiset(s.slots) - multiset{Busy(job)} + multiset{Idle};
    assert multiset(s'.replies[job.source]) == multiset(s.replies[job.source]) + multiset{r};
    if p == job.source && id == job.id {
      assert JobOf(s, p, id) == job;
      assert Busy(job) in multiset(s.slots);
    } else {
      assert JobOf(s, p, id) != job;
    }
  }

  lemma PollSame<A, R>(s: Sys<A, R>, p: nat)
    requires p < |s.tasks| && p < |s.replies| && s.replies[p] != []
    requires 0 < s.replies[p][0].id <= |s.tasks[p]|
    ensures SameTasks(s, Polled(s, p)) && SameTasks(Polled(s, p), s)
  {
  }

  lemma PollMessages<A, R>(call: Caller<A, R>, s: Sys<A, R>, p: nat)
    requires Inv(call, s) && p < |s.tasks| && s.replies[p] != []
    requires 0 < s.replies[p][0].id <= |s.tasks[p]|
    ensures Messages(call, Polled(s, p)) && Results(call, Polled(s, p))
  {
    hide Conserved, Places, SameTasks;
    var s', r0 := Polled(s, p), s.replies[p][0];
    PollSame(s, p);
    assert ReplyOk(call, s, p, r0);
    forall j | j in s'.queue ensures JobOk(s', j) {
      JobStays(s, s', j);
    }
    forall v | 0 <= v < |s'.slots| && s'.slots[v].Busy? ensures JobOk(s', s'.slots[v].job) {
      JobStays(s, s', s.slots[v].job);
    }
    forall q, r | 0 <= q < |s'.replies| && r in s'.replies[q] ensures ReplyOk(call, s', q, r) {
      assert r in s.replies[q];
      ReplyStays(call, s, s', q, r);
    }
  }

  lemma PollPlaces<A, R>(call: Caller<A, R>, s: Sys<A, R>, p: nat, q: nat, id: nat)
    requires Inv(call, s) && p < |s.tasks| && s.replies[p] != []
    requires 0 < s.replies[p][0].id <= |s.tasks[p]|
    requires q < |s.tasks| && 0 < id <= |s.tasks[q]|
    ensures Places(call, Polled(s, p), q, id) == 1
  {
    hide Results;
    var s', r0 := Polled(s, p), s.replies[p][0];
    assert r0 in s.replies[p] && ReplyOk(call, s, p, r0);
    assert Places(call, s, q, id) == 1;
    assert s.replies[p] == [r0] + s.replies[p][1..];
    assert multiset(s.replies[p]) == multiset{r0} + multiset(s'.replies[p]);
    assert JobOf(s', q, id) == JobOf(s, q, id) && ResultOf(call, s', q, id) == ResultOf(call, s, q, id);
    if q == p && id == r0.id {
      assert r0 == Reply(id, ResultOf(call, s, q, id));
    }
  }

  lemma FrontReply<A, R>(call: Caller<A, R>, s: Sys<A, R>, p: nat)
    requires Messages(call, s) && p < |s.replies| && s.replies[p] != []
    ensures ReplyOk(call, s, p, s.replies[p][0])
  {
    assert s.replies[p][0] in s.replies[p];
  }

  lemma NextKeeps<A, R>(call: Caller<A, R>, s: Sys<A, R>, a: Action<A>, s': Sys<A, R>)
    requires Inv(call, s) && Next(call, s, a, s')
    ensures Inv(call, s')
  {
    hide Messages, Places;
    match a {
      case Run(p, func, args) =>
        SubmitMessages(call, s, p, func, args);
        forall q, id | 0 <= q < |s'.tasks| && 0 < id <= |s'.tasks[q]| ensures Places(call, s', q, id) == 1 {
          SubmitPlaces(call, s, p, func, args, q, id);
        }
      case Take(w) => TakeKeeps(call, s, w);
      case Finish(w) =>
        FinishMessages(call, s, w);
        forall q, id | 0 <= q < |s'.tasks| && 0 < id <= |s'.tasks[q]| ensures Places(call, s', q, id) == 1 {
          FinishPlaces(call, s, w, q, id);
        }
      case Poll(p) =>
        FrontReply(call, s, p);
        PollMessages(call, s, p);
        forall q, id | 0 <= q < |s'.tasks| && 0 < id <= |s'.tasks[q]| ensures Places(call, s', q, id) == 1 {
          PollPlaces(call, s, p, q, id);
        }
    }
  }

  lemma {:induction false} RunKeeps<A, R>(call: Caller<A, R>, states: seq<Sys<A, R>>, acts: seq<Action<A>>, i: nat)
    requires Runs(call, states, acts) && i < |states|
    ensures Inv(call, states[i])
  {
    if i > 0 {
      RunKeeps(call, states, acts, i - 1);
      NextKeeps(call, states[i - 1], acts[i - 1], states[i]);
    }
  }

  // ------------------------------------------------------------------------------------ theorems

  /** Every task that was submitted is in exactly one place: in the queue, in the hands of one
      worker, on its way back to the interpreter that submitted it, or recorded there as done. */
  lemma TasksConserved<A, R>(call: Caller<A, R>, states: seq<Sys<A, R>>, acts: seq<Action<A>>, i: nat, p: nat, id: nat)
    requires Runs(call, states, acts) && i < |states| && p < |states[i].tasks| && 0 < id <= |states[i].tasks[p]|
    ensures |states[i].replies| == |states[i].tasks| && Places(call, states[i], p, id) == 1
  {
    RunKeeps(call, states, acts, i);
  }

  /** The functions and arguments that interpreter `p` called `runTask` with. */
  function SubmittedBy<A>(acts: seq<Action<A>>, p: nat): seq<(Func, A)> {
    if acts == [] then []
    else
      var a := acts[|acts| - 1];
      SubmittedBy(acts[..|acts| - 1], p) + if a.Run? && a.p == p then [(a.func, a.args)] else []
  }

  /** The entries of `localTasks` are the calls of `runTask`, one by one: task `id` is the `id`-th. */
  lemma {:induction false} TasksAreTheCalls<A, R>(call: Caller<A, R>, states: seq<Sys<A, R>>, acts: seq<Action<A>>,
                                                  i: nat, p: nat)
    requires Runs(call, states, acts) && i < |states| && p < |states[i].tasks|
    ensures |states[i].tasks[p]| == |SubmittedBy(acts[..i], p)|
    ensures forall k | 0 <= k < |states[i].tasks[p]| ::
      (states[i].tasks[p][k].func, states[i].tasks[p][k].args) == SubmittedBy(acts[..i], p)[k]
  {
    if i > 0 {
      assert Next(call, states[i - 1], acts[i - 1], states[i]);
      TasksAreTheCalls(call, states, acts, i - 1, p);
      assert acts[..i][..i - 1] == acts[..i - 1];
    }
  }

  /** A result that is recorded is the result of the task's own function and arguments. */
  lemma ResultIsItsOwn<A, R>(call: Caller<A, R>, states: seq<Sys<A, R>>, acts: seq<Action<A>>, i: nat, p: nat, id: nat)
    requires Runs(call, states, acts) && i < |states| && p < |states[i].tasks| && 0 < id <= |states[i].tasks[p]|
    requires states[i].tasks[p][id - 1].Done()
    ensures id <= |SubmittedBy(acts[..i], p)|
    ensures var (func, args) := SubmittedBy(acts[..i], p)[id - 1];
      states[i].tasks[p][id - 1].result == Some(call(func, args))
  {
    RunKeeps(call, states, acts, i);
    TasksAreTheCalls(call, states, acts, i, p);
  }

  /** A worker can always deliver, and a reply can always be recorded: both find the task. */
  lemma RepliesFindTheirTask<A, R>(call: Caller<A, R>, states: seq<Sys<A, R>>, acts: seq<Action<A>>, i: nat, p: nat)
    requires Runs(call, states, acts) && i < |states| && p < |states[i].tasks|
    ensures var s := states[i]; |s.replies| == |s.slots| == |s.tasks|
    ensures var s := states[i]; s.replies[p] != [] ==>
      0 < s.replies[p][0].id <= |s.tasks[p]| && !s.tasks[p][s.replies[p][0].id - 1].Done()
    ensures var s := states[i]; s.slots[p].Busy? ==> s.slots[p].job.source < |s.replies|
  {
    RunKeeps(call, states, acts, i);
    var s := states[i];
    if s.replies[p] != [] {
      var r := s.replies[p][0];
      assert r in s.replies[p] && ReplyOk(call, s, p, r);
      assert Places(call, s, p, r.id) == 1;
      assert r == Reply(r.id, ResultOf(call, s, p, r.id)) && r in multiset(s.replies[p]);
    }
    if s.slots[p].Busy? {
      assert JobOk(s, s.slots[p].job);
    }
  }

  // ----------------------------------------------------------------- the submitter's own variables

  /** Ids of tasks, when the last one is `n`. */
  predicate Known(n: nat, ids: seq<nat>) { forall i | 0 <= i < |ids| :: 0 < ids[i] <= n }

  /** The positions, from 1, of the tasks `ids` that are done. */
  function DoneIndices<A, R>(tasks: seq<Task<A, R>>, ids: seq<nat>): (r: seq<nat>)
    requires Known(|tasks|, ids)
    ensures |r| <= |ids|
  {
    if ids == [] then []
    else
      var last := |ids| - 1;
      DoneIndices(tasks, ids[..last]) + (if tasks[ids[last] - 1].Done() then [|ids|] else [])
  }

  /** Position `k`, from 1, holds a task that is done. */
  predicate DoneAt<A, R>(tasks: seq<Task<A, R>>, ids: seq<nat>, k: nat)
    requires Known(|tasks|, ids)
  {
    0 < k <= |ids| && tasks[ids[k - 1] - 1].Done()
  }

  predicate Ascending(r: seq<nat>) { forall a, b | 0 <= a < b < |r| :: r[a] < r[b] }

  /** Exactly the finished positions, in order. */
  lemma {:induction false} DoneIndicesExactly<A, R>(tasks: seq<Task<A, R>>, ids: seq<nat>)
    requires Known(|tasks|, ids)
    ensures forall k: nat :: k in DoneIndices(tasks, ids) <==> DoneAt(tasks, ids, k)
    ensures Ascending(DoneIndices(tasks, ids))
  {
    if ids != [] {
      var init := ids[..|ids| - 1];
      var r, r0 := DoneIndices(tasks, ids), DoneIndices(tasks, init);
      DoneIndicesExactly(tasks, init);
      forall k: nat ensures k in r <==> DoneAt(tasks, ids, k) {
        assert k in r0 <==> DoneAt(tasks, init, k);
        assert 0 < k <= |init| ==> init[k - 1] == ids[k - 1];
        assert k in r <==> k in r0 || (k == |ids| && DoneAt(tasks, ids, k));
      }
      forall a | 0 <= a < |r0| ensures r0[a] < |ids| {
        assert r0[a] in r0 && DoneAt(tasks, init, r0[a]);
      }
      AscendingAppend(r0, |ids|);
    }
  }

  lemma AscendingAppend(r: seq<nat>, k: nat)
    requires Ascending(r) && forall a | 0 <= a < |r| :: r[a] < k
    ensures Ascending(r + [k])
  {
  }

  /** What recording the replies of an inbox, one after the other, makes of the tasks. */
  function RecordAll<A, R>(tasks: seq<Task<A, R>>, inbox: seq<Reply<R>>): (r: seq<Task<A, R>>)
    requires forall x | x in inbox :: x.id <= |tasks|
    ensures |r| == |tasks|
    decreases |inbox|
  {
    if inbox == [] then tasks else RecordAll(Recorded(tasks, inbox[0]), inbox[1..])
  }

  lemma {:induction false} RecordAllSplits<A, R>(tasks: seq<Task<A, R>>, inbox: seq<Reply<R>>, k: nat)
    requires k < |inbox| && forall x | x in inbox :: x.id <= |tasks|
    decreases k
    ensures RecordAll(tasks, inbox[..k + 1]) == Recorded(RecordAll(tasks, inbox[..k]), inbox[k])
  {
    if k == 0 {
      assert inbox[..1] == [inbox[0]] && inbox[..0] == [];
      assert [inbox[0]][1..] == [];
    } else {
      RecordAllSplits(Recorded(tasks, inbox[0]), inbox[1..], k - 1);
      assert inbox[..k + 1][1..] == inbox[1..][..k] && inbox[..k][1..] == inbox[1..][..k - 1];
    }
  }

  /** A stretch of `waitTasks`: one reply after the other is recorded. */
  ghost predicate Polls<A, R>(call: Caller<A, R>, p: nat, states: seq<Sys<A, R>>) {
    states != [] && forall i | 0 <= i < |states| - 1 :: Next(call, states[i], Poll(p), states[i + 1])
  }

  lemma PollsNone<A, R>(call: Caller<A, R>, p: nat, s: Sys<A, R>)
    ensures Polls(call, p, [s])
  {
  }

  lemma PollsOn<A, R>(call: Caller<A, R>, p: nat, states: seq<Sys<A, R>>, s: Sys<A, R>)
    requires Polls(call, p, states) && Next(call, states[|states| - 1], Poll(p), s)
    ensures Polls(call, p, states + [s])
  {
    hide Next;
  }

  /** The variables of one interpreter and its ends of the channels; `sys` is the whole system. */
  class Client<A, R> {
    const workerID: nat
    var taskID: nat
    var localTasks: seq<Task<A, R>>
    var taskQueue: seq<Job<A>>
    var inbox: seq<Reply<R>>
    ghost var sys: Sys<A, R>

    ghost predicate Valid()
      reads this
    {
      && taskID == |localTasks| && (forall x | x in inbox :: x.id <= |localTasks|)
      && workerID < |sys.tasks| && sys.tasks[workerID] == localTasks
      && workerID < |sys.replies| && sys.replies[workerID] == inbox
      && sys.queue == taskQueue
    }

    constructor (id: nat, ghost s: Sys<A, R>)
      requires Init(s) && id < |s.tasks|
      ensures Valid() && workerID == id && taskID == 0 && sys == s
    {
      workerID, taskID, localTasks, taskQueue, inbox, sys := id, 0, [], [], [], s;
    }

    /** `runTask`. */
    method RunTask(ghost call: Caller<A, R>, func: Func, args: A) returns (id: nat)
      requires Valid() && Active(sys, workerID)
      modifies this
      ensures Valid() && id == taskID == old(taskID) + 1 && inbox == old(inbox)
      ensures taskQueue == old(taskQueue) + [Job(func, args, workerID, id)]
      ensures localTasks == old(localTasks) + [Task(func, args, None)]
      ensures Next(call, old(sys), Run(workerID, func, args), sys)
    {
      taskID := taskID + 1;
      taskQueue := taskQueue + [Job(func, args, workerID, taskID)];
      localTasks := localTasks + [Task(func, args, None)];
      id := taskID;
      sys := Submitted(sys, workerID, func, args);
    }

    /** `pollIncoming` on a message that has arrived. */
    method PollIncoming(ghost call: Caller<A, R>)
      requires Valid() && Active(sys, workerID) && inbox != []
      modifies this`localTasks, this`inbox, this`sys
      ensures Valid() && Active(sys, workerID) && inbox == old(inbox)[1..]
      ensures localTasks == Recorded(old(localTasks), old(inbox)[0])
      ensures Next(call, old(sys), Poll(workerID), sys)
    {
      var incoming := inbox[0];
      assert incoming in inbox;
      sys := Polled(sys, workerID);
      inbox := inbox[1..];
      if incoming.id > 0 {
        localTasks := localTasks[incoming.id - 1 := localTasks[incoming.id - 1].(result := Some(incoming.result))];
      }
    }

    method CountDone(ids: seq<nat>) returns (fin: nat)
      requires Known(|localTasks|, ids)
      ensures fin == |DoneIndices(localTasks, ids)|
    {
      fin := 0;
      var i := 0;
      while i < |ids|
        invariant 0 <= i <= |ids|
        invariant fin == |DoneIndices(localTasks, ids[..i])|
      {
        assert ids[..i + 1][..i] == ids[..i];
        if localTasks[ids[i] - 1].Done() {
          fin := fin + 1;
        }
        i := i + 1;
      }
      assert ids[..|ids|] == ids;
    }

    /** `waitTasks` on the replies that have arrived so far: it consumes as few of them as it needs
        until `n` of the tasks are done, and says which are.  When they are not enough it would
        wait for more. */
    method WaitTasks(ghost call: Caller<A, R>, ids: seq<nat>, n: int)
      returns (waits: bool, result: seq<nat>, ghost polls: seq<Sys<A, R>>)
      requires Valid() && Active(sys, workerID) && Known(|localTasks|, ids)
      modifies this`localTasks, this`inbox, this`sys
      ensures Valid() && |localTasks| == old(|localTasks|)
      // What was consumed, and what it did.
      ensures |inbox| <= old(|inbox|) && inbox == old(inbox)[old(|inbox|) - |inbox|..]
      ensures localTasks == RecordAll(old(localTasks), old(inbox)[..old(|inbox|) - |inbox|])
      ensures Polls(call, workerID, polls) && polls[0] == old(sys) && polls[|polls| - 1] == sys
      // No more than needed was consumed.
      ensures forall k | 0 <= k < old(|inbox|) - |inbox| ::
        |DoneIndices(RecordAll(old(localTasks), old(inbox)[..k]), ids)| < n
      ensures waits ==> inbox == [] && |DoneIndices(localTasks, ids)| < n
      ensures !waits ==> result == DoneIndices(localTasks, ids) && |result| >= n
    {
      ghost var consumed, tasks0, inbox0 := 0, localTasks, inbox;
      polls := [sys];
      assert inbox0[..0] == [] && inbox == inbox0[0..];
      hide Recorded, Polls, Next, Active, Consumed;
      assert Consumed(tasks0, inbox0, ids, n, 0) by { ConsumedNone(ids, n); }
      assert Polls(call, workerID, polls) by { PollsNone(call, workerID, sys); }
      while true
        invariant Valid() && Active(sys, workerID) && |localTasks| == |tasks0|
        invariant Consumed(tasks0, inbox0, ids, n, consumed)
        invariant Polls(call, workerID, polls) && polls[0] == old(sys) && polls[|polls| - 1] == sys
        decreases |inbox|
      {
        var fin := CountDone(ids);
        if fin >= n {
          break;
        }
        if inbox == [] {
          ConsumedMeans(tasks0, inbox0, ids, n, consumed);
          return true, [], polls;
        }
        PollNext(call, ids, n, tasks0, inbox0, consumed);
        PollsOn(call, workerID, polls, sys);
        polls := polls + [sys];
        consumed := consumed + 1;
      }
      ConsumedMeans(tasks0, inbox0, ids, n, consumed);
      waits := false;
      result := ListDone(ids);
    }

    /** The first `k` replies have been consumed, and before each of them too few tasks were done. */
    ghost predicate Consumed(tasks0: seq<Task<A, R>>, inbox0: seq<Reply<R>>, ids: seq<nat>, n: int, k: nat)
      requires Known(|tasks0|, ids) && forall x | x in inbox0 :: x.id <= |tasks0|
      reads this
    {
      && k <= |inbox0| && inbox == inbox0[k..] && localTasks == RecordAll(tasks0, inbox0[..k])
      && forall m | 0 <= m < k :: |DoneIndices(RecordAll(tasks0, inbox0[..m]), ids)| < n
    }

    lemma ConsumedNone(ids: seq<nat>, n: int)
      requires Valid() && Known(|localTasks|, ids)
      ensures Consumed(localTasks, inbox, ids, n, 0)
    {
      assert inbox[..0] == [] && inbox[0..] == inbox;
    }

    lemma ConsumedMeans(tasks0: seq<Task<A, R>>, inbox0: seq<Reply<R>>, ids: seq<nat>, n: int, k: nat)
      requires Known(|tasks0|, ids) && forall x | x in inbox0 :: x.id <= |tasks0|
      requires Consumed(tasks0, inbox0, ids, n, k)
      ensures |inbox| <= |inbox0| && k == |inbox0| - |inbox| && inbox == inbox0[k..]
      ensures localTasks == RecordAll(tasks0, inbox0[..k])
      ensures forall m | 0 <= m < k :: |DoneIndices(RecordAll(tasks0, inbox0[..m]), ids)| < n
    {
    }

    /** One more round of `waitTasks`. */
    method PollNext(ghost call: Caller<A, R>, ids: seq<nat>, n: int,
                    ghost tasks0: seq<Task<A, R>>, ghost inbox0: seq<Reply<R>>, ghost k: nat)
      requires Valid() && Active(sys, workerID) && inbox != []
      requires Known(|tasks0|, ids) && |localTasks| == |tasks0| && forall x | x in inbox0 :: x.id <= |tasks0|
      requires Consumed(tasks0, inbox0, ids, n, k) && |DoneIndices(localTasks, ids)| < n
      modifies this`localTasks, this`inbox, this`sys
      ensures Valid() && Active(sys, workerID) && |inbox| < old(|inbox|) && |localTasks| == |tasks0|
      ensures Consumed(tasks0, inbox0, ids, n, k + 1)
      ensures Next(call, old(sys), Poll(workerID), sys)
    {
      hide Next, DoneIndices;
      RecordAllSplits(tasks0, inbox0, k);
      assert inbox[1..] == inbox0[k + 1..] && inbox[0] == inbox0[k];
      PollIncoming(call);
    }

    method ListDone(ids: seq<nat>) returns (result: seq<nat>)
      requires Known(|localTasks|, ids)
      ensures result == DoneIndices(localTasks, ids)
    {
      result := [];
      var i := 0;
      while i < |ids|
        invariant 0 <= i <= |ids|
        invariant result == DoneIndices(localTasks, ids[..i])
      {
        assert ids[..i + 1][..i] == ids[..i];
        if localTasks[ids[i] - 1].Done() {
          result := result + [i + 1];
        }
        i := i + 1;
      }
      assert ids[..|ids|] == ids;
    }
  }
}
