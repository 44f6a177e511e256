# Verified models of the thread library for Singular

The library lets Singular interpreters run in parallel: a scheduler executes jobs that depend on
each other in a pool of threads, values travel between interpreters as byte strings, and threads
meet at channels, synchronization variables and interpreter threads.  This project models these
three layers in Dafny and proves what every run of them keeps.

**The job scheduler** (`shared.cc`).  `Jobs` has the lock-held operations of `Scheduler` as
functions on a pool of jobs with `deps` and `notify` edges, flags, a global queue and one private
queue per worker.  `JobInvariant`, `Cancellation`, `Scheduling`, `CalmSteps` and `PoolSteps` show
that each operation keeps the invariant of the graph.  `PoolRuns` is the state machine: any number
of workers and of threads that use the pool, every command one step, every round of a worker's loop
one step up to the start of a body, and one from the end of that body through the notifications,
because `Job::run` gives the lock back in between.  `PoolInvariant` and `PoolTheorems` hold the
results about all runs.  `ScheduleEffect`, `StepEffects` and `TriggerLaws` say in terms of the fields
what each command and each round of a worker is for, and what follows for the rest of the run: which
dependencies a scheduled job has from then on, and how many activations fire a trigger.
`Continuations` builds runs step by step to show what can happen from any reachable state, and with
it `PrematureStart` and `PrematureRun` say exactly when the one property that fails does.
`PoolDrain` shows that the workers of a pool left alone finish everything in a bounded number of
steps.  `SchedulerClass` has the class with its methods, each proved to compute the function of
`Jobs`, and the single-threaded loop with its termination argument (`DrainMeasure`).

**The codec** (`lintree.cc`, `lintree.h`).  `Bytes` and `Values` are the data: machine words,
base-256 integers, polynomials over towers of coefficient fields, rings, nested values and quoted
commands.  `Codec` has encoders and decoders as functions, `PolyRoundTrip` and `ValueRoundTrip` the
round trips.  `CodecLaws` and `WireFormat` say what these mean by the constructors of the values:
the magnitudes that come back, the values that need a ring, the one announcement of it, the
arguments of commands, and the layout of the bytes.  `LinTreeClass` has the class with its buffer,
cursor, error flag and last ring, whose loops and recursions are proved to compute those functions.

**The monitor and the protocols on it** (`thread.h`, `shared.cc`, `syncvar.h`, `threadtasks.lib`).
`Monitor` runs the recursive lock and the condition variable one memory access or blocking call at
a time.  `CondVar` is what its users see of it: who sleeps and who was woken; `Monitor.CondInRun`
proves that view correct.  `PoolRuns`, `Channel`, `SyncVar`, `HeaderSyncVar` and `InterpreterThread`
use it for every argument that no wake-up is lost.  What was sent, written, updated or asked for is
read off the actions of a run, and the theorems compare it with what came back.  `Tasks` is the task
system over channels.  `LockClass` and the classes in the protocol modules have the methods, one per
stretch between taking the lock and giving it up.

Spurious wake-ups are allowed everywhere; which sleeper a signal wakes is not determined.

## What the proofs found

- A job can start before the body of one of its dependencies has returned.  A job whose
  dependencies are all done when it is scheduled enters the global queue twice, once from
  `notifyDeps` and once from `attachJob` (`shared.cc:2735-2746`).  If it is cancelled while its body
  runs, the worker that takes the second entry skips the body but marks the job done and releases
  its dependents.  The job of `threadPoolExec` stands in every private queue
  (`shared.cc:1756-1763`); its body can schedule jobs after it and cancel it by means of
  `currentJob` (`shared.cc:2753-2764`), and then the next worker to find it there does the same.
  `PrematureRun` has a run of either kind.  `StartsEarlyExactly` covers every reachable state and
  everything that workers and callers may do next: a dependent can overtake the body exactly when it
  is not cancelled, the pool is not shutting down, some worker is not occupied with that body, and
  the dependency is marked done already, is a trigger, stands in the global queue again, or stands in
  the private queue of such a worker.  `LateIsNotOvertaken` is what a caller can rely on: a job
  scheduled while one of its own dependencies was unfinished is queued once and never overtaken.
- `threadPoolExec` appends its job to every private queue without waking anybody
  (`shared.cc:1756-1763`), and there is one private queue more than workers.  `NoIdleSleep` is
  therefore about the global queue.
- Out-of-line integers lose their sign on the way (`lintree.cc:135-141`), and a ring over an
  extension field cannot be announced: the reader takes the name of the first variable for the name
  of the coefficients (`lintree.cc:542-555` against `lintree.cc:606-616`).  `RoundTripExactly` and
  `RingLost` say what that means for values.

## Model

| member | source | states |
|---|---|---|
| PoolTheorems.StartedAfterDependencies | shared.cc:1956-1965 | In every reachable state, if the body of a job has started, each of its dependencies is done and has been started, and its body has returned unless that dependency was cancelled while running, its body is still being executed, and it is a trigger, the job of `threadPoolExec`, or was queued twice because nothing it depends on was unfinished when it was scheduled. |
| PrematureStart.StartsEarlyExactly | shared.cc:1956-1965 | In every state that satisfies the invariant, while a body of a dependency is being executed and none has returned, there is a continuation by workers and callers in which the dependent starts before it returns if and only if the pool is not shutting down, the dependent is not cancelled, some worker is neither gone nor inside that body, and the dependency is done, a trigger, in the global queue again, or in the private queue of such a worker. |
| PrematureStart.LateIsNotOvertaken | shared.cc:1807-1816 | In every reachable state no continuation lets a job start before the body of a dependency has returned that was itself scheduled with an unfinished dependency. |
| Continuations.MakeDone | shared.cc:1846-1885 | While one body is being executed whose job is marked done, and a worker is not occupied with it, any other job of the pool that can be named and was not cancelled before its start can be got done without that body returning, whatever it depends on. |
| PrematureRun.StartsBeforeDependencyReturns | shared.cc:2730-2747 | A concrete run, in which workers keep the lock between two bodies, that ends with a dependent and the first body of its dependency, which was queued twice, being executed at the same time. |
| PrematureRun.StartsBeforeExecReturns | shared.cc:1855-1866 | The same with the job of `threadPoolExec` as the dependency, which is never in the global queue. |
| ScheduleEffect.ScheduleTakesEffect | shared.cc:2714-2747 | From the moment jobs are scheduled, and for the rest of the run, each of them depends on each of the given dependencies, stands in its `notify` list and belongs to the pool; when its body has started, all of these dependencies are done and have been started. |
| ScheduleEffect.Accepted | shared.cc:2730-2747 | Each scheduled job has exactly the given dependencies, is cancelled exactly if one of them is, and is otherwise queued exactly if all of them are done; no other job is finished, cancelled or started. |
| ScheduleEffect.AcceptedStep | shared.cc:2714-2747 | In a step of a run the same holds, and nothing happens when one of the jobs is in a pool already or one of the dependencies is in none. |
| StepEffects.StartEffect | shared.cc:1722-1737 | The started job is in the pool and once in the global queue; a job that is in a pool already is left alone. |
| StepEffects.NewTriggerEffect | shared.cc:2569-2586 | The new trigger has the kind and count asked for, and is queued exactly if it waits for nothing. |
| StepEffects.ExecOncePerWorker | shared.cc:1756-1763 | At every moment after `threadPoolExec` each worker has either taken the new job exactly once or still has it in its private queue. |
| StepEffects.FinishEffect | shared.cc:1861-1864 | The worker is free, its job is done and keeps any result, and no other job is finished or cancelled by that. |
| StepEffects.TurnEffect | shared.cc:1847-1884 | A worker leaves if the pool is shutting down, sleeps if there is nothing for it, and otherwise takes the first job of its private queue or else one of the global queue, and executes or skips it. |
| StepEffects.CancelledNotQueued | shared.cc:1812 | A job that has been cancelled never enters the global queue again in the run. |
| StepEffects.CloseEffect | shared.cc:1692-1709 | `shutdown` that waits begins only when the global queue is empty; from then on nobody sleeps. |
| TriggerLaws.NeedCounts | shared.cc:1967-2030 | Along every run what a trigger still needs is what it needed before, less what calls of `updateTrigger` and finished jobs it is chained to have offered since: absent results for counters, present ones for accumulators. |
| TriggerLaws.UpdateRuns | shared.cc:2598-2607 | A call of `updateTrigger` runs the trigger on the caller's thread exactly if it leaves nothing to wait for and the trigger is not cancelled. |
| PoolTheorems.Progress | shared.cc:1847-1885 | In a pool at rest every attached, uncancelled, unfinished job that can be named depends transitively on a trigger that has not fired. |
| PoolTheorems.RunProgress | shared.cc:1847-1885 | The same for every reachable state with an empty global queue and no executing body. |
| PoolTheorems.AtMostOnce | shared.cc:1807-1816 | A job scheduled while a dependency was unfinished enters the global queue at most once in a run, and its body starts at most once. |
| PoolTheorems.NoIdleSleep | shared.cc:1855-1883 | If any worker sleeps, nobody is shutting down and the global queue is no longer than the set of workers that are woken and not yet back. |
| PoolTheorems.ShutdownCount | shared.cc:1850-1854 | `shutdown_counter` is the number of workers that have left their loop; when it reaches the number of threads all of them have. |
| PoolTheorems.ShutdownFinal | shared.cc:1702-1713 | Once `shutdown` is past its second loop no worker is inside a body and none ever takes a job again. |
| PoolTheorems.HistoryGrows | shared.cc:1732-1783 | Along a run, what has been done, cancelled or queued stays so, the counts of pushes, starts and returns only grow, a cancelled job never starts again, and the dependencies of a scheduled job never change. |
| PoolInvariant.NextKeeps | shared.cc:1846-1885 | Every step of workers and callers keeps the invariant of graph, queues, bodies and wake-ups. |
| PoolInvariant.RunKeeps | shared.cc:1656-1893 | Every state of every run satisfies the invariant. |
| Cancellation.CancelExact | shared.cc:1764-1783 | Cancelling any job cancels, besides what was cancelled before, exactly that job if it is running or done, and otherwise exactly it and everything reachable over `notify`, none of which has ever started and all of which are then done. |
| PoolTheorems.CancelInRun | shared.cc:2450-2465 | The same for every cancellation in every run; the jobs it reaches do not start at any later moment either. |
| Cancellation.CancelJobKeeps | shared.cc:1773-1783 | Cancellation keeps the invariant even in the middle of its recursion, with cycles allowed. |
| JobInvariant.NotifyDepsKeeps | shared.cc:1807-1828 | Replaying `notify` queues every dependent that became ready and keeps dependency and notification edges symmetric. |
| JobInvariant.FinishBodyKeeps | shared.cc:1960-1965 | The end of a body, with the notifications that follow, keeps the invariant. |
| JobInvariant.SkipBodyKeeps | shared.cc:1956-1965 | Skipping the body of a cancelled job, with the notifications that follow, keeps the invariant. |
| Scheduling.ScheduleJobsKeeps | shared.cc:2714-2747 | Scheduling jobs with dependencies, any of which may be done or cancelled or listed twice or be the job of `threadPoolExec` once it runs, keeps the invariant. |
| Scheduling.StartJobKeeps | shared.cc:1722-1737 | Attaching a job without dependencies keeps the invariant. |
| PoolSteps.UpdateKeeps | shared.cc:2590-2610 | Activating a trigger, firing it included, keeps the invariant. |
| PoolSteps.NewTriggerKeeps | shared.cc:2547-2588 | A new trigger keeps the invariant. |
| PoolSteps.BroadcastKeeps | shared.cc:1756-1763 | A job appended to every private queue keeps the invariant. |
| PoolSteps.ChainKeeps | shared.cc:2612-2647 | Chaining a trigger to a job keeps the invariant. |
| SchedulerClass.Scheduler.IsReady | shared.cc:1607-1613 | Reports whether all dependencies are done and a trigger has all its activations. |
| SchedulerClass.Scheduler.QueueJob | shared.cc:1750-1755 | The job is in the global queue and one signal was sent; nothing else changes. |
| SchedulerClass.Scheduler.AttachJob | shared.cc:1722-1737 | The job is numbered, belongs to the pool, and is queued exactly if it is ready. |
| SchedulerClass.Scheduler.NotifyDeps | shared.cc:1807-1833 | The replay of `notify` and of the triggers, in order, in place. |
| SchedulerClass.Scheduler.CancelDeps | shared.cc:1764-1772 | The uncancelled dependents are cancelled, in order, in place; terminates on the number of uncancelled jobs. |
| SchedulerClass.Scheduler.CancelJob | shared.cc:1773-1783 | The cancellation whose result `CancelExact` describes, in place. |
| SchedulerClass.Scheduler.AddDeps | shared.cc:1932-1934 | All new jobs get all dependencies. |
| SchedulerClass.Scheduler.AddNotify | shared.cc:1942-1947 | The new jobs are appended to `notify`; a job that is done tells them at once. |
| SchedulerClass.Scheduler.AddNotifies | shared.cc:2735-2738 | All dependencies are told, and the outcome says whether one of them is cancelled. |
| SchedulerClass.Scheduler.ScheduleJob | shared.cc:2714-2747 | Refused exactly when a job is in a pool already or a dependency is in none; otherwise each job has all of the dependencies, is cancelled if one of them is, and is queued if all are done. |
| SchedulerClass.Scheduler.RunJob | shared.cc:1956-1965 | The body is executed unless the job is cancelled, the job is done in either case, and its dependents are told. |
| SchedulerClass.Scheduler.TakeOne | shared.cc:1855-1871 | The private queue goes first; a signal is passed on when global work is left. |
| SchedulerClass.Scheduler.MainSingle | shared.cc:1834-1892 | The single-threaded loop terminates, leaves every attached job done (or the one waited for), executes nothing while shutting down, and executes bodies in a linear extension of the dependency order. |
| PoolDrain.WorkGoesOn | shared.cc:1846-1885 | In a pool with a worker that is not shutting down, some worker can take a job or finish a body unless all queues are empty and no body is being executed. |
| PoolDrain.WorkersDrain | shared.cc:1846-1885 | In every run from any reachable state without triggers and without further calls, however the workers are interleaved, the number of jobs taken and bodies finished is bounded by the entries of the queues, the jobs not yet queued by a notification and the bodies being executed, and when no worker can go on every job of the pool that can be named is done. |
| DrainMeasure.RoundShrinks | shared.cc:1807-1816 | Each round of that loop makes the number of jobs never queued by a notification smaller, or keeps it and makes the queues shorter. |
| DrainMeasure.DrainedIsDone | shared.cc:1879-1882 | When the global queue is empty and nothing runs, every attached job that can be named is done. |
| Bytes.IntRoundTrip | lintree.h:47-63 | A 32-bit word is read back as it was written. |
| Bytes.LongRoundTrip | lintree.h:47-63 | A 64-bit word is read back as it was written. |
| Bytes.DigitsOfNumber | lintree.h:47-63 | The bytes of a word are the only ones that stand for its value. |
| Bytes.BigRoundTrip | lintree.cc:135-147 | A non-negative integer of any size survives big-endian base-256 digits; zero has none. |
| WireFormat.IntIsLittleEndian | lintree.h:47-63 | A word is written in two's complement, lowest byte first. |
| WireFormat.BigIsBigEndian | lintree.cc:135-141 | The digits of a big integer are written highest first, without leading zeros. |
| Bytes.BufferEstimate | lintree.cc:136-138 | The buffer for a big integer is exactly as long as its digits, for every positive value, and one byte longer for zero. |
| Values.StripKeeps | lintree.cc:135-141 | A value is unchanged by the loss of signs exactly when no out-of-line integer in it is negative. |
| CodecLaws.StripIsMagnitude | lintree.cc:135-141 | "Up to signs" means: every out-of-line integer is replaced by its magnitude, and nothing else of the value changes. |
| CodecLaws.SharedMagnitude | lintree.cc:846-865 | A value that can be shared comes back, before evaluation, with exactly those magnitudes. |
| CodecLaws.IntegersFit | lintree.cc:135-141 | Every integer of fewer than 2^64 bytes can be written. |
| PolyRoundTrip.MpzBack | lintree.cc:135-147 | A big integer of either sign is read back as its magnitude, whatever follows it. |
| PolyRoundTrip.LongRatBack | lintree.cc:233-266 | Immediate integers, fractions and out-of-line integers come back, the latter two without sign. |
| PolyRoundTrip.CoeffBack | lintree.cc:268-316 | Coefficients over any tower of extensions of Q and Z/p come back up to signs, followed by any bytes. |
| PolyRoundTrip.PolyBack | lintree.cc:403-446 | Polynomials over any such tower come back up to signs, and the cursor stops exactly behind them. |
| PolyRoundTrip.PolyError | lintree.cc:289-291 | The encoder of polynomials reports an error exactly when it meets a coefficient of an unsupported type. |
| PolyRoundTrip.IdealBack | lintree.cc:465-492 | Ideals come back up to signs. |
| ValueRoundTrip.RingBack | lintree.cc:530-694 | A ring descriptor with its orders, weights and quotient ideal is read back as that ring, over Q, Z/p and coefficient domains known by name. |
| ValueRoundTrip.ExtensionMisread | lintree.cc:606-616 | The descriptor of a ring over an extension field is read as no ring and an error, unless the first variable bears the name of a coefficient domain. |
| ValueRoundTrip.UnreadableMisread | lintree.cc:608-617 | So is that of a ring over any coefficients whose name the reader does not know. |
| ValueRoundTrip.EncodeError | lintree.cc:81-102 | Encoding reports an error exactly when a node or a coefficient type is not supported, or the ring that has to be announced has an unsupported order. |
| ValueRoundTrip.ValueBack | lintree.cc:81-113 | Any supported value comes back up to signs inside any stream, the cursor stops behind it, and the decoder's last ring is the encoder's, wherever in the value the ring was announced. |
| ValueRoundTrip.AllBack | lintree.cc:738-757 | The same for the elements of a list, the ring passing from each to the next. |
| ValueRoundTrip.Fusion | lintree.cc:782-811 | Decoding any bytes while evaluating commands and names is decoding them first and then evaluating strictly bottom-up, errors included. |
| ValueRoundTrip.StringBack | lintree.cc:846-865 | `from_string(to_string(v))` is the evaluation of `v` up to signs if all of `v` can be shared and its evaluation succeeds, and NONE otherwise; if a ring has to be announced that cannot be read, it is undefined or NONE. |
| ValueRoundTrip.RoundTripExactly | lintree.cc:846-865 | A value without commands and names comes back as it was if and only if every node, coefficient type and order is supported, no out-of-line integer is negative, and a ring it has to announce is not over an extension field or unknown coefficients. |
| ValueRoundTrip.SignIsLost | lintree.cc:135-141 | Every out-of-line integer comes back as its magnitude. |
| CodecLaws.FractionComesBack | lintree.cc:233-266 | A fraction comes back with the magnitudes of numerator and denominator. |
| CodecLaws.ImmediateBack | lintree.cc:233-266 | Integers of 62 bits come back with their sign. |
| CodecLaws.MentionsExactly | lintree.cc:877-882 | A value is about a ring exactly if a number, polynomial or ideal occurs in it. |
| CodecLaws.RinglessSame | lintree.cc:81-102 | Any other value is written the same whatever the current ring is, and announces none. |
| CodecLaws.RinglessBack | lintree.cc:846-865 | Such a value, if supported, unsigned and without anything to evaluate, comes back as it was whether or not the current ring can be read. |
| CodecLaws.RingIsKnown | lintree.cc:81-102 | After encoding the ring is known exactly if a number, polynomial or ideal occurred. |
| CodecLaws.KnownStartsWithType | lintree.cc:81-102 | Once the ring is known, a value begins with its type. |
| CodecLaws.AnnouncedOnce | lintree.cc:81-102 | A value in which a number, polynomial or ideal occurs is written with exactly one announcement of the ring, any other with none. |
| WireFormat.ArgumentsBack | lintree.cc:768-811 | A command with up to three arguments arrives with all of them and is evaluated on them. |
| WireFormat.ManyArgumentsBack | lintree.cc:768-811 | With four and more arguments the first is written, and the count as it is. |
| WireFormat.InnerFirst | lintree.cc:782-811 | A command among the arguments is evaluated first, and its error is an error of the whole. |
| WireFormat.ListEvaluated | lintree.cc:738-757 | A list of quoted commands arrives as the list of what they evaluate to. |
| WireFormat.NameBack | lintree.cc:203-231 | A name is looked up where it is read. |
| WireFormat.IntBack | lintree.cc:164-172 | Every 64-bit integer comes back. |
| WireFormat.TextBack | lintree.cc:180-201 | Every string without NUL comes back. |
| WireFormat.StringIsCut | lintree.cc:187-201 | A string with a NUL inside is cut there when it is read, and the cursor stops behind all of it. |
| WireFormat.MatrixBack | lintree.cc:380-401 | Every integer matrix comes back with its shape. |
| WireFormat.SharedObjectBack | shared.cc:1278-1291 | A shared object comes back with its type and address. |
| WireFormat.ListComesBack | lintree.cc:738-757 | A list of such values, nested or not, comes back. |
| WireFormat.ModularPolyBack | lintree.cc:403-446 | Polynomials over Z/p come back exactly, components and exponents included. |
| WireFormat.WeightsBack | lintree.cc:556-584 | A weighted block of an order carries one weight for each of its variables. |
| WireFormat.PlainBlockBack | lintree.cc:556-584 | Any other block carries none. |
| WireFormat.SpecialCodes | lintree.cc:618-630 | The codes for no ring and for the last ring are each read together with the word behind them. |
| WireFormat.ExtensionAgrees | lintree.cc:530-694 | The descriptor of a ring over a transcendental or algebraic extension holds all of the ring: but for the name it looks for behind the head, the reader would make it. |
| ValueRoundTrip.RingLost | lintree.cc:539-552 | A value that has to announce a ring over an extension field whose first variable does not bear the name of a coefficient domain, or over coefficients whose name the reader does not know, never arrives. |
| LinTreeClass.LinTree.EncodeMpz | lintree.cc:135-141 | The digits fit the reserved buffer; length and digits are appended. |
| LinTreeClass.LinTree.DecodeMpz | lintree.cc:143-147 | Reads what the function of the codec says and leaves the cursor behind it. |
| LinTreeClass.LinTree.EncodeLongRat | lintree.cc:233-247 | Appends exactly the bytes of a rational coefficient. |
| LinTreeClass.LinTree.DecodeLongRat | lintree.cc:249-266 | Reads exactly a rational coefficient. |
| LinTreeClass.LinTree.EncodeCoeff | lintree.cc:268-293 | Appends exactly the bytes of a coefficient, recursively through the tower, and records errors. |
| LinTreeClass.LinTree.DecodeCoeff | lintree.cc:295-316 | Reads exactly a coefficient of the given domain and records errors. |
| LinTreeClass.LinTree.EncodePoly | lintree.cc:403-413 | The loop over the terms appends exactly the bytes of the polynomial. |
| LinTreeClass.LinTree.DecodePoly | lintree.cc:423-446 | The loop over the terms builds exactly the polynomial the codec says. |
| LinTreeClass.LinTree.EncodeIdeal | lintree.cc:473-492 | The loop over the generators appends exactly the bytes of the ideal. |
| LinTreeClass.LinTree.DecodeIdeal | lintree.cc:465-471 | The loop over the generators builds exactly the ideal. |
| LinTreeClass.LinTree.EncodeRing | lintree.cc:530-594 | Appends exactly the descriptor of a ring, those of its extensions inside it. |
| LinTreeClass.LinTree.DecodeRingRaw | lintree.cc:600-694 | Reads a descriptor through all its branches: known rings, null rings, the last ring, extensions, unknown names, no variables. |
| LinTreeClass.LinTree.Encode | lintree.cc:81-102 | Announces the current ring in front of the first value that needs one, then the type and the value; records an unsupported type. |
| LinTreeClass.LinTree.Decode | lintree.cc:104-113 | Reads a value and any ring in front of it; the last ring afterwards is the one the codec says. |
| LinTreeClass.LinTree.EncodeList | lintree.cc:738-745 | The loop over the elements appends the last index and then every element. |
| LinTreeClass.LinTree.DecodeList | lintree.cc:747-757 | The loop builds exactly the list, the empty one included. |
| LinTreeClass.LinTree.EncodeCommand | lintree.cc:768-780 | No, one, two or three arguments, and only the first of four and more. |
| LinTreeClass.LinTree.DecodeCommand | lintree.cc:782-811 | The mirror image, followed by the evaluation. |
| LinTreeClass.LinTree.DecodeLeafValue | shared.cc:1284-1291 | Shared objects get the type that was read last, looked up again behind the cursor; other leaves as the codec says. |
| LinTreeClass.LinTree.GetPrevInt | lintree.h:54-59 | The word in front of the cursor, which stays where it is. |
| LinTreeClass.ToString | lintree.cc:846-855 | The bytes of the value, or those of NONE after an error. |
| LinTreeClass.FromString | lintree.cc:857-865 | The decoded value, or NONE after an error. |
| LinTreeClass.ShareAndRead | lintree.cc:846-865 | Writing and reading through two objects yields what `StringBack` promises. |
| Monitor.RunKeeps | thread.h:46-96 | Every state of every run satisfies the invariant of mutex, owner, depth and waiting count. |
| Monitor.MutualExclusion | thread.h:46-70 | At most one thread is inside; it has the mutex, is the owner, and `locked` is the number of its locks not yet unlocked; no other thread sees itself as the owner. |
| Monitor.CallsCount | thread.h:46-67 | The locks and unlocks recorded for a thread are its calls of `lock` and `unlock`. |
| Monitor.InsideByCalls | thread.h:46-67 | A thread that is not in the middle of a call owns the lock exactly if it has called `lock` more often than `unlock`, and `locked` is the difference. |
| Monitor.FreeMeansMatched | thread.h:57-67 | The mutex is free only when every lock has been matched by an unlock, except by threads that wait. |
| Monitor.AbortsExactly | thread.h:46-67 | The process aborts exactly when a thread unlocks, waits or signals without being inside, or locks a non-recursive lock twice. |
| Monitor.WaitRestores | thread.h:88-96 | `wait` gives up the whole lock at any depth and restores exactly that depth. |
| Monitor.ElidingStep | thread.h:97-108 | In every reachable state, skipping a signal or broadcast while `waiting` is zero is the same step as sending it. |
| Monitor.ElidingRefines | thread.h:97-108 | The lock with elided signals has exactly the runs of the one that always signals. |
| Monitor.CondInRun | thread.h:88-108 | Each step of every run changes the sets of sleeping and woken threads as `CondVar` says. |
| LockClass.Lock.Acquire | thread.h:46-56 | The first lock takes mutex and ownership, a nested one adds a level, and a second lock of a non-recursive one aborts. |
| LockClass.Lock.Release | thread.h:57-67 | One level less, and mutex and owner are free after the last; aborts for anybody but the owner. |
| LockClass.ConditionVariable.FallAsleep | thread.h:88-93 | The thread is counted, the lock is broken whatever its depth, and the mutex is free. |
| LockClass.ConditionVariable.WakeUp | thread.h:94-95 | The thread is counted out and has the lock at the depth it had. |
| LockClass.ConditionVariable.WaitUndisturbed | thread.h:88-96 | Fields that nobody else changed are exactly restored. |
| LockClass.ConditionVariable.Announce | thread.h:97-108 | A signal is sent exactly when somebody is counted as waiting. |
| Channel.Fifo | shared.cc:408-425 | At every moment of every run the items of all calls of `send` are the items that calls of `receive` returned, in order, followed by the queue. |
| Channel.NoSleepOnItems | shared.cc:414-425 | If a receiver sleeps, the queue is no longer than the set of receivers that are woken and not yet back. |
| Channel.SingularChannel.Send | shared.cc:408-413 | A step of the protocol: the item is appended and one signal is sent. |
| Channel.SingularChannel.Receive | shared.cc:414-425 | A step of the protocol: the front is taken and a signal passed on while items are left, or the thread waits. |
| SyncVar.OneWrite | shared.cc:462-473 | In every run at most one write succeeds, and exactly one has as soon as the variable has a value. |
| SyncVar.BlockedForItsCall | shared.cc:449-456 | A blocked thread is blocked for what it called last. |
| SyncVar.ReadsSeeTheFold | shared.cc:474-481 | Every read returns the calls of update that did not fail before it, in the order of the lock, folded over the one item written. |
| SyncVar.ValueIsTheFold | shared.cc:1222-1234 | The value is the fold of all calls of update that did not fail over the item of the one write that succeeded; failed updates change nothing. |
| SyncVar.NobodySleepsOn | shared.cc:449-480 | Once the variable has a value nobody sleeps; whoever is blocked has been woken. |
| SyncVar.SingularSyncVar.Write | shared.cc:462-473 | A step of the protocol: it succeeds exactly on an empty variable, stores the value and wakes everybody. |
| SyncVar.SingularSyncVar.Read | shared.cc:474-481 | A step of the protocol: the value, or the thread waits. |
| SyncVar.SingularSyncVar.ResumeRead | shared.cc:474-481 | The same from the return from `wait`; the thread is blocked no more unless it has to wait again. |
| SyncVar.SingularSyncVar.Update | shared.cc:1222-1234 | A step of the protocol: the procedure is applied under the lock; its result is stored and announced, or its error leaves the value as it was. |
| SyncVar.SingularSyncVar.ResumeUpdate | shared.cc:1222-1234 | The same from the return from `wait`. |
| HeaderSyncVar.ChainHolds | syncvar.h:21-40 | Whenever the variable has a value and nobody woken is left to come, no reader sleeps and the class's count is zero. |
| HeaderSyncVar.ValueIsTheFirst | syncvar.h:21-30 | The variable has a value as soon as `write` was called, and it is the item of the first call. |
| HeaderSyncVar.FirstValueStays | syncvar.h:21-30 | The first value written is never replaced. |
| HeaderSyncVar.SyncVar.Write | syncvar.h:21-30 | A step of the protocol, with the signal only when the class counts a reader. |
| HeaderSyncVar.SyncVar.Read | syncvar.h:31-40 | A step of the protocol: the reader is counted, and leaves and wakes the next, or waits. |
| InterpreterThread.RequestsAreComplete | shared.cc:1398-1414 | Whenever the thread takes a request, tag and expression are both in the queue. |
| InterpreterThread.RequestsInOrder | shared.cc:1396-1422 | The calls of `threadEval` and `threadExec` are, in order, those the thread has served and then those in its queue. |
| InterpreterThread.ResultsInOrder | shared.cc:1394-1425 | The results that calls of `threadResult` returned, the results queued and the evaluations pending are, in order, the evaluations of everything `threadEval` was called for. |
| InterpreterThread.ResultIsItsOwn | shared.cc:2864-2893 | The n-th result that `threadResult` returns is the value of the n-th expression that `threadEval` was called for. |
| InterpreterThread.NothingForgotten | shared.cc:1514-1531 | Neither side sleeps on a queue with something in it, and joining returns only after every request was served. |
| InterpreterThread.ThreadState.ThreadEval | shared.cc:2784-2810 | A step of the protocol: tag and expression are appended and the thread is signalled. |
| InterpreterThread.ThreadState.ThreadExec | shared.cc:2812-2838 | The same with the tag of an execution, which asks for no result. |
| InterpreterThread.ThreadState.Quit | shared.cc:1514-1524 | A step of the protocol: the quit is appended, the thread is signalled, and the parent waits for its exit. |
| InterpreterThread.ThreadState.ThreadResult | shared.cc:2864-2893 | A step of the protocol: the front result is taken, or the parent waits. |
| InterpreterThread.ThreadState.Serve | shared.cc:1396-1422 | Between two waits the loop takes one step of the protocol after another, each with its signal to the parent, serves every queued request in order, and exits exactly at a quit. |
| Tasks.TasksConserved | threadtasks.lib:127-140 | In every run each submitted task is in exactly one place: the queue, one worker, its submitter's reply channel, or recorded as done. |
| Tasks.TasksAreTheCalls | threadtasks.lib:127-140 | The local entries of an interpreter are its calls of `runTask`, one by one and in order. |
| Tasks.ResultIsItsOwn | threadtasks.lib:202-213 | The recorded result of task `id` is the result of calling the function and arguments of the `id`-th call of `runTask`. |
| Tasks.RepliesFindTheirTask | threadtasks.lib:62-72 | A reply always belongs to a task of its receiver that is not done yet, and a worker always has a channel to reply to. |
| Tasks.DoneIndicesExactly | threadtasks.lib:228-235 | The result of `waitTasks` lists exactly the positions of finished tasks, in order. |
| Tasks.Client.RunTask | threadtasks.lib:127-140 | A step of the system: a new id, the message with function, arguments and sender, and the local entry. |
| Tasks.Client.PollIncoming | threadtasks.lib:202-213 | A step of the system: the front message is consumed, and recorded at its task if it is a reply. |
| Tasks.Client.WaitTasks | threadtasks.lib:215-236 | Takes one such step after another; consumes no more replies than needed until at least `n` of the tasks are done and lists them; waits only when all that arrived was not enough. |

## Left out

- Singular itself: tokens, ring orders, `leftv` evaluation, ring construction, the blackbox interface, argument checks of the interpreter commands, printing.  Evaluation, procedures, job bodies and the lookup of coefficient names are uninterpreted functions; those of the interpreter are taken to have no effect on each other.  The numbers given to tokens are arbitrary.  `lSize` is taken to be the last index of the list.
- Reference counts and memory management: they decide nothing in the code modelled here.
- A worker keeps the lock from the end or the skipping of one body to the start of the next or to `cond.wait` (`shared.cc:1860-1884`); in `PoolRuns` others may act in between.  Results about all runs hold for the runs of the code as well.  `StartsEarlyExactly` from right to left, `MakeDone` and `WorkGoesOn` say what can happen in the runs of the model, also from states in which a worker would still have the lock, and also where a worker of the code would skip a cancelled trigger that is chained to itself forever.  The runs of `PrematureRun` respect the lock.
- A job can be named when a command or `currentJob` has returned it, which for the job of `threadPoolExec` means once a worker has started it (`Job.Named`); who has got hold of that name is not modelled.
- PoolTheorems.AtMostOnce: jobs whose dependencies are all done when they are scheduled are queued twice and are not covered, because the code does queue them twice.
- PoolTheorems.NoIdleSleep: speaks of the global queue only, because private work of `threadPoolExec` wakes nobody.
- The C entry point `scheduleJob(ThreadPool*, Job*, long, Job**)` (`shared.cc:2351-2367`) does not test whether a dependency belongs to a pool, so that dependencies can become cyclic through it; only the interpreter command, which does, is modelled.
- SchedulerClass.Scheduler.RunJob: the body is executed without giving the lock up, so that nobody else acts in between; `PoolRuns` has the two halves as separate steps.
- SchedulerClass.Scheduler.MainSingle: bodies that use the pool themselves, and with them nested loops on one thread, are not part of the loop; there are no triggers in the pool.
- ValueRoundTrip.StringBack: assumes of an announced ring that its coefficient name means to the reader what it meant to the writer, or nothing, and of one over an extension field that its first variable does not bear the name of a coefficient domain.
- ValueRoundTrip.RoundTripExactly: the same assumption about an announced ring.
- ValueRoundTrip.RingLost: an extension field whose first variable bears the name of a coefficient domain, for which the rest of the descriptor is read as something else.
- LinTreeClass.ShareAndRead: assumes that an announced ring can be read, because reading a lost one may follow a null pointer.
- LinTreeClass.FromString: requires that decoding stays inside the buffer and meets no null pointer; the source has no defined behaviour otherwise.
- The order in which the priority queue yields jobs: any queued job may be taken.  `JobCompare` is not asymmetric when `fast` differs (`shared.cc:1586-1597`).
- PoolSteps.UpdateKeeps: speaks of count and accumulation triggers.  A `ProcTrigger` gives up the lock in the middle of `notifyDeps`; a `SetTrigger` over at least one value never becomes ready, because its range test compares with the running count, which is zero (`shared.cc:2047`).
- PoolSteps.NewTriggerKeeps: speaks of the same two kinds of triggers.
- Whether `waitJob` and `shutdown` are woken on `response`: a waiter for another job can absorb the signal.  `Semaphore`, for the same reason.
- `detachJob` and the list `pending`, which nothing else reads.
- Two threads that schedule the same job at the same time: the test of `job->pool` precedes the lock and is taken to be part of the same step.
- Values of type ring, and the traversal `updateref`, which does not follow the layout the encoders write.
- `createTask` and `startTask`: the latter sends a variable that is not bound.  What the task system does with an initialisation message it has received (`handleInit`), and its shutdown message, which nothing sends.
- The class `Client` of `Tasks` keeps a snapshot of the system that its own methods change and nobody else does, so that the class shows its steps in a system where nobody else acts between two of its calls; `Tasks.Sys` has the steps of all clients and workers interleaved.
- A second `joinThread` on the same thread, which follows a null pointer.
- The value copied out by `SyncVar::read` of syncvar.h, `bytebuf.h` and `channel.h`, which are unfinished.
- Named objects, regions, atomic tables and lists, which only put a lock around a container.
