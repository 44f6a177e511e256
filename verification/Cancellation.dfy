/** `cancelJob` and `cancelDeps`: what they keep, and exactly which jobs they cancel. */
module Cancellation {
  import opened Jobs
  import opened JobInvariant

  /** The flag of a job that is running or done is all that changes. */
  lemma MarkStartedKeeps(p: Pool, j: nat, open: set<nat>)
    requires Inv(p, {}, open, {}) && j < |p.jobs|
    requires p.jobs[j].pool && !p.jobs[j].cancelled
    requires p.jobs[j].running || p.jobs[j].done
    ensures Inv(Put(p, j, Mark(p.jobs[j])), {}, open, {})
  {
    hide Locals, Edges, Progressing, Kinds;
    var q := Put(p, j, Mark(p.jobs[j]));
    InvAt(p, j, {}, open, {});
    TouchRefs(p, q, j);
    TouchKeeps(p, q, j, {}, {}, open, open, {});
  }

  /** A job that never started is cancelled and done at once; its dependents are still open. */
  lemma MarkUnstartedKeeps(p: Pool, j: nat, open: set<nat>, entering: set<nat>)
    requires Inv(p, {}, open, entering) && j < |p.jobs|
    requires p.jobs[j].pool && !p.jobs[j].cancelled
    requires !p.jobs[j].running && !p.jobs[j].done
    ensures p.jobs[j].starts == 0
    ensures Inv(Put(p, j, Mark(p.jobs[j])), {}, open + {j}, entering)
  {
    hide Locals, Edges, Progressing, Kinds;
    var q := Put(p, j, Mark(p.jobs[j]));
    InvAt(p, j, {}, open, entering);
    TouchRefs(p, q, j);
    TouchKeeps(p, q, j, {}, {}, open, open + {j}, entering);
  }

  /** Once all dependents of `j` are cancelled, nothing is open about `j`. */
  lemma Close(p: Pool, j: nat, open: set<nat>)
    requires Inv(p, {}, open + {j}, {})
    requires forall k | 0 <= k < |p.jobs| && j in p.jobs[k].deps :: p.jobs[k].cancelled
    ensures Inv(p, {}, open, {})
  {
    forall k, d | 0 <= k < |p.jobs| && d in p.jobs[k].deps
      ensures EdgeOk(p.jobs[k], p.queue[k], p.jobs[d], d in open || k in {})
    {
      assert EdgeOk(p.jobs[k], p.queue[k], p.jobs[d], d in open + {j} || k in {});
    }
  }

  lemma {:induction false} CancelJobKeeps(p: Pool, j: nat, open: set<nat>)
    requires Inv(p, {}, open, {}) && Symmetric(p, {})
    requires j < |p.jobs| && p.jobs[j].pool
    ensures Inv(CancelJob(p, j), {}, open, {}) && Symmetric(CancelJob(p, j), {})
    ensures CancelJob(p, j).jobs[j].cancelled
    decreases Uncancelled(p.jobs), 0
  {
    hide Locals, Edges, Progressing, Kinds, Symmetric, OnlyMarked, CancelDeps;
    var r := CancelJob(p, j);
    MarkedGraph(p, r);
    SymmetricFrame(p, r, {});
    if !p.jobs[j].cancelled {
      var q := Put(p, j, Mark(p.jobs[j]));
      MarkedOne(p, j);
      if p.jobs[j].running || p.jobs[j].done {
        MarkStartedKeeps(p, j, open);
      } else {
        MarkUnstartedKeeps(p, j, open, {});
        SymmetricFrame(p, q, {});
        CancelNotified(q, j, open + {j});
        Close(r, j, open);
      }
    }
  }

  lemma {:induction false} CancelNotified(p: Pool, j: nat, open: set<nat>)
    requires Inv(p, {}, open, {}) && Symmetric(p, {}) && j < |p.jobs|
    ensures var r := CancelDeps(p, p.jobs[j].notify);
      && Inv(r, {}, open, {})
      && (forall k | 0 <= k < |p.jobs| && j in p.jobs[k].deps :: r.jobs[k].cancelled)
    ensures p.jobs[j].cancelled ==> CancelDeps(p, p.jobs[j].notify).jobs[j].cancelled
    decreases Uncancelled(p.jobs), |p.jobs[j].notify| + 1
  {
    var l := p.jobs[j].notify;
    forall k | k in Members(l) ensures p.jobs[k].pool {
      assert j in p.jobs[k].deps;
      InvAt(p, k, {}, open, {});
    }
    CancelDepsKeeps(p, l, open);
    forall k | 0 <= k < |p.jobs| && j in p.jobs[k].deps ensures k in Members(l) {
    }
  }

  lemma MarkedMembers(p: Pool, q: Pool, l: seq<nat>)
    requires OnlyMarked(p, q) && Ids(|p.jobs|, l)
    requires forall k | k in Members(l) :: p.jobs[k].pool
    ensures Ids(|q.jobs|, l) && forall k | k in Members(l) :: q.jobs[k].pool
  {
  }

  lemma StaysCancelled(p: Pool, q: Pool, k: nat)
    requires OnlyMarked(p, q) && k < |p.jobs| && p.jobs[k].cancelled
    ensures q.jobs[k].cancelled
  {
  }

  lemma {:induction false} CancelDepsKeeps(p: Pool, l: seq<nat>, open: set<nat>)
    requires Inv(p, {}, open, {}) && Symmetric(p, {}) && Ids(|p.jobs|, l)
    requires forall k | k in Members(l) :: p.jobs[k].pool
    ensures Inv(CancelDeps(p, l), {}, open, {})
    ensures forall k | k in Members(l) :: CancelDeps(p, l).jobs[k].cancelled
    decreases Uncancelled(p.jobs), |l|
  {
    hide Locals, Edges, Progressing, Kinds, Symmetric, CancelJob;
    if l != [] {
      MembersHead(l);
      var q := if p.jobs[l[0]].cancelled then p else CancelJob(p, l[0]);
      if !p.jobs[l[0]].cancelled {
        CancelJobKeeps(p, l[0], open);
      }
      MarkedGraph(p, q);
      MarkedMembers(p, q, l[1..]);
      CancelDepsKeeps(q, l[1..], open);
      StaysCancelled(q, CancelDeps(q, l[1..]), l[0]);
    }
  }

  // ---------------------------------------------------------------- which jobs are cancelled

  /** Each job of the path is in the `notify` list of the one before it. */
  ghost predicate Path(p: Pool, path: seq<nat>) {
    && path != [] && Ids(|p.jobs|, path)
    && (forall i | 0 <= i < |path| - 1 :: path[i + 1] in p.jobs[path[i]].notify)
  }

  ghost predicate Reaches(p: Pool, j: nat, k: nat) {
    exists path :: Path(p, path) && path[0] == j && path[|path| - 1] == k
  }

  lemma ReachesNext(p: Pool, j: nat, k: nat, m: nat)
    requires Refs(p) && Reaches(p, j, k) && k < |p.jobs| && m in p.jobs[k].notify
    ensures Reaches(p, j, m)
  {
    var path :| Path(p, path) && path[0] == j && path[|path| - 1] == k;
    var longer := path + [m];
    assert Path(p, longer) && longer[0] == j && longer[|longer| - 1] == m;
  }

  /** Whatever set is closed under `notify` contains all jobs cancelled from inside it. */
  ghost predicate Closed(p: Pool, s: set<nat>) {
    forall k, m | k in s && k < |p.jobs| && m in p.jobs[k].notify :: m in s
  }

  ghost predicate CancelsWithin(p: Pool, q: Pool, s: set<nat>) {
    |q.jobs| == |p.jobs| && forall k | 0 <= k < |p.jobs| && k !in s :: q.jobs[k] == p.jobs[k]
  }

  lemma {:induction false} CancelJobWithin(p: Pool, j: nat, s: set<nat>)
    requires Refs(p) && j < |p.jobs| && j in s && Closed(p, s)
    ensures CancelsWithin(p, CancelJob(p, j), s)
    decreases Uncancelled(p.jobs), 0
  {
    if !p.jobs[j].cancelled {
      var job := p.jobs[j];
      var q := Put(p, j, Mark(job));
      MarkedOne(p, j);
      MarkedGraph(p, q);
      if !job.running && !job.done {
        forall k | k in Members(job.notify) ensures k in s {
          assert k in p.jobs[j].notify;
        }
        forall k, m | k in s && k < |q.jobs| && m in q.jobs[k].notify ensures m in s {
          assert m in p.jobs[k].notify;
        }
        CancelDepsWithin(q, job.notify, s);
      }
    }
  }

  lemma {:induction false} CancelDepsWithin(p: Pool, l: seq<nat>, s: set<nat>)
    requires Refs(p) && Ids(|p.jobs|, l) && Members(l) <= s && Closed(p, s)
    ensures CancelsWithin(p, CancelDeps(p, l), s)
    decreases Uncancelled(p.jobs), |l|
  {
    if l != [] {
      MembersHead(l);
      var q := if p.jobs[l[0]].cancelled then p else CancelJob(p, l[0]);
      MarkedGraph(p, q);
      if !p.jobs[l[0]].cancelled {
        CancelJobWithin(p, l[0], s);
      }
      forall k, m | k in s && k < |q.jobs| && m in q.jobs[k].notify ensures m in s {
        assert m in p.jobs[k].notify;
      }
      CancelDepsWithin(q, l[1..], s);
    }
  }

  /** In a stable pool, what a cancelled job that never started leads to is cancelled too. */
  lemma {:induction false} CancelledPath(p: Pool, path: seq<nat>)
    requires Stable(p) && Path(p, path)
    requires p.jobs[path[0]].cancelled && p.jobs[path[0]].starts == 0
    ensures p.jobs[path[|path| - 1]].cancelled && p.jobs[path[|path| - 1]].starts == 0
    decreases |path|
  {
    if |path| > 1 {
      var d, k := path[0], path[1];
      assert k in p.jobs[d].notify;
      assert d in p.jobs[k].deps;
      InvAt(p, k, {}, {}, {});
      assert EdgeOk(p.jobs[k], p.queue[k], p.jobs[d], false);
      var rest := path[1..];
      forall i | 0 <= i < |rest| - 1 ensures rest[i + 1] in p.jobs[rest[i]].notify {
        assert path[i + 2] in p.jobs[path[i + 1]].notify;
      }
      CancelledPath(p, rest);
    }
  }

  lemma PathFrame(p: Pool, q: Pool, path: seq<nat>)
    requires SameGraph(p, q) && Path(p, path)
    ensures Path(q, path)
  {
    forall i | 0 <= i < |path| - 1 ensures path[i + 1] in q.jobs[path[i]].notify {
      assert path[i + 1] in p.jobs[path[i]].notify;
    }
  }

  lemma CancelsReached(p: Pool, j: nat, k: nat)
    requires Stable(p) && j < |p.jobs| && p.jobs[j].pool
    requires !p.jobs[j].running && !p.jobs[j].done
    requires k < |p.jobs| && Reaches(p, j, k)
    ensures var q := CancelJob(p, j);
      q.jobs[k].cancelled && p.jobs[k].starts == 0 && q.jobs[k].done
  {
    var q := CancelJob(p, j);
    InvAt(p, j, {}, {}, {});
    CancelJobKeeps(p, j, {});
    MarkedGraph(p, q);
    var path :| Path(p, path) && path[0] == j && path[|path| - 1] == k;
    PathFrame(p, q, path);
    CancelledPath(q, path);
    InvAt(q, k, {}, {}, {});
  }

  lemma CancelsOnlyReached(p: Pool, j: nat)
    requires Refs(p) && j < |p.jobs|
    ensures CancelsWithin(p, CancelJob(p, j), set k | 0 <= k < |p.jobs| && Reaches(p, j, k))
  {
    var s := set k | 0 <= k < |p.jobs| && Reaches(p, j, k);
    assert Path(p, [j]) && [j][0] == j && [j][|[j]| - 1] == j;
    forall k, m | k in s && k < |p.jobs| && m in p.jobs[k].notify ensures m in s {
      ReachesNext(p, j, k, m);
      assert JobRefs(|p.jobs|, p.jobs[k]);
    }
    CancelJobWithin(p, j, s);
  }

  /** What cancelling `j` is to reach: the job alone once it runs or is done, and otherwise it and
      everything reachable from it over `notify`. */
  ghost predicate Hits(p: Pool, j: nat, k: nat)
    requires j < |p.jobs|
  {
    if p.jobs[j].running || p.jobs[j].done then k == j else Reaches(p, j, k)
  }

  /** Cancelling a job that is running or done only leaves the request. */
  lemma CancelStarted(p: Pool, j: nat)
    requires Refs(p) && j < |p.jobs| && (p.jobs[j].running || p.jobs[j].done)
    ensures CancelJob(p, j) == Put(p, j, Mark(p.jobs[j]))
  {
    if p.jobs[j].cancelled {
      assert p.jobs[j := p.jobs[j]] == p.jobs;
    }
  }

  lemma CancelUnstarted(p: Pool, j: nat, k: nat)
    requires Stable(p) && j < |p.jobs| && p.jobs[j].pool
    requires !p.jobs[j].running && !p.jobs[j].done && k < |p.jobs|
    ensures var q := CancelJob(p, j);
      && (q.jobs[k].cancelled <==> p.jobs[k].cancelled || Reaches(p, j, k))
      && (q.jobs[k].done <==> p.jobs[k].done || Reaches(p, j, k))
      && (Reaches(p, j, k) ==> p.jobs[k].starts == 0)
  {
    hide Stable, Reaches, CancelJob;
    CancelsOnlyReached(p, j) by { StableRefs(p); }
    if Reaches(p, j, k) {
      CancelsReached(p, j, k);
    }
  }

  /** Cancelling a job cancels exactly what it hits, besides what was cancelled before.  If the job
      is neither running nor done, all it hits becomes done, and none of it has ever started;
      otherwise no job becomes done. */
  lemma CancelExact(p: Pool, j: nat, k: nat)
    requires Stable(p) && j < |p.jobs| && p.jobs[j].pool && k < |p.jobs|
    ensures var q := CancelJob(p, j);
      && (q.jobs[k].cancelled <==> p.jobs[k].cancelled || Hits(p, j, k))
      && (q.jobs[k].done <==> p.jobs[k].done || (Hits(p, j, k) && !p.jobs[j].running))
      && (Hits(p, j, k) && !p.jobs[j].running && !p.jobs[j].done ==> p.jobs[k].starts == 0)
  {
    hide Stable, Reaches, CancelJob;
    if p.jobs[j].running || p.jobs[j].done {
      CancelStarted(p, j) by { StableRefs(p); }
    } else {
      CancelUnstarted(p, j, k);
    }
  }
}
