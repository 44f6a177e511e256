/** The classes `Lock` and `ConditionVariable`.  A call of the thread library that blocks is taken
    at the moment it returns: taking the mutex needs it to be free, and `wait` is cut in two at the
    point where the thread sleeps.  Every method computes the functions the steps of `Monitor` are
    made of. */
module LockClass {
  import opened Monitor
  import opened Options

  class Lock {
    var mutex: Option<nat>
    var owner: Option<nat>
    var locked: int
    const recursive: bool

    function View(waiting: int): Fields
      reads this
    {
      Fields(mutex, owner, locked, recursive, waiting)
    }

    constructor (rec: bool)
      ensures View(0) == Fields(None, None, 0, rec, 0)
    {
      mutex, owner, locked, recursive := None, None, 0, rec;
    }

    /** `lock`.  Reports whether the process aborts. */
    method Acquire(self: nat) returns (aborted: bool)
      requires owner == Some(self) || mutex.None?
      modifies this
      ensures aborted <==> old(owner == Some(self) && locked != 0 && !recursive)
      ensures !aborted ==> owner == Some(self) && locked == old(locked) + 1
      ensures !aborted ==> mutex == if old(owner) == Some(self) then old(mutex) else Some(self)
      ensures View(0) == (
        if aborted then old(View(0))
        else if old(owner) == Some(self) then old(View(0)).Owned(self)
        else old(View(0)).Taken(self).Owned(self))
    {
      if owner == Some(self) {
        if locked != 0 && !recursive {
          return true;
        }
      } else {
        mutex := Some(self);
      }
      owner := Some(self);
      locked := locked + 1;
      aborted := false;
    }

    /** `unlock`. */
    method Release(self: nat) returns (aborted: bool)
      modifies this
      ensures aborted <==> old(owner) != Some(self)
      ensures !aborted ==> locked == old(locked) - 1
      ensures !aborted && locked == 0 ==> owner == None && mutex == None
      ensures !aborted && locked != 0 ==> owner == Some(self) && mutex == old(mutex)
      ensures View(0) == (
        if aborted then old(View(0))
        else if old(locked) == 1 then old(View(0)).Unlocked().Freed()
        else old(View(0)).Unlocked())
    {
      if owner != Some(self) {
        return true;
      }
      locked := locked - 1;
      if locked == 0 {
        owner := None;
        mutex := None;
      }
      aborted := false;
    }

    method BreakLock() returns (depth: int)
      modifies this`owner, this`locked
      ensures depth == old(locked) && owner == None && locked == 0
    {
      depth := locked;
      owner := None;
      locked := 0;
    }

    method ResumeLock(self: nat, depth: int)
      modifies this`owner, this`locked
      ensures owner == Some(self) && locked == depth
    {
      owner := Some(self);
      locked := depth;
    }
  }

  class ConditionVariable {
    const lock: Lock
    var waiting: int

    function View(): Fields
      reads this, lock
    {
      lock.View(waiting)
    }

    constructor (l: Lock)
      ensures lock == l && waiting == 0
    {
      lock, waiting := l, 0;
    }

    /** `wait` up to the point where the thread sleeps and the mutex is free. */
    method FallAsleep(self: nat) returns (aborted: bool, depth: int)
      modifies this, lock
      ensures aborted <==> !old(View()).IsLocked(self)
      ensures !aborted ==> depth == old(lock.locked) && View() == old(View()).Broken().Freed()
    {
      depth := 0;
      if lock.locked == 0 || lock.owner != Some(self) {
        return true, depth;
      }
      waiting := waiting + 1;
      depth := lock.BreakLock();
      lock.mutex := None;
      aborted := false;
    }

    /** `wait` from the point where the thread was woken and finds the mutex free. */
    method WakeUp(self: nat, depth: int)
      requires lock.mutex.None?
      modifies this, lock
      ensures View() == old(View()).Taken(self).Resumed(self, depth)
    {
      lock.mutex := Some(self);
      waiting := waiting - 1;
      lock.ResumeLock(self, depth);
    }

    /** `signal` and `broadcast`, up to the call that is made only when somebody is counted. */
    method Announce(self: nat) returns (aborted: bool, sent: bool)
      ensures aborted <==> !View().IsLocked(self)
      ensures sent <==> !aborted && waiting != 0
    {
      if lock.locked == 0 || lock.owner != Some(self) {
        return true, false;
      }
      return false, waiting != 0;
    }

    /** `wait`, when whoever ran in between left the fields as they were: the lock is exactly as
        deep as before. */
    method WaitUndisturbed(self: nat) returns (depth: int)
      requires View().IsLocked(self) && lock.mutex == Some(self)
      modifies this, lock
      ensures View() == old(View())
    {
      var aborted;
      aborted, depth := FallAsleep(self);
      WakeUp(self, depth);
    }
  }
}
