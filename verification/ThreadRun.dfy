/** Runs of the thread library: any threads make any calls in any order, a timer interrupt may yield
    between any two sections. The main results are about every run. */
module ThreadRun {
  import opened Wrappers
  import opened ThreadState
  import opened ThreadInvariant
  import opened ThreadSteps

  datatype Event =
    | MakeMutex(m: nat) | MakeCv(c: nat) | Make | Destroy(u: nat)
    | Yields | Locks(m: nat) | Unlocks(m: nat) | Waits(c: nat, m: nat) | LocksAgain | Signals(c: nat)
      | Broadcasts(c: nat)
    | Joins(u: nat) | Swaps(msg: string) | Returns

  /** What user code can do next: a thread that came back from a condition variable can only be
      preempted or take its mutex; the objects it names exist. */
  ghost predicate Allowed(s: State, e: Event) {
    && s.curr.Some? && s.curr.value in s.points && !s.halted
    && (PointOf(s).BeforeLock? ==> e.Yields? || e.LocksAgain?)
    && match e
       case MakeMutex(m) => m !in s.mutexes.free
       case MakeCv(c) => OnCv(c) !in s.queues
       case Destroy(u) => u in s.objects.done
       case Locks(m) => m in s.mutexes.free
       case Unlocks(m) => m in s.mutexes.free
       case Waits(c, m) => OnCv(c) in s.queues && m in s.mutexes.free
       case LocksAgain => PointOf(s).BeforeLock?
       case Signals(c) => OnCv(c) in s.queues
       case Broadcasts(c) => OnCv(c) in s.queues
       case Joins(u) => u in s.objects.done
       case _ => true
  }

  /** Every context, flag, queue and deque the call touches is there to be touched. */
  ghost predicate Defined(s: State, e: Event)
    requires Allowed(s, e)
  {
    match e
    case Destroy(u) => CanDrop(s, u)
    case Yields => CanYield(s)
    case Locks(m) => CanLock(s, m)
    case Unlocks(m) => CanUnlock(s, m)
    case Waits(c, m) => CanWait(s, c, m)
    case LocksAgain => CanLock(s, PointOf(s).mutex)
    case Joins(u) => CanJoin(s, u)
    case Swaps(msg) => CanSwap3(s, msg)
    case Returns => CanFinish(s)
    case _ => Ready in s.queues
  }

  ghost predicate Next(s: State, e: Event, t: State) {
    && Allowed(s, e) && Defined(s, e)
    && match e
       case MakeMutex(m) => t == NewMutex(s, m)
       case MakeCv(c) => t == NewCv(s, c)
       case Make => t == Create(s)
       case Destroy(u) => t == Drop(s, u)
       case Yields => t == Yield(s)
       case Locks(m) => t == Lock(s, m)
       case Unlocks(m) => t == Unlock(s, m).0
       case Waits(c, m) => t == Wait(s, c, m).0
       case LocksAgain => t == Lock(s, PointOf(s).mutex)
       case Signals(c) => t == Signal(s, c)
       case Broadcasts(c) => t == Broadcast(s, c)
       case Joins(u) => t == Join(s, u)
       case Swaps(msg) => t == Swap3(s, msg)
       case Returns => t == Finish(s)
  }

  /** The calls that cannot go on while the ready queue is empty. */
  ghost predicate Stuck(s: State, e: Event)
    requires Runs(s) && Allowed(s, e)
  {
    && s.queues[Ready] == []
    && match e
       case Locks(m) => !s.mutexes.free[m]
       case LocksAgain => PointOf(s).mutex in s.mutexes.free && !s.mutexes.free[PointOf(s).mutex]
       case Waits(c, m) => Holds(s, m) && s.Queue(OnMutex(m)) == []
       case Joins(u) => !s.objects.done[u]
       case Swaps(_) => |s.queues[OnSwap]| < 2
       case Returns => s.Queue(OnJoin(s.curr.value)) == []
       case _ => false
  }

  lemma RelockOk(s: State)
    requires Runs(s) && s.curr.value in s.points && PointOf(s).BeforeLock?
    ensures PointOf(s).mutex in s.mutexes.free
  {
    var t := OnCpu(s);
    MutexKnown(s, s.curr, PointOf(s).mutex);
  }

  /** No call that user code can make touches anything that was freed; every call keeps the invariant,
      and it halts the CPU exactly when it cannot go on and no thread is ready. */
  lemma CallOk(s: State, e: Event, t: State)
    requires Runs(s) && Allowed(s, e) && (Defined(s, e) ==> Next(s, e, t))
    ensures Defined(s, e) && Inv(t) && (t.halted <==> Stuck(s, e))
  {
    match e
    case MakeMutex(m) => NewMutexOk(s, m, t);
    case MakeCv(c) => NewCvOk(s, c, t);
    case Make => CreateOk(s, t);
    case Destroy(u) => DropOk(s, u, t);
    case Yields => YieldOk(s, t);
    case Locks(m) => LockOk(s, m, t);
    case Unlocks(m) => UnlockOk(s, m, t);
    case Waits(c, m) => WaitOk(s, c, m, t);
    case LocksAgain => RelockOk(s); LockOk(s, PointOf(s).mutex, t);
    case Signals(c) => SignalOk(s, c, t);
    case Broadcasts(c) => WakeAllOk(s, OnCv(c), t);
    case Joins(u) => JoinOk(s, u, t);
    case Swaps(msg) => Swap3Ok(s, msg, t);
    case Returns => FinishOk(s, t);
  }

  // ----- runs -----

  ghost predicate Run(ss: seq<State>, es: seq<Event>) {
    && |ss| == |es| + 1 && ss[0] == Init()
    && forall i {:trigger es[i]} :: 0 <= i < |es| ==> Next(ss[i], es[i], ss[i + 1])
  }

  lemma {:induction false} RunInv(ss: seq<State>, es: seq<Event>, i: nat)
    requires Run(ss, es) && i < |ss|
    ensures Inv(ss[i])
  {
    if i == 0 { InitInv(); } else {
      RunInv(ss, es, i - 1);
      var e := es[i - 1];
      assert Next(ss[i - 1], e, ss[i]);
      CallOk(ss[i - 1], e, ss[i]);
    }
  }

  ghost predicate Reachable(s: State) { exists ss, es :: Run(ss, es) && ss[|ss| - 1] == s }

  lemma ReachableInv(s: State) returns (running: Option<nat>)
    requires Reachable(s)
    ensures Inv(s) && Consistent(s, running) && (!s.halted ==> running == s.curr)
  {
    var ss, es :| Run(ss, es) && ss[|ss| - 1] == s;
    RunInv(ss, es, |ss| - 1);
    running := if Consistent(s, None) && s.halted then None else s.curr;
  }

  // ----- what every run keeps -----

  /** swap3: whenever a call has returned, it has its cyclic predecessor's message. */
  lemma Swap3Cycles(s: State, k: nat)
    requires Reachable(s) && k in s.swap.results
    ensures k < |s.swap.calls| && Predecessor(k) < |s.swap.calls| && s.swap.results[k] == s.swap.calls[Predecessor(k)]
  {
    var running := ReachableInv(s);
    assert Answered(s.swap.results, s.swap.calls, k);
  }

  /** Two threads between lock and unlock of one mutex are the same thread, and it is the holder. */
  lemma MutualExclusion(s: State, m: nat, t: nat, u: nat)
    requires Reachable(s) && m in s.mutexes.holder && m in s.mutexes.inside
    requires t in s.mutexes.inside[m] && u in s.mutexes.inside[m]
    ensures t == u && s.mutexes.holder[m] == Some(t) && m in s.mutexes.free && !s.mutexes.free[m]
  {
    var running := ReachableInv(s);
    MutexKnown(s, running, m);
  }

  /** No barging: mutexes are granted in the order of the lock calls, those who wait are the rest of the
      callers, a free mutex has no waiters, and the holder is the last one granted, whose context lists the mutex. */
  lemma GrantedInOrder(s: State, m: nat, t: nat)
    requires Reachable(s) && m in s.mutexes.holder
    ensures IsMutex(s, m) && s.mutexes.locks[m] == s.mutexes.grants[m] + s.queues[OnMutex(m)]
    ensures s.mutexes.free[m] ==> s.mutexes.holder[m] == None && s.queues[OnMutex(m)] == []
    ensures s.mutexes.holder[m] == Some(t) <==> t in s.mutexes.holding && m in s.mutexes.holding[t]
    ensures s.mutexes.holder[m] == Some(t) ==>
      s.mutexes.grants[m] != [] && s.mutexes.grants[m][|s.mutexes.grants[m]| - 1] == t
  {
    var running := ReachableInv(s);
    MutexKnown(s, running, m);
    assert Held(s.mutexes, t, m) <==> Holder(s.mutexes, m, t);
  }

  /** A taken mutex has lost its holder exactly when the thread it was last granted to has been freed. */
  lemma OrphanedExactly(s: State, m: nat)
    requires Reachable(s) && m in s.mutexes.holder
    ensures m in s.mutexes.free && m in s.mutexes.grants
    ensures !s.mutexes.free[m] ==>
      s.mutexes.grants[m] != [] && (s.mutexes.holder[m] == None <==> Last(s.mutexes.grants[m]).value in s.ends.freed)
  {
    var running := ReachableInv(s);
    MutexKnown(s, running, m);
    if s.mutexes.holder[m].Some? {
      var t := s.mutexes.holder[m].value;
      assert Holder(s.mutexes, m, t) && Held(s.mutexes, t, m);
      assert t in s.place && (t in s.ends.freed ==> t in s.ends.finished);
    }
  }

  ghost predicate InOnePlace(s: State, t: nat) {
    if s.curr == Some(t) then forall q {:trigger s.queues[q]} :: q in s.queues ==> t !in s.queues[q]
    else exists q {:trigger s.queues[q]} :: q in s.queues && t in s.queues[q] && OnlyIn(s, t, q)
  }

  ghost predicate OnlyIn(s: State, t: nat, q: Place)
    requires q in s.queues
  {
    (forall r {:trigger s.queues[r]} :: r in s.queues && t in s.queues[r] ==> r == q) && NoDup(s.queues[q])
  }

  /** While the CPU runs, every thread ever made either executes, in exactly one place, or has finished
      and been freed, once; its context, its die flag and its join queue exist exactly while it executes,
      the flag says whether its object is gone, and its object says whether it is done. */
  lemma ThreadsConserved(s: State, t: nat)
    requires Reachable(s) && !s.halted && t < s.ends.next
    ensures t in s.points <==> t !in s.ends.freed
    ensures t in s.points <==> t in s.objects.die
    ensures t in s.points <==> OnJoin(t) in s.queues
    ensures t in s.points ==> InOnePlace(s, t) && s.objects.die[t] == (t !in s.objects.done)
    ensures t in s.objects.done ==> s.objects.done[t] == (t in s.ends.freed)
    ensures NoDup(s.ends.freed)
  {
    var running := ReachableInv(s);
    assert s.ends.finished == s.ends.freed;
    assert t in s.objects.die <==> t in s.place;
    if t in s.points {
      forall q | q in s.queues ensures t in s.queues[q] <==> s.place[t] == q {
        InQueue(s.place, s.queues, s.curr, q, t);
      }
      assert At(s.place, t, Running) <==> s.curr == Some(t);
      if s.curr != Some(t) {
        assert QueueOk(s.place, s.place[t], s.queues[s.place[t]]);
        assert OnlyIn(s, t, s.place[t]);
      }
    }
  }

  // ----- the history says what happened -----

  /** Nothing is logged. */
  ghost predicate Quiet(s: State, r: State) {
    r.ends.finished == s.ends.finished && r.swap.calls == s.swap.calls && r.mutexes.locks == s.mutexes.locks
  }

  lemma DispatchLog(s: State, r: State)
    requires CanDispatch(s) && r == Dispatch(s)
    ensures Quiet(s, r) && r.halted == s.halted
  {}

  lemma BlockLog(s: State, q: Place, point: Point, r: State)
    requires CanBlock(s, q, point) && r == Block(s, q, point)
    ensures Quiet(s, r)
  {
    if s.queues[Ready] != [] { DispatchLog(Park(s, q, point), r); }
  }

  lemma YieldLog(s: State, r: State)
    requires CanYield(s) && r == Yield(s)
    ensures Quiet(s, r)
  {
    if s.queues[Ready] != [] { DispatchLog(Park(s, Ready, PointOf(s)), r); }
  }

  lemma LockLog(s: State, m: nat, r: State)
    requires CanLock(s, m) && r == Lock(s, m)
    ensures Quiet(Called(s, m), r)
  {
    if !s.mutexes.free[m] { BlockLog(Called(s, m), OnMutex(m), InLock(m), r); }
  }

  lemma HandOffLog(s: State, m: nat, r: State)
    requires CanUnlock(s, m) && r == HandOff(s, m)
    ensures Quiet(s, r)
  {}

  lemma WaitLog(s: State, c: nat, m: nat, r: State)
    requires CanWait(s, c, m) && r == Wait(s, c, m).0
    ensures Quiet(s, r)
  {
    if Holds(s, m) {
      HandOffLog(s, m, HandOff(s, m));
      BlockLog(HandOff(s, m), OnCv(c), BeforeLock(m), r);
    }
  }

  lemma JoinLog(s: State, u: nat, r: State)
    requires CanJoin(s, u) && r == Join(s, u)
    ensures Quiet(s, r)
  {
    if !s.objects.done[u] && s.Queue(Ready) != [] { BlockLog(s, OnJoin(u), User, r); }
  }

  lemma SwapLog(s: State, msg: string, r: State)
    requires Runs(s) && CanSwap3(s, msg) && r == Swap3(s, msg)
    ensures r.ends.finished == s.ends.finished && r.mutexes.locks == s.mutexes.locks
    ensures r.swap.calls == if r.halted then s.swap.calls else s.swap.calls + [msg]
  {
    if |s.queues[OnSwap]| < 2 && s.queues[Ready] != [] {
      var o := Offer(s, msg);
      BlockLog(o, OnSwap, InSwap(|s.swap.calls|), r);
      DispatchLog(Park(o, OnSwap, InSwap(|s.swap.calls|)), r);
    }
  }

  lemma FinishLog(s: State, r: State)
    requires CanFinish(s) && r == Finish(s)
    ensures Quiet(Leave(s), r)
  {
    if Leave(s).queues[Ready] != [] { DispatchLog(Leave(s), r); }
  }

  /** The calls each event adds to the history. */
  ghost predicate Logged(s: State, e: Event, t: State)
    requires s.curr.Some? && s.curr.value in s.points && (e.LocksAgain? ==> PointOf(s).BeforeLock?)
  {
    && t.ends.finished == s.ends.finished + (if e.Returns? then [s.curr.value] else [])
    && t.swap.calls == s.swap.calls + (if e.Swaps? && !t.halted then [e.msg] else [])
    && match e
       case MakeMutex(m) => t.mutexes.locks == s.mutexes.locks[m := []]
       case Locks(m) => m in s.mutexes.locks
         && t.mutexes.locks == s.mutexes.locks[m := s.mutexes.locks[m] + [s.curr.value]]
       case LocksAgain =>
         var m := PointOf(s).mutex;
         m in s.mutexes.locks && t.mutexes.locks == s.mutexes.locks[m := s.mutexes.locks[m] + [s.curr.value]]
       case _ => t.mutexes.locks == s.mutexes.locks
  }

  lemma NextLogged(s: State, e: Event, t: State)
    requires Runs(s) && Next(s, e, t)
    ensures Logged(s, e, t)
  {
    match e
    case Yields => YieldLog(s, t);
    case Locks(m) => LockLog(s, m, t);
    case LocksAgain => LockLog(s, PointOf(s).mutex, t);
    case Unlocks(m) => if Holds(s, m) { HandOffLog(s, m, t); }
    case Waits(c, m) => WaitLog(s, c, m, t);
    case Joins(u) => JoinLog(s, u, t);
    case Swaps(msg) => SwapLog(s, msg, t);
    case Returns => FinishLog(s, t);
    case _ =>
  }

  /** A context is freed in the section that follows the thread's return, before anything else can finish;
      no other context is freed. */
  lemma FreedAtOnce(s: State, e: Event, t: State)
    requires Reachable(s) && !s.halted && Next(s, e, t)
    ensures t.ends.last == None && t.ends.freed == s.ends.freed + if e.Returns? then [s.curr.value] else []
  {
    var running := ReachableInv(s);
    CallOk(s, e, t);
    NextLogged(s, e, t);
    assert t.ends.finished == t.ends.freed && s.ends.finished == s.ends.freed;
  }
}
