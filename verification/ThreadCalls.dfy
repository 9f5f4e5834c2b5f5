/** What each call does to the order in which threads run, and what holds when it returns. */
module ThreadCalls {
  import opened Wrappers
  import opened ThreadState
  import opened ThreadInvariant
  import opened ThreadSteps
  import opened ThreadRun

  // ----- who becomes ready, and where the caller goes -----

  /** The threads that a call makes ready: a new one, the first of a queue, or all of it. */
  datatype Woken = Nobody | New(thread: nat) | FirstOf(from: Place) | AllOf(from: Place)

  /** Where the caller goes: it keeps the CPU, waits at the back of a queue, or is gone. */
  datatype Caller = Stays | WaitsAt(queue: Place) | Gone

  ghost predicate IsHolder(s: State, m: nat) { m in s.mutexes.holder && s.mutexes.holder[m] == s.curr }

  ghost predicate IsFree(s: State, m: nat) { m in s.mutexes.free && s.mutexes.free[m] }

  ghost function Wakes(s: State, e: Event): Woken
    requires Allowed(s, e)
  {
    match e
    case Make => New(s.ends.next)
    case Unlocks(m) => if IsHolder(s, m) then FirstOf(OnMutex(m)) else Nobody
    case Waits(_, m) => if IsHolder(s, m) then FirstOf(OnMutex(m)) else Nobody
    case Signals(c) => FirstOf(OnCv(c))
    case Broadcasts(c) => AllOf(OnCv(c))
    case Swaps(_) => if |s.Queue(OnSwap)| == 2 then AllOf(OnSwap) else Nobody
    case Returns => AllOf(OnJoin(s.curr.value))
    case _ => Nobody
  }

  ghost function Goes(s: State, e: Event): Caller
    requires Allowed(s, e)
  {
    match e
    case Yields => if s.Queue(Ready) == [] then Stays else WaitsAt(Ready)
    case Locks(m) => if IsFree(s, m) then Stays else WaitsAt(OnMutex(m))
    case LocksAgain => if IsFree(s, PointOf(s).mutex) then Stays else WaitsAt(OnMutex(PointOf(s).mutex))
    case Waits(c, m) => if IsHolder(s, m) then WaitsAt(OnCv(c)) else Stays
    case Joins(u) => if s.objects.done[u] then Stays else WaitsAt(OnJoin(u))
    case Swaps(_) => if |s.Queue(OnSwap)| < 2 then WaitsAt(OnSwap) else Stays
    case Returns => Gone
    case _ => Stays
  }

  function TakenFrom(s: State, w: Woken): seq<nat> {
    match w
    case Nobody => []
    case New(t) => [t]
    case FirstOf(q) => if s.Queue(q) == [] then [] else [s.Queue(q)[0]]
    case AllOf(q) => s.Queue(q)
  }

  function LeftIn(s: State, w: Woken, q: Place): seq<nat> {
    if w == AllOf(q) then [] else if w == FirstOf(q) && s.Queue(q) != [] then s.Queue(q)[1..] else s.Queue(q)
  }

  /** The ready queue is first come, first served: those who become ready go to its back, a caller that leaves the
      CPU leaves it to the front, and every other queue gains the caller at its back or loses from its front. */
  ghost predicate Moves(s: State, w: Woken, c: Caller, t: State)
    requires s.curr.Some?
  {
    var ready := s.Queue(Ready) + TakenFrom(s, w) + (if c == WaitsAt(Ready) then [s.curr.value] else []);
    && (if c.Stays? then t.curr == s.curr && t.Queue(Ready) == ready
        else ready != [] && t.curr == Some(ready[0]) && t.Queue(Ready) == ready[1..])
    && forall q {:trigger t.Queue(q)} :: q != Ready ==>
         t.Queue(q) == LeftIn(s, w, q) + if c == WaitsAt(q) then [s.curr.value] else []
  }

  lemma DispatchMoves(s: State, r: State)
    requires CanDispatch(s) && r == Dispatch(s)
    ensures r.curr == Some(s.queues[Ready][0]) && r.queues == s.queues[Ready := s.queues[Ready][1..]]
  {}

  /** A call that wakes as `h` says and then blocks its caller. */
  lemma BlockMoves(s: State, w: Woken, h: State, q: Place, point: Point, r: State)
    requires s.curr.Some? && h.curr == s.curr && Moves(s, w, Stays, h) && q != Ready
    requires CanBlock(h, q, point) && r == Block(h, q, point) && !r.halted
    ensures Moves(s, w, WaitsAt(q), r)
  {
    DispatchMoves(Park(h, q, point), r);
    forall p | p != Ready ensures r.Queue(p) == LeftIn(s, w, p) + if p == q then [s.curr.value] else [] {
      assert h.Queue(p) == LeftIn(s, w, p) + [];
    }
  }

  lemma NoneMove(s: State, h: State)
    requires s.curr.Some? && h.curr == s.curr && h.queues == s.queues
    ensures Moves(s, Nobody, Stays, h)
  {}

  lemma YieldMoves(s: State, t: State)
    requires Runs(s) && CanYield(s) && t == Yield(s)
    ensures Moves(s, Nobody, if s.Queue(Ready) == [] then Stays else WaitsAt(Ready), t)
  {
    if s.queues[Ready] == [] { NoneMove(s, t); } else { DispatchMoves(Park(s, Ready, PointOf(s)), t); }
  }

  lemma LockMoves(s: State, m: nat, t: State)
    requires Runs(s) && CanLock(s, m) && t == Lock(s, m) && !t.halted
    ensures Moves(s, Nobody, if IsFree(s, m) then Stays else WaitsAt(OnMutex(m)), t)
  {
    if s.mutexes.free[m] { NoneMove(s, t); } else {
      NoneMove(s, Called(s, m));
      BlockMoves(s, Nobody, Called(s, m), OnMutex(m), InLock(m), t);
    }
  }

  lemma PassMoves(s: State, m: nat, t: State)
    requires CanUnlock(s, m) && s.queues[OnMutex(m)] != [] && t == Pass(s, m, s.queues[OnMutex(m)][0])
    ensures Moves(s, FirstOf(OnMutex(m)), Stays, t) && t.curr == s.curr
  {}

  lemma HandOffMoves(s: State, m: nat, t: State)
    requires CanUnlock(s, m) && t == HandOff(s, m)
    ensures Moves(s, FirstOf(OnMutex(m)), Stays, t) && t.curr == s.curr
  {
    if s.queues[OnMutex(m)] != [] { PassMoves(s, m, t); }
  }

  lemma WaitMoves(s: State, c: nat, m: nat, t: State)
    requires Runs(s) && CanWait(s, c, m) && t == Wait(s, c, m).0 && Holds(s, m) && !t.halted
    ensures Moves(s, FirstOf(OnMutex(m)), WaitsAt(OnCv(c)), t)
  {
    HandOffMoves(s, m, HandOff(s, m));
    BlockMoves(s, FirstOf(OnMutex(m)), HandOff(s, m), OnCv(c), BeforeLock(m), t);
  }

  lemma JoinMoves(s: State, u: nat, t: State)
    requires Runs(s) && CanJoin(s, u) && t == Join(s, u) && !t.halted
    ensures Moves(s, Nobody, if s.objects.done[u] then Stays else WaitsAt(OnJoin(u)), t)
  {
    NoneMove(s, s);
    if !s.objects.done[u] { BlockMoves(s, Nobody, s, OnJoin(u), User, t); }
  }

  lemma SwapMoves(s: State, msg: string, t: State)
    requires Runs(s) && CanSwap3(s, msg) && t == Swap3(s, msg) && !t.halted
    ensures if |s.Queue(OnSwap)| < 2 then Moves(s, Nobody, WaitsAt(OnSwap), t) else Moves(s, AllOf(OnSwap), Stays, t)
  {
    if |s.queues[OnSwap]| < 2 {
      NoneMove(s, Offer(s, msg));
      BlockMoves(s, Nobody, Offer(s, msg), OnSwap, InSwap(|s.swap.calls|), t);
    }
  }

  lemma LeaveQueues(s: State, l: State)
    requires Runs(s) && CanLeave(s) && l == Leave(s)
    ensures l.Queue(Ready) == s.Queue(Ready) + s.Queue(OnJoin(s.curr.value))
    ensures forall q {:trigger l.Queue(q)} :: q != Ready ==>
      l.Queue(q) == if q == OnJoin(s.curr.value) then [] else s.Queue(q)
  {}

  lemma FinishMoves(s: State, t: State)
    requires Runs(s) && CanFinish(s) && t == Finish(s) && !t.halted
    ensures Moves(s, AllOf(OnJoin(s.curr.value)), Gone, t)
  {
    var l := Leave(s);
    LeaveQueues(s, l);
    DispatchMoves(l, t);
    LeftMoves(s, l, t);
  }

  lemma LeftMoves(s: State, l: State, t: State)
    requires s.curr.Some? && l.Queue(Ready) == s.Queue(Ready) + s.Queue(OnJoin(s.curr.value)) && Ready in l.queues
    requires forall q {:trigger l.Queue(q)} :: q != Ready ==>
      l.Queue(q) == if q == OnJoin(s.curr.value) then [] else s.Queue(q)
    requires l.queues[Ready] != [] && t.curr == Some(l.queues[Ready][0])
    requires t.queues == l.queues[Ready := l.queues[Ready][1..]]
    ensures Moves(s, AllOf(OnJoin(s.curr.value)), Gone, t)
  {
    forall q | q != Ready ensures t.Queue(q) == l.Queue(q) {}
  }

  lemma MakeMoves(s: State, t: State)
    requires Runs(s) && t == Create(s)
    ensures Moves(s, New(s.ends.next), Stays, t)
  {
    assert OnJoin(s.ends.next) !in s.queues;
  }

  lemma SignalMoves(s: State, c: nat, t: State)
    requires Runs(s) && OnCv(c) in s.queues && t == Signal(s, c)
    ensures Moves(s, FirstOf(OnCv(c)), Stays, t)
  {}

  lemma BroadcastMoves(s: State, c: nat, t: State)
    requires Runs(s) && OnCv(c) in s.queues && t == Broadcast(s, c)
    ensures Moves(s, AllOf(OnCv(c)), Stays, t)
  {}

  lemma MutexMoves(s: State, e: Event, t: State)
    requires Runs(s) && Next(s, e, t) && !t.halted
    requires e.MakeMutex? || e.Locks? || e.LocksAgain? || e.Unlocks? || e.Waits?
    ensures Moves(s, Wakes(s, e), Goes(s, e), t)
  {
    match e
    case MakeMutex(m) => NoWaiters(s, m); NewQueue(s, OnMutex(m), t);
    case Locks(m) => LockMoves(s, m, t);
    case LocksAgain => LockMoves(s, PointOf(s).mutex, t);
    case Unlocks(m) => if IsHolder(s, m) { HandOffMoves(s, m, t); } else { NoneMove(s, t); }
    case Waits(c, m) => if IsHolder(s, m) { WaitMoves(s, c, m, t); } else { NoneMove(s, t); }
  }

  /** Every call of every thread moves threads as the two tables say. */
  lemma CallMoves(s: State, e: Event, t: State)
    requires Runs(s) && Next(s, e, t) && !t.halted
    ensures Moves(s, Wakes(s, e), Goes(s, e), t)
  {
    match e
    case MakeCv(c) => NewQueue(s, OnCv(c), t);
    case Make => MakeMoves(s, t);
    case Destroy(u) => NoneMove(s, t);
    case Yields => YieldMoves(s, t);
    case Signals(c) => SignalMoves(s, c, t);
    case Broadcasts(c) => BroadcastMoves(s, c, t);
    case Joins(u) => JoinMoves(s, u, t);
    case Swaps(msg) => SwapMoves(s, msg, t); AtMostTwo(s);
    case Returns => FinishMoves(s, t);
    case _ => MutexMoves(s, e, t);
  }

  lemma NoWaiters(s: State, m: nat)
    requires Runs(s) && m !in s.mutexes.free
    ensures s.Queue(OnMutex(m)) == []
  {
    if m in s.mutexes.holder { MutexKnown(s, s.curr, m); }
  }

  lemma AtMostTwo(s: State)
    requires Runs(s)
    ensures OnSwap in s.queues && |s.queues[OnSwap]| <= 2
  {}

  lemma NewQueue(s: State, q: Place, t: State)
    requires s.curr.Some? && t.curr == s.curr && t.queues == s.queues[q := []] && s.Queue(q) == [] && q != Ready
    ensures Moves(s, Nobody, Stays, t)
  {}

  /** So a ready thread is run after exactly those who were ready before it. */
  lemma FirstComeFirstServed(s: State, e: Event, t: State, p: nat)
    requires Runs(s) && Next(s, e, t) && !t.halted && p < |s.queues[Ready]|
    ensures
      if Goes(s, e).Stays? then t.curr == s.curr && p < |t.Queue(Ready)| && t.Queue(Ready)[p] == s.queues[Ready][p]
      else if p == 0 then t.curr == Some(s.queues[Ready][0])
      else p - 1 < |t.Queue(Ready)| && t.Queue(Ready)[p - 1] == s.queues[Ready][p]
  {
    CallMoves(s, e, t);
  }

  // ----- who holds a mutex -----

  /** The call locks mutex `m`: lock itself, or wait when it takes its mutex again. */
  ghost predicate IsLock(s: State, e: Event, m: nat)
    requires Allowed(s, e)
  {
    e == Locks(m) || (e.LocksAgain? && PointOf(s).mutex == m)
  }

  /** The call is the holder's, and releases the mutex. */
  ghost predicate Releases(s: State, e: Event, m: nat) {
    IsHolder(s, m) && (e == Unlocks(m) || (e.Waits? && e.m == m))
  }

  /** Whose the mutex is after a call. */
  ghost predicate Passes(s: State, e: Event, m: nat, t: State)
    requires Allowed(s, e)
  {
    if Releases(s, e, m) then Given(s.mutexes, s.Queue(OnMutex(m)), m, t.mutexes)
    else if IsLock(s, e, m) && IsFree(s, m) then Given(s.mutexes, [s.curr.value], m, t.mutexes)
    else if e.Returns? && IsHolder(s, m) then
      m in t.mutexes.holder && t.mutexes.holder[m] == None && m in t.mutexes.free && !t.mutexes.free[m]
    else SameAt(s.mutexes, t.mutexes, m)
  }

  /** The mutex is free, or the first waiter has it. */
  ghost predicate Given(x: Mutexes, waiting: seq<nat>, m: nat, y: Mutexes) {
    && m in x.grants && m in y.holder && m in y.free && m in y.grants
    && if waiting == [] then y.holder[m] == None && y.free[m] && y.grants[m] == x.grants[m]
       else y.holder[m] == Some(waiting[0]) && !y.free[m] && y.grants[m] == x.grants[m] + [waiting[0]]
  }

  ghost predicate SameAt(x: Mutexes, y: Mutexes, m: nat) {
    && m in x.holder && m in y.holder && y.holder[m] == x.holder[m]
    && m in x.free && m in y.free && y.free[m] == x.free[m]
    && m in x.grants && m in y.grants && y.grants[m] == x.grants[m]
  }

  /** Dispatching only lets the next thread return from lock. */
  lemma DispatchPasses(s: State, r: State)
    requires CanDispatch(s) && s.ends.last == None && r == Dispatch(s)
    ensures r.mutexes == s.mutexes.(inside := r.mutexes.inside)
  {}

  lemma BlockPasses(s: State, q: Place, point: Point, r: State)
    requires CanBlock(s, q, point) && s.ends.last == None && r == Block(s, q, point)
    ensures r.mutexes == s.mutexes.(inside := r.mutexes.inside)
  {
    if s.queues[Ready] != [] { DispatchPasses(Park(s, q, point), r); }
  }

  lemma LockPasses(s: State, n: nat, m: nat, r: State)
    requires Runs(s) && CanLock(s, n) && r == Lock(s, n) && m in s.mutexes.holder && m in s.mutexes.grants
    requires m in s.mutexes.free
    ensures m == n && s.mutexes.free[m] ==> Given(s.mutexes, [s.curr.value], m, r.mutexes)
    ensures !(m == n && s.mutexes.free[m]) ==> SameAt(s.mutexes, r.mutexes, m)
  {
    if !s.mutexes.free[n] { BlockPasses(Called(s, n), OnMutex(n), InLock(n), r); }
  }

  lemma FinishPasses(s: State, m: nat, r: State)
    requires Runs(s) && CanFinish(s) && r == Finish(s) && m in s.mutexes.holder && m in s.mutexes.grants
    requires m in s.mutexes.free
    ensures m in r.mutexes.free && r.mutexes.free[m] == s.mutexes.free[m]
    ensures s.mutexes.holder[m] == s.curr ==> m in r.mutexes.holder && r.mutexes.holder[m] == None
    ensures s.mutexes.holder[m] != s.curr ==> SameAt(s.mutexes, r.mutexes, m)
  {
    var t := s.curr.value;
    assert Held(s.mutexes, t, m) <==> Holder(s.mutexes, m, t);
  }

  lemma HandOffPasses(s: State, n: nat, m: nat, h: State)
    requires Runs(s) && CanUnlock(s, n) && Holds(s, n) && h == HandOff(s, n)
    requires m in s.mutexes.holder && m in s.mutexes.grants && m in s.mutexes.free
    ensures m != n ==> SameAt(s.mutexes, h.mutexes, m)
    ensures m == n ==> Given(s.mutexes, s.Queue(OnMutex(m)), m, h.mutexes)
  {}

  lemma WaitPasses(s: State, c: nat, n: nat, m: nat, r: State)
    requires Runs(s) && CanWait(s, c, n) && r == Wait(s, c, n).0 && Holds(s, n)
    requires m in s.mutexes.holder && m in s.mutexes.grants && m in s.mutexes.free
    ensures m != n ==> SameAt(s.mutexes, r.mutexes, m)
    ensures m == n ==> Given(s.mutexes, s.Queue(OnMutex(m)), m, r.mutexes)
  {
    HandOffPasses(s, n, m, HandOff(s, n));
    BlockPasses(HandOff(s, n), OnCv(c), BeforeLock(n), r);
  }

  lemma SwapPasses(s: State, msg: string, r: State)
    requires Runs(s) && CanSwap3(s, msg) && r == Swap3(s, msg)
    ensures r.mutexes == s.mutexes.(inside := r.mutexes.inside)
  {
    if |s.queues[OnSwap]| < 2 && s.queues[Ready] != [] {
      BlockPasses(Offer(s, msg), OnSwap, InSwap(|s.swap.calls|), r);
    }
  }

  lemma JoinPasses(s: State, u: nat, r: State)
    requires Runs(s) && CanJoin(s, u) && r == Join(s, u)
    ensures r.mutexes == s.mutexes.(inside := r.mutexes.inside)
  {
    if !s.objects.done[u] && s.queues[Ready] != [] { BlockPasses(s, OnJoin(u), User, r); }
  }

  lemma YieldPasses(s: State, r: State)
    requires Runs(s) && CanYield(s) && r == Yield(s)
    ensures r.mutexes == s.mutexes.(inside := r.mutexes.inside)
  {
    if s.queues[Ready] != [] { DispatchPasses(Park(s, Ready, PointOf(s)), r); }
  }

  ghost predicate Known(s: State, m: nat) { m in s.mutexes.holder && m in s.mutexes.grants && m in s.mutexes.free }

  lemma ReleasePasses(s: State, e: Event, m: nat, t: State)
    requires Runs(s) && Next(s, e, t) && Known(s, m) && (e.Unlocks? || e.Waits?)
    ensures Passes(s, e, m, t)
  {
    if IsHolder(s, e.m) {
      if e.Unlocks? { HandOffPasses(s, e.m, m, t); } else { WaitPasses(s, e.c, e.m, m, t); }
    }
  }

  lemma LocksPass(s: State, e: Event, m: nat, t: State)
    requires Runs(s) && Next(s, e, t) && Known(s, m) && (e.Locks? || e.LocksAgain?)
    ensures Passes(s, e, m, t)
  {
    var n := if e.Locks? then e.m else PointOf(s).mutex;
    LockPasses(s, n, m, t);
    assert IsLock(s, e, m) <==> m == n;
  }

  lemma ReturnPasses(s: State, m: nat, t: State)
    requires Runs(s) && Next(s, Returns, t) && Known(s, m) && (IsFree(s, m) ==> s.mutexes.holder[m] == None)
    ensures Passes(s, Returns, m, t)
  {
    FinishPasses(s, m, t);
  }

  lemma OtherPasses(s: State, e: Event, m: nat, t: State)
    requires Next(s, e, t) && m in s.mutexes.holder && m in s.mutexes.grants && m in s.mutexes.free
    requires e.MakeMutex? || e.MakeCv? || e.Make? || e.Destroy? || e.Signals? || e.Broadcasts?
    ensures SameAt(s.mutexes, t.mutexes, m)
  {}

  lemma RestPasses(s: State, e: Event, m: nat, t: State)
    requires Runs(s) && Next(s, e, t) && Known(s, m)
    requires !e.Unlocks? && !e.Waits? && !e.Locks? && !e.LocksAgain? && !e.Returns?
    ensures Passes(s, e, m, t)
  {
    match e
    case Yields => YieldPasses(s, t);
    case Joins(u) => JoinPasses(s, u, t);
    case Swaps(msg) => SwapPasses(s, msg, t);
    case _ => OtherPasses(s, e, m, t);
  }

  /** The holder's unlock, or wait, frees the mutex or makes the first waiter its holder; lock on a free mutex makes
      the caller its holder; a thread that ends while it holds one leaves it taken without a holder; nothing else
      changes whose it is. */
  lemma CallPasses(s: State, e: Event, t: State, m: nat)
    requires Runs(s) && Next(s, e, t) && m in s.mutexes.holder
    ensures m in s.mutexes.grants && Passes(s, e, m, t)
  {
    MutexKnown(s, s.curr, m);
    if e.Unlocks? || e.Waits? { ReleasePasses(s, e, m, t); }
    else if e.Locks? || e.LocksAgain? { LocksPass(s, e, m, t); }
    else if e.Returns? { ReturnPasses(s, m, t); }
    else { RestPasses(s, e, m, t); }
  }

  /** unlock by the holder succeeds, takes the mutex from the caller and gives it to the first waiter, who becomes
      ready; unlock by anyone else fails and changes nothing. */
  lemma UnlockHandsOver(s: State, m: nat, t: State, u: nat)
    requires Reachable(s) && Next(s, Unlocks(m), t) && s.curr == Some(u)
    ensures m in s.mutexes.holder && (Unlock(s, m).1 <==> s.mutexes.holder[m] == Some(u))
    ensures s.mutexes.holder[m] != Some(u) ==> t == s
    ensures s.mutexes.holder[m] == Some(u) ==>
      && !t.halted && t.curr == s.curr && u in t.mutexes.holding && m !in t.mutexes.holding[u]
      && Given(s.mutexes, s.Queue(OnMutex(m)), m, t.mutexes)
      && var waiting := s.Queue(OnMutex(m));
      if waiting == [] then t.Queue(Ready) == s.Queue(Ready)
      else t.Queue(OnMutex(m)) == waiting[1..] && t.Queue(Ready) == s.Queue(Ready) + [waiting[0]]
  {
    var running := ReachableInv(s);
    MutexKnown(s, s.curr, m);
    if s.mutexes.holder[m] == Some(u) { HolderUnlocks(s, m, t, u); }
  }

  lemma HolderUnlocks(s: State, m: nat, t: State, u: nat)
    requires Runs(s) && CanUnlock(s, m) && Holds(s, m) && t == HandOff(s, m) && s.curr == Some(u) && Known(s, m)
    ensures !t.halted && t.curr == s.curr && u in t.mutexes.holding && m !in t.mutexes.holding[u]
    ensures Given(s.mutexes, s.Queue(OnMutex(m)), m, t.mutexes)
    ensures Moves(s, FirstOf(OnMutex(m)), Stays, t)
  {
    HandOffOk(s, m, t);
    HandOffPasses(s, m, m, t);
    HandOffMoves(s, m, t);
    NewOwner(s, m, t, u);
    OthersMutex(t, u, m);
  }

  lemma NewOwner(s: State, m: nat, t: State, u: nat)
    requires Runs(s) && s.curr == Some(u) && OnMutex(m) in s.queues
    requires Given(s.mutexes, s.Queue(OnMutex(m)), m, t.mutexes)
    ensures m in t.mutexes.holder && t.mutexes.holder[m] != Some(u)
  {
    if s.queues[OnMutex(m)] != [] {
      assert s.queues[OnMutex(m)][0] in s.queues[OnMutex(m)] && At(s.place, u, Running);
      InQueue(s.place, s.queues, s.curr, OnMutex(m), s.queues[OnMutex(m)][0]);
    }
  }

  /** Who is not the holder of a mutex does not list it. */
  lemma OthersMutex(t: State, u: nat, m: nat)
    requires Inv(t) && !t.halted && m in t.mutexes.holder
    ensures u in t.mutexes.holding && t.mutexes.holder[m] != Some(u) ==> m !in t.mutexes.holding[u]
    ensures t.curr == Some(u) ==> u in t.mutexes.holding
  {
    assert Held(t.mutexes, u, m) <==> Holder(t.mutexes, m, u);
    if t.curr == Some(u) { var _ := OnCpu(t); }
  }

  // ----- where a thread goes on -----

  /** A thread that is not running stays at the point where it stopped. When it runs again it returns from there:
      from lock as one that is inside, from swap3 with its answer, and from waiting for a condition it goes on to
      take its mutex. */
  ghost predicate GoesOn(s: State, v: nat, r: State) {
    && v in s.points && v in r.points && s.swap.results.Keys <= r.swap.results.Keys
    && if r.curr != Some(v) then r.points[v] == s.points[v]
       else
         match s.points[v]
         case BeforeLock(_) => r.points[v] == s.points[v]
         case InLock(m) => r.points[v] == User && m in r.mutexes.inside && v in r.mutexes.inside[m]
         case InSwap(k) => r.points[v] == User && k in r.swap.results
         case _ => r.points[v] == User
  }

  lemma DispatchGoesOn(s: State, v: nat, r: State)
    requires CanDispatch(s) && v in s.points && s.ends.last != Some(v) && r == Dispatch(s)
    ensures GoesOn(s, v, r)
  {}

  /** `h` has parked the caller; nothing else has moved. */
  lemma ParkedGoesOn(s: State, h: State, v: nat, r: State)
    requires v in s.points && v in h.points && h.points[v] == s.points[v] && s.swap.results == h.swap.results
    requires GoesOn(h, v, r)
    ensures GoesOn(s, v, r)
  {}

  lemma BlockGoesOn(s: State, q: Place, point: Point, v: nat, r: State)
    requires CanBlock(s, q, point) && s.ends.last == None && v in s.points && s.curr != Some(v)
    requires r == Block(s, q, point)
    ensures GoesOn(s, v, r)
  {
    var p := Park(s, q, point);
    if s.queues[Ready] != [] {
      DispatchGoesOn(p, v, r);
      ParkedGoesOn(s, p, v, r);
    }
  }

  lemma YieldGoesOn(s: State, v: nat, r: State)
    requires Runs(s) && CanYield(s) && v in s.points && s.curr != Some(v) && r == Yield(s)
    ensures GoesOn(s, v, r)
  {
    if s.queues[Ready] != [] {
      var p := Park(s, Ready, PointOf(s));
      DispatchGoesOn(p, v, r);
      ParkedGoesOn(s, p, v, r);
    }
  }

  lemma LockGoesOn(s: State, m: nat, v: nat, r: State)
    requires Runs(s) && CanLock(s, m) && v in s.points && s.curr != Some(v) && r == Lock(s, m)
    ensures GoesOn(s, v, r)
  {
    if !s.mutexes.free[m] {
      BlockGoesOn(Called(s, m), OnMutex(m), InLock(m), v, r);
      ParkedGoesOn(s, Called(s, m), v, r);
    }
  }

  lemma WaitGoesOn(s: State, c: nat, m: nat, v: nat, r: State)
    requires Runs(s) && CanWait(s, c, m) && v in s.points && s.curr != Some(v) && r == Wait(s, c, m).0
    ensures GoesOn(s, v, r)
  {
    if Holds(s, m) {
      var h := HandOff(s, m);
      assert h.curr == s.curr && h.points == s.points && h.ends == s.ends && h.swap == s.swap;
      BlockGoesOn(h, OnCv(c), BeforeLock(m), v, r);
      ParkedGoesOn(s, h, v, r);
    }
  }

  lemma SwapGoesOn(s: State, msg: string, v: nat, r: State)
    requires Runs(s) && CanSwap3(s, msg) && v in s.points && s.curr != Some(v) && r == Swap3(s, msg)
    ensures GoesOn(s, v, r)
  {
    if |s.queues[OnSwap]| < 2 && s.queues[Ready] != [] {
      var o := Offer(s, msg);
      BlockGoesOn(o, OnSwap, InSwap(|s.swap.calls|), v, r);
      ParkedGoesOn(s, o, v, r);
    }
  }

  lemma FinishGoesOn(s: State, v: nat, r: State)
    requires Runs(s) && CanFinish(s) && v in s.points && s.curr != Some(v) && r == Finish(s)
    ensures GoesOn(s, v, r)
  {
    var l := Leave(s);
    if l.queues[Ready] != [] {
      DispatchGoesOn(l, v, r);
      ParkedGoesOn(s, l, v, r);
    }
  }

  lemma CallGoesOn(s: State, e: Event, t: State, v: nat)
    requires Runs(s) && Next(s, e, t) && v in s.points && s.curr != Some(v)
    ensures GoesOn(s, v, t)
  {
    match e
    case Yields => YieldGoesOn(s, v, t);
    case Locks(m) => LockGoesOn(s, m, v, t);
    case LocksAgain => LockGoesOn(s, PointOf(s).mutex, v, t);
    case Waits(c, m) => WaitGoesOn(s, c, m, v, t);
    case Joins(u) => if !s.objects.done[u] && s.queues[Ready] != [] { BlockGoesOn(s, OnJoin(u), User, v, t); }
    case Swaps(msg) => SwapGoesOn(s, msg, v, t);
    case Returns => FinishGoesOn(s, v, t);
    case _ => OtherGoesOn(s, e, v, t);
  }

  lemma OtherGoesOn(s: State, e: Event, v: nat, t: State)
    requires Runs(s) && Next(s, e, t) && v in s.points && s.curr != Some(v)
    requires e.MakeMutex? || e.MakeCv? || e.Make? || e.Destroy? || e.Unlocks? || e.Signals? || e.Broadcasts?
    ensures GoesOn(s, v, t)
  {
    assert s.ends.next !in s.points;
  }
}
