/** What a thread can rely on when a call has returned, in every run. A call of thread `t` has returned when `t`
    runs again. */
module ThreadReturns {
  import opened Wrappers
  import opened ThreadState
  import opened ThreadInvariant
  import opened ThreadSteps
  import opened ThreadRun
  import opened ThreadCalls

  /** Call `i` of the run is `e`, made by `t`; at state `k`, later, `t` runs. */
  ghost predicate Returned(ss: seq<State>, es: seq<Event>, i: nat, e: Event, t: nat, k: nat) {
    && Run(ss, es) && i < k < |ss| && es[i] == e && ss[i].curr == Some(t)
    && ss[k].curr == Some(t) && !ss[k].halted
  }

  /** It is the first time that it runs again. */
  ghost predicate JustReturned(ss: seq<State>, es: seq<Event>, i: nat, e: Event, t: nat, k: nat) {
    Returned(ss, es, i, e, t, k) && forall j {:trigger ss[j]} :: i < j < k ==> ss[j].curr != Some(t)
  }

  lemma InRun(ss: seq<State>, es: seq<Event>, i: nat)
    requires Run(ss, es) && i < |es|
    ensures Runs(ss[i]) && Next(ss[i], es[i], ss[i + 1])
    ensures !ss[i + 1].halted ==> Runs(ss[i + 1])
  {
    RunInv(ss, es, i);
    RunInv(ss, es, i + 1);
    assert Next(ss[i], es[i], ss[i + 1]);
  }

  /** The CPU has not halted before the last state. */
  lemma NotHalted(ss: seq<State>, es: seq<Event>, i: nat)
    requires Run(ss, es) && i < |es|
    ensures !ss[i].halted
  {
    assert Next(ss[i], es[i], ss[i + 1]);
  }

  /** Who waits in a queue does not run. */
  lemma QueuedRests(s: State, q: Place, t: nat)
    requires Runs(s) && t in s.Queue(q)
    ensures s.curr != Some(t)
  {
    InQueue(s.place, s.queues, s.curr, q, t);
    assert At(s.place, t, q) && (s.curr == Some(t) ==> At(s.place, t, Running));
  }

  /** Who runs waits in no queue. */
  lemma RunsNotQueued(ss: seq<State>, es: seq<Event>, k: nat, q: Place, t: nat)
    requires Run(ss, es) && 0 < k < |ss| && !ss[k].halted && t in ss[k].Queue(q)
    ensures ss[k].curr != Some(t)
  {
    RunInv(ss, es, k);
    QueuedRests(ss[k], q, t);
  }

  /** A queue other than the ready queue keeps whom a call does not wake. */
  lemma Remains(s: State, w: Woken, c: Caller, r: State, q: Place, t: nat)
    requires s.curr.Some? && Moves(s, w, c, r) && q != Ready && t in s.Queue(q)
    ensures w != AllOf(q) && w != FirstOf(q) ==> t in r.Queue(q)
    ensures w == FirstOf(q) ==> t in r.Queue(q) || t == s.Queue(q)[0]
  {
    assert r.Queue(q) == LeftIn(s, w, q) + if c == WaitsAt(q) then [s.curr.value] else [];
    if w == FirstOf(q) { assert s.Queue(q) == [s.Queue(q)[0]] + s.Queue(q)[1..]; }
  }

  /** A caller that waits is in the queue it waits in. */
  lemma Arrives(s: State, w: Woken, q: Place, r: State, t: nat)
    requires s.curr == Some(t) && Moves(s, w, WaitsAt(q), r) && q != Ready
    ensures t in r.Queue(q) && r.Queue(q)[|r.Queue(q)| - 1] == t
  {
    assert r.Queue(q) == LeftIn(s, w, q) + [t];
  }

  // ----- join -----

  ghost predicate JoinHolds(s: State, t: nat, u: nat) { u in s.ends.finished || t in s.Queue(OnJoin(u)) }

  lemma JoinStarts(s: State, t: nat, u: nat, r: State)
    requires Runs(s) && s.curr == Some(t) && Next(s, Joins(u), r) && !r.halted
    ensures JoinHolds(r, t, u)
  {
    if s.objects.done[u] { DoneFinished(s, u); } else {
      JoinMoves(s, u, r);
      Arrives(s, Nobody, OnJoin(u), r, t);
    }
  }

  lemma DoneFinished(s: State, u: nat)
    requires Runs(s) && u in s.objects.done && s.objects.done[u]
    ensures u in s.ends.finished
  {
    assert u !in s.place && u < s.ends.next;
  }

  /** Only the end of `u` wakes those who wait for it. */
  lemma MovesJoiners(s: State, e: Event, r: State, u: nat) returns (w: Woken, c: Caller)
    requires Runs(s) && Next(s, e, r) && !r.halted
    ensures Moves(s, w, c, r) && w != FirstOf(OnJoin(u)) && (w == AllOf(OnJoin(u)) ==> e.Returns? && s.curr == Some(u))
  {
    CallMoves(s, e, r);
    w, c := Wakes(s, e), Goes(s, e);
  }

  lemma JoinersStay(s: State, e: Event, r: State, t: nat, u: nat)
    requires Runs(s) && Next(s, e, r) && !r.halted && t in s.Queue(OnJoin(u))
    ensures t in r.Queue(OnJoin(u)) || (e.Returns? && s.curr == Some(u))
  {
    var w, c := MovesJoiners(s, e, r, u);
    Remains(s, w, c, r, OnJoin(u), t);
  }

  lemma FinishedGrow(s: State, e: Event, r: State)
    requires Runs(s) && Next(s, e, r)
    ensures r.ends.finished == s.ends.finished + if e.Returns? then [s.curr.value] else []
  {
    NextLogged(s, e, r);
  }

  lemma JoinStep(ss: seq<State>, es: seq<Event>, k: nat, t: nat, u: nat)
    requires Run(ss, es) && k < |es| && !ss[k + 1].halted && JoinHolds(ss[k], t, u)
    ensures JoinHolds(ss[k + 1], t, u)
  {
    InRun(ss, es, k);
    FinishedGrow(ss[k], es[k], ss[k + 1]);
    if u !in ss[k].ends.finished { JoinersStay(ss[k], es[k], ss[k + 1], t, u); }
  }

  lemma JoinFirst(ss: seq<State>, es: seq<Event>, i: nat, t: nat, u: nat)
    requires Run(ss, es) && i < |es| && es[i] == Joins(u) && ss[i].curr == Some(t) && !ss[i + 1].halted
    ensures JoinHolds(ss[i + 1], t, u)
  {
    InRun(ss, es, i);
    FinishedGrow(ss[i], es[i], ss[i + 1]);
    JoinStarts(ss[i], t, u, ss[i + 1]);
  }

  lemma {:induction false} JoinKept(ss: seq<State>, es: seq<Event>, i: nat, t: nat, u: nat, k: nat)
    requires Run(ss, es) && i < k < |ss| && es[i] == Joins(u) && ss[i].curr == Some(t) && !ss[k].halted
    ensures JoinHolds(ss[k], t, u)
    decreases k
  {
    if k == i + 1 { JoinFirst(ss, es, i, t, u); } else {
      NotHalted(ss, es, k - 1);
      JoinKept(ss, es, i, t, u, k - 1);
      JoinStep(ss, es, k - 1, t, u);
    }
  }

  /** A join that has returned has waited until its thread was done. */
  lemma JoinReturns(ss: seq<State>, es: seq<Event>, i: nat, t: nat, u: nat, k: nat)
    requires Returned(ss, es, i, Joins(u), t, k)
    ensures u in ss[k].ends.finished
  {
    JoinKept(ss, es, i, t, u, k);
    if u !in ss[k].ends.finished { RunsNotQueued(ss, es, k, OnJoin(u), t); }
  }

  // ----- condition variables -----

  ghost predicate Notifies(e: Event, c: nat) { e == Signals(c) || e == Broadcasts(c) }

  /** Somebody has signalled the condition variable between the two states. */
  ghost predicate Notified(es: seq<Event>, i: nat, k: nat, c: nat) {
    exists j {:trigger es[j]} :: i < j < k && j < |es| && Notifies(es[j], c)
  }

  /** The thread still waits, or it has been notified; either way it has its mutex to take. */
  ghost predicate WaitHolds(s: State, t: nat, c: nat, m: nat, notified: bool) {
    && t in s.points && s.points[t] == BeforeLock(m) && (!notified ==> t in s.Queue(OnCv(c)))
  }

  lemma WaitStarts(s: State, t: nat, c: nat, m: nat, r: State)
    requires Runs(s) && s.curr == Some(t) && Next(s, Waits(c, m), r) && !r.halted && IsHolder(s, m)
    ensures WaitHolds(r, t, c, m, false)
  {
    WaitMoves(s, c, m, r);
    Arrives(s, FirstOf(OnMutex(m)), OnCv(c), r, t);
    WaitOk(s, c, m, r);
    QueuedRests(r, OnCv(c), t);
    BlockPoint(HandOff(s, m), OnCv(c), BeforeLock(m), t, r);
  }

  lemma BlockPoint(h: State, q: Place, point: Point, t: nat, r: State)
    requires CanBlock(h, q, point) && r == Block(h, q, point) && h.curr == Some(t) && r.curr != Some(t) && !r.halted
    requires h.ends.last == None
    ensures t in r.points && r.points[t] == point
  {
    DispatchPoint(Park(h, q, point), t, point, r);
  }

  lemma DispatchPoint(p: State, t: nat, point: Point, r: State)
    requires CanDispatch(p) && r == Dispatch(p) && p.ends.last == None && r.curr != Some(t)
    requires t in p.points && p.points[t] == point
    ensures t in r.points && r.points[t] == point
  {}

  /** Only a notification wakes one who waits for the condition. */
  lemma MovesWaiters(s: State, e: Event, r: State, c: nat) returns (w: Woken, d: Caller)
    requires Runs(s) && Next(s, e, r) && !r.halted
    ensures Moves(s, w, d, r) && (w == AllOf(OnCv(c)) || w == FirstOf(OnCv(c)) ==> Notifies(e, c))
  {
    CallMoves(s, e, r);
    w, d := Wakes(s, e), Goes(s, e);
  }

  lemma WaitersRemain(s: State, e: Event, r: State, t: nat, c: nat)
    requires Runs(s) && Next(s, e, r) && !r.halted && t in s.Queue(OnCv(c))
    ensures t in r.Queue(OnCv(c)) || Notifies(e, c)
  {
    var w, d := MovesWaiters(s, e, r, c);
    Remains(s, w, d, r, OnCv(c), t);
  }

  lemma WaitStep(ss: seq<State>, es: seq<Event>, k: nat, t: nat, c: nat, m: nat, notified: bool)
    requires Run(ss, es) && k < |es| && !ss[k + 1].halted && ss[k].curr != Some(t)
    requires WaitHolds(ss[k], t, c, m, notified)
    ensures WaitHolds(ss[k + 1], t, c, m, notified || Notifies(es[k], c))
  {
    InRun(ss, es, k);
    CallGoesOn(ss[k], es[k], ss[k + 1], t);
    if !notified { WaitersRemain(ss[k], es[k], ss[k + 1], t, c); }
  }

  lemma WaitFirst(ss: seq<State>, es: seq<Event>, i: nat, t: nat, c: nat, m: nat)
    requires Run(ss, es) && i < |es| && es[i] == Waits(c, m) && ss[i].curr == Some(t) && !ss[i + 1].halted
    requires IsHolder(ss[i], m)
    ensures WaitHolds(ss[i + 1], t, c, m, false)
  {
    InRun(ss, es, i);
    WaitStarts(ss[i], t, c, m, ss[i + 1]);
  }

  lemma NotifiedOn(es: seq<Event>, i: nat, k: nat, c: nat)
    requires i < k < |es|
    ensures Notified(es, i, k + 1, c) <==> Notified(es, i, k, c) || Notifies(es[k], c)
  {}

  lemma {:induction false} WaitKept(ss: seq<State>, es: seq<Event>, i: nat, t: nat, c: nat, m: nat, k: nat)
    requires Run(ss, es) && i < k < |ss| && es[i] == Waits(c, m) && ss[i].curr == Some(t) && !ss[k].halted
    requires IsHolder(ss[i], m) && forall j {:trigger ss[j]} :: i < j < k ==> ss[j].curr != Some(t)
    ensures WaitHolds(ss[k], t, c, m, Notified(es, i, k, c))
    decreases k
  {
    if k == i + 1 { WaitFirst(ss, es, i, t, c, m); } else {
      NotHalted(ss, es, k - 1);
      WaitKept(ss, es, i, t, c, m, k - 1);
      WaitStep(ss, es, k - 1, t, c, m, Notified(es, i, k - 1, c));
      NotifiedOn(es, i, k - 1, c);
    }
  }

  /** A thread that waits for a condition runs again only when it has been notified, and then all it can do, unless
      it is preempted, is to take its mutex. */
  lemma WaitReturns(ss: seq<State>, es: seq<Event>, i: nat, t: nat, c: nat, m: nat, k: nat)
    requires JustReturned(ss, es, i, Waits(c, m), t, k) && IsHolder(ss[i], m)
    ensures Notified(es, i, k, c)
    ensures t in ss[k].points && ss[k].points[t] == BeforeLock(m)
    ensures k < |es| ==> es[k].Yields? || es[k].LocksAgain?
  {
    WaitKept(ss, es, i, t, c, m, k);
    if !Notified(es, i, k, c) { RunsNotQueued(ss, es, k, OnCv(c), t); }
    if k < |es| { assert Next(ss[k], es[k], ss[k + 1]); }
  }

  // ----- mutexes -----

  /** The thread waits for the mutex, or has it and returns from lock when it runs. */
  ghost predicate LockHolds(s: State, t: nat, m: nat) {
    && t in s.points && s.points[t] == InLock(m) && (t in s.Queue(OnMutex(m)) || Owns(s, t, m))
  }

  ghost predicate Owns(s: State, t: nat, m: nat) { m in s.mutexes.holder && s.mutexes.holder[m] == Some(t) }

  /** It is the holder, and inside. */
  ghost predicate Entered(s: State, t: nat, m: nat) {
    Owns(s, t, m) && m in s.mutexes.inside && t in s.mutexes.inside[m]
  }

  lemma LockStarts(s: State, t: nat, m: nat, r: State)
    requires Runs(s) && s.curr == Some(t) && CanLock(s, m) && r == Lock(s, m) && !r.halted && m in s.mutexes.free
    ensures if s.mutexes.free[m] then r.curr == Some(t) && Entered(r, t, m) else LockHolds(r, t, m) && r.curr != Some(t)
  {
    if !s.mutexes.free[m] {
      LockMoves(s, m, r);
      Arrives(s, Nobody, OnMutex(m), r, t);
      LockOk(s, m, r);
      QueuedRests(r, OnMutex(m), t);
      WaitsToEnter(r, t, m);
    }
  }

  lemma WaitsToEnter(r: State, t: nat, m: nat)
    requires Runs(r) && t in r.Queue(OnMutex(m))
    ensures t in r.points && r.points[t] == InLock(m)
  {
    InQueue(r.place, r.queues, r.curr, OnMutex(m), t);
    assert PointOk(t, OnMutex(m), r.points[t], r.mutexes.holder);
  }

  lemma LockFirst(ss: seq<State>, es: seq<Event>, i: nat, t: nat, m: nat)
    requires Run(ss, es) && i < |es| && ss[i].curr == Some(t) && !ss[i + 1].halted
    requires Allowed(ss[i], es[i]) && IsLock(ss[i], es[i], m)
    ensures if ss[i + 1].curr == Some(t) then Entered(ss[i + 1], t, m) else LockHolds(ss[i + 1], t, m)
  {
    InRun(ss, es, i);
    if es[i].LocksAgain? { RelockOk(ss[i]); }
    LockStarts(ss[i], t, m, ss[i + 1]);
  }

  /** A call that is not the holder's leaves the holder the holder. */
  lemma OwnerStays(s: State, e: Event, r: State, t: nat, m: nat)
    requires Runs(s) && Next(s, e, r) && Owns(s, t, m)
    requires s.curr == Some(t) ==> e != Unlocks(m) && !e.Returns? && !(e.Waits? && e.m == m)
    ensures Owns(r, t, m)
  {
    MutexKnown(s, s.curr, m);
    CallPasses(s, e, r, m);
  }

  /** Only a release of the mutex wakes one who waits for it. */
  lemma MovesLockers(s: State, e: Event, r: State, m: nat) returns (w: Woken, c: Caller)
    requires Runs(s) && Next(s, e, r) && !r.halted
    ensures Moves(s, w, c, r) && w != AllOf(OnMutex(m)) && (w == FirstOf(OnMutex(m)) ==> Releases(s, e, m))
  {
    CallMoves(s, e, r);
    w, c := Wakes(s, e), Goes(s, e);
  }

  /** A waiter goes on waiting, unless it is the first and the mutex is given to it. */
  lemma LockersRemain(s: State, e: Event, r: State, t: nat, m: nat)
    requires Runs(s) && Next(s, e, r) && !r.halted && t in s.Queue(OnMutex(m))
    ensures t in r.Queue(OnMutex(m)) || (s.Queue(OnMutex(m))[0] == t && Releases(s, e, m))
  {
    var w, c := MovesLockers(s, e, r, m);
    Remains(s, w, c, r, OnMutex(m), t);
  }

  lemma FirstGets(s: State, e: Event, r: State, t: nat, m: nat)
    requires Runs(s) && Next(s, e, r) && s.Queue(OnMutex(m)) != [] && s.Queue(OnMutex(m))[0] == t && Releases(s, e, m)
    ensures Owns(r, t, m)
  {
    CallPasses(s, e, r, m);
  }

  lemma LockStep(ss: seq<State>, es: seq<Event>, k: nat, t: nat, m: nat)
    requires Run(ss, es) && k < |es| && !ss[k + 1].halted && ss[k].curr != Some(t) && LockHolds(ss[k], t, m)
    ensures if ss[k + 1].curr == Some(t) then Entered(ss[k + 1], t, m) else LockHolds(ss[k + 1], t, m)
  {
    InRun(ss, es, k);
    LockGoesOn(ss[k], es[k], ss[k + 1], t, m);
    LockGiven(ss[k], es[k], ss[k + 1], t, m);
    if t in ss[k + 1].Queue(OnMutex(m)) { QueuedRests(ss[k + 1], OnMutex(m), t); }
  }

  lemma LockGoesOn(s: State, e: Event, r: State, t: nat, m: nat)
    requires Runs(s) && Next(s, e, r) && s.curr != Some(t) && t in s.points && s.points[t] == InLock(m)
    ensures if r.curr == Some(t) then m in r.mutexes.inside && t in r.mutexes.inside[m]
      else t in r.points && r.points[t] == InLock(m)
  {
    CallGoesOn(s, e, r, t);
  }

  lemma LockGiven(s: State, e: Event, r: State, t: nat, m: nat)
    requires Runs(s) && Next(s, e, r) && !r.halted && s.curr != Some(t) && LockHolds(s, t, m)
    ensures t in r.Queue(OnMutex(m)) || Owns(r, t, m)
  {
    if Owns(s, t, m) { OwnerStays(s, e, r, t, m); } else {
      LockersRemain(s, e, r, t, m);
      if t !in r.Queue(OnMutex(m)) { FirstGets(s, e, r, t, m); }
    }
  }

  lemma {:induction false} LockKept(ss: seq<State>, es: seq<Event>, i: nat, t: nat, m: nat, k: nat)
    requires Run(ss, es) && i < k < |ss| && ss[i].curr == Some(t) && !ss[k].halted
    requires Allowed(ss[i], es[i]) && IsLock(ss[i], es[i], m)
    requires forall j {:trigger ss[j]} :: i < j < k ==> ss[j].curr != Some(t)
    ensures if ss[k].curr == Some(t) then Entered(ss[k], t, m) else LockHolds(ss[k], t, m)
    decreases k
  {
    if k == i + 1 { LockFirst(ss, es, i, t, m); } else {
      NotHalted(ss, es, k - 1);
      LockKept(ss, es, i, t, m, k - 1);
      LockStep(ss, es, k - 1, t, m);
    }
  }

  /** A lock that has returned has the mutex. */
  lemma LockReturns(ss: seq<State>, es: seq<Event>, i: nat, e: Event, t: nat, m: nat, k: nat)
    requires JustReturned(ss, es, i, e, t, k) && Allowed(ss[i], e) && IsLock(ss[i], e, m)
    ensures Entered(ss[k], t, m)
  {
    LockKept(ss, es, i, t, m, k);
  }

  /** From state `k`, where its lock has returned, up to state `n` thread `t` has not released the mutex: neither by
      unlock, nor by wait, nor by ending. */
  ghost predicate InSection(ss: seq<State>, es: seq<Event>, i: nat, e: Event, t: nat, m: nat, k: nat, n: nat) {
    && JustReturned(ss, es, i, e, t, k) && Allowed(ss[i], e) && IsLock(ss[i], e, m) && k <= n < |ss|
    && forall j {:trigger es[j]} :: k <= j < n && ss[j].curr == Some(t) ==>
         es[j] != Unlocks(m) && !es[j].Returns? && !(es[j].Waits? && es[j].m == m)
  }

  lemma OwnerStep(ss: seq<State>, es: seq<Event>, n: nat, t: nat, m: nat)
    requires Run(ss, es) && n < |es| && Owns(ss[n], t, m)
    requires ss[n].curr == Some(t) ==>
               es[n] != Unlocks(m) && !es[n].Returns? && !(es[n].Waits? && es[n].m == m)
    ensures Owns(ss[n + 1], t, m)
  {
    InRun(ss, es, n);
    OwnerStays(ss[n], es[n], ss[n + 1], t, m);
  }

  lemma {:induction false} SectionOwns(ss: seq<State>, es: seq<Event>, i: nat, e: Event, t: nat, m: nat, k: nat, n: nat)
    requires InSection(ss, es, i, e, t, m, k, n)
    ensures Owns(ss[n], t, m)
    decreases n
  {
    if n == k { LockReturns(ss, es, i, e, t, m, k); } else {
      SectionOwns(ss, es, i, e, t, m, k, n - 1);
      OwnerStep(ss, es, n - 1, t, m);
    }
  }

  /** In no run are two threads between the return from lock and the release of the same mutex. */
  lemma SectionsExclude(ss: seq<State>, es: seq<Event>, i: nat, e: Event, t: nat, m: nat, k: nat, n: nat,
                        j: nat, f: Event, u: nat, l: nat)
    requires InSection(ss, es, i, e, t, m, k, n) && InSection(ss, es, j, f, u, m, l, n)
    ensures t == u
  {
    SectionOwns(ss, es, i, e, t, m, k, n);
    SectionOwns(ss, es, j, f, u, m, l, n);
  }

  // ----- swap3 -----

  /** Swap3 call `n` has its answer, or thread `t` stopped in it and has not run since. */
  ghost predicate SwapHolds(s: State, t: nat, n: nat) {
    n in s.swap.results || (t in s.points && s.points[t] == InSwap(n))
  }

  lemma SwapStarts(s: State, t: nat, msg: string, r: State)
    requires Runs(s) && s.curr == Some(t) && CanSwap3(s, msg) && r == Swap3(s, msg) && !r.halted
    ensures SwapHolds(r, t, |s.swap.calls|) && r.swap.calls == s.swap.calls + [msg]
  {
    SwapLog(s, msg, r);
    Swap3Ok(s, msg, r);
    if |s.queues[OnSwap]| < 2 {
      SwapMoves(s, msg, r);
      Arrives(s, Nobody, OnSwap, r, t);
      LastInSwap(r, t);
    }
  }

  lemma LastInSwap(r: State, t: nat)
    requires Runs(r) && r.Queue(OnSwap) != [] && r.Queue(OnSwap)[|r.Queue(OnSwap)| - 1] == t
    ensures t in r.points && |r.swap.calls| > 0 && r.points[t] == InSwap(|r.swap.calls| - 1)
  {
    assert WaitersOk(r.queues[OnSwap], r.points, |r.swap.calls|);
  }

  lemma DispatchAnswers(s: State, r: State)
    requires CanDispatch(s) && r == Dispatch(s)
    ensures s.swap.results.Keys <= r.swap.results.Keys
  {}

  lemma BlockAnswers(s: State, q: Place, point: Point, r: State)
    requires CanBlock(s, q, point) && r == Block(s, q, point)
    ensures s.swap.results.Keys <= r.swap.results.Keys
  {
    if s.queues[Ready] != [] { DispatchAnswers(Park(s, q, point), r); }
  }

  /** No answer is taken back. */
  lemma AnswersStay(s: State, e: Event, r: State)
    requires Runs(s) && Next(s, e, r)
    ensures s.swap.results.Keys <= r.swap.results.Keys
  {
    match e
    case Yields => if s.queues[Ready] != [] { DispatchAnswers(Park(s, Ready, PointOf(s)), r); }
    case Locks(m) => LockAnswers(s, m, r);
    case LocksAgain => LockAnswers(s, PointOf(s).mutex, r);
    case Waits(c, m) => if Holds(s, m) { WaitAnswers(s, c, m, r); }
    case Joins(u) => JoinAnswers(s, u, r);
    case Swaps(msg) => SwapAnswers(s, msg, r);
    case Returns => FinishAnswers(s, r);
    case _ =>
  }

  lemma LockAnswers(s: State, m: nat, r: State)
    requires CanLock(s, m) && r == Lock(s, m)
    ensures s.swap.results.Keys <= r.swap.results.Keys
  {
    if !s.mutexes.free[m] { BlockAnswers(Called(s, m), OnMutex(m), InLock(m), r); }
  }

  lemma WaitAnswers(s: State, c: nat, m: nat, r: State)
    requires CanWait(s, c, m) && r == Wait(s, c, m).0 && Holds(s, m)
    ensures s.swap.results.Keys <= r.swap.results.Keys
  {
    BlockAnswers(HandOff(s, m), OnCv(c), BeforeLock(m), r);
  }

  lemma JoinAnswers(s: State, u: nat, r: State)
    requires CanJoin(s, u) && r == Join(s, u)
    ensures s.swap.results.Keys <= r.swap.results.Keys
  {
    if !s.objects.done[u] && s.Queue(Ready) != [] { BlockAnswers(s, OnJoin(u), User, r); }
  }

  lemma SwapAnswers(s: State, msg: string, r: State)
    requires CanSwap3(s, msg) && r == Swap3(s, msg)
    ensures s.swap.results.Keys <= r.swap.results.Keys
  {
    if |s.queues[OnSwap]| < 2 && s.queues[Ready] != [] {
      BlockAnswers(Offer(s, msg), OnSwap, InSwap(|s.swap.calls|), r);
    }
  }

  lemma FinishAnswers(s: State, r: State)
    requires CanFinish(s) && r == Finish(s)
    ensures s.swap.results.Keys <= r.swap.results.Keys
  {
    if Leave(s).queues[Ready] != [] { DispatchAnswers(Leave(s), r); }
  }

  /** A thread that stopped in swap3 does not run. */
  lemma InSwapRests(s: State, t: nat, n: nat)
    requires Runs(s) && t in s.points && s.points[t] == InSwap(n)
    ensures s.curr != Some(t)
  {
    var u := OnCpu(s);
  }

  lemma SwapStays(s: State, e: Event, r: State, t: nat, n: nat)
    requires Runs(s) && Next(s, e, r) && SwapHolds(s, t, n)
    ensures SwapHolds(r, t, n)
  {
    AnswersStay(s, e, r);
    if n !in s.swap.results {
      InSwapRests(s, t, n);
      CallGoesOn(s, e, r, t);
    }
  }

  lemma CallsGrow(s: State, e: Event, r: State)
    requires Runs(s) && Next(s, e, r)
    ensures r.swap.calls == s.swap.calls + if e.Swaps? && !r.halted then [e.msg] else []
  {
    NextLogged(s, e, r);
  }

  ghost predicate NotLost(s: State, n: nat) { exists t {:trigger SwapHolds(s, t, n)} :: SwapHolds(s, t, n) }

  /** Every call of swap3 has its answer, or its thread is still in it. */
  ghost predicate NoneLost(s: State) { forall n {:trigger NotLost(s, n)} :: 0 <= n < |s.swap.calls| ==> NotLost(s, n) }

  lemma NotLostStep(s: State, e: Event, r: State, n: nat)
    requires Runs(s) && Next(s, e, r) && NotLost(s, n)
    ensures NotLost(r, n)
  {
    var t :| SwapHolds(s, t, n);
    SwapStays(s, e, r, t, n);
  }

  lemma NoneLostStep(s: State, e: Event, r: State)
    requires Runs(s) && Next(s, e, r) && NoneLost(s)
    ensures NoneLost(r)
  {
    CallsGrow(s, e, r);
    forall n | 0 <= n < |r.swap.calls| ensures NotLost(r, n) {
      if n < |s.swap.calls| {
        assert NotLost(s, n);
        NotLostStep(s, e, r, n);
      } else { NewNotLost(s, e, r, n); }
    }
  }

  lemma NewNotLost(s: State, e: Event, r: State, n: nat)
    requires Runs(s) && Next(s, e, r) && e.Swaps? && !r.halted && n == |s.swap.calls|
    ensures NotLost(r, n)
  {
    SwapStarts(s, s.curr.value, e.msg, r);
    assert SwapHolds(r, s.curr.value, n);
  }

  lemma {:induction false} NoneLostRun(ss: seq<State>, es: seq<Event>, i: nat)
    requires Run(ss, es) && i < |ss|
    ensures NoneLost(ss[i])
  {
    if i > 0 {
      NoneLostRun(ss, es, i - 1);
      InRun(ss, es, i - 1);
      NoneLostStep(ss[i - 1], es[i - 1], ss[i]);
    }
  }

  lemma Swap3NoneLost(s: State, n: nat)
    requires Reachable(s) && n < |s.swap.calls|
    ensures n in s.swap.results || exists t {:trigger s.points[t]} :: t in s.points && s.points[t] == InSwap(n)
  {
    var ss, es :| Run(ss, es) && ss[|ss| - 1] == s;
    NoneLostRun(ss, es, |ss| - 1);
    if n !in s.swap.results {
      assert NotLost(s, n);
      var t :| SwapHolds(s, t, n);
      assert s.points[t] == InSwap(n);
    }
  }

  /** The call is number `n`, and not lost. */
  ghost predicate Numbered(s: State, t: nat, n: nat, msg: string) {
    SwapHolds(s, t, n) && n < |s.swap.calls| && s.swap.calls[n] == msg
  }

  lemma SwapStep(ss: seq<State>, es: seq<Event>, k: nat, t: nat, n: nat, msg: string)
    requires Run(ss, es) && k < |es| && Numbered(ss[k], t, n, msg)
    ensures Numbered(ss[k + 1], t, n, msg)
  {
    InRun(ss, es, k);
    CallsGrow(ss[k], es[k], ss[k + 1]);
    SwapStays(ss[k], es[k], ss[k + 1], t, n);
  }

  lemma SwapFirst(ss: seq<State>, es: seq<Event>, i: nat, t: nat, msg: string)
    requires Run(ss, es) && i < |es| && es[i] == Swaps(msg) && ss[i].curr == Some(t) && !ss[i + 1].halted
    ensures Numbered(ss[i + 1], t, |ss[i].swap.calls|, msg)
  {
    InRun(ss, es, i);
    SwapStarts(ss[i], t, msg, ss[i + 1]);
  }

  lemma {:induction false} SwapKept(ss: seq<State>, es: seq<Event>, i: nat, t: nat, msg: string, k: nat)
    requires Run(ss, es) && i < k < |ss| && es[i] == Swaps(msg) && ss[i].curr == Some(t) && !ss[k].halted
    ensures Numbered(ss[k], t, |ss[i].swap.calls|, msg)
    decreases k
  {
    if k == i + 1 { SwapFirst(ss, es, i, t, msg); } else {
      NotHalted(ss, es, k - 1);
      SwapKept(ss, es, i, t, msg, k - 1);
      SwapStep(ss, es, k - 1, t, |ss[i].swap.calls|, msg);
    }
  }

  lemma SwapAnswered(ss: seq<State>, es: seq<Event>, k: nat, t: nat, n: nat, msg: string)
    requires Run(ss, es) && 0 < k < |ss| && ss[k].curr == Some(t) && !ss[k].halted && Numbered(ss[k], t, n, msg)
    ensures n in ss[k].swap.results && Answered(ss[k].swap.results, ss[k].swap.calls, n)
  {
    RunInv(ss, es, k);
    if n !in ss[k].swap.results { InSwapRests(ss[k], t, n); }
    RightAnswer(ss[k], n);
  }

  lemma RightAnswer(s: State, n: nat)
    requires Runs(s)
    ensures n in s.swap.results ==> Answered(s.swap.results, s.swap.calls, n)
  {}

  /** A swap3 call that has returned has an answer. With the calls numbered in the order in which they were made,
      three to a cycle, the first of a cycle gets the third's message, the second the first's and the third the
      second's. */
  lemma Swap3Returns(ss: seq<State>, es: seq<Event>, i: nat, t: nat, msg: string, k: nat)
    requires Returned(ss, es, i, Swaps(msg), t, k)
    ensures
      var n, calls := |ss[i].swap.calls|, ss[k].swap.calls;
      && n < |calls| && calls[n] == msg && n in ss[k].swap.results
      && if n % 3 == 0 then n + 2 < |calls| && ss[k].swap.results[n] == calls[n + 2]
         else ss[k].swap.results[n] == calls[n - 1]
  {
    SwapKept(ss, es, i, t, msg, k);
    SwapAnswered(ss, es, k, t, |ss[i].swap.calls|, msg);
  }
}
