/** Every section keeps the invariant, and halts the CPU only when no thread could run. */
module ThreadSteps {
  import opened Wrappers
  import opened ThreadState
  import opened ThreadInvariant
  import opened ThreadQueues
  import opened ThreadMutexes
  import opened ThreadSwap

  ghost predicate Runs(s: State) { Inv(s) && !s.halted }

  lemma InQueue(place: map<nat, Place>, queues: map<Place, seq<nat>>, running: Option<nat>, q: Place, t: nat)
    requires PlacesOk(place, queues, running) && q in queues
    ensures t in queues[q] <==> At(place, t, q)
  {
    assert QueueOk(place, q, queues[q]);
  }

  /** The running context is in no queue; it has its tables. */
  lemma OnCpu(s: State) returns (t: nat)
    requires s.curr.Some? && Consistent(s, s.curr)
    ensures s.curr == Some(t) && At(s.place, t, Running) && t in s.points && t in s.mutexes.holding
    ensures t in s.objects.die
    ensures OnJoin(t) in s.queues && (s.points[t].User? || s.points[t].BeforeLock?) && t !in s.queues[Ready]
    ensures t !in s.queues[OnSwap]
    ensures PointOk(t, Running, s.points[t], s.mutexes.holder)
  {
    t := s.curr.value;
    assert At(s.place, t, Running) && PointOk(t, Running, s.points[t], s.mutexes.holder);
    InQueue(s.place, s.queues, s.curr, Ready, t);
    InQueue(s.place, s.queues, s.curr, OnSwap, t);
  }

  lemma WaitersKnown(s: State, running: Option<nat>)
    requires Consistent(s, running)
    ensures forall u {:trigger u in s.queues[OnSwap]} :: u in s.queues[OnSwap] ==> u in s.place && u in s.points
  {
    forall u | u in s.queues[OnSwap] ensures u in s.place && u in s.points {
      InQueue(s.place, s.queues, running, OnSwap, u);
    }
  }

  lemma MutexKnown(s: State, running: Option<nat>, m: nat)
    requires Consistent(s, running) && (m in s.mutexes.free || m in s.mutexes.holder)
    ensures IsMutex(s, m) && m in s.mutexes.holder && MutexAt(s.mutexes, m, s.queues[OnMutex(m)], s.ends.freed)
  {
    assert m in s.mutexes.holder && OnMutex(m) in s.queues;
    assert MutexAt(s.mutexes, m, Waiting(s.queues, m), s.ends.freed);
  }

  lemma TwoQueues(s: State, q: Place, ts: seq<nat>, r: Place, us: seq<nat>, after: map<Place, seq<nat>>)
    requires MutexesOk(s.mutexes, s.queues, s.ends.freed) && !q.OnMutex? && !r.OnMutex?
    requires after == s.queues[q := ts][r := us]
    ensures MutexesOk(s.mutexes, after, s.ends.freed)
  {
    QueueFrame(s.mutexes, s.queues, s.ends.freed, q, ts);
    QueueFrame(s.mutexes, s.queues[q := ts], s.ends.freed, r, us);
  }

  // ----- leaving a context -----

  /** The swap3 calls that are pending do not change when a context between calls is queued. */
  lemma ParkSwap(s: State, t: nat, q: Place, point: Point, p: State)
    requires Consistent(s, Some(t)) && s.curr == Some(t) && q in s.queues && q != OnSwap && !point.InSwap?
    requires p == Park(s, q, point)
    ensures SwapOk(p.swap, p.queues[Ready], p.queues[OnSwap], p.points)
  {
    InQueue(s.place, s.queues, Some(t), Ready, t);
    InQueue(s.place, s.queues, Some(t), OnSwap, t);
    assert At(s.place, t, Running);
    ParkPending(s.queues[Ready], s.points, t, point, p.queues[Ready]);
    SwapFrame(s.swap, s.queues[Ready], s.queues[OnSwap], s.points, p.queues[Ready], s.points[t := point]);
  }

  lemma ParkPending(ready: seq<nat>, points: map<nat, Point>, t: nat, point: Point, after: seq<nat>)
    requires t !in ready && !point.InSwap? && (after == ready || after == ready + [t])
    ensures Pending(after, points[t := point]) == Pending(ready, points)
  {
    var ps := points[t := point];
    PendingFrame(ready, points, ps);
    PendingJoined(ready, [t], ps);
    PendingOne(t, ps);
  }

  /** Where a context is queued matters to the tables only if the queue is a mutex's or swap3's. */
  lemma ParkRest(s: State, t: nat, q: Place, point: Point, p: State)
    requires s.curr == Some(t) && q in s.queues && p == Park(s, q, point)
    requires PlacesOk(s.place, s.queues, Some(t)) && PointsOk(s.place, s.points, s.mutexes.holder)
    requires ContextsOk(s.points, s.mutexes.holding, s.place, s.ends)
    requires ObjectsOk(s.objects, s.place, s.queues, s.ends.next)
    requires PointOk(t, q, point, s.mutexes.holder)
    ensures PlacesOk(p.place, p.queues, None) && PointsOk(p.place, p.points, p.mutexes.holder)
    ensures ContextsOk(p.points, p.mutexes.holding, p.place, p.ends)
    ensures ObjectsOk(p.objects, p.place, p.queues, p.ends.next)
  {
    assert At(s.place, t, Running);
    ParkPlaces(s.place, s.queues, t, q);
    ParkPoints(s.place, s.points, s.mutexes.holder, t, q, point);
    assert p.place.Keys == s.place.Keys && p.points.Keys == s.points.Keys && p.queues.Keys == s.queues.Keys;
  }

  lemma ParkOk(s: State, t: nat, q: Place, point: Point, p: State)
    requires Consistent(s, Some(t)) && s.curr == Some(t) && q in s.queues && !q.OnMutex? && q != OnSwap
    requires !point.InSwap? && PointOk(t, q, point, s.mutexes.holder) && p == Park(s, q, point)
    ensures Consistent(p, None)
  {
    ParkRest(s, t, q, point, p);
    QueueFrame(s.mutexes, s.queues, s.ends.freed, q, p.queues[q]);
    ParkSwap(s, t, q, point, p);
  }

  // ----- freeing the last context -----

  lemma ReleaseOk(s: State, running: Option<nat>, r: State)
    requires Consistent(s, running) && (CanRelease(s) ==> r == Release(s))
    ensures CanRelease(s) && Consistent(r, running) && r.ends.last == None
  {
    if s.ends.last.Some? { FreedOk(s, running, s.ends.last.value, r); }
  }

  lemma FreedOk(s: State, running: Option<nat>, t: nat, r: State)
    requires Consistent(s, running) && s.ends.last == Some(t) && (t in s.mutexes.holding ==> r == Freed(s, t))
    ensures t in s.mutexes.holding && Consistent(r, running)
  {
    assert t in s.ends.finished;
    FreedPoints(s, t, r);
    FreedContexts(s.points, s.mutexes, s.place, s.ends, t, r);
    OrphanedOk(s.mutexes, s.queues, s.ends.freed, t, r.mutexes);
    InQueue(s.place, s.queues, running, Ready, t);
    InQueue(s.place, s.queues, running, OnSwap, t);
    PendingFrame(s.queues[Ready], s.points, r.points);
    SwapFrame(s.swap, s.queues[Ready], s.queues[OnSwap], s.points, r.queues[Ready], r.points);
  }

  lemma FreedContexts(points: map<nat, Point>, x: Mutexes, place: map<nat, Place>, ends: Ends, t: nat, r: State)
    requires ContextsOk(points, x.holding, place, ends) && ends.last == Some(t) && t in x.holding
    requires r.points == points - {t} && r.mutexes == x.Orphaned(t) && r.place == place
    requires r.ends == ends.(last := None, freed := ends.freed + [t])
    ensures ContextsOk(r.points, r.mutexes.holding, r.place, r.ends)
  {
    assert t in ends.finished;
  }

  lemma FreedPoints(s: State, t: nat, r: State)
    requires PointsOk(s.place, s.points, s.mutexes.holder) && Linked(s.mutexes) && t !in s.place
    requires t in s.mutexes.holding
    requires r == Freed(s, t)
    ensures PointsOk(r.place, r.points, r.mutexes.holder)
  {
    forall u | u in r.place ensures u in r.points && PointOk(u, r.place[u], r.points[u], r.mutexes.holder) {
      assert u in s.points && PointOk(u, s.place[u], s.points[u], s.mutexes.holder);
      if s.place[u] == Ready && s.points[u].InLock? {
        var m := s.points[u].mutex;
        assert Holder(s.mutexes, m, u) && !Holder(s.mutexes, m, t) && !Held(s.mutexes, t, m);
      }
    }
  }

  // ----- taking the next context -----

  lemma CanTurn(s: State, t: nat)
    requires Consistent(s, None) && s.queues[Ready] != [] && t == s.queues[Ready][0]
    ensures CanResume(TakeFront(s)) && t in s.points && PointOk(t, Ready, s.points[t], s.mutexes.holder)
  {
    assert t in s.queues[Ready];
    InQueue(s.place, s.queues, None, Ready, t);
    assert PointOk(t, Ready, s.points[t], s.mutexes.holder);
    if s.points[t].InSwap? { FrontAnswer(s.swap, s.queues[Ready], s.points, |s.queues[OnSwap]|, s.points[t].call); }
    if s.points[t].InLock? { MutexKnown(s, None, s.points[t].mutex); }
  }

  lemma TurnPlaced(s: State, t: nat, r: State)
    requires Consistent(s, None) && s.queues[Ready] != [] && t == s.queues[Ready][0] && CanResume(TakeFront(s))
    requires t in s.points && PointOk(t, Ready, s.points[t], s.mutexes.holder) && r == Resume(TakeFront(s))
    ensures PlacesOk(r.place, r.queues, Some(t)) && PointsOk(r.place, r.points, r.mutexes.holder)
    ensures ContextsOk(r.points, r.mutexes.holding, r.place, r.ends)
    ensures ObjectsOk(r.objects, r.place, r.queues, r.ends.next)
  {
    assert t in s.queues[Ready];
    InQueue(s.place, s.queues, None, Ready, t);
    TakePlaces(s.place, s.queues);
    ParkPoints(s.place, s.points, s.mutexes.holder, t, Running, if s.points[t].BeforeLock? then s.points[t] else User);
    assert s.points[t := s.points[t]] == s.points;
    assert r.place.Keys == s.place.Keys && r.points.Keys == s.points.Keys && r.queues.Keys == s.queues.Keys;
  }

  lemma TurnMutexes(s: State, t: nat, r: State)
    requires Consistent(s, None) && s.queues[Ready] != [] && t == s.queues[Ready][0] && CanResume(TakeFront(s))
    requires t in s.points && PointOk(t, Ready, s.points[t], s.mutexes.holder) && r == Resume(TakeFront(s))
    ensures MutexesOk(r.mutexes, r.queues, r.ends.freed)
  {
    QueueFrame(s.mutexes, s.queues, s.ends.freed, Ready, s.queues[Ready][1..]);
    if s.points[t].InLock? { EnteredOk(s.mutexes, r.queues, s.ends.freed, s.points[t].mutex, t, r.mutexes); }
  }

  lemma TurnSwap(s: State, t: nat, r: State)
    requires Consistent(s, None) && s.queues[Ready] != [] && t == s.queues[Ready][0] && CanResume(TakeFront(s))
    requires t in s.points && r == Resume(TakeFront(s))
    ensures SwapOk(r.swap, r.queues[Ready], r.queues[OnSwap], r.points)
  {
    var q, w := s.queues[Ready], s.queues[OnSwap];
    assert t in q && QueueOk(s.place, Ready, q) && t !in q[1..] && At(s.place, t, Ready);
    InQueue(s.place, s.queues, None, OnSwap, t);
    PendingFrame(q[1..], s.points, r.points);
    if s.points[t].InSwap? {
      CollectedOk(s.swap, q, w, s.points, s.points[t].call, r.swap);
      SwapFrame(r.swap, q[1..], w, s.points, q[1..], r.points);
    } else {
      SwapFrame(s.swap, q, w, s.points, q[1..], r.points);
    }
  }

  lemma TurnOk(s: State, t: nat, r: State)
    requires Consistent(s, None) && s.ends.last == None && s.queues[Ready] != [] && t == s.queues[Ready][0]
    requires CanResume(TakeFront(s)) && r == Resume(TakeFront(s))
    ensures r.curr == Some(t) && Consistent(r, Some(t)) && r.ends.last == None && r.halted == s.halted
  {
    CanTurn(s, t);
    TurnPlaced(s, t, r);
    TurnMutexes(s, t, r);
    TurnSwap(s, t, r);
  }

  /** Freeing the last context and taking the next one do not disturb each other. */
  lemma Commute(s: State)
    requires CanSwitch(s)
    ensures Switch(s) == TakeFront(Release(s))
  {}

  lemma DispatchOk(s: State, r: State)
    requires Consistent(s, None) && s.queues[Ready] != [] && (CanDispatch(s) ==> r == Dispatch(s))
    ensures CanDispatch(s) && r.ends.last == None && r.curr.Some? && Consistent(r, r.curr) && r.halted == s.halted
  {
    var f, t := if CanRelease(s) then Release(s) else s, s.queues[Ready][0];
    ReleaseOk(s, None, f);
    Commute(s);
    CanTurn(f, t);
    TurnOk(f, t, r);
  }

  /** Parking, then dispatching the next context or halting. */
  lemma BlockOk(s: State, q: Place, point: Point, p: State, r: State)
    requires s.curr.Some? && q in s.queues && Ready in s.queues && q != Ready && p == Park(s, q, point)
    requires Consistent(p, None) && s.ends.last == None && !s.halted
    requires (CanBlock(s, q, point) ==> r == Block(s, q, point))
    ensures CanBlock(s, q, point) && Inv(r) && (r.halted <==> s.queues[Ready] == [])
  {
    if s.queues[Ready] != [] { DispatchOk(p, if CanDispatch(p) then Dispatch(p) else p); }
  }

  // ----- yield, join, signal and broadcast -----

  lemma YieldOk(s: State, r: State)
    requires Runs(s) && (CanYield(s) ==> r == Yield(s))
    ensures CanYield(s) && Runs(r)
  {
    var t := OnCpu(s);
    if s.queues[Ready] != [] {
      var p := Park(s, Ready, PointOf(s));
      ParkOk(s, t, Ready, PointOf(s), p);
      DispatchOk(p, if CanDispatch(p) then Dispatch(p) else p);
    }
  }

  lemma JoinOk(s: State, u: nat, r: State)
    requires Runs(s) && u in s.objects.done && (CanJoin(s, u) ==> r == Join(s, u))
    ensures CanJoin(s, u) && Inv(r) && (r.halted <==> !s.objects.done[u] && s.queues[Ready] == [])
  {
    if !s.objects.done[u] && s.queues[Ready] != [] {
      assert u in s.place && u in s.objects.die && OnJoin(u) in s.queues;
      var p := Park(s, OnJoin(u), User);
      ParkOk(s, s.curr.value, OnJoin(u), User, p);
      BlockOk(s, OnJoin(u), User, p, r);
    }
  }

  /** The tables of contexts and objects only ask which threads and queues there are. */
  lemma SameTables(s: State, r: State)
    requires ContextsOk(s.points, s.mutexes.holding, s.place, s.ends)
    requires ObjectsOk(s.objects, s.place, s.queues, s.ends.next)
    requires r.place.Keys == s.place.Keys && r.queues.Keys == s.queues.Keys && r.points == s.points
    requires r.mutexes.holding.Keys == s.mutexes.holding.Keys && r.ends == s.ends && r.objects == s.objects
    ensures ContextsOk(r.points, r.mutexes.holding, r.place, r.ends)
    ensures ObjectsOk(r.objects, r.place, r.queues, r.ends.next)
  {}

  lemma WakePlaced(s: State, c: nat, u: nat, r: State)
    requires PlacesOk(s.place, s.queues, s.curr) && PointsOk(s.place, s.points, s.mutexes.holder)
    requires ContextsOk(s.points, s.mutexes.holding, s.place, s.ends)
    requires ObjectsOk(s.objects, s.place, s.queues, s.ends.next)
    requires OnCv(c) in s.queues && s.queues[OnCv(c)] != [] && u == s.queues[OnCv(c)][0]
    requires r == Wake(s, OnCv(c))
    requires At(s.place, u, OnCv(c))
    ensures PlacesOk(r.place, r.queues, r.curr) && PointsOk(r.place, r.points, r.mutexes.holder)
    ensures ContextsOk(r.points, r.mutexes.holding, r.place, r.ends)
    ensures ObjectsOk(r.objects, r.place, r.queues, r.ends.next)
  {
    MovePlaces(s.place, s.queues, s.curr, OnCv(c));
    ReadyPoints(s.place, s.points, s.mutexes.holder, r.place);
    SameTables(s, r);
  }

  /** signal moves a waiter that has to take the mutex again. */
  lemma SignalOk(s: State, c: nat, r: State)
    requires Runs(s) && OnCv(c) in s.queues && r == Signal(s, c)
    ensures Runs(r)
  {
    if s.queues[OnCv(c)] != [] {
      var u := s.queues[OnCv(c)][0];
      assert u in s.queues[OnCv(c)];
      InQueue(s.place, s.queues, s.curr, OnCv(c), u);
      WakePlaced(s, c, u, r);
      TwoQueues(s, OnCv(c), s.queues[OnCv(c)][1..], Ready, s.queues[Ready] + [u], r.queues);
      WakeSwap(s, c, u, r);
    }
  }

  lemma WakeSwap(s: State, c: nat, u: nat, r: State)
    requires Consistent(s, s.curr) && At(s.place, u, OnCv(c)) && r.swap == s.swap && r.points == s.points
    requires Ready in r.queues && OnSwap in r.queues
    requires r.queues[Ready] == s.queues[Ready] + [u] && r.queues[OnSwap] == s.queues[OnSwap]
    ensures SwapOk(r.swap, r.queues[Ready], r.queues[OnSwap], r.points)
  {
    assert PointOk(u, OnCv(c), s.points[u], s.mutexes.holder);
    MoreReady(s, [u], r.queues[Ready]);
  }

  /** Contexts that are in no swap3 call become ready. */
  lemma MoreReady(s: State, us: seq<nat>, after: seq<nat>)
    requires Consistent(s, s.curr) && after == s.queues[Ready] + us
    requires forall u {:trigger u in us} :: u in us ==> PendingOf(u, s.points) == []
    ensures SwapOk(s.swap, after, s.queues[OnSwap], s.points)
  {
    NonePending(us, s.points);
    PendingJoined(s.queues[Ready], us, s.points);
    SwapFrame(s.swap, s.queues[Ready], s.queues[OnSwap], s.points, after, s.points);
  }

  lemma WakeAllPlaced(s: State, q: Place, r: State)
    requires Runs(s) && q in s.queues && (q.OnCv? || q.OnJoin? || q.OnSwap?) && r == WakeAll(s, q)
    ensures PlacesOk(r.place, r.queues, r.curr) && PointsOk(r.place, r.points, r.mutexes.holder)
    ensures ContextsOk(r.points, r.mutexes.holding, r.place, r.ends)
    ensures ObjectsOk(r.objects, r.place, r.queues, r.ends.next)
  {
    WakePlaces(s.place, s.queues, s.curr, q);
    forall u | u in s.place ensures r.place[u] == s.place[u] || (r.place[u] == Ready && s.place[u] == q) {
      InQueue(s.place, s.queues, s.curr, q, u);
    }
    ReadyPoints(s.place, s.points, s.mutexes.holder, r.place);
    assert r.place.Keys == s.place.Keys && r.queues.Keys == s.queues.Keys;
  }

  lemma WakeAllOk(s: State, q: Place, r: State)
    requires Runs(s) && q in s.queues && (q.OnCv? || q.OnJoin?) && r == WakeAll(s, q)
    ensures Runs(r)
  {
    WakeAllPlaced(s, q, r);
    TwoQueues(s, Ready, s.queues[Ready] + s.queues[q], q, [], r.queues);
    forall u | u in s.queues[q] ensures PendingOf(u, s.points) == [] {
      InQueue(s.place, s.queues, s.curr, q, u);
      assert PointOk(u, q, s.points[u], s.mutexes.holder);
    }
    MoreReady(s, s.queues[q], r.queues[Ready]);
  }

  // ----- mutexes and wait -----

  lemma TakeFreeOk(s: State, m: nat, r: State)
    requires Runs(s) && m in s.mutexes.free && s.mutexes.free[m] && (CanLock(s, m) ==> r == TakeFree(s, m))
    ensures CanLock(s, m) && Runs(r)
  {
    var t := OnCpu(s);
    MutexKnown(s, s.curr, m);
    TakenOk(s.mutexes, s.queues, s.ends.freed, m, t, r.mutexes);
    TakeFreePoints(s, m, t, r);
    TakeFreeSwap(s, t, r);
    TakeFreeContexts(s, t, r);
  }

  lemma TakeFreePoints(s: State, m: nat, t: nat, r: State)
    requires PointsOk(s.place, s.points, s.mutexes.holder) && At(s.place, t, Running)
    requires m in s.mutexes.holder && s.mutexes.holder[m] == None
    requires r.place == s.place && r.points == s.points[t := User] && r.mutexes.holder == s.mutexes.holder[m := Some(t)]
    ensures PointsOk(r.place, r.points, r.mutexes.holder)
  {
    HolderPoints(s.place, s.points, s.mutexes.holder, m, Some(t));
    ParkPoints(s.place, s.points, r.mutexes.holder, t, Running, User);
    assert s.place[t := Running] == s.place;
  }

  lemma TakeFreeContexts(s: State, t: nat, r: State)
    requires ContextsOk(s.points, s.mutexes.holding, s.place, s.ends) && t in s.points && r.place == s.place
    requires r.ends == s.ends
    requires r.points.Keys == s.points.Keys && r.mutexes.holding.Keys == s.mutexes.holding.Keys
    ensures ContextsOk(r.points, r.mutexes.holding, r.place, r.ends)
  {}

  lemma TakeFreeSwap(s: State, t: nat, r: State)
    requires Consistent(s, Some(t)) && At(s.place, t, Running) && t in s.points && !s.points[t].InSwap?
    requires r.swap == s.swap && r.queues == s.queues && r.points == s.points[t := User]
    ensures SwapOk(r.swap, r.queues[Ready], r.queues[OnSwap], r.points)
  {
    InQueue(s.place, s.queues, Some(t), OnSwap, t);
    PendingFrame(s.queues[Ready], s.points, r.points);
    SwapFrame(s.swap, s.queues[Ready], s.queues[OnSwap], s.points, s.queues[Ready], r.points);
  }

  lemma LockTakenOk(s: State, m: nat, c: State, r: State)
    requires Runs(s) && m in s.mutexes.free && !s.mutexes.free[m] && IsMutex(s, m) && c == Called(s, m)
    requires CanBlock(c, OnMutex(m), InLock(m)) ==> r == Block(c, OnMutex(m), InLock(m))
    ensures CanBlock(c, OnMutex(m), InLock(m)) && Inv(r) && (r.halted <==> s.queues[Ready] == [])
  {
    var t := OnCpu(s);
    MutexKnown(s, s.curr, m);
    var p := Park(c, OnMutex(m), InLock(m));
    ParkRest(c, t, OnMutex(m), InLock(m), p);
    CalledOk(s.mutexes, s.queues, s.ends.freed, m, t, c.mutexes);
    ParkSwap(s, t, OnMutex(m), InLock(m), Park(s, OnMutex(m), InLock(m)));
    BlockOk(c, OnMutex(m), InLock(m), p, r);
  }

  lemma LockOk(s: State, m: nat, r: State)
    requires Runs(s) && m in s.mutexes.free && (CanLock(s, m) ==> r == Lock(s, m))
    ensures CanLock(s, m) && Inv(r) && (r.halted <==> !s.mutexes.free[m] && s.queues[Ready] == [])
  {
    var t := OnCpu(s);
    MutexKnown(s, s.curr, m);
    if s.mutexes.free[m] { TakeFreeOk(s, m, r); } else { LockTakenOk(s, m, Called(s, m), r); }
  }

  lemma CanUnlockOk(s: State, m: nat)
    requires Runs(s) && m in s.mutexes.free
    ensures CanUnlock(s, m)
  {
    var t := OnCpu(s);
    MutexKnown(s, s.curr, m);
    if s.queues[OnMutex(m)] != [] {
      var u := s.queues[OnMutex(m)][0];
      assert u in s.queues[OnMutex(m)];
      InQueue(s.place, s.queues, s.curr, OnMutex(m), u);
    }
  }

  lemma GiveUpOk(s: State, m: nat, t: nat, r: State)
    requires Runs(s) && CanUnlock(s, m) && s.curr == Some(t) && Holds(s, m) && s.queues[OnMutex(m)] == []
    requires r == GiveUp(s, m)
    ensures Runs(r) && r.queues == s.queues
  {
    assert At(s.place, t, Running);
    GivenUpOk(s.mutexes, s.queues, s.ends.freed, m, t, r.mutexes);
    HolderPoints(s.place, s.points, s.mutexes.holder, m, None);
    assert r.mutexes.holding.Keys == s.mutexes.holding.Keys;
  }

  lemma PassOk(s: State, m: nat, t: nat, u: nat, r: State)
    requires Runs(s) && CanUnlock(s, m) && s.curr == Some(t) && Holds(s, m) && s.queues[OnMutex(m)] != []
    requires u == s.queues[OnMutex(m)][0] && r == Pass(s, m, u)
    ensures Runs(r) && r.queues.Keys == s.queues.Keys && r.queues[Ready] == s.queues[Ready] + [u]
  {
    PassAt(s, m, t, u);
    PassPlaced(s, m, t, u, r);
    PassMutexes(s, m, t, u, r);
    PassSwap(s, m, u, r);
  }

  lemma PassAt(s: State, m: nat, t: nat, u: nat)
    requires PlacesOk(s.place, s.queues, s.curr) && OnMutex(m) in s.queues && s.curr == Some(t)
    requires s.queues[OnMutex(m)] != []
    requires u == s.queues[OnMutex(m)][0]
    ensures At(s.place, t, Running) && At(s.place, u, OnMutex(m)) && u != t
  {
    assert u in s.queues[OnMutex(m)];
    InQueue(s.place, s.queues, s.curr, OnMutex(m), u);
  }

  lemma PassSwap(s: State, m: nat, u: nat, r: State)
    requires Runs(s) && OnMutex(m) in s.queues && At(s.place, u, OnMutex(m)) && r.swap == s.swap && r.points == s.points
    requires Ready in r.queues && OnSwap in r.queues
    requires r.queues[Ready] == s.queues[Ready] + [u] && r.queues[OnSwap] == s.queues[OnSwap]
    ensures SwapOk(r.swap, r.queues[Ready], r.queues[OnSwap], r.points)
  {
    assert PointOk(u, OnMutex(m), s.points[u], s.mutexes.holder);
    MoreReady(s, [u], r.queues[Ready]);
  }

  lemma PassMutexes(s: State, m: nat, t: nat, u: nat, r: State)
    requires MutexesOk(s.mutexes, s.queues, s.ends.freed) && CanUnlock(s, m) && s.curr == Some(t) && Holds(s, m)
    requires s.queues[OnMutex(m)] != [] && u == s.queues[OnMutex(m)][0] && u != t && r == Pass(s, m, u)
    ensures MutexesOk(r.mutexes, r.queues, r.ends.freed)
  {
    PassedOk(s.mutexes, s.queues, s.ends.freed, m, t, u, r.mutexes);
    QueueFrame(r.mutexes, s.queues[OnMutex(m) := s.queues[OnMutex(m)][1..]], s.ends.freed, Ready, s.queues[Ready]
      + [u]);
  }

  lemma PassPlaced(s: State, m: nat, t: nat, u: nat, r: State)
    requires PlacesOk(s.place, s.queues, s.curr) && PointsOk(s.place, s.points, s.mutexes.holder)
    requires ContextsOk(s.points, s.mutexes.holding, s.place, s.ends)
    requires ObjectsOk(s.objects, s.place, s.queues, s.ends.next)
    requires CanUnlock(s, m) && s.curr == Some(t) && Holds(s, m) && s.queues[OnMutex(m)] != []
    requires u == s.queues[OnMutex(m)][0] && r == Pass(s, m, u) && At(s.place, t, Running) && At(s.place, u, OnMutex(m))
    ensures PlacesOk(r.place, r.queues, r.curr) && PointsOk(r.place, r.points, r.mutexes.holder)
    ensures ContextsOk(r.points, r.mutexes.holding, r.place, r.ends)
    ensures ObjectsOk(r.objects, r.place, r.queues, r.ends.next)
  {
    MovePlaces(s.place, s.queues, s.curr, OnMutex(m));
    PassPoints(s.place, s.points, s.mutexes.holder, m, u);
    SameTables(s, r);
  }

  lemma HandOffOk(s: State, m: nat, r: State)
    requires Runs(s) && CanUnlock(s, m) && Holds(s, m) && r == HandOff(s, m)
    ensures Runs(r) && r.queues.Keys == s.queues.Keys && r.curr == s.curr && m in r.mutexes.holder
    ensures r.queues[Ready] == [] <==> s.queues[Ready] == [] && s.queues[OnMutex(m)] == []
  {
    var t := s.curr.value;
    if s.queues[OnMutex(m)] == [] {
      GiveUpOk(s, m, t, r);
    } else {
      PassOk(s, m, t, s.queues[OnMutex(m)][0], r);
    }
  }

  lemma UnlockOk(s: State, m: nat, r: State)
    requires Runs(s) && m in s.mutexes.free && (CanUnlock(s, m) ==> r == Unlock(s, m).0)
    ensures CanUnlock(s, m) && Runs(r)
  {
    CanUnlockOk(s, m);
    if Holds(s, m) { HandOffOk(s, m, r); }
  }

  lemma WaitOk(s: State, c: nat, m: nat, r: State)
    requires Runs(s) && OnCv(c) in s.queues && m in s.mutexes.free && (CanWait(s, c, m) ==> r == Wait(s, c, m).0)
    ensures CanWait(s, c, m) && Inv(r)
    ensures r.halted <==> Holds(s, m) && s.queues[Ready] == [] && s.queues[OnMutex(m)] == []
  {
    CanUnlockOk(s, m);
    if Holds(s, m) {
      var h := HandOff(s, m);
      HandOffOk(s, m, h);
      var p := Park(h, OnCv(c), BeforeLock(m));
      ParkOk(h, s.curr.value, OnCv(c), BeforeLock(m), p);
      BlockOk(h, OnCv(c), BeforeLock(m), p, r);
    }
  }

  // ----- swap3 -----

  lemma OfferOk(s: State, t: nat, msg: string, o: State, p: State)
    requires Runs(s) && s.curr == Some(t) && |s.queues[OnSwap]| < 2 && CanOffer(s)
    requires o == Offer(s, msg) && p == Park(o, OnSwap, InSwap(|s.swap.calls|))
    ensures Consistent(p, None)
  {
    var u := OnCpu(s);
    ParkRest(o, t, OnSwap, InSwap(|s.swap.calls|), p);
    QueueFrame(s.mutexes, s.queues, s.ends.freed, OnSwap, p.queues[OnSwap]);
    OfferedOk(s.swap, s.queues[Ready], s.queues[OnSwap], s.points, t, msg, p.swap);
  }

  lemma Swap3WaitOk(s: State, msg: string, o: State, k: Point, r: State)
    requires Runs(s) && |s.queues[OnSwap]| < 2 && s.queues[Ready] != [] && CanOffer(s)
    requires o == Offer(s, msg) && k == InSwap(|s.swap.calls|) && (CanBlock(o, OnSwap, k) ==> r == Block(o, OnSwap, k))
    ensures CanBlock(o, OnSwap, k) && Runs(r)
  {
    var p := Park(o, OnSwap, k);
    OfferOk(s, s.curr.value, msg, o, p);
    BlockOk(o, OnSwap, k, p, r);
  }

  lemma ThirdOk(s: State, msg: string, r: State)
    requires Runs(s) && |s.queues[OnSwap]| >= 2 && (CanClose(s) ==> r == Third(s, msg))
    ensures CanClose(s) && Runs(r)
  {
    OpenMemory(s.swap, s.queues[Ready], s.queues[OnSwap], s.points);
    WakeAllPlaced(s, OnSwap, WakeAll(s, OnSwap));
    TwoQueues(s, Ready, s.queues[Ready] + s.queues[OnSwap], OnSwap, [], r.queues);
    ClosedOk(s.swap, s.queues[Ready], s.queues[OnSwap], s.points, msg, r.swap);
  }

  lemma Swap3Ok(s: State, msg: string, r: State)
    requires Runs(s) && (CanSwap3(s, msg) ==> r == Swap3(s, msg))
    ensures CanSwap3(s, msg) && Inv(r) && (r.halted <==> |s.queues[OnSwap]| < 2 && s.queues[Ready] == [])
  {
    OpenMemory(s.swap, s.queues[Ready], s.queues[OnSwap], s.points);
    if |s.queues[OnSwap]| >= 2 { ThirdOk(s, msg, r); }
    else if s.queues[Ready] != [] { Swap3WaitOk(s, msg, Offer(s, msg), InSwap(|s.swap.calls|), r); }
  }

  // ----- threads begin and end -----

  lemma CreateOk(s: State, r: State)
    requires Runs(s) && r == Create(s)
    ensures Runs(r)
  {
    var t := s.ends.next;
    assert t !in s.place && t !in s.points && t !in s.ends.finished && t !in s.mutexes.holding
      && OnJoin(t) !in s.queues;
    CreatePlaced(s, t, r);
    CreateTables(s, t, r);
    ContextOk(s.mutexes, s.queues, s.ends.freed, t, r.mutexes);
    QueueFrame(r.mutexes, s.queues, s.ends.freed, Ready, s.queues[Ready] + [t]);
    QueueFrame(r.mutexes, s.queues[Ready := s.queues[Ready] + [t]], s.ends.freed, OnJoin(t), []);
    CreateSwap(s, t, r);
  }

  lemma CreateSwap(s: State, t: nat, r: State)
    requires Runs(s) && t == s.ends.next && t !in s.place && t !in s.points && r == Create(s)
    ensures SwapOk(r.swap, r.queues[Ready], r.queues[OnSwap], r.points)
  {
    WaitersKnown(s, s.curr);
    InQueue(s.place, s.queues, s.curr, Ready, t);
    PendingFrame(s.queues[Ready], s.points, r.points);
    PendingJoined(s.queues[Ready], [t], r.points);
    PendingOne(t, r.points);
    SwapFrame(s.swap, s.queues[Ready], s.queues[OnSwap], s.points, r.queues[Ready], r.points);
  }

  lemma CreatePlaced(s: State, t: nat, r: State)
    requires Runs(s) && t == s.ends.next && t !in s.place && OnJoin(t) !in s.queues && r == Create(s)
    ensures PlacesOk(r.place, r.queues, r.curr) && PointsOk(r.place, r.points, r.mutexes.holder)
  {
    CreatePlaces(s.place, s.queues, s.curr, t);
    ParkPoints(s.place, s.points, s.mutexes.holder, t, Ready, Begin);
  }

  lemma CreateTables(s: State, t: nat, r: State)
    requires Runs(s) && t == s.ends.next && t !in s.place && t !in s.ends.finished && OnJoin(t) !in s.queues
    requires r == Create(s)
    ensures ContextsOk(r.points, r.mutexes.holding, r.place, r.ends)
    ensures ObjectsOk(r.objects, r.place, r.queues, r.ends.next)
  {}

  lemma NewMutexOk(s: State, m: nat, r: State)
    requires Runs(s) && m !in s.mutexes.free && r == NewMutex(s, m)
    ensures Runs(r)
  {
    assert m in s.mutexes.holder ==> MutexAt(s.mutexes, m, Waiting(s.queues, m), s.ends.freed);
    NewMutexPlaced(s, m, r);
    NewOk(s.mutexes, s.queues, s.ends.freed, m, r.mutexes);
  }

  lemma NewMutexPlaced(s: State, m: nat, r: State)
    requires Runs(s) && m !in s.mutexes.holder && r == NewMutex(s, m)
    ensures PlacesOk(r.place, r.queues, r.curr) && PointsOk(r.place, r.points, r.mutexes.holder)
    ensures ObjectsOk(r.objects, r.place, r.queues, r.ends.next)
  {
    NewQueuePlaces(s.place, s.queues, s.curr, OnMutex(m));
    MorePoints(s.place, s.points, s.mutexes.holder, m);
  }

  lemma NewCvOk(s: State, c: nat, r: State)
    requires Runs(s) && OnCv(c) !in s.queues && r == NewCv(s, c)
    ensures Runs(r)
  {
    NewQueuePlaces(s.place, s.queues, s.curr, OnCv(c));
    QueueFrame(s.mutexes, s.queues, s.ends.freed, OnCv(c), []);
  }

  lemma DropOk(s: State, u: nat, r: State)
    requires Runs(s) && u in s.objects.done && (CanDrop(s, u) ==> r == Drop(s, u))
    ensures CanDrop(s, u) && Runs(r)
  {
    assert s.objects.done[u] == (u !in s.place);
    assert u in s.objects.die <==> u in s.place;
    DropObjects(s, u, r);
  }

  lemma DropObjects(s: State, u: nat, r: State)
    requires Runs(s) && CanDrop(s, u) && r == Drop(s, u)
    ensures ObjectsOk(r.objects, r.place, r.queues, r.ends.next)
  {
    assert s.objects.done[u] == (u !in s.place);
  }

  lemma LeavePlaced(w: State, t: nat, r: State)
    requires Runs(w) && w.curr == Some(t) && OnJoin(t) in w.queues && w.queues[OnJoin(t)] == []
    requires r.place == w.place - {t} && r.queues == w.queues - {OnJoin(t)} && r.points == w.points
    requires r.mutexes == w.mutexes
    ensures PlacesOk(r.place, r.queues, None) && PointsOk(r.place, r.points, r.mutexes.holder)
  {
    LeavePlaces(w.place, w.queues, t);
    FewerPoints(w.place, w.points, w.mutexes.holder, t);
  }

  lemma LeaveContexts(w: State, t: nat, r: State)
    requires Runs(w) && w.curr == Some(t)
    requires r.place == w.place - {t} && r.points == w.points && r.mutexes == w.mutexes
    requires r.ends == w.ends.(last := Some(t), finished := w.ends.finished + [t])
    ensures ContextsOk(r.points, r.mutexes.holding, r.place, r.ends)
  {
    assert At(w.place, t, Running);
    assert t !in w.ends.finished;
    forall u: nat ensures u in r.ends.finished <==> u in w.ends.finished || u == t {}
  }

  lemma LeaveObjects(w: State, t: nat, r: State)
    requires Runs(w) && w.curr == Some(t) && t in w.objects.die && r.place == w.place - {t}
    requires r.queues == w.queues - {OnJoin(t)}
    requires r.objects == Objects(w.objects.die - {t}, if w.objects.die[t] then w.objects.done
      else w.objects.done[t := true])
    requires r.ends.next == w.ends.next
    ensures ObjectsOk(r.objects, r.place, r.queues, r.ends.next)
  {
    assert At(w.place, t, Running);
  }

  lemma LeaveOk(s: State, t: nat, w: State, r: State)
    requires Runs(s) && s.curr == Some(t) && CanLeave(s) && w == WakeAll(s, OnJoin(t)) && r == Leave(s)
    ensures Consistent(r, None) && r.ends.last == Some(t) && r.halted == s.halted
    ensures r.queues[Ready] == s.queues[Ready] + s.queues[OnJoin(t)]
  {
    WakeAllOk(s, OnJoin(t), w);
    LeavePlaced(w, t, r);
    LeaveContexts(w, t, r);
    LeaveObjects(w, t, r);
    QueueGone(w.mutexes, w.queues, w.ends.freed, OnJoin(t));
  }

  lemma FinishOk(s: State, r: State)
    requires Runs(s) && (CanFinish(s) ==> r == Finish(s))
    ensures CanFinish(s) && Inv(r)
    ensures r.halted <==> s.queues[Ready] == [] && s.Queue(OnJoin(s.curr.value)) == []
  {
    var t := OnCpu(s);
    assert !s.objects.die[t] ==> t in s.objects.done;
    var l := Leave(s);
    LeaveOk(s, t, WakeAll(s, OnJoin(t)), l);
    if l.queues[Ready] == [] { ReleaseOk(l, None, if CanRelease(l) then Release(l) else l); }
    else { DispatchOk(l, if CanDispatch(l) then Dispatch(l) else l); }
  }
}
