/** The thread library as the code runs it: its tables are updated in place. Each method is one
    interrupt-disabled section; one that blocks its caller ends where the next thread enables interrupts. */
module Threads {
  import opened Wrappers
  import opened ThreadState
  import opened ThreadInvariant
  import opened ThreadMutexes
  import opened ThreadSteps
  import opened ThreadRun
  import opened ThreadCalls
  import opened ThreadReturns

  /** Every mutex that a context lists exists. */
  ghost predicate HeldKnown(x: Mutexes) {
    forall t: nat, m: nat {:trigger Held(x, t, m)} :: Held(x, t, m) ==> m in x.holder
  }

  lemma LinkedKnown(x: Mutexes)
    requires Linked(x)
    ensures HeldKnown(x)
  {
    forall t: nat, m: nat | Held(x, t, m) ensures m in x.holder { assert Holder(x, m, t); }
  }

  class Library {
    var curr: Option<nat>
    var last: Option<nat>
    var halted: bool
    var queues: map<Place, seq<nat>>
    var points: map<nat, Point>
    var free: map<nat, bool>
    var holder: map<nat, Option<nat>>
    var holding: map<nat, set<nat>>
    var die: map<nat, bool>
    var done: map<nat, bool>
    var memory: seq<seq<string>>
    var next: nat
    var calls: seq<string> // numbers the calls of swap3
    ghost var place: map<nat, Place>
    ghost var locks: map<nat, seq<nat>>
    ghost var grants: map<nat, seq<nat>>
    ghost var inside: map<nat, set<nat>>
    ghost var results: map<nat, string>
    ghost var finished: seq<nat>
    ghost var freed: seq<nat>

    ghost function S(): State
      reads this
    {
      State(curr, halted, queues, place, points, M(), Objects(die, done), Swap(memory, calls, results), Ends(next,
        last, finished, freed))
    }

    ghost function M(): Mutexes
      reads this
    {
      Mutexes(free, holder, holding, locks, grants, inside)
    }

    constructor ()
      ensures S() == Init() && Runs(S())
    {
      curr, last, halted, next := Some(0), None, false, 1;
      queues, points := map[Ready := [], OnSwap := [], OnJoin(0) := []], map[0 := User];
      free, holder, holding := map[], map[], map[0 := {}];
      die, done, memory := map[0 := true], map[], [];
      place, locks, grants, inside := map[0 := Running], map[], map[], map[];
      calls, results, finished, freed := [], map[], [], [];
      new;
      InitInv();
    }

    // ----- switching -----

    method Park(q: Place, point: Point)
      requires curr.Some? && q in queues
      modifies `queues, `points, `place
      ensures S() == ThreadState.Park(old(S()), q, point)
    {
      queues := queues[q := queues[q] + [curr.value]];
      points := points[curr.value := point];
      place := place[curr.value := q];
    }

    method TakeFront()
      requires Ready in queues && queues[Ready] != []
      modifies `curr, `queues, `place
      ensures S() == ThreadState.TakeFront(old(S()))
    {
      curr := Some(queues[Ready][0]);
      queues := queues[Ready := queues[Ready][1..]];
      place := place[curr.value := Running];
    }

    /** The destructor of a context takes its mutexes' holder away, one by one. */
    method DeleteContext(t: nat)
      requires t in holding && HeldKnown(M())
      modifies `points, `holding, `holder, `inside
      ensures points == old(points) - {t} && M() == old(M()).Orphaned(t)
    {
      var rest := holding[t];
      while rest != {}
        invariant points == old(points) && holding == old(holding) && inside == old(inside)
        invariant rest <= holding[t] && holder.Keys == old(holder).Keys
        invariant forall m :: m in holder ==>
          holder[m] == if m in holding[t] && m !in rest then None else old(holder)[m]
        decreases |rest|
      {
        var m: nat :| m in rest;
        assert Held(old(M()), t, m);
        holder := holder[m := None];
        rest := rest - {m};
      }
      inside := M().Orphaned(t).inside;
      assert holder == old(M()).Orphaned(t).holder;
      holding := holding - {t};
      points := points - {t};
    }

    method ReleaseLast()
      requires CanRelease(S()) && HeldKnown(M())
      modifies `last, `points, `holding, `holder, `inside, `freed
      ensures S() == Release(old(S()))
    {
      if last.Some? {
        DeleteContext(last.value);
        ForgetLast();
      }
    }

    method ForgetLast()
      requires last.Some?
      modifies `last, `freed
      ensures last == None && freed == old(freed) + [old(last).value]
    {
      freed := freed + [last.value];
      last := None;
    }

    /** What follows the switch in yield, join, lock and wait; swap3 collects its answer. */
    method Resume()
      requires CanResume(S())
      modifies `points, `inside, `memory, `results
      ensures S() == ThreadState.Resume(old(S()))
    {
      var t := curr.value;
      match points[t] {
        case BeforeLock(_) =>
        case InLock(m) =>
          inside := inside[m := inside[m] + {t}];
          points := points[t := User];
        case InSwap(k) =>
          Collect(k);
          points := points[t := User];
        case _ =>
          points := points[t := User];
      }
    }

    method Collect(ghost k: nat)
      requires memory != [] && memory[0] != []
      modifies `memory, `results
      ensures Swap(memory, calls, results) == old(Swap(memory, calls, results)).Collected(k)
    {
      var message := memory[0][0];
      memory := memory[0 := memory[0][1..]];
      results := results[k := message];
      if memory[0] == [] {
        memory := memory[1..];
      }
    }

    /** Switches to the front of the ready queue; that thread frees what the last one left. */
    method Dispatch()
      requires CanDispatch(S()) && HeldKnown(M())
      modifies `curr, `queues, `place, `last, `points, `holding, `holder, `inside, `freed, `memory, `results
      ensures S() == ThreadState.Dispatch(old(S()))
    {
      TakeFront();
      ReleaseLast();
      Resume();
    }

    method Halt()
      modifies `halted
      ensures S() == ThreadState.Halt(old(S()))
    {
      halted := true;
    }

    /** Moves the contexts of a queue to the ready queue, front first. */
    method WakeAll(q: Place)
      requires q in queues && Ready in queues && q != Ready
      modifies `queues, `place
      ensures S() == ThreadState.WakeAll(old(S()), q)
    {
      place := Readied(place, queues[q]);
      MoveAll(q);
    }

    method MoveAll(q: Place)
      requires q in queues && Ready in queues && q != Ready
      modifies `queues
      ensures queues == old(queues)[Ready := old(queues)[Ready] + old(queues)[q]][q := []]
    {
      ghost var us, n := queues[q], 0;
      while queues[q] != []
        invariant n <= |us| && queues.Keys == old(queues).Keys
        invariant queues[q] == us[n..] && queues[Ready] == old(queues)[Ready] + us[..n]
        invariant forall p :: p in queues && p != Ready && p != q ==> queues[p] == old(queues)[p]
        decreases |queues[q]|
      {
        assert us[..n + 1] == us[..n] + [us[n]];
        queues := queues[Ready := queues[Ready] + [queues[q][0]]][q := queues[q][1..]];
        n := n + 1;
      }
      assert us[..n] == us;
    }

    /** Queues the caller and runs another thread, or halts. */
    method Block(q: Place, point: Point)
      requires CanBlock(S(), q, point) && HeldKnown(M())
      modifies this
      ensures S() == ThreadState.Block(old(S()), q, point)
    {
      var stuck := queues[Ready] == [];
      Park(q, point);
      if stuck {
        Halt();
      } else {
        Dispatch();
      }
    }

    // ----- threads -----

    /** The constructor of thread; `u` names the new context, and the object. */
    method Create() returns (u: nat)
      requires Runs(S())
      modifies this
      ensures S() == ThreadState.Create(old(S())) && Runs(S()) && u == old(next)
      ensures Moves(old(S()), New(u), Stays, S())
    {
      ghost var s := S();
      u := AddThread();
      CreateOk(s, S());
      MakeMoves(s, S());
    }

    method AddThread() returns (u: nat)
      requires Ready in queues
      modifies this
      ensures S() == ThreadState.Create(old(S())) && u == old(next)
    {
      u := next;
      NewContext(u);
      queues := queues[Ready := queues[Ready] + [u]][OnJoin(u) := []];
      place := place[u := Ready];
      next := next + 1;
    }

    method NewContext(u: nat)
      modifies `points, `holding, `die, `done
      ensures points == old(points)[u := Begin] && holding == old(holding)[u := {}]
      ensures die == old(die)[u := false] && done == old(done)[u := false]
    {
      points := points[u := Begin];
      holding := holding[u := {}];
      die := die[u := false];
      done := done[u := false];
    }

    /** The destructor of thread. */
    method Drop(u: nat)
      requires Runs(S()) && u in done
      modifies `die, `done
      ensures CanDrop(old(S()), u) && S() == ThreadState.Drop(old(S()), u) && Runs(S())
    {
      ghost var s := S();
      DropOk(s, u, if CanDrop(s, u) then ThreadState.Drop(s, u) else s);
      if !done[u] {
        die := die[u := true];
      }
      done := done - {u};
    }

    method Yield()
      requires Runs(S())
      modifies this
      ensures CanYield(old(S())) && S() == ThreadState.Yield(old(S())) && Runs(S())
      ensures Moves(old(S()), Nobody, if old(queues[Ready]) == [] then Stays else WaitsAt(Ready), S())
    {
      ghost var s := S();
      LinkedKnown(M());
      YieldOk(s, if CanYield(s) then ThreadState.Yield(s) else s);
      if queues[Ready] != [] {
        Park(Ready, points[curr.value]);
        Dispatch();
      }
      YieldMoves(s, S());
    }

    method Join(u: nat)
      requires Runs(S()) && u in done
      modifies this
      ensures CanJoin(old(S()), u) && S() == ThreadState.Join(old(S()), u) && Inv(S())
      ensures !halted ==> Moves(old(S()), Nobody, if old(done)[u] then Stays else WaitsAt(OnJoin(u)), S())
    {
      ghost var s := S();
      LinkedKnown(M());
      JoinOk(s, u, if CanJoin(s, u) then ThreadState.Join(s, u) else s);
      if !done[u] {
        if queues[Ready] == [] {
          Halt();
        } else {
          Block(OnJoin(u), User);
        }
      }
      if !halted { JoinMoves(s, u, S()); }
    }

    /** The end of execute_user_function. */
    method Finish()
      requires Runs(S())
      modifies this
      ensures CanFinish(old(S())) && S() == ThreadState.Finish(old(S())) && Inv(S())
      ensures !halted ==> Moves(old(S()), AllOf(OnJoin(old(curr).value)), Gone, S())
    {
      ghost var s := S();
      FinishOk(s, if CanFinish(s) then ThreadState.Finish(s) else s);
      LinkedKnown(M());
      Leave();
      if queues[Ready] == [] {
        ReleaseLast();
        curr := None;
        Halt();
      } else {
        Dispatch();
        FinishMoves(s, S());
      }
    }

    method Leave()
      requires CanLeave(S())
      modifies `done, `queues, `place, `die, `last, `finished
      ensures S() == ThreadState.Leave(old(S()))
    {
      EndExecution(curr.value);
      SetLast();
    }

    method EndExecution(t: nat)
      requires Ready in queues && OnJoin(t) in queues && t in die
      modifies `done, `queues, `place, `die
      ensures done == if old(die)[t] then old(done) else old(done)[t := true]
      ensures queues == old(queues)[Ready := old(queues)[Ready] + old(queues)[OnJoin(t)]][OnJoin(t) := []] - {OnJoin(t)}
      ensures place == Readied(old(place), old(queues)[OnJoin(t)]) - {t} && die == old(die) - {t}
    {
      TellObject(t);
      WakeJoiners(t);
    }

    method WakeJoiners(t: nat)
      requires Ready in queues && OnJoin(t) in queues
      modifies `queues, `place, `die
      ensures queues == old(queues)[Ready := old(queues)[Ready] + old(queues)[OnJoin(t)]][OnJoin(t) := []] - {OnJoin(t)}
      ensures place == Readied(old(place), old(queues)[OnJoin(t)]) - {t} && die == old(die) - {t}
    {
      place := Readied(place, queues[OnJoin(t)]) - {t};
      MoveAll(OnJoin(t));
      queues := queues - {OnJoin(t)};
      die := die - {t};
    }

    method SetLast()
      requires curr.Some?
      modifies `last, `finished
      ensures last == curr && finished == old(finished) + [curr.value]
    {
      last := curr;
      finished := finished + [curr.value];
    }

    method TellObject(t: nat)
      requires t in die
      modifies `done
      ensures done == if die[t] then old(done) else old(done)[t := true]
    {
      if !die[t] {
        done := done[t := true];
      }
    }

    // ----- mutexes and condition variables -----

    method NewMutex(m: nat)
      requires Runs(S()) && m !in free
      modifies this
      ensures S() == ThreadState.NewMutex(old(S()), m) && Runs(S())
    {
      ghost var s := S();
      AddMutex(m);
      NewMutexOk(s, m, S());
    }

    method AddMutex(m: nat)
      modifies this
      ensures S() == ThreadState.NewMutex(old(S()), m)
    {
      queues := queues[OnMutex(m) := []];
      free := free[m := true];
      holder := holder[m := None];
      NewLogs(m);
    }

    ghost method NewLogs(m: nat)
      modifies `locks, `grants, `inside
      ensures locks == old(locks)[m := []] && grants == old(grants)[m := []] && inside == old(inside)[m := {}]
    {
      locks := locks[m := []];
      grants := grants[m := []];
      inside := inside[m := {}];
    }

    method NewCv(c: nat)
      requires Runs(S()) && OnCv(c) !in queues
      modifies `queues
      ensures S() == ThreadState.NewCv(old(S()), c) && Runs(S())
    {
      queues := queues[OnCv(c) := []];
      NewCvOk(old(S()), c, S());
    }

    /** `t` becomes the holder, and its context lists the mutex. */
    method Grant(m: nat, t: nat)
      requires M().Has(m) && t in holding
      modifies `free, `holder, `holding, `grants
      ensures M() == old(M()).Granted(m, t)
    {
      free := free[m := false];
      holder := holder[m := Some(t)];
      holding := holding[t := holding[t] + {m}];
      grants := grants[m := grants[m] + [t]];
    }

    method Lock(m: nat)
      requires Runs(S()) && m in free
      modifies this
      ensures CanLock(old(S()), m) && S() == ThreadState.Lock(old(S()), m) && Inv(S())
      ensures !halted ==> Moves(old(S()), Nobody, if old(free)[m] then Stays else WaitsAt(OnMutex(m)), S())
      ensures old(free)[m] ==> Entered(S(), old(curr).value, m)
    {
      ghost var s := S();
      LinkedKnown(M());
      LockOk(s, m, if CanLock(s, m) then ThreadState.Lock(s, m) else s);
      LogCall(m);
      if !free[m] {
        Block(OnMutex(m), InLock(m));
      } else {
        Enter(m);
      }
      if !halted { LockMoves(s, m, S()); }
    }

    ghost method LogCall(m: nat)
      requires IsMutex(S(), m) && curr.Some?
      modifies `locks
      ensures S() == Called(old(S()), m) && (HeldKnown(old(M())) ==> HeldKnown(M()))
    {
      locks := locks[m := locks[m] + [curr.value]];
      assert HeldKnown(old(M())) ==> forall t: nat, n: nat :: Held(M(), t, n) ==>
        Held(old(M()), t, n) && n in M().holder;
    }

    method Enter(m: nat)
      requires IsMutex(S(), m) && curr.Some? && curr.value in holding
      modifies `free, `holder, `holding, `grants, `points, `inside
      ensures S() == old(S()).(points := old(points)[curr.value := User], mutexes := old(M()).Granted(m,
        curr.value).Entered(m, curr.value))
    {
      Grant(m, curr.value);
      points := points[curr.value := User];
      inside := inside[m := inside[m] + {curr.value}];
    }

    /** unlockSource: false when it throws. */
    method UnlockSource(m: nat) returns (ok: bool)
      requires CanUnlock(S(), m) && (queues[OnMutex(m)] != [] ==> queues[OnMutex(m)][0] != curr.value)
      modifies this
      ensures ok == Holds(old(S()), m)
      ensures S() == if ok then HandOff(old(S()), m) else old(S())
    {
      if holder[m] != curr {
        return false;
      }
      ok := true;
      if queues[OnMutex(m)] != [] {
        PassOn(m);
      } else {
        SetFree(m);
      }
    }

    method SetFree(m: nat)
      requires CanUnlock(S(), m)
      modifies `free, `holder, `holding, `inside
      ensures S() == GiveUp(old(S()), m)
    {
      Forget(m, curr.value);
      free := free[m := true];
      holder := holder[m := None];
    }

    method Forget(m: nat, t: nat)
      requires t in holding && m in inside
      modifies `holding, `inside
      ensures holding == old(holding)[t := old(holding)[t] - {m}] && inside == old(inside)[m := old(inside)[m] - {t}]
    {
      holding := holding[t := holding[t] - {m}];
      inside := inside[m := inside[m] - {t}];
    }

    method PassOn(m: nat)
      requires CanUnlock(S(), m) && queues[OnMutex(m)] != [] && queues[OnMutex(m)][0] != curr.value
      modifies this
      ensures S() == Pass(old(S()), m, old(queues)[OnMutex(m)][0])
    {
      var u := queues[OnMutex(m)][0];
      Wake(OnMutex(m));
      PassMutex(m, curr.value, u);
    }

    method PassMutex(m: nat, t: nat, u: nat)
      requires M().Has(m) && t in holding && u in holding && t != u
      modifies `free, `holder, `holding, `inside, `grants
      ensures M() == old(M()).Passed(m, t, u)
    {
      Forget(m, t);
      Grant(m, u);
    }

    /** Moves the front of a queue to the ready queue. */
    method Wake(q: Place)
      requires q in queues && Ready in queues && q != Ready && queues[q] != []
      modifies `queues, `place
      ensures S() == ThreadState.Wake(old(S()), q)
    {
      var t := queues[q][0];
      queues := queues[Ready := queues[Ready] + [t]][q := queues[q][1..]];
      place := place[t := Ready];
      assert queues == old(queues)[q := old(queues)[q][1..]][Ready := old(queues)[Ready] + [t]];
    }

    /** Throws, and returns false, when the caller is not the holder. */
    method Unlock(m: nat) returns (ok: bool)
      requires Runs(S()) && m in free
      modifies this
      ensures CanUnlock(old(S()), m) && (S(), ok) == ThreadState.Unlock(old(S()), m) && Runs(S())
      ensures ok <==> m in old(holder) && old(holder)[m] == old(curr)
      ensures !ok ==> S() == old(S())
      ensures ok ==> Given(old(M()), old(S()).Queue(OnMutex(m)), m, M())
      ensures ok ==> curr == old(curr) && curr.value in holding && m !in holding[curr.value]
      ensures ok ==> Moves(old(S()), FirstOf(OnMutex(m)), Stays, S())
    {
      ghost var s := S();
      UnlockOk(s, m, if CanUnlock(s, m) then ThreadState.Unlock(s, m).0 else s);
      NotFirst(s, m);
      ok := UnlockSource(m);
      MutexKnown(s, s.curr, m);
      if ok { HolderUnlocks(s, m, S(), curr.value); }
    }

    /** The section of wait that gives the mutex up; the thread locks it again, as a call of its own, once it
        runs. Throws, and returns false, when the caller is not the holder. */
    method Wait(c: nat, m: nat) returns (ok: bool)
      requires Runs(S()) && OnCv(c) in queues && m in free
      modifies this
      ensures CanWait(old(S()), c, m) && (S(), ok) == ThreadState.Wait(old(S()), c, m) && Inv(S())
      ensures ok <==> m in old(holder) && old(holder)[m] == old(curr)
      ensures !ok ==> S() == old(S())
      ensures ok && !halted ==> Moves(old(S()), FirstOf(OnMutex(m)), WaitsAt(OnCv(c)), S())
    {
      ghost var s := S();
      WaitOk(s, c, m, if CanWait(s, c, m) then ThreadState.Wait(s, c, m).0 else s);
      NotFirst(s, m);
      ok := UnlockSource(m);
      if ok {
        HandOffOk(s, m, S());
        LinkedKnown(M());
        Block(OnCv(c), BeforeLock(m));
        if !halted { WaitMoves(s, c, m, S()); }
      }
    }

    method Signal(c: nat)
      requires Runs(S()) && OnCv(c) in queues
      modifies `queues, `place
      ensures S() == ThreadState.Signal(old(S()), c) && Runs(S())
      ensures Moves(old(S()), FirstOf(OnCv(c)), Stays, S())
    {
      if queues[OnCv(c)] != [] {
        Wake(OnCv(c));
      }
      SignalOk(old(S()), c, S());
      SignalMoves(old(S()), c, S());
    }

    method Broadcast(c: nat)
      requires Runs(S()) && OnCv(c) in queues
      modifies `queues, `place
      ensures S() == ThreadState.Broadcast(old(S()), c) && Runs(S())
      ensures Moves(old(S()), AllOf(OnCv(c)), Stays, S())
    {
      WakeAll(OnCv(c));
      WakeAllOk(old(S()), OnCv(c), S());
      BroadcastMoves(old(S()), c, S());
    }

    // ----- swap3 -----

    /** The third caller of a cycle returns its answer here; the first two find theirs when they resume. */
    method Swap3(msg: string) returns (answer: Option<string>)
      requires Runs(S())
      modifies this
      ensures CanSwap3(old(S()), msg) && S() == ThreadState.Swap3(old(S()), msg) && Inv(S())
      ensures answer.Some? ==> old(|calls|) in results && answer == Some(results[old(|calls|)])
      ensures answer.Some? <==> |old(queues)[OnSwap]| >= 2
    {
      ghost var s := S();
      LinkedKnown(M());
      Swap3Ok(s, msg, if CanSwap3(s, msg) then ThreadState.Swap3(s, msg) else s);
      answer := None;
      if |queues[OnSwap]| < 2 {
        if queues[Ready] == [] {
          Halt();
        } else {
          var k := |calls|;
          Offer(msg);
          Block(OnSwap, InSwap(k));
        }
      } else {
        var text := Close(msg);
        answer := Some(text);
      }
    }

    method Offer(msg: string)
      requires CanOffer(S())
      modifies `memory, `calls
      ensures S() == ThreadState.Offer(old(S()), msg)
    {
      if queues[OnSwap] == [] {
        memory := memory + [[]];
      }
      var back := memory[|memory| - 1] + [msg];
      memory := memory[|memory| - 1 := back];
      calls := calls + [msg];
      assert back == [msg] || queues[OnSwap] != [];
      assert memory == ThreadState.Offer(old(S()), msg).swap.memory;
    }

    method Close(msg: string) returns (text: string)
      requires CanClose(S())
      modifies `memory, `calls, `results, `queues, `place
      ensures S() == Third(old(S()), msg) && results == old(results)[|old(calls)| := text]
    {
      text := Answer(msg);
      WakeAll(OnSwap);
    }

    method Answer(msg: string) returns (text: string)
      requires memory != [] && memory[|memory| - 1] != []
      modifies `memory, `calls, `results
      ensures Swap(memory, calls, results) == old(Swap(memory, calls, results)).Closed(msg)
      ensures results == old(results)[|old(calls)| := text]
    {
      text := TakeBack();
      PutFront(msg);
      results := results[|calls| := text];
      calls := calls + [msg];
    }

    method TakeBack() returns (text: string)
      requires memory != [] && memory[|memory| - 1] != []
      modifies `memory
      ensures
        var back := old(memory)[|old(memory)| - 1];
        text == back[|back| - 1] && memory == old(memory)[|old(memory)| - 1 := back[..|back| - 1]]
    {
      var back := memory[|memory| - 1];
      text := back[|back| - 1];
      memory := memory[|memory| - 1 := back[..|back| - 1]];
    }

    method PutFront(text: string)
      requires memory != []
      modifies `memory
      ensures memory == old(memory)[|old(memory)| - 1 := [text] + old(memory)[|old(memory)| - 1]]
    {
      memory := memory[|memory| - 1 := [text] + memory[|memory| - 1]];
    }
  }

  /** A holder does not wait first in line for its own mutex. */
  lemma NotFirst(s: State, m: nat)
    requires Runs(s) && m in s.mutexes.free && OnMutex(m) in s.queues
    ensures s.queues[OnMutex(m)] != [] ==> s.curr != Some(s.queues[OnMutex(m)][0])
  {
    var t := OnCpu(s);
    if s.queues[OnMutex(m)] != [] {
      var u := s.queues[OnMutex(m)][0];
      assert u in s.queues[OnMutex(m)];
      InQueue(s.place, s.queues, s.curr, OnMutex(m), u);
    }
  }
}
