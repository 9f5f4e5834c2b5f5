/** The state of the thread library on one CPU, and what each interrupt-disabled section does to it.
    A thread is named by its context's number, a queue by the place that owns it. Sections are atomic,
    so a state here is one in which user code runs with interrupts enabled, or the CPU has halted. */
module ThreadState {
  import opened Wrappers

  /** Where a live thread is; every place but Running is a queue of contexts. */
  datatype Place = Running | Ready | OnMutex(mutex: nat) | OnCv(cv: nat) | OnJoin(thread: nat) | OnSwap

  /** What a context does when it is switched to, once it has released the last context: return from
      yield, join or lock, take the mutex again in wait, or collect the message of swap3 call `call`. */
  datatype Point = Begin | User | InLock(mutex: nat) | BeforeLock(mutex: nat) | InSwap(call: nat)

  /** The mutexes, with the set of mutexes that each context lists as held. History: who called lock and
      who was granted the mutex, in order, and which threads are between lock's return and unlock. */
  datatype Mutexes = Mutexes(
    free: map<nat, bool>,
    holder: map<nat, Option<nat>>,
    holding: map<nat, set<nat>>,
    locks: map<nat, seq<nat>>,
    grants: map<nat, seq<nat>>,
    inside: map<nat, set<nat>>)
  {
    predicate Has(m: nat) { m in free && m in holder && m in locks && m in grants && m in inside }

    function New(m: nat): Mutexes {
      Mutexes(free[m := true], holder[m := None], holding, locks[m := []], grants[m := []], inside[m := {}])
    }

    function Called(m: nat, t: nat): Mutexes
      requires m in locks
    {
      this.(locks := locks[m := locks[m] + [t]])
    }

    /** `t` gets the mutex. */
    function Granted(m: nat, t: nat): Mutexes
      requires Has(m) && t in holding
    {
      this.(free := free[m := false], holder := holder[m := Some(t)], holding := holding[t := holding[t] + {m}],
            grants := grants[m := grants[m] + [t]])
    }

    /** `t` returns from lock. */
    function Entered(m: nat, t: nat): Mutexes
      requires m in inside
    {
      this.(inside := inside[m := inside[m] + {t}])
    }

    /** `t` leaves the mutex free. */
    function GivenUp(m: nat, t: nat): Mutexes
      requires Has(m) && t in holding
    {
      this.(holding := holding[t := holding[t] - {m}], inside := inside[m := inside[m] - {t}],
            free := free[m := true], holder := holder[m := None])
    }

    /** `t` leaves the mutex to `u`; it stays taken. */
    function Passed(m: nat, t: nat, u: nat): Mutexes
      requires Has(m) && t in holding && u in holding
    {
      this.(holding := (holding[t := holding[t] - {m}])[u := holding[u] + {m}], inside := inside[m := inside[m] - {t}],
            free := free[m := false], holder := holder[m := Some(u)], grants := grants[m := grants[m] + [u]])
    }

    /** The context of `t` is destroyed: the mutexes it held have no holder any more, and stay taken. */
    function Orphaned(t: nat): Mutexes
      requires t in holding
    {
      this.(holding := holding - {t}, holder := map m | m in holder :: if m in holding[t] then None else holder[m],
            inside := map m | m in inside :: if m in holding[t] then inside[m] - {t} else inside[m])
    }
  }

  /** The deques of swap3. History: the messages of all calls and the answers given so far. */
  datatype Swap = Swap(memory: seq<seq<string>>, calls: seq<string>, results: map<nat, string>) {
    /** A call takes its message from the oldest deque, and drops the deque if that was the last. */
    function Collected(call: nat): Swap
      requires memory != [] && memory[0] != []
    {
      Swap(if |memory[0]| == 1 then memory[1..]
        else [memory[0][1..]] + memory[1..], calls, results[call := memory[0][0]])
    }

    /** The first call of a cycle starts a deque, the second adds to it. */
    function Offered(waiters: nat, msg: string): Swap
      requires waiters > 0 ==> memory != []
    {
      Swap(if waiters == 0 then memory + [[msg]]
        else memory[|memory| - 1 := memory[|memory| - 1] + [msg]], calls + [msg], results)
    }

    /** The third call takes the message at the back of the newest deque and puts its own at the front. */
    function Closed(msg: string): Swap
      requires memory != [] && memory[|memory| - 1] != []
    {
      var back := memory[|memory| - 1];
      Swap(memory[|memory| - 1 := [msg] + back[..|back| - 1]], calls + [msg], results[|calls| := back[|back| - 1]])
    }
  }

  /** The die flags of the threads that execute, and the thread objects that exist: is their thread done? */
  datatype Objects = Objects(die: map<nat, bool>, done: map<nat, bool>)

  /** `next` numbers new contexts. History: contexts in the order they finished and were freed. */
  datatype Ends = Ends(next: nat, last: Option<nat>, finished: seq<nat>, freed: seq<nat>)

  /** History: `place`, where each live thread is. */
  datatype State = State(
    curr: Option<nat>,
    halted: bool,
    queues: map<Place, seq<nat>>,
    place: map<nat, Place>,
    points: map<nat, Point>,
    mutexes: Mutexes,
    objects: Objects,
    swap: Swap,
    ends: Ends)
  {
    function Queue(q: Place): seq<nat> { if q in queues then queues[q] else [] }
  }

  /** cpu::init with a start function: context 0 runs it; its die flag starts true. */
  function Init(): State {
    State(Some(0), false, map[Ready := [], OnSwap := [], OnJoin(0) := []], map[0 := Running], map[0 := User],
          Mutexes(map[], map[], map[0 := {}], map[], map[], map[]), Objects(map[0 := true], map[]),
          Swap([], [], map[]), Ends(1, None, [], []))
  }

  // ----- switching -----

  /** The context that is being left goes to the back of a queue. */
  function Park(s: State, q: Place, point: Point): State
    requires s.curr.Some? && q in s.queues
  {
    var t := s.curr.value;
    s.(queues := s.queues[q := s.queues[q] + [t]], points := s.points[t := point], place := s.place[t := q])
  }

  predicate CanRelease(s: State) { s.ends.last.Some? ==> s.ends.last.value in s.mutexes.holding }

  /** release_last_context, with the destructor of the context. */
  function Release(s: State): State
    requires CanRelease(s)
  {
    if s.ends.last.None? then s else Freed(s, s.ends.last.value)
  }

  function Freed(s: State, t: nat): State
    requires t in s.mutexes.holding
  {
    s.(points := s.points - {t}, mutexes := s.mutexes.Orphaned(t),
       ends := s.ends.(last := None, freed := s.ends.freed + [t]))
  }

  /** The front of the ready queue becomes the current context. */
  function TakeFront(s: State): State
    requires Ready in s.queues && s.queues[Ready] != []
  {
    var t := s.queues[Ready][0];
    s.(curr := Some(t), queues := s.queues[Ready := s.queues[Ready][1..]], place := s.place[t := Running])
  }

  predicate CanResume(s: State) {
    && s.curr.Some? && s.curr.value in s.points
    && (s.points[s.curr.value].InLock? ==> s.points[s.curr.value].mutex in s.mutexes.inside)
    && (s.points[s.curr.value].InSwap? ==> s.swap.memory != [] && s.swap.memory[0] != [])
  }

  /** What the current context does after a switch, up to enabling interrupts. */
  function Resume(s: State): State
    requires CanResume(s)
  {
    var t := s.curr.value;
    var p := s.points[t];
    s.(points := if p.BeforeLock? then s.points else s.points[t := User],
       mutexes := if p.InLock? then s.mutexes.Entered(p.mutex, t) else s.mutexes,
       swap := if p.InSwap? then s.swap.Collected(p.call) else s.swap)
  }

  predicate CanSwitch(s: State) { Ready in s.queues && s.queues[Ready] != [] && CanRelease(s) }

  function Switch(s: State): State
    requires CanSwitch(s)
  {
    Release(TakeFront(s))
  }

  predicate CanDispatch(s: State) { CanSwitch(s) && CanResume(Switch(s)) }

  function Dispatch(s: State): State
    requires CanDispatch(s)
  {
    Resume(Switch(s))
  }

  /** interrupt_enable_suspend: on one CPU nothing wakes it again. */
  function Halt(s: State): State { s.(halted := true) }

  /** The first waiter of a queue becomes ready. */
  function Wake(s: State, q: Place): State
    requires q in s.queues && Ready in s.queues && q != Ready && s.queues[q] != []
  {
    var t := s.queues[q][0];
    s.(queues := s.queues[q := s.queues[q][1..]][Ready := s.queues[Ready] + [t]], place := s.place[t := Ready])
  }

  /** Every context of one queue goes to the back of the ready queue, in order. */
  function WakeAll(s: State, q: Place): State
    requires q in s.queues && Ready in s.queues && q != Ready
  {
    s.(queues := s.queues[Ready := s.queues[Ready] + s.queues[q]][q := []], place := Readied(s.place, s.queues[q]))
  }

  function Readied(place: map<nat, Place>, ts: seq<nat>): map<nat, Place> {
    map t | t in place :: if t in ts then Ready else place[t]
  }

  function PointOf(s: State): Point
    requires s.curr.Some? && s.curr.value in s.points
  {
    s.points[s.curr.value]
  }

  predicate CanBlock(s: State, q: Place, point: Point) {
    && s.curr.Some? && q in s.queues && Ready in s.queues && q != Ready
    && (s.queues[Ready] != [] ==> CanDispatch(Park(s, q, point)))
  }

  /** lock and wait queue the context before they look for another; they halt if there is none. */
  function Block(s: State, q: Place, point: Point): State
    requires CanBlock(s, q, point)
  {
    var p := Park(s, q, point);
    if s.queues[Ready] == [] then Halt(p) else Dispatch(p)
  }

  // ----- the library's calls -----

  function NewMutex(s: State, m: nat): State {
    s.(queues := s.queues[OnMutex(m) := []], mutexes := s.mutexes.New(m))
  }

  function NewCv(s: State, c: nat): State { s.(queues := s.queues[OnCv(c) := []]) }

  /** The constructor of thread: a context that has not begun goes to the back of the ready queue. */
  function Create(s: State): State
    requires Ready in s.queues
  {
    var t := s.ends.next;
    s.(queues := s.queues[Ready := s.queues[Ready] + [t]][OnJoin(t) := []], points := s.points[t := Begin],
       mutexes := s.mutexes.(holding := s.mutexes.holding[t := {}]),
       objects := Objects(s.objects.die[t := false], s.objects.done[t := false]), ends := s.ends.(next := t + 1),
       place := s.place[t := Ready])
  }

  predicate CanDrop(s: State, u: nat) { u in s.objects.done && (s.objects.done[u] || u in s.objects.die) }

  /** The destructor of thread: a thread that still executes learns that its object is gone. */
  function Drop(s: State, u: nat): State
    requires CanDrop(s, u)
  {
    s.(objects := Objects(if s.objects.done[u] then s.objects.die else s.objects.die[u := true], s.objects.done - {u}))
  }

  predicate CanYield(s: State) {
    && s.curr.Some? && s.curr.value in s.points && Ready in s.queues
    && (s.queues[Ready] != [] ==> CanDispatch(Park(s, Ready, PointOf(s))))
  }

  /** yield, called by the thread or by the timer interrupt. */
  function Yield(s: State): State
    requires CanYield(s)
  {
    if s.queues[Ready] == [] then s else Dispatch(Park(s, Ready, PointOf(s)))
  }

  predicate IsMutex(s: State, m: nat) { s.mutexes.Has(m) && OnMutex(m) in s.queues }

  function Called(s: State, m: nat): State
    requires IsMutex(s, m) && s.curr.Some?
  {
    s.(mutexes := s.mutexes.Called(m, s.curr.value))
  }

  predicate CanLock(s: State, m: nat) {
    && IsMutex(s, m) && s.curr.Some? && s.curr.value in s.points && s.curr.value in s.mutexes.holding
    && (!s.mutexes.free[m] ==> CanBlock(Called(s, m), OnMutex(m), InLock(m)))
  }

  /** A free mutex goes to its caller, which keeps running. */
  function TakeFree(s: State, m: nat): State
    requires IsMutex(s, m) && s.curr.Some? && s.curr.value in s.mutexes.holding
  {
    var t := s.curr.value;
    s.(points := s.points[t := User], mutexes := s.mutexes.Called(m, t).Granted(m, t).Entered(m, t))
  }

  function Lock(s: State, m: nat): State
    requires CanLock(s, m)
  {
    if s.mutexes.free[m] then TakeFree(s, m) else Block(Called(s, m), OnMutex(m), InLock(m))
  }

  predicate CanUnlock(s: State, m: nat) {
    && IsMutex(s, m) && s.curr.Some? && s.curr.value in s.mutexes.holding && Ready in s.queues
    && (s.queues[OnMutex(m)] != [] ==> s.queues[OnMutex(m)][0] in s.mutexes.holding)
  }

  predicate Holds(s: State, m: nat) { m in s.mutexes.holder && s.mutexes.holder[m] == s.curr }

  function GiveUp(s: State, m: nat): State
    requires CanUnlock(s, m)
  {
    s.(mutexes := s.mutexes.GivenUp(m, s.curr.value))
  }

  /** The first waiter becomes ready as the new holder. */
  function Pass(s: State, m: nat, u: nat): State
    requires CanUnlock(s, m) && s.queues[OnMutex(m)] != [] && u == s.queues[OnMutex(m)][0]
  {
    Wake(s, OnMutex(m)).(mutexes := s.mutexes.Passed(m, s.curr.value, u))
  }

  /** unlockSource by the holder: the mutex goes straight to the first waiter, if there is one. */
  function HandOff(s: State, m: nat): State
    requires CanUnlock(s, m)
  {
    if s.queues[OnMutex(m)] == [] then GiveUp(s, m) else Pass(s, m, s.queues[OnMutex(m)][0])
  }

  /** unlock: false when it throws because the caller is not the holder. */
  function Unlock(s: State, m: nat): (State, bool)
    requires CanUnlock(s, m)
  {
    if Holds(s, m) then (HandOff(s, m), true) else (s, false)
  }

  predicate CanWait(s: State, c: nat, m: nat) {
    && CanUnlock(s, m) && OnCv(c) in s.queues && (Holds(s, m) ==> CanBlock(HandOff(s, m), OnCv(c), BeforeLock(m)))
  }

  /** wait: gives the mutex up and queues the context in one section; false when it throws. */
  function Wait(s: State, c: nat, m: nat): (State, bool)
    requires CanWait(s, c, m)
  {
    if Holds(s, m) then (Block(HandOff(s, m), OnCv(c), BeforeLock(m)), true) else (s, false)
  }

  function Signal(s: State, c: nat): State
    requires OnCv(c) in s.queues && Ready in s.queues
  {
    if s.queues[OnCv(c)] == [] then s else Wake(s, OnCv(c))
  }

  function Broadcast(s: State, c: nat): State
    requires OnCv(c) in s.queues && Ready in s.queues
  {
    WakeAll(s, OnCv(c))
  }

  predicate CanJoin(s: State, u: nat) {
    u in s.objects.done && (!s.objects.done[u] && s.Queue(Ready) != [] ==> CanBlock(s, OnJoin(u), User))
  }

  /** join: unlike lock and wait it looks at the ready queue before it queues the context. */
  function Join(s: State, u: nat): State
    requires CanJoin(s, u)
  {
    if s.objects.done[u] then s else if s.Queue(Ready) == [] then Halt(s) else Block(s, OnJoin(u), User)
  }

  predicate CanOffer(s: State) { OnSwap in s.queues && (s.queues[OnSwap] != [] ==> s.swap.memory != []) }

  function Offer(s: State, msg: string): State
    requires CanOffer(s)
  {
    s.(swap := s.swap.Offered(|s.queues[OnSwap]|, msg))
  }

  predicate CanClose(s: State) {
    && OnSwap in s.queues && Ready in s.queues
    && s.swap.memory != [] && s.swap.memory[|s.swap.memory| - 1] != []
  }

  function Third(s: State, msg: string): State
    requires CanClose(s)
  {
    WakeAll(s, OnSwap).(swap := s.swap.Closed(msg))
  }

  predicate CanSwap3(s: State, msg: string) {
    && CanOffer(s) && Ready in s.queues
    && if |s.queues[OnSwap]| < 2
       then s.queues[Ready] != [] ==> CanBlock(Offer(s, msg), OnSwap, InSwap(|s.swap.calls|))
       else CanClose(s)
  }

  /** swap3: the first two callers of a cycle wait, the third answers all three. */
  function Swap3(s: State, msg: string): State
    requires CanSwap3(s, msg)
  {
    if |s.queues[OnSwap]| >= 2 then Third(s, msg)
    else if s.queues[Ready] == [] then Halt(s)
    else Block(Offer(s, msg), OnSwap, InSwap(|s.swap.calls|))
  }

  predicate CanLeave(s: State) {
    && s.curr.Some? && Ready in s.queues && s.curr.value in s.objects.die && OnJoin(s.curr.value) in s.queues
    && (!s.objects.die[s.curr.value] ==> s.curr.value in s.objects.done)
  }

  /** The end of execute_user_function, up to the switch: the object learns of it if it still exists,
      the joiners wake, the join queue and the die flag are deleted; the stack is still in use. */
  function Leave(s: State): State
    requires CanLeave(s)
  {
    var t, q := s.curr.value, OnJoin(s.curr.value);
    s.(objects := Objects(s.objects.die - {t}, if s.objects.die[t] then s.objects.done else s.objects.done[t := true]),
       queues := s.queues[Ready := s.queues[Ready] + s.queues[q]][q := []] - {q}, place := Readied(s.place,
         s.queues[q]) - {t},
       ends := s.ends.(last := Some(t), finished := s.ends.finished + [t]))
  }

  predicate CanFinish(s: State) {
    && CanLeave(s) && s.curr.value in s.mutexes.holding
    && (Leave(s).queues[Ready] != [] ==> CanDispatch(Leave(s)))
  }

  /** A thread's function returns. The next thread frees its context, or the kernel context does and halts. */
  function Finish(s: State): State
    requires CanFinish(s)
  {
    var r := Leave(s);
    if r.queues[Ready] == [] then Halt(Release(r).(curr := None)) else Dispatch(r)
  }
}
