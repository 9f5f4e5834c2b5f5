/** What holds between any two interrupt-disabled sections. */
module ThreadInvariant {
  import opened Wrappers
  import opened ThreadState

  function Last(ts: seq<nat>): Option<nat> { if ts == [] then None else Some(ts[|ts| - 1]) }

  ghost predicate At(place: map<nat, Place>, t: nat, q: Place) { t in place && place[t] == q }

  ghost predicate QueueOk(place: map<nat, Place>, q: Place, ts: seq<nat>) {
    NoDup(ts) && forall t: nat {:trigger t in ts} {:trigger At(place, t, q)} :: t in ts <==> At(place, t, q)
  }

  /** Each live thread is in exactly one place: `running`, or once in one queue. */
  ghost predicate PlacesOk(place: map<nat, Place>, queues: map<Place, seq<nat>>, running: Option<nat>) {
    && Ready in queues && OnSwap in queues && Running !in queues
    && (forall t: nat {:trigger At(place, t, Running)} :: At(place, t, Running) <==> running == Some(t))
    && (forall q {:trigger queues[q]} :: q in queues ==> QueueOk(place, q, queues[q]))
    && (forall t {:trigger place[t]} :: t in place && place[t] != Running ==> place[t] in queues)
  }

  /** Where a context stopped fits where it waits. A thread that was handed a mutex and has not resumed
      yet is its holder. */
  ghost predicate PointsOk(place: map<nat, Place>, points: map<nat, Point>, holder: map<nat, Option<nat>>) {
    forall t {:trigger points[t]} {:trigger place[t]} :: t in place ==>
      t in points && PointOk(t, place[t], points[t], holder)
  }

  ghost predicate PointOk(t: nat, q: Place, point: Point, holder: map<nat, Option<nat>>) {
    && (point.BeforeLock? ==> point.mutex in holder)
    && match q
       case Running => point.User? || point.BeforeLock?
       case Ready => point.InLock? ==> point.mutex in holder && holder[point.mutex] == Some(t)
       case OnMutex(m) => point == InLock(m)
       case OnCv(_) => point.BeforeLock?
       case OnJoin(_) => point.User?
       case OnSwap => point.InSwap?
  }

  /** Every context ever made is live, or finished; finished contexts are freed in the order they
      finished, each before another finishes. Only the last one may still be allocated. */
  ghost predicate ContextsOk(points: map<nat, Point>, holding: map<nat, set<nat>>, place: map<nat, Place>, ends: Ends) {
    && ends.finished == ends.freed + (if ends.last.Some? then [ends.last.value] else [])
    && NoDup(ends.finished)
    && (forall t: nat {:trigger t in place} {:trigger t in ends.finished} ::
          t < ends.next <==> t in place || t in ends.finished)
    && (forall t: nat {:trigger t in ends.finished} :: t in ends.finished ==> t !in place)
    && (forall t: nat {:trigger t in points} :: t in points <==> t in place || ends.last == Some(t))
    && (forall t: nat {:trigger t in holding} :: t in holding <==> t in place || ends.last == Some(t))
  }

  /** The die flag and the join queue live as long as the thread executes; the flag says whether the
      object is gone, and the object says whether the thread is done. */
  ghost predicate ObjectsOk(x: Objects, place: map<nat, Place>, queues: map<Place, seq<nat>>, next: nat) {
    && (forall t: nat {:trigger t in x.die} {:trigger t in place} :: t in x.die <==> t in place)
    && (forall t: nat {:trigger OnJoin(t)} :: OnJoin(t) in queues <==> t in x.die)
    && (forall t {:trigger x.die[t]} :: t in x.die ==> x.die[t] == (t !in x.done))
    && (forall t {:trigger x.done[t]} :: t in x.done ==> t < next && x.done[t] == (t !in place))
  }

  /** A free mutex has no holder and nobody waits for it. A taken one belongs to the thread it was last
      granted to, until that thread's context is freed; from then on it has no holder. Grants follow the
      order of the lock calls. A thread between lock and unlock is the holder. */
  ghost predicate MutexAt(x: Mutexes, m: nat, waiting: seq<nat>, freed: seq<nat>) {
    && x.Has(m)
    && (x.free[m] ==> x.holder[m] == None && waiting == [])
    && (!x.free[m] ==> x.grants[m] != [] && GrantedLast(x.holder[m], x.grants[m], freed))
    && x.locks[m] == x.grants[m] + waiting
    && (forall t {:trigger t in x.inside[m]} :: t in x.inside[m] ==> x.holder[m] == Some(t))
  }

  ghost predicate GrantedLast(holder: Option<nat>, grants: seq<nat>, freed: seq<nat>)
    requires grants != []
  {
    holder == Last(grants) || (holder == None && Last(grants).value in freed)
  }

  ghost predicate Held(x: Mutexes, t: nat, m: nat) { t in x.holding && m in x.holding[t] }

  ghost predicate Holder(x: Mutexes, m: nat, t: nat) { m in x.holder && x.holder[m] == Some(t) }

  /** The holder of a mutex is the thread whose context lists it. */
  ghost predicate Linked(x: Mutexes) {
    forall t: nat, m: nat {:trigger Held(x, t, m)} {:trigger Holder(x, m, t)} :: Held(x, t, m) <==> Holder(x, m, t)
  }

  function Waiting(queues: map<Place, seq<nat>>, m: nat): seq<nat> {
    if OnMutex(m) in queues then queues[OnMutex(m)] else []
  }

  ghost predicate MutexesOk(x: Mutexes, queues: map<Place, seq<nat>>, freed: seq<nat>) {
    && (forall m: nat {:trigger x.Has(m)} {:trigger m in x.holder} ::
          m in x.holder ==> MutexAt(x, m, Waiting(queues, m), freed))
    && (forall m: nat {:trigger OnMutex(m)} :: OnMutex(m) in queues <==> m in x.holder)
    && (forall m: nat {:trigger m in x.free} :: m in x.free ==> m in x.holder)
    && Linked(x)
  }

  // ----- swap3 -----

  /** The call whose message call `k` gets: the third of a cycle gets the second's, the second the
      first's, the first the third's. */
  function Predecessor(k: nat): nat { if k % 3 == 0 then k + 2 else k - 1 }

  /** The cycle of call `k` is complete once there have been `n` calls. */
  predicate Complete(k: nat, n: nat)
    ensures Complete(k, n) ==> k < n && Predecessor(k) < n
  {
    k - k % 3 + 3 <= n
  }

  ghost function PendingOf(t: nat, points: map<nat, Point>): seq<nat> {
    if t in points && points[t].InSwap? then [points[t].call] else []
  }

  /** The swap3 calls among the contexts of a queue, in queue order. */
  ghost function Pending(q: seq<nat>, points: map<nat, Point>): seq<nat> {
    if q == [] then [] else PendingOf(q[0], points) + Pending(q[1..], points)
  }

  function Answer(k: nat, calls: seq<string>): string {
    if Predecessor(k) < |calls| then calls[Predecessor(k)] else ""
  }

  ghost function Answers(ks: seq<nat>, calls: seq<string>): seq<string> {
    if ks == [] then [] else [Answer(ks[0], calls)] + Answers(ks[1..], calls)
  }

  ghost predicate AllComplete(ks: seq<nat>, n: nat) {
    forall i {:trigger ks[i]} :: 0 <= i < |ks| ==> Complete(ks[i], n)
  }

  ghost function Flatten(mss: seq<seq<string>>): seq<string> {
    if mss == [] then [] else mss[0] + Flatten(mss[1..])
  }

  /** The messages of the cycle under way, which `w` calls have joined. */
  ghost function Open(calls: seq<string>, w: nat): seq<seq<string>>
    requires w <= |calls|
  {
    if w == 0 then [] else [calls[|calls| - w..]]
  }

  /** The deques of finished cycles, oldest first, hold exactly the answers that the pending swap3 calls
      of the ready queue will collect in turn; the deque of the open cycle is the last. */
  ghost predicate MemoryOk(memory: seq<seq<string>>, ready: seq<nat>, points: map<nat, Point>, calls: seq<string>,
                           w: nat) {
    && w <= |calls| && |Open(calls, w)| <= |memory|
    && var done := |memory| - |Open(calls, w)|;
    && memory[done..] == Open(calls, w)
    && (forall i {:trigger memory[i]} :: 0 <= i < done ==> memory[i] != [])
    && AllComplete(Pending(ready, points), |calls|)
    && Flatten(memory[..done]) == Answers(Pending(ready, points), calls)
  }

  /** The waiters are the calls of the open cycle. */
  ghost predicate WaitersOk(waiters: seq<nat>, points: map<nat, Point>, n: nat) {
    && |waiters| < 3 && |waiters| <= n && (n - |waiters|) % 3 == 0
    && forall i {:trigger waiters[i]} :: 0 <= i < |waiters| ==>
         waiters[i] in points && points[waiters[i]] == InSwap(n - |waiters| + i)
  }

  ghost predicate AnswersOk(results: map<nat, string>, calls: seq<string>) {
    forall k: nat {:trigger k in results} :: k in results ==> Answered(results, calls, k)
  }

  ghost predicate Answered(results: map<nat, string>, calls: seq<string>, k: nat) {
    k in results && Complete(k, |calls|) && results[k] == Answer(k, calls)
  }

  ghost predicate SwapOk(x: Swap, ready: seq<nat>, waiters: seq<nat>, points: map<nat, Point>) {
    && MemoryOk(x.memory, ready, points, x.calls, |waiters|)
    && WaitersOk(waiters, points, |x.calls|)
    && AnswersOk(x.results, x.calls)
  }

  // ----- the invariant -----

  /** `running` is the context whose place is the CPU; there is none between leaving one and taking the next. */
  ghost predicate Consistent(s: State, running: Option<nat>) {
    && PlacesOk(s.place, s.queues, running)
    && PointsOk(s.place, s.points, s.mutexes.holder)
    && ContextsOk(s.points, s.mutexes.holding, s.place, s.ends)
    && ObjectsOk(s.objects, s.place, s.queues, s.ends.next)
    && MutexesOk(s.mutexes, s.queues, s.ends.freed)
    && SwapOk(s.swap, s.queues[Ready], s.queues[OnSwap], s.points)
  }

  /** While user code runs no finished context is left to free; once the CPU halts no thread is ready. */
  ghost predicate Inv(s: State) {
    && s.ends.last == None
    && if s.halted then s.Queue(Ready) == [] && (Consistent(s, None) || (s.curr.Some? && Consistent(s, s.curr)))
       else s.curr.Some? && Consistent(s, s.curr)
  }

  lemma InitInv()
    ensures Inv(Init()) && !Init().halted
  {
    var s := Init();
    InitPlaces(s);
    InitRest(s);
    NothingPending(s.points);
  }

  lemma InitRest(s: State)
    requires s == Init()
    ensures ContextsOk(s.points, s.mutexes.holding, s.place, s.ends)
    ensures ObjectsOk(s.objects, s.place, s.queues, s.ends.next)
    ensures MutexesOk(s.mutexes, s.queues, s.ends.freed)
  {}

  lemma InitPlaces(s: State)
    requires s == Init()
    ensures PlacesOk(s.place, s.queues, Some(0)) && PointsOk(s.place, s.points, s.mutexes.holder)
  {
    forall q | q in s.queues ensures QueueOk(s.place, q, s.queues[q]) {}
  }

  lemma NothingPending(points: map<nat, Point>)
    ensures SwapOk(Swap([], [], map[]), [], [], points)
  {}
}
