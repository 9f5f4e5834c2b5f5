/** swap3: whichever threads call it, and even when a new cycle starts before the waiters of the last one
    have resumed, the deques hold for each pending call its cyclic predecessor's message. */
module ThreadSwap {
  import opened ThreadState
  import opened ThreadInvariant

  lemma Associative(a: seq<nat>, b: seq<nat>, c: seq<nat>)
    ensures a + (b + c) == (a + b) + c
  {}

  lemma {:induction false} PendingJoined(q: seq<nat>, r: seq<nat>, points: map<nat, Point>)
    ensures Pending(q + r, points) == Pending(q, points) + Pending(r, points)
  {
    if q == [] { assert q + r == r; } else {
      PendingJoined(q[1..], r, points);
      assert (q + r)[0] == q[0] && (q + r)[1..] == q[1..] + r;
      Associative(PendingOf(q[0], points), Pending(q[1..], points), Pending(r, points));
    }
  }

  lemma PendingOne(t: nat, points: map<nat, Point>)
    ensures Pending([t], points) == PendingOf(t, points)
  {
    assert Pending([t][1..], points) == [];
  }

  lemma {:induction false} PendingFrame(q: seq<nat>, points: map<nat, Point>, after: map<nat, Point>)
    requires forall t {:trigger t in q} :: t in q ==> PendingOf(t, points) == PendingOf(t, after)
    ensures Pending(q, points) == Pending(q, after)
  {
    if q != [] {
      assert q[0] in q && forall t :: t in q[1..] ==> t in q;
      PendingFrame(q[1..], points, after);
    }
  }

  lemma {:induction false} NonePending(q: seq<nat>, points: map<nat, Point>)
    requires forall t {:trigger t in q} :: t in q ==> PendingOf(t, points) == []
    ensures Pending(q, points) == []
  {
    if q != [] {
      assert q[0] in q && forall t :: t in q[1..] ==> t in q;
      NonePending(q[1..], points);
    }
  }

  lemma {:induction false} AnswersJoined(ks: seq<nat>, ls: seq<nat>, calls: seq<string>)
    ensures Answers(ks + ls, calls) == Answers(ks, calls) + Answers(ls, calls)
  {
    if ks == [] { assert ks + ls == ls; } else {
      assert (ks + ls)[0] == ks[0] && (ks + ls)[1..] == ks[1..] + ls;
      AnswersJoined(ks[1..], ls, calls);
    }
  }

  /** Later calls do not change an answer. */
  lemma {:induction false} AnswersKept(ks: seq<nat>, calls: seq<string>, msg: string)
    requires AllComplete(ks, |calls|)
    ensures AllComplete(ks, |calls| + 1) && Answers(ks, calls + [msg]) == Answers(ks, calls)
  {
    if ks != [] {
      assert Complete(ks[0], |calls|);
      AnswersKept(ks[1..], calls, msg);
    }
  }

  lemma {:induction false} FlattenJoined(a: seq<seq<string>>, b: seq<seq<string>>)
    ensures Flatten(a + b) == Flatten(a) + Flatten(b)
  {
    if a == [] { assert a + b == b; } else {
      assert (a + b)[1..] == a[1..] + b;
      FlattenJoined(a[1..], b);
    }
  }

  lemma MemoryFrame(memory: seq<seq<string>>, ready: seq<nat>, points: map<nat, Point>, calls: seq<string>, w: nat,
                    after: seq<nat>, newPoints: map<nat, Point>)
    requires MemoryOk(memory, ready, points, calls, w) && Pending(after, newPoints) == Pending(ready, points)
    ensures MemoryOk(memory, after, newPoints, calls, w)
  {}

  lemma OfferedMemory(memory: seq<seq<string>>, after: seq<seq<string>>, ready: seq<nat>, points: map<nat, Point>,
                      calls: seq<string>, w: nat, msg: string)
    requires MemoryOk(memory, ready, points, calls, w)
    requires after == if w == 0 then memory + [[msg]] else memory[|memory| - 1 := memory[|memory| - 1] + [msg]]
    ensures MemoryOk(after, ready, points, calls + [msg], w + 1)
  {
    var done := |memory| - |Open(calls, w)|;
    OfferedOpen(memory, after, calls, w, msg);
    AnswersKept(Pending(ready, points), calls, msg);
    assert after[..done] == memory[..done];
    forall i | 0 <= i < done ensures after[i] != [] { assert memory[i] != []; }
  }

  lemma OfferedOpen(memory: seq<seq<string>>, after: seq<seq<string>>, calls: seq<string>, w: nat, msg: string)
    requires w <= |calls| && |Open(calls, w)| <= |memory| && memory[|memory| - |Open(calls, w)|..] == Open(calls, w)
    requires after == if w == 0 then memory + [[msg]] else memory[|memory| - 1 := memory[|memory| - 1] + [msg]]
    ensures after[|memory| - |Open(calls, w)|..] == Open(calls + [msg], w + 1)
    ensures |after| == |memory| - |Open(calls, w)| + 1
  {
    var done, more := |memory| - |Open(calls, w)|, calls + [msg];
    assert more[|more| - (w + 1)..] == calls[|calls| - w..] + [msg];
    if w > 0 { assert memory[done..][0] == calls[|calls| - w..]; }
    assert after[done..] == [more[|more| - (w + 1)..]];
  }

  lemma MoreAnswers(results: map<nat, string>, calls: seq<string>, msg: string)
    requires AnswersOk(results, calls)
    ensures AnswersOk(results, calls + [msg])
  {
    forall k | k in results ensures Answered(results, calls + [msg], k) { assert Answered(results, calls, k); }
  }

  lemma OfferWaiters(waiters: seq<nat>, points: map<nat, Point>, n: nat, t: nat)
    requires WaitersOk(waiters, points, n) && |waiters| < 2 && t !in waiters
    ensures WaitersOk(waiters + [t], points[t := InSwap(n)], n + 1)
  {
    var ws, ps := waiters + [t], points[t := InSwap(n)];
    forall i | 0 <= i < |ws| ensures ws[i] in ps && ps[ws[i]] == InSwap(n + 1 - |ws| + i) {
      if i < |waiters| { assert waiters[i] in waiters; }
    }
  }

  /** The first or the second call of a cycle waits. */
  lemma OfferedOk(x: Swap, ready: seq<nat>, waiters: seq<nat>, points: map<nat, Point>, t: nat, msg: string, y: Swap)
    requires SwapOk(x, ready, waiters, points) && |waiters| < 2 && t !in ready && t !in waiters
    requires |waiters| > 0 ==> x.memory != []
    requires y == x.Offered(|waiters|, msg)
    ensures SwapOk(y, ready, waiters + [t], points[t := InSwap(|x.calls|)])
  {
    OfferedDeques(x, ready, waiters, points, t, msg, y.memory);
    MoreAnswers(x.results, x.calls, msg);
    OfferWaiters(waiters, points, |x.calls|, t);
  }

  lemma OfferedDeques(x: Swap, ready: seq<nat>, waiters: seq<nat>, points: map<nat, Point>, t: nat, msg: string,
                      after: seq<seq<string>>)
    requires MemoryOk(x.memory, ready, points, x.calls, |waiters|) && t !in ready
    requires |waiters| > 0 ==> x.memory != []
    requires after == if |waiters| == 0 then x.memory + [[msg]]
      else x.memory[|x.memory| - 1 := x.memory[|x.memory| - 1] + [msg]]
    ensures MemoryOk(after, ready, points[t := InSwap(|x.calls|)], x.calls + [msg], |waiters| + 1)
  {
    var ps := points[t := InSwap(|x.calls|)];
    PendingFrame(ready, points, ps);
    MemoryFrame(x.memory, ready, points, x.calls, |waiters|, ready, ps);
    OfferedMemory(x.memory, after, ready, ps, x.calls, |waiters|, msg);
  }

  /** Waiters leave the deque of their messages at the back. */
  lemma OpenMemory(x: Swap, ready: seq<nat>, waiters: seq<nat>, points: map<nat, Point>)
    requires SwapOk(x, ready, waiters, points)
    ensures |waiters| <= |x.calls|
    ensures waiters != [] ==> x.memory != [] && x.memory[|x.memory| - 1] == x.calls[|x.calls| - |waiters|..]
  {
    var done := |x.memory| - |Open(x.calls, |waiters|)|;
    if waiters != [] { assert x.memory[done..][0] == x.memory[|x.memory| - 1]; }
  }

  /** The last two calls of a cycle. */
  predicate TwoOpen(n: nat) { 2 <= n && (n - 2) % 3 == 0 }

  /** The last two calls get the last message and the first of the cycle. */
  lemma TwoAnswers(n: nat, more: seq<string>)
    requires TwoOpen(n) && |more| == n + 1
    ensures AllComplete([n - 2, n - 1], n + 1) && Answers([n - 2, n - 1], more) == [more[n], more[n - 2]]
  {
    ThirdOfCycle(n);
    assert Answer(n - 2, more) == more[n] && Answer(n - 1, more) == more[n - 2];
    assert [n - 2, n - 1][1..] == [n - 1] && [n - 1][1..] == [];
    assert Answers([n - 1], more) == [Answer(n - 1, more)];
  }

  lemma ThirdOfCycle(n: nat)
    requires TwoOpen(n)
    ensures Predecessor(n - 2) == n && Predecessor(n - 1) == n - 2 && Predecessor(n) == n - 1
    ensures Complete(n - 2, n + 1) && Complete(n - 1, n + 1) && Complete(n, n + 1)
  {
    assert (n - 1) % 3 == 1 && n % 3 == 2;
  }

  lemma TwoPending(waiters: seq<nat>, points: map<nat, Point>, n: nat)
    requires WaitersOk(waiters, points, n) && |waiters| == 2
    ensures Pending(waiters, points) == [n - 2, n - 1]
  {
    assert waiters == [waiters[0]] + [waiters[1]];
    PendingJoined([waiters[0]], [waiters[1]], points);
    PendingOne(waiters[0], points);
    PendingOne(waiters[1], points);
  }

  /** The third call completes the cycle: the deque at the back now holds the first two answers. */
  lemma ThirdMemory(memory: seq<seq<string>>, after: seq<seq<string>>, ready: seq<nat>, points: map<nat, Point>,
                    both: seq<nat>, calls: seq<string>, msg: string)
    requires MemoryOk(memory, ready, points, calls, 2) && TwoOpen(|calls|)
    requires after == memory[|memory| - 1 := [msg, calls[|calls| - 2]]]
    requires Pending(both, points) == Pending(ready, points) + [|calls| - 2, |calls| - 1]
    ensures MemoryOk(after, both, points, calls + [msg], 0)
  {
    var n := |calls|;
    var done, ks := memory[..|memory| - 1], Pending(ready, points);
    assert after == done + [[msg, calls[n - 2]]];
    ThirdFlat(done, ks, calls, msg);
    assert after[..|after|] == after && after[|after|..] == [];
    forall i | 0 <= i < |after| ensures after[i] != [] { if i < |done| { assert memory[i] != []; } }
  }

  lemma ThirdFlat(done: seq<seq<string>>, ks: seq<nat>, calls: seq<string>, msg: string)
    requires TwoOpen(|calls|) && AllComplete(ks, |calls|) && Flatten(done) == Answers(ks, calls)
    ensures AllComplete(ks + [|calls| - 2, |calls| - 1], |calls| + 1)
    ensures Flatten(done + [[msg, calls[|calls| - 2]]]) == Answers(ks + [|calls| - 2, |calls| - 1], calls + [msg])
  {
    var n, more := |calls|, calls + [msg];
    var two := [msg, calls[n - 2]];
    AnswersKept(ks, calls, msg);
    TwoAnswers(n, more);
    AnswersJoined(ks, [n - 2, n - 1], more);
    FlattenJoined(done, [two]);
    FlattenOne(two);
  }

  lemma FlattenOne(ms: seq<string>)
    ensures Flatten([ms]) == ms
  {
    assert Flatten([ms]) == ms + Flatten([]);
  }

  lemma ThirdAnswers(results: map<nat, string>, calls: seq<string>, msg: string)
    requires AnswersOk(results, calls) && TwoOpen(|calls|)
    ensures AnswersOk(results[|calls| := calls[|calls| - 1]], calls + [msg])
  {
    MoreAnswers(results, calls, msg);
    var n, rs, more := |calls|, results[|calls| := calls[|calls| - 1]], calls + [msg];
    ThirdOfCycle(n);
    forall k | k in rs ensures Answered(rs, more, k) { if k != n { assert Answered(results, more, k); } }
  }

  /** The third call answers itself and makes the other two ready. */
  lemma ClosedOk(x: Swap, ready: seq<nat>, waiters: seq<nat>, points: map<nat, Point>, msg: string, y: Swap)
    requires SwapOk(x, ready, waiters, points) && |waiters| >= 2 && x.memory != [] && x.memory[|x.memory| - 1] != []
    requires y == x.Closed(msg)
    ensures SwapOk(y, ready + waiters, [], points)
  {
    OpenMemory(x, ready, waiters, points);
    ClosedValue(x, msg, y);
    PendingJoined(ready, waiters, points);
    TwoPending(waiters, points, |x.calls|);
    ThirdMemory(x.memory, y.memory, ready, points, ready + waiters, x.calls, msg);
    ThirdAnswers(x.results, x.calls, msg);
    NoWaiters(|y.calls|, points);
  }

  lemma ClosedValue(x: Swap, msg: string, y: Swap)
    requires 2 <= |x.calls| && x.memory != [] && x.memory[|x.memory| - 1] == x.calls[|x.calls| - 2..]
    requires y == x.Closed(msg)
    ensures y.memory == x.memory[|x.memory| - 1 := [msg, x.calls[|x.calls| - 2]]]
    ensures y.calls == x.calls + [msg] && y.results == x.results[|x.calls| := x.calls[|x.calls| - 1]]
  {
    var n, back := |x.calls|, x.memory[|x.memory| - 1];
    assert back == [x.calls[n - 2], x.calls[n - 1]];
    assert [msg] + back[..1] == [msg, x.calls[n - 2]];
  }

  lemma NoWaiters(n: nat, points: map<nat, Point>)
    requires n >= 3 && TwoOpen(n - 1)
    ensures WaitersOk([], points, n)
  {}

  lemma SameHead(x: string, xs: seq<string>, y: string, ys: seq<string>)
    requires [x] + xs == [y] + ys
    ensures x == y && xs == ys
  {
    assert ([x] + xs)[0] == x && ([x] + xs)[1..] == xs && ([y] + ys)[0] == y && ([y] + ys)[1..] == ys;
  }

  lemma CollectMemory(memory: seq<seq<string>>, n: nat, c: seq<seq<string>>)
    requires 0 < n <= |memory| && forall i {:trigger memory[i]} :: 0 <= i < n ==> memory[i] != []
    requires c == if |memory[0]| == 1 then memory[1..] else [memory[0][1..]] + memory[1..]
    ensures
      var m := |c| - (|memory| - n);
      && 0 <= m && c[m..] == memory[n..] && (forall i {:trigger c[i]} :: 0 <= i < m ==> c[i] != [])
      && Flatten(memory[..n]) == [memory[0][0]] + Flatten(c[..m])
  {
    var rest := memory[0][1..];
    assert memory[0] == [memory[0][0]] + rest;
    assert memory[..n][1..] == memory[1..n];
    if |memory[0]| == 1 {
      assert c[..n - 1] == memory[1..n];
      forall i | 0 <= i < n - 1 ensures c[i] != [] { assert c[i] == memory[i + 1]; }
    } else {
      assert c[..n][1..] == memory[1..n];
      forall i | 0 <= i < n ensures c[i] != [] { if i > 0 { assert c[i] == memory[i]; } }
    }
  }

  /** The context at the front of the ready queue finds its answer at the front of the oldest deque. */
  lemma FrontAnswer(x: Swap, ready: seq<nat>, points: map<nat, Point>, w: nat, k: nat)
    requires MemoryOk(x.memory, ready, points, x.calls, w) && ready != [] && PendingOf(ready[0], points) == [k]
    ensures x.memory != [] && x.memory[0] != [] && Complete(k, |x.calls|) && x.memory[0][0] == Answer(k, x.calls)
    ensures MemoryOk(x.Collected(k).memory, ready[1..], points, x.calls, w)
  {
    var n, ks, rest := |x.memory| - |Open(x.calls, w)|, Pending(ready, points), Pending(ready[1..], points);
    assert ks == [k] + rest && ks[0] == k && ks[1..] == rest;
    assert x.memory[..0] == [];
    assert n > 0;
    FrontOfDeque(x.memory, n, x.Collected(k).memory, ks, x.calls);
  }

  lemma FrontOfDeque(memory: seq<seq<string>>, n: nat, c: seq<seq<string>>, ks: seq<nat>, calls: seq<string>)
    requires 0 < n <= |memory| && (forall i {:trigger memory[i]} :: 0 <= i < n ==> memory[i] != []) && ks != []
    requires c == if |memory[0]| == 1 then memory[1..] else [memory[0][1..]] + memory[1..]
    requires AllComplete(ks, |calls|) && Flatten(memory[..n]) == Answers(ks, calls)
    ensures Complete(ks[0], |calls|) && memory[0][0] == Answer(ks[0], calls)
    ensures
      var m := |c| - (|memory| - n);
      && 0 <= m && c[m..] == memory[n..] && (forall i {:trigger c[i]} :: 0 <= i < m ==> c[i] != [])
      && AllComplete(ks[1..], |calls|) && Flatten(c[..m]) == Answers(ks[1..], calls)
  {
    CollectMemory(memory, n, c);
    assert Answers(ks, calls) == [Answer(ks[0], calls)] + Answers(ks[1..], calls);
    SameHead(memory[0][0], Flatten(c[..|c| - (|memory| - n)]), Answer(ks[0], calls), Answers(ks[1..], calls));
  }

  /** A pending call collects its answer. */
  lemma CollectedOk(x: Swap, ready: seq<nat>, waiters: seq<nat>, points: map<nat, Point>, k: nat, y: Swap)
    requires SwapOk(x, ready, waiters, points) && ready != [] && PendingOf(ready[0], points) == [k]
    requires x.memory != [] && x.memory[0] != [] ==> y == x.Collected(k)
    ensures x.memory != [] && x.memory[0] != [] && SwapOk(y, ready[1..], waiters, points)
  {
    FrontAnswer(x, ready, points, |waiters|, k);
    forall j | j in y.results ensures Answered(y.results, y.calls, j) {
      if j != k { assert Answered(x.results, x.calls, j); }
    }
  }

  /** Points and queues may change as long as the same calls are pending and the same ones wait. */
  lemma SwapFrame(x: Swap, ready: seq<nat>, waiters: seq<nat>, points: map<nat, Point>, after: seq<nat>,
                  newPoints: map<nat, Point>)
    requires SwapOk(x, ready, waiters, points) && Pending(after, newPoints) == Pending(ready, points)
    requires forall u {:trigger u in waiters} :: u in waiters && u in points ==>
      u in newPoints && newPoints[u] == points[u]
    ensures SwapOk(x, after, waiters, newPoints)
  {
    MemoryFrame(x.memory, ready, points, x.calls, |waiters|, after, newPoints);
    forall i | 0 <= i < |waiters| ensures waiters[i] in newPoints && newPoints[waiters[i]] == points[waiters[i]] {
      assert waiters[i] in waiters;
    }
  }
}
