/** The mutex table: what each of its changes keeps. */
module ThreadMutexes {
  import opened Wrappers
  import opened ThreadState
  import opened ThreadInvariant

  /** A change of any other queue. */
  lemma QueueFrame(x: Mutexes, queues: map<Place, seq<nat>>, freed: seq<nat>, q: Place, ts: seq<nat>)
    requires MutexesOk(x, queues, freed) && !q.OnMutex?
    ensures MutexesOk(x, queues[q := ts], freed)
  {
    var after := queues[q := ts];
    forall m | m in x.holder ensures MutexAt(x, m, Waiting(after, m), freed) {
      assert MutexAt(x, m, Waiting(queues, m), freed) && Waiting(after, m) == Waiting(queues, m);
    }
  }

  lemma QueueGone(x: Mutexes, queues: map<Place, seq<nat>>, freed: seq<nat>, q: Place)
    requires MutexesOk(x, queues, freed) && !q.OnMutex?
    ensures MutexesOk(x, queues - {q}, freed)
  {
    var after := queues - {q};
    forall m | m in x.holder ensures MutexAt(x, m, Waiting(after, m), freed) {
      assert MutexAt(x, m, Waiting(queues, m), freed) && Waiting(after, m) == Waiting(queues, m);
    }
  }

  lemma NewOk(x: Mutexes, queues: map<Place, seq<nat>>, freed: seq<nat>, m: nat, y: Mutexes)
    requires MutexesOk(x, queues, freed) && m !in x.holder && y == x.New(m)
    ensures MutexesOk(y, queues[OnMutex(m) := []], freed)
  {
    var qs := queues[OnMutex(m) := []];
    forall n | n in y.holder ensures MutexAt(y, n, Waiting(qs, n), freed) {
      if n != m { assert MutexAt(x, n, Waiting(queues, n), freed); } else { assert Waiting(qs, m) == []; }
    }
    forall t: nat, n: nat ensures Held(y, t, n) <==> Holder(y, n, t) { assert Held(x, t, n) <==> Holder(x, n, t); }
  }

  /** A context that holds nothing is added. */
  lemma ContextOk(x: Mutexes, queues: map<Place, seq<nat>>, freed: seq<nat>, t: nat, y: Mutexes)
    requires MutexesOk(x, queues, freed) && t !in x.holding && y == x.(holding := x.holding[t := {}])
    ensures MutexesOk(y, queues, freed)
  {
    forall n | n in y.holder ensures MutexAt(y, n, Waiting(queues, n), freed) {
      assert MutexAt(x, n, Waiting(queues, n), freed);
    }
    forall u: nat, n: nat ensures Held(y, u, n) <==> Holder(y, n, u) { assert Held(x, u, n) <==> Holder(x, n, u); }
  }

  /** lock on a taken mutex: the caller joins its queue. */
  lemma CalledOk(x: Mutexes, queues: map<Place, seq<nat>>, freed: seq<nat>, m: nat, t: nat, y: Mutexes)
    requires MutexesOk(x, queues, freed) && x.Has(m) && m in x.holder && !x.free[m] && y == x.Called(m, t)
    ensures MutexesOk(y, queues[OnMutex(m) := Waiting(queues, m) + [t]], freed)
  {
    var qs := queues[OnMutex(m) := Waiting(queues, m) + [t]];
    forall n | n in y.holder ensures MutexAt(y, n, Waiting(qs, n), freed) {
      assert MutexAt(x, n, Waiting(queues, n), freed);
    }
    forall u: nat, n: nat ensures Held(y, u, n) <==> Holder(y, n, u) { assert Held(x, u, n) <==> Holder(x, n, u); }
  }

  /** lock on a free mutex. */
  lemma TakenOk(x: Mutexes, queues: map<Place, seq<nat>>, freed: seq<nat>, m: nat, t: nat, y: Mutexes)
    requires MutexesOk(x, queues, freed) && x.Has(m) && m in x.holder && x.free[m] && t in x.holding
    requires y == x.Called(m, t).Granted(m, t).Entered(m, t)
    ensures MutexesOk(y, queues, freed)
  {
    forall n | n in y.holder ensures MutexAt(y, n, Waiting(queues, n), freed) {
      assert MutexAt(x, n, Waiting(queues, n), freed);
      TakenAt(x, m, t, y, n, Waiting(queues, n), freed);
    }
    TakenLinks(x, m, t, y);
  }

  lemma TakenAt(x: Mutexes, m: nat, t: nat, y: Mutexes, n: nat, waiting: seq<nat>, freed: seq<nat>)
    requires MutexAt(x, n, waiting, freed) && x.Has(m) && x.free[m] && t in x.holding
    requires y == x.Called(m, t).Granted(m, t).Entered(m, t)
    ensures MutexAt(y, n, waiting, freed)
  {}

  lemma TakenLinks(x: Mutexes, m: nat, t: nat, y: Mutexes)
    requires Linked(x) && x.Has(m) && x.holder[m] == None && t in x.holding
    requires y == x.Called(m, t).Granted(m, t).Entered(m, t)
    ensures Linked(y)
  {
    forall u: nat, n: nat ensures Held(y, u, n) <==> Holder(y, n, u) { assert Held(x, u, n) <==> Holder(x, n, u); }
  }

  /** unlock with nobody waiting. */
  lemma GivenUpOk(x: Mutexes, queues: map<Place, seq<nat>>, freed: seq<nat>, m: nat, t: nat, y: Mutexes)
    requires MutexesOk(x, queues, freed) && x.Has(m) && Holder(x, m, t) && t in x.holding && Waiting(queues, m) == []
    requires y == x.GivenUp(m, t)
    ensures MutexesOk(y, queues, freed)
  {
    forall n | n in y.holder ensures MutexAt(y, n, Waiting(queues, n), freed) {
      assert MutexAt(x, n, Waiting(queues, n), freed);
    }
    forall u: nat, n: nat ensures Held(y, u, n) <==> Holder(y, n, u) { assert Held(x, u, n) <==> Holder(x, n, u); }
  }

  /** unlock with waiters: the first one has it now. */
  lemma PassedOk(x: Mutexes, queues: map<Place, seq<nat>>, freed: seq<nat>, m: nat, t: nat, u: nat, y: Mutexes)
    requires MutexesOk(x, queues, freed) && x.Has(m) && Holder(x, m, t) && t in x.holding && u in x.holding
    requires u != t && Waiting(queues, m) != [] && u == Waiting(queues, m)[0] && y == x.Passed(m, t, u)
    ensures MutexesOk(y, queues[OnMutex(m) := Waiting(queues, m)[1..]], freed)
  {
    var qs := queues[OnMutex(m) := Waiting(queues, m)[1..]];
    forall n | n in y.holder ensures MutexAt(y, n, Waiting(qs, n), freed) {
      assert MutexAt(x, n, Waiting(queues, n), freed);
      if n == m { assert y.locks[m] == y.grants[m] + Waiting(qs, m); }
    }
    PassedLinks(x, m, t, u, y);
  }

  lemma PassedLinks(x: Mutexes, m: nat, t: nat, u: nat, y: Mutexes)
    requires Linked(x) && x.Has(m) && Holder(x, m, t) && t in x.holding && u in x.holding && u != t
    requires y == x.Passed(m, t, u)
    ensures Linked(y)
  {
    assert Held(x, t, m);
    forall v: nat, n: nat ensures Held(y, v, n) <==> Holder(y, n, v) { assert Held(x, v, n) <==> Holder(x, n, v); }
  }

  lemma EnteredOk(x: Mutexes, queues: map<Place, seq<nat>>, freed: seq<nat>, m: nat, t: nat, y: Mutexes)
    requires MutexesOk(x, queues, freed) && Holder(x, m, t) && m in x.inside && y == x.Entered(m, t)
    ensures MutexesOk(y, queues, freed)
  {
    forall n | n in y.holder ensures MutexAt(y, n, Waiting(queues, n), freed) {
      assert MutexAt(x, n, Waiting(queues, n), freed);
    }
    forall u: nat, n: nat ensures Held(y, u, n) <==> Holder(y, n, u) { assert Held(x, u, n) <==> Holder(x, n, u); }
  }

  /** A freed context takes the holder of its mutexes with it. */
  lemma OrphanedOk(x: Mutexes, queues: map<Place, seq<nat>>, freed: seq<nat>, t: nat, y: Mutexes)
    requires MutexesOk(x, queues, freed) && t in x.holding && y == x.Orphaned(t)
    ensures MutexesOk(y, queues, freed + [t])
  {
    var f := freed + [t];
    assert t in f && forall u :: u in freed ==> u in f;
    forall n | n in y.holder ensures MutexAt(y, n, Waiting(queues, n), f) {
      assert MutexAt(x, n, Waiting(queues, n), freed) && (Held(x, t, n) <==> Holder(x, n, t));
    }
    forall u: nat, n: nat ensures Held(y, u, n) <==> Holder(y, n, u) {
      assert (Held(x, u, n) <==> Holder(x, n, u)) && (Held(x, t, n) <==> Holder(x, n, t));
    }
  }
}
