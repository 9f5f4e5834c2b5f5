/** Moving contexts between queues keeps each of them in one place, and in a place that fits where it stopped. */
module ThreadQueues {
  import opened Wrappers
  import opened ThreadState
  import opened ThreadInvariant

  // ----- places -----

  lemma ParkPlaces(place: map<nat, Place>, queues: map<Place, seq<nat>>, t: nat, q: Place)
    requires PlacesOk(place, queues, Some(t)) && q in queues
    ensures PlacesOk(place[t := q], queues[q := queues[q] + [t]], None)
  {
    var p, qs := place[t := q], queues[q := queues[q] + [t]];
    assert At(place, t, Running);
    forall r | r in qs ensures QueueOk(p, r, qs[r]) {
      assert QueueOk(place, r, queues[r]) && !At(place, t, r);
      assert t !in queues[r];
    }
    forall u: nat ensures !At(p, u, Running) { assert At(p, u, Running) ==> At(place, u, Running); }
  }

  lemma TakePlaces(place: map<nat, Place>, queues: map<Place, seq<nat>>)
    requires PlacesOk(place, queues, None) && queues[Ready] != []
    ensures PlacesOk(place[queues[Ready][0] := Running], queues[Ready := queues[Ready][1..]], Some(queues[Ready][0]))
  {
    var t := queues[Ready][0];
    var p, qs := place[t := Running], queues[Ready := queues[Ready][1..]];
    assert t in queues[Ready] && At(place, t, Ready);
    forall r | r in qs ensures QueueOk(p, r, qs[r]) {
      assert QueueOk(place, r, queues[r]);
      if r == Ready { TailQueue(place, r, queues[r], p); } else { assert !At(place, t, r); }
    }
    forall u: nat ensures At(p, u, Running) <==> u == t {
      assert u != t ==> (At(p, u, Running) <==> At(place, u, Running));
    }
  }

  lemma TailQueue(place: map<nat, Place>, q: Place, ts: seq<nat>, p: map<nat, Place>)
    requires QueueOk(place, q, ts) && ts != [] && p.Keys == place.Keys && ts[0] in p && p[ts[0]] != q
    requires forall u :: u in place && u != ts[0] ==> p[u] == place[u]
    ensures QueueOk(p, q, ts[1..])
  {
    forall u: nat ensures u in ts[1..] <==> At(p, u, q) {
      assert u in ts <==> At(place, u, q);
      assert u in ts <==> u == ts[0] || u in ts[1..];
    }
  }

  /** The first waiter of a queue becomes ready. */
  lemma MovePlaces(place: map<nat, Place>, queues: map<Place, seq<nat>>, running: Option<nat>, q: Place)
    requires PlacesOk(place, queues, running) && q in queues && q != Ready && queues[q] != []
    ensures
      var t := queues[q][0];
      PlacesOk(place[t := Ready], queues[q := queues[q][1..]][Ready := queues[Ready] + [t]], running)
  {
    var t := queues[q][0];
    var p, qs := place[t := Ready], queues[q := queues[q][1..]][Ready := queues[Ready] + [t]];
    assert t in queues[q] && At(place, t, q);
    forall r | r in qs ensures QueueOk(p, r, qs[r]) {
      assert QueueOk(place, r, queues[r]);
      if r == q { TailQueue(place, r, queues[r], p); } else { assert !At(place, t, r) && t !in queues[r]; }
    }
    forall u: nat ensures At(p, u, Running) <==> running == Some(u) {
      assert At(p, u, Running) <==> At(place, u, Running);
    }
  }

  lemma WakePlaces(place: map<nat, Place>, queues: map<Place, seq<nat>>, running: Option<nat>, q: Place)
    requires PlacesOk(place, queues, running) && q in queues && q != Ready
    ensures PlacesOk(Readied(place, queues[q]), queues[Ready := queues[Ready] + queues[q]][q := []], running)
  {
    var p, qs := Readied(place, queues[q]), queues[Ready := queues[Ready] + queues[q]][q := []];
    assert QueueOk(place, q, queues[q]);
    forall r | r in qs ensures QueueOk(p, r, qs[r]) {
      assert QueueOk(place, r, queues[r]);
      forall u: nat ensures u in qs[r] <==> At(p, u, r) {
        assert (u in queues[r] <==> At(place, u, r)) && (u in queues[q] <==> At(place, u, q));
        assert u in qs[Ready] <==> u in queues[Ready] || u in queues[q];
        assert At(place, u, Ready) ==> u in queues[Ready];
      }
      if r == Ready {
        forall u | u in queues[Ready] ensures u !in queues[q] { assert At(place, u, Ready) && !At(place, u, q); }
        JoinedNoDup(queues[Ready], queues[q]);
      }
    }
    forall u: nat ensures At(p, u, Running) <==> running == Some(u) {
      assert u in queues[q] <==> At(place, u, q);
      assert At(p, u, Running) <==> At(place, u, Running);
    }
  }

  lemma JoinedNoDup(ts: seq<nat>, us: seq<nat>)
    requires NoDup(ts) && NoDup(us) && forall t :: t in ts ==> t !in us
    ensures NoDup(ts + us)
  {
    var both := ts + us;
    forall i, j | 0 <= i < j < |both| ensures both[i] != both[j] {
      if i < |ts| <= j { assert ts[i] in ts && us[j - |ts|] in us; }
    }
  }

  lemma CreatePlaces(place: map<nat, Place>, queues: map<Place, seq<nat>>, running: Option<nat>, t: nat)
    requires PlacesOk(place, queues, running) && t !in place && OnJoin(t) !in queues
    ensures PlacesOk(place[t := Ready], queues[Ready := queues[Ready] + [t]][OnJoin(t) := []], running)
  {
    var p, qs := place[t := Ready], queues[Ready := queues[Ready] + [t]][OnJoin(t) := []];
    forall r | r in qs ensures QueueOk(p, r, qs[r]) {
      if r == OnJoin(t) {
        forall u: nat ensures !At(p, u, r) { assert u in place ==> place[u] != OnJoin(t); }
      } else {
        assert QueueOk(place, r, queues[r]) && !At(place, t, r) && t !in queues[r];
      }
    }
    forall u: nat ensures At(p, u, Running) <==> running == Some(u) {
      assert At(p, u, Running) <==> At(place, u, Running);
    }
  }

  lemma NewQueuePlaces(place: map<nat, Place>, queues: map<Place, seq<nat>>, running: Option<nat>, q: Place)
    requires PlacesOk(place, queues, running) && q !in queues && q != Running
    ensures PlacesOk(place, queues[q := []], running)
  {
    var qs := queues[q := []];
    forall r | r in qs ensures QueueOk(place, r, qs[r]) {
      if r == q {
        forall u: nat ensures !At(place, u, q) { assert u in place ==> place[u] != q; }
      } else { assert QueueOk(place, r, queues[r]); }
    }
  }

  /** The running context ends, and the queue of its joiners, empty by now, goes with it. */
  lemma LeavePlaces(place: map<nat, Place>, queues: map<Place, seq<nat>>, t: nat)
    requires PlacesOk(place, queues, Some(t)) && OnJoin(t) in queues && queues[OnJoin(t)] == []
    ensures PlacesOk(place - {t}, queues - {OnJoin(t)}, None)
  {
    var p, qs := place - {t}, queues - {OnJoin(t)};
    assert At(place, t, Running) && QueueOk(place, OnJoin(t), queues[OnJoin(t)]);
    forall r | r in qs ensures QueueOk(p, r, qs[r]) {
      assert QueueOk(place, r, queues[r]) && !At(place, t, r);
      forall u: nat ensures At(p, u, r) <==> At(place, u, r) {}
    }
    forall u: nat ensures !At(p, u, Running) { assert At(p, u, Running) ==> At(place, u, Running); }
    forall u | u in p && p[u] != Running ensures p[u] in qs {
      assert place[u] == OnJoin(t) ==> At(place, u, OnJoin(t));
    }
  }

  // ----- points -----

  lemma ParkPoints(place: map<nat, Place>, points: map<nat, Point>, holder: map<nat, Option<nat>>, t: nat, q: Place,
                   point: Point)
    requires PointsOk(place, points, holder) && PointOk(t, q, point, holder)
    ensures PointsOk(place[t := q], points[t := point], holder)
  {}

  /** A mutex that its running holder leaves, or that nobody held. */
  ghost predicate Leaving(place: map<nat, Place>, holder: map<nat, Option<nat>>, m: nat) {
    m in holder && (holder[m].Some? ==> At(place, holder[m].value, Running))
  }

  lemma HolderPoints(place: map<nat, Place>, points: map<nat, Point>, holder: map<nat, Option<nat>>, m: nat,
                     h: Option<nat>)
    requires PointsOk(place, points, holder) && Leaving(place, holder, m)
    ensures PointsOk(place, points, holder[m := h])
  {
    forall u | u in place ensures u in points && PointOk(u, place[u], points[u], holder[m := h]) {
      assert u in points && PointOk(u, place[u], points[u], holder);
    }
  }

  lemma PassPoints(place: map<nat, Place>, points: map<nat, Point>, holder: map<nat, Option<nat>>, m: nat, u: nat)
    requires PointsOk(place, points, holder) && Leaving(place, holder, m) && At(place, u, OnMutex(m))
    ensures PointsOk(place[u := Ready], points, holder[m := Some(u)])
  {
    var p, h := place[u := Ready], holder[m := Some(u)];
    forall v | v in p ensures v in points && PointOk(v, p[v], points[v], h) {
      assert v in points && PointOk(v, place[v], points[v], holder);
    }
  }

  /** Contexts other than those that wait for a mutex may become ready as they are. */
  lemma ReadyPoints(place: map<nat, Place>, points: map<nat, Point>, holder: map<nat, Option<nat>>,
                    after: map<nat, Place>)
    requires PointsOk(place, points, holder) && after.Keys == place.Keys
    requires forall u {:trigger after[u]} :: u in place ==>
               after[u] == place[u] || (after[u] == Ready && (place[u].OnCv? || place[u].OnJoin? || place[u].OnSwap?))
    ensures PointsOk(after, points, holder)
  {
    forall u | u in after ensures u in points && PointOk(u, after[u], points[u], holder) {
      assert u in points && PointOk(u, place[u], points[u], holder);
    }
  }

  lemma FewerPoints(place: map<nat, Place>, points: map<nat, Point>, holder: map<nat, Option<nat>>, t: nat)
    requires PointsOk(place, points, holder)
    ensures PointsOk(place - {t}, points, holder)
  {
    var p := place - {t};
    forall u | u in p ensures u in points && PointOk(u, p[u], points[u], holder) {
      assert u in points && PointOk(u, place[u], points[u], holder);
    }
  }

  lemma MorePoints(place: map<nat, Place>, points: map<nat, Point>, holder: map<nat, Option<nat>>, m: nat)
    requires PointsOk(place, points, holder) && m !in holder
    ensures PointsOk(place, points, holder[m := None])
  {
    var h := holder[m := None];
    forall u | u in place ensures u in points && PointOk(u, place[u], points[u], h) {
      assert u in points && PointOk(u, place[u], points[u], holder);
    }
  }
}
