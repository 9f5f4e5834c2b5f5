/** How many mutexes a request has locked, and which. */
module FsLocks {
  import opened FsDisk
  import opened FsTree
  import opened FsSteps
  import opened FsInvariant
  import opened FsRun
  import opened FsClaims
  import opened FsProgress

  ghost predicate NeatLeavers(s: State) {
    forall r {:trigger s.jobs[r]} :: r in s.jobs && s.jobs[r].phase.Leaving? ==>
      Few(s.jobs[r].req.path, s.jobs[r].phase.locks)
  }

  lemma NeatStep(s: State, t: State)
    requires NeatLeavers(s) && Next(s, t)
    ensures NeatLeavers(t)
  {
    if r, req :| BeginStep(s, r, req, t) {
    } else {
      var r :| r in s.jobs && Is(s, r, s.jobs[r]) && Step(s, r, s.jobs[r], t);
      StepShrinks(s, r, s.jobs[r], t);
      NeatShrinks(s, r, s.jobs[r], t);
    }
  }

  lemma NeatShrinks(s: State, r: nat, j: Job, t: State)
    requires NeatLeavers(s) && r in s.jobs && s.jobs[r] == j && Shrinks(s, r, j, t)
    ensures NeatLeavers(t)
  {}

  lemma {:induction false} NeatRun(ss: seq<State>, i: nat)
    requires Run(ss) && i < |ss|
    ensures NeatLeavers(ss[i])
  {
    if i > 0 {
      NeatRun(ss, i - 1);
      NextInRun(ss, i - 1);
      NeatStep(ss[i - 1], ss[i]);
    }
  }

  /** Request `r` has locked the mutex of `p`. */
  ghost predicate Has(s: State, r: nat, p: Path) { p in s.held && s.held[p] == r }

  /** A request has locked no mutexes but of its path or on the way to it; never more than two, and two only of a
      directory and what is in it. */
  lemma TwoAtMost(ss: seq<State>, i: nat, r: nat, p: Path, q: Path)
    requires Run(ss) && i < |ss| && Has(ss[i], r, p)
    ensures r in ss[i].jobs && p <= ss[i].jobs[r].req.path
    ensures Has(ss[i], r, q) && p != q ==> (q != [] && p == q[..|q| - 1]) || (p != [] && q == p[..|p| - 1])
  {
    LocksExactly(ss, i, r, p);
    LocksExactly(ss, i, r, q);
    NeatRun(ss, i);
    JobInRun(ss, i, r);
    OnWay(ss[i].jobs[r], p, q);
  }

  lemma JobInRun(ss: seq<State>, i: nat, r: nat)
    requires Run(ss) && i < |ss|
    ensures r in ss[i].jobs ==> Walks(ss[i].jobs[r])
  {
    RunInv(ss, i);
    if r in ss[i].jobs { assert JobOk(ss[i].view, ss[i].x, r, ss[i].jobs[r]); }
  }

  /** The request has walked no further than its path. */
  ghost predicate Walks(j: Job) {
    j.req.path != [] && (j.phase.Waiting? || j.phase.Entering? || j.phase.At? ==> j.phase.k <= |j.req.path|)
  }

  lemma OnWay(j: Job, p: Path, q: Path)
    requires Walks(j) && p in Holds(j) && (j.phase.Leaving? ==> Few(j.req.path, j.phase.locks))
    ensures p <= j.req.path
    ensures q in Holds(j) && p != q ==> (q != [] && p == q[..|q| - 1]) || (p != [] && q == p[..|p| - 1])
  {
    var path := j.req.path;
    assert path[..|path|] == path;
    if j.phase.Leaving? && !(j.phase.locks == {path[..|path| - 1], path}) {
      var k :| 0 <= k <= |path| && j.phase.locks == {path[..k]};
    }
    if j.phase.Entering? && j.phase.k > 0 { assert path[..j.phase.k][..j.phase.k - 1] == path[..j.phase.k - 1]; }
  }

  /** A request that has walked to its goal has locked exactly the mutex of its path, or for a create of the
      directory above, and for a delete both; a request that has been answered has locked none. */
  lemma AsDocumented(ss: seq<State>, i: nat, r: nat, p: Path)
    requires Run(ss) && i < |ss|
    ensures r in ss[i].jobs ==> ss[i].jobs[r].req.path != []
    ensures r in ss[i].jobs && ss[i].jobs[r].phase.At? && ss[i].jobs[r].phase.k == Goal(ss[i].jobs[r].req) ==>
      var path := ss[i].jobs[r].req.path;
      Has(ss[i], r, p) <==>
        if ss[i].jobs[r].req.Create? then p == path[..|path| - 1]
        else p == path || (ss[i].jobs[r].req.Delete? && p == path[..|path| - 1])
    ensures r !in ss[i].jobs ==> !Has(ss[i], r, p)
  {
    LocksExactly(ss, i, r, p);
    JobInRun(ss, i, r);
    if r in ss[i].jobs {
      var path := ss[i].jobs[r].req.path;
      assert path[..|path|] == path;
    }
  }
}
