/** Every request is answered, and told that there is no space only if there is none. */
module FsProgress {
  import opened FsDisk
  import opened FsTree
  import opened FsSteps
  import opened FsInvariant
  import opened FsSafety
  import opened FsRefine
  import opened FsRun
  import opened FsClaims

  // ----- each request ends -----

  /** At most so many steps are left of a request. */
  function Left(j: Job): nat {
    match j.phase
    case Waiting(k, _, _) => 10 + Names(j.req, k)
    case Entering(k, _, _) => 9 + Names(j.req, k)
    case At(k, _, _) => 8 + Names(j.req, k)
    case Growing(_, _) => 4
    case Filling(_, _, _) => 3
    case Chaining(_, _, _) => 2
    case NeedTable(_, _) => 7
    case NeedInode(_, _, _) => 6
    case PutInode(_, _, _, _) => 5
    case PutTable(_, _, _, _) => 4
    case PutParent(_, _, _, _) => 3
    case AddKey => 2
    case Erasing(_, _) => 2
    case Leaving(_, _) => 1
  }

  /** Three steps for each name that has still to be walked. */
  function Names(req: Request, k: nat): nat {
    if req.path != [] && k < Goal(req) then 3 * (Goal(req) - k) else 0
  }

  /** The request takes a step; it is answered, or has fewer steps left. */
  ghost predicate Shrinks(s: State, r: nat, j: Job, t: State) {
    && (r in t.jobs ==> t.jobs[r].req == j.req && t.jobs == s.jobs[r := t.jobs[r]] && Left(t.jobs[r]) < Left(j))
    && (r !in t.jobs ==> t.jobs == s.jobs - {r} && r in t.done)
    && (r in t.jobs && t.jobs[r].phase.Leaving? ==> Few(j.req.path, t.jobs[r].phase.locks))
    && s.done.Keys <= t.done.Keys
  }

  /** The mutex of a path on the way, or of the whole path and the directory above it. */
  ghost predicate Few(path: Path, locks: set<Path>) {
    || (path != [] && locks == {path[..|path| - 1], path})
    || exists k {:trigger path[..k]} :: 0 <= k <= |path| && locks == {path[..k]}
  }

  lemma KeptFew(req: Request, k: nat)
    requires req.path != [] && k <= |req.path|
    ensures Few(req.path, Kept(req, k))
  {
    assert req.path[..|req.path|] == req.path;
    assert req.path[..k] == req.path[..k];
  }

  lemma EndsFew(path: Path)
    requires path != []
    ensures Few(path, {path}) && Few(path, {Parent(path)})
  {
    assert path[..|path|] == path;
    assert path[..|path| - 1] == Parent(path);
  }

  lemma WalkShrinks(s: State, r: nat, j: Job, t: State)
    requires Is(s, r, j) && WalkStep(s, r, j, t)
    ensures Shrinks(s, r, j, t)
  {
    if LookStep(s, r, j, t) { LookShrinks(s, r, j, t); }
  }

  lemma LookShrinks(s: State, r: nat, j: Job, t: State)
    requires Is(s, r, j) && LookStep(s, r, j, t)
    ensures Shrinks(s, r, j, t)
  {}

  lemma FileShrinks(s: State, r: nat, j: Job, t: State)
    requires Is(s, r, j) && FileStep(s, r, j, t)
    ensures Shrinks(s, r, j, t)
  {
    EndsFew(j.req.path);
    if GrowStep(s, r, j, t) { GrowShrinks(s, r, j, t); }
    else if WriteStep(s, r, j, t) { WriteShrinks(s, r, j, t); }
    else if ReadStep(s, r, j, t) { ReadShrinks(s, r, j, t); }
  }

  lemma ReadShrinks(s: State, r: nat, j: Job, t: State)
    requires Is(s, r, j) && ReadStep(s, r, j, t)
    ensures Shrinks(s, r, j, t)
  {
    KeptFew(j.req, j.phase.k);
  }

  lemma GrowShrinks(s: State, r: nat, j: Job, t: State)
    requires Is(s, r, j) && GrowStep(s, r, j, t)
    ensures Shrinks(s, r, j, t)
  {
    EndsFew(j.req.path);
  }

  lemma WriteShrinks(s: State, r: nat, j: Job, t: State)
    requires Is(s, r, j) && WriteStep(s, r, j, t)
    ensures Shrinks(s, r, j, t)
  {
    EndsFew(j.req.path);
    KeptFew(j.req, j.phase.k);
  }

  lemma MakeShrinks(s: State, r: nat, j: Job, t: State)
    requires Is(s, r, j) && MakeStep(s, r, j, t)
    ensures Shrinks(s, r, j, t)
  {
    if CreateStep(s, r, j, t) { CreateShrinks(s, r, j, t); }
    else if TableStep(s, r, j, t) { TableShrinks(s, r, j, t); }
    else if InodeStep(s, r, j, t) { InodeShrinks(s, r, j, t); }
  }

  lemma CreateShrinks(s: State, r: nat, j: Job, t: State)
    requires Is(s, r, j) && CreateStep(s, r, j, t)
    ensures Shrinks(s, r, j, t)
  {
    KeptFew(j.req, j.phase.k);
  }

  lemma TableShrinks(s: State, r: nat, j: Job, t: State)
    requires Is(s, r, j) && TableStep(s, r, j, t)
    ensures Shrinks(s, r, j, t)
  {
    EndsFew(j.req.path);
  }

  lemma InodeShrinks(s: State, r: nat, j: Job, t: State)
    requires Is(s, r, j) && InodeStep(s, r, j, t)
    ensures Shrinks(s, r, j, t)
  {
    EndsFew(j.req.path);
  }

  lemma DeleteShrinks(s: State, r: nat, j: Job, t: State)
    requires Is(s, r, j) && DeleteStep(s, r, j, t)
    ensures Shrinks(s, r, j, t)
  {
    KeptFew(j.req, j.phase.k);
  }

  lemma EndShrinks(s: State, r: nat, j: Job, t: State)
    requires Is(s, r, j) && EndStep(s, r, j, t)
    ensures Shrinks(s, r, j, t)
  {
    EndsFew(j.req.path);
  }

  lemma StepShrinks(s: State, r: nat, j: Job, t: State)
    requires Is(s, r, j) && Step(s, r, j, t)
    ensures Shrinks(s, r, j, t)
  {
    if WalkStep(s, r, j, t) { WalkShrinks(s, r, j, t); }
    else if FileStep(s, r, j, t) { FileShrinks(s, r, j, t); }
    else if MakeStep(s, r, j, t) { MakeShrinks(s, r, j, t); }
    else if DeleteStep(s, r, j, t) { DeleteShrinks(s, r, j, t); }
    else { EndShrinks(s, r, j, t); }
  }

  /** A request's own steps between two states of a run: those that change it. */
  ghost function OwnSteps(ss: seq<State>, r: nat, m: nat, i: nat): nat
    requires m <= i < |ss|
    decreases i
  {
    if i == m then 0 else OwnSteps(ss, r, m, i - 1) + if Moved(ss[i - 1], ss[i], r) then 1 else 0
  }

  ghost predicate Moved(s: State, t: State, r: nat) {
    r in s.jobs && !(r in t.jobs && t.jobs[r] == s.jobs[r])
  }

  function LeftOf(jobs: map<nat, Job>, r: nat): nat { if r in jobs then Left(jobs[r]) else 0 }

  lemma NextShrinks(s: State, t: State, r: nat)
    requires LogOk(s) && Next(s, t) && (r in s.jobs || r in s.done)
    ensures (r in t.jobs || r in t.done) && LeftOf(t.jobs, r) + (if Moved(s, t, r) then 1 else 0) <= LeftOf(s.jobs, r)
  {
    if e, req :| BeginStep(s, e, req, t) {
      assert e != r;
    } else {
      var q :| q in s.jobs && Is(s, q, s.jobs[q]) && Step(s, q, s.jobs[q], t);
      StepShrinks(s, q, s.jobs[q], t);
      OneShrinks(s, q, s.jobs[q], t, r);
    }
  }

  lemma OneShrinks(s: State, q: nat, j: Job, t: State, r: nat)
    requires q in s.jobs && s.jobs[q] == j && Shrinks(s, q, j, t) && (r in s.jobs || r in s.done)
    requires r in s.done ==> r !in s.jobs
    ensures (r in t.jobs || r in t.done) && LeftOf(t.jobs, r) + (if Moved(s, t, r) then 1 else 0) <= LeftOf(s.jobs, r)
  {}

  lemma {:induction false} FewSteps(ss: seq<State>, r: nat, m: nat, i: nat)
    requires Run(ss) && m <= i < |ss| && (r in ss[m].jobs || r in ss[m].done)
    ensures r in ss[i].jobs || r in ss[i].done
    ensures OwnSteps(ss, r, m, i) + LeftOf(ss[i].jobs, r) <= LeftOf(ss[m].jobs, r)
    decreases i
  {
    if m < i {
      FewSteps(ss, r, m, i - 1);
      OneMore(ss, r, i - 1);
    }
  }

  lemma OneMore(ss: seq<State>, r: nat, i: nat)
    requires Run(ss) && i + 1 < |ss| && (r in ss[i].jobs || r in ss[i].done)
    ensures r in ss[i + 1].jobs || r in ss[i + 1].done
    ensures LeftOf(ss[i + 1].jobs, r) + (if Moved(ss[i], ss[i + 1], r) then 1 else 0) <= LeftOf(ss[i].jobs, r)
  {
    NextInRun(ss, i);
    LogInRun(ss, i);
    NextShrinks(ss[i], ss[i + 1], r);
  }

  /** However requests are interleaved, a request that begins takes at most ten steps and three for each name of its
      path until it is answered. */
  lemma FewStepsEach(ss: seq<State>, r: nat, req: Request, m: nat, i: nat)
    requires Run(ss) && m + 1 <= i < |ss| && BeginStep(ss[m], r, req, ss[m + 1])
    ensures OwnSteps(ss, r, m + 1, i) <= 3 * |req.path| + 10
    ensures r in ss[i].jobs || r in ss[i].done
  {
    FewSteps(ss, r, m + 1, i);
  }

  // ----- all requests can be answered -----

  /** At most so many steps are left of the requests `rs`. */
  ghost function Work(jobs: map<nat, Job>, rs: set<nat>): nat {
    if rs == {} then 0 else
      var r :| r in rs;
      LeftOf(jobs, r) + Work(jobs, rs - {r})
  }

  lemma {:induction false} WorkOf(jobs: map<nat, Job>, rs: set<nat>, q: nat)
    requires q in rs
    ensures Work(jobs, rs) == LeftOf(jobs, q) + Work(jobs, rs - {q})
    decreases rs
  {
    var r :| r in rs && Work(jobs, rs) == LeftOf(jobs, r) + Work(jobs, rs - {r});
    if r != q {
      WorkOf(jobs, rs - {r}, q);
      WorkOf(jobs, rs - {q}, r);
      assert rs - {r} - {q} == rs - {q} - {r};
    }
  }

  lemma {:induction false} SameWork(jobs: map<nat, Job>, after: map<nat, Job>, rs: set<nat>)
    requires forall r {:trigger LeftOf(after, r)} :: r in rs ==> LeftOf(after, r) == LeftOf(jobs, r)
    ensures Work(after, rs) == Work(jobs, rs)
    decreases rs
  {
    if rs != {} {
      var q :| q in rs;
      WorkOf(jobs, rs, q);
      WorkOf(after, rs, q);
      SameWork(jobs, after, rs - {q});
    }
  }

  ghost function LeftAll(s: State): nat { Work(s.jobs, s.jobs.Keys) }

  lemma LessLeft(s: State, r: nat, t: State)
    requires r in s.jobs && Is(s, r, s.jobs[r]) && Step(s, r, s.jobs[r], t)
    ensures LeftAll(t) < LeftAll(s)
  {
    StepShrinks(s, r, s.jobs[r], t);
    LessWork(s, r, t);
  }

  lemma LessWork(s: State, r: nat, t: State)
    requires r in s.jobs && Shrinks(s, r, s.jobs[r], t)
    ensures LeftAll(t) < LeftAll(s)
  {
    var rest := s.jobs.Keys - {r};
    WorkOf(s.jobs, s.jobs.Keys, r);
    SameWork(s.jobs, t.jobs, rest);
    if r in t.jobs {
      WorkOf(t.jobs, t.jobs.Keys, r);
      assert t.jobs.Keys - {r} == rest;
    } else { assert t.jobs.Keys == rest; }
  }

  /** Whoever's turn it is, all requests are answered, and no state is repeated: a stretch of a run in which no request
      begins is at most as long as the steps that are left of all of them. */
  lemma {:induction false} ServedInTime(ss: seq<State>, m: nat, i: nat)
    requires Run(ss) && m <= i < |ss|
    requires forall l {:trigger ss[l]} :: m < l <= i ==> ss[l].jobs.Keys <= ss[l - 1].jobs.Keys
    ensures i - m + LeftAll(ss[i]) <= LeftAll(ss[m])
    decreases i
  {
    if m < i {
      ServedInTime(ss, m, i - 1);
      NextInRun(ss, i - 1);
      RunInv(ss, i - 1);
      OneLess(ss[i - 1], ss[i]);
    }
  }

  lemma BeginsNew(s: State, r: nat, req: Request, t: State)
    ensures BeginStep(s, r, req, t) ==> r in t.jobs.Keys && r !in s.jobs.Keys
  {}

  lemma OneLess(s: State, t: State)
    requires Inv(s) && Next(s, t) && t.jobs.Keys <= s.jobs.Keys
    ensures LeftAll(t) < LeftAll(s)
  {
    forall r, req ensures !BeginStep(s, r, req, t) { BeginsNew(s, r, req, t); }
    var r :| r in s.jobs && Is(s, r, s.jobs[r]) && Step(s, r, s.jobs[r], t);
    LessLeft(s, r, t);
  }

  lemma Extended(ss: seq<State>, r: nat, t: State)
    requires Run(ss)
    requires var s := ss[|ss| - 1]; r in s.jobs && Is(s, r, s.jobs[r]) && Step(s, r, s.jobs[r], t)
    ensures Run(ss + [t])
  {
    var more, s := ss + [t], ss[|ss| - 1];
    assert Next(s, t);
    forall i | 0 <= i < |more| - 1 ensures StepAt(more, i) {
      if i < |ss| - 1 { assert StepAt(ss, i) && more[i] == ss[i] && more[i + 1] == ss[i + 1]; }
      else { assert more[i] == s && more[i + 1] == t; }
    }
  }

  lemma OneStep(ss: seq<State>) returns (t: State)
    requires Run(ss) && ss[|ss| - 1].jobs != map[]
    ensures Run(ss + [t]) && LeftAll(t) < LeftAll(ss[|ss| - 1])
  {
    NoDeadlock(ss, |ss| - 1);
    var s := ss[|ss| - 1];
    RunInv(ss, |ss| - 1);
    var r :| CanStep(s, r);
    t :| Step(s, r, s.jobs[r], t);
    LessLeft(s, r, t);
    Extended(ss, r, t);
  }

  /** So every run can be continued until every request that has been made is answered. */
  lemma {:induction false} AllServed(ss: seq<State>) returns (all: seq<State>)
    requires Run(ss)
    ensures Run(all) && ss <= all && all[|all| - 1].jobs == map[]
    ensures forall r {:trigger r in ss[|ss| - 1].jobs} :: r in ss[|ss| - 1].jobs ==> r in all[|all| - 1].done
    decreases LeftAll(ss[|ss| - 1])
  {
    if ss[|ss| - 1].jobs == map[] { all := ss; } else {
      var t := OneStep(ss);
      all := AllServed(ss + [t]);
      var jobs, done := ss[|ss| - 1].jobs, all[|all| - 1].done;
      assert all[|ss| - 1] == ss[|ss| - 1];
      forall r | r in jobs ensures r in done { FewSteps(all, r, |ss| - 1, |all| - 1); }
    }
  }

  // ----- no space -----

  /** The directory above the path has as many tables as it can have, and no unused entry. */
  ghost predicate FullAbove(s: State, p: Path)
    requires p != []
  {
    && p[..|p| - 1] in s.x.names
    && var ino := InodeAt(s.disk, s.x.names[p[..|p| - 1]].inode);
    && ino.dir && |ino.blocks| >= 124 && NoneUnused(s.disk, ino)
  }

  ghost predicate NoRoomFor(s: State, req: Request)
    requires req.path != []
  {
    s.free == {} || (req.Create? && FullAbove(s, req.path))
  }

  ghost predicate Refuses(s: State, r: nat, j: Job, t: State) { t.log == s.log + [Commit(r, j.req, NoSpace)] }

  lemma RefusedFile(s: State, r: nat, j: Job, t: State)
    requires Is(s, r, j) && FileStep(s, r, j, t) && Refuses(s, r, j, t)
    ensures s.free == {}
  {
    LastReply(s, r, j, t);
    if GrowStep(s, r, j, t) { RefusedGrow(s, r, j, t); }
    else if ReadStep(s, r, j, t) { NotRefusedRead(s, r, j, t); }
    else if WriteStep(s, r, j, t) { NotRefusedWrite(s, r, j, t); }
  }

  lemma RefusedGrow(s: State, r: nat, j: Job, t: State)
    requires Is(s, r, j) && GrowStep(s, r, j, t) && Refuses(s, r, j, t)
    ensures s.free == {}
  {}

  lemma NotRefusedRead(s: State, r: nat, j: Job, t: State)
    requires Is(s, r, j) && ReadStep(s, r, j, t)
    ensures !Refuses(s, r, j, t)
  {
    LastReply(s, r, j, t);
  }

  lemma NotRefusedWrite(s: State, r: nat, j: Job, t: State)
    requires Is(s, r, j) && WriteStep(s, r, j, t)
    ensures !Refuses(s, r, j, t)
  {
    LastReply(s, r, j, t);
  }

  lemma LastReply(s: State, r: nat, j: Job, t: State)
    ensures Refuses(s, r, j, t) ==> t.log != [] && t.log[|t.log| - 1].reply == NoSpace && |t.log| == |s.log| + 1
  {}

  lemma RefusedMake(s: State, r: nat, j: Job, t: State)
    requires Inv(s) && Is(s, r, j) && MakeStep(s, r, j, t) && Refuses(s, r, j, t)
    ensures NoRoomFor(s, j.req)
  {
    LastReply(s, r, j, t);
    if CreateStep(s, r, j, t) { RefusedCreate(s, r, j, t); }
    else if TableStep(s, r, j, t) { RefusedTable(s, r, j, t); }
    else if InodeStep(s, r, j, t) { RefusedInode(s, r, j, t); }
  }

  lemma RefusedCreate(s: State, r: nat, j: Job, t: State)
    requires Inv(s) && Is(s, r, j) && CreateStep(s, r, j, t) && Refuses(s, r, j, t)
    ensures j.req.Create? && FullAbove(s, j.req.path)
  {
    LastReply(s, r, j, t);
    AtGoal(s, r, j);
  }

  lemma RefusedTable(s: State, r: nat, j: Job, t: State)
    requires Is(s, r, j) && TableStep(s, r, j, t) && Refuses(s, r, j, t)
    ensures s.free == {}
  {}

  lemma RefusedInode(s: State, r: nat, j: Job, t: State)
    requires Is(s, r, j) && InodeStep(s, r, j, t) && Refuses(s, r, j, t)
    ensures s.free == {}
  {}

  /** A request is refused for want of space only while there is none: no block is free, or the directory is full. */
  lemma RefusedWhen(s: State, r: nat, j: Job, t: State)
    requires Inv(s) && Is(s, r, j) && Step(s, r, j, t) && Refuses(s, r, j, t)
    ensures NoRoomFor(s, j.req)
  {
    LastReply(s, r, j, t);
    if WalkStep(s, r, j, t) { NotRefusedWalk(s, r, j, t); }
    else if FileStep(s, r, j, t) { RefusedFile(s, r, j, t); }
    else if MakeStep(s, r, j, t) { RefusedMake(s, r, j, t); }
    else if DeleteStep(s, r, j, t) { NotRefusedDelete(s, r, j, t); }
  }

  lemma NotRefusedWalk(s: State, r: nat, j: Job, t: State)
    requires Is(s, r, j) && WalkStep(s, r, j, t)
    ensures !Refuses(s, r, j, t)
  {
    LastReply(s, r, j, t);
    if LookStep(s, r, j, t) { NotRefusedLook(s, r, j, t); }
  }

  lemma NotRefusedLook(s: State, r: nat, j: Job, t: State)
    requires Is(s, r, j) && LookStep(s, r, j, t)
    ensures !Refuses(s, r, j, t)
  {
    LastReply(s, r, j, t);
  }

  lemma NotRefusedDelete(s: State, r: nat, j: Job, t: State)
    requires Is(s, r, j) && DeleteStep(s, r, j, t)
    ensures !Refuses(s, r, j, t)
  {
    LastReply(s, r, j, t);
  }

  /** In every run: whoever is answered that there is no space, there was a moment, while it was served, at which no
      block was free or its directory was full. */
  lemma {:induction false} NoSpaceWhen(ss: seq<State>, i: nat, k: nat) returns (m: nat)
    requires Run(ss) && i < |ss| && k < |ss[i].log| && ss[i].log[k].reply == NoSpace
    ensures m < i && |ss[m].log| == k && ss[m + 1].log == ss[m].log + [ss[i].log[k]] && ss[i].log[k].id in ss[m].jobs
    ensures ss[i].log[k].req.path != [] && NoRoomFor(ss[m], ss[i].log[k].req)
    decreases i
  {
    LogStarts(ss, i);
    if k < |ss[i - 1].log| { m := NoSpaceWhen(ss, i - 1, k); } else {
      m := i - 1;
      EntryInRun(ss, m, k);
    }
  }

  lemma LogStarts(ss: seq<State>, i: nat)
    requires Run(ss) && i < |ss| && ss[i].log != []
    ensures i > 0 && ss[i - 1].log <= ss[i].log
  {
    RunInv(ss, i);
  }

  lemma EntryInRun(ss: seq<State>, m: nat, k: nat)
    requires Run(ss) && m + 1 < |ss| && |ss[m].log| <= k < |ss[m + 1].log| && ss[m + 1].log[k].reply == NoSpace
    ensures k == |ss[m].log| && ss[m + 1].log == ss[m].log + [ss[m + 1].log[k]] && ss[m + 1].log[k].id in ss[m].jobs
    ensures ss[m + 1].log[k].req.path != [] && NoRoomFor(ss[m], ss[m + 1].log[k].req)
  {
    RunInv(ss, m);
    NextInRun(ss, m);
    NewEntry(ss[m], ss[m + 1], k);
  }

  lemma NewEntry(s: State, t: State, k: nat)
    requires Inv(s) && Next(s, t) && |s.log| <= k < |t.log| && t.log[k].reply == NoSpace
    ensures k == |s.log| && t.log == s.log + [t.log[k]] && t.log[k].id in s.jobs && t.log[k].req.path != []
    ensures NoRoomFor(s, t.log[k].req)
  {
    forall r, req ensures !BeginStep(s, r, req, t) {}
    var r :| r in s.jobs && Is(s, r, s.jobs[r]) && Step(s, r, s.jobs[r], t);
    StepLog(s, r, s.jobs[r], t);
    RefusedWhen(s, r, s.jobs[r], t);
  }
}
