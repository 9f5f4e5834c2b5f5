/** Crashes, locks and blocks: consequences that hold in every run of the file server. */
module FsClaims {
  import opened FsDisk
  import opened FsUpdate
  import opened FsLink
  import opened FsUnlink
  import opened FsTree
  import opened FsSteps
  import opened FsInvariant
  import opened FsSafety
  import opened FsDelete
  import opened FsRefine
  import opened FsRun

  // ----- crashes -----

  ghost predicate NoneErasing(s: State) { forall r {:trigger s.jobs[r]} :: r in s.jobs ==> !s.jobs[r].phase.Erasing? }

  lemma DiskIsView(s: State)
    requires ViewOk(s) && NoneErasing(s)
    ensures s.disk == s.view
  {
    forall b: nat ensures (b in s.disk <==> b in s.view) && (b in s.disk ==> s.disk[b] == s.view[b]) {
      assert SameBlock(s.disk, s.view, b) || Pends(s, b);
    }
    forall b ensures b in s.disk.Keys <==> b in s.view.Keys {
      if b in s.disk.Keys || b in s.view.Keys { assert b >= 0; }
    }
  }

  /** While no request is being served, the disk is the tree that the answered requests have made, no mutex is
      locked, and there is a key for every path. */
  lemma AtRest(ss: seq<State>, i: nat)
    requires Run(ss) && i < |ss| && ss[i].jobs == map[]
    ensures Decodes(ss[i].disk, TreeNow(ss[i])) && ss[i].held == map[] && ss[i].keys == ss[i].x.names.Keys
  {
    RunInv(ss, i);
    DiskIsView(ss[i]);
    forall p ensures p !in ss[i].held { Holder(ss[i], p); }
    forall p ensures p in ss[i].keys <==> p in ss[i].x.names { assert !Unkeyed(ss[i], p); }
  }

  lemma Holder(s: State, p: Path)
    ensures LocksOk(s) && p in s.held ==> s.jobs != map[]
  {
    if LocksOk(s) && p in s.held { assert s.held[p] in s.jobs; }
  }

  /** Requests come one at a time: none begins before the last one is answered. */
  ghost predicate Alone(s: State) {
    forall q, r {:trigger s.jobs[q], s.jobs[r]} :: q in s.jobs && r in s.jobs ==> q == r
  }

  ghost predicate OneAtATime(ss: seq<State>) { forall i {:trigger Alone(ss[i])} :: 0 <= i < |ss| ==> Alone(ss[i]) }

  /** A request that is about to erase has just taken effect, if there is no other. */
  lemma JustDecided(s: State, t: State, r: nat)
    requires Next(s, t) && r in t.jobs && t.jobs[r].phase.Erasing? && Alone(s) && Alone(t)
    ensures NoneErasing(s) && t.disk == s.disk && t.log != [] && t.log[..|t.log| - 1] == s.log
    ensures t.log[|t.log| - 1].id == r
  {
    forall e, req | BeginStep(s, e, req, t) ensures t.jobs[r].phase.Waiting? { BegunWaits(s, e, req, t, r); }
    var q: nat :| q in s.jobs && Is(s, q, s.jobs[q]) && Step(s, q, s.jobs[q], t);
    StepLog(s, q, s.jobs[q], t);
    assert r in s.jobs;
  }

  lemma BegunWaits(s: State, e: nat, req: Request, t: State, r: nat)
    requires BeginStep(s, e, req, t) && r in t.jobs && Alone(t)
    ensures t.jobs[r].phase.Waiting?
  {
    assert t.jobs[e].phase.Waiting?;
  }

  lemma ErasingTree(s: State, t: State)
    requires Inv(s) && Next(s, t) && Alone(s) && Alone(t) && !NoneErasing(t)
    ensures Decodes(t.disk, TreeNow(s)) && t.log != [] && t.log[..|t.log| - 1] == s.log
  {
    var r :| r in t.jobs && t.jobs[r].phase.Erasing?;
    JustDecided(s, t, r);
    DiskIsView(s);
  }

  lemma DiskShowsTree(ss: seq<State>, i: nat, log: seq<Commit>)
    requires Run(ss) && i < |ss| && log == ss[i].log
    ensures Serial(TreeNow(ss[0]), log, TreeNow(ss[i]))
    ensures NoneErasing(ss[i]) ==> Decodes(ss[i].disk, TreeNow(ss[i]))
  {
    RunInv(ss, i);
    if NoneErasing(ss[i]) { DiskIsView(ss[i]); }
  }

  lemma RunStep(ss: seq<State>, i: nat)
    requires Run(ss) && i < |ss| && !NoneErasing(ss[i])
    ensures i > 0 && Inv(ss[i - 1]) && Next(ss[i - 1], ss[i])
  {
    RunInv(ss, i - 1);
    assert StepAt(ss, i - 1);
  }

  lemma RunErasing(ss: seq<State>, i: nat)
    requires Run(ss) && OneAtATime(ss) && i < |ss| && !NoneErasing(ss[i])
    ensures i > 0 && ss[i].log != [] && Decodes(ss[i].disk, TreeNow(ss[i - 1]))
    ensures ss[i].log[..|ss[i].log| - 1] == ss[i - 1].log
  {
    RunStep(ss, i);
    assert Alone(ss[i - 1]) && Alone(ss[i]);
    ErasingTree(ss[i - 1], ss[i]);
  }

  lemma LogBefore(ss: seq<State>, i: nat)
    requires Run(ss) && 0 < i < |ss| && ss[i].log != [] && ss[i].log[..|ss[i].log| - 1] == ss[i - 1].log
    ensures Serial(TreeNow(ss[0]), ss[i].log[..|ss[i].log| - 1], TreeNow(ss[i - 1]))
  {
    DiskShowsTree(ss, i - 1, ss[i].log[..|ss[i].log| - 1]);
  }

  /** After any prefix of a request's writes the disk is a tree: what the requests that have taken effect
      have made of the first one, or, while a delete has its write to do, what those before it have. */
  lemma CrashAtomic(ss: seq<State>, i: nat)
    requires Run(ss) && OneAtATime(ss) && i < |ss|
    ensures Serial(TreeNow(ss[0]), ss[i].log, TreeNow(ss[i]))
    ensures Decodes(ss[i].disk, TreeNow(ss[i])) ||
      (i > 0 && ss[i].log != [] && Decodes(ss[i].disk, TreeNow(ss[i - 1]))
       && Serial(TreeNow(ss[0]), ss[i].log[..|ss[i].log| - 1], TreeNow(ss[i - 1])))
  {
    DiskShowsTree(ss, i, ss[i].log);
    if !NoneErasing(ss[i]) {
      RunErasing(ss, i);
      LogBefore(ss, i);
    }
  }

  // ----- locks -----

  /** The mutexes a request has locked are those its progress calls for, and with its answer it has none. */
  lemma LocksExactly(ss: seq<State>, i: nat, r: nat, p: Path)
    requires Run(ss) && i < |ss|
    ensures p in ss[i].held && ss[i].held[p] == r <==> HoldsPath(ss[i], r, p)
    ensures r in ss[i].done ==> !(p in ss[i].held && ss[i].held[p] == r)
  {
    RunInv(ss, i);
    if p in ss[i].held && ss[i].held[p] == r { assert ss[i].jobs[r].req.path != []; }
  }

  /** A request that waits for no mutex, or for one that is free, can go on. */
  ghost predicate Ready(s: State, r: nat) {
    r in s.jobs && (s.jobs[r].phase.Waiting? && s.jobs[r].phase.k <= |s.jobs[r].req.path| ==>
                      s.jobs[r].req.path[..s.jobs[r].phase.k] !in s.held)
  }

  /** Mutexes are locked from the root down: whoever holds the one a request waits for waits further down. */
  lemma Deeper(s: State, r: nat, q: nat)
    requires Inv(s) && r in s.jobs && s.jobs[r].phase.Waiting? && s.jobs[r].phase.k <= |s.jobs[r].req.path|
    requires s.jobs[r].req.path[..s.jobs[r].phase.k] in s.held && q == s.held[s.jobs[r].req.path[..s.jobs[r].phase.k]]
    ensures q in s.jobs && q != r && (s.jobs[q].phase.Waiting? ==> s.jobs[q].phase.k == s.jobs[r].phase.k + 1)
  {
    var p := s.jobs[r].req.path[..s.jobs[r].phase.k];
    assert p in Holds(s.jobs[q]) && |p| == s.jobs[r].phase.k;
  }

  ghost predicate Shorter(s: State, n: nat) {
    forall r {:trigger s.jobs[r]} :: r in s.jobs ==> |s.jobs[r].req.path| < n
  }

  lemma {:induction false} Longest(jobs: map<nat, Job>) returns (n: nat)
    ensures forall r {:trigger jobs[r]} :: r in jobs ==> |jobs[r].req.path| < n
    decreases jobs
  {
    if jobs == map[] { n := 0; } else {
      var r :| r in jobs;
      var rest := jobs - {r};
      n := Longest(rest);
      if n <= |jobs[r].req.path| { n := |jobs[r].req.path| + 1; }
      forall q | q in jobs ensures |jobs[q].req.path| < n { if q != r { assert rest[q] == jobs[q]; } }
    }
  }

  lemma {:induction false} FindReady(s: State, r: nat, n: nat) returns (q: nat)
    requires Inv(s) && r in s.jobs && Shorter(s, n)
    ensures Ready(s, q)
    decreases n - if s.jobs[r].phase.Waiting? then s.jobs[r].phase.k else n
  {
    if Ready(s, r) { return r; }
    q := s.held[s.jobs[r].req.path[..s.jobs[r].phase.k]];
    Deeper(s, r, q);
    assert JobOk(s.view, s.x, r, s.jobs[r]);
    if s.jobs[q].phase.Waiting? {
      assert JobOk(s.view, s.x, q, s.jobs[q]);
      q := FindReady(s, q, n);
    }
  }

  ghost predicate CanStep(s: State, r: nat) {
    r in s.jobs && Is(s, r, s.jobs[r]) && exists t {:trigger Step(s, r, s.jobs[r], t)} :: Step(s, r, s.jobs[r], t)
  }

  lemma Steps(s: State, r: nat, j: Job, t: State)
    requires Is(s, r, j) && Step(s, r, j, t)
    ensures CanStep(s, r)
  {}

  /** The first unused slot, if there is one. */
  lemma {:induction false} FirstSlot(d: Disk, ino: Block, i: nat, l: nat) returns (m: nat, n: nat)
    requires ino.Inode? && UnusedAt(d, ino, i, l)
    ensures FirstUnused(d, ino, m, n)
    decreases i, l
  {
    if a: nat, b: nat :| UnusedAt(d, ino, a, b) && (a < i || (a == i && b < l)) {
      m, n := FirstSlot(d, ino, a, b);
    } else {
      m, n := i, l;
    }
  }

  lemma WalkSteps(s: State, r: nat, j: Job)
    requires Inv(s) && Is(s, r, j) && Ready(s, r)
    requires j.phase.Waiting? || j.phase.Entering? || (j.phase.At? && j.phase.k < Goal(j.req))
    ensures CanStep(s, r)
  {
    assert JobOk(s.view, s.x, r, j);
    var k := j.phase.k;
    if j.phase.Waiting? {
      var p := j.req.path[..k];
      var t := SetPhase(s, r, Entering(k, j.phase.block, j.phase.above)).(held := s.held[p := r], keys := s.keys + {p});
      assert LockStep(s, r, j, t);
      Steps(s, r, j, t);
    } else if j.phase.Entering? {
      var a := SetPhase(s, r, At(k, j.phase.block, j.phase.above));
      var t := if k == 0 || (j.req.Delete? && k == |j.req.path|) then a else a.(held := s.held - {j.req.path[..k - 1]});
      assert PassStep(s, r, j, t);
      Steps(s, r, j, t);
    } else {
      LookSteps(s, r, j);
    }
  }

  lemma LookSteps(s: State, r: nat, j: Job)
    requires Inv(s) && Is(s, r, j) && j.phase.At? && j.phase.k < Goal(j.req)
    ensures CanStep(s, r)
  {
    var k, ino := j.phase.k, InodeAt(s.disk, j.phase.block);
    if i: nat, l: nat, c: nat :| HasEntry(s.disk, ino, j.req.path[k], i, l, c) {
      var t := if !ino.dir || (j.phase.block != ROOT_BLOCK && ino.owner != j.req.user)
               then Refuse(s, r, Kept(j.req, k), Failed)
               else SetPhase(s, r, Waiting(k + 1, c, Above(j.phase.block, ino, i, l, TableAt(s.disk, ino.blocks[i]))));
      assert LookStep(s, r, j, t);
      Steps(s, r, j, t);
    } else {
      assert NoEntry(s.disk, ino, j.req.path[k]);
      assert LookStep(s, r, j, Refuse(s, r, Kept(j.req, k), Failed));
      Steps(s, r, j, Refuse(s, r, Kept(j.req, k), Failed));
    }
  }

  lemma FileSteps(s: State, r: nat, j: Job)
    requires Inv(s) && Is(s, r, j)
    requires (j.phase.At? && j.phase.k == Goal(j.req) && (j.req.Read? || j.req.Write?)) || j.phase.Growing?
      || j.phase.Filling? || j.phase.Chaining?
    ensures CanStep(s, r)
  {
    assert JobOk(s.view, s.x, r, j);
    if j.phase.Growing? {
      if s.free == {} { assert GrowStep(s, r, j, Refuse(s, r, {j.req.path}, NoSpace));
        Steps(s, r, j, Refuse(s, r, {j.req.path}, NoSpace)); }
      else {
        var b :| b in s.free;
        var t := SetPhase(TakeBlock(s, r, b), r, Filling(j.phase.block, j.phase.ino, b));
        assert GrowStep(s, r, j, t);
        Steps(s, r, j, t);
      }
    } else if j.phase.Filling? {
      var t := SetPhase(Put(s, j.phase.data, Data(j.req.data)), r, Chaining(j.phase.block, j.phase.ino, j.phase.data));
      assert FillStep(s, r, j, t);
      Steps(s, r, j, t);
    } else if j.phase.Chaining? {
      var w := Put(s, j.phase.block, Appended(j.phase.ino, j.phase.data));
      var t := Refuse(w.(x := Given(s.x, j.req.path, |j.phase.ino.blocks|, j.phase.data)), r, {j.req.path}, Done);
      assert ChainStep(s, r, j, t);
      Steps(s, r, j, t);
    } else { GoalSteps(s, r, j); }
  }

  lemma GoalSteps(s: State, r: nat, j: Job)
    requires Inv(s) && Is(s, r, j) && j.phase.At? && j.phase.k == Goal(j.req) && (j.req.Read? || j.req.Write?)
    ensures CanStep(s, r)
  {
    var ino, locks := InodeAt(s.disk, j.phase.block), Kept(j.req, j.phase.k);
    if j.req.Read? {
      var t := if ino.owner != j.req.user || ino.dir || j.req.block >= |ino.blocks| then Refuse(s, r, locks, Failed)
               else Refuse(s, r, locks, Bytes(DataAt(s.disk, ino.blocks[j.req.block])));
      assert ReadStep(s, r, j, t);
      Steps(s, r, j, t);
    } else {
      var t := if |j.req.data| != FS_BLOCKSIZE || j.req.block >= FS_MAXFILEBLOCKS || ino.owner != j.req.user
        || ino.dir || j.req.block > |ino.blocks|
               then Refuse(s, r, locks, Failed)
               else if j.req.block < |ino.blocks|
                 then Refuse(Put(s, ino.blocks[j.req.block], Data(j.req.data)), r, {j.req.path}, Done)
               else SetPhase(s, r, Growing(j.phase.block, ino));
      assert WriteStep(s, r, j, t);
      Steps(s, r, j, t);
    }
  }

  lemma MakeSteps(s: State, r: nat, j: Job)
    requires Inv(s) && Is(s, r, j)
    requires j.phase.NeedTable? || j.phase.NeedInode? || j.phase.PutInode? || j.phase.PutTable? || j.phase.PutParent?
    ensures CanStep(s, r)
  {
    assert JobOk(s.view, s.x, r, j);
    var f := j.phase;
    if f.NeedTable? || f.NeedInode? { BlockSteps(s, r, j); }
    else if f.PutInode? {
      var t := SetPhase(Put(s, f.inode, Inode(j.req.dir, j.req.user, [])), r, PutTable(f.block, f.ino, f.place,
        f.inode));
      assert PutInodeStep(s, r, j, t);
      Steps(s, r, j, t);
    } else if f.PutTable? {
      var w := Put(s, f.place.table, Table(f.place.entries[f.place.slot := Entry(Last(j.req.path), f.inode)]));
      var t := if f.place.grown then SetPhase(w, r, PutParent(f.block, f.ino, f.place, f.inode))
               else
                 var x := Linked(s.x, j.req.path, Spot(f.inode, f.place.index, f.place.slot));
                 SetPhase(Committed(w.(x := x), r, Done), r, AddKey);
      assert PutTableStep(s, r, j, t);
      Steps(s, r, j, t);
    } else {
      var w, given := Put(s, f.block, Appended(f.ino, f.place.table)), Given(s.x, Parent(j.req.path),
        |f.ino.blocks|, f.place.table);
      var x := Linked(given, j.req.path, Spot(f.inode, |f.ino.blocks|, 0));
      var t := SetPhase(Committed(w.(x := x), r, Done), r, AddKey);
      assert PutParentStep(s, r, j, t);
      Steps(s, r, j, t);
    }
  }

  lemma BlockSteps(s: State, r: nat, j: Job)
    requires Inv(s) && Is(s, r, j) && (j.phase.NeedTable? || j.phase.NeedInode?) && j.phase.ino.Inode?
    ensures CanStep(s, r)
  {
    var f := j.phase;
    if s.free == {} {
      if f.NeedTable? {
        assert TableStep(s, r, j, Refuse(s, r, {Parent(j.req.path)}, NoSpace));
        Steps(s, r, j, Refuse(s, r, {Parent(j.req.path)}, NoSpace));
      } else {
        var w := if f.place.grown then s.(x := s.x.(use := s.x.use[f.place.table := Lost])) else s;
        assert InodeStep(s, r, j, Refuse(w, r, {Parent(j.req.path)}, NoSpace));
        Steps(s, r, j, Refuse(w, r, {Parent(j.req.path)}, NoSpace));
      }
    } else {
      var b :| b in s.free;
      if f.NeedTable? {
        var place := Place(b, |f.ino.blocks|, 0, Unused(), true);
        var t := SetPhase(TakeBlock(s, r, b), r, NeedInode(f.block, f.ino, place));
        assert TableStep(s, r, j, t);
        Steps(s, r, j, t);
      } else {
        var t := SetPhase(TakeBlock(s, r, b), r, PutInode(f.block, f.ino, f.place, b));
        assert InodeStep(s, r, j, t);
        Steps(s, r, j, t);
      }
    }
  }

  lemma CreateSteps(s: State, r: nat, j: Job)
    requires Inv(s) && Is(s, r, j) && j.phase.At? && j.phase.k == Goal(j.req) && j.req.Create?
    ensures CanStep(s, r)
  {
    var ino, b, locks := InodeAt(s.disk, j.phase.block), j.phase.block, Kept(j.req, j.phase.k);
    if !ino.dir || (ino.owner != j.req.user && b != ROOT_BLOCK) || !NoEntry(s.disk, ino, Last(j.req.path)) {
      assert CreateStep(s, r, j, Refuse(s, r, locks, Failed));
      Steps(s, r, j, Refuse(s, r, locks, Failed));
    } else if NoneUnused(s.disk, ino) {
      var t := if |ino.blocks| >= FS_MAXFILEBLOCKS then Refuse(s, r, locks, NoSpace)
        else SetPhase(s, r, NeedTable(b, ino));
      assert CreateStep(s, r, j, t);
      Steps(s, r, j, t);
    } else {
      var a: nat, c: nat :| UnusedAt(s.disk, ino, a, c);
      var i, l := FirstSlot(s.disk, ino, a, c);
      var t := SetPhase(s, r, NeedInode(b, ino, Place(ino.blocks[i], i, l, TableAt(s.disk, ino.blocks[i]), false)));
      assert CreateStep(s, r, j, t);
      Steps(s, r, j, t);
    }
  }

  lemma EndSteps(s: State, r: nat, j: Job)
    requires Inv(s) && Is(s, r, j)
    requires (j.phase.At? && j.phase.k == Goal(j.req) && j.req.Delete?) || Decided(j.phase)
    ensures CanStep(s, r)
  {
    if j.phase.At? { DeleteSteps(s, r, j); }
    else if j.phase.AddKey? {
      var t := SetPhase(s, r, Leaving({Parent(j.req.path)}, Done)).(keys := s.keys + {j.req.path});
      assert KeyStep(s, r, j, t);
      Steps(s, r, j, t);
    } else if j.phase.Erasing? {
      var t := SetPhase(s, r, Leaving({Parent(j.req.path)}, Done)).(disk := s.disk[j.phase.block := j.phase.content]);
      assert EraseStep(s, r, j, t);
      Steps(s, r, j, t);
    } else {
      var t := s.(held := s.held - j.phase.locks, jobs := s.jobs - {r},
                  done := s.done[r := Answer(j.req, j.phase.reply)]);
      assert LeaveStep(s, r, j, t);
      Steps(s, r, j, t);
    }
  }

  lemma DeleteSteps(s: State, r: nat, j: Job)
    requires Inv(s) && Is(s, r, j) && j.phase.At? && j.phase.k == Goal(j.req) && j.req.Delete?
    ensures CanStep(s, r)
  {
    assert JobOk(s.view, s.x, r, j);
    WholePath(j.req.path);
    var ino, a, p := InodeAt(s.disk, j.phase.block), j.phase.above, j.req.path;
    if ino.owner != j.req.user || (ino.dir && ino.blocks != []) {
      assert DeleteStep(s, r, j, Refuse(s, r, Kept(j.req, j.phase.k), Failed));
      Steps(s, r, j, Refuse(s, r, Kept(j.req, j.phase.k), Failed));
    } else {
      var e := Erasure(a, Last(p));
      var t := SetPhase(Committed(s, r, Done), r, Erasing(e.0, e.1)).(
        free := s.free + Reclaimed(j.phase.block, ino, a), held := s.held - {p}, keys := s.keys - {p},
        view := s.view[e.0 := e.1], x := Removed(s.x, p, a));
      assert DeleteStep(s, r, j, t);
      Steps(s, r, j, t);
    }
  }

  lemma ReadySteps(s: State, r: nat)
    requires Inv(s) && Ready(s, r)
    ensures CanStep(s, r)
  {
    var j := s.jobs[r];
    assert Is(s, r, j) && JobOk(s.view, s.x, r, j);
    match j.phase
    case Waiting(_, _, _) => WalkSteps(s, r, j);
    case Entering(_, _, _) => WalkSteps(s, r, j);
    case At(k, _, _) =>
      if k < Goal(j.req) { WalkSteps(s, r, j); }
      else if j.req.Create? { CreateSteps(s, r, j); }
      else if j.req.Delete? { EndSteps(s, r, j); }
      else { FileSteps(s, r, j); }
    case Growing(_, _) => FileSteps(s, r, j);
    case Filling(_, _, _) => FileSteps(s, r, j);
    case Chaining(_, _, _) => FileSteps(s, r, j);
    case AddKey => EndSteps(s, r, j);
    case Erasing(_, _) => EndSteps(s, r, j);
    case Leaving(_, _) => EndSteps(s, r, j);
    case _ => MakeSteps(s, r, j);
  }

  /** In no run do the requests wait for each other in a circle: while there are any, one of them can go on. */
  lemma NoDeadlock(ss: seq<State>, i: nat)
    requires Run(ss) && i < |ss| && ss[i].jobs != map[]
    ensures exists r {:trigger CanStep(ss[i], r)} :: CanStep(ss[i], r)
  {
    RunInv(ss, i);
    var s := ss[i];
    var r :| r in s.jobs;
    var n := Longest(s.jobs);
    var q := FindReady(s, r, n);
    ReadySteps(s, q);
  }

  /** A delete takes away the mutex of its target while no other request holds it or waits for it. */
  lemma MutexUnwanted(s: State, r: nat, t: State, q: nat)
    requires Inv(s) && r in s.jobs && Is(s, r, s.jobs[r]) && DeleteStep(s, r, s.jobs[r], t)
    requires s.jobs[r].req.path !in t.keys && s.jobs[r].req.path in s.keys && q in s.jobs && q != r
    ensures s.jobs[q].req.path != [] && s.jobs[r].req.path !in Holds(s.jobs[q])
    ensures s.jobs[q].phase.Waiting? && s.jobs[q].phase.k <= |s.jobs[q].req.path| ==>
              s.jobs[q].req.path[..s.jobs[q].phase.k] != s.jobs[r].req.path
  {
    var j, p := s.jobs[r], s.jobs[r].req.path;
    Target(s, r, j, t);
    assert HoldsPath(s, r, p) && HoldsPath(s, r, Parent(p));
    assert p in Holds(s.jobs[q]) <==> HoldsPath(s, q, p);
    WaitsBelow(s, q, p);
  }

  /** Whoever waits for a mutex holds the one above it. */
  lemma WaitsBelow(s: State, q: nat, p: Path)
    requires q in s.jobs && s.jobs[q].req.path != [] && p != []
    ensures
      var k := s.jobs[q].phase;
      k.Waiting? && k.k <= |s.jobs[q].req.path| && s.jobs[q].req.path[..k.k] == p ==> HoldsPath(s, q, Parent(p))
  {
    var k := s.jobs[q].phase;
    if k.Waiting? && 0 < k.k <= |s.jobs[q].req.path| && s.jobs[q].req.path[..k.k] == p {
      assert Parent(p) == s.jobs[q].req.path[..k.k - 1];
    }
  }
}
