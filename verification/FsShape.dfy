/** Blocks and directories in every run of the file server. */
module FsShape {
  import opened FsDisk
  import opened FsUpdate
  import opened FsUnlink
  import opened FsTree
  import opened FsSteps
  import opened FsInvariant
  import opened FsSafety
  import opened FsDelete
  import opened FsScan
  import opened FsRun
  import opened FsClaims

  /** The tree with the writes that deletes have still to do, or the disk itself while there are none. */
  ghost predicate Shown(s: State, d: Disk) { d == s.view || (d == s.disk && NoneErasing(s)) }

  lemma ShownView(s: State, d: Disk)
    requires ViewOk(s) && Shown(s, d)
    ensures d == s.view
  {
    if d != s.view { DiskIsView(s); }
  }

  /** No block has two uses: inodes and the blocks they list are all different, and none of them is free. */
  lemma BlocksApart(ss: seq<State>, n: nat, d: Disk, p: Path, i: nat, q: Path, k: nat)
    requires Run(ss) && n < |ss| && Shown(ss[n], d) && p in ss[n].x.names && q in ss[n].x.names
    requires i < |Ino(d, ss[n].x, p).blocks| && k < |Ino(d, ss[n].x, q).blocks|
    ensures Ino(d, ss[n].x, p).blocks[i] == Ino(d, ss[n].x, q).blocks[k] ==> p == q && i == k
    ensures ss[n].x.names[p].inode == ss[n].x.names[q].inode ==> p == q
    ensures ss[n].x.names[p].inode != Ino(d, ss[n].x, q).blocks[k]
    ensures Ino(d, ss[n].x, p).blocks[i] !in ss[n].free && ss[n].x.names[p].inode !in ss[n].free
    ensures Ino(d, ss[n].x, p).blocks[i] < FS_DISKSIZE && ss[n].x.names[p].inode < FS_DISKSIZE
  {
    RunInv(ss, n);
    var s := ss[n];
    ShownView(s, d);
    assert UsedBy(s.x, s.x.names[p].inode, InodeOf(p)) && UsedBy(s.x, s.x.names[q].inode, InodeOf(q));
    assert UsedBy(s.x, Ino(d, s.x, p).blocks[i], BlockOf(p, i)) && UsedBy(s.x, Ino(d, s.x, q).blocks[k], BlockOf(q, k));
  }

  ghost predicate InHand(s: State, b: nat) {
    exists r {:trigger s.jobs[r]} :: r in s.jobs && b in TakenBy(s.jobs[r].phase)
  }

  predicate IsLost(s: State, b: nat) { b in s.x.use && s.x.use[b] == Lost }

  /** A block is free exactly unless the tree uses it, a request has taken it for what it is about to write, or it
      was lost. */
  lemma FreeExactly(ss: seq<State>, n: nat, d: Disk, b: nat)
    requires Run(ss) && n < |ss| && Shown(ss[n], d) && b < FS_DISKSIZE
    ensures b in ss[n].free <==> !Reached(d, ss[n].x, b) && !InHand(ss[n], b) && !IsLost(ss[n], b)
  {
    RunInv(ss, n);
    var s := ss[n];
    ShownView(s, d);
    ReachedUsed(d, s.x, b);
    if InHand(s, b) { HandUsed(s, b); }
    if b !in s.free && s.x.use[b].Taken? { assert b in TakenBy(s.jobs[s.x.use[b].request].phase); }
  }

  /** So while nothing is being served the free set is exactly what the disk does not reach, if and only if no block
      has been lost. */
  lemma FreeAtRest(ss: seq<State>, n: nat)
    requires Run(ss) && n < |ss| && ss[n].jobs == map[]
    ensures
      (forall b: nat {:trigger b in ss[n].free} :: b < FS_DISKSIZE ==>
         (b in ss[n].free <==> !Reached(ss[n].disk, ss[n].x, b)))
      <==> forall b: nat {:trigger IsLost(ss[n], b)} :: b < FS_DISKSIZE ==> !IsLost(ss[n], b)
  {
    forall b: nat | b < FS_DISKSIZE
      ensures b in ss[n].free <==> !Reached(ss[n].disk, ss[n].x, b) && !IsLost(ss[n], b)
      ensures IsLost(ss[n], b) ==> !Reached(ss[n].disk, ss[n].x, b)
    {
      FreeExactly(ss, n, ss[n].disk, b);
      RunLost(ss, n, b);
    }
  }

  lemma RunLost(ss: seq<State>, n: nat, b: nat)
    requires Run(ss) && n < |ss| && NoneErasing(ss[n])
    ensures IsLost(ss[n], b) ==> !Reached(ss[n].disk, ss[n].x, b)
  {
    RunInv(ss, n);
    DiskIsView(ss[n]);
    ReachedUsed(ss[n].disk, ss[n].x, b);
  }

  /** What a request has in hand was taken by it. */
  lemma HandUsed(s: State, b: nat)
    requires JobsOk(s) && InHand(s, b)
    ensures b in s.x.use
  {
    var r :| r in s.jobs && b in TakenBy(s.jobs[r].phase);
    assert JobOk(s.view, s.x, r, s.jobs[r]);
  }

  // ----- the disk while a delete has its write to do -----

  /** A delete gives its target's blocks back before it writes. */
  lemma FreedFirst(s: State, t: State, r: nat)
    requires Inv(s) && Next(s, t) && NoneErasing(s) && r in t.jobs && t.jobs[r].phase.Erasing?
    ensures r in s.jobs && s.jobs[r].req.path in s.x.names && s.x.names[s.jobs[r].req.path].inode in t.free
    ensures t.disk == s.disk
  {
    forall e, req ensures !BeginStep(s, e, req, t) { BeginErases(s, e, req, t, r); }
    var q :| q in s.jobs && Is(s, q, s.jobs[q]) && Step(s, q, s.jobs[q], t);
    StepLog(s, q, s.jobs[q], t);
    assert q == r;
    OnlyDeletes(s, r, s.jobs[r], t);
    Target(s, r, s.jobs[r], t);
  }

  lemma BeginErases(s: State, e: nat, req: Request, t: State, r: nat)
    requires NoneErasing(s)
    ensures BeginStep(s, e, req, t) && r in t.jobs ==> !t.jobs[r].phase.Erasing?
  {
    if r != e && r in s.jobs { assert !s.jobs[r].phase.Erasing?; }
  }

  lemma OnlyDeletes(s: State, r: nat, j: Job, t: State)
    requires Is(s, r, j) && Step(s, r, j, t) && r in t.jobs && t.jobs[r].phase.Erasing? && !Decided(j.phase)
    ensures DeleteStep(s, r, j, t) && t != Refuse(s, r, Kept(j.req, j.phase.k), Failed)
  {
    if WalkStep(s, r, j, t) { WalkErases(s, r, j, t); }
    else if FileStep(s, r, j, t) { FileErases(s, r, j, t); }
    else if MakeStep(s, r, j, t) { MakeErases(s, r, j, t); }
  }

  lemma WalkErases(s: State, r: nat, j: Job, t: State)
    requires Is(s, r, j) && WalkStep(s, r, j, t)
    ensures r in t.jobs && !t.jobs[r].phase.Erasing?
  {
    if LookStep(s, r, j, t) { LookErases(s, r, j, t); }
  }

  lemma LookErases(s: State, r: nat, j: Job, t: State)
    requires Is(s, r, j) && LookStep(s, r, j, t)
    ensures r in t.jobs && !t.jobs[r].phase.Erasing?
  {}

  lemma FileErases(s: State, r: nat, j: Job, t: State)
    requires Is(s, r, j) && FileStep(s, r, j, t)
    ensures r in t.jobs && !t.jobs[r].phase.Erasing?
  {
    if GrowStep(s, r, j, t) { GrowErases(s, r, j, t); }
    else if WriteStep(s, r, j, t) { WriteErases(s, r, j, t); }
    else if ReadStep(s, r, j, t) { ReadErases(s, r, j, t); }
  }

  lemma GrowErases(s: State, r: nat, j: Job, t: State)
    requires Is(s, r, j) && GrowStep(s, r, j, t)
    ensures r in t.jobs && !t.jobs[r].phase.Erasing?
  {}

  lemma WriteErases(s: State, r: nat, j: Job, t: State)
    requires Is(s, r, j) && WriteStep(s, r, j, t)
    ensures r in t.jobs && !t.jobs[r].phase.Erasing?
  {}

  lemma ReadErases(s: State, r: nat, j: Job, t: State)
    requires Is(s, r, j) && ReadStep(s, r, j, t)
    ensures r in t.jobs && !t.jobs[r].phase.Erasing?
  {}

  lemma MakeErases(s: State, r: nat, j: Job, t: State)
    requires Is(s, r, j) && MakeStep(s, r, j, t)
    ensures r in t.jobs && !t.jobs[r].phase.Erasing?
  {
    if CreateStep(s, r, j, t) { CreateErases(s, r, j, t); }
    else if InodeStep(s, r, j, t) { InodeErases(s, r, j, t); }
  }

  lemma CreateErases(s: State, r: nat, j: Job, t: State)
    requires Is(s, r, j) && CreateStep(s, r, j, t)
    ensures r in t.jobs && !t.jobs[r].phase.Erasing?
  {
    var ino, b := InodeAt(s.disk, j.phase.block), j.phase.block;
    if ino.dir && (ino.owner == j.req.user
      || b == ROOT_BLOCK) && NoEntry(s.disk, ino, Last(j.req.path)) && !NoneUnused(s.disk, ino) {
      var i: nat, l: nat :|
        && FirstUnused(s.disk, ino, i, l)
        && t == SetPhase(s, r, NeedInode(b, ino, Place(ino.blocks[i], i, l, TableAt(s.disk, ino.blocks[i]), false)));
    }
  }

  lemma InodeErases(s: State, r: nat, j: Job, t: State)
    requires Is(s, r, j) && InodeStep(s, r, j, t)
    ensures r in t.jobs && !t.jobs[r].phase.Erasing?
  {}

  /** No free block is part of what the disk shows. */
  ghost predicate FreeUnreached(d: Disk, free: set<nat>) {
    exists x {:trigger WellFormed(d, x)} :: WellFormed(d, x) && forall b {:trigger b in free} :: b in free ==>
      !Reached(d, x, b)
  }

  /** So on the disk itself the free set is right exactly while no delete is between its visit to the free set
      and its write. */
  lemma FreeOnDisk(ss: seq<State>, i: nat)
    requires Run(ss) && OneAtATime(ss) && i < |ss|
    ensures FreeUnreached(ss[i].disk, ss[i].free) <==> NoneErasing(ss[i])
  {
    if NoneErasing(ss[i]) { RunFree(ss, i); } else {
      RunStep(ss, i);
      assert Alone(ss[i - 1]) && Alone(ss[i]);
      NotWhenErasing(ss[i - 1], ss[i]);
    }
  }

  lemma RunFree(ss: seq<State>, i: nat)
    requires Run(ss) && i < |ss| && NoneErasing(ss[i])
    ensures FreeUnreached(ss[i].disk, ss[i].free)
  {
    RunInv(ss, i);
    FreeWhenNone(ss[i]);
  }

  lemma FreeWhenNone(s: State)
    requires Inv(s) && NoneErasing(s)
    ensures FreeUnreached(s.disk, s.free)
  {
    DiskIsView(s);
    forall b | b in s.free ensures !Reached(s.disk, s.x, b) { ReachedUsed(s.disk, s.x, b); }
  }

  lemma NotWhenErasing(s: State, t: State)
    requires Inv(s) && Next(s, t) && Alone(s) && Alone(t) && !NoneErasing(t)
    ensures !FreeUnreached(t.disk, t.free)
  {
    var r :| r in t.jobs && t.jobs[r].phase.Erasing?;
    JustDecided(s, t, r);
    FreedFirst(s, t, r);
    DiskIsView(s);
    StillReached(t.disk, s.x, s.jobs[r].req.path, t.free);
  }

  lemma StillReached(d: Disk, x: Index, p: Path, free: set<nat>)
    requires WellFormed(d, x) && p in x.names && x.names[p].inode in free
    ensures !FreeUnreached(d, free)
  {
    forall y | WellFormed(d, y) ensures Reached(d, y, x.names[p].inode) {
      SameSpot(d, x, y, p);
      assert y.names[p].inode == x.names[p].inode;
    }
  }

  /** The one way to lose a block: a create has taken it for a table, and finds none for its inode. */
  lemma LostWhen(s: State, r: nat, j: Job, t: State, b: nat)
    requires Inv(s) && Is(s, r, j) && Step(s, r, j, t) && !IsLost(s, b)
    ensures IsLost(t, b) <==> j.phase.NeedInode? && j.phase.place.grown && s.free == {} && b == j.phase.place.table
  {
    assert JobOk(s.view, s.x, r, j);
    if WalkStep(s, r, j, t) { LostWalk(s, r, j, t); }
    else if FileStep(s, r, j, t) { LostFile(s, r, j, t, b); }
    else if MakeStep(s, r, j, t) { LostMake(s, r, j, t, b); }
    else if DeleteStep(s, r, j, t) { LostDelete(s, r, j, t, b); }
  }

  lemma LostWalk(s: State, r: nat, j: Job, t: State)
    requires Is(s, r, j) && WalkStep(s, r, j, t)
    ensures t.x == s.x && !j.phase.NeedInode?
  {
    if LookStep(s, r, j, t) { LostLook(s, r, j, t); }
  }

  lemma LostLook(s: State, r: nat, j: Job, t: State)
    requires Is(s, r, j) && LookStep(s, r, j, t)
    ensures t.x == s.x && !j.phase.NeedInode?
  {}

  lemma LostFile(s: State, r: nat, j: Job, t: State, b: nat)
    requires Is(s, r, j) && FileStep(s, r, j, t)
    ensures (IsLost(t, b) ==> IsLost(s, b)) && !j.phase.NeedInode?
  {
    if GrowStep(s, r, j, t) {}
  }

  lemma LostMake(s: State, r: nat, j: Job, t: State, b: nat)
    requires Inv(s) && Is(s, r, j) && MakeStep(s, r, j, t) && !IsLost(s, b)
    ensures IsLost(t, b) <==> j.phase.NeedInode? && j.phase.place.grown && s.free == {} && b == j.phase.place.table
  {
    assert JobOk(s.view, s.x, r, j);
    if CreateStep(s, r, j, t) { LostCreate(s, r, j, t); }
    else if InodeStep(s, r, j, t) { LostInode(s, r, j, t, b); }
    else { LostPut(s, r, j, t, b); }
  }

  lemma LostPut(s: State, r: nat, j: Job, t: State, b: nat)
    requires Is(s, r, j)
    requires (TableStep(s, r, j, t) || PutInodeStep(s, r, j, t) || PutTableStep(s, r, j, t)
      || PutParentStep(s, r, j, t))
    ensures !j.phase.NeedInode? && (IsLost(t, b) ==> IsLost(s, b))
  {}

  lemma LostCreate(s: State, r: nat, j: Job, t: State)
    requires Is(s, r, j) && CreateStep(s, r, j, t)
    ensures t.x == s.x
  {}

  lemma LostInode(s: State, r: nat, j: Job, t: State, b: nat)
    requires Inv(s) && Is(s, r, j) && InodeStep(s, r, j, t) && !IsLost(s, b)
    ensures IsLost(t, b) <==> j.phase.place.grown && s.free == {} && b == j.phase.place.table
  {}

  lemma LostDelete(s: State, r: nat, j: Job, t: State, b: nat)
    requires Inv(s) && Is(s, r, j) && DeleteStep(s, r, j, t) && !IsLost(s, b)
    ensures !IsLost(t, b)
  {
    if t != Refuse(s, r, Kept(j.req, j.phase.k), Failed) {
      LoweredDrops(s.x, Parent(j.req.path), j.req.path, j.phase.above.index);
      ForgottenForgets(s.x, j.req.path);
    }
  }

  /** A directory's names are unique, it has at most 124 tables, each with a used entry, and it has no table
      exactly when it is empty. */
  lemma DirectoryShape(ss: seq<State>, n: nat, d: Disk, p: Path, i: nat, j: nat, k: nat, l: nat, e: Entry, f: Entry)
    requires Run(ss) && n < |ss| && Shown(ss[n], d) && p in ss[n].x.names && Ino(d, ss[n].x, p).dir
    requires EntryAt(d, Ino(d, ss[n].x, p), i, j, e) && EntryAt(d, Ino(d, ss[n].x, p), k, l, f)
    ensures e.inode != 0 && f.inode != 0 && e.name == f.name ==> i == k && j == l && e == f
    ensures |Ino(d, ss[n].x, p).blocks| <= FS_MAXFILEBLOCKS
    ensures exists m {:trigger TableAt(d, Ino(d, ss[n].x, p).blocks[i])[m]} ::
              0 <= m < |TableAt(d, Ino(d, ss[n].x, p).blocks[i])|
              && TableAt(d, Ino(d, ss[n].x, p).blocks[i])[m].inode != 0
  {
    RunInv(ss, n);
    var s := ss[n];
    ShownView(s, d);
    assert Entered(d, s.x, p, i, j, e) && Entered(d, s.x, p, k, l, f) && PathOk(d, s.x, p);
    assert TableOk(d, Ino(d, s.x, p).blocks[i]);
    var m :| 0 <= m < FS_DIRENTRIES && d[Ino(d, s.x, p).blocks[i]].entries[m].inode != 0;
    assert TableAt(d, Ino(d, s.x, p).blocks[i])[m].inode != 0;
  }

  lemma EmptyExactly(ss: seq<State>, n: nat, d: Disk, p: Path)
    requires Run(ss) && n < |ss| && Shown(ss[n], d) && p in ss[n].x.names && Ino(d, ss[n].x, p).dir
    ensures Ino(d, ss[n].x, p).blocks == [] <==> forall q :: q in ss[n].x.names && q != [] ==> Parent(q) != p
  {
    RunInv(ss, n);
    ShownView(ss[n], d);
    ChildlessOk(d, ss[n].x, p);
    forall q ensures q in TreeOf(d, ss[n].x) <==> q in ss[n].x.names {}
  }
}
