/** Each request takes effect at one step, and there it does to the tree what it should. */
module FsRefine {
  import opened FsDisk
  import opened FsUpdate
  import opened FsLink
  import opened FsUnlink
  import opened FsTree
  import opened FsSteps
  import opened FsInvariant
  import opened FsSafety
  import opened FsDelete

  function TreeNow(s: State): Tree { TreeOf(s.view, s.x) }

  /** Nothing takes effect, and the tree stays; or the request of `r` does, with this reply. */
  ghost predicate TakesEffect(s: State, r: nat, j: Job, t: State) {
    || (t.log == s.log && TreeNow(t) == TreeNow(s))
    || (j.req.path != [] && exists reply {:trigger Commit(r, j.req, reply)} ::
          t.log == s.log + [Commit(r, j.req, reply)] && Serves(TreeNow(s), j.req, TreeNow(t), reply))
  }

  lemma Replied(s: State, r: nat, j: Job, t: State, reply: Reply)
    requires j.req.path != [] && t.log == s.log + [Commit(r, j.req, reply)]
    requires Serves(TreeNow(s), j.req, TreeNow(t), reply)
    ensures TakesEffect(s, r, j, t)
  {}

  /** A walk that cannot go on ends at a path that cannot be reached. */
  lemma LookEffect(s: State, r: nat, j: Job, t: State)
    requires Inv(s) && Is(s, r, j) && LookStep(s, r, j, t)
    ensures TakesEffect(s, r, j, t)
  {
    var k, p := j.phase.k, j.req.path[..j.phase.k];
    assert JobOk(s.view, s.x, r, j);
    ReadsInode(s, r, j, p);
    var ino := Ino(s.view, s.x, p);
    if t == Refuse(s, r, Kept(j.req, k), Failed) {
      RootBlock(s.view, s.x, p);
      if ino.dir && (j.phase.block == ROOT_BLOCK || ino.owner == j.req.user) && NoEntry(s.disk, ino, j.req.path[k]) {
        ReadsNoEntry(s, r, j, p, j.req.path[k]);
        NoChild(s.view, s.x, p, j.req.path[k]);
        assert Child(p, j.req.path[k]) == j.req.path[..k + 1];
      }
      LookRefuses(s, j, k);
      Replied(s, r, j, t, Failed);
    }
  }

  lemma LookRefuses(s: State, j: Job, k: nat)
    requires WellFormed(s.view, s.x) && j.req.path != [] && k < Goal(j.req)
    requires !Passed(s.view, s.x, j.req.user, j.req.path[..k]) || j.req.path[..k + 1] !in s.x.names
    ensures !Allowed(TreeNow(s), j.req)
  {
    var target := if j.req.Create? then Parent(j.req.path) else j.req.path;
    assert target[..k] == j.req.path[..k] && target[..k + 1] == j.req.path[..k + 1];
    if Reaches(TreeNow(s), j.req.user, target) { ReachesPasses(s.view, s.x, j.req.user, target, k); }
  }

  /** At its goal a request knows whether it may go on. */
  lemma AtGoal(s: State, r: nat, j: Job)
    requires Inv(s) && Is(s, r, j) && j.phase.At? && j.phase.k == Goal(j.req)
    ensures
      var p := if j.req.Create? then Parent(j.req.path) else j.req.path;
      && p in Holds(j) && p in s.x.names && s.x.names[p].inode == j.phase.block && Walked(s.view, s.x, j.req.user, p)
      && InodeAt(s.disk, j.phase.block) == Ino(s.view, s.x, p)
      && (Reaches(TreeNow(s), j.req.user, p) <==> p == [] || Ino(s.view, s.x, p).owner == j.req.user)
      && (j.phase.block == ROOT_BLOCK <==> p == [])
  {
    var p := if j.req.Create? then Parent(j.req.path) else j.req.path;
    WholePath(j.req.path);
    assert p == j.req.path[..j.phase.k];
    assert JobOk(s.view, s.x, r, j);
    ReadsInode(s, r, j, p);
    WalkReaches(s.view, s.x, j.req.user, p);
    RootBlock(s.view, s.x, p);
  }

  lemma ReadEffect(s: State, r: nat, j: Job, t: State)
    requires Inv(s) && Is(s, r, j) && ReadStep(s, r, j, t)
    ensures TakesEffect(s, r, j, t)
  {
    AtGoal(s, r, j);
    var p := j.req.path;
    var ino := Ino(s.view, s.x, p);
    if ino.owner != j.req.user || ino.dir || j.req.block >= |ino.blocks| { Replied(s, r, j, t, Failed); } else {
      ReadsBlock(s, r, j, p, j.req.block);
      Replied(s, r, j, t, Bytes(DataAt(s.disk, ino.blocks[j.req.block])));
    }
  }

  lemma WriteEffect(s: State, r: nat, j: Job, t: State)
    requires Inv(s) && Is(s, r, j) && WriteStep(s, r, j, t)
    ensures TakesEffect(s, r, j, t)
  {
    AtGoal(s, r, j);
    var p := j.req.path;
    var ino := Ino(s.view, s.x, p);
    if |j.req.data| != FS_BLOCKSIZE || j.req.block >= FS_MAXFILEBLOCKS || ino.owner != j.req.user || ino.dir
      || j.req.block > |ino.blocks| {
      Replied(s, r, j, t, Failed);
    } else if j.req.block < |ino.blocks| {
      OverwriteEffect(s, r, j, t);
    }
  }

  lemma OverwriteEffect(s: State, r: nat, j: Job, t: State)
    requires WellFormed(s.view, s.x) && Is(s, r, j) && j.req.Write? && j.req.path in s.x.names
    requires Allowed(TreeNow(s), j.req)
    requires
      var ino := Ino(s.view, s.x, j.req.path);
      && !ino.dir && j.req.block < |ino.blocks|
      && t == Refuse(Put(s, ino.blocks[j.req.block], Data(j.req.data)), r, {j.req.path}, Done)
    ensures TakesEffect(s, r, j, t)
  {
    OverwriteOk(s.view, s.x, j.req.path, j.req.block, j.req.data, t.view);
    Replied(s, r, j, t, Done);
  }

  /** A write that has to grow its file is allowed, and needs space. */
  lemma FileAllowed(s: State, r: nat, j: Job, b: nat, ino: Block)
    requires Inv(s) && Is(s, r, j) && FileOk(s.view, s.x, j, b, ino)
    ensures Allowed(TreeNow(s), j.req) && NeedsSpace(TreeNow(s), j.req)
  {
    WalkReaches(s.view, s.x, j.req.user, j.req.path);
  }

  lemma GrowEffect(s: State, r: nat, j: Job, t: State)
    requires Inv(s) && Is(s, r, j) && GrowStep(s, r, j, t)
    ensures TakesEffect(s, r, j, t)
  {
    assert JobOk(s.view, s.x, r, j);
    if s.free == {} {
      FileAllowed(s, r, j, j.phase.block, j.phase.ino);
      Replied(s, r, j, t, NoSpace);
    } else {
      var b :| b in s.free && t == SetPhase(TakeBlock(s, r, b), r, Filling(j.phase.block, j.phase.ino, b));
      TakeTree(s, r, b, t.x);
      SameTreeOk(s.view, s.x, t.view, t.x);
    }
  }

  lemma FillEffect(s: State, r: nat, j: Job, t: State)
    requires Inv(s) && Is(s, r, j) && FillStep(s, r, j, t)
    ensures TakesEffect(s, r, j, t)
  {
    assert JobOk(s.view, s.x, r, j);
    PutTree(s, r, j.phase.data, Data(j.req.data), t.view);
    SameTreeOk(s.view, s.x, t.view, t.x);
  }

  lemma ChainEffect(s: State, r: nat, j: Job, t: State)
    requires Inv(s) && Is(s, r, j) && ChainStep(s, r, j, t)
    ensures TakesEffect(s, r, j, t)
  {
    var f := j.phase;
    assert JobOk(s.view, s.x, r, j);
    FileAllowed(s, r, j, f.block, f.ino);
    AppendOk(s.view, s.x, j.req.path, f.data, j.req.data, t.view, t.x);
    Replied(s, r, j, t, Done);
  }

  /** A create that has found its name unused is allowed. */
  lemma DirAllowed(s: State, r: nat, j: Job, b: nat, ino: Block)
    requires Inv(s) && Is(s, r, j) && DirOk(s.view, s.x, j, b, ino)
    ensures Allowed(TreeNow(s), j.req) && NeedsSpace(TreeNow(s), j.req)
  {
    WalkReaches(s.view, s.x, j.req.user, Parent(j.req.path));
  }

  lemma CreateEffect(s: State, r: nat, j: Job, t: State)
    requires Inv(s) && Is(s, r, j) && CreateStep(s, r, j, t)
    ensures TakesEffect(s, r, j, t)
  {
    var p := Parent(j.req.path);
    AtGoal(s, r, j);
    var ino := Ino(s.view, s.x, p);
    if !ino.dir || (ino.owner != j.req.user && j.phase.block != ROOT_BLOCK) || !NoEntry(s.disk, ino, Last(j.req.path)) {
      CreateRefuses(s, r, j, p);
      Replied(s, r, j, t, Failed);
    } else if NoneUnused(s.disk, ino) && |ino.blocks| >= FS_MAXFILEBLOCKS {
      CreateDir(s, r, j, p);
      DirAllowed(s, r, j, j.phase.block, ino);
      Replied(s, r, j, t, NoSpace);
    }
  }

  lemma CreateRefuses(s: State, r: nat, j: Job, p: Path)
    requires Inv(s) && Is(s, r, j) && j.phase.At? && j.phase.k == Goal(j.req) && j.req.Create?
    requires p == Parent(j.req.path)
    requires p in Holds(j) && p in s.x.names
    requires Reaches(TreeNow(s), j.req.user, p) <==> p == [] || Ino(s.view, s.x, p).owner == j.req.user
    requires j.phase.block == ROOT_BLOCK <==> p == []
    requires
      var ino := Ino(s.view, s.x, p);
      !ino.dir || (ino.owner != j.req.user && j.phase.block != ROOT_BLOCK) || !NoEntry(s.disk, ino, Last(j.req.path))
    ensures !Allowed(TreeNow(s), j.req)
  {
    var ino := Ino(s.view, s.x, p);
    if ino.dir && !NoEntry(s.disk, ino, Last(j.req.path)) {
      ReadsNoEntry(s, r, j, p, Last(j.req.path));
      var i: nat, l: nat, b: nat :| HasEntry(s.view, ino, Last(j.req.path), i, l, b);
      EntryOfChild(s.view, s.x, p, Last(j.req.path), i, l, b);
      ChildOfParent(j.req.path);
    }
  }

  lemma TableEffect(s: State, r: nat, j: Job, t: State)
    requires Inv(s) && Is(s, r, j) && TableStep(s, r, j, t)
    ensures TakesEffect(s, r, j, t)
  {
    assert JobOk(s.view, s.x, r, j);
    if s.free == {} {
      DirAllowed(s, r, j, j.phase.block, j.phase.ino);
      Replied(s, r, j, t, NoSpace);
    } else {
      var b :|
        && b in s.free
        && t == SetPhase(TakeBlock(s, r, b), r, NeedInode(j.phase.block, j.phase.ino, Place(b, |j.phase.ino.blocks|,
          0, Unused(), true)));
      TakeTree(s, r, b, t.x);
      SameTreeOk(s.view, s.x, t.view, t.x);
    }
  }

  lemma InodeEffect(s: State, r: nat, j: Job, t: State)
    requires Inv(s) && Is(s, r, j) && InodeStep(s, r, j, t)
    ensures TakesEffect(s, r, j, t)
  {
    var f := j.phase;
    assert JobOk(s.view, s.x, r, j);
    if s.free == {} {
      DirAllowed(s, r, j, f.block, f.ino);
      if f.place.grown {
        LoseTree(s, r, f.place.table, t.x);
        SameTreeOk(s.view, s.x, t.view, t.x);
      }
      Replied(s, r, j, t, NoSpace);
    } else {
      var b :| b in s.free && t == SetPhase(TakeBlock(s, r, b), r, PutInode(f.block, f.ino, f.place, b));
      TakeTree(s, r, b, t.x);
      SameTreeOk(s.view, s.x, t.view, t.x);
    }
  }

  lemma PutInodeEffect(s: State, r: nat, j: Job, t: State)
    requires Inv(s) && Is(s, r, j) && PutInodeStep(s, r, j, t)
    ensures TakesEffect(s, r, j, t)
  {
    assert JobOk(s.view, s.x, r, j);
    PutTree(s, r, j.phase.inode, Inode(j.req.dir, j.req.user, []), t.view);
    SameTreeOk(s.view, s.x, t.view, t.x);
  }

  lemma PutTableEffect(s: State, r: nat, j: Job, t: State)
    requires Inv(s) && Is(s, r, j) && PutTableStep(s, r, j, t)
    ensures TakesEffect(s, r, j, t)
  {
    var f := j.phase;
    assert JobOk(s.view, s.x, r, j);
    if f.place.grown {
      PutTree(s, r, f.place.table, t.view[f.place.table], t.view);
      SameTreeOk(s.view, s.x, t.view, t.x);
    } else {
      EntryTree(s, r, j, t);
      DirAllowed(s, r, j, f.block, f.ino);
      Replied(s, r, j, t, Done);
    }
  }

  lemma PutParentEffect(s: State, r: nat, j: Job, t: State)
    requires Inv(s) && Is(s, r, j) && PutParentStep(s, r, j, t)
    ensures TakesEffect(s, r, j, t)
  {
    assert JobOk(s.view, s.x, r, j);
    ParentTree(s, r, j, t);
    DirAllowed(s, r, j, j.phase.block, j.phase.ino);
    Replied(s, r, j, t, Done);
  }

  lemma DeleteEffect(s: State, r: nat, j: Job, t: State)
    requires Inv(s) && Is(s, r, j) && DeleteStep(s, r, j, t)
    ensures TakesEffect(s, r, j, t)
  {
    AtGoal(s, r, j);
    var p := j.req.path;
    var ino := Ino(s.view, s.x, p);
    if ino.dir { ChildlessOk(s.view, s.x, p); }
    if ino.owner != j.req.user || (ino.dir && ino.blocks != []) { Replied(s, r, j, t, Failed); } else {
      DeleteTree(s, r, j, t);
      Replied(s, r, j, t, Done);
    }
  }
}
