/** Delete: what it clears is the target's entry, and what it gives back is what the target used. */
module FsDelete {
  import opened Wrappers
  import opened FsDisk
  import opened FsUpdate
  import opened FsLink
  import opened FsUnlink
  import opened FsTree
  import opened FsSteps
  import opened FsInvariant
  import opened FsSafety

  lemma {:induction false} UsedNone(es: seq<Entry>)
    ensures Used(es) == 0 <==> forall l {:trigger es[l]} :: 0 <= l < |es| ==> es[l].inode == 0
  {
    if es != [] {
      var n := |es| - 1;
      UsedNone(es[..n]);
      if Used(es) == 0 {
        forall l | 0 <= l < |es| ensures es[l].inode == 0 { if l < n { assert es[..n][l].inode == 0; } }
      } else if es[n].inode == 0 {
        var l :| 0 <= l < n && es[..n][l].inode != 0;
        assert es[l].inode != 0;
      }
    }
  }

  /** The entry count tells whether the cleared entry was the last. */
  lemma {:induction false} UsedOne(es: seq<Entry>, j: nat)
    requires j < |es| && es[j].inode != 0
    ensures Used(es) >= 1 && (Used(es) == 1 <==> !OthersUsed(es, j))
  {
    var n := |es| - 1;
    UsedNone(es[..n]);
    if j == n {
      if OthersUsed(es, j) {
        var l :| 0 <= l < |es| && l != j && es[l].inode != 0;
        assert es[..n][l].inode != 0;
      } else {
        forall l | 0 <= l < n ensures es[..n][l].inode == 0 { assert es[l].inode == 0; }
      }
    } else {
      UsedOne(es[..n], j);
      if OthersUsed(es[..n], j) {
        var l :| 0 <= l < n && l != j && es[..n][l].inode != 0;
        assert es[l].inode != 0;
      } else if es[n].inode == 0 {
        forall l | 0 <= l < |es| && l != j ensures es[l].inode == 0 { if l < n { assert es[..n][l].inode == 0; } }
      } else {
        assert es[n].inode != 0;
      }
    }
  }

  /** Only the target's entry has its name. */
  lemma ClearsOne(v: Disk, x: Index, q: Path, a: Above)
    requires WellFormed(v, x) && AboveOk(v, x, q, a)
    ensures a.slot < |a.table| && a.table[a.slot] == Entry(Last(q), x.names[q].inode) && a.ino.dir
    ensures Cleared(a.table, Last(q)) == Erased(a.table, a.slot)
  {
    var p := Parent(q);
    assert PathOk(v, x, q);
    InodeNotZero(v, x, q);
    forall l | 0 <= l < |a.table| && a.table[l].inode != 0 && a.table[l].name == Last(q) ensures l == a.slot {
      assert Entered(v, x, p, a.index, l, a.table[l]);
      ChildOfParent(q);
    }
  }

  ghost predicate Deleting(s: State, r: nat, j: Job, t: State)
    requires Is(s, r, j)
  {
    DeleteStep(s, r, j, t) && t != Refuse(s, r, Kept(j.req, j.phase.k), Failed)
  }

  /** The target was read under its lock, and may be removed. */
  lemma Target(s: State, r: nat, j: Job, t: State)
    requires Inv(s) && Is(s, r, j) && DeleteStep(s, r, j, t)
    ensures AboveOk(s.view, s.x, j.req.path, j.phase.above) && j.req.path in Holds(j) && Parent(j.req.path) in Holds(j)
    ensures InodeAt(s.disk, j.phase.block) == Ino(s.view, s.x, j.req.path)
    ensures s.x.names[j.req.path].inode == j.phase.block
    ensures Walked(s.view, s.x, j.req.user, j.req.path)
    ensures Deleting(s, r, j, t) ==>
      Removable(s.view, s.x, j.req.path) && Ino(s.view, s.x, j.req.path).owner == j.req.user
  {
    WholePath(j.req.path);
    assert JobOk(s.view, s.x, r, j);
    ReadsInode(s, r, j, j.req.path);
  }

  lemma DeleteTree(s: State, r: nat, j: Job, t: State)
    requires Inv(s) && Is(s, r, j) && Deleting(s, r, j, t)
    ensures WellFormed(t.view, t.x) && Patched(s.view, s.x, t.view, t.x, Parent(j.req.path), {})
    ensures TreeOf(t.view, t.x) == TreeOf(s.view, s.x) - {j.req.path}
  {
    var q, p, a := j.req.path, Parent(j.req.path), j.phase.above;
    Target(s, r, j, t);
    ClearsOne(s.view, s.x, q, a);
    InodeNotZero(s.view, s.x, q);
    UsedOne(a.table, a.slot);
    ForgottenForgets(s.x, q);
    LoweredDrops(s.x, p, q, a.index);
    if Used(a.table) == 1 { DropOk(s.view, s.x, p, q, t.view, t.x); } else { UnlinkOk(s.view, s.x, p, q, t.view, t.x); }
  }

  /** Which blocks stay in use. */
  lemma DeleteUse(s: State, r: nat, j: Job, t: State, b: nat)
    requires Inv(s) && Is(s, r, j) && Deleting(s, r, j, t)
    ensures b in t.x.use <==>
      b in s.x.use && b !in Reclaimed(j.phase.block, InodeAt(s.disk, j.phase.block), j.phase.above)
    ensures b in t.x.use && (s.x.use[b].Taken? || t.x.use[b].Taken?) ==> t.x.use[b] == s.x.use[b]
    ensures b in s.x.use && s.x.use[b].Taken? ==> b in t.x.use
  {
    var q, a := j.req.path, j.phase.above;
    Target(s, r, j, t);
    UseAfter(s.view, s.x, q, a, t.x, b);
  }

  /** Which blocks the tree without `q` uses. */
  lemma UseAfter(v: Disk, x: Index, q: Path, a: Above, y: Index, b: nat)
    requires WellFormed(v, x) && AboveOk(v, x, q, a) && Removable(v, x, q) && y == Removed(x, q, a)
    ensures b in y.use <==> b in x.use && b !in Reclaimed(x.names[q].inode, Ino(v, x, q), a)
    ensures b in y.use && (x.use[b].Taken? || y.use[b].Taken?) ==> y.use[b] == x.use[b]
    ensures b in x.use && x.use[b].Taken? ==> b in y.use
    ensures b in Reclaimed(x.names[q].inode, Ino(v, x, q), a) ==> b in x.use
  {
    var p, ino := Parent(q), Ino(v, x, q);
    ForgottenForgets(x, q);
    LoweredDrops(x, p, q, a.index);
    assert UsedBy(x, x.names[q].inode, InodeOf(q)) && UsedBy(x, a.ino.blocks[a.index], BlockOf(p, a.index));
    forall i | 0 <= i < |ino.blocks| ensures UsedBy(x, ino.blocks[i], BlockOf(q, i)) {}
    if b in x.use {
      assert Uses(v, x, b, x.use[b]);
      assert Stays(x, p, q, a.index, b) <==> About(x.use[b]) != Some(q) && x.use[b] != BlockOf(p, a.index);
      if About(x.use[b]) == Some(q) && x.use[b].BlockOf? { assert ino.blocks[x.use[b].index] == b; }
    }
  }

  lemma DeleteSpace(s: State, r: nat, j: Job, t: State)
    requires Inv(s) && Is(s, r, j) && Deleting(s, r, j, t)
    ensures SpaceOk(t) && TakenOk(t) && TakenKept(s.view, s.x, t.view, t.x, r)
  {
    var gone := Reclaimed(j.phase.block, InodeAt(s.disk, j.phase.block), j.phase.above);
    assert t.free == s.free + gone;
    forall b: nat ensures b < FS_DISKSIZE <==> b in t.free || b in t.x.use {
      DeleteUse(s, r, j, t, b);
      if b in gone { GoneInUse(s, r, j, t, b); }
    }
    forall b | b in t.free ensures b !in t.x.use { DeleteUse(s, r, j, t, b); }
    forall b | b in t.x.use && t.x.use[b].Taken?
      ensures t.x.use[b].request in t.jobs && b in TakenBy(t.jobs[t.x.use[b].request].phase)
    {
      DeleteUse(s, r, j, t, b);
      assert b in s.x.use && s.x.use[b].Taken?;
    }
    forall b | b in s.x.use && s.x.use[b].Taken? ensures b in t.x.use && t.x.use[b] == s.x.use[b] {
      DeleteUse(s, r, j, t, b);
    }
    Erases(s, r, j, t);
    TakenApart(s.view, s.x, t.view, t.x, r, t.jobs[r].phase.block, t.jobs[r].phase.content);
  }

  /** What is given back was in use. */
  lemma GoneInUse(s: State, r: nat, j: Job, t: State, b: nat)
    requires Inv(s) && Is(s, r, j) && Deleting(s, r, j, t)
    requires b in Reclaimed(j.phase.block, InodeAt(s.disk, j.phase.block), j.phase.above)
    ensures b in s.x.use
  {
    Target(s, r, j, t);
    UseAfter(s.view, s.x, j.req.path, j.phase.above, t.x, b);
  }

  /** The block still to be written belongs to the directory. */
  lemma Erases(s: State, r: nat, j: Job, t: State)
    requires Inv(s) && Is(s, r, j) && Deleting(s, r, j, t)
    ensures t.jobs[r].phase.Erasing? && t.view == s.view[t.jobs[r].phase.block := t.jobs[r].phase.content]
    ensures t.jobs[r].phase.block in s.x.use && About(s.x.use[t.jobs[r].phase.block]) == Some(Parent(j.req.path))
    ensures t.jobs[r].phase.block in t.x.use && About(t.x.use[t.jobs[r].phase.block]) == Some(Parent(j.req.path))
  {
    var q, p, a := j.req.path, Parent(j.req.path), j.phase.above;
    Target(s, r, j, t);
    assert UsedBy(s.x, a.block, InodeOf(p)) && UsedBy(s.x, a.ino.blocks[a.index], BlockOf(p, a.index));
    ForgottenForgets(s.x, q);
    LoweredDrops(s.x, p, q, a.index);
    assert Stays(s.x, p, q, a.index, a.block);
  }

  lemma DeleteOk(s: State, r: nat, j: Job, t: State)
    requires Inv(s) && Is(s, r, j) && DeleteStep(s, r, j, t)
    ensures Inv(t)
  {
    if t == Refuse(s, r, Kept(j.req, j.phase.k), Failed) { RefuseOk(s, r, j, Kept(j.req, j.phase.k), Failed, t);
      } else {
      DeleteTree(s, r, j, t);
      DeleteSpace(s, r, j, t);
      DeleteNames(s, r, j, t);
      DeleteTables(s, r, j, t);
      DeleteOthers(s, r, j, t);
    }
  }

  lemma DeleteTables(s: State, r: nat, j: Job, t: State)
    requires Inv(s) && Is(s, r, j) && Deleting(s, r, j, t) && t.x.names.Keys == s.x.names.Keys - {j.req.path}
    ensures LocksOk(t) && KeysOk(t) && ViewOk(t)
  {
    Erases(s, r, j, t);
    DeleteHolds(s, r, j, t);
    DeleteLocks(s, r, j, t.jobs[r].phase, t);
    DeleteKeys(s, r, j, t);
    DeleteView(s, r, j, t);
  }

  lemma DeleteHolds(s: State, r: nat, j: Job, t: State)
    requires Is(s, r, j) && Deleting(s, r, j, t) && t.jobs[r].phase.Erasing?
    ensures Holds(j) == {Parent(j.req.path), j.req.path} && t.held == s.held - {j.req.path}
    ensures Moves(s, r, j, t.jobs[r].phase, t)
  {
    WholePath(j.req.path);
  }

  lemma DeleteOthers(s: State, r: nat, j: Job, t: State)
    requires Inv(s) && Is(s, r, j) && Deleting(s, r, j, t) && t.x.names.Keys == s.x.names.Keys - {j.req.path}
    requires WellFormed(t.view, t.x) && Patched(s.view, s.x, t.view, t.x, Parent(j.req.path), {})
    requires TakenKept(s.view, s.x, t.view, t.x, r) && forall q {:trigger Parents(s.x, t.x, q)} :: Parents(s.x, t.x, q)
    ensures JobsOk(t)
  {
    Erases(s, r, j, t);
    DeleteMoves(s, r, j, t);
    DeleteHolds(s, r, j, t);
    CommitOthers(s, t, r, j, t.jobs[r].phase, Parent(j.req.path), {});
  }

  /** What a delete still has to do is as it should be. */
  lemma DeleteMoves(s: State, r: nat, j: Job, t: State)
    requires Is(s, r, j) && Deleting(s, r, j, t) && t.jobs[r].phase.Erasing?
    requires t.view == s.view[t.jobs[r].phase.block := t.jobs[r].phase.content]
    requires t.jobs[r].phase.block in t.x.use && About(t.x.use[t.jobs[r].phase.block]) == Some(Parent(j.req.path))
    ensures Moves(s, r, j, t.jobs[r].phase, t) && JobOk(t.view, t.x, r, Job(j.req, t.jobs[r].phase))
  {}

  lemma DeleteNames(s: State, r: nat, j: Job, t: State)
    requires Inv(s) && Is(s, r, j) && Deleting(s, r, j, t)
    ensures t.x.names.Keys == s.x.names.Keys - {j.req.path}
    ensures forall q {:trigger Parents(s.x, t.x, q)} :: Parents(s.x, t.x, q)
  {
    Target(s, r, j, t);
    ParentsRemain(s.view, s.x, j.req.path, j.phase.above, t.x);
  }

  /** Only `q` goes, and nothing has it as its parent. */
  lemma ParentsRemain(v: Disk, x: Index, q: Path, a: Above, y: Index)
    requires PathsOk(v, x) && Removable(v, x, q) && y == Removed(x, q, a)
    ensures y.names.Keys == x.names.Keys - {q}
    ensures forall r {:trigger Parents(x, y, r)} :: Parents(x, y, r)
  {
    NoChildren(v, x, q);
    forall r ensures Parents(x, y, r) { if r in x.names && r != [] { assert x.names[r] == x.names[r]; } }
  }

  lemma DeleteLocks(s: State, r: nat, j: Job, phase: Phase, t: State)
    requires LocksOk(s) && Moves(s, r, j, phase, t) && phase.Erasing? && Holds(j) == {Parent(j.req.path), j.req.path}
    requires t.held == s.held - {j.req.path} && t.x.names.Keys == s.x.names.Keys - {j.req.path}
    ensures LocksOk(t)
  {
    DeleteRelocked(s, r, j, t);
    RelockedOk(s, t, r, j, phase);
  }

  lemma DeleteRelocked(s: State, r: nat, j: Job, t: State)
    requires LocksOk(s) && Is(s, r, j) && Holds(j) == {Parent(j.req.path), j.req.path}
    requires t.held == s.held - {j.req.path}
    requires t.x.names.Keys == s.x.names.Keys - {j.req.path}
    ensures Relocked(s, t, r, {Parent(j.req.path)})
  {
    var q, p := j.req.path, Parent(j.req.path);
    assert |p| < |q|;
    forall l | l in Holds(j) ensures l in s.held && s.held[l] == r { assert HoldsPath(s, r, l); }
    forall l | l in s.held && s.held[l] == r ensures l in Holds(j) {}
  }

  lemma DeleteKeys(s: State, r: nat, j: Job, t: State)
    requires KeysOk(s) && Is(s, r, j) && Deleting(s, r, j, t) && t.x.names.Keys == s.x.names.Keys - {j.req.path}
    ensures KeysOk(t)
  {
    forall p | p in t.x.names ensures p in t.keys || Unkeyed(t, p) {
      assert p in s.x.names;
      if p !in s.keys {
        var q :| q in s.jobs && s.jobs[q].phase.AddKey? && s.jobs[q].req.path == p;
        assert t.jobs[q] == s.jobs[q];
      }
    }
  }

  lemma DeleteView(s: State, r: nat, j: Job, t: State)
    requires ViewOk(s) && Is(s, r, j) && Deleting(s, r, j, t)
    requires t.jobs[r].phase.Erasing? && t.view == s.view[t.jobs[r].phase.block := t.jobs[r].phase.content]
    ensures ViewOk(t)
  {
    forall b: nat ensures SameBlock(t.disk, t.view, b) || Pends(t, b) {
      if b == t.jobs[r].phase.block { assert Pends(t, b); }
      else if !SameBlock(s.disk, s.view, b) { PendsStays(s, t, r, j, t.jobs[r].phase, b); }
    }
  }

  // ----- the write, and the end -----

  lemma EraseOk(s: State, r: nat, j: Job, t: State)
    requires Inv(s) && Is(s, r, j) && EraseStep(s, r, j, t)
    ensures Inv(t)
  {
    var phase := Leaving({Parent(j.req.path)}, Done);
    assert JobOk(s.view, s.x, r, j);
    SameLocks(s, t, r, j, phase);
    RelockedOk(s, t, r, j, phase);
    EraseView(s, r, j, t);
    KeysStay(s, t, r, j, phase);
    TakenStays(s, t, r, j, phase);
    OthersStay(s, t, r, j, phase);
  }

  lemma EraseView(s: State, r: nat, j: Job, t: State)
    requires ViewOk(s) && Is(s, r, j) && EraseStep(s, r, j, t) && Holding(s.view, j.phase.block, j.phase.content)
    ensures ViewOk(t)
  {
    var phase := Leaving({Parent(j.req.path)}, Done);
    forall b: nat ensures SameBlock(t.disk, t.view, b) || Pends(t, b) {
      if b != j.phase.block && !SameBlock(s.disk, s.view, b) { PendsStays(s, t, r, j, phase, b); }
    }
  }

  lemma LeaveOk(s: State, r: nat, j: Job, t: State)
    requires Inv(s) && Is(s, r, j) && LeaveStep(s, r, j, t)
    ensures Inv(t)
  {
    LeaveLocks(s, r, j, t);
    LeaveJobs(s, r, j, t);
    OthersPend(s, t);
    OthersKeyed(s, t);
  }

  lemma LeaveJobs(s: State, r: nat, j: Job, t: State)
    requires JobsOk(s) && TakenOk(s) && Is(s, r, j) && LeaveStep(s, r, j, t)
    ensures JobsOk(t) && TakenOk(t)
  {
    forall q | q in t.jobs ensures JobOk(t.view, t.x, q, t.jobs[q]) {
      assert t.jobs[q] == s.jobs[q] && JobOk(s.view, s.x, q, s.jobs[q]);
    }
  }

  lemma LeaveLocks(s: State, r: nat, j: Job, t: State)
    requires LocksOk(s) && Is(s, r, j) && LeaveStep(s, r, j, t)
    ensures LocksOk(t)
  {
    forall p | p in s.held && s.held[p] == r ensures p in Holds(j) {}
    forall p | p in t.held ensures t.held[p] in t.jobs && p in Holds(t.jobs[t.held[p]]) {}
    forall q, p | HoldsPath(t, q, p) ensures p in t.held && t.held[p] == q {
      assert HoldsPath(s, q, p) && (p in Holds(j) ==> HoldsPath(s, r, p));
    }
  }

  /** The requests that write for deletes are still there. */
  lemma OthersPend(s: State, t: State)
    requires ViewOk(s) && t.disk == s.disk && t.view == s.view
    requires forall q {:trigger t.jobs[q]} {:trigger s.jobs[q]} :: q in s.jobs && s.jobs[q].phase.Erasing? ==>
               q in t.jobs && t.jobs[q] == s.jobs[q]
    ensures ViewOk(t)
  {
    forall b: nat ensures SameBlock(t.disk, t.view, b) || Pends(t, b) {
      if !SameBlock(s.disk, s.view, b) {
        var q :| q in s.jobs && s.jobs[q].phase.Erasing? && s.jobs[q].phase.block == b;
        assert t.jobs[q] == s.jobs[q];
      }
    }
  }

  lemma OthersKeyed(s: State, t: State)
    requires KeysOk(s) && t.keys == s.keys && t.x.names == s.x.names
    requires forall q {:trigger t.jobs[q]} {:trigger s.jobs[q]} :: q in s.jobs && s.jobs[q].phase.AddKey? ==>
               q in t.jobs && t.jobs[q] == s.jobs[q]
    ensures KeysOk(t)
  {
    forall p | p in t.x.names ensures p in t.keys || Unkeyed(t, p) {
      if p !in s.keys {
        var q :| q in s.jobs && s.jobs[q].phase.AddKey? && s.jobs[q].req.path == p;
        assert t.jobs[q] == s.jobs[q];
      }
    }
  }

  lemma BeginOk(s: State, r: nat, req: Request, t: State)
    requires Inv(s) && BeginStep(s, r, req, t)
    ensures Inv(t)
  {
    BeginJobs(s, r, req, t);
    BeginLocks(s, r, req, t);
    OthersPend(s, t);
    OthersKeyed(s, t);
  }

  lemma BeginJobs(s: State, r: nat, req: Request, t: State)
    requires PathsOk(s.view, s.x) && JobsOk(s) && TakenOk(s) && BeginStep(s, r, req, t)
    ensures JobsOk(t) && TakenOk(t)
  {
    assert req.path[..0] == [] && PathOk(s.view, s.x, []);
    forall q | q in t.jobs ensures JobOk(t.view, t.x, q, t.jobs[q]) {
      if q != r { assert JobOk(s.view, s.x, q, s.jobs[q]); }
    }
  }

  lemma BeginLocks(s: State, r: nat, req: Request, t: State)
    requires LocksOk(s) && BeginStep(s, r, req, t)
    ensures LocksOk(t)
  {
    forall q, p | HoldsPath(t, q, p) ensures p in t.held && t.held[p] == q { assert HoldsPath(s, q, p); }
  }
}
