/** Every step keeps the invariant. */
module FsSafety {
  import opened Wrappers
  import opened FsDisk
  import opened FsUpdate
  import opened FsLink
  import opened FsUnlink
  import opened FsTree
  import opened FsSteps
  import opened FsInvariant

  // ----- steps that leave the disk and its view alone -----

  /** Request `r` goes on to `phase`. */
  ghost predicate Moves(s: State, r: nat, j: Job, phase: Phase, t: State) {
    Is(s, r, j) && t.jobs == s.jobs[r := Job(j.req, phase)]
  }

  ghost predicate SameData(s: State, t: State) {
    t.disk == s.disk && t.view == s.view && t.x == s.x && t.free == s.free
  }

  /** Locks are taken and given back by `r` only, for what its new phase says. */
  ghost predicate Relocked(s: State, t: State, r: nat, locks: set<Path>) {
    && (forall p {:trigger t.held[p]} :: p in t.held ==>
          p in t.x.names &&
          if p in locks then t.held[p] == r else p in s.held && t.held[p] == s.held[p] && s.held[p] != r)
    && (forall p {:trigger p in locks} :: p in locks ==> p in t.held)
    && (forall p {:trigger s.held[p]} :: p in s.held && s.held[p] != r ==> p in t.held && t.held[p] == s.held[p])
  }

  lemma RelockedOk(s: State, t: State, r: nat, j: Job, phase: Phase)
    requires LocksOk(s) && Moves(s, r, j, phase, t) && Relocked(s, t, r, Holds(Job(j.req, phase)))
    ensures LocksOk(t)
  {
    forall q, p | HoldsPath(t, q, p) ensures p in t.held && t.held[p] == q {
      if q != r { assert HoldsPath(s, q, p); }
    }
  }

  /** A request that neither was nor is about to write for a delete. */
  lemma PendsOk(s: State, t: State, r: nat, j: Job, phase: Phase)
    requires ViewOk(s) && Moves(s, r, j, phase, t) && !j.phase.Erasing? && t.disk == s.disk && t.view == s.view
    ensures ViewOk(t)
  {
    forall b: nat ensures SameBlock(t.disk, t.view, b) || Pends(t, b) {
      if !SameBlock(s.disk, s.view, b) { PendsStays(s, t, r, j, phase, b); }
    }
  }

  lemma PendsStays(s: State, t: State, r: nat, j: Job, phase: Phase, b: nat)
    requires Pends(s, b) && Moves(s, r, j, phase, t) && !(j.phase.Erasing? && j.phase.block == b)
    ensures Pends(t, b)
  {
    var q :| q in s.jobs && s.jobs[q].phase.Erasing? && s.jobs[q].phase.block == b;
    assert t.jobs[q] == s.jobs[q];
  }

  lemma KeysStay(s: State, t: State, r: nat, j: Job, phase: Phase)
    requires KeysOk(s) && Moves(s, r, j, phase, t) && !j.phase.AddKey? && t.x.names.Keys == s.x.names.Keys
    requires forall p {:trigger p in t.keys} :: p in t.keys ==> p in t.x.names
    requires s.keys <= t.keys
    ensures KeysOk(t)
  {
    forall p | p in t.x.names ensures p in t.keys || Unkeyed(t, p) {
      if p !in s.keys {
        var q :| q in s.jobs && s.jobs[q].phase.AddKey? && s.jobs[q].req.path == p;
        assert t.jobs[q] == s.jobs[q];
      }
    }
  }

  lemma TakenStays(s: State, t: State, r: nat, j: Job, phase: Phase)
    requires TakenOk(s) && Moves(s, r, j, phase, t) && t.x.use == s.x.use && TakenBy(j.phase) <= TakenBy(phase)
    ensures TakenOk(t)
  {
    forall b | b in t.x.use && t.x.use[b].Taken?
      ensures t.x.use[b].request in t.jobs && b in TakenBy(t.jobs[t.x.use[b].request].phase)
    {
      assert s.x.use[b].request in s.jobs;
    }
  }

  lemma OthersStay(s: State, t: State, r: nat, j: Job, phase: Phase)
    requires JobsOk(s) && Moves(s, r, j, phase, t) && t.view == s.view && t.x == s.x
    requires JobOk(t.view, t.x, r, Job(j.req, phase))
    ensures JobsOk(t)
  {
    forall q | q in t.jobs ensures t.jobs[q].req.path != [] && JobOk(t.view, t.x, q, t.jobs[q]) {
      if q != r { assert t.jobs[q] == s.jobs[q] && JobOk(s.view, s.x, q, s.jobs[q]); }
    }
  }

  lemma QuietOk(s: State, t: State, r: nat, j: Job, phase: Phase)
    requires Inv(s) && Moves(s, r, j, phase, t) && SameData(s, t) && s.keys <= t.keys
    requires !j.phase.Erasing? && !j.phase.AddKey? && TakenBy(j.phase) <= TakenBy(phase)
    requires forall p {:trigger p in t.keys} :: p in t.keys ==> p in t.x.names
    requires Relocked(s, t, r, Holds(Job(j.req, phase))) && JobOk(t.view, t.x, r, Job(j.req, phase))
    ensures Inv(t)
  {
    RelockedOk(s, t, r, j, phase);
    PendsOk(s, t, r, j, phase);
    KeysStay(s, t, r, j, phase);
    TakenStays(s, t, r, j, phase);
    OthersStay(s, t, r, j, phase);
  }

  /** The locks stay as they are. */
  lemma SameLocks(s: State, t: State, r: nat, j: Job, phase: Phase)
    requires LocksOk(s) && Is(s, r, j) && Holds(Job(j.req, phase)) == Holds(j) && t.held == s.held
    requires forall p {:trigger p in s.held} :: p in s.held ==> p in t.x.names
    ensures Relocked(s, t, r, Holds(Job(j.req, phase)))
  {
    forall p | p in Holds(j) ensures p in s.held && s.held[p] == r { assert HoldsPath(s, r, p); }
  }

  // ----- walking -----

  lemma LockOk(s: State, r: nat, j: Job, t: State)
    requires Inv(s) && Is(s, r, j) && LockStep(s, r, j, t)
    ensures Inv(t)
  {
    var k := j.phase.k;
    var phase := Entering(k, j.phase.block, j.phase.above);
    assert JobOk(s.view, s.x, r, j);
    assert j.req.path[..k] in s.x.names;
    LockRelocked(s, r, j, t);
    QuietOk(s, t, r, j, phase);
  }

  lemma LockRelocked(s: State, r: nat, j: Job, t: State)
    requires LocksOk(s) && Is(s, r, j) && LockStep(s, r, j, t) && j.req.path[..j.phase.k] in s.x.names
    ensures Relocked(s, t, r, Holds(Job(j.req, Entering(j.phase.k, j.phase.block, j.phase.above))))
  {
    var k := j.phase.k;
    if k > 0 { assert HoldsPath(s, r, j.req.path[..k - 1]); }
    forall p | p in Holds(Job(j.req, Entering(k, j.phase.block, j.phase.above))) ensures p in t.held && t.held[p] == r {
      assert j.req.path[..0] == [];
    }
    forall p | p in s.held && s.held[p] == r ensures p in Holds(Job(j.req, Entering(k, j.phase.block, j.phase.above))) {
      assert p in Holds(j);
    }
  }

  lemma PassOk(s: State, r: nat, j: Job, t: State)
    requires Inv(s) && Is(s, r, j) && PassStep(s, r, j, t)
    ensures Inv(t)
  {
    var k := j.phase.k;
    assert JobOk(s.view, s.x, r, j);
    PassRelocked(s, r, j, t);
    QuietOk(s, t, r, j, At(k, j.phase.block, j.phase.above));
  }

  lemma PassRelocked(s: State, r: nat, j: Job, t: State)
    requires LocksOk(s) && Is(s, r, j) && PassStep(s, r, j, t)
    ensures Relocked(s, t, r, Holds(Job(j.req, At(j.phase.k, j.phase.block, j.phase.above))))
  {
    var k := j.phase.k;
    var locks := Holds(Job(j.req, At(k, j.phase.block, j.phase.above)));
    assert j.req.path[..0] == [] && locks <= Holds(j);
    if k > 0 { assert |j.req.path[..k - 1]| != |j.req.path[..k]|; }
    forall p | p in Holds(j) ensures p in s.held && s.held[p] == r { assert HoldsPath(s, r, p); }
    forall p | p in t.held && s.held[p] == r ensures p in locks { assert p in Holds(j); }
  }

  // ----- looking -----

  /** What a request has locked it reads as it is. */
  lemma ReadsView(s: State, r: nat, j: Job, p: Path, b: nat)
    requires Inv(s) && Is(s, r, j) && p in Holds(j) && !j.phase.Erasing? && b in s.x.use && About(s.x.use[b]) == Some(p)
    ensures SameBlock(s.disk, s.view, b)
  {
    if !SameBlock(s.disk, s.view, b) {
      assert Pends(s, b);
      var q :| q in s.jobs && s.jobs[q].phase.Erasing? && s.jobs[q].phase.block == b;
      assert JobOk(s.view, s.x, q, s.jobs[q]);
      assert HoldsPath(s, q, p) && HoldsPath(s, r, p);
    }
  }

  lemma ReadsInode(s: State, r: nat, j: Job, p: Path)
    requires Inv(s) && Is(s, r, j) && p in Holds(j) && !j.phase.Erasing? && p in s.x.names
    ensures InodeAt(s.disk, s.x.names[p].inode) == Ino(s.view, s.x, p)
  {
    assert UsedBy(s.x, s.x.names[p].inode, InodeOf(p));
    ReadsView(s, r, j, p, s.x.names[p].inode);
  }

  lemma ReadsBlock(s: State, r: nat, j: Job, p: Path, i: nat)
    requires Inv(s) && Is(s, r, j) && p in Holds(j) && !j.phase.Erasing? && p in s.x.names
    requires i < |Ino(s.view, s.x, p).blocks|
    ensures SameBlock(s.disk, s.view, Ino(s.view, s.x, p).blocks[i])
  {
    assert UsedBy(s.x, Ino(s.view, s.x, p).blocks[i], BlockOf(p, i));
    ReadsView(s, r, j, p, Ino(s.view, s.x, p).blocks[i]);
  }

  lemma ReadsEntry(s: State, r: nat, j: Job, p: Path, name: string, i: nat, l: nat, b: nat)
    requires Inv(s) && Is(s, r, j) && p in Holds(j) && !j.phase.Erasing? && p in s.x.names
    ensures HasEntry(s.disk, Ino(s.view, s.x, p), name, i, l, b) <==>
      HasEntry(s.view, Ino(s.view, s.x, p), name, i, l, b)
  {
    if i < |Ino(s.view, s.x, p).blocks| { ReadsBlock(s, r, j, p, i); }
  }

  lemma ReadsNoEntry(s: State, r: nat, j: Job, p: Path, name: string)
    requires Inv(s) && Is(s, r, j) && p in Holds(j) && !j.phase.Erasing? && p in s.x.names
    ensures NoEntry(s.disk, Ino(s.view, s.x, p), name) <==> NoEntry(s.view, Ino(s.view, s.x, p), name)
  {
    forall i: nat, l: nat, b: nat
      ensures HasEntry(s.disk, Ino(s.view, s.x, p), name, i, l, b) <==>
        HasEntry(s.view, Ino(s.view, s.x, p), name, i, l, b)
    {
      ReadsEntry(s, r, j, p, name, i, l, b);
    }
  }

  /** A request that fails keeps its locks for its last step. */
  lemma RefuseOk(s: State, r: nat, j: Job, locks: set<Path>, reply: Reply, t: State)
    requires Inv(s) && Is(s, r, j) && locks == Holds(j) && !j.phase.Erasing? && !j.phase.AddKey?
    requires TakenBy(j.phase) == {}
    requires t == Refuse(s, r, locks, reply)
    ensures Inv(t)
  {
    SameLocks(s, t, r, j, Leaving(locks, reply));
    QuietOk(s, t, r, j, Leaving(locks, reply));
  }

  lemma LookOk(s: State, r: nat, j: Job, t: State)
    requires Inv(s) && Is(s, r, j) && LookStep(s, r, j, t)
    ensures Inv(t)
  {
    var k, b, p := j.phase.k, j.phase.block, j.req.path[..j.phase.k];
    assert JobOk(s.view, s.x, r, j);
    ReadsInode(s, r, j, p);
    var ino := InodeAt(s.disk, b);
    if t == Refuse(s, r, Kept(j.req, k), Failed) { RefuseOk(s, r, j, Kept(j.req, k), Failed, t); } else {
      var i: nat, l: nat, c: nat :|
        && HasEntry(s.disk, ino, j.req.path[k], i, l, c)
        && t == SetPhase(s, r, Waiting(k + 1, c, Above(b, ino, i, l, TableAt(s.disk, ino.blocks[i]))));
      LookOnOk(s, r, j, i, l, c, t);
    }
  }

  lemma RootBlock(d: Disk, x: Index, p: Path)
    requires WellFormed(d, x) && p in x.names
    ensures x.names[p].inode == ROOT_BLOCK <==> p == []
  {
    assert PathOk(d, x, []) && PathOk(d, x, p);
    assert UsedBy(x, x.names[p].inode, InodeOf(p)) && UsedBy(x, x.names[[]].inode, InodeOf([]));
  }

  lemma LookOnOk(s: State, r: nat, j: Job, i: nat, l: nat, c: nat, t: State)
    requires Inv(s) && Is(s, r, j) && j.phase.At? && j.phase.k < Goal(j.req)
    requires
      var k, b, ino := j.phase.k, j.phase.block, InodeAt(s.disk, j.phase.block);
      && ino.dir && (b == ROOT_BLOCK || ino.owner == j.req.user) && HasEntry(s.disk, ino, j.req.path[k], i, l, c)
      && t == SetPhase(s, r, Waiting(k + 1, c, Above(b, ino, i, l, TableAt(s.disk, ino.blocks[i]))))
    ensures Inv(t)
  {
    var k, b, p := j.phase.k, j.phase.block, j.req.path[..j.phase.k];
    assert JobOk(s.view, s.x, r, j);
    ReadsInode(s, r, j, p);
    var ino := Ino(s.view, s.x, p);
    ReadsEntry(s, r, j, p, j.req.path[k], i, l, c);
    ReadsBlock(s, r, j, p, i);
    var phase := Waiting(k + 1, c, Above(b, ino, i, l, TableAt(s.disk, ino.blocks[i])));
    LookOnAt(s.view, s.x, j, k, p, i, l, c, phase.above);
    SameLocks(s, t, r, j, phase);
    QuietOk(s, t, r, j, phase);
  }

  lemma LookOnAt(v: Disk, x: Index, j: Job, k: nat, p: Path, i: nat, l: nat, c: nat, a: Above)
    requires WellFormed(v, x) && j.req.path != [] && k < Goal(j.req) && p == j.req.path[..k]
    requires Walked(v, x, j.req.user, p)
    requires Ino(v, x, p).dir && (x.names[p].inode == ROOT_BLOCK || Ino(v, x, p).owner == j.req.user)
    requires HasEntry(v, Ino(v, x, p), j.req.path[k], i, l, c)
    requires a == Above(x.names[p].inode, Ino(v, x, p), i, l, TableAt(v, Ino(v, x, p).blocks[i]))
    ensures AtOk(v, x, j, k + 1, c, a)
  {
    EntryOfChild(v, x, p, j.req.path[k], i, l, c);
    RootBlock(v, x, p);
    WalkOn(v, x, j.req.user, p, j.req.path[k]);
    assert Child(p, j.req.path[k]) == j.req.path[..k + 1] && Parent(j.req.path[..k + 1]) == p;
    if k + 1 == |j.req.path| { assert j.req.path[..k + 1] == j.req.path; }
  }

  // ----- blocks that only their request knows -----

  /** The tree does not change. */
  ghost predicate SameTree(v: Disk, x: Index, v2: Disk, x2: Index) {
    x2.names == x.names && forall q {:trigger SameNode(v, x, v2, x2, q)} :: q in x.names ==> SameNode(v, x, v2, x2, q)
  }

  lemma SameTreeOk(v: Disk, x: Index, v2: Disk, x2: Index)
    requires WellFormed(v, x) && SameTree(v, x, v2, x2) && UseOk(v2, x2)
    ensures WellFormed(v2, x2) && TreeOf(v2, x2) == TreeOf(v, x)
  {
    assert SameNode(v, x, v2, x2, []) && PathOk(v, x, []);
    forall q | q in x2.names ensures PathOk(v2, x2, q) { SameTreePath(v, x, v2, x2, q); }
    forall q, i: nat, l: nat, e | q in x2.names && Ino(v2, x2, q).dir ensures Entered(v2, x2, q, i, l, e) {
      assert SameNode(v, x, v2, x2, q);
      SameEntries(v, x, v2, x2, q, i, l, e);
      assert Entered(v, x, q, i, l, e);
    }
    SameTreeNodes(v, x, v2, x2);
  }

  lemma SameTreePath(v: Disk, x: Index, v2: Disk, x2: Index, q: Path)
    requires PathsOk(v, x) && SameTree(v, x, v2, x2) && q in x2.names
    ensures PathOk(v2, x2, q)
  {
    assert PathOk(v, x, q) && SameNode(v, x, v2, x2, q) && SameBlock(v, v2, x.names[q].inode);
    SameList(v, x, v2, x2, q);
    if q != [] {
      assert PathOk(v, x, Parent(q)) && SameNode(v, x, v2, x2, Parent(q));
      SameEntries(v, x, v2, x2, Parent(q), x.names[q].table, x.names[q].slot, Entry(Last(q), x.names[q].inode));
    }
  }

  lemma SameTreeNodes(v: Disk, x: Index, v2: Disk, x2: Index)
    requires SameTree(v, x, v2, x2)
    ensures TreeOf(v2, x2) == TreeOf(v, x)
  {
    forall q | q in x.names ensures NodeAt(v2, Ino(v2, x2, q)) == NodeAt(v, Ino(v, x, q)) {
      assert SameNode(v, x, v2, x2, q);
      SameNodeAt(v, x, v2, x2, q);
    }
  }

  /** The other requests go on as before. */
  lemma OthersOk(s: State, t: State, r: nat, j: Job, phase: Phase)
    requires Inv(s) && Moves(s, r, j, phase, t) && WellFormed(t.view, t.x)
    requires JobOk(t.view, t.x, r, Job(j.req, phase))
    requires forall q {:trigger s.jobs[q]} :: q in s.jobs && q != r ==>
      Steady(s.view, s.x, t.view, t.x, r, Holds(s.jobs[q]))
    ensures JobsOk(t)
  {
    forall q | q in t.jobs ensures t.jobs[q].req.path != [] && JobOk(t.view, t.x, q, t.jobs[q]) {
      if q != r {
        assert t.jobs[q] == s.jobs[q] && JobOk(s.view, s.x, q, s.jobs[q]);
        JobSteady(s.view, s.x, t.view, t.x, r, q, s.jobs[q]);
      }
    }
  }

  lemma HeldExist(s: State, q: nat)
    requires LocksOk(s) && q in s.jobs
    ensures s.jobs[q].req.path != [] && forall p {:trigger p in Holds(s.jobs[q])} :: p in Holds(s.jobs[q]) ==>
      p in s.x.names
  {
    forall p | p in Holds(s.jobs[q]) ensures p in s.x.names { assert HoldsPath(s, q, p) && s.held[p] == q; }
  }

  lemma PrivateOthers(s: State, t: State, r: nat, j: Job, phase: Phase)
    requires Inv(s) && Moves(s, r, j, phase, t) && SameTree(s.view, s.x, t.view, t.x) && WellFormed(t.view, t.x)
    requires TakenKept(s.view, s.x, t.view, t.x, r) && JobOk(t.view, t.x, r, Job(j.req, phase))
    ensures JobsOk(t)
  {
    forall q | q in s.jobs && q != r ensures Steady(s.view, s.x, t.view, t.x, r, Holds(s.jobs[q])) {
      HeldExist(s, q);
      SameSteady(s.view, s.x, t.view, t.x, r, Holds(s.jobs[q]));
    }
    OthersOk(s, t, r, j, phase);
  }

  /** A block leaves the free set. */
  lemma TakeOk(s: State, r: nat, j: Job, b: nat, phase: Phase, t: State)
    requires Inv(s) && Is(s, r, j) && b in s.free && t == SetPhase(TakeBlock(s, r, b), r, phase)
    requires TakenBy(phase) == TakenBy(j.phase) + {b} && Holds(Job(j.req, phase)) == Holds(j)
    requires !j.phase.Erasing? && !j.phase.AddKey? && JobOk(t.view, t.x, r, Job(j.req, phase))
    ensures Inv(t)
  {
    TakeTree(s, r, b, t.x);
    SameTreeOk(s.view, s.x, t.view, t.x);
    SameLocks(s, t, r, j, phase);
    RelockedOk(s, t, r, j, phase);
    PendsOk(s, t, r, j, phase);
    KeysStay(s, t, r, j, phase);
    TakeTaken(s, r, j, b, phase, t);
    PrivateOthers(s, t, r, j, phase);
  }

  lemma TakeTree(s: State, r: nat, b: nat, x2: Index)
    requires WellFormed(s.view, s.x) && SpaceOk(s) && b in s.free && x2 == s.x.(use := s.x.use[b := Taken(r)])
    ensures SameTree(s.view, s.x, s.view, x2) && UseOk(s.view, x2) && TakenKept(s.view, s.x, s.view, x2, r)
  {
    forall q | q in s.x.names
      ensures UsedBy(x2, x2.names[q].inode, InodeOf(q)) && SameNode(s.view, s.x, s.view, x2, q)
    {
      assert UsedBy(s.x, s.x.names[q].inode, InodeOf(q));
    }
    forall q, i: nat | q in x2.names && i < |Ino(s.view, x2, q).blocks|
      ensures UsedBy(x2, Ino(s.view, x2, q).blocks[i], BlockOf(q, i))
    {
      assert UsedBy(s.x, Ino(s.view, s.x, q).blocks[i], BlockOf(q, i));
    }
    forall c | c in x2.use ensures Uses(s.view, x2, c, x2.use[c]) {
      if c != b { assert Uses(s.view, s.x, c, s.x.use[c]); }
    }
  }

  lemma TakeTaken(s: State, r: nat, j: Job, b: nat, phase: Phase, t: State)
    requires SpaceOk(s) && TakenOk(s) && Is(s, r, j) && b in s.free && t == SetPhase(TakeBlock(s, r, b), r, phase)
    requires TakenBy(phase) == TakenBy(j.phase) + {b}
    ensures TakenOk(t) && SpaceOk(t)
  {
    forall c | c in t.x.use && t.x.use[c].Taken?
      ensures t.x.use[c].request in t.jobs && c in TakenBy(t.jobs[t.x.use[c].request].phase)
    {
      if c != b { assert c in s.x.use && s.x.use[c].Taken?; }
    }
  }

  /** A taken block is written. */
  lemma PutOk(s: State, r: nat, j: Job, b: nat, v: Block, phase: Phase, t: State)
    requires Inv(s) && Is(s, r, j) && MyBlock(s.x, r, b) && t == SetPhase(Put(s, b, v), r, phase)
    requires TakenBy(phase) == TakenBy(j.phase) && Holds(Job(j.req, phase)) == Holds(j)
    requires !j.phase.Erasing? && !j.phase.AddKey? && JobOk(t.view, t.x, r, Job(j.req, phase))
    ensures Inv(t)
  {
    PutTree(s, r, b, v, t.view);
    SameTreeOk(s.view, s.x, t.view, t.x);
    SameLocks(s, t, r, j, phase);
    RelockedOk(s, t, r, j, phase);
    PutView(s, r, j, b, v, phase, t);
    KeysStay(s, t, r, j, phase);
    TakenStays(s, t, r, j, phase);
    PrivateOthers(s, t, r, j, phase);
  }

  lemma PutTree(s: State, r: nat, b: nat, v: Block, v2: Disk)
    requires WellFormed(s.view, s.x) && MyBlock(s.x, r, b) && v2 == s.view[b := v]
    ensures SameTree(s.view, s.x, v2, s.x) && UseOk(v2, s.x) && TakenKept(s.view, s.x, v2, s.x, r)
  {
    forall q | q in s.x.names ensures SameNode(s.view, s.x, v2, s.x, q) { Unnoticed(s.view, s.x, q, b, v, s.x); }
    forall q | q in s.x.names ensures Ino(v2, s.x, q) == Ino(s.view, s.x, q) {
      assert SameNode(s.view, s.x, v2, s.x, q);
    }
    UsesKept(s.view, s.x, v2);
  }

  lemma PutView(s: State, r: nat, j: Job, b: nat, v: Block, phase: Phase, t: State)
    requires ViewOk(s) && Is(s, r, j) && !j.phase.Erasing? && t.jobs == s.jobs[r := Job(j.req, phase)]
    requires t.disk == s.disk[b := v] && t.view == s.view[b := v]
    ensures ViewOk(t)
  {
    forall c: nat ensures SameBlock(t.disk, t.view, c) || Pends(t, c) {
      if c != b && !SameBlock(s.disk, s.view, c) { PendsStays(s, t, r, j, phase, c); }
    }
  }

  // ----- steps that take effect -----

  /** Taken blocks of others are neither rewritten nor reused. */
  lemma TakenApart(v: Disk, x: Index, v2: Disk, x2: Index, r: nat, c: nat, content: Block)
    requires v2 == v[c := content] && c in x.use && (About(x.use[c]).Some? || x.use[c] == Taken(r))
    requires forall b {:trigger x2.use[b]} {:trigger x.use[b]} ::
      b in x.use && x.use[b].Taken? && x.use[b].request != r ==>
               b in x2.use && x2.use[b] == x.use[b]
    ensures TakenKept(v, x, v2, x2, r)
  {
    forall b, q | q != r && MyBlock(x, q, b) ensures MyBlock(x2, q, b) && SameBlock(v, v2, b) {}
  }

  /** The others go on after a change under `r`'s lock. */
  lemma CommitOthers(s: State, t: State, r: nat, j: Job, phase: Phase, p: Path, news: set<Path>)
    requires Inv(s) && Moves(s, r, j, phase, t) && p in Holds(j) && WellFormed(t.view, t.x)
    requires Patched(s.view, s.x, t.view, t.x, p, news) && TakenKept(s.view, s.x, t.view, t.x, r)
    requires forall q {:trigger q in t.x.names} :: q in s.x.names && q !in t.x.names ==> q in Holds(j)
    requires forall q {:trigger Parents(s.x, t.x, q)} :: Parents(s.x, t.x, q)
    requires JobOk(t.view, t.x, r, Job(j.req, phase))
    ensures JobsOk(t)
  {
    assert HoldsPath(s, r, p);
    forall q | q in s.jobs && q != r ensures Steady(s.view, s.x, t.view, t.x, r, Holds(s.jobs[q])) {
      HeldExist(s, q);
      forall l | l in Holds(s.jobs[q]) ensures l in t.x.names && l != p {
        assert HoldsPath(s, q, l) && (l in Holds(j) ==> HoldsPath(s, r, l));
      }
      PatchSteady(s.view, s.x, t.view, t.x, r, p, news, Holds(s.jobs[q]));
    }
    OthersOk(s, t, r, j, phase);
  }

  lemma ParentsStay(v: Disk, x: Index, x2: Index)
    requires PathsOk(v, x) && x.names.Keys <= x2.names.Keys
    ensures forall q {:trigger Parents(x, x2, q)} :: Parents(x, x2, q)
  {
    forall q ensures Parents(x, x2, q) { if q in x.names && q != [] { assert PathOk(v, x, q); } }
  }

  lemma ReadOk(s: State, r: nat, j: Job, t: State)
    requires Inv(s) && Is(s, r, j) && ReadStep(s, r, j, t)
    ensures Inv(t)
  {
    var ino, locks := InodeAt(s.disk, j.phase.block), Kept(j.req, j.phase.k);
    if ino.owner != j.req.user || ino.dir || j.req.block >= |ino.blocks| { RefuseOk(s, r, j, locks, Failed, t); } else {
      RefuseOk(s, r, j, locks, Bytes(DataAt(s.disk, ino.blocks[j.req.block])), t);
    }
  }

  lemma WholePath(p: Path)
    ensures p[..|p|] == p
  {}

  lemma WriteOk(s: State, r: nat, j: Job, t: State)
    requires Inv(s) && Is(s, r, j) && WriteStep(s, r, j, t)
    ensures Inv(t)
  {
    var p := j.req.path;
    WholePath(p);
    assert JobOk(s.view, s.x, r, j);
    ReadsInode(s, r, j, p);
    var ino := Ino(s.view, s.x, p);
    if |j.req.data| != FS_BLOCKSIZE || j.req.block >= FS_MAXFILEBLOCKS || ino.owner != j.req.user || ino.dir
      || j.req.block > |ino.blocks| {
      RefuseOk(s, r, j, Kept(j.req, j.phase.k), Failed, t);
    } else if j.req.block < |ino.blocks| {
      OverwriteStepOk(s, r, j, t);
    } else {
      SameLocks(s, t, r, j, Growing(j.phase.block, ino));
      QuietOk(s, t, r, j, Growing(j.phase.block, ino));
    }
  }

  /** A write of file `p` under its lock. */
  lemma FileCommit(s: State, r: nat, j: Job, c: nat, v: Block, phase: Phase, t: State)
    requires Inv(s) && Is(s, r, j) && Moves(s, r, j, phase, t) && j.req.path in Holds(j)
    requires Holds(Job(j.req, phase)) == Holds(j)
    requires !j.phase.Erasing? && !j.phase.AddKey? && t.keys == s.keys && t.held == s.held
    requires t.disk == s.disk[c := v] && t.view == s.view[c := v] && c in s.x.use
    requires About(s.x.use[c]) == Some(j.req.path)
    requires WellFormed(t.view, t.x) && Patched(s.view, s.x, t.view, t.x, j.req.path, {}) && t.x.names == s.x.names
    requires TakenKept(s.view, s.x, t.view, t.x, r) && TakenOk(t) && SpaceOk(t)
    requires JobOk(t.view, t.x, r, Job(j.req, phase))
    ensures Inv(t)
  {
    SameLocks(s, t, r, j, phase);
    RelockedOk(s, t, r, j, phase);
    PutView(s, r, j, c, v, phase, t);
    KeysStay(s, t, r, j, phase);
    ParentsStay(s.view, s.x, t.x);
    CommitOthers(s, t, r, j, phase, j.req.path, {});
  }

  lemma OverwriteStepOk(s: State, r: nat, j: Job, t: State)
    requires Inv(s) && Is(s, r, j) && j.phase.At? && j.phase.k == Goal(j.req) && j.req.Write? && j.req.path in s.x.names
    requires
      var ino := Ino(s.view, s.x, j.req.path);
      && !ino.dir && j.req.block < |ino.blocks|
      && t == Refuse(Put(s, ino.blocks[j.req.block], Data(j.req.data)), r, {j.req.path}, Done)
    ensures Inv(t)
  {
    var p, phase := j.req.path, Leaving({j.req.path}, Done);
    WholePath(p);
    var c := Ino(s.view, s.x, p).blocks[j.req.block];
    assert UsedBy(s.x, c, BlockOf(p, j.req.block));
    OverwriteOk(s.view, s.x, p, j.req.block, j.req.data, t.view);
    TakenStays(s, t, r, j, phase);
    TakenApart(s.view, s.x, t.view, t.x, r, c, Data(j.req.data));
    FileCommit(s, r, j, c, Data(j.req.data), phase, t);
  }

  lemma GrowOk(s: State, r: nat, j: Job, t: State)
    requires Inv(s) && Is(s, r, j) && GrowStep(s, r, j, t)
    ensures Inv(t)
  {
    assert JobOk(s.view, s.x, r, j);
    if s.free == {} { RefuseOk(s, r, j, {j.req.path}, NoSpace, t); } else {
      var b :| b in s.free && t == SetPhase(TakeBlock(s, r, b), r, Filling(j.phase.block, j.phase.ino, b));
      GrowTakes(s, r, j, b, Filling(j.phase.block, j.phase.ino, b), t);
    }
  }

  lemma GrowTakes(s: State, r: nat, j: Job, b: nat, phase: Phase, t: State)
    requires Inv(s) && Is(s, r, j) && j.phase.Growing? && b in s.free && phase == Filling(j.phase.block, j.phase.ino, b)
    requires JobOk(s.view, s.x, r, j) && t == SetPhase(TakeBlock(s, r, b), r, phase)
    ensures Inv(t)
  {
    TakeOk(s, r, j, b, phase, t);
  }

  lemma FillOk(s: State, r: nat, j: Job, t: State)
    requires Inv(s) && Is(s, r, j) && FillStep(s, r, j, t)
    ensures Inv(t)
  {
    var phase := Chaining(j.phase.block, j.phase.ino, j.phase.data);
    assert JobOk(s.view, s.x, r, j);
    assert UsedBy(s.x, s.x.names[j.req.path].inode, InodeOf(j.req.path));
    PutTree(s, r, j.phase.data, Data(j.req.data), t.view);
    PutWalk(s.view, s.x, t.view, j);
    PutOk(s, r, j, j.phase.data, Data(j.req.data), phase, t);
  }

  lemma PutWalk(v: Disk, x: Index, v2: Disk, j: Job)
    requires SameTree(v, x, v2, x)
    ensures forall p {:trigger Ino(v2, x, p)} :: p in x.names ==> Ino(v2, x, p) == Ino(v, x, p)
    ensures forall p {:trigger Walked(v2, x, j.req.user, p)} :: Walked(v, x, j.req.user, p) ==>
      Walked(v2, x, j.req.user, p)
    ensures forall p {:trigger Passed(v2, x, j.req.user, p)} :: Passed(v, x, j.req.user, p) ==>
      Passed(v2, x, j.req.user, p)
  {
    forall p | p in x.names ensures Ino(v2, x, p) == Ino(v, x, p) { assert SameNode(v, x, v2, x, p); }
    forall p | Walked(v, x, j.req.user, p) ensures Walked(v2, x, j.req.user, p) {
      forall k | 0 <= k < |p| ensures Passed(v2, x, j.req.user, p[..k]) { assert Passed(v, x, j.req.user, p[..k]); }
    }
  }

  lemma ChainOk(s: State, r: nat, j: Job, t: State)
    requires Inv(s) && Is(s, r, j) && ChainStep(s, r, j, t)
    ensures Inv(t)
  {
    ChainTree(s, r, j, t);
    ChainTaken(s, r, j, t);
    FileCommit(s, r, j, j.phase.block, Appended(j.phase.ino, j.phase.data), Leaving({j.req.path}, Done), t);
  }

  lemma ChainTree(s: State, r: nat, j: Job, t: State)
    requires Inv(s) && Is(s, r, j) && ChainStep(s, r, j, t)
    ensures WellFormed(t.view, t.x) && Patched(s.view, s.x, t.view, t.x, j.req.path, {})
    ensures TakenKept(s.view, s.x, t.view, t.x, r)
    ensures MyBlock(s.x, r, j.phase.data) && j.phase.block in s.x.use
    ensures About(s.x.use[j.phase.block]) == Some(j.req.path)
  {
    var p, f := j.req.path, j.phase;
    assert JobOk(s.view, s.x, r, j);
    assert UsedBy(s.x, f.block, InodeOf(p));
    AppendOk(s.view, s.x, p, f.data, j.req.data, t.view, t.x);
    TakenApart(s.view, s.x, t.view, t.x, r, f.block, Appended(f.ino, f.data));
  }

  lemma ChainTaken(s: State, r: nat, j: Job, t: State)
    requires Inv(s) && Is(s, r, j) && ChainStep(s, r, j, t) && MyBlock(s.x, r, j.phase.data)
    ensures TakenOk(t) && SpaceOk(t)
  {
    forall c | c in t.x.use && t.x.use[c].Taken?
      ensures t.x.use[c].request in t.jobs && c in TakenBy(t.jobs[t.x.use[c].request].phase)
    {
      assert c in s.x.use && s.x.use[c].Taken? && c != j.phase.data;
    }
  }

  // ----- create -----

  lemma KeptParent(j: Job)
    requires j.req.path != [] && j.req.Create?
    ensures Kept(j.req, Goal(j.req)) == {Parent(j.req.path)} && j.req.path[..Goal(j.req)] == Parent(j.req.path)
  {}

  lemma CreateOk(s: State, r: nat, j: Job, t: State)
    requires Inv(s) && Is(s, r, j) && CreateStep(s, r, j, t)
    ensures Inv(t)
  {
    var p, b, locks := Parent(j.req.path), j.phase.block, Kept(j.req, j.phase.k);
    KeptParent(j);
    assert JobOk(s.view, s.x, r, j);
    ReadsInode(s, r, j, p);
    var ino := Ino(s.view, s.x, p);
    if t == Refuse(s, r, locks, Failed) { RefuseOk(s, r, j, locks, Failed, t); }
    else if t == Refuse(s, r, locks, NoSpace) { RefuseOk(s, r, j, locks, NoSpace, t); }
    else {
      CreateDir(s, r, j, p);
      if NoneUnused(s.disk, ino) {
        SameLocks(s, t, r, j, NeedTable(b, ino));
        QuietOk(s, t, r, j, NeedTable(b, ino));
      } else {
        var i: nat, l: nat :|
          && FirstUnused(s.disk, ino, i, l)
          && t == SetPhase(s, r, NeedInode(b, ino, Place(ino.blocks[i], i, l, TableAt(s.disk, ino.blocks[i]), false)));
        SlotOk(s, r, j, p, i, l, NeedInode(b, ino, Place(ino.blocks[i], i, l, TableAt(s.disk, ino.blocks[i]),
          false)), t);
      }
    }
  }

  lemma SlotOk(s: State, r: nat, j: Job, p: Path, i: nat, l: nat, phase: Phase, t: State)
    requires Inv(s) && Is(s, r, j) && j.phase.At? && j.phase.k == Goal(j.req) && p == Parent(j.req.path)
    requires DirOk(s.view, s.x, j, j.phase.block, Ino(s.view, s.x, p)) && UnusedAt(s.disk, Ino(s.view, s.x, p), i, l)
    requires
      var ino := Ino(s.view, s.x, p);
      phase == NeedInode(j.phase.block, ino, Place(ino.blocks[i], i, l, TableAt(s.disk, ino.blocks[i]), false))
    requires t == SetPhase(s, r, phase)
    ensures Inv(t)
  {
    KeptParent(j);
    ReadsBlock(s, r, j, p, i);
    SameLocks(s, t, r, j, phase);
    QuietOk(s, t, r, j, phase);
  }

  lemma CreateDir(s: State, r: nat, j: Job, p: Path)
    requires Inv(s) && Is(s, r, j) && j.phase.At? && j.phase.k == Goal(j.req) && j.req.Create?
    requires p == Parent(j.req.path)
    requires p in Holds(j) && p in s.x.names && InodeAt(s.disk, j.phase.block) == Ino(s.view, s.x, p)
    requires
      var ino := Ino(s.view, s.x, p);
      && ino.dir && (ino.owner == j.req.user || j.phase.block == ROOT_BLOCK) && NoEntry(s.disk, ino, Last(j.req.path))
    ensures DirOk(s.view, s.x, j, j.phase.block, Ino(s.view, s.x, p))
  {
    KeptParent(j);
    assert JobOk(s.view, s.x, r, j);
    RootBlock(s.view, s.x, p);
    ReadsNoEntry(s, r, j, p, Last(j.req.path));
    NoChild(s.view, s.x, p, Last(j.req.path));
    ChildOfParent(j.req.path);
  }

  lemma TableStepOk(s: State, r: nat, j: Job, t: State)
    requires Inv(s) && Is(s, r, j) && TableStep(s, r, j, t)
    ensures Inv(t)
  {
    assert JobOk(s.view, s.x, r, j);
    if s.free == {} { RefuseOk(s, r, j, {Parent(j.req.path)}, NoSpace, t); } else {
      var b :|
        && b in s.free
        && var place := Place(b, |j.phase.ino.blocks|, 0, Unused(), true);
           t == SetPhase(TakeBlock(s, r, b), r, NeedInode(j.phase.block, j.phase.ino, place));
      var place := Place(b, |j.phase.ino.blocks|, 0, Unused(), true);
      TableTakes(s, r, j, b, NeedInode(j.phase.block, j.phase.ino, place), t);
    }
  }

  lemma TableTakes(s: State, r: nat, j: Job, b: nat, phase: Phase, t: State)
    requires Inv(s) && Is(s, r, j) && j.phase.NeedTable? && j.phase.ino.Inode? && b in s.free
    requires JobOk(s.view, s.x, r, j)
    requires phase == NeedInode(j.phase.block, j.phase.ino, Place(b, |j.phase.ino.blocks|, 0, Unused(), true))
    requires t == SetPhase(TakeBlock(s, r, b), r, phase)
    ensures Inv(t)
  {
    TakeOk(s, r, j, b, phase, t);
  }

  lemma InodeStepOk(s: State, r: nat, j: Job, t: State)
    requires Inv(s) && Is(s, r, j) && InodeStep(s, r, j, t)
    ensures Inv(t)
  {
    var f := j.phase;
    assert JobOk(s.view, s.x, r, j);
    if s.free == {} {
      if f.place.grown { LoseOk(s, r, j, f.place.table, t); }
        else { RefuseOk(s, r, j, {Parent(j.req.path)}, NoSpace, t); }
    } else {
      var b :| b in s.free && t == SetPhase(TakeBlock(s, r, b), r, PutInode(f.block, f.ino, f.place, b));
      InodeTakes(s, r, j, b, PutInode(f.block, f.ino, f.place, b), t);
    }
  }

  lemma InodeTakes(s: State, r: nat, j: Job, b: nat, phase: Phase, t: State)
    requires Inv(s) && Is(s, r, j) && j.phase.NeedInode? && b in s.free && JobOk(s.view, s.x, r, j)
    requires phase == PutInode(j.phase.block, j.phase.ino, j.phase.place, b)
    requires t == SetPhase(TakeBlock(s, r, b), r, phase)
    ensures Inv(t)
  {
    var f := j.phase;
    if !f.place.grown { assert UsedBy(s.x, f.place.table, BlockOf(Parent(j.req.path), f.place.index)); }
    TakeOk(s, r, j, b, phase, t);
  }

  /** The block taken for the table is nobody's any more, and not free either. */
  lemma LoseOk(s: State, r: nat, j: Job, b: nat, t: State)
    requires Inv(s) && Is(s, r, j) && j.phase.NeedInode? && j.phase.place.grown && b == j.phase.place.table
    requires MyBlock(s.x, r, b)
    requires t == Refuse(s.(x := s.x.(use := s.x.use[b := Lost])), r, {Parent(j.req.path)}, NoSpace)
    ensures Inv(t)
  {
    var phase := Leaving({Parent(j.req.path)}, NoSpace);
    LoseTree(s, r, b, t.x);
    SameTreeOk(s.view, s.x, t.view, t.x);
    SameLocks(s, t, r, j, phase);
    RelockedOk(s, t, r, j, phase);
    PendsOk(s, t, r, j, phase);
    KeysStay(s, t, r, j, phase);
    LoseTaken(s, r, j, b, t);
    PrivateOthers(s, t, r, j, phase);
  }

  lemma LoseTree(s: State, r: nat, b: nat, x2: Index)
    requires WellFormed(s.view, s.x) && MyBlock(s.x, r, b) && x2 == s.x.(use := s.x.use[b := Lost])
    ensures SameTree(s.view, s.x, s.view, x2) && UseOk(s.view, x2) && TakenKept(s.view, s.x, s.view, x2, r)
  {
    forall q | q in s.x.names
      ensures UsedBy(x2, x2.names[q].inode, InodeOf(q)) && SameNode(s.view, s.x, s.view, x2, q)
    {
      assert UsedBy(s.x, s.x.names[q].inode, InodeOf(q));
    }
    forall q, i: nat | q in x2.names && i < |Ino(s.view, x2, q).blocks|
      ensures UsedBy(x2, Ino(s.view, x2, q).blocks[i], BlockOf(q, i))
    {
      assert UsedBy(s.x, Ino(s.view, s.x, q).blocks[i], BlockOf(q, i));
    }
    forall c | c in x2.use ensures Uses(s.view, x2, c, x2.use[c]) {
      if c != b { assert Uses(s.view, s.x, c, s.x.use[c]); }
    }
  }

  lemma LoseTaken(s: State, r: nat, j: Job, b: nat, t: State)
    requires SpaceOk(s) && TakenOk(s) && Is(s, r, j) && TakenBy(j.phase) == {b} && b in s.x.use && t.free == s.free
    requires t.x == s.x.(use := s.x.use[b := Lost])
    requires t.jobs == s.jobs[r := Job(j.req, Leaving({Parent(j.req.path)}, NoSpace))]
    ensures TakenOk(t) && SpaceOk(t)
  {
    forall c | c in t.x.use && t.x.use[c].Taken?
      ensures t.x.use[c].request in t.jobs && c in TakenBy(t.jobs[t.x.use[c].request].phase)
    {
      assert c in s.x.use && s.x.use[c].Taken?;
    }
  }

  lemma PutInodeOk(s: State, r: nat, j: Job, t: State)
    requires Inv(s) && Is(s, r, j) && PutInodeStep(s, r, j, t)
    ensures Inv(t)
  {
    var f, v := j.phase, Inode(j.req.dir, j.req.user, []);
    var phase := PutTable(f.block, f.ino, f.place, f.inode);
    assert JobOk(s.view, s.x, r, j);
    PutTree(s, r, f.inode, v, t.view);
    PutWalk(s.view, s.x, t.view, j);
    PutDir(s, r, j, f.inode, t.view);
    PutOk(s, r, j, f.inode, v, phase, t);
  }

  /** The directory and the slot of a create are not touched by its writes to taken blocks. */
  lemma PutDir(s: State, r: nat, j: Job, b: nat, v2: Disk)
    requires Inv(s) && Is(s, r, j) && (j.phase.PutInode? || j.phase.PutTable?) && MyBlock(s.x, r, b) && b in v2
    requires v2 == s.view[b := v2[b]]
    requires SameTree(s.view, s.x, v2, s.x)
    ensures DirOk(v2, s.x, j, j.phase.block, j.phase.ino) && PlaceOk(v2, s.x, r, j.phase.ino, j.phase.place)
  {
    assert JobOk(s.view, s.x, r, j);
    PutWalk(s.view, s.x, v2, j);
    assert SameNode(s.view, s.x, v2, s.x, Parent(j.req.path));
    if !j.phase.place.grown { assert SameBlock(s.view, v2, j.phase.ino.blocks[j.phase.place.index]); }
  }

  /** The new path, and nothing else, becomes known under the lock of its directory. */
  lemma LinkCommit(s: State, r: nat, j: Job, c: nat, v: Block, t: State)
    requires Inv(s) && Is(s, r, j) && Moves(s, r, j, AddKey, t) && Holds(j) == {Parent(j.req.path)} && !j.phase.Erasing?
    requires !j.phase.AddKey?
    requires t.keys == s.keys && t.held == s.held && t.disk == s.disk[c := v] && t.view == s.view[c := v]
    requires WellFormed(t.view, t.x) && Patched(s.view, s.x, t.view, t.x, Parent(j.req.path), {j.req.path})
    requires t.x.names.Keys == s.x.names.Keys + {j.req.path} && TakenKept(s.view, s.x, t.view, t.x, r) && TakenOk(t)
    requires SpaceOk(t)
    ensures Inv(t)
  {
    LinkTables(s, r, j, c, v, t);
    LinkOthers(s, r, j, t);
  }

  lemma LinkTables(s: State, r: nat, j: Job, c: nat, v: Block, t: State)
    requires LocksOk(s) && KeysOk(s) && ViewOk(s) && Moves(s, r, j, AddKey, t) && Holds(j) == {Parent(j.req.path)}
    requires !j.phase.Erasing? && !j.phase.AddKey? && t.keys == s.keys && t.held == s.held
    requires t.disk == s.disk[c := v] && t.view == s.view[c := v] && t.x.names.Keys == s.x.names.Keys + {j.req.path}
    ensures LocksOk(t) && KeysOk(t) && ViewOk(t)
  {
    SameLocks(s, t, r, j, AddKey);
    RelockedOk(s, t, r, j, AddKey);
    PutView(s, r, j, c, v, AddKey, t);
    LinkKeys(s, r, j, t);
  }

  lemma LinkOthers(s: State, r: nat, j: Job, t: State)
    requires Inv(s) && Is(s, r, j) && Moves(s, r, j, AddKey, t) && Holds(j) == {Parent(j.req.path)}
    requires WellFormed(t.view, t.x) && Patched(s.view, s.x, t.view, t.x, Parent(j.req.path), {j.req.path})
    requires t.x.names.Keys == s.x.names.Keys + {j.req.path} && TakenKept(s.view, s.x, t.view, t.x, r)
    ensures JobsOk(t)
  {
    ParentsStay(s.view, s.x, t.x);
    CommitOthers(s, t, r, j, AddKey, Parent(j.req.path), {j.req.path});
  }

  lemma LinkKeys(s: State, r: nat, j: Job, t: State)
    requires KeysOk(s) && Is(s, r, j) && Moves(s, r, j, AddKey, t) && !j.phase.AddKey? && t.keys == s.keys
    requires t.x.names.Keys == s.x.names.Keys + {j.req.path}
    ensures KeysOk(t)
  {
    forall p | p in t.x.names ensures p in t.keys || Unkeyed(t, p) {
      if p == j.req.path { assert t.jobs[r].req.path == p; }
      else if p !in s.keys {
        assert p in s.x.names;
        var q :| q in s.jobs && s.jobs[q].phase.AddKey? && s.jobs[q].req.path == p;
        assert t.jobs[q] == s.jobs[q];
      }
    }
  }

  lemma PutTableOk(s: State, r: nat, j: Job, t: State)
    requires Inv(s) && Is(s, r, j) && PutTableStep(s, r, j, t)
    ensures Inv(t)
  {
    if j.phase.place.grown { GrownTableOk(s, r, j, t); } else {
      EntryTree(s, r, j, t);
      LinkTaken(s, r, j, t);
      LinkCommit(s, r, j, j.phase.place.table, t.view[j.phase.place.table], t);
    }
  }

  lemma GrownTableOk(s: State, r: nat, j: Job, t: State)
    requires Inv(s) && Is(s, r, j) && PutTableStep(s, r, j, t) && j.phase.place.grown
    ensures Inv(t)
  {
    var f := j.phase;
    var v := Table(f.place.entries[f.place.slot := Entry(Last(j.req.path), f.inode)]);
    assert JobOk(s.view, s.x, r, j);
    PutTree(s, r, f.place.table, v, t.view);
    PutDir(s, r, j, f.place.table, t.view);
    PutOk(s, r, j, f.place.table, v, PutParent(f.block, f.ino, f.place, f.inode), t);
  }

  /** The new entry is written to a table of the directory. */
  lemma EntryTree(s: State, r: nat, j: Job, t: State)
    requires Inv(s) && Is(s, r, j) && PutTableStep(s, r, j, t) && !j.phase.place.grown
    ensures WellFormed(t.view, t.x) && Patched(s.view, s.x, t.view, t.x, Parent(j.req.path), {j.req.path})
    ensures TakenKept(s.view, s.x, t.view, t.x, r) && MyBlock(s.x, r, j.phase.inode) && j.req.Create?
    ensures TreeOf(t.view, t.x) == TreeOf(s.view, s.x)[j.req.path := NewNode(j.req.dir, j.req.user)]
  {
    var p, f := Parent(j.req.path), j.phase;
    assert JobOk(s.view, s.x, r, j);
    LinkOk(s.view, s.x, p, f.place.index, f.place.slot, j.req.path, f.inode, j.req.dir, j.req.user, t.view, t.x);
    EntryApart(s, r, j, t);
  }

  lemma EntryApart(s: State, r: nat, j: Job, t: State)
    requires WellFormed(s.view, s.x) && Is(s, r, j) && PutTableStep(s, r, j, t) && !j.phase.place.grown
    requires JobOk(s.view, s.x, r, j)
    ensures TakenKept(s.view, s.x, t.view, t.x, r)
  {
    var p, f := Parent(j.req.path), j.phase;
    assert UsedBy(s.x, f.place.table, BlockOf(p, f.place.index));
    TakenApart(s.view, s.x, t.view, t.x, r, f.place.table, t.view[f.place.table]);
  }

  lemma LinkTaken(s: State, r: nat, j: Job, t: State)
    requires SpaceOk(s) && TakenOk(s) && Is(s, r, j) && PutTableStep(s, r, j, t) && !j.phase.place.grown
    requires MyBlock(s.x, r, j.phase.inode)
    ensures TakenOk(t) && SpaceOk(t)
  {
    forall c | c in t.x.use && t.x.use[c].Taken?
      ensures t.x.use[c].request in t.jobs && c in TakenBy(t.jobs[t.x.use[c].request].phase)
    {
      assert c in s.x.use && s.x.use[c].Taken?;
    }
  }

  lemma PutParentOk(s: State, r: nat, j: Job, t: State)
    requires Inv(s) && Is(s, r, j) && PutParentStep(s, r, j, t)
    ensures Inv(t)
  {
    ParentTree(s, r, j, t);
    ParentTaken(s, r, j, t);
    LinkCommit(s, r, j, j.phase.block, Appended(j.phase.ino, j.phase.place.table), t);
  }

  /** The directory's inode is written with the new table in its list. */
  lemma ParentTree(s: State, r: nat, j: Job, t: State)
    requires Inv(s) && Is(s, r, j) && PutParentStep(s, r, j, t)
    ensures WellFormed(t.view, t.x) && Patched(s.view, s.x, t.view, t.x, Parent(j.req.path), {j.req.path})
    ensures TakenKept(s.view, s.x, t.view, t.x, r) && MyBlock(s.x, r, j.phase.inode)
    ensures MyBlock(s.x, r, j.phase.place.table)
    ensures j.req.Create? && TreeOf(t.view, t.x) == TreeOf(s.view, s.x)[j.req.path := NewNode(j.req.dir, j.req.user)]
  {
    var p, f := Parent(j.req.path), j.phase;
    assert JobOk(s.view, s.x, r, j);
    assert UsedBy(s.x, f.block, InodeOf(p));
    TakenNotRoot(s.view, s.x, f.inode);
    ExtendOk(s.view, s.x, p, f.place.table, j.req.path, f.inode, j.req.dir, j.req.user, t.view, t.x);
    TakenApart(s.view, s.x, t.view, t.x, r, f.block, t.view[f.block]);
  }

  lemma ParentTaken(s: State, r: nat, j: Job, t: State)
    requires SpaceOk(s) && TakenOk(s) && Is(s, r, j) && PutParentStep(s, r, j, t)
    requires MyBlock(s.x, r, j.phase.inode) && MyBlock(s.x, r, j.phase.place.table)
    ensures TakenOk(t) && SpaceOk(t)
  {
    forall c | c in t.x.use && t.x.use[c].Taken?
      ensures t.x.use[c].request in t.jobs && c in TakenBy(t.jobs[t.x.use[c].request].phase)
    {
      assert c in s.x.use && s.x.use[c].Taken?;
    }
  }

  lemma KeyOk(s: State, r: nat, j: Job, t: State)
    requires Inv(s) && Is(s, r, j) && KeyStep(s, r, j, t)
    ensures Inv(t)
  {
    var phase := Leaving({Parent(j.req.path)}, Done);
    assert JobOk(s.view, s.x, r, j);
    SameLocks(s, t, r, j, phase);
    RelockedOk(s, t, r, j, phase);
    PendsOk(s, t, r, j, phase);
    TakenStays(s, t, r, j, phase);
    OthersStay(s, t, r, j, phase);
    KeyKeys(s, r, j, t);
  }

  lemma KeyKeys(s: State, r: nat, j: Job, t: State)
    requires KeysOk(s) && Is(s, r, j) && KeyStep(s, r, j, t) && j.req.path in s.x.names
    ensures KeysOk(t)
  {
    forall p | p in t.x.names ensures p in t.keys || Unkeyed(t, p) {
      if p !in t.keys {
        var q :| q in s.jobs && s.jobs[q].phase.AddKey? && s.jobs[q].req.path == p;
        assert t.jobs[q] == s.jobs[q];
      }
    }
  }
}
