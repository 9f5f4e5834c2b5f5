/** What holds between any two steps of any number of requests. */
module FsInvariant {
  import opened Wrappers
  import opened FsDisk
  import opened FsUpdate
  import opened FsLink
  import opened FsUnlink
  import opened FsTree
  import opened FsSteps

  /** The free set is the complement of the blocks in use; lost blocks count as used. */
  ghost predicate SpaceOk(s: State) {
    && (forall b: nat {:trigger b in s.free} {:trigger b in s.x.use} :: b < FS_DISKSIZE <==>
      b in s.free || b in s.x.use)
    && (forall b {:trigger b in s.free} :: b in s.free ==> b !in s.x.use)
  }

  ghost predicate Pends(s: State, b: nat) {
    exists r {:trigger s.jobs[r]} :: r in s.jobs && s.jobs[r].phase.Erasing? && s.jobs[r].phase.block == b
  }

  /** The disk differs from its view only where a delete has its write still to do. */
  ghost predicate ViewOk(s: State) {
    forall b: nat {:trigger SameBlock(s.disk, s.view, b)} :: SameBlock(s.disk, s.view, b) || Pends(s, b)
  }

  /** A mutex is locked by the request whose phase says so; only paths that exist are locked. */
  ghost predicate LocksOk(s: State) {
    && (forall r {:trigger s.jobs[r]} :: r in s.jobs ==> s.jobs[r].req.path != [])
    && (forall p {:trigger s.held[p]} :: p in s.held ==>
      s.held[p] in s.jobs && p in s.x.names && p in Holds(s.jobs[s.held[p]]))
    && (forall r, p {:trigger HoldsPath(s, r, p)} :: HoldsPath(s, r, p) ==> p in s.held && s.held[p] == r)
  }

  ghost predicate HoldsPath(s: State, r: nat, p: Path) {
    r in s.jobs && s.jobs[r].req.path != [] && p in Holds(s.jobs[r])
  }

  ghost predicate Unkeyed(s: State, p: Path) {
    exists r {:trigger s.jobs[r]} :: r in s.jobs && s.jobs[r].phase.AddKey? && s.jobs[r].req.path == p
  }

  /** blocks_locks has a key for every path, but for one whose create is about to add it. */
  ghost predicate KeysOk(s: State) {
    && (forall p {:trigger p in s.keys} :: p in s.keys ==> p in s.x.names)
    && (forall p {:trigger p in s.x.names} :: p in s.x.names ==> p in s.keys || Unkeyed(s, p))
  }

  function TakenBy(f: Phase): set<nat> {
    match f
    case Filling(_, _, b) => {b}
    case Chaining(_, _, b) => {b}
    case NeedInode(_, _, place) => if place.grown then {place.table} else {}
    case PutInode(_, _, place, n) => {n} + if place.grown then {place.table} else {}
    case PutTable(_, _, place, n) => {n} + if place.grown then {place.table} else {}
    case PutParent(_, _, place, n) => {n, place.table}
    case _ => {}
  }

  /** A block is taken by the request that is about to link it. */
  ghost predicate TakenOk(s: State) {
    forall b {:trigger s.x.use[b]} :: b in s.x.use && s.x.use[b].Taken? ==>
      s.x.use[b].request in s.jobs && b in TakenBy(s.jobs[s.x.use[b].request].phase)
  }

  // ----- one request -----

  /** The walk has reached the first `k` names, whose inode is `b`. */
  ghost predicate AtOk(v: Disk, x: Index, j: Job, k: nat, b: nat, a: Above)
    requires j.req.path != []
  {
    && k <= Goal(j.req) && Walked(v, x, j.req.user, j.req.path[..k]) && x.names[j.req.path[..k]].inode == b
    && (j.req.Delete? && k == |j.req.path| ==> AboveOk(v, x, j.req.path, a))
  }

  /** What a delete read of the directory above its target is still there. */
  ghost predicate AboveOk(v: Disk, x: Index, p: Path, a: Above) {
    && p != [] && p in x.names && Parent(p) in x.names && a.block == x.names[Parent(p)].inode
    && a.ino == Ino(v, x, Parent(p)) && a.index == x.names[p].table && a.slot == x.names[p].slot
    && a.index < |a.ino.blocks| && a.table == TableAt(v, a.ino.blocks[a.index])
  }

  /** A write that has to grow its file. */
  ghost predicate FileOk(v: Disk, x: Index, j: Job, b: nat, ino: Block) {
    && j.req.Write? && |j.req.data| == FS_BLOCKSIZE && j.req.block < FS_MAXFILEBLOCKS
    && Walked(v, x, j.req.user, j.req.path) && x.names[j.req.path].inode == b && Ino(v, x, j.req.path) == ino
    && !ino.dir && ino.owner == j.req.user && j.req.block == |ino.blocks|
  }

  /** A create that has found its name unused. */
  ghost predicate DirOk(v: Disk, x: Index, j: Job, b: nat, ino: Block)
    requires j.req.path != []
  {
    && j.req.Create? && Walked(v, x, j.req.user, Parent(j.req.path)) && Passed(v, x, j.req.user, Parent(j.req.path))
    && x.names[Parent(j.req.path)].inode == b && Ino(v, x, Parent(j.req.path)) == ino && j.req.path !in x.names
  }

  predicate MyBlock(x: Index, r: nat, b: nat) { b in x.use && x.use[b] == Taken(r) }

  ghost predicate PlaceOk(v: Disk, x: Index, r: nat, ino: Block, p: Place)
    requires ino.Inode?
  {
    if p.grown then
      |ino.blocks| < FS_MAXFILEBLOCKS && p.index == |ino.blocks| && p.slot == 0 && p.entries == Unused()
        && MyBlock(x, r, p.table)
    else
      && p.index < |ino.blocks| && p.table == ino.blocks[p.index] && p.entries == TableAt(v, p.table)
      && p.slot < |p.entries| && p.entries[p.slot].inode == 0
  }

  predicate Holding(v: Disk, b: nat, content: Block) { b in v && v[b] == content }

  ghost predicate JobOk(v: Disk, x: Index, r: nat, j: Job)
    requires j.req.path != []
  {
    match j.phase
    case Waiting(k, b, a) => AtOk(v, x, j, k, b, a)
    case Entering(k, b, a) => AtOk(v, x, j, k, b, a)
    case At(k, b, a) => AtOk(v, x, j, k, b, a)
    case Growing(b, ino) => FileOk(v, x, j, b, ino)
    case Filling(b, ino, c) => FileOk(v, x, j, b, ino) && MyBlock(x, r, c)
    case Chaining(b, ino, c) => FileOk(v, x, j, b, ino) && MyBlock(x, r, c) && Holding(v, c, Data(j.req.data))
    case NeedTable(b, ino) => DirOk(v, x, j, b, ino) && |ino.blocks| < FS_MAXFILEBLOCKS
    case NeedInode(b, ino, p) => DirOk(v, x, j, b, ino) && PlaceOk(v, x, r, ino, p)
    case PutInode(b, ino, p, n) =>
      DirOk(v, x, j, b, ino) && PlaceOk(v, x, r, ino, p) && MyBlock(x, r, n) && n != p.table
    case PutTable(b, ino, p, n) =>
      && DirOk(v, x, j, b, ino) && PlaceOk(v, x, r, ino, p) && MyBlock(x, r, n) && n != p.table
      && Holding(v, n, Inode(j.req.dir, j.req.user, []))
    case PutParent(b, ino, p, n) =>
      && DirOk(v, x, j, b, ino) && PlaceOk(v, x, r, ino, p) && MyBlock(x, r, n) && n != p.table && p.grown
      && Holding(v, n, Inode(j.req.dir, j.req.user, []))
      && Holding(v, p.table, Table(p.entries[0 := Entry(Last(j.req.path), n)]))
    case AddKey => j.req.path in x.names
    case Erasing(b, content) => b in x.use && About(x.use[b]) == Some(Parent(j.req.path)) && Holding(v, b, content)
    case Leaving(_, _) => true
  }

  ghost predicate JobsOk(s: State) {
    && (forall r {:trigger s.jobs[r]} :: r in s.jobs ==> s.jobs[r].req.path != [])
    && (forall r {:trigger JobOk(s.view, s.x, r, s.jobs[r])} :: r in s.jobs ==> JobOk(s.view, s.x, r, s.jobs[r]))
  }

  ghost predicate Inv(s: State) {
    WellFormed(s.view, s.x) && SpaceOk(s) && ViewOk(s) && LocksOk(s) && KeysOk(s) && TakenOk(s) && JobsOk(s)
  }

  // ----- requests do not disturb each other -----

  /** What a request whose locks are `locks` can notice is as it was; only request `r` has moved. */
  ghost predicate Steady(v: Disk, x: Index, v2: Disk, x2: Index, r: nat, locks: set<Path>) {
    && (forall q {:trigger q in locks} :: q in locks ==> SameNode(v, x, v2, x2, q))
    && (forall q {:trigger x.names[q]} :: q in x.names && q != [] && Parent(q) in locks ==>
      q in x2.names && x2.names[q] == x.names[q])
    && (forall q {:trigger x2.names[q]} :: q in x2.names && q != [] && Parent(q) in locks ==> q in x.names)
    && (forall q {:trigger Lasts(v, x, v2, x2, q)} :: q in x.names && q in x2.names ==> Lasts(v, x, v2, x2, q))
    && (forall q {:trigger Parents(x, x2, q)} :: Parents(x, x2, q))
    && TakenKept(v, x, v2, x2, r)
  }

  ghost predicate Lasts(v: Disk, x: Index, v2: Disk, x2: Index, q: Path) {
    && q in x.names && q in x2.names && x2.names[q].inode == x.names[q].inode
    && Ino(v2, x2, q).dir == Ino(v, x, q).dir && Ino(v2, x2, q).owner == Ino(v, x, q).owner
  }

  /** A path that has a child stays. */
  ghost predicate Parents(x: Index, x2: Index, q: Path) { q in x.names && q != [] ==> Parent(q) in x2.names }

  ghost predicate TakenKept(v: Disk, x: Index, v2: Disk, x2: Index, r: nat) {
    forall b, q {:trigger MyBlock(x, q, b)} :: q != r && MyBlock(x, q, b) ==> MyBlock(x2, q, b) && SameBlock(v, v2, b)
  }

  lemma WalkedSteady(v: Disk, x: Index, v2: Disk, x2: Index, r: nat, locks: set<Path>, user: string, p: Path)
    requires Steady(v, x, v2, x2, r, locks) && PathsOk(v, x) && Walked(v, x, user, p) && p in x2.names
    ensures Walked(v2, x2, user, p)
  {
    forall k | 0 <= k < |p| ensures Passed(v2, x2, user, p[..k]) {
      assert Passed(v, x, user, p[..k]);
      InTree(v, x, p, k + 1);
      assert Parent(p[..k + 1]) == p[..k] && Parents(x, x2, p[..k + 1]);
      assert Lasts(v, x, v2, x2, p[..k]);
    }
  }

  lemma AtSteady(v: Disk, x: Index, v2: Disk, x2: Index, r: nat, locks: set<Path>, j: Job, k: nat, b: nat, a: Above)
    requires Steady(v, x, v2, x2, r, locks) && PathsOk(v, x) && [] in x2.names && j.req.path != []
    requires AtOk(v, x, j, k, b, a)
    requires k > 0 ==> j.req.path[..k] in locks || j.req.path[..k - 1] in locks
    requires j.req.Delete? && k == |j.req.path| ==> Parent(j.req.path) in locks
    ensures AtOk(v2, x2, j, k, b, a)
  {
    var p := j.req.path[..k];
    if k > 0 { assert Parent(p) == j.req.path[..k - 1]; }
    assert p in x2.names;
    WalkedSteady(v, x, v2, x2, r, locks, j.req.user, p);
    assert Lasts(v, x, v2, x2, p);
    if j.req.Delete? && k == |j.req.path| {
      assert p == j.req.path;
      AboveSteady(v, x, v2, x2, r, locks, p, a);
    }
  }

  lemma AboveSteady(v: Disk, x: Index, v2: Disk, x2: Index, r: nat, locks: set<Path>, p: Path, a: Above)
    requires Steady(v, x, v2, x2, r, locks) && AboveOk(v, x, p, a) && Parent(p) in locks
    ensures AboveOk(v2, x2, p, a)
  {
    assert SameNode(v, x, v2, x2, Parent(p)) && x2.names[p] == x.names[p];
    assert SameBlock(v, v2, a.ino.blocks[a.index]);
  }

  lemma FileSteady(v: Disk, x: Index, v2: Disk, x2: Index, r: nat, locks: set<Path>, j: Job, b: nat, ino: Block)
    requires Steady(v, x, v2, x2, r, locks) && PathsOk(v, x) && FileOk(v, x, j, b, ino) && j.req.path in locks
    ensures FileOk(v2, x2, j, b, ino)
  {
    assert SameNode(v, x, v2, x2, j.req.path);
    WalkedSteady(v, x, v2, x2, r, locks, j.req.user, j.req.path);
  }

  lemma DirSteady(v: Disk, x: Index, v2: Disk, x2: Index, r: nat, locks: set<Path>, j: Job, b: nat, ino: Block)
    requires Steady(v, x, v2, x2, r, locks) && PathsOk(v, x) && j.req.path != [] && DirOk(v, x, j, b, ino)
    requires Parent(j.req.path) in locks
    ensures DirOk(v2, x2, j, b, ino)
  {
    assert SameNode(v, x, v2, x2, Parent(j.req.path));
    WalkedSteady(v, x, v2, x2, r, locks, j.req.user, Parent(j.req.path));
  }

  lemma PlaceSteady(v: Disk, x: Index, v2: Disk, x2: Index, r: nat, locks: set<Path>, q: nat, dir: Path, ino: Block,
                    p: Place)
    requires Steady(v, x, v2, x2, r, locks) && dir in locks && Ino(v, x, dir) == ino && PlaceOk(v, x, q, ino, p)
    requires q != r
    ensures PlaceOk(v2, x2, q, ino, p)
  {
    if p.grown { assert MyBlock(x, q, p.table); } else {
      assert SameNode(v, x, v2, x2, dir) && SameBlock(v, v2, ino.blocks[p.index]);
    }
  }

  lemma MySteady(v: Disk, x: Index, v2: Disk, x2: Index, r: nat, q: nat, b: nat, content: Block)
    requires TakenKept(v, x, v2, x2, r) && q != r && MyBlock(x, q, b)
    ensures MyBlock(x2, q, b) && (Holding(v, b, content) ==> Holding(v2, b, content))
  {}

  lemma ErasingSteady(v: Disk, x: Index, v2: Disk, x2: Index, r: nat, locks: set<Path>, b: nat, dir: Path,
                      content: Block)
    requires Steady(v, x, v2, x2, r, locks) && UseOk(v, x) && UseOk(v2, x2) && dir in locks
    requires b in x.use && About(x.use[b]) == Some(dir) && Holding(v, b, content)
    ensures b in x2.use && About(x2.use[b]) == Some(dir) && Holding(v2, b, content)
  {
    assert SameNode(v, x, v2, x2, dir) && Uses(v, x, b, x.use[b]);
    match x.use[b]
    case InodeOf(_) => assert UsedBy(x2, x2.names[dir].inode, InodeOf(dir)) && SameBlock(v, v2, b);
    case BlockOf(_, i) => assert UsedBy(x2, Ino(v2, x2, dir).blocks[i], BlockOf(dir, i))
      && SameBlock(v, v2, Ino(v, x, dir).blocks[i]);
  }

  /** So whatever the others do elsewhere, a request finds what it left. */
  lemma JobSteady(v: Disk, x: Index, v2: Disk, x2: Index, r: nat, q: nat, j: Job)
    requires j.req.path != [] && JobOk(v, x, q, j) && q != r && Steady(v, x, v2, x2, r, Holds(j))
    requires WellFormed(v, x) && UseOk(v2, x2) && [] in x2.names
    ensures JobOk(v2, x2, q, j)
  {
    var locks, dir := Holds(j), Parent(j.req.path);
    match j.phase
    case Waiting(k, b, a) => AtSteady(v, x, v2, x2, r, locks, j, k, b, a);
    case Entering(k, b, a) => AtSteady(v, x, v2, x2, r, locks, j, k, b, a);
    case At(k, b, a) => AtSteady(v, x, v2, x2, r, locks, j, k, b, a);
    case Growing(b, ino) => FileSteady(v, x, v2, x2, r, locks, j, b, ino);
    case Filling(b, ino, c) => FileSteady(v, x, v2, x2, r, locks, j, b, ino);
    case Chaining(b, ino, c) => FileSteady(v, x, v2, x2, r, locks, j, b, ino);
      MySteady(v, x, v2, x2, r, q, c, Data(j.req.data));
    case NeedTable(b, ino) => DirSteady(v, x, v2, x2, r, locks, j, b, ino);
    case NeedInode(b, ino, p) => DirSteady(v, x, v2, x2, r, locks, j, b, ino);
      PlaceSteady(v, x, v2, x2, r, locks, q, dir, ino, p);
    case PutInode(b, ino, p, n) => DirSteady(v, x, v2, x2, r, locks, j, b, ino);
      PlaceSteady(v, x, v2, x2, r, locks, q, dir, ino, p);
    case PutTable(b, ino, p, n) =>
      DirSteady(v, x, v2, x2, r, locks, j, b, ino);
      PlaceSteady(v, x, v2, x2, r, locks, q, dir, ino, p);
      MySteady(v, x, v2, x2, r, q, n, Inode(j.req.dir, j.req.user, []));
    case PutParent(b, ino, p, n) =>
      DirSteady(v, x, v2, x2, r, locks, j, b, ino);
      PlaceSteady(v, x, v2, x2, r, locks, q, dir, ino, p);
      MySteady(v, x, v2, x2, r, q, n, Inode(j.req.dir, j.req.user, []));
      MySteady(v, x, v2, x2, r, q, p.table, Table(p.entries[0 := Entry(Last(j.req.path), n)]));
    case AddKey => ChildOfParent(j.req.path);
    case Erasing(b, content) => ErasingSteady(v, x, v2, x2, r, locks, b, dir, content);
    case Leaving(_, _) =>
  }

  // ----- which changes are steady -----

  /** A change of path `p`, which `r` has locked, is steady for every request that has not locked it. */
  lemma PatchSteady(v: Disk, x: Index, v2: Disk, x2: Index, r: nat, p: Path, news: set<Path>, locks: set<Path>)
    requires PathsOk(v, x) && PathsOk(v2, x2) && Patched(v, x, v2, x2, p, news) && TakenKept(v, x, v2, x2, r)
    requires p !in locks && (forall q {:trigger q in locks} :: q in locks ==> q in x.names && q in x2.names)
    requires forall q {:trigger Parents(x, x2, q)} :: Parents(x, x2, q)
    ensures Steady(v, x, v2, x2, r, locks)
  {
    forall q | q in x.names && q in x2.names ensures Lasts(v, x, v2, x2, q) {
      if q != p { assert SameNode(v, x, v2, x2, q); }
    }
    forall q | q in locks ensures SameNode(v, x, v2, x2, q) { assert q in x2.names && q !in news && q != p; }
    forall q | q in x.names && q != [] && Parent(q) in locks ensures q in x2.names && x2.names[q] == x.names[q] {
      assert q in x2.names && q !in news;
    }
    forall q | q in x2.names && q != [] && Parent(q) in locks ensures q in x.names {
      assert q in news ==> Newborn(v2, x2, p, q);
    }
  }

  /** A change that leaves the tree alone is steady for everybody. */
  lemma SameSteady(v: Disk, x: Index, v2: Disk, x2: Index, r: nat, locks: set<Path>)
    requires PathsOk(v, x) && x2.names == x.names && TakenKept(v, x, v2, x2, r)
    requires forall q {:trigger q in locks} :: q in locks ==> q in x.names
    requires forall q {:trigger SameNode(v, x, v2, x2, q)} :: q in x.names ==> SameNode(v, x, v2, x2, q)
    ensures Steady(v, x, v2, x2, r, locks)
  {
    forall q | q in x.names && q in x2.names ensures Lasts(v, x, v2, x2, q) { assert SameNode(v, x, v2, x2, q); }
    forall q ensures Parents(x, x2, q) { if q in x.names && q != [] { assert PathOk(v, x, q); } }
    forall q | q in locks ensures SameNode(v, x, v2, x2, q) {}
  }
}
