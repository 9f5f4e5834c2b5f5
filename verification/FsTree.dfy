/** What the four requests mean for the tree of files and directories, and how walking the directories of
    the disk decides it. */
module FsTree {
  import opened FsDisk

  datatype Request =
    | Read(user: string, path: Path, block: nat)
    | Write(user: string, path: Path, block: nat, data: string)
    | Create(user: string, path: Path, dir: bool)
    | Delete(user: string, path: Path)

  /** NoSpace: the disk has no free block, or the directory no free entry. */
  datatype Reply = Failed | NoSpace | Done | Bytes(data: string)

  /** The path that search_file_system resolves: create looks for the directory above. */
  function Goal(req: Request): nat
    requires req.path != []
  {
    if req.Create? then |req.path| - 1 else |req.path|
  }

  // ----- the requests on the tree -----

  /** Every path below the root, down to `p`, belongs to the user. */
  ghost predicate Owned(tree: Tree, user: string, p: Path) {
    forall k {:trigger p[..k]} :: 0 < k <= |p| ==> p[..k] in tree && tree[p[..k]].owner == user
  }

  ghost predicate Reaches(tree: Tree, user: string, p: Path) { p in tree && Owned(tree, user, p) }

  ghost predicate Childless(tree: Tree, p: Path) {
    forall q {:trigger q in tree} :: q in tree && q != [] ==> Parent(q) != p
  }

  ghost predicate Allowed(tree: Tree, req: Request)
    requires req.path != []
  {
    match req
    case Read(user, p, i) => Reaches(tree, user, p) && tree[p].File? && i < |tree[p].contents|
    case Write(user, p, i, data) =>
      && |data| == FS_BLOCKSIZE && i < FS_MAXFILEBLOCKS
      && Reaches(tree, user, p) && tree[p].File? && i <= |tree[p].contents|
    case Create(user, p, _) => Reaches(tree, user, Parent(p)) && tree[Parent(p)].Dir? && p !in tree
    case Delete(user, p) => Reaches(tree, user, p) && (tree[p].Dir? ==> Childless(tree, p))
  }

  function Written(contents: seq<string>, i: nat, data: string): seq<string> {
    if i < |contents| then contents[i := data] else contents + [data]
  }

  ghost function Result(tree: Tree, req: Request): (Tree, Reply)
    requires req.path != [] && Allowed(tree, req)
  {
    match req
    case Read(_, p, i) => (tree, Bytes(tree[p].contents[i]))
    case Write(_, p, i, data) => (tree[p := File(tree[p].owner, Written(tree[p].contents, i, data))], Done)
    case Create(user, p, dir) => (tree[p := if dir then Dir(user) else File(user, [])], Done)
    case Delete(_, p) => (tree - {p}, Done)
  }

  /** A request that is not allowed fails and changes nothing. One that is allowed succeeds, unless it needs
      space: then it may find none. */
  ghost predicate Serves(tree: Tree, req: Request, after: Tree, reply: Reply)
    requires req.path != []
  {
    if !Allowed(tree, req) then after == tree && reply == Failed
    else (after, reply) == Result(tree, req) || (after == tree && reply == NoSpace && NeedsSpace(tree, req))
  }

  ghost predicate NeedsSpace(tree: Tree, req: Request) {
    req.Create? || (req.Write? && req.path in tree && tree[req.path].File? && req.block == |tree[req.path].contents|)
  }

  // ----- walking -----

  /** The walk has passed every directory above `p`. */
  ghost predicate Walked(d: Disk, x: Index, user: string, p: Path) {
    p in x.names && forall k {:trigger p[..k]} :: 0 <= k < |p| ==> Passed(d, x, user, p[..k])
  }

  /** A directory that belongs to the user, or the root. */
  ghost predicate Passed(d: Disk, x: Index, user: string, q: Path) {
    q in x.names && Ino(d, x, q).dir && (q != [] ==> Ino(d, x, q).owner == user)
  }

  /** An inode of the walk leads on to the next name. */
  lemma WalkOn(d: Disk, x: Index, user: string, p: Path, n: string)
    requires Walked(d, x, user, p) && Passed(d, x, user, p) && Child(p, n) in x.names
    ensures Walked(d, x, user, Child(p, n))
  {
    var q := Child(p, n);
    forall k | 0 <= k < |q| ensures Passed(d, x, user, q[..k]) {
      if k < |p| { assert q[..k] == p[..k]; } else { assert q[..k] == p; }
    }
  }

  /** A path that can be reached is reached through directories of the user. */
  lemma ReachesPasses(d: Disk, x: Index, user: string, p: Path, k: nat)
    requires WellFormed(d, x) && k < |p| && Reaches(TreeOf(d, x), user, p)
    ensures Passed(d, x, user, p[..k]) && p[..k + 1] in x.names
  {
    var t := TreeOf(d, x);
    InTree(d, x, p, k);
    InTree(d, x, p, k + 1);
    assert PathOk(d, x, p[..k + 1]) && Parent(p[..k + 1]) == p[..k];
    if k > 0 { assert p[..k] in t && t[p[..k]].owner == user; }
  }

  lemma {:induction false} InTree(d: Disk, x: Index, p: Path, k: nat)
    requires PathsOk(d, x) && p in x.names && k <= |p|
    ensures p[..k] in x.names
    decreases |p| - k
  {
    if k == |p| { assert p[..k] == p; } else {
      InTree(d, x, p, k + 1);
      assert PathOk(d, x, p[..k + 1]) && Parent(p[..k + 1]) == p[..k];
    }
  }

  /** The walk reaches exactly the paths whose directories, and which themselves, belong to the user. */
  lemma WalkReaches(d: Disk, x: Index, user: string, p: Path)
    requires WellFormed(d, x) && Walked(d, x, user, p)
    ensures p in TreeOf(d, x) && (p != [] ==> (Reaches(TreeOf(d, x), user, p) <==> Ino(d, x, p).owner == user))
    ensures p == [] ==> Reaches(TreeOf(d, x), user, p)
  {
    var t := TreeOf(d, x);
    if p != [] {
      assert p[..|p|] == p;
      if Ino(d, x, p).owner == user {
        forall k | 0 < k <= |p| ensures p[..k] in t && t[p[..k]].owner == user {
          if k < |p| { assert Passed(d, x, user, p[..k]); }
        }
      }
    }
  }

  /** An empty table list is an empty directory. */
  lemma ChildlessOk(d: Disk, x: Index, p: Path)
    requires WellFormed(d, x) && p in x.names && Ino(d, x, p).dir
    ensures Childless(TreeOf(d, x), p) <==> Ino(d, x, p).blocks == []
  {
    assert PathOk(d, x, p);
    if Ino(d, x, p).blocks == [] {
      forall q | q in x.names && q != [] ensures Parent(q) != p { assert PathOk(d, x, q); }
    } else {
      var b := Ino(d, x, p).blocks[0];
      assert TableOk(d, b);
      var j :| 0 <= j < FS_DIRENTRIES && d[b].entries[j].inode != 0;
      var e := d[b].entries[j];
      assert Entered(d, x, p, 0, j, e);
      assert Child(p, e.name) in TreeOf(d, x);
    }
  }

  // ----- looking a name up -----

  predicate HasEntry(d: Disk, ino: Block, name: string, i: nat, j: nat, b: nat)
    requires ino.Inode?
  {
    b != 0 && EntryAt(d, ino, i, j, Entry(name, b))
  }

  ghost predicate NoEntry(d: Disk, ino: Block, name: string)
    requires ino.Inode?
  {
    forall i: nat, j: nat, b: nat {:trigger HasEntry(d, ino, name, i, j, b)} :: !HasEntry(d, ino, name, i, j, b)
  }

  /** An entry found is the child's entry, and a child's entry is found. */
  lemma EntryOfChild(d: Disk, x: Index, p: Path, name: string, i: nat, j: nat, b: nat)
    requires WellFormed(d, x) && p in x.names && Ino(d, x, p).dir && HasEntry(d, Ino(d, x, p), name, i, j, b)
    ensures Child(p, name) in x.names && x.names[Child(p, name)] == Spot(b, i, j)
  {
    assert Entered(d, x, p, i, j, Entry(name, b));
  }

  lemma NoChild(d: Disk, x: Index, p: Path, name: string)
    requires WellFormed(d, x) && p in x.names && Ino(d, x, p).dir && NoEntry(d, Ino(d, x, p), name)
    ensures Child(p, name) !in x.names
  {
    var q := Child(p, name);
    if q in x.names {
      assert PathOk(d, x, q) && PathOk(d, x, []);
      assert UsedBy(x, x.names[q].inode, InodeOf(q)) && UsedBy(x, x.names[[]].inode, InodeOf([]));
      assert HasEntry(d, Ino(d, x, p), name, x.names[q].table, x.names[q].slot, x.names[q].inode);
    }
  }
}
