/** The scan of the disk when the server starts: what has been swept when the scan of a directory stands at
    some entry. */
module FsScan {
  import opened FsDisk
  import opened FsUpdate
  import opened FsLink
  import opened FsTree
  import opened FsPath

  ghost predicate NameOk(p: Path) { AllPlain(p) && forall n {:trigger n in p} :: n in p ==> n != "" }

  /** Names on the disk can stand in a path. */
  ghost predicate NamesOk(x: Index) { forall p {:trigger x.names[p]} :: p in x.names ==> NameOk(p) }

  /** The keys of blocks_locks: the paths as strings. */
  ghost function KeysFor(x: Index): set<string> { set p | p in x.names :: PathString(p) }

  /** One key per path. */
  lemma OneKeyEach(x: Index, p: Path, q: Path)
    requires NamesOk(x) && p in x.names && q in x.names && PathString(p) == PathString(q)
    ensures p == q
  {
    assert x.names[p] == x.names[p] && x.names[q] == x.names[q];
    PathStringInjective(p, q);
  }

  ghost predicate Under(q: Path, p: Path) { |p| < |q| && q[..|p|] == p }

  /** `q` is under the child of `p` whose entry comes before slot `j` of table `i`. */
  ghost predicate Before(x: Index, p: Path, i: nat, j: nat, q: Path) {
    && Under(q, p) && q[..|p| + 1] in x.names
    && var s := x.names[q[..|p| + 1]]; s.table < i || (s.table == i && s.slot < j)
  }

  /** Blocks swept when the first `k` blocks of `p` have been read, and the entries before (i, j). */
  ghost predicate SweptUse(x: Index, p: Path, k: nat, i: nat, j: nat, u: Use) {
    match u
    case InodeOf(q) => Before(x, p, i, j, q)
    case BlockOf(q, m) => (q == p && m < k) || Before(x, p, i, j, q)
    case _ => false
  }

  ghost function Swept(x: Index, p: Path, k: nat, i: nat, j: nat): set<nat> {
    set b | b in x.use && SweptUse(x, p, k, i, j, x.use[b])
  }

  ghost function SweptKeys(x: Index, p: Path, i: nat, j: nat): set<string> {
    set q | q in x.names && Before(x, p, i, j, q) :: PathString(q)
  }

  ghost predicate BelowUse(p: Path, u: Use) {
    match u
    case InodeOf(q) => Under(q, p)
    case BlockOf(q, _) => q == p || Under(q, p)
    case _ => false
  }

  /** The blocks that `p` lists, and everything further down. */
  ghost function Below(x: Index, p: Path): set<nat> { set b | b in x.use && BelowUse(p, x.use[b]) }

  ghost function KeysBelow(x: Index, p: Path): set<string> { set q | q in x.names && Under(q, p) :: PathString(q) }

  /** The paths still to be met under `p`. */
  ghost function Further(x: Index, p: Path): set<Path> { set q | q in x.names && Under(q, p) }

  lemma FurtherLess(x: Index, p: Path, name: string)
    requires Child(p, name) in x.names
    ensures Further(x, Child(p, name)) < Further(x, p)
  {
    var c := Child(p, name);
    forall q | q in Further(x, c) ensures q in Further(x, p) { assert q[..|p|] == q[..|c|][..|p|]; }
    assert c in Further(x, p) && c !in Further(x, c);
  }

  // ----- the walk of one directory -----

  lemma SweptNothing(x: Index, p: Path)
    ensures Swept(x, p, 0, 0, 0) == {} && SweptKeys(x, p, 0, 0) == {}
  {}

  /** One block of the list. */
  lemma SweptBlock(d: Disk, x: Index, p: Path, i: nat, m: nat, n: nat)
    requires WellFormed(d, x) && p in x.names && i < |Ino(d, x, p).blocks|
    ensures Swept(x, p, i + 1, m, n) == Swept(x, p, i, m, n) + {Ino(d, x, p).blocks[i]}
  {
    var c := Ino(d, x, p).blocks[i];
    assert UsedBy(x, c, BlockOf(p, i));
    forall b ensures b in Swept(x, p, i + 1, m, n) <==> b in Swept(x, p, i, m, n) || b == c {
      if b in x.use { assert Uses(d, x, b, x.use[b]); }
    }
  }

  lemma UnderChild(p: Path, q: Path, c: Path)
    requires |c| == |p| + 1 && c[..|p|] == p
    ensures Under(q, p) && q[..|p| + 1] == c <==> q == c || Under(q, c)
  {
    if |q| > |p| && q[..|p| + 1] == c { assert q[..|p|] == q[..|p| + 1][..|p|]; }
  }

  /** A used entry is passed when its path, and all further down, are. */
  lemma BeforeNext(d: Disk, x: Index, p: Path, i: nat, j: nat, e: Entry, q: Path)
    requires WellFormed(d, x) && p in x.names && Ino(d, x, p).dir && EntryAt(d, Ino(d, x, p), i, j, e) && e.inode != 0
    requires q in x.names
    ensures Before(x, p, i, j + 1, q) <==> Before(x, p, i, j, q) || q == Child(p, e.name) || Under(q, Child(p, e.name))
  {
    assert Entered(d, x, p, i, j, e);
    UnderChild(p, q, Child(p, e.name));
    if Under(q, p) && q[..|p| + 1] in x.names && x.names[q[..|p| + 1]] == Spot(x.names[q[..|p| + 1]].inode, i, j) {
      OnlyEntry(d, x, p, i, j, e, q[..|p| + 1]);
    }
  }

  /** No other child has its entry there. */
  lemma OnlyEntry(d: Disk, x: Index, p: Path, i: nat, j: nat, e: Entry, c: Path)
    requires WellFormed(d, x) && p in x.names && Ino(d, x, p).dir && EntryAt(d, Ino(d, x, p), i, j, e)
    requires c in x.names && |c| == |p| + 1 && c[..|p|] == p && x.names[c].table == i && x.names[c].slot == j
    ensures e.inode != 0 && c == Child(p, e.name)
  {
    assert Parent(c) == p;
    assert PathOk(d, x, c);
    InodeNotZero(d, x, c);
    ChildOfParent(c);
  }

  lemma SweptEntry(d: Disk, x: Index, p: Path, k: nat, i: nat, j: nat, e: Entry)
    requires WellFormed(d, x) && p in x.names && Ino(d, x, p).dir && EntryAt(d, Ino(d, x, p), i, j, e) && e.inode != 0
    ensures Child(p, e.name) in x.names && x.names[Child(p, e.name)].inode == e.inode
    ensures Swept(x, p, k, i, j + 1) == Swept(x, p, k, i, j) + {e.inode} + Below(x, Child(p, e.name))
    ensures SweptKeys(x, p, i, j + 1) == SweptKeys(x, p, i, j) + {PathString(Child(p, e.name))} + KeysBelow(x,
      Child(p, e.name))
  {
    var c := Child(p, e.name);
    assert Entered(d, x, p, i, j, e);
    forall b ensures b in Swept(x, p, k, i, j + 1) <==> b in Swept(x, p, k, i, j) || b == e.inode || b in Below(x, c) {
      SweptUseNext(d, x, p, k, i, j, e, b);
    }
    KeysNext(d, x, p, i, j, e);
  }

  lemma SweptUseNext(d: Disk, x: Index, p: Path, k: nat, i: nat, j: nat, e: Entry, b: nat)
    requires WellFormed(d, x) && p in x.names && Ino(d, x, p).dir && EntryAt(d, Ino(d, x, p), i, j, e) && e.inode != 0
    requires Child(p, e.name) in x.names && x.names[Child(p, e.name)].inode == e.inode
    ensures b in Swept(x, p, k, i, j + 1) <==>
      b in Swept(x, p, k, i, j) || b == e.inode || b in Below(x, Child(p, e.name))
  {
    var c := Child(p, e.name);
    assert UsedBy(x, x.names[c].inode, InodeOf(c));
    if b in x.use {
      assert Uses(d, x, b, x.use[b]);
      if About(x.use[b]).Some? { BeforeNext(d, x, p, i, j, e, About(x.use[b]).value); }
    }
  }

  lemma KeysNext(d: Disk, x: Index, p: Path, i: nat, j: nat, e: Entry)
    requires WellFormed(d, x) && p in x.names && Ino(d, x, p).dir && EntryAt(d, Ino(d, x, p), i, j, e) && e.inode != 0
    requires Child(p, e.name) in x.names
    ensures SweptKeys(x, p, i, j + 1) == SweptKeys(x, p, i, j) + {PathString(Child(p, e.name))} + KeysBelow(x,
      Child(p, e.name))
  {
    var c := Child(p, e.name);
    forall q | q in x.names ensures Before(x, p, i, j + 1, q) <==> Before(x, p, i, j, q) || q == c || Under(q, c) {
      BeforeNext(d, x, p, i, j, e, q);
    }
  }

  lemma SweptUnused(d: Disk, x: Index, p: Path, k: nat, i: nat, j: nat, e: Entry)
    requires WellFormed(d, x) && p in x.names && Ino(d, x, p).dir && EntryAt(d, Ino(d, x, p), i, j, e) && e.inode == 0
    ensures Swept(x, p, k, i, j + 1) == Swept(x, p, k, i, j) && SweptKeys(x, p, i, j + 1) == SweptKeys(x, p, i, j)
  {
    forall q ensures Before(x, p, i, j + 1, q) <==> Before(x, p, i, j, q) {
      if Under(q, p) && q[..|p| + 1] in x.names && x.names[q[..|p| + 1]].table == i && x.names[q[..|p| + 1]].slot == j {
        OnlyEntry(d, x, p, i, j, e, q[..|p| + 1]);
      }
    }
  }

  /** Where the entry of a child of a directory is. */
  lemma ChildSpot(d: Disk, x: Index, p: Path, c: Path)
    requires WellFormed(d, x) && p in x.names && c in x.names && |c| == |p| + 1 && c[..|p|] == p
    ensures Ino(d, x, p).dir && x.names[c].table < |Ino(d, x, p).blocks| && x.names[c].slot < FS_DIRENTRIES
  {
    assert Parent(c) == p;
    assert PathOk(d, x, c) && PathOk(d, x, p);
    assert TableOk(d, Ino(d, x, p).blocks[x.names[c].table]);
  }

  /** A table is done after eight entries. */
  lemma SweptTable(d: Disk, x: Index, p: Path, k: nat, i: nat)
    requires WellFormed(d, x) && p in x.names
    ensures Swept(x, p, k, i + 1, 0) == Swept(x, p, k, i, FS_DIRENTRIES)
    ensures SweptKeys(x, p, i + 1, 0) == SweptKeys(x, p, i, FS_DIRENTRIES)
  {
    forall q ensures Before(x, p, i + 1, 0, q) <==> Before(x, p, i, FS_DIRENTRIES, q) {
      if Under(q, p) && q[..|p| + 1] in x.names { ChildSpot(d, x, p, q[..|p| + 1]); }
    }
  }

  /** And the directory when its tables are; a file has nothing further down. */
  lemma SweptAll(d: Disk, x: Index, p: Path, j: nat)
    requires WellFormed(d, x) && p in x.names
    requires j == if Ino(d, x, p).dir then |Ino(d, x, p).blocks| else 0
    ensures Swept(x, p, |Ino(d, x, p).blocks|, j, 0) == Below(x, p) && SweptKeys(x, p, j, 0) == KeysBelow(x, p)
  {
    forall q | q in x.names ensures Before(x, p, j, 0, q) <==> Under(q, p) {
      if Under(q, p) {
        InTree(d, x, q, |p| + 1);
        assert q[..|p| + 1][..|p|] == q[..|p|];
        ChildSpot(d, x, p, q[..|p| + 1]);
      }
    }
    forall b ensures b in Swept(x, p, |Ino(d, x, p).blocks|, j, 0) <==> b in Below(x, p) {
      if b in x.use { assert Uses(d, x, b, x.use[b]); }
    }
  }

  // ----- path names -----

  /** The path of a directory as the scan carries it. */
  function DirString(p: Path): string { if p == [] then "/" else PathString(p) + "/" }

  lemma NameAdded(p: Path, name: string)
    ensures DirString(p) + name == PathString(Child(p, name))
  {
    PathAndName(p, name);
    Glue(Join(p), "/", name);
  }

  // ----- the whole disk -----

  /** The index without what the disk does not show. */
  ghost function Trimmed(x: Index): Index {
    x.(use := map b | b in x.use && About(x.use[b]).Some? :: x.use[b])
  }

  lemma TrimmedPaths(d: Disk, x: Index, y: Index)
    requires PathsOk(d, x) && y.names == x.names
    ensures PathsOk(d, y)
  {
    forall p | p in y.names ensures PathOk(d, y, p) { assert PathOk(d, x, p); }
  }

  lemma TrimmedEntries(d: Disk, x: Index, y: Index)
    requires EntriesOk(d, x) && y.names == x.names
    ensures EntriesOk(d, y)
  {
    forall p, i: nat, j: nat, e | p in y.names && Ino(d, y, p).dir ensures Entered(d, y, p, i, j, e) {
      assert Entered(d, x, p, i, j, e);
    }
  }

  lemma TrimmedUse(d: Disk, x: Index, y: Index)
    requires UseOk(d, x) && y == Trimmed(x)
    ensures UseOk(d, y)
  {
    forall p | p in y.names ensures UsedBy(y, y.names[p].inode, InodeOf(p)) {
      assert UsedBy(x, x.names[p].inode, InodeOf(p));
    }
    forall p, i: nat | p in y.names && i < |Ino(d, y, p).blocks|
      ensures UsedBy(y, Ino(d, y, p).blocks[i], BlockOf(p, i))
    {
      assert UsedBy(x, Ino(d, x, p).blocks[i], BlockOf(p, i));
    }
    forall b | b in y.use ensures Uses(d, y, b, y.use[b]) { assert Uses(d, x, b, x.use[b]); }
  }

  lemma TrimmedOk(d: Disk, x: Index)
    requires WellFormed(d, x)
    ensures WellFormed(d, Trimmed(x)) && TreeOf(d, Trimmed(x)) == TreeOf(d, x)
  {
    TrimmedPaths(d, x, Trimmed(x));
    TrimmedEntries(d, x, Trimmed(x));
    TrimmedUse(d, x, Trimmed(x));
  }

  /** A block is in the tree: it is the inode of a path or listed by one. */
  ghost predicate Reached(d: Disk, x: Index, b: nat) {
    exists p {:trigger x.names[p]} :: p in x.names && (x.names[p].inode == b || b in Ino(d, x, p).blocks)
  }

  lemma ReachedUsed(d: Disk, x: Index, b: nat)
    requires WellFormed(d, x)
    ensures Reached(d, x, b) <==> b in Trimmed(x).use
  {
    if Reached(d, x, b) {
      var p :| p in x.names && (x.names[p].inode == b || b in Ino(d, x, p).blocks);
      if x.names[p].inode == b { assert UsedBy(x, b, InodeOf(p)); } else {
        var i: nat :| i < |Ino(d, x, p).blocks| && Ino(d, x, p).blocks[i] == b;
        assert UsedBy(x, b, BlockOf(p, i));
      }
    }
    if b in Trimmed(x).use {
      assert Uses(d, x, b, x.use[b]);
      var p := About(x.use[b]).value;
      assert x.names[p] == x.names[p];
    }
  }

  lemma UsedOnDisk(d: Disk, x: Index, b: nat)
    requires WellFormed(d, x) && b in x.use && About(x.use[b]).Some?
    ensures b in d
  {
    assert Uses(d, x, b, x.use[b]);
    var p := About(x.use[b]).value;
    assert PathOk(d, x, p);
    if x.use[b].BlockOf? {
      assert b == Ino(d, x, p).blocks[x.use[b].index];
      assert Ino(d, x, p).dir ==> TableOk(d, b);
    }
  }

  /** What the scan of the root sweeps, with the root block, is what the tree uses. */
  lemma BelowRoot(d: Disk, x: Index, b: nat)
    requires WellFormed(d, x)
    ensures b == ROOT_BLOCK || b in Below(Trimmed(x), []) <==> Reached(d, x, b)
  {
    ReachedUsed(d, x, b);
    assert PathOk(d, x, []) && UsedBy(x, ROOT_BLOCK, InodeOf([]));
    if b in x.use && About(x.use[b]).Some? {
      assert Uses(d, x, b, x.use[b]);
      var p := About(x.use[b]).value;
      assert p != [] ==> Under(p, []);
    }
  }

  lemma KeysBelowRoot(d: Disk, x: Index)
    requires WellFormed(d, x)
    ensures KeysBelow(x, []) + {"/"} == KeysFor(x)
  {
    assert [] in x.names && PathString([]) == "/";
    forall p | p in x.names && p != [] ensures Under(p, []) { assert p[..0] == []; }
  }
}
