/** The disk of the file server: inodes, tables of eight directory entries, data blocks, and what it means
    that they form a tree. */
module FsDisk {
  const FS_DISKSIZE: nat := 4096
  const FS_BLOCKSIZE: nat := 512
  const FS_MAXFILEBLOCKS: nat := 124
  const FS_DIRENTRIES: nat := 8
  const FS_MAXFILENAME: nat := 59
  const FS_MAXPATHNAME: nat := 128
  const ROOT_BLOCK: nat := 0

  type Path = seq<string>

  /** An entry with inode block 0 is unused. */
  datatype Entry = Entry(name: string, inode: nat)

  /** An inode's size is the number of its blocks. */
  datatype Block = Inode(dir: bool, owner: string, blocks: seq<nat>) | Table(entries: seq<Entry>) | Data(bytes: string)

  type Disk = map<nat, Block>

  function InodeAt(d: Disk, b: nat): Block
    ensures InodeAt(d, b).Inode?
  {
    if b in d && d[b].Inode? then d[b] else Inode(false, "", [])
  }

  function TableAt(d: Disk, b: nat): seq<Entry> { if b in d && d[b].Table? then d[b].entries else [] }

  function DataAt(d: Disk, b: nat): string { if b in d && d[b].Data? then d[b].bytes else "" }

  // ----- paths -----

  function Parent(p: Path): Path
    requires p != []
  {
    p[..|p| - 1]
  }

  function Last(p: Path): string
    requires p != []
  {
    p[|p| - 1]
  }

  function Child(p: Path, n: string): (q: Path)
    ensures q != [] && Parent(q) == p && Last(q) == n && |q| == |p| + 1
  {
    p + [n]
  }

  lemma ChildOfParent(q: Path)
    requires q != []
    ensures Child(Parent(q), Last(q)) == q
  {}

  // ----- directories -----

  /** Where a path's inode is, and where its entry is in the directory above it. */
  datatype Spot = Spot(inode: nat, table: nat, slot: nat)

  /** What a block that is not free is for; `Taken` blocks belong to a request that has not linked them
      yet, `Lost` ones were taken by a create that then found no block for its inode. */
  datatype Use = InodeOf(path: Path) | BlockOf(path: Path, index: nat) | Taken(request: nat) | Lost

  datatype Index = Index(names: map<Path, Spot>, use: map<nat, Use>)

  function Ino(d: Disk, x: Index, p: Path): Block
    ensures Ino(d, x, p).Inode?
  {
    if p in x.names then InodeAt(d, x.names[p].inode) else Inode(false, "", [])
  }

  predicate EntryAt(d: Disk, ino: Block, i: nat, j: nat, e: Entry)
    requires ino.Inode?
  {
    && i < |ino.blocks| && ino.blocks[i] in d && d[ino.blocks[i]].Table?
    && j < |d[ino.blocks[i]].entries| && d[ino.blocks[i]].entries[j] == e
  }

  /** A path has an entry in its parent, which is a directory. */
  ghost predicate Named(d: Disk, x: Index, p: Path)
    requires p in x.names
  {
    if p == [] then x.names[p].inode == ROOT_BLOCK
    else
      && Parent(p) in x.names && Ino(d, x, Parent(p)).dir
      && EntryAt(d, Ino(d, x, Parent(p)), x.names[p].table, x.names[p].slot, Entry(Last(p), x.names[p].inode))
  }

  /** Every used entry of a directory is the entry of a path, so a name occurs once. */
  ghost predicate Entered(d: Disk, x: Index, p: Path, i: nat, j: nat, e: Entry) {
    EntryAt(d, Ino(d, x, p), i, j, e) && e.inode != 0 ==>
      Child(p, e.name) in x.names && x.names[Child(p, e.name)] == Spot(e.inode, i, j)
  }

  /** A listed table has eight entries, one of them used. */
  ghost predicate TableOk(d: Disk, b: nat) {
    b in d && d[b].Table? && |d[b].entries| == FS_DIRENTRIES
      && exists j {:trigger d[b].entries[j]} :: 0 <= j < FS_DIRENTRIES && d[b].entries[j].inode != 0
  }

  ghost predicate ListOk(d: Disk, ino: Block)
    requires ino.Inode?
  {
    && |ino.blocks| <= FS_MAXFILEBLOCKS
    && forall i {:trigger ino.blocks[i]} :: 0 <= i < |ino.blocks| ==>
         if ino.dir then TableOk(d, ino.blocks[i]) else ino.blocks[i] in d && d[ino.blocks[i]].Data?
  }

  /** Blocks of the tree have one use each. */
  ghost predicate UseOk(d: Disk, x: Index) {
    && (forall p {:trigger x.names[p]} :: p in x.names ==> UsedBy(x, x.names[p].inode, InodeOf(p)))
    && (forall p, i: nat {:trigger Ino(d, x, p).blocks[i]} :: p in x.names && i < |Ino(d, x, p).blocks| ==>
          UsedBy(x, Ino(d, x, p).blocks[i], BlockOf(p, i)))
    && (forall b {:trigger x.use[b]} :: b in x.use ==> Uses(d, x, b, x.use[b]))
  }

  ghost predicate UsedBy(x: Index, b: nat, u: Use) { b in x.use && x.use[b] == u }

  ghost predicate Uses(d: Disk, x: Index, b: nat, u: Use) {
    match u
    case InodeOf(p) => p in x.names && x.names[p].inode == b
    case BlockOf(p, i) => p in x.names && i < |Ino(d, x, p).blocks| && Ino(d, x, p).blocks[i] == b
    case _ => true
  }

  ghost predicate PathOk(d: Disk, x: Index, p: Path)
    requires p in x.names
  {
    && x.names[p].inode in d && d[x.names[p].inode].Inode? && Named(d, x, p) && ListOk(d, d[x.names[p].inode])
  }

  ghost predicate PathsOk(d: Disk, x: Index) {
    && [] in x.names && Ino(d, x, []).dir
    && forall p {:trigger PathOk(d, x, p)} :: p in x.names ==> PathOk(d, x, p)
  }

  ghost predicate EntriesOk(d: Disk, x: Index) {
    forall p, i: nat, j: nat, e {:trigger Entered(d, x, p, i, j, e)} {:trigger EntryAt(d, Ino(d, x, p), i, j, e)} ::
      p in x.names && Ino(d, x, p).dir ==> Entered(d, x, p, i, j, e)
  }

  /** The disk decodes to a tree: the index finds every inode, and nothing is shared. */
  ghost predicate WellFormed(d: Disk, x: Index) { PathsOk(d, x) && EntriesOk(d, x) && UseOk(d, x) }

  // ----- the tree on the disk -----

  datatype Node = Dir(owner: string) | File(owner: string, contents: seq<string>)

  type Tree = map<Path, Node>

  function Contents(d: Disk, blocks: seq<nat>): (c: seq<string>)
    ensures |c| == |blocks| && forall i :: 0 <= i < |c| ==> c[i] == DataAt(d, blocks[i])
  {
    if blocks == [] then [] else Contents(d, blocks[..|blocks| - 1]) + [DataAt(d, blocks[|blocks| - 1])]
  }

  function NodeAt(d: Disk, ino: Block): Node
    requires ino.Inode?
  {
    if ino.dir then Dir(ino.owner) else File(ino.owner, Contents(d, ino.blocks))
  }

  function TreeOf(d: Disk, x: Index): Tree { map p | p in x.names :: NodeAt(d, Ino(d, x, p)) }

  /** The disk, read by itself, is this tree. */
  ghost predicate Decodes(d: Disk, tree: Tree) {
    exists x {:trigger WellFormed(d, x)} :: WellFormed(d, x) && TreeOf(d, x) == tree
  }

  /** The disk alone determines where every path is. */
  lemma {:induction false} SameSpot(d: Disk, x: Index, y: Index, p: Path)
    requires WellFormed(d, x) && WellFormed(d, y) && p in x.names
    ensures p in y.names && y.names[p].inode == x.names[p].inode
    decreases |p|
  {
    assert PathOk(d, x, p);
    if p == [] { assert PathOk(d, y, p); } else {
      SameSpot(d, x, y, Parent(p));
      assert PathOk(d, x, []) && UsedBy(x, ROOT_BLOCK, InodeOf([])) && UsedBy(x, x.names[p].inode, InodeOf(p));
      assert Entered(d, y, Parent(p), x.names[p].table, x.names[p].slot, Entry(Last(p), x.names[p].inode));
      ChildOfParent(p);
    }
  }

  lemma SameTree(d: Disk, x: Index, y: Index)
    requires WellFormed(d, x) && WellFormed(d, y)
    ensures TreeOf(d, x) == TreeOf(d, y)
  {
    forall p ensures p in x.names <==> p in y.names {
      if p in x.names { SameSpot(d, x, y, p); }
      if p in y.names { SameSpot(d, y, x, p); }
    }
    forall p | p in x.names ensures Ino(d, x, p) == Ino(d, y, p) { SameSpot(d, x, y, p); }
  }

  /** So the disk is at most one tree. */
  lemma DecodesOnce(d: Disk, a: Tree, b: Tree)
    requires Decodes(d, a) && Decodes(d, b)
    ensures a == b
  {
    var x :| WellFormed(d, x) && TreeOf(d, x) == a;
    var y :| WellFormed(d, y) && TreeOf(d, y) == b;
    SameTree(d, x, y);
  }
}
