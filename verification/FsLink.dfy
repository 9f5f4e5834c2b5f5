/** Adding to the tree: a file's block, a file's next block, a new file or directory. */
module FsLink {
  import opened FsDisk
  import opened FsUpdate

  /** A file has no children. */
  lemma FileChildren(d: Disk, x: Index, p: Path)
    requires PathsOk(d, x) && p in x.names && !Ino(d, x, p).dir
    ensures forall q {:trigger x.names[q]} :: q in x.names && q != [] ==> Parent(q) in x.names && Parent(q) != p
  {
    forall q | q in x.names && q != [] ensures Parent(q) in x.names && Parent(q) != p { assert PathOk(d, x, q); }
  }

  lemma UsesKept(d: Disk, x: Index, d2: Disk)
    requires UseOk(d, x) && forall q {:trigger Ino(d2, x, q)} :: q in x.names ==> Ino(d2, x, q) == Ino(d, x, q)
    ensures UseOk(d2, x)
  {
    forall q, i: nat | q in x.names && i < |Ino(d2, x, q).blocks|
      ensures UsedBy(x, Ino(d2, x, q).blocks[i], BlockOf(q, i))
    {
      assert UsedBy(x, Ino(d, x, q).blocks[i], BlockOf(q, i));
    }
    forall b | b in x.use ensures Uses(d2, x, b, x.use[b]) {
      assert Uses(d, x, b, x.use[b]);
      if x.use[b].BlockOf? { assert Ino(d2, x, x.use[b].path) == Ino(d, x, x.use[b].path); }
    }
  }

  // ----- a file's block -----

  /** Block `i` of file `p` gets new contents. */
  lemma OverwriteOk(d: Disk, x: Index, p: Path, i: nat, data: string, d2: Disk)
    requires WellFormed(d, x) && p in x.names && !Ino(d, x, p).dir && i < |Ino(d, x, p).blocks|
    requires d2 == d[Ino(d, x, p).blocks[i] := Data(data)]
    ensures Patched(d, x, d2, x, p, {}) && WellFormed(d2, x) && Ino(d2, x, p) == Ino(d, x, p)
    ensures TreeOf(d2, x) == TreeOf(d, x)[p := File(Ino(d, x, p).owner, Contents(d, Ino(d, x, p).blocks)[i := data])]
  {
    var c := Ino(d, x, p).blocks[i];
    assert UsedBy(x, c, BlockOf(p, i)) && PathOk(d, x, p) && UsedBy(x, x.names[p].inode, InodeOf(p));
    forall q | q in x.names && q != p ensures SameNode(d, x, d2, x, q) { Unnoticed(d, x, q, c, Data(data), x); }
    OverwriteList(d, x, p, c, data, d2);
    UsesKept(d, x, d2);
    PatchedOk(d, x, d2, x, p, {});
    OverwriteContents(d, x, p, i, data, d2);
    OverwriteTree(d, x, p, d2, File(Ino(d, x, p).owner, Contents(d, Ino(d, x, p).blocks)[i := data]));
  }

  lemma OverwriteList(d: Disk, x: Index, p: Path, c: nat, data: string, d2: Disk)
    requires PathsOk(d, x) && p in x.names && !Ino(d, x, p).dir && c != x.names[p].inode && d2 == d[c := Data(data)]
    ensures PatchOk(d2, x, p)
  {
    assert PathOk(d, x, p);
    FileChildren(d, x, p);
  }

  lemma OverwriteContents(d: Disk, x: Index, p: Path, i: nat, data: string, d2: Disk)
    requires UseOk(d, x) && p in x.names && i < |Ino(d, x, p).blocks| && d2 == d[Ino(d, x, p).blocks[i] := Data(data)]
    ensures Contents(d2, Ino(d, x, p).blocks) == Contents(d, Ino(d, x, p).blocks)[i := data]
  {
    var bs := Ino(d, x, p).blocks;
    forall k | 0 <= k < |bs| ensures DataAt(d2, bs[k]) == Contents(d, bs)[i := data][k] {
      assert UsedBy(x, bs[k], BlockOf(p, k)) && UsedBy(x, bs[i], BlockOf(p, i));
    }
  }

  /** Only one node of the tree changes. */
  lemma OverwriteTree(d: Disk, x: Index, p: Path, d2: Disk, n: Node)
    requires Patched(d, x, d2, x, p, {}) && NodeAt(d2, Ino(d2, x, p)) == n
    ensures TreeOf(d2, x) == TreeOf(d, x)[p := n]
  {
    forall q | q in x.names && q != p ensures TreeOf(d2, x)[q] == TreeOf(d, x)[q] {
      PatchedTree(d, x, d2, x, p, {}, q);
    }
  }

  // ----- a file's next block -----

  function Appended(ino: Block, b: nat): Block
    requires ino.Inode?
  {
    Inode(ino.dir, ino.owner, ino.blocks + [b])
  }

  /** A block that a request has taken becomes block `k` of `p`. */
  function Given(x: Index, p: Path, k: nat, b: nat): Index { x.(use := x.use[b := BlockOf(p, k)]) }

  predicate IsTaken(x: Index, b: nat) { b in x.use && x.use[b].Taken? }

  /** File `p` grows by block `b`, which holds the data already. */
  lemma AppendOk(d: Disk, x: Index, p: Path, b: nat, data: string, d2: Disk, x2: Index)
    requires WellFormed(d, x) && p in x.names && !Ino(d, x, p).dir && |Ino(d, x, p).blocks| < FS_MAXFILEBLOCKS
    requires IsTaken(x, b) && b in d && d[b] == Data(data)
    requires d2 == d[x.names[p].inode := Appended(Ino(d, x, p), b)] && x2 == Given(x, p, |Ino(d, x, p).blocks|, b)
    ensures Patched(d, x, d2, x2, p, {}) && WellFormed(d2, x2) && Ino(d2, x2, p) == Appended(Ino(d, x, p), b)
    ensures TreeOf(d2, x2) == TreeOf(d, x)[p := File(Ino(d, x, p).owner, Contents(d, Ino(d, x, p).blocks) + [data])]
  {
    var c := x.names[p].inode;
    assert UsedBy(x, c, InodeOf(p)) && PathOk(d, x, p);
    forall q | q in x.names && q != p ensures SameNode(d, x, d2, x2, q) { Unnoticed(d, x, q, c, d2[c], x2); }
    AppendList(d, x, p, b, data, d2);
    FileChildren(d, x, p);
    AppendUse(d, x, p, b, d2, x2);
    PatchedOk(d, x, d2, x2, p, {});
    AppendContents(d, x, p, b, data, d2);
    AppendTree(d, x, p, d2, x2, File(Ino(d, x, p).owner, Contents(d, Ino(d, x, p).blocks) + [data]));
  }

  lemma AppendList(d: Disk, x: Index, p: Path, b: nat, data: string, d2: Disk)
    requires PathsOk(d, x) && UseOk(d, x) && p in x.names && !Ino(d, x, p).dir
    requires |Ino(d, x, p).blocks| < FS_MAXFILEBLOCKS
    requires IsTaken(x, b) && b in d && d[b] == Data(data)
    requires d2 == d[x.names[p].inode := Appended(Ino(d, x, p), b)]
    ensures ListOk(d2, Appended(Ino(d, x, p), b))
  {
    assert PathOk(d, x, p) && UsedBy(x, x.names[p].inode, InodeOf(p));
    var bs := Ino(d, x, p).blocks;
    forall i | 0 <= i < |bs| + 1 ensures (bs + [b])[i] in d2 && d2[(bs + [b])[i]].Data? {
      if i < |bs| { assert UsedBy(x, bs[i], BlockOf(p, i)); }
    }
  }

  lemma AppendUse(d: Disk, x: Index, p: Path, b: nat, d2: Disk, x2: Index)
    requires UseOk(d, x) && p in x.names && IsTaken(x, b)
    requires d2 == d[x.names[p].inode := Appended(Ino(d, x, p), b)] && x2 == Given(x, p, |Ino(d, x, p).blocks|, b)
    ensures UseOk(d2, x2)
  {
    var k := |Ino(d, x, p).blocks|;
    forall q | q in x2.names ensures UsedBy(x2, x2.names[q].inode, InodeOf(q)) {
      assert UsedBy(x, x.names[q].inode, InodeOf(q));
    }
    forall q | q in x.names && q != p ensures Ino(d2, x2, q) == Ino(d, x, q) {
      assert UsedBy(x, x.names[q].inode, InodeOf(q)) && UsedBy(x, x.names[p].inode, InodeOf(p));
    }
    forall q, i: nat | q in x2.names && i < |Ino(d2, x2, q).blocks|
      ensures UsedBy(x2, Ino(d2, x2, q).blocks[i], BlockOf(q, i))
    {
      if q != p || i < k { assert UsedBy(x, Ino(d, x, q).blocks[i], BlockOf(q, i)); }
    }
    forall c | c in x2.use ensures Uses(d2, x2, c, x2.use[c]) { if c != b { assert Uses(d, x, c, x.use[c]); } }
  }

  lemma AppendContents(d: Disk, x: Index, p: Path, b: nat, data: string, d2: Disk)
    requires UseOk(d, x) && p in x.names && IsTaken(x, b) && b in d && d[b] == Data(data)
    requires d2 == d[x.names[p].inode := Appended(Ino(d, x, p), b)]
    ensures Contents(d2, Ino(d, x, p).blocks + [b]) == Contents(d, Ino(d, x, p).blocks) + [data]
  {
    var bs := Ino(d, x, p).blocks;
    assert UsedBy(x, x.names[p].inode, InodeOf(p));
    forall k | 0 <= k < |bs| ensures DataAt(d2, bs[k]) == DataAt(d, bs[k]) { assert UsedBy(x, bs[k], BlockOf(p, k)); }
    var cs := Contents(d2, bs + [b]);
    forall k | 0 <= k < |cs| ensures cs[k] == (Contents(d, bs) + [data])[k] {
      assert cs[k] == DataAt(d2, (bs + [b])[k]);
    }
  }

  lemma AppendTree(d: Disk, x: Index, p: Path, d2: Disk, x2: Index, n: Node)
    requires Patched(d, x, d2, x2, p, {}) && x2.names == x.names && NodeAt(d2, Ino(d2, x2, p)) == n
    ensures TreeOf(d2, x2) == TreeOf(d, x)[p := n]
  {
    forall q | q in x.names && q != p ensures TreeOf(d2, x2)[q] == TreeOf(d, x)[q] {
      PatchedTree(d, x, d2, x2, p, {}, q);
    }
  }

  // ----- a new file or directory -----

  function Linked(x: Index, q: Path, spot: Spot): Index { Index(x.names[q := spot], x.use[spot.inode := InodeOf(q)]) }

  /** The inode of a new file or directory is written, but nothing leads to it yet. */
  predicate NewInode(d: Disk, x: Index, n: nat, dir: bool, owner: string) {
    IsTaken(x, n) && n in d && d[n] == Inode(dir, owner, [])
  }

  function NewNode(dir: bool, owner: string): Node { if dir then Dir(owner) else File(owner, []) }

  /** Slot `j` of table `i` of directory `p` is unused. */
  predicate SlotFree(d: Disk, x: Index, p: Path, i: nat, j: nat) {
    && i < |Ino(d, x, p).blocks| && j < |TableAt(d, Ino(d, x, p).blocks[i])|
      && TableAt(d, Ino(d, x, p).blocks[i])[j].inode == 0
  }

  /** Entry 0 is unused, and the root has no entry: no path has the inode 0 but the root. */
  lemma InodeNotZero(d: Disk, x: Index, q: Path)
    requires WellFormed(d, x) && q in x.names && q != []
    ensures x.names[q].inode != 0
  {
    assert PathOk(d, x, []) && UsedBy(x, x.names[[]].inode, InodeOf([])) && UsedBy(x, x.names[q].inode, InodeOf(q));
  }

  ghost predicate Linking(d: Disk, x: Index, p: Path, i: nat, j: nat, q: Path, n: nat, d2: Disk, x2: Index) {
    && WellFormed(d, x) && p in x.names && Ino(d, x, p).dir && SlotFree(d, x, p, i, j)
    && q != [] && Parent(q) == p && q !in x.names
    && x2 == Linked(x, q, Spot(n, i, j))
    && d2 == d[Ino(d, x, p).blocks[i] := Table(TableAt(d, Ino(d, x, p).blocks[i])[j := Entry(Last(q), n)])]
  }

  /** The new entry goes to an unused slot. */
  lemma LinkOk(d: Disk, x: Index, p: Path, i: nat, j: nat, q: Path, n: nat, dir: bool, owner: string, d2: Disk,
               x2: Index)
    requires Linking(d, x, p, i, j, q, n, d2, x2) && NewInode(d, x, n, dir, owner)
    ensures Patched(d, x, d2, x2, p, {q}) && WellFormed(d2, x2) && Ino(d2, x2, p) == Ino(d, x, p)
    ensures TreeOf(d2, x2) == TreeOf(d, x)[q := NewNode(dir, owner)]
  {
    LinkInode(d, x, p, i, j, q, n, d2, x2);
    LinkPatched(d, x, p, i, j, q, n, dir, owner, d2, x2);
    LinkWellFormed(d, x, p, i, j, q, n, dir, owner, d2, x2);
    LinkTree(d, x, p, q, d2, x2, NewNode(dir, owner));
  }

  lemma LinkWellFormed(d: Disk, x: Index, p: Path, i: nat, j: nat, q: Path, n: nat, dir: bool, owner: string, d2: Disk,
                       x2: Index)
    requires Linking(d, x, p, i, j, q, n, d2, x2) && NewInode(d, x, n, dir, owner)
    requires Patched(d, x, d2, x2, p, {q}) && Ino(d2, x2, p) == Ino(d, x, p) && x2.names[p].inode in d2
    requires d2[x2.names[p].inode].Inode?
    requires forall r {:trigger Ino(d2, x2, r)} :: r in x.names ==> Ino(d2, x2, r) == Ino(d, x, r)
    ensures WellFormed(d2, x2)
  {
    TakenNotRoot(d, x, n);
    LinkList(d, x, p, i, j, q, n, d2, x2);
    LinkNames(d, x, p, i, j, q, n, d2, x2);
    LinkEntries(d, x, p, i, j, q, n, d2, x2);
    LinkUse(d, x, p, i, j, q, n, dir, owner, d2, x2);
    LinkPatch(d, x, p, d2, x2);
    PatchedOk(d, x, d2, x2, p, {q});
  }

  lemma LinkPatch(d: Disk, x: Index, p: Path, d2: Disk, x2: Index)
    requires p in x2.names && Ino(d2, x2, p) == Ino(d, x, p) && x2.names[p].inode in d2 && d2[x2.names[p].inode].Inode?
    requires ListOk(d2, Ino(d, x, p))
    requires forall r {:trigger x2.names[r]} :: r in x2.names && r != [] ==> Parent(r) in x2.names
    requires forall r {:trigger x2.names[r]} :: r in x2.names && r != [] && Parent(r) == p ==> Named(d2, x2, r)
    requires forall k: nat, l: nat, e {:trigger Entered(d2, x2, p, k, l, e)} :: Entered(d2, x2, p, k, l, e)
    ensures PatchOk(d2, x2, p)
  {}

  lemma LinkPatched(d: Disk, x: Index, p: Path, i: nat, j: nat, q: Path, n: nat, dir: bool, owner: string, d2: Disk,
                    x2: Index)
    requires Linking(d, x, p, i, j, q, n, d2, x2) && NewInode(d, x, n, dir, owner) && Ino(d2, x2, p) == Ino(d, x, p)
    ensures Patched(d, x, d2, x2, p, {q}) && x2.names[p].inode in d2 && d2[x2.names[p].inode].Inode?
    ensures forall r {:trigger Ino(d2, x2, r)} :: r in x.names ==> Ino(d2, x2, r) == Ino(d, x, r)
  {
    var c := Ino(d, x, p).blocks[i];
    assert UsedBy(x, c, BlockOf(p, i)) && UsedBy(x, x.names[p].inode, InodeOf(p)) && PathOk(d, x, p);
    OthersUnnoticed(d, x, p, c, d2[c], x2, {q}, d2);
    assert Newborn(d2, x2, p, q);
  }

  lemma ListWithSlot(d: Disk, ino: Block, i: nat, j: nat, e: Entry, d2: Disk)
    requires ino.Inode? && ino.dir && ListOk(d, ino) && i < |ino.blocks| && j < |TableAt(d, ino.blocks[i])|
    requires e.inode != 0
    requires d2 == d[ino.blocks[i] := Table(TableAt(d, ino.blocks[i])[j := e])]
    ensures ListOk(d2, ino)
  {
    forall k | 0 <= k < |ino.blocks| ensures TableOk(d2, ino.blocks[k]) {
      assert TableOk(d, ino.blocks[k]);
      UsedTable(d, ino.blocks[k], ino.blocks[i], j, e, d2);
    }
  }

  lemma LinkInode(d: Disk, x: Index, p: Path, i: nat, j: nat, q: Path, n: nat, d2: Disk, x2: Index)
    requires Linking(d, x, p, i, j, q, n, d2, x2)
    ensures Ino(d2, x2, p) == Ino(d, x, p)
  {
    assert UsedBy(x, Ino(d, x, p).blocks[i], BlockOf(p, i)) && UsedBy(x, x.names[p].inode, InodeOf(p))
      && PathOk(d, x, p);
  }

  lemma LinkList(d: Disk, x: Index, p: Path, i: nat, j: nat, q: Path, n: nat, d2: Disk, x2: Index)
    requires Linking(d, x, p, i, j, q, n, d2, x2) && n != 0
    ensures ListOk(d2, Ino(d, x, p))
  {
    assert PathOk(d, x, p);
    ListWithSlot(d, Ino(d, x, p), i, j, Entry(Last(q), n), d2);
  }

  lemma TakenNotRoot(d: Disk, x: Index, n: nat)
    requires WellFormed(d, x) && IsTaken(x, n)
    ensures n != 0
  {
    assert PathOk(d, x, []) && UsedBy(x, x.names[[]].inode, InodeOf([]));
  }

  /** Using one more slot of one table leaves every table used. */
  lemma UsedTable(d: Disk, b: nat, c: nat, j: nat, e: Entry, d2: Disk)
    requires TableOk(d, b) && e.inode != 0 && j < |TableAt(d, c)| && d2 == d[c := Table(TableAt(d, c)[j := e])]
    ensures TableOk(d2, b)
  {
    if b == c { assert d2[b].entries[j].inode != 0; } else {
      var l :| 0 <= l < FS_DIRENTRIES && d[b].entries[l].inode != 0;
      assert d2[b].entries[l].inode != 0;
    }
  }

  /** The other slots are as they were. */
  lemma LinkSlots(d: Disk, x: Index, p: Path, i: nat, j: nat, q: Path, n: nat, d2: Disk, x2: Index, k: nat, l: nat,
                  e: Entry)
    requires Linking(d, x, p, i, j, q, n, d2, x2)
    ensures
      EntryAt(d2, Ino(d, x, p), k, l, e) <==>
        if k == i && l == j then e == Entry(Last(q), n) else EntryAt(d, Ino(d, x, p), k, l, e)
  {
    var bs := Ino(d, x, p).blocks;
    assert PathOk(d, x, p) && TableOk(d, bs[i]) && UsedBy(x, bs[i], BlockOf(p, i));
    if k < |bs| { assert UsedBy(x, bs[k], BlockOf(p, k)); }
  }

  lemma LinkNames(d: Disk, x: Index, p: Path, i: nat, j: nat, q: Path, n: nat, d2: Disk, x2: Index)
    requires Linking(d, x, p, i, j, q, n, d2, x2) && Ino(d2, x2, p) == Ino(d, x, p)
    ensures forall r {:trigger x2.names[r]} :: r in x2.names && r != [] ==> Parent(r) in x2.names
    ensures forall r {:trigger x2.names[r]} :: r in x2.names && r != [] && Parent(r) == p ==> Named(d2, x2, r)
  {
    forall r | r in x2.names && r != [] ensures Parent(r) in x2.names && (Parent(r) == p ==> Named(d2, x2, r)) {
      if r != q { assert PathOk(d, x, r); }
      if Parent(r) == p {
        var s := x2.names[r];
        LinkSlots(d, x, p, i, j, q, n, d2, x2, s.table, s.slot, Entry(Last(r), s.inode));
        if r != q { InodeNotZero(d, x, r); }
      }
    }
  }

  lemma LinkEntries(d: Disk, x: Index, p: Path, i: nat, j: nat, q: Path, n: nat, d2: Disk, x2: Index)
    requires Linking(d, x, p, i, j, q, n, d2, x2) && Ino(d2, x2, p) == Ino(d, x, p)
    ensures forall k: nat, l: nat, e {:trigger Entered(d2, x2, p, k, l, e)} :: Entered(d2, x2, p, k, l, e)
  {
    forall k: nat, l: nat, e ensures Entered(d2, x2, p, k, l, e) {
      LinkSlots(d, x, p, i, j, q, n, d2, x2, k, l, e);
      ChildOfParent(q);
      assert Entered(d, x, p, k, l, e);
    }
  }

  lemma LinkUse(d: Disk, x: Index, p: Path, i: nat, j: nat, q: Path, n: nat, dir: bool, owner: string, d2: Disk,
                x2: Index)
    requires Linking(d, x, p, i, j, q, n, d2, x2) && NewInode(d, x, n, dir, owner)
    requires forall r {:trigger Ino(d2, x2, r)} :: r in x.names ==> Ino(d2, x2, r) == Ino(d, x, r)
    ensures UseOk(d2, x2) && Newborn(d2, x2, p, q)
  {
    assert UsedBy(x, Ino(d, x, p).blocks[i], BlockOf(p, i));
    assert Ino(d2, x2, q).blocks == [];
    forall r | r in x2.names ensures UsedBy(x2, x2.names[r].inode, InodeOf(r)) {
      if r != q { assert UsedBy(x, x.names[r].inode, InodeOf(r)); }
    }
    forall r, k: nat | r in x2.names && k < |Ino(d2, x2, r).blocks|
      ensures UsedBy(x2, Ino(d2, x2, r).blocks[k], BlockOf(r, k))
    {
      if r != q { assert UsedBy(x, Ino(d, x, r).blocks[k], BlockOf(r, k)); }
    }
    forall c | c in x2.use ensures Uses(d2, x2, c, x2.use[c]) {
      if c != n {
        assert Uses(d, x, c, x.use[c]);
        if x.use[c].BlockOf? { assert Ino(d2, x2, x.use[c].path) == Ino(d, x, x.use[c].path); }
      }
    }
  }

  lemma LinkTree(d: Disk, x: Index, p: Path, q: Path, d2: Disk, x2: Index, n: Node)
    requires Patched(d, x, d2, x2, p, {q}) && x2.names.Keys == x.names.Keys + {q} && Ino(d, x, p).dir
    requires NodeAt(d2, Ino(d2, x2, q)) == n
    ensures TreeOf(d2, x2) == TreeOf(d, x)[q := n]
  {
    forall r | r in x.names && r != q ensures TreeOf(d2, x2)[r] == TreeOf(d, x)[r] {
      if r != p { PatchedTree(d, x, d2, x2, p, {q}, r); }
    }
  }

  // ----- a new entry in a new table -----

  /** The table holds the new entry in its first slot, and nothing else. */
  predicate NewTable(d: Disk, x: Index, t: nat, e: Entry) {
    && IsTaken(x, t) && t in d && d[t].Table? && |d[t].entries| == FS_DIRENTRIES && d[t].entries[0] == e
    && forall j {:trigger d[t].entries[j]} :: 0 < j < FS_DIRENTRIES ==> d[t].entries[j].inode == 0
  }

  ghost predicate Extending(d: Disk, x: Index, p: Path, t: nat, q: Path, n: nat, d2: Disk, x2: Index) {
    && WellFormed(d, x) && p in x.names && Ino(d, x, p).dir && |Ino(d, x, p).blocks| < FS_MAXFILEBLOCKS
    && q != [] && Parent(q) == p && q !in x.names && t != n && NewTable(d, x, t, Entry(Last(q), n)) && IsTaken(x, n)
    && x2 == Linked(Given(x, p, |Ino(d, x, p).blocks|, t), q, Spot(n, |Ino(d, x, p).blocks|, 0))
    && d2 == d[x.names[p].inode := Appended(Ino(d, x, p), t)]
  }

  /** The directory grows by a table that holds the new entry already. */
  lemma ExtendOk(d: Disk, x: Index, p: Path, t: nat, q: Path, n: nat, dir: bool, owner: string, d2: Disk, x2: Index)
    requires Extending(d, x, p, t, q, n, d2, x2) && NewInode(d, x, n, dir, owner)
    ensures Patched(d, x, d2, x2, p, {q}) && WellFormed(d2, x2) && Ino(d2, x2, p) == Appended(Ino(d, x, p), t)
    ensures TreeOf(d2, x2) == TreeOf(d, x)[q := NewNode(dir, owner)]
  {
    ExtendPatched(d, x, p, t, q, n, dir, owner, d2, x2);
    ExtendWellFormed(d, x, p, t, q, n, dir, owner, d2, x2);
    LinkTree(d, x, p, q, d2, x2, NewNode(dir, owner));
  }

  lemma ExtendPatched(d: Disk, x: Index, p: Path, t: nat, q: Path, n: nat, dir: bool, owner: string, d2: Disk,
                      x2: Index)
    requires Extending(d, x, p, t, q, n, d2, x2) && NewInode(d, x, n, dir, owner)
    ensures Patched(d, x, d2, x2, p, {q}) && Ino(d2, x2, p) == Appended(Ino(d, x, p), t)
    ensures forall r {:trigger Ino(d2, x2, r)} :: r in x.names && r != p ==> Ino(d2, x2, r) == Ino(d, x, r)
  {
    var c := x.names[p].inode;
    assert UsedBy(x, c, InodeOf(p)) && PathOk(d, x, p);
    OthersUnnoticed(d, x, p, c, d2[c], x2, {q}, d2);
    assert Newborn(d2, x2, p, q);
  }

  lemma ExtendWellFormed(d: Disk, x: Index, p: Path, t: nat, q: Path, n: nat, dir: bool, owner: string, d2: Disk,
                         x2: Index)
    requires Extending(d, x, p, t, q, n, d2, x2) && NewInode(d, x, n, dir, owner)
    requires Patched(d, x, d2, x2, p, {q}) && Ino(d2, x2, p) == Appended(Ino(d, x, p), t)
    requires forall r {:trigger Ino(d2, x2, r)} :: r in x.names && r != p ==> Ino(d2, x2, r) == Ino(d, x, r)
    ensures WellFormed(d2, x2)
  {
    TakenNotRoot(d, x, n);
    ExtendList(d, x, p, t, q, n, d2, x2);
    ExtendNames(d, x, p, t, q, n, d2, x2);
    ExtendEntries(d, x, p, t, q, n, d2, x2);
    ExtendUse(d, x, p, t, q, n, d2, x2);
    PatchedOk(d, x, d2, x2, p, {q});
  }

  lemma ExtendList(d: Disk, x: Index, p: Path, t: nat, q: Path, n: nat, d2: Disk, x2: Index)
    requires Extending(d, x, p, t, q, n, d2, x2) && n != 0
    ensures ListOk(d2, Appended(Ino(d, x, p), t))
  {
    var bs := Ino(d, x, p).blocks + [t];
    assert PathOk(d, x, p) && UsedBy(x, x.names[p].inode, InodeOf(p));
    forall k | 0 <= k < |bs| ensures TableOk(d2, bs[k]) {
      if k < |bs| - 1 {
        assert UsedBy(x, Ino(d, x, p).blocks[k], BlockOf(p, k)) && TableOk(d, bs[k]);
        assert d2[bs[k]] == d[bs[k]];
      } else {
        assert d2[t].entries[0].inode != 0;
      }
    }
  }

  lemma ExtendSlots(d: Disk, x: Index, p: Path, t: nat, q: Path, n: nat, d2: Disk, x2: Index, k: nat, l: nat, e: Entry)
    requires Extending(d, x, p, t, q, n, d2, x2)
    ensures k < |Ino(d, x, p).blocks| ==>
      (EntryAt(d2, Appended(Ino(d, x, p), t), k, l, e) <==> EntryAt(d, Ino(d, x, p), k, l, e))
    ensures k == |Ino(d, x, p).blocks| && l == 0 ==>
      (EntryAt(d2, Appended(Ino(d, x, p), t), k, l, e) <==> e == Entry(Last(q), n))
    ensures k == |Ino(d, x, p).blocks| && l > 0 && EntryAt(d2, Appended(Ino(d, x, p), t), k, l, e) ==> e.inode == 0
  {
    assert PathOk(d, x, p) && UsedBy(x, x.names[p].inode, InodeOf(p));
    if k < |Ino(d, x, p).blocks| { assert UsedBy(x, Ino(d, x, p).blocks[k], BlockOf(p, k)); }
  }

  lemma ExtendNames(d: Disk, x: Index, p: Path, t: nat, q: Path, n: nat, d2: Disk, x2: Index)
    requires Extending(d, x, p, t, q, n, d2, x2) && Ino(d2, x2, p) == Appended(Ino(d, x, p), t)
    ensures forall r {:trigger x2.names[r]} :: r in x2.names && r != [] ==> Parent(r) in x2.names
    ensures forall r {:trigger x2.names[r]} :: r in x2.names && r != [] && Parent(r) == p ==> Named(d2, x2, r)
  {
    forall r | r in x2.names && r != [] ensures Parent(r) in x2.names && (Parent(r) == p ==> Named(d2, x2, r)) {
      if r != q { assert PathOk(d, x, r); }
      if Parent(r) == p {
        var s := x2.names[r];
        ExtendSlots(d, x, p, t, q, n, d2, x2, s.table, s.slot, Entry(Last(r), s.inode));
      }
    }
  }

  lemma ExtendEntries(d: Disk, x: Index, p: Path, t: nat, q: Path, n: nat, d2: Disk, x2: Index)
    requires Extending(d, x, p, t, q, n, d2, x2) && Ino(d2, x2, p) == Appended(Ino(d, x, p), t)
    ensures forall k: nat, l: nat, e {:trigger Entered(d2, x2, p, k, l, e)} :: Entered(d2, x2, p, k, l, e)
  {
    forall k: nat, l: nat, e ensures Entered(d2, x2, p, k, l, e) {
      ExtendSlots(d, x, p, t, q, n, d2, x2, k, l, e);
      ChildOfParent(q);
      assert Entered(d, x, p, k, l, e);
    }
  }

  ghost predicate Extended(d: Disk, x: Index, p: Path, t: nat, q: Path, n: nat, d2: Disk, x2: Index) {
    && Extending(d, x, p, t, q, n, d2, x2) && Ino(d2, x2, p) == Appended(Ino(d, x, p), t) && Newborn(d2, x2, p, q)
    && forall r {:trigger Ino(d2, x2, r)} :: r in x.names && r != p ==> Ino(d2, x2, r) == Ino(d, x, r)
  }

  lemma ExtendUse(d: Disk, x: Index, p: Path, t: nat, q: Path, n: nat, d2: Disk, x2: Index)
    requires Extended(d, x, p, t, q, n, d2, x2)
    ensures UseOk(d2, x2)
  {
    forall r | r in x2.names ensures UsedBy(x2, x2.names[r].inode, InodeOf(r)) {
      if r != q { assert UsedBy(x, x.names[r].inode, InodeOf(r)); }
    }
    forall r, i: nat | r in x2.names && i < |Ino(d2, x2, r).blocks|
      ensures UsedBy(x2, Ino(d2, x2, r).blocks[i], BlockOf(r, i))
    {
      ExtendBlock(d, x, p, t, q, n, d2, x2, r, i);
    }
    forall c | c in x2.use ensures Uses(d2, x2, c, x2.use[c]) { ExtendUses(d, x, p, t, q, n, d2, x2, c); }
  }

  lemma ExtendBlock(d: Disk, x: Index, p: Path, t: nat, q: Path, n: nat, d2: Disk, x2: Index, r: Path, i: nat)
    requires Extended(d, x, p, t, q, n, d2, x2) && r in x2.names && i < |Ino(d2, x2, r).blocks|
    ensures UsedBy(x2, Ino(d2, x2, r).blocks[i], BlockOf(r, i))
  {
    if r != q && (r != p || i < |Ino(d, x, p).blocks|) { assert UsedBy(x, Ino(d, x, r).blocks[i], BlockOf(r, i)); }
  }

  lemma ExtendUses(d: Disk, x: Index, p: Path, t: nat, q: Path, n: nat, d2: Disk, x2: Index, c: nat)
    requires Extended(d, x, p, t, q, n, d2, x2) && c in x2.use
    ensures Uses(d2, x2, c, x2.use[c])
  {
    if c != n && c != t {
      assert Uses(d, x, c, x.use[c]);
      if x.use[c].BlockOf? && x.use[c].path != p { assert Ino(d2, x2, x.use[c].path) == Ino(d, x, x.use[c].path); }
    }
  }
}
