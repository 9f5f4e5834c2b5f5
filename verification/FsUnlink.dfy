/** Taking a file or an empty directory out of the tree. */
module FsUnlink {
  import opened Wrappers
  import opened FsDisk
  import opened FsUpdate

  /** Everything about path `q` is forgotten. */
  function Forgotten(x: Index, q: Path): Index {
    Index(x.names - {q}, map b | b in x.use && About(x.use[b]) != Some(q) :: x.use[b])
  }

  /** What is left when path `q` is forgotten. */
  ghost predicate Forgets(x: Index, q: Path, x2: Index) {
    && (forall r {:trigger r in x2.names} :: r in x2.names <==> r in x.names && r != q)
    && (forall r {:trigger x2.names[r]} :: r in x2.names ==> x2.names[r] == x.names[r])
    && (forall b {:trigger b in x2.use} :: b in x2.use <==> b in x.use && About(x.use[b]) != Some(q))
    && (forall b {:trigger x2.use[b]} :: b in x2.use ==> x2.use[b] == x.use[b])
  }

  lemma ForgottenForgets(x: Index, q: Path)
    ensures Forgets(x, q, Forgotten(x, q))
  {}

  /** A file, or a directory without tables. */
  predicate Removable(d: Disk, x: Index, q: Path) {
    q in x.names && q != [] && (Ino(d, x, q).dir ==> Ino(d, x, q).blocks == [])
  }

  lemma NoChildren(d: Disk, x: Index, q: Path)
    requires PathsOk(d, x) && Removable(d, x, q)
    ensures forall r {:trigger x.names[r]} :: r in x.names && r != [] ==> Parent(r) in x.names && Parent(r) != q
  {
    forall r | r in x.names && r != [] ensures Parent(r) in x.names && Parent(r) != q { assert PathOk(d, x, r); }
  }

  /** Table `i` has a used entry besides slot `j`. */
  predicate OthersUsed(es: seq<Entry>, j: nat) {
    exists l {:trigger es[l]} :: 0 <= l < |es| && l != j && es[l].inode != 0
  }

  function Erased(es: seq<Entry>, j: nat): seq<Entry> {
    if j < |es| then es[j := Entry("", 0)] else es
  }

  // ----- the entry goes -----

  ghost predicate Unlinking(d: Disk, x: Index, p: Path, q: Path, d2: Disk, x2: Index) {
    && WellFormed(d, x) && Removable(d, x, q) && p == Parent(q) && p in x.names && Ino(d, x, p).dir
    && x.names[q].table < |Ino(d, x, p).blocks|
    && OthersUsed(TableAt(d, Ino(d, x, p).blocks[x.names[q].table]), x.names[q].slot)
    && Forgets(x, q, x2)
    && d2 == d[Ino(d, x, p).blocks[x.names[q].table] :=
                 Table(Erased(TableAt(d, Ino(d, x, p).blocks[x.names[q].table]), x.names[q].slot))]
  }

  lemma UnlinkOk(d: Disk, x: Index, p: Path, q: Path, d2: Disk, x2: Index)
    requires Unlinking(d, x, p, q, d2, x2)
    ensures Patched(d, x, d2, x2, p, {}) && WellFormed(d2, x2) && Ino(d2, x2, p) == Ino(d, x, p)
    ensures TreeOf(d2, x2) == TreeOf(d, x) - {q}
  {
    NoChildren(d, x, q);
    UnlinkPatched(d, x, p, q, d2, x2);
    UnlinkList(d, x, p, q, d2, x2);
    UnlinkNames(d, x, p, q, d2, x2);
    UnlinkEntries(d, x, p, q, d2, x2);
    UnlinkUse(d, x, p, q, d2, x2);
    PatchedOk(d, x, d2, x2, p, {});
    RemovedTree(d, x, p, q, d2, x2);
  }

  lemma UnlinkPatched(d: Disk, x: Index, p: Path, q: Path, d2: Disk, x2: Index)
    requires Unlinking(d, x, p, q, d2, x2)
    ensures Patched(d, x, d2, x2, p, {}) && Ino(d2, x2, p) == Ino(d, x, p)
    ensures x2.names[p].inode in d2 && d2[x2.names[p].inode].Inode?
    ensures forall r {:trigger Ino(d2, x2, r)} :: r in x2.names ==> Ino(d2, x2, r) == Ino(d, x, r)
  {
    var i := x.names[q].table;
    var c := Ino(d, x, p).blocks[i];
    assert UsedBy(x, c, BlockOf(p, i)) && UsedBy(x, x.names[p].inode, InodeOf(p)) && PathOk(d, x, p);
    OthersUnnoticed(d, x, p, c, d2[c], x2, {}, d2);
  }

  lemma UnlinkList(d: Disk, x: Index, p: Path, q: Path, d2: Disk, x2: Index)
    requires Unlinking(d, x, p, q, d2, x2)
    ensures ListOk(d2, Ino(d, x, p))
  {
    var ino, i, j := Ino(d, x, p), x.names[q].table, x.names[q].slot;
    assert PathOk(d, x, p);
    forall k | 0 <= k < |ino.blocks| ensures TableOk(d2, ino.blocks[k]) {
      assert TableOk(d, ino.blocks[k]) && TableOk(d, ino.blocks[i]);
      if ino.blocks[k] == ino.blocks[i] {
        var l :| 0 <= l < |d[ino.blocks[i]].entries| && l != j && d[ino.blocks[i]].entries[l].inode != 0;
        assert d2[ino.blocks[k]].entries[l].inode != 0;
      } else {
        var l :| 0 <= l < FS_DIRENTRIES && d[ino.blocks[k]].entries[l].inode != 0;
        assert d2[ino.blocks[k]].entries[l].inode != 0;
      }
    }
  }

  lemma UnlinkSlots(d: Disk, x: Index, p: Path, q: Path, d2: Disk, x2: Index, k: nat, l: nat, e: Entry)
    requires Unlinking(d, x, p, q, d2, x2)
    ensures k == x.names[q].table && l == x.names[q].slot && EntryAt(d2, Ino(d, x, p), k, l, e) ==> e.inode == 0
    ensures !(k == x.names[q].table && l == x.names[q].slot) ==>
      (EntryAt(d2, Ino(d, x, p), k, l, e) <==> EntryAt(d, Ino(d, x, p), k, l, e))
  {
    var bs, i := Ino(d, x, p).blocks, x.names[q].table;
    assert PathOk(d, x, p) && TableOk(d, bs[i]) && UsedBy(x, bs[i], BlockOf(p, i));
    if k < |bs| { assert UsedBy(x, bs[k], BlockOf(p, k)); }
  }

  lemma UnlinkNames(d: Disk, x: Index, p: Path, q: Path, d2: Disk, x2: Index)
    requires Unlinking(d, x, p, q, d2, x2) && Ino(d2, x2, p) == Ino(d, x, p)
    requires forall r {:trigger x.names[r]} :: r in x.names && r != [] ==> Parent(r) in x.names && Parent(r) != q
    ensures forall r {:trigger x2.names[r]} :: r in x2.names && r != [] ==> Parent(r) in x2.names
    ensures forall r {:trigger x2.names[r]} :: r in x2.names && r != [] && Parent(r) == p ==> Named(d2, x2, r)
  {
    forall r | r in x2.names && r != [] && Parent(r) == p ensures Named(d2, x2, r) {
      assert PathOk(d, x, r) && PathOk(d, x, q);
      var s := x.names[r];
      UnlinkSlots(d, x, p, q, d2, x2, s.table, s.slot, Entry(Last(r), s.inode));
      assert Last(r) == Last(q) ==> r == q by { ChildOfParent(r); ChildOfParent(q); }
    }
  }

  lemma UnlinkEntries(d: Disk, x: Index, p: Path, q: Path, d2: Disk, x2: Index)
    requires Unlinking(d, x, p, q, d2, x2) && Ino(d2, x2, p) == Ino(d, x, p)
    ensures forall k: nat, l: nat, e {:trigger Entered(d2, x2, p, k, l, e)} :: Entered(d2, x2, p, k, l, e)
  {
    forall k: nat, l: nat, e ensures Entered(d2, x2, p, k, l, e) {
      UnlinkSlots(d, x, p, q, d2, x2, k, l, e);
      assert Entered(d, x, p, k, l, e);
    }
  }

  lemma UnlinkUse(d: Disk, x: Index, p: Path, q: Path, d2: Disk, x2: Index)
    requires Unlinking(d, x, p, q, d2, x2)
    requires forall r {:trigger Ino(d2, x2, r)} :: r in x2.names ==> Ino(d2, x2, r) == Ino(d, x, r)
    ensures UseOk(d2, x2)
  {
    forall r | r in x2.names ensures UsedBy(x2, x2.names[r].inode, InodeOf(r)) {
      assert UsedBy(x, x.names[r].inode, InodeOf(r));
    }
    forall r, k: nat | r in x2.names && k < |Ino(d2, x2, r).blocks|
      ensures UsedBy(x2, Ino(d2, x2, r).blocks[k], BlockOf(r, k))
    {
      assert UsedBy(x, Ino(d, x, r).blocks[k], BlockOf(r, k));
    }
    forall c | c in x2.use ensures Uses(d2, x2, c, x2.use[c]) {
      assert Uses(d, x, c, x.use[c]);
      if x.use[c].BlockOf? { assert Ino(d2, x2, x.use[c].path) == Ino(d, x, x.use[c].path); }
    }
  }

  lemma RemovedTree(d: Disk, x: Index, p: Path, q: Path, d2: Disk, x2: Index)
    requires Patched(d, x, d2, x2, p, {})
    requires (forall r {:trigger r in x2.names} :: r in x2.names <==> r in x.names && r != q) && p != q
    requires Ino(d, x, p).dir
    ensures TreeOf(d2, x2) == TreeOf(d, x) - {q}
  {
    forall r | r in x2.names ensures TreeOf(d2, x2)[r] == TreeOf(d, x)[r] {
      if r != p { PatchedTree(d, x, d2, x2, p, {}, r); }
    }
  }

  // ----- the table goes with its last entry -----

  function Without(bs: seq<nat>, i: nat): seq<nat>
    requires i < |bs|
  {
    bs[..i] + bs[i + 1..]
  }

  /** The tables after table `i` of `p` move down by one. */
  function Lower(p: Path, i: nat, q: Path, s: Spot): Spot {
    if q != [] && Parent(q) == p && s.table > i then Spot(s.inode, s.table - 1, s.slot) else s
  }

  function LowerUse(p: Path, i: nat, u: Use): Use {
    if u.BlockOf? && u.path == p && u.index > i then BlockOf(p, u.index - 1) else u
  }

  function Lowered(x: Index, p: Path, i: nat): Index {
    Index(map r | r in x.names :: Lower(p, i, r, x.names[r]),
          map b | b in x.use && x.use[b] != BlockOf(p, i) :: LowerUse(p, i, x.use[b]))
  }

  /** What is left when path `q` is forgotten with table `i` of `p`. */
  ghost predicate Drops(x: Index, p: Path, q: Path, i: nat, x2: Index) {
    && (forall r {:trigger r in x2.names} :: r in x2.names <==> r in x.names && r != q)
    && (forall r {:trigger x2.names[r]} :: r in x2.names ==> x2.names[r] == Lower(p, i, r, x.names[r]))
    && (forall b {:trigger b in x2.use} :: b in x2.use <==> Stays(x, p, q, i, b))
    && (forall b {:trigger x2.use[b]} :: b in x2.use ==> x2.use[b] == LowerUse(p, i, x.use[b]))
  }

  ghost predicate Stays(x: Index, p: Path, q: Path, i: nat, b: nat) {
    b in x.use && About(x.use[b]) != Some(q) && x.use[b] != BlockOf(p, i)
  }

  lemma LoweredDrops(x: Index, p: Path, q: Path, i: nat)
    requires p != q
    ensures Drops(x, p, q, i, Lowered(Forgotten(x, q), p, i))
  {}

  ghost predicate Dropping(d: Disk, x: Index, p: Path, q: Path, d2: Disk, x2: Index) {
    && WellFormed(d, x) && Removable(d, x, q) && p == Parent(q) && p in x.names && Ino(d, x, p).dir
    && x.names[q].table < |Ino(d, x, p).blocks|
    && !OthersUsed(TableAt(d, Ino(d, x, p).blocks[x.names[q].table]), x.names[q].slot)
    && Drops(x, p, q, x.names[q].table, x2)
    && d2 == d[x.names[p].inode := Inode(true, Ino(d, x, p).owner, Without(Ino(d, x, p).blocks, x.names[q].table))]
  }

  lemma DropOk(d: Disk, x: Index, p: Path, q: Path, d2: Disk, x2: Index)
    requires Dropping(d, x, p, q, d2, x2)
    ensures Patched(d, x, d2, x2, p, {}) && WellFormed(d2, x2)
    ensures Ino(d2, x2, p) == Inode(true, Ino(d, x, p).owner, Without(Ino(d, x, p).blocks, x.names[q].table))
    ensures TreeOf(d2, x2) == TreeOf(d, x) - {q}
  {
    NoChildren(d, x, q);
    DropPatched(d, x, p, q, d2, x2);
    DropList(d, x, p, q, d2, x2);
    DropNames(d, x, p, q, d2, x2);
    DropEntries(d, x, p, q, d2, x2);
    DropUse(d, x, p, q, x.names[q].table, d2, x2);
    PatchedOk(d, x, d2, x2, p, {});
    RemovedTree(d, x, p, q, d2, x2);
  }

  lemma DropPatched(d: Disk, x: Index, p: Path, q: Path, d2: Disk, x2: Index)
    requires Dropping(d, x, p, q, d2, x2)
    ensures Patched(d, x, d2, x2, p, {}) && Ino(d2, x2, p).blocks == Without(Ino(d, x, p).blocks, x.names[q].table)
    ensures forall r {:trigger Ino(d2, x2, r)} :: r in x2.names && r != p ==> Ino(d2, x2, r) == Ino(d, x, r)
  {
    var c := x.names[p].inode;
    assert UsedBy(x, c, InodeOf(p)) && PathOk(d, x, p);
    OthersUnnoticed(d, x, p, c, d2[c], x2, {}, d2);
  }

  lemma DropList(d: Disk, x: Index, p: Path, q: Path, d2: Disk, x2: Index)
    requires Dropping(d, x, p, q, d2, x2)
    ensures ListOk(d2, d2[x.names[p].inode])
  {
    assert PathOk(d, x, p) && UsedBy(x, x.names[p].inode, InodeOf(p));
    forall m | 0 <= m < |Ino(d, x, p).blocks| ensures Ino(d, x, p).blocks[m] != x.names[p].inode {
      assert UsedBy(x, Ino(d, x, p).blocks[m], BlockOf(p, m));
    }
    ShorterList(d, Ino(d, x, p), x.names[q].table, x.names[p].inode, d2);
  }

  lemma ShorterList(d: Disk, ino: Block, i: nat, c: nat, d2: Disk)
    requires ino.Inode? && ino.dir && ListOk(d, ino) && i < |ino.blocks|
    requires (forall m {:trigger ino.blocks[m]} :: 0 <= m < |ino.blocks| ==> ino.blocks[m] != c)
    requires d2 == d[c := Inode(true, ino.owner, Without(ino.blocks, i))]
    ensures ListOk(d2, d2[c])
  {
    var bs := Without(ino.blocks, i);
    forall k | 0 <= k < |bs| ensures TableOk(d2, bs[k]) {
      var m := if k < i then k else k + 1;
      assert bs[k] == ino.blocks[m] && TableOk(d, ino.blocks[m]);
    }
  }

  /** The entries that stay, under their new numbers. */
  lemma DropSlots(d: Disk, x: Index, p: Path, q: Path, d2: Disk, x2: Index, k: nat, l: nat, e: Entry)
    requires UseOk(d, x) && p in x.names && q in x.names
    requires x.names[q].table < |Ino(d, x, p).blocks|
    requires d2 == d[x.names[p].inode := Inode(true, Ino(d, x, p).owner, Without(Ino(d, x, p).blocks,
      x.names[q].table))]
    ensures
      EntryAt(d2, d2[x.names[p].inode], k, l, e) <==>
        EntryAt(d, Ino(d, x, p), if k < x.names[q].table then k else k + 1, l, e)
  {
    var bs, i := Ino(d, x, p).blocks, x.names[q].table;
    var m := if k < i then k else k + 1;
    assert UsedBy(x, x.names[p].inode, InodeOf(p));
    if m < |bs| { assert UsedBy(x, bs[m], BlockOf(p, m)) && Without(bs, i)[k] == bs[m]; }
  }

  /** No other path is in the table that goes. */
  lemma DropOther(d: Disk, x: Index, p: Path, q: Path, d2: Disk, x2: Index, r: Path)
    requires Dropping(d, x, p, q, d2, x2) && r in x.names && r != [] && r != q && Parent(r) == p
    ensures x.names[r].table != x.names[q].table && Named(d, x, r)
  {
    assert PathOk(d, x, r) && PathOk(d, x, q) && PathOk(d, x, []);
    assert UsedBy(x, x.names[r].inode, InodeOf(r)) && UsedBy(x, x.names[[]].inode, InodeOf([]));
    ChildOfParent(r);
    ChildOfParent(q);
    assert d[Ino(d, x, p).blocks[x.names[r].table]].entries[x.names[r].slot].inode != 0;
  }

  lemma DropNames(d: Disk, x: Index, p: Path, q: Path, d2: Disk, x2: Index)
    requires Dropping(d, x, p, q, d2, x2) && Ino(d2, x2, p) == d2[x.names[p].inode]
    requires forall r {:trigger x.names[r]} :: r in x.names && r != [] ==> Parent(r) in x.names && Parent(r) != q
    ensures forall r {:trigger x2.names[r]} :: r in x2.names && r != [] ==> Parent(r) in x2.names
    ensures forall r {:trigger x2.names[r]} :: r in x2.names && r != [] && Parent(r) == p ==> Named(d2, x2, r)
  {
    forall r | r in x2.names && r != [] && Parent(r) == p ensures Named(d2, x2, r) {
      DropOther(d, x, p, q, d2, x2, r);
      var s := x2.names[r];
      DropSlots(d, x, p, q, d2, x2, s.table, s.slot, Entry(Last(r), s.inode));
    }
  }

  lemma DropEntries(d: Disk, x: Index, p: Path, q: Path, d2: Disk, x2: Index)
    requires Dropping(d, x, p, q, d2, x2) && Ino(d2, x2, p) == d2[x.names[p].inode]
    ensures forall k: nat, l: nat, e {:trigger Entered(d2, x2, p, k, l, e)} :: Entered(d2, x2, p, k, l, e)
  {
    var i := x.names[q].table;
    forall k: nat, l: nat, e ensures Entered(d2, x2, p, k, l, e) {
      DropSlots(d, x, p, q, d2, x2, k, l, e);
      assert Entered(d, x, p, if k < i then k else k + 1, l, e);
    }
  }

  /** What the new uses are proved from. */
  ghost predicate Dropped(d: Disk, x: Index, p: Path, q: Path, i: nat, d2: Disk, x2: Index) {
    && UseOk(d, x) && p != q && p in x.names && p in x2.names && i < |Ino(d, x, p).blocks| && Drops(x, p, q, i, x2)
    && Ino(d2, x2, p).blocks == Without(Ino(d, x, p).blocks, i)
    && forall r {:trigger Ino(d2, x2, r)} :: r in x2.names && r != p ==> Ino(d2, x2, r) == Ino(d, x, r)
  }

  lemma DropUse(d: Disk, x: Index, p: Path, q: Path, i: nat, d2: Disk, x2: Index)
    requires Dropped(d, x, p, q, i, d2, x2)
    ensures UseOk(d2, x2)
  {
    forall r | r in x2.names ensures UsedBy(x2, x2.names[r].inode, InodeOf(r)) {
      assert UsedBy(x, x.names[r].inode, InodeOf(r));
    }
    forall r, k: nat | r in x2.names && k < |Ino(d2, x2, r).blocks|
      ensures UsedBy(x2, Ino(d2, x2, r).blocks[k], BlockOf(r, k))
    {
      if r == p { DropBlock(d, x, p, q, i, d2, x2, k); }
        else { assert UsedBy(x, Ino(d, x, r).blocks[k], BlockOf(r, k)); }
    }
    forall c | c in x2.use ensures Uses(d2, x2, c, x2.use[c]) { DropUses(d, x, p, q, i, d2, x2, c); }
  }

  lemma DropBlock(d: Disk, x: Index, p: Path, q: Path, i: nat, d2: Disk, x2: Index, k: nat)
    requires Dropped(d, x, p, q, i, d2, x2) && k < |Ino(d2, x2, p).blocks|
    ensures UsedBy(x2, Ino(d2, x2, p).blocks[k], BlockOf(p, k))
  {
    var m := if k < i then k else k + 1;
    var b := Ino(d, x, p).blocks[m];
    assert Ino(d2, x2, p).blocks[k] == b && UsedBy(x, b, BlockOf(p, m));
    assert Stays(x, p, q, i, b);
  }

  lemma DropUses(d: Disk, x: Index, p: Path, q: Path, i: nat, d2: Disk, x2: Index, c: nat)
    requires Dropped(d, x, p, q, i, d2, x2) && c in x2.use
    ensures Uses(d2, x2, c, x2.use[c])
  {
    assert Stays(x, p, q, i, c) && Uses(d, x, c, x.use[c]);
    match x.use[c]
    case InodeOf(r) => assert x2.names[r].inode == c;
    case BlockOf(r, k) =>
      if r == p { assert Ino(d2, x2, p).blocks[if k < i then k else k - 1] == c; }
    case _ =>
  }
}
