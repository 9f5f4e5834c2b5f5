/** The changes of the tree that the server commits with one write: each keeps the disk well formed. */
module FsUpdate {
  import opened Wrappers
  import opened FsDisk

  function About(u: Use): Option<Path> {
    match u
    case InodeOf(p) => Some(p)
    case BlockOf(p, _) => Some(p)
    case _ => None
  }

  /** Block `c` is no part of path `q`. */
  predicate Foreign(x: Index, c: nat, q: Path) { c in x.use ==> About(x.use[c]) != Some(q) }

  /** Path `q` has the same inode, and the inode's blocks have the same contents. */
  ghost predicate SameNode(d: Disk, x: Index, d2: Disk, x2: Index, q: Path) {
    && q in x.names && q in x2.names && x2.names[q].inode == x.names[q].inode && SameBlock(d, d2, x.names[q].inode)
    && Ino(d2, x2, q) == Ino(d, x, q)
    && forall i {:trigger Ino(d, x, q).blocks[i]} :: 0 <= i < |Ino(d, x, q).blocks| ==>
         SameBlock(d, d2, Ino(d, x, q).blocks[i])
  }

  ghost predicate SameBlock(d: Disk, d2: Disk, b: nat) { (b in d <==> b in d2) && (b in d ==> d2[b] == d[b]) }

  /** Paths that block `c` is no part of do not notice a write to it. */
  lemma Unnoticed(d: Disk, x: Index, q: Path, c: nat, v: Block, x2: Index)
    requires UseOk(d, x) && q in x.names && Foreign(x, c, q) && q in x2.names && x2.names[q].inode == x.names[q].inode
    ensures SameNode(d, x, d[c := v], x2, q)
  {
    assert UsedBy(x, x.names[q].inode, InodeOf(q));
    forall i | 0 <= i < |Ino(d, x, q).blocks| ensures Ino(d, x, q).blocks[i] != c {
      assert UsedBy(x, Ino(d, x, q).blocks[i], BlockOf(q, i));
    }
  }

  /** A write to a block of path `p` goes unnoticed by the other paths that were there. */
  lemma OthersUnnoticed(d: Disk, x: Index, p: Path, c: nat, v: Block, x2: Index, news: set<Path>, d2: Disk)
    requires UseOk(d, x) && c in x.use && About(x.use[c]) == Some(p) && d2 == d[c := v]
    requires forall q {:trigger x2.names[q]} :: q in x2.names && q !in news ==>
      q in x.names && x2.names[q].inode == x.names[q].inode
    ensures forall q {:trigger x2.names[q]} {:trigger SameNode(d, x, d2, x2, q)} ::
              q in x2.names && q != p && q !in news ==> SameNode(d, x, d2, x2, q)
  {
    forall q | q in x2.names && q != p && q !in news ensures SameNode(d, x, d2, x2, q) { Unnoticed(d, x, q, c, v, x2); }
  }

  lemma SameContents(d: Disk, d2: Disk, blocks: seq<nat>)
    requires forall i {:trigger blocks[i]} :: 0 <= i < |blocks| ==> SameBlock(d, d2, blocks[i])
    ensures Contents(d2, blocks) == Contents(d, blocks)
  {
    forall i | 0 <= i < |blocks| ensures DataAt(d2, blocks[i]) == DataAt(d, blocks[i]) {
      assert SameBlock(d, d2, blocks[i]);
    }
  }

  lemma SameNodeAt(d: Disk, x: Index, d2: Disk, x2: Index, q: Path)
    requires SameNode(d, x, d2, x2, q)
    ensures NodeAt(d2, Ino(d2, x2, q)) == NodeAt(d, Ino(d, x, q))
  {
    SameContents(d, d2, Ino(d, x, q).blocks);
  }

  lemma SameList(d: Disk, x: Index, d2: Disk, x2: Index, q: Path)
    requires SameNode(d, x, d2, x2, q) && ListOk(d, Ino(d, x, q))
    ensures ListOk(d2, Ino(d2, x2, q))
  {
    var ino := Ino(d, x, q);
    forall i | 0 <= i < |ino.blocks|
      ensures if ino.dir then TableOk(d2, ino.blocks[i]) else ino.blocks[i] in d2 && d2[ino.blocks[i]].Data?
    {
      assert SameBlock(d, d2, ino.blocks[i]);
    }
  }

  lemma SameEntries(d: Disk, x: Index, d2: Disk, x2: Index, q: Path, i: nat, j: nat, e: Entry)
    requires SameNode(d, x, d2, x2, q)
    ensures EntryAt(d2, Ino(d2, x2, q), i, j, e) <==> EntryAt(d, Ino(d, x, q), i, j, e)
  {
    if i < |Ino(d, x, q).blocks| { assert SameBlock(d, d2, Ino(d, x, q).blocks[i]); }
  }

  // ----- a change of one path and its children -----

  /** Path `p` changes, its children may move, come (with no blocks) or go; nothing else changes. */
  ghost predicate Patched(d: Disk, x: Index, d2: Disk, x2: Index, p: Path, news: set<Path>) {
    && p in x.names && p in x2.names && p !in news && x2.names[p] == x.names[p]
    && Ino(d2, x2, p).dir == Ino(d, x, p).dir && Ino(d2, x2, p).owner == Ino(d, x, p).owner
    && (forall q {:trigger x2.names[q]} {:trigger SameNode(d, x, d2, x2, q)} ::
          q in x2.names && q != p && q !in news ==> SameNode(d, x, d2, x2, q))
    && (forall q {:trigger x2.names[q]} :: q in x2.names && q !in news && (q == [] || Parent(q) != p) ==>
          q in x.names && x2.names[q] == x.names[q])
    && (forall q {:trigger x.names[q]} :: q in x.names && q !in x2.names ==> q != [] && Parent(q) == p)
    && (forall q {:trigger q in news} :: q in news ==> q !in x.names && Newborn(d2, x2, p, q))
  }

  ghost predicate Newborn(d: Disk, x: Index, p: Path, q: Path) {
    && q in x.names && q != [] && Parent(q) == p && x.names[q].inode in d && d[x.names[q].inode].Inode?
    && d[x.names[q].inode].blocks == []
  }

  /** What has to be shown of the changed path: its list, its children's entries, and its entries' children. */
  ghost predicate PatchOk(d: Disk, x: Index, p: Path) {
    && p in x.names && x.names[p].inode in d && d[x.names[p].inode].Inode? && ListOk(d, d[x.names[p].inode])
    && (forall q {:trigger x.names[q]} :: q in x.names && q != [] && Parent(q) == p ==> Named(d, x, q))
    && (forall q {:trigger x.names[q]} :: q in x.names && q != [] ==> Parent(q) in x.names)
    && (forall i: nat, j: nat, e {:trigger Entered(d, x, p, i, j, e)} :: Ino(d, x, p).dir ==> Entered(d, x, p, i, j, e))
  }

  lemma PatchedPath(d: Disk, x: Index, d2: Disk, x2: Index, p: Path, news: set<Path>, q: Path)
    requires PathsOk(d, x) && Patched(d, x, d2, x2, p, news) && PatchOk(d2, x2, p) && q in x2.names
    ensures PathOk(d2, x2, q)
  {
    if q in news { assert Newborn(d2, x2, p, q); } else {
      if q == [] || Parent(q) != p { PatchedElsewhere(d, x, d2, x2, p, news, q); }
      assert Named(d2, x2, q);
      if q != p {
        assert SameNode(d, x, d2, x2, q) && PathOk(d, x, q);
        SameList(d, x, d2, x2, q);
        assert SameBlock(d, d2, x.names[q].inode);
      }
    }
  }

  lemma PatchedElsewhere(d: Disk, x: Index, d2: Disk, x2: Index, p: Path, news: set<Path>, q: Path)
    requires PathsOk(d, x) && Patched(d, x, d2, x2, p, news) && PatchOk(d2, x2, p)
    requires q in x2.names && q !in news && (q == [] || Parent(q) != p)
    ensures Named(d2, x2, q)
  {
    assert q in x.names && x2.names[q] == x.names[q] && PathOk(d, x, q);
    if q != [] {
      assert PathOk(d, x, Parent(q));
      assert Parent(q) in x2.names && Parent(q) !in news;
      assert SameNode(d, x, d2, x2, Parent(q));
      SameEntries(d, x, d2, x2, Parent(q), x.names[q].table, x.names[q].slot, Entry(Last(q), x.names[q].inode));
    }
  }

  lemma PatchedEntry(d: Disk, x: Index, d2: Disk, x2: Index, p: Path, news: set<Path>, q: Path, i: nat, j: nat,
                     e: Entry)
    requires EntriesOk(d, x) && Patched(d, x, d2, x2, p, news) && PatchOk(d2, x2, p)
    requires q in x2.names && q != p && q !in news && Ino(d2, x2, q).dir
    ensures Entered(d2, x2, q, i, j, e)
  {
    assert SameNode(d, x, d2, x2, q);
    SameEntries(d, x, d2, x2, q, i, j, e);
    assert Entered(d, x, q, i, j, e);
    if EntryAt(d, Ino(d, x, q), i, j, e) && e.inode != 0 {
      var c := Child(q, e.name);
      assert x.names[c] == Spot(e.inode, i, j);
      assert c in x2.names && c !in news;
    }
  }

  lemma PatchedOk(d: Disk, x: Index, d2: Disk, x2: Index, p: Path, news: set<Path>)
    requires WellFormed(d, x) && Patched(d, x, d2, x2, p, news) && PatchOk(d2, x2, p) && UseOk(d2, x2)
    ensures WellFormed(d2, x2)
  {
    assert [] in x2.names && Ino(d2, x2, []).dir by { PatchedRoot(d, x, d2, x2, p, news); }
    forall q | q in x2.names ensures PathOk(d2, x2, q) { PatchedPath(d, x, d2, x2, p, news, q); }
    forall q, i: nat, j: nat, e | q in x2.names && Ino(d2, x2, q).dir ensures Entered(d2, x2, q, i, j, e) {
      if q in news { assert Newborn(d2, x2, p, q); }
      else if q != p { PatchedEntry(d, x, d2, x2, p, news, q, i, j, e); }
    }
  }

  lemma PatchedRoot(d: Disk, x: Index, d2: Disk, x2: Index, p: Path, news: set<Path>)
    requires PathsOk(d, x) && Patched(d, x, d2, x2, p, news)
    ensures [] in x2.names && Ino(d2, x2, []).dir
  {
    assert x.names[[]] == x.names[[]];
    if [] != p { assert SameNode(d, x, d2, x2, []); }
  }

  /** The tree changes at the path that is patched and at the paths that come and go. */
  lemma PatchedTree(d: Disk, x: Index, d2: Disk, x2: Index, p: Path, news: set<Path>, q: Path)
    requires Patched(d, x, d2, x2, p, news) && q in x2.names && q != p && q !in news
    ensures q in TreeOf(d, x) && TreeOf(d2, x2)[q] == TreeOf(d, x)[q]
  {
    assert SameNode(d, x, d2, x2, q);
    SameNodeAt(d, x, d2, x2, q);
  }
}
