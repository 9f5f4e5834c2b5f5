/** What the writes of one request, without any other, do to the disk: every prefix of them leaves a tree. */
module FsSerial {
  import opened Wrappers
  import opened FsDisk
  import opened FsUpdate
  import opened FsLink
  import opened FsUnlink
  import opened FsTree
  import opened FsSteps
  import opened FsInvariant
  import opened FsSafety
  import opened FsDelete

  type Writes = seq<(nat, Block)>

  /** The disk after the writes. */
  function Replay(d: Disk, w: Writes): Disk
    decreases |w|
  {
    if w == [] then d else Replay(d, w[..|w| - 1])[w[|w| - 1].0 := w[|w| - 1].1]
  }

  /** Wherever the writes are cut off, the disk is the old tree or the new one. */
  ghost predicate CrashSafe(d: Disk, w: Writes, before: Tree, after: Tree) {
    forall n {:trigger Replay(d, w[..n])} :: 0 <= n <= |w| ==>
      Decodes(Replay(d, w[..n]), before) || Decodes(Replay(d, w[..n]), after)
  }

  lemma CrashNone(d: Disk, before: Tree, after: Tree)
    requires Decodes(d, before)
    ensures CrashSafe(d, [], before, after) && Replay(d, []) == d
  {
    var none: Writes := [];
    assert none[..0] == [];
  }

  lemma CrashMore(d: Disk, w: Writes, b: nat, v: Block, before: Tree, after: Tree)
    requires CrashSafe(d, w, before, after)
    requires Decodes(Replay(d, w)[b := v], before) || Decodes(Replay(d, w)[b := v], after)
    ensures Replay(d, w + [(b, v)]) == Replay(d, w)[b := v] && CrashSafe(d, w + [(b, v)], before, after)
  {
    var more := w + [(b, v)];
    assert more[..|w|] == w && more[..|more|] == more;
    forall n | 0 <= n <= |more| ensures Decodes(Replay(d, more[..n]), before) || Decodes(Replay(d, more[..n]), after) {
      if n <= |w| { assert more[..n] == w[..n]; }
    }
  }

  /** A request that writes to the tree's blocks once, after `w`, which nothing leads to. */
  lemma CrashLast(d: Disk, w: Writes, b: nat, v: Block, before: Tree, after: Tree)
    requires CrashSafe(d, w, before, before) && Decodes(Replay(d, w)[b := v], after)
    ensures Replay(d, w + [(b, v)]) == Replay(d, w)[b := v] && CrashSafe(d, w + [(b, v)], before, after)
  {
    forall n | 0 <= n <= |w| ensures Decodes(Replay(d, w[..n]), before) || Decodes(Replay(d, w[..n]), after) {}
    CrashMore(d, w, b, v, before, after);
  }

  lemma CrashOne(d: Disk, a: (nat, Block), before: Tree, after: Tree)
    requires Decodes(d, before) && Decodes(d[a.0 := a.1], after)
    ensures Replay(d, [a]) == d[a.0 := a.1] && CrashSafe(d, [a], before, after)
  {
    CrashNone(d, before, before);
    CrashLast(d, [], a.0, a.1, before, after);
    assert [] + [(a.0, a.1)] == [a];
  }

  lemma CrashTwo(d: Disk, a: (nat, Block), b: (nat, Block), before: Tree, after: Tree)
    requires Decodes(d, before) && Decodes(d[a.0 := a.1], before) && Decodes(d[a.0 := a.1][b.0 := b.1], after)
    ensures Replay(d, [a, b]) == d[a.0 := a.1][b.0 := b.1] && CrashSafe(d, [a, b], before, after)
  {
    CrashOne(d, a, before, before);
    CrashLast(d, [a], b.0, b.1, before, after);
    assert [a] + [(b.0, b.1)] == [a, b];
  }

  lemma CrashThree(d: Disk, a: (nat, Block), b: (nat, Block), c: (nat, Block), before: Tree, after: Tree)
    requires Decodes(d, before) && Decodes(d[a.0 := a.1], before) && Decodes(d[a.0 := a.1][b.0 := b.1], before)
    requires Decodes(d[a.0 := a.1][b.0 := b.1][c.0 := c.1], after)
    ensures Replay(d, [a, b, c]) == d[a.0 := a.1][b.0 := b.1][c.0 := c.1] && CrashSafe(d, [a, b, c], before, after)
  {
    CrashTwo(d, a, b, before, before);
    CrashLast(d, [a, b], c.0, c.1, before, after);
    assert [a, b] + [(c.0, c.1)] == [a, b, c];
  }

  /** The server between requests. */
  function Idle(d: Disk, free: set<nat>, x: Index): State { State(d, free, map[], {}, map[], d, x, [], map[]) }

  ghost predicate IdleOk(d: Disk, free: set<nat>, x: Index) {
    && WellFormed(d, x) && SpaceOk(Idle(d, free, x))
    && forall b {:trigger x.use[b]} :: b in x.use ==> !x.use[b].Taken?
  }

  function Take(x: Index, b: nat): Index { x.(use := x.use[b := Taken(0)]) }

  lemma TakeFree(d: Disk, free: set<nat>, x: Index, b: nat)
    requires WellFormed(d, x) && SpaceOk(Idle(d, free, x)) && b in free
    ensures WellFormed(d, Take(x, b)) && TreeOf(d, Take(x, b)) == TreeOf(d, x)
    ensures SpaceOk(Idle(d, free - {b}, Take(x, b)))
    ensures forall p {:trigger Ino(d, Take(x, b), p)} :: Ino(d, Take(x, b), p) == Ino(d, x, p)
  {
    TakeTree(Idle(d, free, x), 0, b, Take(x, b));
    SameTreeOk(d, x, d, Take(x, b));
  }

  lemma PutTaken(d: Disk, free: set<nat>, x: Index, b: nat, v: Block)
    requires WellFormed(d, x) && MyBlock(x, 0, b)
    ensures WellFormed(d[b := v], x) && TreeOf(d[b := v], x) == TreeOf(d, x)
    ensures forall p {:trigger Ino(d[b := v], x, p)} :: p in x.names ==> Ino(d[b := v], x, p) == Ino(d, x, p)
    ensures forall p, i {:trigger Ino(d[b := v], x, p).blocks[i]} :: p in x.names && 0 <= i < |Ino(d, x, p).blocks| ==>
              SameBlock(d, d[b := v], Ino(d, x, p).blocks[i])
  {
    var s := Idle(d, free, x);
    PutTree(s, 0, b, v, d[b := v]);
    SameTreeOk(d, x, d[b := v], x);
    forall p | p in x.names ensures SameNode(d, x, d[b := v], x, p) {}
    forall p, i | p in x.names && 0 <= i < |Ino(d, x, p).blocks|
      ensures SameBlock(d, d[b := v], Ino(d, x, p).blocks[i])
    {
      assert SameNode(d, x, d[b := v], x, p);
    }
  }

  // ----- the handlers' writes -----

  /** write, to a block the file has. */
  lemma OverwriteRun(d: Disk, free: set<nat>, x: Index, p: Path, i: nat, data: string)
    requires IdleOk(d, free, x) && p in x.names && !Ino(d, x, p).dir && i < |Ino(d, x, p).blocks|
    ensures
      var a, after := (Ino(d, x, p).blocks[i], Data(data)), TreeOf(d, x)[p := File(Ino(d, x, p).owner, Contents(d,
        Ino(d, x, p).blocks)[i := data])];
      && Replay(d, [a]) == d[a.0 := a.1] && CrashSafe(d, [a], TreeOf(d, x), after)
      && TreeOf(d[a.0 := a.1], x) == after && IdleOk(d[a.0 := a.1], free, x)
  {
    var a := (Ino(d, x, p).blocks[i], Data(data));
    OverwriteOk(d, x, p, i, data, d[a.0 := a.1]);
    CrashOne(d, a, TreeOf(d, x), TreeOf(d[a.0 := a.1], x));
  }

  ghost predicate Appending(d: Disk, free: set<nat>, x: Index, p: Path, b: nat) {
    IdleOk(d, free, x) && p in x.names && !Ino(d, x, p).dir && |Ino(d, x, p).blocks| < FS_MAXFILEBLOCKS && b in free
  }

  /** write, to the block after the last. */
  lemma AppendTwice(d: Disk, free: set<nat>, x: Index, p: Path, b: nat, data: string, d1: Disk, d2: Disk, y: Index)
    requires Appending(d, free, x, p, b) && d1 == d[b := Data(data)]
    requires d2 == d1[x.names[p].inode := Appended(Ino(d, x, p), b)]
    requires y == Given(x, p, |Ino(d, x, p).blocks|, b)
    ensures Decodes(d1, TreeOf(d, x)) && WellFormed(d2, y)
    ensures TreeOf(d2, y) == TreeOf(d, x)[p := File(Ino(d, x, p).owner, Contents(d, Ino(d, x, p).blocks) + [data])]
  {
    var t := Take(x, b);
    TakeFree(d, free, x, b);
    PutTaken(d, free, t, b, Data(data));
    assert y == Given(t, p, |Ino(d, x, p).blocks|, b);
    AppendOk(d1, t, p, b, data, d2, y);
    SameContents(d, d1, Ino(d, x, p).blocks);
  }

  lemma AppendSpace(d: Disk, free: set<nat>, x: Index, p: Path, b: nat, d2: Disk, y: Index)
    requires Appending(d, free, x, p, b) && y == Given(x, p, |Ino(d, x, p).blocks|, b) && WellFormed(d2, y)
    ensures IdleOk(d2, free - {b}, y)
  {
    assert b !in x.use;
  }

  lemma AppendRun(d: Disk, free: set<nat>, x: Index, p: Path, b: nat, data: string, d2: Disk, y: Index)
    requires Appending(d, free, x, p, b) && d2 == d[b := Data(data)][x.names[p].inode := Appended(Ino(d, x, p), b)]
    requires y == Given(x, p, |Ino(d, x, p).blocks|, b)
    ensures
      var a, c := (b, Data(data)), (x.names[p].inode, Appended(Ino(d, x, p), b));
      var after := TreeOf(d, x)[p := File(Ino(d, x, p).owner, Contents(d, Ino(d, x, p).blocks) + [data])];
      && Replay(d, [a, c]) == d2 && CrashSafe(d, [a, c], TreeOf(d, x), after) && TreeOf(d2, y) == after
        && IdleOk(d2, free - {b}, y)
  {
    AppendTwice(d, free, x, p, b, data, d[b := Data(data)], d2, y);
    AppendSpace(d, free, x, p, b, d2, y);
    CrashTwo(d, (b, Data(data)), (x.names[p].inode, Appended(Ino(d, x, p), b)), TreeOf(d, x), TreeOf(d2, y));
  }

  /** create, in a table that has an unused slot. */
  ghost predicate Creating(d: Disk, free: set<nat>, x: Index, p: Path, q: Path, n: nat) {
    && IdleOk(d, free, x) && p in x.names && Ino(d, x, p).dir && q != [] && Parent(q) == p && q !in x.names && n in free
  }

  lemma SlotTwice(d: Disk, free: set<nat>, x: Index, p: Path, i: nat, j: nat, q: Path, n: nat, dir: bool, owner: string,
                  d1: Disk, d2: Disk, y: Index)
    requires Creating(d, free, x, p, q, n) && UnusedAt(d, Ino(d, x, p), i, j) && d1 == d[n := Inode(dir, owner, [])]
    requires d2 == d1[Ino(d, x, p).blocks[i] := Table(TableAt(d, Ino(d, x, p).blocks[i])[j := Entry(Last(q), n)])]
    requires y == Linked(x, q, Spot(n, i, j))
    ensures Decodes(d1, TreeOf(d, x)) && WellFormed(d2, y) && TreeOf(d2, y) == TreeOf(d, x)[q := NewNode(dir, owner)]
  {
    var t := Take(x, n);
    TakeFree(d, free, x, n);
    PutTaken(d, free, t, n, Inode(dir, owner, []));
    assert Ino(d1, t, p) == Ino(d, x, p) && SameBlock(d, d1, Ino(d, x, p).blocks[i]);
    assert y == Linked(t, q, Spot(n, i, j));
    LinkOk(d1, t, p, i, j, q, n, dir, owner, d2, y);
  }

  lemma SlotSpace(d: Disk, free: set<nat>, x: Index, p: Path, q: Path, n: nat, s: Spot, d2: Disk, y: Index)
    requires Creating(d, free, x, p, q, n) && s.inode == n && y == Linked(x, q, s) && WellFormed(d2, y)
    ensures IdleOk(d2, free - {n}, y)
  {
    assert n !in x.use;
  }

  ghost function SlotWrites(d: Disk, x: Index, i: nat, j: nat, q: Path, n: nat, dir: bool, owner: string): Writes
    requires q != [] && UnusedAt(d, Ino(d, x, Parent(q)), i, j)
  {
    var table := Ino(d, x, Parent(q)).blocks[i];
    [(n, Inode(dir, owner, [])), (table, Table(TableAt(d, table)[j := Entry(Last(q), n)]))]
  }

  lemma SlotRun(d: Disk, free: set<nat>, x: Index, i: nat, j: nat, q: Path, n: nat, dir: bool, owner: string, y: Index)
    requires q != [] && Creating(d, free, x, Parent(q), q, n) && UnusedAt(d, Ino(d, x, Parent(q)), i, j)
    requires y == Linked(x, q, Spot(n, i, j))
    ensures
      var w := SlotWrites(d, x, i, j, q, n, dir, owner);
      && Replay(d, w) == d[w[0].0 := w[0].1][w[1].0 := w[1].1]
      && CrashSafe(d, w, TreeOf(d, x), TreeOf(Replay(d, w), y))
      && TreeOf(Replay(d, w), y) == TreeOf(d, x)[q := NewNode(dir, owner)]
      && IdleOk(Replay(d, w), free - {n}, y)
    ensures n !in x.use
  {
    var w := SlotWrites(d, x, i, j, q, n, dir, owner);
    var d1 := d[w[0].0 := w[0].1];
    var d2 := d1[w[1].0 := w[1].1];
    SlotTwice(d, free, x, Parent(q), i, j, q, n, dir, owner, d1, d2, y);
    SlotSpace(d, free, x, Parent(q), q, n, Spot(n, i, j), d2, y);
    CrashTwo(d, w[0], w[1], TreeOf(d, x), TreeOf(d2, y));
    assert w == [w[0], w[1]];
  }

  ghost predicate Tabling(d: Disk, free: set<nat>, x: Index, p: Path, t: nat, q: Path, n: nat) {
    Creating(d, free, x, p, q, n) && t in free && t != n && |Ino(d, x, p).blocks| < FS_MAXFILEBLOCKS
  }

  /** create, in a new table: both blocks are taken. */
  lemma TakeBoth(d: Disk, free: set<nat>, x: Index, p: Path, t: nat, q: Path, n: nat, u: Index)
    requires Tabling(d, free, x, p, t, q, n) && u == Take(Take(x, t), n)
    ensures WellFormed(d, u) && TreeOf(d, u) == TreeOf(d, x) && MyBlock(u, 0, t) && MyBlock(u, 0, n)
    ensures Ino(d, u, p) == Ino(d, x, p) && t !in x.use && n !in x.use
  {
    TakeFree(d, free, x, t);
    TakeFree(d, free - {t}, Take(x, t), n);
    assert Ino(d, u, p) == Ino(d, Take(x, t), p) == Ino(d, x, p);
  }

  /** Both are written. */
  lemma PutBoth(d: Disk, free: set<nat>, u: Index, p: Path, t: nat, a: Block, n: nat, b: Block, d1: Disk, d2: Disk)
    requires WellFormed(d, u) && MyBlock(u, 0, t) && MyBlock(u, 0, n) && t != n && p in u.names
    requires d1 == d[n := b] && d2 == d1[t := a]
    ensures WellFormed(d1, u) && TreeOf(d1, u) == TreeOf(d, u) && WellFormed(d2, u) && TreeOf(d2, u) == TreeOf(d, u)
    ensures Ino(d2, u, p) == Ino(d, u, p)
  {
    PutTaken(d, free, u, n, b);
    PutTaken(d1, free, u, t, a);
    assert Ino(d2, u, p) == Ino(d1, u, p) == Ino(d, u, p);
  }

  lemma ExtendBoth(d2: Disk, x: Index, p: Path, t: nat, q: Path, n: nat, dir: bool, owner: string, u: Index, d3: Disk,
                   y: Index)
    requires WellFormed(d2, u) && u == Take(Take(x, t), n) && t != n && p in u.names && Ino(d2, u, p).dir
    requires |Ino(d2, u, p).blocks| < FS_MAXFILEBLOCKS && q != [] && Parent(q) == p && q !in u.names
    requires n in d2 && d2[n] == Inode(dir, owner, []) && t in d2 && d2[t] == Table(Unused()[0 := Entry(Last(q), n)])
    requires d3 == d2[u.names[p].inode := Appended(Ino(d2, u, p), t)]
    requires y == Linked(Given(x, p, |Ino(d2, u, p).blocks|, t), q, Spot(n, |Ino(d2, u, p).blocks|, 0))
    ensures WellFormed(d3, y) && TreeOf(d3, y) == TreeOf(d2, u)[q := NewNode(dir, owner)]
  {
    var g := Linked(Given(u, p, |Ino(d2, u, p).blocks|, t), q, Spot(n, |Ino(d2, u, p).blocks|, 0));
    assert y.names == g.names && y.use == g.use;
    ExtendOk(d2, u, p, t, q, n, dir, owner, d3, g);
  }

  lemma TableThrice(d: Disk, free: set<nat>, x: Index, p: Path, t: nat, q: Path, n: nat, dir: bool, owner: string,
                    d1: Disk, d2: Disk, d3: Disk, y: Index)
    requires Tabling(d, free, x, p, t, q, n)
    requires d1 == d[n := Inode(dir, owner, [])] && d2 == d1[t := Table(Unused()[0 := Entry(Last(q), n)])]
    requires d3 == d2[x.names[p].inode := Appended(Ino(d, x, p), t)]
    requires y == Linked(Given(x, p, |Ino(d, x, p).blocks|, t), q, Spot(n, |Ino(d, x, p).blocks|, 0))
    ensures Decodes(d1, TreeOf(d, x)) && Decodes(d2, TreeOf(d, x)) && WellFormed(d3, y)
    ensures TreeOf(d3, y) == TreeOf(d, x)[q := NewNode(dir, owner)]
  {
    var u := Take(Take(x, t), n);
    TakeBoth(d, free, x, p, t, q, n, u);
    PutBoth(d, free, u, p, t, d2[t], n, d1[n], d1, d2);
    ExtendBoth(d2, x, p, t, q, n, dir, owner, u, d3, y);
  }

  lemma TableSpace(d: Disk, free: set<nat>, x: Index, p: Path, t: nat, k: nat, q: Path, n: nat, d3: Disk, y: Index)
    requires Tabling(d, free, x, p, t, q, n) && WellFormed(d3, y)
    requires y == Linked(Given(x, p, k, t), q, Spot(n, k, 0))
    ensures IdleOk(d3, free - {t} - {n}, y)
  {
    assert n !in x.use && t !in x.use;
  }

  ghost function TableWrites(d: Disk, x: Index, t: nat, q: Path, n: nat, dir: bool, owner: string): Writes
    requires q != []
  {
    [(n, Inode(dir, owner, [])), (t, Table(Unused()[0 := Entry(Last(q), n)])),
     (InodeOfPath(x, Parent(q)), Appended(Ino(d, x, Parent(q)), t))]
  }

  ghost function InodeOfPath(x: Index, p: Path): nat { if p in x.names then x.names[p].inode else 0 }

  lemma TableRun(d: Disk, free: set<nat>, x: Index, t: nat, q: Path, n: nat, dir: bool, owner: string, y: Index)
    requires q != [] && Tabling(d, free, x, Parent(q), t, q, n)
    requires y == Linked(Given(x, Parent(q), |Ino(d, x, Parent(q)).blocks|, t), q, Spot(n, |Ino(d, x,
      Parent(q)).blocks|, 0))
    ensures
      var w := TableWrites(d, x, t, q, n, dir, owner);
      && Replay(d, w) == d[w[0].0 := w[0].1][w[1].0 := w[1].1][w[2].0 := w[2].1]
      && CrashSafe(d, w, TreeOf(d, x), TreeOf(Replay(d, w), y))
      && TreeOf(Replay(d, w), y) == TreeOf(d, x)[q := NewNode(dir, owner)] && IdleOk(Replay(d, w), free - {t} - {n}, y)
    ensures t !in x.use && n !in x.use
  {
    var w := TableWrites(d, x, t, q, n, dir, owner);
    var d1 := d[w[0].0 := w[0].1];
    var d2 := d1[w[1].0 := w[1].1];
    var d3 := d2[w[2].0 := w[2].1];
    TableThrice(d, free, x, Parent(q), t, q, n, dir, owner, d1, d2, d3, y);
    TableSpace(d, free, x, Parent(q), t, |Ino(d, x, Parent(q)).blocks|, q, n, d3, y);
    CrashThree(d, w[0], w[1], w[2], TreeOf(d, x), TreeOf(d3, y));
    assert w == [w[0], w[1], w[2]];
  }

  /** A create that finds a block for the table and none for the inode. */
  lemma LoseSpace(d: Disk, free: set<nat>, x: Index, t: nat)
    requires IdleOk(d, free, x) && t in free
    ensures IdleOk(d, free - {t}, x.(use := x.use[t := Lost])) && TreeOf(d, x.(use := x.use[t := Lost])) == TreeOf(d, x)
  {
    TakeFree(d, free, x, t);
    var s, y := Idle(d, free - {t}, Take(x, t)), x.(use := x.use[t := Lost]);
    assert y == Take(x, t).(use := Take(x, t).use[t := Lost]);
    LoseTree(s, 0, t, y);
    SameTreeOk(d, Take(x, t), d, y);
  }

  /** delete: one write. */
  lemma DeleteRun(d: Disk, free: set<nat>, x: Index, q: Path, a: Above, gone: set<nat>, d2: Disk, y: Index)
    requires IdleOk(d, free, x) && Removable(d, x, q) && AboveOk(d, x, q, a)
    requires
      var e := Erasure(a, Last(q));
      d2 == d[e.0 := e.1] && y == Removed(x, q, a) && gone == Reclaimed(x.names[q].inode, Ino(d, x, q), a)
    ensures
      var e := Erasure(a, Last(q));
      && Replay(d, [e]) == d2 && CrashSafe(d, [e], TreeOf(d, x), TreeOf(d, x) - {q})
      && TreeOf(d2, y) == TreeOf(d, x) - {q} && IdleOk(d2, free + gone, y)
  {
    RemoveTree(d, x, q, a, d2, y);
    RemoveSpace(d, free, x, q, a, gone, y);
    var e := Erasure(a, Last(q));
    CrashOne(d, e, TreeOf(d, x), TreeOf(d2, y));
  }

  lemma RemoveTree(d: Disk, x: Index, q: Path, a: Above, d2: Disk, y: Index)
    requires WellFormed(d, x) && Removable(d, x, q) && AboveOk(d, x, q, a) && y == Removed(x, q, a)
    requires
      var e := Erasure(a, Last(q));
      d2 == d[e.0 := e.1]
    ensures WellFormed(d2, y) && TreeOf(d2, y) == TreeOf(d, x) - {q}
  {
    ClearsOne(d, x, q, a);
    InodeNotZero(d, x, q);
    UsedOne(a.table, a.slot);
    ForgottenForgets(x, q);
    LoweredDrops(x, Parent(q), q, a.index);
    if Used(a.table) == 1 { DropOk(d, x, Parent(q), q, d2, y); } else { UnlinkOk(d, x, Parent(q), q, d2, y); }
  }

  lemma RemoveSpace(d: Disk, free: set<nat>, x: Index, q: Path, a: Above, gone: set<nat>, y: Index)
    requires IdleOk(d, free, x) && Removable(d, x, q) && AboveOk(d, x, q, a) && y == Removed(x, q, a)
    requires gone == Reclaimed(x.names[q].inode, Ino(d, x, q), a)
    ensures SpaceOk(Idle(d, free + gone, y)) && forall b {:trigger y.use[b]} :: b in y.use ==> !y.use[b].Taken?
  {
    forall b: nat
      ensures (b in y.use <==> b in x.use && b !in gone) && (b in gone ==>
        b in x.use) && (b in y.use && y.use[b].Taken? ==> x.use[b].Taken?)
    {
      RemoveUse(d, x, q, a, y, b);
    }
  }

  lemma RemoveUse(d: Disk, x: Index, q: Path, a: Above, y: Index, b: nat)
    requires WellFormed(d, x) && Removable(d, x, q) && AboveOk(d, x, q, a) && y == Removed(x, q, a)
    ensures b in y.use <==> b in x.use && b !in Reclaimed(x.names[q].inode, Ino(d, x, q), a)
    ensures b in Reclaimed(x.names[q].inode, Ino(d, x, q), a) ==> b in x.use
    ensures b in y.use && y.use[b].Taken? ==> x.use[b].Taken?
  {
    var p, ino := Parent(q), Ino(d, x, q);
    ForgottenForgets(x, q);
    LoweredDrops(x, p, q, a.index);
    assert UsedBy(x, x.names[q].inode, InodeOf(q)) && UsedBy(x, a.ino.blocks[a.index], BlockOf(p, a.index));
    forall i | 0 <= i < |ino.blocks| ensures UsedBy(x, ino.blocks[i], BlockOf(q, i)) {}
    if b in x.use {
      assert Uses(d, x, b, x.use[b]);
      assert Stays(x, p, q, a.index, b) <==> About(x.use[b]) != Some(q) && x.use[b] != BlockOf(p, a.index);
      if About(x.use[b]) == Some(q) && x.use[b].BlockOf? { assert ino.blocks[x.use[b].index] == b; }
    }
  }
}
