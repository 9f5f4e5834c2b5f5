/** The file server's handlers as the code runs them, for one request after the other: they read and write
    disk blocks, the free set and the keys of blocks_locks in place. */
module FsServer {
  import opened Wrappers
  import opened FsDisk
  import opened FsUpdate
  import opened FsLink
  import opened FsUnlink
  import opened FsTree
  import opened FsSteps
  import opened FsInvariant
  import opened FsSafety
  import opened FsSerial
  import opened FsPath
  import opened FsScan

  /** What a client asks of a path. */
  datatype Call = ReadBlock(block: nat) | WriteBlocks(block: nat, data: string) | Make(dir: bool) | Unmake

  /** The reply and the tree after are right for what the client asked of the path `p`. */
  ghost predicate Answers(user: string, p: Path, call: Call, before: Tree, after: Tree, reply: Reply)
    requires p != []
  {
    match call
    case ReadBlock(block) => Serves(before, Request.Read(user, p, block), after, reply)
    case WriteBlocks(block, data) => Serves(before, Request.Write(user, p, block, data), after, reply)
    case Make(dir) => Serves(before, Request.Create(user, p, dir), after, reply)
    case Unmake => Serves(before, Request.Delete(user, p), after, reply)
  }

  /** What search_file_system returns. */
  datatype Found = Found(block: nat, ino: Block, above: Above)

  /** An absolute path whose last slash is before its last name. */
  ghost predicate Searchable(s: string) { s != "" && s[0] == '/' && NameOk(Components(s)) }

  ghost predicate FoundOk(d: Disk, x: Index, user: string, p: Path, f: Found) {
    && Walked(d, x, user, p) && x.names[p].inode == f.block && Ino(d, x, p) == f.ino && f.ino.owner == user
    && AboveOk(d, x, p, f.above)
  }

  /** The walk stands at the first `k` names. */
  ghost predicate Standing(d: Disk, x: Index, user: string, ps: Path, k: nat, pathname: string, path: string,
                           index: nat, block: nat) {
    && k < |ps| && Walked(d, x, user, ps[..k]) && x.names[ps[..k]].inode == block && path == PathString(ps[..k])
    && index == |Join(ps[..k])| + 1 <= |pathname| && Split(pathname[index..]) == ps[k..]
  }

  lemma StandAtRoot(d: Disk, x: Index, user: string, pathname: string)
    requires PathsOk(d, x) && Searchable(pathname)
    ensures Standing(d, x, user, Components(pathname), 0, pathname, "/", 1, ROOT_BLOCK)
  {
    assert PathOk(d, x, []);
    JoinComponents(pathname);
    assert Split(pathname) == [""] + Split(pathname[1..]);
    var ps := Components(pathname);
    assert ps[..0] == [] && ps[0..] == ps;
  }

  /** The next name ends at the next slash, or at the end. */
  lemma NextName(pathname: string, ps: Path, k: nat, index: nat, next: int, name: string, after: nat)
    requires k < |ps| && index <= |pathname| && Split(pathname[index..]) == ps[k..]
    requires next == -1 ==> Plain(pathname[index..]) && name == pathname[index..]
    requires next != -1 ==> index <= next < |pathname| && pathname[next] == '/' && Plain(pathname[index..next])
    requires next != -1 ==> name == pathname[index..next]
    requires after == next + 1
    ensures name == ps[k] && (next == -1 <==> k + 1 == |ps|)
    ensures next != -1 ==> after == index + |name| + 1 <= |pathname| && Split(pathname[after..]) == ps[k + 1..]
  {
    if next == -1 { SplitPlain(pathname[index..]); } else {
      var none: Path := [];
      SplitStep(pathname, index, next, none);
      assert none + Split(pathname[index..]) == Split(pathname[index..]) && none + [name] == [name];
      assert ps[k..] == [name] + Split(pathname[next + 1..]) && ps[k..][1..] == ps[k + 1..];
    }
  }

  /** One directory further. */
  lemma StandOn(d: Disk, x: Index, user: string, ps: Path, k: nat, pathname: string, path: string, index: nat,
                block: nat,
                i: nat, j: nat, b: nat, further: string, after: nat)
    requires Standing(d, x, user, ps, k, pathname, path, index, block) && WellFormed(d, x) && k + 1 < |ps| && NameOk(ps)
    requires Passed(d, x, user, ps[..k]) && HasEntry(d, Ino(d, x, ps[..k]), ps[k], i, j, b)
    requires after == index + |ps[k]| + 1 <= |pathname| && Split(pathname[after..]) == ps[k + 1..]
    requires further == (if path != "/" then path + "/" else path) + ps[k]
    ensures Standing(d, x, user, ps, k + 1, pathname, further, |further| + 1, b)
  {
    var p := ps[..k];
    EntryOfChild(d, x, p, ps[k], i, j, b);
    WalkOn(d, x, user, p, ps[k]);
    assert Child(p, ps[k]) == ps[..k + 1];
    PathAndName(p, ps[k]);
    FurtherPath(ps, k, path, further);
  }

  lemma FurtherPath(ps: Path, k: nat, path: string, further: string)
    requires k < |ps| && NameOk(ps) && path == PathString(ps[..k])
    requires further == (if path != "/" then path + "/" else path) + ps[k]
    ensures further == Join(ps[..k]) + ("/" + ps[k])
  {
    var p := ps[..k];
    if k > 0 {
      assert p[0] == ps[0] && ps[0] in ps && |Join(p)| >= 1 + |p[0]|;
      Glue(path, "/", ps[k]);
    }
  }

  /** Where the walk ends without success, the path cannot be reached. */
  lemma WalkEnds(d: Disk, x: Index, user: string, ps: Path, k: nat)
    requires WellFormed(d, x) && k < |ps| && Walked(d, x, user, ps[..k])
    requires !Passed(d, x, user, ps[..k]) || NoEntry(d, Ino(d, x, ps[..k]), ps[k])
    ensures !Reaches(TreeOf(d, x), user, ps)
  {
    if Reaches(TreeOf(d, x), user, ps) { ReachesPasses(d, x, user, ps, k); }
    if Passed(d, x, user, ps[..k]) {
      NoChild(d, x, ps[..k], ps[k]);
      assert Child(ps[..k], ps[k]) == ps[..k + 1];
    }
  }

  lemma WalkFinds(d: Disk, x: Index, user: string, ps: Path, k: nat, i: nat, j: nat, b: nat, f: Found)
    requires WellFormed(d, x) && k + 1 == |ps| && Walked(d, x, user, ps[..k]) && Passed(d, x, user, ps[..k])
    requires HasEntry(d, Ino(d, x, ps[..k]), ps[k], i, j, b)
    requires f == Found(b, InodeAt(d, b), Above(x.names[ps[..k]].inode, Ino(d, x, ps[..k]), i, j, TableAt(d, Ino(d,
      x, ps[..k]).blocks[i])))
    ensures f.ino.owner == user ==> FoundOk(d, x, user, ps, f)
    ensures Reaches(TreeOf(d, x), user, ps) <==> f.ino.owner == user
  {
    EntryOfChild(d, x, ps[..k], ps[k], i, j, b);
    WalkOn(d, x, user, ps[..k], ps[k]);
    assert Child(ps[..k], ps[k]) == ps && Parent(ps) == ps[..k];
    WalkReaches(d, x, user, ps);
  }

  class FileServer {
    var disk: Disk
    var free: set<nat>
    var keys: set<string>
    ghost var x: Index
    ghost var writes: Writes

    ghost predicate Valid()
      reads this
    {
      IdleOk(disk, free, x) && NamesOk(x) && keys == KeysFor(x)
    }

    ghost function Tree(): FsDisk.Tree
      reads this
    {
      TreeOf(disk, x)
    }

    /** The server starts: the free set is what the scan of the disk leaves of all blocks but the root's, and there
        is a key for each path. */
    constructor (d: Disk, ghost y: Index)
      requires WellFormed(d, y) && NamesOk(y) && forall b {:trigger b in d} :: b in d ==> b < FS_DISKSIZE
      ensures Valid() && disk == d && writes == [] && x == Trimmed(y) && Tree() == TreeOf(d, y)
      ensures forall b: nat :: b in free <==> b < 4096 && !Reached(d, y, b)
    {
      disk, free, keys, x, writes := d, {}, {}, Trimmed(y), [];
      new;
      TrimmedOk(d, y);
      InsertAll();
      keys := {"/"};
      RootParent(disk, x, "");
      ghost var all := free;
      var pathname := SearchInode(InodeAt(disk, ROOT_BLOCK), "/", []);
      ScanDone(d, y, x, all, free, keys);
    }

    method InsertAll()
      requires free == {}
      modifies `free
      ensures forall b: nat {:trigger b in free} :: b in free <==> 1 <= b < FS_DISKSIZE
    {
      var i := 1;
      while i < FS_DISKSIZE
        invariant 1 <= i <= FS_DISKSIZE && forall b: nat {:trigger b in free} :: b in free <==> 1 <= b < i
      {
        free := free + {i};
        i := i + 1;
      }
    }

    /** search_inode: every block and every path from `p` down is met once, and the path name is as it was. */
    method SearchInode(ino: Block, pathname: string, ghost p: Path) returns (after: string)
      requires WellFormed(disk, x) && p in x.names && ino == Ino(disk, x, p)
      requires pathname == if ino.dir then DirString(p) else PathString(p)
      modifies `free, `keys
      ensures after == pathname
      ensures free == old(free) - Below(x, p) && keys == old(keys) + KeysBelow(x, p)
      decreases Further(x, p), 3
    {
      after := pathname;
      ghost var f, k := free, keys;
      SweptNothing(x, p);
      var i := 0;
      if ino.dir {
        while i < |ino.blocks|
          invariant 0 <= i <= |ino.blocks| && after == pathname
          invariant free == f - Swept(x, p, i, i, 0) && keys == k + SweptKeys(x, p, i, 0)
        {
          free := free - {ino.blocks[i]};
          SweptBlock(disk, x, p, i, i, 0);
          after := SearchTable(ino, i, after, p, f, k);
          i := i + 1;
        }
      } else {
        while i < |ino.blocks|
          invariant 0 <= i <= |ino.blocks| && free == f - Swept(x, p, i, 0, 0) && keys == k
        {
          free := free - {ino.blocks[i]};
          SweptBlock(disk, x, p, i, 0, 0);
          i := i + 1;
        }
      }
      SweptAll(disk, x, p, if ino.dir then |ino.blocks| else 0);
    }

    /** The eight entries of a table. */
    method SearchTable(ino: Block, i: nat, pathname: string, ghost p: Path, ghost f: set<nat>, ghost k: set<string>)
      returns (after: string)
      requires WellFormed(disk, x) && p in x.names && ino == Ino(disk, x, p) && ino.dir && i < |ino.blocks|
      requires pathname == DirString(p) && free == f - Swept(x, p, i + 1, i, 0) && keys == k + SweptKeys(x, p, i, 0)
      modifies `free, `keys
      ensures after == pathname
      ensures free == f - Swept(x, p, i + 1, i + 1, 0) && keys == k + SweptKeys(x, p, i + 1, 0)
      decreases Further(x, p), 2
    {
      after := pathname;
      var table := TableAt(disk, ino.blocks[i]);
      EightEntries(disk, x, p, i);
      var j := 0;
      while j < FS_DIRENTRIES
        invariant 0 <= j <= FS_DIRENTRIES && after == pathname
        invariant free == f - Swept(x, p, i + 1, i, j) && keys == k + SweptKeys(x, p, i, j)
      {
        after := SearchSlot(ino, i, j, table[j], after, p, f, k);
        j := j + 1;
      }
      SweptTable(disk, x, p, i + 1, i);
    }

    method SearchSlot(ino: Block, i: nat, j: nat, e: Entry, pathname: string, ghost p: Path, ghost f: set<nat>,
                      ghost k: set<string>)
      returns (after: string)
      requires WellFormed(disk, x) && p in x.names && ino == Ino(disk, x, p) && ino.dir && EntryAt(disk, ino, i, j, e)
      requires pathname == DirString(p) && free == f - Swept(x, p, i + 1, i, j) && keys == k + SweptKeys(x, p, i, j)
      modifies `free, `keys
      ensures after == pathname
      ensures free == f - Swept(x, p, i + 1, i, j + 1) && keys == k + SweptKeys(x, p, i, j + 1)
      decreases Further(x, p), 1
    {
      after := pathname;
      if e.inode == 0 {
        SweptUnused(disk, x, p, i + 1, i, j, e);
      } else {
        SweptEntry(disk, x, p, i + 1, i, j, e);
        after := SearchEntry(e, after, p);
      }
    }

    /** A used entry, and what is under it. */
    method SearchEntry(e: Entry, pathname: string, ghost p: Path) returns (after: string)
      requires WellFormed(disk, x) && pathname == DirString(p)
      requires Child(p, e.name) in x.names && x.names[Child(p, e.name)].inode == e.inode
      modifies `free, `keys
      ensures after == pathname
      ensures free == old(free) - {e.inode} - Below(x, Child(p, e.name))
      ensures keys == old(keys) + {PathString(Child(p, e.name))} + KeysBelow(x, Child(p, e.name))
      decreases Further(x, p), 0
    {
      NameAdded(p, e.name);
      FurtherLess(x, p, e.name);
      free := free - {e.inode};
      var ino := InodeAt(disk, e.inode);
      after := pathname + e.name;
      keys := keys + {after};
      if ino.dir { after := after + "/"; }
      after := SearchInode(ino, after, Child(p, e.name));
      if ino.dir { after := after[..|after| - 1]; }
      after := after[..|after| - |e.name|];
    }

    /** The search for a name in the tables of a directory. */
    method Lookup(ino: Block, name: string) returns (found: bool, i: nat, j: nat, b: nat)
      requires ino.Inode?
      ensures found ==> HasEntry(disk, ino, name, i, j, b)
      ensures !found ==> NoEntry(disk, ino, name)
    {
      i, j, b, found := 0, 0, 0, false;
      while i < |ino.blocks|
        invariant 0 <= i <= |ino.blocks|
        invariant forall m: nat, n: nat, c: nat {:trigger HasEntry(disk, ino, name, m, n, c)} :: m < i ==>
          !HasEntry(disk, ino, name, m, n, c)
      {
        var table := TableAt(disk, ino.blocks[i]);
        j := 0;
        while j < |table|
          invariant 0 <= j <= |table|
          invariant forall n: nat, c: nat {:trigger HasEntry(disk, ino, name, i, n, c)} :: n < j ==>
            !HasEntry(disk, ino, name, i, n, c)
        {
          if table[j].inode != ROOT_BLOCK && table[j].name == name {
            return true, i, j, table[j].inode;
          }
          j := j + 1;
        }
        i := i + 1;
      }
    }

    /** search_file_system: it finds exactly the paths that can be reached. */
    method Search(user: string, pathname: string) returns (r: Option<Found>)
      requires Valid() && Searchable(pathname)
      ensures r.Some? <==> Reaches(Tree(), user, Components(pathname))
      ensures r.Some? ==> FoundOk(disk, x, user, Components(pathname), r.value)
    {
      ghost var ps, k := Components(pathname), 0;
      var path: string, index: nat, block: nat := "/", 1, ROOT_BLOCK;
      r := None;
      StandAtRoot(disk, x, user, pathname);
      var done := false;
      while !done
        invariant !done ==> Standing(disk, x, user, ps, k, pathname, path, index, block)
        invariant done ==>
          (r.Some? <==> Reaches(TreeOf(disk, x), user, ps)) && (r.Some? ==> FoundOk(disk, x, user, ps, r.value))
        decreases if done then 0 else |ps| - k + 1
      {
        done, r, path, index, block := Advance(user, pathname, path, index, block, ps, k);
        k := k + 1;
      }
    }

    /** One round of the walk: the directory that `path` names is read, checked and searched. */
    method Advance(user: string, pathname: string, path: string, index: nat, block: nat, ghost ps: Path, ghost k: nat)
      returns (done: bool, r: Option<Found>, further: string, next: nat, child: nat)
      requires WellFormed(disk, x) && NameOk(ps) && Standing(disk, x, user, ps, k, pathname, path, index, block)
      ensures done ==>
        (r.Some? <==> Reaches(TreeOf(disk, x), user, ps)) && (r.Some? ==> FoundOk(disk, x, user, ps, r.value))
      ensures !done ==> Standing(disk, x, user, ps, k + 1, pathname, further, next, child)
    {
      done, r, further, next, child := true, None, path, index, block;
      var name, end, after := NextPiece(pathname, index, ps, k);
      var ok, last := Enter(user, block, ps[..k]);
      if !ok {
        WalkEnds(disk, x, user, ps, k);
        return;
      }
      var found, i, j, b := Lookup(last, name);
      if !found {
        WalkEnds(disk, x, user, ps, k);
      } else if end {
        r := Arrive(user, last, block, i, j, b, ps, k);
      } else {
        further := (if path != "/" then path + "/" else path) + name;
        next := |further| + 1;
        StandOn(disk, x, user, ps, k, pathname, path, index, block, i, j, b, further, after);
        done, child := false, b;
      }
    }

    method NextPiece(pathname: string, index: nat, ghost ps: Path, ghost k: nat) returns (name: string, end: bool,
                     ghost after: nat)
      requires k < |ps| && index <= |pathname| && Split(pathname[index..]) == ps[k..]
      ensures name == ps[k] && (end <==> k + 1 == |ps|)
      ensures !end ==> after == index + |name| + 1 <= |pathname| && Split(pathname[after..]) == ps[k + 1..]
    {
      var slash := FindSlash(pathname, index);
      end := slash == -1;
      name := if end then pathname[index..] else pathname[index..slash];
      after := slash + 1;
      NextName(pathname, ps, k, index, slash, name, after);
    }

    /** Reads the inode of a directory on the way and checks its type and its owner. */
    method Enter(user: string, block: nat, ghost p: Path) returns (ok: bool, ino: Block)
      requires WellFormed(disk, x) && p in x.names && x.names[p].inode == block
      ensures ino == Ino(disk, x, p) && (ok <==> Passed(disk, x, user, p))
    {
      ino := InodeAt(disk, block);
      RootBlock(disk, x, p);
      ok := ino.dir && (block == ROOT_BLOCK || user == ino.owner);
    }

    /** Reads the inode of the target and checks its owner. */
    method Arrive(user: string, last: Block, block: nat, i: nat, j: nat, b: nat, ghost ps: Path,
                  ghost k: nat) returns (r: Option<Found>)
      requires WellFormed(disk, x) && k + 1 == |ps| && Walked(disk, x, user, ps[..k]) && Passed(disk, x, user, ps[..k])
      requires last == Ino(disk, x, ps[..k]) && block == x.names[ps[..k]].inode && HasEntry(disk, last, ps[k], i, j, b)
      ensures (r.Some? <==> Reaches(TreeOf(disk, x), user, ps)) && (r.Some? ==> FoundOk(disk, x, user, ps, r.value))
    {
      var f := Found(b, InodeAt(disk, b), Above(block, last, i, j, TableAt(disk, last.blocks[i])));
      WalkFinds(disk, x, user, ps, k, i, j, b, f);
      r := if f.ino.owner == user then Some(f) else None;
    }

    /** serve_client, for a request that has been parsed: a path name that check_valid_pathname refuses changes
        nothing, and any other request gets what the tree says. */
    method Handle(user: string, pathname: string, call: Call) returns (reply: Reply)
      requires Valid()
      modifies this
      ensures Valid()
      ensures forall ps {:trigger Join(ps)} :: Nameable(ps) && Join(ps) == pathname ==>
        Answers(user, ps, call, old(Tree()), Tree(), reply)
      ensures !(exists ps {:trigger Join(ps)} :: Nameable(ps) && Join(ps) == pathname) ==>
        reply == Failed && Tree() == old(Tree()) && writes == old(writes)
    {
      NamesOnce(pathname);
      var ok := CheckValidPathname(pathname);
      if !ok { return Failed; }
      ghost var w;
      match call
      case ReadBlock(block) => reply := Read(user, pathname, block);
      case WriteBlocks(block, data) => reply, w := Write(user, pathname, block, data);
      case Make(dir) => reply, w := Create(user, pathname, dir);
      case Unmake => reply, w := Delete(user, pathname);
    }

    /** handle_fs_read. */
    method Read(user: string, pathname: string, block: nat) returns (reply: Reply)
      requires Valid() && ValidPath(pathname)
      ensures Serves(Tree(), Request.Read(user, Components(pathname), block), Tree(), reply)
    {
      ValidSearchable(pathname);
      if block >= FS_MAXFILEBLOCKS {
        ReadTooFar(disk, x, user, Components(pathname), block);
        return Failed;
      }
      var r := Search(user, pathname);
      if r.None? || r.value.ino.dir || block >= |r.value.ino.blocks| { return Failed; }
      reply := Bytes(DataAt(disk, r.value.ino.blocks[block]));
    }

    method WriteBlock(b: nat, v: Block)
      modifies `disk, `writes
      ensures disk == old(disk)[b := v] && writes == old(writes) + [(b, v)]
    {
      disk := disk[b := v];
      writes := writes + [(b, v)];
    }

    method TakeFreeBlock() returns (b: nat)
      requires free != {}
      modifies `free
      ensures b in old(free) && free == old(free) - {b}
    {
      b :| b in free;
      free := free - {b};
    }

    /** handle_fs_write: it does what a write should, and a crash among its disk writes leaves the old tree or
        the new one. */
    method Write(user: string, pathname: string, block: nat, data: string) returns (reply: Reply, ghost w: Writes)
      requires Valid() && ValidPath(pathname)
      modifies `disk, `free, `x, `writes
      ensures Valid() && Serves(old(Tree()), Request.Write(user, Components(pathname), block, data), Tree(), reply)
      ensures reply == NoSpace <==>
        old(Grows(Tree(), Request.Write(user, Components(pathname), block, data)) && free == {})
      ensures writes == old(writes) + w && disk == Replay(old(disk), w) && CrashSafe(old(disk), w, old(Tree()), Tree())
    {
      ValidSearchable(pathname);
      Unwritten(disk, free, x);
      w := [];
      if |data| != FS_BLOCKSIZE || block >= FS_MAXFILEBLOCKS { return Failed, w; }
      var r := Search(user, pathname);
      if r.None? || r.value.ino.dir || block > |r.value.ino.blocks| { return Failed, w; }
      if block < |r.value.ino.blocks| {
        w := Overwrite(Components(pathname), r.value.ino, block, data);
        reply := Done;
      } else if free == {} {
        reply := NoSpace;
      } else {
        w := Append(Components(pathname), r.value.block, r.value.ino, data);
        reply := Done;
      }
    }

    method Overwrite(ghost p: Path, ino: Block, block: nat, data: string) returns (ghost w: Writes)
      requires Valid() && p in x.names && Ino(disk, x, p) == ino && !ino.dir && block < |ino.blocks|
      modifies `disk, `writes
      ensures Valid() && Tree() == old(Tree())[p := File(ino.owner, old(Contents(disk, ino.blocks))[block := data])]
      ensures writes == old(writes) + w && disk == Replay(old(disk), w) && CrashSafe(old(disk), w, old(Tree()), Tree())
    {
      OverwriteRun(disk, free, x, p, block, data);
      w := [(ino.blocks[block], Data(data))];
      WriteBlock(ino.blocks[block], Data(data));
    }

    /** The data first, then the inode that makes it part of the file. */
    method Append(ghost p: Path, block: nat, ino: Block, data: string) returns (ghost w: Writes)
      requires Valid() && p in x.names && Ino(disk, x, p) == ino && x.names[p].inode == block && !ino.dir
      requires |ino.blocks| < FS_MAXFILEBLOCKS && free != {}
      modifies `disk, `free, `x, `writes
      ensures Valid() && Tree() == old(Tree())[p := File(ino.owner, old(Contents(disk, ino.blocks)) + [data])]
      ensures writes == old(writes) + w && disk == Replay(old(disk), w) && CrashSafe(old(disk), w, old(Tree()), Tree())
    {
      ghost var f := free;
      var b := TakeFreeBlock();
      w := Chain(p, block, ino, data, f, b);
    }

    /** The two writes, when the block has been taken. */
    method Chain(ghost p: Path, block: nat, ino: Block, data: string, ghost f: set<nat>, b: nat)
      returns (ghost w: Writes)
      requires Appending(disk, f, x, p, b) && Ino(disk, x, p) == ino && x.names[p].inode == block && free == f - {b}
      modifies `disk, `x, `writes
      ensures IdleOk(disk, free, x) && x.names == old(x).names
      ensures Tree() == old(Tree())[p := File(ino.owner, old(Contents(disk, ino.blocks)) + [data])]
      ensures writes == old(writes) + w && disk == Replay(old(disk), w)
      ensures CrashSafe(old(disk), w, old(Tree()), Tree())
    {
      ghost var y := Given(x, p, |ino.blocks|, b);
      AppendRun(disk, f, x, p, b, data, disk[b := Data(data)][block := Appended(ino, b)], y);
      w := [(b, Data(data)), (block, Appended(ino, b))];
      WriteBlock(b, Data(data));
      WriteBlock(block, Appended(ino, b));
      x := y;
    }

    /** The scan of all entries of a directory for an unused one and for the name. */
    method ScanDirectory(ino: Block, name: string) returns (duplicate: bool, found: bool, i: nat, j: nat)
      requires ino.Inode?
      ensures duplicate ==> !NoEntry(disk, ino, name)
      ensures !duplicate ==> NoEntry(disk, ino, name)
      ensures !duplicate && found ==> FirstUnused(disk, ino, i, j)
      ensures !duplicate && !found ==> NoneUnused(disk, ino)
    {
      duplicate, found, i, j := false, false, 0, 0;
      var k := 0;
      while k < |ino.blocks|
        invariant 0 <= k <= |ino.blocks| && !duplicate
        invariant forall m: nat, n: nat, c: nat {:trigger HasEntry(disk, ino, name, m, n, c)} :: m < k ==>
          !HasEntry(disk, ino, name, m, n, c)
        invariant FirstSoFar(disk, ino, found, i, j, k, 0)
      {
        duplicate, found, i, j := ScanTable(ino, name, k, found, i, j);
        if duplicate { return; }
        k := k + 1;
      }
    }

    method ScanTable(ino: Block, name: string, k: nat, seen: bool, a: nat, c: nat) returns (duplicate: bool,
                     found: bool, i: nat, j: nat)
      requires ino.Inode? && k < |ino.blocks| && FirstSoFar(disk, ino, seen, a, c, k, 0)
      ensures duplicate ==> !NoEntry(disk, ino, name)
      ensures !duplicate ==>
        forall n: nat, e: nat {:trigger HasEntry(disk, ino, name, k, n, e)} :: !HasEntry(disk, ino, name, k, n, e)
      ensures !duplicate ==> FirstSoFar(disk, ino, found, i, j, k + 1, 0)
    {
      duplicate, found, i, j := false, seen, a, c;
      var table := TableAt(disk, ino.blocks[k]);
      var l := 0;
      while l < |table|
        invariant 0 <= l <= |table| && !duplicate
        invariant forall n: nat, e: nat {:trigger HasEntry(disk, ino, name, k, n, e)} :: n < l ==>
          !HasEntry(disk, ino, name, k, n, e)
        invariant FirstSoFar(disk, ino, found, i, j, k, l)
      {
        if table[l].inode == 0 {
          assert UnusedAt(disk, ino, k, l);
          if !found { found, i, j := true, k, l; }
        } else if table[l].name == name {
          assert HasEntry(disk, ino, name, k, l, table[l].inode);
          return true, found, i, j;
        }
        l := l + 1;
      }
    }

    /** handle_fs_create: it does what a create should, and a crash among its disk writes leaves the old tree
        or the new one. It finds no space exactly if it is allowed and there is no room, and loses a block exactly
        if that is the last free one and the directory needs one more table. */
    method Create(user: string, pathname: string, dir: bool) returns (reply: Reply, ghost w: Writes)
      requires Valid() && ValidPath(pathname)
      modifies this
      ensures Valid() && Serves(old(Tree()), Request.Create(user, Components(pathname), dir), Tree(), reply)
      ensures writes == old(writes) + w && disk == Replay(old(disk), w)
      ensures CrashSafe(old(disk), w, old(Tree()), Tree())
      ensures reply == NoSpace <==>
        old(Allowed(Tree(), Request.Create(user, Components(pathname), dir)))
        && old(NoRoom(disk, x, free, Parent(Components(pathname))))
      ensures LostBlocks(x) == old(LostBlocks(x)) +
        if old(Allowed(Tree(), Request.Create(user, Components(pathname), dir)))
           && old(LastForTable(disk, x, free, Parent(Components(pathname))))
        then old(free) else {}
    {
      ValidSearchable(pathname);
      Unwritten(disk, free, x);
      w := [];
      ghost var q := Components(pathname);
      var parent, name := ParentPath(pathname);
      LastNameFits(pathname);
      if |name| > FS_MAXFILENAME {
        assert false; // check_valid_pathname has refused such names
      }
      var ok, block, ino := FindParent(user, parent, q);
      if ok {
        reply, w := CreateIn(user, pathname, name, dir, block, ino, q);
      } else {
        reply := Failed;
      }
    }

    /** The rest of handle_fs_create: the directory is scanned, and the entry made. */
    method CreateIn(user: string, pathname: string, name: string, dir: bool, block: nat, ino: Block, ghost q: Path)
      returns (reply: Reply, ghost w: Writes)
      requires Valid() && q != [] && NameOk(q) && pathname == PathString(q) && name == Last(q)
      requires Reaches(Tree(), user, Parent(q)) && Tree()[Parent(q)].Dir? && x.names[Parent(q)].inode == block
      requires ino == Ino(disk, x, Parent(q))
      modifies this
      ensures Valid() && Serves(old(Tree()), Request.Create(user, q, dir), Tree(), reply)
      ensures writes == old(writes) + w && disk == Replay(old(disk), w)
      ensures CrashSafe(old(disk), w, old(Tree()), Tree())
      ensures reply == NoSpace <==> q !in old(Tree()) && old(NoRoom(disk, x, free, Parent(q)))
      ensures LostBlocks(x) == old(LostBlocks(x)) +
        if q !in old(Tree()) && old(LastForTable(disk, x, free, Parent(q))) then old(free) else {}
    {
      Unwritten(disk, free, x);
      w := [];
      var duplicate, found, i, j := ScanDirectory(ino, name);
      NameDecides(disk, x, user, q, dir, duplicate);
      if duplicate {
        reply := Failed;
      } else {
        reply, w := MakeEntry(user, pathname, name, dir, block, ino, found, i, j, q);
      }
    }

    /** The name is not there yet: the entry goes to the unused slot that was found, or to a new table. */
    method MakeEntry(user: string, pathname: string, name: string, dir: bool, block: nat, ino: Block, found: bool,
                     i: nat,
                     j: nat, ghost q: Path)
      returns (reply: Reply, ghost w: Writes)
      requires Valid() && NewName(x, q, pathname, name) && ino == Ino(disk, x, Parent(q)) && ino.dir
      requires x.names[Parent(q)].inode == block
      requires if found then UnusedAt(disk, ino, i, j) else NoneUnused(disk, ino)
      modifies this
      ensures Valid() && writes == old(writes) + w && disk == Replay(old(disk), w)
      ensures CrashSafe(old(disk), w, old(Tree()), Tree())
      ensures
        if old(NoRoom(disk, x, free, Parent(q))) then reply == NoSpace && Tree() == old(Tree())
        else reply == Done && Tree() == old(Tree())[q := NewNode(dir, user)]
      ensures LostBlocks(x) == old(LostBlocks(x)) + if old(LastForTable(disk, x, free, Parent(q)))
        then old(free) else {}
    {
      FewBlocks(free);
      FullList(disk, x, Parent(q));
      if found {
        assert !NoneUnused(disk, ino);
        reply, w := MakeInSlot(user, pathname, name, dir, ino, i, j, q);
      } else if |ino.blocks| + 1 > FS_MAXFILEBLOCKS {
        Unwritten(disk, free, x);
        reply, w := NoSpace, [];
      } else {
        reply, w := MakeInTable(user, pathname, name, dir, block, ino, q);
      }
    }

    /** Where the parent of `q` is, if it is a directory in which the user may create. */
    method FindParent(user: string, parent: string, ghost q: Path) returns (ok: bool, block: nat, ino: Block)
      requires Valid() && q != [] && NameOk(q) && parent == PathString(Parent(q))
      ensures ok <==> Reaches(Tree(), user, Parent(q)) && Tree()[Parent(q)].Dir?
      ensures ok ==>
        Parent(q) in x.names && x.names[Parent(q)].inode == block && ino == Ino(disk, x, Parent(q)) && ino.dir
      ensures ino.Inode?
    {
      ghost var p := Parent(q);
      ParentName(q);
      block, ino := ROOT_BLOCK, InodeAt(disk, ROOT_BLOCK);
      if parent != "/" {
        var r := Search(user, parent);
        if r.None? {
          return false, block, ino;
        }
        block, ino := r.value.block, r.value.ino;
      } else {
        RootParent(disk, x, user);
      }
      ok := ino.dir && (ino.owner == user || parent == "/");
    }

    /** The entry goes to an unused slot: the inode is written first, then the table that leads to it. */
    method MakeInSlot(user: string, pathname: string, name: string, dir: bool, ino: Block, i: nat, j: nat,
                      ghost q: Path)
      returns (reply: Reply, ghost w: Writes)
      requires Valid() && NewName(x, q, pathname, name)
      requires ino == Ino(disk, x, Parent(q)) && ino.dir && UnusedAt(disk, ino, i, j)
      modifies this
      ensures Valid() && LostBlocks(x) == old(LostBlocks(x))
      ensures writes == old(writes) + w && disk == Replay(old(disk), w)
      ensures CrashSafe(old(disk), w, old(Tree()), Tree())
      ensures if old(free) == {} then reply == NoSpace && Tree() == old(Tree())
              else reply == Done && Tree() == old(Tree())[q := NewNode(dir, user)]
    {
      if free == {} {
        Unwritten(disk, free, x);
        return NoSpace, [];
      }
      ghost var f := free;
      var n := TakeFreeBlock();
      w := LinkSlot(user, name, dir, ino, i, j, q, f, n);
      keys := keys + {pathname};
      reply := Done;
    }

    method LinkSlot(user: string, name: string, dir: bool, ino: Block, i: nat, j: nat, ghost q: Path, ghost f: set<nat>,
                    n: nat)
      returns (ghost w: Writes)
      requires IdleOk(disk, f, x) && NamesOk(x) && q != [] && NameOk(q) && name == Last(q) && q !in x.names
      requires Parent(q) in x.names
      requires ino == Ino(disk, x, Parent(q)) && ino.dir && UnusedAt(disk, ino, i, j) && n in f && free == f - {n}
      modifies `disk, `x, `writes
      ensures IdleOk(disk, free, x) && NamesOk(x) && KeysFor(x) == KeysFor(old(x)) + {PathString(q)}
      ensures writes == old(writes) + w && disk == Replay(old(disk), w) && CrashSafe(old(disk), w, old(Tree()), Tree())
      ensures Tree() == old(Tree())[q := NewNode(dir, user)] && LostBlocks(x) == old(LostBlocks(x))
    {
      ghost var y := Linked(x, q, Spot(n, i, j));
      SlotRun(disk, f, x, i, j, q, n, dir, user, y);
      LinkedNames(x, q, Spot(n, i, j), y);
      w := SlotWrites(disk, x, i, j, q, n, dir, user);
      var table := TableAt(disk, ino.blocks[i])[j := Entry(name, n)];
      WriteTwo(n, Inode(dir, user, []), ino.blocks[i], Table(table));
      x := y;
    }

    /** The entry goes to a new table: the inode is written first, then the table, then the directory's inode.
        If there is a block for the table but none for the inode, the first is lost. */
    method MakeInTable(user: string, pathname: string, name: string, dir: bool, block: nat, ino: Block, ghost q: Path)
      returns (reply: Reply, ghost w: Writes)
      requires Valid() && NewName(x, q, pathname, name)
      requires ino == Ino(disk, x, Parent(q)) && ino.dir && x.names[Parent(q)].inode == block
      requires |ino.blocks| < FS_MAXFILEBLOCKS
      modifies this
      ensures Valid() && writes == old(writes) + w && disk == Replay(old(disk), w)
      ensures CrashSafe(old(disk), w, old(Tree()), Tree())
      ensures if |old(free)| < 2 then reply == NoSpace && Tree() == old(Tree())
              else reply == Done && Tree() == old(Tree())[q := NewNode(dir, user)]
      ensures LostBlocks(x) == old(LostBlocks(x)) + if |old(free)| == 1 then old(free) else {}
    {
      Unwritten(disk, free, x);
      FewBlocks(free);
      w := [];
      if free == {} {
        return NoSpace, w;
      }
      ghost var f := free;
      var t := TakeFreeBlock();
      reply, w := MakeTable(user, pathname, name, dir, block, ino, q, f, t);
    }

    /** One block is taken; one more is needed. */
    method MakeTable(user: string, pathname: string, name: string, dir: bool, block: nat, ino: Block, ghost q: Path,
                     ghost f: set<nat>, t: nat)
      returns (reply: Reply, ghost w: Writes)
      requires IdleOk(disk, f, x) && NamesOk(x) && keys == KeysFor(x) && NewName(x, q, pathname, name)
      requires ino == Ino(disk, x, Parent(q)) && ino.dir && x.names[Parent(q)].inode == block
      requires |ino.blocks| < FS_MAXFILEBLOCKS
      requires t in f && free == f - {t}
      modifies this
      ensures Valid() && writes == old(writes) + w && disk == Replay(old(disk), w)
      ensures CrashSafe(old(disk), w, old(Tree()), Tree())
      ensures if |f| < 2 then reply == NoSpace && Tree() == old(Tree())
              else reply == Done && Tree() == old(Tree())[q := NewNode(dir, user)]
      ensures LostBlocks(x) == old(LostBlocks(x)) + if |f| == 1 then f else {}
    {
      if free == {} {
        Unwritten(disk, f, x);
        w := [];
        Lose(f, t);
        reply := NoSpace;
      } else {
        var n := TakeFreeBlock();
        TwoBlocks(f, t, n);
        w := LinkTable(user, name, dir, block, ino, q, f, t, n);
        keys := keys + {pathname};
        reply := Done;
      }
    }

    /** The code forgets the block: it is in the free set no more, and nothing uses it. */
    ghost method Lose(f: set<nat>, t: nat)
      requires IdleOk(disk, f, x) && NamesOk(x) && keys == KeysFor(x) && t in f && free == f - {t} && free == {}
      modifies `x
      ensures Valid() && Tree() == old(Tree()) && f == {t} && LostBlocks(x) == old(LostBlocks(x)) + f
    {
      LoseSpace(disk, f, x, t);
      OneBlock(f, t);
      TakenUnused(disk, f, x, t);
      Loses(x, t);
      x := x.(use := x.use[t := Lost]);
    }

    method LinkTable(user: string, name: string, dir: bool, block: nat, ino: Block, ghost q: Path, ghost f: set<nat>,
                     t: nat, n: nat)
      returns (ghost w: Writes)
      requires IdleOk(disk, f, x) && NamesOk(x) && q != [] && NameOk(q) && name == Last(q) && q !in x.names
      requires Parent(q) in x.names
      requires ino == Ino(disk, x, Parent(q)) && ino.dir && x.names[Parent(q)].inode == block
      requires |ino.blocks| < FS_MAXFILEBLOCKS
      requires t in f && n in f && t != n && free == f - {t} - {n}
      modifies `disk, `x, `writes
      ensures IdleOk(disk, free, x) && NamesOk(x) && KeysFor(x) == KeysFor(old(x)) + {PathString(q)}
      ensures writes == old(writes) + w && disk == Replay(old(disk), w)
      ensures CrashSafe(old(disk), w, old(Tree()), Tree())
      ensures Tree() == old(Tree())[q := NewNode(dir, user)] && LostBlocks(x) == old(LostBlocks(x))
    {
      ghost var y := Linked(Given(x, Parent(q), |ino.blocks|, t), q, Spot(n, |ino.blocks|, 0));
      TableRun(disk, f, x, t, q, n, dir, user, y);
      GivenNames(x, q, |ino.blocks|, t, n, y);
      w := TableWrites(disk, x, t, q, n, dir, user);
      WriteThree(n, Inode(dir, user, []), t, Table(Unused()[0 := Entry(name, n)]), block, Appended(ino, t));
      x := y;
    }

    method WriteTwo(a: nat, u: Block, b: nat, v: Block)
      modifies `disk, `writes
      ensures disk == old(disk)[a := u][b := v] && writes == old(writes) + [(a, u), (b, v)]
    {
      WriteBlock(a, u);
      WriteBlock(b, v);
    }

    method WriteThree(a: nat, u: Block, b: nat, v: Block, c: nat, z: Block)
      modifies `disk, `writes
      ensures disk == old(disk)[a := u][b := v][c := z] && writes == old(writes) + [(a, u), (b, v), (c, z)]
    {
      WriteBlock(a, u);
      WriteBlock(b, v);
      WriteBlock(c, z);
    }

    /** handle_fs_delete: it does what a delete should, with one disk write, after it has given back the blocks
        and the key of its target. */
    method Delete(user: string, pathname: string) returns (reply: Reply, ghost w: Writes)
      requires Valid() && ValidPath(pathname)
      modifies this
      ensures Valid() && Serves(old(Tree()), Request.Delete(user, Components(pathname)), Tree(), reply)
      ensures writes == old(writes) + w && disk == Replay(old(disk), w) && |w| <= 1
      ensures CrashSafe(old(disk), w, old(Tree()), Tree())
      ensures reply == Done ==> keys == old(keys) - {pathname} && free == old(free) + Freed(old(x), x)
      ensures LostBlocks(x) == old(LostBlocks(x))
    {
      ValidSearchable(pathname);
      Unwritten(disk, free, x);
      w := [];
      ghost var q := Components(pathname);
      var r := Search(user, pathname);
      MayRemove(disk, x, user, q, r);
      if r.None? || (r.value.ino.dir && r.value.ino.blocks != []) {
        reply := Failed;
      } else {
        w := Remove(pathname, r.value, q);
        reply := Done;
      }
    }

    method Remove(pathname: string, f: Found, ghost q: Path) returns (ghost w: Writes)
      requires Valid() && Removing(disk, x, q, f) && NameOk(q) && pathname == PathString(q) && pathname[0] == '/'
      modifies this
      ensures Valid() && Tree() == old(Tree()) - {q} && LostBlocks(x) == old(LostBlocks(x))
      ensures writes == old(writes) + w && disk == Replay(old(disk), w) && |w| == 1
      ensures CrashSafe(old(disk), w, old(Tree()), Tree())
      ensures keys == old(keys) - {pathname} && free == old(free) + Freed(old(x), x)
    {
      var name := LastName(pathname, q);
      var e, count := EraseEntry(f.above, name);
      ghost var before := free;
      GiveBack(f, count);
      w := Unlink(e, q, f, before);
      keys := keys - {pathname};
    }

    /** The write of a delete, when the blocks are free again. */
    method Unlink(e: (nat, Block), ghost q: Path, ghost f: Found, ghost before: set<nat>) returns (ghost w: Writes)
      requires IdleOk(disk, before, x) && NamesOk(x) && Removing(disk, x, q, f) && e == Erasure(f.above, Last(q))
      requires free == before + Reclaimed(f.block, f.ino, f.above)
      modifies `disk, `x, `writes
      ensures IdleOk(disk, free, x) && NamesOk(x) && KeysFor(x) == KeysFor(old(x)) - {PathString(q)}
      ensures Tree() == old(Tree()) - {q} && LostBlocks(x) == old(LostBlocks(x)) && free == before + Freed(old(x), x)
      ensures writes == old(writes) + w && disk == Replay(old(disk), w) && |w| == 1
      ensures CrashSafe(old(disk), w, old(Tree()), Tree())
    {
      ghost var y, gone := Removed(x, q, f.above), Reclaimed(f.block, f.ino, f.above);
      RemoveRun(disk, before, x, q, f.above, gone, disk[e.0 := e.1], y, e);
      w := [e];
      WriteBlock(e.0, e.1);
      x := y;
    }

    /** The blocks of the target go back to the free set, and its table's if that is empty now. */
    method GiveBack(f: Found, count: nat)
      requires f.ino.Inode? && f.above.ino.Inode? && f.above.index < |f.above.ino.blocks|
      requires count == Used(f.above.table) && (f.ino.dir ==> f.ino.blocks == [])
      modifies `free
      ensures free == old(free) + Reclaimed(f.block, f.ino, f.above)
    {
      free := free + {f.block};
      if !f.ino.dir {
        var i := 0;
        while i < |f.ino.blocks|
          invariant 0 <= i <= |f.ino.blocks|
          invariant free == old(free) + {f.block} + set k | 0 <= k < i :: f.ino.blocks[k]
        {
          free := free + {f.ino.blocks[i]};
          i := i + 1;
        }
      }
      if count == 1 {
        free := free + {f.above.ino.blocks[f.above.index]};
      }
    }
  }

  /** A path is made of one sequence of names. */
  lemma NamesOnce(s: string)
    ensures forall ps {:trigger Join(ps)} :: Nameable(ps) && Join(ps) == s ==> ps == Components(s)
  {
    forall ps | Nameable(ps) && Join(ps) == s ensures ps == Components(s) {
      forall i | 0 <= i < |ps| ensures Plain(ps[i]) { assert ps[i] in ps; }
      ComponentsJoin(ps);
    }
  }

  lemma EightEntries(d: Disk, x: Index, p: Path, i: nat)
    requires WellFormed(d, x) && p in x.names && Ino(d, x, p).dir && i < |Ino(d, x, p).blocks|
    ensures |TableAt(d, Ino(d, x, p).blocks[i])| == FS_DIRENTRIES
    ensures forall j: nat {:trigger TableAt(d, Ino(d, x, p).blocks[i])[j]} :: j < FS_DIRENTRIES ==>
              EntryAt(d, Ino(d, x, p), i, j, TableAt(d, Ino(d, x, p).blocks[i])[j])
  {
    assert PathOk(d, x, p);
    assert TableOk(d, Ino(d, x, p).blocks[i]);
  }

  /** What the scan leaves is right for the server. */
  lemma ScanDone(d: Disk, y: Index, x: Index, all: set<nat>, free: set<nat>, keys: set<string>)
    requires WellFormed(d, y) && x == Trimmed(y) && WellFormed(d, x) && forall b {:trigger b in d} :: b in d ==>
      b < FS_DISKSIZE
    requires forall b: nat {:trigger b in all} :: b in all <==> 1 <= b < FS_DISKSIZE
    requires free == all - Below(x, []) && keys == {"/"} + KeysBelow(x, [])
    ensures IdleOk(d, free, x) && keys == KeysFor(x)
    ensures forall b: nat :: b in free <==> b < FS_DISKSIZE && !Reached(d, y, b)
  {
    KeysBelowRoot(d, x);
    forall b: nat ensures b in free <==> b < FS_DISKSIZE && !Reached(d, y, b) { BelowRoot(d, y, b); }
    ScanSpace(d, y, x, free);
  }

  lemma ScanSpace(d: Disk, y: Index, x: Index, free: set<nat>)
    requires WellFormed(d, y) && x == Trimmed(y) && WellFormed(d, x) && forall b {:trigger b in d} :: b in d ==>
      b < FS_DISKSIZE
    requires forall b: nat {:trigger b in free} :: b in free <==> b < FS_DISKSIZE && !Reached(d, y, b)
    ensures IdleOk(d, free, x)
  {
    forall b: nat ensures (b in x.use <==> Reached(d, y, b)) && (b in x.use ==> b < FS_DISKSIZE) {
      ReachedUsed(d, y, b);
      if b in x.use { UsedOnDisk(d, x, b); }
    }
  }

  /** What follows the last slash. */
  method LastName(pathname: string, ghost q: Path) returns (name: string)
    requires q != [] && NameOk(q) && pathname == PathString(q) && pathname != "" && pathname[0] == '/'
    ensures name == Last(q)
  {
    var slash := |pathname| - 1;
    while pathname[slash] != '/'
      invariant 0 <= slash < |pathname| && Plain(pathname[slash + 1..])
      decreases slash
    {
      assert pathname[slash..] == [pathname[slash]] + pathname[slash + 1..];
      slash := slash - 1;
    }
    LastIs(pathname, q, slash);
    name := pathname[slash + 1..];
  }

  lemma LastIs(pathname: string, q: Path, slash: nat)
    requires q != [] && NameOk(q) && pathname == PathString(q) && slash < |pathname| && pathname[slash] == '/'
    requires Plain(pathname[slash + 1..])
    ensures pathname[slash + 1..] == Last(q)
  {
    ComponentsJoin(q);
    LastPiece(pathname, slash);
  }

  lemma {:induction false} LastPiece(s: string, slash: nat)
    requires slash < |s| && s[slash] == '/' && Plain(s[slash + 1..])
    ensures |Split(s)| > 1 && Split(s)[|Split(s)| - 1] == s[slash + 1..]
    decreases slash
  {
    if slash == 0 { SplitPlain(s[1..]); } else {
      assert s[1..][slash..] == s[slash + 1..];
      LastPiece(s[1..], slash - 1);
    }
  }

  /** The loop over the entries of the target's table: the entry with the name is erased, the used ones counted. */
  method ClearEntries(table: seq<Entry>, name: string) returns (cleared: seq<Entry>, count: nat)
    ensures cleared == Cleared(table, name) && count == Used(table)
  {
    cleared, count := table, 0;
    var i := 0;
    while i < |table|
      invariant 0 <= i <= |table| && |cleared| == |table| && count == Used(table[..i])
      invariant forall k {:trigger cleared[k]} :: 0 <= k < i ==> cleared[k] == Cleared(table, name)[k]
      invariant forall k {:trigger cleared[k]} :: i <= k < |table| ==> cleared[k] == table[k]
    {
      assert table[..i + 1][..i] == table[..i];
      if cleared[i].inode != ROOT_BLOCK {
        count := count + 1;
        if cleared[i].name == name {
          cleared := cleared[i := Entry("", ROOT_BLOCK)];
        }
      }
      i := i + 1;
    }
    assert table[..i] == table;
  }

  /** The directory's inode without the emptied table: the blocks after it move down by one. */
  method ShiftBlocks(a: Above) returns (ino: Block)
    requires a.ino.Inode? && a.index < |a.ino.blocks|
    ensures ino == Shrunk(a)
  {
    var blocks, i := a.ino.blocks, a.index + 1;
    while i < |blocks|
      invariant a.index < i <= |blocks| == |a.ino.blocks|
      invariant forall k {:trigger blocks[k]} :: 0 <= k < |blocks| && !(a.index <= k < i - 1) ==>
        blocks[k] == a.ino.blocks[k]
      invariant forall k {:trigger blocks[k]} :: a.index <= k < i - 1 ==> blocks[k] == a.ino.blocks[k + 1]
    {
      blocks := blocks[i - 1 := blocks[i]];
      i := i + 1;
    }
    blocks := blocks[..|blocks| - 1];
    assert blocks == Without(a.ino.blocks, a.index);
    ino := Inode(a.ino.dir, a.ino.owner, blocks);
  }

  /** The one write of a delete: the directory's inode if the table has no other entry, or else the table. */
  method EraseEntry(a: Above, name: string) returns (e: (nat, Block), count: nat)
    requires a.ino.Inode? && a.index < |a.ino.blocks|
    ensures e == Erasure(a, name) && count == Used(a.table)
  {
    var table: seq<Entry>;
    table, count := ClearEntries(a.table, name);
    var ino := ShiftBlocks(a);
    e := if count == 1 then (a.block, ino) else (a.ino.blocks[a.index], Table(table));
  }

  function Shrunk(a: Above): Block
    requires a.ino.Inode? && a.index < |a.ino.blocks|
  {
    Inode(a.ino.dir, a.ino.owner, Without(a.ino.blocks, a.index))
  }

  ghost predicate Removing(d: Disk, x: Index, q: Path, f: Found) {
    && Removable(d, x, q) && AboveOk(d, x, q, f.above) && x.names[q].inode == f.block && Ino(d, x, q) == f.ino
  }

  /** A delete goes on exactly if it is allowed. */
  lemma MayRemove(d: Disk, x: Index, user: string, q: Path, r: Option<Found>)
    requires WellFormed(d, x) && q != [] && (r.Some? <==> Reaches(TreeOf(d, x), user, q))
    requires r.Some? ==> FoundOk(d, x, user, q, r.value)
    ensures Allowed(TreeOf(d, x), Request.Delete(user, q)) <==>
      r.Some? && (r.value.ino.dir ==> r.value.ino.blocks == [])
    ensures r.Some? && (r.value.ino.dir ==> r.value.ino.blocks == []) ==> Removing(d, x, q, r.value)
  {
    if r.Some? && r.value.ino.dir { ChildlessOk(d, x, q); }
  }

  lemma RemovedNames(x: Index, q: Path, a: Above, y: Index)
    requires NamesOk(x) && q in x.names && q != [] && y == Removed(x, q, a)
    ensures NamesOk(y) && KeysFor(y) == KeysFor(x) - {PathString(q)} && LostBlocks(y) == LostBlocks(x)
  {
    ForgottenForgets(x, q);
    LoweredDrops(x, Parent(q), q, a.index);
    forall p | p in y.names ensures NameOk(p) { assert x.names[p] == x.names[p]; }
    forall k ensures k in KeysFor(y) <==> k in KeysFor(x) - {PathString(q)} { RemovedKey(x, q, y, k); }
    forall b ensures b in LostBlocks(y) <==> b in LostBlocks(x) {
      if b in x.use { assert Stays(x, Parent(q), q, a.index, b) || x.use[b] != Lost; }
    }
  }

  lemma RemoveRun(d: Disk, free: set<nat>, x: Index, q: Path, a: Above, gone: set<nat>, d2: Disk, y: Index,
                  e: (nat, Block))
    requires IdleOk(d, free, x) && NamesOk(x) && Removable(d, x, q) && AboveOk(d, x, q, a) && y == Removed(x, q, a)
    requires e == Erasure(a, Last(q)) && d2 == d[e.0 := e.1] && gone == Reclaimed(x.names[q].inode, Ino(d, x, q), a)
    ensures Replay(d, [e]) == d2 && CrashSafe(d, [e], TreeOf(d, x), TreeOf(d, x) - {q})
    ensures TreeOf(d2, y) == TreeOf(d, x) - {q} && IdleOk(d2, free + gone, y) && gone == Freed(x, y)
    ensures NamesOk(y) && KeysFor(y) == KeysFor(x) - {PathString(q)} && LostBlocks(y) == LostBlocks(x)
  {
    DeleteRun(d, free, x, q, a, gone, d2, y);
    RemovedNames(x, q, a, y);
    GivesBack(d, free, x, q, a, gone, y);
  }

  lemma GivesBack(d: Disk, free: set<nat>, x: Index, q: Path, a: Above, gone: set<nat>, y: Index)
    requires IdleOk(d, free, x) && Removable(d, x, q) && AboveOk(d, x, q, a) && y == Removed(x, q, a)
    requires gone == Reclaimed(x.names[q].inode, Ino(d, x, q), a)
    ensures gone == Freed(x, y)
  {
    forall b ensures b in gone <==> b in Freed(x, y) { RemoveUse(d, x, q, a, y, b); }
  }

  lemma RemovedKey(x: Index, q: Path, y: Index, k: string)
    requires NamesOk(x) && q in x.names && forall r {:trigger r in y.names} :: r in y.names <==> r in x.names && r != q
    ensures k in KeysFor(y) <==> k in KeysFor(x) - {PathString(q)}
  {
    forall p | p in x.names && PathString(p) == PathString(q) ensures p == q {
      assert x.names[p] == x.names[p] && x.names[q] == x.names[q];
      PathStringInjective(p, q);
    }
    if k in KeysFor(y) {
      var p :| p in y.names && PathString(p) == k;
      assert p in x.names;
    }
    if k in KeysFor(x) && k != PathString(q) {
      var p :| p in x.names && PathString(p) == k;
      assert p in y.names;
    }
  }

  /** A write that makes its file longer. */
  ghost predicate Grows(tree: Tree, req: Request)
    requires req.path != []
  {
    Allowed(tree, req) && NeedsSpace(tree, req)
  }

  /** A directory with an unused entry needs a block for the inode. One with none needs another for a table, and has
      at most 124. */
  ghost predicate NoRoom(d: Disk, x: Index, free: set<nat>, p: Path) {
    if NoneUnused(d, Ino(d, x, p)) then |Ino(d, x, p).blocks| == FS_MAXFILEBLOCKS || |free| < 2 else free == {}
  }

  /** A table is needed and may be added, and one block is free. */
  ghost predicate LastForTable(d: Disk, x: Index, free: set<nat>, p: Path) {
    NoneUnused(d, Ino(d, x, p)) && |Ino(d, x, p).blocks| < FS_MAXFILEBLOCKS && |free| == 1
  }

  ghost function LostBlocks(x: Index): set<nat> { set b | b in x.use && x.use[b] == Lost }

  ghost predicate NewName(x: Index, q: Path, pathname: string, name: string) {
    q != [] && NameOk(q) && pathname == PathString(q) && name == Last(q) && q !in x.names && Parent(q) in x.names
  }

  /** The free set is exactly what the disk does not reach if and only if no block is lost. */
  lemma FreeIffNoneLost(d: Disk, free: set<nat>, x: Index)
    requires IdleOk(d, free, x)
    ensures (forall b: nat {:trigger b in free} :: b in free <==> b < FS_DISKSIZE && !Reached(d, x, b))
      <==> LostBlocks(x) == {}
  {
    forall b: nat ensures b in free <==> b < FS_DISKSIZE && !Reached(d, x, b) && b !in LostBlocks(x) {
      ReachedUsed(d, x, b);
    }
    forall b | b in LostBlocks(x) ensures b < FS_DISKSIZE && b !in free && !Reached(d, x, b) { ReachedUsed(d, x, b); }
  }

  lemma OneBlock(f: set<nat>, t: nat)
    requires t in f && f - {t} == {}
    ensures f == {t} && |f| == 1
  {
    assert f == {t};
  }

  lemma TwoBlocks(f: set<nat>, t: nat, n: nat)
    requires t in f && n in f && t != n
    ensures |f| >= 2
  {
    assert |f| == |f - {t} - {n}| + 2;
  }

  lemma FewBlocks(f: set<nat>)
    ensures f == {} ==> |f| == 0
  {}

  lemma TakenUnused(d: Disk, f: set<nat>, x: Index, t: nat)
    requires IdleOk(d, f, x) && t in f
    ensures t !in x.use
  {}

  lemma FullList(d: Disk, x: Index, p: Path)
    requires WellFormed(d, x) && p in x.names
    ensures |Ino(d, x, p).blocks| <= FS_MAXFILEBLOCKS
  {
    assert PathOk(d, x, p);
  }

  /** check_valid_pathname has looked at every name. */
  lemma LastNameFits(s: string)
    requires ValidPath(s) && Components(s) != []
    ensures |Last(Components(s))| <= FS_MAXFILENAME
  {
    assert 0 < |Components(s)[|Components(s)| - 1]| <= FS_MAXFILENAME;
  }

  lemma Loses(x: Index, t: nat)
    requires t !in x.use || !x.use[t].Lost?
    ensures LostBlocks(x.(use := x.use[t := Lost])) == LostBlocks(x) + {t}
  {}

  lemma ParentName(q: Path)
    requires q != [] && NameOk(q)
    ensures NameOk(Parent(q)) && (PathString(Parent(q)) == "/" <==> Parent(q) == [])
    ensures Parent(q) != [] ==> Searchable(PathString(Parent(q))) && Components(PathString(Parent(q))) == Parent(q)
  {
    var p := Parent(q);
    forall i | 0 <= i < |p| ensures Plain(p[i]) { assert p[i] == q[i]; }
    forall n | n in p ensures n != "" {
      var i :| 0 <= i < |p| && p[i] == n;
      assert q[i] in q;
    }
    if p != [] {
      ComponentsJoin(p);
      JoinLength(p);
    }
  }

  lemma RootParent(d: Disk, x: Index, user: string)
    requires WellFormed(d, x)
    ensures [] in x.names && x.names[[]].inode == ROOT_BLOCK && InodeAt(d, ROOT_BLOCK) == Ino(d, x, [])
    ensures Reaches(TreeOf(d, x), user, [])
  {
    assert PathOk(d, x, []);
  }

  /** Whether the name is there decides whether the create is allowed. */
  lemma NameDecides(d: Disk, x: Index, user: string, q: Path, dir: bool, duplicate: bool)
    requires WellFormed(d, x) && q != [] && Reaches(TreeOf(d, x), user, Parent(q)) && TreeOf(d, x)[Parent(q)].Dir?
    requires duplicate <==> !NoEntry(d, Ino(d, x, Parent(q)), Last(q))
    ensures duplicate <==> q in x.names
    ensures Allowed(TreeOf(d, x), Request.Create(user, q, dir)) <==> !duplicate
  {
    var ino := Ino(d, x, Parent(q));
    ChildOfParent(q);
    if duplicate {
      var i: nat, l: nat, b: nat :| HasEntry(d, ino, Last(q), i, l, b);
      EntryOfChild(d, x, Parent(q), Last(q), i, l, b);
    } else {
      NoChild(d, x, Parent(q), Last(q));
    }
  }

  lemma LinkedNames(x: Index, q: Path, s: Spot, y: Index)
    requires NamesOk(x) && NameOk(q) && y == Linked(x, q, s) && s.inode !in x.use
    ensures NamesOk(y) && KeysFor(y) == KeysFor(x) + {PathString(q)} && LostBlocks(y) == LostBlocks(x)
  {
    forall k ensures k in KeysFor(y) <==> k in KeysFor(x) + {PathString(q)} {
      if k in KeysFor(x) {
        var p :| p in x.names && PathString(p) == k;
        assert p in y.names;
      }
      assert q in y.names;
    }
  }

  lemma GivenNames(x: Index, q: Path, k: nat, t: nat, n: nat, y: Index)
    requires NamesOk(x) && q != [] && NameOk(q) && y == Linked(Given(x, Parent(q), k, t), q, Spot(n, k, 0))
    requires t !in x.use && n !in x.use && t != n
    ensures NamesOk(y) && KeysFor(y) == KeysFor(x) + {PathString(q)} && LostBlocks(y) == LostBlocks(x)
  {
    var g := Given(x, Parent(q), k, t);
    LinkedNames(g, q, Spot(n, k, 0), y);
  }

  /** The first unused slot among those before slot `l` of table `k`. */
  ghost predicate FirstSoFar(d: Disk, ino: Block, found: bool, i: nat, j: nat, k: nat, l: nat)
    requires ino.Inode?
  {
    if found then
      && UnusedAt(d, ino, i, j) && (i < k || (i == k && j < l))
      && forall m: nat, n: nat {:trigger UnusedAt(d, ino, m, n)} :: UnusedAt(d, ino, m, n) ==>
        i < m || (i == m && j <= n)
    else forall m: nat, n: nat {:trigger UnusedAt(d, ino, m, n)} :: UnusedAt(d, ino, m, n) ==>
      k < m || (k == m && l <= n)
  }

  /** Without a write the tree is what it was. */
  lemma Unwritten(d: Disk, free: set<nat>, x: Index)
    requires IdleOk(d, free, x)
    ensures Replay(d, []) == d && CrashSafe(d, [], TreeOf(d, x), TreeOf(d, x))
  {
    CrashNone(d, TreeOf(d, x), TreeOf(d, x));
  }

  lemma ValidSearchable(s: string)
    requires ValidPath(s)
    ensures Searchable(s) && Components(s) != [] && PathString(Components(s)) == s
  {
    ValidComponents(s);
  }

  /** No file has that many blocks. */
  lemma ReadTooFar(d: Disk, x: Index, user: string, p: Path, block: nat)
    requires WellFormed(d, x) && p != [] && block >= FS_MAXFILEBLOCKS
    ensures !Allowed(TreeOf(d, x), Request.Read(user, p, block))
  {
    if p in x.names { assert PathOk(d, x, p); }
  }
}
