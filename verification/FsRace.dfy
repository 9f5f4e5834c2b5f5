/** A run of two requests after which a crash would leave no tree: a delete has given a block back and not written yet,
    and a write to another file has taken the block and written to it. */
module FsRace {
  import opened Wrappers
  import opened FsDisk
  import opened FsUpdate
  import opened FsLink
  import opened FsTree
  import opened FsSteps
  import opened FsInvariant
  import opened FsSafety
  import opened FsScan
  import opened FsRun
  import opened FsExample

  // ----- what a write to a block does to the tree that the disk shows -----

  /** A block that is part of no path up to the one whose entry is meant: the entry stays where it is. */
  lemma {:induction false} SpotStays(d: Disk, z: Index, b: nat, v: Block, y: Index, p: Path)
    requires WellFormed(d, z) && WellFormed(d[b := v], y) && p in z.names
    requires forall q {:trigger Foreign(z, b, q)} :: |q| < |p| && q == p[..|q|] ==> Foreign(z, b, q)
    ensures p in y.names && y.names[p].inode == z.names[p].inode
    decreases |p|
  {
    assert PathOk(d, z, p);
    if p == [] { assert PathOk(d[b := v], y, p); } else {
      var q := Parent(p);
      forall o {:trigger Foreign(z, b, o)} | |o| < |q| && o == q[..|o|] ensures Foreign(z, b, o) {
        assert o == p[..|o|];
      }
      SpotStays(d, z, b, v, y, q);
      assert Foreign(z, b, q);
      Unnoticed(d, z, q, b, v, z);
      SameEntries(d, z, d[b := v], z, q, z.names[p].table, z.names[p].slot, Entry(Last(p), z.names[p].inode));
      InodeNotZero(d, z, p);
      assert Entered(d[b := v], y, q, z.names[p].table, z.names[p].slot, Entry(Last(p), z.names[p].inode));
      ChildOfParent(p);
    }
  }

  /** A block that is part of a path is part of no other. */
  lemma OnlyPart(z: Index, b: nat, p: Path)
    requires b in z.use && About(z.use[b]) == Some(p)
    ensures forall q {:trigger Foreign(z, b, q)} :: q != p ==> Foreign(z, b, q)
  {}

  /** Content that the block of an inode, a table or a file cannot have. */
  function Wrong(d: Disk, b: nat): Block {
    if b in d && d[b].Data? then Inode(false, "", []) else Data("")
  }

  lemma WrongBreaks(d: Disk, z: Index, b: nat, y: Index)
    requires WellFormed(d, z) && b in z.use && About(z.use[b]).Some?
    ensures !WellFormed(d[b := Wrong(d, b)], y)
  {
    var p := About(z.use[b]).value;
    assert Uses(d, z, b, z.use[b]);
    OnlyPart(z, b, p);
    assert PathOk(d, z, p);
    if WellFormed(d[b := Wrong(d, b)], y) { WrongSpot(d, z, b, y, p); }
  }

  lemma WrongSpot(d: Disk, z: Index, b: nat, y: Index, p: Path)
    requires WellFormed(d, z) && b in z.use && About(z.use[b]) == Some(p) && p in z.names && PathOk(d, z, p)
    requires Uses(d, z, b, z.use[b]) && forall q {:trigger Foreign(z, b, q)} :: q != p ==> Foreign(z, b, q)
    ensures !WellFormed(d[b := Wrong(d, b)], y)
  {
    var d2 := d[b := Wrong(d, b)];
    PathOfUse(d, z, b, p, d2);
    assert p in y.names && y.names[p].inode == z.names[p].inode ==> !PathOk(d2, y, p);
    if WellFormed(d2, y) { SpotStays(d, z, b, Wrong(d, b), y, p); }
  }

  /** The inode, or one of the blocks it lists, is not what it must be. */
  lemma PathOfUse(d: Disk, z: Index, b: nat, p: Path, d2: Disk)
    requires UseOk(d, z) && p in z.names && PathOk(d, z, p) && b in z.use && About(z.use[b]) == Some(p)
    requires Uses(d, z, b, z.use[b]) && d2 == d[b := Wrong(d, b)]
    ensures !d2[z.names[p].inode].Inode? || !ListOk(d2, d2[z.names[p].inode])
  {
    assert UsedBy(z, z.names[p].inode, InodeOf(p));
    if z.use[b].BlockOf? {
      var i := z.use[b].index;
      assert Ino(d, z, p).blocks[i] == b;
      assert Ino(d, z, p).dir ==> TableOk(d, b) && !TableOk(d2, b);
    }
  }

  lemma OtherWritesStay(d: Disk, z: Index, b: nat, v: Block)
    requires WellFormed(d, z) && b !in Trimmed(z).use
    ensures Decodes(d[b := v], TreeOf(d, z))
  {
    var t, d2 := Trimmed(z), d[b := v];
    TrimmedOk(d, z);
    forall q | q in t.names ensures SameNode(d, t, d2, t, q) { Unnoticed(d, t, q, b, v, t); }
    forall q | q in t.names ensures Ino(d2, t, q) == Ino(d, t, q) { assert SameNode(d, t, d2, t, q); }
    UsesKept(d, t, d2);
    SameTreeOk(d, t, d2, t);
  }

  /** Whatever is written to a block, the disk shows the same tree: exactly if the disk does not lead to the block. */
  lemma HarmlessExactly(d: Disk, z: Index, b: nat)
    requires WellFormed(d, z)
    ensures (forall v {:trigger d[b := v]} :: Decodes(d[b := v], TreeOf(d, z))) <==> !Reached(d, z, b)
  {
    ReachedUsed(d, z, b);
    if Reached(d, z, b) {
      forall y: Index {:trigger WellFormed(d[b := Wrong(d, b)], y)} ensures !WellFormed(d[b := Wrong(d, b)], y) {
        WrongBreaks(d, z, b, y);
      }
      assert !Decodes(d[b := Wrong(d, b)], TreeOf(d, z));
    } else {
      forall v {:trigger d[b := v]} ensures Decodes(d[b := v], TreeOf(d, z)) { OtherWritesStay(d, z, b, v); }
    }
  }

  // ----- steps of a walk, in any state -----

  function Moved(s: State, r: nat, phase: Phase, held: map<Path, nat>): State
    requires r in s.jobs
  {
    s.(jobs := s.jobs[r := Job(s.jobs[r].req, phase)], held := held)
  }

  ghost predicate In(s: State, r: nat, req: Request, phase: Phase) {
    r in s.jobs && s.jobs[r] == Job(req, phase) && req.path != []
  }

  lemma Locks(s: State, r: nat, req: Request, k: nat, b: nat, a: Above)
    requires In(s, r, req, Waiting(k, b, a)) && k <= |req.path| && req.path[..k] !in s.held && req.path[..k] in s.keys
    ensures Next(s, Moved(s, r, Entering(k, b, a), s.held[req.path[..k] := r]))
  {
    var t := Moved(s, r, Entering(k, b, a), s.held[req.path[..k] := r]);
    assert t.keys == s.keys + {req.path[..k]};
    assert LockStep(s, r, s.jobs[r], t);
    StepNext(s, r, s.jobs[r], t);
  }

  function HeldAfter(req: Request, k: nat, held: map<Path, nat>): map<Path, nat> {
    if k == 0 || k > |req.path| || (req.Delete? && k == |req.path|) then held else held - {req.path[..k - 1]}
  }

  lemma Passes(s: State, r: nat, req: Request, k: nat, b: nat, a: Above)
    requires In(s, r, req, Entering(k, b, a)) && k <= |req.path|
    ensures Next(s, Moved(s, r, At(k, b, a), HeldAfter(req, k, s.held)))
  {
    var t := Moved(s, r, At(k, b, a), HeldAfter(req, k, s.held));
    assert PassStep(s, r, s.jobs[r], t);
    StepNext(s, r, s.jobs[r], t);
  }

  lemma Looks(s: State, r: nat, req: Request, k: nat, b: nat, a: Above, i: nat, l: nat, c: nat, ino: Block,
              onward: Above)
    requires In(s, r, req, At(k, b, a)) && k < Goal(req) && ino == InodeAt(s.disk, b) && ino.dir
    requires b == ROOT_BLOCK || ino.owner == req.user
    requires HasEntry(s.disk, ino, req.path[k], i, l, c) 
    requires onward == Above(b, ino, i, l, TableAt(s.disk, ino.blocks[i]))
    ensures Next(s, Moved(s, r, Waiting(k + 1, c, onward), s.held))
  {
    var t := Moved(s, r, Waiting(k + 1, c, onward), s.held);
    assert LookStep(s, r, s.jobs[r], t);
    StepNext(s, r, s.jobs[r], t);
  }

  /** The run goes on with one more state. */
  lemma Further(ss: seq<State>, s: State, t: State) returns (more: seq<State>)
    requires Run(ss) && ss[|ss| - 1] == s && Next(s, t)
    ensures Run(more) && more[|more| - 1] == t
  {
    more := ss + [t];
    forall i | 0 <= i < |more| - 1 ensures StepAt(more, i) { if i < |ss| - 1 { assert StepAt(ss, i); } }
  }

  lemma MovedTwice(s: State, r: nat, phase: Phase, held: map<Path, nat>, after: Phase, later: map<Path, nat>)
    requires r in s.jobs
    ensures Moved(Moved(s, r, phase, held), r, after, later) == Moved(s, r, after, later)
  {}

  /** The mutex of the first `k` names is locked, and the one above it unlocked. */
  lemma Reaching(ss: seq<State>, s: State, r: nat, req: Request, k: nat, b: nat, a: Above, t: State)
    returns (more: seq<State>)
    requires Run(ss) && ss[|ss| - 1] == s && In(s, r, req, Waiting(k, b, a)) && k <= |req.path|
    requires req.path[..k] !in s.held && req.path[..k] in s.keys
    requires t == Moved(s, r, At(k, b, a), HeldAfter(req, k, s.held[req.path[..k] := r]))
    ensures Run(more) && more[|more| - 1] == t
  {
    var held := s.held[req.path[..k] := r];
    var enters := Moved(s, r, Entering(k, b, a), held);
    Locks(s, r, req, k, b, a);
    var m1 := Further(ss, s, enters);
    Passes(enters, r, req, k, b, a);
    MovedTwice(s, r, Entering(k, b, a), held, At(k, b, a), HeldAfter(req, k, held));
    more := Further(m1, enters, t);
  }

  /** One directory: its mutex is locked, the one above it unlocked, and the next name is looked up. */
  lemma Hops(ss: seq<State>, s: State, r: nat, req: Request, k: nat, b: nat, a: Above, i: nat, l: nat, c: nat,
             ino: Block,
             onward: Above, t: State) returns (more: seq<State>)
    requires Run(ss) && ss[|ss| - 1] == s && In(s, r, req, Waiting(k, b, a)) && k < Goal(req)
    requires req.path[..k] !in s.held && req.path[..k] in s.keys && ino == InodeAt(s.disk, b) && ino.dir
    requires b == ROOT_BLOCK || ino.owner == req.user
    requires HasEntry(s.disk, ino, req.path[k], i, l, c)
    requires onward == Above(b, ino, i, l, TableAt(s.disk, ino.blocks[i]))
    requires t == Moved(s, r, Waiting(k + 1, c, onward), HeldAfter(req, k, s.held[req.path[..k] := r]))
    ensures Run(more) && more[|more| - 1] == t
  {
    var held := HeldAfter(req, k, s.held[req.path[..k] := r]);
    var stands := Moved(s, r, At(k, b, a), held);
    var m1 := Reaching(ss, s, r, req, k, b, a, stands);
    Looks(stands, r, req, k, b, a, i, l, c, ino, onward);
    MovedTwice(s, r, At(k, b, a), held, Waiting(k + 1, c, onward), held);
    more := Further(m1, stands, t);
  }

  // ----- a disk with a directory, a file in it, and another file -----

  const DIR: Path := ["d"]
  const DOOMED: Path := ["d", "f"]
  const OTHER: Path := ["g"]

  function RootRow(): seq<Entry> { Unused()[0 := Entry("d", 2)][1 := Entry("g", 4)] }

  function DirRow(): seq<Entry> { Unused()[0 := Entry("f", 5)] }

  function RootInode(): Block { Inode(true, "", [1]) }

  function DirInode(): Block { Inode(true, "u", [3]) }

  function FileInode(): Block { Inode(false, "u", []) }

  function RaceDisk(): Disk {
    map[0 := RootInode(), 1 := Table(RootRow()), 2 := DirInode(), 3 := Table(DirRow()),
        4 := FileInode(), 5 := FileInode()]
  }

  function RaceIndex(): Index {
    Index(map[[] := Spot(0, 0, 0), DIR := Spot(2, 0, 0), OTHER := Spot(4, 0, 1), DOOMED := Spot(5, 0, 0)],
          map[0 := InodeOf([]), 1 := BlockOf([], 0), 2 := InodeOf(DIR), 3 := BlockOf(DIR, 0), 4 := InodeOf(OTHER),
              5 := InodeOf(DOOMED)])
  }

  lemma Rows(j: nat)
    ensures |RootRow()| == 8 && |DirRow()| == 8 && RootRow()[0] == Entry("d", 2) && RootRow()[1] == Entry("g", 4)
    ensures DirRow()[0] == Entry("f", 5) && (1 < j < 8 ==> RootRow()[j] == Entry("", 0))
    ensures 0 < j < 8 ==> DirRow()[j] == Entry("", 0)
  {}

  lemma RacePath(d: Disk, x: Index, p: Path)
    requires d == RaceDisk() && x == RaceIndex() && p in x.names
    ensures PathOk(d, x, p)
  {
    Rows(0);
    assert d[1].entries[0].inode != 0 && d[3].entries[0].inode != 0;
    assert p == [] || p == DIR || p == OTHER || p == DOOMED;
    assert Parent(DIR) == [] && Parent(OTHER) == [] && Parent(DOOMED) == DIR;
    assert Last(DIR) == "d" && Last(OTHER) == "g" && Last(DOOMED) == "f";
  }

  lemma RaceEntered(d: Disk, x: Index, p: Path, i: nat, j: nat, e: Entry)
    requires d == RaceDisk() && x == RaceIndex() && p in x.names && Ino(d, x, p).dir
    ensures Entered(d, x, p, i, j, e)
  {
    Rows(j);
    assert p == [] || p == DIR;
    assert Child([], "d") == DIR && Child([], "g") == OTHER && Child(DIR, "f") == DOOMED;
    assert Ino(d, x, p) == if p == [] then RootInode() else DirInode();
  }

  lemma RaceUsed(d: Disk, x: Index, p: Path, i: nat)
    requires d == RaceDisk() && x == RaceIndex() && p in x.names
    ensures UsedBy(x, x.names[p].inode, InodeOf(p))
    ensures i < |Ino(d, x, p).blocks| ==> UsedBy(x, Ino(d, x, p).blocks[i], BlockOf(p, i))
  {
    assert p == [] || p == DIR || p == OTHER || p == DOOMED;
  }

  lemma RaceUses(d: Disk, x: Index, b: nat)
    requires d == RaceDisk() && x == RaceIndex() && b in x.use
    ensures Uses(d, x, b, x.use[b])
  {}

  lemma RaceTree(d: Disk, x: Index)
    requires d == RaceDisk() && x == RaceIndex()
    ensures WellFormed(d, x)
  {
    assert [] in x.names && Ino(d, x, []) == RootInode();
    forall p | p in x.names ensures PathOk(d, x, p) { RacePath(d, x, p); }
    forall p, i: nat, j: nat, e | p in x.names && Ino(d, x, p).dir ensures Entered(d, x, p, i, j, e) {
      RaceEntered(d, x, p, i, j, e);
    }
    forall p | p in x.names ensures UsedBy(x, x.names[p].inode, InodeOf(p)) { RaceUsed(d, x, p, 0); }
    forall p, i: nat | p in x.names && i < |Ino(d, x, p).blocks|
      ensures UsedBy(x, Ino(d, x, p).blocks[i], BlockOf(p, i))
    {
      RaceUsed(d, x, p, i);
    }
    forall b | b in x.use ensures Uses(d, x, b, x.use[b]) { RaceUses(d, x, b); }
  }

  lemma RaceSpace(s: State, free: set<nat>)
    requires s == RaceRest(free) && forall b: nat {:trigger b in free} :: b in free <==> 6 <= b < 4096
    ensures SpaceOk(s) && forall b {:trigger s.x.use[b]} :: b in s.x.use ==> About(s.x.use[b]).Some?
  {}

  function RaceRest(free: set<nat>): State {
    State(RaceDisk(), free, map[], RaceIndex().names.Keys, map[], RaceDisk(), RaceIndex(), [], map[])
  }

  lemma RaceStart(free: set<nat>)
    requires forall b: nat {:trigger b in free} :: b in free <==> 6 <= b < 4096
    ensures Start(RaceRest(free))
  {
    RaceTree(RaceDisk(), RaceIndex());
    RaceSpace(RaceRest(free), free);
  }

  lemma {:induction false} Blocks(n: nat) returns (free: set<nat>)
    ensures forall b: nat {:trigger b in free} :: b in free <==> 6 <= b < n
  {
    free := {};
    if n > 6 {
      var fewer := Blocks(n - 1);
      free := fewer + {n - 1};
    }
  }

  // ----- the delete, up to its visit to the free set -----

  function Deletes(): Request { Request.Delete("u", DOOMED) }

  function AboveDir(): Above { Above(0, RootInode(), 0, 0, RootRow()) }

  function AboveDoomed(): Above { Above(2, DirInode(), 0, 0, DirRow()) }

  lemma RaceLooks(d: Disk)
    requires d == RaceDisk()
    ensures InodeAt(d, 0) == RootInode() && InodeAt(d, 2) == DirInode() && InodeAt(d, 4) == FileInode()
    ensures TableAt(d, 1) == RootRow() && TableAt(d, 3) == DirRow()
    ensures HasEntry(d, RootInode(), "d", 0, 0, 2) && HasEntry(d, DirInode(), "f", 0, 0, 5)
    ensures HasEntry(d, RootInode(), "g", 0, 1, 4)
  {
    Rows(0);
  }

  /** The delete, alone on the server, in one of its phases. */
  function Alone0(free: set<nat>, phase: Phase, held: map<Path, nat>): State {
    RaceRest(free).(jobs := map[0 := Job(Deletes(), phase)], held := held)
  }

  lemma Begins0(free: set<nat>) returns (ss: seq<State>)
    requires Start(RaceRest(free))
    ensures Run(ss) && ss[|ss| - 1] == Alone0(free, Waiting(0, ROOT_BLOCK, NOWHERE), map[])
  {
    var t := Alone0(free, Waiting(0, ROOT_BLOCK, NOWHERE), map[]);
    assert BeginStep(RaceRest(free), 0, Deletes(), t);
    ss := Further([RaceRest(free)], RaceRest(free), t);
  }

  lemma MovedAlone(free: set<nat>, phase: Phase, held: map<Path, nat>, after: Phase, later: map<Path, nat>)
    ensures Moved(Alone0(free, phase, held), 0, after, later) == Alone0(free, after, later)
  {}

  lemma EntersDir(free: set<nat>, ss: seq<State>) returns (more: seq<State>)
    requires Run(ss) && ss[|ss| - 1] == Alone0(free, Waiting(0, ROOT_BLOCK, NOWHERE), map[])
    ensures Run(more) && more[|more| - 1] == Alone0(free, Waiting(1, 2, AboveDir()), map[[] := 0])
  {
    var s, t := ss[|ss| - 1], Alone0(free, Waiting(1, 2, AboveDir()), map[[] := 0]);
    RaceLooks(s.disk);
    Prefixes();
    MovedAlone(free, Waiting(0, ROOT_BLOCK, NOWHERE), map[], Waiting(1, 2, AboveDir()), map[[] := 0]);
    more := Hops(ss, s, 0, Deletes(), 0, ROOT_BLOCK, NOWHERE, 0, 0, 2, RootInode(), AboveDir(), t);
  }

  lemma FindsDoomed(free: set<nat>, ss: seq<State>) returns (more: seq<State>)
    requires Run(ss) && ss[|ss| - 1] == Alone0(free, Waiting(1, 2, AboveDir()), map[[] := 0])
    ensures Run(more) && more[|more| - 1] == Alone0(free, Waiting(2, 5, AboveDoomed()), map[DIR := 0])
  {
    var s, t := ss[|ss| - 1], Alone0(free, Waiting(2, 5, AboveDoomed()), map[DIR := 0]);
    RaceLooks(s.disk);
    Prefixes();
    assert HeldAfter(Deletes(), 1, s.held[DIR := 0]) == map[DIR := 0];
    MovedAlone(free, Waiting(1, 2, AboveDir()), map[[] := 0], Waiting(2, 5, AboveDoomed()), map[DIR := 0]);
    more := Hops(ss, s, 0, Deletes(), 1, 2, AboveDir(), 0, 0, 5, DirInode(), AboveDoomed(), t);
  }

  lemma LocksDoomed(free: set<nat>, ss: seq<State>) returns (more: seq<State>)
    requires Run(ss) && ss[|ss| - 1] == Alone0(free, Waiting(2, 5, AboveDoomed()), map[DIR := 0])
    ensures Run(more) && more[|more| - 1] == Alone0(free, At(2, 5, AboveDoomed()), map[DIR := 0, DOOMED := 0])
  {
    var s, t := ss[|ss| - 1], Alone0(free, At(2, 5, AboveDoomed()), map[DIR := 0, DOOMED := 0]);
    Prefixes();
    assert HeldAfter(Deletes(), 2, s.held[DOOMED := 0]) == t.held;
    MovedAlone(free, Waiting(2, 5, AboveDoomed()), map[DIR := 0], At(2, 5, AboveDoomed()), t.held);
    more := Reaching(ss, s, 0, Deletes(), 2, 5, AboveDoomed(), t);
  }

  lemma Prefixes()
    ensures DOOMED[..0] == [] && DOOMED[..1] == DIR && DOOMED[..2] == DOOMED && OTHER[..0] == [] && OTHER[..1] == OTHER
    ensures DIR != OTHER && DIR != DOOMED && OTHER != DOOMED
  {}

  /** The delete has given block 5 back, and the disk still leads to it. */
  ghost predicate Pending(s: State) {
    && s.disk == RaceDisk() && 5 in s.free && s.held == map[DIR := 0] && [] in s.keys && OTHER in s.keys
    && 0 in s.jobs && s.jobs[0].phase.Erasing? && s.jobs.Keys == {0} && s.done == map[]
  }

  lemma FreesBlock(free: set<nat>, s: State) returns (t: State)
    requires s == Alone0(free, At(2, 5, AboveDoomed()), map[DIR := 0, DOOMED := 0])
    ensures DeleteStep(s, 0, s.jobs[0], t) && Pending(t)
  {
    var e, ino, a := Erasure(AboveDoomed(), Last(DOOMED)), InodeAt(s.disk, 5), AboveDoomed();
    t := SetPhase(Committed(s, 0, Done), 0, Erasing(e.0, e.1)).(
      free := s.free + Reclaimed(5, ino, a), held := s.held - {DOOMED}, keys := s.keys - {DOOMED},
      view := s.view[e.0 := e.1], x := Removed(s.x, DOOMED, a));
    Prefixes();
    assert t.held == map[DIR := 0];
    assert 5 in Reclaimed(5, ino, a);
  }

  lemma Frees(free: set<nat>, ss: seq<State>) returns (more: seq<State>)
    requires Run(ss) && ss[|ss| - 1] == Alone0(free, At(2, 5, AboveDoomed()), map[DIR := 0, DOOMED := 0])
    ensures Run(more) && Pending(more[|more| - 1])
  {
    var s := ss[|ss| - 1];
    var t := FreesBlock(free, s);
    StepNext(s, 0, s.jobs[0], t);
    more := Further(ss, s, t);
  }

  // ----- the write, which takes the block -----

  function Bytes512(): (bytes: string)
    ensures |bytes| == 512
  {
    seq(512, _ => 'x')
  }

  function Writes1(): Request { Request.Write("u", OTHER, 0, Bytes512()) }

  function AboveOther(): Above { Above(0, RootInode(), 0, 1, RootRow()) }

  /** The write goes on while the delete has its own write still to do. */
  ghost predicate Racing(s: State, phase: Phase) {
    && s.disk == RaceDisk() && 5 in s.free && In(s, 1, Writes1(), phase) && 0 in s.jobs && s.jobs[0].phase.Erasing?
  }

  lemma Walks1(ss: seq<State>) returns (more: seq<State>)
    requires Run(ss) && Pending(ss[|ss| - 1])
    ensures Run(more) && Racing(more[|more| - 1], At(1, 4, AboveOther()))
  {
    var s := ss[|ss| - 1];
    var s0 := s.(jobs := s.jobs[1 := Job(Writes1(), Waiting(0, ROOT_BLOCK, NOWHERE))]);
    var s1 := Moved(s0, 1, Waiting(1, 4, AboveOther()), s.held[[] := 1]);
    RaceLooks(s.disk);
    Prefixes();
    assert BeginStep(s, 1, Writes1(), s0);
    var m0 := Further(ss, s, s0);
    var m1 := Hops(m0, s0, 1, Writes1(), 0, ROOT_BLOCK, NOWHERE, 0, 1, 4, RootInode(), AboveOther(), s1);
    var t := Moved(s1, 1, At(1, 4, AboveOther()), HeldAfter(Writes1(), 1, s1.held[OTHER := 1]));
    more := Reaching(m1, s1, 1, Writes1(), 1, 4, AboveOther(), t);
  }

  lemma Fills(ss: seq<State>) returns (more: seq<State>)
    requires Run(ss) && Racing(ss[|ss| - 1], At(1, 4, AboveOther()))
    ensures Run(more) && more[|more| - 1].disk == RaceDisk()[5 := Data(Bytes512())]
  {
    var s := ss[|ss| - 1];
    RaceLooks(s.disk);
    var s1 := SetPhase(s, 1, Growing(4, FileInode()));
    assert WriteStep(s, 1, s.jobs[1], s1);
    StepNext(s, 1, s.jobs[1], s1);
    var m1 := Further(ss, s, s1);
    var s2 := SetPhase(TakeBlock(s1, 1, 5), 1, Filling(4, FileInode(), 5));
    assert GrowStep(s1, 1, s1.jobs[1], s2);
    StepNext(s1, 1, s1.jobs[1], s2);
    var m2 := Further(m1, s1, s2);
    var s3 := SetPhase(Put(s2, 5, Data(Bytes512())), 1, Chaining(4, FileInode(), 5));
    assert FillStep(s2, 1, s2.jobs[1], s3);
    StepNext(s2, 1, s2.jobs[1], s3);
    more := Further(m2, s2, s3);
  }

  /** The entry of the file that is being deleted leads to a block of data. */
  lemma DoomedEntry(d: Disk, y: Index)
    requires d == RaceDisk()[5 := Data(Bytes512())] && PathsOk(d, y) && EntriesOk(d, y)
    ensures DOOMED in y.names && y.names[DOOMED].inode == 5
  {
    Rows(0);
    assert PathOk(d, y, []);
    assert Entered(d, y, [], 0, 0, Entry("d", 2));
    assert Child([], "d") == DIR && Ino(d, y, DIR) == DirInode();
    assert Entered(d, y, DIR, 0, 0, Entry("f", 5));
    assert Child(DIR, "f") == DOOMED;
  }

  lemma NoTree(d: Disk, tree: Tree)
    requires d == RaceDisk()[5 := Data(Bytes512())]
    ensures !Decodes(d, tree)
  {
    forall y: Index {:trigger WellFormed(d, y)} ensures !WellFormed(d, y) {
      if PathsOk(d, y) && EntriesOk(d, y) { DoomedEntry(d, y); }
      assert DOOMED in y.names && y.names[DOOMED].inode == 5 ==> !PathOk(d, y, DOOMED);
    }
  }

  /** With two requests under way there is a state in which the disk is no tree at all. */
  lemma CrashLeavesNoTree() returns (ss: seq<State>)
    ensures Run(ss) && forall tree {:trigger Decodes(ss[|ss| - 1].disk, tree)} :: !Decodes(ss[|ss| - 1].disk, tree)
  {
    var free := Blocks(4096);
    RaceStart(free);
    var begun := Begins0(free);
    var entered := EntersDir(free, begun);
    var found := FindsDoomed(free, entered);
    var locked := LocksDoomed(free, found);
    var freed := Frees(free, locked);
    var racing := Walks1(freed);
    ss := Fills(racing);
    forall tree {:trigger Decodes(ss[|ss| - 1].disk, tree)} ensures !Decodes(ss[|ss| - 1].disk, tree) {
      NoTree(ss[|ss| - 1].disk, tree);
    }
  }
}
