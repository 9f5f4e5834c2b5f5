/** A run of the file server that loses a block. The disk is full but for one block, and the root's tables have no
    unused entry: a create takes the block for a table, and finds none for the inode. */
module FsLost {
  import opened Wrappers
  import opened FsDisk
  import opened FsUpdate
  import opened FsTree
  import opened FsSteps
  import opened FsInvariant
  import opened FsSafety
  import opened FsScan
  import opened FsRun
  import opened FsClaims
  import opened FsShape
  import opened FsExample

  // ----- a full disk: five tables of the root, 40 files, and the files' blocks -----

  const FREE_BLOCK: nat := 4095

  function Name(i: nat): (n: string)
    ensures |n| == i + 1 && n[0] == 'a'
  {
    seq(i + 1, _ => 'a')
  }

  function Size(i: nat): nat { if i < 32 then 124 else if i == 32 then 81 else 0 }

  function FileList(i: nat): (bs: seq<nat>)
    ensures |bs| == Size(i) && forall k {:trigger bs[k]} :: 0 <= k < Size(i) ==> bs[k] == 46 + 124 * i + k
  {
    seq(Size(i), k requires 0 <= k < Size(i) => 46 + 124 * i + k)
  }

  function Row(t: nat): (es: seq<Entry>)
    ensures |es| == 8 && forall l {:trigger es[l]} :: 0 <= l < 8 ==> es[l] == Entry(Name(8 * t + l), 6 + 8 * t + l)
  {
    seq(8, l requires 0 <= l < 8 => Entry(Name(8 * t + l), 6 + 8 * t + l))
  }

  function Root(): Block { Inode(true, "", [1, 2, 3, 4, 5]) }

  function BlockAt(b: nat): Block {
    if b == 0 then Root()
    else if b <= 5 then Table(Row(b - 1))
    else if b < 46 then Inode(false, "u", FileList(b - 6))
    else Data("")
  }

  function UseAt(b: nat): Use {
    if b == 0 then InodeOf([])
    else if b <= 5 then BlockOf([], b - 1)
    else if b < 46 then InodeOf([Name(b - 6)])
    else BlockOf([Name((b - 46) / 124)], (b - 46) % 124)
  }

  ghost predicate HasNames(names: map<Path, Spot>, n: nat) {
    && (forall i: nat {:trigger Name(i)} :: i < n ==>
          [Name(i)] in names && names[[Name(i)]] == Spot(6 + i, i / 8, i % 8))
    && (forall p {:trigger p in names} :: p in names && p != [] ==>
          |p| == 1 && 1 <= |p[0]| <= n && p == [Name(|p[0]| - 1)])
  }

  lemma {:induction false} MakeNames(n: nat) returns (names: map<Path, Spot>)
    ensures HasNames(names, n) && [] !in names
  {
    names := map[];
    if n > 0 {
      var before := MakeNames(n - 1);
      names := before[[Name(n - 1)] := Spot(5 + n, (n - 1) / 8, (n - 1) % 8)];
      forall i: nat | i < n - 1 ensures [Name(i)] in names && names[[Name(i)]] == before[[Name(i)]] {
        assert [Name(i)][0] != [Name(n - 1)][0];
      }
    }
  }

  ghost predicate FullDisk(d: Disk) {
    forall b: nat {:trigger b in d} {:trigger BlockAt(b)} :: (b in d <==> b < 4095) && (b < 4095 ==> d[b] == BlockAt(b))
  }

  ghost predicate FullIndex(x: Index) {
    && [] in x.names && x.names[[]] == Spot(0, 0, 0) && HasNames(x.names, 40)
    && forall b: nat {:trigger b in x.use} {:trigger UseAt(b)} ::
         (b in x.use <==> b < 4095) && (b < 4095 ==> x.use[b] == UseAt(b))
  }

  lemma MakeFull() returns (d: Disk, x: Index)
    ensures FullDisk(d) && FullIndex(x)
  {
    d := map b: nat | b < 4095 :: BlockAt(b);
    var names := MakeNames(40);
    x := Index(names[[] := Spot(0, 0, 0)], map b: nat | b < 4095 :: UseAt(b));
  }

  /** A path of the index is the root or a file. */
  lemma WhichPath(d: Disk, x: Index, p: Path)
    requires FullDisk(d) && FullIndex(x) && p in x.names
    ensures p == [] ==> x.names[p] == Spot(0, 0, 0) && Ino(d, x, p) == Root()
    ensures p != [] ==>
      |p| == 1 && 1 <= |p[0]| <= 40 &&
      var i := |p[0]| - 1;
      p == [Name(i)] && x.names[p] == Spot(6 + i, i / 8, i % 8) && Ino(d, x, p) == Inode(false, "u", FileList(i))
  {
    if p == [] { assert d[0] == BlockAt(0); } else { FileAt(d, x, |p[0]| - 1); }
  }

  lemma FileAt(d: Disk, x: Index, i: nat)
    requires FullDisk(d) && FullIndex(x) && i < 40
    ensures [Name(i)] in x.names && x.names[[Name(i)]] == Spot(6 + i, i / 8, i % 8)
    ensures Ino(d, x, [Name(i)]) == Inode(false, "u", FileList(i))
  {
    assert d[6 + i] == BlockAt(6 + i);
  }

  lemma TableAtBlock(d: Disk, t: nat)
    requires FullDisk(d) && t < 5
    ensures Root().blocks[t] == t + 1 && t + 1 in d && d[t + 1] == Table(Row(t))
  {
    assert d[t + 1] == BlockAt(t + 1);
  }

  lemma Divided(i: nat, k: nat)
    requires k < 124
    ensures (124 * i + k) / 124 == i && (124 * i + k) % 124 == k
  {}

  lemma FileBlockAt(i: nat, k: nat)
    requires i < 40 && k < Size(i)
    ensures 46 <= FileList(i)[k] < 4095 && UseAt(FileList(i)[k]) == BlockOf([Name(i)], k)
  {
    Divided(i, k);
  }

  lemma FullPath(d: Disk, x: Index, p: Path)
    requires FullDisk(d) && FullIndex(x) && p in x.names
    ensures PathOk(d, x, p)
  {
    WhichPath(d, x, p);
    if p == [] {
      forall t | 0 <= t < 5 ensures TableOk(d, Root().blocks[t]) {
        TableAtBlock(d, t);
        assert d[t + 1].entries[0].inode != 0;
      }
    } else {
      var i: nat := |p[0]| - 1;
      assert Parent(p) == [] && Last(p) == Name(i);
      FullEntry(d, x, i);
      forall k | 0 <= k < Size(i) ensures FileList(i)[k] in d && d[FileList(i)[k]].Data? { FileBlockAt(i, k); }
    }
  }

  lemma FullEntry(d: Disk, x: Index, i: nat)
    requires FullDisk(d) && FullIndex(x) && i < 40
    ensures Ino(d, x, []) == Root() && EntryAt(d, Root(), i / 8, i % 8, Entry(Name(i), 6 + i))
  {
    var t, l := i / 8, i % 8;
    assert i == 8 * t + l && t < 5;
    TableAtBlock(d, t);
    WhichPath(d, x, []);
    assert Row(t)[l] == Entry(Name(8 * t + l), 6 + 8 * t + l);
  }

  lemma FullEntered(d: Disk, x: Index, p: Path, i: nat, j: nat, e: Entry)
    requires FullDisk(d) && FullIndex(x) && p in x.names && Ino(d, x, p).dir
    ensures Entered(d, x, p, i, j, e)
  {
    WhichPath(d, x, p);
    if EntryAt(d, Ino(d, x, p), i, j, e) {
      TableAtBlock(d, i);
      var m := 8 * i + j;
      assert e == Entry(Name(m), 6 + m) && m / 8 == i && m % 8 == j;
      FileAt(d, x, m);
      assert Child(p, e.name) == [Name(m)];
    }
  }

  lemma FullUses(d: Disk, x: Index, b: nat)
    requires FullDisk(d) && FullIndex(x) && b < 4095
    ensures Uses(d, x, b, UseAt(b))
  {
    if b == 0 || b <= 5 { assert [] in x.names; }
    else if b < 46 { FileAt(d, x, b - 6); }
    else {
      var i, k := (b - 46) / 124, (b - 46) % 124;
      assert b - 46 == 124 * i + k && i <= 32 && k < Size(i);
      FileAt(d, x, i);
      assert FileList(i)[k] == b;
    }
  }

  lemma FullUse(d: Disk, x: Index)
    requires FullDisk(d) && FullIndex(x)
    ensures UseOk(d, x)
  {
    forall p | p in x.names ensures UsedBy(x, x.names[p].inode, InodeOf(p)) { WhichPath(d, x, p); }
    forall p, k: nat | p in x.names && k < |Ino(d, x, p).blocks|
      ensures UsedBy(x, Ino(d, x, p).blocks[k], BlockOf(p, k))
    {
      WhichPath(d, x, p);
      if p != [] { FileBlockAt(|p[0]| - 1, k); }
    }
    forall b | b in x.use ensures Uses(d, x, b, x.use[b]) { FullUses(d, x, b); }
  }

  lemma FullTree(d: Disk, x: Index)
    requires FullDisk(d) && FullIndex(x)
    ensures WellFormed(d, x)
  {
    assert [] in x.names && Ino(d, x, []).dir;
    forall p | p in x.names ensures PathOk(d, x, p) { FullPath(d, x, p); }
    forall p, i: nat, j: nat, e | p in x.names && Ino(d, x, p).dir ensures Entered(d, x, p, i, j, e) {
      FullEntered(d, x, p, i, j, e);
    }
    FullUse(d, x);
  }

  // ----- the create -----

  const NEW_PATH: Path := ["b"]

  function Create0(): Request { Request.Create("u", NEW_PATH, false) }

  function Resting(d: Disk, x: Index): State { State(d, {FREE_BLOCK}, map[], x.names.Keys, map[], d, x, [], map[]) }

  function Serving(d: Disk, x: Index, phase: Phase, held: map<Path, nat>): State {
    Resting(d, x).(jobs := map[0 := Job(Create0(), phase)], held := held)
  }

  lemma FullStart(d: Disk, x: Index)
    requires FullDisk(d) && FullIndex(x)
    ensures Start(Resting(d, x))
  {
    FullTree(d, x);
    forall b | b in x.use ensures About(x.use[b]).Some? { assert x.use[b] == UseAt(b); }
  }

  lemma NothingFits(d: Disk)
    requires FullDisk(d)
    ensures InodeAt(d, ROOT_BLOCK) == Root() && NoEntry(d, Root(), "b") && NoneUnused(d, Root())
  {
    assert d[0] == BlockAt(0);
    forall i: nat, j: nat, b: nat ensures !HasEntry(d, Root(), "b", i, j, b) {
      if i < 5 { TableAtBlock(d, i); }
      if i < 5 && j < 8 { assert Row(i)[j] == Entry(Name(8 * i + j), 6 + 8 * i + j); }
    }
    forall i: nat, j: nat ensures !UnusedAt(d, Root(), i, j) { if i < 5 { TableAtBlock(d, i); } }
  }

  lemma FindsDirectory(d: Disk, x: Index)
    requires FullDisk(d) && FullIndex(x)
    ensures Next(Resting(d, x), Serving(d, x, Waiting(0, ROOT_BLOCK, NOWHERE), map[]))
    ensures Next(Serving(d, x, Waiting(0, ROOT_BLOCK, NOWHERE), map[]),
                 Serving(d, x, Entering(0, ROOT_BLOCK, NOWHERE), map[[] := 0]))
    ensures Next(Serving(d, x, Entering(0, ROOT_BLOCK, NOWHERE), map[[] := 0]),
                 Serving(d, x, At(0, ROOT_BLOCK, NOWHERE), map[[] := 0]))
  {
    var waits := Serving(d, x, Waiting(0, ROOT_BLOCK, NOWHERE), map[]);
    var enters := Serving(d, x, Entering(0, ROOT_BLOCK, NOWHERE), map[[] := 0]);
    var stands := Serving(d, x, At(0, ROOT_BLOCK, NOWHERE), map[[] := 0]);
    assert BeginStep(Resting(d, x), 0, Create0(), waits);
    assert NEW_PATH[..0] == [] && enters.keys == waits.keys + {[]};
    assert LockStep(waits, 0, waits.jobs[0], enters);
    StepNext(waits, 0, waits.jobs[0], enters);
    assert PassStep(enters, 0, enters.jobs[0], stands);
    StepNext(enters, 0, enters.jobs[0], stands);
  }

  lemma NeedsTable(d: Disk, x: Index)
    requires FullDisk(d) && FullIndex(x)
    ensures Next(Serving(d, x, At(0, ROOT_BLOCK, NOWHERE), map[[] := 0]),
                 Serving(d, x, NeedTable(ROOT_BLOCK, Root()), map[[] := 0]))
  {
    var s := Serving(d, x, At(0, ROOT_BLOCK, NOWHERE), map[[] := 0]);
    var t := Serving(d, x, NeedTable(ROOT_BLOCK, Root()), map[[] := 0]);
    NothingFits(d);
    assert t == SetPhase(s, 0, NeedTable(ROOT_BLOCK, Root()));
    assert CreateStep(s, 0, s.jobs[0], t);
    StepNext(s, 0, s.jobs[0], t);
  }

  /** The last block is taken for the table. */
  function Taking(d: Disk, x: Index): State {
    var s := Serving(d, x, NeedTable(ROOT_BLOCK, Root()), map[[] := 0]);
    SetPhase(TakeBlock(s, 0, FREE_BLOCK), 0, NeedInode(ROOT_BLOCK, Root(), Place(FREE_BLOCK, 5, 0, Unused(), true)))
  }

  lemma Takes(d: Disk, x: Index)
    ensures Next(Serving(d, x, NeedTable(ROOT_BLOCK, Root()), map[[] := 0]), Taking(d, x))
  {
    var s := Serving(d, x, NeedTable(ROOT_BLOCK, Root()), map[[] := 0]);
    assert FREE_BLOCK in s.free;
    assert TableStep(s, 0, s.jobs[0], Taking(d, x));
    StepNext(s, 0, s.jobs[0], Taking(d, x));
  }

  /** There is none for the inode. */
  function Refusing(d: Disk, x: Index): State {
    var s := Taking(d, x);
    Refuse(s.(x := s.x.(use := s.x.use[FREE_BLOCK := Lost])), 0, {Parent(NEW_PATH)}, NoSpace)
  }

  lemma Refuses(d: Disk, x: Index)
    ensures Next(Taking(d, x), Refusing(d, x))
  {
    var s := Taking(d, x);
    assert s.free == {};
    assert InodeStep(s, 0, s.jobs[0], Refusing(d, x));
    StepNext(s, 0, s.jobs[0], Refusing(d, x));
  }

  function Answered(d: Disk, x: Index): State {
    var s := Refusing(d, x);
    s.(held := s.held - {Parent(NEW_PATH)}, jobs := s.jobs - {0}, done := s.done[0 := Answer(Create0(), NoSpace)])
  }

  lemma Answers(d: Disk, x: Index)
    ensures Next(Refusing(d, x), Answered(d, x)) && Answered(d, x).jobs == map[] && IsLost(Answered(d, x), FREE_BLOCK)
  {
    var s := Refusing(d, x);
    assert LeaveStep(s, 0, s.jobs[0], Answered(d, x));
    StepNext(s, 0, s.jobs[0], Answered(d, x));
  }

  lemma Searching(d: Disk, x: Index) returns (ss: seq<State>)
    requires FullDisk(d) && FullIndex(x)
    ensures Run(ss) && OneAtATime(ss)
    ensures ss[|ss| - 1] == Serving(d, x, At(0, ROOT_BLOCK, NOWHERE), map[[] := 0])
  {
    FullStart(d, x);
    RunNone(Resting(d, x));
    FindsDirectory(d, x);
    var waits := RunMore([Resting(d, x)], Resting(d, x), Serving(d, x, Waiting(0, ROOT_BLOCK, NOWHERE), map[]));
    var enters := RunMore(waits, Serving(d, x, Waiting(0, ROOT_BLOCK, NOWHERE), map[]),
                          Serving(d, x, Entering(0, ROOT_BLOCK, NOWHERE), map[[] := 0]));
    ss := RunMore(enters, Serving(d, x, Entering(0, ROOT_BLOCK, NOWHERE), map[[] := 0]),
                  Serving(d, x, At(0, ROOT_BLOCK, NOWHERE), map[[] := 0]));
  }

  lemma Losing(d: Disk, x: Index, before: seq<State>) returns (ss: seq<State>)
    requires FullDisk(d) && FullIndex(x) && Run(before) && OneAtATime(before)
    requires before[|before| - 1] == Serving(d, x, At(0, ROOT_BLOCK, NOWHERE), map[[] := 0])
    ensures Run(ss) && OneAtATime(ss) && ss[|ss| - 1] == Taking(d, x)
  {
    NeedsTable(d, x);
    Takes(d, x);
    var needs := RunMore(before, Serving(d, x, At(0, ROOT_BLOCK, NOWHERE), map[[] := 0]),
                         Serving(d, x, NeedTable(ROOT_BLOCK, Root()), map[[] := 0]));
    ss := RunMore(needs, Serving(d, x, NeedTable(ROOT_BLOCK, Root()), map[[] := 0]), Taking(d, x));
  }

  lemma LeftOver(d: Disk, x: Index, before: seq<State>) returns (ss: seq<State>)
    requires Run(before) && OneAtATime(before) && before[|before| - 1] == Taking(d, x)
    ensures Run(ss) && OneAtATime(ss) && ss[|ss| - 1].jobs == map[] && IsLost(ss[|ss| - 1], FREE_BLOCK)
  {
    Refuses(d, x);
    Answers(d, x);
    var refuses := RunMore(before, Taking(d, x), Refusing(d, x));
    ss := RunMore(refuses, Refusing(d, x), Answered(d, x));
  }

  lemma LostForGood(s: State, b: nat)
    requires Inv(s) && NoneErasing(s) && IsLost(s, b)
    ensures b !in s.free && !Reached(s.disk, s.x, b)
  {
    DiskIsView(s);
    ReachedUsed(s.disk, s.x, b);
  }

  lemma LostInRun(ss: seq<State>, n: nat, b: nat)
    requires Run(ss) && n < |ss| && ss[n].jobs == map[] && IsLost(ss[n], b)
    ensures b !in ss[n].free && !Reached(ss[n].disk, ss[n].x, b)
  {
    RunInv(ss, n);
    LostForGood(ss[n], b);
  }

  lemma LosingRun() returns (ss: seq<State>)
    ensures Run(ss) && OneAtATime(ss) && ss[|ss| - 1].jobs == map[] && IsLost(ss[|ss| - 1], FREE_BLOCK)
  {
    var d, x := MakeFull();
    var searching := Searching(d, x);
    var losing := Losing(d, x, searching);
    ss := LeftOver(d, x, losing);
  }

  /** A run after which nothing is being served, and a block is neither free nor part of what the disk shows. */
  lemma LosesBlock() returns (ss: seq<State>)
    ensures Run(ss) && OneAtATime(ss) && ss[|ss| - 1].jobs == map[] && IsLost(ss[|ss| - 1], FREE_BLOCK)
    ensures FREE_BLOCK !in ss[|ss| - 1].free && !Reached(ss[|ss| - 1].disk, ss[|ss| - 1].x, FREE_BLOCK)
  {
    ss := LosingRun();
    LostInRun(ss, |ss| - 1, FREE_BLOCK);
  }
}
