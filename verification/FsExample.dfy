/** A run of the file server on a small disk: one file, which its owner deletes. */
module FsExample {
  import opened FsDisk
  import opened FsUpdate
  import opened FsTree
  import opened FsSteps
  import opened FsInvariant
  import opened FsSafety
  import opened FsScan
  import opened FsRun
  import opened FsClaims
  import opened FsShape

  const FILE: Path := ["f"]

  function Entries(): seq<Entry> { Unused()[0 := Entry("f", 2)] }

  /** The root with one table, and in it one empty file. */
  function SmallDisk(): Disk {
    map[0 := Inode(true, "", [1]), 1 := Table(Entries()), 2 := Inode(false, "u", [])]
  }

  function SmallIndex(): Index {
    Index(map[[] := Spot(0, 0, 0), FILE := Spot(2, 0, 0)],
          map[0 := InodeOf([]), 1 := BlockOf([], 0), 2 := InodeOf(FILE)])
  }

  function From3(n: nat): (r: set<nat>)
    ensures forall b: nat :: b in r <==> 3 <= b < n
  {
    if n <= 3 then {} else From3(n - 1) + {n - 1}
  }

  lemma SmallTable(j: nat)
    ensures |Entries()| == 8 && Entries()[0] == Entry("f", 2) && (0 < j < 8 ==> Entries()[j] == Entry("", 0))
  {}

  lemma SmallEntered(d: Disk, x: Index, p: Path, i: nat, j: nat, e: Entry)
    requires d == SmallDisk() && x == SmallIndex() && p in x.names && Ino(d, x, p).dir
    ensures Entered(d, x, p, i, j, e)
  {
    assert p == [] || p == FILE;
    assert Ino(d, x, p) == Inode(true, "", [1]);
    if EntryAt(d, Ino(d, x, p), i, j, e) {
      SmallTable(j);
      assert Child([], "f") == FILE;
    }
  }

  lemma SmallEntries()
    ensures EntriesOk(SmallDisk(), SmallIndex())
  {
    var d, x := SmallDisk(), SmallIndex();
    forall p, i: nat, j: nat, e | p in x.names && Ino(d, x, p).dir ensures Entered(d, x, p, i, j, e) {
      SmallEntered(d, x, p, i, j, e);
    }
  }

  lemma SmallUse(d: Disk, x: Index)
    requires d == SmallDisk() && x == SmallIndex()
    ensures UseOk(d, x)
  {
    forall p | p in x.names ensures p == [] || p == FILE {}
  }

  lemma SmallPaths()
    ensures PathsOk(SmallDisk(), SmallIndex())
  {
    var d, x := SmallDisk(), SmallIndex();
    SmallTable(0);
    assert d[1].entries[0].inode != 0;
    assert Parent(FILE) == [] && Last(FILE) == "f";
    forall p | p in x.names ensures PathOk(d, x, p) { assert p == [] || p == FILE; }
  }

  /** There is a disk to start from. */
  lemma SmallStart()
    ensures Start(Resting())
  {
    SmallPaths();
    SmallEntries();
    SmallUse(SmallDisk(), SmallIndex());
    SmallSpace(Resting());
  }

  lemma SmallSpace(s: State)
    requires s == Resting()
    ensures SpaceOk(s) && forall b {:trigger s.x.use[b]} :: b in s.x.use ==> About(s.x.use[b]).Some?
  {}

  function Resting(): State {
    State(SmallDisk(), From3(4096), map[], SmallIndex().names.Keys, map[], SmallDisk(), SmallIndex(), [], map[])
  }

  // ----- the delete, up to its visit to the free set -----

  function Request0(): Request { Request.Delete("u", FILE) }

  function Serving(phase: Phase, held: map<Path, nat>): State {
    Resting().(jobs := map[0 := Job(Request0(), phase)], held := held)
  }

  function FileAbove(): Above { Above(0, Inode(true, "", [1]), 0, 0, Entries()) }

  /** The request walks: it locks the root, looks the name up, and locks the file. */
  function Stage(n: nat): State {
    if n == 0 then Resting()
    else if n == 1 then Serving(Waiting(0, ROOT_BLOCK, NOWHERE), map[])
    else if n == 2 then Serving(Entering(0, ROOT_BLOCK, NOWHERE), map[[] := 0])
    else if n == 3 then Serving(At(0, ROOT_BLOCK, NOWHERE), map[[] := 0])
    else if n == 4 then Serving(Waiting(1, 2, FileAbove()), map[[] := 0])
    else if n == 5 then Serving(Entering(1, 2, FileAbove()), map[[] := 0, FILE := 0])
    else Serving(At(1, 2, FileAbove()), map[[] := 0, FILE := 0])
  }

  lemma StepNext(s: State, r: nat, j: Job, t: State)
    requires Is(s, r, j) && Step(s, r, j, t)
    ensures Next(s, t)
  {
    assert s.jobs[r] == j;
  }

  lemma LocksRoot()
    ensures Next(Stage(1), Stage(2))
  {
    assert FILE[..0] == [] && Stage(2).keys == Stage(1).keys + {[]};
    assert LockStep(Stage(1), 0, Stage(1).jobs[0], Stage(2));
    StepNext(Stage(1), 0, Stage(1).jobs[0], Stage(2));
  }

  lemma LooksUp()
    ensures Next(Stage(3), Stage(4))
  {
    var s, t, ino := Stage(3), Stage(4), Inode(true, "", [1]);
    SmallTable(0);
    assert InodeAt(s.disk, 0) == ino && TableAt(s.disk, 1) == Entries();
    assert HasEntry(s.disk, ino, FILE[0], 0, 0, 2);
    assert t == SetPhase(s, 0, Waiting(1, 2, FileAbove()));
    assert LookStep(s, 0, s.jobs[0], t);
    StepNext(s, 0, s.jobs[0], t);
  }

  lemma LocksFile()
    ensures Next(Stage(4), Stage(5))
  {
    assert FILE[..1] == FILE && Stage(5).keys == Stage(4).keys + {FILE} && Stage(5).held == Stage(4).held[FILE := 0];
    assert LockStep(Stage(4), 0, Stage(4).jobs[0], Stage(5));
    StepNext(Stage(4), 0, Stage(4).jobs[0], Stage(5));
  }

  lemma AtRoot()
    ensures Next(Stage(2), Stage(3))
  {
    assert PassStep(Stage(2), 0, Stage(2).jobs[0], Stage(3));
    StepNext(Stage(2), 0, Stage(2).jobs[0], Stage(3));
  }

  lemma AtFile()
    ensures Next(Stage(5), Stage(6))
  {
    assert PassStep(Stage(5), 0, Stage(5).jobs[0], Stage(6));
    StepNext(Stage(5), 0, Stage(5).jobs[0], Stage(6));
  }

  lemma Begins()
    ensures Next(Stage(0), Stage(1))
  {
    assert BeginStep(Stage(0), 0, Request0(), Stage(1));
  }

  lemma StageAlone(n: nat)
    ensures Alone(Stage(n))
  {}

  lemma StageNext(n: nat)
    requires n < 6
    ensures Next(Stage(n), Stage(n + 1))
  {
    if n == 0 { Begins(); }
    else if n == 1 { LocksRoot(); }
    else if n == 2 { AtRoot(); }
    else if n == 3 { LooksUp(); }
    else if n == 4 { LocksFile(); }
    else { AtFile(); }
  }

  lemma GivesBlocksBack() returns (t: State)
    ensures Next(Stage(6), t) && Alone(t) && !NoneErasing(t)
  {
    var s := Stage(6);
    var e, ino, a := Erasure(FileAbove(), Last(FILE)), InodeAt(s.disk, 2), FileAbove();
    t := SetPhase(Committed(s, 0, Done), 0, Erasing(e.0, e.1)).(
      free := s.free + Reclaimed(2, ino, a), held := s.held - {FILE}, keys := s.keys - {FILE},
      view := s.view[e.0 := e.1], x := Removed(s.x, FILE, a));
    assert DeleteStep(s, 0, s.jobs[0], t);
    StepNext(s, 0, s.jobs[0], t);
    assert t.jobs[0].phase.Erasing?;
  }

  lemma RunMore(ss: seq<State>, s: State, t: State) returns (more: seq<State>)
    requires Run(ss) && OneAtATime(ss) && ss[|ss| - 1] == s && Next(s, t) && Alone(t)
    ensures Run(more) && OneAtATime(more) && more[|more| - 1] == t
  {
    more := ss + [t];
    forall i | 0 <= i < |more| - 1 ensures StepAt(more, i) { if i < |ss| - 1 { assert StepAt(ss, i); } }
    forall i | 0 <= i < |more| ensures Alone(more[i]) { if i < |ss| { assert Alone(ss[i]); } }
  }

  lemma RunNone(s: State)
    requires Start(s)
    ensures Run([s]) && OneAtATime([s])
  {
    assert Alone(s);
  }

  lemma MoreStages(ss: seq<State>, n: nat) returns (more: seq<State>)
    requires Run(ss) && OneAtATime(ss) && ss[|ss| - 1] == Stage(n) && n < 6
    ensures Run(more) && OneAtATime(more) && more[|more| - 1] == Stage(n + 1)
  {
    StageNext(n);
    StageAlone(n + 1);
    more := RunMore(ss, Stage(n), Stage(n + 1));
  }

  lemma {:induction false} Stages(n: nat) returns (ss: seq<State>)
    requires n <= 6
    ensures Run(ss) && OneAtATime(ss) && ss[|ss| - 1] == Stage(n)
  {
    if n == 0 {
      SmallStart();
      RunNone(Stage(0));
      ss := [Stage(0)];
    } else {
      var before := Stages(n - 1);
      ss := MoreStages(before, n - 1);
    }
  }

  lemma Deleting() returns (ss: seq<State>)
    ensures Run(ss) && OneAtATime(ss) && !NoneErasing(ss[|ss| - 1])
  {
    var before := Stages(6);
    var t := GivesBlocksBack();
    ss := RunMore(before, Stage(6), t);
  }

  /** A state that is reached, in which a block is free and the disk still leads to it. */
  lemma FreedWhileReached() returns (ss: seq<State>)
    ensures Run(ss) && OneAtATime(ss) && !FreeUnreached(ss[|ss| - 1].disk, ss[|ss| - 1].free)
  {
    ss := Deleting();
    FreeOnDisk(ss, |ss| - 1);
  }
}
