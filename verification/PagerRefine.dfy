/** The pager refines flat memory: faults and eviction never show, and every run of the pager
    answers as the flat machine does. */
module PagerRefine {
  import opened PagerState
  import opened PagerInvariant
  import opened PagerSteps
  import opened PagerClock
  import opened PagerFlat

  // ----- the abstraction -----

  function ViewOf(s: State, e: Entry): FlatPage {
    if !e.swapBacked then Shared(e.Block())
    else Private(if e.resident then PageAt(s.mem, e.ppage) else PageAt(s.swapDisk, e.index))
  }

  function View(s: State, o: Owner): FlatPage {
    if o in s.entries then ViewOf(s, s.entries[o]) else Private(ZeroPage())
  }

  function FileView(s: State, fb: FileBlock): Page
    requires fb in s.disk
  {
    if fb in s.inMem then PageAt(s.mem, s.inMem[fb]) else s.disk[fb]
  }

  function ArenaOf(s: State, pid: int, n: nat): (a: seq<FlatPage>)
    ensures |a| == n && forall i | 0 <= i < n :: a[i] == View(s, Virt(pid, i))
  {
    seq(n, i => View(s, Virt(pid, i)))
  }

  function FlatOf(s: State): Flat {
    Flat(map p | p in s.sizes :: ArenaOf(s, p, s.sizes[p]),
         map fb | fb in s.disk :: FileView(s, fb),
         s.total, |s.swap|, s.curr)
  }

  /** What a transition must keep so that nobody notices. */
  ghost predicate SameView(s: State, t: State) {
    && t.sizes == s.sizes && t.total == s.total && |t.swap| == |s.swap| && t.curr == s.curr
    && t.disk.Keys == s.disk.Keys && t.entries.Keys == s.entries.Keys
    && (forall o {:trigger t.entries[o]} | o in s.entries :: ViewOf(t, t.entries[o]) == ViewOf(s, s.entries[o]))
    && (forall fb {:trigger FileView(t, fb)} | fb in s.disk :: FileView(t, fb) == FileView(s, fb))
  }

  lemma SameFlat(s: State, t: State)
    requires SameView(s, t)
    ensures FlatOf(t) == FlatOf(s)
  {
    forall p | p in s.sizes ensures ArenaOf(t, p, t.sizes[p]) == ArenaOf(s, p, s.sizes[p]) {
      forall i | 0 <= i < s.sizes[p] ensures View(t, Virt(p, i)) == View(s, Virt(p, i)) {}
    }
  }

  // ----- transitions nobody notices -----

  lemma RebitView(s: State, t: State, f: int, r: bool, d: bool)
    requires Rebit(s, t, f, r, d)
    ensures SameView(s, t)
  {
    forall fb | fb in s.disk ensures FileView(t, fb) == FileView(s, fb) {}
  }

  lemma TurnedView(s: State, t: State, n: nat)
    requires Turned(s, t, n)
    ensures SameView(s, t)
  {
    forall fb | fb in s.disk ensures FileView(t, fb) == FileView(s, fb) {}
  }

  /** Write-back: what eviction drops is on disk. */
  lemma ExpelSwapView(s: State, o: Owner, b: int)
    requires Core(s) && Expellable(s, o, b) && s.entries[o].swapBacked
    ensures SameView(s, Expel(s, o, b))
  {
    var t := Expel(s, o, b);
    ExpelSwapMoved(s, t, o, b);
    forall p | p in s.entries ensures ViewOf(t, t.entries[p]) == ViewOf(s, s.entries[p]) {
      assert Clean(s, s.entries[p]);
      assert p in Owners(s, PlaceOf(s.entries[p]));
    }
    forall fb | fb in s.disk ensures FileView(t, fb) == FileView(s, fb) {}
  }

  lemma ExpelFileView(s: State, o: Owner, b: int)
    requires Core(s) && Expellable(s, o, b) && !s.entries[o].swapBacked
    ensures SameView(s, Expel(s, o, b))
  {
    var t, fb := Expel(s, o, b), s.entries[o].Block();
    ExpelFileMoved(s, t, o, b);
    FrameKind(s, s.clock[0], o);
    assert Clean(s, s.entries[o]);
    forall p | p in s.entries ensures ViewOf(t, t.entries[p]) == ViewOf(s, s.entries[p]) {}
    ExpelFileFiles(s, t, s.clock[0], s.entries[o]);
  }

  lemma ExpelFileFiles(s: State, t: State, f: int, e: Entry)
    requires t == ExpelFile(s, f, e) && e.Block() in s.inMem && s.inMem[e.Block()] == f && e.Block() in s.disk
    requires !e.dirty ==> PageAt(s.mem, f) == s.disk[e.Block()]
    ensures t.disk.Keys == s.disk.Keys && forall c {:trigger FileView(t, c)} | c in s.disk ::
      FileView(t, c) == FileView(s, c)
  {}

  /** Filling a free frame with `data` is invisible to everybody else. */
  lemma FilledView(s: State, t: State, f: int, data: Page, p: Owner)
    requires FramesOk(s) && PlacesOk(s) && f in s.freeFrames && p in s.entries
    requires t.swapDisk == s.swapDisk && t.mem == Put(s.mem, f, data)
    ensures ViewOf(t, s.entries[p]) == ViewOf(s, s.entries[p])
  {
    assert p in Owners(s, PlaceOf(s.entries[p]));
  }

  lemma FilledFileView(s: State, t: State, f: int, data: Page, fb: FileBlock)
    requires FramesOk(s) && PlacesOk(s) && BlocksOk(s) && f in s.freeFrames && fb in s.disk
    requires t.disk == s.disk && t.mem == Put(s.mem, f, data) && (fb in t.inMem <==> fb in s.inMem)
    requires fb in s.inMem ==> t.inMem[fb] == s.inMem[fb]
    ensures FileView(t, fb) == FileView(s, fb)
  {
    if fb in s.inMem {
      assert SelfOf(s, fb);
      assert SelfOwner(fb) in Owners(s, InFrame(s.inMem[fb]));
    }
  }

  lemma CopyZeroView(s: State, o: Owner, f: int)
    requires Core(s) && OnPinned(s, o) && f in s.freeFrames
    ensures SameView(s, CopyZero(s, o, f))
  {
    var t := CopyZero(s, o, f);
    forall p | p in s.entries ensures ViewOf(t, t.entries[p]) == ViewOf(s, s.entries[p]) {
      FilledView(s, t, f, PageAt(s.mem, s.Pinned()), p);
    }
    forall fb | fb in s.disk ensures FileView(t, fb) == FileView(s, fb) {
      FilledFileView(s, t, f, PageAt(s.mem, s.Pinned()), fb);
    }
  }

  lemma SwapInView(s: State, o: Owner, f: int, write: bool)
    requires Core(s) && Swapped(s, o) && f in s.freeFrames
    ensures SameView(s, SwapIn(s, o, f, write))
  {
    var t := SwapIn(s, o, f, write);
    var data := PageAt(s.swapDisk, s.entries[o].index);
    forall p | p in s.entries ensures ViewOf(t, t.entries[p]) == ViewOf(s, s.entries[p]) {
      FilledView(s, t, f, data, p);
    }
    forall fb | fb in s.disk ensures FileView(t, fb) == FileView(s, fb) { FilledFileView(s, t, f, data, fb); }
  }

  lemma FileInView(s: State, fb: FileBlock, f: int, write: bool)
    requires Core(s) && Loadable(s, fb) && f in s.freeFrames
    ensures SameView(s, FileIn(s, fb, f, write))
  {
    var t := FileIn(s, fb, f, write);
    forall p | p in s.entries ensures ViewOf(t, t.entries[p]) == ViewOf(s, s.entries[p]) {
      FilledView(s, t, f, s.disk[fb], p);
      assert p in Owners(s, InFile(fb)) ==> !s.entries[p].swapBacked;
    }
    forall c | c in s.disk ensures FileView(t, c) == FileView(s, c) {
      if c != fb { FilledFileView(s, t, f, s.disk[fb], c); }
    }
  }

  // ----- making room -----

  /** Pages that are not in the clock are not touched by an eviction. */
  ghost predicate Undisturbed(s: State, t: State) {
    && t.entries.Keys == s.entries.Keys && t.sizes == s.sizes && t.curr == s.curr && t.seen == s.seen
      && t.Pinned() == s.Pinned()
    && t.inMem.Keys <= s.inMem.Keys && t.disk.Keys == s.disk.Keys
    && forall o {:trigger t.entries[o]} | o in s.entries ::
         !s.entries[o].resident || s.entries[o].ppage == s.Pinned() ==> t.entries[o] == s.entries[o]
  }

  lemma SweepUndisturbed(s: State)
    requires Core(s)
    ensures Core(Sweep(s)) && Undisturbed(s, Sweep(s)) && SameView(s, Sweep(s))
    ensures Sweep(s).freeFrames == s.freeFrames && Sweep(s).freeSwap == s.freeSwap
  {
    SweepTurned(s);
    TurnedView(s, Sweep(s), FirstUnreferenced(s, s.clock));
  }

  lemma ExpelUndisturbed(s: State, o: Owner, b: int)
    requires Core(s) && Expellable(s, o, b)
    ensures Undisturbed(s, Expel(s, o, b))
    ensures Expel(s, o, b).freeFrames == s.freeFrames + {s.clock[0]}
  {
    FrameKind(s, s.clock[0], o);
    assert Clean(s, s.entries[o]);
    forall p | p in s.entries && (!s.entries[p].resident || s.entries[p].ppage == s.Pinned())
      ensures Expel(s, o, b).entries[p] == s.entries[p]
    {
      ExpelSpares(s, o, b, p);
    }
  }

  lemma ExpelSpares(s: State, o: Owner, b: int, p: Owner)
    requires FramesOk(s) && PlacesOk(s) && Expellable(s, o, b) && p in s.entries
    requires !s.entries[p].resident || s.entries[p].ppage == s.Pinned()
    ensures Expel(s, o, b).entries[p] == s.entries[p]
  {
    assert s.clock[0] in s.clock;
    assert p in Owners(s, PlaceOf(s.entries[p]));
  }

  lemma ExpelSpec(s: State, o: Owner, b: int, t: State)
    requires Core(s) && Expellable(s, o, b) && t == Expel(s, o, b)
    ensures Core(t) && Undisturbed(s, t) && SameView(s, t)
  {
    ExpelUndisturbed(s, o, b);
    if s.entries[o].swapBacked { ExpelSwapInv(s, o, b); ExpelSwapView(s, o, b); }
    else { ExpelFileInv(s, o, b); ExpelFileView(s, o, b); }
  }

  lemma VictimExpellable(s: State, c: Pick)
    requires Core(s) && s.freeFrames == {} && ValidPick(s, c)
    ensures Core(Sweep(s)) && Expellable(Sweep(s), c.owner, c.block)
  {
    SweepTurned(s);
    var t := Sweep(s);
    assert s.clock != [];
    SweepBits(s);
    OwnerBit(t, t.clock[0], c.owner);
  }

  lemma MakeRoomSpec(s: State, c: Pick, t: State)
    requires Core(s) && ValidPick(s, c) && t == MakeRoom(s, c)
    ensures Core(t) && Undisturbed(s, t) && FlatOf(t) == FlatOf(s) && c.frame in t.freeFrames
  {
    if s.freeFrames == {} {
      VictimExpellable(s, c);
      SweepUndisturbed(s);
      ExpelSpec(Sweep(s), c.owner, c.block, t);
      SameFlat(s, Sweep(s));
      SameFlat(Sweep(s), t);
    }
  }

  /** The victim is written back if and only if it is dirty or has no swap block yet; then its block holds the page. */
  lemma WriteBack(s: State, c: Pick, t: State)
    requires Core(s) && s.freeFrames == {} && ValidPick(s, c) && t == MakeRoom(s, c)
    ensures s.clock != [] && c.owner in s.entries && c.owner in t.entries
    ensures
      var e, page := s.entries[c.owner], PageAt(s.mem, Victim(s.clock, ReferencedFrames(s)));
      && !t.entries[c.owner].resident && !t.entries[c.owner].dirty
      && if !e.dirty && e.index != -1 then t.swapDisk == s.swapDisk && t.disk == s.disk
         else if e.swapBacked then
           && 0 <= t.entries[c.owner].index < |s.swapDisk| && t.disk == s.disk
           && t.swapDisk == s.swapDisk[t.entries[c.owner].index := page]
         else t.disk == s.disk[e.Block() := page] && t.swapDisk == s.swapDisk
  {
    assert 0 in s.clock;
    SweepSpec(s);
    SweepTurned(s);
    VictimExpellable(s, c);
    SweptEntry(s, c.owner);
    Expels(Sweep(s), c.owner, c.block, t);
  }

  /** The sweep does not touch what it takes to write a page back. */
  lemma SweptEntry(s: State, o: Owner)
    requires Core(s) && o in Sweep(s).entries
    ensures o in s.entries && Sweep(s).entries[o].dirty == s.entries[o].dirty
    ensures Sweep(s).entries[o].index == s.entries[o].index && Sweep(s).entries[o].swapBacked == s.entries[o].swapBacked
    ensures Sweep(s).entries[o].file == s.entries[o].file
    ensures Sweep(s).mem == s.mem && Sweep(s).swapDisk == s.swapDisk && Sweep(s).disk == s.disk
  {
    SweepTurned(s);
  }

  lemma Expels(s: State, o: Owner, b: int, t: State)
    requires Core(s) && Expellable(s, o, b) && t == Expel(s, o, b)
    ensures
      var e, page := s.entries[o], PageAt(s.mem, s.clock[0]);
      && o in t.entries && !t.entries[o].resident && !t.entries[o].dirty
      && if !e.dirty && e.index != -1 then t.swapDisk == s.swapDisk && t.disk == s.disk
         else if e.swapBacked then
           && 0 <= t.entries[o].index < |s.swapDisk| && t.disk == s.disk
           && t.swapDisk == s.swapDisk[t.entries[o].index := page]
         else t.disk == s.disk[e.Block() := page] && t.swapDisk == s.swapDisk
  {
    assert Bits(s, o, s.entries[o]);
    FrameKind(s, s.clock[0], o);
  }

  // ----- eager reservation: an eviction always finds what it needs -----

  /** The holders of the first `n` swap blocks, when none of those blocks is free. */
  lemma {:induction false} Holders(s: State, n: nat) returns (h: set<Owner>)
    requires SwapOk(s) && n <= |s.swap| && forall b | 0 <= b < n :: b !in s.freeSwap
    ensures h <= SwapOwners(s.entries) && |h| == n
    ensures forall o :: o in h ==> 0 <= s.entries[o].index < n
  {
    if n == 0 { h := {}; } else {
      var g := Holders(s, n - 1);
      assert BlockHolder(s, n - 1);
      var o :| o in s.entries && s.entries[o].swapBacked && s.entries[o].index == n - 1;
      h := g + {o};
    }
  }

  lemma {:induction false} SmallerSet<T>(a: set<T>, b: set<T>)
    requires a <= b
    ensures |a| <= |b| && (a != b ==> |a| < |b|)
  {
    if a != b {
      var x :| x in b && x !in a;
      SmallerSet(a, b - {x});
    }
  }

  /** A swap-backed page that never went to disk finds a free swap block when it must go. */
  lemma FreeSwapBlock(s: State, o: Owner)
    requires SwapOk(s) && o in s.entries && s.entries[o].swapBacked && s.entries[o].index == -1
    ensures s.freeSwap != {}
  {
    if s.freeSwap == {} {
      var h := Holders(s, |s.swap|);
      assert o in SwapOwners(s.entries) && o !in h;
      SmallerSet(h, SwapOwners(s.entries));
    }
  }

  lemma Member<T>(a: set<T>) returns (x: T)
    requires a != {}
    ensures x in a
  {
    x :| x in a;
  }

  lemma FrontPick(t: State) returns (o: Owner, b: int)
    requires Core(t) && t.clock != []
    ensures o in Owners(t, InFrame(t.clock[0])) && o in t.entries
    ensures t.entries[o].swapBacked && t.entries[o].index == -1 ==> b in t.freeSwap
    ensures t.clock[0] in Expel(t, o, b).freeFrames
  {
    var f := t.clock[0];
    assert f in t.clock;
    o := Member(Owners(t, InFrame(f)));
    assert o in t.entries;
    FrameKind(t, f, o);
    b := 0;
    if t.entries[o].swapBacked && t.entries[o].index == -1 {
      FreeSwapBlock(t, o);
      b := Member(t.freeSwap);
    }
  }

  /** No assertion in evict_pages or vm_fault fails: there is always something to pick. */
  lemma PickExists(s: State) returns (c: Pick)
    requires Core(s)
    ensures ValidPick(s, c)
  {
    if s.freeFrames != {} {
      var f := Member(s.freeFrames);
      c := Pick(Virt(0, 0), 0, f);
    } else {
      SweepTurned(s);
      assert 0 in s.clock && |Sweep(s).clock| == |s.clock|;
      var o, b := FrontPick(Sweep(s));
      c := Pick(o, b, Sweep(s).clock[0]);
    }
  }

  // ----- vm_fault -----

  /** The faults that take a frame, and so pick from the unordered sets. */
  ghost predicate TakesFrame(s: State, page: int, write: bool) {
    var o := Virt(s.curr, page);
    page < Size(s) && o in s.entries &&
    var e := s.entries[o];
    !(e.resident && !e.referenced) && !(e.resident && e.referenced && !e.dirty && write)
  }

  lemma EntryExists(s: State, page: int)
    requires Inv(s) && 0 <= page < Size(s)
    ensures Virt(s.curr, page) in s.entries && Bits(s, Virt(s.curr, page), s.entries[Virt(s.curr, page)])
    ensures Virt(s.curr, page) in Owners(s, PlaceOf(s.entries[Virt(s.curr, page)]))
  {
    assert Virt(s.curr, page) in s.entries;
    assert Bits(s, Virt(s.curr, page), s.entries[Virt(s.curr, page)]);
  }

  lemma TouchSpec(s: State, page: int, write: bool, dirty: bool, t: State)
    requires Inv(s) && 0 <= page < Size(s) && !Enabled(s, page, write) && (write ==> dirty)
    requires Virt(s.curr, page) in s.entries && s.entries[Virt(s.curr, page)].resident
    requires s.entries[Virt(s.curr, page)].ppage != s.Pinned()
    requires t == Touch(s, s.entries[Virt(s.curr, page)].ppage, dirty)
    ensures Inv(t) && FlatOf(t) == FlatOf(s) && Enabled(t, page, write)
  {
    var o := Virt(s.curr, page);
    var f := s.entries[o].ppage;
    ResidentFrame(s, o);
    TouchInv(s, f, dirty);
    assert o in Owners(s, InFrame(f));
    RebitView(s, t, f, true, dirty);
    SameFlat(s, t);
  }

  lemma CopyZeroSpec(s: State, page: int, c: Pick, m: State, t: State)
    requires Inv(s) && OnPinned(s, Virt(s.curr, page)) && ValidPick(s, c)
    requires m == MakeRoom(s, c) && t == CopyZero(m, Virt(s.curr, page), c.frame)
    ensures Inv(t) && FlatOf(t) == FlatOf(s) && Enabled(t, page, true)
  {
    var o := Virt(s.curr, page);
    MakeRoomSpec(s, c, m);
    assert m.entries[o] == s.entries[o];
    CopyZeroInv(m, o, c.frame);
    CopyZeroView(m, o, c.frame);
    SameFlat(m, t);
  }

  lemma SwapInSpec(s: State, page: int, write: bool, c: Pick, m: State, t: State)
    requires Inv(s) && Swapped(s, Virt(s.curr, page)) && ValidPick(s, c)
    requires m == MakeRoom(s, c) && t == SwapIn(m, Virt(s.curr, page), c.frame, write)
    ensures Inv(t) && FlatOf(t) == FlatOf(s) && Enabled(t, page, write)
  {
    var o := Virt(s.curr, page);
    MakeRoomSpec(s, c, m);
    assert m.entries[o] == s.entries[o];
    SwapInInv(m, o, c.frame, write);
    SwapInView(m, o, c.frame, write);
    SameFlat(m, t);
  }

  lemma FileInSpec(s: State, page: int, fb: FileBlock, write: bool, c: Pick, m: State, t: State)
    requires Inv(s) && Virt(s.curr, page) in Owners(s, InFile(fb)) && fb in s.seen && fb !in s.inMem && ValidPick(s, c)
    requires m == MakeRoom(s, c) && fb in m.disk && t == FileIn(m, fb, c.frame, write)
    ensures Inv(t) && FlatOf(t) == FlatOf(s) && Enabled(t, page, write)
  {
    MakeRoomSpec(s, c, m);
    FileInKeeps(m, page, fb, c.frame, write, t);
  }

  lemma FileInKeeps(m: State, page: int, fb: FileBlock, f: int, write: bool, t: State)
    requires Inv(m) && Loadable(m, fb) && f in m.freeFrames && Virt(m.curr, page) in Owners(m, InFile(fb))
    requires t == FileIn(m, fb, f, write)
    ensures Inv(t) && FlatOf(t) == FlatOf(m) && Enabled(t, page, write)
  {
    FileInInv(m, fb, f, write);
    FileInView(m, fb, f, write);
    SameFlat(m, t);
  }

  ghost predicate FaultSpec(s: State, page: int, write: bool, t: State, r: int) {
    && Inv(t) && FlatOf(t) == FlatOf(s)
    && r == (if Accessible(FlatOf(s), page) then 0 else -1)
    && (r == 0 ==> Enabled(t, page, write))
  }

  lemma ResidentFault(s: State, page: int, write: bool, c: Pick)
    requires Inv(s) && 0 <= page < Size(s) && !Enabled(s, page, write) && !TakesFrame(s, page, write)
    ensures FaultSpec(s, page, write, Fault(s, page, write, c).0, Fault(s, page, write, c).1)
  {
    var o := Virt(s.curr, page);
    var e := s.entries[o];
    EntryExists(s, page);
    assert Clean(s, e);
    assert e.ppage != s.Pinned();
    if !e.swapBacked { assert SelfOf(s, e.Block()); }
    TouchSpec(s, page, write, write || (e.referenced && !e.dirty), Fault(s, page, write, c).0);
  }

  lemma SwapFrameFault(s: State, page: int, write: bool, c: Pick)
    requires Inv(s) && 0 <= page < Size(s) && !Enabled(s, page, write) && TakesFrame(s, page, write) && ValidPick(s, c)
    requires s.entries[Virt(s.curr, page)].swapBacked
    ensures FaultSpec(s, page, write, Fault(s, page, write, c).0, Fault(s, page, write, c).1)
  {
    var o, m, t := Virt(s.curr, page), MakeRoom(s, c), Fault(s, page, write, c).0;
    EntryExists(s, page);
    if s.entries[o].resident { CopyZeroSpec(s, page, c, m, t); } else { SwapInSpec(s, page, write, c, m, t); }
  }

  lemma FileFrameFault(s: State, page: int, write: bool, c: Pick)
    requires Inv(s) && 0 <= page < Size(s) && !Enabled(s, page, write) && TakesFrame(s, page, write) && ValidPick(s, c)
    requires !s.entries[Virt(s.curr, page)].swapBacked
    ensures FaultSpec(s, page, write, Fault(s, page, write, c).0, Fault(s, page, write, c).1)
  {
    var fb, m, t := s.entries[Virt(s.curr, page)].Block(), MakeRoom(s, c), Fault(s, page, write, c).0;
    FileAway(s, page, write);
    MakeRoomSpec(s, c, m);
    assert Accessible(FlatOf(s), page) <==> fb in m.disk;
    if fb in m.disk { FileInSpec(s, page, fb, write, c, m, t); }
  }

  /** A page of a file that needs a frame is not in memory. */
  lemma FileAway(s: State, page: int, write: bool)
    requires Inv(s) && 0 <= page < Size(s) && !Enabled(s, page, write) && TakesFrame(s, page, write)
    requires !s.entries[Virt(s.curr, page)].swapBacked
    ensures
      var o := Virt(s.curr, page);
      var fb := s.entries[o].Block();
      fb in s.seen && fb !in s.inMem && o in Owners(s, InFile(fb))
    ensures Accessible(FlatOf(s), page) <==> s.entries[Virt(s.curr, page)].Block() in s.disk
  {
    EntryExists(s, page);
    assert SelfOf(s, s.entries[Virt(s.curr, page)].Block());
  }

  /** vm_fault, on a page whose bit is clear: flat memory does not change; the call succeeds exactly
      when the page is usable, and then the access that faulted is enabled. */
  lemma FaultRefines(s: State, page: int, write: bool, c: Pick)
    requires Inv(s) && 0 <= page && !Enabled(s, page, write)
    requires TakesFrame(s, page, write) ==> ValidPick(s, c)
    ensures FaultSpec(s, page, write, Fault(s, page, write, c).0, Fault(s, page, write, c).1)
  {
    if page < Size(s) {
      if !TakesFrame(s, page, write) { ResidentFault(s, page, write, c); }
      else if s.entries[Virt(s.curr, page)].swapBacked { SwapFrameFault(s, page, write, c); }
      else { FileFrameFault(s, page, write, c); }
    }
  }

  // ----- loads and stores -----

  lemma PeekFlat(s: State, page: int, off: int)
    requires Inv(s) && 0 <= page && 0 <= off < VM_PAGESIZE && ReadEnabled(s, page)
    ensures Accessible(FlatOf(s), page) && Peek(s, page, off) == Contents(FlatOf(s), page)[off]
  {
    var o := Virt(s.curr, page);
    assert Bits(s, o, s.entries[o]) && o in Owners(s, PlaceOf(s.entries[o]));
    if !s.entries[o].swapBacked { assert SelfOf(s, s.entries[o].Block()); }
  }

  /** A write to frame `f` shows in the pages and the file block that live in `f`, and nowhere else. */
  lemma PokeViews(s: State, page: int, off: int, v: char)
    requires Inv(s) && 0 <= page && 0 <= off < VM_PAGESIZE && WriteEnabled(s, page)
    ensures var t, o := Poke(s, page, off, v), Virt(s.curr, page);
      && (forall p | p in s.entries && (p != o
        || !s.entries[o].swapBacked) :: ViewOf(t, s.entries[p]) == ViewOf(s, s.entries[p]))
      && (forall fb | fb in s.disk && (s.entries[o].swapBacked
        || fb != s.entries[o].Block()) :: FileView(t, fb) == FileView(s, fb))
  {
    var t, o := Poke(s, page, off, v), Virt(s.curr, page);
    var f := s.entries[o].ppage;
    assert Bits(s, o, s.entries[o]);
    assert o in Owners(s, InFrame(f));
    ResidentFrame(s, o);
    FrameKind(s, f, o);
    forall p | p in s.entries && (p != o || !s.entries[o].swapBacked)
      ensures ViewOf(t, s.entries[p]) == ViewOf(s, s.entries[p])
    {
      if s.entries[p].resident && s.entries[p].ppage == f { assert p in Owners(s, InFrame(f)); }
    }
    forall fb | fb in s.disk && (s.entries[o].swapBacked || fb != s.entries[o].Block())
      ensures FileView(t, fb) == FileView(s, fb)
    {
      assert fb in s.inMem ==> OneBlock(s, Owners(s, InFrame(s.inMem[fb])), fb);
    }
  }

  lemma PokeFlat(s: State, page: int, off: int, v: char)
    requires Inv(s) && 0 <= page && 0 <= off < VM_PAGESIZE && WriteEnabled(s, page)
    requires s.curr in s.sizes
    ensures Accessible(FlatOf(s), page) && FlatOf(Poke(s, page, off, v)) == Write(FlatOf(s), page, off, v)
  {
    var t, o := Poke(s, page, off, v), Virt(s.curr, page);
    assert Bits(s, o, s.entries[o]) && o in Owners(s, PlaceOf(s.entries[o]));
    PokeViews(s, page, off, v);
    if s.entries[o].swapBacked { PokePrivate(s, t, page, off, v); } else {
      assert SelfOf(s, s.entries[o].Block());
      PokeShared(s, t, page, off, v);
    }
  }

  lemma PokePrivate(s: State, t: State, page: int, off: int, v: char)
    requires Tables(s) && s.curr in s.sizes && 0 <= page && 0 <= off < VM_PAGESIZE && WriteEnabled(s, page)
    requires t == Poke(s, page, off, v)
    requires var e := s.entries[Virt(s.curr, page)]; e.swapBacked && e.resident && 0 <= e.ppage < |s.mem|
    requires forall p | p in s.entries && p != Virt(s.curr, page) :: ViewOf(t, s.entries[p]) == ViewOf(s, s.entries[p])
    requires forall fb | fb in s.disk :: FileView(t, fb) == FileView(s, fb)
    ensures Accessible(FlatOf(s), page) && FlatOf(t) == Write(FlatOf(s), page, off, v)
  {
    var o := Virt(s.curr, page);
    var arena := ArenaOf(s, s.curr, s.sizes[s.curr]);
    assert o in s.entries;
    assert arena[page] == View(s, o);
    forall p | p in s.sizes
      ensures ArenaOf(t, p, s.sizes[p]) == if p == s.curr then arena[page := View(t, o)] else ArenaOf(s, p, s.sizes[p])
    {
      forall i | 0 <= i < s.sizes[p] && Virt(p, i) != o ensures View(t, Virt(p, i)) == View(s, Virt(p, i)) {}
    }
    assert FlatOf(t).files == FlatOf(s).files;
    assert FlatOf(t).arenas == FlatOf(s).arenas[s.curr := arena[page := View(t, o)]];
  }

  lemma PokeShared(s: State, t: State, page: int, off: int, v: char)
    requires Tables(s) && s.curr in s.sizes && 0 <= page && 0 <= off < VM_PAGESIZE && WriteEnabled(s, page)
    requires t == Poke(s, page, off, v)
    requires var e := s.entries[Virt(s.curr, page)];
      !e.swapBacked && e.Block() in s.inMem && e.Block() in s.disk && s.inMem[e.Block()] == e.ppage
        && 0 <= e.ppage < |s.mem|
    requires forall p | p in s.entries :: ViewOf(t, s.entries[p]) == ViewOf(s, s.entries[p])
    requires forall fb | fb in s.disk && fb != s.entries[Virt(s.curr, page)].Block() ::
      FileView(t, fb) == FileView(s, fb)
    ensures Accessible(FlatOf(s), page) && FlatOf(t) == Write(FlatOf(s), page, off, v)
  {
    var o := Virt(s.curr, page);
    assert o in s.entries;
    assert ArenaOf(s, s.curr, s.sizes[s.curr])[page] == View(s, o);
    forall p | p in s.sizes ensures ArenaOf(t, p, s.sizes[p]) == ArenaOf(s, p, s.sizes[p]) {
      forall i | 0 <= i < s.sizes[p] ensures View(t, Virt(p, i)) == View(s, Virt(p, i)) {}
    }
    assert FlatOf(t).arenas == FlatOf(s).arenas;
  }
}
