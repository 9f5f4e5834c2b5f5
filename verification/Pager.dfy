/** The pager itself: the tables of OS_Pager and its calls, each proved against the transition it makes. */
module Pager {
  import opened Wrappers
  import opened PagerState
  import opened PagerInvariant
  import opened PagerSteps
  import opened PagerClock
  import opened PagerFlat
  import opened PagerRefine
  import opened PagerRun

  function LeftFrame(e: Entry, clean: bool): Entry {
    e.(dirty := e.dirty && !clean, resident := false)
  }

  /** The first element of an unordered set: any element. */
  method Any<T(==)>(s: set<T>) returns (x: T)
    requires s != {}
    ensures x in s
  {
    x :| x in s;
  }

  // ----- the loops over an owner set -----

  lemma TouchStep(m: map<Owner, Entry>, os: set<Owner>, o: Owner, write: bool)
    requires o in m && o !in os
    ensures TouchAll(m, os, write)[o] == m[o]
    ensures TouchAll(m, os + {o}, write) == TouchAll(m, os, write)[o := Touched(m[o], write)]
  {}

  method ReferenceOwners(m: map<Owner, Entry>, owners: set<Owner>, write: bool) returns (r: map<Owner, Entry>)
    requires owners <= m.Keys
    ensures r == TouchAll(m, owners, write)
  {
    ghost var done: set<Owner> := {};
    var todo := owners;
    r := m;
    while todo != {}
      invariant todo !! done && done + todo == owners
      invariant r == TouchAll(m, done, write)
    {
      var o :| o in todo;
      TouchStep(m, done, o, write);
      var e := r[o];
      if write { e := e.(dirty := true); }
      e := e.(referenced := true, readEnable := true, writeEnable := e.dirty);
      r := r[o := e];
      todo, done := todo - {o}, done + {o};
    }
  }

  lemma AgeStep(m: map<Owner, Entry>, os: set<Owner>, o: Owner)
    requires o in m && o !in os
    ensures AgeAll(m, os)[o] == m[o]
    ensures AgeAll(m, os + {o}) == AgeAll(m, os)[o := Aged(m[o])]
  {}

  method DereferenceOwners(m: map<Owner, Entry>, owners: set<Owner>) returns (r: map<Owner, Entry>)
    requires owners <= m.Keys
    ensures r == AgeAll(m, owners)
  {
    ghost var done: set<Owner> := {};
    var todo := owners;
    r := m;
    while todo != {}
      invariant todo !! done && done + todo == owners
      invariant r == AgeAll(m, done)
    {
      var o :| o in todo;
      AgeStep(m, done, o);
      r := r[o := r[o].(referenced := false, readEnable := false, writeEnable := false)];
      todo, done := todo - {o}, done + {o};
    }
  }

  function EvictAll(m: map<Owner, Entry>, os: set<Owner>, clean: bool): (r: map<Owner, Entry>)
    ensures r.Keys == m.Keys
    ensures forall o | o in m :: r[o] == if o in os then LeftFrame(m[o], clean) else m[o]
  {
    map o | o in m :: if o in os then LeftFrame(m[o], clean) else m[o]
  }

  lemma EvictStep(m: map<Owner, Entry>, os: set<Owner>, o: Owner, clean: bool)
    requires o in m && o !in os
    ensures EvictAll(m, os, clean)[o] == m[o]
    ensures EvictAll(m, os + {o}, clean) == EvictAll(m, os, clean)[o := LeftFrame(m[o], clean)]
  {}

  method EvictOwners(m: map<Owner, Entry>, owners: set<Owner>, clean: bool) returns (r: map<Owner, Entry>)
    requires owners <= m.Keys
    ensures r == EvictAll(m, owners, clean)
  {
    ghost var done: set<Owner> := {};
    var todo := owners;
    r := m;
    while todo != {}
      invariant todo !! done && done + todo == owners
      invariant r == EvictAll(m, done, clean)
    {
      var o :| o in todo;
      EvictStep(m, done, o, clean);
      var e := r[o].(resident := false);
      if clean { e := e.(dirty := false); }
      r := r[o := e];
      todo, done := todo - {o}, done + {o};
    }
  }

  /** The second loop of vm_fault: a write to a clean, referenced page. */
  function DirtyAll(m: map<Owner, Entry>, os: set<Owner>): (r: map<Owner, Entry>)
    ensures r.Keys == m.Keys
    ensures forall o | o in m :: r[o] == if o in os then m[o].(dirty := true, writeEnable := true) else m[o]
  {
    map o | o in m :: if o in os then m[o].(dirty := true, writeEnable := true) else m[o]
  }

  lemma DirtyStep(m: map<Owner, Entry>, os: set<Owner>, o: Owner)
    requires o in m && o !in os
    ensures DirtyAll(m, os)[o] == m[o]
    ensures DirtyAll(m, os + {o}) == DirtyAll(m, os)[o := m[o].(dirty := true, writeEnable := true)]
  {}

  method DirtyOwners(m: map<Owner, Entry>, owners: set<Owner>) returns (r: map<Owner, Entry>)
    requires owners <= m.Keys
    ensures r == DirtyAll(m, owners)
  {
    ghost var done: set<Owner> := {};
    var todo := owners;
    r := m;
    while todo != {}
      invariant todo !! done && done + todo == owners
      invariant r == DirtyAll(m, done)
    {
      var o :| o in todo;
      DirtyStep(m, done, o);
      r := r[o := r[o].(dirty := true, writeEnable := true)];
      todo, done := todo - {o}, done + {o};
    }
  }

  /** The loops that bring all owners of a file block into memory: residence first, then the bits. */
  function ResideAll(m: map<Owner, Entry>, os: set<Owner>, frame: int): (r: map<Owner, Entry>)
    ensures r.Keys == m.Keys
    ensures forall o | o in m :: r[o] == if o in os then m[o].(resident := true, ppage := frame) else m[o]
  {
    map o | o in m :: if o in os then m[o].(resident := true, ppage := frame) else m[o]
  }

  lemma ResideStep(m: map<Owner, Entry>, os: set<Owner>, o: Owner, frame: int)
    requires o in m && o !in os
    ensures ResideAll(m, os, frame)[o] == m[o]
    ensures ResideAll(m, os + {o}, frame) == ResideAll(m, os, frame)[o := m[o].(resident := true, ppage := frame)]
  {}

  method ResideOwners(m: map<Owner, Entry>, owners: set<Owner>, frame: int) returns (r: map<Owner, Entry>)
    requires owners <= m.Keys
    ensures r == ResideAll(m, owners, frame)
  {
    ghost var done: set<Owner> := {};
    var todo := owners;
    r := m;
    while todo != {}
      invariant todo !! done && done + todo == owners
      invariant r == ResideAll(m, done, frame)
    {
      var o :| o in todo;
      ResideStep(m, done, o, frame);
      r := r[o := r[o].(resident := true, ppage := frame)];
      todo, done := todo - {o}, done + {o};
    }
  }

  /** A first read leaves the write bit alone, a first write sets everything. */
  function Used(e: Entry, write: bool): Entry {
    if write then e.(referenced := true, dirty := true, readEnable := true, writeEnable := true)
    else e.(referenced := true, readEnable := true)
  }

  function UseAll(m: map<Owner, Entry>, os: set<Owner>, write: bool): (r: map<Owner, Entry>)
    ensures r.Keys == m.Keys
    ensures forall o | o in m :: r[o] == if o in os then Used(m[o], write) else m[o]
  {
    map o | o in m :: if o in os then Used(m[o], write) else m[o]
  }

  lemma UseStep(m: map<Owner, Entry>, os: set<Owner>, o: Owner, write: bool)
    requires o in m && o !in os
    ensures UseAll(m, os, write)[o] == m[o]
    ensures UseAll(m, os + {o}, write) == UseAll(m, os, write)[o := Used(m[o], write)]
  {}

  method UseOwners(m: map<Owner, Entry>, owners: set<Owner>, write: bool) returns (r: map<Owner, Entry>)
    requires owners <= m.Keys
    ensures r == UseAll(m, owners, write)
  {
    ghost var done: set<Owner> := {};
    var todo := owners;
    r := m;
    while todo != {}
      invariant todo !! done && done + todo == owners
      invariant r == UseAll(m, done, write)
    {
      var o :| o in todo;
      UseStep(m, done, o, write);
      r := r[o := Used(r[o], write)];
      todo, done := todo - {o}, done + {o};
    }
  }

  class OSPager {
    var clock: seq<int>
    var physicalMemory: seq<set<Owner>>
    var swapBlocks: seq<set<Owner>>
    var fileBlocks: map<FileBlock, set<Owner>>
    var entries: map<Owner, Entry>
    var sizes: map<int, nat>
    var freePhysmemPages: set<int>
    var freeSwapBlocks: set<int>
    var fileBlocksInPhysmem: map<FileBlock, int>
    var fileBlocksSeen: set<FileBlock>
    var totalSwapbackedPages: int
    var currProcess: int
    var vmPhysmem: seq<Page>
    var swapFile: seq<Page>
    var files: map<FileBlock, Page>

    function S(): State
      reads this
    {
      State(clock, physicalMemory, swapBlocks, fileBlocks, entries, sizes, freePhysmemPages, freeSwapBlocks,
            fileBlocksInPhysmem, fileBlocksSeen, totalSwapbackedPages, currProcess, vmPhysmem, swapFile, files)
    }

    /** vm_init */
    constructor (memoryPages: nat, swapBlockCount: nat, mem: seq<Page>, swapContents: seq<Page>,
      disk: map<FileBlock, Page>)
      requires 2 <= memoryPages <= MAX_FRAMES && |mem| == memoryPages && |swapContents| == swapBlockCount
      ensures S() == Init(memoryPages, swapBlockCount, mem, swapContents, disk, -1) && Inv(S())
      ensures |vmPhysmem| == memoryPages
      ensures forall k {:trigger vmPhysmem[memoryPages - 1][k]} :: 0 <= k < 4096 ==>
        vmPhysmem[memoryPages - 1][k] == '\0'
    {
      clock, physicalMemory, swapBlocks := [], seq(memoryPages, _ => {}), seq(swapBlockCount, _ => {});
      fileBlocks, entries, sizes := map[], map[], map[];
      fileBlocksInPhysmem, fileBlocksSeen, totalSwapbackedPages, currProcess := map[], {}, 0, -1;
      vmPhysmem, swapFile, files := mem[memoryPages - 1 := ZeroPage()], swapContents, disk;
      freePhysmemPages, freeSwapBlocks := {}, {};
      new;
      var i := 0;
      while i < memoryPages - 1
        invariant 0 <= i <= memoryPages - 1 && freePhysmemPages == UpTo(i)
        invariant S() == Init(memoryPages, swapBlockCount, mem, swapContents, disk, -1).(freeFrames := UpTo(i),
          freeSwap := {})
      {
        freePhysmemPages := freePhysmemPages + {i};
        i := i + 1;
      }
      i := 0;
      while i < swapBlockCount
        invariant 0 <= i <= swapBlockCount && freeSwapBlocks == UpTo(i)
        invariant S() == Init(memoryPages, swapBlockCount, mem, swapContents, disk, -1).(freeSwap := UpTo(i))
      {
        freeSwapBlocks := freeSwapBlocks + {i};
        i := i + 1;
      }
      InitInv(memoryPages, swapBlockCount, mem, swapContents, disk, -1);
      assert vmPhysmem[memoryPages - 1] == ZeroPage();
    }

    method VmCreate(parent: int, child: int) returns (r: int)
      requires Inv(S()) && child !in sizes
      modifies this`sizes
      ensures r == 0 && S() == Create(old(S()), child) && Inv(S())
    {
      CreateInv(S(), child);
      sizes := sizes[child := 0];
      r := 0;
    }

    method VmSwitch(pid: int)
      requires Inv(S()) && pid in sizes
      modifies this`currProcess
      ensures S() == Switch(old(S()), pid) && Inv(S())
    {
      SwitchInv(S(), pid);
      currProcess := pid;
    }

    method GetVirtualOwner(frame: int) returns (o: Owner)
      requires 0 <= frame < |physicalMemory| && physicalMemory[frame] != {}
      ensures o in physicalMemory[frame]
    {
      o :| o in physicalMemory[frame];
    }

    // ----- evict_pages -----

    /** A referenced frame loses its reference bit and goes to the back of the clock. */
    method Turn()
      requires clock != [] && 0 <= clock[0] < |physicalMemory| && physicalMemory[clock[0]] <= entries.Keys
      modifies this
      ensures S() == Tick(old(S()))
    {
      entries := DereferenceOwners(entries, physicalMemory[clock[0]]);
      ghost var order := clock;
      clock := clock + [clock[0]];
      clock := clock[1..];
      assert clock == order[1..] + [order[0]];
    }

    /** The loop that looks for the page to evict. */
    method RunClock()
      requires Sweepable(S())
      modifies this
      ensures S() == Sweep(old(S()))
    {
      ghost var s, n := S(), 0;
      ghost var k := FirstUnreferenced(s, s.clock);
      assert FrontBit(Ticks(s, 0), 0 < k);
      var front := GetVirtualOwner(clock[0]);
      while entries[front].referenced
        invariant n <= k && S() == Ticks(s, n) && front in entries && entries[front].referenced == (n < k)
        decreases k - n
      {
        front := PassFront(s, n);
        n := n + 1;
      }
    }

    /** One round of the loop. */
    method PassFront(ghost s: State, ghost n: nat) returns (front: Owner)
      requires Sweepable(s) && n < FirstUnreferenced(s, s.clock) && S() == Ticks(s, n)
      modifies this
      ensures S() == Ticks(s, n + 1) && front in entries
      ensures entries[front].referenced == (n + 1 < FirstUnreferenced(s, s.clock))
    {
      assert FrontBit(Ticks(s, n), true);
      Turn();
      assert FrontBit(Ticks(s, n + 1), n + 1 < FirstUnreferenced(s, s.clock));
      front := GetVirtualOwner(clock[0]);
    }

    /** The frame leaves the clock, loses its owners and becomes free. */
    method FreeFront(evicted: int)
      requires clock != [] && 0 <= evicted < |physicalMemory|
      modifies this
      ensures S() == old(S()).(clock := old(clock)[1..], phys := old(physicalMemory)[evicted := {}],
                               freeFrames := old(freePhysmemPages) + {evicted})
    {
      clock := clock[1..];
      physicalMemory := physicalMemory[evicted := {}];
      freePhysmemPages := freePhysmemPages + {evicted};
    }

    /** A clean page whose disk block is up to date: only the owner set moves. */
    method DropClean(first: Owner)
      requires FrontOk(S(), first) && entries[first].index != -1
      modifies this
      ensures S() == Dropped(old(S()), first)
    {
      var evicted, e := clock[0], entries[first];
      var owners := physicalMemory[evicted];
      FreeFront(evicted);
      entries := EvictOwners(entries, owners, false);
      if e.swapBacked {
        swapBlocks := swapBlocks[e.index := owners];
      } else {
        fileBlocks := fileBlocks[e.Block() := owners];
        fileBlocksInPhysmem := fileBlocksInPhysmem - {e.Block()};
      }
    }

    method WriteSwap(first: Owner) returns (block: int)
      requires FrontOk(S(), first) && entries[first].swapBacked
      requires entries[first].index == -1 ==> freeSwapBlocks != {}
      requires forall b :: b in freeSwapBlocks ==> 0 <= b < |swapBlocks|
      modifies this
      ensures old(entries[first].index) == -1 ==> block in old(freeSwapBlocks)
      ensures S() == SwapWritten(old(S()), first, block)
    {
      var evicted, e := clock[0], entries[first];
      var owners := physicalMemory[evicted];
      block := e.index;
      if e.index == -1 {
        block := Any(freeSwapBlocks);
        freeSwapBlocks := freeSwapBlocks - {block};
      }
      FreeFront(evicted);
      swapBlocks := swapBlocks[block := owners];
      swapFile := swapFile[block := vmPhysmem[evicted]];
      entries := entries[first := entries[first].(dirty := false, resident := false, index := block)];
    }

    method WriteFile(first: Owner)
      requires FrontOk(S(), first)
      modifies this
      ensures S() == FileWritten(old(S()), first)
    {
      var evicted, e := clock[0], entries[first];
      var owners := physicalMemory[evicted];
      FreeFront(evicted);
      entries := EvictOwners(entries, owners, true);
      fileBlocks := fileBlocks[e.Block() := owners];
      fileBlocksInPhysmem := fileBlocksInPhysmem - {e.Block()};
      files := files[e.Block() := vmPhysmem[evicted]];
    }

    method EvictPages()
      requires Evictable(S())
      modifies this
      ensures exists o, b :: Expellable(Sweep(old(S())), o, b) && S() == Expel(Sweep(old(S())), o, b)
    {
      ghost var s := S();
      RunClock();
      assert FrontBit(Ticks(s, FirstUnreferenced(s, s.clock)), false);
      var first := GetVirtualOwner(clock[0]);
      assert VictimOk(S(), first);
      if !entries[first].dirty && entries[first].index != -1 {
        DropClean(first);
        assert Expellable(Sweep(s), first, 0) && S() == Expel(Sweep(s), first, 0);
      } else if entries[first].swapBacked {
        var block := WriteSwap(first);
        assert Expellable(Sweep(s), first, block) && S() == Expel(Sweep(s), first, block);
      } else {
        WriteFile(first);
        assert Expellable(Sweep(s), first, 0) && S() == Expel(Sweep(s), first, 0);
      }
    }

    // ----- vm_fault -----

    /** The free frame vm_fault works with, after an eviction if there is none. */
    method TakeFrame() returns (frame: int, ghost c: Pick)
      requires freePhysmemPages == {} ==> Evictable(S())
      modifies this
      ensures ValidPick(old(S()), c) && S() == MakeRoom(old(S()), c) && frame == c.frame
    {
      ghost var s := S();
      c := Pick(Virt(0, 0), 0, 0);
      if freePhysmemPages == {} {
        EvictPages();
        ghost var o, b :| Expellable(Sweep(s), o, b) && S() == Expel(Sweep(s), o, b);
        c := Pick(o, b, 0);
      }
      frame := Any(freePhysmemPages);
      c := c.(frame := frame);
    }

    method UseFrame(frame: int)
      modifies this
      ensures S() == old(S()).(freeFrames := old(freePhysmemPages) - {frame}, clock := old(clock) + [frame])
    {
      freePhysmemPages := freePhysmemPages - {frame};
      clock := clock + [frame];
    }

    method CopyPinned(o: Owner, frame: int)
      requires o in entries && 0 <= frame < |physicalMemory| == |vmPhysmem|
      modifies this
      ensures S() == CopyZero(old(S()), o, frame)
    {
      var pinned := |physicalMemory| - 1;
      UseFrame(frame);
      vmPhysmem := vmPhysmem[frame := vmPhysmem[pinned]];
      physicalMemory := physicalMemory[pinned := physicalMemory[pinned] - {o}];
      physicalMemory := physicalMemory[frame := {o}];
      entries := entries[o := entries[o].(ppage := frame, writeEnable := true)];
    }

    method AdoptSwapped(b: int, frame: int)
      requires 0 <= frame < |physicalMemory| && 0 <= b < |swapBlocks|
      modifies this
      ensures S() == old(S()).(freeFrames := old(freePhysmemPages) - {frame}, clock := old(clock) + [frame],
                               phys := old(physicalMemory)[frame := old(swapBlocks)[b]],
                                                        swap := old(swapBlocks)[b := {}])
    {
      UseFrame(frame);
      physicalMemory := physicalMemory[frame := swapBlocks[b]];
      swapBlocks := swapBlocks[b := {}];
    }

    method ReadSwapped(o: Owner, frame: int, write: bool)
      requires o in entries && 0 <= frame < |physicalMemory| == |vmPhysmem|
      requires 0 <= entries[o].index < |swapBlocks| == |swapFile|
      modifies this
      ensures S() == SwapIn(old(S()), o, frame, write)
    {
      var b := entries[o].index;
      vmPhysmem := vmPhysmem[frame := swapFile[b]];
      AdoptSwapped(b, frame);
      var e := entries[o].(resident := true, referenced := true);
      if write { e := e.(dirty := true); }
      e := e.(ppage := frame, readEnable := true, writeEnable := e.dirty);
      entries := entries[o := e];
    }

    /** After a successful file_read: the block's owners move to the frame. */
    method AdoptFrame(fb: FileBlock, frame: int)
      requires 0 <= frame < |physicalMemory|
      modifies this
      ensures S() == old(S()).(freeFrames := old(freePhysmemPages) - {frame}, clock := old(clock) + [frame],
                               phys := old(physicalMemory)[frame := OnDisk(old(S()), fb)],
                               files := old(fileBlocks)[fb := {}], inMem := old(fileBlocksInPhysmem)[fb := frame])
    {
      UseFrame(frame);
      physicalMemory := physicalMemory[frame := if fb in fileBlocks then fileBlocks[fb] else {}];
      fileBlocks := fileBlocks[fb := {}];
      fileBlocksInPhysmem := fileBlocksInPhysmem[fb := frame];
    }

    method ReadFile(fb: FileBlock, frame: int, write: bool)
      requires fb in files && 0 <= frame < |physicalMemory| == |vmPhysmem|
      requires OnDisk(S(), fb) <= entries.Keys
      requires forall o | o in OnDisk(S(), fb) :: !entries[o].dirty && !entries[o].writeEnable
      modifies this
      ensures S() == FileIn(old(S()), fb, frame, write)
    {
      ghost var m := entries;
      var owners := if fb in fileBlocks then fileBlocks[fb] else {};
      AdoptFrame(fb, frame);
      vmPhysmem := vmPhysmem[frame := files[fb]];
      var resident := ResideOwners(entries, owners, frame);
      entries := UseOwners(resident, owners, write);
      assert entries == LoadAll(m, owners, frame, write);
    }

    /** The body of vm_fault, branch by branch. */
    method HandleFault(page: int, write: bool, fails: bool) returns (r: int)
      requires 0 <= page && FaultOk(S(), page, write)
      modifies this
      ensures FaultOutcome(old(S()), page, write, fails, S(), r)
    {
      ghost var s, o := S(), Virt(currProcess, page);
      if currProcess !in sizes || page >= sizes[currProcess] {
        assert Fault(s, page, write, Pick(o, 0, 0)) == (S(), -1);
        return -1;
      }
      var e := entries[Virt(currProcess, page)];
      if e.resident {
        if !e.referenced {
          entries := ReferenceOwners(entries, physicalMemory[e.ppage], write);
          assert Fault(s, page, write, Pick(o, 0, 0)) == (S(), 0);
          return 0;
        }
        if e.referenced && !e.dirty && write {
          entries := DirtyOwners(entries, physicalMemory[e.ppage]);
          assert Fault(s, page, write, Pick(o, 0, 0)) == (S(), 0);
          return 0;
        }
      }
      r := HandleFrameFault(page, write, fails, e);
    }

    method HandleFrameFault(page: int, write: bool, fails: bool, e: Entry) returns (r: int)
      requires FaultOk(S(), page, write) && TakesFrame(S(), page, write) && e == entries[Virt(currProcess, page)]
      modifies this
      ensures FaultOutcome(old(S()), page, write, fails, S(), r)
    {
      ghost var s := S();
      var o := Virt(currProcess, page);
      if e.swapBacked && e.resident && !(e.dirty && e.referenced && e.readEnable) {
        // no branch of vm_fault applies: it returns success and does nothing
        ghost var c := ChoosePick(s);
        assert Fault(s, page, write, c) == (S(), 0);
        return 0;
      }
      ghost var c;
      var frame;
      frame, c := TakeFrame();
      assert RoomOk(MakeRoom(s, c), o, e, frame);
      if e.swapBacked {
        if e.resident { CopyPinned(o, frame); } else { ReadSwapped(o, frame, write); }
        assert Fault(s, page, write, c) == (S(), 0);
        return 0;
      }
      if fails || e.Block() !in files {
        assert fails ==> FailedRead(s, page, S());
        assert e.Block() !in files ==> Fault(s, page, write, c) == (S(), -1);
        return -1;
      }
      ReadFile(e.Block(), frame, write);
      assert Fault(s, page, write, c) == (S(), 0);
      r := 0;
    }

    /** `fails` says whether a file_read fails during the call. */
    method VmFault(addr: nat, write: bool, fails: bool) returns (r: int)
      requires Inv(S()) && currProcess in sizes && !Enabled(S(), VirtualPage(addr), write)
      modifies this
      ensures FaultOutcome(old(S()), VirtualPage(addr), write, fails, S(), r)
      ensures Inv(S()) && FlatOf(S()) == old(FlatOf(S())) && (r == 0 || r == -1)
      ensures r == 0 <==>
        old(Accessible(FlatOf(S()), VirtualPage(addr))) && !(fails && old(FileOut(S(), VirtualPage(addr))))
      ensures r == 0 ==> Enabled(S(), VirtualPage(addr), write)
    {
      ghost var s := S();
      var page := VirtualPage(addr);
      InvFaultOk(s, page, write);
      r := HandleFault(page, write, fails);
      OutcomeRefines(s, page, write, fails, S(), r);
    }

    // ----- loads and stores: the processor consults the enable bit and traps when it is clear -----

    method UserAccess(addr: nat, write: bool, fails: bool) returns (ok: bool)
      requires Inv(S()) && currProcess in sizes && InArena(addr)
      modifies this
      ensures Inv(S()) && FlatOf(S()) == old(FlatOf(S())) && (ok ==> Enabled(S(), VirtualPage(addr), write))
      ensures Refused(old(S()), VirtualPage(addr), write, fails) ==> !ok && FailedRead(old(S()), VirtualPage(addr), S())
      ensures !Refused(old(S()), VirtualPage(addr), write, fails) ==>
        Access(old(S()), VirtualPage(addr), write, S(), ok)
      ensures !Refused(old(S()), VirtualPage(addr), write, fails) ==> ok == Accessible(FlatOf(S()), VirtualPage(addr))
    {
      ghost var s := S();
      AddressSplit(addr);
      ok := true;
      var o := Virt(currProcess, VirtualPage(addr));
      if !(o in entries && if write then entries[o].writeEnable else entries[o].readEnable) {
        var r := VmFault(addr, write, fails);
        ok := r == 0;
        OutcomeAccess(s, VirtualPage(addr), write, fails, S(), r);
      } else {
        AccessRefines(s, VirtualPage(addr), write, S(), ok);
      }
    }

    method UserLoad(addr: nat, fails: bool) returns (reply: Reply)
      requires Inv(S()) && currProcess in sizes && InArena(addr)
      modifies this
      ensures Refused(old(S()), VirtualPage(addr), false, fails) ==>
        Does(old(S()), ReadFails(VirtualPage(addr)), S(), reply)
      ensures !Refused(old(S()), VirtualPage(addr), false, fails) ==> Does(old(S()), Load(addr), S(), reply)
    {
      ghost var s := S();
      var ok := UserAccess(addr, false, fails);
      reply := Segfault;
      if ok {
        EnabledFrame(S(), VirtualPage(addr), false);
        AddressSplit(addr);
        reply := Byte(vmPhysmem[entries[Virt(currProcess, VirtualPage(addr))].ppage][PageOffset(addr)]);
      }
      if !Refused(s, VirtualPage(addr), false, fails) { LoadWitness(s, addr, ok, S(), reply); }
      else { RefusedDoes(s, addr, false, fails, S()); }
    }

    method UserStore(addr: nat, v: char, fails: bool) returns (reply: Reply)
      requires Inv(S()) && currProcess in sizes && InArena(addr)
      modifies this
      ensures Refused(old(S()), VirtualPage(addr), true, fails) ==>
        Does(old(S()), ReadFails(VirtualPage(addr)), S(), reply)
      ensures !Refused(old(S()), VirtualPage(addr), true, fails) ==> Does(old(S()), Store(addr, v), S(), reply)
    {
      ghost var s := S();
      var ok := UserAccess(addr, true, fails);
      ghost var m := S();
      reply := Segfault;
      if ok {
        EnabledFrame(m, VirtualPage(addr), true);
        AddressSplit(addr);
        var frame := entries[Virt(currProcess, VirtualPage(addr))].ppage;
        vmPhysmem := vmPhysmem[frame := vmPhysmem[frame][PageOffset(addr) := v]];
        assert S() == Poke(m, VirtualPage(addr), PageOffset(addr), v);
        reply := Done;
      }
      if !Refused(s, VirtualPage(addr), true, fails) { StoreWitness(s, addr, v, m, ok, S(), reply); }
      else { RefusedDoes(s, addr, true, fails, S()); }
    }

    // ----- read_c_string -----

    /** The bytes of one page, up to a NUL or the end of the page. */
    method ReadPage(ppage: int, offset: int, prefix: string, ghost f: Flat, ghost page: int, ghost at: int)
        returns (converted: string, nullfound: bool)
      requires 0 <= ppage < |vmPhysmem| && 0 <= offset < VM_PAGESIZE && 0 <= page && Accessible(f, page)
      requires vmPhysmem[ppage] == Contents(f, page) && at == PageAddress(page) + offset
      ensures nullfound ==> Prepend(prefix, StringAt(f, at)) == Some(converted)
      ensures !nullfound ==>
        Prepend(prefix, StringAt(f, at)) == Prepend(converted, StringAt(f, at - offset + VM_PAGESIZE))
    {
      var index := offset;
      converted, nullfound := prefix, false;
      while index < VM_PAGESIZE
        invariant 0 <= index <= VM_PAGESIZE
        invariant Prepend(prefix, StringAt(f, at)) == Prepend(converted, StringAt(f, at - offset + index))
      {
        PageBytes(f, page, index);
        StringStep(f, at - offset + index, converted, vmPhysmem[ppage][index]);
        if vmPhysmem[ppage][index] == '\0' {
          return converted, true;
        }
        converted := converted + [vmPhysmem[ppage][index]];
        index := index + 1;
      }
    }

    static method VAddressToPageOffset(addr: nat) returns (page: int, offset: int)
      requires InArena(addr)
      ensures 0 <= page < ARENA_PAGES && 0 <= offset < VM_PAGESIZE && PageAddress(page) + offset == addr
    {
      AddressSplit(addr);
      page, offset := VirtualPage(addr), PageOffset(addr);
    }

    /** The frame of the page that holds the next character, if the page can be read. */
    method NextPage(page: int, offset: int, failing: set<int>, ghost s0: State, ghost f: Flat)
        returns (ok: bool, ppage: int, ghost failed: bool)
      requires Inv(s0) && s0.curr in s0.sizes && NameRead(s0, S()) && f == FlatOf(s0)
      requires 0 <= page && 0 <= offset < VM_PAGESIZE
      modifies this
      ensures NameOutcome(s0, S(), f, failing, if failed then Some(page) else None)
      ensures if failed then !ok else ok == Accessible(f, page)
      ensures ok ==> 0 <= ppage < |vmPhysmem| && vmPhysmem[ppage] == Contents(f, page)
    {
      ghost var before := S();
      NameReadRefines(s0, S());
      FlatCurr(s0, S());
      ArenaSize(S(), f);
      ok, ppage, failed := false, 0, false;
      // outside the valid part of the arena
      if PageAddress(page) + offset >= PageAddress(sizes[currProcess]) { return; }
      failed := Refused(before, page, false, page in failing);
      ok := ReadAccess(page, offset, page in failing);
      if failed { RefusedShared(before, page, false, page in failing); } else { NameReadMore(s0, before, S()); }
      if ok { ppage := ReadableFrame(page, f); }
    }

    /** One round of the outer loop. */
    method ReadNextPage(page: int, offset: int, failing: set<int>, prefix: string, ghost s0: State, ghost f: Flat,
                        ghost at: int)
        returns (ok: bool, converted: string, nullfound: bool, ghost failed: bool)
      requires Inv(s0) && s0.curr in s0.sizes && NameRead(s0, S()) && f == FlatOf(s0)
      requires 0 <= page && 0 <= offset < VM_PAGESIZE && at == PageAddress(page) + offset
      modifies this
      ensures NameOutcome(s0, S(), f, failing, if failed then Some(page) else None)
      ensures (ok ==> page < |f.Arena()|) && (failed ==> !ok)
      ensures !ok && !failed ==> StringAt(f, at) == None
      ensures ok && nullfound ==> Prepend(prefix, StringAt(f, at)) == Some(converted)
      ensures ok && !nullfound ==>
        Prepend(prefix, StringAt(f, at)) == Prepend(converted, StringAt(f, at - offset + VM_PAGESIZE))
    {
      NoString(f, page, offset, at);
      converted, nullfound := prefix, false;
      var ppage;
      ok, ppage, failed := NextPage(page, offset, failing, s0, f);
      if ok { converted, nullfound := ReadPage(ppage, offset, prefix, f, page, at); }
    }

    /** `failing` holds the pages for which a file_read fails during the call; `failed` is the one it met, if any. */
    method ReadCString(filename: nat, failing: set<int>) returns (name: Option<string>, ghost failed: Option<int>)
      requires Inv(S()) && currProcess in sizes
      modifies this
      ensures NameOutcome(old(S()), S(), old(FlatOf(S())), failing, failed)
      ensures name == if failed.Some? then None else StringAt(old(FlatOf(S())), filename)
    {
      ghost var s0 := S();
      ghost var f := FlatOf(s0);
      ghost var whole := StringAt(f, filename);
      failed := None;
      NameReadStart(s0);
      if filename < VM_ARENA_BASEADDR || filename >= VM_ARENA_BASEADDR + VM_ARENA_SIZE {
        OutOfArena(s0, filename);
        return None, None;
      }
      var page, offset := VAddressToPageOffset(filename);
      var converted, nullfound := "", false;
      ghost var at: int := filename;
      PrependNothing(whole);
      while !nullfound
        invariant NameRead(s0, S()) && 0 <= page && 0 <= offset < VM_PAGESIZE
        invariant at == PageAddress(page) + offset
        invariant !nullfound ==> whole == Prepend(converted, StringAt(f, at))
        invariant nullfound ==> whole == Some(converted)
        decreases !nullfound, |f.Arena()| - page
      {
        var ok;
        ghost var broken;
        ok, converted, nullfound, broken := ReadNextPage(page, offset, failing, converted, s0, f, at);
        if !ok { return None, if broken then Some(page) else None; }
        at := at - offset + VM_PAGESIZE;
        page, offset := page + 1, 0;
      }
      name := Some(converted);
    }

    /** Bring the page in if its read bit is clear. */
    method ReadAccess(page: int, offset: int, fails: bool) returns (ok: bool)
      requires Inv(S()) && currProcess in sizes && 0 <= page < ARENA_PAGES && 0 <= offset < VM_PAGESIZE
      modifies this
      ensures Inv(S()) && FlatOf(S()) == old(FlatOf(S())) && currProcess in sizes && (ok ==> ReadEnabled(S(), page))
      ensures Refused(old(S()), page, false, fails) ==> !ok && FailedRead(old(S()), page, S())
      ensures !Refused(old(S()), page, false, fails) ==>
        ReadStep(old(S()), S()) && ok == Accessible(FlatOf(S()), page)
    {
      ghost var s := S();
      var addr: nat := PageAddress(page) + offset;
      PageBytes(FlatOf(s), page, offset);
      AddressSplit(addr);
      ok := UserAccess(addr, false, fails);
      assert !Refused(s, page, false, fails) ==> Access(s, page, false, S(), ok);
      FlatCurr(s, S());
    }

    method ReadableFrame(page: int, ghost f: Flat) returns (ppage: int)
      requires Inv(S()) && currProcess in sizes && 0 <= page && ReadEnabled(S(), page) && FlatOf(S()) == f
      ensures Accessible(f, page) && 0 <= ppage < |vmPhysmem| && vmPhysmem[ppage] == Contents(f, page)
    {
      EnabledFrame(S(), page, false);
      ppage := entries[Virt(currProcess, page)].ppage;
      FrameContents(S(), page);
    }

    // ----- vm_map -----

    method MapSwapBacked() returns (r: int)
      requires currProcess in sizes && |physicalMemory| >= 1
      modifies this
      ensures S() == MapSwap(old(S())).0 && r == MapSwap(old(S())).1
    {
      var n := sizes[currProcess];
      if totalSwapbackedPages >= |swapBlocks| { return 0; }
      r := PageAddress(n);
      if n >= ARENA_PAGES { return 0; }
      var o, pinned := Virt(currProcess, n), |physicalMemory| - 1;
      totalSwapbackedPages := totalSwapbackedPages + 1;
      entries := entries[o := Entry(true, true, true, true, -1, "", pinned, true, false)];
      sizes := sizes[currProcess := n + 1];
      physicalMemory := physicalMemory[pinned := physicalMemory[pinned] + {o}];
    }

    method JoinMemory(o: Owner, fb: FileBlock, ghost s: State) returns (ghost peer: Owner)
      requires fb in fileBlocksInPhysmem && 0 <= fileBlocksInPhysmem[fb] < |physicalMemory|
      requires physicalMemory[fileBlocksInPhysmem[fb]] != {} && physicalMemory[fileBlocksInPhysmem[fb]] <= entries.Keys
      modifies this
      ensures peer in Owners(old(S()), InFrame(old(fileBlocksInPhysmem)[fb])) && peer in old(entries)
      ensures S() == MapHot(old(S()), o, fb, peer)
    {
      var physIndex := fileBlocksInPhysmem[fb];
      var physOwner := GetVirtualOwner(physIndex);
      peer := physOwner;
      var p := entries[physOwner];
      entries := entries[o := Entry(p.dirty, p.referenced, p.resident, false, fb.block, fb.file,
                                    physIndex, p.readEnable, p.writeEnable)];
      physicalMemory := physicalMemory[physIndex := physicalMemory[physIndex] + {o}];
    }

    method JoinFile(o: Owner, fb: FileBlock)
      modifies this
      ensures S() == MapCold(old(S()), o, fb)
    {
      if fb !in fileBlocksSeen {
        fileBlocksSeen := fileBlocksSeen + {fb};
        entries := entries[SelfOwner(fb) := Entry(false, false, false, false, fb.block, fb.file, 0, false, false)];
        fileBlocks := fileBlocks[fb := (if fb in fileBlocks then fileBlocks[fb] else {}) + {SelfOwner(fb)}];
      }
      entries := entries[o := Entry(false, false, false, false, fb.block, fb.file, 0, false, false)];
      fileBlocks := fileBlocks[fb := (if fb in fileBlocks then fileBlocks[fb] else {}) + {o}];
    }

    method MapFileBacked(fb: FileBlock) returns (r: int)
      requires Inv(S()) && currProcess in sizes
      modifies this
      ensures exists peer: Owner :: Peer(old(S()), fb, peer) && MapFile(old(S()), fb, peer) == (S(), r)
    {
      ghost var s := S();
      ghost var peer := AnyPeer(s, fb);
      var n := sizes[currProcess];
      r := PageAddress(n);
      if r >= VM_ARENA_BASEADDR + VM_ARENA_SIZE {
        assert MapFile(s, fb, peer) == (S(), 0);
        return 0;
      }
      var o := Virt(currProcess, n);
      PeerFrame(s, fb);
      sizes := sizes[currProcess := n + 1];
      if fb in fileBlocksInPhysmem {
        peer := JoinMemory(o, fb, s);
        assert Peer(s, fb, peer);
      } else {
        JoinFile(o, fb);
      }
      assert MapFile(s, fb, peer) == (S(), r);
    }

    method VmMap(filename: Option<nat>, block: int, failing: set<int>) returns (r: int, ghost failed: Option<int>)
      requires Inv(S()) && currProcess in sizes && 0 <= block < MAX_BLOCK
      modifies this
      ensures failed.Some? ==> failed.value in failing && Does(old(S()), NameFails(failed.value), S(), Address(r))
      ensures failed.None? ==>
        Does(old(S()), if filename.Some? then MapShared(filename.value, block) else MapPrivate, S(), Address(r))
    {
      ghost var s := S();
      failed := None;
      if filename.None? {
        MapSwapInv(s);
        MapSwapFlat(s);
        r := MapSwapBacked();
        return;
      }
      var name;
      name, failed := ReadCString(filename.value, failing);
      ghost var m := S();
      r := 0;
      if name.Some? {
        NameReadRefines(s, m);
        FlatCurr(s, m);
        r := MapFileBacked(FileBlock(name.value, block));
        assert MapNext(m, FileBlock(name.value, block), S(), Address(r));
      }
      if failed.None? { MapDoes(s, m, filename.value, block, name, S(), r); }
        else { NameFailsDoes(s, failed.value, S()); }
    }

    // ----- vm_destroy -----

    method ClearFromClock(frame: int)
      requires frame in clock
      modifies this`clock
      ensures clock == Without(old(clock), frame)
    {
      var i := 0;
      while clock[i] != frame
        invariant 0 <= i < |clock| && frame !in clock[..i]
        invariant exists j :: i <= j < |clock| && clock[j] == frame
        decreases |clock| - i
      {
        i := i + 1;
      }
      WithoutAt(clock, i);
      clock := clock[..i] + clock[i + 1..];
    }

    method ReleaseFrame(o: Owner, page: int)
      requires 0 <= page < |physicalMemory| && (page != |physicalMemory| - 1 ==> page in clock)
      modifies this
      ensures S() == if page == old(S()).Pinned()
        then old(S()).(phys := old(physicalMemory)[page := old(physicalMemory)[page] - {o}])
        else old(S()).(phys := old(physicalMemory)[page := {}], freeFrames := old(freePhysmemPages) + {page},
                       clock := Without(old(clock), page))
    {
      if page == |physicalMemory| - 1 {
        physicalMemory := physicalMemory[page := physicalMemory[page] - {o}];
      } else {
        physicalMemory := physicalMemory[page := {}];
        freePhysmemPages := freePhysmemPages + {page};
        ClearFromClock(page);
      }
    }

    method ReleaseSwapPage(o: Owner)
      requires o in entries && ReleaseOk(S(), o) && entries[o].swapBacked
      modifies this
      ensures S() == ReleaseSwap(old(S()), o, old(entries[o]))
    {
      var each := entries[o];
      if each.index != -1 {
        swapBlocks := swapBlocks[each.index := {}];
        freeSwapBlocks := freeSwapBlocks + {each.index};
      }
      if each.resident { ReleaseFrame(o, each.ppage); }
      totalSwapbackedPages := totalSwapbackedPages - 1;
      entries := entries - {o};
    }

    method ReleaseFilePage(o: Owner)
      requires o in entries && ReleaseOk(S(), o) && !entries[o].swapBacked
      modifies this
      ensures S() == ReleaseFile(old(S()), o, old(entries[o]))
    {
      var each := entries[o];
      if each.Block() in fileBlocksInPhysmem {
        physicalMemory := physicalMemory[each.ppage := physicalMemory[each.ppage] - {o}];
      } else {
        fileBlocks := fileBlocks[each.Block() := (if each.Block() in fileBlocks then fileBlocks[each.Block()]
          else {}) - {o}];
      }
      entries := entries - {o};
    }

    method ReleasePages(n: nat)
      requires forall i: nat {:trigger ReleaseUpTo(S(), currProcess, i)} | i < n ::
        Releasable(ReleaseUpTo(S(), currProcess, i), Virt(currProcess, i))
      modifies this
      ensures S() == ReleaseUpTo(old(S()), old(currProcess), n)
    {
      ghost var s := S();
      var pid, i := currProcess, 0;
      while i < n
        invariant 0 <= i <= n && S() == ReleaseUpTo(s, pid, i)
      {
        assert Releasable(ReleaseUpTo(s, pid, i), Virt(pid, i));
        if entries[Virt(pid, i)].swapBacked { ReleaseSwapPage(Virt(pid, i)); } else { ReleaseFilePage(Virt(pid, i)); }
        i := i + 1;
      }
    }

    method VmDestroy()
      requires Inv(S()) && currProcess in sizes
      modifies this
      ensures S() == Destroy(old(S())) && Inv(S())
      ensures FlatOf(S()) == FlatStep(old(FlatOf(S())), Exit).0
    {
      ghost var s := S();
      DestroyFlat(s);
      DestroyInv(s);
      AllReleasable(s);
      ReleasePages(sizes[currProcess]);
      ReleaseUpToEntries(s, s.curr, Size(s));
      sizes := sizes - {currProcess};
    }
  }

  ghost predicate Releasable(t: State, o: Owner) { o in t.entries && ReleaseOk(t, o) }

  lemma AllReleasable(s: State)
    requires Inv(s) && s.curr in s.sizes
    ensures forall i: nat {:trigger ReleaseUpTo(s, s.curr, i)} | i < s.sizes[s.curr] ::
      Releasable(ReleaseUpTo(s, s.curr, i), Virt(s.curr, i))
  {
    forall i: nat | i < s.sizes[s.curr] ensures Releasable(ReleaseUpTo(s, s.curr, i), Virt(s.curr, i)) {
      ReleaseReady(s, i);
    }
  }

  ghost predicate ReleaseOk(s: State, o: Owner)
    requires o in s.entries
  {
    var e := s.entries[o];
    && (e.resident ==> 0 <= e.ppage < |s.phys|)
    && (if e.swapBacked then
          (e.index != -1 ==> 0 <= e.index < |s.swap|) && (e.resident && e.ppage != s.Pinned() ==> e.ppage in s.clock)
        else e.Block() in s.inMem ==> e.resident)
  }

  lemma ReleaseReady(s: State, i: nat)
    requires Inv(s) && s.curr in s.sizes && i < s.sizes[s.curr]
    ensures var t, o := ReleaseUpTo(s, s.curr, i), Virt(s.curr, i);
      o in t.entries && ReleaseOk(t, o) && t.curr == s.curr
  {
    var t, o := ReleaseUpTo(s, s.curr, i), Virt(s.curr, i);
    assert o in s.entries;
    ReleaseUpToEntries(s, s.curr, i);
    ReleaseUpToCore(s, s.curr, i);
    CoreReleaseOk(t, o);
  }

  lemma CoreReleaseOk(t: State, o: Owner)
    requires Core(t) && o in t.entries
    ensures ReleaseOk(t, o)
  {
    assert Bits(t, o, t.entries[o]) && o in Owners(t, PlaceOf(t.entries[o]));
    if !t.entries[o].swapBacked { assert SelfOf(t, t.entries[o].Block()); }
  }

  ghost function AnyPeer(s: State, fb: FileBlock): (peer: Owner)
    requires Core(s)
    ensures Peer(s, fb, peer)
  {
    if fb in s.inMem then (assert SelfOf(s, fb); assert SelfOwner(fb) in Owners(s, InFrame(s.inMem[fb])); SelfOwner(fb))
    else Virt(0, 0)
  }

  lemma PeerFrame(s: State, fb: FileBlock)
    requires Core(s)
    ensures fb in s.inMem ==>
      0 <= s.inMem[fb] < |s.phys| && s.phys[s.inMem[fb]] != {} && s.phys[s.inMem[fb]] <= s.entries.Keys
  {
    if fb in s.inMem {
      var peer := AnyPeer(s, fb);
      assert SelfOf(s, fb);
      forall p | p in Owners(s, InFrame(s.inMem[fb])) ensures p in s.entries {}
    }
  }

  lemma FrameContents(s: State, page: int)
    requires Inv(s) && 0 <= page && ReadEnabled(s, page)
    ensures Accessible(FlatOf(s), page)
    ensures PageAt(s.mem, s.entries[Virt(s.curr, page)].ppage) == Contents(FlatOf(s), page)
  {
    forall off | 0 <= off < VM_PAGESIZE
      ensures Accessible(FlatOf(s), page)
      ensures PageAt(s.mem, s.entries[Virt(s.curr, page)].ppage)[off] == Contents(FlatOf(s), page)[off]
    {
      PeekFlat(s, page, off);
    }
    PeekFlat(s, page, 0);
  }

  lemma ArenaSize(s: State, f: Flat)
    requires Inv(s) && FlatOf(s) == f && s.curr in s.sizes
    ensures |f.Arena()| == s.sizes[s.curr] <= ARENA_PAGES
  {
    assert f.arenas[s.curr] == ArenaOf(s, s.curr, s.sizes[s.curr]);
  }

  lemma OutOfArena(s: State, addr: nat)
    requires Inv(s) && s.curr in s.sizes && !InArena(addr)
    ensures StringAt(FlatOf(s), addr) == None
  {
    ArenaSize(s, FlatOf(s));
    assert ByteAt(FlatOf(s), addr) == None;
  }

  lemma EnabledFrame(s: State, page: int, write: bool)
    requires Inv(s) && Enabled(s, page, write)
    ensures Virt(s.curr, page) in s.entries && 0 <= s.entries[Virt(s.curr, page)].ppage < |s.mem|
  {
    var o := Virt(s.curr, page);
    assert Bits(s, o, s.entries[o]) && o in Owners(s, PlaceOf(s.entries[o]));
  }

  /** A page of a file that is not in memory. */
  predicate FileOut(s: State, page: int) {
    var o := Virt(s.curr, page);
    page < Size(s) && o in s.entries && !s.entries[o].swapBacked && !s.entries[o].resident
  }

  /** vm_fault has done what its transition says, or a file_read has failed. */
  ghost predicate FaultOutcome(s: State, page: int, write: bool, fails: bool, t: State, r: int) {
    if fails && FileOut(s, page) then FailedRead(s, page, t) && r == -1 else FaultNext(s, page, write, t, r)
  }

  /** The access comes to a file_read that fails. */
  predicate Refused(s: State, page: int, write: bool, fails: bool) {
    fails && FileOut(s, page) && !Enabled(s, page, write)
  }

  /** A step of the pager, which is the same step of flat memory. */
  ghost predicate Does(s: State, ev: Event, t: State, reply: Reply) {
    && Legal(FlatOf(s), ev) && Next(s, ev, t, reply)
    && Inv(t) && FlatStep(FlatOf(s), ev) == (FlatOf(t), reply)
  }

  /** The name has been read as far as it goes, or a page on the way could not be read. */
  ghost predicate NameOutcome(s: State, t: State, f: Flat, failing: set<int>, failed: Option<int>) {
    match failed
    case None => NameRead(s, t)
    case Some(page) => page in failing && IsShared(f, page) && NameFailsNext(s, page, t)
  }

  lemma OutcomeRefines(s: State, page: int, write: bool, fails: bool, t: State, r: int)
    requires Inv(s) && s.curr in s.sizes && 0 <= page && !Enabled(s, page, write)
    requires FaultOutcome(s, page, write, fails, t, r)
    ensures Inv(t) && FlatOf(t) == FlatOf(s) && (r == 0 || r == -1)
    ensures r == 0 <==> Accessible(FlatOf(s), page) && !(fails && FileOut(s, page))
    ensures r == 0 ==> Enabled(t, page, write)
  {
    if fails && FileOut(s, page) { FailedReadRefines(s, page, t); } else { FaultNextRefines(s, page, write, t, r); }
  }

  lemma OutcomeAccess(s: State, page: int, write: bool, fails: bool, t: State, r: int)
    requires Inv(s) && s.curr in s.sizes && 0 <= page && !Enabled(s, page, write)
    requires FaultOutcome(s, page, write, fails, t, r)
    ensures !Refused(s, page, write, fails) ==> Access(s, page, write, t, r == 0)
    ensures !Refused(s, page, write, fails) ==> (r == 0) == Accessible(FlatOf(t), page)
  {
    OutcomeRefines(s, page, write, fails, t, r);
  }

  lemma RefusedShared(s: State, page: int, write: bool, fails: bool)
    requires Inv(s) && s.curr in s.sizes && 0 <= page && Refused(s, page, write, fails)
    ensures IsShared(FlatOf(s), page)
  {
    assert FlatOf(s).Arena() == ArenaOf(s, s.curr, s.sizes[s.curr]);
  }

  lemma RefusedDoes(s: State, addr: nat, write: bool, fails: bool, t: State)
    requires Inv(s) && s.curr in s.sizes && InArena(addr) && Refused(s, VirtualPage(addr), write, fails)
    requires FailedRead(s, VirtualPage(addr), t)
    ensures Does(s, ReadFails(VirtualPage(addr)), t, Segfault)
  {
    AddressSplit(addr);
    RefusedShared(s, VirtualPage(addr), write, fails);
    FailedReadRefines(s, VirtualPage(addr), t);
  }

  lemma NameFailsDoes(s: State, page: int, t: State)
    requires Inv(s) && IsShared(FlatOf(s), page) && NameFailsNext(s, page, t)
    ensures Does(s, NameFails(page), t, Address(0))
  {
    NameFailsRefines(s, page, t);
    var ev := NameFails(page);
    assert Legal(FlatOf(s), ev);
    assert Next(s, ev, t, Address(0)) by { NextNameFails(s, page, t); }
  }

  lemma MapDoes(s: State, m: State, name: nat, block: int, file: Option<string>, t: State, r: int)
    requires Inv(s) && s.curr in s.sizes && 0 <= block < MAX_BLOCK && NameRead(s, m)
    requires file == StringAt(FlatOf(s), name)
    requires
      match file
      case None => t == m && r == 0
      case Some(f) => MapNext(m, FileBlock(f, block), t, Address(r))
    ensures Does(s, MapShared(name, block), t, Address(r))
  {
    assert MapSharedNext(s, name, block, t, Address(r));
    MapSharedRefines(s, name, block, t, Address(r));
  }

  lemma LoadWitness(s: State, addr: nat, ok: bool, t: State, reply: Reply)
    requires Inv(s) && s.curr in s.sizes && InArena(addr) && Access(s, VirtualPage(addr), false, t, ok)
    requires reply == if ok then Byte(Peek(t, VirtualPage(addr), PageOffset(addr))) else Segfault
    ensures Does(s, Load(addr), t, reply)
  {
    LoadRefines(s, addr, t, reply);
  }

  lemma StoreWitness(s: State, addr: nat, v: char, m: State, ok: bool, t: State, reply: Reply)
    requires Inv(s) && s.curr in s.sizes && InArena(addr) && Access(s, VirtualPage(addr), true, m, ok)
    requires
      if ok then t == Poke(m, VirtualPage(addr), PageOffset(addr), v) && reply == Done
      else t == m && reply == Segfault
    ensures Does(s, Store(addr, v), t, reply)
  {
    StoreRefines(s, addr, v, t, reply);
  }

  /** What the branches of vm_fault rely on. */
  ghost predicate FaultOk(s: State, page: int, write: bool) {
    var o := Virt(s.curr, page);
    page < Size(s) ==>
      && o in s.entries
      && (s.entries[o].resident ==>
           && 0 <= s.entries[o].ppage < |s.phys| && s.phys[s.entries[o].ppage] <= s.entries.Keys
           && (s.entries[o].referenced && !s.entries[o].dirty ==>
                var os := s.phys[s.entries[o].ppage]; DirtyAll(s.entries, os) == TouchAll(s.entries, os, true)))
      && (s.freeFrames == {} ==> Evictable(s))
      && (exists c :: ValidPick(s, c))
      && (TakesFrame(s, page, write) && !s.entries[o].swapBacked ==> !s.entries[o].resident)
      && (TakesFrame(s, page, write) ==>
           forall c {:trigger MakeRoom(s, c)} | ValidPick(s, c) :: RoomOk(MakeRoom(s, c), o, s.entries[o], c.frame))
  }

  ghost predicate RoomOk(m: State, o: Owner, e: Entry, frame: int) {
    && o in m.entries && m.entries[o] == e && 0 <= frame < |m.phys| == |m.mem|
    && (e.swapBacked && !e.resident ==> 0 <= e.index < |m.swap| == |m.swapDisk|)
    && (!e.swapBacked ==>
          && OnDisk(m, e.Block()) <= m.entries.Keys
          && forall p | p in OnDisk(m, e.Block()) :: !m.entries[p].dirty && !m.entries[p].writeEnable)
  }

  ghost function ChoosePick(s: State): (c: Pick)
    requires exists c :: ValidPick(s, c)
    ensures ValidPick(s, c)
  {
    var c :| ValidPick(s, c); c
  }

  lemma FaultNextRefines(s: State, page: int, write: bool, t: State, r: int)
    requires Inv(s) && 0 <= page && !Enabled(s, page, write) && FaultNext(s, page, write, t, r)
    ensures FaultSpec(s, page, write, t, r)
  {
    var c :| (TakesFrame(s, page, write) ==> ValidPick(s, c)) && Fault(s, page, write, c) == (t, r);
    FaultRefines(s, page, write, c);
  }

  lemma InvRoomOk(s: State, page: int, c: Pick)
    requires Inv(s) && 0 <= page < Size(s) && ValidPick(s, c) && Virt(s.curr, page) in s.entries
    requires var e := s.entries[Virt(s.curr, page)]; e.resident ==> e.ppage == s.Pinned()
    ensures RoomOk(MakeRoom(s, c), Virt(s.curr, page), s.entries[Virt(s.curr, page)], c.frame)
  {
    var o, m := Virt(s.curr, page), MakeRoom(s, c);
    MakeRoomSpec(s, c, m);
    assert m.entries[o] == s.entries[o];
    CoreRoomOk(m, o, c.frame);
  }

  lemma CoreRoomOk(m: State, o: Owner, frame: int)
    requires Core(m) && o in m.entries && frame in m.freeFrames
    ensures RoomOk(m, o, m.entries[o], frame)
  {
    var e := m.entries[o];
    assert Bits(m, o, e) && o in Owners(m, PlaceOf(e));
    forall p | p in OnDisk(m, e.Block()) ensures p in m.entries && !m.entries[p].dirty && !m.entries[p].writeEnable {
      assert p in Owners(m, InFile(e.Block()));
      assert Bits(m, p, m.entries[p]);
    }
  }

  lemma InvFaultOk(s: State, page: int, write: bool)
    requires Inv(s) && 0 <= page && !Enabled(s, page, write)
    ensures FaultOk(s, page, write)
  {
    if page < Size(s) {
      var o := Virt(s.curr, page);
      EntryExists(s, page);
      var c := PickExists(s);
      if s.freeFrames == {} { CoreEvictable(s); }
      if s.entries[o].resident {
        forall p | p in Owners(s, InFrame(s.entries[o].ppage)) ensures p in s.entries {}
        if s.entries[o].referenced && !s.entries[o].dirty { DirtyIsTouched(s, o); }
      }
      if TakesFrame(s, page, write) {
        if !s.entries[o].swapBacked { FileAway(s, page, write); }
        forall c | ValidPick(s, c) ensures RoomOk(MakeRoom(s, c), o, s.entries[o], c.frame) { InvRoomOk(s, page, c); }
      }
    }
  }

  lemma DirtyIsTouched(s: State, o: Owner)
    requires Core(s) && o in s.entries && s.entries[o].resident && s.entries[o].referenced && !s.entries[o].dirty
    ensures 0 <= s.entries[o].ppage < |s.phys|
    ensures DirtyAll(s.entries, s.phys[s.entries[o].ppage]) == TouchAll(s.entries, s.phys[s.entries[o].ppage], true)
  {
    var f := s.entries[o].ppage;
    assert Bits(s, o, s.entries[o]) && o in Owners(s, InFrame(f));
    ResidentFrame(s, o);
    FrameKind(s, f, o);
    forall p | p in s.phys[f] ensures s.entries[p].(dirty := true, writeEnable := true) == Touched(s.entries[p], true) {
      assert p in Owners(s, InFrame(f)) && Bits(s, p, s.entries[p]);
    }
  }
  // ----- what the three branches of the write-back do, and why that is an eviction -----

  ghost predicate FrontOk(s: State, o: Owner) {
    && s.clock != [] && 0 <= s.clock[0] < |s.phys| == |s.mem| && s.phys[s.clock[0]] <= s.entries.Keys && o in s.entries
    && (s.entries[o].swapBacked ==> -1 <= s.entries[o].index < |s.swap| == |s.swapDisk|)
  }

  ghost function Dropped(s: State, o: Owner): State
    requires FrontOk(s, o) && s.entries[o].index != -1
  {
    var f, e := s.clock[0], s.entries[o];
    s.(clock := s.clock[1..], entries := EvictAll(s.entries, s.phys[f], false),
       swap := if e.swapBacked then s.swap[e.index := s.phys[f]] else s.swap,
       files := if e.swapBacked then s.files else s.files[e.Block() := s.phys[f]],
       inMem := if e.swapBacked then s.inMem else s.inMem - {e.Block()},
       phys := s.phys[f := {}], freeFrames := s.freeFrames + {f})
  }

  ghost function SwapWritten(s: State, o: Owner, b: int): State
    requires FrontOk(s, o)
  {
    var f, e := s.clock[0], s.entries[o];
    var home := if e.index == -1 then b else e.index;
    s.(clock := s.clock[1..], entries := s.entries[o := e.(dirty := false, resident := false, index := home)],
       swap := Put(s.swap, home, s.phys[f]), swapDisk := Put(s.swapDisk, home, s.mem[f]),
       freeSwap := if e.index == -1 then s.freeSwap - {b} else s.freeSwap,
       phys := s.phys[f := {}], freeFrames := s.freeFrames + {f})
  }

  ghost function FileWritten(s: State, o: Owner): State
    requires FrontOk(s, o)
  {
    var f, e := s.clock[0], s.entries[o];
    s.(clock := s.clock[1..], entries := EvictAll(s.entries, s.phys[f], true),
       files := s.files[e.Block() := s.phys[f]], disk := s.disk[e.Block() := s.mem[f]],
       inMem := s.inMem - {e.Block()},
       phys := s.phys[f := {}], freeFrames := s.freeFrames + {f})
  }

  /** Whatever owner of the victim the code looks at, its branch is the eviction of the frame. */
  ghost predicate VictimOk(t: State, o: Owner) {
    && FrontOk(t, o) && (forall b :: b in t.freeSwap ==> 0 <= b < |t.swap|)
    && (t.entries[o].swapBacked && t.entries[o].index == -1 ==> t.freeSwap != {})
    && (if !t.entries[o].dirty && t.entries[o].index != -1 then Expellable(t, o, 0) && Dropped(t, o) == Expel(t, o, 0)
        else if t.entries[o].swapBacked then
          forall b {:trigger Expellable(t, o, b)} | t.entries[o].index == -1 ==> b in t.freeSwap ::
            Expellable(t, o, b) && SwapWritten(t, o, b) == Expel(t, o, b)
        else Expellable(t, o, 0) && FileWritten(t, o) == Expel(t, o, 0))
  }

  ghost predicate Evictable(s: State) {
    && s.clock != [] && Sweepable(s)
    && forall o {:trigger VictimOk(Sweep(s), o)} | o in Owners(Sweep(s), InFrame(Sweep(s).clock[0])) ::
      VictimOk(Sweep(s), o)
  }

  lemma CoreEvictable(s: State)
    requires Core(s) && s.freeFrames == {}
    ensures Evictable(s)
  {
    assert 0 in s.clock;
    CoreSweepable(s);
    SweepTurned(s);
    SweepBits(s);
    forall o | o in Owners(Sweep(s), InFrame(Sweep(s).clock[0])) ensures VictimOk(Sweep(s), o) {
      VictimIsOk(Sweep(s), o);
    }
  }

  lemma VictimIsOk(t: State, o: Owner)
    requires Core(t) && t.clock != [] && o in Owners(t, InFrame(t.clock[0])) && !ReferencedFrame(t, t.clock[0])
    ensures VictimOk(t, o)
  {
    FrontIsOk(t, o);
    var e := t.entries[o];
    if !e.dirty && e.index != -1 { DroppedIsExpelled(t, o); }
    else if e.swapBacked {
      forall b | e.index == -1 ==> b in t.freeSwap
        ensures Expellable(t, o, b) && SwapWritten(t, o, b) == Expel(t, o, b)
      {
        SwapWrittenIsExpelled(t, o, b);
      }
    } else { FileWrittenIsExpelled(t, o); }
  }

  lemma FrontIsOk(t: State, o: Owner)
    requires Core(t) && t.clock != [] && o in Owners(t, InFrame(t.clock[0])) && !ReferencedFrame(t, t.clock[0])
    ensures FrontOk(t, o) && !t.entries[o].referenced && (!t.entries[o].swapBacked ==> t.entries[o].index >= 0)
    ensures t.entries[o].swapBacked ==> t.phys[t.clock[0]] == {o}
    ensures forall b :: b in t.freeSwap ==> 0 <= b < |t.swap|
    ensures t.entries[o].swapBacked && t.entries[o].index == -1 ==> t.freeSwap != {}
    ensures forall p | p in t.phys[t.clock[0]] :: Alike(t.entries[o], t.entries[p], t.clock[0])
  {
    FrameKind(t, t.clock[0], o);
    assert Bits(t, o, t.entries[o]);
    OwnerBit(t, t.clock[0], o);
    if t.entries[o].swapBacked && t.entries[o].index == -1 { FreeSwapBlock(t, o); }
  }

  ghost predicate OnFront(t: State, o: Owner) {
    && FrontOk(t, o) && o in t.phys[t.clock[0]] && !t.entries[o].referenced
    && forall p | p in t.phys[t.clock[0]] :: Alike(t.entries[o], t.entries[p], t.clock[0])
  }

  lemma DroppedIsExpelled(t: State, o: Owner)
    requires OnFront(t, o) && !t.entries[o].dirty && t.entries[o].index != -1
    ensures Expellable(t, o, 0) && Dropped(t, o) == Expel(t, o, 0)
  {
    var f := t.clock[0];
    assert EvictAll(t.entries, t.phys[f], false) == ExpelAll(t.entries, t.phys[f], t.entries[o].index) by {
      forall p | p in t.phys[f] ensures LeftFrame(t.entries[p], false) == Expelled(t.entries[p], t.entries[o].index) {
        assert Alike(t.entries[o], t.entries[p], f);
      }
    }
  }

  lemma FileWrittenIsExpelled(t: State, o: Owner)
    requires OnFront(t, o) && !t.entries[o].swapBacked && t.entries[o].dirty
    ensures Expellable(t, o, 0) && FileWritten(t, o) == Expel(t, o, 0)
  {
    var f := t.clock[0];
    assert EvictAll(t.entries, t.phys[f], true) == ExpelAll(t.entries, t.phys[f], t.entries[o].index) by {
      forall p | p in t.phys[f] ensures LeftFrame(t.entries[p], true) == Expelled(t.entries[p], t.entries[o].index) {
        assert Alike(t.entries[o], t.entries[p], f);
      }
    }
  }

  lemma SwapWrittenIsExpelled(t: State, o: Owner, b: int)
    requires OnFront(t, o) && t.entries[o].swapBacked && MustWrite(t.entries[o]) && t.phys[t.clock[0]] == {o}
    requires t.entries[o].index == -1 ==> b in t.freeSwap
    ensures Expellable(t, o, b) && SwapWritten(t, o, b) == Expel(t, o, b)
  {
    var home := if t.entries[o].index == -1 then b else t.entries[o].index;
    assert SwapWritten(t, o, b).entries == ExpelAll(t.entries, {o}, home);
  }
}
