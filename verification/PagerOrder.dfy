/** The order of the clock: arrivals go to the back, departures leave the rest as it is. */
module PagerOrder {
  import opened Wrappers
  import opened PagerState
  import opened PagerInvariant
  import opened PagerSteps
  import opened PagerClock
  import opened PagerFlat
  import opened PagerRefine
  import opened PagerRun

  // ----- faults -----

  /** A frame that a fault fills goes behind all others in the clock, and counts as referenced; the others stay in
      the order in which second chance has left them. Other faults leave the clock alone. */
  lemma ClockAfterFault(s: State, page: int, write: bool, c: Pick, t: State)
    requires Inv(s) && 0 <= page && !Enabled(s, page, write) && (TakesFrame(s, page, write) ==> ValidPick(s, c))
    requires Fault(s, page, write, c) == (t, 0)
    ensures TakesFrame(s, page, write) ==>
      && ReferencedFrame(t, c.frame)
      && t.clock == (if s.freeFrames != {} then s.clock else Survivors(s.clock, ReferencedFrames(s))) + [c.frame]
    ensures !TakesFrame(s, page, write) ==> t.clock == s.clock && t.freeFrames == s.freeFrames
  {
    FaultRefines(s, page, write, c);
    if TakesFrame(s, page, write) {
      EntryExists(s, page);
      FrameFilled(s, MakeRoom(s, c), page, write, c, t);
      if s.freeFrames == {} { RoomClock(s, c); }
      InFilledFrame(s, t, page, write, c.frame);
    }
  }

  /** What is left of the clock when room has been made. */
  lemma RoomClock(s: State, c: Pick)
    requires Core(s) && s.freeFrames == {} && ValidPick(s, c)
    ensures s.clock != [] && MakeRoom(s, c).clock == Survivors(s.clock, ReferencedFrames(s))
  {
    assert 0 in s.clock;
    SweepSpec(s);
    var t := Sweep(s);
    assert c.owner in t.entries ==> Expel(t, c.owner, c.block).clock == t.clock[1..];
  }

  lemma FrameFilled(s: State, m: State, page: int, write: bool, c: Pick, t: State)
    requires Inv(s) && 0 <= page && !Enabled(s, page, write) && TakesFrame(s, page, write) && ValidPick(s, c)
    requires Fault(s, page, write, c) == (t, 0) && m == MakeRoom(s, c)
    ensures t.clock == m.clock + [c.frame] && t.curr == s.curr
    ensures Virt(s.curr, page) in t.entries && t.entries[Virt(s.curr, page)].ppage == c.frame
  {
    var o := Virt(s.curr, page);
    EntryExists(s, page);
    RoomMade(s, c, m);
    if s.entries[o].swapBacked {
      SwapFault(s, m, page, write, c, t);
      SwapFilled(m, o, c.frame, write, t);
    } else {
      FileAway(s, page, write);
      FileFault(s, m, page, write, c, t);
      StillAway(s, m, o, s.entries[o].Block());
      FileFilled(m, o, s.entries[o].Block(), c.frame, write, t);
    }
  }

  lemma RoomMade(s: State, c: Pick, m: State)
    requires Core(s) && ValidPick(s, c) && m == MakeRoom(s, c)
    ensures Core(m) && Undisturbed(s, m)
  {
    MakeRoomSpec(s, c, m);
  }

  /** What is not in memory stays where it is while room is made. */
  lemma StillAway(s: State, m: State, o: Owner, fb: FileBlock)
    requires Core(s) && Core(m) && Undisturbed(s, m) && o in Owners(s, InFile(fb))
    ensures o in m.entries && o in OnDisk(m, fb)
  {
    assert m.entries[o] == s.entries[o];
    assert o in Owners(m, InFile(fb));
  }

  lemma SwapFault(s: State, m: State, page: int, write: bool, c: Pick, t: State)
    requires TakesFrame(s, page, write) && Fault(s, page, write, c) == (t, 0) && m == MakeRoom(s, c) && Inv(s)
    requires 0 <= page && !Enabled(s, page, write) && s.entries[Virt(s.curr, page)].swapBacked
    ensures t == CopyZero(m, Virt(s.curr, page), c.frame) || t == SwapIn(m, Virt(s.curr, page), c.frame, write)
  {
    EntryExists(s, page);
  }

  lemma FileFault(s: State, m: State, page: int, write: bool, c: Pick, t: State)
    requires TakesFrame(s, page, write) && Fault(s, page, write, c) == (t, 0) && m == MakeRoom(s, c)
    requires !s.entries[Virt(s.curr, page)].swapBacked
    ensures t == FileIn(m, s.entries[Virt(s.curr, page)].Block(), c.frame, write)
  {}

  lemma SwapFilled(m: State, o: Owner, f: int, write: bool, t: State)
    requires o in m.entries && (t == CopyZero(m, o, f) || t == SwapIn(m, o, f, write))
    ensures t.clock == m.clock + [f] && t.curr == m.curr && o in t.entries && t.entries[o].ppage == f
  {}

  lemma FileFilled(m: State, o: Owner, fb: FileBlock, f: int, write: bool, t: State)
    requires o in m.entries && o in OnDisk(m, fb) && t == FileIn(m, fb, f, write)
    ensures t.clock == m.clock + [f] && t.curr == m.curr && o in t.entries && t.entries[o].ppage == f
  {}

  lemma InFilledFrame(s: State, t: State, page: int, write: bool, f: int)
    requires Inv(t) && Enabled(t, page, write) && t.curr == s.curr
    requires Virt(s.curr, page) in t.entries && t.entries[Virt(s.curr, page)].ppage == f
    ensures ReferencedFrame(t, f)
  {
    var o := Virt(s.curr, page);
    assert Bits(t, o, t.entries[o]) && o in Owners(t, PlaceOf(t.entries[o]));
  }

  // ----- other calls -----

  lemma MapFileClock(s: State, fb: FileBlock, peer: Owner)
    ensures MapFile(s, fb, peer).0.clock == s.clock && MapFile(s, fb, peer).0.freeFrames == s.freeFrames
  {}

  /** No other call but exit touches the clock or the free frames; a store takes place after its fault. */
  lemma ClockKept(s: State, ev: Event, t: State, reply: Reply)
    requires Legal(FlatOf(s), ev) && Next(s, ev, t, reply)
    requires ev.CreateProcess? || ev.SwitchTo? || ev.MapPrivate? || ev.FileAppears?
    ensures t.clock == s.clock && t.freeFrames == s.freeFrames
  {}

  lemma MapClock(m: State, fb: FileBlock, t: State, reply: Reply)
    requires MapNext(m, fb, t, reply)
    ensures t.clock == m.clock && t.freeFrames == m.freeFrames
  {
    var peer :| Peer(m, fb, peer) && MapFile(m, fb, peer).0 == t && reply == Address(MapFile(m, fb, peer).1);
    MapFileClock(m, fb, peer);
  }

  /** The frames of the clock that are not in the set, in their order. */
  function Except(clock: seq<int>, gone: set<int>): seq<int> {
    if clock == [] then [] else if clock[0] in gone then Except(clock[1..], gone)
    else [clock[0]] + Except(clock[1..], gone)
  }

  lemma {:induction false} ExceptOthers(clock: seq<int>, gone: set<int>, more: set<int>)
    requires forall f :: f in clock ==> f !in more
    ensures Except(clock, gone + more) == Except(clock, gone)
  {
    if clock != [] {
      var f := clock[0];
      assert f in clock && f !in more;
      assert forall g :: g in clock[1..] ==> g in clock;
      ExceptOthers(clock[1..], gone, more);
    }
  }

  lemma {:induction false} WithoutExcept(clock: seq<int>, gone: set<int>, f: int)
    requires NoDup(clock)
    ensures Without(Except(clock, gone), f) == Except(clock, gone + {f})
  {
    if clock != [] {
      TailNoDup(clock);
      if clock[0] in gone { WithoutExcept(clock[1..], gone, f); } else {
        var rest := Except(clock[1..], gone);
        assert ([clock[0]] + rest)[1..] == rest;
        if clock[0] == f { ExceptOthers(clock[1..], gone, {f}); } else { WithoutExcept(clock[1..], gone, f); }
      }
    }
  }

  lemma TailNoDup(clock: seq<int>)
    requires NoDup(clock) && clock != []
    ensures NoDup(clock[1..]) && clock[0] !in clock[1..]
  {}

  lemma {:induction false} ReleaseClock(s: State, pid: int, n: nat)
    requires NoDup(s.clock) && Except(s.clock, s.freeFrames) == s.clock
    ensures ReleaseUpTo(s, pid, n).clock == Except(s.clock, ReleaseUpTo(s, pid, n).freeFrames)
  {
    if n > 0 {
      ReleaseClock(s, pid, n - 1);
      OneReleased(ReleaseUpTo(s, pid, n - 1), s.clock, Virt(pid, n - 1));
    }
  }

  lemma OneReleased(m: State, clock: seq<int>, o: Owner)
    requires NoDup(clock) && m.clock == Except(clock, m.freeFrames)
    ensures Release(m, o).clock == Except(clock, Release(m, o).freeFrames)
  {
    if o in m.entries { WithoutExcept(clock, m.freeFrames, m.entries[o].ppage); }
  }

  lemma {:induction false} NoneFree(clock: seq<int>, free: set<int>)
    requires forall f :: f in clock ==> f !in free
    ensures Except(clock, free) == clock
  {
    if clock != [] {
      var f := clock[0];
      assert f in clock && f !in free;
      assert forall g :: g in clock[1..] ==> g in clock;
      NoneFree(clock[1..], free);
      assert [clock[0]] + clock[1..] == clock;
    }
  }

  /** When a process goes, its frames become free, and the others stay in the clock in their order. */
  lemma ClockAfterExit(s: State, t: State)
    requires Inv(s) && t == Destroy(s)
    ensures t.clock == Except(s.clock, t.freeFrames)
  {
    NoneFree(s.clock, s.freeFrames);
    ReleaseClock(s, s.curr, Size(s));
  }
}
