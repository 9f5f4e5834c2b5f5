/** One step of the pager as a relation, and the refinement theorem over whole runs. */
module PagerRun {
  import opened Wrappers
  import opened PagerState
  import opened PagerInvariant
  import opened PagerSteps
  import opened PagerFlat
  import opened PagerRefine

  // ----- the transition relation -----

  ghost predicate FaultNext(s: State, page: int, write: bool, t: State, r: int) {
    exists c: Pick :: (TakesFrame(s, page, write) ==> ValidPick(s, c)) && Fault(s, page, write, c) == (t, r)
  }

  /** A load or store consults the enable bit, and traps to vm_fault when it is clear. */
  ghost predicate Access(s: State, page: int, write: bool, t: State, ok: bool) {
    if Enabled(s, page, write) then t == s && ok
    else exists r :: FaultNext(s, page, write, t, r) && ok == (r == 0)
  }

  ghost predicate ReadStep(s: State, t: State) { exists page, ok :: 0 <= page && Access(s, page, false, t, ok) }

  ghost predicate ReadSteps(trace: seq<State>) {
    trace != [] && forall i | 0 <= i < |trace| - 1 :: ReadStep(trace[i], trace[i + 1])
  }

  /** read_c_string brings pages in one after the other. */
  ghost predicate NameRead(s: State, t: State) {
    exists trace :: ReadSteps(trace) && trace[0] == s && trace[|trace| - 1] == t
  }

  ghost predicate MapNext(m: State, fb: FileBlock, t: State, reply: Reply) {
    exists peer: Owner :: Peer(m, fb, peer) && MapFile(m, fb, peer).0 == t && reply == Address(MapFile(m, fb, peer).1)
  }

  ghost predicate MapSharedNext(s: State, name: int, block: int, t: State, reply: Reply) {
    exists m :: NameRead(s, m) &&
      match StringAt(FlatOf(s), name)
      case None => t == m && reply == Address(0)
      case Some(file) => MapNext(m, FileBlock(file, block), t, reply)
  }

  ghost predicate LoadNext(s: State, addr: nat, t: State, reply: Reply) {
    exists ok :: Access(s, VirtualPage(addr), false, t, ok) &&
      reply == if ok then Byte(Peek(t, VirtualPage(addr), PageOffset(addr))) else Segfault
  }

  ghost predicate StoreNext(s: State, addr: nat, v: char, t: State, reply: Reply) {
    exists m, ok :: Access(s, VirtualPage(addr), true, m, ok) &&
      if ok then t == Poke(m, VirtualPage(addr), PageOffset(addr), v) && reply == Done else t == m && reply == Segfault
  }

  /** vm_fault on a page of a file that is not in memory, when file_read fails. */
  ghost predicate FailedRead(s: State, page: int, t: State) {
    var o := Virt(s.curr, page);
    && o in s.entries && !s.entries[o].swapBacked && !s.entries[o].resident
    && exists c: Pick :: ValidPick(s, c) && MakeRoom(s, c) == t
  }

  ghost predicate NameFailsNext(s: State, page: int, t: State) { exists m :: NameRead(s, m) && FailedRead(m, page, t) }

  ghost predicate Next(s: State, ev: Event, t: State, reply: Reply)
    requires Legal(FlatOf(s), ev)
  {
    match ev
    case CreateProcess(pid) => t == Create(s, pid) && reply == Done
    case SwitchTo(pid) => t == Switch(s, pid) && reply == Done
    case Exit => t == Destroy(s) && reply == Done
    case MapPrivate => t == MapSwap(s).0 && reply == Address(MapSwap(s).1)
    case MapShared(name, block) => MapSharedNext(s, name, block, t, reply)
    case Load(addr) => LoadNext(s, addr, t, reply)
    case Store(addr, v) => StoreNext(s, addr, v, t, reply)
    case FileAppears(fb, data) => t == s.(disk := s.disk[fb := data]) && reply == Done
    case ReadFails(page) => FailedRead(s, page, t) && reply == Segfault
    case NameFails(page) => NameFailsNext(s, page, t) && reply == Address(0)
  }

  lemma NextNameFails(s: State, page: int, t: State)
    requires Legal(FlatOf(s), NameFails(page)) && NameFailsNext(s, page, t)
    ensures Next(s, NameFails(page), t, Address(0))
  {}

  // ----- mapping and exit -----

  lemma SameArena(s: State, t: State, pid: int, n: nat)
    requires forall i | 0 <= i < n :: View(t, Virt(pid, i)) == View(s, Virt(pid, i))
    ensures ArenaOf(t, pid, n) == ArenaOf(s, pid, n)
  {}

  lemma AppendFlat(s: State, t: State, page: FlatPage)
    requires GrownTable(s, t) && t.curr == s.curr && |t.swap| == |s.swap| && t.disk.Keys == s.disk.Keys && Tables(s)
    requires forall o | o in s.entries && o.Virt? :: View(t, o) == View(s, o)
    requires forall fb | fb in s.disk :: FileView(t, fb) == FileView(s, fb)
    requires View(t, NextOwner(s)) == page
    ensures FlatOf(t) == Append(FlatOf(s), page).(reserved := t.total)
  {
    forall p | p in t.sizes
      ensures ArenaOf(t, p, t.sizes[p]) == ArenaOf(s, p, s.sizes[p]) + if p == s.curr then [page] else []
    {
      forall i | 0 <= i < s.sizes[p] ensures View(t, Virt(p, i)) == View(s, Virt(p, i)) {
        assert Virt(p, i) in s.entries;
      }
    }
    assert ArenaOf(t, s.curr, t.sizes[s.curr]) == ArenaOf(s, s.curr, s.sizes[s.curr]) + [page];
    assert FlatOf(s).Arena() == ArenaOf(s, s.curr, s.sizes[s.curr]);
    assert FlatOf(t).files == FlatOf(s).files;
    forall p | p in t.sizes ensures FlatOf(t).arenas[p] == Append(FlatOf(s), page).arenas[p] {
      if p != s.curr { assert ArenaOf(t, p, t.sizes[p]) == ArenaOf(s, p, s.sizes[p]); }
    }
    assert FlatOf(t).arenas == Append(FlatOf(s), page).arenas;
  }

  lemma MapSwapFlat(s: State)
    requires Inv(s) && s.curr in s.sizes
    ensures (FlatOf(MapSwap(s).0), Address(MapSwap(s).1)) == FlatMapPrivate(FlatOf(s))
  {
    var t := MapSwap(s).0;
    if t != s {
      forall fb | fb in s.disk ensures FileView(t, fb) == FileView(s, fb) {}
      AppendFlat(s, t, Private(ZeroPage()));
    }
  }

  lemma MapFileFlat(s: State, fb: FileBlock, peer: Owner)
    requires Inv(s) && s.curr in s.sizes && Peer(s, fb, peer)
    ensures FlatOf(MapFile(s, fb, peer).0) ==
      if Size(s) >= ARENA_PAGES then FlatOf(s) else Append(FlatOf(s), Shared(fb))
  {
    if Size(s) < ARENA_PAGES {
      var t := MapFile(s, fb, peer).0;
      MapFileTable(s, fb, peer, t);
      MapFileViews(s, fb, peer, t);
      AppendFlat(s, t, Shared(fb));
      assert t.total == s.total;
    }
  }

  lemma MapFileViews(s: State, fb: FileBlock, peer: Owner, t: State)
    requires Peer(s, fb, peer) && Size(s) < ARENA_PAGES && t == MapFile(s, fb, peer).0
    ensures forall c | c in s.disk :: FileView(t, c) == FileView(s, c)
    ensures View(t, NextOwner(s)) == Shared(fb) && t.curr == s.curr && t.swap == s.swap && t.disk == s.disk
    ensures forall o | o in s.entries && o.Virt? :: o == NextOwner(s) || View(t, o) == View(s, o)
  {
    forall c | c in s.disk ensures FileView(t, c) == FileView(s, c) {}
  }

  lemma {:induction false} ReleaseUpToRest(s: State, pid: int, n: nat)
    ensures var t := ReleaseUpTo(s, pid, n);
      && t.mem == s.mem && t.swapDisk == s.swapDisk && t.disk == s.disk && t.inMem == s.inMem && |t.swap| == |s.swap|
      && forall o :: o in t.entries ==> o in s.entries && t.entries[o] == s.entries[o]
  {
    if n > 0 { ReleaseUpToRest(s, pid, n - 1); }
  }

  /** Releasing a process gives its reservation back. */
  lemma {:induction false} ReleaseUpToTotal(s: State, pid: int, n: nat)
    requires forall i | 0 <= i < n :: Virt(pid, i) in s.entries
    ensures ReleaseUpTo(s, pid, n).total == s.total - CountPrivate(ArenaOf(s, pid, n))
  {
    if n > 0 {
      var m, o := ReleaseUpTo(s, pid, n - 1), Virt(pid, n - 1);
      ReleaseUpToTotal(s, pid, n - 1);
      ReleaseUpToEntries(s, pid, n - 1);
      ReleaseUpToRest(s, pid, n - 1);
      assert o in s.entries && m.entries[o] == s.entries[o];
      ArenaLast(s, pid, n);
      ReleaseTotal(m, o);
    }
  }

  lemma ArenaLast(s: State, pid: int, n: nat)
    requires n > 0
    ensures CountPrivate(ArenaOf(s, pid, n)) ==
      CountPrivate(ArenaOf(s, pid, n - 1)) + if View(s, Virt(pid, n - 1)).Private? then 1 else 0
  {
    assert ArenaOf(s, pid, n)[..n - 1] == ArenaOf(s, pid, n - 1);
  }

  lemma ReleaseTotal(m: State, o: Owner)
    requires o in m.entries
    ensures Release(m, o).total == m.total - if m.entries[o].swapBacked then 1 else 0
  {}

  lemma DestroyArenas(s: State, t: State)
    requires Tables(s) && t.sizes == s.sizes - {s.curr}
    requires forall o :: o in s.entries && o.Virt? && o.pid != s.curr ==> View(t, o) == View(s, o)
    ensures FlatOf(t).arenas == FlatOf(s).arenas - {s.curr}
  {
    forall p | p in t.sizes ensures ArenaOf(t, p, t.sizes[p]) == ArenaOf(s, p, s.sizes[p]) {
      forall i | 0 <= i < s.sizes[p] ensures View(t, Virt(p, i)) == View(s, Virt(p, i)) {
        assert Virt(p, i) in s.entries;
      }
      SameArena(s, t, p, s.sizes[p]);
    }
  }

  /** What the release of all pages of the current process leaves. */
  lemma DestroyRest(s: State, t: State)
    requires Tables(s) && s.curr in s.sizes && t == Destroy(s)
    ensures t.sizes == s.sizes - {s.curr} && t.inMem == s.inMem && t.disk == s.disk && t.mem == s.mem
    ensures |t.swap| == |s.swap| && t.curr == s.curr
    ensures t.total == s.total - CountPrivate(ArenaOf(s, s.curr, Size(s)))
    ensures forall o :: o in s.entries && o.Virt? && o.pid != s.curr ==> View(t, o) == View(s, o)
  {
    var n := Size(s);
    ReleaseUpToTotal(s, s.curr, n);
    ReleaseUpToEntries(s, s.curr, n);
    ReleaseUpToRest(s, s.curr, n);
  }

  lemma SameFiles(s: State, t: State)
    requires t.inMem == s.inMem && t.disk == s.disk && t.mem == s.mem
    ensures FlatOf(t).files == FlatOf(s).files
  {
    forall fb | fb in s.disk ensures FileView(t, fb) == FileView(s, fb) {}
  }

  lemma DestroyFlat(s: State)
    requires Inv(s) && s.curr in s.sizes
    ensures (FlatOf(Destroy(s)), Done) == FlatStep(FlatOf(s), Exit)
  {
    var t := Destroy(s);
    DestroyRest(s, t);
    DestroyArenas(s, t);
    SameFiles(s, t);
    assert FlatOf(s).Arena() == ArenaOf(s, s.curr, Size(s));
  }

  // ----- each step -----

  lemma AccessRefines(s: State, page: int, write: bool, t: State, ok: bool)
    requires Inv(s) && 0 <= page && Access(s, page, write, t, ok)
    ensures Inv(t) && FlatOf(t) == FlatOf(s) && (ok ==> Enabled(t, page, write))
    ensures s.curr in s.sizes ==> ok == Accessible(FlatOf(s), page)
  {
    if Enabled(s, page, write) {
      var o := Virt(s.curr, page);
      assert Bits(s, o, s.entries[o]);
      PeekFlat(s, page, 0);
    } else {
      var r :| FaultNext(s, page, write, t, r) && ok == (r == 0);
      var c :| (TakesFrame(s, page, write) ==> ValidPick(s, c)) && Fault(s, page, write, c) == (t, r);
      FaultRefines(s, page, write, c);
    }
  }

  lemma {:induction false} ReadsRefine(trace: seq<State>, n: nat)
    requires ReadSteps(trace) && Inv(trace[0]) && n < |trace|
    ensures Inv(trace[n]) && FlatOf(trace[n]) == FlatOf(trace[0])
  {
    if n > 0 {
      ReadsRefine(trace, n - 1);
      assert ReadStep(trace[n - 1], trace[n - 1 + 1]);
      ReadRefines(trace[n - 1], trace[n]);
    }
  }

  lemma ReadRefines(s: State, t: State)
    requires Inv(s) && ReadStep(s, t)
    ensures Inv(t) && FlatOf(t) == FlatOf(s)
  {
    var page, ok :| 0 <= page && Access(s, page, false, t, ok);
    AccessRefines(s, page, false, t, ok);
  }

  lemma MapNextRefines(m: State, fb: FileBlock, t: State, reply: Reply)
    requires Inv(m) && m.curr in m.sizes && BlockNumber(fb) && MapNext(m, fb, t, reply)
    ensures Inv(t)
    ensures (FlatOf(t), reply) == if Size(m) >= ARENA_PAGES then (FlatOf(m), Address(0))
      else (Append(FlatOf(m), Shared(fb)), Address(PageAddress(Size(m))))
  {
    var peer :| Peer(m, fb, peer) && MapFile(m, fb, peer).0 == t && reply == Address(MapFile(m, fb, peer).1);
    MapFileInv(m, fb, peer);
    MapFileFlat(m, fb, peer);
  }

  lemma NameReadRefines(s: State, m: State)
    requires Inv(s) && NameRead(s, m)
    ensures Inv(m) && FlatOf(m) == FlatOf(s)
  {
    var trace :| ReadSteps(trace) && trace[0] == s && trace[|trace| - 1] == m;
    ReadsRefine(trace, |trace| - 1);
  }

  lemma MapSharedRefines(s: State, name: int, block: int, t: State, reply: Reply)
    requires Inv(s) && s.curr in s.sizes && 0 <= block < MAX_BLOCK && MapSharedNext(s, name, block, t, reply)
    ensures Inv(t)
    ensures FlatMapShared(FlatOf(s), name, block) == (FlatOf(t), reply)
  {
    var m :| NameRead(s, m) &&
      match StringAt(FlatOf(s), name)
      case None => t == m && reply == Address(0)
      case Some(file) => MapNext(m, FileBlock(file, block), t, reply);
    NameReadRefines(s, m);
    FlatCurr(s, m);
    var name := StringAt(FlatOf(s), name);
    if name.Some? { MapNextRefines(m, FileBlock(name.value, block), t, reply); }
  }

  lemma FlatCurr(s: State, m: State)
    requires FlatOf(m) == FlatOf(s) && s.curr in s.sizes
    ensures m.curr == s.curr && m.curr in m.sizes && Size(m) == Size(s)
  {
    assert m.curr in FlatOf(m).arenas;
    assert FlatOf(m).arenas[m.curr] == FlatOf(s).arenas[s.curr];
  }

  lemma FileAppearsRefines(s: State, fb: FileBlock, data: Page, t: State)
    requires Inv(s) && fb !in s.disk && t == s.(disk := s.disk[fb := data])
    ensures Inv(t)
    ensures FlatOf(t) == FlatOf(s).(files := FlatOf(s).files[fb := data])
  {
    PokeLike(s, t);
    forall p | p in t.entries ensures Clean(t, t.entries[p]) { assert Clean(s, s.entries[p]); }
    FileAppearsFlat(s, fb, data, t);
  }

  lemma FileAppearsFlat(s: State, fb: FileBlock, data: Page, t: State)
    requires BlocksOk(s) && fb !in s.disk && t == s.(disk := s.disk[fb := data])
    ensures FlatOf(t) == FlatOf(s).(files := FlatOf(s).files[fb := data])
  {
    forall p | p in s.sizes ensures ArenaOf(t, p, t.sizes[p]) == ArenaOf(s, p, s.sizes[p]) {
      forall i | 0 <= i < s.sizes[p] ensures View(t, Virt(p, i)) == View(s, Virt(p, i)) {}
    }
    assert FlatOf(t).arenas == FlatOf(s).arenas;
    assert FlatOf(t).files == FlatOf(s).files[fb := data];
  }

  lemma PokeLike(s: State, t: State)
    requires Inv(s) && t == s.(disk := t.disk) && s.disk.Keys <= t.disk.Keys
    ensures FramesOk(t) && PlacesOk(t) && BitsOk(t) && BlocksOk(t) && SwapOk(t) && Tables(t)
  {
    forall at ensures Owners(t, at) == Owners(s, at) {}
    forall o | o in t.entries ensures Bits(t, o, t.entries[o]) { assert Bits(s, o, s.entries[o]); }
    forall fb | fb in t.seen ensures SelfOf(t, fb) { assert SelfOf(s, fb); }
    forall fb | fb in t.inMem ensures OneBlock(t, Owners(t, InFrame(t.inMem[fb])), fb) {
      assert OneBlock(s, Owners(s, InFrame(s.inMem[fb])), fb);
    }
    SwapKept(s, t);
  }

  lemma LoadRefines(s: State, addr: nat, t: State, reply: Reply)
    requires Inv(s) && s.curr in s.sizes && InArena(addr) && LoadNext(s, addr, t, reply)
    ensures Inv(t) && FlatStep(FlatOf(s), Load(addr)) == (FlatOf(t), reply)
  {
    AddressSplit(addr);
    var page := VirtualPage(addr);
    var ok :| Access(s, page, false, t, ok) && reply == if ok then Byte(Peek(t, page, PageOffset(addr))) else Segfault;
    AccessRefines(s, page, false, t, ok);
    if ok { PeekFlat(t, page, PageOffset(addr)); }
  }

  /** Room may have been made; nobody notices. */
  lemma FailedReadRefines(s: State, page: int, t: State)
    requires Inv(s) && FailedRead(s, page, t)
    ensures Inv(t) && FlatOf(t) == FlatOf(s)
  {
    var c: Pick :| ValidPick(s, c) && MakeRoom(s, c) == t;
    MakeRoomSpec(s, c, t);
  }

  lemma NameFailsRefines(s: State, page: int, t: State)
    requires Inv(s) && NameFailsNext(s, page, t)
    ensures Inv(t) && FlatOf(t) == FlatOf(s)
  {
    var m :| NameRead(s, m) && FailedRead(m, page, t);
    NameReadRefines(s, m);
    FailedReadRefines(m, page, t);
  }

  lemma StoreFlat(m: State, addr: nat, v: char, t: State)
    requires Inv(m) && m.curr in m.sizes && InArena(addr) && WriteEnabled(m, VirtualPage(addr))
    requires t == Poke(m, VirtualPage(addr), PageOffset(addr), v)
    ensures Inv(t)
    ensures FlatStep(FlatOf(m), Store(addr, v)) == (FlatOf(t), Done)
  {
    AddressSplit(addr);
    PokeInv(m, VirtualPage(addr), PageOffset(addr), v);
    PokeFlat(m, VirtualPage(addr), PageOffset(addr), v);
  }

  lemma StoreRefines(s: State, addr: nat, v: char, t: State, reply: Reply)
    requires Inv(s) && s.curr in s.sizes && InArena(addr) && StoreNext(s, addr, v, t, reply)
    ensures Inv(t)
    ensures FlatStep(FlatOf(s), Store(addr, v)) == (FlatOf(t), reply)
  {
    var page := VirtualPage(addr);
    var m, ok :| Access(s, page, true, m, ok) &&
      if ok then t == Poke(m, page, PageOffset(addr), v) && reply == Done else t == m && reply == Segfault;
    AddressSplit(addr);
    AccessRefines(s, page, true, m, ok);
    FlatCurr(s, m);
    if ok { StoreFlat(m, addr, v, t); }
  }

  lemma CreateFlat(s: State, pid: int)
    requires Inv(s) && pid !in s.sizes
    ensures FlatOf(Create(s, pid)) == FlatOf(s).(arenas := FlatOf(s).arenas[pid := []])
  {
    var t := Create(s, pid);
    forall p | p in s.sizes ensures ArenaOf(t, p, s.sizes[p]) == ArenaOf(s, p, s.sizes[p]) {
      forall i | 0 <= i < s.sizes[p] ensures View(t, Virt(p, i)) == View(s, Virt(p, i)) {}
    }
    SameFiles(s, t);
    assert FlatOf(t).arenas == FlatOf(s).arenas[pid := []];
  }

  lemma SwitchFlat(s: State, pid: int)
    ensures FlatOf(Switch(s, pid)) == FlatOf(s).(curr := pid)
  {
    var t := Switch(s, pid);
    forall p | p in s.sizes ensures ArenaOf(t, p, s.sizes[p]) == ArenaOf(s, p, s.sizes[p]) {
      forall i | 0 <= i < s.sizes[p] ensures View(t, Virt(p, i)) == View(s, Virt(p, i)) {}
    }
    SameFiles(s, t);
    assert FlatOf(t).arenas == FlatOf(s).arenas;
  }

  /** Every step of the pager is the same step of the flat machine, with the same reply. */
  lemma StepRefines(s: State, ev: Event, t: State, reply: Reply)
    requires Inv(s) && Legal(FlatOf(s), ev) && Next(s, ev, t, reply)
    ensures Inv(t) && FlatStep(FlatOf(s), ev) == (FlatOf(t), reply)
  {
    match ev
    case CreateProcess(pid) => CreateInv(s, pid); CreateFlat(s, pid);
    case SwitchTo(pid) => SwitchInv(s, pid); SwitchFlat(s, pid);
    case Exit => DestroyInv(s); DestroyFlat(s);
    case MapPrivate => MapSwapInv(s); MapSwapFlat(s);
    case MapShared(name, block) => MapSharedRefines(s, name, block, t, reply);
    case Load(addr) => LoadRefines(s, addr, t, reply);
    case Store(addr, v) => StoreRefines(s, addr, v, t, reply);
    case FileAppears(fb, data) => FileAppearsRefines(s, fb, data, t);
    case ReadFails(page) => FailedReadRefines(s, page, t);
    case NameFails(page) => NameFailsRefines(s, page, t);
  }

  ghost predicate StepAt(states: seq<State>, evs: seq<Event>, replies: seq<Reply>, i: int)
    requires 0 <= i < |evs| == |replies| && |states| == |evs| + 1
  {
    Legal(FlatOf(states[i]), evs[i]) && Next(states[i], evs[i], states[i + 1], replies[i])
  }

  ghost predicate Run(states: seq<State>, evs: seq<Event>, replies: seq<Reply>) {
    && |states| == |evs| + 1 && |replies| == |evs|
    && forall i | 0 <= i < |evs| :: StepAt(states, evs, replies, i)
  }

  lemma RunTail(states: seq<State>, evs: seq<Event>, replies: seq<Reply>)
    requires Run(states, evs, replies) && evs != []
    ensures StepAt(states, evs, replies, 0) && Run(states[1..], evs[1..], replies[1..])
  {
    forall i | 0 <= i < |evs| - 1 ensures StepAt(states[1..], evs[1..], replies[1..], i) {
      assert StepAt(states, evs, replies, i + 1);
    }
  }

  lemma FirstStep(states: seq<State>, evs: seq<Event>, replies: seq<Reply>)
    requires Run(states, evs, replies) && evs != [] && Inv(states[0])
    ensures Inv(states[1]) && Legal(FlatOf(states[0]), evs[0])
    ensures FlatStep(FlatOf(states[0]), evs[0]) == (FlatOf(states[1]), replies[0])
  {
    assert StepAt(states, evs, replies, 0);
    StepRefines(states[0], evs[0], states[1], replies[0]);
  }

  lemma FlatFirst(f: Flat, evs: seq<Event>, g: Flat, r: Reply, h: Flat, rs: seq<Reply>)
    requires evs != [] && Legal(f, evs[0]) && FlatStep(f, evs[0]) == (g, r)
    requires LegalRun(g, evs[1..]) && FlatRun(g, evs[1..]) == (h, rs)
    ensures LegalRun(f, evs) && FlatRun(f, evs) == (h, [r] + rs)
  {}

  /** Flat memory, over every run from any state that satisfies the invariant. */
  lemma {:induction false} RunRefines(states: seq<State>, evs: seq<Event>, replies: seq<Reply>)
    requires Run(states, evs, replies) && Inv(states[0])
    ensures Inv(states[|evs|]) && LegalRun(FlatOf(states[0]), evs)
    ensures FlatRun(FlatOf(states[0]), evs) == (FlatOf(states[|evs|]), replies)
    decreases |evs|
  {
    if evs != [] {
      var tail, more := states[1..], evs[1..];
      assert tail[0] == states[1] && tail[|more|] == states[|evs|] && replies == [replies[0]] + replies[1..];
      FirstStep(states, evs, replies);
      RunTail(states, evs, replies);
      RunRefines(tail, more, replies[1..]);
      FlatFirst(FlatOf(states[0]), evs, FlatOf(tail[0]), replies[0], FlatOf(tail[|more|]), replies[1..]);
    }
  }

  /** In particular from the state vm_init leaves: no process, no page. */
  lemma PagerIsFlatMemory(frames: nat, swapBlocks: nat, mem: seq<Page>, swapDisk: seq<Page>, disk: map<FileBlock, Page>,
                          curr: int, states: seq<State>, evs: seq<Event>, replies: seq<Reply>)
    requires 2 <= frames <= MAX_FRAMES && |mem| == frames && |swapDisk| == swapBlocks
    requires Run(states, evs, replies) && states[0] == Init(frames, swapBlocks, mem, swapDisk, disk, curr)
    ensures Inv(states[|evs|])
    ensures var start := Flat(map[], disk, 0, swapBlocks, curr);
      LegalRun(start, evs) && FlatRun(start, evs) == (FlatOf(states[|evs|]), replies)
  {
    InitInv(frames, swapBlocks, mem, swapDisk, disk, curr);
    assert FlatOf(states[0]).files == disk;
    assert FlatOf(states[0]).arenas == map[];
    RunRefines(states, evs, replies);
  }

  // ----- reading a C string -----

  function Prepend(p: string, r: Option<string>): Option<string> {
    match r
    case None => None
    case Some(rest) => Some(p + rest)
  }

  lemma PageBytes(f: Flat, page: int, off: int)
    requires 0 <= page && 0 <= off < VM_PAGESIZE
    ensures PageOf(PageAddress(page) + off) == page
    ensures ByteAt(f, PageAddress(page) + off) == if Accessible(f, page) then Some(Contents(f, page)[off]) else None
  {
    assert (page * 4096 + off) / 4096 == page;
    assert (page * 4096 + off) % 4096 == off;
  }

  /** One more character of the string, or its end. */
  lemma StringStep(f: Flat, addr: int, prefix: string, c: char)
    requires ByteAt(f, addr) == Some(c)
    ensures c == '\0' ==> Prepend(prefix, StringAt(f, addr)) == Some(prefix)
    ensures c != '\0' ==> Prepend(prefix, StringAt(f, addr)) == Prepend(prefix + [c], StringAt(f, addr + 1))
  {
    assert prefix + "" == prefix;
    if c != '\0' && StringAt(f, addr + 1).Some? {
      assert prefix + ([c] + StringAt(f, addr + 1).value) == prefix + [c] + StringAt(f, addr + 1).value;
    }
  }

  lemma PrependNothing(r: Option<string>)
    ensures Prepend("", r) == r
  {
    if r.Some? { assert "" + r.value == r.value; }
  }

  lemma NoString(f: Flat, page: int, off: int, at: int)
    requires 0 <= page && 0 <= off < VM_PAGESIZE && at == PageAddress(page) + off
    ensures !Accessible(f, page) ==> StringAt(f, at) == None
  {
    PageBytes(f, page, off);
  }

  lemma NameReadExtend(trace: seq<State>, t: State)
    requires ReadSteps(trace) && ReadStep(trace[|trace| - 1], t)
    ensures ReadSteps(trace + [t])
  {
    forall i | 0 <= i < |trace| ensures ReadStep((trace + [t])[i], (trace + [t])[i + 1]) {
      if i < |trace| - 1 { assert ReadStep(trace[i], trace[i + 1]); }
    }
  }

  lemma NameReadStart(s: State)
    ensures NameRead(s, s)
  {
    assert ReadSteps([s]);
  }

  lemma NameReadMore(s: State, m: State, t: State)
    requires NameRead(s, m) && ReadStep(m, t)
    ensures NameRead(s, t)
  {
    var trace :| ReadSteps(trace) && trace[0] == s && trace[|trace| - 1] == m;
    NameReadExtend(trace, t);
    assert (trace + [t])[0] == s && (trace + [t])[|trace|] == t;
  }
}
