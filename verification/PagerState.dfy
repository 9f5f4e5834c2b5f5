/** The demand pager as a state machine: the pager's tables, the transitions the code performs on
    them, and the two helper algorithms (the second-chance sweep and the reading of a C string)
    as pure functions. A choice the code makes by taking the first element of an unordered set is
    a parameter of the transition (a `Pick`). */
module PagerState {
  const VM_PAGESIZE: nat := 4096
  const VM_ARENA_BASEADDR: nat := 0x6_0000_0000
  const VM_ARENA_SIZE: nat := 0x0100_0000
  const ARENA_PAGES: nat := 4096
  const MAX_FRAMES: nat := 0x10_0000   // the ppage field of a page table entry has 20 bits
  const MAX_BLOCK: nat := 0x7FFF_FFFF  // block numbers are stored in an int whose -1 means "none"

  type Page = p: seq<char> | |p| == VM_PAGESIZE witness seq(VM_PAGESIZE, _ => '\0')
  function ZeroPage(): Page { seq(VM_PAGESIZE, _ => '\0') }

  datatype FileBlock = FileBlock(file: string, block: int)

  /** The identity of an OS page table entry: page `page` of process `pid`, or the permanent entry
      that vm_map allocates the first time it meets a file block. */
  datatype Owner = Virt(pid: int, page: int) | SelfOwner(fb: FileBlock)

  /** An OS page entry together with the infrastructure page table entry it points to. */
  datatype Entry = Entry(
    dirty: bool, referenced: bool, resident: bool, swapBacked: bool,
    index: int, file: string,
    ppage: int, readEnable: bool, writeEnable: bool)
  {
    function Block(): FileBlock { FileBlock(file, index) }
  }

  datatype State = State(
    clock: seq<int>,
    phys: seq<set<Owner>>,                // physical_memory: owner set of every frame
    swap: seq<set<Owner>>,                // swap_blocks: owner set of every swap block
    files: map<FileBlock, set<Owner>>,    // file_blocks: an absent key is an empty owner set
    entries: map<Owner, Entry>,
    sizes: map<int, nat>,                 // live processes, with the length of their page tables
    freeFrames: set<int>,
    freeSwap: set<int>,
    inMem: map<FileBlock, int>,           // file_blocks_in_physmem
    seen: set<FileBlock>,                 // file_blocks_seen
    total: int,                           // total_swapbacked_pages
    curr: int,
    mem: seq<Page>,                       // vm_physmem
    swapDisk: seq<Page>,                  // contents of the swap file
    disk: map<FileBlock, Page>)           // contents of the file blocks that can be accessed
  {
    function Pinned(): int { |phys| - 1 }
  }

  // ----- total access to sequences and owner sets -----

  function Get<T>(xs: seq<T>, i: int, d: T): T { if 0 <= i < |xs| then xs[i] else d }

  function Put<T>(xs: seq<T>, i: int, v: T): (ys: seq<T>)
    ensures |ys| == |xs|
    ensures forall k | 0 <= k < |xs| :: ys[k] == if k == i then v else xs[k]
  {
    if 0 <= i < |xs| then xs[i := v] else xs
  }

  function PageAt(pages: seq<Page>, i: int): Page { if 0 <= i < |pages| then pages[i] else ZeroPage() }

  function Rest<T>(xs: seq<T>): seq<T> { if xs == [] then [] else xs[1..] }

  function OnDisk(s: State, fb: FileBlock): set<Owner> { if fb in s.files then s.files[fb] else {} }

  function Without(xs: seq<int>, x: int): seq<int> {
    if xs == [] then [] else if xs[0] == x then xs[1..] else [xs[0]] + Without(xs[1..], x)
  }

  function UpTo(n: nat): (r: set<int>)
    ensures forall i :: i in r <==> 0 <= i < n
  {
    if n == 0 then {} else UpTo(n - 1) + {n - 1}
  }

  // ----- addresses (uintptr_t arithmetic, truncated to unsigned) -----

  function VirtualPage(addr: nat): int { ((addr - VM_ARENA_BASEADDR) % 0x1_0000_0000) / 4096 }

  function PageOffset(addr: nat): int { (addr - VM_ARENA_BASEADDR) % 4096 }

  predicate InArena(addr: nat) { VM_ARENA_BASEADDR <= addr < VM_ARENA_BASEADDR + VM_ARENA_SIZE }

  function PageAddress(page: int): int { VM_ARENA_BASEADDR + page * 4096 }

  lemma AddressSplit(addr: nat)
    requires InArena(addr)
    ensures 0 <= VirtualPage(addr) < ARENA_PAGES && 0 <= PageOffset(addr) < VM_PAGESIZE
    ensures PageAddress(VirtualPage(addr)) + PageOffset(addr) == addr
    ensures VirtualPage(addr) == (addr - VM_ARENA_BASEADDR) / 4096
  {
    assert (addr - VM_ARENA_BASEADDR) % 0x1_0000_0000 == addr - VM_ARENA_BASEADDR;
  }

  // ----- vm_init, vm_create, vm_switch -----

  function Init(frames: nat, swapBlocks: nat, mem: seq<Page>, swapDisk: seq<Page>, disk: map<FileBlock, Page>,
                curr: int): State
    requires 2 <= frames
  {
    State([], seq(frames, _ => {}), seq(swapBlocks, _ => {}), map[], map[], map[],
          UpTo(frames - 1), UpTo(swapBlocks), map[], {}, 0, curr,
          Put(mem, frames - 1, ZeroPage()), swapDisk, disk)
  }

  function Create(s: State, pid: int): State { s.(sizes := s.sizes[pid := 0]) }

  function Switch(s: State, pid: int): State { s.(curr := pid) }

  // ----- entry updates -----

  function Touched(e: Entry, write: bool): Entry {
    e.(dirty := e.dirty || write, referenced := true, readEnable := true, writeEnable := e.dirty || write)
  }

  function Aged(e: Entry): Entry { e.(referenced := false, readEnable := false, writeEnable := false) }

  function Expelled(e: Entry, home: int): Entry {
    e.(dirty := false, resident := false, index := if e.swapBacked then home else e.index)
  }

  function Loaded(e: Entry, frame: int, write: bool): Entry {
    e.(dirty := e.dirty || write, referenced := true, resident := true, ppage := frame,
       readEnable := true, writeEnable := e.dirty || write)
  }

  // The code applies each update to every entry of an owner set.

  function TouchAll(m: map<Owner, Entry>, os: set<Owner>, write: bool): (r: map<Owner, Entry>)
    ensures r.Keys == m.Keys
    ensures forall o | o in m :: r[o] == if o in os then Touched(m[o], write) else m[o]
  {
    map o | o in m :: if o in os then Touched(m[o], write) else m[o]
  }

  function AgeAll(m: map<Owner, Entry>, os: set<Owner>): (r: map<Owner, Entry>)
    ensures r.Keys == m.Keys
    ensures forall o | o in m :: r[o] == if o in os then Aged(m[o]) else m[o]
  {
    map o | o in m :: if o in os then Aged(m[o]) else m[o]
  }

  function ExpelAll(m: map<Owner, Entry>, os: set<Owner>, home: int): (r: map<Owner, Entry>)
    ensures r.Keys == m.Keys
    ensures forall o | o in m :: r[o] == if o in os then Expelled(m[o], home) else m[o]
  {
    map o | o in m :: if o in os then Expelled(m[o], home) else m[o]
  }

  function LoadAll(m: map<Owner, Entry>, os: set<Owner>, frame: int, write: bool): (r: map<Owner, Entry>)
    ensures r.Keys == m.Keys
    ensures forall o | o in m :: r[o] == if o in os then Loaded(m[o], frame, write) else m[o]
  {
    map o | o in m :: if o in os then Loaded(m[o], frame, write) else m[o]
  }

  // ----- page transitions -----

  /** A fault on a resident page: all owners of frame `f` become referenced, and dirty on a write. */
  function Touch(s: State, f: int, write: bool): State {
    s.(entries := TouchAll(s.entries, Get(s.phys, f, {}), write))
  }

  /** One turn of the clock: the front frame loses its reference and goes to the back. */
  function Tick(s: State): State {
    if s.clock == [] then s else
      s.(entries := AgeAll(s.entries, Get(s.phys, s.clock[0], {})),
         clock := s.clock[1..] + [s.clock[0]])
  }

  function Ticks(s: State, n: nat): State { if n == 0 then s else Tick(Ticks(s, n - 1)) }

  ghost predicate ReferencedFrame(s: State, f: int) {
    exists o :: o in Get(s.phys, f, {}) && o in s.entries && s.entries[o].referenced
  }

  /** The position in the clock of the first unreferenced frame, or its length if there is none. */
  ghost function FirstUnreferenced(s: State, clock: seq<int>): (k: nat)
    ensures k <= |clock|
    ensures forall i | 0 <= i < k :: ReferencedFrame(s, clock[i])
    ensures k < |clock| ==> !ReferencedFrame(s, clock[k])
  {
    if clock == [] || !ReferencedFrame(s, clock[0]) then 0 else 1 + FirstUnreferenced(s, clock[1..])
  }

  ghost function Sweep(s: State): State { Ticks(s, FirstUnreferenced(s, s.clock)) }

  /** The front frame of the clock leaves memory. `o` is the owner the code looks at and `b` the free
      swap block it takes when the page never had one. */
  function Expel(s: State, o: Owner, b: int): State {
    if s.clock == [] || o !in s.entries then s
    else if !s.entries[o].swapBacked then ExpelFile(s, s.clock[0], s.entries[o])
    else ExpelSwap(s, s.clock[0], s.entries[o], if s.entries[o].index == -1 then b else s.entries[o].index)
  }

  predicate MustWrite(e: Entry) { e.dirty || e.index == -1 }

  function ExpelSwap(s: State, f: int, e: Entry, home: int): State {
    s.(clock := Rest(s.clock),
       phys := Put(s.phys, f, {}),
       swap := Put(s.swap, home, Get(s.phys, f, {})),
       swapDisk := if MustWrite(e) then Put(s.swapDisk, home, PageAt(s.mem, f)) else s.swapDisk,
       freeFrames := s.freeFrames + {f},
       freeSwap := if e.index == -1 then s.freeSwap - {home} else s.freeSwap,
       entries := ExpelAll(s.entries, Get(s.phys, f, {}), home))
  }

  function ExpelFile(s: State, f: int, e: Entry): State {
    s.(clock := Rest(s.clock),
       phys := Put(s.phys, f, {}),
       files := s.files[e.Block() := Get(s.phys, f, {})],
       disk := if MustWrite(e) then s.disk[e.Block() := PageAt(s.mem, f)] else s.disk,
       inMem := s.inMem - {e.Block()},
       freeFrames := s.freeFrames + {f},
       entries := ExpelAll(s.entries, Get(s.phys, f, {}), e.index))
  }

  /** The first write to a page that still shares the pinned zero page. */
  function CopyZero(s: State, o: Owner, f: int): State {
    if o !in s.entries then s else
      s.(mem := Put(s.mem, f, PageAt(s.mem, s.Pinned())),
         freeFrames := s.freeFrames - {f},
         clock := s.clock + [f],
         phys := Put(Put(s.phys, s.Pinned(), Get(s.phys, s.Pinned(), {}) - {o}), f, {o}),
         entries := s.entries[o := s.entries[o].(ppage := f, writeEnable := true)])
  }

  function SwapIn(s: State, o: Owner, f: int, write: bool): State {
    if o !in s.entries then s else
      var b := s.entries[o].index;
      s.(mem := Put(s.mem, f, PageAt(s.swapDisk, b)),
         freeFrames := s.freeFrames - {f},
         clock := s.clock + [f],
         phys := Put(s.phys, f, Get(s.swap, b, {})),
         swap := Put(s.swap, b, {}),
         entries := s.entries[o := Loaded(s.entries[o], f, write)])
  }

  function FileIn(s: State, fb: FileBlock, f: int, write: bool): State {
    s.(mem := Put(s.mem, f, if fb in s.disk then s.disk[fb] else ZeroPage()),
       freeFrames := s.freeFrames - {f},
       clock := s.clock + [f],
       phys := Put(s.phys, f, OnDisk(s, fb)),
       files := s.files[fb := {}],
       inMem := s.inMem[fb := f],
       entries := LoadAll(s.entries, OnDisk(s, fb), f, write))
  }

  // ----- vm_fault -----

  /** What the code picks from its unordered sets: the owner it inspects, a free swap block, a free frame. */
  datatype Pick = Pick(owner: Owner, block: int, frame: int)

  ghost function MakeRoom(s: State, c: Pick): State {
    if s.freeFrames == {} then Expel(Sweep(s), c.owner, c.block) else s
  }

  ghost predicate ValidPick(s: State, c: Pick) {
    var t := Sweep(s);
    && (s.freeFrames == {} ==>
         && t.clock != []
         && c.owner in Get(t.phys, t.clock[0], {})
         && c.owner in t.entries
         && (t.entries[c.owner].swapBacked && t.entries[c.owner].index == -1 ==> c.block in t.freeSwap))
    && c.frame in MakeRoom(s, c).freeFrames
  }

  function Size(s: State): nat { if s.curr in s.sizes then s.sizes[s.curr] else 0 }

  ghost function Fault(s: State, page: int, write: bool, c: Pick): (State, int) {
    var o := Virt(s.curr, page);
    if page >= Size(s) || o !in s.entries then (s, -1) else
      var e := s.entries[o];
      if e.resident && !e.referenced then (Touch(s, e.ppage, write), 0)
      else if e.resident && e.referenced && !e.dirty && write then (Touch(s, e.ppage, true), 0)
      else if e.swapBacked then
        if e.dirty && e.referenced && e.resident && e.readEnable then (CopyZero(MakeRoom(s, c), o, c.frame), 0)
        else if !e.resident then (SwapIn(MakeRoom(s, c), o, c.frame, write), 0)
        else (s, 0)
      else
        var t := MakeRoom(s, c);
        if e.Block() in t.disk then (FileIn(t, e.Block(), c.frame, write), 0) else (t, -1)
  }

  // ----- vm_map -----

  function MapSwap(s: State): (State, int) {
    var n := Size(s);
    if s.total >= |s.swap| || n >= ARENA_PAGES then (s, 0) else
      var o := Virt(s.curr, n);
      (s.(total := s.total + 1,
          entries := s.entries[o := Entry(true, true, true, true, -1, "", s.Pinned(), true, false)],
          sizes := s.sizes[s.curr := n + 1],
          phys := Put(s.phys, s.Pinned(), Get(s.phys, s.Pinned(), {}) + {o})), PageAddress(n))
  }

  function NewFileEntry(fb: FileBlock): Entry { Entry(false, false, false, false, fb.block, fb.file, 0, false, false) }

  /** vm_map of a block that is not in memory; the first time, the block gets its permanent owner. */
  function MapCold(s: State, o: Owner, fb: FileBlock): State {
    JoinCold(if fb in s.seen then s else MapSelf(s, fb), o, fb)
  }

  function JoinCold(s: State, o: Owner, fb: FileBlock): State {
    s.(entries := s.entries[o := NewFileEntry(fb)], files := s.files[fb := OnDisk(s, fb) + {o}])
  }

  function MapSelf(s: State, fb: FileBlock): State {
    s.(entries := s.entries[SelfOwner(fb) := NewFileEntry(fb)],
       seen := s.seen + {fb},
       files := s.files[fb := OnDisk(s, fb) + {SelfOwner(fb)}])
  }

  /** vm_map of a block that is in memory: the new entry copies the bits of the owner `peer`. */
  function MapHot(s: State, o: Owner, fb: FileBlock, peer: Owner): State {
    if fb !in s.inMem || peer !in s.entries then s else
      var p := s.entries[peer];
      s.(entries := s.entries[o := Entry(p.dirty, p.referenced, p.resident, false, fb.block, fb.file,
                                         s.inMem[fb], p.readEnable, p.writeEnable)],
         phys := Put(s.phys, s.inMem[fb], Get(s.phys, s.inMem[fb], {}) + {o}))
  }

  /** vm_map for a file block, after the name has been read. Returns the null address 0 on failure. */
  function MapFile(s: State, fb: FileBlock, peer: Owner): (State, int) {
    var n := Size(s);
    if n >= ARENA_PAGES then (s, 0) else
      var t := s.(sizes := s.sizes[s.curr := n + 1]);
      var o := Virt(s.curr, n);
      (if fb in s.inMem then MapHot(t, o, fb, peer) else MapCold(t, o, fb), PageAddress(n))
  }

  // ----- vm_destroy -----

  function ReleaseSwap(s: State, o: Owner, e: Entry): State {
    s.(entries := s.entries - {o},
       swap := if e.index == -1 then s.swap else Put(s.swap, e.index, {}),
       freeSwap := if e.index == -1 then s.freeSwap else s.freeSwap + {e.index},
       phys := if !e.resident then s.phys
               else Put(s.phys, e.ppage, if e.ppage == s.Pinned() then Get(s.phys, e.ppage, {}) - {o} else {}),
       freeFrames := if !e.resident || e.ppage == s.Pinned() then s.freeFrames else s.freeFrames + {e.ppage},
       clock := if !e.resident || e.ppage == s.Pinned() then s.clock else Without(s.clock, e.ppage),
       total := s.total - 1)
  }

  function ReleaseFile(s: State, o: Owner, e: Entry): State {
    if e.Block() in s.inMem then
      s.(entries := s.entries - {o}, phys := Put(s.phys, e.ppage, Get(s.phys, e.ppage, {}) - {o}))
    else
      s.(entries := s.entries - {o}, files := s.files[e.Block() := OnDisk(s, e.Block()) - {o}])
  }

  function Release(s: State, o: Owner): State {
    if o !in s.entries then s
    else if s.entries[o].swapBacked then ReleaseSwap(s, o, s.entries[o])
    else ReleaseFile(s, o, s.entries[o])
  }

  function ReleaseUpTo(s: State, pid: int, n: nat): State {
    if n == 0 then s else Release(ReleaseUpTo(s, pid, n - 1), Virt(pid, n - 1))
  }

  function Destroy(s: State): State {
    var t := ReleaseUpTo(s, s.curr, Size(s));
    t.(sizes := t.sizes - {s.curr})
  }

  // ----- the processor's view -----

  function ReadEnabled(s: State, page: int): bool {
    Virt(s.curr, page) in s.entries && s.entries[Virt(s.curr, page)].readEnable
  }

  function WriteEnabled(s: State, page: int): bool {
    Virt(s.curr, page) in s.entries && s.entries[Virt(s.curr, page)].writeEnable
  }

  function Enabled(s: State, page: int, write: bool): bool {
    if write then WriteEnabled(s, page) else ReadEnabled(s, page)
  }

  function Frame(s: State, page: int): int {
    if Virt(s.curr, page) in s.entries then s.entries[Virt(s.curr, page)].ppage else 0
  }

  function Peek(s: State, page: int, off: int): char {
    Get(PageAt(s.mem, Frame(s, page)), off, '\0')
  }

  function Poke(s: State, page: int, off: int, v: char): State {
    s.(mem := Put(s.mem, Frame(s, page), Put(PageAt(s.mem, Frame(s, page)), off, v)))
  }
}
