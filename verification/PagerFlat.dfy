/** The memory a user is promised: flat arenas of private zero-filled pages and of pages shared
    through (file, block). No frames, swap, faults or eviction. */
module PagerFlat {
  import opened Wrappers
  import opened PagerState

  datatype FlatPage = Private(data: Page) | Shared(fb: FileBlock)

  datatype Flat = Flat(
    arenas: map<int, seq<FlatPage>>,
    files: map<FileBlock, Page>,     // the accessible file blocks
    reserved: int, limit: nat,       // private pages mapped, and how many the swap file has room for
    curr: int)
  {
    function Arena(): seq<FlatPage> { if curr in arenas then arenas[curr] else [] }
  }

  /** Page `page` of the current arena can be used: it is mapped and its file block can be accessed. */
  predicate Accessible(f: Flat, page: int) {
    0 <= page < |f.Arena()| && (f.Arena()[page].Shared? ==> f.Arena()[page].fb in f.files)
  }

  function Contents(f: Flat, page: int): Page
    requires Accessible(f, page)
  {
    match f.Arena()[page]
    case Private(data) => data
    case Shared(fb) => f.files[fb]
  }

  function Write(f: Flat, page: int, off: int, v: char): Flat
    requires Accessible(f, page)
  {
    match f.Arena()[page]
    case Private(data) => f.(arenas := f.arenas[f.curr := f.Arena()[page := Private(Put(data, off, v))]])
    case Shared(fb) => f.(files := f.files[fb := Put(f.files[fb], off, v)])
  }

  function PageOf(addr: int): int { (addr - VM_ARENA_BASEADDR) / 4096 }

  function ByteAt(f: Flat, addr: int): Option<char> {
    if addr < VM_ARENA_BASEADDR || !Accessible(f, PageOf(addr)) then None
    else Some(Contents(f, PageOf(addr))[(addr - VM_ARENA_BASEADDR) % 4096])
  }

  /** The NUL-terminated string at `addr`, if every byte of it can be read. */
  function StringAt(f: Flat, addr: int): Option<string>
    decreases PageAddress(|f.Arena()|) - addr
  {
    match ByteAt(f, addr)
    case None => None
    case Some(c) =>
      if c == '\0' then Some("") else
        match StringAt(f, addr + 1)
        case None => None
        case Some(rest) => Some([c] + rest)
  }

  function CountPrivate(pages: seq<FlatPage>): nat {
    if pages == [] then 0 else CountPrivate(pages[..|pages| - 1]) + if pages[|pages| - 1].Private? then 1 else 0
  }

  // ----- the machine -----

  datatype Event =
    | CreateProcess(pid: int)
    | SwitchTo(pid: int)
    | Exit
    | MapPrivate
    | MapShared(name: int, block: int)   // the address of the file name, and the block number
    | Load(addr: int)
    | Store(addr: int, v: char)
    | FileAppears(fb: FileBlock, data: Page)
    | ReadFails(page: int)               // an access to a page of a file for which file_read fails
    | NameFails(page: int)               // the same, while vm_map reads the name of a file

  datatype Reply = Done | Address(addr: int) | Byte(c: char) | Segfault

  /** What the kernel and the processor guarantee before they call the pager. */
  predicate Legal(f: Flat, ev: Event) {
    match ev
    case CreateProcess(pid) => pid !in f.arenas
    case SwitchTo(pid) => pid in f.arenas
    case Exit => f.curr in f.arenas
    case MapPrivate => f.curr in f.arenas
    case MapShared(name, block) => f.curr in f.arenas && 0 <= block < MAX_BLOCK && 0 <= name
    case Load(addr) => f.curr in f.arenas && 0 <= addr && InArena(addr)
    case Store(addr, v) => f.curr in f.arenas && 0 <= addr && InArena(addr)
    case FileAppears(fb, data) => fb !in f.files
    case ReadFails(page) => IsShared(f, page)
    case NameFails(page) => IsShared(f, page)
  }

  predicate IsShared(f: Flat, page: int) { 0 <= page < |f.Arena()| && f.Arena()[page].Shared? }

  function Append(f: Flat, p: FlatPage): Flat { f.(arenas := f.arenas[f.curr := f.Arena() + [p]]) }

  function FlatStep(f: Flat, ev: Event): (Flat, Reply)
    requires Legal(f, ev)
  {
    match ev
    case CreateProcess(pid) => (f.(arenas := f.arenas[pid := []]), Done)
    case SwitchTo(pid) => (f.(curr := pid), Done)
    case Exit => (f.(arenas := f.arenas - {f.curr}, reserved := f.reserved - CountPrivate(f.Arena())), Done)
    case MapPrivate => FlatMapPrivate(f)
    case MapShared(name, block) => FlatMapShared(f, name, block)
    case Load(addr) =>
      (f, match ByteAt(f, addr) case None => Segfault case Some(c) => Byte(c))
    case Store(addr, v) =>
      if Accessible(f, PageOf(addr)) then (Write(f, PageOf(addr), (addr - VM_ARENA_BASEADDR) % 4096, v), Done)
      else (f, Segfault)
    case FileAppears(fb, data) => (f.(files := f.files[fb := data]), Done)
    case ReadFails(page) => (f, Segfault)
    case NameFails(page) => (f, Address(0))
  }

  /** vm_map(nullptr): the null address is 0. */
  function FlatMapPrivate(f: Flat): (Flat, Reply) {
    if f.reserved >= f.limit || |f.Arena()| >= ARENA_PAGES then (f, Address(0))
    else (Append(f, Private(ZeroPage())).(reserved := f.reserved + 1), Address(PageAddress(|f.Arena()|)))
  }

  function FlatMapShared(f: Flat, name: int, block: int): (Flat, Reply) {
    match StringAt(f, name)
    case None => (f, Address(0))
    case Some(file) =>
      if |f.Arena()| >= ARENA_PAGES then (f, Address(0))
      else (Append(f, Shared(FileBlock(file, block))), Address(PageAddress(|f.Arena()|)))
  }

  ghost predicate LegalRun(f: Flat, evs: seq<Event>)
    decreases |evs|
  {
    evs != [] ==> Legal(f, evs[0]) && LegalRun(FlatStep(f, evs[0]).0, evs[1..])
  }

  ghost function FlatRun(f: Flat, evs: seq<Event>): (Flat, seq<Reply>)
    requires LegalRun(f, evs)
    decreases |evs|
  {
    if evs == [] then (f, []) else
      var (g, r) := FlatStep(f, evs[0]);
      var (h, rs) := FlatRun(g, evs[1..]);
      (h, [r] + rs)
  }
}
