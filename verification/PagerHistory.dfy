/** What a user sees of the pager, from the calls and accesses so far alone: no state, only the last event that
    counts. Every reply of every run is the one that this history calls for. */
module PagerHistory {
  import opened Wrappers
  import opened PagerState
  import opened PagerInvariant
  import opened PagerFlat
  import opened PagerRefine
  import opened PagerRun

  /** Who runs at the start, the file blocks that can be read then, the size of the swap file, and what happened. */
  datatype History = History(curr: int, files: map<FileBlock, Page>, limit: nat, evs: seq<Event>, replies: seq<Reply>) {
    ghost predicate Upto(n: nat) { n <= |evs| == |replies| }
  }

  /** The process that runs after `n` events. */
  function Who(h: History, n: nat): int
    requires h.Upto(n)
  {
    if n == 0 then h.curr else if h.evs[n - 1].SwitchTo? then h.evs[n - 1].pid else Who(h, n - 1)
  }

  /** Event `n` makes the arena of `pid` empty. */
  predicate Empties(h: History, n: nat, pid: int)
    requires h.Upto(n + 1)
  {
    h.evs[n] == CreateProcess(pid) || (h.evs[n].Exit? && Who(h, n) == pid)
  }

  /** Event `n` maps a page for `pid`. */
  predicate Maps(h: History, n: nat, pid: int)
    requires h.Upto(n + 1)
  {
    (h.evs[n].MapPrivate? || h.evs[n].MapShared?) && Who(h, n) == pid && h.replies[n] != Address(0)
  }

  function Pages(h: History, n: nat, pid: int): nat
    requires h.Upto(n)
  {
    if n == 0 || Empties(h, n - 1, pid) then 0 else Pages(h, n - 1, pid) + if Maps(h, n - 1, pid) then 1 else 0
  }

  function PrivatePages(h: History, n: nat, pid: int): nat
    requires h.Upto(n)
  {
    if n == 0 || Empties(h, n - 1, pid) then 0
    else PrivatePages(h, n - 1, pid) + if Maps(h, n - 1, pid) && h.evs[n - 1].MapPrivate? then 1 else 0
  }

  /** Private pages of all processes. */
  function Reserved(h: History, n: nat): int
    requires h.Upto(n)
  {
    if n == 0 then 0
    else if h.evs[n - 1].Exit? then Reserved(h, n - 1) - PrivatePages(h, n - 1, Who(h, n - 1))
    else Reserved(h, n - 1) + if h.evs[n - 1].MapPrivate? && h.replies[n - 1] != Address(0) then 1 else 0
  }

  /** The call that mapped a page: the last one since the arena was empty that returned the page's address. */
  function MappedBy(h: History, n: nat, pid: int, page: nat): (r: Option<nat>)
    requires h.Upto(n)
    ensures r.Some? ==> r.value < n && Maps(h, r.value, pid)
  {
    if n == 0 || Empties(h, n - 1, pid) then None
    else if Maps(h, n - 1, pid) && h.replies[n - 1] == Address(0x6_0000_0000 + 4096 * page) then Some(n - 1)
    else MappedBy(h, n - 1, pid, page)
  }

  /** The last byte that process `pid` has stored at an address since call `j`, or zero. */
  function LastStored(h: History, n: nat, j: nat, pid: int, addr: int): char
    requires j < n && h.Upto(n)
  {
    if n == j + 1 then '\0'
    else if h.evs[n - 1].Store? && h.evs[n - 1].addr == addr && Who(h, n - 1) == pid then h.evs[n - 1].v
    else LastStored(h, n - 1, j, pid, addr)
  }

  /** The file block that a page shows. */
  function FileOf(h: History, n: nat, pid: int, page: nat): Option<FileBlock>
    requires h.Upto(n)
    decreases n, 0, 0
  {
    match MappedBy(h, n, pid, page)
    case None => None
    case Some(j) =>
      if h.evs[j].MapPrivate? then None else
        match Spelled(h, j, h.evs[j].name)
        case None => None
        case Some(file) => Some(FileBlock(file, h.evs[j].block))
  }

  /** The last byte that any process has stored there through any page that shows the file block, or what the
      file holds. */
  function FileByte(h: History, n: nat, fb: FileBlock, off: nat): Option<char>
    requires h.Upto(n) && off < 4096
    decreases n, 1, 0
  {
    if n == 0 then if fb in h.files then Some(h.files[fb][off]) else None
    else if h.evs[n - 1].FileAppears? && h.evs[n - 1].fb == fb then Some(h.evs[n - 1].data[off])
    else if StoresTo(h, n - 1, fb, off) then Some(h.evs[n - 1].v)
    else FileByte(h, n - 1, fb, off)
  }

  predicate StoresTo(h: History, n: nat, fb: FileBlock, off: nat)
    requires h.Upto(n + 1)
    decreases n, 1, 0
  {
    && h.evs[n].Store? && h.replies[n] == Done && h.evs[n].addr >= 0x6_0000_0000
    && (h.evs[n].addr - 0x6_0000_0000) % 4096 == off
    && FileOf(h, n, Who(h, n), (h.evs[n].addr - 0x6_0000_0000) / 4096) == Some(fb)
  }

  /** The byte that the running process finds at an address, if the address is mapped and can be read. */
  function ByteFound(h: History, n: nat, addr: int): Option<char>
    requires h.Upto(n)
    decreases n, 2, 0
  {
    if addr < 0x6_0000_0000 then None else
      var page, off := (addr - 0x6_0000_0000) / 4096, (addr - 0x6_0000_0000) % 4096;
      match MappedBy(h, n, Who(h, n), page)
      case None => None
      case Some(j) =>
        if h.evs[j].MapPrivate? then Some(LastStored(h, n, j, Who(h, n), addr)) else
          match FileOf(h, n, Who(h, n), page)
          case None => None
          case Some(fb) => FileByte(h, n, fb, off)
  }

  /** The string it finds there, up to the first zero byte. */
  function Spelled(h: History, n: nat, addr: int): Option<string>
    requires h.Upto(n)
    decreases n, 3, 0x6_0100_0000 - addr
  {
    if addr >= 0x6_0100_0000 then None else
      match ByteFound(h, n, addr)
      case None => None
      case Some(c) =>
        if c == '\0' then Some("") else
          match Spelled(h, n, addr + 1)
          case None => None
          case Some(rest) => Some([c] + rest)
  }

  /** What call or access `n` must answer. */
  function Expected(h: History, n: nat): Reply
    requires h.Upto(n + 1)
  {
    var pages := Pages(h, n, Who(h, n));
    match h.evs[n]
    case MapPrivate =>
      Address(if Reserved(h, n) < h.limit && pages < 4096 then 0x6_0000_0000 + 4096 * pages else 0)
    case MapShared(name, _) =>
      Address(if Spelled(h, n, name).Some? && pages < 4096 then 0x6_0000_0000 + 4096 * pages else 0)
    case Load(addr) => (match ByteFound(h, n, addr) case None => Segfault case Some(c) => Byte(c))
    case Store(addr, _) => if ByteFound(h, n, addr).Some? then Done else Segfault
    case ReadFails(_) => Segfault
    case NameFails(_) => Address(0)
    case _ => Done
  }

  // ----- the flat machine does what the history says -----

  ghost function PagesOf(f: Flat, pid: int): seq<FlatPage> { if pid in f.arenas then f.arenas[pid] else [] }

  /** A page of the flat machine is what the history makes of it. */
  ghost predicate PageAgrees(h: History, n: nat, f: Flat, pid: int, page: nat)
    requires h.Upto(n)
  {
    if page >= |PagesOf(f, pid)| then MappedBy(h, n, pid, page) == None
    else
      && MappedBy(h, n, pid, page).Some?
      && var j := MappedBy(h, n, pid, page).value;
      match PagesOf(f, pid)[page]
      case Private(data) => h.evs[j].MapPrivate? && forall off: nat {:trigger data[off]} ::
          off < 4096 ==> data[off] == LastStored(h, n, j, pid, 0x6_0000_0000 + 4096 * page + off)
      case Shared(fb) => !h.evs[j].MapPrivate? && FileOf(h, n, pid, page) == Some(fb)
  }

  ghost predicate FileAgrees(h: History, n: nat, f: Flat, fb: FileBlock)
    requires h.Upto(n)
  {
    forall off: nat {:trigger FileByte(h, n, fb, off)} ::
      off < 4096 ==> FileByte(h, n, fb, off) == if fb in f.files then Some(f.files[fb][off]) else None
  }

  ghost predicate CountsAgree(h: History, n: nat, f: Flat, pid: int)
    requires h.Upto(n)
  {
    |PagesOf(f, pid)| == Pages(h, n, pid) <= 4096 && CountPrivate(PagesOf(f, pid)) == PrivatePages(h, n, pid)
  }

  ghost predicate Agrees(h: History, n: nat, f: Flat)
    requires h.Upto(n)
  {
    && f.curr == Who(h, n) && f.reserved == Reserved(h, n) && f.limit == h.limit
    && (forall pid, page: nat {:trigger PageAgrees(h, n, f, pid, page)} :: PageAgrees(h, n, f, pid, page))
    && (forall pid {:trigger CountsAgree(h, n, f, pid)} :: CountsAgree(h, n, f, pid))
    && (forall fb {:trigger FileAgrees(h, n, f, fb)} :: FileAgrees(h, n, f, fb))
  }

  lemma AtStart(h: History, f: Flat)
    requires h.Upto(0) && f == Flat(map[], h.files, 0, h.limit, h.curr)
    ensures Agrees(h, 0, f)
  {}

  /** An address is one page and one offset. */
  lemma Places(addr: int, page: nat, off: nat)
    requires addr >= 0x6_0000_0000 && off < 4096
    ensures addr == 0x6_0000_0000 + 4096 * page + off <==>
      page == (addr - 0x6_0000_0000) / 4096 && off == (addr - 0x6_0000_0000) % 4096
  {}

  lemma BytesAgree(h: History, n: nat, f: Flat, addr: int)
    requires h.Upto(n) && Agrees(h, n, f)
    ensures ByteFound(h, n, addr) == ByteAt(f, addr)
  {
    if addr >= 0x6_0000_0000 {
      var page, off := (addr - 0x6_0000_0000) / 4096, (addr - 0x6_0000_0000) % 4096;
      Places(addr, page, off);
      assert PageAgrees(h, n, f, f.curr, page);
      if page < |f.Arena()| && f.Arena()[page].Shared? {
        assert FileAgrees(h, n, f, f.Arena()[page].fb);
        var _ := FileByte(h, n, f.Arena()[page].fb, off);
      }
    }
  }

  lemma {:induction false} StringsAgree(h: History, n: nat, f: Flat, addr: int)
    requires h.Upto(n) && Agrees(h, n, f)
    ensures Spelled(h, n, addr) == StringAt(f, addr)
    decreases 0x6_0100_0000 - addr
  {
    BytesAgree(h, n, f, addr);
    assert CountsAgree(h, n, f, f.curr);
    if addr < 0x6_0100_0000 && ByteAt(f, addr).Some? { StringsAgree(h, n, f, addr + 1); }
  }

  lemma ReplyAgrees(h: History, n: nat, f: Flat)
    requires h.Upto(n + 1) && Agrees(h, n, f) && Legal(f, h.evs[n])
    ensures FlatStep(f, h.evs[n]).1 == Expected(h, n)
  {
    assert CountsAgree(h, n, f, f.curr);
    match h.evs[n]
    case MapShared(name, block) => StringsAgree(h, n, f, name);
    case Load(addr) => BytesAgree(h, n, f, addr);
    case Store(addr, v) => BytesAgree(h, n, f, addr);
    case _ =>
  }

  /** The machine takes step `n`. */
  ghost predicate Takes(h: History, n: nat, f: Flat, g: Flat) {
    h.Upto(n + 1) && Agrees(h, n, f) && Legal(f, h.evs[n]) && FlatStep(f, h.evs[n]) == (g, h.replies[n])
  }

  lemma CurrentStep(h: History, n: nat, f: Flat, g: Flat)
    requires Takes(h, n, f, g)
    ensures g.curr == Who(h, n + 1) && g.reserved == Reserved(h, n + 1) && g.limit == h.limit
  {
    assert CountsAgree(h, n, f, f.curr);
  }

  lemma CountsStep(h: History, n: nat, f: Flat, g: Flat, pid: int)
    requires Takes(h, n, f, g)
    ensures CountsAgree(h, n + 1, g, pid)
  {
    assert CountsAgree(h, n, f, pid);
    ArenaStep(h, n, f, g, pid);
    var before, after := PagesOf(f, pid), PagesOf(g, pid);
    if Maps(h, n, pid) { assert after[..|after| - 1] == before; }
    else if !Empties(h, n, pid) { SameKinds(before, after); }
  }

  /** An arena is emptied, gets one more page, or keeps its pages, private or not as they are. */
  lemma ArenaStep(h: History, n: nat, f: Flat, g: Flat, pid: int)
    requires Takes(h, n, f, g)
    ensures Empties(h, n, pid) ==> PagesOf(g, pid) == []
    ensures !Empties(h, n, pid) && Maps(h, n, pid) ==>
      && |PagesOf(f, pid)| < 4096 && |PagesOf(g, pid)| == |PagesOf(f, pid)| + 1
      && PagesOf(g, pid)[..|PagesOf(f, pid)|] == PagesOf(f, pid)
      && PagesOf(g, pid)[|PagesOf(f, pid)|].Private? == h.evs[n].MapPrivate?
    ensures !Empties(h, n, pid) && !Maps(h, n, pid) ==>
      && |PagesOf(g, pid)| == |PagesOf(f, pid)|
      && forall i {:trigger PagesOf(g, pid)[i]} :: 0 <= i < |PagesOf(f, pid)| ==>
           PagesOf(g, pid)[i].Private? == PagesOf(f, pid)[i].Private?
  {}

  lemma {:induction false} SameKinds(a: seq<FlatPage>, b: seq<FlatPage>)
    requires |a| == |b| && forall i {:trigger a[i]} :: 0 <= i < |a| ==> a[i].Private? == b[i].Private?
    ensures CountPrivate(a) == CountPrivate(b)
  {
    if a != [] { SameKinds(a[..|a| - 1], b[..|b| - 1]); }
  }

  lemma FileStep(h: History, n: nat, f: Flat, g: Flat, fb: FileBlock)
    requires Takes(h, n, f, g)
    ensures FileAgrees(h, n + 1, g, fb)
  {
    var m := n + 1;
    assert FileAgrees(h, n, f, fb);
    forall off: nat | off < 4096
      ensures FileByte(h, m, fb, off) == if fb in g.files then Some(g.files[fb][off]) else None
    {
      assert FileByte(h, n, fb, off) == if fb in f.files then Some(f.files[fb][off]) else None;
      if h.evs[n].Store? { StoreStep(h, n, f, g, fb, off); } else { OtherFiles(h, n, f, g, fb); }
    }
  }

  lemma OtherFiles(h: History, n: nat, f: Flat, g: Flat, fb: FileBlock)
    requires Takes(h, n, f, g) && !h.evs[n].Store?
    ensures g.files == if h.evs[n].FileAppears? then f.files[h.evs[n].fb := h.evs[n].data] else f.files
  {}

  lemma StoreStep(h: History, n: nat, f: Flat, g: Flat, fb: FileBlock, off: nat)
    requires Takes(h, n, f, g) && h.evs[n].Store? && off < 4096
    ensures StoresTo(h, n, fb, off) ==> fb in f.files && g.files == f.files[fb := Put(f.files[fb], off, h.evs[n].v)]
    ensures !StoresTo(h, n, fb, off) ==>
      (fb in g.files <==> fb in f.files) && (fb in f.files ==> g.files[fb][off] == f.files[fb][off])
  {
    var page := PageOf(h.evs[n].addr);
    assert PageAgrees(h, n, f, f.curr, page);
    if h.replies[n] == Done {
      assert Accessible(f, page) && PagesOf(f, f.curr) == f.Arena();
      if StoresTo(h, n, fb, off) {
        assert FileOf(h, n, f.curr, page) == Some(fb);
        assert g.files == f.files[fb := Put(f.files[fb], off, h.evs[n].v)];
      }
    }
  }

  /** A page that the step does not map or unmap is mapped by the same call. */
  lemma StillMapped(h: History, n: nat, f: Flat, g: Flat, pid: int, page: nat)
    requires Takes(h, n, f, g) && !Empties(h, n, pid) && !(Maps(h, n, pid) && page == |PagesOf(f, pid)|)
    ensures MappedBy(h, n + 1, pid, page) == MappedBy(h, n, pid, page)
    ensures FileOf(h, n + 1, pid, page) == FileOf(h, n, pid, page)
  {}

  lemma PageStep(h: History, n: nat, f: Flat, g: Flat, pid: int, page: nat)
    requires Takes(h, n, f, g)
    ensures PageAgrees(h, n + 1, g, pid, page)
  {
    assert PageAgrees(h, n, f, pid, page);
    if Empties(h, n, pid) {
    } else if Maps(h, n, pid) && page == |PagesOf(f, pid)| {
      NewPage(h, n, f, g, pid, page);
    } else {
      StillMapped(h, n, f, g, pid, page);
      OldPage(h, n, f, g, pid, page);
    }
  }

  lemma NewPage(h: History, n: nat, f: Flat, g: Flat, pid: int, page: nat)
    requires Takes(h, n, f, g) && !Empties(h, n, pid) && Maps(h, n, pid) && page == |PagesOf(f, pid)|
    ensures PageAgrees(h, n + 1, g, pid, page)
  {
    assert MappedBy(h, n + 1, pid, page) == Some(n);
    if h.evs[n].MapShared? { StringsAgree(h, n, f, h.evs[n].name); }
  }

  lemma OldPage(h: History, n: nat, f: Flat, g: Flat, pid: int, page: nat)
    requires Takes(h, n, f, g) && !Empties(h, n, pid) && !(Maps(h, n, pid) && page == |PagesOf(f, pid)|)
    requires PageAgrees(h, n, f, pid, page) && MappedBy(h, n + 1, pid, page) == MappedBy(h, n, pid, page)
    requires FileOf(h, n + 1, pid, page) == FileOf(h, n, pid, page)
    ensures PageAgrees(h, n + 1, g, pid, page)
  {
    if page < |PagesOf(f, pid)| && PagesOf(f, pid)[page].Private? {
      var j := MappedBy(h, n, pid, page).value;
      forall off: nat | off < 4096
        ensures PagesOf(g, pid)[page].Private?
          && PagesOf(g, pid)[page].data[off] == LastStored(h, n + 1, j, pid, 0x6_0000_0000 + 4096 * page + off)
      {
        if h.evs[n].Store? { Places(h.evs[n].addr, page, off); }
        assert PagesOf(f, pid)[page].data[off] == LastStored(h, n, j, pid, 0x6_0000_0000 + 4096 * page + off);
      }
    }
  }

  lemma StepAgrees(h: History, n: nat, f: Flat, g: Flat)
    requires Takes(h, n, f, g)
    ensures Agrees(h, n + 1, g)
  {
    CurrentStep(h, n, f, g);
    var m := n + 1;
    forall pid, page: nat ensures PageAgrees(h, m, g, pid, page) { PageStep(h, n, f, g, pid, page); }
    forall pid ensures CountsAgree(h, m, g, pid) { CountsStep(h, n, f, g, pid); }
    forall fb ensures FileAgrees(h, m, g, fb) { FileStep(h, n, f, g, fb); }
  }

  // ----- over runs -----

  ghost predicate FromInit(states: seq<State>, evs: seq<Event>, replies: seq<Reply>, swapBlocks: nat,
                           disk: map<FileBlock, Page>, curr: int)
  {
    && Run(states, evs, replies) && Inv(states[0])
    && FlatOf(states[0]) == Flat(map[], disk, 0, swapBlocks, curr)
  }

  lemma InRun(states: seq<State>, evs: seq<Event>, replies: seq<Reply>, n: nat)
    requires Run(states, evs, replies) && n < |evs| && Inv(states[n])
    ensures Legal(FlatOf(states[n]), evs[n]) && Inv(states[n + 1])
    ensures FlatStep(FlatOf(states[n]), evs[n]) == (FlatOf(states[n + 1]), replies[n])
  {
    assert StepAt(states, evs, replies, n);
    StepRefines(states[n], evs[n], states[n + 1], replies[n]);
  }

  lemma {:induction false} RunAgrees(states: seq<State>, evs: seq<Event>, replies: seq<Reply>, h: History, n: nat)
    requires FromInit(states, evs, replies, h.limit, h.files, h.curr) && h.evs == evs && h.replies == replies
    requires n <= |evs|
    ensures Inv(states[n]) && Agrees(h, n, FlatOf(states[n]))
    decreases n
  {
    if n == 0 { AtStart(h, FlatOf(states[0])); } else {
      RunAgrees(states, evs, replies, h, n - 1);
      NextAgrees(states, evs, replies, h, n - 1);
    }
  }

  lemma NextAgrees(states: seq<State>, evs: seq<Event>, replies: seq<Reply>, h: History, n: nat)
    requires Run(states, evs, replies) && n < |evs| && Inv(states[n]) && h.evs == evs && h.replies == replies
    requires Agrees(h, n, FlatOf(states[n]))
    ensures Inv(states[n + 1]) && Agrees(h, n + 1, FlatOf(states[n + 1]))
  {
    InRun(states, evs, replies, n);
    StepAgrees(h, n, FlatOf(states[n]), FlatOf(states[n + 1]));
  }

  /** From the state vm_init leaves, every reply is what the calls and accesses before it call for: a load finds
      the last byte that its process stored in that private page since it was mapped, or zero, or the last byte
      that any process stored in that file block. */
  lemma EveryReply(states: seq<State>, evs: seq<Event>, replies: seq<Reply>, frames: nat, swapBlocks: nat,
                   mem: seq<Page>, swapDisk: seq<Page>, disk: map<FileBlock, Page>, curr: int, n: nat)
    requires 2 <= frames <= MAX_FRAMES && |mem| == frames && |swapDisk| == swapBlocks
    requires Run(states, evs, replies) && states[0] == Init(frames, swapBlocks, mem, swapDisk, disk, curr)
    requires n < |evs|
    ensures replies[n] == Expected(History(curr, disk, swapBlocks, evs, replies), n)
  {
    InitInv(frames, swapBlocks, mem, swapDisk, disk, curr);
    assert FlatOf(states[0]).files == disk && FlatOf(states[0]).arenas == map[];
    var h := History(curr, disk, swapBlocks, evs, replies);
    RunAgrees(states, evs, replies, h, n);
    InRun(states, evs, replies, n);
    ReplyAgrees(h, n, FlatOf(states[n]));
  }

  /** A page that has just been mapped privately is zero. */
  lemma FreshPage(s: State, t: State, reply: Reply, k: nat)
    requires Inv(s) && Legal(FlatOf(s), MapPrivate) && Next(s, MapPrivate, t, reply) && k < 4096
    ensures reply == Address(0) || (reply.Address? && ByteAt(FlatOf(t), reply.addr + k) == Some('\0'))
  {
    StepRefines(s, MapPrivate, t, reply);
    if reply != Address(0) {
      var page := |FlatOf(s).Arena()|;
      Places(reply.addr + k, page, k);
    }
  }

  /** The bytes at an address spell a text and end it. */
  ghost predicate Spells(f: Flat, addr: int, text: string) {
    && (forall k: nat {:trigger text[k]} :: k < |text| ==> text[k] != '\0' && ByteAt(f, addr + k) == Some(text[k]))
    && ByteAt(f, addr + |text|) == Some('\0')
  }

  lemma SpellsRest(f: Flat, addr: int, text: string)
    requires text != []
    ensures Spells(f, addr, text) <==>
      text[0] != '\0' && ByteAt(f, addr) == Some(text[0]) && Spells(f, addr + 1, text[1..])
  {
    var rest := text[1..];
    forall k: nat | k < |rest| ensures rest[k] == text[k + 1] && addr + 1 + k == addr + (k + 1) {}
    forall k: nat | 0 < k < |text| ensures rest[k - 1] == text[k] && addr + 1 + (k - 1) == addr + k {}
  }

  /** The string at an address is exactly the bytes before the first zero byte. */
  lemma {:induction false} StringExactly(f: Flat, addr: int, text: string)
    ensures StringAt(f, addr) == Some(text) <==> Spells(f, addr, text)
    decreases |text|
  {
    if text == [] { assert Spells(f, addr, text) <==> ByteAt(f, addr) == Some('\0'); } else {
      SpellsRest(f, addr, text);
      StringExactly(f, addr + 1, text[1..]);
      assert text == [text[0]] + text[1..];
    }
  }
}
