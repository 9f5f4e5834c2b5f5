/** The invariant of the pager's tables. */
module PagerInvariant {
  import opened Wrappers
  import opened PagerState

  /** Where an owner set lives: a physical frame, a swap block or a file block. */
  datatype Place = InFrame(frame: int) | InSwap(block: int) | InFile(fb: FileBlock)

  function Owners(s: State, at: Place): set<Owner> {
    match at
    case InFrame(f) => Get(s.phys, f, {})
    case InSwap(b) => Get(s.swap, b, {})
    case InFile(fb) => OnDisk(s, fb)
  }

  function PlaceOf(e: Entry): Place {
    if e.resident then InFrame(e.ppage) else if e.swapBacked then InSwap(e.index) else InFile(e.Block())
  }

  /** The pinned frame, the clock and the free set partition the frames. */
  ghost predicate FramesOk(s: State) {
    && 2 <= |s.phys| <= MAX_FRAMES && |s.mem| == |s.phys| && |s.swapDisk| == |s.swap|
    && NoDup(s.clock)
    && (forall f :: f in s.clock ==> 0 <= f < s.Pinned() && f !in s.freeFrames && Owners(s, InFrame(f)) != {})
    && (forall f :: f in s.freeFrames ==> 0 <= f < s.Pinned() && Owners(s, InFrame(f)) == {})
    && (forall f :: 0 <= f < s.Pinned() ==> f in s.clock || f in s.freeFrames)
  }

  /** Every entry is in exactly one owner set, the one its resident bit and its index name. */
  ghost predicate PlacesOk(s: State) {
    forall at, o {:trigger o in Owners(s, at)} :: o in Owners(s, at) <==> o in s.entries && PlaceOf(s.entries[o]) == at
  }

  /** How the bits of one entry hang together. A private page has its place to itself; the owners of
      a file block agree with the block's permanent owner. */
  ghost predicate BitsOk(s: State) {
    forall o {:trigger Bits(s, o, s.entries[o])} :: o in s.entries ==> Bits(s, o, s.entries[o])
  }

  ghost predicate Bits(s: State, o: Owner, e: Entry) {
    && EnableBits(e, s.Pinned())
    && if e.swapBacked then PrivateBits(s, o, e) else FileBits(s, e)
  }

  /** The state diagram at the end of vm_OS.h, and the pinned page, which only looks resident. */
  predicate EnableBits(e: Entry, pinned: int) {
    if !e.resident then !e.dirty && !e.referenced && !e.readEnable && !e.writeEnable
    else if e.ppage == pinned then
      e.swapBacked && e.dirty && e.referenced && e.readEnable && !e.writeEnable && e.index == -1
    else e.readEnable == e.referenced && e.writeEnable == (e.referenced && e.dirty)
  }

  ghost predicate PrivateBits(s: State, o: Owner, e: Entry) {
    && o.Virt? && e.file == "" && -1 <= e.index < |s.swap| && (e.index == -1 ==> e.dirty)
    && (PlaceOf(e) == InFrame(s.Pinned()) || Owners(s, PlaceOf(e)) == {o})
  }

  ghost predicate FileBits(s: State, e: Entry) {
    && 0 <= e.index < MAX_BLOCK && e.Block() in s.seen && SelfOwner(e.Block()) in s.entries
    && SameBits(e, s.entries[SelfOwner(e.Block())])
  }

  predicate SameBits(e: Entry, d: Entry) {
    e.dirty == d.dirty && e.referenced == d.referenced && PlaceOf(e) == PlaceOf(d)
  }

  /** Every file block met so far keeps its permanent owner; it is in memory where inMem says. */
  ghost predicate BlocksOk(s: State) {
    && (forall fb {:trigger fb in s.seen} {:trigger SelfOwner(fb)} :: SelfOwner(fb) in s.entries <==> fb in s.seen)
    && (forall fb {:trigger SelfOf(s, fb)} :: fb in s.seen ==> SelfOf(s, fb))
    && (forall fb {:trigger fb in s.inMem} :: fb in s.inMem ==>
          fb in s.seen && fb in s.disk && OneBlock(s, Owners(s, InFrame(s.inMem[fb])), fb))
  }

  ghost predicate SelfOf(s: State, fb: FileBlock) {
    && SelfOwner(fb) in s.entries && !s.entries[SelfOwner(fb)].swapBacked && s.entries[SelfOwner(fb)].Block() == fb
    && PlaceOf(s.entries[SelfOwner(fb)]) == if fb in s.inMem then InFrame(s.inMem[fb]) else InFile(fb)
  }

  ghost predicate OneBlock(s: State, owners: set<Owner>, fb: FileBlock) {
    forall o {:trigger o in owners} :: o in owners ==>
      o in s.entries && !s.entries[o].swapBacked && s.entries[o].Block() == fb
  }

  /** A resident clean page equals its backing block, and the pinned page is zero. */
  ghost predicate ContentsOk(s: State) {
    && PageAt(s.mem, s.Pinned()) == ZeroPage()
    && forall o {:trigger Clean(s, s.entries[o])} :: o in s.entries ==> Clean(s, s.entries[o])
  }

  ghost predicate Clean(s: State, e: Entry) {
    e.resident && !e.dirty ==>
      if e.swapBacked then PageAt(s.mem, e.ppage) == PageAt(s.swapDisk, e.index)
      else e.Block() in s.disk && PageAt(s.mem, e.ppage) == s.disk[e.Block()]
  }

  ghost function SwapOwners(m: map<Owner, Entry>): set<Owner> { set o | o in m && m[o].swapBacked }

  /** Swap blocks in use correspond one-to-one with the swap-backed entries that hold an index. */
  ghost predicate SwapOk(s: State) {
    && (forall o, p {:trigger DifferentBlocks(s.entries[o], s.entries[p])} ::
          o in s.entries && p in s.entries && o != p ==> DifferentBlocks(s.entries[o], s.entries[p]))
    && (forall o {:trigger s.entries[o]} :: o in s.entries && s.entries[o].swapBacked ==>
      s.entries[o].index !in s.freeSwap)
    && (forall b :: b in s.freeSwap ==> 0 <= b < |s.swap|)
    && (forall b {:trigger BlockHolder(s, b)} :: 0 <= b < |s.swap| && b !in s.freeSwap ==> BlockHolder(s, b))
    && s.total == |SwapOwners(s.entries)| <= |s.swap|
  }

  ghost predicate DifferentBlocks(e: Entry, d: Entry) {
    e.swapBacked && d.swapBacked && e.index == d.index ==> e.index == -1
  }

  ghost predicate BlockHolder(s: State, b: int) {
    exists o {:trigger s.entries[o]} :: o in s.entries && s.entries[o].swapBacked && s.entries[o].index == b
  }

  ghost predicate Tables(s: State) {
    && (forall p, i :: Virt(p, i) in s.entries <==> p in s.sizes && 0 <= i < s.sizes[p])
    && (forall p :: p in s.sizes ==> s.sizes[p] <= ARENA_PAGES)
  }

  /** Everything but the page tables' contiguity, which vm_destroy suspends while it releases pages. */
  ghost predicate Core(s: State) {
    FramesOk(s) && PlacesOk(s) && BitsOk(s) && BlocksOk(s) && ContentsOk(s) && SwapOk(s)
  }

  ghost predicate Inv(s: State) { Core(s) && Tables(s) }

  lemma InitInv(frames: nat, swapBlocks: nat, mem: seq<Page>, swapDisk: seq<Page>, disk: map<FileBlock, Page>,
                curr: int)
    requires 2 <= frames <= MAX_FRAMES && |mem| == frames && |swapDisk| == swapBlocks
    ensures Inv(Init(frames, swapBlocks, mem, swapDisk, disk, curr))
  {
    assert SwapOwners(map[]) == {};
  }

  // ----- consequences -----

  ghost predicate Alike(e: Entry, d: Entry, f: int) {
    && d.resident && d.ppage == f && d.swapBacked == e.swapBacked && d.dirty == e.dirty
    && d.referenced == e.referenced && d.Block() == e.Block()
  }

  /** The owners of a frame in the clock: one private page, or all the owners of one file block. */
  lemma FrameKind(s: State, f: int, o: Owner)
    requires FramesOk(s) && PlacesOk(s) && BitsOk(s) && BlocksOk(s) && f in s.clock && o in Owners(s, InFrame(f))
    ensures 0 <= f < s.Pinned() && o in s.entries && Alike(s.entries[o], s.entries[o], f)
    ensures s.entries[o].swapBacked ==> Owners(s, InFrame(f)) == {o}
    ensures !s.entries[o].swapBacked ==>
      var fb := s.entries[o].Block();
      && fb in s.inMem && s.inMem[fb] == f && OneBlock(s, Owners(s, InFrame(f)), fb)
      && forall p {:trigger p in s.entries} ::
           p in s.entries && !s.entries[p].swapBacked && s.entries[p].Block() == fb ==> p in Owners(s, InFrame(f))
    ensures forall p {:trigger p in Owners(s, InFrame(f))} | p in Owners(s, InFrame(f)) ::
      p in s.entries && Alike(s.entries[o], s.entries[p], f)
  {
    assert Bits(s, o, s.entries[o]);
    if !s.entries[o].swapBacked {
      var fb := s.entries[o].Block();
      assert SelfOf(s, fb);
      forall p | p in Owners(s, InFrame(f)) ensures p in s.entries && Alike(s.entries[o], s.entries[p], f) {
        assert Bits(s, p, s.entries[p]);
      }
      forall p | p in s.entries && !s.entries[p].swapBacked && s.entries[p].Block() == fb
        ensures p in Owners(s, InFrame(f))
      {
        assert Bits(s, p, s.entries[p]);
      }
    }
  }

  // ----- check_consistent -----

  ghost predicate Agree(s: State, owners: set<Owner>) {
    forall o, p :: o in owners && p in owners ==>
      o in s.entries && p in s.entries && AgreeBits(s.entries[o], s.entries[p])
  }

  predicate AgreeBits(e: Entry, d: Entry) {
    e.dirty == d.dirty && e.referenced == d.referenced && e.resident == d.resident
      && e.swapBacked == d.swapBacked && e.file == d.file
  }

  predicate EnabledAsNoted(e: Entry) {
    if !e.referenced || !e.resident then !e.readEnable && !e.writeEnable
    else e.readEnable && e.writeEnable == e.dirty
  }

  /** The assertions of check_consistent. */
  ghost predicate Consistent(s: State) {
    && (forall f :: 0 <= f < |s.phys| ==> Agree(s, Owners(s, InFrame(f))))
    && (forall f, o :: 0 <= f < s.Pinned() && o in Owners(s, InFrame(f)) ==>
      o in s.entries && EnabledAsNoted(s.entries[o]))
    && (forall b :: 0 <= b < |s.swap| ==> Agree(s, Owners(s, InSwap(b))))
    && (forall b, o :: 0 <= b < |s.swap| && o in Owners(s, InSwap(b)) ==> o in s.entries && s.entries[o].swapBacked)
    && (forall fb :: fb in s.files ==> Agree(s, Owners(s, InFile(fb))))
    && (forall fb, o :: fb in s.files && o in Owners(s, InFile(fb)) ==> o in s.entries && !s.entries[o].swapBacked)
  }

  lemma AgreeAnywhere(s: State, at: Place)
    requires FramesOk(s) && PlacesOk(s) && BitsOk(s) && BlocksOk(s)
    ensures Agree(s, Owners(s, at))
  {
    forall o, p | o in Owners(s, at) && p in Owners(s, at)
      ensures o in s.entries && p in s.entries && AgreeBits(s.entries[o], s.entries[p])
    {
      assert Bits(s, o, s.entries[o]) && Bits(s, p, s.entries[p]);
      if at.InFrame? && at.frame in s.clock { FrameKind(s, at.frame, o); }
    }
  }

  /** The assertions that the code keeps commented out hold in every reachable state. */
  lemma CheckConsistent(s: State)
    requires Core(s)
    ensures Consistent(s)
  {
    forall at ensures Agree(s, Owners(s, at)) { AgreeAnywhere(s, at); }
    forall f, o | 0 <= f < s.Pinned() && o in Owners(s, InFrame(f))
      ensures o in s.entries && EnabledAsNoted(s.entries[o])
    {
      assert Bits(s, o, s.entries[o]);
    }
  }
}
