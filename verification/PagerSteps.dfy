/** Every page transition keeps the invariant. */
module PagerSteps {
  import opened Wrappers
  import opened PagerState
  import opened PagerInvariant

  // ----- reference and dirty bits -----

  /** What keeps the swap accounting: nobody gains, loses or changes a swap block. */
  lemma SwapKept(s: State, t: State)
    requires SwapOk(s) && t.entries.Keys == s.entries.Keys && |t.swap| == |s.swap|
    requires t.freeSwap == s.freeSwap && t.total == s.total
    requires forall o {:trigger t.entries[o]} | o in s.entries ::
      t.entries[o].swapBacked == s.entries[o].swapBacked && t.entries[o].index == s.entries[o].index
    ensures SwapOk(t)
  {
    assert SwapOwners(t.entries) == SwapOwners(s.entries);
    forall b | 0 <= b < |t.swap| && b !in t.freeSwap ensures BlockHolder(t, b) {
      assert BlockHolder(s, b);
      var o :| o in s.entries && s.entries[o].swapBacked && s.entries[o].index == b;
      assert t.entries[o].index == b;
    }
    forall o, p | o in t.entries && p in t.entries && o != p ensures DifferentBlocks(t.entries[o], t.entries[p]) {
      assert DifferentBlocks(s.entries[o], s.entries[p]);
    }
  }

  /** `t` differs from `s` in the bits of the owners of frame `f`, and in the order of the clock. */
  ghost predicate Rebit(s: State, t: State, f: int, referenced: bool, dirtied: bool) {
    && t.entries.Keys == s.entries.Keys
    && t == s.(entries := t.entries, clock := t.clock)
    && forall o {:trigger t.entries[o]} | o in s.entries ::
         t.entries[o] == if o in Owners(s, InFrame(f)) then Rebitted(s.entries[o], referenced, dirtied)
           else s.entries[o]
  }

  function Rebitted(e: Entry, referenced: bool, dirtied: bool): Entry {
    e.(dirty := e.dirty || dirtied, referenced := referenced,
       readEnable := referenced, writeEnable := referenced && (e.dirty || dirtied))
  }

  lemma RebitPlaces(s: State, t: State, f: int, referenced: bool, dirtied: bool)
    requires PlacesOk(s) && BlocksOk(s) && Rebit(s, t, f, referenced, dirtied)
    ensures PlacesOk(t) && BlocksOk(t)
  {
    forall at ensures Owners(t, at) == Owners(s, at) {}
    forall fb | fb in t.seen ensures SelfOf(t, fb) { assert SelfOf(s, fb); }
    forall fb | fb in t.inMem ensures OneBlock(t, Owners(t, InFrame(t.inMem[fb])), fb) {
      assert OneBlock(s, Owners(s, InFrame(s.inMem[fb])), fb);
    }
  }

  lemma RebitOne(s: State, t: State, f: int, referenced: bool, dirtied: bool, p: Owner)
    requires FramesOk(s) && f in s.clock && Rebit(s, t, f, referenced, dirtied)
    requires p in s.entries && Bits(s, p, s.entries[p]) && Clean(s, s.entries[p])
    requires !s.entries[p].swapBacked ==> SelfOwner(s.entries[p].Block()) in s.entries
    requires PlacesOk(s)
    ensures Bits(t, p, t.entries[p]) && Clean(t, t.entries[p])
  {
    assert p in Owners(s, PlaceOf(s.entries[p]));
    if s.entries[p].swapBacked {
      assert Owners(t, PlaceOf(t.entries[p])) == Owners(s, PlaceOf(s.entries[p]));
    } else {
      var q := SelfOwner(s.entries[p].Block());
      assert q in Owners(s, InFrame(f)) <==> p in Owners(s, InFrame(f));
      assert SameBits(t.entries[p], t.entries[q]);
    }
  }

  lemma RebitBits(s: State, t: State, f: int, referenced: bool, dirtied: bool)
    requires Core(s) && f in s.clock && Rebit(s, t, f, referenced, dirtied)
    ensures BitsOk(t) && ContentsOk(t)
  {
    forall p | p in t.entries ensures Bits(t, p, t.entries[p]) && Clean(t, t.entries[p]) {
      assert Bits(s, p, s.entries[p]) && Clean(s, s.entries[p]);
      RebitOne(s, t, f, referenced, dirtied, p);
    }
  }

  lemma TouchInv(s: State, f: int, write: bool)
    requires Core(s) && f in s.clock
    ensures Core(Touch(s, f, write))
  {
    var t := Touch(s, f, write);
    assert Rebit(s, t, f, true, write);
    RebitPlaces(s, t, f, true, write);
    RebitBits(s, t, f, true, write);
    SwapKept(s, t);
    forall g ensures Owners(t, InFrame(g)) == Owners(s, InFrame(g)) {}
  }

  lemma TickInv(s: State)
    requires Core(s)
    ensures Core(Tick(s))
  {
    if s.clock != [] {
      var t := Tick(s);
      assert Rebit(s, t, s.clock[0], false, false);
      RebitPlaces(s, t, s.clock[0], false, false);
      RebitBits(s, t, s.clock[0], false, false);
      SwapKept(s, t);
      TickFrames(s, t);
    }
  }

  lemma TickFrames(s: State, t: State)
    requires FramesOk(s) && s.clock != [] && t == s.(entries := t.entries, clock := s.clock[1..] + [s.clock[0]])
    ensures FramesOk(t)
  {
    forall g ensures Owners(t, InFrame(g)) == Owners(s, InFrame(g)) {}
    assert s.clock == [s.clock[0]] + s.clock[1..];
    forall f ensures f in t.clock <==> f in s.clock { assert f in s.clock <==> f == s.clock[0] || f in s.clock[1..]; }
    forall f | f in t.clock ensures 0 <= f < t.Pinned() && f !in t.freeFrames && Owners(t, InFrame(f)) != {} {
      assert f in s.clock;
    }
  }

  // ----- moving an owner set between two places -----

  /** The owners `os` leave `from` for the empty place `to`; all their entries end with dirty bit
      `d` and reference bit `r`. Nothing else moves. */
  ghost predicate Moved(s: State, t: State, from: Place, to: Place, os: set<Owner>, d: bool, r: bool) {
    && from != to && os <= Owners(s, from) && Owners(s, to) == {}
    && (os == Owners(s, from) || from == InFrame(s.Pinned()))
    && |t.phys| == |s.phys| && |t.swap| == |s.swap| && t.seen == s.seen && t.entries.Keys == s.entries.Keys
    && (forall at {:trigger Owners(t, at)} :: Owners(t, at) ==
          if at == from then Owners(s, from) - os else if at == to then os else Owners(s, at))
    && (forall o {:trigger t.entries[o]} | o in s.entries ::
          if o in os then Rehomed(s, s.entries[o], t.entries[o], to, d, r) else t.entries[o] == s.entries[o])
  }

  ghost predicate Rehomed(s: State, e: Entry, x: Entry, to: Place, d: bool, r: bool) {
    && PlaceOf(x) == to && x.swapBacked == e.swapBacked && x.file == e.file && x.dirty == d && x.referenced == r
    && EnableBits(x, s.Pinned())
    && if e.swapBacked then -1 <= x.index < |s.swap| && (x.index == -1 ==> d) else x.index == e.index
  }

  lemma MovedPlaces(s: State, t: State, from: Place, to: Place, os: set<Owner>, d: bool, r: bool)
    requires PlacesOk(s) && Moved(s, t, from, to, os, d, r)
    ensures PlacesOk(t)
  {
    forall at, o ensures o in Owners(t, at) <==> o in t.entries && PlaceOf(t.entries[o]) == at {
      MovedPlace(s, t, from, to, os, d, r, at, o);
    }
  }

  lemma MovedPlace(s: State, t: State, from: Place, to: Place, os: set<Owner>, d: bool, r: bool, at: Place, o: Owner)
    requires PlacesOk(s) && Moved(s, t, from, to, os, d, r)
    ensures o in Owners(t, at) <==> o in t.entries && PlaceOf(t.entries[o]) == at
  {
    assert o in Owners(s, at) <==> o in s.entries && PlaceOf(s.entries[o]) == at;
    if o in os {
      assert o in Owners(s, from);
      assert Rehomed(s, s.entries[o], t.entries[o], to, d, r);
    }
  }

  lemma MovedOne(s: State, t: State, from: Place, to: Place, os: set<Owner>, d: bool, r: bool, p: Owner)
    requires PlacesOk(s) && Moved(s, t, from, to, os, d, r) && to != InFrame(s.Pinned())
    requires p in s.entries && Bits(s, p, s.entries[p])
    requires from == InFrame(s.Pinned()) ==> forall o | o in os :: os == {o}
    requires !s.entries[p].swapBacked ==> SelfOf(s, s.entries[p].Block())
    requires from == InFrame(s.Pinned()) ==> forall o | o in os :: s.entries[o].swapBacked
    ensures Bits(t, p, t.entries[p])
  {
    assert p in Owners(s, PlaceOf(s.entries[p]));
    if s.entries[p].swapBacked {
      assert PlaceOf(s.entries[p]) != from ==> Owners(t, PlaceOf(t.entries[p])) == Owners(s, PlaceOf(s.entries[p]));
    } else {
      var q := SelfOwner(s.entries[p].Block());
      assert q in Owners(s, PlaceOf(s.entries[p]));
      assert q in os <==> p in os;
      assert SameBits(t.entries[p], t.entries[q]);
    }
  }

  lemma MovedBits(s: State, t: State, from: Place, to: Place, os: set<Owner>, d: bool, r: bool)
    requires PlacesOk(s) && BitsOk(s) && BlocksOk(s) && Moved(s, t, from, to, os, d, r) && to != InFrame(s.Pinned())
    requires from == InFrame(s.Pinned()) ==> forall o | o in os :: os == {o}
    ensures BitsOk(t)
  {
    if from == InFrame(s.Pinned()) {
      forall o | o in os ensures s.entries[o].swapBacked { assert o in Owners(s, from) && Bits(s, o, s.entries[o]); }
    }
    forall p | p in t.entries ensures Bits(t, p, t.entries[p]) {
      assert Bits(s, p, s.entries[p]);
      if !s.entries[p].swapBacked { assert SelfOf(s, s.entries[p].Block()); }
      MovedOne(s, t, from, to, os, d, r, p);
    }
  }

  /** Moving a private page leaves the file blocks alone. */
  lemma MovedBlocks(s: State, t: State, from: Place, to: Place, o: Owner, d: bool, r: bool)
    requires PlacesOk(s) && BlocksOk(s) && Moved(s, t, from, to, {o}, d, r) && o in s.entries && s.entries[o].swapBacked
    requires t.inMem == s.inMem && t.disk == s.disk
    ensures BlocksOk(t)
  {
    forall fb | fb in t.seen ensures SelfOf(t, fb) { assert SelfOf(s, fb); }
    forall fb | fb in t.inMem ensures OneBlock(t, Owners(t, InFrame(t.inMem[fb])), fb) {
      assert OneBlock(s, Owners(s, InFrame(s.inMem[fb])), fb) && SelfOf(s, fb);
      assert SelfOwner(fb) in Owners(s, InFrame(s.inMem[fb]));
      assert o !in Owners(s, InFrame(s.inMem[fb]));
    }
  }

  lemma PopFrame(s: State, t: State, f: int)
    requires FramesOk(s) && s.clock != [] && f == s.clock[0]
    requires t.clock == s.clock[1..] && t.freeFrames == s.freeFrames + {f}
    requires |t.phys| == |s.phys| && |t.mem| == |s.mem| && |t.swapDisk| == |s.swapDisk| && |t.swap| == |s.swap|
    requires forall g {:trigger Owners(t, InFrame(g))} ::
      Owners(t, InFrame(g)) == if g == f then {} else Owners(s, InFrame(g))
    ensures FramesOk(t)
  {
    assert s.clock == [f] + t.clock;
    assert forall g :: g in s.clock <==> g == f || g in t.clock;
    assert f !in t.clock;
    forall g | g in t.clock ensures 0 <= g < t.Pinned() && g !in t.freeFrames && Owners(t, InFrame(g)) != {} {
      assert g in s.clock;
    }
  }

  lemma PushFrame(s: State, t: State, f: int)
    requires FramesOk(s) && f in s.freeFrames
    requires t.clock == s.clock + [f] && t.freeFrames == s.freeFrames - {f}
    requires |t.phys| == |s.phys| && |t.mem| == |s.mem| && |t.swapDisk| == |s.swapDisk| && |t.swap| == |s.swap|
    requires Owners(t, InFrame(f)) != {}
    requires forall g {:trigger Owners(t, InFrame(g))} :: g != f && g != s.Pinned() ==>
      Owners(t, InFrame(g)) == Owners(s, InFrame(g))
    ensures FramesOk(t)
  {
    assert forall g :: g in t.clock <==> g == f || g in s.clock;
  }

  // ----- eviction -----

  ghost predicate Expellable(s: State, o: Owner, b: int) {
    && s.clock != [] && o in Owners(s, InFrame(s.clock[0])) && o in s.entries && !s.entries[o].referenced
    && (s.entries[o].swapBacked && s.entries[o].index == -1 ==> b in s.freeSwap)
  }

  function Home(s: State, o: Owner, b: int): int
    requires o in s.entries
  { if s.entries[o].index == -1 then b else s.entries[o].index }

  lemma ExpelSwapSwap(s: State, t: State, o: Owner, b: int)
    requires SwapOk(s) && Expellable(s, o, b) && s.entries[o].swapBacked && -1 <= s.entries[o].index < |s.swap|
    requires t.entries.Keys == s.entries.Keys && |t.swap| == |s.swap| && t.total == s.total
    requires t.freeSwap == if s.entries[o].index == -1 then s.freeSwap - {b} else s.freeSwap
    requires forall p {:trigger t.entries[p]} | p in s.entries ::
      t.entries[p] == if p == o then Expelled(s.entries[p], Home(s, o, b)) else s.entries[p]
    ensures SwapOk(t)
  {
    assert SwapOwners(t.entries) == SwapOwners(s.entries);
    forall c | 0 <= c < |t.swap| && c !in t.freeSwap ensures BlockHolder(t, c) {
      if c == Home(s, o, b) { assert t.entries[o].index == c; } else {
        assert BlockHolder(s, c);
        var p :| p in s.entries && s.entries[p].swapBacked && s.entries[p].index == c;
        assert t.entries[p] == s.entries[p];
      }
    }
    forall p, q | p in t.entries && q in t.entries && p != q ensures DifferentBlocks(t.entries[p], t.entries[q]) {
      assert DifferentBlocks(s.entries[p], s.entries[q]);
    }
  }

  lemma HomeEmpty(s: State, o: Owner, b: int)
    requires PlacesOk(s) && SwapOk(s) && Expellable(s, o, b) && s.entries[o].swapBacked && s.entries[o].resident
    requires -1 <= s.entries[o].index < |s.swap|
    ensures 0 <= Home(s, o, b) < |s.swap| && Owners(s, InSwap(Home(s, o, b))) == {}
  {
    forall p | p in s.entries && p != o ensures PlaceOf(s.entries[p]) != InSwap(Home(s, o, b)) {
      assert DifferentBlocks(s.entries[o], s.entries[p]);
    }
    forall p ensures p !in Owners(s, InSwap(Home(s, o, b))) {}
  }

  lemma ExpelSwapMoved(s: State, t: State, o: Owner, b: int)
    requires Core(s) && Expellable(s, o, b) && s.entries[o].swapBacked && t == Expel(s, o, b)
    ensures Moved(s, t, InFrame(s.clock[0]), InSwap(Home(s, o, b)), {o}, false, false)
    ensures Owners(s, InFrame(s.clock[0])) == {o} && s.clock[0] != s.Pinned() && -1 <= s.entries[o].index < |s.swap|
    ensures s.entries[o].resident && 0 <= Home(s, o, b)
  {
    FrameKind(s, s.clock[0], o);
    assert Bits(s, o, s.entries[o]);
    HomeEmpty(s, o, b);
  }

  lemma ExpelSwapContents(s: State, t: State, o: Owner, b: int)
    requires ContentsOk(s) && SwapOk(s) && o in s.entries && s.entries[o].swapBacked && Expellable(s, o, b)
    requires t.entries.Keys == s.entries.Keys && |t.swap| == |s.swap| && t.mem == s.mem && t.disk == s.disk
    requires |t.phys| == |s.phys|
    requires forall p {:trigger t.entries[p]} | p in s.entries ::
      t.entries[p] == if p == o then Expelled(s.entries[p], Home(s, o, b)) else s.entries[p]
    requires forall c :: c != Home(s, o, b) ==> PageAt(t.swapDisk, c) == PageAt(s.swapDisk, c)
    ensures ContentsOk(t)
  {
    forall p | p in t.entries ensures Clean(t, t.entries[p]) {
      assert Clean(s, s.entries[p]);
      if p != o { assert DifferentBlocks(s.entries[o], s.entries[p]); }
    }
  }

  lemma ExpelSwapInv(s: State, o: Owner, b: int)
    requires Core(s) && Expellable(s, o, b) && s.entries[o].swapBacked
    ensures Core(Expel(s, o, b))
  {
    var f, home, t := s.clock[0], Home(s, o, b), Expel(s, o, b);
    ExpelSwapMoved(s, t, o, b);
    MovedPlaces(s, t, InFrame(f), InSwap(home), {o}, false, false);
    MovedBits(s, t, InFrame(f), InSwap(home), {o}, false, false);
    MovedBlocks(s, t, InFrame(f), InSwap(home), o, false, false);
    PopFrame(s, t, f);
    ExpelSwapSwap(s, t, o, b);
    ExpelSwapContents(s, t, o, b);
  }

  predicate OfBlock(e: Entry, fb: FileBlock) { !e.swapBacked && e.Block() == fb }

  lemma ExpelFileOwners(s: State, t: State, f: int, fb: FileBlock)
    requires t.phys == Put(s.phys, f, {}) && t.swap == s.swap && t.files == s.files[fb := Get(s.phys, f, {})]
    ensures forall at {:trigger Owners(t, at)} ::
      Owners(t, at) == if at == InFrame(f) then {} else if at == InFile(fb) then Owners(s, InFrame(f))
        else Owners(s, at)
  {}

  lemma ExpelFileMoved(s: State, t: State, o: Owner, b: int)
    requires Core(s) && Expellable(s, o, b) && !s.entries[o].swapBacked && t == Expel(s, o, b)
    ensures Moved(s, t, InFrame(s.clock[0]), InFile(s.entries[o].Block()), Owners(s, InFrame(s.clock[0])), false, false)
    ensures 0 <= s.clock[0] < s.Pinned() && s.entries[o].Block() in s.inMem
    ensures s.inMem[s.entries[o].Block()] == s.clock[0]
    ensures forall p {:trigger s.entries[p]} ::
      p in s.entries && OfBlock(s.entries[p], s.entries[o].Block()) ==> p in Owners(s, InFrame(s.clock[0]))
  {
    var f, fb := s.clock[0], s.entries[o].Block();
    FrameKind(s, f, o);
    forall p ensures p !in Owners(s, InFile(fb)) {}
    ExpelFileOwners(s, t, f, fb);
    forall p | p in Owners(s, InFrame(f)) ensures Rehomed(s, s.entries[p], t.entries[p], InFile(fb), false, false) {
      assert Bits(s, p, s.entries[p]);
      ExpelledBits(s, s.entries[o], s.entries[p], f);
    }
  }

  lemma ExpelledBits(s: State, e: Entry, d: Entry, f: int)
    requires Alike(e, d, f) && EnableBits(d, s.Pinned()) && !e.swapBacked && !e.referenced && f != s.Pinned()
    ensures Rehomed(s, d, Expelled(d, e.index), InFile(e.Block()), false, false)
  {}

  lemma ExpelFileBlocks(s: State, t: State, o: Owner, b: int)
    requires PlacesOk(s) && BlocksOk(s) && o in s.entries && s.clock != []
    requires
      Moved(s, t, InFrame(s.clock[0]), InFile(s.entries[o].Block()), Owners(s, InFrame(s.clock[0])), false, false)
    requires s.entries[o].Block() in s.inMem && s.inMem[s.entries[o].Block()] == s.clock[0]
    requires t.inMem == s.inMem - {s.entries[o].Block()} && s.disk.Keys <= t.disk.Keys
    ensures BlocksOk(t)
  {
    var f, fb := s.clock[0], s.entries[o].Block();
    assert SelfOf(s, fb);
    forall c | c in t.seen ensures SelfOf(t, c) {
      assert SelfOf(s, c);
      assert SelfOwner(c) in Owners(s, InFrame(f)) ==> OneBlock(s, Owners(s, InFrame(s.inMem[fb])), fb);
    }
    forall c | c in t.inMem ensures OneBlock(t, Owners(t, InFrame(t.inMem[c])), c) {
      assert OneBlock(s, Owners(s, InFrame(s.inMem[c])), c) && SelfOf(s, c);
      assert SelfOwner(fb) in Owners(s, InFrame(f));
    }
  }

  lemma ExpelFileContents(s: State, t: State, o: Owner, b: int)
    requires ContentsOk(s) && o in s.entries && s.clock != []
    requires
      Moved(s, t, InFrame(s.clock[0]), InFile(s.entries[o].Block()), Owners(s, InFrame(s.clock[0])), false, false)
    requires t.mem == s.mem && t.swapDisk == s.swapDisk && s.disk.Keys <= t.disk.Keys
    requires forall c :: c in s.disk && c != s.entries[o].Block() ==> t.disk[c] == s.disk[c]
    requires forall p {:trigger s.entries[p]} ::
      p in s.entries && OfBlock(s.entries[p], s.entries[o].Block()) ==> p in Owners(s, InFrame(s.clock[0]))
    ensures ContentsOk(t)
  {
    forall p | p in t.entries ensures Clean(t, t.entries[p]) { assert Clean(s, s.entries[p]); }
  }

  lemma ExpelFileInv(s: State, o: Owner, b: int)
    requires Core(s) && Expellable(s, o, b) && !s.entries[o].swapBacked
    ensures Core(Expel(s, o, b))
  {
    var f, fb, t := s.clock[0], s.entries[o].Block(), Expel(s, o, b);
    var os := Owners(s, InFrame(f));
    ExpelFileMoved(s, t, o, b);
    MovedPlaces(s, t, InFrame(f), InFile(fb), os, false, false);
    MovedBits(s, t, InFrame(f), InFile(fb), os, false, false);
    ExpelFileBlocks(s, t, o, b);
    ExpelFileContents(s, t, o, b);
    ExpelFileRest(s, t, o, b);
  }

  lemma ExpelFileRest(s: State, t: State, o: Owner, b: int)
    requires FramesOk(s) && SwapOk(s) && Expellable(s, o, b) && !s.entries[o].swapBacked && t == Expel(s, o, b)
    requires 0 <= s.clock[0] < |s.phys|
    requires
      Moved(s, t, InFrame(s.clock[0]), InFile(s.entries[o].Block()), Owners(s, InFrame(s.clock[0])), false, false)
    ensures FramesOk(t) && SwapOk(t)
  {
    PopFrame(s, t, s.clock[0]);
    SwapKept(s, t);
  }

  // ----- loading a frame -----

  /** Filling the free frame `f` leaves resident pages alone. */
  lemma FilledContents(s: State, t: State, f: int, p: Owner)
    requires FramesOk(s) && PlacesOk(s) && f in s.freeFrames && p in s.entries && Clean(s, s.entries[p])
    requires t.swapDisk == s.swapDisk && t.disk == s.disk && forall g :: g != f ==> PageAt(t.mem, g) == PageAt(s.mem, g)
    ensures Clean(t, s.entries[p])
  {
    assert p in Owners(s, PlaceOf(s.entries[p]));
  }

  ghost predicate OnPinned(s: State, o: Owner) {
    o in s.entries && s.entries[o].swapBacked && PlaceOf(s.entries[o]) == InFrame(s.Pinned())
  }

  lemma CopyZeroInv(s: State, o: Owner, f: int)
    requires Core(s) && OnPinned(s, o) && f in s.freeFrames
    ensures Core(CopyZero(s, o, f))
  {
    var t := CopyZero(s, o, f);
    var from, to := InFrame(s.Pinned()), InFrame(f);
    CopyZeroMoved(s, t, o, f);
    MovedPlaces(s, t, from, to, {o}, true, true);
    MovedBits(s, t, from, to, {o}, true, true);
    MovedBlocks(s, t, from, to, o, true, true);
    PushFrame(s, t, f);
    SwapKept(s, t);
    forall p | p in t.entries ensures Clean(t, t.entries[p]) {
      assert Clean(s, s.entries[p]);
      FilledContents(s, t, f, p);
    }
  }

  lemma CopyZeroMoved(s: State, t: State, o: Owner, f: int)
    requires Core(s) && OnPinned(s, o) && f in s.freeFrames && t == CopyZero(s, o, f)
    ensures Moved(s, t, InFrame(s.Pinned()), InFrame(f), {o}, true, true)
  {
    assert Bits(s, o, s.entries[o]);
    assert o in Owners(s, InFrame(s.Pinned()));
  }

  ghost predicate Swapped(s: State, o: Owner) { o in s.entries && s.entries[o].swapBacked && !s.entries[o].resident }

  lemma SwapInMoved(s: State, t: State, o: Owner, f: int, write: bool)
    requires Core(s) && Swapped(s, o) && f in s.freeFrames && t == SwapIn(s, o, f, write)
    ensures Moved(s, t, InSwap(s.entries[o].index), InFrame(f), {o}, write, true)
    ensures 0 <= s.entries[o].index < |s.swap| && !s.entries[o].dirty
  {
    assert Bits(s, o, s.entries[o]);
    assert o in Owners(s, PlaceOf(s.entries[o]));
  }

  lemma SwapInInv(s: State, o: Owner, f: int, write: bool)
    requires Core(s) && Swapped(s, o) && f in s.freeFrames
    ensures Core(SwapIn(s, o, f, write))
  {
    var t := SwapIn(s, o, f, write);
    var from, to := InSwap(s.entries[o].index), InFrame(f);
    SwapInMoved(s, t, o, f, write);
    MovedPlaces(s, t, from, to, {o}, write, true);
    MovedBits(s, t, from, to, {o}, write, true);
    MovedBlocks(s, t, from, to, o, write, true);
    PushFrame(s, t, f);
    SwapKept(s, t);
    SwapInContents(s, t, o, f, write);
  }

  lemma SwapInContents(s: State, t: State, o: Owner, f: int, write: bool)
    requires FramesOk(s) && PlacesOk(s) && ContentsOk(s) && Swapped(s, o) && f in s.freeFrames
    requires t.swapDisk == s.swapDisk && t.disk == s.disk
    requires t.mem == Put(s.mem, f, PageAt(s.swapDisk, s.entries[o].index))
    requires t.entries == s.entries[o := Loaded(s.entries[o], f, write)] && t.Pinned() == s.Pinned()
    ensures ContentsOk(t)
  {
    forall p | p in t.entries ensures Clean(t, t.entries[p]) {
      assert Clean(s, s.entries[p]);
      if p != o { FilledContents(s, t, f, p); }
    }
  }

  ghost predicate Loadable(s: State, fb: FileBlock) { fb in s.seen && fb !in s.inMem && fb in s.disk }

  lemma FileInMoved(s: State, t: State, fb: FileBlock, f: int, write: bool)
    requires Core(s) && Loadable(s, fb) && f in s.freeFrames && t == FileIn(s, fb, f, write)
    ensures Moved(s, t, InFile(fb), InFrame(f), Owners(s, InFile(fb)), write, true)
    ensures SelfOwner(fb) in Owners(s, InFile(fb))
  {
    assert SelfOf(s, fb);
    forall p | p in Owners(s, InFile(fb)) ensures Rehomed(s, s.entries[p], t.entries[p], InFrame(f), write, true) {
      assert Bits(s, p, s.entries[p]);
    }
  }

  lemma FileInBlocks(s: State, t: State, fb: FileBlock, f: int, write: bool)
    requires PlacesOk(s) && BlocksOk(s) && Loadable(s, fb) && Owners(s, InFrame(f)) == {}
    requires Moved(s, t, InFile(fb), InFrame(f), Owners(s, InFile(fb)), write, true)
    requires t.inMem == s.inMem[fb := f] && t.disk == s.disk
    ensures BlocksOk(t)
  {
    forall c | c in t.seen ensures SelfOf(t, c) { assert SelfOf(s, c); }
    forall c | c in t.inMem ensures OneBlock(t, Owners(t, InFrame(t.inMem[c])), c) {
      if c != fb {
        assert OneBlock(s, Owners(s, InFrame(s.inMem[c])), c) && SelfOf(s, c);
        assert SelfOwner(c) in Owners(s, InFrame(s.inMem[c]));
      }
    }
  }

  lemma FileInInv(s: State, fb: FileBlock, f: int, write: bool)
    requires Core(s) && Loadable(s, fb) && f in s.freeFrames
    ensures Core(FileIn(s, fb, f, write))
  {
    var t := FileIn(s, fb, f, write);
    var os := Owners(s, InFile(fb));
    FileInMoved(s, t, fb, f, write);
    MovedPlaces(s, t, InFile(fb), InFrame(f), os, write, true);
    MovedBits(s, t, InFile(fb), InFrame(f), os, write, true);
    FileInBlocks(s, t, fb, f, write);
    PushFrame(s, t, f);
    SwapKept(s, t);
    FileInContents(s, t, fb, f, write);
  }

  lemma FileInContents(s: State, t: State, fb: FileBlock, f: int, write: bool)
    requires FramesOk(s) && PlacesOk(s) && ContentsOk(s) && Loadable(s, fb) && f in s.freeFrames
    requires t.swapDisk == s.swapDisk && t.disk == s.disk && t.mem == Put(s.mem, f, s.disk[fb])
    requires t.Pinned() == s.Pinned()
    requires Moved(s, t, InFile(fb), InFrame(f), Owners(s, InFile(fb)), write, true)
    ensures ContentsOk(t)
  {
    forall p | p in t.entries ensures Clean(t, t.entries[p]) {
      assert Clean(s, s.entries[p]);
      if p !in Owners(s, InFile(fb)) { FilledContents(s, t, f, p); }
    }
  }

  // ----- vm_map -----

  /** A new entry `x` for `o` joins the owners of its place. */
  ghost predicate Joined(s: State, t: State, o: Owner, x: Entry) {
    && o !in s.entries && t.entries == s.entries[o := x]
    && |t.phys| == |s.phys| && |t.swap| == |s.swap| && |t.mem| == |s.mem| && |t.swapDisk| == |s.swapDisk|
    && t.clock == s.clock && t.freeFrames == s.freeFrames
    && forall at {:trigger Owners(t, at)} ::
         Owners(t, at) == if at == PlaceOf(x) then Owners(s, at) + {o} else Owners(s, at)
  }

  lemma JoinedPlaces(s: State, t: State, o: Owner, x: Entry)
    requires FramesOk(s) && PlacesOk(s) && Joined(s, t, o, x)
    requires PlaceOf(x).InFrame? ==> PlaceOf(x).frame !in s.freeFrames
    ensures FramesOk(t) && PlacesOk(t)
  {
    forall at, p ensures p in Owners(t, at) <==> p in t.entries && PlaceOf(t.entries[p]) == at {
      assert p in Owners(s, at) <==> p in s.entries && PlaceOf(s.entries[p]) == at;
    }
  }

  lemma JoinedBits(s: State, t: State, o: Owner, x: Entry)
    requires PlacesOk(s) && BitsOk(s) && Joined(s, t, o, x) && Bits(t, o, x)
    requires s.seen <= t.seen
    requires PlaceOf(x) == InFrame(s.Pinned()) || !x.swapBacked
    requires !x.swapBacked && x.resident ==> OneBlock(s, Owners(s, PlaceOf(x)), x.Block())
    ensures BitsOk(t)
  {
    forall p | p in t.entries ensures Bits(t, p, t.entries[p]) {
      if p != o {
        assert Bits(s, p, s.entries[p]);
        assert p in Owners(s, PlaceOf(s.entries[p]));
      }
    }
  }

  lemma JoinedBlocks(s: State, t: State, o: Owner, x: Entry)
    requires PlacesOk(s) && BlocksOk(s) && Joined(s, t, o, x) && o.Virt? && t.seen == s.seen && t.inMem == s.inMem
    requires t.disk == s.disk
    requires forall fb :: fb in s.inMem && PlaceOf(x) == InFrame(s.inMem[fb]) ==> OfBlock(x, fb)
    ensures BlocksOk(t)
  {
    forall fb | fb in t.seen ensures SelfOf(t, fb) { assert SelfOf(s, fb); }
    forall fb | fb in t.inMem ensures OneBlock(t, Owners(t, InFrame(t.inMem[fb])), fb) {
      assert OneBlock(s, Owners(s, InFrame(s.inMem[fb])), fb);
    }
  }

  lemma JoinedContents(s: State, t: State, o: Owner, x: Entry)
    requires ContentsOk(s) && Joined(s, t, o, x) && Clean(s, x)
    requires t.mem == s.mem && t.disk == s.disk && t.swapDisk == s.swapDisk
    ensures ContentsOk(t)
  {
    forall p | p in t.entries ensures Clean(t, t.entries[p]) {
      if p != o { assert Clean(s, s.entries[p]); }
    }
  }

  /** One more swap-backed page without a block, or one more file-backed page. */
  lemma JoinedSwap(s: State, t: State, o: Owner, x: Entry)
    requires SwapOk(s) && Joined(s, t, o, x) && t.freeSwap == s.freeSwap && (x.swapBacked ==> x.index == -1)
    requires t.total == (if x.swapBacked then s.total + 1 else s.total) <= |s.swap|
    ensures SwapOk(t)
  {
    assert SwapOwners(t.entries) == SwapOwners(s.entries) + if x.swapBacked then {o} else {};
    forall b | 0 <= b < |t.swap| && b !in t.freeSwap ensures BlockHolder(t, b) {
      assert BlockHolder(s, b);
      var p :| p in s.entries && s.entries[p].swapBacked && s.entries[p].index == b;
      assert t.entries[p] == s.entries[p];
    }
    forall p, q | p in t.entries && q in t.entries && p != q ensures DifferentBlocks(t.entries[p], t.entries[q]) {
      if p != o && q != o { assert DifferentBlocks(s.entries[p], s.entries[q]); }
    }
  }

  /** The new entry, given its bits. */
  ghost predicate Joining(s: State, t: State, o: Owner, x: Entry) {
    && Joined(s, t, o, x) && Bits(t, o, x) && Clean(s, x)
    && s.seen <= t.seen && t.mem == s.mem && t.disk == s.disk && t.swapDisk == s.swapDisk && t.freeSwap == s.freeSwap
    && (PlaceOf(x).InFrame? ==> PlaceOf(x).frame !in s.freeFrames)
    && (if x.swapBacked then PlaceOf(x) == InFrame(s.Pinned()) && x.index == -1
        else x.resident ==> OneBlock(s, Owners(s, PlaceOf(x)), x.Block()))
    && t.total == (if x.swapBacked then s.total + 1 else s.total) <= |s.swap|
  }

  lemma JoiningCore(s: State, t: State, o: Owner, x: Entry)
    requires Core(s) && Joining(s, t, o, x)
    ensures FramesOk(t) && PlacesOk(t) && BitsOk(t) && ContentsOk(t) && SwapOk(t)
  {
    JoinedPlaces(s, t, o, x);
    JoinedBits(s, t, o, x);
    JoinedContents(s, t, o, x);
    JoinedSwap(s, t, o, x);
  }

  function NextOwner(s: State): Owner { Virt(s.curr, Size(s)) }

  lemma MapSwapInv(s: State)
    requires Inv(s) && s.curr in s.sizes
    ensures Inv(MapSwap(s).0)
  {
    var t, o := MapSwap(s).0, NextOwner(s);
    if t != s {
      var x := t.entries[o];
      PinnedOwners(s);
      assert Joined(s, t, o, x);
      JoiningCore(s, t, o, x);
      JoinedBlocks(s, t, o, x);
    }
  }

  lemma PinnedOwners(s: State)
    requires FramesOk(s) && PlacesOk(s) && BlocksOk(s)
    requires BitsOk(s)
    ensures forall fb :: fb in s.inMem ==> s.inMem[fb] != s.Pinned()
  {
    forall fb | fb in s.inMem ensures s.inMem[fb] != s.Pinned() {
      assert SelfOf(s, fb) && Bits(s, SelfOwner(fb), s.entries[SelfOwner(fb)]);
    }
  }

  ghost predicate BlockNumber(fb: FileBlock) { 0 <= fb.block < MAX_BLOCK }

  lemma MapSelfJoined(s: State, fb: FileBlock, t: State)
    requires BlocksOk(s) && fb !in s.seen && t == MapSelf(s, fb)
    ensures Joined(s, t, SelfOwner(fb), NewFileEntry(fb))
  {}

  lemma MapSelfJoins(s: State, fb: FileBlock, t: State)
    requires s.total <= |s.swap| && fb !in s.seen && BlockNumber(fb) && t == MapSelf(s, fb)
    requires Joined(s, t, SelfOwner(fb), NewFileEntry(fb))
    ensures Joining(s, t, SelfOwner(fb), NewFileEntry(fb))
  {}

  /** The permanent owner appears. */
  lemma MapSelfInv(s: State, fb: FileBlock, t: State)
    requires Core(s) && fb !in s.seen && BlockNumber(fb)
    requires t == MapSelf(s, fb)
    ensures Core(t)
  {
    MapSelfJoined(s, fb, t);
    MapSelfJoins(s, fb, t);
    JoiningCore(s, t, SelfOwner(fb), NewFileEntry(fb));
    MapSelfBlocks(s, fb, t);
  }

  lemma MapSelfBlocks(s: State, fb: FileBlock, t: State)
    requires PlacesOk(s) && BlocksOk(s) && fb !in s.seen && BlockNumber(fb)
    requires Joined(s, t, SelfOwner(fb), NewFileEntry(fb))
    requires t.seen == s.seen + {fb} && t.inMem == s.inMem && t.disk == s.disk
    ensures BlocksOk(t)
  {
    forall c | c in t.seen ensures SelfOf(t, c) { if c != fb { assert SelfOf(s, c); } }
    forall c | c in t.inMem ensures OneBlock(t, Owners(t, InFrame(t.inMem[c])), c) {
      assert OneBlock(s, Owners(s, InFrame(s.inMem[c])), c);
    }
  }

  lemma JoinColdInv(s: State, o: Owner, fb: FileBlock, t: State)
    requires Core(s) && fb in s.seen && fb !in s.inMem && BlockNumber(fb) && o.Virt? && o !in s.entries
    requires t == JoinCold(s, o, fb)
    ensures Core(t)
  {
    var x := NewFileEntry(fb);
    assert SelfOf(s, fb) && Bits(s, SelfOwner(fb), s.entries[SelfOwner(fb)]);
    assert Joined(s, t, o, x);
    JoiningCore(s, t, o, x);
    JoinedBlocks(s, t, o, x);
  }

  lemma MapColdInv(s: State, o: Owner, fb: FileBlock, t: State)
    requires Core(s) && fb !in s.inMem && BlockNumber(fb) && o.Virt? && o !in s.entries
    requires t == MapCold(s, o, fb)
    ensures Core(t)
  {
    if fb in s.seen { JoinColdInv(s, o, fb, t); } else {
      var m := MapSelf(s, fb);
      MapSelfInv(s, fb, m);
      JoinColdInv(m, o, fb, t);
    }
  }

  /** `peer` is the owner get_virtual_owner hands out. */
  ghost predicate Peer(s: State, fb: FileBlock, peer: Owner) {
    fb in s.inMem ==> peer in Owners(s, InFrame(s.inMem[fb])) && peer in s.entries
  }

  lemma MapHotInv(s: State, o: Owner, fb: FileBlock, peer: Owner, t: State)
    requires Core(s) && fb in s.inMem && Peer(s, fb, peer) && BlockNumber(fb) && o.Virt? && o !in s.entries
    requires t == MapHot(s, o, fb, peer)
    ensures Core(t)
  {
    var x := t.entries[o];
    MapHotJoins(s, o, fb, peer, t);
    JoiningCore(s, t, o, x);
    forall c | c in s.inMem && PlaceOf(x) == InFrame(s.inMem[c]) ensures OfBlock(x, c) {
      assert OneBlock(s, Owners(s, InFrame(s.inMem[c])), c);
    }
    JoinedBlocks(s, t, o, x);
  }

  /** The new entry agrees with the other owners of the frame. */
  lemma MapHotJoins(s: State, o: Owner, fb: FileBlock, peer: Owner, t: State)
    requires Core(s) && fb in s.inMem && Peer(s, fb, peer) && BlockNumber(fb) && o.Virt? && o !in s.entries
    requires t == MapHot(s, o, fb, peer)
    ensures o in t.entries && Joined(s, t, o, t.entries[o]) && Joining(s, t, o, t.entries[o])
    ensures t.inMem == s.inMem && t.disk == s.disk && t.seen == s.seen && OfBlock(t.entries[o], fb)
    ensures t.entries[o].resident && t.entries[o].ppage == s.inMem[fb] && peer in Owners(s, InFrame(s.inMem[fb]))
  {
    var f := s.inMem[fb];
    assert OneBlock(s, Owners(s, InFrame(f)), fb) && SelfOf(s, fb);
    assert Bits(s, peer, s.entries[peer]) && Bits(s, SelfOwner(fb), s.entries[SelfOwner(fb)]);
    assert Clean(s, s.entries[peer]);
  }

  lemma MapFileCore(s: State, fb: FileBlock, peer: Owner, t: State)
    requires Core(s) && BlockNumber(fb) && Peer(s, fb, peer) && NextOwner(s) !in s.entries
    requires Size(s) < ARENA_PAGES && t == MapFile(s, fb, peer).0
    ensures Core(t)
  {
    var m := s.(sizes := s.sizes[s.curr := Size(s) + 1]);
    CoreFrame(s, m);
    if fb in s.inMem { MapHotInv(m, NextOwner(s), fb, peer, t); } else { MapColdInv(m, NextOwner(s), fb, t); }
  }

  lemma MapFileTable(s: State, fb: FileBlock, peer: Owner, t: State)
    requires s.curr in s.sizes && Size(s) < ARENA_PAGES && t == MapFile(s, fb, peer).0 && Peer(s, fb, peer)
    ensures GrownTable(s, t)
  {}

  ghost predicate GrownTable(s: State, t: State) {
    && s.curr in s.sizes && t.sizes == s.sizes[s.curr := s.sizes[s.curr] + 1]
    && forall p, i :: Virt(p, i) in t.entries <==> Virt(p, i) in s.entries || Virt(p, i) == NextOwner(s)
  }

  lemma MapFileInv(s: State, fb: FileBlock, peer: Owner)
    requires Inv(s) && s.curr in s.sizes && BlockNumber(fb) && Peer(s, fb, peer)
    ensures Inv(MapFile(s, fb, peer).0)
  {
    if Size(s) < ARENA_PAGES {
      var t := MapFile(s, fb, peer).0;
      MapFileCore(s, fb, peer, t);
      MapFileTable(s, fb, peer, t);
      GrownTables(s, t);
    }
  }

  lemma GrownTables(s: State, t: State)
    requires Tables(s) && GrownTable(s, t) && Size(s) < ARENA_PAGES
    ensures Tables(t)
  {}

  /** The tables' lengths and the current process play no part in Core. */
  lemma CoreFrame(s: State, t: State)
    requires Core(s) && t == s.(sizes := t.sizes, curr := t.curr)
    ensures Core(t)
  {
    forall at ensures Owners(t, at) == Owners(s, at) {}
    forall o | o in t.entries ensures Bits(t, o, t.entries[o]) && Clean(t, t.entries[o]) {
      assert Bits(s, o, s.entries[o]) && Clean(s, s.entries[o]);
    }
    forall fb | fb in t.seen ensures SelfOf(t, fb) { assert SelfOf(s, fb); }
    forall fb | fb in t.inMem ensures OneBlock(t, Owners(t, InFrame(t.inMem[fb])), fb) {
      assert OneBlock(s, Owners(s, InFrame(s.inMem[fb])), fb);
    }
    SwapKept(s, t);
  }

  // ----- vm_destroy -----

  /** The entry of `o` is gone, and `o` with it from the owner set it was in. */
  ghost predicate Left(s: State, t: State, o: Owner) {
    && o in s.entries && o.Virt? && t.entries == s.entries - {o}
    && |t.phys| == |s.phys| && |t.swap| == |s.swap| && t.mem == s.mem && t.swapDisk == s.swapDisk && t.disk == s.disk
    && t.seen == s.seen && t.inMem == s.inMem
    && forall at {:trigger Owners(t, at)} ::
         Owners(t, at) == if at == PlaceOf(s.entries[o]) then Owners(s, at) - {o} else Owners(s, at)
  }

  lemma LeftPlaces(s: State, t: State, o: Owner)
    requires PlacesOk(s) && Left(s, t, o)
    ensures PlacesOk(t)
  {
    forall at, p ensures p in Owners(t, at) <==> p in t.entries && PlaceOf(t.entries[p]) == at {
      assert p in Owners(s, at) <==> p in s.entries && PlaceOf(s.entries[p]) == at;
    }
  }

  lemma LeftBits(s: State, t: State, o: Owner)
    requires PlacesOk(s) && BitsOk(s) && Left(s, t, o)
    ensures BitsOk(t)
  {
    forall p | p in t.entries ensures Bits(t, p, t.entries[p]) {
      assert Bits(s, p, s.entries[p]);
      assert p in Owners(s, PlaceOf(s.entries[p])) && o in Owners(s, PlaceOf(s.entries[o]));
    }
  }

  lemma LeftBlocks(s: State, t: State, o: Owner)
    requires PlacesOk(s) && BlocksOk(s) && ContentsOk(s) && Left(s, t, o)
    ensures BlocksOk(t) && ContentsOk(t)
  {
    forall fb | fb in t.seen ensures SelfOf(t, fb) { assert SelfOf(s, fb); }
    forall fb | fb in t.inMem ensures OneBlock(t, Owners(t, InFrame(t.inMem[fb])), fb) {
      assert OneBlock(s, Owners(s, InFrame(s.inMem[fb])), fb);
      assert o in Owners(s, PlaceOf(s.entries[o]));
    }
    forall p | p in t.entries ensures Clean(t, t.entries[p]) { assert Clean(s, s.entries[p]); }
  }

  lemma LeftSwap(s: State, t: State, o: Owner, e: Entry)
    requires SwapOk(s) && Left(s, t, o) && e == s.entries[o] && (e.swapBacked ==> -1 <= e.index < |s.swap|)
    requires t.freeSwap == if e.swapBacked && e.index != -1 then s.freeSwap + {e.index} else s.freeSwap
    requires t.total == if e.swapBacked then s.total - 1 else s.total
    ensures SwapOk(t)
  {
    assert SwapOwners(t.entries) == SwapOwners(s.entries) - {o};
    forall b | 0 <= b < |t.swap| && b !in t.freeSwap ensures BlockHolder(t, b) {
      assert BlockHolder(s, b);
      var p :| p in s.entries && s.entries[p].swapBacked && s.entries[p].index == b;
      assert t.entries[p] == s.entries[p];
    }
    forall p, q | p in t.entries && q in t.entries && p != q ensures DifferentBlocks(t.entries[p], t.entries[q]) {
      assert DifferentBlocks(s.entries[p], s.entries[q]);
    }
    forall p | p in t.entries && t.entries[p].swapBacked ensures t.entries[p].index !in t.freeSwap {
      assert DifferentBlocks(s.entries[p], e);
      assert s.entries[p].index !in s.freeSwap;
    }
  }

  lemma {:induction false} WithoutSpec(xs: seq<int>, x: int)
    requires NoDup(xs)
    ensures NoDup(Without(xs, x)) && x !in Without(xs, x)
    ensures forall y :: y in Without(xs, x) <==> y in xs && y != x
  {
    if xs != [] {
      var tail := xs[1..];
      assert xs == [xs[0]] + tail;
      assert forall i | 0 <= i < |tail| :: tail[i] == xs[i + 1];
      assert xs[0] !in tail;
      WithoutSpec(tail, x);
    }
  }

  lemma {:induction false} WithoutAt(xs: seq<int>, i: nat)
    requires i < |xs| && forall j | 0 <= j < i :: xs[j] != xs[i]
    ensures Without(xs, xs[i]) == xs[..i] + xs[i + 1..]
  {
    if i > 0 {
      WithoutAt(xs[1..], i - 1);
      assert [xs[0]] + xs[1..][..i - 1] == xs[..i];
    }
  }

  lemma ReleaseFrames(s: State, t: State, o: Owner)
    requires FramesOk(s) && PlacesOk(s) && Left(s, t, o) && s.entries[o].resident && s.entries[o].ppage != s.Pinned()
    requires Owners(s, PlaceOf(s.entries[o])) == {o} && s.entries[o].ppage in s.clock
    requires t.clock == Without(s.clock, s.entries[o].ppage) && t.freeFrames == s.freeFrames + {s.entries[o].ppage}
    ensures FramesOk(t)
  {
    WithoutSpec(s.clock, s.entries[o].ppage);
  }

  lemma ResidentFrame(s: State, o: Owner)
    requires FramesOk(s) && PlacesOk(s) && o in s.entries && s.entries[o].resident && s.entries[o].ppage != s.Pinned()
    ensures s.entries[o].ppage in s.clock && 0 <= s.entries[o].ppage < |s.phys|
  {
    assert o in Owners(s, InFrame(s.entries[o].ppage));
  }

  lemma ReleaseSwapLeft(s: State, o: Owner, t: State)
    requires FramesOk(s) && PlacesOk(s) && SwapOk(s) && o in s.entries && Bits(s, o, s.entries[o])
    requires s.entries[o].swapBacked
    requires t == ReleaseSwap(s, o, s.entries[o])
    ensures Left(s, t, o)
  {
    var e := s.entries[o];
    if e.resident && e.index != -1 {
      forall p | p in s.entries && p != o ensures PlaceOf(s.entries[p]) != InSwap(e.index) {
        assert DifferentBlocks(s.entries[p], e);
      }
      forall p ensures p !in Owners(s, InSwap(e.index)) {}
    }
  }

  lemma ReleaseSwapInv(s: State, o: Owner, t: State)
    requires Core(s) && o in s.entries && s.entries[o].swapBacked && t == ReleaseSwap(s, o, s.entries[o])
    ensures Core(t)
  {
    assert Bits(s, o, s.entries[o]);
    ReleaseSwapLeft(s, o, t);
    LeftPlaces(s, t, o);
    LeftBits(s, t, o);
    LeftBlocks(s, t, o);
    LeftSwap(s, t, o, s.entries[o]);
    if s.entries[o].resident && s.entries[o].ppage != s.Pinned() {
      ResidentFrame(s, o);
      ReleaseFrames(s, t, o);
    } else {
      forall g | 0 <= g < s.Pinned() ensures Owners(t, InFrame(g)) == Owners(s, InFrame(g)) {}
    }
  }

  lemma ReleaseFileLeft(s: State, o: Owner, t: State)
    requires PlacesOk(s) && BlocksOk(s) && o in s.entries && o.Virt? && !s.entries[o].swapBacked
    requires Bits(s, o, s.entries[o])
    requires t == ReleaseFile(s, o, s.entries[o])
    ensures Left(s, t, o)
    ensures FramesOk(s) ==> FramesOk(t)
  {
    var e, q := s.entries[o], SelfOwner(s.entries[o].Block());
    assert SelfOf(s, e.Block());
    assert q in Owners(s, PlaceOf(e));
    assert Left(s, t, o);
    forall g | g != s.Pinned() && Owners(s, InFrame(g)) != {} ensures Owners(t, InFrame(g)) != {} {
      assert PlaceOf(e) == InFrame(g) ==> q in Owners(t, InFrame(g));
    }
  }

  lemma ReleaseInv(s: State, o: Owner, t: State)
    requires Core(s) && o in s.entries && o.Virt? && t == Release(s, o)
    ensures Core(t) && t.entries == s.entries - {o}
  {
    if s.entries[o].swapBacked { ReleaseSwapInv(s, o, t); } else {
      assert Bits(s, o, s.entries[o]);
      ReleaseFileLeft(s, o, t);
      LeftPlaces(s, t, o);
      LeftBits(s, t, o);
      LeftBlocks(s, t, o);
      LeftSwap(s, t, o, s.entries[o]);
    }
  }

  lemma {:induction false} ReleaseUpToEntries(s: State, pid: int, n: nat)
    ensures ReleaseUpTo(s, pid, n).sizes == s.sizes && ReleaseUpTo(s, pid, n).curr == s.curr
    ensures forall o :: o in ReleaseUpTo(s, pid, n).entries <==>
      o in s.entries && !(o.Virt? && o.pid == pid && 0 <= o.page < n)
  {
    if n > 0 { ReleaseUpToEntries(s, pid, n - 1); }
  }

  /** Releasing the first `n` pages of a process, as ~Process does one by one. */
  lemma {:induction false} ReleaseUpToCore(s: State, pid: int, n: nat)
    requires Core(s) && forall i | 0 <= i < n :: Virt(pid, i) in s.entries
    ensures Core(ReleaseUpTo(s, pid, n))
  {
    if n > 0 {
      ReleaseUpToCore(s, pid, n - 1);
      ReleaseUpToEntries(s, pid, n - 1);
      assert Virt(pid, n - 1) in s.entries;
      ReleaseInv(ReleaseUpTo(s, pid, n - 1), Virt(pid, n - 1), ReleaseUpTo(s, pid, n));
    }
  }

  lemma DestroyInv(s: State)
    requires Inv(s) && s.curr in s.sizes
    ensures Inv(Destroy(s))
  {
    var t := ReleaseUpTo(s, s.curr, Size(s));
    ReleaseUpToEntries(s, s.curr, Size(s));
    ReleaseUpToCore(s, s.curr, Size(s));
    CoreFrame(t, Destroy(s));
  }

  // ----- stores, vm_create, vm_switch -----

  lemma PokeInv(s: State, page: int, off: int, v: char)
    requires Inv(s) && WriteEnabled(s, page)
    ensures Inv(Poke(s, page, off, v))
  {
    var t, o := Poke(s, page, off, v), Virt(s.curr, page);
    var f := s.entries[o].ppage;
    assert Bits(s, o, s.entries[o]);
    ResidentFrame(s, o);
    assert o in Owners(s, InFrame(f));
    FrameKind(s, f, o);
    PokeCore(s, t, f);
    forall p | p in t.entries ensures Clean(t, t.entries[p]) {
      assert Clean(s, s.entries[p]);
      if s.entries[p].resident && s.entries[p].ppage == f { assert p in Owners(s, InFrame(f)); }
    }
  }

  lemma PokeCore(s: State, t: State, f: int)
    requires Inv(s) && t == s.(mem := t.mem) && |t.mem| == |s.mem|
    ensures FramesOk(t) && PlacesOk(t) && BitsOk(t) && BlocksOk(t) && SwapOk(t) && Tables(t)
  {
    forall at ensures Owners(t, at) == Owners(s, at) {}
    forall o | o in t.entries ensures Bits(t, o, t.entries[o]) { assert Bits(s, o, s.entries[o]); }
    forall fb | fb in t.seen ensures SelfOf(t, fb) { assert SelfOf(s, fb); }
    forall fb | fb in t.inMem ensures OneBlock(t, Owners(t, InFrame(t.inMem[fb])), fb) {
      assert OneBlock(s, Owners(s, InFrame(s.inMem[fb])), fb);
    }
    SwapKept(s, t);
  }

  lemma CreateInv(s: State, pid: int)
    requires Inv(s) && pid !in s.sizes
    ensures Inv(Create(s, pid))
  {
    CoreFrame(s, Create(s, pid));
  }

  lemma SwitchInv(s: State, pid: int)
    requires Inv(s)
    ensures Inv(Switch(s, pid))
  {
    CoreFrame(s, Switch(s, pid));
  }
}
