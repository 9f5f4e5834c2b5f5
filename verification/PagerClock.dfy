/** The eviction loop computes the textbook second-chance choice. */
module PagerClock {
  import opened PagerState
  import opened PagerInvariant
  import opened PagerSteps

  /** Second chance as a pure function of the clock order and the set of referenced frames: how many
      frames get a second chance. The victim comes next; if all are referenced, it is the old front. */
  function SecondChance(clock: seq<int>, referenced: set<int>): (k: nat)
    ensures k <= |clock|
    ensures forall i | 0 <= i < k :: clock[i] in referenced
    ensures k < |clock| ==> clock[k] !in referenced
  {
    if clock == [] || clock[0] !in referenced then 0 else 1 + SecondChance(clock[1..], referenced)
  }

  function Victim(clock: seq<int>, referenced: set<int>): int
    requires clock != []
  {
    var k := SecondChance(clock, referenced);
    if k < |clock| then clock[k] else clock[0]
  }

  /** The clock after the victim has left. */
  function Survivors(clock: seq<int>, referenced: set<int>): seq<int>
    requires clock != []
  {
    var k := SecondChance(clock, referenced);
    if k < |clock| then clock[k + 1..] + clock[..k] else clock[1..]
  }

  ghost function ReferencedFrames(s: State): set<int> { set f | f in s.clock && ReferencedFrame(s, f) }

  /** What `n` turns of the clock do: rotation, and no other entry than those of the first `n` frames changes. */
  ghost predicate Turned(s: State, t: State, n: nat) {
    && n <= |s.clock| && t.entries.Keys == s.entries.Keys
    && t == s.(entries := t.entries, clock := s.clock[n..] + s.clock[..n])
    && forall o {:trigger t.entries[o]} | o in s.entries ::
         t.entries[o] == if s.entries[o].resident
           && s.entries[o].ppage in s.clock[..n] then Aged(s.entries[o]) else s.entries[o]
  }

  lemma TurnedOnce(s: State, m: State, t: State, n: nat)
    requires PlacesOk(s) && n < |s.clock| && Turned(s, m, n) && t == Tick(m)
    ensures Turned(s, t, n + 1)
  {
    var f := s.clock[n];
    assert m.clock[0] == f;
    assert s.clock[..n + 1] == s.clock[..n] + [f];
    assert t.clock == s.clock[n + 1..] + s.clock[..n + 1];
    forall o | o in s.entries
      ensures t.entries[o] == if s.entries[o].resident
        && s.entries[o].ppage in s.clock[..n + 1] then Aged(s.entries[o]) else s.entries[o]
    {
      assert o in Owners(s, InFrame(f)) <==> PlaceOf(s.entries[o]) == InFrame(f);
      assert Owners(m, InFrame(f)) == Owners(s, InFrame(f));
    }
  }

  lemma {:induction false} TicksSpec(s: State, n: nat)
    requires Core(s) && n <= |s.clock|
    ensures Core(Ticks(s, n)) && Turned(s, Ticks(s, n), n)
  {
    if n == 0 {
      assert s.clock[0..] + s.clock[..0] == s.clock;
    } else {
      TicksSpec(s, n - 1);
      TurnedOnce(s, Ticks(s, n - 1), Ticks(s, n), n - 1);
      TickInv(Ticks(s, n - 1));
    }
  }

  lemma {:induction false} SameChoice(s: State, clock: seq<int>)
    requires forall i | 0 <= i < |clock| :: clock[i] in s.clock
    ensures FirstUnreferenced(s, clock) == SecondChance(clock, ReferencedFrames(s))
  {
    if clock != [] {
      SameChoice(s, clock[1..]);
    }
  }

  /** The reference bit the loop tests, on whichever owner it picks, is the frame's. */
  lemma OwnerBit(s: State, f: int, o: Owner)
    requires Core(s) && f in s.clock && o in Owners(s, InFrame(f))
    ensures o in s.entries && s.entries[o].referenced == ReferencedFrame(s, f)
  {
    FrameKind(s, f, o);
    if ReferencedFrame(s, f) {
      var p :| p in Get(s.phys, f, {}) && p in s.entries && s.entries[p].referenced;
      assert p in Owners(s, InFrame(f)) && Alike(s.entries[o], s.entries[p], f);
    }
  }

  /** A frame in front of the turning clock is referenced exactly when it was at the start. */
  lemma TurnedBit(s: State, t: State, n: nat, f: int)
    requires PlacesOk(s) && Turned(s, t, n)
    ensures ReferencedFrame(t, f) <==> ReferencedFrame(s, f) && f !in s.clock[..n]
  {
    forall o | o in Get(s.phys, f, {}) ensures o in s.entries && PlaceOf(s.entries[o]) == InFrame(f) {
      assert o in Owners(s, InFrame(f));
    }
    if ReferencedFrame(s, f) && f !in s.clock[..n] {
      var o :| o in Get(s.phys, f, {}) && o in s.entries && s.entries[o].referenced;
      assert t.entries[o] == s.entries[o];
    }
  }

  lemma Rotation(clock: seq<int>, referenced: set<int>)
    requires clock != []
    ensures var k := SecondChance(clock, referenced);
      var turned := clock[k..] + clock[..k];
      turned[0] == Victim(clock, referenced) && turned[1..] == Survivors(clock, referenced)
  {}

  lemma SweepTurned(s: State)
    requires Core(s)
    ensures Core(Sweep(s)) && Turned(s, Sweep(s), SecondChance(s.clock, ReferencedFrames(s)))
  {
    SameChoice(s, s.clock);
    TicksSpec(s, FirstUnreferenced(s, s.clock));
  }

  /** The sweep stops with the second-chance victim in front, unreferenced; what is left behind the
      victim is in second-chance order, and exactly the skipped frames lost their reference. */
  lemma SweepSpec(s: State)
    requires Core(s) && s.clock != []
    ensures Sweep(s).clock != []
    ensures Sweep(s).clock[0] == Victim(s.clock, ReferencedFrames(s))
    ensures Sweep(s).clock[1..] == Survivors(s.clock, ReferencedFrames(s))
  {
    SweepTurned(s);
    Rotation(s.clock, ReferencedFrames(s));
  }

  lemma SweepBits(s: State)
    requires Core(s) && s.clock != []
    ensures Sweep(s).clock != [] && !ReferencedFrame(Sweep(s), Sweep(s).clock[0])
    ensures forall f :: ReferencedFrame(Sweep(s), f) <==>
      ReferencedFrame(s, f) && f !in s.clock[..SecondChance(s.clock, ReferencedFrames(s))]
  {
    var k := SecondChance(s.clock, ReferencedFrames(s));
    SweepTurned(s);
    forall f ensures ReferencedFrame(Sweep(s), f) <==> ReferencedFrame(s, f) && f !in s.clock[..k] {
      TurnedBit(s, Sweep(s), k, f);
    }
  }

  /** The test of the eviction loop, after `n` turns, on any owner of the front frame. */
  ghost predicate FrontBit(t: State, referenced: bool) {
    && t.clock != [] && 0 <= t.clock[0] < |t.phys| && t.phys[t.clock[0]] != {}
    && forall o :: o in t.phys[t.clock[0]] ==> o in t.entries && t.entries[o].referenced == referenced
  }

  lemma LoopTest(s: State, n: nat)
    requires Core(s) && s.clock != [] && n <= FirstUnreferenced(s, s.clock)
    ensures FrontBit(Ticks(s, n), n < FirstUnreferenced(s, s.clock))
  {
    var t := Ticks(s, n);
    TicksSpec(s, n);
    TurnedBit(s, t, n, t.clock[0]);
    assert t.clock[0] in t.clock;
    forall o | o in t.phys[t.clock[0]]
      ensures o in t.entries && t.entries[o].referenced == ReferencedFrame(t, t.clock[0])
    {
      OwnerBit(t, t.clock[0], o);
    }
  }

  ghost predicate Sweepable(s: State) {
    forall n: nat {:trigger Ticks(s, n)} | n <= FirstUnreferenced(s, s.clock) ::
      FrontBit(Ticks(s, n), n < FirstUnreferenced(s, s.clock))
  }

  lemma CoreSweepable(s: State)
    requires Core(s) && s.clock != []
    ensures Sweepable(s)
  {
    forall n: nat | n <= FirstUnreferenced(s, s.clock)
      ensures FrontBit(Ticks(s, n), n < FirstUnreferenced(s, s.clock))
    {
      LoopTest(s, n);
    }
  }
}
