/** Runs of the file server: any number of clients, any interleaving. The main results are about every run. */
module FsRun {
  import opened FsDisk
  import opened FsUpdate
  import opened FsTree
  import opened FsSteps
  import opened FsInvariant
  import opened FsSafety
  import opened FsDelete
  import opened FsRefine

  lemma WalkInv(s: State, r: nat, j: Job, t: State)
    requires Inv(s) && Is(s, r, j) && WalkStep(s, r, j, t)
    ensures Inv(t)
  {
    if LockStep(s, r, j, t) { LockOk(s, r, j, t); }
    else if PassStep(s, r, j, t) { PassOk(s, r, j, t); }
    else { LookOk(s, r, j, t); }
  }

  lemma FileInv(s: State, r: nat, j: Job, t: State)
    requires Inv(s) && Is(s, r, j) && FileStep(s, r, j, t)
    ensures Inv(t) && TakesEffect(s, r, j, t)
  {
    if ReadStep(s, r, j, t) { ReadOk(s, r, j, t); ReadEffect(s, r, j, t); }
    else if WriteStep(s, r, j, t) { WriteOk(s, r, j, t); WriteEffect(s, r, j, t); }
    else if GrowStep(s, r, j, t) { GrowOk(s, r, j, t); GrowEffect(s, r, j, t); }
    else if FillStep(s, r, j, t) { FillOk(s, r, j, t); FillEffect(s, r, j, t); }
    else { ChainOk(s, r, j, t); ChainEffect(s, r, j, t); }
  }

  lemma MakeInv(s: State, r: nat, j: Job, t: State)
    requires Inv(s) && Is(s, r, j) && MakeStep(s, r, j, t)
    ensures Inv(t) && TakesEffect(s, r, j, t)
  {
    if CreateStep(s, r, j, t) { CreateOk(s, r, j, t); CreateEffect(s, r, j, t); }
    else if TableStep(s, r, j, t) { TableStepOk(s, r, j, t); TableEffect(s, r, j, t); }
    else if InodeStep(s, r, j, t) { InodeStepOk(s, r, j, t); InodeEffect(s, r, j, t); }
    else if PutInodeStep(s, r, j, t) { PutInodeOk(s, r, j, t); PutInodeEffect(s, r, j, t); }
    else if PutTableStep(s, r, j, t) { PutTableOk(s, r, j, t); PutTableEffect(s, r, j, t); }
    else { PutParentOk(s, r, j, t); PutParentEffect(s, r, j, t); }
  }

  lemma EndInv(s: State, r: nat, j: Job, t: State)
    requires Inv(s) && Is(s, r, j) && EndStep(s, r, j, t)
    ensures Inv(t)
  {
    if KeyStep(s, r, j, t) { KeyOk(s, r, j, t); }
    else if EraseStep(s, r, j, t) { EraseOk(s, r, j, t); }
    else { LeaveOk(s, r, j, t); }
  }

  lemma QuietEffect(s: State, r: nat, j: Job, t: State)
    requires Is(s, r, j) && ((WalkStep(s, r, j, t) && !LookStep(s, r, j, t)) || EndStep(s, r, j, t))
    ensures TakesEffect(s, r, j, t)
  {
    if WalkStep(s, r, j, t) { WalkQuiet(s, r, j, t); } else { EndQuiet(s, r, j, t); }
  }

  lemma WalkQuiet(s: State, r: nat, j: Job, t: State)
    requires Is(s, r, j) && (LockStep(s, r, j, t) || PassStep(s, r, j, t))
    ensures t.log == s.log && t.view == s.view && t.x == s.x
  {}

  lemma EndQuiet(s: State, r: nat, j: Job, t: State)
    requires Is(s, r, j) && EndStep(s, r, j, t)
    ensures t.log == s.log && t.view == s.view && t.x == s.x
  {}

  /** Every step keeps the invariant, and takes effect at most for its own request. */
  lemma StepInv(s: State, r: nat, j: Job, t: State)
    requires Inv(s) && Is(s, r, j) && Step(s, r, j, t)
    ensures Inv(t) && TakesEffect(s, r, j, t)
  {
    if WalkStep(s, r, j, t) {
      WalkInv(s, r, j, t);
      if LookStep(s, r, j, t) { LookEffect(s, r, j, t); } else { QuietEffect(s, r, j, t); }
    } else if FileStep(s, r, j, t) {
      FileInv(s, r, j, t);
    } else if MakeStep(s, r, j, t) {
      MakeInv(s, r, j, t);
    } else if DeleteStep(s, r, j, t) {
      DeleteOk(s, r, j, t);
      DeleteEffect(s, r, j, t);
    } else {
      EndInv(s, r, j, t);
      QuietEffect(s, r, j, t);
    }
  }

  // ----- who is in the log -----

  /** The request has taken effect; it has only its last write, its key and its locks to see to. */
  predicate Decided(f: Phase) { f.AddKey? || f.Erasing? || f.Leaving? }

  function ReplyOf(f: Phase): Reply { if f.Leaving? then f.reply else Done }

  ghost predicate InLog(log: seq<Commit>, r: nat) { exists i {:trigger log[i]} :: 0 <= i < |log| && log[i].id == r }

  ghost predicate EntryOk(s: State, c: Commit) {
    || (c.id in s.jobs && s.jobs[c.id].req == c.req && Decided(s.jobs[c.id].phase)
      && ReplyOf(s.jobs[c.id].phase) == c.reply)
    || (c.id in s.done && s.done[c.id] == Answer(c.req, c.reply))
  }

  /** Each request that has been answered, or is decided, is in the log once, as it was asked and with its
      reply; no other is. */
  ghost predicate LogOk(s: State) {
    && (forall r {:trigger r in s.done} :: r in s.done ==> r !in s.jobs && InLog(s.log, r))
    && (forall r {:trigger InLog(s.log, r)} :: r in s.jobs ==> (Decided(s.jobs[r].phase) <==> InLog(s.log, r)))
    && (forall i {:trigger s.log[i]} :: 0 <= i < |s.log| ==> EntryOk(s, s.log[i]) && s.log[i].req.path != [])
    && (forall i, k {:trigger s.log[i], s.log[k]} :: 0 <= i < k < |s.log| ==> s.log[i].id != s.log[k].id)
  }

  /** A step either leaves the log alone, and the request as undecided or decided as it was, or decides it. */
  ghost predicate LogStep(s: State, r: nat, j: Job, t: State) {
    if r in t.jobs then
      && t.jobs == s.jobs[r := Job(j.req, t.jobs[r].phase)] && t.done == s.done
      && (t.jobs[r].phase.Erasing? ==> t.disk == s.disk && !Decided(j.phase))
      && if t.log == s.log then
           && Decided(t.jobs[r].phase) == Decided(j.phase)
           && (Decided(j.phase) ==> ReplyOf(t.jobs[r].phase) == ReplyOf(j.phase))
         else
           && !Decided(j.phase) && Decided(t.jobs[r].phase)
           && t.log == s.log + [Commit(r, j.req, ReplyOf(t.jobs[r].phase))]
    else
      && t.log == s.log && t.jobs == s.jobs - {r} && Decided(j.phase)
      && t.done == s.done[r := Answer(j.req, ReplyOf(j.phase))]
  }

  lemma StepLog(s: State, r: nat, j: Job, t: State)
    requires Is(s, r, j) && Step(s, r, j, t)
    ensures LogStep(s, r, j, t)
  {
    if WalkStep(s, r, j, t) { WalkLog(s, r, j, t); }
    else if FileStep(s, r, j, t) { FileLog(s, r, j, t); }
    else if MakeStep(s, r, j, t) { MakeLog(s, r, j, t); }
    else if DeleteStep(s, r, j, t) { DeleteLog(s, r, j, t); }
    else { EndLog(s, r, j, t); }
  }

  lemma WalkLog(s: State, r: nat, j: Job, t: State)
    requires Is(s, r, j) && WalkStep(s, r, j, t)
    ensures LogStep(s, r, j, t)
  {
    if LookStep(s, r, j, t) { LookLog(s, r, j, t); }
  }

  lemma LookLog(s: State, r: nat, j: Job, t: State)
    requires Is(s, r, j) && LookStep(s, r, j, t)
    ensures LogStep(s, r, j, t)
  {}

  lemma FileLog(s: State, r: nat, j: Job, t: State)
    requires Is(s, r, j) && FileStep(s, r, j, t)
    ensures LogStep(s, r, j, t)
  {
    if GrowStep(s, r, j, t) { GrowLog(s, r, j, t); }
    else if WriteStep(s, r, j, t) { WriteLog(s, r, j, t); }
    else if ReadStep(s, r, j, t) { ReadLog(s, r, j, t); }
  }

  lemma ReadLog(s: State, r: nat, j: Job, t: State)
    requires Is(s, r, j) && ReadStep(s, r, j, t)
    ensures LogStep(s, r, j, t)
  {}

  lemma WriteLog(s: State, r: nat, j: Job, t: State)
    requires Is(s, r, j) && WriteStep(s, r, j, t)
    ensures LogStep(s, r, j, t)
  {}

  lemma GrowLog(s: State, r: nat, j: Job, t: State)
    requires Is(s, r, j) && GrowStep(s, r, j, t)
    ensures LogStep(s, r, j, t)
  {}

  lemma MakeLog(s: State, r: nat, j: Job, t: State)
    requires Is(s, r, j) && MakeStep(s, r, j, t)
    ensures LogStep(s, r, j, t)
  {
    if CreateStep(s, r, j, t) { CreateLog(s, r, j, t); }
    else if TableStep(s, r, j, t) { TableLog(s, r, j, t); }
    else if InodeStep(s, r, j, t) { InodeLog(s, r, j, t); }
  }

  lemma CreateLog(s: State, r: nat, j: Job, t: State)
    requires Is(s, r, j) && CreateStep(s, r, j, t)
    ensures LogStep(s, r, j, t)
  {}

  lemma TableLog(s: State, r: nat, j: Job, t: State)
    requires Is(s, r, j) && TableStep(s, r, j, t)
    ensures LogStep(s, r, j, t)
  {}

  lemma InodeLog(s: State, r: nat, j: Job, t: State)
    requires Is(s, r, j) && InodeStep(s, r, j, t)
    ensures LogStep(s, r, j, t)
  {}

  lemma DeleteLog(s: State, r: nat, j: Job, t: State)
    requires Is(s, r, j) && DeleteStep(s, r, j, t)
    ensures LogStep(s, r, j, t)
  {}

  lemma EndLog(s: State, r: nat, j: Job, t: State)
    requires Is(s, r, j) && EndStep(s, r, j, t)
    ensures LogStep(s, r, j, t)
  {}

  lemma LogKept(s: State, r: nat, j: Job, t: State)
    requires LogOk(s) && Is(s, r, j) && LogStep(s, r, j, t)
    ensures LogOk(t) && s.log <= t.log
  {
    forall i | 0 <= i < |t.log| ensures EntryOk(t, t.log[i]) && t.log[i].req.path != [] {
      if i < |s.log| { assert EntryOk(s, s.log[i]); }
    }
    forall q ensures InLog(t.log, q) <==> InLog(s.log, q) || (t.log != s.log && q == r) { LogGrows(s, r, j, t, q); }
    if t.log != s.log {
      forall i | 0 <= i < |s.log| ensures s.log[i].id != r { assert !InLog(s.log, r); }
    }
  }

  lemma LogGrows(s: State, r: nat, j: Job, t: State, q: nat)
    requires LogStep(s, r, j, t)
    ensures InLog(t.log, q) <==> InLog(s.log, q) || (t.log != s.log && q == r)
  {
    if InLog(s.log, q) {
      var i :| 0 <= i < |s.log| && s.log[i].id == q;
      assert t.log[i].id == q;
    }
    if InLog(t.log, q) {
      var i :| 0 <= i < |t.log| && t.log[i].id == q;
      if i < |s.log| { assert s.log[i].id == q; }
    }
    if t.log != s.log { assert t.log[|s.log|].id == r; }
  }

  // ----- runs -----

  /** The server starts on a disk that is a tree: the free set holds every block the tree does not use, and
      there is a key for every path. */
  ghost predicate Start(s: State) {
    && WellFormed(s.disk, s.x) && s.view == s.disk && s.held == map[] && s.jobs == map[] && s.log == []
      && s.done == map[]
    && s.keys == s.x.names.Keys && SpaceOk(s)
    && forall b {:trigger s.x.use[b]} :: b in s.x.use ==> About(s.x.use[b]).Some?
  }

  ghost predicate Run(ss: seq<State>) {
    ss != [] && Start(ss[0]) && forall i {:trigger StepAt(ss, i)} :: 0 <= i < |ss| - 1 ==> StepAt(ss, i)
  }

  ghost predicate StepAt(ss: seq<State>, i: int)
    requires 0 <= i < |ss| - 1
  {
    Next(ss[i], ss[i + 1])
  }

  /** The log, one request after the other, leads from one tree to the other. */
  ghost predicate Serial(before: Tree, log: seq<Commit>, after: Tree)
    decreases |log|
  {
    if log == [] then after == before
    else exists mid {:trigger Serial(before, log[..|log| - 1], mid)} ::
      Serial(before, log[..|log| - 1], mid) && log[|log| - 1].req.path != []
      && Serves(mid, log[|log| - 1].req, after, log[|log| - 1].reply)
  }

  lemma StartInv(s: State)
    requires Start(s)
    ensures Inv(s) && LogOk(s)
  {
    forall r, p ensures !HoldsPath(s, r, p) {}
  }

  lemma NextInv(s: State, t: State)
    requires Inv(s) && LogOk(s) && Next(s, t)
    ensures Inv(t) && LogOk(t) && s.log <= t.log
  {
    if r, req :| BeginStep(s, r, req, t) {
      BeginOk(s, r, req, t);
      BeginLog(s, r, req, t);
    } else {
      var r :| r in s.jobs && Is(s, r, s.jobs[r]) && Step(s, r, s.jobs[r], t);
      StepInv(s, r, s.jobs[r], t);
      StepLog(s, r, s.jobs[r], t);
      LogKept(s, r, s.jobs[r], t);
    }
  }

  /** A new request is not in the log. */
  lemma BeginLog(s: State, r: nat, req: Request, t: State)
    requires LogOk(s) && BeginStep(s, r, req, t)
    ensures LogOk(t) && !InLog(s.log, r)
  {
    forall i | 0 <= i < |t.log| ensures EntryOk(t, t.log[i]) && s.log[i].id != r { assert EntryOk(s, s.log[i]); }
  }

  lemma NextSerial(s: State, t: State, before: Tree)
    requires Inv(s) && LogOk(s) && Next(s, t) && Serial(before, s.log, TreeNow(s))
    ensures Serial(before, t.log, TreeNow(t))
  {
    if exists r, req :: BeginStep(s, r, req, t) {
      assert t.log == s.log && TreeNow(t) == TreeNow(s);
    } else {
      var r :| r in s.jobs && Is(s, r, s.jobs[r]) && Step(s, r, s.jobs[r], t);
      StepInv(s, r, s.jobs[r], t);
      if t.log != s.log { assert t.log[..|t.log| - 1] == s.log; }
    }
  }

  lemma NextAll(s: State, t: State, before: Tree)
    requires Inv(s) && LogOk(s) && Next(s, t) && Serial(before, s.log, TreeNow(s))
    ensures Inv(t) && LogOk(t) && s.log <= t.log && Serial(before, t.log, TreeNow(t))
  {
    NextInv(s, t);
    NextSerial(s, t, before);
  }

  lemma {:induction false} RunInv(ss: seq<State>, i: nat)
    requires Run(ss) && i < |ss|
    ensures Inv(ss[i]) && LogOk(ss[i]) && Serial(TreeNow(ss[0]), ss[i].log, TreeNow(ss[i]))
    ensures i > 0 ==> ss[i - 1].log <= ss[i].log
  {
    if i == 0 { StartInv(ss[0]); } else {
      RunInv(ss, i - 1);
      RunOn(ss, i - 1);
    }
  }

  lemma RunOn(ss: seq<State>, i: nat)
    requires Run(ss) && i + 1 < |ss| && Inv(ss[i]) && LogOk(ss[i])
    requires Serial(TreeNow(ss[0]), ss[i].log, TreeNow(ss[i]))
    ensures Inv(ss[i + 1]) && LogOk(ss[i + 1]) && Serial(TreeNow(ss[0]), ss[i + 1].log, TreeNow(ss[i + 1]))
    ensures ss[i].log <= ss[i + 1].log
  {
    NextInRun(ss, i);
    NextAll(ss[i], ss[i + 1], TreeNow(ss[0]));
  }

  lemma NextInRun(ss: seq<State>, i: nat)
    requires Run(ss) && i + 1 < |ss|
    ensures Next(ss[i], ss[i + 1])
  {
    assert StepAt(ss, i);
  }

  lemma LogInRun(ss: seq<State>, i: nat)
    requires Run(ss) && i < |ss|
    ensures LogOk(ss[i])
  {
    RunInv(ss, i);
  }

  lemma {:induction false} LogsGrow(ss: seq<State>, i: nat, k: nat)
    requires i <= k < |ss| && forall l {:trigger ss[l].log} :: 0 < l < |ss| ==> ss[l - 1].log <= ss[l].log
    ensures ss[i].log <= ss[k].log
    decreases k
  {
    if i < k { LogsGrow(ss, i, k - 1); }
  }

  // ----- linearizability -----

  /** Request `r` has been made, and it is `req`. */
  ghost predicate Known(s: State, r: nat, req: Request) {
    (r in s.jobs && s.jobs[r].req == req) || (r in s.done && s.done[r].req == req)
  }

  /** What a client has asked stays what it has asked. */
  lemma KnownStays(s: State, t: State, r: nat, req: Request)
    requires LogOk(s) && Next(s, t) && Known(s, r, req)
    ensures Known(t, r, req)
  {
    if e, other :| BeginStep(s, e, other, t) {
      assert r != e;
    } else {
      var q :| q in s.jobs && Is(s, q, s.jobs[q]) && Step(s, q, s.jobs[q], t);
      StepLog(s, q, s.jobs[q], t);
      KnownLogged(s, q, s.jobs[q], t, r, req);
    }
  }

  lemma KnownLogged(s: State, q: nat, j: Job, t: State, r: nat, req: Request)
    requires Is(s, q, j) && LogStep(s, q, j, t) && Known(s, r, req) && (r in s.done ==> r !in s.jobs)
    ensures Known(t, r, req)
  {}

  lemma {:induction false} KnownOn(ss: seq<State>, m: nat, i: nat, r: nat)
    requires Run(ss) && m <= i < |ss| && r in ss[m].jobs
    ensures Known(ss[i], r, ss[m].jobs[r].req)
  {
    if m < i {
      KnownOn(ss, m, i - 1, r);
      LogInRun(ss, i - 1);
      NextInRun(ss, i - 1);
      KnownStays(ss[i - 1], ss[i], r, ss[m].jobs[r].req);
    }
  }

  /** Only requests that were being served are answered. */
  lemma NewAnswer(s: State, t: State, r: nat)
    requires Next(s, t) && r in t.done
    ensures r in s.done || r in s.jobs
  {
    if e, other :| BeginStep(s, e, other, t) {
      assert t.done == s.done;
    } else {
      var q :| q in s.jobs && Is(s, q, s.jobs[q]) && Step(s, q, s.jobs[q], t);
      StepLog(s, q, s.jobs[q], t);
    }
  }

  lemma {:induction false} Began(ss: seq<State>, i: nat, r: nat) returns (m: nat)
    requires Run(ss) && i < |ss| && r in ss[i].done
    ensures m <= i && r in ss[m].jobs
  {
    assert i > 0;
    NextInRun(ss, i - 1);
    NewAnswer(ss[i - 1], ss[i], r);
    if r in ss[i - 1].done { m := Began(ss, i - 1, r); } else { m := i - 1; }
  }

  /** By state `i` request `r` was made, and whenever it is being served it is `req`. */
  ghost predicate Made(ss: seq<State>, i: nat, r: nat, req: Request)
    requires i < |ss|
  {
    && (exists m {:trigger ss[m].jobs} :: 0 <= m <= i && r in ss[m].jobs)
    && forall m {:trigger ss[m].jobs} :: 0 <= m <= i && r in ss[m].jobs ==> ss[m].jobs[r].req == req
  }

  lemma KnownMade(ss: seq<State>, i: nat, r: nat, req: Request)
    requires Run(ss) && i < |ss| && LogOk(ss[i]) && Known(ss[i], r, req)
    ensures Made(ss, i, r, req)
  {
    if r in ss[i].done { var m := Began(ss, i, r); }
    forall m | 0 <= m <= i && r in ss[m].jobs ensures ss[m].jobs[r].req == req { KnownOn(ss, m, i, r); }
  }

  /** In every run the requests that have taken effect have the replies, and leave the tree, of the serial
      order in the log. Each answered request is in it, as it was made and with its answer. */
  lemma Linearizable(ss: seq<State>, i: nat, r: nat)
    requires Run(ss) && i < |ss| && r in ss[i].done
    ensures Serial(TreeNow(ss[0]), ss[i].log, TreeNow(ss[i]))
    ensures exists k {:trigger ss[i].log[k]} ::
      0 <= k < |ss[i].log| && ss[i].log[k] == Commit(r, ss[i].done[r].req, ss[i].done[r].reply)
    ensures Made(ss, i, r, ss[i].done[r].req)
  {
    RunInv(ss, i);
    assert InLog(ss[i].log, r);
    var k :| 0 <= k < |ss[i].log| && ss[i].log[k].id == r;
    assert EntryOk(ss[i], ss[i].log[k]);
    KnownMade(ss, i, r, ss[i].done[r].req);
  }

  /** The serial order has nothing else: every request in it was made, and is in it once. */
  lemma NothingElse(ss: seq<State>, i: nat, k: nat, l: nat)
    requires Run(ss) && i < |ss| && k < |ss[i].log| && l < |ss[i].log|
    ensures Made(ss, i, ss[i].log[k].id, ss[i].log[k].req)
    ensures ss[i].log[k].id == ss[i].log[l].id ==> k == l
  {
    RunInv(ss, i);
    assert EntryOk(ss[i], ss[i].log[k]);
    KnownMade(ss, i, ss[i].log[k].id, ss[i].log[k].req);
  }

  /** The serial order respects time: a request that was answered before another began comes before it. */
  lemma RealTime(ss: seq<State>, i: nat, k: nat, r: nat, q: nat, a: nat, b: nat)
    requires Run(ss) && i <= k < |ss| && r in ss[i].done && q !in ss[i].jobs && q !in ss[i].done
    requires a < |ss[k].log| && b < |ss[k].log| && ss[k].log[a].id == r && ss[k].log[b].id == q
    ensures a < b
  {
    RunInv(ss, i);
    RunInv(ss, k);
    forall l | 0 < l < |ss| ensures ss[l - 1].log <= ss[l].log { RunInv(ss, l); }
    LogsGrow(ss, i, k);
    assert InLog(ss[i].log, r);
    var c :| 0 <= c < |ss[i].log| && ss[i].log[c].id == r;
    assert ss[k].log[c].id == r && a == c;
    forall e | 0 <= e < |ss[i].log| ensures ss[i].log[e].id != q { assert EntryOk(ss[i], ss[i].log[e]); }
  }
}
