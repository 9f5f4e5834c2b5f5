/** What a client sees of the file server, from the requests served so far alone: who owns a path, whether it is a
    directory and what a block of it holds are decided by the last request that was about it. Every reply of every
    run is the one that this history calls for. */
module FsHistory {
  import opened Wrappers
  import opened FsDisk
  import opened FsTree
  import opened FsSteps
  import opened FsRefine
  import opened FsRun

  /** The last request of the log was about `p` and was done. */
  predicate Touches(log: seq<Commit>, p: Path) {
    log != [] && log[|log| - 1].reply == Done && log[|log| - 1].req.path == p
  }

  function OwnerOf(start: Tree, log: seq<Commit>, p: Path): Option<string>
    decreases |log|
  {
    if log == [] then if p in start then Some(start[p].owner) else None
    else if !Touches(log, p) then OwnerOf(start, log[..|log| - 1], p)
    else
      match log[|log| - 1].req
      case Create(user, _, _) => Some(user)
      case Delete(_, _) => None
      case _ => OwnerOf(start, log[..|log| - 1], p)
  }

  predicate IsFolder(start: Tree, log: seq<Commit>, p: Path)
    decreases |log|
  {
    if log == [] then p in start && start[p].Dir?
    else if !Touches(log, p) then IsFolder(start, log[..|log| - 1], p)
    else
      match log[|log| - 1].req
      case Create(_, _, dir) => dir
      case Delete(_, _) => false
      case _ => IsFolder(start, log[..|log| - 1], p)
  }

  /** What was last written to block `i` of a file since the file was made. */
  function BlockOf(start: Tree, log: seq<Commit>, p: Path, i: nat): Option<string>
    decreases |log|
  {
    if log == [] then
      if p in start && start[p].File? && i < |start[p].contents| then Some(start[p].contents[i]) else None
    else if !Touches(log, p) then BlockOf(start, log[..|log| - 1], p, i)
    else
      match log[|log| - 1].req
      case Create(_, _, _) => None
      case Delete(_, _) => None
      case Write(_, _, block, data) => if block == i then Some(data) else BlockOf(start, log[..|log| - 1], p, i)
      case _ => BlockOf(start, log[..|log| - 1], p, i)
  }

  /** The user owns the path and all directories on the way, the root apart. */
  ghost predicate MayUse(start: Tree, log: seq<Commit>, user: string, p: Path) {
    forall k {:trigger p[..k]} :: 0 < k <= |p| ==> OwnerOf(start, log, p[..k]) == Some(user)
  }

  ghost predicate MayDo(start: Tree, log: seq<Commit>, req: Request)
    requires req.path != []
  {
    match req
    case Read(user, p, i) => MayUse(start, log, user, p) && BlockOf(start, log, p, i).Some?
    case Write(user, p, i, data) =>
      && |data| == 512 && i < 124 && MayUse(start, log, user, p) && !IsFolder(start, log, p)
      && (i == 0 || BlockOf(start, log, p, i - 1).Some?)
    case Create(user, p, _) =>
      && MayUse(start, log, user, p[..|p| - 1]) && IsFolder(start, log, p[..|p| - 1]) && OwnerOf(start, log, p) == None
    case Delete(user, p) =>
      && MayUse(start, log, user, p)
      && forall name {:trigger p + [name]} :: OwnerOf(start, log, p + [name]) == None
  }

  /** The reply that a request must get after those in the log. */
  ghost predicate RightReply(start: Tree, log: seq<Commit>, req: Request, reply: Reply)
    requires req.path != []
  {
    if !MayDo(start, log, req) then reply == Failed
    else
      match req
      case Read(_, p, i) => BlockOf(start, log, p, i).Some? && reply == Bytes(BlockOf(start, log, p, i).value)
      case Write(_, p, i, _) => reply == Done || (reply == NoSpace && BlockOf(start, log, p, i) == None)
      case Create(_, _, _) => reply == Done || reply == NoSpace
      case Delete(_, _) => reply == Done
  }

  // ----- the tree is what the history says -----

  ghost predicate PathAgrees(tree: Tree, start: Tree, log: seq<Commit>, p: Path) {
    && OwnerOf(start, log, p) == (if p in tree then Some(tree[p].owner) else None)
    && IsFolder(start, log, p) == (p in tree && tree[p].Dir?)
    && forall i: nat {:trigger BlockOf(start, log, p, i)} ::
         BlockOf(start, log, p, i)
         == if p in tree && tree[p].File? && i < |tree[p].contents| then Some(tree[p].contents[i]) else None
  }

  ghost predicate TreeAgrees(tree: Tree, start: Tree, log: seq<Commit>) {
    forall p {:trigger PathAgrees(tree, start, log, p)} :: PathAgrees(tree, start, log, p)
  }

  /** Files have no children. */
  ghost predicate Rooted(tree: Tree) {
    && [] in tree && tree[[]].Dir?
    && forall q {:trigger q in tree} :: q in tree && q != [] ==> Parent(q) in tree && tree[Parent(q)].Dir?
  }

  /** A request is done: what it says of its path is so, and other paths stay. */
  ghost predicate DoneTo(tree: Tree, req: Request, after: Tree) {
    match req
    case Read(_, _, _) => false
    case Write(_, p, i, data) =>
      && p in tree && tree[p].File? && i <= |tree[p].contents|
      && after == tree[p := File(tree[p].owner, Written(tree[p].contents, i, data))]
    case Create(user, p, dir) => p !in tree && after == tree[p := if dir then Dir(user) else File(user, [])]
    case Delete(_, p) => p in tree && after == tree - {p}
  }

  lemma ServedDoes(tree: Tree, req: Request, after: Tree, reply: Reply)
    requires req.path != [] && Serves(tree, req, after, reply)
    ensures if reply == Done then DoneTo(tree, req, after) else after == tree
  {}

  lemma PathStep(tree: Tree, start: Tree, log: seq<Commit>, c: Commit, more: seq<Commit>, after: Tree, p: Path)
    requires more != [] && more[..|more| - 1] == log && more[|more| - 1] == c && PathAgrees(tree, start, log, p)
    requires if c.reply == Done then DoneTo(tree, c.req, after) else after == tree
    ensures PathAgrees(after, start, more, p)
  {
    forall i: nat
      ensures BlockOf(start, more, p, i)
        == if p in after && after[p].File? && i < |after[p].contents| then Some(after[p].contents[i]) else None
    {
      assert BlockOf(start, log, p, i)
        == if p in tree && tree[p].File? && i < |tree[p].contents| then Some(tree[p].contents[i]) else None;
    }
  }

  lemma RootedStep(tree: Tree, req: Request, after: Tree, reply: Reply)
    requires req.path != [] && Serves(tree, req, after, reply) && Rooted(tree)
    ensures Rooted(after)
  {}

  lemma UseAgrees(tree: Tree, start: Tree, log: seq<Commit>, user: string, p: Path)
    requires TreeAgrees(tree, start, log)
    ensures MayUse(start, log, user, p) <==> Owned(tree, user, p)
  {
    forall k | 0 < k <= |p|
      ensures OwnerOf(start, log, p[..k]) == Some(user) <==> p[..k] in tree && tree[p[..k]].owner == user
    {
      assert PathAgrees(tree, start, log, p[..k]);
    }
  }

  lemma ChildrenAgree(tree: Tree, start: Tree, log: seq<Commit>, p: Path)
    requires TreeAgrees(tree, start, log)
    ensures (forall name {:trigger p + [name]} :: OwnerOf(start, log, p + [name]) == None) <==> Childless(tree, p)
  {
    forall name ensures OwnerOf(start, log, p + [name]) == None <==> p + [name] !in tree {
      assert PathAgrees(tree, start, log, p + [name]);
    }
    forall name | p + [name] in tree ensures !Childless(tree, p) { assert Parent(p + [name]) == p; }
    forall q | q in tree && q != [] && Parent(q) == p ensures p + [Last(q)] in tree { ChildOfParent(q); }
  }

  lemma AllowedAgrees(tree: Tree, start: Tree, log: seq<Commit>, req: Request)
    requires req.path != [] && TreeAgrees(tree, start, log) && Rooted(tree)
    ensures MayDo(start, log, req) <==> Allowed(tree, req)
  {
    var p := req.path;
    assert PathAgrees(tree, start, log, p);
    UseAgrees(tree, start, log, req.user, p);
    assert p[..|p|] == p;
    match req
    case Read(_, _, i) => var _ := BlockOf(start, log, p, i);
    case Write(_, _, i, _) => if i > 0 { var _ := BlockOf(start, log, p, i - 1); }
    case Create(_, _, _) =>
      UseAgrees(tree, start, log, req.user, Parent(p));
      assert PathAgrees(tree, start, log, Parent(p));
    case Delete(_, _) =>
      ChildrenAgree(tree, start, log, p);
      if p in tree && tree[p].File? { forall q | q in tree && q != [] ensures Parent(q) != p {} }
  }

  lemma ReplyAgrees(tree: Tree, start: Tree, log: seq<Commit>, req: Request, after: Tree, reply: Reply)
    requires req.path != [] && Serves(tree, req, after, reply) && TreeAgrees(tree, start, log) && Rooted(tree)
    ensures RightReply(start, log, req, reply)
  {
    AllowedAgrees(tree, start, log, req);
    assert PathAgrees(tree, start, log, req.path);
    if req.Read? || req.Write? { var _ := BlockOf(start, log, req.path, req.block); }
  }

  /** Every request of the log has got its reply in the light of those before it. */
  ghost predicate AllRight(start: Tree, log: seq<Commit>) {
    forall k {:trigger log[k]} :: 0 <= k < |log| ==>
      log[k].req.path != [] && RightReply(start, log[..k], log[k].req, log[k].reply)
  }

  lemma {:induction false} SerialAgrees(start: Tree, log: seq<Commit>, after: Tree)
    requires Serial(start, log, after) && Rooted(start)
    ensures TreeAgrees(after, start, log) && Rooted(after) && AllRight(start, log)
    decreases |log|
  {
    if log == [] { StartAgrees(start); } else {
      var before, c := log[..|log| - 1], log[|log| - 1];
      var mid :| Serial(start, before, mid) && c.req.path != [] && Serves(mid, c.req, after, c.reply);
      SerialAgrees(start, before, mid);
      LastServed(start, log, before, c, mid, after);
    }
  }

  lemma StartAgrees(start: Tree)
    ensures TreeAgrees(start, start, [])
  {
    forall p ensures PathAgrees(start, start, [], p) {}
  }

  lemma LastServed(start: Tree, log: seq<Commit>, before: seq<Commit>, c: Commit, mid: Tree, after: Tree)
    requires log != [] && before == log[..|log| - 1] && c == log[|log| - 1]
    requires c.req.path != [] && Serves(mid, c.req, after, c.reply)
    requires TreeAgrees(mid, start, before) && Rooted(mid) && AllRight(start, before)
    ensures TreeAgrees(after, start, log) && Rooted(after) && AllRight(start, log)
  {
    ServedDoes(mid, c.req, after, c.reply);
    forall p ensures PathAgrees(after, start, log, p) {
      assert PathAgrees(mid, start, before, p);
      PathStep(mid, start, before, c, log, after, p);
    }
    RootedStep(mid, c.req, after, c.reply);
    ReplyAgrees(mid, start, before, c.req, after, c.reply);
    forall k | 0 <= k < |log|
      ensures log[k].req.path != [] && RightReply(start, log[..k], log[k].req, log[k].reply)
    {
      if k < |before| { assert before[k] == log[k] && before[..k] == log[..k]; }
    }
  }

  lemma DiskRooted(d: Disk, x: Index)
    requires WellFormed(d, x)
    ensures Rooted(TreeOf(d, x))
  {
    forall q | q in x.names && q != [] ensures Parent(q) in x.names && Ino(d, x, Parent(q)).dir {
      assert PathOk(d, x, q);
    }
  }

  /** In every run of any number of concurrent requests, every request that has taken effect has got the reply that
      those before it in the log call for: a read finds what was last written to the block, and fails exactly if the
      block is not there or not the user's to read; and so on. The tree is what they have made of it. */
  lemma EveryAnswer(ss: seq<State>, i: nat, k: nat)
    requires Run(ss) && i < |ss| && k < |ss[i].log|
    ensures ss[i].log[k].req.path != []
    ensures RightReply(TreeNow(ss[0]), ss[i].log[..k], ss[i].log[k].req, ss[i].log[k].reply)
    ensures TreeAgrees(TreeNow(ss[i]), TreeNow(ss[0]), ss[i].log)
  {
    RunInv(ss, i);
    DiskRooted(ss[0].disk, ss[0].x);
    SerialAgrees(TreeNow(ss[0]), ss[i].log, TreeNow(ss[i]));
    assert ss[i].log[k] == ss[i].log[k];
  }
}
