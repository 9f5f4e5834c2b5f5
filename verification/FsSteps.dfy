/** The file server while it serves any number of requests: each step is one lock operation, one look at a
    directory or file under its lock, one visit to the free set, or one disk write. */
module FsSteps {
  import opened FsDisk
  import opened FsUpdate
  import opened FsLink
  import opened FsUnlink
  import opened FsTree

  /** The entry a delete will clear: the directory's inode and one of its tables, as read under its lock. */
  datatype Above = Above(block: nat, ino: Block, index: nat, slot: nat, table: seq<Entry>)

  /** Where a create puts its entry: slot `slot` of the table with number `index`, in block `table`. */
  datatype Place = Place(table: nat, index: nat, slot: nat, entries: seq<Entry>, grown: bool)

  /** What a request does next. `k` counts the names of its path it has walked, `block` is the inode there. */
  datatype Phase =
    | Waiting(k: nat, block: nat, above: Above)
    | Entering(k: nat, block: nat, above: Above)
    | At(k: nat, block: nat, above: Above)
    | Growing(block: nat, ino: Block)
    | Filling(block: nat, ino: Block, data: nat)
    | Chaining(block: nat, ino: Block, data: nat)
    | NeedTable(block: nat, ino: Block)
    | NeedInode(block: nat, ino: Block, place: Place)
    | PutInode(block: nat, ino: Block, place: Place, inode: nat)
    | PutTable(block: nat, ino: Block, place: Place, inode: nat)
    | PutParent(block: nat, ino: Block, place: Place, inode: nat)
    | AddKey
    | Erasing(block: nat, content: Block)
    | Leaving(locks: set<Path>, reply: Reply)

  datatype Job = Job(req: Request, phase: Phase)

  datatype Commit = Commit(id: nat, req: Request, reply: Reply)

  datatype Answer = Answer(req: Request, reply: Reply)

  /** `disk` is on the disk, `held` are the locked mutexes of blocks_locks and `keys` its keys. History:
      `view` is the disk with the writes that deletes have still to do, `x` says where everything is in it,
      `log` the requests in the order in which they took effect, `done` the answered requests and
      their replies. */
  datatype State = State(
    disk: Disk,
    free: set<nat>,
    held: map<Path, nat>,
    keys: set<Path>,
    jobs: map<nat, Job>,
    view: Disk,
    x: Index,
    log: seq<Commit>,
    done: map<nat, Answer>)

  const NOWHERE := Above(0, Inode(false, "", []), 0, 0, [])

  /** A fresh table. */
  function Unused(): seq<Entry> { seq(8, _ => Entry("", 0)) }

  // ----- what a job holds -----

  function Holds(j: Job): set<Path>
    requires j.req.path != []
  {
    match j.phase
    case Waiting(k, _, _) => if 0 < k <= |j.req.path| then {j.req.path[..k - 1]} else {}
    case Entering(k, _, _) => if 0 < k <= |j.req.path| then {j.req.path[..k - 1], j.req.path[..k]} else {[]}
    case At(k, _, _) => Kept(j.req, k)
    case Growing(_, _) => {j.req.path}
    case Filling(_, _, _) => {j.req.path}
    case Chaining(_, _, _) => {j.req.path}
    case Leaving(locks, _) => locks
    case _ => {Parent(j.req.path)}
  }

  /** Only a delete keeps the directory above its target locked. */
  function Kept(req: Request, k: nat): set<Path>
    requires req.path != []
  {
    if k > |req.path| then {} else
    if req.Delete? && k == |req.path| then {req.path[..k - 1], req.path[..k]} else {req.path[..k]}
  }

  // ----- steps -----

  predicate Is(s: State, r: nat, j: Job) { r in s.jobs && s.jobs[r] == j && j.req.path != [] }

  function SetPhase(s: State, r: nat, phase: Phase): State
    requires r in s.jobs
  {
    s.(jobs := s.jobs[r := s.jobs[r].(phase := phase)])
  }

  /** The request takes effect: from here on its reply is fixed. */
  function Committed(s: State, r: nat, reply: Reply): State
    requires r in s.jobs
  {
    s.(log := s.log + [Commit(r, s.jobs[r].req, reply)])
  }

  function Refuse(s: State, r: nat, locks: set<Path>, reply: Reply): State
    requires r in s.jobs
  {
    SetPhase(Committed(s, r, reply), r, Leaving(locks, reply))
  }

  function Put(s: State, b: nat, v: Block): State { s.(disk := s.disk[b := v], view := s.view[b := v]) }

  function TakeBlock(s: State, r: nat, b: nat): State {
    s.(free := s.free - {b}, x := s.x.(use := s.x.use[b := Taken(r)]))
  }

  ghost predicate BeginStep(s: State, r: nat, req: Request, t: State) {
    r !in s.jobs && r !in s.done && req.path != []
      && t == s.(jobs := s.jobs[r := Job(req, Waiting(0, ROOT_BLOCK, NOWHERE))])
  }

  /** curr_lock->lock(): blocks_locks[path] makes the key if it is not there. */
  ghost predicate LockStep(s: State, r: nat, j: Job, t: State)
    requires Is(s, r, j)
  {
    && j.phase.Waiting? && j.phase.k <= |j.req.path|
    && var p := j.req.path[..j.phase.k];
    && p !in s.held
    && t == SetPhase(s, r, Entering(j.phase.k, j.phase.block, j.phase.above)).(
              held := s.held[p := r], keys := s.keys + {p})
  }

  /** last_lock->unlock(), unless the target of a delete has been reached. */
  ghost predicate PassStep(s: State, r: nat, j: Job, t: State)
    requires Is(s, r, j)
  {
    && j.phase.Entering? && j.phase.k <= |j.req.path|
    && var k := j.phase.k;
    && var a := SetPhase(s, r, At(k, j.phase.block, j.phase.above));
    && t == if k == 0 || (j.req.Delete? && k == |j.req.path|) then a else a.(held := s.held - {j.req.path[..k - 1]})
  }

  /** A directory on the way is read, checked and searched. The code reads its inode and each of its tables by
      itself; they are one step here because the request holds the directory's mutex all the while: no write to
      what it reads is pending (FsSafety.ReadsView), and no other request changes it (FsInvariant.Steady). The
      same goes for the other steps that read a directory or a file. */
  ghost predicate LookStep(s: State, r: nat, j: Job, t: State)
    requires Is(s, r, j)
  {
    && j.phase.At? && j.phase.k < Goal(j.req)
    && var k, b := j.phase.k, j.phase.block;
    && var ino := InodeAt(s.disk, b);
    && if !ino.dir || (b != ROOT_BLOCK && ino.owner != j.req.user) then t == Refuse(s, r, Kept(j.req, k), Failed)
       else
         || (NoEntry(s.disk, ino, j.req.path[k]) && t == Refuse(s, r, Kept(j.req, k), Failed))
         || exists i: nat, l: nat, c: nat {:trigger HasEntry(s.disk, ino, j.req.path[k], i, l, c)} ::
              && HasEntry(s.disk, ino, j.req.path[k], i, l, c)
              && t == SetPhase(s, r, Waiting(k + 1, c, Above(b, ino, i, l, TableAt(s.disk, ino.blocks[i]))))
  }

  ghost predicate ReadStep(s: State, r: nat, j: Job, t: State)
    requires Is(s, r, j)
  {
    && j.phase.At? && j.phase.k == Goal(j.req) && j.req.Read?
    && var ino := InodeAt(s.disk, j.phase.block);
    && if ino.owner != j.req.user || ino.dir || j.req.block >= |ino.blocks|
       then t == Refuse(s, r, Kept(j.req, j.phase.k), Failed)
       else t == Refuse(s, r, Kept(j.req, j.phase.k), Bytes(DataAt(s.disk, ino.blocks[j.req.block])))
  }

  ghost predicate WriteStep(s: State, r: nat, j: Job, t: State)
    requires Is(s, r, j)
  {
    && j.phase.At? && j.phase.k == Goal(j.req) && j.req.Write?
    && var ino := InodeAt(s.disk, j.phase.block);
    && if |j.req.data| != FS_BLOCKSIZE || j.req.block >= FS_MAXFILEBLOCKS || ino.owner != j.req.user || ino.dir
      || j.req.block > |ino.blocks|
       then t == Refuse(s, r, Kept(j.req, j.phase.k), Failed)
       else if j.req.block < |ino.blocks|
       then t == Refuse(Put(s, ino.blocks[j.req.block], Data(j.req.data)), r, {j.req.path}, Done)
       else t == SetPhase(s, r, Growing(j.phase.block, ino))
  }

  ghost predicate GrowStep(s: State, r: nat, j: Job, t: State)
    requires Is(s, r, j)
  {
    && j.phase.Growing?
    && if s.free == {} then t == Refuse(s, r, {j.req.path}, NoSpace)
       else exists b {:trigger TakeBlock(s, r, b)} ::
         b in s.free && t == SetPhase(TakeBlock(s, r, b), r, Filling(j.phase.block, j.phase.ino, b))
  }

  ghost predicate FillStep(s: State, r: nat, j: Job, t: State)
    requires Is(s, r, j)
  {
    && j.phase.Filling? && j.req.Write?
    && t == SetPhase(Put(s, j.phase.data, Data(j.req.data)), r, Chaining(j.phase.block, j.phase.ino, j.phase.data))
  }

  /** The write of the file's inode makes the new block part of the file. */
  ghost predicate ChainStep(s: State, r: nat, j: Job, t: State)
    requires Is(s, r, j)
  {
    && j.phase.Chaining? && j.phase.ino.Inode?
    && var w := Put(s, j.phase.block, Appended(j.phase.ino, j.phase.data));
    && t == Refuse(w.(x := Given(s.x, j.req.path, |j.phase.ino.blocks|, j.phase.data)), r, {j.req.path}, Done)
  }

  /** The first unused slot in the order of the tables. */
  ghost predicate FirstUnused(d: Disk, ino: Block, i: nat, l: nat)
    requires ino.Inode?
  {
    && UnusedAt(d, ino, i, l)
    && forall m: nat, n: nat {:trigger UnusedAt(d, ino, m, n)} :: UnusedAt(d, ino, m, n) ==> i < m || (i == m && l <= n)
  }

  predicate UnusedAt(d: Disk, ino: Block, i: nat, l: nat)
    requires ino.Inode?
  {
    i < |ino.blocks| && l < |TableAt(d, ino.blocks[i])| && TableAt(d, ino.blocks[i])[l].inode == 0
  }

  ghost predicate NoneUnused(d: Disk, ino: Block)
    requires ino.Inode?
  {
    forall i: nat, l: nat {:trigger UnusedAt(d, ino, i, l)} :: !UnusedAt(d, ino, i, l)
  }

  ghost predicate CreateStep(s: State, r: nat, j: Job, t: State)
    requires Is(s, r, j)
  {
    && j.phase.At? && j.phase.k == Goal(j.req) && j.req.Create?
    && var ino, b, locks := InodeAt(s.disk, j.phase.block), j.phase.block, Kept(j.req, j.phase.k);
    && if !ino.dir || (ino.owner != j.req.user && b != ROOT_BLOCK) || !NoEntry(s.disk, ino, Last(j.req.path))
       then t == Refuse(s, r, locks, Failed)
       else if NoneUnused(s.disk, ino)
       then t == if |ino.blocks| >= FS_MAXFILEBLOCKS then Refuse(s, r, locks, NoSpace)
         else SetPhase(s, r, NeedTable(b, ino))
       else exists i: nat, l: nat {:trigger FirstUnused(s.disk, ino, i, l)} ::
         && FirstUnused(s.disk, ino, i, l)
         && t == SetPhase(s, r, NeedInode(b, ino, Place(ino.blocks[i], i, l, TableAt(s.disk, ino.blocks[i]), false)))
  }

  ghost predicate TableStep(s: State, r: nat, j: Job, t: State)
    requires Is(s, r, j)
  {
    && j.phase.NeedTable? && j.phase.ino.Inode?
    && if s.free == {} then t == Refuse(s, r, {Parent(j.req.path)}, NoSpace)
       else exists b {:trigger TakeBlock(s, r, b)} ::
         && b in s.free
         && t == SetPhase(TakeBlock(s, r, b), r,
                          NeedInode(j.phase.block, j.phase.ino, Place(b, |j.phase.ino.blocks|, 0, Unused(), true)))
  }

  /** If there is no block for the inode, a block taken for a table stays out of the free set for good. */
  ghost predicate InodeStep(s: State, r: nat, j: Job, t: State)
    requires Is(s, r, j)
  {
    && j.phase.NeedInode?
    && var f := j.phase;
    && if s.free == {}
       then
         var w := if f.place.grown then s.(x := s.x.(use := s.x.use[f.place.table := Lost])) else s;
         t == Refuse(w, r, {Parent(j.req.path)}, NoSpace)
       else exists b {:trigger TakeBlock(s, r, b)} ::
         b in s.free && t == SetPhase(TakeBlock(s, r, b), r, PutInode(f.block, f.ino, f.place, b))
  }

  ghost predicate PutInodeStep(s: State, r: nat, j: Job, t: State)
    requires Is(s, r, j)
  {
    && j.phase.PutInode? && j.req.Create?
    && var f := j.phase;
    && t == SetPhase(Put(s, f.inode, Inode(j.req.dir, j.req.user, [])), r, PutTable(f.block, f.ino, f.place, f.inode))
  }

  /** The write of the table makes the entry part of the directory, unless the table is new. */
  ghost predicate PutTableStep(s: State, r: nat, j: Job, t: State)
    requires Is(s, r, j)
  {
    && j.phase.PutTable? && j.phase.place.slot < |j.phase.place.entries|
    && var f := j.phase;
    && var w := Put(s, f.place.table, Table(f.place.entries[f.place.slot := Entry(Last(j.req.path), f.inode)]));
    && t == if f.place.grown then SetPhase(w, r, PutParent(f.block, f.ino, f.place, f.inode))
            else
              var x := Linked(s.x, j.req.path, Spot(f.inode, f.place.index, f.place.slot));
              SetPhase(Committed(w.(x := x), r, Done), r, AddKey)
  }

  ghost predicate PutParentStep(s: State, r: nat, j: Job, t: State)
    requires Is(s, r, j)
  {
    && j.phase.PutParent? && j.phase.ino.Inode?
    && var f := j.phase;
    && var w := Put(s, f.block, Appended(f.ino, f.place.table));
    && var given := Given(s.x, Parent(j.req.path), |f.ino.blocks|, f.place.table);
    && var x := Linked(given, j.req.path, Spot(f.inode, |f.ino.blocks|, 0));
    && t == SetPhase(Committed(w.(x := x), r, Done), r, AddKey)
  }

  ghost predicate KeyStep(s: State, r: nat, j: Job, t: State)
    requires Is(s, r, j)
  {
    && j.phase.AddKey?
    && t == SetPhase(s, r, Leaving({Parent(j.req.path)}, Done)).(keys := s.keys + {j.req.path})
  }

  /** The blocks a delete gives back. */
  ghost function Freed(x: Index, y: Index): set<nat> { x.use.Keys - y.use.Keys }

  /** The entries of a table with the name erased, and how many entries were in use. */
  function Cleared(es: seq<Entry>, name: string): seq<Entry> {
    seq(|es|, i requires 0 <= i < |es| => if es[i].inode != 0 && es[i].name == name then Entry("", 0) else es[i])
  }

  function Used(es: seq<Entry>): nat {
    if es == [] then 0 else Used(es[..|es| - 1]) + if es[|es| - 1].inode != 0 then 1 else 0
  }

  /** The blocks that the target of a delete and, with its last entry, its table occupy. */
  function Reclaimed(block: nat, ino: Block, above: Above): set<nat>
    requires ino.Inode? && above.ino.Inode?
  {
    {block} + (if ino.dir then {} else set i | 0 <= i < |ino.blocks| :: ino.blocks[i])
    + (if Used(above.table) == 1 && above.index < |above.ino.blocks| then {above.ino.blocks[above.index]} else {})
  }

  /** What the delete will write, and where. */
  function Erasure(above: Above, name: string): (nat, Block)
    requires above.ino.Inode? && above.index < |above.ino.blocks|
  {
    if Used(above.table) == 1
      then (above.block, Inode(above.ino.dir, above.ino.owner, Without(above.ino.blocks, above.index)))
    else (above.ino.blocks[above.index], Table(Cleared(above.table, name)))
  }

  function Removed(x: Index, q: Path, above: Above): Index
    requires q != []
  {
    if Used(above.table) == 1 then Lowered(Forgotten(x, q), Parent(q), above.index) else Forgotten(x, q)
  }

  /** The memory part of a delete: blocks go back to the free set, the target's lock and key go. */
  ghost predicate DeleteStep(s: State, r: nat, j: Job, t: State)
    requires Is(s, r, j)
  {
    && j.phase.At? && j.phase.k == Goal(j.req) && j.req.Delete?
    && j.phase.above.ino.Inode? && j.phase.above.index < |j.phase.above.ino.blocks|
    && var ino, a, p := InodeAt(s.disk, j.phase.block), j.phase.above, j.req.path;
    && if ino.owner != j.req.user || (ino.dir && ino.blocks != [])
       then t == Refuse(s, r, Kept(j.req, j.phase.k), Failed)
       else
         && var e := Erasure(a, Last(p));
         && t == SetPhase(Committed(s, r, Done), r, Erasing(e.0, e.1)).(
                   free := s.free + Reclaimed(j.phase.block, ino, a), held := s.held - {p}, keys := s.keys - {p},
                   view := s.view[e.0 := e.1], x := Removed(s.x, p, a))
  }

  /** The one disk write of a delete. */
  ghost predicate EraseStep(s: State, r: nat, j: Job, t: State)
    requires Is(s, r, j)
  {
    && j.phase.Erasing?
    && t == SetPhase(s, r, Leaving({Parent(j.req.path)}, Done)).(disk := s.disk[j.phase.block := j.phase.content])
  }

  ghost predicate LeaveStep(s: State, r: nat, j: Job, t: State)
    requires Is(s, r, j)
  {
    && j.phase.Leaving?
    && t == s.(held := s.held - j.phase.locks, jobs := s.jobs - {r}, 
              done := s.done[r := Answer(j.req, j.phase.reply)])
  }

  ghost predicate WalkStep(s: State, r: nat, j: Job, t: State)
    requires Is(s, r, j)
  {
    LockStep(s, r, j, t) || PassStep(s, r, j, t) || LookStep(s, r, j, t)
  }

  ghost predicate FileStep(s: State, r: nat, j: Job, t: State)
    requires Is(s, r, j)
  {
    ReadStep(s, r, j, t) || WriteStep(s, r, j, t) || GrowStep(s, r, j, t) || FillStep(s, r, j, t)
      || ChainStep(s, r, j, t)
  }

  ghost predicate MakeStep(s: State, r: nat, j: Job, t: State)
    requires Is(s, r, j)
  {
    || CreateStep(s, r, j, t) || TableStep(s, r, j, t) || InodeStep(s, r, j, t) || PutInodeStep(s, r, j, t)
    || PutTableStep(s, r, j, t) || PutParentStep(s, r, j, t)
  }

  ghost predicate EndStep(s: State, r: nat, j: Job, t: State)
    requires Is(s, r, j)
  {
    KeyStep(s, r, j, t) || EraseStep(s, r, j, t) || LeaveStep(s, r, j, t)
  }

  ghost predicate Step(s: State, r: nat, j: Job, t: State)
    requires Is(s, r, j)
  {
    WalkStep(s, r, j, t) || FileStep(s, r, j, t) || MakeStep(s, r, j, t) || DeleteStep(s, r, j, t)
      || EndStep(s, r, j, t)
  }

  ghost predicate Next(s: State, t: State) {
    || (exists r, req {:trigger BeginStep(s, r, req, t)} :: BeginStep(s, r, req, t))
    || (exists r {:trigger s.jobs[r]} :: r in s.jobs && Is(s, r, s.jobs[r]) && Step(s, r, s.jobs[r], t))
  }
}
