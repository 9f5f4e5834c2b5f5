/** The state in which the runs of the file server start is what the scan of the disk produces. */
module FsBoot {
  import opened FsDisk
  import opened FsUpdate
  import opened FsTree
  import opened FsPath
  import opened FsScan
  import opened FsSteps
  import opened FsInvariant
  import opened FsRefine
  import opened FsRun
  import FsServer

  function Booted(d: Disk, free: set<nat>, x: Index): State {
    State(d, free, map[], x.names.Keys, map[], d, x, [], map[])
  }

  /** Every disk that is a tree can be started from. */
  lemma BootStart(d: Disk, y: Index, free: set<nat>)
    requires WellFormed(d, y) && forall b {:trigger b in d} :: b in d ==> b < FS_DISKSIZE
    requires forall b: nat {:trigger b in free} :: b in free <==> b < FS_DISKSIZE && !Reached(d, y, b)
    ensures Start(Booted(d, free, Trimmed(y))) && TreeNow(Booted(d, free, Trimmed(y))) == TreeOf(d, y)
  {
    var x := Trimmed(y);
    TrimmedOk(d, y);
    forall b: nat ensures (b in x.use <==> Reached(d, y, b)) && (b in x.use ==> b < FS_DISKSIZE) {
      ReachedUsed(d, y, b);
      if b in x.use { UsedOnDisk(d, x, b); }
    }
  }

  /** The constructor of the server leads there: its free set is the run's, and its keys are the paths. */
  method Boot(d: Disk, ghost y: Index) returns (server: FsServer.FileServer, ghost s: State)
    requires WellFormed(d, y) && NamesOk(y) && forall b {:trigger b in d} :: b in d ==> b < FS_DISKSIZE
    ensures Start(s) && s.disk == d && TreeNow(s) == TreeOf(d, y)
    ensures server.disk == s.disk && server.free == s.free && server.keys == KeysFor(s.x) && server.Valid()
  {
    server := new FsServer.FileServer(d, y);
    s := Booted(d, server.free, Trimmed(y));
    BootStart(d, y, server.free);
  }
}
