// A process that dies and one that starts on the same data directory.
module CrashRecovery {
  import opened RaftTypes
  import N = RaftNode
  import opened Codec
  import opened LogFile
  import opened RaftServer
  import opened Storage

  /** A server started on a fresh data directory, as every server of a cluster's initial state is. */
  method FirstBoot(id: Id, peers: seq<Id>) returns (s: Server)
    requires Distinct(peers)
    ensures fresh(s) && fresh(s.Repr()) && s.Valid() && s.self == id && s.peers == peers
    ensures s.Snapshot() == N.Recovered(MetaData(0, 0, 0, 0), [])
  {
    var disk := new Disk();
    s := new Server(id, peers, disk);
    s.Recover();
  }

  /** When the old process died between handlers, the new one has the same term, vote, log, commit index and store. */
  method Reboot(dead: Server) returns (alive: Server)
    requires dead.Valid() && AllSized(dead.logEntries)
    modifies dead.disk, dead.disk.table, dead.disk.table.table
    ensures fresh(alive) && alive.disk == dead.disk && alive.Valid()
    ensures alive.Snapshot() == N.Restart(old(dead.Snapshot())) && dead.disk.log == old(dead.disk.log)
    ensures N.NodeApplied(old(dead.Snapshot())) ==>
              && alive.metadata == old(dead.metadata) && alive.logEntries == old(dead.logEntries)
              && alive.machine.store == old(dead.machine.store)
  {
    LogRoundTrip(dead.logEntries);
    alive := new Server(dead.self, dead.peers, dead.disk);
    alive.Recover();
  }

  /** When it died while appending an entry, so that only part of the entry reached the file, the new one has exactly
      the log before the append, and the file is cut back to it. */
  method RebootAfterTornAppend(dead: Server, e: Entry, k: nat) returns (alive: Server)
    requires AllSized(dead.logEntries) && Sized(e) && k < |EntryBytes(e)|
    requires dead.disk.Valid() && dead.disk.log == LogBytes(dead.logEntries) + EntryBytes(e)[..k]
    requires dead.disk.meta == dead.metadata && Distinct(dead.peers) && Indexed(dead.logEntries)
    modifies dead.disk, dead.disk.table, dead.disk.table.table
    ensures fresh(alive) && alive.disk == dead.disk && alive.Valid()
    ensures alive.Snapshot() == N.Restart(old(dead.Snapshot()))
    ensures alive.disk.log == LogBytes(dead.logEntries)
  {
    TornAppend(dead.logEntries, e, k);
    alive := new Server(dead.self, dead.peers, dead.disk);
    alive.Recover();
  }
}
