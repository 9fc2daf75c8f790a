/** The two implementations of the state store side by side. */
module StoresAgree {
  import opened Stores
  import opened StoreCalls
  import opened InMemoryStores
  import opened SqliteStores

  /** Two new stores, one of each kind, that are sent the same calls give the same replies up to
      the order of lists, whatever the calls are; only the ids of new snapshots must be new. */
  method ReplyAlike(calls: seq<Call>, codecs: Codecs) returns (memory: seq<Reply>, sqlite: seq<Reply>)
    requires codecs.Lawful() && AllAllowed(EMPTY, calls)
    ensures |memory| == |sqlite| == |calls|
    ensures forall i | 0 <= i < |calls| :: SameReply(memory[i], sqlite[i])
  {
    var inMemory := new InMemorySnapshotStore();
    var database := new SqliteSnapshotStore(codecs);
    memory := inMemory.PerformAll(calls);
    sqlite := database.PerformAll(calls);
    ConversationsAgree(EMPTY, calls, memory, sqlite);
  }
}
