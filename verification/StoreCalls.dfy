/** The calls of the state store, what each does to the tables of `Store` and what it answers.
    Both implementations are proved against this. */
module StoreCalls {
  import opened Types
  import opened Processes
  import opened Stores

  /** New ids and the clock's readings are part of the call. */
  datatype Call =
    | CreateSnapshot(snapshotId: SnapshotId, id: SandboxId, config: SandboxConfig, at: Time, note: Option<string>)
    | GetSnapshot(snapshotId: SnapshotId)
    | ListForTemplate(template: string)
    | BindSandbox(name: string, id: SandboxId, at: Time)
    | ClearSandboxBinding(id: SandboxId, at: Time)
    | SetAffinitySnapshot(name: string, snapshotId: SnapshotId, at: Time)
    | GetAffinity(name: string)
    | UpsertActiveSandbox(id: SandboxId, config: SandboxConfig, at: Time)
    | RemoveActiveSandbox(id: SandboxId)
    | ListActiveSandboxes
    | UpsertProcess(process: ProcessInfo)
    | GetProcess(processId: ProcessId)
    | ListProcesses
    | RemoveProcess(processId: ProcessId)

  datatype Reply =
    | Done
    | ASnapshot(snapshot: Option<SnapshotMetadata>)
    | Snapshots(snapshots: seq<SnapshotMetadata>)
    | AnAffinity(affinity: Option<AffinityRecord>)
    | Actives(actives: seq<ActiveRecord>)
    | AProcess(process: Option<ProcessInfo>)
    | ProcessList(processes: seq<ProcessInfo>)
    | Failure

  function Lookup<K, V>(m: map<K, V>, k: K): Option<V> {
    if k in m then Some(m[k]) else None
  }

  function OfTemplate(snapshots: map<SnapshotId, SnapshotMetadata>, template: string):
      map<SnapshotId, SnapshotMetadata>
  {
    map k | k in snapshots && snapshots[k].template == template :: snapshots[k]
  }

  function Effect(s: Store, call: Call): Store {
    match call
    case CreateSnapshot(k, id, config, at, note) => s.AddSnapshot(SnapshotOf(k, id, config, at, note))
    case BindSandbox(name, id, at) => s.BindSandbox(name, id, at)
    case ClearSandboxBinding(id, at) => s.ClearBinding(id, at)
    case SetAffinitySnapshot(name, id, at) => s.SetAffinitySnapshot(name, id, at)
    case UpsertActiveSandbox(id, config, at) => s.UpsertActive(id, config, at)
    case RemoveActiveSandbox(id) => s.RemoveActive(id)
    case UpsertProcess(p) => s.UpsertProcess(p)
    case RemoveProcess(id) => s.RemoveProcess(id)
    case _ => s
  }

  /** How many keys a map sends to `v`. */
  ghost function Occurrences<K, V>(m: map<K, V>, v: V): nat {
    |set k | k in m && m[k] == v|
  }

  /** The list holds the values of the map, each as often as it occurs there, in any order. */
  ghost predicate ListsValues<K, V(!new)>(vs: seq<V>, m: map<K, V>) {
    forall v :: multiset(vs)[v] == Occurrences(m, v)
  }

  ghost predicate Answers(s: Store, call: Call, reply: Reply) {
    match call
    case CreateSnapshot(k, id, config, at, note) => reply == ASnapshot(Some(SnapshotOf(k, id, config, at, note)))
    case GetSnapshot(id) => reply == ASnapshot(Lookup(s.snapshots, id))
    case GetAffinity(name) => reply == AnAffinity(Lookup(s.affinities, name))
    case GetProcess(id) => reply == AProcess(Lookup(s.processes, id))
    case ListForTemplate(t) => reply.Snapshots? && ListsValues(reply.snapshots, OfTemplate(s.snapshots, t))
    case ListActiveSandboxes => reply.Actives? && ListsValues(reply.actives, s.active)
    case ListProcesses => reply.ProcessList? && ListsValues(reply.processes, s.processes)
    case _ => reply == Done
  }

  /** A snapshot that was just taken is listed under the template of its configuration, as it was
      described. */
  lemma NewSnapshotListed(s: Store, call: Call, reply: Reply)
    requires call.CreateSnapshot? && Answers(Effect(s, call), ListForTemplate(call.config.template), reply)
    ensures exists x <- reply.snapshots ::
              && x.id == call.snapshotId && x.sandboxId == call.id && x.config == call.config
              && x.affinityName == call.config.affinityName && x.template == call.config.template
              && x.createdAt == call.at && x.note == call.note
  {
    var x := SnapshotOf(call.snapshotId, call.id, call.config, call.at, call.note);
    var listed := OfTemplate(Effect(s, call).snapshots, call.config.template);
    Occurs(listed, call.snapshotId);
    assert multiset(reply.snapshots)[x] == Occurrences(listed, x);
    assert x in reply.snapshots;
  }

  lemma Occurs<K, V>(m: map<K, V>, k: K)
    requires k in m
    ensures Occurrences(m, m[k]) > 0
  {
    var keys := set j | j in m && m[j] == m[k];
    assert k in keys && |keys| == Occurrences(m, m[k]);
  }

  /** Equal replies, up to the order of lists. */
  predicate SameReply(a: Reply, b: Reply) {
    match a
    case Snapshots(xs) => b.Snapshots? && multiset(xs) == multiset(b.snapshots)
    case Actives(xs) => b.Actives? && multiset(xs) == multiset(b.actives)
    case ProcessList(xs) => b.ProcessList? && multiset(xs) == multiset(b.processes)
    case _ => b == a
  }

  /** The id drawn for a new snapshot is new. */
  ghost predicate Allowed(s: Store, call: Call) {
    call.CreateSnapshot? ==> call.snapshotId !in s.snapshots
  }

  ghost predicate AllAllowed(s: Store, calls: seq<Call>)
    decreases |calls|
  {
    calls == [] || (Allowed(s, calls[0]) && AllAllowed(Effect(s, calls[0]), calls[1..]))
  }

  /** The replies answer the calls, one after the other. */
  ghost predicate Conversation(s: Store, calls: seq<Call>, replies: seq<Reply>)
    decreases |calls|
  {
    && |replies| == |calls|
    && (calls == [] ||
        (Answers(s, calls[0], replies[0]) && Conversation(Effect(s, calls[0]), calls[1..], replies[1..])))
  }

  function EffectAll(s: Store, calls: seq<Call>): Store
    decreases |calls|
  {
    if calls == [] then s else EffectAll(Effect(s, calls[0]), calls[1..])
  }

  lemma SameLists<K, V(!new)>(xs: seq<V>, ys: seq<V>, m: map<K, V>)
    requires ListsValues(xs, m) && ListsValues(ys, m)
    ensures multiset(xs) == multiset(ys)
  {
    forall v ensures multiset(xs)[v] == multiset(ys)[v] {
      assert multiset(xs)[v] == Occurrences(m, v);
    }
  }

  lemma AnswersAgree(s: Store, call: Call, a: Reply, b: Reply)
    requires Answers(s, call, a) && Answers(s, call, b)
    ensures SameReply(a, b)
  {
    hide ListsValues;
    if call.ListForTemplate? { SameLists(a.snapshots, b.snapshots, OfTemplate(s.snapshots, call.template)); }
    if call.ListActiveSandboxes? { SameLists(a.actives, b.actives, s.active); }
    if call.ListProcesses? { SameLists(a.processes, b.processes, s.processes); }
  }

  /** Any two stores that keep to this contract cannot be told apart, whatever they are asked. */
  lemma {:induction false} ConversationsAgree(s: Store, calls: seq<Call>, a: seq<Reply>, b: seq<Reply>)
    requires Conversation(s, calls, a) && Conversation(s, calls, b)
    ensures |a| == |b| == |calls| && forall i | 0 <= i < |a| :: SameReply(a[i], b[i])
    decreases |calls|
  {
    if calls != [] {
      AnswersAgree(s, calls[0], a[0], b[0]);
      ConversationsAgree(Effect(s, calls[0]), calls[1..], a[1..], b[1..]);
      hide SameReply, Conversation;
      forall i | 0 <= i < |a| ensures SameReply(a[i], b[i]) {
        if i > 0 { assert a[i] == a[1..][i - 1] && b[i] == b[1..][i - 1]; }
      }
    }
  }

  /** Every key once: what the values of a map look like as a list. */
  ghost predicate Enumerates<K>(ks: seq<K>, keys: set<K>) {
    && (forall i, j | 0 <= i < j < |ks| :: ks[i] != ks[j])
    && (forall k <- ks :: k in keys) && (forall k <- keys :: k in ks)
  }

  lemma OccurrencesWithout<K, V>(m: map<K, V>, k: K, v: V)
    requires k in m
    ensures Occurrences(m, v) == Occurrences(m - {k}, v) + (if m[k] == v then 1 else 0)
  {
    var here, there := set j | j in m && m[j] == v, set j | j in m - {k} && (m - {k})[j] == v;
    assert here == if m[k] == v then there + {k} else there;
  }

  lemma EnumerateRest<K, V>(ks: seq<K>, m: map<K, V>)
    requires Enumerates(ks, m.Keys) && ks != []
    ensures ks[0] in m && Enumerates(ks[1..], (m - {ks[0]}).Keys)
  {
    assert ks == [ks[0]] + ks[1..];
  }

  lemma ListMore<K, V(!new)>(vs: seq<V>, m: map<K, V>, k: K)
    requires k in m && vs != [] && vs[0] == m[k] && ListsValues(vs[1..], m - {k})
    ensures ListsValues(vs, m)
  {
    assert vs == [vs[0]] + vs[1..];
    forall v ensures multiset(vs)[v] == Occurrences(m, v) {
      hide Occurrences;
      OccurrencesWithout(m, k, v);
      assert multiset(vs[1..])[v] == Occurrences(m - {k}, v);
    }
  }

  lemma OccurrencesInKeys<K, V>(m: map<K, V>, v: V)
    ensures (set k | k in m && m[k] == v) <= m.Keys
  {
  }

  lemma ListNone<K, V(!new)>(m: map<K, V>)
    requires m.Keys == {}
    ensures ListsValues([], m)
  {
    forall v: V ensures Occurrences(m, v) == 0 {
      OccurrencesInKeys(m, v);
    }
  }

  lemma {:induction false} EnumerationLists<K, V(!new)>(ks: seq<K>, vs: seq<V>, m: map<K, V>)
    requires Enumerates(ks, m.Keys) && |vs| == |ks| && forall i | 0 <= i < |ks| :: ks[i] in m && vs[i] == m[ks[i]]
    ensures ListsValues(vs, m)
  {
    hide ListsValues;
    if ks == [] {
      ListNone(m);
    } else {
      EnumerateRest(ks, m);
      hide Enumerates;
      assert forall i | 0 <= i < |ks[1..]| :: ks[1..][i] in m - {ks[0]};
      EnumerationLists(ks[1..], vs[1..], m - {ks[0]});
      ListMore(vs, m, ks[0]);
    }
  }
}
