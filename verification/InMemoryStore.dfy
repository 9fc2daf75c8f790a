/** `InMemorySnapshotStore`: four hash maps. */
module InMemoryStores {
  import opened HashMaps
  import opened Types
  import opened Processes
  import opened Stores
  import opened StoreCalls

  /** The values of a map, as `values().cloned().collect()` lists them. */
  method Values<K(==), V(!new)>(m: map<K, V>) returns (vs: seq<V>)
    ensures ListsValues(vs, m)
  {
    var ks := Enumerate(m);
    vs := seq(|ks|, i requires 0 <= i < |ks| && ks[i] in m => m[ks[i]]);
    EnumerationLists(ks, vs, m);
  }

  class InMemorySnapshotStore {
    var snapshots: map<SnapshotId, SnapshotMetadata>
    var affinities: map<string, AffinityRecord>
    var active: map<SandboxId, ActiveRecord>
    var processes: map<ProcessId, ProcessInfo>

    ghost function Contents(): Store
      reads this
    {
      Store(snapshots, affinities, active, processes)
    }

    constructor ()
      ensures Contents() == EMPTY
    {
      snapshots, affinities, active, processes := map[], map[], map[], map[];
    }

    method CreateSnapshot(id: SnapshotId, sandboxId: SandboxId, config: SandboxConfig, at: Time, note: Option<string>)
      returns (snapshot: SnapshotMetadata)
      modifies this`snapshots
      ensures snapshot == SnapshotOf(id, sandboxId, config, at, note)
      ensures Contents() == old(Contents()).AddSnapshot(snapshot)
    {
      snapshot := SnapshotMetadata(id, sandboxId, config.affinityName, config.template, config, at, note);
      snapshots := snapshots[id := snapshot];
    }

    method ListForTemplate(template: string) returns (found: seq<SnapshotMetadata>)
      ensures ListsValues(found, OfTemplate(snapshots, template))
    {
      found := Values(OfTemplate(snapshots, template));
    }

    method BindSandbox(name: string, id: SandboxId, at: Time)
      modifies this`affinities
      ensures Contents() == old(Contents()).BindSandbox(name, id, at)
      ensures Contents().Bound(name) == Some(id)
      ensures forall n :: Contents().Pointer(n) == old(Contents().Pointer(n))
      ensures forall n | n != name :: Contents().Bound(n) == old(Contents().Bound(n))
    {
      var existing := if name in affinities then affinities[name].snapshotId else None;
      affinities := affinities[name := AffinityRecord(name, Some(id), existing, at)];
    }

    /** Visits every record; all that are cleared get the same time here. */
    method ClearSandboxBinding(id: SandboxId, at: Time)
      modifies this`affinities
      ensures Contents() == old(Contents()).ClearBinding(id, at)
      ensures forall n :: Contents().Pointer(n) == old(Contents().Pointer(n))
      ensures forall n :: Contents().Bound(n) ==
                if old(Contents().Bound(n)) == Some(id) then None else old(Contents().Bound(n))
    {
      var names := Enumerate(affinities);
      ghost var before := Contents();
      ghost var after := before.ClearBinding(id, at).affinities;
      for i := 0 to |names|
        invariant Contents() == before.(affinities := affinities) && affinities.Keys == before.affinities.Keys
        invariant forall j | 0 <= j < i :: affinities[names[j]] == after[names[j]]
        invariant forall j | i <= j < |names| :: affinities[names[j]] == before.affinities[names[j]]
      {
        var record := affinities[names[i]];
        if record.sandboxId == Some(id) {
          affinities := affinities[names[i] := record.(sandboxId := None, updatedAt := at)];
        }
      }
      forall n <- after ensures affinities[n] == after[n] {
        var j :| 0 <= j < |names| && names[j] == n;
      }
      assert affinities == after;
    }

    method SetAffinitySnapshot(name: string, id: SnapshotId, at: Time)
      modifies this`affinities
      ensures Contents() == old(Contents()).SetAffinitySnapshot(name, id, at)
      ensures Contents().Pointer(name) == Some(id)
      ensures forall n :: Contents().Bound(n) == old(Contents().Bound(n))
      ensures forall n | n != name :: Contents().Pointer(n) == old(Contents().Pointer(n))
    {
      var existing := if name in affinities then affinities[name].sandboxId else None;
      affinities := affinities[name := AffinityRecord(name, existing, Some(id), at)];
    }

    method Perform(call: Call) returns (reply: Reply)
      modifies this
      ensures Contents() == Effect(old(Contents()), call) && Answers(old(Contents()), call, reply)
    {
      reply := Done;
      match call {
        case CreateSnapshot(k, id, config, at, note) =>
          var snapshot := CreateSnapshot(k, id, config, at, note);
          reply := ASnapshot(Some(snapshot));
        case GetSnapshot(id) => reply := ASnapshot(Lookup(snapshots, id));
        case ListForTemplate(template) =>
          var found := ListForTemplate(template);
          reply := Snapshots(found);
        case BindSandbox(name, id, at) => BindSandbox(name, id, at);
        case ClearSandboxBinding(id, at) => ClearSandboxBinding(id, at);
        case SetAffinitySnapshot(name, id, at) => SetAffinitySnapshot(name, id, at);
        case GetAffinity(name) => reply := AnAffinity(Lookup(affinities, name));
        case UpsertActiveSandbox(id, config, at) => active := active[id := ActiveRecord(id, config, at)];
        case RemoveActiveSandbox(id) => active := active - {id};
        case ListActiveSandboxes =>
          var found := Values(active);
          reply := Actives(found);
        case UpsertProcess(p) => processes := processes[p.id := p];
        case GetProcess(id) => reply := AProcess(Lookup(processes, id));
        case ListProcesses =>
          var found := Values(processes);
          reply := ProcessList(found);
        case RemoveProcess(id) => processes := processes - {id};
      }
    }

    /** Any sequence of calls, one after the other. */
    method PerformAll(calls: seq<Call>) returns (replies: seq<Reply>)
      modifies this
      ensures Conversation(old(Contents()), calls, replies)
      ensures Contents() == EffectAll(old(Contents()), calls)
      decreases |calls|
    {
      if calls == [] { return []; }
      var first := Perform(calls[0]);
      var rest := PerformAll(calls[1..]);
      replies := [first] + rest;
      assert replies[1..] == rest;
    }
  }
}
