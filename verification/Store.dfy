/** The contract of the state store (`SnapshotStore`): four tables and what each call does to them.
    `InMemoryStore.dfy` and `SqliteStore.dfy` prove that both implementations keep it. */
module Stores {
  import opened Types
  import opened Processes

  datatype SnapshotMetadata = SnapshotMetadata(
    id: SnapshotId,
    sandboxId: SandboxId,
    affinityName: Option<string>,
    template: string,
    config: SandboxConfig,
    createdAt: Time,
    note: Option<string>)

  datatype AffinityRecord = AffinityRecord(
    name: string,
    sandboxId: Option<SandboxId>,
    snapshotId: Option<SnapshotId>,
    updatedAt: Time)

  datatype ActiveRecord = ActiveRecord(sandboxId: SandboxId, config: SandboxConfig, createdAt: Time)

  function SnapshotOf(id: SnapshotId, sandboxId: SandboxId, config: SandboxConfig, at: Time,
                      note: Option<string>): SnapshotMetadata
  {
    SnapshotMetadata(id, sandboxId, config.affinityName, config.template, config, at, note)
  }

  /** The session a name is bound to, if any. */
  function BoundIn(affinities: map<string, AffinityRecord>, name: string): Option<SandboxId> {
    if name in affinities then affinities[name].sandboxId else None
  }

  /** The snapshot a name would be restored from, if any. */
  function PointerIn(affinities: map<string, AffinityRecord>, name: string): Option<SnapshotId> {
    if name in affinities then affinities[name].snapshotId else None
  }

  datatype Store = Store(
    snapshots: map<SnapshotId, SnapshotMetadata>,
    affinities: map<string, AffinityRecord>,
    active: map<SandboxId, ActiveRecord>,
    processes: map<ProcessId, ProcessInfo>)
  {
    function AddSnapshot(snapshot: SnapshotMetadata): Store {
      this.(snapshots := snapshots[snapshot.id := snapshot])
    }

    function Bound(name: string): Option<SandboxId> { BoundIn(affinities, name) }

    function Pointer(name: string): Option<SnapshotId> { PointerIn(affinities, name) }

    /** Binding keeps the name's snapshot pointer. */
    function BindSandbox(name: string, id: SandboxId, at: Time): Store {
      this.(affinities := affinities[name := AffinityRecord(name, Some(id), Pointer(name), at)])
    }

    function ClearBinding(id: SandboxId, at: Time): Store {
      this.(affinities :=
        map name | name in affinities ::
          if affinities[name].sandboxId == Some(id)
          then affinities[name].(sandboxId := None, updatedAt := at)
          else affinities[name])
    }

    /** Setting the snapshot pointer keeps the name's session. */
    function SetAffinitySnapshot(name: string, id: SnapshotId, at: Time): Store {
      this.(affinities := affinities[name := AffinityRecord(name, Bound(name), Some(id), at)])
    }

    function UpsertActive(id: SandboxId, config: SandboxConfig, at: Time): Store {
      this.(active := active[id := ActiveRecord(id, config, at)])
    }

    function RemoveActive(id: SandboxId): Store {
      this.(active := active - {id})
    }

    function UpsertProcess(p: ProcessInfo): Store {
      this.(processes := processes[p.id := p])
    }

    function RemoveProcess(id: ProcessId): Store {
      this.(processes := processes - {id})
    }
  }

  const EMPTY: Store := Store(map[], map[], map[], map[])
}
