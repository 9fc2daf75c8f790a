/** The control plane, `HyperboxServer` in `hyperbox-server/src/runtime.rs`. Each public method is
    one atomic step; every call to the backend or the store may fail. */
module Servers {
  import opened HashMaps
  import opened Types
  import opened Processes
  import opened Stores
  import opened Worlds
  import opened Tables
  import opened Steps
  import opened SessionKeys
  import opened Strings

  class HyperboxServer {
    const world: World
    var sandboxes: map<SandboxId, SandboxConfig>
    var store: Store
    var hydrated: bool
    var nextSnapshot: nat
    var nextProcess: nat

    ghost function S(): State
      reads this, world
    {
      State(sandboxes, store, world.boxes, world.artifacts, hydrated, world.now,
            world.nextSandbox, nextSnapshot, nextProcess, world.ran)
    }

    ghost predicate Valid()
      reads this, world
    {
      Inv(S())
    }

    constructor (world: World)
      requires world.boxes == map[] && world.artifacts == map[]
      ensures Valid() && this.world == world && store == EMPTY && !hydrated && sandboxes == map[]
    {
      this.world := world;
      sandboxes, store, hydrated, nextSnapshot, nextProcess := map[], EMPTY, false, 0, 0;
    }

    /** A new server process on the same store and backend. */
    method Restart()
      requires Valid()
      modifies this`sandboxes, this`hydrated
      ensures Valid() && S() == old(S()).(memory := map[], hydrated := false)
    {
      sandboxes, hydrated := map[], false;
    }

    // ---- Hydration ----

    method EnsureHydrated() returns (r: Result<()>)
      requires Valid()
      modifies this`sandboxes, this`hydrated
      ensures Valid() && Hydrates(old(S()), S())
      ensures old(hydrated) ==> r.Ok? && S() == old(S())
      ensures r.Ok? <==> hydrated
      ensures r.Err? ==> r.error.Fault? || r.error.HydrationIncomplete?
      ensures !world.faults ==> hydrated
    {
      hide Inv;
      if hydrated { return Ok(()); }
      var fails := world.Fails();
      if fails { return Err(Fault); }
      var ids := Enumerate(store.active);
      var retryNeeded := false;
      for i := 0 to |ids|
        invariant !hydrated && Valid() && Hydrates(old(S()), S())
        invariant retryNeeded ==> world.faults
        invariant retryNeeded || forall j | 0 <= j < i :: ids[j] in world.boxes ==> ids[j] in sandboxes
      {
        var found := world.Inspect(ids[i]);
        if found.Ok? {
          RememberHydrates(old(S()), S(), ids[i]);
          sandboxes := sandboxes[ids[i] := store.active[ids[i]].config];
        } else if !found.error.NotFound? {
          retryNeeded := true;
        }
      }
      if retryNeeded { return Err(HydrationIncomplete); }
      HydratedKeepsInv(S());
      hydrated := true;
      r := Ok(());
    }

    method ListProcessTable() returns (ps: seq<ProcessInfo>)
      requires Valid()
      ensures ListsProcesses(ps, store.processes)
    {
      var keys := Enumerate(store.processes);
      var table := store.processes;
      ps := seq(|keys|, i requires 0 <= i < |keys| && keys[i] in table => table[keys[i]]);
      forall i | 0 <= i < |ps| ensures ps[i].id == keys[i] {
        RecordFacts(S(), keys[i]);
      }
      forall k <- table ensures exists i | 0 <= i < |ps| :: ps[i].id == k {
        var i :| 0 <= i < |keys| && keys[i] == k;
        assert ps[i].id == k;
      }
    }

    // ---- Process records ----

    /** Ask the sandbox how a process is doing and write the answer back. */
    method RefreshProcess(p: ProcessInfo) returns (r: Result<ProcessInfo>)
      requires Valid()
      requires p.status.Terminal() || (p.id in store.processes && store.processes[p.id] == p)
      modifies this`store, world`last, world`ran, world`boxes, world`now
      ensures Valid() && OnlyRefreshed(old(S()), S(), p.sandboxId)
      ensures forall k <- store.processes :: k != p.id ==> store.processes[k] == old(store.processes)[k]
      ensures p.status.Terminal() ==> r == Ok(p) && store == old(store)
      ensures r.Ok? && !p.status.Terminal() ==>
                && Probed(p, r.value, world.last, old(world.now), world.now)
                && world.last.Some? && world.last.value in world.ran
      ensures r.Ok? ==> RecordEvolves(p, r.value)
      ensures r.Ok? && !p.status.Terminal() ==> store.processes[p.id] == r.value && p.sandboxId in world.boxes
      ensures r.Err? ==> (r.error.Fault? && world.faults) || (r.error.NotFound? && p.sandboxId !in old(world.boxes))
    {
      hide Inv, Loses, OnlyRefreshed, ParseProbe, Shaped, Trim, Explains, Probed, Ages, RecordEvolves;
      RefreshedReflexive(S(), p.sandboxId);
      RecordStays(p, world.now);
      if p.status.Terminal() { return Ok(p); }
      RecordFacts(S(), p.id);
      var outcome := world.Exec(p.sandboxId, Ask(p.id));
      var now := world.Utc();
      RefreshStep(old(S()), S(), p);
      if outcome.Err? { return Err(outcome.error); }
      if outcome.value.exitCode != 0 {
        NotProbed(p, world.last.value, old(world.now), now);
        return Ok(p);
      }
      var expiry := world.ProcessExpiryAt(now);
      var inspected := ParseProbe(p, Trim(outcome.value.stdout), now, expiry);
      ProbeFacts(p, world.last.value, old(world.now), now, expiry);
      if inspected != p {
        var fails := world.Fails();
        if fails { return Err(Fault); }
        RefreshStep(old(S()), S(), inspected);
        store := store.UpsertProcess(inspected);
      }
      r := Ok(inspected);
    }

    /** `None` only after every record of the sandbox is stored as terminal. */
    method ActiveProcessForSandbox(id: SandboxId) returns (r: Result<Option<ProcessInfo>>)
      requires Valid()
      modifies this`store, world`last, world`ran, world`boxes, world`now
      ensures Valid() && OnlyRefreshed(old(S()), S(), id)
      ensures r.Err? ==> (r.error.Fault? && world.faults) || (r.error.NotFound? && id !in world.boxes)
      ensures r == Ok(None) ==>
                forall k <- store.processes ::
                  store.processes[k].sandboxId == id ==> store.processes[k].status.Terminal()
      ensures r.Ok? && r.value.Some? ==>
                && Live(S(), r.value.value.id) && store.processes[r.value.value.id] == r.value.value
                && r.value.value.sandboxId == id && id in world.boxes && LiveIn(old(store.processes), r.value.value.id)
                && Probed(old(store.processes)[r.value.value.id], r.value.value, world.last, old(world.now), world.now)
    {
      hide Inv, Loses, OnlyRefreshed, Ending, ListsProcesses, Probed;
      RefreshedReflexive(S(), id);
      var fails := world.Fails();
      if fails { return Err(Fault); }
      var ps := ListProcessTable();
      EndingStarts(ps, id, store.processes);
      for i := 0 to |ps|
        invariant Valid() && OnlyRefreshed(old(S()), S(), id) && world.boxes.Keys == old(world.boxes.Keys)
        invariant Ending(ps, i, id, old(store.processes), store.processes) && old(world.now) <= world.now
      {
        EndingMeans(ps, i, id, old(store.processes), store.processes);
        if ps[i].sandboxId == id {
          ghost var before := S();
          var refreshed := RefreshProcess(ps[i]);
          RefreshedTransitive(old(S()), before, S(), id);
          RefreshedKeys(before, S(), id);
          if refreshed.Err? { return Err(refreshed.error); }
          ProbedWithin(ps[i], refreshed.value, world.last, before.now, old(world.now), world.now);
          if !refreshed.value.status.Terminal() { return Ok(Some(refreshed.value)); }
          EndingStep(ps, i, id, old(store.processes), before, S());
        }
      }
      AllEnded(ps, id, old(store.processes), store.processes);
      r := Ok(None);
    }

    /** What the server forgets once a sandbox is gone from the backend. */
    method Forget(id: SandboxId) returns (r: Result<()>)
      requires Valid() && id !in world.boxes
      modifies this`sandboxes, this`store, world`now
      ensures Valid() && Loses(old(S()), S(), {id}) && store.processes == old(store.processes)
      ensures if r.Ok? then Gone(S(), id) else world.faults && r.error.Fault?
    {
      hide Inv, Loses, Gone;
      sandboxes := sandboxes - {id};
      ForgetKeepsInv(old(S()), id, world.now);
      var fails := world.Fails();
      if fails { return Err(Fault); }
      var now := world.Utc();
      store := store.ClearBinding(id, now);
      ForgetKeepsInv(old(S()), id, now);
      fails := world.Fails();
      if fails { return Err(Fault); }
      store := store.RemoveActive(id);
      r := Ok(());
    }

    /** Destroy a sandbox and forget it. */
    method DestroyAndForget(id: SandboxId) returns (r: Result<()>)
      requires Valid()
      modifies this`sandboxes, this`store, world`boxes, world`now
      ensures Valid() && Loses(old(S()), S(), {id}) && store.processes == old(store.processes)
      ensures r.Ok? ==> Gone(S(), id) && id in old(world.boxes)
      ensures r.Err? ==> (r.error.Fault? && world.faults) || (r.error.NotFound? && id !in old(world.boxes))
    {
      hide Inv, Loses, Gone;
      var destroyed := world.Destroy(id);
      DestroyKeepsInv(old(S()), S(), id);
      if destroyed.Err? { return Err(destroyed.error); }
      ghost var gone := S();
      r := Forget(id);
      LosesAgain(old(S()), gone, S(), {id}, {id});
    }

    /** What goes with a record: its sandbox if it owns that, or else only its files there. */
    method PurgeHome(p: ProcessInfo) returns (r: Result<()>)
      requires Valid()
      modifies this`sandboxes, this`store, world`last, world`ran, world`boxes, world`now
      ensures Valid() && Loses(old(S()), S(), if p.destroyOnExpiry then {p.sandboxId} else {})
      ensures store.processes == old(store.processes)
      ensures r.Err? ==> world.faults && r.error.Fault?
      ensures r.Ok? && p.destroyOnExpiry ==> Gone(S(), p.sandboxId)
    {
      hide Inv, Loses, Gone;
      NothingLost(S());
      LosesWeaken(S(), S(), {}, if p.destroyOnExpiry then {p.sandboxId} else {});
      var found := world.Inspect(p.sandboxId);
      if found.Err? && !found.error.NotFound? { return Err(found.error); }
      r := Ok(());
      if p.destroyOnExpiry {
        if found.Ok? { r := DestroyAndForget(p.sandboxId); } else { r := Forget(p.sandboxId); }
      } else if found.Ok? {
        var _ := world.Exec(p.sandboxId, Other);
        QuietKeepsInv(old(S()), S());
      }
    }

    /** Remove one record; if it owns its sandbox, the sandbox goes first. */
    method PurgeProcess(p: ProcessInfo) returns (r: Result<()>)
      requires Valid()
      modifies this`sandboxes, this`store, world`last, world`ran, world`boxes, world`now
      ensures Valid() && Loses(old(S()), S(), if p.destroyOnExpiry then {p.sandboxId} else {})
      ensures r.Ok? ==> store.processes == old(store.processes) - {p.id}
      ensures r.Err? ==> store.processes == old(store.processes) && world.faults && r.error.Fault?
      ensures r.Ok? && p.destroyOnExpiry ==> Gone(S(), p.sandboxId)
    {
      hide Inv, Loses, Gone;
      r := PurgeHome(p);
      if r.Err? { return; }
      var fails := world.Fails();
      if fails { return Err(Fault); }
      RemoveRecord(old(S()), S(), if p.destroyOnExpiry then {p.sandboxId} else {}, p.id, p.sandboxId);
      store := store.RemoveProcess(p.id);
    }

    /** Cleanup is exact. Whatever happens, only expired records go and only the sandboxes they own
        lose anything; on success all of them are gone. `at` is the instant the clock was read. */
    method CleanupExpiredProcesses() returns (r: Result<()>, ghost at: Time)
      requires Valid()
      modifies this`sandboxes, this`store, world`last, world`ran, world`boxes, world`now
      ensures Valid() && old(world.now) <= at <= world.now
      ensures Loses(old(S()), S(), Reaped(old(S()), at))
      ensures OnlyExpiredRemoved(old(S()), S(), at)
      ensures r.Err? ==> world.faults && r.error.Fault?
      ensures r.Ok? ==> forall k <- store.processes :: !Expired(store.processes[k], at)
      ensures r.Ok? ==> forall id <- Reaped(old(S()), at) :: Gone(S(), id)
      ensures r.Ok? ==> forall id <- old(world.boxes) :: id in world.boxes <==> id !in Reaped(old(S()), at)
    {
      hide Inv, Loses, Gone, Reaped, ListsProcesses, OnlyExpiredRemoved, Swept;
      var now := world.Utc();
      at := now;
      QuietKeepsInv(old(S()), S());
      LosesWeaken(old(S()), S(), {}, Reaped(old(S()), at));
      NothingRemoved(old(S()), S(), at);
      var fails := world.Fails();
      if fails { return Err(Fault), at; }
      var ps := ListProcessTable();
      SweepStarts(ps, old(S()), S(), at);
      for i := 0 to |ps|
        invariant Valid() && at <= world.now && Swept(ps, i, old(S()), S(), at)
      {
        if Expired(ps[i], now) {
          ghost var before := S();
          var purged := PurgeProcess(ps[i]);
          SweepStep(ps, i, old(S()), before, S(), at);
          LosesClock(before, S(), if ps[i].destroyOnExpiry then {ps[i].sandboxId} else {});
          if purged.Err? { return Err(purged.error), at; }
        } else {
          SweepSkips(ps, i, old(S()), S(), at);
        }
      }
      SweepEnds(ps, old(S()), S(), at);
      SweptBoxes(old(S()), S(), at);
      r := Ok(());
    }

    // ---- Sandboxes ----

    /** The common end of creating and restoring: bind the name, persist, remember. */
    method Register(config: SandboxConfig, id: SandboxId, ghost before: State) returns (r: Result<SandboxId>)
      requires Inv(before) && Boxed(before, S()) && before.nextSandbox <= id < world.nextSandbox
      requires id in world.boxes && world.boxes[id].config == config
      modifies this`sandboxes, this`store, world`now
      ensures Valid() && Creates(before, S(), config, r)
      ensures match r case Ok(made) => made == id case Err(e) => e.Fault? && world.faults
    {
      hide Inv, Creates;
      var made := world.now;
      var now := world.Utc();
      CreateStages(before, S(), config, id, now, made);
      if config.affinityName.Some? {
        var fails := world.Fails();
        if fails { return Err(Fault); }
        store := store.BindSandbox(config.affinityName.value, id, now);
      }
      var fails := world.Fails();
      if fails { return Err(Fault); }
      store := store.UpsertActive(id, config, made);
      sandboxes := sandboxes[id := config];
      r := Ok(id);
    }

    method CreateSandbox(config: SandboxConfig) returns (r: Result<SandboxId>, ghost start: State)
      requires Valid()
      modifies this`sandboxes, this`store, this`hydrated, world`boxes, world`now, world`nextSandbox
      ensures Valid() && Evolves(old(S()), S())
      ensures Hydrates(old(S()), start)
      ensures Creates(start, S(), config, r) && hydrated == start.hydrated && (r.Ok? ==> hydrated)
      ensures r.Err? ==> !r.error.SandboxBusy?
      ensures store.processes == old(store.processes)
      ensures config.template !in TEMPLATES ==>
                r.Err? && S() == start && (hydrated ==> r == Err(TemplateNotFound))
      ensures !world.faults ==> if Creatable(config, world.accepts) then r.Ok? else r == Err(Refusal(config))
    {
      hide Inv, Creates, Evolves;
      var ready := EnsureHydrated();
      start := S();
      HydrateEvolves(old(S()), start);
      BoxedKeepsInv(start, start, config, if ready.Err? then ready.error else TemplateNotFound);
      BoxedKeepsInv(start, start, config, InvalidConfig);
      CreatesEvolves(start, start, config, Err(InvalidConfig));
      if ready.Err? { return Err(ready.error), start; }
      if config.template !in TEMPLATES { return Err(TemplateNotFound), start; }
      var valid := world.ValidateConfig(config);
      if !valid { return Err(InvalidConfig), start; }
      BoxesIssued(start);
      var lease := world.Create(config);
      if lease.Err? {
        BoxedKeepsInv(start, S(), config, lease.error);
        r := Err(lease.error);
      } else {
        r := Register(config, lease.value, start);
      }
      CreatesEvolves(start, S(), config, r);
      CreatesKeepsSnapshots(start, S(), config, r);
    }

    /** Start a sandbox with the files of a snapshot's artifact and the snapshot's configuration. */
    method RestoreSnapshot(id: SnapshotId) returns (r: Result<SandboxId>, ghost start: State)
      requires Valid()
      modifies this`sandboxes, this`store, this`hydrated, world`boxes, world`now, world`nextSandbox
      ensures Valid() && Evolves(old(S()), S())
      ensures Hydrates(old(S()), start)
      ensures if id in store.snapshots then Creates(start, S(), store.snapshots[id].config, r) else S() == start
      ensures store.snapshots == old(store.snapshots) && store.processes == old(store.processes)
      ensures hydrated == start.hydrated
      ensures r.Err? ==> !r.error.AffinityAbsent()
      ensures !world.faults && id in store.snapshots && id in world.artifacts ==>
                r.Ok? || (r == Err(InvalidConfig) && store.snapshots[id].config.workspaceDir.Some?)
      ensures r.Ok? ==>
                && hydrated && id in store.snapshots && id in world.artifacts
                && r.value in world.boxes && world.boxes[r.value].files == world.artifacts[id]
      ensures r.Err? && r.error.Passing() ==> world.faults
    {
      hide Inv, Creates, Evolves;
      var ready := EnsureHydrated();
      start := S();
      HydrateEvolves(old(S()), start);
      NothingEvolves(start);
      if id in store.snapshots {
        forall e ensures Creates(start, start, store.snapshots[id].config, Err(e)) {
          BoxedKeepsInv(start, start, store.snapshots[id].config, e);
        }
      }
      if ready.Err? { return Err(ready.error), start; }
      var fails := world.Fails();
      if fails { return Err(Fault), start; }
      if id !in store.snapshots { return Err(SnapshotNotFound), start; }
      if id !in world.artifacts { return Err(ArtifactMissing), start; }
      var config := store.snapshots[id].config;
      BoxesIssued(start);
      var lease := world.RestoreSnapshot(id, config);
      if lease.Err? {
        BoxedKeepsInv(start, S(), config, lease.error);
        r := Err(lease.error);
      } else {
        r := Register(config, lease.value, start);
      }
      CreatesEvolves(start, S(), config, r);
      CreatesKeepsSnapshots(start, S(), config, r);
    }

    // ---- Processes ----

    /** Launch a command in a sandbox that runs none. A launch that fails half-way may leave its
        record behind as Starting. */
    method StartProcess(sandboxId: SandboxId, command: seq<string>, requested: Option<SandboxId>,
                        disposition: Disposition, destroyOnExpiry: bool)
      returns (r: Result<ProcessInfo>, ghost start: State)
      requires Valid()
      modifies this`sandboxes, this`store, this`hydrated, this`nextProcess
      modifies world`last, world`ran, world`boxes, world`now
      ensures Valid() && Evolves(old(S()), S())
      ensures Hydrates(old(S()), start)
      ensures Loses(start, S(), Reaped(start, world.now)) && Prunes(start, S())
      ensures r.Ok? ==>
                && hydrated && old(nextProcess) <= r.value.id && LiveIn(store.processes, r.value.id)
                && store.processes[r.value.id] == r.value
                && Describes(r.value, sandboxId, command, requested, disposition, destroyOnExpiry, start.now, world.now)
                && r.value.status == Running && r.value.backendPid.None? && r.value.exitCode.None?
                && LaunchRan(r.value, world.last, 0)
      ensures r.Ok? ==> AllOver(start, S(), sandboxId) && Stands(start, S(), sandboxId)
      ensures r == Err(LaunchFailed) ==>
                && AllOver(start, S(), sandboxId) && start.nextProcess in store.processes
                && var p := store.processes[start.nextProcess];
                   && Describes(p, sandboxId, command, requested, disposition, destroyOnExpiry, start.now, world.now)
                   && p.status.Failed? && p.exitCode.Some? && p.exitCode.value != 0
                   && LaunchRan(p, world.last, p.exitCode.value)
      ensures r == Err(SandboxBusy) ==> Busy(start, S(), sandboxId) && SaidBusy(start, S(), sandboxId, world.last)
      ensures !world.faults ==> (r == Err(InvalidConfig) <==> command == [])
      ensures !world.faults && command != [] ==>
                if sandboxId in world.boxes
                then (&& (r.Ok? || r.error.LaunchFailed? || r.error.SandboxBusy?)
                      && (r == Err(SandboxBusy) <==> Busy(start, S(), sandboxId)))
                else r == Err(NotFound)
      ensures r.Err? && r.error.Passing() ==> world.faults
    {
      hide Inv, Evolves, Loses, Reaped, Launches, OnlyRefreshed, Clean, Prunes, Busy, AllOver, Stands, SaidBusy;
      hide Hydrates, LaunchRan, Probed, StdoutPath, StderrPath;
      var ready := EnsureHydrated();
      start := S();
      HydrateEvolves(old(S()), start);
      CleanStarts(start);
      CleanAlways(start);
      if ready.Err? { return Err(ready.error), start; }
      var cleaned, at := CleanupExpiredProcesses();
      ghost var clean := S();
      CleanAfterCleanup(start, clean, at);
      if cleaned.Err? { return Err(cleaned.error), start; }
      if command == [] { return Err(InvalidConfig), start; }

      var active := ActiveProcessForSandbox(sandboxId);
      ghost var checked := S();
      CleanThenRefreshed(start, clean, checked, sandboxId);
      RefreshedKeys(clean, checked, sandboxId);
      if active.Err? { return Err(active.error), start; }
      if active.value.Some? {
        BusyFound(start, clean, checked, at, active.value.value.id, sandboxId, world.last);
        return Err(SandboxBusy), start;
      }
      CheckedIdle(start, clean, at, checked, sandboxId);
      r := LaunchIdle(sandboxId, command, requested, disposition, destroyOnExpiry, start);
    }

    /** The rest of starting a process, once the sandbox is known to be idle. */
    method LaunchIdle(sandboxId: SandboxId, command: seq<string>, requested: Option<SandboxId>,
                      disposition: Disposition, destroyOnExpiry: bool, ghost start: State)
      returns (r: Result<ProcessInfo>)
      requires Valid() && Inv(start) && Clean(start, S()) && AllOver(start, S(), sandboxId)
      requires sandboxId in world.boxes ==> Stands(start, S(), sandboxId)
      requires forall k <- store.processes :: store.processes[k].sandboxId == sandboxId
                 ==> store.processes[k].status.Terminal()
      modifies this`store, this`nextProcess, world`last, world`ran, world`boxes, world`now
      ensures Valid() && Clean(start, S())
      ensures r.Ok? ==>
                && r.value.id == old(nextProcess) && LiveIn(store.processes, r.value.id)
                && store.processes[r.value.id] == r.value
                && Describes(r.value, sandboxId, command, requested, disposition, destroyOnExpiry,
                             old(world.now), world.now)
                && r.value.status == Running && r.value.backendPid.None? && r.value.exitCode.None?
                && LaunchRan(r.value, world.last, 0)
      ensures r == Err(LaunchFailed) ==>
                && old(nextProcess) in store.processes
                && var p := store.processes[old(nextProcess)];
                   && Describes(p, sandboxId, command, requested, disposition, destroyOnExpiry,
                                old(world.now), world.now)
                   && p.status.Failed? && p.exitCode.Some? && p.exitCode.value != 0
                   && LaunchRan(p, world.last, p.exitCode.value)
      ensures r.Ok? || r.error.LaunchFailed? ==>
                && sandboxId in world.boxes && AllOver(start, S(), sandboxId) && !Busy(start, S(), sandboxId)
                && Stands(start, S(), sandboxId)
      ensures r.Err? && !r.error.LaunchFailed? ==>
                (r.error.Fault? && world.faults) || (r.error.NotFound? && sandboxId !in world.boxes)
    {
      hide Inv, Evolves, Loses, Reaped, Launches, Clean, Prunes, Busy, AllOver, Stands, StdoutPath, StderrPath;
      hide Shaped, LaunchRan;
      ghost var checked := S();
      CleanAlways(start);
      var startedAt := world.Utc();
      ghost var idle := S();
      CleanThenQuiet(start, checked, idle);
      var fails := world.Fails();
      if fails { return Err(Fault); }
      var process := FirstRecord(nextProcess, sandboxId, requested, disposition, destroyOnExpiry, command, startedAt);
      r := LaunchProcess(process);
      LaunchesClock(idle, S(), process);
      CleanThenLaunches(start, idle, S(), process);
      IdleLaunched(start, checked, idle, S(), process);
    }

    /** Store the record, run the launch script and record how that went. */
    method LaunchProcess(process: ProcessInfo) returns (r: Result<ProcessInfo>)
      requires Valid() && process.id == nextProcess && process.status.Starting? && Shaped(process)
      requires process.startedAt <= world.now
      requires forall k <- store.processes :: store.processes[k].sandboxId == process.sandboxId
                 ==> store.processes[k].status.Terminal()
      modifies this`store, this`nextProcess, world`last, world`ran, world`boxes, world`now
      ensures Valid() && Launches(old(S()), S(), process)
      ensures world.boxes.Keys == old(world.boxes.Keys)
      ensures r.Ok? || r.error.LaunchFailed? ==> process.sandboxId in world.boxes
      ensures r.Err? && !r.error.LaunchFailed? ==>
                (r.error.Fault? && world.faults) || (r.error.NotFound? && process.sandboxId !in world.boxes)
      ensures r.Err? && !r.error.LaunchFailed? ==> store.processes == old(store.processes)[process.id := process]
      ensures r == Err(LaunchFailed) ==>
                && process.id in store.processes && SameIdentity(process, store.processes[process.id])
                && store.processes[process.id].status.Failed?
                && store.processes[process.id].exitCode.Some? && store.processes[process.id].exitCode != Some(0)
                && LaunchRan(store.processes[process.id], world.last, store.processes[process.id].exitCode.value)
      ensures r.Ok? ==>
                && r.value == process.(status := Running)
                && process.id in store.processes && store.processes[process.id] == r.value
                && LaunchRan(r.value, world.last, 0)
    {
      hide Inv, Launches, Shaped, RecordEvolves, SameBoxes, Explains, SameIdentity;
      LaunchKeepsInv(S(), process);
      LaunchStarts(S(), process);
      store, nextProcess := store.UpsertProcess(process), nextProcess + 1;
      ghost var stored := S();
      var launch := world.Exec(process.sandboxId, Launch(process.id, process.command));
      var finishedAt := world.Utc();
      var now := world.Utc();
      var expiry := world.ProcessExpiryAt(now);
      LaunchContinues(old(S()), stored, S(), process);
      if launch.Err? { return Err(launch.error); }
      var fails := world.Fails();
      if fails { return Err(Fault); }
      var report := LaunchReport(process, launch.value.exitCode, finishedAt, expiry);
      ReportExplained(process, world.last.value, finishedAt, expiry);
      LaunchReports(old(S()), S(), process, report);
      store := store.UpsertProcess(report);
      r := if launch.value.exitCode == 0 then Ok(report) else Err(LaunchFailed);
    }

    method GetProcess(id: ProcessId) returns (r: Result<ProcessInfo>, ghost start: State)
      requires Valid()
      modifies this`sandboxes, this`store, this`hydrated, world`last, world`ran, world`boxes, world`now
      ensures Valid() && Evolves(old(S()), S())
      ensures Hydrates(old(S()), start)
      ensures Loses(start, S(), Reaped(start, world.now)) && Prunes(start, S())
      ensures forall k <- store.processes ::
                k in start.store.processes && (k != id ==> store.processes[k] == start.store.processes[k])
      ensures forall home | RunsIn(start, id, home) :: Narrows(start, S(), home)
      ensures r.Ok? ==> r.value.id == id && id in store.processes && store.processes[id] == r.value
      ensures r.Ok? ==> hydrated
      ensures r.Ok? ==>
                && id in start.store.processes
                && var p := start.store.processes[id];
                   if p.status.Terminal() then r.value == p
                   else Probed(p, r.value, world.last, start.now, world.now)
      ensures r.Err? ==> !r.error.TimedOut?
      ensures r.Err? && !world.faults ==>
                id !in store.processes || store.processes[id].sandboxId !in world.boxes
      ensures KeepsUnowned(old(S()), S())
      ensures r.Err? && r.error.Passing() ==> world.faults
    {
      hide Inv, Evolves, Loses, Reaped, OnlyRefreshed, Narrows, KeepsUnowned, Clean, Prunes, Probed;
      var ready := EnsureHydrated();
      start := S();
      HydrateEvolves(old(S()), start);
      CleanStarts(start);
      CleanAlways(start);
      KeepsSame(old(S()), start);
      forall home: SandboxId ensures Narrows(start, start, home) { NarrowsReflexive(start, home); }
      if ready.Err? { return Err(ready.error), start; }
      var cleaned, at := CleanupExpiredProcesses();
      ghost var clean := S();
      forall home: SandboxId ensures Narrows(start, clean, home) { CleanupNarrows(start, clean, at, home); }
      CleanAfterCleanup(start, clean, at);
      CleanupKeepsUnowned(start, clean, at);
      KeepsTransitive(old(S()), start, clean);
      LosesClock(start, clean, Reaped(start, at));
      if cleaned.Err? { return Err(cleaned.error), start; }
      var fails := world.Fails();
      if fails { return Err(Fault), start; }
      if id !in store.processes { return Err(ProcessNotFound), start; }
      RecordFacts(clean, id);
      r := RefreshProcess(store.processes[id]);
      if r.Ok? { ProbedWithin(clean.store.processes[id], r.value, world.last, clean.now, start.now, world.now); }
      RefreshedKeys(clean, S(), clean.store.processes[id].sandboxId);
      RefreshKeepsUnowned(clean, S(), clean.store.processes[id].sandboxId);
      KeepsTransitive(old(S()), clean, S());
      CleanThenRefreshed(start, clean, S(), clean.store.processes[id].sandboxId);
      forall home | RunsIn(start, id, home) ensures Narrows(start, S(), home) {
        RefreshNarrows(clean, S(), home);
        NarrowsTransitive(start, clean, S(), home);
      }
    }

    /** Records that cannot be refreshed are left out; with a working backend those of existing
        sandboxes are all there. The order of the result is not modelled. */
    method ListProcesses() returns (r: Result<seq<ProcessInfo>>, ghost start: State)
      requires Valid()
      modifies this`sandboxes, this`store, this`hydrated, world`last, world`ran, world`boxes, world`now
      ensures Valid() && Evolves(old(S()), S())
      ensures Hydrates(old(S()), start)
      ensures Loses(start, S(), Reaped(start, world.now)) && Prunes(start, S())
      ensures r.Ok? ==> forall i | 0 <= i < |r.value| ::
                && r.value[i].id in store.processes && store.processes[r.value[i].id] == r.value[i]
                && r.value[i].id in start.store.processes
                && Answers(start.store.processes[r.value[i].id], r.value[i], world.ran, start.now, world.now)
      ensures !world.faults ==> r.Ok? && forall k <- store.processes ::
                store.processes[k].sandboxId in world.boxes ==> HasRow(r.value, k)
    {
      hide Inv, Evolves, Loses, Reaped, OnlyRefreshed, Clean, Rowed, HasRow;
      var ready := EnsureHydrated();
      start := S();
      HydrateEvolves(old(S()), start);
      CleanStarts(start);
      CleanMeans(start, start);
      if ready.Err? { return Err(ready.error), start; }
      var cleaned, at := CleanupExpiredProcesses();
      CleanAfterCleanup(start, S(), at);
      CleanMeans(start, S());
      if cleaned.Err? { return Err(cleaned.error), start; }
      var fails := world.Fails();
      if fails { return Err(Fault), start; }
      var rows := RefreshAll(start);
      CleanMeans(start, S());
      r := Ok(rows);
    }

    method RefreshAll(ghost start: State) returns (rows: seq<ProcessInfo>)
      requires Valid() && Inv(start) && Clean(start, S()) && hydrated && start.now <= world.now
      modifies this`store, world`last, world`ran, world`boxes, world`now
      ensures Valid() && Clean(start, S()) && hydrated
      ensures forall i | 0 <= i < |rows| ::
                && rows[i].id in store.processes && store.processes[rows[i].id] == rows[i]
      ensures AllAnswer(rows, old(store.processes), world.ran, start.now, world.now)
      ensures !world.faults ==> forall k <- store.processes ::
                store.processes[k].sandboxId in world.boxes ==> HasRow(rows, k)
    {
      hide Inv, Evolves, Loses, Reaped, OnlyRefreshed, Clean, Rowed, HasRow, Refreshing, ListsProcesses;
      hide AllAnswer, Probed;
      var ps := ListProcessTable();
      ghost var listed := store.processes;
      ghost var there := world.boxes.Keys;
      rows := [];
      RefreshingStarts(ps, listed);
      NoRows(ps, rows, world.faults, there);
      NoAnswers(listed, world.ran, start.now, world.now);
      for i := 0 to |ps|
        invariant Valid() && Clean(start, S()) && hydrated && world.boxes.Keys == there
        invariant Refreshing(ps, i, rows, listed, store.processes)
        invariant Rowed(ps, i, rows, world.faults, there)
        invariant start.now <= world.now && AllAnswer(rows, listed, world.ran, start.now, world.now)
      {
        ghost var before := S();
        RefreshingMeans(ps, i, rows, listed, store.processes);
        var row := RefreshProcess(ps[i]);
        RefreshedKeys(before, S(), ps[i].sandboxId);
        CleanThenRefreshed(start, before, S(), ps[i].sandboxId);
        RefreshingStep(ps, i, rows, row, listed, before, S());
        AllAnswerMore(rows, row, ps[i], listed, world.last, before.ran, world.ran,
                      start.now, before.now, world.now);
        RowedStep(ps, i, rows, row, world.faults, there);
        if row.Ok? { rows := rows + [row.value]; }
      }
      RefreshingMeans(ps, |ps|, rows, listed, store.processes);
      AllRowed(ps, rows, world.faults, there, listed, store.processes);
    }

    /** `process_wait_poll_interval` */
    function PollInterval(elapsed: Time): nat {
      if elapsed < 1000 then 25 else 100
    }

    /** Waiting returns only terminal records, and polls at most 10 T + 31 times when told to wait
        for T seconds. Other sandboxes lose only what had expired. */
    method WaitProcess(id: ProcessId, timeoutSecs: nat)
      returns (r: Result<ProcessInfo>, ghost polls: nat, ghost start: State)
      requires Valid()
      modifies this`sandboxes, this`store, this`hydrated, world`last, world`ran, world`boxes, world`now
      ensures Valid() && Evolves(old(S()), S())
      ensures Hydrates(old(S()), start)
      ensures Tidies(start, S())
      ensures forall home | RunsIn(start, id, home) :: Narrows(start, S(), home)
      ensures KeepsUnowned(old(S()), S())
      ensures r.Ok? ==>
                && r.value.id == id && r.value.status.Terminal()
                && id in store.processes && store.processes[id] == r.value
      ensures r.Ok? ==>
                id in start.store.processes
                && Polled(start.store.processes[id], r.value, world.last, start.now, world.now)
      ensures r == Err(TimedOut) ==> Live(S(), id)
      ensures r.Err? && !r.error.TimedOut? && !world.faults ==>
                id !in store.processes || store.processes[id].sandboxId !in world.boxes
      ensures var seconds := if timeoutSecs < 1 then 1 else timeoutSecs;
              polls <= 10 * seconds + 31 && (r == Err(TimedOut) ==> world.now >= old(world.now) + 1000 * seconds)
      ensures r.Err? && r.error.Passing() ==> world.faults
    {
      hide Inv, Evolves, Narrows, RunsIn, KeepsUnowned, Loses, Reaped, Prunes, Tidies, Probed, Polled, Attends;
      polls := 0;
      var ready := EnsureHydrated();
      start := S();
      HydrateEvolves(old(S()), start);
      KeepsSince(old(S()), start);
      AttendsStarts(start, id);
      AttendsAlways(start, id);
      if ready.Err? { return Err(ready.error), polls, start; }
      var started := world.now;
      var seconds := if timeoutSecs < 1 then 1 else timeoutSecs;
      var deadline := started + 1000 * seconds;
      while true
        invariant hydrated && Attends(start, S(), id)
        invariant if polls == 0 then S() == start else Live(S(), id)
        invariant polls <= 10 * seconds + 30
        invariant world.now - started >= if polls <= 40 then 25 * polls else 1000 + 100 * (polls - 40)
        decreases deadline - world.now
      {
        ghost var before := S();
        var process, _ := GetProcess(id);
        AttendsPoll(start, before, S(), id);
        EvolvesClock(before, S());
        if process.Ok? { PolledSince(start, before, id, process.value, world.last, world.now); }
        polls := polls + 1;
        if process.Err? { return process, polls, start; }
        if process.value.status.Terminal() { return process, polls, start; }
        if world.now >= deadline { return Err(TimedOut), polls, start; }
        ghost var seen := S();
        world.Sleep(PollInterval(world.now - started));
        AttendsQuiet(start, seen, S(), id);
      }
    }

    /** Ask a process to stop and wait for it to end. */
    method CancelProcess(id: ProcessId) returns (r: Result<ProcessInfo>, ghost start: State)
      requires Valid()
      modifies this`sandboxes, this`store, this`hydrated, world`last, world`ran, world`boxes, world`now
      ensures Valid() && Evolves(old(S()), S())
      ensures Hydrates(old(S()), start)
      ensures Tidies(start, S())
      ensures forall home | RunsIn(start, id, home) :: Narrows(start, S(), home)
      ensures r.Ok? ==>
                && r.value.id == id && r.value.status.Terminal()
                && id in store.processes && store.processes[id] == r.value
      ensures r.Ok? ==>
                id in start.store.processes
                && Polled(start.store.processes[id], r.value, world.last, start.now, world.now)
      ensures r == Err(TimedOut) ==>
                && Live(S(), id) && id in start.store.processes
                && ToldToStop(world.ran, start.store.processes[id], start.now)
      ensures r.Err? && !r.error.TimedOut? && !r.error.InvalidConfig? && !world.faults ==>
                id !in store.processes || store.processes[id].sandboxId !in world.boxes
      ensures r == Err(TimedOut) ==> world.now >= old(world.now) + 5000
      ensures KeepsUnowned(old(S()), S())
      ensures r.Err? && r.error.Passing() ==> world.faults
    {
      hide Inv, Evolves, Narrows, RunsIn, KeepsUnowned, Loses, Reaped, Prunes, Tidies, Probed, Polled, Attends;
      hide ToldToStop;
      var ready := EnsureHydrated();
      start := S();
      HydrateEvolves(old(S()), start);
      KeepsSince(old(S()), start);
      AttendsStarts(start, id);
      AttendsAlways(start, id);
      if ready.Err? { return Err(ready.error), start; }
      ghost var h;
      r, h := GetProcess(id);
      AttendsPoll(start, start, S(), id);
      if r.Ok? { PolledSince(start, start, id, r.value, world.last, world.now); }
      if r.Err? || r.value.status.Terminal() { return r, start; }
      RecordBefore(start, S(), id);
      AttendsClock(start, S(), id);
      ghost var seen := S();
      var written := world.WriteFile(r.value.sandboxId, CancelPath(id), "");
      AttendsQuiet(start, seen, S(), id);
      if written.Err? { return Err(written.error), start; }
      seen := S();
      ghost var p := start.store.processes[id];
      var signalled := world.Exec(r.value.sandboxId, Stop(id));
      AttendsQuiet(start, seen, S(), id);
      if signalled.Err? { return Err(signalled.error), start; }
      AttendsClock(start, S(), id);
      ghost var told, stopped := world.ran, world.last;
      r := AwaitEnd(id, start);
      ToldHolds(seen.ran, told, world.ran, p, seen.now, stopped, start.now);
    }

    /** Poll for five seconds. */
    method AwaitEnd(id: ProcessId, ghost start: State) returns (r: Result<ProcessInfo>)
      requires Valid() && hydrated && Inv(start) && Attends(start, S(), id) && Live(S(), id)
      modifies this`sandboxes, this`store, this`hydrated, world`last, world`ran, world`boxes, world`now
      ensures Attends(start, S(), id)
      ensures r.Ok? ==>
                && r.value.id == id && r.value.status.Terminal()
                && id in store.processes && store.processes[id] == r.value
                && id in start.store.processes
                && Polled(start.store.processes[id], r.value, world.last, start.now, world.now)
      ensures r == Err(TimedOut) ==> Live(S(), id) && world.now >= old(world.now) + 5000
      ensures old(world.ran) <= world.ran
      ensures r.Err? && !r.error.TimedOut? && !world.faults ==>
                id !in store.processes || store.processes[id].sandboxId !in world.boxes
      ensures r.Err? && r.error.Passing() ==> world.faults
    {
      hide Inv, Evolves, Narrows, RunsIn, KeepsUnowned, Loses, Reaped, Prunes, Tidies, Probed, Polled, Attends;
      AttendsAlways(start, id);
      var deadline := world.now + 5000;
      while true
        invariant hydrated && Attends(start, S(), id) && Live(S(), id) && old(world.ran) <= world.ran
        invariant deadline >= old(world.now) + 5000
        decreases deadline - world.now
      {
        ghost var before, h := S(), start;
        r, h := GetProcess(id);
        AttendsPoll(start, before, S(), id);
        EvolvesClock(before, S());
        if r.Ok? { PolledSince(start, before, id, r.value, world.last, world.now); }
        if r.Err? || r.value.status.Terminal() { return r; }
        if world.now >= deadline { return Err(TimedOut); }
        ghost var seen := S();
        world.Sleep(100);
        AttendsQuiet(start, seen, S(), id);
      }
    }

    /** A destroy that succeeds leaves no trace of the sandbox, and takes nothing from others but
        what had expired. With a backend that works it succeeds exactly if the sandbox exists and no
        record owned it: purging an owning record destroys the sandbox first, and the second
        destroy finds nothing. The sandbox is gone either way. */
    method DestroySandbox(id: SandboxId) returns (r: Result<()>, ghost start: State)
      requires Valid()
      modifies this`sandboxes, this`store, this`hydrated, world`last, world`ran, world`boxes, world`now
      ensures Valid() && Evolves(old(S()), S())
      ensures Hydrates(old(S()), start)
      ensures Narrows(start, S(), id) && Retains(start, S(), {id})
      ensures r.Ok? ==> hydrated && Gone(S(), id)
      ensures r.Ok? ==> forall k <- store.processes :: store.processes[k].sandboxId != id
      ensures r.Ok? ==> Unowned(old(S()), id)
      ensures !world.faults ==> (r.Ok? <==> Unowned(old(S()), id)) && id !in world.boxes
      ensures store.snapshots == old(store.snapshots)
      ensures forall n <- old(store.affinities) :: store.Pointer(n) == old(store.Pointer(n))
    {
      hide Inv, Evolves, Loses, Reaped, OnlyRefreshed, Narrows, Gone, ListsProcesses, Clearing, Unowned, KeepsUnowned;
      hide Retains;
      var ready := EnsureHydrated();
      start := S();
      HydrateEvolves(old(S()), start);
      NothingEvolves(start);
      NarrowsReflexive(start, id);
      NarrowsRetains(start, start, id);
      SameUnowned(old(S()), start, id);
      if ready.Err? { return Err(ready.error), start; }
      var fails := world.Fails();
      if fails { return Err(Fault), start; }
      var ps := ListProcessTable();
      ClearingStarts(ps, start, id);
      for i := 0 to |ps|
        invariant Valid() && hydrated && Clearing(ps, i, start, S(), id)
        invariant !world.faults && Unowned(start, id) ==> Unowned(S(), id)
      {
        ListedUnowned(ps, i, start, S(), id);
        if ps[i].sandboxId == id {
          var cleared := ClearProcess(ps, i, start, id);
          if cleared.Err? {
            NarrowsKeepsNames(start, S(), id);
            NarrowsEvolves(start, S(), id);
            NarrowsRetains(start, S(), id);
            return Err(cleared.error), start;
          }
        } else {
          ClearingSkips(ps, i, start, S(), id);
        }
      }
      ClearingEnds(ps, start, S(), id);
      ghost var cleared := S();
      r := DestroyAndForget(id);
      ClearedUnowned(ps, start, cleared, id);
      GoneBox(S(), id);
      LosesBox(cleared, S(), id);
      LosesNarrows(start, cleared, S(), id);
      NarrowsKeepsNames(start, S(), id);
      NarrowsEvolves(start, S(), id);
      NarrowsRetains(start, S(), id);
    }

    /** Stop and remove the `i`-th record of the listing, which runs in sandbox `id`. */
    method ClearProcess(ps: seq<ProcessInfo>, i: nat, ghost start: State, id: SandboxId) returns (r: Result<()>)
      requires Valid() && hydrated && i < |ps| && ps[i].sandboxId == id && Clearing(ps, i, start, S(), id)
      modifies this`sandboxes, this`store, this`hydrated, world`last, world`ran, world`boxes, world`now
      ensures Valid() && hydrated && Narrows(start, S(), id)
      ensures r.Ok? ==> Clearing(ps, i + 1, start, S(), id)
      ensures !world.faults && r.Err? ==> id !in world.boxes
      ensures !world.faults && Unowned(old(S()), id) && !ps[i].destroyOnExpiry ==> r.Ok? && Unowned(S(), id)
    {
      ghost var before := S();
      hide Inv, Evolves, Loses, Reaped, OnlyRefreshed, Narrows, Gone, ListsProcesses, Unowned, KeepsUnowned;
      UnownedExists(before, id);
      var refreshed := RefreshProcess(ps[i]);
      ghost var probed := S();
      RefreshedKeys(before, probed, id);
      RefreshNarrows(before, probed, id);
      NarrowsTransitive(start, before, probed, id);
      RefreshKeepsUnowned(before, probed, id);
      KeepsApplies(before, probed, id);
      if refreshed.Err? { return Err(refreshed.error); }
      RefreshedHome(start, before, probed, ps, i, id);
      NarrowsReflexive(probed, id);
      if !refreshed.value.status.Terminal() {
        var _, _ := CancelProcess(refreshed.value.id);
      }
      ghost var cancelled := S();
      KeepsApplies(probed, cancelled, id);
      RunsInStill(probed, cancelled, ps[i].id, id);
      NarrowsKeepsNames(probed, cancelled, id);
      r := PurgeProcess(refreshed.value);
      ghost var lost := if ps[i].destroyOnExpiry then {id} else {};
      LosesClock(cancelled, S(), lost);
      PurgedUnowned(cancelled, S(), ps[i].id, id, lost);
      PurgeNarrows(cancelled, S(), ps[i].id, id, lost);
      NarrowsTransitive(probed, cancelled, S(), id);
      NarrowsTransitive(before, probed, S(), id);
      NarrowsTransitive(start, before, S(), id);
      if r.Ok? {
        GoneBox(S(), id);
        ClearStep(ps, i, start, before, S(), id);
      }
    }

    // ---- Snapshots and names ----

    /** Save a sandbox's files; if it has a name, the name's pointer moves to the new snapshot. */
    method CreateSnapshot(id: SandboxId, note: Option<string>)
      returns (r: Result<SnapshotMetadata>, ghost start: State)
      requires Valid()
      modifies this`sandboxes, this`store, this`hydrated, this`nextSnapshot, world`artifacts, world`now
      ensures Valid() && Evolves(old(S()), S())
      ensures r.Ok? ==>
                && hydrated && id in sandboxes && r.value.config == sandboxes[id] && r.value.sandboxId == id
                && r.value.template == sandboxes[id].template && r.value.affinityName == sandboxes[id].affinityName
                && r.value.note == note && old(world.now) <= r.value.createdAt <= world.now
                && old(nextSnapshot) <= r.value.id
                && r.value.id in store.snapshots && store.snapshots[r.value.id] == r.value
                && id in world.boxes && r.value.id in world.artifacts
                && world.artifacts[r.value.id] == world.boxes[id].files
                && (sandboxes[id].affinityName.Some? ==>
                      store.Pointer(sandboxes[id].affinityName.value) == Some(r.value.id))
      ensures Hydrates(old(S()), start)
      ensures !world.faults && id in start.memory && id in world.boxes ==> r.Ok?
      ensures S() == start.(store := store, artifacts := world.artifacts, now := world.now,
                            nextSnapshot := nextSnapshot)
      ensures store.processes == old(store.processes) && store.active == old(store.active)
      ensures forall n :: store.Bound(n) == old(store.Bound(n))
      ensures forall n :: store.Pointer(n) == old(store.Pointer(n)) ||
                (id in sandboxes && sandboxes[id].affinityName == Some(n))
      ensures r.Err? && r.error.Passing() ==> world.faults
    {
      hide Inv, Evolves;
      var ready := EnsureHydrated();
      start := S();
      HydrateEvolves(old(S()), start);
      NothingEvolves(start);
      if ready.Err? { return Err(ready.error), start; }
      if id !in sandboxes { return Err(NotFound), start; }
      var config := sandboxes[id];
      var fails := world.Fails();
      if fails { return Err(Fault), start; }
      var now := world.Utc();
      var snapshot := SnapshotOf(nextSnapshot, id, config, now, note);
      ghost var dated := S();
      DatedStage(start, dated);
      SnapshotStage(start, dated, snapshot, world.artifacts);
      store, nextSnapshot := store.AddSnapshot(snapshot), nextSnapshot + 1;
      var archived := world.CreateSnapshot(id, snapshot.id);
      SnapshotStage(start, dated, snapshot, world.artifacts);
      if archived.Err? { return Err(archived.error), start; }
      if config.affinityName.Some? {
        var moved := MovePointer(config.affinityName.value, snapshot.id, start);
        if moved.Err? { return Err(moved.error), start; }
      }
      r := Ok(snapshot);
    }

    /** Let the name be restored from a snapshot of its own from now on. */
    method MovePointer(name: string, id: SnapshotId, ghost start: State) returns (r: Result<()>)
      requires Valid() && Inv(start) && Evolves(start, S())
      requires id in store.snapshots && id in world.artifacts && store.snapshots[id].config.affinityName == Some(name)
      modifies this`store, world`now
      ensures Valid() && Evolves(start, S())
      ensures old(world.now) <= world.now
      ensures r.Ok? ==> store == old(store).SetAffinitySnapshot(name, id, world.now)
      ensures r.Err? ==> S() == old(S()) && r.error.Fault? && world.faults
    {
      hide Inv, Evolves;
      var fails := world.Fails();
      if fails { return Err(Fault); }
      ghost var saved := S();
      var now := world.Utc();
      PointerStage(start, saved, name, id, now);
      store := store.SetAffinitySnapshot(name, id, now);
      r := Ok(());
    }

    /** The session of a name, if the backend has it. One that cannot be inspected is given up. */
    method FindSession(name: string) returns (r: Result<Option<SandboxId>>)
      requires Valid() && hydrated && name in store.affinities
      modifies this`store, world`now
      ensures Valid() && Evolves(old(S()), S()) && Adds(old(S()), S(), Some(name))
      ensures name in store.affinities && forall n :: store.Pointer(n) == old(store.Pointer(n))
      ensures store.snapshots == old(store.snapshots)
      ensures r.Err? ==> r.error.Fault? && world.faults && S() == old(S())
      ensures r.Ok? && r.value.Some? ==> S() == old(S()) && store.Bound(name) == r.value && r.value.value in world.boxes
      ensures r.Ok? && r.value.None? ==> store.Bound(name).None?
      ensures r.Ok? && r.value.None? ==>
                || old(store.Bound(name)).None? || old(store.Bound(name)).value !in world.boxes || world.faults
      ensures !world.faults && old(store.Bound(name)).Some? && old(store.Bound(name)).value in world.boxes ==>
                r == Ok(old(store.Bound(name)))
    {
      hide Inv, Evolves, Adds;
      NothingEvolves(S());
      AddsNothing(S(), Some(name));
      var affinity := store.affinities[name];
      if affinity.sandboxId.Some? {
        var found := world.Inspect(affinity.sandboxId.value);
        if found.Ok? { return Ok(affinity.sandboxId); }
        var fails := world.Fails();
        if fails { return Err(Fault); }
        var now := world.Utc();
        ClearKeepsInv(old(S()), affinity.sandboxId.value, now);
        store := store.ClearBinding(affinity.sandboxId.value, now);
      }
      ClearedAdds(old(S()), S(), name);
      r := Ok(None);
    }

    /** Find the session of a name, or start it again from the name's snapshot; the flag says
        which. A session that cannot be inspected is given up. Nothing else is touched. */
    method ResolveAffinity(name: string, restoreIfNeeded: bool)
      returns (r: Result<(SandboxId, bool)>, ghost start: State)
      requires Valid()
      modifies this`sandboxes, this`store, this`hydrated, world`boxes, world`now, world`nextSandbox
      ensures Valid() && Evolves(old(S()), S())
      ensures Hydrates(old(S()), start) && Adds(start, S(), Some(name))
      ensures r.Ok? ==> hydrated && store.Bound(name) == Some(r.value.0) && r.value.0 in world.boxes
      ensures r.Ok? && !r.value.1 ==> S() == start
      ensures r.Ok? && r.value.1 ==>
                var pointer := start.store.Pointer(name);
                && restoreIfNeeded && pointer.Some? && pointer.value in start.store.snapshots
                && pointer.value in start.artifacts
                && start.nextSandbox <= r.value.0 && r.value.0 in sandboxes
                && sandboxes[r.value.0] == start.store.snapshots[pointer.value].config
                && world.boxes[r.value.0] == Box(sandboxes[r.value.0], start.artifacts[pointer.value])
      ensures r.Err? && r.error.AffinityAbsent() ==>
                && hydrated
                && (start.store.Bound(name).None? || start.store.Bound(name).value !in start.boxes || world.faults)
      ensures r == Err(NoActiveSandbox) ==> !restoreIfNeeded && store.Bound(name).None?
      ensures r.Err? && !restoreIfNeeded ==> sandboxes == start.memory && world.boxes == start.boxes
      ensures !world.faults && start.store.Bound(name).Some? && start.store.Bound(name).value in start.boxes ==>
                r == Ok((start.store.Bound(name).value, false))
      ensures !world.faults && (start.store.Bound(name).None? || start.store.Bound(name).value !in start.boxes) ==>
                var pointer := start.store.Pointer(name);
                if name !in start.store.affinities then r == Err(AffinityNotFound)
                else if !restoreIfNeeded then r == Err(NoActiveSandbox)
                else if pointer.None? then r == Err(NoSnapshotToRestore)
                else (&& pointer.value in start.store.snapshots
                      && (|| (r.Ok? && r.value.1)
                          || (&& r == Err(InvalidConfig)
                              && start.store.snapshots[pointer.value].config.workspaceDir.Some?)))
      ensures r.Err? && r.error.Passing() ==> world.faults
    {
      hide Inv, Evolves, Adds;
      var ready := EnsureHydrated();
      start := S();
      HydrateEvolves(old(S()), start);
      NothingEvolves(start);
      AddsNothing(start, Some(name));
      if ready.Err? { return Err(ready.error), start; }
      var fails := world.Fails();
      if fails { return Err(Fault), start; }
      if name !in store.affinities { return Err(AffinityNotFound), start; }
      var session := FindSession(name);
      if session.Err? { return Err(session.error), start; }
      if session.value.Some? { return Ok((session.value.value, false)), start; }
      ghost var cleared := S();
      if !restoreIfNeeded { return Err(NoActiveSandbox), start; }
      var restored := RestoreNamed(name);
      EvolvesTransitive(start, cleared, S());
      AddsTransitive(start, cleared, S(), Some(name));
      r := match restored case Ok(id) => Ok((id, true)) case Err(e) => Err(e);
    }

    /** Start the session of a name again from the snapshot that the name points to. */
    method RestoreNamed(name: string) returns (r: Result<SandboxId>)
      requires Valid() && hydrated && name in store.affinities
      modifies this`sandboxes, this`store, this`hydrated, world`boxes, world`now, world`nextSandbox
      ensures Valid() && hydrated && Evolves(old(S()), S())
      ensures Adds(old(S()), S(), Some(name))
      ensures r.Ok? ==>
                var pointer := old(store.Pointer(name));
                && pointer.Some? && pointer.value in old(store).snapshots && pointer.value in old(world.artifacts)
                && store.Bound(name) == Some(r.value) && old(world.nextSandbox) <= r.value
                && r.value in sandboxes && sandboxes[r.value] == old(store).snapshots[pointer.value].config
                && r.value in world.boxes
                && world.boxes[r.value] == Box(sandboxes[r.value], old(world.artifacts)[pointer.value])
      ensures r.Err? ==> !r.error.AffinityAbsent()
      ensures !world.faults ==>
                var pointer := old(store.Pointer(name));
                if pointer.None? then r == Err(NoSnapshotToRestore)
                else (&& pointer.value in old(store).snapshots
                      && (|| r.Ok?
                          || (&& r == Err(InvalidConfig)
                              && old(store).snapshots[pointer.value].config.workspaceDir.Some?)))
      ensures r.Err? && r.error.Passing() ==> world.faults
    {
      hide Inv, Evolves, Adds;
      ghost var start := S();
      NothingEvolves(start);
      var affinity := store.affinities[name];
      AddsNothing(start, Some(name));
      if affinity.snapshotId.None? { return Err(NoSnapshotToRestore); }
      PointerTarget(start, name);
      ghost var h;
      r, h := RestoreSnapshot(affinity.snapshotId.value);
      if r.Ok? { CreatesMeans(start, S(), store.snapshots[affinity.snapshotId.value].config, r.value); }
    }

    // ---- Runs ----

    /** An idle sandbox is used as it is; a busy one makes the run overflow into a new one. */
    method PrepareRunSandbox(id: SandboxId, overflow: Option<SandboxConfig>)
      returns (r: Result<Prepared>, ghost start: State)
      requires Valid()
      modifies this`sandboxes, this`store, this`hydrated
      modifies world`last, world`ran, world`boxes, world`now, world`nextSandbox
      ensures Valid() && Evolves(old(S()), S())
      ensures Hydrates(old(S()), start)
      ensures Drifts(start, S(), Reaped(start, world.now), None) && hydrated == start.hydrated
      ensures Prunes(start, S())
      ensures r == Err(SandboxBusy) ==> overflow.None? && Occupied(start, id)
      ensures !world.faults ==>
                if overflow.Some? then Prepares(start, S(), id, overflow.value, world.accepts, r)
                else if id !in world.boxes then r == Err(NotFound) else r.Ok? || r == Err(SandboxBusy)
      ensures r.Ok? ==> hydrated
      ensures r.Ok? ==>
                match r.value
                case Prepared(used, None, ReusedExisting) =>
                  used == id && Stands(start, S(), id) && AllOver(start, S(), id)
                case Prepared(used, Some(busy), CreatedDueToBusy) =>
                  && busy == id && overflow.Some? && Overflows(start, S(), id, overflow.value, used, None)
                  && SaidBusy(start, S(), id, world.last)
                case _ => false
      ensures r.Err? && r.error.Passing() ==> world.faults
    {
      hide Inv, Evolves, Loses, Reaped, OnlyRefreshed, Clean, Overflows, Drifts, Prunes, Stands, AllOver, SaidBusy;
      hide Probed, Prepares, Busy, Occupied, Creatable, Refusal;
      var ready := EnsureHydrated();
      start := S();
      HydrateEvolves(old(S()), start);
      CleanStarts(start);
      CleanAlways(start);
      CleanAlwaysDrifts(start);
      if ready.Err? { return Err(ready.error), start; }
      var cleaned, at := CleanupExpiredProcesses();
      ghost var clean := S();
      CleanAfterCleanup(start, clean, at);
      LosesClock(start, clean, Reaped(start, clean.now));
      if cleaned.Err? { return Err(cleaned.error), start; }
      var active := ActiveProcessForSandbox(id);
      ghost var checked := S();
      CleanThenRefreshed(start, clean, checked, id);
      RefreshedKeys(clean, checked, id);
      if active.Err? {
        if !world.faults { PreparesPlainly(start, checked, id, overflow, world.accepts, Err(NotFound)); }
        return Err(active.error), start;
      }
      if active.value.None? {
        var found := world.Inspect(id);
        r := match found case Ok(_) => Ok(Prepared(id, None, ReusedExisting)) case Err(e) => Err(e);
        if !world.faults { PreparesPlainly(start, checked, id, overflow, world.accepts, r); }
        CheckedIdle(start, clean, at, checked, id);
        return r, start;
      }
      BusyFound(start, clean, checked, at, active.value.value.id, id, world.last);
      if overflow.None? {
        active := ActiveProcessForSandbox(id);
        CleanThenRefreshed(start, checked, S(), id);
        RefreshedKeys(checked, S(), id);
        return Err(SandboxBusy), start;
      }
      r := Overflow(id, overflow.value, active.value.value.id, start, clean);
    }

    /** Process `k` is live in sandbox `id`: a new sandbox takes the run instead. */
    method Overflow(id: SandboxId, config: SandboxConfig, ghost k: ProcessId, ghost start: State, ghost clean: State)
      returns (r: Result<Prepared>)
      requires Valid() && hydrated && Inv(start) && Clean(start, clean) && Clean(start, S())
      requires forall j <- clean.store.processes ::
                 j in start.store.processes && clean.store.processes[j] == start.store.processes[j]
      requires OnlyRefreshed(clean, S(), id) && Live(S(), k) && store.processes[k].sandboxId == id
      requires id in world.boxes && Busy(start, S(), id) && SaidBusy(start, S(), id, world.last)
      modifies this`sandboxes, this`store, this`hydrated, world`boxes, world`now, world`nextSandbox
      ensures Valid() && hydrated && Evolves(start, S()) && Prunes(start, S())
      ensures Drifts(start, S(), Reaped(start, world.now), None)
      ensures r.Ok? ==>
                && r.value == Prepared(r.value.id, Some(id), CreatedDueToBusy)
                && Overflows(start, S(), id, config, r.value.id, None)
      ensures r.Err? ==> !r.error.SandboxBusy? && (r.error.Passing() ==> world.faults)
      ensures Busy(start, S(), id) && SaidBusy(start, S(), id, world.last)
      ensures !world.faults ==> Prepares(start, S(), id, config, world.accepts, r)
    {
      hide Inv, Evolves, Loses, Reaped, OnlyRefreshed, Clean, Overflows, Drifts, Prunes, Busy, SaidBusy;
      ghost var checked := S();
      CleanAlways(start);
      var created, _ := CreateSandbox(config.(affinityName := None));
      SaidBusyStill(start, checked, S(), id, world.last);
      hide Creates, Adds;
      EvolvesTransitive(start, checked, S());
      CreatesDrifts(start, checked, S(), config.(affinityName := None), created);
      EvolvesClock(checked, S());
      PrunesSame(start, checked, S());
      if created.Err? { return Err(created.error); }
      OverflowHolds(start, clean, checked, S(), id, k, config, created.value);
      r := Ok(Prepared(created.value, Some(id), CreatedDueToBusy));
    }

    /** Where a run goes. */
    method ChooseSandbox(request: StartRunRequest) returns (r: Result<Prepared>, created: bool)
      requires Valid() && hydrated
      modifies this`sandboxes, this`store, this`hydrated
      modifies world`last, world`ran, world`boxes, world`now, world`nextSandbox
      ensures Valid() && hydrated && Evolves(old(S()), S())
      ensures Drifts(old(S()), S(), Reaped(old(S()), world.now), request.Loose(old(S()), {}, world.faults))
      ensures Retains(old(S()), S(), {})
      ensures r.Ok? ==> Chosen(request, old(S()), S(), r.value, created, world.faults)
      ensures !world.faults && !Foreseen(old(S())) ==>
                r.Ok? || ChoiceFails(request, old(S()), {}, S(), world.accepts, r.error)
      ensures r.Err? && r.error.Passing() ==> world.faults
    {
      hide Inv, Evolves, Adds, Drifts, NoneEnded, Clean, Reaped, DeriveName;
      hide Retains, AllOver, Stands, Overflows;
      ghost var start := S();
      RetainsSame(start, start);
      created := false;
      NothingEvolves(start);
      ChoiceDrifts(request, start, start, world.faults);
      if request.sandboxId.Some? {
        var id := request.sandboxId.value;
        if id !in sandboxes { return Err(NotFound), false; }
        ghost var h;
        r, h := PrepareRunSandbox(id, Some(sandboxes[id]));
        PrunesRetains(start, S());
        AskedChosen(request, start, S(), id, start.memory[id], r, world.accepts, world.faults);
      } else if request.affinityName.Some? {
        r := ResumeNamed(request, request.affinityName.value);
      } else if request.createConfig.Some? {
        if request.reuseAutoSession {
          r, created := ResumeAuto(request);
        } else {
          AddsNothing(start, request.Own());
          r := CreateForRun(request, request.createConfig.value, start);
        }
      } else {
        r := Err(InvalidConfig);
      }
    }

    /** The session of the name the request gives, restored if need be. */
    method ResumeNamed(request: StartRunRequest, name: string) returns (r: Result<Prepared>)
      requires Valid() && hydrated && request.sandboxId.None? && request.affinityName == Some(name)
      modifies this`sandboxes, this`store, this`hydrated
      modifies world`last, world`ran, world`boxes, world`now, world`nextSandbox
      ensures Valid() && hydrated && Evolves(old(S()), S())
      ensures Drifts(old(S()), S(), Reaped(old(S()), world.now), request.Loose(old(S()), {}, world.faults))
      ensures Retains(old(S()), S(), {})
      ensures r.Ok? ==> Chosen(request, old(S()), S(), r.value, false, world.faults)
      ensures !world.faults && !Foreseen(old(S())) ==>
                r.Ok? || ChoiceFails(request, old(S()), {}, S(), world.accepts, r.error)
      ensures r.Err? && r.error.Passing() ==> world.faults
    {
      hide Inv, Evolves, Adds, Drifts, NoneEnded, Clean, Reaped, DeriveName;
      hide Retains, AllOver, Stands, Overflows;
      ghost var start := S();
      RetainsSame(start, start);
      var resolved, _ := ResolveAffinity(name, true);
      ghost var seen := S();
      AddsDrift(start, seen, Some(name));
      AddsIssued(start, seen, Some(name));
      AddsRetains(start, seen, Some(name));
      ChoiceDrifts(request, start, seen, world.faults);
      if resolved.Err? { return Err(resolved.error); }
      var id := resolved.value.0;
      if id !in sandboxes { return Err(NotFound); }
      ghost var h;
      r, h := PrepareRunSandbox(id, Some(sandboxes[id]));
      NamedPrepared(request, start, seen, S(), name, id, resolved.value.1, r, world.accepts, world.faults);
    }

    /** The session derived from template, workspace and network, created if there is none. */
    method ResumeAuto(request: StartRunRequest) returns (r: Result<Prepared>, created: bool)
      requires Valid() && hydrated && request.Auto()
      modifies this`sandboxes, this`store, this`hydrated
      modifies world`last, world`ran, world`boxes, world`now, world`nextSandbox
      ensures Valid() && hydrated && Evolves(old(S()), S())
      ensures Drifts(old(S()), S(), Reaped(old(S()), world.now), request.Loose(old(S()), {}, world.faults))
      ensures Retains(old(S()), S(), {})
      ensures r.Ok? ==> Chosen(request, old(S()), S(), r.value, created, world.faults)
      ensures !world.faults && !Foreseen(old(S())) ==>
                r.Ok? || ChoiceFails(request, old(S()), {}, S(), world.accepts, r.error)
      ensures r.Err? && r.error.Passing() ==> world.faults
    {
      hide Inv, Evolves, Adds, Drifts, NoneEnded, Clean, Reaped, DeriveName;
      hide Retains, AllOver, Stands, Overflows;
      ghost var start := S();
      RetainsSame(start, start);
      created := false;
      var config := request.createConfig.value;
      var derived := DeriveName(config.template, config.workspaceDir, config.network);
      config := config.(affinityName := Some(derived));
      var resolved, _ := ResolveAffinity(derived, false);
      ghost var looked := S();
      AddsDrift(start, looked, Some(derived));
      AddsIssued(start, looked, Some(derived));
      AddsRetains(start, looked, Some(derived));
      ChoiceDrifts(request, start, looked, world.faults);
      if resolved.Ok? {
        var id := resolved.value.0;
        if id !in sandboxes { return Err(NotFound), false; }
        OverflowConfig(start, sandboxes[id]);
        ghost var h;
        r, h := PrepareRunSandbox(id, Some(sandboxes[id].(affinityName := None)));
        PrunesRetains(start, S());
        AskedChosen(request, start, S(), id, start.memory[id], r, world.accepts, world.faults);
        ChoiceDrifts(request, start, S(), world.faults);
      } else if resolved.error.AffinityAbsent() {
        r := CreateForRun(request, config, start);
        created := r.Ok?;
      } else {
        return Err(resolved.error), false;
      }
    }

    /** A new sandbox for the run. `before` is the state in which the choice began. */
    method CreateForRun(request: StartRunRequest, config: SandboxConfig, ghost before: State)
      returns (r: Result<Prepared>)
      requires Valid() && hydrated && Inv(before) && Evolves(before, S())
      requires request.createConfig.Some? && request.sandboxId.None? && request.affinityName.None?
      requires config == request.Created() && Adds(before, S(), config.affinityName)
      requires request.Auto() ==> !request.Resumable(before, {}) || world.faults
      modifies this`sandboxes, this`store, this`hydrated, world`boxes, world`now, world`nextSandbox
      ensures Valid() && hydrated && Evolves(before, S())
      ensures Retains(before, S(), {})
      ensures Drifts(before, S(), Reaped(before, world.now), request.Loose(before, {}, world.faults))
      ensures r.Ok? ==> Chosen(request, before, S(), r.value, request.Auto(), world.faults)
      ensures !world.faults ==> if Creatable(config, world.accepts) then r.Ok? else r == Err(Refusal(config))
      ensures r.Err? && r.error.Passing() ==> world.faults
    {
      hide Inv, Evolves, Adds, Drifts, NoneEnded, Reaped, DeriveName, Retains;
      ghost var looked := S();
      var made, _ := CreateSandbox(config);
      EvolvesTransitive(before, looked, S());
      AddsTransitive(before, looked, S(), config.affinityName);
      AddsDrift(before, S(), config.affinityName);
      AddsRetains(before, S(), config.affinityName);
      ChoiceDrifts(request, before, S(), world.faults);
      AddsIssued(before, looked, config.affinityName);
      AddsNoneEnded(before, S(), config.affinityName);
      r := match made case Ok(id) => Ok(Prepared(id, None, CreatedNew)) case Err(e) => Err(e);
    }

    /** Send a run to the sandbox it asks for, or to a new one, and start its process. `at` is the
        instant of the cleanup the call begins with. */
    method StartRun(request: StartRunRequest) returns (r: Result<StartedRun>, ghost start: State, ghost at: Time)
      requires Valid()
      modifies this`sandboxes, this`store, this`hydrated, this`nextProcess
      modifies world`last, world`ran, world`boxes, world`now, world`nextSandbox
      ensures Valid() && Evolves(old(S()), S())
      ensures Hydrates(old(S()), start) && start.now <= at <= world.now
      ensures Bounded(request, start, S(), world.faults)
      ensures r.Ok? ==> Ran(request, start, S(), r.value, Reaped(start, at), world.faults)
      ensures r.Ok? ==>
                && LaunchRan(r.value.process, world.last, 0)
                && FittedOut(world.ran, r.value.sandbox, request.writes, request.ensureCommands, start.now)
      ensures !world.faults && !Foreseen(start) ==>
                r.Ok? || RunFails(request, start, Reaped(start, at), S(), world.accepts, world.last, r.error)
      ensures r.Err? && r.error.Passing() ==> world.faults
    {
      hide Inv, Evolves, Loses, Reaped, OnlyExpiredRemoved, Chosen, Ran, Bounded, Drifts, DeriveName, Retains;
      hide Foreseen, ChoiceFails;
      var ready := EnsureHydrated();
      start, at := S(), world.now;
      HydrateEvolves(old(S()), start);
      NothingEvolves(start);
      BoundedStarts(request, start, world.faults);
      if ready.Err? { return Err(ready.error), start, at; }
      var cleaned;
      cleaned, at := CleanupExpiredProcesses();
      ghost var clean := S();
      CleanedBounded(request, start, clean, at, world.faults);
      if cleaned.Err? { return Err(cleaned.error), start, at; }
      if Trim(request.command) == "" { return Err(InvalidConfig), start, at; }

      ForeseenEarlier(start, clean, at);
      var prepared, created := ChooseSandbox(request);
      ghost var chosen := S();
      EvolvesClock(clean, chosen);
      EvolvesTransitive(start, clean, chosen);
      BoundedChoice(request, start, clean, chosen, world.faults);
      if prepared.Err? {
        if !world.faults && !Foreseen(start) {
          ChoiceFailsEarlier(request, start, clean, at, chosen, world.accepts, prepared.error);
        }
        return Err(prepared.error), start, at;
      }
      ChosenFresh(request, clean, chosen, prepared.value, created, world.faults);
      r := RunIn(request, prepared.value, created, start, clean, at);
    }

    /** The rest of a run, once its sandbox is chosen: fit it out and start the process. */
    method RunIn(request: StartRunRequest, p: Prepared, created: bool, ghost start: State, ghost clean: State,
                 ghost at: Time)
      returns (r: Result<StartedRun>)
      requires Valid() && hydrated && Inv(start) && Inv(clean) && Evolves(start, S()) && Evolves(clean, S())
      requires Loses(start, clean, Reaped(start, at)) && OnlyExpiredRemoved(start, clean, at) && at <= clean.now
      requires forall id <- start.boxes :: id in clean.boxes <==> id !in Reaped(start, at)
      requires nextProcess == start.nextProcess == clean.nextProcess && Bounded(request, start, S(), world.faults)
      requires Retains(clean, S(), {}) && Chosen(request, clean, S(), p, created, world.faults)
      requires p.id in world.boxes && p.id in sandboxes
      requires Trim(request.command) != ""
      modifies this`sandboxes, this`store, this`hydrated, this`nextProcess
      modifies world`last, world`ran, world`boxes, world`now
      ensures Valid() && Evolves(start, S()) && Bounded(request, start, S(), world.faults)
      ensures old(world.now) <= world.now
      ensures r.Ok? ==> Ran(request, start, S(), r.value, Reaped(start, at), world.faults)
      ensures r.Ok? ==>
                && LaunchRan(r.value.process, world.last, 0)
                && FittedOut(world.ran, r.value.sandbox, request.writes, request.ensureCommands, start.now)
      ensures !world.faults && !Foreseen(start) ==>
                r.Ok? || RunFails(request, start, Reaped(start, at), S(), world.accepts, world.last, r.error)
      ensures r.Err? && r.error.Passing() ==> world.faults
    {
      hide Inv, Evolves, Loses, Reaped, OnlyExpiredRemoved, Chosen, Ran, Bounded, DeriveName, Foreseen, ChoiceFails;
      hide Prunes, Retains, AllOver, Stands, Quiet, Busy, SaidBusy, FittedOut;
      ghost var chosen := S();
      var fitted := FitOut(p.id, request);
      ghost var fitting := S();
      BoundedQuiet(request, start, chosen, fitting, world.faults);
      if fitted.Err? { return Err(fitted.error); }
      QuietKeepsInv(chosen, fitting);

      var process, _ := StartProcess(p.id, ["/bin/sh", "-lc", request.command], p.requested, p.disposition,
        request.destroyOnExpiry || p.disposition.CreatedDueToBusy?);
      EvolvesClock(start, chosen);
      EvolvesClock(fitting, S());
      FittedMore(fitting.ran, world.ran, p.id, request.writes, request.ensureCommands, chosen.now, start.now);
      PrunesRetains(fitting, S());
      BoundedThen(request, start, fitting, S(), Reaped(fitting, world.now), world.faults);
      EvolvesTransitive(start, fitting, S());
      if process.Err? {
        if !world.faults && !Foreseen(start) {
          LaunchFails(request, start, clean, at, chosen, fitting, S(), p, created, world.accepts, world.last,
                      process.error);
        }
        return Err(process.error);
      }
      var session := if request.Auto() then Some(request.SessionName()) else None;
      var run := StartedRun(process.value, p.id, session, created);
      CleanupEvolves(start, clean, Reaped(start, at), at);
      RunStarted(request, start, clean, at, chosen, fitting, S(), p, run, world.faults);
      r := Ok(run);
    }

    /** The files to write and the one-off set-up commands of a run. */
    method FitOut(id: SandboxId, request: StartRunRequest) returns (r: Result<()>)
      modifies world`last, world`ran, world`boxes
      ensures Quiet(old(S()), S())
      ensures !world.faults && id in old(world.boxes) && id in sandboxes && r.Err? ==>
                || (r.error.InvalidConfig? && request.writes != [])
                || (r.error.LaunchFailed? && world.last.Some? && world.last.value.outcome.exitCode != 0)
      ensures r.Ok? ==> FittedOut(world.ran, id, request.writes, request.ensureCommands, old(world.now))
      ensures r.Err? && r.error.Passing() ==> world.faults
    {
      hide FittedOut, Did;
      NothingFitted(world.ran, id, world.now);
      for i := 0 to |request.writes|
        invariant SameBoxes(old(world.boxes), world.boxes) && old(world.ran) <= world.ran
        invariant FittedOut(world.ran, id, request.writes[..i], [], old(world.now))
      {
        ghost var before := world.ran;
        var written := world.WriteFile(id, request.writes[i].0, request.writes[i].1);
        if written.Err? { return Err(written.error); }
        DidNow(world.ran, id, Write(request.writes[i].0, request.writes[i].1), Outcome(0, ""), world.now);
        FittedStep(before, world.ran, id, request.writes[..i], [],
                   Write(request.writes[i].0, request.writes[i].1), world.now);
        assert request.writes[..i + 1] == request.writes[..i] + [request.writes[i]];
      }
      if id !in sandboxes { return Err(NotFound); }
      assert request.writes[..|request.writes|] == request.writes;
      r := RunEnsureCommands(id, request.writes, request.ensureCommands);
    }

    method RunEnsureCommands(id: SandboxId, ghost writes: seq<(string, string)>, commands: seq<string>)
      returns (r: Result<()>)
      requires FittedOut(world.ran, id, writes, [], world.now)
      modifies world`last, world`ran, world`boxes
      ensures SameBoxes(old(world.boxes), world.boxes) && old(world.ran) <= world.ran
      ensures r.Ok? ==> FittedOut(world.ran, id, writes, commands, world.now)
      ensures r.Err? ==>
                || (r.error.LaunchFailed? && world.last.Some? && world.last.value.outcome.exitCode != 0)
                || (r.error.NotFound? && id !in world.boxes) || (r.error.Fault? && world.faults)
    {
      hide FittedOut, Did;
      for i := 0 to |commands|
        invariant SameBoxes(old(world.boxes), world.boxes) && old(world.ran) <= world.ran
        invariant FittedOut(world.ran, id, writes, commands[..i], world.now)
      {
        ghost var before := world.ran;
        var ensured := world.Exec(id, SetUp(commands[i]));
        if ensured.Err? { return Err(ensured.error); }
        if ensured.value.exitCode != 0 { return Err(LaunchFailed); }
        DidNow(world.ran, id, SetUp(commands[i]), ensured.value, world.now);
        FittedStep(before, world.ran, id, writes, commands[..i], SetUp(commands[i]), world.now);
        assert commands[..i + 1] == commands[..i] + [commands[i]];
      }
      assert commands[..|commands|] == commands;
      r := Ok(());
    }

    // ---- The remaining calls, which change no table ----

    /** The sandboxes in memory that the backend still has, with their names. The order of the
        result is not modelled. */
    method ListSandboxes() returns (rows: seq<(SandboxId, Option<string>)>)
      requires Valid()
      modifies this`sandboxes, this`hydrated
      ensures Valid() && Hydrates(old(S()), S())
      ensures forall i | 0 <= i < |rows| :: rows[i].0 in Visible(S()) && Visible(S())[rows[i].0] == rows[i].1
      ensures forall i, j | 0 <= i < j < |rows| :: rows[i].0 != rows[j].0
      ensures !world.faults ==> hydrated && forall id <- Visible(S()) :: Listed(rows, id)
    {
      hide Inv, Listed;
      var _ := EnsureHydrated();
      var ids := Enumerate(sandboxes);
      rows := [];
      for i := 0 to |ids|
        modifies {}
        invariant forall j | 0 <= j < |rows| :: rows[j].0 in Visible(S()) && Visible(S())[rows[j].0] == rows[j].1
        invariant forall j | 0 <= j < |rows| :: rows[j].0 in ids[..i]
        invariant forall j, k | 0 <= j < k < |rows| :: rows[j].0 != rows[k].0
        invariant world.faults || forall j | 0 <= j < i :: ids[j] in world.boxes ==> Listed(rows, ids[j])
      {
        var found := world.Inspect(ids[i]);
        if found.Ok? {
          ListedMore(rows, (ids[i], sandboxes[ids[i]].affinityName));
          rows := rows + [(ids[i], sandboxes[ids[i]].affinityName)];
        }
        assert ids[..i + 1] == ids[..i] + [ids[i]];
      }
    }

    method Exec(id: SandboxId) returns (r: Result<Outcome>, ghost start: State)
      requires Valid()
      modifies this`sandboxes, this`hydrated, world`last, world`ran, world`boxes
      ensures Valid() && Evolves(old(S()), S())
      ensures Hydrates(old(S()), start) && Quiet(start, S())
      ensures r.Err? && r.error.Passing() ==> world.faults
    {
      hide Inv, Evolves;
      var ready := EnsureHydrated();
      start := S();
      HydrateEvolves(old(S()), start);
      NothingEvolves(start);
      if ready.Err? { return Err(ready.error), start; }
      r := world.Exec(id, Other);
      QuietKeepsInv(start, S());
      QuietEvolves(start, S());
    }

    /** The effect of reading a log on the tables: at the end of the file the process is asked how
        it is doing. What is read is the subject of `Logs.dfy`. */
    method TouchLog(id: ProcessId, atEnd: bool) returns (r: Result<bool>, ghost start: State)
      requires Valid()
      modifies this`sandboxes, this`store, this`hydrated, world`last, world`ran, world`boxes, world`now
      ensures Valid() && Evolves(old(S()), S())
      ensures Hydrates(old(S()), start)
      ensures Retains(start, S(), {})
      ensures forall home | RunsIn(start, id, home) :: OnlyRefreshed(start, S(), home)
      ensures r.Err? && r.error.Passing() ==> world.faults
    {
      hide Inv, Evolves, OnlyRefreshed;
      var ready := EnsureHydrated();
      start := S();
      HydrateEvolves(old(S()), start);
      NothingEvolves(start);
      forall home: SandboxId ensures OnlyRefreshed(start, start, home) { RefreshedReflexive(start, home); }
      if ready.Err? { return Err(ready.error), start; }
      var fails := world.Fails();
      if fails { return Err(Fault), start; }
      if id !in store.processes { return Err(ProcessNotFound), start; }
      RecordFacts(start, id);
      var process := store.processes[id];
      var sized := world.Exec(process.sandboxId, Other);
      ghost var read := S();
      QuietKeepsInv(start, read);
      QuietEvolves(start, read);
      forall home: SandboxId ensures OnlyRefreshed(start, read, home) { QuietRefreshes(start, read, home); }
      if sized.Err? { return Err(sized.error), start; }
      if !atEnd { return Ok(false), start; }
      var refreshed := RefreshProcess(process);
      RefreshedEvolves(read, S(), process.sandboxId);
      EvolvesTransitive(start, read, S());
      RefreshedTransitive(start, read, S(), process.sandboxId);
      if refreshed.Err? { return Err(refreshed.error), start; }
      r := Ok(refreshed.value.status.Terminal());
    }
  }
}
