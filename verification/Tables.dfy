/** The whole state of a running installation as one value, the invariants that tie its tables
    together, and the two relations every API call is proved to keep to. */
module Tables {
  import opened Types
  import opened Processes
  import opened Stores
  import opened Worlds
  import opened SessionKeys
  import opened Strings

  datatype State = State(
    memory: map<SandboxId, SandboxConfig>,
    store: Store,
    boxes: map<SandboxId, Box>,
    artifacts: map<SnapshotId, Files>,
    hydrated: bool,
    now: Time,
    nextSandbox: nat,
    nextSnapshot: nat,
    nextProcess: nat,
    ran: set<Executed>)

  // ---- Invariants, each over the tables it talks about ----

  /** Ids that were never handed out occur nowhere, and every record is filed under its own key. */
  ghost predicate ProcessesKeyed(processes: map<ProcessId, ProcessInfo>, next: nat) {
    forall k <- processes :: processes[k].id == k && k < next
  }

  ghost predicate ActiveKeyed(active: map<SandboxId, ActiveRecord>, next: nat) {
    forall k <- active :: active[k].sandboxId == k && k < next
  }

  ghost predicate NamesKeyed(affinities: map<string, AffinityRecord>, next: nat) {
    forall n <- affinities ::
      affinities[n].name == n && (BoundIn(affinities, n).Some? ==> BoundIn(affinities, n).value < next)
  }

  ghost predicate SnapshotsKeyed(snapshots: map<SnapshotId, SnapshotMetadata>, next: nat) {
    forall k <- snapshots :: snapshots[k].id == k && k < next
  }

  ghost predicate KeysBelow<V>(m: map<nat, V>, next: nat) {
    forall k <- m :: k < next
  }

  /** Every record has the lifecycle shape and did not start in the future. */
  ghost predicate RecordsShaped(processes: map<ProcessId, ProcessInfo>, now: Time) {
    forall k <- processes :: Shaped(processes[k]) && processes[k].startedAt <= now
  }

  ghost predicate LiveIn(processes: map<ProcessId, ProcessInfo>, k: ProcessId) {
    k in processes && !processes[k].status.Terminal()
  }

  /** At most one managed process is live in each sandbox. */
  ghost predicate OneLiveProcess(processes: map<ProcessId, ProcessInfo>) {
    forall j, k ::
      LiveIn(processes, j) && LiveIn(processes, k) && processes[j].sandboxId == processes[k].sandboxId ==> j == k
  }

  /** The in-memory table is part of the persisted one. */
  ghost predicate MemoryStored(memory: map<SandboxId, SandboxConfig>, active: map<SandboxId, ActiveRecord>) {
    forall id <- memory :: id in active && memory[id] == active[id].config
  }

  /** A persisted sandbox that is still there has the persisted configuration, and the hydrated
      server has it in memory. */
  ghost predicate BoxesKnown(hydrated: bool, memory: map<SandboxId, SandboxConfig>,
                             active: map<SandboxId, ActiveRecord>, boxes: map<SandboxId, Box>) {
    forall id <- active :: id in boxes ==>
      boxes[id].config == active[id].config && (hydrated ==> id in memory)
  }

  /** A name's session, as far as it is persisted, was created under that name. */
  ghost predicate BindingsOwnName(affinities: map<string, AffinityRecord>, active: map<SandboxId, ActiveRecord>) {
    forall n <- affinities ::
      BoundIn(affinities, n).Some? && BoundIn(affinities, n).value in active ==>
        active[BoundIn(affinities, n).value].config.affinityName == Some(n)
  }

  /** A sandbox is the session of at most one name. */
  ghost predicate BindingsDistinct(affinities: map<string, AffinityRecord>) {
    forall m <- affinities, n <- affinities ::
      BoundIn(affinities, m).Some? && BoundIn(affinities, m) == BoundIn(affinities, n) ==> m == n
  }

  /** A name's snapshot pointer leads to a stored snapshot of that name whose artifact was written. */
  ghost predicate PointersRestorable(affinities: map<string, AffinityRecord>,
                                     snapshots: map<SnapshotId, SnapshotMetadata>,
                                     artifacts: map<SnapshotId, Files>) {
    forall n <- affinities ::
      PointerIn(affinities, n).Some? ==>
        && PointerIn(affinities, n).value in snapshots
        && PointerIn(affinities, n).value in artifacts
        && snapshots[PointerIn(affinities, n).value].config.affinityName == Some(n)
  }

  /** A process can only have ended in a sandbox that once existed. */
  ghost predicate EndedInSandboxes(processes: map<ProcessId, ProcessInfo>, next: nat) {
    forall k <- processes :: processes[k].status.Terminal() ==> processes[k].sandboxId < next
  }

  /** The run is the reason why the record says that the process ended: its inspect script said so, or
      its launch script failed. */
  ghost predicate Explains(e: Executed, p: ProcessInfo) {
    && e.sandbox == p.sandboxId
    && match e.script
       case Ask(k) =>
         && k == p.id && e.outcome.exitCode == 0
         && p.finishedAt.Some? && p.expiresAt.Some? && e.at <= p.finishedAt.value
         && exists was: ProcessInfo :: !was.status.Terminal() && RecordEvolves(was, p)
              && p == ParseProbe(was, Trim(e.outcome.stdout), p.finishedAt.value, p.expiresAt.value)
       case Launch(k, command) =>
         && k == p.id && command == p.command && e.outcome.exitCode != 0
         && p.status == Failed && p.exitCode == Some(e.outcome.exitCode)
       case _ => false
  }

  /** No process is recorded as ended without such a run. */
  ghost predicate EndingsExplained(processes: map<ProcessId, ProcessInfo>, ran: set<Executed>) {
    forall k <- processes :: processes[k].status.Terminal() ==> exists e <- ran :: Explains(e, processes[k])
  }

  ghost predicate ProcessInv(s: State) {
    && ProcessesKeyed(s.store.processes, s.nextProcess)
    && RecordsShaped(s.store.processes, s.now)
    && OneLiveProcess(s.store.processes)
    && EndedInSandboxes(s.store.processes, s.nextSandbox)
    && EndingsExplained(s.store.processes, s.ran)
  }

  ghost predicate SandboxInv(s: State) {
    && ActiveKeyed(s.store.active, s.nextSandbox)
    && KeysBelow(s.boxes, s.nextSandbox)
    && MemoryStored(s.memory, s.store.active)
    && BoxesKnown(s.hydrated, s.memory, s.store.active, s.boxes)
  }

  ghost predicate NameInv(s: State) {
    && NamesKeyed(s.store.affinities, s.nextSandbox)
    && BindingsOwnName(s.store.affinities, s.store.active)
    && BindingsDistinct(s.store.affinities)
  }

  ghost predicate SnapshotInv(s: State) {
    && SnapshotsKeyed(s.store.snapshots, s.nextSnapshot)
    && KeysBelow(s.artifacts, s.nextSnapshot)
    && PointersRestorable(s.store.affinities, s.store.snapshots, s.artifacts)
  }

  ghost predicate Inv(s: State) {
    ProcessInv(s) && SandboxInv(s) && NameInv(s) && SnapshotInv(s)
  }

  ghost predicate Live(s: State, k: ProcessId) { LiveIn(s.store.processes, k) }

  // ---- What any run keeps ----

  /** How the state may change over any number of API calls of one server: terminal records are
      final, removed records and sandboxes never come back, snapshots and artifacts stay. */
  ghost predicate Evolves(s: State, t: State) {
    && s.now <= t.now && s.nextSandbox <= t.nextSandbox
    && s.nextSnapshot <= t.nextSnapshot && s.nextProcess <= t.nextProcess && s.ran <= t.ran
    && (forall k <- t.store.processes ::
          if k in s.store.processes then RecordEvolves(s.store.processes[k], t.store.processes[k])
          else s.nextProcess <= k)
    && (forall id <- t.boxes ::
          if id in s.boxes then t.boxes[id].config == s.boxes[id].config else s.nextSandbox <= id)
    && (forall id <- t.store.active ::
          if id in s.store.active then t.store.active[id] == s.store.active[id] else s.nextSandbox <= id)
    && (forall k <- s.store.snapshots :: k in t.store.snapshots && t.store.snapshots[k] == s.store.snapshots[k])
    && (forall k <- s.artifacts :: k in t.artifacts && t.artifacts[k] == s.artifacts[k])
    && (forall n <- s.store.affinities :: n in t.store.affinities
          && (s.store.Pointer(n).Some? ==> t.store.Pointer(n).Some?))
  }

  lemma EvolvesTransitive(s: State, t: State, u: State)
    requires Inv(s) && Evolves(s, t) && Evolves(t, u)
    ensures Evolves(s, u)
  {
    forall n <- s.store.affinities
      ensures n in u.store.affinities && (s.store.Pointer(n).Some? ==> u.store.Pointer(n).Some?)
    {
      assert n in t.store.affinities;
    }
  }

  // ---- What one call may add ----

  /** `h` is `s` after hydration, successful or not: persisted sandboxes were remembered, and nothing
      else changed. */
  ghost predicate Hydrates(s: State, h: State) {
    && h == s.(memory := h.memory, hydrated := h.hydrated) && Inv(h)
    && (forall id <- s.memory :: id in h.memory && h.memory[id] == s.memory[id])
    && (s.hydrated ==> h == s)
  }

  /** Sandboxes may have been added, and nothing that was there was touched except the binding of
      `name`. */
  ghost predicate Adds(s: State, t: State, name: Option<string>) {
    && s.now <= t.now && s.nextSandbox <= t.nextSandbox && t.hydrated == s.hydrated
    && t.nextSnapshot == s.nextSnapshot && t.nextProcess == s.nextProcess && t.ran == s.ran
    && t.store.processes == s.store.processes && t.store.snapshots == s.store.snapshots
    && t.artifacts == s.artifacts
    && (forall id <- s.boxes :: id in t.boxes && t.boxes[id] == s.boxes[id])
    && (forall id <- s.memory :: id in t.memory && t.memory[id] == s.memory[id])
    && (forall id <- s.store.active :: id in t.store.active && t.store.active[id] == s.store.active[id])
    && (forall id <- t.boxes :: id in s.boxes || s.nextSandbox <= id)
    && (forall id <- t.memory :: id in s.memory || s.nextSandbox <= id)
    && (forall id <- t.store.active :: id in s.store.active || s.nextSandbox <= id)
    && (forall n <- s.store.affinities :: n in t.store.affinities && t.store.Pointer(n) == s.store.Pointer(n))
    && (forall n :: name != Some(n) ==> t.store.Bound(n) == s.store.Bound(n))
  }

  // ---- What one call may take away ----

  ghost predicate Shrinks<K, V>(m: map<K, V>, n: map<K, V>, lost: set<K>) {
    && (forall k <- n :: k in m && n[k] == m[k])
    && (forall k <- m :: k in n || k in lost)
  }

  ghost predicate SameBinding(s: State, t: State, n: string, lost: set<SandboxId>)
    requires n in s.store.affinities && n in t.store.affinities
  {
    && t.store.Pointer(n) == s.store.Pointer(n)
    && t.store.affinities[n].name == s.store.affinities[n].name
    && (|| t.store.Bound(n) == s.store.Bound(n)
        || (s.store.Bound(n).Some? && s.store.Bound(n).value in lost && t.store.Bound(n).None?))
  }

  /** Outside the process table, nothing changed but what belonged to the sandboxes in `lost`. */
  ghost predicate Loses(s: State, t: State, lost: set<SandboxId>) {
    && s.now <= t.now && t.hydrated == s.hydrated && s.ran <= t.ran
    && t.nextSandbox == s.nextSandbox && t.nextSnapshot == s.nextSnapshot && s.nextProcess <= t.nextProcess
    && t.store.snapshots == s.store.snapshots && t.artifacts == s.artifacts
    && Shrinks(s.memory, t.memory, lost)
    && Shrinks(s.store.active, t.store.active, lost)
    && (forall id <- t.boxes :: id in s.boxes && t.boxes[id].config == s.boxes[id].config)
    && (forall id <- s.boxes :: id in t.boxes || id in lost)
    && t.store.affinities.Keys == s.store.affinities.Keys
    && (forall n <- s.store.affinities :: SameBinding(s, t, n, lost))
  }

  lemma LosesTransitive(s: State, t: State, u: State, d: set<SandboxId>, e: set<SandboxId>)
    requires Loses(s, t, d) && Loses(t, u, e)
    ensures Loses(s, u, d + e)
  {
    forall n <- s.store.affinities ensures SameBinding(s, u, n, d + e) {
      assert SameBinding(s, t, n, d) && SameBinding(t, u, n, e);
    }
  }

  /** No trace of the sandbox is left outside the process table. */
  ghost predicate Gone(s: State, id: SandboxId) {
    && id !in s.boxes && id !in s.memory && id !in s.store.active
    && forall n <- s.store.affinities :: s.store.Bound(n) != Some(id)
  }

  /** The sandboxes whose time is up: they belong to a record that has expired. */
  ghost function Reaped(s: State, at: Time): set<SandboxId> {
    set k | k in s.store.processes && Expired(s.store.processes[k], at)
      && s.store.processes[k].destroyOnExpiry :: s.store.processes[k].sandboxId
  }

  /** The sandbox exists and belongs to no record. */
  ghost predicate Unowned(s: State, id: SandboxId) {
    id in s.boxes && forall k <- s.store.processes :: s.store.processes[k].sandboxId == id ==>
      !s.store.processes[k].destroyOnExpiry
  }

  /** Sandboxes that belong to no record are still there and still belong to none. */
  ghost predicate KeepsUnowned(s: State, t: State) {
    forall id :: Unowned(s, id) ==> Unowned(t, id)
  }

  /** Between the two times a record like `p` can have expired: it had an expiry, or it was live and
      there was time enough to end and to be kept for a day. */
  predicate Due(p: ProcessInfo, from: Time, to: Time) {
    Expired(p, to) || (!p.status.Terminal() && from + DAY <= to)
  }

  /** The record evolved, and if it ended since, it does not expire within a day. */
  predicate Ages(p: ProcessInfo, q: ProcessInfo, since: Time) {
    && RecordEvolves(p, q)
    && (!p.status.Terminal() && q.status.Terminal() ==> q.expiresAt.Some? && since + DAY <= q.expiresAt.value)
  }

  /** Records are still there unless their time was up. Only those of the sandboxes in `freed` may
      be gone for another reason. */
  ghost predicate Retains(s: State, t: State, freed: set<SandboxId>) {
    && s.now <= t.now
    && forall k <- s.store.processes ::
         if k in t.store.processes then Ages(s.store.processes[k], t.store.processes[k], s.now)
         else Due(s.store.processes[k], s.now, t.now) || s.store.processes[k].sandboxId in freed
  }

  /** Records are still there unless they had expired when the call began or did so since. */
  ghost predicate Prunes(s: State, t: State) {
    && Retains(s, t, {})
    && forall k <- s.store.processes :: k in t.store.processes || Expired(s.store.processes[k], t.now)
  }

  /** The process ended, and if its record is gone, its time was up. */
  ghost predicate Over(s: State, t: State, k: ProcessId)
    requires k in s.store.processes
  {
    if k in t.store.processes then t.store.processes[k].status.Terminal() else Due(s.store.processes[k], s.now, t.now)
  }

  /** The inspect script of a process ran in its sandbox between the two times, and the record is what
      it said; if the script failed, the record is as it was. */
  ghost predicate Probed(p: ProcessInfo, q: ProcessInfo, last: Option<Executed>, from: Time, to: Time) {
    && last.Some? && last.value.sandbox == p.sandboxId && last.value.script == Ask(p.id)
    && from <= last.value.at <= to
    && var outcome := last.value.outcome;
       if outcome.exitCode != 0 then q == p
       else exists at, expiry ::
              q == ParseProbe(p, Trim(outcome.stdout), at, expiry) && from <= at <= to && at + DAY <= expiry
  }

  /** Since then the sandbox did this, and did it well. */
  ghost predicate Did(ran: set<Executed>, id: SandboxId, script: Script, since: Time) {
    exists e <- ran :: e.sandbox == id && e.script == script && e.outcome.exitCode == 0 && since <= e.at
  }

  /** Since then the process was marked as cancelled and told to stop. */
  ghost predicate ToldToStop(ran: set<Executed>, p: ProcessInfo, since: Time) {
    && Did(ran, p.sandboxId, Write(CancelPath(p.id), ""), since)
    && exists e <- ran :: e.sandbox == p.sandboxId && e.script == Stop(p.id) && since <= e.at
  }

  /** Since then the files were written and the set-up commands were run. */
  ghost predicate FittedOut(ran: set<Executed>, id: SandboxId, writes: seq<(string, string)>,
                            commands: seq<string>, since: Time)
  {
    && (forall i | 0 <= i < |writes| :: Did(ran, id, Write(writes[i].0, writes[i].1), since))
    && (forall i | 0 <= i < |commands| :: Did(ran, id, SetUp(commands[i]), since))
  }

  /** The record had ended before, or its inspect script was asked in the meantime. */
  ghost predicate Answers(p: ProcessInfo, q: ProcessInfo, ran: set<Executed>, from: Time, to: Time) {
    if p.status.Terminal() then q == p else exists e <- ran :: Probed(p, q, Some(e), from, to)
  }

  /** The record says what was started. */
  predicate Describes(p: ProcessInfo, sandboxId: SandboxId, command: seq<string>, requested: Option<SandboxId>,
                      disposition: Disposition, owned: bool, from: Time, to: Time)
  {
    && p.sandboxId == sandboxId && p.command == command && p.requestedSandboxId == requested
    && p.disposition == disposition && p.destroyOnExpiry == owned && from <= p.startedAt <= to
  }

  /** The launch script of the process was the last to run, in its sandbox, and ended with `code`. */
  ghost predicate LaunchRan(p: ProcessInfo, last: Option<Executed>, code: int) {
    && last.Some? && last.value.sandbox == p.sandboxId && last.value.script == Launch(p.id, p.command)
    && last.value.outcome.exitCode == code
  }

  /** The record had ended before, or it evolved and then its inspect script was asked. */
  ghost predicate Polled(p: ProcessInfo, q: ProcessInfo, last: Option<Executed>, from: Time, to: Time) {
    if p.status.Terminal() then q == p
    else exists m :: RecordEvolves(p, m) && !m.status.Terminal() && Probed(m, q, last, from, to)
  }

  /** A process ran in the sandbox before, and its inspect script just said that it still does. */
  ghost predicate SaidBusy(s: State, t: State, id: SandboxId, last: Option<Executed>) {
    exists k ::
      && Live(s, k) && Live(t, k) && s.store.processes[k].sandboxId == id
      && Probed(s.store.processes[k], t.store.processes[k], last, s.now, t.now)
  }

  /** Every process that ran in sandbox `id` has ended. */
  ghost predicate AllOver(s: State, t: State, id: SandboxId) {
    forall k <- s.store.processes :: s.store.processes[k].sandboxId == id ==> Over(s, t, k)
  }

  /** The sandboxes that belong to a record whose time can be up by then. */
  ghost function Overdue(s: State, to: Time): set<SandboxId> {
    set k | k in s.store.processes && s.store.processes[k].destroyOnExpiry
      && Due(s.store.processes[k], s.now, to) :: s.store.processes[k].sandboxId
  }

  /** Nothing is lost but records whose time was up, and the sandboxes that belonged to them. */
  ghost predicate Tidies(s: State, t: State) {
    Loses(s, t, Overdue(s, t.now)) && Retains(s, t, {})
  }

  /** The sandbox was there, and is there with everything it had. */
  ghost predicate Stands(s: State, t: State, id: SandboxId) {
    && id in s.boxes && id in t.boxes
    && (id in s.memory ==> id in t.memory && t.memory[id] == s.memory[id])
    && forall n :: s.store.Bound(n) == Some(id) ==> t.store.Bound(n) == Some(id)
  }

  /** Records other than those that expired are still there, unchanged. */
  ghost predicate OnlyExpiredRemoved(s: State, t: State, at: Time) {
    && (forall k <- t.store.processes :: k in s.store.processes && t.store.processes[k] == s.store.processes[k])
    && (forall k <- s.store.processes :: k in t.store.processes || Expired(s.store.processes[k], at))
  }

  /** The same tables; only process records of sandbox `id` may have evolved. */
  ghost predicate OnlyRefreshed(s: State, t: State, id: SandboxId) {
    && Loses(s, t, {})
    && t.store.processes.Keys == s.store.processes.Keys
    && forall k <- s.store.processes ::
         && Ages(s.store.processes[k], t.store.processes[k], s.now)
         && (s.store.processes[k].sandboxId != id ==> t.store.processes[k] == s.store.processes[k])
  }

  /** A call about one process or sandbox `id`: every other sandbox loses at most what its own
      expired records owned, and every other record is kept, or expired and removed. */
  ghost predicate Narrows(s: State, t: State, id: SandboxId) {
    && Loses(s, t, Reaped(s, t.now) + {id})
    && (forall k <- t.store.processes ::
          && k in s.store.processes && Ages(s.store.processes[k], t.store.processes[k], s.now)
          && (s.store.processes[k].sandboxId != id ==> t.store.processes[k] == s.store.processes[k]))
    && (forall k <- s.store.processes :: s.store.processes[k].sandboxId != id ==>
          k in t.store.processes || Expired(s.store.processes[k], t.now))
  }

  /** If there is such a process, it runs in sandbox `home`. */
  ghost predicate RunsIn(s: State, k: ProcessId, home: SandboxId) {
    k in s.store.processes ==> s.store.processes[k].sandboxId == home
  }

  /** Only `p` was added to the process table, and may have evolved since. */
  ghost predicate Launches(s: State, t: State, p: ProcessInfo) {
    && Loses(s, t, {}) && p.id == s.nextProcess < t.nextProcess
    && p.id in t.store.processes && RecordEvolves(p, t.store.processes[p.id])
    && t.store.processes == s.store.processes[p.id := t.store.processes[p.id]]
  }

  /** Sandboxes may have been added; of the old ones only those in `lost` lost anything, and no
      name, other than perhaps `loose`, was taken from one sandbox and given to another. */
  ghost predicate Drifts(s: State, t: State, lost: set<SandboxId>, loose: Option<string>) {
    && s.now <= t.now && s.nextSandbox <= t.nextSandbox
    && (forall id <- s.memory :: (id in t.memory && t.memory[id] == s.memory[id]) || id in lost)
    && (forall id <- s.boxes :: (id in t.boxes && t.boxes[id].config == s.boxes[id].config) || id in lost)
    && (forall id <- t.boxes :: id in s.boxes || s.nextSandbox <= id)
    && (forall n :: loose != Some(n) ==>
          || t.store.Bound(n) == s.store.Bound(n)
          || (s.store.Bound(n).Some? && s.store.Bound(n).value in lost && t.store.Bound(n).None?))
  }

  /** No record ended between the two states. */
  ghost predicate NoneEnded(s: State, t: State) {
    forall k <- t.store.processes :: t.store.processes[k].status.Terminal() ==>
      k in s.store.processes && t.store.processes[k] == s.store.processes[k]
  }

  ghost predicate Occupied(s: State, id: SandboxId) {
    exists k :: Live(s, k) && s.store.processes[k].sandboxId == id
  }

  /** A process ran in the sandbox, and still does. */
  ghost predicate Busy(s: State, t: State, id: SandboxId) {
    exists k :: Live(s, k) && Live(t, k) && s.store.processes[k].sandboxId == id
  }

  /** A busy sandbox was passed over: a new one was made with its configuration minus the name,
      while it runs on and, unless an expired record owned it, keeps everything it had. */
  ghost predicate Overflows(s: State, t: State, busy: SandboxId, config: SandboxConfig, id: SandboxId,
                            loose: Option<string>)
  {
    && Drifts(s, t, Reaped(s, t.now), loose) && NoneEnded(s, t)
    && s.nextSandbox <= id < t.nextSandbox
    && id in t.boxes && id in t.memory && t.memory[id] == config.(affinityName := None)
    && Busy(s, t, busy)
  }

  /** How a run came to its sandbox. */
  datatype Prepared = Prepared(id: SandboxId, requested: Option<SandboxId>, disposition: Disposition)

  datatype StartRunRequest = StartRunRequest(
    sandboxId: Option<SandboxId>,
    affinityName: Option<string>,
    createConfig: Option<SandboxConfig>,
    reuseAutoSession: bool,
    ensureCommands: seq<string>,
    writes: seq<(string, string)>,
    command: string,
    destroyOnExpiry: bool)
  {
    /** The run goes to the session derived from template, workspace and network. */
    predicate Auto() {
      sandboxId.None? && affinityName.None? && createConfig.Some? && reuseAutoSession
    }

    function SessionName(): string
      requires Auto()
    {
      var c := createConfig.value;
      DeriveName(c.template, c.workspaceDir, c.network)
    }

    /** The sandbox the request asks for, as the tables had it in state `s`. */
    ghost predicate Targets(s: State, id: SandboxId) {
      if sandboxId.Some? then id == sandboxId.value
      else if affinityName.Some? then s.store.Bound(affinityName.value) == Some(id)
      else Auto() && s.store.Bound(SessionName()) == Some(id)
    }

    /** The configuration of the sandbox the request comes to: the one it asks for, or one restored
        from the snapshot of the name it gives. */
    ghost function Making(s: State, id: SandboxId): Option<SandboxConfig> {
      if Targets(s, id) then (if id in s.memory then Some(s.memory[id]) else None)
      else if sandboxId.None? && affinityName.Some? && s.nextSandbox <= id then
        var pointer := s.store.Pointer(affinityName.value);
        if pointer.Some? && pointer.value in s.store.snapshots then Some(s.store.snapshots[pointer.value].config)
        else None
      else None
    }

    /** The name the request gives to a sandbox it creates or restores. */
    function Own(): Option<string> {
      if sandboxId.Some? then None
      else if affinityName.Some? then affinityName
      else if Auto() then Some(SessionName())
      else if createConfig.Some? then createConfig.value.affinityName
      else None
    }

    /** The configuration of a sandbox that is created for the run. */
    function Created(): SandboxConfig
      requires createConfig.Some?
    {
      if Auto() then createConfig.value.(affinityName := Some(SessionName())) else createConfig.value
    }

    /** The request asks for the session of its own name. */
    predicate Resumes() { sandboxId.None? && (affinityName.Some? || Auto()) }

    /** That session is there. */
    ghost predicate Resumable(s: State, lost: set<SandboxId>)
      requires Resumes()
    {
      var bound := s.store.Bound(Own().value);
      bound.Some? && bound.value in s.boxes && bound.value !in lost
    }

    /** The name that the run may bind anew: its own, unless that has a session to resume. */
    ghost function Loose(s: State, lost: set<SandboxId>, faults: bool): Option<string> {
      if Resumes() && Resumable(s, lost) && !faults then None else Own()
    }
  }

  datatype StartedRun = StartedRun(
    process: ProcessInfo,
    sandbox: SandboxId,
    sessionName: Option<string>,
    sessionCreated: bool)

  /** What the choice of a run's sandbox promises, from the state `s` in which it began. */
  ghost predicate Chosen(request: StartRunRequest, s: State, t: State, p: Prepared, created: bool, faults: bool) {
    && p.id in t.boxes
    && (p.disposition.CreatedDueToBusy? ==>
          && p.requested.Some? && request.Making(s, p.requested.value).Some?
          && Overflows(s, t, p.requested.value, request.Making(s, p.requested.value).value, p.id,
                       if request.Targets(s, p.requested.value) then None else request.Own()))
    && (p.disposition.ReusedExisting? ==>
          && p.requested.None? && AllOver(s, t, p.id) && request.Making(s, p.id).Some?
          && p.id in t.memory && t.memory[p.id] == request.Making(s, p.id).value
          && (request.Resumes() ==> t.store.Bound(request.Own().value) == Some(p.id)))
    && (p.disposition.CreatedNew? ==>
          && p.requested.None? && request.createConfig.Some? && s.nextSandbox <= p.id && p.id in t.memory
          && NoneEnded(s, t) && t.memory[p.id] == request.Created()
          && (request.Own().Some? ==> t.store.Bound(request.Own().value) == Some(p.id)))
    && (created ==> request.Auto() && p.disposition.CreatedNew?)
    && (request.Auto() ==> if created then !request.Resumable(s, {}) || faults else request.Resumable(s, {}))
    && (request.Resumes() && request.Resumable(s, {}) && !faults ==>
          request.Targets(s, if p.requested.Some? then p.requested.value else p.id))
  }

  /** What a run that started promises, from the state `s` in which the call began to the state `t`
      in which it returns; `reaped` are the sandboxes that its cleanup took. */
  ghost predicate Ran(request: StartRunRequest, s: State, t: State, run: StartedRun,
                      reaped: set<SandboxId>, faults: bool)
  {
    && Live(t, run.process.id) && t.store.processes[run.process.id] == run.process
    && run.process.status == Running && run.process.sandboxId == run.sandbox
    && run.process.command == ["/bin/sh", "-lc", request.command] && Trim(request.command) != ""
    && run.process.destroyOnExpiry == (request.destroyOnExpiry || run.process.disposition.CreatedDueToBusy?)
    && (run.process.disposition.CreatedDueToBusy? <==> run.process.requestedSandboxId.Some?)
    && (run.process.disposition.CreatedDueToBusy? ==>
          Spared(request, s, t, run.process.requestedSandboxId.value, run.sandbox))
    && run.sandbox in t.boxes && run.sandbox in t.memory && AllOver(s, t, run.sandbox)
    && (run.process.disposition.ReusedExisting? ==>
          && request.Making(s, run.sandbox) == Some(t.memory[run.sandbox])
          && (request.Resumes() ==> t.store.Bound(request.Own().value) == Some(run.sandbox)))
    && (run.process.disposition.CreatedNew? ==>
          && request.createConfig.Some? && s.nextSandbox <= run.sandbox
          && t.memory[run.sandbox] == request.Created()
          && (request.Own().Some? ==> t.store.Bound(request.Own().value) == Some(run.sandbox)))
    && run.sessionName == (if request.Auto() then Some(request.SessionName()) else None)
    && (run.sessionCreated ==> request.Auto() && run.process.disposition.CreatedNew?)
    && (request.Auto() ==>
          if run.sessionCreated then !request.Resumable(s, reaped) || faults else request.Resumable(s, reaped))
    && (request.Resumes() && request.Resumable(s, reaped) && !faults ==>
          var requested := run.process.requestedSandboxId;
          request.Targets(s, if requested.Some? then requested.value else run.sandbox))
  }

  /** A working backend makes a sandbox with this configuration. */
  predicate Creatable(config: SandboxConfig, accepts: SandboxConfig -> bool) {
    config.template in TEMPLATES && accepts(config)
  }

  /** What it answers for any other. */
  function Refusal(config: SandboxConfig): Error {
    if config.template in TEMPLATES then InvalidConfig else TemplateNotFound
  }

  /** A record names a sandbox whose id was not handed out yet, as no id can be guessed. */
  ghost predicate Foreseen(s: State) {
    exists k <- s.store.processes :: s.nextSandbox <= s.store.processes[k].sandboxId
  }

  /** On a working backend, the reasons not to get the sandbox `id`: the server does not know it, it is
      gone, or it is busy and the backend makes no other one like it. */
  ghost predicate TargetFails(s: State, lost: set<SandboxId>, t: State, id: SandboxId,
                              accepts: SandboxConfig -> bool, e: Error)
  {
    || (e.NotFound? && (id !in s.memory || id in lost || id !in t.boxes))
    || (id in s.memory && Busy(s, t, id)
        && var config := s.memory[id].(affinityName := None); !Creatable(config, accepts) && e == Refusal(config))
  }

  /** What preparing sandbox `id` answers on a working backend, when `config` is to take its place if it
      is busy. */
  ghost predicate Prepares(s: State, t: State, id: SandboxId, config: SandboxConfig,
                           accepts: SandboxConfig -> bool, r: Result<Prepared>)
  {
    if id !in t.boxes then r == Err(NotFound)
    else
      || r.Ok?
      || (&& Busy(s, t, id) && !Creatable(config.(affinityName := None), accepts)
          && r == Err(Refusal(config.(affinityName := None))))
  }

  /** On a working backend, the reasons not to get a sandbox for a run: there is no target; the sandbox
      or the session it asks for cannot be had; a name without a session has no snapshot either, or
      one that may not be restored; or the backend does not make what is to be created. */
  ghost predicate ChoiceFails(request: StartRunRequest, s: State, lost: set<SandboxId>, t: State,
                              accepts: SandboxConfig -> bool, e: Error)
  {
    if request.sandboxId.Some? then TargetFails(s, lost, t, request.sandboxId.value, accepts, e)
    else if request.Resumes() && request.Resumable(s, lost) then
      TargetFails(s, lost, t, s.store.Bound(request.Own().value).value, accepts, e)
    else if request.affinityName.Some? then
      var pointer := s.store.Pointer(request.affinityName.value);
      if request.affinityName.value !in s.store.affinities then e.AffinityNotFound?
      else if pointer.None? then e.NoSnapshotToRestore?
      else
        e.InvalidConfig? && pointer.value in s.store.snapshots
        && s.store.snapshots[pointer.value].config.workspaceDir.Some?
    else if request.createConfig.Some? then
      !Creatable(request.Created(), accepts) && e == Refusal(request.Created())
    else e.InvalidConfig?
  }

  /** On a working backend, the reasons why a run does not start: its command is blank, it gets no
      sandbox, a file to write is refused, or a set-up command or the launch script fails. */
  ghost predicate RunFails(request: StartRunRequest, s: State, lost: set<SandboxId>, t: State,
                           accepts: SandboxConfig -> bool, last: Option<Executed>, e: Error)
  {
    || (e.InvalidConfig? && (Trim(request.command) == "" || request.writes != []))
    || (e.LaunchFailed? && last.Some? && last.value.outcome.exitCode != 0)
    || ChoiceFails(request, s, lost, t, accepts, e)
  }

  /** Whatever a run came to, every record and every sandbox is still there, unless the time of a
      record was up that it belongs to; and only the run's own name may be bound anew, if it had no
      session to resume. */
  ghost predicate Bounded(request: StartRunRequest, s: State, t: State, faults: bool) {
    && Drifts(s, t, Overdue(s, t.now), request.Loose(s, Overdue(s, t.now), faults))
    && Retains(s, t, {})
  }

  /** The run did not get the sandbox it asked for but a new one of the same making without the
      name; the busy one, unless an expired record owned it, lost nothing. */
  ghost predicate Spared(request: StartRunRequest, s: State, t: State, busy: SandboxId, id: SandboxId) {
    && request.Making(s, busy).Some?
    && Occupied(s, busy)
    && s.nextSandbox <= id && id in t.memory
    && t.memory[id] == request.Making(s, busy).value.(affinityName := None)
    && (busy in s.memory && busy !in Reaped(s, t.now) ==>
          && busy in t.memory && (busy in s.boxes ==> busy in t.boxes)
          && forall n :: s.store.Bound(n) == Some(busy) ==> t.store.Bound(n) == Some(busy))
  }

  /** What listing the sandboxes shows. */
  ghost function Visible(s: State): map<SandboxId, Option<string>> {
    map id | id in s.memory && id in s.boxes :: s.memory[id].affinityName
  }

  /** The same, computed from what outlives the server: the persisted records and the backend. */
  ghost function PersistedVisible(active: map<SandboxId, ActiveRecord>, boxes: map<SandboxId, Box>):
      map<SandboxId, Option<string>>
  {
    map id | id in active && id in boxes :: active[id].config.affinityName
  }

  lemma VisibleIsPersisted(s: State)
    requires Inv(s) && s.hydrated
    ensures Visible(s) == PersistedVisible(s.store.active, s.boxes)
  {
    forall id | id in s.store.active && id in s.boxes ensures id in s.memory {
    }
  }
}
