/** What the elementary steps of the control plane do to its invariant and to the relations of
    `Tables.dfy`. */
module Steps {
  import opened Types
  import opened Processes
  import opened Stores
  import opened Worlds
  import opened SessionKeys
  import opened Strings
  import opened Tables

  // ---- The four groups of invariants, one at a time ----

  lemma ProcessesKept(s: State, t: State)
    requires ProcessInv(s) && s.now <= t.now && s.nextProcess <= t.nextProcess && s.nextSandbox <= t.nextSandbox
    requires s.ran <= t.ran
    requires forall k <- t.store.processes ::
               k in s.store.processes && t.store.processes[k] == s.store.processes[k]
    ensures ProcessInv(t)
  {
    forall j, k | Live(t, j) && Live(t, k) && t.store.processes[j].sandboxId == t.store.processes[k].sandboxId
      ensures j == k
    {
      assert Live(s, j) && Live(s, k);
    }
  }

  lemma NamesKept(s: State, t: State)
    requires NameInv(s) && s.nextSandbox <= t.nextSandbox
    requires forall id <- t.store.active :: id in s.store.active && t.store.active[id] == s.store.active[id]
    requires t.store.affinities.Keys == s.store.affinities.Keys
    requires forall n <- t.store.affinities ::
               && t.store.affinities[n].name == s.store.affinities[n].name
               && (t.store.Bound(n) == s.store.Bound(n) || t.store.Bound(n).None?)
    ensures NameInv(t)
  {
  }

  lemma SnapshotsKept(s: State, t: State)
    requires SnapshotInv(s) && t.nextSnapshot == s.nextSnapshot
    requires t.store.snapshots == s.store.snapshots && t.artifacts == s.artifacts
    requires forall n <- t.store.affinities :: t.store.Pointer(n) == s.store.Pointer(n)
    ensures SnapshotInv(t)
  {
    forall n <- t.store.affinities | t.store.Pointer(n).Some? ensures n in s.store.affinities {
    }
  }

  /** Taking things away, wherever it stopped, keeps the invariant as long as memory only forgets
      sandboxes that are gone from the backend. */
  lemma LosesKeepsInv(s: State, t: State, lost: set<SandboxId>)
    requires Inv(s) && Loses(s, t, lost) && t.store.processes == s.store.processes
    requires forall id <- t.memory :: id in t.store.active
    requires forall id <- s.memory :: id in t.memory || id !in t.boxes
    ensures Inv(t)
  {
    hide ProcessInv, NameInv, SnapshotInv;
    forall n <- t.store.affinities ensures SameBinding(s, t, n, lost) {
    }
    ProcessesKept(s, t);
    NamesKept(s, t);
    SnapshotsKept(s, t);
  }

  // ---- Process records ----

  /** What the answer of an inspect script that ran well is to the record. */
  lemma ProbeFacts(p: ProcessInfo, e: Executed, from: Time, now: Time, expiry: Time)
    requires Shaped(p) && !p.status.Terminal() && p.startedAt <= from <= e.at <= now && now + DAY <= expiry
    requires e.sandbox == p.sandboxId && e.script == Ask(p.id) && e.outcome.exitCode == 0
    ensures var q := ParseProbe(p, Trim(e.outcome.stdout), now, expiry);
            && Shaped(q) && Ages(p, q, from) && RecordEvolves(p, q) && q.id == p.id && q.sandboxId == p.sandboxId
            && Probed(p, q, Some(e), from, now) && (q.status.Terminal() ==> Explains(e, q))
  {
    ProbeKeepsShape(p, Trim(e.outcome.stdout), now, expiry);
    hide ParseProbe, Trim, Shaped;
  }

  lemma RecordStays(p: ProcessInfo, since: Time)
    ensures Ages(p, p, since) && RecordEvolves(p, p)
  {
  }

  lemma NotProbed(p: ProcessInfo, e: Executed, from: Time, to: Time)
    requires e.sandbox == p.sandboxId && e.script == Ask(p.id) && e.outcome.exitCode != 0 && from <= e.at <= to
    ensures Probed(p, p, Some(e), from, to)
  {
  }

  lemma ProbedWithin(p: ProcessInfo, q: ProcessInfo, last: Option<Executed>, from: Time, since: Time, to: Time)
    requires since <= from
    ensures Probed(p, q, last, from, to) ==> Probed(p, q, last, since, to)
  {
    hide ParseProbe, Trim;
  }

  /** Rewriting a record with an evolved, well-shaped one keeps the invariant. */
  lemma UpsertKeepsInv(s: State, p: ProcessInfo)
    requires Inv(s) && p.id in s.store.processes && Shaped(p)
    requires RecordEvolves(s.store.processes[p.id], p) && (p.status.Terminal() ==> p.sandboxId < s.nextSandbox)
    requires p.status.Terminal() ==> exists e <- s.ran :: Explains(e, p)
    ensures Inv(s.(store := s.store.UpsertProcess(p)))
  {
    hide SandboxInv, NameInv, SnapshotInv, Shaped;
    var t := s.(store := s.store.UpsertProcess(p));
    forall j, k | Live(t, j) && Live(t, k) && t.store.processes[j].sandboxId == t.store.processes[k].sandboxId
      ensures j == k
    {
      assert Live(s, j) && Live(s, k);
    }
    RestKept(s, t);
  }

  /** A new live record may only join a sandbox that has none. */
  lemma LaunchKeepsInv(s: State, p: ProcessInfo)
    requires Inv(s) && Shaped(p) && p.status.Starting? && p.id == s.nextProcess && p.startedAt <= s.now
    requires forall k <- s.store.processes :: s.store.processes[k].sandboxId == p.sandboxId
               ==> s.store.processes[k].status.Terminal()
    ensures Inv(s.(store := s.store.UpsertProcess(p), nextProcess := s.nextProcess + 1))
  {
    hide SandboxInv, NameInv, SnapshotInv, Shaped;
    var t := s.(store := s.store.UpsertProcess(p), nextProcess := s.nextProcess + 1);
    forall j, k | Live(t, j) && Live(t, k) && t.store.processes[j].sandboxId == t.store.processes[k].sandboxId
      ensures j == k
    {
      assert j == p.id || Live(s, j);
      assert k == p.id || Live(s, k);
    }
    RestKept(s, t);
  }

  /** The other groups do not look at the process table. */
  lemma RestKept(s: State, t: State)
    requires SandboxInv(s) && NameInv(s) && SnapshotInv(s)
    requires t == s.(store := s.store.(processes := t.store.processes), nextProcess := t.nextProcess)
    ensures SandboxInv(t) && NameInv(t) && SnapshotInv(t)
  {
  }

  lemma RemoveRecordKeepsInv(s: State, k: ProcessId)
    requires Inv(s)
    ensures Inv(s.(store := s.store.RemoveProcess(k)))
  {
    hide ProcessInv, SandboxInv, NameInv, SnapshotInv;
    ProcessesKept(s, s.(store := s.store.RemoveProcess(k)));
    RestKept(s, s.(store := s.store.RemoveProcess(k)));
  }

  /** A call that only took things away or refreshed records is an evolution. */
  lemma LosesEvolves(s: State, t: State, lost: set<SandboxId>)
    requires Loses(s, t, lost)
    requires forall k <- t.store.processes ::
               if k in s.store.processes then RecordEvolves(s.store.processes[k], t.store.processes[k])
               else s.nextProcess <= k
    ensures Evolves(s, t)
  {
    forall n <- s.store.affinities ensures SameBinding(s, t, n, lost) {
    }
  }

  lemma GoneStays(s: State, t: State, lost: set<SandboxId>, id: SandboxId)
    requires Loses(s, t, lost) && Gone(s, id)
    ensures Gone(t, id)
  {
    forall n <- t.store.affinities ensures t.store.Bound(n) != Some(id) {
      assert SameBinding(s, t, n, lost);
    }
  }

  lemma RefreshedTransitive(s: State, t: State, u: State, id: SandboxId)
    requires OnlyRefreshed(s, t, id) && OnlyRefreshed(t, u, id)
    ensures OnlyRefreshed(s, u, id)
  {
    var none: set<SandboxId> := {};
    LosesTransitive(s, t, u, none, none);
    assert none + none == none;
  }

  // ---- Steps that change nothing but the clock and the contents of files ----

  ghost predicate Quiet(s: State, t: State) {
    && s.now <= t.now && SameBoxes(s.boxes, t.boxes) && s.ran <= t.ran
    && t == s.(now := t.now, boxes := t.boxes, ran := t.ran)
  }

  lemma QuietKeepsInv(s: State, t: State)
    requires Inv(s) && Quiet(s, t)
    ensures Inv(t) && Loses(s, t, {})
  {
    LosesKeepsInv(s, t, {});
  }

  lemma NothingLost(s: State)
    ensures Loses(s, s, {})
  {
  }

  lemma QuietRefreshes(s: State, t: State, id: SandboxId)
    requires Inv(s) && Quiet(s, t)
    ensures OnlyRefreshed(s, t, id)
  {
    QuietKeepsInv(s, t);
    hide Inv;
  }

  lemma RecordFacts(s: State, k: ProcessId)
    requires Inv(s) && k in s.store.processes
    ensures var p := s.store.processes[k];
            && p.id == k && Shaped(p) && p.startedAt <= s.now && k < s.nextProcess
            && (p.status.Terminal() ==> exists e <- s.ran :: Explains(e, p))
            && (p.status.Terminal() ==> p.sandboxId < s.nextSandbox)
  {
  }

  lemma BoxIssued(s: State, id: SandboxId)
    requires Inv(s) && id in s.boxes
    ensures id < s.nextSandbox
  {
  }

  // ---- Hydration ----

  lemma RememberKeepsInv(s: State, id: SandboxId)
    requires Inv(s) && id in s.store.active
    ensures Inv(s.(memory := s.memory[id := s.store.active[id].config]))
  {
  }

  lemma RememberHydrates(s: State, h: State, id: SandboxId)
    requires Hydrates(s, h) && !s.hydrated && !h.hydrated && id in h.store.active
    ensures Hydrates(s, h.(memory := h.memory[id := h.store.active[id].config]))
  {
    RememberKeepsInv(h, id);
    assert MemoryStored(h.memory, h.store.active);
  }

  lemma HydratedKeepsInv(s: State)
    requires Inv(s) && forall id <- s.store.active :: id in s.boxes ==> id in s.memory
    ensures Inv(s.(hydrated := true))
  {
  }

  /** One refresh: time passes, the command touches files, the record is rewritten. */
  lemma RefreshStep(s: State, t: State, p: ProcessInfo)
    requires Inv(s) && Quiet(s, t)
    requires p.id in s.store.processes && Ages(s.store.processes[p.id], p, s.now) && Shaped(p)
    requires p.sandboxId in s.boxes || s.store.processes[p.id] == p
    requires s.store.processes[p.id] == p || !p.status.Terminal() || exists e <- t.ran :: Explains(e, p)
    ensures var u := t.(store := t.store.UpsertProcess(p));
            Inv(u) && OnlyRefreshed(s, u, p.sandboxId)
    ensures s.store.processes[p.id] == p ==> Inv(t) && OnlyRefreshed(s, t, p.sandboxId)
  {
    hide Inv, Shaped, Explains;
    QuietKeepsInv(s, t);
    RecordFacts(s, p.id);
    if p.sandboxId in s.boxes { BoxIssued(s, p.sandboxId); }
    UpsertKeepsInv(t, p);
  }

  lemma RefreshedReflexive(s: State, id: SandboxId)
    ensures OnlyRefreshed(s, s, id)
  {
  }

  // ---- Forgetting a sandbox ----

  lemma LosesAgain(s: State, t: State, u: State, d: set<SandboxId>, e: set<SandboxId>)
    requires Loses(s, t, d) && Loses(t, u, e) && e <= d
    ensures Loses(s, u, d)
  {
    LosesTransitive(s, t, u, d, e);
    assert d + e == d;
  }

  /** The three stages of forgetting: memory, then the binding, then the persisted record. */
  ghost function WithoutMemory(s: State, id: SandboxId): State { s.(memory := s.memory - {id}) }

  ghost function WithoutBinding(s: State, id: SandboxId, at: Time): State {
    WithoutMemory(s, id).(store := s.store.ClearBinding(id, at), now := at)
  }

  ghost function WithoutActive(s: State, id: SandboxId, at: Time): State {
    WithoutBinding(s, id, at).(store := s.store.ClearBinding(id, at).RemoveActive(id))
  }

  lemma ForgetLoses(s: State, id: SandboxId, at: Time)
    requires id !in s.boxes && s.now <= at
    ensures Loses(s, WithoutMemory(s, id), {id})
    ensures Loses(s, WithoutBinding(s, id, at), {id})
    ensures Loses(s, WithoutActive(s, id, at), {id}) && Gone(WithoutActive(s, id, at), id)
  {
    var b, a := WithoutBinding(s, id, at), WithoutActive(s, id, at);
    forall n <- s.store.affinities ensures SameBinding(s, b, n, {id}) && b.store.Bound(n) != Some(id) {
    }
    forall n <- s.store.affinities ensures SameBinding(s, a, n, {id}) && a.store.Bound(n) != Some(id) {
    }
  }

  lemma MemoryStillStored(s: State)
    requires Inv(s)
    ensures forall id <- s.memory :: id in s.store.active
  {
  }

  lemma ForgetKeepsInv(s: State, id: SandboxId, at: Time)
    requires Inv(s) && id !in s.boxes && s.now <= at
    ensures Inv(WithoutMemory(s, id)) && Loses(s, WithoutMemory(s, id), {id})
    ensures Inv(WithoutBinding(s, id, at)) && Loses(s, WithoutBinding(s, id, at), {id})
    ensures Inv(WithoutActive(s, id, at)) && Loses(s, WithoutActive(s, id, at), {id})
    ensures Gone(WithoutActive(s, id, at), id)
  {
    ForgetLoses(s, id, at);
    MemoryStillStored(s);
    hide Inv, Loses, Gone;
    LosesKeepsInv(s, WithoutMemory(s, id), {id});
    LosesKeepsInv(s, WithoutBinding(s, id, at), {id});
    LosesKeepsInv(s, WithoutActive(s, id, at), {id});
  }

  /** The backend dropped the sandbox, or did not. */
  lemma DestroyKeepsInv(s: State, t: State, id: SandboxId)
    requires Inv(s) && t == s.(boxes := t.boxes) && (t.boxes == s.boxes || t.boxes == s.boxes - {id})
    ensures Inv(t) && Loses(s, t, {id})
  {
    LosesKeepsInv(s, t, {id});
  }

  lemma LosesWeaken(s: State, t: State, d: set<SandboxId>, e: set<SandboxId>)
    requires Loses(s, t, d) && d <= e
    ensures Loses(s, t, e)
  {
    forall n <- s.store.affinities ensures SameBinding(s, t, n, e) {
      assert SameBinding(s, t, n, d);
    }
  }

  lemma LosesClock(s: State, t: State, d: set<SandboxId>)
    requires Loses(s, t, d)
    ensures s.now <= t.now && t.hydrated == s.hydrated && s.nextProcess <= t.nextProcess
  {
  }

  lemma RemoveRecord(s: State, t: State, d: set<SandboxId>, k: ProcessId, id: SandboxId)
    requires Inv(t) && Loses(s, t, d)
    ensures var u := t.(store := t.store.RemoveProcess(k));
            Inv(u) && Loses(s, u, d) && (Gone(t, id) ==> Gone(u, id))
  {
    RemoveRecordKeepsInv(t, k);
    hide Inv;
    var u := t.(store := t.store.RemoveProcess(k));
    forall n <- s.store.affinities ensures SameBinding(s, u, n, d) {
      assert SameBinding(s, t, n, d);
    }
    forall n <- u.store.affinities ensures t.store.Bound(n) == u.store.Bound(n) {
    }
  }

  lemma ReapedHas(s: State, k: ProcessId, at: Time)
    requires k in s.store.processes && Expired(s.store.processes[k], at) && s.store.processes[k].destroyOnExpiry
    ensures s.store.processes[k].sandboxId in Reaped(s, at)
  {
  }

  lemma ReapedOwner(s: State, id: SandboxId, at: Time) returns (k: ProcessId)
    requires id in Reaped(s, at)
    ensures k in s.store.processes && Expired(s.store.processes[k], at)
    ensures s.store.processes[k].destroyOnExpiry && s.store.processes[k].sandboxId == id
  {
    k :| k in s.store.processes && Expired(s.store.processes[k], at)
      && s.store.processes[k].destroyOnExpiry && s.store.processes[k].sandboxId == id;
  }

  // ---- Sweeping the process table ----

  ghost predicate Listed(rows: seq<(SandboxId, Option<string>)>, id: SandboxId) {
    exists i | 0 <= i < |rows| :: rows[i].0 == id
  }

  lemma ListedMore(rows: seq<(SandboxId, Option<string>)>, row: (SandboxId, Option<string>))
    ensures Listed(rows + [row], row.0)
    ensures forall id :: Listed(rows, id) ==> Listed(rows + [row], id)
  {
    assert (rows + [row])[|rows|] == row;
    forall id | Listed(rows, id) ensures Listed(rows + [row], id) {
      var i :| 0 <= i < |rows| && rows[i].0 == id;
      assert (rows + [row])[i].0 == id;
    }
  }

  /** `ps` lists the table, in some order. */
  ghost predicate ListsProcesses(ps: seq<ProcessInfo>, table: map<ProcessId, ProcessInfo>) {
    && (forall i | 0 <= i < |ps| :: ps[i].id in table && table[ps[i].id] == ps[i])
    && (forall i, j | 0 <= i < j < |ps| :: ps[i].id != ps[j].id)
    && (forall k <- table :: exists i | 0 <= i < |ps| :: ps[i].id == k)
  }

  /** The first `i` records of the listing have been dealt with. */
  ghost predicate Swept(ps: seq<ProcessInfo>, i: nat, s: State, t: State, at: Time)
    requires i <= |ps|
  {
    && ListsProcesses(ps, s.store.processes)
    && Loses(s, t, Reaped(s, at))
    && OnlyExpiredRemoved(s, t, at)
    && (forall j | 0 <= j < i :: Expired(ps[j], at) ==>
          ps[j].id !in t.store.processes && (ps[j].destroyOnExpiry ==> Gone(t, ps[j].sandboxId)))
  }

  lemma SweepStarts(ps: seq<ProcessInfo>, s: State, t: State, at: Time)
    requires ListsProcesses(ps, s.store.processes) && Loses(s, t, {}) && t.store.processes == s.store.processes
    ensures Swept(ps, 0, s, t, at)
  {
    LosesWeaken(s, t, {}, Reaped(s, at));
  }

  lemma SweepStep(ps: seq<ProcessInfo>, i: nat, s: State, t: State, u: State, at: Time)
    requires i < |ps| && Swept(ps, i, s, t, at) && Expired(ps[i], at)
    requires Loses(t, u, if ps[i].destroyOnExpiry then {ps[i].sandboxId} else {})
    requires u.store.processes == t.store.processes - {ps[i].id} || u.store.processes == t.store.processes
    ensures Loses(s, u, Reaped(s, at)) && OnlyExpiredRemoved(s, u, at)
    ensures u.store.processes == t.store.processes - {ps[i].id}
              && (ps[i].destroyOnExpiry ==> Gone(u, ps[i].sandboxId))
            ==> Swept(ps, i + 1, s, u, at)
  {
    hide Loses, Gone, Reaped;
    var mine := if ps[i].destroyOnExpiry then {ps[i].sandboxId} else {};
    if ps[i].destroyOnExpiry { ReapedHas(s, ps[i].id, at); }
    LosesAgain(s, t, u, Reaped(s, at), mine);
    forall j | 0 <= j < i && Expired(ps[j], at) && ps[j].destroyOnExpiry ensures Gone(u, ps[j].sandboxId) {
      GoneStays(t, u, mine, ps[j].sandboxId);
    }
  }

  lemma SweptBoxes(s: State, t: State, at: Time)
    requires Loses(s, t, Reaped(s, at)) && forall id <- Reaped(s, at) :: Gone(t, id)
    ensures forall id <- s.boxes :: id in t.boxes <==> id !in Reaped(s, at)
  {
    hide Reaped;
  }

  lemma SweepEnds(ps: seq<ProcessInfo>, s: State, t: State, at: Time)
    requires Swept(ps, |ps|, s, t, at)
    ensures forall k <- t.store.processes :: !Expired(t.store.processes[k], at)
    ensures forall id <- Reaped(s, at) :: Gone(t, id)
    ensures Loses(s, t, Reaped(s, at)) && OnlyExpiredRemoved(s, t, at)
  {
    hide Loses, Gone, Reaped;
    forall k <- t.store.processes ensures !Expired(t.store.processes[k], at) {
      var j :| 0 <= j < |ps| && ps[j].id == k;
    }
    forall id <- Reaped(s, at) ensures Gone(t, id) {
      var k := ReapedOwner(s, id, at);
      var j :| 0 <= j < |ps| && ps[j].id == k;
    }
  }

  lemma SweepSkips(ps: seq<ProcessInfo>, i: nat, s: State, t: State, at: Time)
    requires i < |ps| && Swept(ps, i, s, t, at) && !Expired(ps[i], at)
    ensures Swept(ps, i + 1, s, t, at)
  {
  }

  lemma NothingRemoved(s: State, t: State, at: Time)
    requires t.store.processes == s.store.processes
    ensures OnlyExpiredRemoved(s, t, at)
  {
  }

  // ---- Creating a sandbox ----

  /** The backend made a sandbox, or failed and may have left one that nobody knows. */
  ghost predicate Boxed(s: State, t: State) {
    && s.now <= t.now && s.nextSandbox <= t.nextSandbox
    && t == s.(boxes := t.boxes, nextSandbox := t.nextSandbox, now := t.now)
    && (forall id <- s.boxes :: id in t.boxes && t.boxes[id] == s.boxes[id])
    && (forall id <- t.boxes :: id in s.boxes || s.nextSandbox <= id < t.nextSandbox)
  }

  ghost function WithBound(s: State, config: SandboxConfig, id: SandboxId, at: Time): State {
    if config.affinityName.Some?
    then s.(store := s.store.BindSandbox(config.affinityName.value, id, at), now := at)
    else s
  }

  ghost function Registered(s: State, config: SandboxConfig, id: SandboxId, at: Time, made: Time): State {
    var b := WithBound(s, config, id, at);
    b.(store := b.store.UpsertActive(id, config, made), memory := b.memory[id := config])
  }

  /** The effect of creating (or restoring) a sandbox with `config`: on success it is live, in
      memory, persisted and bound to its name; in any case nothing that was there is touched,
      except that the name may have been rebound. */
  ghost predicate Creates(s: State, t: State, config: SandboxConfig, r: Result<SandboxId>) {
    && Adds(s, t, config.affinityName)
    && (r.Ok? ==>
          && s.nextSandbox <= r.value < t.nextSandbox
          && r.value in t.boxes && t.boxes[r.value].config == config
          && r.value in t.memory && t.memory[r.value] == config
          && (config.affinityName.Some? ==> t.store.Bound(config.affinityName.value) == Some(r.value)))
  }

  lemma BoxedKeepsInv(s: State, t: State, config: SandboxConfig, e: Error)
    requires Inv(s) && Boxed(s, t)
    ensures Inv(t) && Creates(s, t, config, Err(e))
  {
    hide ProcessInv, NameInv, SnapshotInv;
    ProcessesKept(s, t);
    NamesKept(s, t);
    SnapshotsKept(s, t);
  }

  lemma BindKeepsNames(s: State, name: string, id: SandboxId, at: Time)
    requires NameInv(s) && SnapshotInv(s) && id < s.nextSandbox && id !in s.store.active
    requires forall n <- s.store.affinities :: s.store.Bound(n) != Some(id)
    ensures var t := s.(store := s.store.BindSandbox(name, id, at), now := at); NameInv(t) && SnapshotInv(t)
  {
    var t := s.(store := s.store.BindSandbox(name, id, at), now := at);
    forall n <- t.store.affinities
      ensures t.store.Pointer(n) == s.store.Pointer(n)
      ensures t.store.Bound(n) == if n == name then Some(id) else s.store.Bound(n)
    {
    }
  }

  lemma BindKeepsInv(s: State, config: SandboxConfig, id: SandboxId, at: Time)
    requires Inv(s) && s.now <= at && id < s.nextSandbox && id !in s.store.active
    requires forall n <- s.store.affinities :: s.store.Bound(n) != Some(id)
    ensures Inv(WithBound(s, config, id, at))
  {
    if config.affinityName.Some? {
      hide ProcessInv, NameInv, SnapshotInv;
      BindKeepsNames(s, config.affinityName.value, id, at);
      ProcessesKept(s, WithBound(s, config, id, at));
    }
  }

  lemma RegisterKeepsInv(s: State, config: SandboxConfig, id: SandboxId, at: Time, made: Time)
    requires Inv(WithBound(s, config, id, at)) && id < s.nextSandbox
    requires id in s.boxes && s.boxes[id].config == config
    requires forall n <- s.store.affinities :: s.store.Bound(n) != Some(id)
    ensures Inv(Registered(s, config, id, at, made))
  {
    hide ProcessInv, SnapshotInv;
    var b, t := WithBound(s, config, id, at), Registered(s, config, id, at, made);
    assert t == b.(store := t.store, memory := t.memory);
    ProcessesKept(b, t);
    SnapshotsKept(b, t);
  }

  lemma FreshUnknown(s: State, id: SandboxId)
    requires Inv(s) && s.nextSandbox <= id
    ensures id !in s.store.active && id !in s.memory && id !in s.boxes
    ensures forall n <- s.store.affinities :: s.store.Bound(n) != Some(id)
  {
  }

  lemma BoundCreates(s: State, t: State, config: SandboxConfig, id: SandboxId, at: Time, e: Error)
    requires Boxed(s, t) && t.now <= at
    ensures Creates(s, WithBound(t, config, id, at), config, Err(e))
  {
  }

  lemma EntryAdds(s: State, b: State, name: Option<string>, config: SandboxConfig, id: SandboxId, made: Time)
    requires Adds(s, b, name) && s.nextSandbox <= id && id !in s.store.active && id !in s.memory
    ensures Adds(s, b.(store := b.store.UpsertActive(id, config, made), memory := b.memory[id := config]), name)
  {
    var u := b.(store := b.store.UpsertActive(id, config, made), memory := b.memory[id := config]);
    forall n ensures u.store.Bound(n) == b.store.Bound(n) && u.store.Pointer(n) == b.store.Pointer(n) {
    }
  }

  lemma RegisterCreates(s: State, t: State, config: SandboxConfig, id: SandboxId, at: Time, made: Time)
    requires Boxed(s, t) && t.now <= at && s.nextSandbox <= id < t.nextSandbox
    requires id in t.boxes && t.boxes[id].config == config
    requires id !in s.store.active && id !in s.memory
    ensures Creates(s, Registered(t, config, id, at, made), config, Ok(id))
  {
    BoundCreates(s, t, config, id, at, Fault);
    hide Boxed, Adds;
    EntryAdds(s, WithBound(t, config, id, at), config.affinityName, config, id, made);
  }

  /** Both outcomes of a creation that got as far as the backend's answer. */
  lemma CreateStages(s: State, t: State, config: SandboxConfig, id: SandboxId, at: Time, made: Time)
    requires Inv(s) && Boxed(s, t) && t.now <= at && s.nextSandbox <= id < t.nextSandbox
    requires id in t.boxes && t.boxes[id].config == config
    ensures Inv(t) && forall e :: Creates(s, t, config, Err(e))
    ensures Inv(WithBound(t, config, id, at)) && forall e :: Creates(s, WithBound(t, config, id, at), config, Err(e))
    ensures Inv(Registered(t, config, id, at, made))
    ensures Creates(s, Registered(t, config, id, at, made), config, Ok(id))
  {
    hide Inv, Creates, WithBound, Registered;
    FreshUnknown(s, id);
    forall e ensures Creates(s, t, config, Err(e)) {
      BoxedKeepsInv(s, t, config, e);
    }
    forall e ensures Creates(s, WithBound(t, config, id, at), config, Err(e)) {
      BoundCreates(s, t, config, id, at, e);
    }
    BoxedKeepsInv(s, t, config, Fault);
    BindKeepsInv(t, config, id, at);
    RegisterKeepsInv(t, config, id, at, made);
    RegisterCreates(s, t, config, id, at, made);
  }

  lemma CreatesEvolves(s: State, t: State, config: SandboxConfig, r: Result<SandboxId>)
    requires Creates(s, t, config, r)
    ensures Evolves(s, t)
  {
  }

  // ---- Evolution of each kind of step ----

  lemma HydrateEvolves(s: State, h: State)
    requires Hydrates(s, h)
    ensures Evolves(s, h)
    ensures forall t | Evolves(h, t) :: Evolves(s, t)
  {
    hide Inv;
  }

  lemma RestartEvolves(s: State)
    ensures Evolves(s, s.(memory := map[], hydrated := false))
  {
  }

  lemma QuietEvolves(s: State, t: State)
    requires Quiet(s, t)
    ensures Evolves(s, t)
  {
  }

  lemma NarrowsEvolves(s: State, t: State, id: SandboxId)
    requires Narrows(s, t, id)
    ensures Evolves(s, t)
  {
    LosesEvolves(s, t, Reaped(s, t.now) + {id});
  }

  // ---- Narrowing ----

  lemma ReapedLater(s: State, at: Time, later: Time)
    requires at <= later
    ensures Reaped(s, at) <= Reaped(s, later)
  {
    forall id <- Reaped(s, at) ensures id in Reaped(s, later) {
      var k := ReapedOwner(s, id, at);
      ReapedHas(s, k, later);
    }
  }

  lemma ReapedNarrowed(s: State, t: State, id: SandboxId, at: Time)
    requires forall k <- t.store.processes ::
               k in s.store.processes && Ages(s.store.processes[k], t.store.processes[k], s.now)
               && (s.store.processes[k].sandboxId != id ==> t.store.processes[k] == s.store.processes[k])
    ensures Reaped(t, at) <= Reaped(s, at) + {id}
  {
    forall x <- Reaped(t, at) ensures x in Reaped(s, at) + {id} {
      var k := ReapedOwner(t, x, at);
      if x != id { ReapedHas(s, k, at); }
    }
  }

  lemma NarrowsTransitive(s: State, t: State, u: State, id: SandboxId)
    requires Narrows(s, t, id) && Narrows(t, u, id)
    ensures Narrows(s, u, id)
  {
    LosesClock(t, u, Reaped(t, u.now) + {id});
    ReapedNarrowed(s, t, id, u.now);
    ReapedLater(s, t.now, u.now);
    hide Loses, Reaped;
    LosesTransitive(s, t, u, Reaped(s, t.now) + {id}, Reaped(t, u.now) + {id});
    LosesWeaken(s, u, Reaped(s, t.now) + {id} + (Reaped(t, u.now) + {id}), Reaped(s, u.now) + {id});
  }

  lemma NarrowsReflexive(s: State, id: SandboxId)
    ensures Narrows(s, s, id)
  {
  }

  lemma CleanupNarrows(s: State, t: State, at: Time, id: SandboxId)
    requires at <= t.now && Loses(s, t, Reaped(s, at)) && OnlyExpiredRemoved(s, t, at)
    ensures Narrows(s, t, id) && Loses(s, t, Reaped(s, t.now))
  {
    ReapedLater(s, at, t.now);
    hide Loses, Reaped;
    LosesWeaken(s, t, Reaped(s, at), Reaped(s, t.now));
    LosesWeaken(s, t, Reaped(s, at), Reaped(s, t.now) + {id});
  }

  lemma RefreshNarrows(s: State, t: State, id: SandboxId)
    requires OnlyRefreshed(s, t, id)
    ensures Narrows(s, t, id)
  {
    LosesWeaken(s, t, {}, Reaped(s, t.now) + {id});
  }

  lemma QuietNarrows(s: State, t: State, id: SandboxId)
    requires Inv(s) && Quiet(s, t)
    ensures Inv(t) && Narrows(s, t, id)
  {
    QuietKeepsInv(s, t);
    hide Inv;
    RefreshNarrows(s, t, id);
  }

  lemma PurgeNarrows(s: State, t: State, k: ProcessId, id: SandboxId, d: set<SandboxId>)
    requires Loses(s, t, d) && d <= {id}
    requires t.store.processes == s.store.processes
               || (&& t.store.processes == s.store.processes - {k}
                   && (k in s.store.processes ==> s.store.processes[k].sandboxId == id))
    ensures Narrows(s, t, id)
  {
    LosesWeaken(s, t, d, Reaped(s, t.now) + {id});
  }

  // ---- Launching ----

  ghost function Launched(s: State, p: ProcessInfo): State {
    s.(store := s.store.UpsertProcess(p), nextProcess := s.nextProcess + 1)
  }

  lemma LaunchStarts(s: State, p: ProcessInfo)
    requires p.id == s.nextProcess
    ensures Launches(s, Launched(s, p), p)
  {
  }

  lemma LaunchContinues(s: State, t: State, u: State, p: ProcessInfo)
    requires Inv(t) && Launches(s, t, p) && Quiet(t, u)
    ensures Inv(u) && Launches(s, u, p)
  {
    QuietKeepsInv(t, u);
    hide Inv;
    var none: set<SandboxId> := {};
    LosesAgain(s, t, u, none, none);
  }

  lemma LaunchReports(s: State, t: State, p: ProcessInfo, q: ProcessInfo)
    requires Inv(t) && Launches(s, t, p) && t.store.processes[p.id] == p && !p.status.Terminal()
    requires SameIdentity(p, q) && Shaped(q) && p.sandboxId in t.boxes
    requires q.status.Terminal() ==> exists e <- t.ran :: Explains(e, q)
    ensures var u := t.(store := t.store.UpsertProcess(q)); Inv(u) && Launches(s, u, p)
  {
    BoxIssued(t, p.sandboxId);
    hide Inv, Shaped;
    UpsertKeepsInv(t, q);
    hide SameIdentity;
    RewriteLaunches(s, t, p, q);
  }

  lemma RewriteLaunches(s: State, t: State, p: ProcessInfo, q: ProcessInfo)
    requires Launches(s, t, p) && q.id == p.id && RecordEvolves(p, q)
    ensures Launches(s, t.(store := t.store.UpsertProcess(q)), p)
  {
    var u := t.(store := t.store.UpsertProcess(q));
    SameLoses(s, t, u);
    hide Loses, RecordEvolves;
  }

  /** The relation does not look at the process table. */
  lemma SameLoses(s: State, t: State, u: State)
    requires Loses(s, t, {}) && u == t.(store := t.store.(processes := u.store.processes))
    ensures Loses(s, u, {})
  {
    forall n <- s.store.affinities ensures SameBinding(s, u, n, {}) {
      assert SameBinding(s, t, n, {});
    }
  }

  lemma LaunchEvolves(s: State, t: State, p: ProcessInfo)
    requires ProcessInv(s) && Launches(s, t, p)
    ensures Evolves(s, t)
  {
    LosesEvolves(s, t, {});
  }

  // ---- What is retained ----

  lemma AgesTransitive(p: ProcessInfo, q: ProcessInfo, r: ProcessInfo, since: Time, mid: Time)
    requires Ages(p, q, since) && Ages(q, r, mid) && since <= mid
    ensures Ages(p, r, since)
  {
  }

  lemma DueLater(p: ProcessInfo, q: ProcessInfo, from: Time, mid: Time, to: Time)
    requires Ages(p, q, from) && Due(q, mid, to) && from <= mid <= to
    requires q.status.Terminal() || q.expiresAt.None?
    ensures Due(p, from, to)
  {
  }

  lemma RetainsTransitive(s: State, m: State, t: State, d: set<SandboxId>, e: set<SandboxId>)
    requires Inv(s) && Inv(m) && Evolves(s, m) && Evolves(m, t) && Retains(s, m, d) && Retains(m, t, e)
    ensures Retains(s, t, d + e)
  {
    hide SandboxInv, NameInv, SnapshotInv;
    forall k <- s.store.processes
      ensures if k in t.store.processes then Ages(s.store.processes[k], t.store.processes[k], s.now)
              else Due(s.store.processes[k], s.now, t.now) || s.store.processes[k].sandboxId in d + e
    {
      assert k < s.nextProcess <= m.nextProcess;
      if k in m.store.processes {
        if k in t.store.processes {
          AgesTransitive(s.store.processes[k], m.store.processes[k], t.store.processes[k], s.now, m.now);
        } else if Due(m.store.processes[k], m.now, t.now) {
          DueLater(s.store.processes[k], m.store.processes[k], s.now, m.now, t.now);
        }
      }
    }
  }

  /** The common case, in which no sandbox was freed. */
  lemma RetainsAgain(s: State, m: State, t: State)
    requires Inv(s) && Inv(m) && Evolves(s, m) && Evolves(m, t) && Retains(s, m, {}) && Retains(m, t, {})
    ensures Retains(s, t, {})
  {
    hide Inv, Evolves, Retains;
    var none: set<SandboxId> := {};
    RetainsTransitive(s, m, t, none, none);
    assert none + none == none;
  }

  lemma PrunesRetains(s: State, t: State)
    requires Prunes(s, t)
    ensures Retains(s, t, {})
  {
  }

  lemma AddsRetains(s: State, t: State, name: Option<string>)
    requires Adds(s, t, name)
    ensures Retains(s, t, {})
  {
  }

  lemma RetainsQuiet(s: State, m: State, t: State)
    requires Retains(s, m, {}) && Quiet(m, t)
    ensures Retains(s, t, {})
  {
  }

  lemma RetainsSame(s: State, t: State)
    requires t.store.processes == s.store.processes && s.now <= t.now
    ensures Retains(s, t, {})
  {
  }

  lemma RefreshRetains(s: State, t: State, id: SandboxId)
    requires OnlyRefreshed(s, t, id)
    ensures Retains(s, t, {})
  {
  }

  lemma CleanupRetains(s: State, t: State, at: Time)
    requires OnlyExpiredRemoved(s, t, at) && s.now <= t.now && at <= t.now
    ensures Retains(s, t, {})
  {
  }

  lemma LaunchRetains(s: State, t: State, p: ProcessInfo)
    requires ProcessInv(s) && Launches(s, t, p)
    ensures Retains(s, t, {})
  {
  }

  lemma NarrowsRetains(s: State, t: State, id: SandboxId)
    requires Narrows(s, t, id)
    ensures Retains(s, t, {id})
  {
  }

  /** What is over since a later state is over since the earlier one. */
  lemma OverEarlier(s: State, m: State, t: State, id: SandboxId)
    requires Inv(s) && Inv(m) && Evolves(s, m) && Evolves(m, t) && Retains(s, m, {}) && Retains(m, t, {})
    requires AllOver(m, t, id)
    ensures AllOver(s, t, id)
  {
    RetainsAgain(s, m, t);
    hide Inv;
    forall k <- s.store.processes | s.store.processes[k].sandboxId == id ensures Over(s, t, k) {
      if k in m.store.processes { assert Over(m, t, k); } else { NotBack(s, m, t, k); }
    }
  }

  lemma NotBack(s: State, m: State, t: State, k: ProcessId)
    requires Inv(s) && Evolves(s, m) && Evolves(m, t) && k in s.store.processes && k !in m.store.processes
    ensures k !in t.store.processes
  {
    RecordFacts(s, k);
    hide Inv;
  }

  lemma OverdueHas(s: State, k: ProcessId, to: Time)
    requires k in s.store.processes && s.store.processes[k].destroyOnExpiry && Due(s.store.processes[k], s.now, to)
    ensures s.store.processes[k].sandboxId in Overdue(s, to)
  {
  }

  lemma OverdueOwner(s: State, to: Time, id: SandboxId) returns (k: ProcessId)
    requires id in Overdue(s, to)
    ensures k in s.store.processes && s.store.processes[k].destroyOnExpiry && s.store.processes[k].sandboxId == id
    ensures Due(s.store.processes[k], s.now, to)
  {
    k :| k in s.store.processes && s.store.processes[k].destroyOnExpiry
      && Due(s.store.processes[k], s.now, to) && s.store.processes[k].sandboxId == id;
  }

  /** The records of a later state are aged records of the earlier one. */
  lemma RecordWas(s: State, m: State, k: ProcessId)
    requires Inv(m) && Evolves(s, m) && Retains(s, m, {}) && m.nextProcess == s.nextProcess
    requires k in m.store.processes
    ensures k in s.store.processes && Ages(s.store.processes[k], m.store.processes[k], s.now)
    ensures m.store.processes[k].status.Terminal() || m.store.processes[k].expiresAt.None?
  {
    RecordFacts(m, k);
  }

  /** What can be due in a later state was due in the earlier one. */
  lemma OverdueWas(s: State, m: State, to: Time)
    requires Inv(m) && Evolves(s, m) && Retains(s, m, {}) && m.nextProcess == s.nextProcess && m.now <= to
    ensures Overdue(m, to) <= Overdue(s, to) && Reaped(m, to) <= Overdue(s, to)
  {
    EvolvesClock(s, m);
    forall id <- Overdue(m, to) ensures id in Overdue(s, to) {
      var k := OverdueOwner(m, to, id);
      RecordWas(s, m, k);
      DueLater(s.store.processes[k], m.store.processes[k], s.now, m.now, to);
      OverdueHas(s, k, to);
    }
    forall id <- Reaped(m, to) ensures id in Overdue(s, to) {
      var k := ReapedOwner(m, id, to);
      RecordWas(s, m, k);
      DueLater(s.store.processes[k], m.store.processes[k], s.now, m.now, to);
      OverdueHas(s, k, to);
    }
  }

  lemma OverdueGrows(s: State, from: Time, to: Time)
    requires from <= to
    ensures Overdue(s, from) <= Overdue(s, to) && Reaped(s, from) <= Overdue(s, to)
  {
    forall id <- Overdue(s, from) ensures id in Overdue(s, to) {
      var k := OverdueOwner(s, from, id);
      OverdueHas(s, k, to);
    }
    forall id <- Reaped(s, from) ensures id in Overdue(s, to) {
      var k := ReapedOwner(s, id, from);
      OverdueHas(s, k, to);
    }
  }

  lemma TidiesTransitive(s: State, m: State, t: State)
    requires Inv(s) && Inv(m) && Evolves(s, m) && Evolves(m, t) && m.nextProcess == s.nextProcess
    requires Tidies(s, m) && Tidies(m, t)
    ensures Tidies(s, t)
  {
    RetainsAgain(s, m, t);
    LosesClock(m, t, Overdue(m, t.now));
    OverdueGrows(s, m.now, t.now);
    OverdueWas(s, m, t.now);
    hide Inv, Evolves, Retains, Loses, Overdue, Reaped;
    var o := Overdue(s, t.now);
    LosesWeaken(s, m, Overdue(s, m.now), o);
    LosesAgain(s, m, t, o, Overdue(m, t.now));
  }

  lemma NothingTidied(s: State)
    ensures Tidies(s, s)
  {
    RetainsSame(s, s);
    hide Retains, Overdue;
    LosesWeaken(s, s, {}, Overdue(s, s.now));
  }

  /** The relation does not look beyond the clock and the process table. */
  lemma PrunesSame(s: State, m: State, t: State)
    requires Prunes(s, m) && t.store.processes == m.store.processes && m.now <= t.now
    ensures Prunes(s, t)
  {
  }

  lemma QuietPrunes(s: State, t: State)
    requires Inv(s) && Quiet(s, t)
    ensures Loses(s, t, Reaped(s, t.now)) && Prunes(s, t)
  {
    QuietKeepsInv(s, t);
    RetainsSame(s, t);
    hide Inv, Retains, Reaped;
    LosesWeaken(s, t, {}, Reaped(s, t.now));
  }

  lemma PrunesTidies(s: State, t: State)
    requires Loses(s, t, Reaped(s, t.now)) && Prunes(s, t)
    ensures Tidies(s, t)
  {
    OverdueGrows(s, t.now, t.now);
    hide Retains, Overdue, Reaped, Loses;
    LosesWeaken(s, t, Reaped(s, t.now), Overdue(s, t.now));
  }

  // ---- What stands, and what is over ----

  lemma StandsThen(s: State, m: State, t: State, id: SandboxId)
    requires Loses(m, t, {}) && Stands(s, m, id)
    ensures Stands(s, t, id)
  {
    forall n ensures m.store.Bound(n) == t.store.Bound(n) {
      if n in m.store.affinities { assert SameBinding(m, t, n, {}); }
    }
  }

  lemma CleanupStands(s: State, t: State, at: Time, id: SandboxId)
    requires Loses(s, t, Reaped(s, at)) && id in t.boxes
    requires forall x <- s.boxes :: x in t.boxes <==> x !in Reaped(s, at)
    ensures Stands(s, t, id)
  {
    hide Reaped;
    forall n ensures s.store.Bound(n) == Some(id) ==> t.store.Bound(n) == Some(id) {
      if n in s.store.affinities { assert SameBinding(s, t, n, Reaped(s, at)); }
    }
  }

  /** The sandbox was looked at after a successful cleanup, and no process is live in it. */
  lemma CheckedIdle(s: State, clean: State, at: Time, checked: State, id: SandboxId)
    requires Inv(s) && Loses(s, clean, Reaped(s, at)) && OnlyRefreshed(clean, checked, id) && Prunes(s, checked)
    requires forall x <- s.boxes :: x in clean.boxes <==> x !in Reaped(s, at)
    requires forall k <- checked.store.processes ::
               checked.store.processes[k].sandboxId == id ==> checked.store.processes[k].status.Terminal()
    ensures AllOver(s, checked, id)
    ensures id in checked.boxes ==> Stands(s, checked, id)
  {
    hide Inv, Reaped;
    if id in checked.boxes {
      RefreshedKeys(clean, checked, id);
      hide Loses;
      CleanupStands(s, clean, at, id);
      StandsThen(s, clean, checked, id);
    }
  }

  /** Launching a process there changes neither. */
  lemma IdleLaunched(s: State, checked: State, m: State, t: State, p: ProcessInfo)
    requires Inv(s) && Evolves(s, checked) && Quiet(checked, m) && Launches(m, t, p)
    requires AllOver(s, checked, p.sandboxId)
    ensures AllOver(s, t, p.sandboxId) && !Busy(s, t, p.sandboxId)
    ensures Stands(s, checked, p.sandboxId) ==> Stands(s, t, p.sandboxId)
  {
    EvolvesClock(s, checked);
    LosesClock(m, t, {});
    if Stands(s, checked, p.sandboxId) { StandsThen(s, m, t, p.sandboxId); }
    hide Stands, Loses, Evolves;
    forall k <- s.store.processes
      ensures k in t.store.processes <==> k in checked.store.processes
      ensures k in t.store.processes ==> t.store.processes[k] == checked.store.processes[k]
    {
      RecordFacts(s, k);
    }
    hide Inv;
    forall k <- s.store.processes | s.store.processes[k].sandboxId == p.sandboxId ensures Over(s, t, k) {
      assert Over(s, checked, k);
    }
    OverNotBusy(s, t, p.sandboxId);
  }

  lemma OverNotBusy(s: State, t: State, id: SandboxId)
    requires AllOver(s, t, id)
    ensures !Busy(s, t, id)
  {
    forall k | Live(s, k) && Live(t, k) ensures s.store.processes[k].sandboxId != id {
      assert s.store.processes[k].sandboxId == id ==> Over(s, t, k);
    }
  }

  /** A live process that was found was live from the beginning. */
  lemma BusyFound(s: State, clean: State, checked: State, at: Time, k: ProcessId, id: SandboxId,
                  last: Option<Executed>)
    requires OnlyExpiredRemoved(s, clean, at) && Live(clean, k) && Live(checked, k) && s.now <= clean.now
    requires clean.store.processes[k].sandboxId == id
    requires Probed(clean.store.processes[k], checked.store.processes[k], last, clean.now, checked.now)
    ensures Busy(s, checked, id) && SaidBusy(s, checked, id, last) && Occupied(s, id)
  {
    assert Live(s, k);
    ProbedWithin(s.store.processes[k], checked.store.processes[k], last, clean.now, s.now, checked.now);
    hide Probed;
  }

  lemma PreparesPlainly(s: State, t: State, id: SandboxId, overflow: Option<SandboxConfig>,
                        accepts: SandboxConfig -> bool, r: Result<Prepared>)
    requires if id in t.boxes then r.Ok? else r == Err(NotFound)
    ensures overflow.Some? ==> Prepares(s, t, id, overflow.value, accepts, r)
  {
  }

  lemma SaidBusyStill(s: State, m: State, t: State, id: SandboxId, last: Option<Executed>)
    requires t.store.processes == m.store.processes && m.now <= t.now
    ensures Busy(s, m, id) ==> Busy(s, t, id)
    ensures SaidBusy(s, m, id, last) ==> SaidBusy(s, t, id, last)
  {
    if SaidBusy(s, m, id, last) {
      var k :| Live(s, k) && Live(m, k) && s.store.processes[k].sandboxId == id
               && Probed(s.store.processes[k], m.store.processes[k], last, s.now, m.now);
      ProbedLater(s.store.processes[k], m.store.processes[k], last, s.now, m.now, t.now);
      assert Live(t, k);
    }
    hide Probed;
  }

  lemma LaunchesClock(s: State, t: State, p: ProcessInfo)
    requires Launches(s, t, p)
    ensures s.now <= t.now
  {
  }

  // ---- Composing what a public call does ----

  /** Everything a call did so far was an evolution that took away only what had expired. */
  ghost predicate Clean(s: State, t: State) {
    Inv(t) && Evolves(s, t) && Loses(s, t, Reaped(s, t.now)) && Prunes(s, t)
  }

  lemma CleanThen(s: State, m: State, t: State)
    requires Inv(s) && Clean(s, m) && Inv(t) && Evolves(m, t) && Loses(m, t, {}) && Retains(m, t, {})
    requires m.store.processes.Keys <= t.store.processes.Keys
    ensures Clean(s, t)
  {
    EvolvesTransitive(s, m, t);
    LosesClock(m, t, {});
    ReapedLater(s, m.now, t.now);
    hide Inv, Reaped, Evolves, Loses, Retains;
    RetainsAgain(s, m, t);
    LosesWeaken(s, m, Reaped(s, m.now), Reaped(s, t.now));
    LosesAgain(s, m, t, Reaped(s, t.now), {});
  }

  lemma CleanThenLaunches(s: State, m: State, t: State, p: ProcessInfo)
    requires Inv(s) && Clean(s, m) && Inv(t) && Launches(m, t, p)
    ensures Clean(s, t)
  {
    LaunchEvolves(m, t, p);
    LaunchRetains(m, t, p);
    hide Inv, Evolves, Loses, Retains;
    CleanThen(s, m, t);
  }

  lemma CleanThenRefreshed(s: State, m: State, t: State, id: SandboxId)
    requires Inv(s) && Clean(s, m) && Inv(t) && OnlyRefreshed(m, t, id)
    ensures Clean(s, t)
  {
    RefreshedEvolves(m, t, id);
    RefreshRetains(m, t, id);
    hide Inv, Evolves, Loses, Retains;
    CleanThen(s, m, t);
  }

  lemma CleanThenQuiet(s: State, m: State, t: State)
    requires Inv(s) && Clean(s, m) && Quiet(m, t)
    ensures Clean(s, t)
  {
    QuietKeepsInv(m, t);
    QuietEvolves(m, t);
    RetainsSame(m, t);
    hide Inv, Evolves, Loses, Retains;
    CleanThen(s, m, t);
  }

  lemma CleanStarts(s: State)
    requires Inv(s)
    ensures Clean(s, s)
  {
    LosesWeaken(s, s, {}, Reaped(s, s.now));
    RetainsSame(s, s);
  }

  lemma CleanAfterCleanup(s: State, t: State, at: Time)
    requires Inv(t) && at <= t.now && Loses(s, t, Reaped(s, at)) && OnlyExpiredRemoved(s, t, at)
    ensures Clean(s, t)
  {
    CleanupEvolves(s, t, Reaped(s, at), at);
    ReapedLater(s, at, t.now);
    LosesClock(s, t, Reaped(s, at));
    CleanupRetains(s, t, at);
    hide Loses, Reaped, Evolves, Inv, Retains;
    LosesWeaken(s, t, Reaped(s, at), Reaped(s, t.now));
  }

  lemma RefreshedEvolves(s: State, t: State, id: SandboxId)
    requires OnlyRefreshed(s, t, id)
    ensures Evolves(s, t)
  {
    LosesEvolves(s, t, {});
  }

  lemma CleanupEvolves(s: State, t: State, lost: set<SandboxId>, at: Time)
    requires Loses(s, t, lost) && OnlyExpiredRemoved(s, t, at)
    ensures Evolves(s, t)
  {
    LosesEvolves(s, t, lost);
  }

  lemma NothingEvolves(s: State)
    ensures Evolves(s, s)
  {
  }

  lemma BoxesIssued(s: State)
    requires Inv(s)
    ensures forall id <- s.boxes :: id < s.nextSandbox
  {
  }

  lemma CreatesKeepsSnapshots(s: State, t: State, config: SandboxConfig, r: Result<SandboxId>)
    requires Creates(s, t, config, r)
    ensures t.store.snapshots == s.store.snapshots && t.artifacts == s.artifacts
    ensures t.store.processes == s.store.processes && t.hydrated == s.hydrated
  {
  }

  lemma CleanMeans(s: State, t: State)
    requires Clean(s, t)
    ensures Inv(t) && Evolves(s, t) && Loses(s, t, Reaped(s, t.now)) && Prunes(s, t)
  {
  }

  lemma CleanAlways(s: State)
    ensures forall t | Clean(s, t) :: Inv(t) && Evolves(s, t) && Loses(s, t, Reaped(s, t.now)) && Prunes(s, t)
  {
  }

  /** What the launch script's exit code makes of a process that is starting. */
  function LaunchReport(p: ProcessInfo, exitCode: int, finishedAt: Time, expiry: Time): ProcessInfo {
    if exitCode == 0 then p.(status := Running)
    else p.(status := Failed, exitCode := Some(exitCode), finishedAt := Some(finishedAt), expiresAt := Some(expiry))
  }

  lemma ReportExplained(p: ProcessInfo, e: Executed, finishedAt: Time, expiry: Time)
    requires Shaped(p) && p.status.Starting? && p.startedAt <= finishedAt < expiry
    requires LaunchRan(p, Some(e), e.outcome.exitCode)
    ensures var q := LaunchReport(p, e.outcome.exitCode, finishedAt, expiry);
            && Shaped(q) && SameIdentity(p, q) && LaunchRan(q, Some(e), e.outcome.exitCode)
            && (q.status.Terminal() ==> Explains(e, q))
  {
    hide StdoutPath, StderrPath;
  }

  lemma RefreshedKeys(s: State, t: State, id: SandboxId)
    requires OnlyRefreshed(s, t, id)
    ensures t.store.processes.Keys == s.store.processes.Keys && t.hydrated == s.hydrated
    ensures t.boxes.Keys == s.boxes.Keys && s.now <= t.now && s.ran <= t.ran
    ensures forall k <- s.store.processes :: t.store.processes[k].sandboxId == s.store.processes[k].sandboxId
  {
  }

  /** The record is among the rows. */
  ghost predicate HasRow(rows: seq<ProcessInfo>, k: ProcessId) {
    exists i | 0 <= i < |rows| :: rows[i].id == k
  }

  lemma RowAdded(rows: seq<ProcessInfo>, row: ProcessInfo)
    ensures HasRow(rows + [row], row.id)
    ensures forall k :: HasRow(rows, k) ==> HasRow(rows + [row], k)
  {
    assert (rows + [row])[|rows|] == row;
    forall k | HasRow(rows, k) ensures HasRow(rows + [row], k) {
      var i :| 0 <= i < |rows| && rows[i].id == k;
      assert (rows + [row])[i].id == k;
    }
  }

  /** The first `i` records of the listing were refreshed: the rows are as stored, the rest of the
      records are as listed. */
  ghost predicate Refreshing(ps: seq<ProcessInfo>, i: nat, rows: seq<ProcessInfo>,
                             before: map<ProcessId, ProcessInfo>, after: map<ProcessId, ProcessInfo>)
    requires i <= |ps|
  {
    && ListsProcesses(ps, before) && after.Keys == before.Keys
    && (forall k <- before :: after[k].sandboxId == before[k].sandboxId)
    && (forall j | i <= j < |ps| :: ps[j].id in after && after[ps[j].id] == ps[j])
    && (forall j | 0 <= j < |rows| :: rows[j].id in after && after[rows[j].id] == rows[j]
          && forall k | i <= k < |ps| :: ps[k].id != rows[j].id)
  }

  lemma RefreshingStarts(ps: seq<ProcessInfo>, table: map<ProcessId, ProcessInfo>)
    requires ListsProcesses(ps, table)
    ensures Refreshing(ps, 0, [], table, table)
  {
  }

  lemma RefreshingMeans(ps: seq<ProcessInfo>, i: nat, rows: seq<ProcessInfo>,
                        before: map<ProcessId, ProcessInfo>, after: map<ProcessId, ProcessInfo>)
    requires i <= |ps| && Refreshing(ps, i, rows, before, after)
    ensures i < |ps| ==> ps[i].id in after && after[ps[i].id] == ps[i]
    ensures forall j | 0 <= j < |rows| :: rows[j].id in after && after[rows[j].id] == rows[j]
    ensures ListsProcesses(ps, before) && after.Keys == before.Keys
    ensures forall k <- before :: after[k].sandboxId == before[k].sandboxId
  {
  }

  lemma RefreshingStep(ps: seq<ProcessInfo>, i: nat, rows: seq<ProcessInfo>, row: Result<ProcessInfo>,
                       before: map<ProcessId, ProcessInfo>, s: State, t: State)
    requires i < |ps| && Refreshing(ps, i, rows, before, s.store.processes) && OnlyRefreshed(s, t, ps[i].sandboxId)
    requires forall k <- t.store.processes :: k != ps[i].id ==> t.store.processes[k] == s.store.processes[k]
    requires row.Ok? ==> row.value.id == ps[i].id && t.store.processes[ps[i].id] == row.value
    ensures Refreshing(ps, i + 1, if row.Ok? then rows + [row.value] else rows, before, t.store.processes)
  {
    RefreshedKeys(s, t, ps[i].sandboxId);
    hide OnlyRefreshed;
    RowsStay(ps, i, rows, before, s.store.processes, t.store.processes);
    if row.Ok? { RowJoins(ps, i, rows, row.value, before, t.store.processes); }
  }

  lemma RowsStay(ps: seq<ProcessInfo>, i: nat, rows: seq<ProcessInfo>, before: map<ProcessId, ProcessInfo>,
                 table: map<ProcessId, ProcessInfo>, after: map<ProcessId, ProcessInfo>)
    requires i < |ps| && Refreshing(ps, i, rows, before, table) && after.Keys == table.Keys
    requires forall k <- table :: after[k].sandboxId == table[k].sandboxId
    requires forall k <- after :: k != ps[i].id ==> after[k] == table[k]
    ensures Refreshing(ps, i + 1, rows, before, after)
  {
    OthersListed(ps, i, before);
    hide ListsProcesses;
  }

  lemma RowJoins(ps: seq<ProcessInfo>, i: nat, rows: seq<ProcessInfo>, row: ProcessInfo,
                 before: map<ProcessId, ProcessInfo>, after: map<ProcessId, ProcessInfo>)
    requires i < |ps| && Refreshing(ps, i + 1, rows, before, after)
    requires row.id == ps[i].id && row.id in after && after[row.id] == row
    ensures Refreshing(ps, i + 1, rows + [row], before, after)
  {
    OthersListed(ps, i, before);
    hide ListsProcesses;
  }

  /** Every row is the answer about a record of the table. */
  ghost predicate AllAnswer(rows: seq<ProcessInfo>, table: map<ProcessId, ProcessInfo>, ran: set<Executed>,
                            from: Time, to: Time)
  {
    forall i | 0 <= i < |rows| ::
      rows[i].id in table && Answers(table[rows[i].id], rows[i], ran, from, to)
  }

  lemma NoAnswers(table: map<ProcessId, ProcessInfo>, ran: set<Executed>, from: Time, to: Time)
    ensures AllAnswer([], table, ran, from, to)
  {
  }

  lemma ToldHolds(before: set<Executed>, ran: set<Executed>, more: set<Executed>, p: ProcessInfo, at: Time,
                  stopped: Option<Executed>, since: Time)
    requires Executed(p.sandboxId, Write(CancelPath(p.id), ""), Outcome(0, ""), at) in before && before <= ran <= more
    requires stopped.Some? && stopped.value in ran && since <= at <= stopped.value.at
    requires stopped.value.sandbox == p.sandboxId && stopped.value.script == Stop(p.id)
    ensures ToldToStop(more, p, since)
  {
    hide CancelPath;
    var e := Executed(p.sandboxId, Write(CancelPath(p.id), ""), Outcome(0, ""), at);
    assert e in more && stopped.value in more;
  }

  /** One more file was written, or one more set-up command was run. */
  lemma FittedStep(ran: set<Executed>, more: set<Executed>, id: SandboxId, writes: seq<(string, string)>,
                   commands: seq<string>, script: Script, since: Time)
    requires FittedOut(ran, id, writes, commands, since) && ran <= more && Did(more, id, script, since)
    ensures script.Write? ==> FittedOut(more, id, writes + [(script.path, script.text)], commands, since)
    ensures script.SetUp? ==> FittedOut(more, id, writes, commands + [script.step], since)
  {
    FittedMore(ran, more, id, writes, commands, since, since);
    hide Did;
  }

  lemma DidNow(ran: set<Executed>, id: SandboxId, script: Script, outcome: Outcome, at: Time)
    requires Executed(id, script, outcome, at) in ran && outcome.exitCode == 0
    ensures Did(ran, id, script, at)
  {
  }

  lemma NothingFitted(ran: set<Executed>, id: SandboxId, since: Time)
    ensures FittedOut(ran, id, [], [], since)
  {
  }

  lemma FittedMore(ran: set<Executed>, more: set<Executed>, id: SandboxId, writes: seq<(string, string)>,
                   commands: seq<string>, since: Time, earlier: Time)
    requires FittedOut(ran, id, writes, commands, since) && ran <= more && earlier <= since
    ensures FittedOut(more, id, writes, commands, earlier)
  {
  }

  lemma AllAnswerMore(rows: seq<ProcessInfo>, row: Result<ProcessInfo>, p: ProcessInfo,
                      table: map<ProcessId, ProcessInfo>, last: Option<Executed>, ran: set<Executed>,
                      more: set<Executed>, from: Time, mid: Time, to: Time)
    requires AllAnswer(rows, table, ran, from, mid) && ran <= more && from <= mid <= to
    requires p.id in table && table[p.id] == p
    requires row.Ok? && !p.status.Terminal() ==> last.Some? && last.value in more
    requires row.Ok? ==> row.value.id == p.id
    requires row.Ok? ==> if p.status.Terminal() then row.value == p else Probed(p, row.value, last, mid, to)
    ensures AllAnswer(if row.Ok? then rows + [row.value] else rows, table, more, from, to)
  {
    forall i | 0 <= i < |rows| ensures Answers(table[rows[i].id], rows[i], more, from, to) {
      AnswersLater(table[rows[i].id], rows[i], ran, more, from, mid, to);
    }
    if row.Ok? && !p.status.Terminal() {
      ProbedWithin(p, row.value, last, mid, from, to);
      assert last.value in more;
    }
    hide Probed;
  }

  lemma AnswersLater(p: ProcessInfo, q: ProcessInfo, ran: set<Executed>, more: set<Executed>,
                     from: Time, mid: Time, to: Time)
    requires Answers(p, q, ran, from, mid) && ran <= more && mid <= to
    ensures Answers(p, q, more, from, to)
  {
    if !p.status.Terminal() {
      var e :| e in ran && Probed(p, q, Some(e), from, mid);
      ProbedLater(p, q, Some(e), from, mid, to);
      assert e in more;
    }
    hide Probed;
  }

  lemma ProbedLater(p: ProcessInfo, q: ProcessInfo, last: Option<Executed>, from: Time, mid: Time, to: Time)
    requires Probed(p, q, last, from, mid) && mid <= to
    ensures Probed(p, q, last, from, to)
  {
    hide ParseProbe, Trim;
  }

  lemma OthersListed(ps: seq<ProcessInfo>, i: nat, table: map<ProcessId, ProcessInfo>)
    requires i < |ps| && ListsProcesses(ps, table)
    ensures forall j | i < j < |ps| :: ps[j].id != ps[i].id
  {
  }

  /** The first `i` records of the listing that belong to sandbox `id` are stored as terminal, the rest
      of the records are as listed. */
  ghost predicate Ending(ps: seq<ProcessInfo>, i: nat, id: SandboxId,
                         before: map<ProcessId, ProcessInfo>, after: map<ProcessId, ProcessInfo>)
    requires i <= |ps|
  {
    && ListsProcesses(ps, before) && after.Keys == before.Keys
    && (forall k <- before :: after[k].sandboxId == before[k].sandboxId)
    && (forall j | i <= j < |ps| :: after[ps[j].id] == ps[j])
    && (forall j | 0 <= j < i :: ps[j].sandboxId == id ==> after[ps[j].id].status.Terminal())
  }

  lemma EndingStarts(ps: seq<ProcessInfo>, id: SandboxId, table: map<ProcessId, ProcessInfo>)
    requires ListsProcesses(ps, table)
    ensures Ending(ps, 0, id, table, table)
  {
  }

  lemma EndingMeans(ps: seq<ProcessInfo>, i: nat, id: SandboxId,
                    before: map<ProcessId, ProcessInfo>, after: map<ProcessId, ProcessInfo>)
    requires i < |ps| && Ending(ps, i, id, before, after)
    ensures ps[i].id in after && after[ps[i].id] == ps[i] && ps[i].id in before && before[ps[i].id] == ps[i]
    ensures ps[i].sandboxId != id ==> Ending(ps, i + 1, id, before, after)
  {
  }

  lemma EndingStep(ps: seq<ProcessInfo>, i: nat, id: SandboxId,
                   before: map<ProcessId, ProcessInfo>, s: State, t: State)
    requires i < |ps| && Ending(ps, i, id, before, s.store.processes) && OnlyRefreshed(s, t, id)
    requires forall k <- t.store.processes :: k != ps[i].id ==> t.store.processes[k] == s.store.processes[k]
    requires ps[i].id in t.store.processes && t.store.processes[ps[i].id].status.Terminal()
    ensures Ending(ps, i + 1, id, before, t.store.processes)
  {
    RefreshedKeys(s, t, id);
    hide OnlyRefreshed;
    OthersListed(ps, i, before);
    hide ListsProcesses;
  }

  lemma AllEnded(ps: seq<ProcessInfo>, id: SandboxId,
                 before: map<ProcessId, ProcessInfo>, after: map<ProcessId, ProcessInfo>)
    requires Ending(ps, |ps|, id, before, after)
    ensures forall k <- after :: after[k].sandboxId == id ==> after[k].status.Terminal()
  {
    forall k <- after | after[k].sandboxId == id ensures after[k].status.Terminal() {
      var j :| 0 <= j < |ps| && ps[j].id == k;
    }
  }

  /** What is known of the rows once `i` records of the listing were refreshed. */
  ghost predicate Rowed(ps: seq<ProcessInfo>, i: nat, rows: seq<ProcessInfo>, faults: bool, boxes: set<SandboxId>)
    requires i <= |ps|
  {
    faults || forall j | 0 <= j < i :: ps[j].sandboxId in boxes ==> HasRow(rows, ps[j].id)
  }

  lemma NoRows(ps: seq<ProcessInfo>, rows: seq<ProcessInfo>, faults: bool, boxes: set<SandboxId>)
    ensures Rowed(ps, 0, rows, faults, boxes)
  {
  }

  lemma RowedStep(ps: seq<ProcessInfo>, i: nat, rows: seq<ProcessInfo>, row: Result<ProcessInfo>,
                  faults: bool, boxes: set<SandboxId>)
    requires i < |ps| && Rowed(ps, i, rows, faults, boxes)
    requires if row.Ok? then row.value.id == ps[i].id else faults || ps[i].sandboxId !in boxes
    ensures Rowed(ps, i + 1, if row.Ok? then rows + [row.value] else rows, faults, boxes)
  {
    hide HasRow;
    if row.Ok? { RowAdded(rows, row.value); }
  }

  lemma AllRowed(ps: seq<ProcessInfo>, rows: seq<ProcessInfo>, faults: bool, boxes: set<SandboxId>,
                 before: map<ProcessId, ProcessInfo>, after: map<ProcessId, ProcessInfo>)
    requires Rowed(ps, |ps|, rows, faults, boxes) && ListsProcesses(ps, before)
    requires after.Keys == before.Keys && forall k <- before :: after[k].sandboxId == before[k].sandboxId
    ensures !faults ==> forall k <- after :: after[k].sandboxId in boxes ==> HasRow(rows, k)
  {
    forall k <- after ensures !faults && after[k].sandboxId in boxes ==> HasRow(rows, k) {
      var j :| 0 <= j < |ps| && ps[j].id == k;
    }
  }

  lemma EvolvesClock(s: State, t: State)
    requires Evolves(s, t)
    ensures s.now <= t.now && s.nextSandbox <= t.nextSandbox && s.nextProcess <= t.nextProcess && s.ran <= t.ran
  {
  }

  // ---- Calls about one process ----

  lemma RunsInStill(s: State, t: State, id: ProcessId, home: SandboxId)
    requires Narrows(s, t, home) && RunsIn(s, id, home)
    ensures RunsIn(t, id, home)
  {
  }

  // ---- Sandboxes that belong to no record ----

  lemma KeepsSame(s: State, t: State)
    requires t.boxes.Keys == s.boxes.Keys && t.store.processes == s.store.processes
    ensures KeepsUnowned(s, t)
  {
  }

  /** Hydration does not matter for it. */
  lemma KeepsSince(s: State, h: State)
    requires Hydrates(s, h)
    ensures forall t | KeepsUnowned(h, t) :: KeepsUnowned(s, t)
  {
    KeepsSame(s, h);
    forall t | KeepsUnowned(h, t) ensures KeepsUnowned(s, t) { KeepsTransitive(s, h, t); }
  }

  lemma KeepsTransitive(s: State, t: State, u: State)
    requires KeepsUnowned(s, t) && KeepsUnowned(t, u)
    ensures KeepsUnowned(s, u)
  {
    hide Unowned;
  }

  lemma KeepsApplies(s: State, t: State, id: SandboxId)
    requires KeepsUnowned(s, t)
    ensures Unowned(s, id) ==> Unowned(t, id)
  {
  }

  lemma CleanupKeepsUnowned(s: State, t: State, at: Time)
    requires Loses(s, t, Reaped(s, at)) && OnlyExpiredRemoved(s, t, at)
    ensures KeepsUnowned(s, t)
  {
    forall id | Unowned(s, id) ensures Unowned(t, id) {
      assert id !in Reaped(s, at);
    }
  }

  lemma RefreshKeepsUnowned(s: State, t: State, id: SandboxId)
    requires OnlyRefreshed(s, t, id)
    ensures KeepsUnowned(s, t)
  {
    forall x | Unowned(s, x) ensures Unowned(t, x) {
      forall k <- t.store.processes
        ensures k in s.store.processes && SameIdentity(s.store.processes[k], t.store.processes[k])
      {
      }
    }
  }

  /** What a call about process `id` may have done so far. */
  ghost predicate Attends(s: State, t: State, id: ProcessId) {
    && Inv(t) && Evolves(s, t) && KeepsUnowned(s, t) && Tidies(s, t) && t.nextProcess == s.nextProcess
    && forall home | RunsIn(s, id, home) :: Narrows(s, t, home)
  }

  lemma AttendsAlways(s: State, id: ProcessId)
    ensures forall t | Attends(s, t, id) ::
              && Inv(t) && Evolves(s, t) && KeepsUnowned(s, t) && Tidies(s, t)
              && forall home | RunsIn(s, id, home) :: Narrows(s, t, home)
  {
  }

  lemma AttendsStarts(s: State, id: ProcessId)
    requires Inv(s)
    ensures Attends(s, s, id)
  {
    hide Inv, Evolves, KeepsUnowned, Tidies, Narrows, RunsIn;
    NothingEvolves(s);
    NothingTidied(s);
    KeepsSame(s, s);
    forall home | RunsIn(s, id, home) ensures Narrows(s, s, home) { NarrowsReflexive(s, home); }
  }

  lemma AttendsPoll(s: State, m: State, t: State, id: ProcessId)
    requires Inv(s) && Attends(s, m, id) && Inv(t) && Evolves(m, t) && KeepsUnowned(m, t)
    requires t.nextProcess == m.nextProcess && Loses(m, t, Reaped(m, t.now)) && Prunes(m, t)
    requires forall home | RunsIn(m, id, home) :: Narrows(m, t, home)
    ensures Attends(s, t, id)
  {
    hide Inv, Evolves, Narrows, RunsIn, KeepsUnowned, Tidies, Loses, Reaped, Prunes;
    EvolvesTransitive(s, m, t);
    KeepsTransitive(s, m, t);
    PrunesTidies(m, t);
    TidiesTransitive(s, m, t);
    forall home | RunsIn(s, id, home) ensures Narrows(s, t, home) {
      RunsInStill(s, m, id, home);
      NarrowsTransitive(s, m, t, home);
    }
  }

  lemma AttendsQuiet(s: State, m: State, t: State, id: ProcessId)
    requires Inv(s) && Attends(s, m, id) && Quiet(m, t)
    ensures Attends(s, t, id)
  {
    hide Inv, Evolves, Narrows, RunsIn, KeepsUnowned, Tidies, Loses, Reaped, Prunes;
    KeepsSame(m, t);
    QuietKeepsInv(m, t);
    QuietEvolves(m, t);
    QuietPrunes(m, t);
    forall home | RunsIn(m, id, home) ensures Narrows(m, t, home) {
      QuietNarrows(m, t, home);
    }
    AttendsPoll(s, m, t, id);
  }

  lemma AttendsClock(s: State, t: State, id: ProcessId)
    requires Attends(s, t, id)
    ensures s.now <= t.now
  {
  }

  /** An answer that comes from the last of several polls. */
  lemma PolledSince(s: State, m: State, k: ProcessId, q: ProcessInfo, last: Option<Executed>, to: Time)
    requires Attends(s, m, k) && k in m.store.processes && (m == s || Live(m, k))
    requires if m.store.processes[k].status.Terminal() then q == m.store.processes[k]
             else Probed(m.store.processes[k], q, last, m.now, to)
    ensures k in s.store.processes && Polled(s.store.processes[k], q, last, s.now, to)
  {
    RecordWas(s, m, k);
    EvolvesClock(s, m);
    ProbedWithin(m.store.processes[k], q, last, m.now, s.now, to);
    hide Inv, Evolves, Attends, Probed;
  }

  // ---- Destroying a sandbox ----

  /** Of the records that ran in sandbox `id` when the listing was made, the first `i` are gone;
      a live one among the rest is still as it was listed. */
  ghost predicate Clearing(ps: seq<ProcessInfo>, i: nat, s: State, t: State, id: SandboxId)
    requires i <= |ps|
  {
    && ListsProcesses(ps, s.store.processes) && Narrows(s, t, id)
    && (forall j | 0 <= j < i :: ps[j].sandboxId == id ==>
          ps[j].id !in t.store.processes && (ps[j].destroyOnExpiry ==> id !in t.boxes))
    && (forall j | i <= j < |ps| :: ps[j].sandboxId == id && !ps[j].status.Terminal() ==>
          ps[j].id in t.store.processes && t.store.processes[ps[j].id] == ps[j])
  }

  lemma ClearingStarts(ps: seq<ProcessInfo>, s: State, id: SandboxId)
    requires ListsProcesses(ps, s.store.processes)
    ensures Clearing(ps, 0, s, s, id)
  {
    NarrowsReflexive(s, id);
  }

  lemma ClearingSkips(ps: seq<ProcessInfo>, i: nat, s: State, t: State, id: SandboxId)
    requires i < |ps| && ps[i].sandboxId != id && Clearing(ps, i, s, t, id)
    ensures Clearing(ps, i + 1, s, t, id)
  {
  }

  lemma RefreshedHome(s: State, t: State, u: State, ps: seq<ProcessInfo>, i: nat, id: SandboxId)
    requires i < |ps| && ps[i].sandboxId == id && Clearing(ps, i, s, t, id) && OnlyRefreshed(t, u, id)
    ensures RunsIn(u, ps[i].id, id)
  {
  }

  lemma ClearStep(ps: seq<ProcessInfo>, i: nat, s: State, t: State, u: State, id: SandboxId)
    requires Inv(t) && i < |ps| && ps[i].sandboxId == id && Clearing(ps, i, s, t, id)
    requires Narrows(s, u, id) && Narrows(t, u, id) && ps[i].id !in u.store.processes
    requires ps[i].status.Terminal() ==> u.store.processes == t.store.processes - {ps[i].id}
    requires ps[i].destroyOnExpiry ==> id !in u.boxes
    ensures Clearing(ps, i + 1, s, u, id)
  {
    hide Inv, Narrows;
    LastLive(ps, i, s, t, id);
    NarrowsRemoves(t, u, id);
  }

  lemma NarrowsRemoves(s: State, t: State, id: SandboxId)
    requires Narrows(s, t, id)
    ensures forall x <- t.boxes :: x in s.boxes
    ensures forall k <- t.store.processes :: k in s.store.processes
  {
  }

  lemma SameUnowned(s: State, t: State, id: SandboxId)
    requires t.boxes == s.boxes && t.store == s.store
    ensures Unowned(s, id) <==> Unowned(t, id)
  {
  }

  lemma UnownedExists(s: State, id: SandboxId)
    ensures Unowned(s, id) ==> id in s.boxes
  {
  }

  lemma ListedUnowned(ps: seq<ProcessInfo>, i: nat, s: State, t: State, id: SandboxId)
    requires i < |ps| && Clearing(ps, i, s, t, id)
    ensures Unowned(s, id) && ps[i].sandboxId == id ==> !ps[i].destroyOnExpiry
  {
    hide Narrows;
  }

  lemma PurgedUnowned(s: State, t: State, k: ProcessId, id: SandboxId, lost: set<SandboxId>)
    requires Loses(s, t, lost)
    requires t.store.processes == s.store.processes || t.store.processes == s.store.processes - {k}
    ensures id !in lost && Unowned(s, id) ==> Unowned(t, id)
  {
  }

  /** If the sandbox outlived the removal of all its records, none of them owned it. */
  lemma ClearedUnowned(ps: seq<ProcessInfo>, s: State, t: State, id: SandboxId)
    requires Clearing(ps, |ps|, s, t, id)
    ensures id in t.boxes ==> Unowned(s, id)
    ensures Unowned(t, id) ==> id in t.boxes
  {
    assert id in t.boxes ==> id in s.boxes by { hide Clearing; NarrowsRemoves(s, t, id); }
    hide Narrows;
    if id in t.boxes {
      forall k <- s.store.processes
        ensures s.store.processes[k].sandboxId == id ==> !s.store.processes[k].destroyOnExpiry
      {
        var j :| 0 <= j < |ps| && ps[j].id == k;
      }
    }
  }

  /** The invariant leaves no second live record in the sandbox. */
  lemma LastLive(ps: seq<ProcessInfo>, i: nat, s: State, t: State, id: SandboxId)
    requires Inv(t) && i < |ps| && ps[i].sandboxId == id && Clearing(ps, i, s, t, id)
    ensures !ps[i].status.Terminal() ==> forall j | i < j < |ps| :: ps[j].sandboxId == id ==> ps[j].status.Terminal()
  {
    hide Narrows;
    forall j | i < j < |ps|
      ensures Live(t, ps[i].id) && Live(t, ps[j].id)
                && t.store.processes[ps[i].id].sandboxId == t.store.processes[ps[j].id].sandboxId
              ==> ps[i].id == ps[j].id
    {
    }
  }

  lemma ClearingEnds(ps: seq<ProcessInfo>, s: State, t: State, id: SandboxId)
    requires Clearing(ps, |ps|, s, t, id)
    ensures Narrows(s, t, id)
    ensures forall k <- t.store.processes :: t.store.processes[k].sandboxId != id
    ensures id in t.boxes ==> forall k <- s.store.processes ::
              s.store.processes[k].sandboxId == id ==> !s.store.processes[k].destroyOnExpiry
  {
    forall k <- s.store.processes ensures exists j | 0 <= j < |ps| :: ps[j].id == k {
    }
  }

  lemma LosesNarrows(s: State, m: State, t: State, id: SandboxId)
    requires Narrows(s, m, id) && Loses(m, t, {id}) && t.store.processes == m.store.processes
    ensures Narrows(s, t, id)
  {
    PurgeNarrows(m, t, 0, id, {id});
    hide Narrows;
    NarrowsTransitive(s, m, t, id);
  }

  lemma NarrowsKeepsNames(s: State, t: State, id: SandboxId)
    requires Narrows(s, t, id)
    ensures t.store.snapshots == s.store.snapshots && t.artifacts == s.artifacts && t.hydrated == s.hydrated
    ensures forall n <- s.store.affinities :: t.store.Pointer(n) == s.store.Pointer(n)
  {
    forall n <- s.store.affinities ensures t.store.Pointer(n) == s.store.Pointer(n) {
      assert SameBinding(s, t, n, Reaped(s, t.now) + {id});
    }
  }

  lemma LosesBox(s: State, t: State, id: SandboxId)
    requires Loses(s, t, {id})
    ensures id !in s.boxes ==> id !in t.boxes
  {
  }

  lemma GoneBox(s: State, id: SandboxId)
    ensures Gone(s, id) ==> id !in s.boxes
  {
  }

  // ---- Snapshots and names ----

  /** These groups do not look at snapshots, artifacts, pointers or records. */
  lemma SandboxNamesKept(s: State, t: State)
    requires SandboxInv(s) && NameInv(s)
    requires t.memory == s.memory && t.boxes == s.boxes && t.hydrated == s.hydrated && t.nextSandbox == s.nextSandbox
    requires t.store.active == s.store.active
    requires forall n <- t.store.affinities ::
               && t.store.affinities[n].name == n && t.store.Bound(n) == s.store.Bound(n)
               && (n !in s.store.affinities ==> t.store.Bound(n).None?)
    ensures SandboxInv(t) && NameInv(t)
  {
    forall m <- t.store.affinities, n <- t.store.affinities
      ensures t.store.Bound(m).Some? && t.store.Bound(m) == t.store.Bound(n) ==> m == n
    {
      if t.store.Bound(m).Some? && t.store.Bound(m) == t.store.Bound(n) {
        assert m in s.store.affinities && n in s.store.affinities;
      }
    }
  }

  /** A snapshot is taken in three stages: its metadata, its artifact, the name's pointer. */
  ghost function Snapped(s: State, snapshot: SnapshotMetadata, artifacts: map<SnapshotId, Files>): State {
    s.(store := s.store.AddSnapshot(snapshot), nextSnapshot := s.nextSnapshot + 1, artifacts := artifacts)
  }

  ghost function Pointed(s: State, name: string, id: SnapshotId, at: Time): State {
    s.(store := s.store.SetAffinitySnapshot(name, id, at), now := at)
  }

  lemma DatedStage(s: State, t: State)
    requires Inv(s) && t == s.(now := t.now) && s.now <= t.now
    ensures Inv(t) && Evolves(s, t)
  {
    QuietEvolves(s, t);
    hide Inv;
    QuietKeepsInv(s, t);
  }

  lemma SnapshotStage(s: State, t: State, snapshot: SnapshotMetadata, artifacts: map<SnapshotId, Files>)
    requires Inv(s) && t == s.(now := t.now) && s.now <= t.now && snapshot.id == s.nextSnapshot
    requires artifacts.Keys <= s.artifacts.Keys + {snapshot.id}
    requires artifacts - {snapshot.id} == s.artifacts - {snapshot.id}
    ensures Inv(Snapped(t, snapshot, artifacts)) && Evolves(s, Snapped(t, snapshot, artifacts))
  {
    hide ProcessInv;
    var u := Snapped(t, snapshot, artifacts);
    ProcessesKept(s, u);
    SandboxNamesKept(s, u);
    hide SandboxInv, NameInv;
    forall k <- s.artifacts ensures k in artifacts && artifacts[k] == s.artifacts[k] {
      assert k in s.artifacts - {snapshot.id};
      assert k in artifacts - {snapshot.id};
    }
    assert SnapshotInv(u);
  }

  lemma PointerStage(s: State, m: State, name: string, id: SnapshotId, at: Time)
    requires Inv(s) && Inv(m) && Evolves(s, m) && m.now <= at
    requires id in m.store.snapshots && id in m.artifacts && m.store.snapshots[id].config.affinityName == Some(name)
    ensures Inv(Pointed(m, name, id, at)) && Evolves(s, Pointed(m, name, id, at))
  {
    hide Inv, Evolves;
    PointerMoves(m, name, id, at);
    EvolvesTransitive(s, m, Pointed(m, name, id, at));
  }

  lemma PointerMoves(m: State, name: string, id: SnapshotId, at: Time)
    requires Inv(m) && m.now <= at
    requires id in m.store.snapshots && id in m.artifacts && m.store.snapshots[id].config.affinityName == Some(name)
    ensures Inv(Pointed(m, name, id, at)) && Evolves(m, Pointed(m, name, id, at))
  {
    var u := Pointed(m, name, id, at);
    hide ProcessInv;
    ProcessesKept(m, u);
    SandboxNamesKept(m, u);
    hide SandboxInv, NameInv;
    forall n <- u.store.affinities
      ensures u.store.Pointer(n) == if n == name then Some(id) else m.store.Pointer(n)
    {
    }
  }

  lemma ClearKeepsInv(s: State, id: SandboxId, at: Time)
    requires Inv(s) && s.now <= at
    ensures var t := s.(store := s.store.ClearBinding(id, at), now := at);
            Inv(t) && Evolves(s, t) && forall n :: t.store.Pointer(n) == s.store.Pointer(n)
  {
    var t := s.(store := s.store.ClearBinding(id, at), now := at);
    assert Loses(s, t, {id}) by {
      hide Inv;
      forall n <- s.store.affinities ensures SameBinding(s, t, n, {id}) {
      }
    }
    MemoryStillStored(s);
    hide Inv, Loses;
    LosesKeepsInv(s, t, {id});
    LosesEvolves(s, t, {id});
  }

  /** Clearing the binding of a name's session touches nothing but the name: no other has it. */
  lemma ClearedAdds(s: State, t: State, name: string)
    requires Inv(s) && s.now <= t.now && name in s.store.affinities
    requires t == s || (s.store.Bound(name).Some?
                        && t == s.(store := s.store.ClearBinding(s.store.Bound(name).value, t.now), now := t.now))
    ensures Adds(s, t, Some(name))
  {
    hide ProcessInv, SandboxInv, SnapshotInv;
    forall n ensures t.store.Bound(n) == s.store.Bound(n) || n == name {
      if n in s.store.affinities && t != s && s.store.Bound(n) == s.store.Bound(name) {
        assert n == name;
      }
    }
  }

  lemma PointerTarget(s: State, name: string)
    requires Inv(s) && name in s.store.affinities && s.store.Pointer(name).Some?
    ensures var k := s.store.Pointer(name).value;
            k in s.store.snapshots && k in s.artifacts && s.store.snapshots[k].config.affinityName == Some(name)
  {
  }

  lemma CreatesMeans(s: State, t: State, config: SandboxConfig, id: SandboxId)
    requires Creates(s, t, config, Ok(id))
    ensures s.nextSandbox <= id && id in t.boxes && t.boxes[id].config == config
    ensures id in t.memory && t.memory[id] == config
    ensures config.affinityName.Some? ==> t.store.Bound(config.affinityName.value) == Some(id)
  {
  }

  // ---- Overflow ----

  /** When a live record was found, looking for it ended none: there is only one. */
  lemma RefreshEndsNone(s: State, t: State, id: SandboxId, k: ProcessId)
    requires Inv(s) && OnlyRefreshed(s, t, id) && Live(t, k) && t.store.processes[k].sandboxId == id
    ensures NoneEnded(s, t)
  {
    LiveAlone(s, k);
    hide Inv;
  }

  lemma LiveAlone(s: State, k: ProcessId)
    requires Inv(s)
    ensures Live(s, k) ==>
              forall j :: Live(s, j) && s.store.processes[j].sandboxId == s.store.processes[k].sandboxId ==> j == k
  {
  }

  lemma OverflowHolds(s: State, clean: State, checked: State, t: State, busy: SandboxId, k: ProcessId,
                      config: SandboxConfig, id: SandboxId)
    requires Inv(s) && Clean(s, clean) && Clean(s, checked)
    requires forall j <- clean.store.processes ::
               j in s.store.processes && clean.store.processes[j] == s.store.processes[j]
    requires OnlyRefreshed(clean, checked, busy) && Live(checked, k) && checked.store.processes[k].sandboxId == busy
    requires Creates(checked, t, config.(affinityName := None), Ok(id))
    ensures Overflows(s, t, busy, config, id, None)
  {
    hide Inv, Clean, Creates, Drifts, RecordEvolves, Loses, Evolves, Prunes, Reaped;
    var name: Option<string> := None;
    var plain := config.(affinityName := name);
    LiveThroughout(s, clean, checked, k);
    CreatesDrifts(s, checked, t, plain, Ok(id));
    CreatesKeepsSnapshots(checked, t, plain, Ok(id));
    CreatesMeans(checked, t, plain, id);
    CleanClock(s, checked);
    CreatesClock(checked, t, plain, id);
    CleanMeans(s, clean);
    RefreshEndsNone(clean, checked, busy, k);
    hide OnlyRefreshed;
    assert Live(t, k);
  }

  lemma CleanClock(s: State, t: State)
    requires Clean(s, t)
    ensures s.nextSandbox <= t.nextSandbox
  {
  }

  lemma CreatesClock(s: State, t: State, config: SandboxConfig, id: SandboxId)
    requires Creates(s, t, config, Ok(id))
    ensures id < t.nextSandbox
  {
  }

  lemma LiveThroughout(s: State, clean: State, checked: State, k: ProcessId)
    requires forall j <- clean.store.processes ::
               j in s.store.processes && clean.store.processes[j] == s.store.processes[j]
    requires Live(checked, k) && k in clean.store.processes
    requires RecordEvolves(clean.store.processes[k], checked.store.processes[k])
    ensures Live(s, k) && s.store.processes[k].sandboxId == checked.store.processes[k].sandboxId
  {
  }

  lemma AddsDrifts(s: State, m: State, t: State, name: Option<string>)
    requires Clean(s, m) && Adds(m, t, name)
    ensures Drifts(s, t, Reaped(s, t.now), name)
  {
    ReapedLater(s, m.now, t.now);
    hide Inv, Evolves, Reaped;
    forall n ensures t.store.Bound(n) == m.store.Bound(n) || name == Some(n) {
    }
    forall n ensures
      || m.store.Bound(n) == s.store.Bound(n)
      || (s.store.Bound(n).Some? && s.store.Bound(n).value in Reaped(s, m.now) && m.store.Bound(n).None?)
    {
      if n in s.store.affinities { assert SameBinding(s, m, n, Reaped(s, m.now)); }
    }
  }

  lemma AddsNothing(s: State, name: Option<string>)
    ensures Adds(s, s, name)
  {
  }

  lemma AddsTransitive(s: State, t: State, u: State, name: Option<string>)
    requires Adds(s, t, name) && Adds(t, u, name)
    ensures Adds(s, u, name)
  {
  }

  lemma CleanDrifts(s: State, t: State)
    requires Clean(s, t)
    ensures Drifts(s, t, Reaped(s, t.now), None)
  {
    AddsNothing(t, None);
    AddsDrifts(s, t, t, None);
  }

  lemma CleanAlwaysDrifts(s: State)
    ensures forall t | Clean(s, t) :: Drifts(s, t, Reaped(s, t.now), None)
  {
    hide Clean, Drifts, Reaped;
    forall t | Clean(s, t) ensures Drifts(s, t, Reaped(s, t.now), None) { CleanDrifts(s, t); }
  }

  /** Dropping the name twice is dropping it once. */
  lemma OverflowConfig(s: State, config: SandboxConfig)
    ensures forall t, busy, id | Overflows(s, t, busy, config.(affinityName := None), id, None) ::
              Overflows(s, t, busy, config, id, None)
  {
  }

  lemma ReapedSame(s: State, t: State, at: Time)
    requires t.store.processes == s.store.processes
    ensures Reaped(t, at) == Reaped(s, at)
  {
  }

  /** A run that restored the session of its name first, and then found it busy. */
  lemma OverflowsAfter(s: State, m: State, t: State, name: Option<string>, busy: SandboxId,
                       config: SandboxConfig, id: SandboxId)
    requires Adds(s, m, name) && Overflows(m, t, busy, config, id, None)
    ensures Overflows(s, t, busy, config, id, name)
  {
    ReapedSame(s, m, t.now);
    hide Reaped;
    assert Drifts(s, t, Reaped(s, t.now), name);
    hide Drifts;
    var k :| Live(m, k) && Live(t, k) && m.store.processes[k].sandboxId == busy;
    assert Live(s, k);
  }

  lemma SameNoneEnded(s: State, t: State)
    requires t.store.processes == s.store.processes
    ensures NoneEnded(s, t)
  {
  }

  lemma ReapedNoneEnded(s: State, t: State, at: Time)
    requires Inv(t) && NoneEnded(s, t)
    ensures Reaped(t, at) <= Reaped(s, at)
  {
    forall id <- Reaped(t, at) ensures id in Reaped(s, at) {
      var k := ReapedOwner(t, id, at);
      RecordFacts(t, k);
      ReapedHas(s, k, at);
    }
  }

  lemma ReapedIssued(s: State, at: Time)
    requires Inv(s)
    ensures forall id <- Reaped(s, at) :: id < s.nextSandbox
  {
    forall id <- Reaped(s, at) ensures id < s.nextSandbox {
      var k := ReapedOwner(s, id, at);
      RecordFacts(s, k);
    }
  }

  /** The run and its process are as the choice of the sandbox and the request have them. */
  ghost predicate Reports(request: StartRunRequest, p: Prepared, run: StartedRun, t: State) {
    && Live(t, run.process.id) && t.store.processes[run.process.id] == run.process
    && run.process.status == Running && run.process.sandboxId == run.sandbox == p.id
    && run.process.command == ["/bin/sh", "-lc", request.command] && Trim(request.command) != ""
    && run.process.disposition == p.disposition && run.process.requestedSandboxId == p.requested
    && run.process.destroyOnExpiry == (request.destroyOnExpiry || p.disposition.CreatedDueToBusy?)
    && run.sessionName == (if request.Auto() then Some(request.SessionName()) else None)
  }

  /** The last step of a run, launching its process, keeps what the choice of its sandbox promised. */
  lemma RunHolds(request: StartRunRequest, s: State, chosen: State, m: State, t: State, p: Prepared,
                 run: StartedRun, faults: bool)
    requires Inv(s) && Inv(m) && Chosen(request, s, chosen, p, run.sessionCreated, faults) && Quiet(chosen, m)
    requires Loses(m, t, Reaped(m, t.now)) && Stands(m, t, p.id) && AllOver(s, t, p.id)
    requires Reports(request, p, run, t)
    ensures Ran(request, s, t, run, {}, faults)
  {
    hide Inv, Loses, Overflows, NoneEnded, Reaped, Spared, DeriveName, AllOver;
    LosesClock(m, t, Reaped(m, t.now));
    if p.disposition.CreatedDueToBusy? {
      var loose := if request.Targets(s, p.requested.value) then None else request.Own();
      var making := request.Making(s, p.requested.value).value;
      OverflowEndsNone(s, chosen, m, p.requested.value, making, p.id, loose);
      ReapedNoneEnded(s, m, t.now);
      ReapedIssued(s, t.now);
      ReapedLater(s, chosen.now, t.now);
      SparedHolds(request, s, chosen, m, t, p.requested.value, p.id, loose);
    }
  }

  lemma OverflowEndsNone(s: State, m: State, t: State, busy: SandboxId, config: SandboxConfig, id: SandboxId,
                         loose: Option<string>)
    requires Overflows(s, m, busy, config, id, loose) && Quiet(m, t)
    ensures NoneEnded(s, t) && id in m.memory
  {
  }

  lemma SparedHolds(request: StartRunRequest, s: State, chosen: State, m: State, t: State,
                    busy: SandboxId, id: SandboxId, loose: Option<string>)
    requires request.Making(s, busy).Some? && loose == (if request.Targets(s, busy) then None else request.Own())
    requires Overflows(s, chosen, busy, request.Making(s, busy).value, id, loose)
    requires Quiet(chosen, m) && Loses(m, t, Reaped(m, t.now))
    requires Reaped(m, t.now) <= Reaped(s, t.now) && Reaped(s, chosen.now) <= Reaped(s, t.now)
    requires forall x <- Reaped(s, t.now) :: x < s.nextSandbox
    ensures Spared(request, s, t, busy, id)
  {
    hide Reaped, DeriveName;
    forall n | busy !in Reaped(s, t.now) && s.store.Bound(n) == Some(busy) && loose != Some(n)
      ensures t.store.Bound(n) == Some(busy)
    {
      assert chosen.store.Bound(n) == Some(busy);
      assert SameBinding(m, t, n, Reaped(m, t.now));
    }
  }

  // ---- From the beginning of the call ----

  /** What a run promises from the state after its cleanup, it promises from the one before. */
  lemma RanEarlier(request: StartRunRequest, h: State, s: State, at: Time, t: State, run: StartedRun, faults: bool)
    requires Inv(h) && Loses(h, s, Reaped(h, at)) && OnlyExpiredRemoved(h, s, at) && at <= s.now <= t.now
    requires forall id <- h.boxes :: id in s.boxes <==> id !in Reaped(h, at)
    requires AllOver(h, t, run.sandbox) && Ran(request, s, t, run, {}, faults)
    ensures Ran(request, h, t, run, Reaped(h, at), faults)
  {
    hide Inv, Reaped, DeriveName, Spared, AllOver;
    SessionEarlier(request, h, s, at);
    if run.process.requestedSandboxId.Some? {
      SparedEarlier(request, h, s, at, t, run.process.requestedSandboxId.value, run.sandbox);
    }
    MakingEarlier(request, h, s, at, run.sandbox);
  }

  /** A whole run that started, from the state in which the call began. */
  lemma RunStarted(request: StartRunRequest, h: State, s: State, at: Time, chosen: State, m: State, t: State,
                   p: Prepared, run: StartedRun, faults: bool)
    requires Inv(h) && Inv(s) && Inv(m) && Evolves(h, s) && Evolves(s, chosen) && Evolves(m, t)
    requires Loses(h, s, Reaped(h, at)) && OnlyExpiredRemoved(h, s, at) && at <= s.now
    requires forall id <- h.boxes :: id in s.boxes <==> id !in Reaped(h, at)
    requires Retains(s, chosen, {}) && Chosen(request, s, chosen, p, run.sessionCreated, faults)
    requires Quiet(chosen, m) && Loses(m, t, Reaped(m, t.now)) && Prunes(m, t)
    requires Stands(m, t, p.id) && AllOver(m, t, p.id) && Reports(request, p, run, t)
    ensures Ran(request, h, t, run, Reaped(h, at), faults)
  {
    assert run.sandbox == p.id;
    QuietEvolves(chosen, m);
    RetainsQuiet(s, chosen, m);
    LosesClock(h, s, Reaped(h, at));
    EvolvesClock(s, chosen);
    EvolvesClock(chosen, m);
    EvolvesClock(m, t);
    hide Inv, Evolves, Loses, Reaped, Retains, Prunes, Chosen, Quiet, Stands, AllOver, Reports, Ran, OnlyExpiredRemoved;
    CleanupRetains(h, s, at);
    EvolvesTransitive(s, chosen, m);
    PrunesRetains(m, t);
    RetainsAgain(s, m, t);
    EvolvesTransitive(s, m, t);
    OverEarlier(s, m, t, p.id);
    OverEarlier(h, s, t, p.id);
    RunHolds(request, s, chosen, m, t, p, run, faults);
    RanEarlier(request, h, s, at, t, run, faults);
  }

  lemma SessionEarlier(request: StartRunRequest, h: State, s: State, at: Time)
    requires Loses(h, s, Reaped(h, at))
    requires forall id <- h.boxes :: id in s.boxes <==> id !in Reaped(h, at)
    ensures request.Resumes() ==> (request.Resumable(h, Reaped(h, at)) <==> request.Resumable(s, {}))
  {
    hide Reaped, DeriveName;
    if request.Resumes() {
      var n := request.Own().value;
      if n in h.store.affinities { assert SameBinding(h, s, n, Reaped(h, at)); }
    }
  }

  lemma MakingEarlier(request: StartRunRequest, h: State, s: State, at: Time, id: SandboxId)
    requires Inv(h) && Loses(h, s, Reaped(h, at))
    ensures request.Targets(s, id) ==> request.Targets(h, id)
    ensures request.Making(s, id).Some? ==> request.Making(h, id) == request.Making(s, id)
  {
    hide Reaped, DeriveName, ProcessInv, SandboxInv, SnapshotInv;
    forall n ensures s.store.Bound(n).Some? ==> s.store.Bound(n) == h.store.Bound(n) {
      if n in h.store.affinities { assert SameBinding(h, s, n, Reaped(h, at)); }
    }
    forall n ensures s.store.Pointer(n) == h.store.Pointer(n) {
      if n in h.store.affinities { assert SameBinding(h, s, n, Reaped(h, at)); }
    }
  }

  lemma SparedEarlier(request: StartRunRequest, h: State, s: State, at: Time, t: State, busy: SandboxId, id: SandboxId)
    requires Inv(h) && Loses(h, s, Reaped(h, at)) && OnlyExpiredRemoved(h, s, at) && at <= t.now
    requires Spared(request, s, t, busy, id)
    ensures Spared(request, h, t, busy, id)
    ensures request.Targets(s, busy) ==> request.Targets(h, busy)
  {
    MakingEarlier(request, h, s, at, busy);
    hide Inv, DeriveName, StartRunRequest.Making, StartRunRequest.Targets;
    ReapedLater(h, at, t.now);
    ReapedFewer(h, s, t.now);
    hide Reaped;
    forall n | h.store.Bound(n) == Some(busy) && busy !in Reaped(h, t.now) ensures s.store.Bound(n) == Some(busy) {
      assert SameBinding(h, s, n, Reaped(h, at));
    }
  }

  lemma ReapedFewer(s: State, t: State, at: Time)
    requires forall k <- t.store.processes :: k in s.store.processes && t.store.processes[k] == s.store.processes[k]
    ensures Reaped(t, at) <= Reaped(s, at)
  {
    forall id <- Reaped(t, at) ensures id in Reaped(s, at) {
      var k := ReapedOwner(t, id, at);
      ReapedHas(s, k, at);
    }
  }

  // ---- Choosing a sandbox ----

  lemma CreatesDrifts(s: State, m: State, t: State, config: SandboxConfig, r: Result<SandboxId>)
    requires Clean(s, m) && Creates(m, t, config, r) && config.affinityName.None?
    ensures Drifts(s, t, Reaped(s, t.now), None)
  {
    AddsDrifts(s, m, t, None);
  }

  lemma AddsDrift(s: State, t: State, name: Option<string>)
    requires Adds(s, t, name)
    ensures Drifts(s, t, {}, name)
  {
  }

  lemma AddsThenDrifts(s: State, m: State, t: State, name: Option<string>)
    requires Adds(s, m, name) && Drifts(m, t, Reaped(m, t.now), None)
    ensures Drifts(s, t, Reaped(s, t.now), name)
    ensures m == s ==> Drifts(s, t, Reaped(s, t.now), None)
  {
    ReapedSame(s, m, t.now);
    hide Reaped;
  }

  /** The bound that a choice keeps, from what is known of it. */
  lemma ChoiceDrifts(request: StartRunRequest, s: State, t: State, faults: bool)
    ensures var loose := request.Loose(s, {}, faults);
            (|| t == s || Drifts(s, t, {}, loose) || Drifts(s, t, {}, None)
             || Drifts(s, t, Reaped(s, t.now), loose) || Drifts(s, t, Reaped(s, t.now), None))
            ==> Drifts(s, t, Reaped(s, t.now), loose)
  {
    hide DeriveName, Reaped;
  }

  lemma AddsIssued(s: State, t: State, name: Option<string>)
    requires Adds(s, t, name)
    ensures s.nextSandbox <= t.nextSandbox && t.hydrated == s.hydrated && t.store.snapshots == s.store.snapshots
  {
  }

  lemma AddsNoneEnded(s: State, t: State, name: Option<string>)
    requires Adds(s, t, name)
    ensures NoneEnded(s, t)
  {
  }

  /** What came of a named session, whether it was there or restored. */
  ghost predicate Named(request: StartRunRequest, s: State, m: State, name: string, id: SandboxId, restored: bool,
                        faults: bool)
  {
    && request.sandboxId.None? && request.affinityName == Some(name) && id in m.memory
    && m.store.Bound(name) == Some(id)
    && (if restored then
          var pointer := s.store.Pointer(name);
          && pointer.Some? && pointer.value in s.store.snapshots && s.nextSandbox <= id
          && m.memory[id] == s.store.snapshots[pointer.value].config
          && Adds(s, m, Some(name)) && (!request.Resumable(s, {}) || faults)
        else m == s)
  }

  lemma NamedMaking(request: StartRunRequest, s: State, m: State, name: string, id: SandboxId, restored: bool,
                    faults: bool)
    requires Inv(s) && Named(request, s, m, name, id, restored, faults)
    ensures request.Making(s, id) == Some(m.memory[id]) && (request.Targets(s, id) <==> !restored)
    ensures request.Own() == Some(name) && !request.Auto()
    ensures request.Resumable(s, {}) && !faults ==> request.Targets(s, id)
  {
    NameIssued(s, name);
    hide Inv, Adds, DeriveName;
  }

  lemma NamedChosen(request: StartRunRequest, s: State, m: State, t: State, name: string, id: SandboxId,
                    restored: bool, r: Result<Prepared>, faults: bool)
    requires Inv(s) && Named(request, s, m, name, id, restored, faults)
    requires r.Ok? ==>
               match r.value
               case Prepared(used, None, ReusedExisting) => used == id && Stands(m, t, id) && AllOver(s, t, id)
               case Prepared(used, Some(busy), CreatedDueToBusy) =>
                 busy == id && Overflows(m, t, id, m.memory[id], used, None)
               case _ => false
    ensures r.Ok? ==> Chosen(request, s, t, r.value, false, faults)
  {
    NamedMaking(request, s, m, name, id, restored, faults);
    hide Inv, Adds, Overflows, DeriveName, NoneEnded, AllOver;
    hide StartRunRequest.Making, StartRunRequest.Targets, StartRunRequest.Own;
    hide StartRunRequest.Auto, StartRunRequest.Resumable, StartRunRequest.Resumes, StartRunRequest.Created;
    if r.Ok? && r.value.requested.Some? { OverflowsThere(m, t, id, m.memory[id], r.value.id, None); }
    if restored && r.Ok? && r.value.requested.Some? {
      OverflowsAfter(s, m, t, Some(name), id, m.memory[id], r.value.id);
    }
  }

  lemma OverflowsThere(s: State, t: State, busy: SandboxId, config: SandboxConfig, id: SandboxId,
                       loose: Option<string>)
    requires Overflows(s, t, busy, config, id, loose)
    ensures id in t.boxes
  {
  }

  /** A restored sandbox is there and idle, so it is used. */
  lemma RestoredReady(s: State, m: State, t: State, name: Option<string>, id: SandboxId,
                      accepts: SandboxConfig -> bool, r: Result<Prepared>)
    requires Inv(s) && Adds(s, m, name) && Drifts(m, t, Reaped(m, t.now), None) && !Foreseen(s)
    requires id in m.boxes && id in m.memory && s.nextSandbox <= id && Prepares(m, t, id, m.memory[id], accepts, r)
    ensures r.Ok?
  {
    ReapedSame(s, m, t.now);
    ReapedIssued(s, t.now);
    NotBusyBefore(s, m, t, id);
    hide Inv, Reaped, Creatable, Refusal, Busy;
  }

  lemma NotBusyBefore(s: State, m: State, t: State, id: SandboxId)
    requires m.store.processes == s.store.processes && !Foreseen(s) && s.nextSandbox <= id
    ensures !Busy(m, t, id)
  {
  }

  lemma NamedFails(request: StartRunRequest, s: State, t: State, name: string, id: SandboxId,
                   accepts: SandboxConfig -> bool, r: Result<Prepared>)
    requires request.sandboxId.None? && request.affinityName == Some(name) && s.store.Bound(name) == Some(id)
    requires id in s.boxes && id in s.memory && Prepares(s, t, id, s.memory[id], accepts, r)
    ensures r.Ok? || ChoiceFails(request, s, {}, t, accepts, r.error)
  {
    hide Busy, Creatable, Refusal, DeriveName;
  }

  /** A named session was found or restored, and then prepared. */
  lemma NamedPrepared(request: StartRunRequest, s: State, m: State, t: State, name: string, id: SandboxId,
                      restored: bool, r: Result<Prepared>, accepts: SandboxConfig -> bool, faults: bool)
    requires Inv(s) && Inv(m) && Evolves(s, m) && Evolves(m, t) && Named(request, s, m, name, id, restored, faults)
    requires id in m.boxes && (!faults ==> Prepares(m, t, id, m.memory[id], accepts, r))
    requires Adds(s, m, Some(name)) && Drifts(m, t, Reaped(m, t.now), None) && Prunes(m, t)
    requires r.Ok? ==>
               match r.value
               case Prepared(used, None, ReusedExisting) => used == id && Stands(m, t, id) && AllOver(m, t, id)
               case Prepared(used, Some(busy), CreatedDueToBusy) =>
                 busy == id && Overflows(m, t, id, m.memory[id], used, None)
               case _ => false
    ensures Evolves(s, t) && Retains(s, t, {})
    ensures Drifts(s, t, Reaped(s, t.now), request.Loose(s, {}, faults))
    ensures r.Ok? ==> Chosen(request, s, t, r.value, false, faults)
    ensures !faults && !Foreseen(s) ==> r.Ok? || ChoiceFails(request, s, {}, t, accepts, r.error)
  {
    if !faults && !Foreseen(s) {
      if restored {
        RestoredReady(s, m, t, Some(name), id, accepts, r);
      } else {
        NamedFails(request, s, t, name, id, accepts, r);
      }
    }
    EvolvesTransitive(s, m, t);
    AddsThenDrifts(s, m, t, Some(name));
    AddsRetains(s, m, Some(name));
    NamedMaking(request, s, m, name, id, restored, faults);
    ChoiceDrifts(request, s, t, faults);
    hide Inv, Evolves, Adds, Drifts, Prunes, Retains, Reaped, Stands, AllOver, Overflows, Chosen, DeriveName;
    PrunesRetains(m, t);
    RetainsAgain(s, m, t);
    if r.Ok? && r.value.requested.None? { OverEarlier(s, m, t, id); }
    NamedChosen(request, s, m, t, name, id, restored, r, faults);
  }

  /** The sandbox was there as the request asks for it. */
  lemma AskedChosen(request: StartRunRequest, s: State, t: State, id: SandboxId, config: SandboxConfig,
                    r: Result<Prepared>, accepts: SandboxConfig -> bool, faults: bool)
    requires request.Targets(s, id) && id in s.memory && config == s.memory[id]
    requires request.Resumes() ==> id in s.boxes
    requires !faults ==> Prepares(s, t, id, config, accepts, r)
    requires r.Ok? ==>
               match r.value
               case Prepared(used, None, ReusedExisting) => used == id && Stands(s, t, id) && AllOver(s, t, id)
               case Prepared(used, Some(busy), CreatedDueToBusy) =>
                 busy == id && Overflows(s, t, id, config, used, None)
               case _ => false
    ensures r.Ok? ==> Chosen(request, s, t, r.value, false, faults)
    ensures !faults ==> r.Ok? || ChoiceFails(request, s, {}, t, accepts, r.error)
  {
    hide Drifts, DeriveName, NoneEnded, AllOver, Busy, Creatable, Refusal;
  }

  lemma NameIssued(s: State, name: string)
    requires Inv(s)
    ensures s.store.Bound(name).Some? ==> s.store.Bound(name).value < s.nextSandbox
  {
  }

  lemma CleanedBounded(request: StartRunRequest, s: State, t: State, at: Time, faults: bool)
    requires Inv(s) && Loses(s, t, Reaped(s, at)) && OnlyExpiredRemoved(s, t, at) && at <= t.now
    ensures Bounded(request, s, t, faults) && Evolves(s, t) && t.hydrated == s.hydrated && s.now <= t.now
  {
    CleanupEvolves(s, t, Reaped(s, at), at);
    LosesClock(s, t, Reaped(s, at));
    CleanupRetains(s, t, at);
    NothingEvolves(s);
    BoundedStarts(request, s, faults);
    ReapedLater(s, at, t.now);
    hide Inv, Evolves, Loses, Reaped, Bounded, DeriveName, Retains;
    BoundedThen(request, s, s, t, Reaped(s, at), faults);
  }

  // ---- Bounds on a whole run ----

  lemma LosesDrifts(s: State, t: State, lost: set<SandboxId>)
    requires Loses(s, t, lost)
    ensures Drifts(s, t, lost, None)
  {
    forall n ensures
      || t.store.Bound(n) == s.store.Bound(n)
      || (s.store.Bound(n).Some? && s.store.Bound(n).value in lost && t.store.Bound(n).None?)
    {
      if n in s.store.affinities { assert SameBinding(s, t, n, lost); }
    }
  }

  lemma DriftsWeaken(s: State, t: State, d: set<SandboxId>, e: set<SandboxId>,
                     name: Option<string>, loose: Option<string>)
    requires Drifts(s, t, d, name) && d <= e && (name.None? || name == loose)
    ensures Drifts(s, t, e, loose)
  {
  }

  lemma DriftsTransitive(s: State, m: State, t: State, lost: set<SandboxId>, loose: Option<string>)
    requires Drifts(s, m, lost, loose) && Drifts(m, t, lost, loose)
    ensures Drifts(s, t, lost, loose)
  {
  }

  lemma BoundedStarts(request: StartRunRequest, s: State, faults: bool)
    ensures Bounded(request, s, s, faults)
  {
    RetainsSame(s, s);
    hide DeriveName, Retains;
  }

  /** Clearing away what has expired stays within the bounds. */
  lemma BoundedThen(request: StartRunRequest, s: State, m: State, t: State, lost: set<SandboxId>, faults: bool)
    requires Inv(s) && Inv(m) && Evolves(s, m) && Evolves(m, t) && m.nextProcess == s.nextProcess
    requires Bounded(request, s, m, faults) && Loses(m, t, lost) && lost <= Reaped(m, t.now) && Retains(m, t, {})
    ensures Bounded(request, s, t, faults)
  {
    RetainsAgain(s, m, t);
    EvolvesClock(m, t);
    OverdueGrows(s, m.now, t.now);
    OverdueWas(s, m, t.now);
    LosesDrifts(m, t, lost);
    hide Inv, Evolves, Loses, Overdue, Reaped, Drifts, DeriveName, Retains;
    var o := Overdue(s, t.now);
    var loose := request.Loose(s, o, faults);
    DriftsWeaken(s, m, Overdue(s, m.now), o, request.Loose(s, Overdue(s, m.now), faults), loose);
    DriftsWeaken(m, t, lost, o, None, loose);
    DriftsTransitive(s, m, t, o, loose);
  }

  /** So does choosing a sandbox. */
  lemma BoundedChoice(request: StartRunRequest, s: State, m: State, t: State, faults: bool)
    requires Inv(s) && Inv(m) && Evolves(s, m) && Evolves(m, t) && m.nextProcess == s.nextProcess
    requires Bounded(request, s, m, faults) && Drifts(m, t, Reaped(m, t.now), request.Loose(m, {}, faults))
    requires Retains(m, t, {})
    ensures Bounded(request, s, t, faults)
  {
    RetainsAgain(s, m, t);
    EvolvesClock(m, t);
    OverdueGrows(s, m.now, t.now);
    OverdueWas(s, m, t.now);
    var o := Overdue(s, t.now);
    var loose := request.Loose(s, o, faults);
    SessionStays(request, s, m, Overdue(s, m.now), o, faults);
    hide Inv, Evolves, Overdue, Reaped, Drifts, DeriveName, Retains;
    DriftsWeaken(s, m, Overdue(s, m.now), o, request.Loose(s, Overdue(s, m.now), faults), loose);
    DriftsWeaken(m, t, Reaped(m, t.now), o, request.Loose(m, {}, faults), loose);
    DriftsTransitive(s, m, t, o, loose);
  }

  /** So does what changes nothing but files. */
  lemma BoundedQuiet(request: StartRunRequest, s: State, m: State, t: State, faults: bool)
    requires Inv(s) && Inv(m) && Evolves(s, m) && Quiet(m, t) && m.nextProcess == s.nextProcess
    requires Bounded(request, s, m, faults)
    ensures Inv(t) && Evolves(s, t) && Bounded(request, s, t, faults) && m.now <= t.now
  {
    QuietKeepsInv(m, t);
    QuietEvolves(m, t);
    EvolvesTransitive(s, m, t);
    RetainsSame(m, t);
    hide Inv, Evolves, Bounded, Retains, DeriveName;
    BoundedThen(request, s, m, t, {}, faults);
  }

  lemma SessionStays(request: StartRunRequest, s: State, m: State, d: set<SandboxId>, e: set<SandboxId>, faults: bool)
    requires Drifts(s, m, d, request.Loose(s, d, faults)) && d <= e
    ensures request.Resumes() && !faults && request.Resumable(s, e) ==> request.Resumable(m, {})
  {
    hide DeriveName;
  }

  // ---- Why a run does not start ----

  lemma RecordBefore(s: State, m: State, k: ProcessId)
    requires Inv(m) && Evolves(s, m) && m.nextProcess == s.nextProcess && k in m.store.processes
    ensures k in s.store.processes && RecordEvolves(s.store.processes[k], m.store.processes[k])
  {
    RecordFacts(m, k);
  }

  lemma ForeseenEarlier(h: State, s: State, at: Time)
    requires Loses(h, s, Reaped(h, at)) && OnlyExpiredRemoved(h, s, at)
    ensures Foreseen(s) ==> Foreseen(h)
  {
    hide Reaped;
  }

  /** Nothing runs in the sandbox that was chosen. */
  lemma ChosenIdle(request: StartRunRequest, s: State, chosen: State, p: Prepared, created: bool, faults: bool)
    requires Inv(chosen) && Evolves(s, chosen) && chosen.nextProcess == s.nextProcess && !Foreseen(s)
    requires Chosen(request, s, chosen, p, created, faults)
    ensures forall k :: Live(chosen, k) ==> chosen.store.processes[k].sandboxId != p.id
  {
    ChosenFresh(request, s, chosen, p, created, faults);
    forall k | Live(chosen, k)
      ensures k in s.store.processes && s.store.processes[k].sandboxId == chosen.store.processes[k].sandboxId
    {
      RecordBefore(s, chosen, k);
    }
    hide Inv, Evolves, Chosen;
    if p.disposition.ReusedExisting? { OverNotLive(s, chosen, p.id); }
  }

  lemma OverNotLive(s: State, t: State, id: SandboxId)
    requires AllOver(s, t, id)
    ensures forall k <- s.store.processes :: s.store.processes[k].sandboxId == id ==> !Live(t, k)
  {
    forall k <- s.store.processes ensures s.store.processes[k].sandboxId == id ==> Over(s, t, k) {
    }
  }

  lemma ChosenFresh(request: StartRunRequest, s: State, chosen: State, p: Prepared, created: bool, faults: bool)
    requires Chosen(request, s, chosen, p, created, faults)
    ensures p.id in chosen.boxes && p.id in chosen.memory
    ensures p.disposition.ReusedExisting? ==> AllOver(s, chosen, p.id) && request.Making(s, p.id).Some?
    ensures !p.disposition.ReusedExisting? ==> s.nextSandbox <= p.id
  {
    hide DeriveName, NoneEnded, AllOver, Drifts, Busy;
  }

  /** A new sandbox does not go with an expired record. */
  lemma FreshStays(s: State, m: State, t: State, id: SandboxId)
    requires Inv(m) && Evolves(s, m) && m.nextProcess == s.nextProcess && !Foreseen(s)
    requires Loses(m, t, Reaped(m, t.now)) && id in m.boxes && s.nextSandbox <= id
    ensures id in t.boxes
  {
    if id in Reaped(m, t.now) {
      var k := ReapedOwner(m, id, t.now);
      RecordBefore(s, m, k);
      assert Foreseen(s);
    }
  }

  /** A sandbox that is reused is the one the request asks for, or it is new. */
  lemma ReusedTarget(request: StartRunRequest, h: State, s: State, at: Time, chosen: State, t: State, id: SandboxId,
                     accepts: SandboxConfig -> bool)
    requires Inv(h) && Inv(s) && Evolves(s, chosen) && Loses(h, s, Reaped(h, at))
    requires forall x <- h.boxes :: x in s.boxes <==> x !in Reaped(h, at)
    requires request.Making(s, id).Some? && id in chosen.boxes && id !in t.boxes
    ensures id >= s.nextSandbox || ChoiceFails(request, h, Reaped(h, at), t, accepts, NotFound)
  {
    if id < s.nextSandbox {
      MakingEarlier(request, h, s, at, id);
      SessionEarlier(request, h, s, at);
      assert id in s.boxes by { hide Inv, Loses, StartRunRequest.Making, DeriveName; }
      hide Inv, Evolves, Loses, Reaped, DeriveName, Busy;
      assert request.Targets(s, id);
    }
  }

  /** A run whose sandbox was chosen and fitted out fails only because its launch script does, or
      because the sandbox it asks for is gone. */
  lemma LaunchFails(request: StartRunRequest, h: State, s: State, at: Time, chosen: State, m: State, t: State,
                    p: Prepared, created: bool, accepts: SandboxConfig -> bool, last: Option<Executed>, e: Error)
    requires Inv(h) && Inv(s) && Inv(chosen) && Inv(m) && Evolves(s, chosen) && chosen.nextProcess == s.nextProcess
    requires Loses(h, s, Reaped(h, at)) && OnlyExpiredRemoved(h, s, at)
    requires forall x <- h.boxes :: x in s.boxes <==> x !in Reaped(h, at)
    requires Chosen(request, s, chosen, p, created, false) && Quiet(chosen, m) && !Foreseen(h)
    requires Loses(m, t, Reaped(m, t.now))
    requires match e
             case SandboxBusy => Busy(m, t, p.id)
             case NotFound => p.id !in t.boxes
             case LaunchFailed => last.Some? && last.value.outcome.exitCode != 0
             case _ => false
    ensures RunFails(request, h, Reaped(h, at), t, accepts, last, e)
  {
    ForeseenEarlier(h, s, at);
    ChosenFresh(request, s, chosen, p, created, false);
    ChosenIdle(request, s, chosen, p, created, false);
    QuietEvolves(chosen, m);
    EvolvesTransitive(s, chosen, m);
    hide Inv, Evolves, Loses, Reaped, Chosen, Foreseen, ChoiceFails, DeriveName, StartRunRequest.Making;
    hide OnlyExpiredRemoved;
    if e.NotFound? {
      if p.id >= s.nextSandbox {
        FreshStays(s, m, t, p.id);
      } else {
        ReusedTarget(request, h, s, at, chosen, t, p.id, accepts);
      }
    }
  }

  /** The reasons that a choice has after the cleanup, it has before it. */
  lemma ChoiceFailsEarlier(request: StartRunRequest, h: State, s: State, at: Time, t: State,
                           accepts: SandboxConfig -> bool, e: Error)
    requires Inv(h) && Loses(h, s, Reaped(h, at)) && OnlyExpiredRemoved(h, s, at)
    requires forall x <- h.boxes :: x in s.boxes <==> x !in Reaped(h, at)
    requires ChoiceFails(request, s, {}, t, accepts, e)
    ensures ChoiceFails(request, h, Reaped(h, at), t, accepts, e)
  {
    SessionEarlier(request, h, s, at);
    NamesEarlier(h, s, at);
    forall id | TargetFails(s, {}, t, id, accepts, e) ensures TargetFails(h, Reaped(h, at), t, id, accepts, e) {
      TargetFailsEarlier(h, s, at, t, id, accepts, e);
    }
    hide Inv, Loses, Reaped, DeriveName, TargetFails, OnlyExpiredRemoved, Creatable, Refusal;
  }

  lemma NamesEarlier(h: State, s: State, at: Time)
    requires Loses(h, s, Reaped(h, at))
    ensures s.store.affinities.Keys == h.store.affinities.Keys && s.store.snapshots == h.store.snapshots
    ensures forall n :: s.store.Pointer(n) == h.store.Pointer(n)
    ensures forall n :: s.store.Bound(n).Some? ==> s.store.Bound(n) == h.store.Bound(n)
  {
    hide Reaped;
    forall n ensures s.store.Pointer(n) == h.store.Pointer(n)
             ensures s.store.Bound(n).Some? ==> s.store.Bound(n) == h.store.Bound(n)
    {
      if n in h.store.affinities { assert SameBinding(h, s, n, Reaped(h, at)); }
    }
  }

  lemma TargetFailsEarlier(h: State, s: State, at: Time, t: State, id: SandboxId,
                           accepts: SandboxConfig -> bool, e: Error)
    requires Loses(h, s, Reaped(h, at)) && OnlyExpiredRemoved(h, s, at)
    requires TargetFails(s, {}, t, id, accepts, e)
    ensures TargetFails(h, Reaped(h, at), t, id, accepts, e)
  {
    hide Reaped, Creatable, Refusal;
    if Busy(s, t, id) {
      var k :| Live(s, k) && Live(t, k) && s.store.processes[k].sandboxId == id;
      assert Live(h, k);
    }
  }
}
