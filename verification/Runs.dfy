/** Whole runs of the control plane: any sequence of API calls, restarts and disturbances. */
module Runs {
  import opened Types
  import opened Processes
  import opened LogFiles
  import opened Stores
  import opened Worlds
  import opened Tables
  import opened Steps
  import opened Servers

  datatype Request =
    | CreateSandbox(config: SandboxConfig)
    | StartProcess(sandbox: SandboxId, command: seq<string>, requested: Option<SandboxId>,
                   disposition: Disposition, destroyOnExpiry: bool)
    | StartRun(run: StartRunRequest)
    | PrepareRun(sandbox: SandboxId, overflow: Option<SandboxConfig>)
    | GetProcess(process: ProcessId)
    | ListProcesses
    | WaitProcess(process: ProcessId, timeoutSecs: nat)
    | ReadProcessLog(process: ProcessId, atEnd: bool)
    | CancelProcess(process: ProcessId)
    | Exec(sandbox: SandboxId)
    | ListSandboxes
    | DestroySandbox(sandbox: SandboxId)
    | CreateSnapshot(sandbox: SandboxId, note: Option<string>)
    | RestoreSnapshot(snapshot: SnapshotId)
    | ResolveAffinity(name: string, restoreIfNeeded: bool)
    | Restart
    | Disturb(sandbox: SandboxId, faults: bool)
  {
    /** The sandboxes whose records the request may remove before their time. */
    function Frees(): set<SandboxId> {
      if DestroySandbox? then {sandbox} else {}
    }

    predicate AboutProcess() {
      || StartProcess? || StartRun? || PrepareRun? || GetProcess? || ListProcesses? || WaitProcess?
      || ReadProcessLog? || CancelProcess?
    }
  }

  /** The calls about processes. */
  method HandleProcess(server: HyperboxServer, request: Request)
    requires server.Valid() && request.AboutProcess()
    modifies server, server.world
    ensures server.Valid() && Evolves(old(server.S()), server.S())
    ensures Retains(old(server.S()), server.S(), {})
  {
    hide Inv, Evolves, Retains, Prunes, Loses, Narrows, Drifts, Ran, Chosen, RunFails, ChoiceFails, Foreseen, Prepares;
    hide SaidBusy, Probed, Polled, Answers, LaunchRan, Describes, KeepsUnowned, HasRow, Busy, AllOver, Stands;
    hide Overflows, OnlyRefreshed, RunsIn;
    ghost var before := server.S();
    match request {
      case StartProcess(s, c, q, d, o) =>
        var _, h := server.StartProcess(s, c, q, d, o);
        PrunedSince(before, h, server.S());
      case StartRun(run) =>
        var _, h, _ := server.StartRun(run);
        RetainedSince(before, h, server.S(), {});
      case PrepareRun(s, o) =>
        var _, h := server.PrepareRunSandbox(s, o);
        PrunedSince(before, h, server.S());
      case GetProcess(p) =>
        var _, h := server.GetProcess(p);
        PrunedSince(before, h, server.S());
      case ListProcesses =>
        var _, h := server.ListProcesses();
        PrunedSince(before, h, server.S());
      case WaitProcess(p, t) =>
        var _, _, h := server.WaitProcess(p, t);
        RetainedSince(before, h, server.S(), {});
      case ReadProcessLog(p, atEnd) =>
        var _, h := server.TouchLog(p, atEnd);
        RetainedSince(before, h, server.S(), {});
      case CancelProcess(p) =>
        var _, h := server.CancelProcess(p);
        RetainedSince(before, h, server.S(), {});
    }
  }

  /** One step of a run: an API call, a new server process, or a disturbance of the backend. */
  method Handle(server: HyperboxServer, request: Request)
    requires server.Valid()
    modifies server, server.world
    ensures server.Valid() && Evolves(old(server.S()), server.S())
    ensures Retains(old(server.S()), server.S(), request.Frees())
  {
    hide Inv, Evolves, Retains, Loses, Narrows, Adds, Creates, Gone, Unowned, Visible, Listed;
    ghost var before := server.S();
    match request {
      case CreateSandbox(c) =>
        var _, h := server.CreateSandbox(c);
        SameRetained(before, server.S());
      case Exec(s) =>
        var _, _ := server.Exec(s);
        SameRetained(before, server.S());
      case ListSandboxes =>
        var _ := server.ListSandboxes();
        HydrateEvolves(before, server.S());
        NothingEvolves(server.S());
        SameRetained(before, server.S());
      case DestroySandbox(s) =>
        var _, h := server.DestroySandbox(s);
        RetainedSince(before, h, server.S(), {s});
      case CreateSnapshot(s, note) =>
        var _, _ := server.CreateSnapshot(s, note);
        SameRetained(before, server.S());
      case RestoreSnapshot(s) =>
        var _, _ := server.RestoreSnapshot(s);
        SameRetained(before, server.S());
      case ResolveAffinity(n, restore) =>
        var _, h := server.ResolveAffinity(n, restore);
        AddsRetains(h, server.S(), Some(n));
        RetainedSince(before, h, server.S(), {});
      case Restart =>
        server.Restart();
        RestartEvolves(before);
        SameRetained(before, server.S());
      case Disturb(s, faults) =>
        server.world.Disturb(s, faults);
        DestroyKeepsInv(before, server.S(), s);
        LosesEvolves(before, server.S(), {s});
        SameRetained(before, server.S());
      case _ =>
        HandleProcess(server, request);
    }
  }

  lemma RetainedSince(s: State, h: State, t: State, freed: set<SandboxId>)
    requires Hydrates(s, h) && Retains(h, t, freed)
    ensures Retains(s, t, freed)
  {
  }

  lemma PrunedSince(s: State, h: State, t: State)
    requires Hydrates(s, h) && Prunes(h, t)
    ensures Retains(s, t, {})
  {
  }

  lemma SameRetained(s: State, t: State)
    requires Evolves(s, t) && t.store.processes == s.store.processes
    ensures Retains(s, t, {})
  {
    RetainsSame(s, t);
  }

  /** The main safety result: in every run every state satisfies the invariant, every later state is
      an evolution of every earlier one, and records go only when their time is up or their sandbox is
      destroyed. */
  method Serve(server: HyperboxServer, requests: seq<Request>) returns (ghost trace: seq<State>)
    requires server.Valid()
    modifies server, server.world
    ensures server.Valid()
    ensures |trace| == |requests| + 1 && trace[0] == old(server.S()) && trace[|requests|] == server.S()
    ensures History(trace) && Retaining(trace, requests)
  {
    hide Inv, Evolves, Retains, History;
    trace := [server.S()];
    HistoryStarts(server.S());
    for i := 0 to |requests|
      invariant server.Valid()
      invariant |trace| == i + 1 && trace[0] == old(server.S()) && trace[i] == server.S()
      invariant History(trace) && Retaining(trace, requests[..i])
    {
      Handle(server, requests[i]);
      HistoryGrows(trace, server.S());
      trace := trace + [server.S()];
    }
    assert requests[..|requests|] == requests;
  }

  ghost predicate History(trace: seq<State>) {
    && (forall i | 0 <= i < |trace| :: Inv(trace[i]))
    && (forall i, j | 0 <= i <= j < |trace| :: Evolves(trace[i], trace[j]))
  }

  /** What each request left of the records before it. */
  ghost predicate Retaining(trace: seq<State>, requests: seq<Request>) {
    && |trace| == |requests| + 1
    && forall i | 0 <= i < |requests| :: Retains(trace[i], trace[i + 1], requests[i].Frees())
  }

  lemma HistoryStarts(s: State)
    requires Inv(s)
    ensures History([s])
  {
    NothingEvolves(s);
  }

  lemma HistoryGrows(trace: seq<State>, s: State)
    requires trace != [] && History(trace) && Inv(s) && Evolves(trace[|trace| - 1], s)
    ensures History(trace + [s])
  {
    hide Inv, Evolves;
    NothingEvolves(s);
    forall i | 0 <= i < |trace| ensures Evolves(trace[i], s) {
      EvolvesTransitive(trace[i], trace[|trace| - 1], s);
    }
  }

  /** The sandboxes that the requests from the `i`-th up to the `j`-th were to destroy. */
  ghost function Freed(requests: seq<Request>, i: nat, j: nat): set<SandboxId>
    requires i <= j <= |requests|
  {
    set l | i <= l < j && requests[l].DestroySandbox? :: requests[l].sandbox
  }

  lemma {:induction false} RetainedThroughout(trace: seq<State>, requests: seq<Request>, i: nat, j: nat)
    requires History(trace) && Retaining(trace, requests) && i <= j < |trace|
    ensures Retains(trace[i], trace[j], Freed(requests, i, j))
    decreases j - i
  {
    hide History, Retains;
    if i == j {
      RetainsSame(trace[i], trace[i]);
      assert Freed(requests, i, i) == {};
    } else {
      RetainedThroughout(trace, requests, i, j - 1);
      HistoryMeans(trace, i, j - 1);
      HistoryMeans(trace, j - 1, j);
      StepRetains(trace, requests, j - 1);
      hide Inv, Evolves;
      RetainsTransitive(trace[i], trace[j - 1], trace[j], Freed(requests, i, j - 1), requests[j - 1].Frees());
      assert Freed(requests, i, j) == Freed(requests, i, j - 1) + requests[j - 1].Frees();
    }
  }

  lemma HistoryMeans(trace: seq<State>, i: nat, j: nat)
    requires History(trace) && i <= j < |trace|
    ensures Inv(trace[i]) && Inv(trace[j]) && Evolves(trace[i], trace[j])
  {
  }

  lemma StepRetains(trace: seq<State>, requests: seq<Request>, i: nat)
    requires Retaining(trace, requests) && i < |requests|
    ensures Retains(trace[i], trace[i + 1], requests[i].Frees())
  {
  }

  /** A record leaves the table only because it expired, or because a request was to destroy its
      sandbox. If it was live when last seen it had a day's time to end and expire in between. */
  lemma RecordLeaves(trace: seq<State>, requests: seq<Request>, i: nat, j: nat, k: ProcessId)
    requires History(trace) && Retaining(trace, requests) && i <= j < |trace|
    requires k in trace[i].store.processes && k !in trace[j].store.processes
    ensures var p := trace[i].store.processes[k];
            || Due(p, trace[i].now, trace[j].now)
            || exists l :: i <= l < j && requests[l] == DestroySandbox(p.sandboxId)
  {
    RetainedThroughout(trace, requests, i, j);
    hide History;
    var home := trace[i].store.processes[k].sandboxId;
    if home in Freed(requests, i, j) {
      var l :| i <= l < j && requests[l].DestroySandbox? && requests[l].sandbox == home;
      assert requests[l] == DestroySandbox(home);
    }
  }

  /** A record that ended stays exactly as it is until it is removed, and once removed it never
      comes back; the same goes for sandboxes. */
  lemma EndedForGood(trace: seq<State>, k: ProcessId, i: nat, j: nat, l: nat)
    requires History(trace) && i <= j <= l < |trace|
    requires k in trace[i].store.processes && k in trace[l].store.processes
    ensures k in trace[j].store.processes
    ensures SameIdentity(trace[i].store.processes[k], trace[l].store.processes[k])
    ensures trace[i].store.processes[k].status.Terminal() ==>
              trace[j].store.processes[k] == trace[l].store.processes[k] == trace[i].store.processes[k]
  {
    assert Inv(trace[i]);
    assert Evolves(trace[i], trace[j]) && Evolves(trace[i], trace[l]) && Evolves(trace[j], trace[l]);
  }

  lemma SandboxGoneForGood(trace: seq<State>, id: SandboxId, i: nat, j: nat, l: nat)
    requires History(trace) && i <= j <= l < |trace|
    requires id in trace[i].boxes && id in trace[l].boxes
    ensures id in trace[j].boxes && trace[j].boxes[id].config == trace[i].boxes[id].config
  {
    assert Inv(trace[i]);
    assert Evolves(trace[i], trace[j]) && Evolves(trace[j], trace[l]);
  }

  /** Two live records of one sandbox in one state of a run are one record. */
  lemma NeverTwoLive(trace: seq<State>, i: nat, j: ProcessId, k: ProcessId)
    requires History(trace) && i < |trace| && Live(trace[i], j) && Live(trace[i], k)
    requires trace[i].store.processes[j].sandboxId == trace[i].store.processes[k].sandboxId
    ensures j == k
  {
    assert Inv(trace[i]);
  }

  /** In every state of a run every record names the two files that the launch script of its process
      opens for output and errors, and no two processes, nor the two streams of one, share a file. */
  lemma LogsNeverShared(trace: seq<State>, i: nat, j: ProcessId, k: ProcessId)
    requires History(trace) && i < |trace| && j in trace[i].store.processes && k in trace[i].store.processes
    ensures var p, q := trace[i].store.processes[j], trace[i].store.processes[k];
            && LogsAsRecorded(p) && p.stdoutPath != q.stderrPath
            && (p.stdoutPath == q.stdoutPath || p.stderrPath == q.stderrPath ==> j == k)
  {
    hide LogsAsRecorded, StdoutPath, StderrPath, Evolves;
    HistoryMeans(trace, i, i);
    RecordFacts(trace[i], j);
    RecordFacts(trace[i], k);
    ShapedLogs(trace[i].store.processes[j]);
    PathsDiffer(j, k);
  }

  /** A process that was started writes to the files its answer names. */
  method StartLogged(server: HyperboxServer, sandbox: SandboxId, command: seq<string>)
      returns (r: Result<ProcessInfo>)
    requires server.Valid()
    modifies server, server.world
    ensures server.Valid() && (r.Ok? ==> LogsAsRecorded(r.value))
  {
    hide Inv, Evolves, LogsAsRecorded, Shaped;
    ghost var h;
    r, h := server.StartProcess(sandbox, command, None, ReusedExisting, false);
    if r.Ok? {
      RecordFacts(server.S(), r.value.id);
      ShapedLogs(r.value);
    }
  }

  /** In every state of a run a record that says that its process ended has its reason among the
      scripts that were run: the inspect script of the process said so, or its launch script failed. */
  lemma EndedForReason(trace: seq<State>, i: nat, k: ProcessId)
    requires History(trace) && i < |trace| && k in trace[i].store.processes
    requires trace[i].store.processes[k].status.Terminal()
    ensures exists e <- trace[i].ran :: Explains(e, trace[i].store.processes[k])
  {
    hide Explains;
    assert Inv(trace[i]);
  }

  // ---- Sessions ----

  /** A run never takes a session away. Whatever the run asks for and however it ends, a sandbox that
      belongs to no record keeps its name, unless the run itself creates a sandbox of that name. */
  method RunKeepsSession(server: HyperboxServer, request: StartRunRequest, id: SandboxId, name: string)
      returns (r: Result<StartedRun>)
    requires server.Valid() && server.hydrated && Unowned(server.S(), id)
    requires id in server.sandboxes && server.store.Bound(name) == Some(id)
    requires request.Own() == Some(name) ==> request.Resumes() && !server.world.faults
    modifies server, server.world
    ensures server.Valid()
    ensures id in server.world.boxes && id in server.sandboxes && server.sandboxes[id] == old(server.sandboxes[id])
    ensures server.store.Bound(name) == Some(id)
    ensures r.Ok? && request.Resumes() && request.Own() == Some(name) && r.value.process.requestedSandboxId.None? ==>
              r.value.sandbox == id
    ensures r.Ok? && request.Auto() && request.Own() == Some(name) ==> !r.value.sessionCreated
  {
    hide Inv, Evolves, Spared;
    ghost var s := server.S();
    ghost var start, at;
    r, start, at := server.StartRun(request);
    UnownedNotOverdue(s, server.world.now, id);
    UnownedNotReaped(s, at, id);
  }

  lemma UnownedNotOverdue(s: State, t: Time, id: SandboxId)
    requires Unowned(s, id)
    ensures id !in Overdue(s, t)
  {
  }

  lemma UnownedNotReaped(s: State, at: Time, id: SandboxId)
    requires Unowned(s, id)
    ensures id !in Reaped(s, at)
  {
  }

  // ---- Cleanup and live processes ----

  /** Cleanup does not look at who runs in a sandbox: one with a live process goes like any other
      that an expired record owns, and its record stays behind. The documentation says otherwise. */
  method LiveProcessLosesSandbox(server: HyperboxServer, k: ProcessId) returns (r: Result<()>, ghost at: Time)
    requires server.Valid() && Live(server.S(), k)
    modifies server, server.world
    ensures server.Valid() && Live(server.S(), k) && server.store.processes[k] == old(server.store.processes[k])
    ensures r.Ok? ==>
              var processes, home := old(server.store.processes), old(server.store.processes[k].sandboxId);
              home in server.world.boxes <==>
              home in old(server.world.boxes) &&
              !exists j :: j in processes && Expired(processes[j], at) && processes[j].destroyOnExpiry
                           && processes[j].sandboxId == home
  {
    ghost var before := server.S();
    RecordFacts(before, k);
    hide Inv;
    r, at := server.CleanupExpiredProcesses();
    LosesDrifts(before, server.S(), Reaped(before, at));
  }

  // ---- Restart ----

  /** The rows are the entries of `m`, in some order. */
  ghost predicate Shows(rows: seq<(SandboxId, Option<string>)>, m: map<SandboxId, Option<string>>) {
    && (forall i | 0 <= i < |rows| :: rows[i].0 in m && m[rows[i].0] == rows[i].1)
    && (forall id <- m :: exists i | 0 <= i < |rows| :: rows[i].0 == id)
  }

  lemma SameRows(a: seq<(SandboxId, Option<string>)>, b: seq<(SandboxId, Option<string>)>,
                 m: map<SandboxId, Option<string>>)
    requires Shows(a, m) && Shows(b, m)
    ensures forall row <- a :: row in b
  {
    forall row <- a ensures row in b {
      var j :| 0 <= j < |b| && b[j].0 == row.0;
      assert b[j] == row;
    }
  }

  /** A restart is invisible: the new server lists exactly the sandboxes, with the names, that the
      old one listed. */
  method ListAcrossRestart(server: HyperboxServer)
      returns (before: seq<(SandboxId, Option<string>)>, after: seq<(SandboxId, Option<string>)>)
    requires server.Valid() && server.hydrated && !server.world.faults
    modifies server
    ensures server.Valid() && server.hydrated && server.store == old(server.store)
    ensures Visible(server.S()) == old(Visible(server.S())) && Shows(before, Visible(server.S()))
    ensures forall row :: row in before <==> row in after
  {
    hide Inv, Visible, PersistedVisible;
    VisibleIsPersisted(server.S());
    before := server.ListSandboxes();
    server.Restart();
    after := server.ListSandboxes();
    VisibleIsPersisted(server.S());
    SameRows(before, after, Visible(server.S()));
    SameRows(after, before, Visible(server.S()));
  }

  // ---- Snapshots and names ----

  /** Snapshot the session of a name, destroy it and ask for the name again: the answer is a new
      sandbox with the original configuration and the files the snapshot saved, and asking once
      more gives the same sandbox without restoring. With a backend that works all of this succeeds
      for every sandbox that belongs to no record and has no shared workspace. */
  method SnapshotDestroyResolve(server: HyperboxServer, id: SandboxId, name: string)
      returns (done: bool, first: Result<(SandboxId, bool)>, ghost back: State, second: Result<(SandboxId, bool)>)
    requires server.Valid() && server.hydrated && id in server.sandboxes
    requires server.sandboxes[id].affinityName == Some(name) && server.store.Bound(name) == Some(id)
    modifies server, server.world
    ensures server.Valid()
    ensures done ==> id in old(server.world.boxes)
    ensures done && first.Ok? ==>
              && first.value.1 && first.value.0 != id && back.store.Bound(name) == Some(first.value.0)
              && first.value.0 in back.memory && first.value.0 in back.boxes
              && back.memory[first.value.0] == old(server.sandboxes[id])
              && back.boxes[first.value.0] == Box(old(server.sandboxes[id]), old(server.world.boxes[id].files))
    ensures done && first.Ok? && second.Ok? && !second.value.1 ==>
              second.value.0 == first.value.0 && server.S() == back
    ensures done && first.Ok? && !server.world.faults ==> second == Ok((first.value.0, false))
    ensures !server.world.faults && Unowned(old(server.S()), id) && old(server.sandboxes[id]).workspaceDir.None? ==>
              done && first.Ok?
  {
    hide Inv, Evolves, Narrows, Reaped, Unowned, KeepsUnowned, Adds;
    done, first, back, second := false, Err(NotFound), server.S(), Err(NotFound);
    UnownedExists(server.S(), id);
    BoundIssued(server.S(), name);
    var saved, _ := server.CreateSnapshot(id, None);
    if saved.Err? { return; }
    ghost var snapped := server.S();
    KeepsSame(old(server.S()), snapped);
    KeepsApplies(old(server.S()), snapped, id);
    var destroyed, _ := server.DestroySandbox(id);
    if destroyed.Err? { return; }
    done := true;
    NarrowsFreesName(snapped, server.S(), id, name);
    ghost var h;
    first, h := server.ResolveAffinity(name, true);
    back := server.S();
    if first.Err? { return; }
    second, h := server.ResolveAffinity(name, true);
  }

  lemma BoundIssued(s: State, name: string)
    requires Inv(s) && s.store.Bound(name).Some?
    ensures s.store.Bound(name).value < s.nextSandbox
  {
  }

  lemma NarrowsFreesName(s: State, t: State, id: SandboxId, name: string)
    requires Narrows(s, t, id) && Gone(t, id) && s.store.Bound(name) == Some(id)
    ensures t.store.Bound(name).None? && t.store.Pointer(name) == s.store.Pointer(name)
    ensures t.store.snapshots == s.store.snapshots && t.artifacts == s.artifacts && t.nextSandbox == s.nextSandbox
  {
    assert SameBinding(s, t, name, Reaped(s, t.now) + {id});
  }
}
