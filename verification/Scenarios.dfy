/** States that runs come to, built from the steps of the control plane, in which it does not do what
    one might expect. */
module Scenarios {
  import opened Types
  import opened Processes
  import opened Stores
  import opened Strings
  import opened Worlds
  import opened Tables
  import opened Steps
  import opened Servers

  // ---- Steps ----

  /** The record of a process that nobody asked to run elsewhere. */
  function PlainRecord(k: ProcessId, id: SandboxId, command: seq<string>, owned: bool, at: Time): ProcessInfo {
    FirstRecord(k, id, None, ReusedExisting, owned, command, at)
  }

  /** A process was started in sandbox `id` and its launch was reported. */
  ghost function Started(s: State, id: SandboxId, command: seq<string>, owned: bool): State {
    var p := PlainRecord(s.nextProcess, id, command, owned, s.now);
    var launched := Launched(s, p);
    launched.(store := launched.store.UpsertProcess(p.(status := Running)))
  }

  /** The record of a process that ended well, as the probe reports it. */
  function LastRecord(p: ProcessInfo, at: Time): (q: ProcessInfo)
    ensures q.id == p.id
  {
    ParseProbe(p, "succeeded:0", at, at + DAY)
  }

  /** The run of the inspect script that reports it. */
  function LastRun(p: ProcessInfo, at: Time): Executed {
    Executed(p.sandboxId, Ask(p.id), Outcome(0, "succeeded:0"), at)
  }

  /** The probe reported at time `at` that process `k` had ended. */
  ghost function Finished(s: State, k: ProcessId, at: Time): State
    requires k in s.store.processes
  {
    var p := s.store.processes[k];
    s.(store := s.store.UpsertProcess(LastRecord(p, at)), now := at, ran := s.ran + {LastRun(p, at)})
  }

  ghost predicate Idle(s: State, id: SandboxId) {
    id in s.boxes && forall k <- s.store.processes ::
      s.store.processes[k].sandboxId == id ==> s.store.processes[k].status.Terminal()
  }

  lemma StartedKeepsInv(s: State, id: SandboxId, command: seq<string>, owned: bool)
    requires Inv(s) && Idle(s, id)
    ensures var t := Started(s, id, command, owned);
            Inv(t) && t.store.processes[s.nextProcess] ==
                      PlainRecord(s.nextProcess, id, command, owned, s.now).(status := Running)
  {
    var p := PlainRecord(s.nextProcess, id, command, owned, s.now);
    BoxIssued(s, id);
    hide Inv;
    LaunchKeepsInv(s, p);
    UpsertKeepsInv(Launched(s, p), p.(status := Running));
  }

  lemma LastRecordShaped(p: ProcessInfo, at: Time)
    requires Shaped(p) && !p.status.Terminal() && p.startedAt <= at
    ensures var q := LastRecord(p, at);
            && Shaped(q) && RecordEvolves(p, q) && q.status.Succeeded? && q.expiresAt == Some(at + DAY)
            && Explains(LastRun(p, at), q)
  {
    assert "running:"[0] == 'r' && "succeeded:0"[0] == 's' && "succeeded:0"[..10] == "succeeded:";
    ProbeKeepsShape(p, "succeeded:0", at, at + DAY);
    assert Trim("succeeded:0") == "succeeded:0";
    assert LastRecord(p, at) == ParseProbe(p, Trim("succeeded:0"), at, at + DAY);
  }

  lemma FinishedKeepsInv(s: State, k: ProcessId, at: Time)
    requires Inv(s) && Live(s, k) && s.now <= at && s.store.processes[k].sandboxId in s.boxes
    ensures Inv(Finished(s, k, at)) && Finished(s, k, at).store.processes[k] == LastRecord(s.store.processes[k], at)
  {
    RecordFacts(s, k);
    BoxIssued(s, s.store.processes[k].sandboxId);
    hide Inv;
    LastRecordShaped(s.store.processes[k], at);
    hide LastRecord, Shaped, Explains;
    var t := s.(now := at, ran := s.ran + {LastRun(s.store.processes[k], at)});
    assert LastRun(s.store.processes[k], at) in t.ran;
    QuietKeepsInv(s, t);
    UpsertKeepsInv(t, LastRecord(s.store.processes[k], at));
  }

  /** The first sandbox of an installation, which is idle. */
  ghost function FirstSandbox(config: SandboxConfig): State {
    Registered(State(map[], EMPTY, map[0 := Box(config, map[])], map[], true, 0, 1, 0, 0, {}), config, 0, 0, 0)
  }

  lemma FirstSandboxIdle(config: SandboxConfig)
    ensures Inv(FirstSandbox(config)) && Idle(FirstSandbox(config), 0)
  {
    var s := State(map[], EMPTY, map[], map[], true, 0, 0, 0, 0, {});
    var t := s.(boxes := map[0 := Box(config, map[])], nextSandbox := 1);
    assert Inv(s);
    hide Inv;
    CreateStages(s, t, config, 0, 0, 0);
  }

  // ---- Cleanup takes the sandbox of a live process ----

  /** An owning process ends in sandbox `id`, the next one is started there, and a day passes. */
  ghost function Ended(s: State, id: SandboxId, first: seq<string>): State
  {
    Finished(Started(s, id, first, true), s.nextProcess, s.now)
  }

  ghost function Shared(s: State, id: SandboxId, first: seq<string>, second: seq<string>): State {
    Started(Ended(s, id, first), id, second, false).(now := s.now + DAY)
  }

  lemma EndedIdle(s: State, id: SandboxId, first: seq<string>)
    requires Inv(s) && Idle(s, id)
    ensures var t := Ended(s, id, first);
            && Inv(t) && Idle(t, id) && t.now == s.now && t.nextProcess == s.nextProcess + 1
            && s.nextProcess in t.store.processes
            && var p := t.store.processes[s.nextProcess];
               p.sandboxId == id && p.destroyOnExpiry && p.expiresAt == Some(s.now + DAY)
  {
    hide Inv, Shaped, Explains, LastRecord, StdoutPath, StderrPath;
    var k := s.nextProcess;
    var started := Started(s, id, first, true);
    StartedKeepsInv(s, id, first, true);
    RecordFacts(started, k);
    LastRecordShaped(started.store.processes[k], s.now);
    FinishedKeepsInv(started, k, s.now);
    EndedTables(s, id, first);
  }

  /** Only the record of the process is new. */
  lemma EndedTables(s: State, id: SandboxId, first: seq<string>)
    ensures var t := Ended(s, id, first);
            && t.now == s.now && t.nextProcess == s.nextProcess + 1 && t.boxes == s.boxes
            && t.store.processes.Keys == s.store.processes.Keys + {s.nextProcess}
            && forall k <- s.store.processes :: k != s.nextProcess ==> t.store.processes[k] == s.store.processes[k]
  {
    hide LastRecord;
  }

  /** From every state with an idle sandbox a run comes to one in which an expired record owns the
      sandbox while another process is live in it. */
  lemma ExpiredOwnerBesideLiveProcess(s: State, id: SandboxId, first: seq<string>, second: seq<string>)
    requires Inv(s) && Idle(s, id)
    ensures var t := Shared(s, id, first, second);
            && Inv(t) && id in t.boxes && id in Reaped(t, t.now)
            && Live(t, s.nextProcess + 1) && t.store.processes[s.nextProcess + 1].sandboxId == id
  {
    var k, ended := s.nextProcess, Ended(s, id, first);
    EndedIdle(s, id, first);
    hide Inv, Ended, Idle;
    SecondStarted(ended, id, second, k);
    var again, t := Started(ended, id, second, false), Shared(s, id, first, second);
    DatedStage(again, t);
    hide Started;
    ReapedHas(t, k, t.now);
  }

  lemma SecondStarted(s: State, id: SandboxId, command: seq<string>, k: ProcessId)
    requires Inv(s) && Idle(s, id) && k in s.store.processes && k < s.nextProcess
    ensures var t := Started(s, id, command, false);
            && Inv(t) && t.now == s.now && t.boxes == s.boxes && id in t.boxes && Live(t, s.nextProcess)
            && t.store.processes[s.nextProcess].sandboxId == id
            && k in t.store.processes && t.store.processes[k] == s.store.processes[k]
  {
    StartedKeepsInv(s, id, command, false);
    hide Inv;
  }

  // ---- Destroying an owned sandbox ----

  /** A sandbox that a record owns cannot be destroyed successfully, though a working backend
      destroys it. */
  method DestroyOwned(server: HyperboxServer, id: SandboxId, k: ProcessId) returns (r: Result<()>)
    requires server.Valid() && k in server.store.processes
    requires server.store.processes[k].sandboxId == id && server.store.processes[k].destroyOnExpiry
    modifies server, server.world
    ensures server.Valid() && r.Err?
    ensures !server.world.faults ==> id !in server.world.boxes
  {
    hide Inv, Evolves, Narrows;
    ghost var h;
    r, h := server.DestroySandbox(id);
  }

  /** Starting a process with `destroyOnExpiry` in any idle sandbox makes it such a sandbox. */
  lemma StartedOwned(s: State, id: SandboxId, command: seq<string>)
    requires Inv(s) && Idle(s, id)
    ensures var t := Started(s, id, command, true); Inv(t) && id in t.boxes && !Unowned(t, id)
  {
    StartedKeepsInv(s, id, command, true);
    hide Inv;
    assert s.nextProcess in Started(s, id, command, true).store.processes;
  }

  // ---- A session that could not be inspected ----

  /** The binding of the session was cleared ... */
  ghost function Cleared(request: StartRunRequest, s: State, at: Time): State
    requires request.Auto() && request.Resumable(s, {})
  {
    s.(store := s.store.ClearBinding(s.store.Bound(request.SessionName()).value, at), now := at)
  }

  /** ... and a new sandbox was created under the name. */
  ghost function Boxing(request: StartRunRequest, s: State, files: Files, at: Time): State
    requires request.Auto() && request.Resumable(s, {})
  {
    Cleared(request, s, at).(boxes := s.boxes[s.nextSandbox := Box(request.Created(), files)],
                             nextSandbox := s.nextSandbox + 1)
  }

  ghost function Replaced(request: StartRunRequest, s: State, files: Files, at: Time): State
    requires request.Auto() && request.Resumable(s, {})
  {
    Registered(Boxing(request, s, files, at), request.Created(), s.nextSandbox, at, at)
  }

  lemma ReplacedCreates(request: StartRunRequest, s: State, files: Files, at: Time)
    requires Inv(s) && s.now <= at && request.Auto() && request.Resumable(s, {})
    ensures var t := Replaced(request, s, files, at);
            Inv(t) && Creates(Cleared(request, s, at), t, request.Created(), Ok(s.nextSandbox))
  {
    hide StartRunRequest.SessionName, Creates, Registered;
    ClearKeepsInv(s, s.store.Bound(request.SessionName()).value, at);
    BoxesIssued(s);
    hide Inv;
    CreateStages(Cleared(request, s, at), Boxing(request, s, files, at), request.Created(), s.nextSandbox, at, at);
  }

  lemma ClearedUnbound(request: StartRunRequest, s: State, at: Time)
    requires request.Auto() && request.Resumable(s, {})
    ensures forall n :: Cleared(request, s, at).store.Bound(n) != s.store.Bound(request.SessionName())
  {
    hide StartRunRequest.SessionName;
  }

  /** From every state with a live session a run can come to one in which it reports the session as
      created although it was there; no name leads to the old one any more. */
  lemma FaultReplacesSession(request: StartRunRequest, s: State, files: Files, at: Time)
    requires Inv(s) && s.now <= at && request.Auto() && request.Resumable(s, {})
    ensures var t := Replaced(request, s, files, at);
            && Inv(t) && Chosen(request, s, t, Prepared(s.nextSandbox, None, CreatedNew), true, true)
            && s.store.Bound(request.SessionName()).value in t.boxes
            && forall n :: t.store.Bound(n) != s.store.Bound(request.SessionName())
  {
    var c, t := Cleared(request, s, at), Replaced(request, s, files, at);
    ReplacedCreates(request, s, files, at);
    ClearedUnbound(request, s, at);
    BoxesIssued(s);
    hide Inv, Replaced, StartRunRequest.SessionName;
    CreatesMeans(c, t, request.Created(), s.nextSandbox);
    SameNoneEnded(s, t);
    hide NoneEnded;
  }
}
