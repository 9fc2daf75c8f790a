/** Everything the control plane cannot decide for itself: the clock, the backend that runs the
    sandboxes, and whether calls to it succeed. Each method below allows every outcome a backend
    is allowed to have; those of `LocalBackend` are among them. */
module Worlds {
  import opened Types
  import opened Processes

  /** A sandbox as its backend holds it. */
  datatype Box = Box(config: SandboxConfig, files: Files)

  /** What a shell command reported. */
  datatype Outcome = Outcome(exitCode: int, stdout: string)

  /** What the control plane has a sandbox do: run the script that launches a process with its command,
      asks how a process is doing or stops it, or one that sets something up; write a file; or
      anything else. */
  datatype Script =
    | Launch(process: ProcessId, command: seq<string>)
    | Ask(process: ProcessId)
    | Stop(process: ProcessId)
    | SetUp(step: string)
    | Write(path: string, text: string)
    | Other

  /** Something a sandbox did to its end, and when it was asked to. */
  datatype Executed = Executed(sandbox: SandboxId, script: Script, outcome: Outcome, at: Time)

  /** `after` holds the sandboxes of `before`, each with its configuration, whatever happened to
      their files. */
  ghost predicate SameBoxes(before: map<SandboxId, Box>, after: map<SandboxId, Box>) {
    && after.Keys == before.Keys
    && forall id <- before :: after[id].config == before[id].config
  }

  /** Nothing of `before` is touched, and what is new got an id from `lo` up to `hi`. */
  ghost predicate Grows(before: map<SandboxId, Box>, after: map<SandboxId, Box>, lo: nat, hi: nat) {
    && lo <= hi
    && (forall id <- before :: id in after && after[id] == before[id])
    && (forall id <- after :: id in before || lo <= id < hi)
  }

  class World {
    /** The configurations the backend supports. */
    const accepts: SandboxConfig -> bool
    var now: Time
    var boxes: map<SandboxId, Box>
    var artifacts: map<SnapshotId, Files>
    /** Sandbox ids from here on have never been handed out. */
    var nextSandbox: nat
    /** While false, the backend and the store only fail when they must. */
    var faults: bool
    /** All that sandboxes did, and what came of the last script if it was run. */
    ghost var ran: set<Executed>
    ghost var last: Option<Executed>

    constructor (accepts: SandboxConfig -> bool)
      ensures Valid() && this.accepts == accepts && boxes == map[] && artifacts == map[] && nextSandbox == 0
      ensures ran == {}
    {
      this.accepts, ran, last := accepts, {}, None;
      now, boxes, artifacts, nextSandbox := 0, map[], map[], 0;
    }

    ghost predicate Valid()
      reads this
    {
      forall id <- boxes :: id < nextSandbox
    }

    method Utc() returns (t: Time)
      modifies this`now
      ensures t == now >= old(now)
    {
      var passed: nat :| true;
      now := now + passed;
      t := now;
    }

    method Sleep(millis: nat)
      modifies this`now
      ensures now >= old(now) + millis
    {
      var late: nat :| true;
      now := now + millis + late;
    }

    /** `process_expiry_at`: the retention is configurable but a positive number of days. */
    method ProcessExpiryAt(t: Time) returns (expiry: Time)
      ensures expiry >= t + DAY
    {
      var days: nat :| true;
      expiry := t + DAY * (1 + days);
    }

    /** Does the call that is about to be made fail for a passing reason? */
    method Fails() returns (fails: bool)
      ensures fails ==> faults
    {
      fails := *;
      fails := fails && faults;
    }

    method ValidateConfig(config: SandboxConfig) returns (valid: bool)
      ensures valid <==> accepts(config)
    {
      valid := accepts(config);
    }

    method Inspect(id: SandboxId) returns (r: Result<()>)
      ensures r.Ok? ==> id in boxes
      ensures r.Err? ==> (r.error.NotFound? && id !in boxes) || (r.error.Fault? && faults)
    {
      var fails := Fails();
      if fails { return Err(Fault); }
      r := if id in boxes then Ok(()) else Err(NotFound);
    }

    /** A failed creation may leave a sandbox behind that nobody knows of. */
    method Create(config: SandboxConfig) returns (r: Result<SandboxId>)
      requires Valid()
      modifies this`boxes, this`nextSandbox
      ensures Valid() && Grows(old(boxes), boxes, old(nextSandbox), nextSandbox)
      ensures r.Ok? ==>
                && old(nextSandbox) <= r.value < nextSandbox && r.value !in old(boxes)
                && r.value in boxes && boxes[r.value].config == config
      ensures r.Err? ==> r.error.Fault? && faults
    {
      var files: Files := *;
      var id := nextSandbox;
      var fails := Fails();
      var orphan := *;
      if !fails || orphan {
        boxes, nextSandbox := boxes[id := Box(config, files)], id + 1;
      }
      r := if fails then Err(Fault) else Ok(id);
    }

    /** Running a command may change the sandbox's files, and nothing else. */
    method Exec(id: SandboxId, script: Script) returns (r: Result<Outcome>)
      modifies this`boxes, this`ran, this`last
      ensures SameBoxes(old(boxes), boxes)
      ensures last == if r.Ok? then Some(Executed(id, script, r.value, now)) else None
      ensures ran == if r.Ok? then old(ran) + {Executed(id, script, r.value, now)} else old(ran)
      ensures r.Ok? ==> id in boxes
      ensures r.Err? ==> (r.error.NotFound? && id !in boxes) || (r.error.Fault? && faults)
    {
      var fails := Fails();
      if id in boxes {
        var files: Files, exitCode: int, stdout: string := *, *, *;
        boxes := boxes[id := boxes[id].(files := files)];
        r := if fails then Err(Fault) else Ok(Outcome(exitCode, stdout));
      } else {
        r := if fails then Err(Fault) else Err(NotFound);
      }
      last := if r.Ok? then Some(Executed(id, script, r.value, now)) else None;
      ran := if r.Ok? then ran + {Executed(id, script, r.value, now)} else ran;
    }

    /** Writing a file may also be refused because of its path. */
    method WriteFile(id: SandboxId, path: string, text: string) returns (r: Result<()>)
      modifies this`boxes, this`ran
      ensures SameBoxes(old(boxes), boxes)
      ensures ran == if r.Ok? then old(ran) + {Executed(id, Write(path, text), Outcome(0, ""), now)} else old(ran)
      ensures r.Ok? ==> id in boxes
      ensures r.Err? ==>
                || (r.error.InvalidConfig? && id in boxes) || (r.error.NotFound? && id !in boxes)
                || (r.error.Fault? && faults)
    {
      var fails := Fails();
      if id !in boxes { return Err(if fails then Fault else NotFound); }
      var refused := *;
      if refused { return Err(InvalidConfig); }
      var files: Files := *;
      boxes := boxes[id := boxes[id].(files := files)];
      r := if fails then Err(Fault) else Ok(());
      ran := if fails then ran else ran + {Executed(id, Write(path, text), Outcome(0, ""), now)};
    }

    /** A destroy that fails for a passing reason may have removed the sandbox all the same. */
    method Destroy(id: SandboxId) returns (r: Result<()>)
      modifies this`boxes
      ensures boxes == old(boxes) || boxes == old(boxes) - {id}
      ensures r.Ok? ==> id in old(boxes) && boxes == old(boxes) - {id}
      ensures r.Err? ==> (r.error.NotFound? && id !in old(boxes)) || (r.error.Fault? && faults)
    {
      var fails := Fails();
      var removed := *;
      if id !in boxes { return Err(if fails then Fault else NotFound); }
      if !fails || removed { boxes := boxes - {id}; }
      r := if fails then Err(Fault) else Ok(());
    }

    /** A failed snapshot may leave an unusable artifact behind. */
    method CreateSnapshot(id: SandboxId, snapshot: SnapshotId) returns (r: Result<()>)
      modifies this`artifacts
      ensures artifacts.Keys <= old(artifacts.Keys) + {snapshot}
      ensures artifacts - {snapshot} == old(artifacts) - {snapshot}
      ensures r.Ok? ==> id in boxes && artifacts == old(artifacts)[snapshot := boxes[id].files]
      ensures r.Err? ==> (r.error.NotFound? && id !in boxes) || (r.error.Fault? && faults)
    {
      var fails := Fails();
      var partial := *;
      if id !in boxes { return Err(if fails then Fault else NotFound); }
      if !fails {
        artifacts := artifacts[snapshot := boxes[id].files];
        return Ok(());
      }
      if partial {
        var junk: Files := *;
        artifacts := artifacts[snapshot := junk];
      }
      r := Err(Fault);
    }

    /** Restoring into a shared workspace may be refused; a failed restore may leave an orphan. */
    method RestoreSnapshot(snapshot: SnapshotId, config: SandboxConfig) returns (r: Result<SandboxId>)
      requires snapshot in artifacts
      requires Valid()
      modifies this`boxes, this`nextSandbox
      ensures Valid() && Grows(old(boxes), boxes, old(nextSandbox), nextSandbox)
      ensures r.Ok? ==>
                && old(nextSandbox) <= r.value < nextSandbox && r.value !in old(boxes)
                && r.value in boxes && boxes[r.value] == Box(config, artifacts[snapshot])
      ensures r.Err? ==> (r.error.Fault? && faults) || (r.error.InvalidConfig? && config.workspaceDir.Some?)
    {
      var shared := *;
      if config.workspaceDir.Some? && shared { return Err(InvalidConfig); }
      r := Create(config);
      if r.Ok? {
        boxes := boxes[r.value := Box(config, artifacts[snapshot])];
      }
    }

    /** A sandbox may also disappear on its own. */
    method Disturb(id: SandboxId, faults: bool)
      modifies this`boxes, this`faults
      ensures boxes == old(boxes) - {id} && this.faults == faults
    {
      boxes, this.faults := boxes - {id}, faults;
    }
  }
}
