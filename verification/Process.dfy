/** Managed process records: the lifecycle of `hyperbox-core/src/process.rs` and the probe
    reader of the runtime that drives it. */
module Processes {
  import opened Types

  datatype Disposition = ReusedExisting | CreatedNew | CreatedDueToBusy

  datatype Status = Starting | Running | Succeeded | Failed | Cancelled | Lost {
    predicate Terminal() {
      Succeeded? || Failed? || Cancelled? || Lost?
    }

    /** The documented transition table; the runtime itself never consults it. */
    predicate CanTransitionTo(next: Status) {
      match this
      case Starting => next.Running? || next.Failed?
      case Running => next.Succeeded? || next.Failed? || next.Cancelled? || next.Lost?
      case _ => false
    }
  }

  datatype ProcessInfo = ProcessInfo(
    id: ProcessId,
    sandboxId: SandboxId,
    requestedSandboxId: Option<SandboxId>,
    disposition: Disposition,
    destroyOnExpiry: bool,
    command: seq<string>,
    status: Status,
    stdoutPath: string,
    stderrPath: string,
    backendPid: Option<nat>,
    exitCode: Option<int>,
    startedAt: Time,
    finishedAt: Option<Time>,
    expiresAt: Option<Time>)

  const LOST_GRACE: Time := 5_000
  const DAY: Time := 86_400_000

  predicate Expired(p: ProcessInfo, at: Time) {
    p.expiresAt.Some? && p.expiresAt.value <= at
  }

  /** The parts of a record that nothing changes while the record exists. */
  predicate SameIdentity(p: ProcessInfo, q: ProcessInfo) {
    && p.id == q.id
    && p.sandboxId == q.sandboxId
    && p.requestedSandboxId == q.requestedSandboxId
    && p.disposition == q.disposition
    && p.destroyOnExpiry == q.destroyOnExpiry
    && p.command == q.command
    && p.stdoutPath == q.stdoutPath
    && p.stderrPath == q.stderrPath
    && p.startedAt == q.startedAt
  }

  /** How a stored record may change over time: identity is kept and terminal is final. */
  predicate RecordEvolves(p: ProcessInfo, q: ProcessInfo) {
    SameIdentity(p, q) && (p.status.Terminal() ==> q == p)
  }

  /** The lifecycle shape every stored record has. */
  predicate Shaped(p: ProcessInfo) {
    && (p.status.Terminal() <==> p.finishedAt.Some?)
    && (p.status.Terminal() <==> p.expiresAt.Some?)
    && (p.status.Terminal() ==> p.startedAt <= p.finishedAt.value < p.expiresAt.value)
    && (!p.status.Terminal() ==> p.exitCode.None?)
    && (p.status.Lost? ==> p.exitCode.None? && p.finishedAt.value - p.startedAt >= LOST_GRACE)
    && p.stdoutPath == StdoutPath(p.id) && p.stderrPath == StderrPath(p.id)
  }

  /** The record with which a process begins. */
  function FirstRecord(k: ProcessId, id: SandboxId, requested: Option<SandboxId>, disposition: Disposition,
                       owned: bool, command: seq<string>, at: Time): (p: ProcessInfo)
    ensures Shaped(p) && !p.status.Terminal()
  {
    ProcessInfo(k, id, requested, disposition, owned, command, Starting, StdoutPath(k), StderrPath(k),
                None, None, at, None, None)
  }

  // ---- Numbers, as they are printed and as `str::parse` reads them ----

  function IdText(n: nat): string {
    if n < 10 then [('0' as int + n) as char]
    else IdText(n / 10) + [('0' as int + n % 10) as char]
  }

  function I32Text(n: int): string {
    if n < 0 then "-" + IdText(-n) else IdText(n)
  }

  function ParseDigits(s: string, acc: nat): (r: Option<nat>)
    decreases |s|
  {
    if s == "" then Some(acc)
    else if '0' <= s[0] <= '9' then ParseDigits(s[1..], 10 * acc + (s[0] as int - '0' as int))
    else None
  }

  /** `s.parse::<u32>().ok()` */
  function ParseU32(s: string): (r: Option<nat>)
    ensures r.Some? ==> r.value < 0x1_0000_0000
  {
    var digits := if s != "" && s[0] == '+' then s[1..] else s;
    if digits == "" then None else
      match ParseDigits(digits, 0)
      case Some(n) => if n < 0x1_0000_0000 then Some(n) else None
      case None => None
  }

  /** `s.parse::<i32>().ok()` */
  function ParseI32(s: string): (r: Option<int>)
    ensures r.Some? ==> -0x8000_0000 <= r.value < 0x8000_0000
  {
    var negative := s != "" && s[0] == '-';
    var digits := if s != "" && (s[0] == '+' || s[0] == '-') then s[1..] else s;
    if digits == "" then None else
      match ParseDigits(digits, 0)
      case Some(n) =>
        var value := if negative then -(n as int) else n as int;
        if -0x8000_0000 <= value < 0x8000_0000 then Some(value) else None
      case None => None
  }

  // ---- The probe ----

  function StripPrefix(s: string, prefix: string): Option<string> {
    if prefix <= s then Some(s[|prefix|..]) else None
  }

  function OrInsert(t: Option<Time>, now: Time): Option<Time> {
    if t.Some? then t else Some(now)
  }

  /** `parse_process_probe`: `now` is the clock and `expiry` the value of `process_expiry_at(now)`. */
  function ParseProbe(p: ProcessInfo, probe: string, now: Time, expiry: Time): ProcessInfo {
    var running := StripPrefix(probe, "running:");
    var succeeded := StripPrefix(probe, "succeeded:");
    var failed := StripPrefix(probe, "failed:");
    var cancelled := StripPrefix(probe, "cancelled:");
    if running.Some? then
      p.(status := Running, backendPid := ParseU32(running.value),
         exitCode := None, finishedAt := None, expiresAt := None)
    else if succeeded.Some? then
      p.(status := Succeeded, exitCode := ParseI32(succeeded.value),
         finishedAt := OrInsert(p.finishedAt, now), expiresAt := OrInsert(p.expiresAt, expiry))
    else if failed.Some? then
      p.(status := Failed, exitCode := ParseI32(failed.value),
         finishedAt := OrInsert(p.finishedAt, now), expiresAt := OrInsert(p.expiresAt, expiry))
    else if cancelled.Some? then
      p.(status := Cancelled, exitCode := ParseI32(cancelled.value),
         finishedAt := OrInsert(p.finishedAt, now), expiresAt := OrInsert(p.expiresAt, expiry))
    else if probe == "lost" then
      if now - p.startedAt < LOST_GRACE then
        p.(status := Starting, exitCode := None, finishedAt := None, expiresAt := None)
      else
        p.(status := Lost,
           finishedAt := OrInsert(p.finishedAt, now), expiresAt := OrInsert(p.expiresAt, expiry))
    else p
  }

  /** Whatever the inspect script prints, a live record keeps its identity and its shape, and is
      declared lost exactly when the probe says so after the grace period. */
  lemma ProbeKeepsShape(p: ProcessInfo, probe: string, now: Time, expiry: Time)
    requires Shaped(p) && !p.status.Terminal() && p.startedAt <= now < expiry
    ensures var q := ParseProbe(p, probe, now, expiry);
            && RecordEvolves(p, q) && Shaped(q)
            && (q.status.Terminal() ==> q.finishedAt == Some(now) && q.expiresAt == Some(expiry))
            && (q.status.Lost? <==> probe == "lost" && now - p.startedAt >= LOST_GRACE)
  {
  }

  /** The probe does leave the documented transition table, and exactly here: a running process
      drops back to Starting while a "lost" probe is within the grace period, and a starting one
      jumps straight to Succeeded, Cancelled or Lost. */
  lemma UndocumentedMovesExactly(p: ProcessInfo, probe: string, now: Time, expiry: Time)
    requires !p.status.Terminal()
    ensures var q := ParseProbe(p, probe, now, expiry);
            var lost := probe == "lost";
            var early := now - p.startedAt < LOST_GRACE;
            (q.status == p.status || p.status.CanTransitionTo(q.status)) <==>
            !(|| (p.status.Running? && lost && early)
              || (p.status.Starting? && lost && !early)
              || (p.status.Starting? && "succeeded:" <= probe)
              || (p.status.Starting? && "cancelled:" <= probe))
  {
    assert "running:"[0] == 'r' && "succeeded:"[0] == 's' && "failed:"[0] == 'f';
    assert "cancelled:"[0] == 'c' && "lost"[0] == 'l';
  }

  lemma {:induction false} DigitsRead(n: nat, rest: string)
    ensures ParseDigits(IdText(n) + rest, 0) == ParseDigits(rest, n)
    ensures IdText(n) != "" && '0' <= IdText(n)[0] <= '9'
  {
    if n < 10 {
      assert (IdText(n) + rest)[1..] == rest;
    } else {
      var last := [('0' as int + n % 10) as char];
      assert IdText(n) + rest == IdText(n / 10) + (last + rest);
      DigitsRead(n / 10, last + rest);
      assert (last + rest)[1..] == rest;
    }
  }

  /** Every number that fits is read back as it was printed. */
  lemma NumberRead(n: int)
    ensures -0x8000_0000 <= n < 0x8000_0000 ==> ParseI32(I32Text(n)) == Some(n)
    ensures 0 <= n < 0x1_0000_0000 ==> ParseU32(IdText(n)) == Some(n)
  {
    var digits := IdText(if n < 0 then -n else n);
    DigitsRead(if n < 0 then -n else n, "");
    assert digits + "" == digits;
    assert ("-" + digits)[1..] == digits;
  }

  /** What each answer of the inspect script means, with every exit code and process id. */
  lemma ProbeSays(p: ProcessInfo, code: int, pid: nat, now: Time, expiry: Time)
    requires -0x8000_0000 <= code < 0x8000_0000 && pid < 0x1_0000_0000
    ensures var q := ParseProbe(p, "running:" + IdText(pid), now, expiry);
            q.status == Running && q.backendPid == Some(pid) && q.exitCode.None?
    ensures var q := ParseProbe(p, "succeeded:" + I32Text(code), now, expiry);
            q.status == Succeeded && q.exitCode == Some(code)
    ensures var q := ParseProbe(p, "failed:" + I32Text(code), now, expiry);
            q.status == Failed && q.exitCode == Some(code)
    ensures var q := ParseProbe(p, "cancelled:" + I32Text(code), now, expiry);
            q.status == Cancelled && q.exitCode == Some(code)
    ensures var q := ParseProbe(p, "cancelled:", now, expiry); q.status == Cancelled && q.exitCode.None?
    ensures ParseProbe(p, "starting", now, expiry) == p
  {
    NumberRead(code);
    NumberRead(pid);
    hide ParseI32, ParseU32, IdText, I32Text;
    FirstLetters();
    Stripped("running:", IdText(pid));
    Stripped("succeeded:", I32Text(code));
    Stripped("failed:", I32Text(code));
    Stripped("cancelled:", I32Text(code));
    Stripped("cancelled:", "");
    assert "cancelled:" + "" == "cancelled:";
    NoNumber();
  }

  lemma NoNumber()
    ensures ParseI32("").None?
  {
  }

  /** The answers begin with different letters, but for two that end their word differently. */
  lemma FirstLetters()
    ensures "running:"[0] == 'r' && "succeeded:"[0] == 's' && "failed:"[0] == 'f' && "cancelled:"[0] == 'c'
    ensures "lost"[0] == 'l' && "starting"[0] == 's' && "starting"[1] == 't' && "succeeded:"[1] == 'u'
  {
  }

  lemma Stripped(prefix: string, rest: string)
    ensures StripPrefix(prefix + rest, prefix) == Some(rest)
    ensures prefix != "" ==> (prefix + rest)[0] == prefix[0]
  {
  }

  // ---- Where a process keeps its files ----

  function ProcessDir(id: ProcessId): string { ".hyperbox/processes/" + IdText(id) }

  function StdoutPath(id: ProcessId): string { ProcessDir(id) + "/stdout.log" }

  function StderrPath(id: ProcessId): string { ProcessDir(id) + "/stderr.log" }

  function CancelPath(id: ProcessId): string { ProcessDir(id) + "/cancelled" }

  function ExitCodePath(id: ProcessId): string { ProcessDir(id) + "/exit_code" }
}
