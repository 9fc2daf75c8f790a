/** The interactive shell of the agent: a main task and one reader task for each output of the child
    send into one channel, in every order; and the loop of the client at the other end. */
module ShellStream {
  import opened Utf8

  datatype Output = Stdout | Stderr

  datatype Event =
    | Payload(output: Output, bytes: Bytes)
    | Message(text: Bytes)
    | ExitCode(code: int)
    | StatusError

  datatype Reader = NotStarted | Reading | Sending(chunk: Bytes) | Finished(clean: bool)

  /** One output of the child: all it wrote, and how much of that the reader has taken. */
  datatype Pipe = Pipe(wrote: Bytes, closed: bool, taken: nat, reader: Reader)

  datatype Main =
    | Opening
    | Refusing
    | Complaining
    | SendingFailure
    | Forwarding
    | ReportingInput
    | Waiting
    | Joining(output: Output, code: int)
    | SendingExit(code: int)
    | Gone

  /** `sent` is what the channel carried so far; once the client has hung up, sends fail. */
  datatype Shell = Shell(out: Pipe, err: Pipe, main: Main, sent: seq<Event>, listening: bool) {
    function At(output: Output): Pipe { if output.Stdout? then out else err }

    function With(output: Output, pipe: Pipe): Shell {
      if output.Stdout? then this.(out := pipe) else this.(err := pipe)
    }

    function Send(event: Event): Shell {
      if listening then this.(sent := sent + [event]) else this
    }
  }

  const START: Shell :=
    Shell(Pipe([], false, 0, NotStarted), Pipe([], false, 0, NotStarted), Opening, [], true)

  datatype Opened = Refused | SpawnFailed | Spawned

  datatype Move =
    | Open(outcome: Opened)
    | Tell(text: Bytes)
    | Write(output: Output, bytes: Bytes)
    | Close(output: Output)
    | Read(output: Output, count: nat)
    | ReadFails(output: Output)
    | Deliver(output: Output)
    | Stdin
    | StopInput(failed: bool)
    | Exited(code: int)
    | Joined
    | Report
    | HangUp

  const BUFFER: nat := 8192

  predicate Enabled(s: Shell, m: Move) {
    match m
    case Open(_) => s.main.Opening?
    case Tell(_) => s.main.Refusing? || s.main.Complaining? || s.main.ReportingInput?
    case Write(o, _) => !s.At(o).reader.NotStarted? && !s.At(o).closed
    case Close(o) => !s.At(o).reader.NotStarted? && !s.At(o).closed
    case Read(o, n) =>
      && s.At(o).reader.Reading? && s.At(o).taken + n <= |s.At(o).wrote| && n <= BUFFER
      && (n == 0 ==> s.At(o).closed && s.At(o).taken == |s.At(o).wrote|)
    case ReadFails(o) => s.At(o).reader.Reading?
    case Deliver(o) => s.At(o).reader.Sending?
    case Stdin => s.main.Forwarding?
    case StopInput(_) => s.main.Forwarding?
    case Exited(_) => s.main.Waiting?
    case Joined => s.main.Joining? && s.At(s.main.output).reader.Finished?
    case Report => s.main.SendingFailure? || s.main.SendingExit?
    case HangUp => true
  }

  function Next(s: Shell, m: Move): Shell
    requires Enabled(s, m)
  {
    match m
    case Open(outcome) =>
      (match outcome
       case Refused => s.(main := Refusing)
       case SpawnFailed => s.(main := Complaining)
       case Spawned => s.(main := Forwarding, out := s.out.(reader := Reading), err := s.err.(reader := Reading)))
    case Tell(text) =>
      (match s.main
       case Refusing => s.Send(StatusError).(main := Gone)
       case Complaining => s.Send(Message(text)).(main := SendingFailure)
       case _ => s.Send(Message(text)).(main := Waiting))
    case Write(o, bytes) => s.With(o, s.At(o).(wrote := s.At(o).wrote + bytes))
    case Close(o) => s.With(o, s.At(o).(closed := true))
    case Read(o, n) =>
      var p := s.At(o);
      if n == 0 then s.With(o, p.(reader := Finished(true)))
      else s.With(o, p.(taken := p.taken + n, reader := Sending(p.wrote[p.taken..p.taken + n])))
    case ReadFails(o) => s.With(o, s.At(o).(reader := Finished(false)))
    case Deliver(o) =>
      var after := if s.listening then Reading else Finished(false);
      s.Send(Payload(o, s.At(o).reader.chunk)).With(o, s.At(o).(reader := after))
    case Stdin => s
    case StopInput(failed) => s.(main := if failed then ReportingInput else Waiting)
    case Exited(code) => s.(main := Joining(Stdout, code))
    case Joined => s.(main := if s.main.output.Stdout? then Joining(Stderr, s.main.code) else SendingExit(s.main.code))
    case Report => s.Send(ExitCode(if s.main.SendingExit? then s.main.code else 1)).(main := Gone)
    case HangUp => s.(listening := false)
  }

  ghost predicate Runs(s: Shell, moves: seq<Move>, t: Shell)
    decreases |moves|
  {
    if moves == [] then t == s
    else Enabled(s, moves[0]) && Runs(Next(s, moves[0]), moves[1..], t)
  }

  /** The bytes an output's events carry, in order. */
  function Carried(events: seq<Event>, output: Output): Bytes {
    if events == [] then []
    else
      var e := events[|events| - 1];
      Carried(events[..|events| - 1], output) + (if e.Payload? && e.output == output then e.bytes else [])
  }

  // ---- What every run keeps ----

  function InFlight(reader: Reader): Bytes { if reader.Sending? then reader.chunk else [] }

  /** Nothing is lost, repeated or reordered between the child and the channel. A reader that gave
      up leaves a beginning of what was written; one that ended cleanly has sent everything. */
  ghost predicate Faithful(p: Pipe, carried: Bytes) {
    && p.taken <= |p.wrote|
    && (p.reader == Finished(false) || carried + InFlight(p.reader) == p.wrote[..p.taken])
    && carried <= p.wrote
    && (p.reader == Finished(true) ==> p.closed && p.taken == |p.wrote|)
    && (p.reader.NotStarted? ==> p.wrote == [])
  }

  /** There is no exit code before the end, and it is the last thing sent. */
  ghost predicate ExitLast(s: Shell) {
    && (forall i | 0 <= i < |s.sent| && (s.sent[i].ExitCode? || s.sent[i].StatusError?) ::
          i == |s.sent| - 1 && s.main.Gone?)
    && (s.main.SendingExit? || s.main.Gone? ==> Quiet(s.out) && Quiet(s.err))
    && (s.main.Joining? && s.main.output.Stderr? ==> Quiet(s.out))
    && (s.main.Opening? || s.main.Refusing? || s.main.Complaining? || s.main.SendingFailure? ==>
          s.out.reader.NotStarted? && s.err.reader.NotStarted?)
  }

  /** The output's reader will not send any more. */
  predicate Quiet(p: Pipe) { p.reader.NotStarted? || p.reader.Finished? }

  ghost predicate Sound(s: Shell) {
    Faithful(s.out, Carried(s.sent, Stdout)) && Faithful(s.err, Carried(s.sent, Stderr)) && ExitLast(s)
  }

  lemma CarriedMore(events: seq<Event>, e: Event, output: Output)
    ensures Carried(events + [e], output) ==
            Carried(events, output) + (if e.Payload? && e.output == output then e.bytes else [])
  {
    assert (events + [e])[..|events + [e]| - 1] == events;
  }

  lemma PipeKeeps(p: Pipe, carried: Bytes, bytes: Bytes, n: nat)
    requires Faithful(p, carried)
    ensures Faithful(p.(wrote := p.wrote + bytes), carried) || p.closed || p.reader.NotStarted?
    ensures Faithful(p.(closed := true), carried)
    ensures p.reader.Reading? ==> Faithful(p.(reader := Finished(false)), carried)
    ensures p.reader.Reading? && p.closed && p.taken == |p.wrote| ==> Faithful(p.(reader := Finished(true)), carried)
    ensures p.reader.Reading? && p.taken + n <= |p.wrote| ==>
              Faithful(p.(taken := p.taken + n, reader := Sending(p.wrote[p.taken..p.taken + n])), carried)
    ensures p.reader.Sending? ==>
              && Faithful(p.(reader := Reading), carried + p.reader.chunk)
              && Faithful(p.(reader := Finished(false)), carried)
  {
    if p.taken + n <= |p.wrote| {
      assert p.wrote[..p.taken + n] == p.wrote[..p.taken] + p.wrote[p.taken..p.taken + n];
    }
    assert (p.wrote + bytes)[..p.taken] == p.wrote[..p.taken];
  }

  /** What the main task sends carries no output. */
  lemma SendCarries(s: Shell, e: Event, output: Output)
    ensures Carried(s.Send(e).sent, output) ==
            Carried(s.sent, output) + (if s.listening && e.Payload? && e.output == output then e.bytes else [])
  {
    CarriedMore(s.sent, e, output);
  }

  lemma MainFaithful(s: Shell, m: Move, output: Output)
    requires Sound(s) && Enabled(s, m)
    requires !(m.Write? || m.Close? || m.Read? || m.ReadFails? || m.Deliver?)
    ensures Faithful(Next(s, m).At(output), Carried(Next(s, m).sent, output))
  {
    hide Carried;
    var carried := Carried(s.sent, output);
    assert carried + [] == carried;
    if m.Tell? {
      SendCarries(s, StatusError, output);
      SendCarries(s, Message(m.text), output);
    }
    if m.Report? { SendCarries(s, ExitCode(if s.main.SendingExit? then s.main.code else 1), output); }
  }

  lemma ReadFaithful(s: Shell, m: Move, output: Output)
    requires Faithful(s.At(output), Carried(s.sent, output)) && Enabled(s, m) && (m.Read? || m.ReadFails?)
    ensures Faithful(Next(s, m).At(output), Carried(Next(s, m).sent, output))
  {
    hide Carried;
    PipeKeeps(s.At(output), Carried(s.sent, output), [], if m.Read? then m.count else 0);
    hide Faithful;
  }

  lemma WriteFaithful(s: Shell, m: Move, output: Output)
    requires Faithful(s.At(output), Carried(s.sent, output)) && Enabled(s, m) && (m.Write? || m.Close?)
    ensures Faithful(Next(s, m).At(output), Carried(Next(s, m).sent, output))
  {
    hide Carried;
    PipeKeeps(s.At(output), Carried(s.sent, output), if m.Write? then m.bytes else [], 0);
    hide Faithful;
  }

  lemma DeliverFaithful(s: Shell, m: Move, output: Output)
    requires Sound(s) && Enabled(s, m) && m.Deliver?
    ensures Faithful(Next(s, m).At(output), Carried(Next(s, m).sent, output))
  {
    hide Carried, ExitLast;
    var carried := Carried(s.sent, output);
    assert carried + [] == carried;
    PipeKeeps(s.At(output), carried, [], 0);
    SendCarries(s, Payload(m.output, s.At(m.output).reader.chunk), output);
    hide Faithful;
  }

  lemma StepFaithful(s: Shell, m: Move, output: Output)
    requires Sound(s) && Enabled(s, m)
    ensures Faithful(Next(s, m).At(output), Carried(Next(s, m).sent, output))
  {
    hide Faithful, Carried, Enabled, Next, ExitLast;
    if m.Write? || m.Close? {
      WriteFaithful(s, m, output);
    } else if m.Read? || m.ReadFails? {
      ReadFaithful(s, m, output);
    } else if m.Deliver? {
      DeliverFaithful(s, m, output);
    } else {
      MainFaithful(s, m, output);
    }
  }

  lemma StepExitLast(s: Shell, m: Move)
    requires ExitLast(s) && Enabled(s, m)
    ensures ExitLast(Next(s, m))
  {
  }

  lemma {:induction false} RunsSound(s: Shell, moves: seq<Move>, t: Shell)
    requires Sound(s) && Runs(s, moves, t)
    ensures Sound(t)
    decreases |moves|
  {
    if moves != [] {
      hide Enabled, Next, Faithful, Carried, ExitLast;
      StepFaithful(s, moves[0], Stdout);
      StepFaithful(s, moves[0], Stderr);
      StepExitLast(s, moves[0]);
      RunsSound(Next(s, moves[0]), moves[1..], t);
    }
  }

  /** A reader that gave up did so because reading failed, unless the client hung up before an exit
      code was sent. */
  ghost predicate GaveUpFor(s: Shell, output: Output, failed: bool) {
    s.At(output).reader == Finished(false) ==> failed || (!s.listening && forall e <- s.sent :: !e.ExitCode?)
  }

  lemma StepGivesUp(s: Shell, m: Move, output: Output, failed: bool)
    requires ExitLast(s) && GaveUpFor(s, output, failed) && Enabled(s, m)
    ensures GaveUpFor(Next(s, m), output, failed || m == ReadFails(output))
  {
    var t := Next(s, m);
    if m == Deliver(output) && !s.listening {
      forall e <- s.sent ensures !e.ExitCode? {
        var i :| 0 <= i < |s.sent| && s.sent[i] == e;
      }
    }
  }

  lemma {:induction false} RunsGiveUp(s: Shell, moves: seq<Move>, t: Shell, output: Output, failed: bool)
    requires Sound(s) && GaveUpFor(s, output, failed) && Runs(s, moves, t)
    ensures GaveUpFor(t, output, failed || ReadFails(output) in moves)
    decreases |moves|
  {
    if moves != [] {
      hide Enabled, Next, GaveUpFor, Faithful, Carried, ExitLast;
      StepGivesUp(s, moves[0], output, failed);
      assert Runs(s, [moves[0]], Next(s, moves[0])) by { assert [moves[0]][1..] == []; }
      RunsSound(s, [moves[0]], Next(s, moves[0]));
      RunsGiveUp(Next(s, moves[0]), moves[1..], t, output, failed || moves[0] == ReadFails(output));
      assert moves == [moves[0]] + moves[1..];
    }
  }

  /** Every exit code, sent or about to be, is the child's own, or 1 for a child that could not be
      started. */
  ghost predicate Reasoned(s: Shell, done: seq<Move>) {
    && (s.main.Joining? || s.main.SendingExit? ==> Exited(s.main.code) in done)
    && (s.main.Complaining? || s.main.SendingFailure? ==> Open(SpawnFailed) in done)
    && forall e <- s.sent :: e.ExitCode? ==> Exited(e.code) in done || (e.code == 1 && Open(SpawnFailed) in done)
  }

  lemma StepReasoned(s: Shell, m: Move, done: seq<Move>)
    requires Reasoned(s, done) && Enabled(s, m)
    ensures Reasoned(Next(s, m), done + [m])
  {
    assert forall d <- done :: d in done + [m];
    assert (done + [m])[|done|] == m;
    var t := Next(s, m);
    forall e <- t.sent | e.ExitCode?
      ensures Exited(e.code) in done + [m] || (e.code == 1 && Open(SpawnFailed) in done + [m])
    {
      if e !in s.sent { assert m.Report?; }
    }
  }

  lemma {:induction false} RunsReasoned(s: Shell, done: seq<Move>, moves: seq<Move>, t: Shell)
    requires Reasoned(s, done) && Runs(s, moves, t)
    ensures Reasoned(t, done + moves)
    decreases |moves|
  {
    if moves == [] {
      assert done + moves == done;
    } else {
      StepReasoned(s, moves[0], done);
      hide Reasoned, Enabled, Next;
      RunsReasoned(Next(s, moves[0]), done + [moves[0]], moves[1..], t);
      assert done + [moves[0]] + moves[1..] == done + moves;
    }
  }

  // ---- The client ----

  datatype Ended = ShellExited(code: int) | StreamFailed

  /** What the client prints for an event. */
  function ErrorText(events: seq<Event>): Bytes {
    if events == [] then []
    else
      var e := events[|events| - 1];
      ErrorText(events[..|events| - 1]) +
      (if e.Payload? && e.output.Stderr? then e.bytes else if e.Message? then e.text + [0x0A] else [])
  }

  lemma {:induction false} ErrorTextIsStderr(events: seq<Event>)
    requires forall e <- events :: !e.Message?
    ensures ErrorText(events) == Carried(events, Stderr)
  {
    if events != [] { ErrorTextIsStderr(events[..|events| - 1]); }
  }

  /** The first exit code or error of a stream. */
  ghost predicate EndsAt(events: seq<Event>, i: nat) {
    && i < |events| && (events[i].ExitCode? || events[i].StatusError?)
    && forall j | 0 <= j < i :: !events[j].ExitCode? && !events[j].StatusError?
  }

  /** The loop of `open_shell_via_agent_stream` prints what comes before the first exit code; it
      fails exactly if there is none, or an error before it. */
  method Attach(events: seq<Event>) returns (r: Ended, stdout: Bytes, stderr: Bytes)
    ensures r.ShellExited? <==> exists i: nat :: EndsAt(events, i) && events[i].ExitCode?
    ensures forall i: nat | EndsAt(events, i) && events[i].ExitCode? ::
              && r == ShellExited(events[i].code)
              && stdout == Carried(events[..i], Stdout) && stderr == ErrorText(events[..i])
  {
    stdout, stderr := [], [];
    var i := 0;
    while i < |events|
      invariant 0 <= i <= |events|
      invariant forall j | 0 <= j < i :: !events[j].ExitCode? && !events[j].StatusError?
      invariant stdout == Carried(events[..i], Stdout) && stderr == ErrorText(events[..i])
    {
      assert events[..i + 1][..i] == events[..i];
      assert events[i].ExitCode? || events[i].StatusError? ==> EndsAt(events, i);
      match events[i] {
        case Payload(output, bytes) =>
          if output.Stdout? { stdout := stdout + bytes; } else { stderr := stderr + bytes; }
        case Message(text) => stderr := stderr + (text + [0x0A]);
        case ExitCode(code) => return ShellExited(code), stdout, stderr;
        case StatusError => return StreamFailed, stdout, stderr;
      }
      i := i + 1;
    }
    r := StreamFailed;
  }

  /** In every interleaving: the stream carries what each reader took, in order; an exit code comes
      once and last, and is the one with which the child exited, or 1 if it could not be started; and a
      client that stops there has printed everything the child wrote to an output, unless reading that
      output failed in between. */
  lemma ShellDelivers(moves: seq<Move>, t: Shell)
    requires Runs(START, moves, t)
    ensures Carried(t.sent, Stdout) <= t.out.wrote && Carried(t.sent, Stderr) <= t.err.wrote
    ensures forall i: nat | i < |t.sent| && t.sent[i].ExitCode? :: i == |t.sent| - 1 && EndsAt(t.sent, i)
    ensures forall e <- t.sent ::
              e.ExitCode? ==> Exited(e.code) in moves || (e.code == 1 && Open(SpawnFailed) in moves)
    ensures forall i: nat | EndsAt(t.sent, i) && t.sent[i].ExitCode? ::
              && (ReadFails(Stdout) !in moves ==> Carried(t.sent[..i], Stdout) == t.out.wrote)
              && (ReadFails(Stderr) !in moves ==> Carried(t.sent[..i], Stderr) == t.err.wrote)
  {
    StartSound();
    hide Runs, Sound, Carried;
    RunsSound(START, moves, t);
    RunsGiveUp(START, moves, t, Stdout, false);
    RunsGiveUp(START, moves, t, Stderr, false);
    RunsReasoned(START, [], moves, t);
    assert [] + moves == moves;
    CarriedWritten(t);
    forall i: nat | i < |t.sent| && t.sent[i].ExitCode?
      ensures i == |t.sent| - 1 && EndsAt(t.sent, i)
      ensures ReadFails(Stdout) !in moves ==> Carried(t.sent[..i], Stdout) == t.out.wrote
      ensures ReadFails(Stderr) !in moves ==> Carried(t.sent[..i], Stderr) == t.err.wrote
    {
      ExitComplete(t, i, Stdout);
      ExitComplete(t, i, Stderr);
    }
  }

  lemma StartSound()
    ensures Sound(START)
  {
  }

  lemma CarriedWritten(s: Shell)
    requires Sound(s)
    ensures Carried(s.sent, Stdout) <= s.out.wrote && Carried(s.sent, Stderr) <= s.err.wrote
  {
    hide Carried;
  }

  /** An exit code is the last event, and before it came all that was written to an output whose
      reader did not give up. */
  lemma ExitComplete(s: Shell, i: nat, output: Output)
    requires Sound(s) && i < |s.sent| && s.sent[i].ExitCode?
    ensures i == |s.sent| - 1 && EndsAt(s.sent, i)
    ensures s.At(output).reader != Finished(false) ==> Carried(s.sent[..i], output) == s.At(output).wrote
  {
    hide Carried;
    assert i == |s.sent| - 1;
    assert s.sent == s.sent[..i] + [s.sent[i]];
    CarriedMore(s.sent[..i], s.sent[i], output);
    var wrote := s.At(output).wrote;
    assert wrote[..|wrote|] == wrote;
  }
}
