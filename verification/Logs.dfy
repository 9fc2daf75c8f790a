/** Reading the growing log files of a managed process: `read_process_log` on the server and the
    loops on the client. Sizes, probes and reads are separate steps between which the process may
    write, end, and be seen to have ended. */
module Logs {
  import opened Types
  import opened Utf8

  datatype Stream = Stdout | Stderr

  /** What is true of a process at one moment. */
  datatype Moment = Moment(stdoutLog: Bytes, stderrLog: Bytes, terminal: bool, lifetime: nat) {
    function Log(stream: Stream): Bytes { if stream.Stdout? then stdoutLog else stderrLog }
  }

  /** `t` may come later than `s`: logs are only appended to, and only while there is life left. */
  ghost predicate Follows(s: Moment, t: Moment) {
    && s.stdoutLog <= t.stdoutLog && s.stderrLog <= t.stderrLog
    && t.lifetime <= s.lifetime
    && (t.lifetime == s.lifetime ==> t.stdoutLog == s.stdoutLog && t.stderrLog == s.stderrLog)
    && (s.terminal ==> t.terminal)
  }

  lemma FollowsTransitive(s: Moment, t: Moment, u: Moment)
    requires Follows(s, t) && Follows(t, u)
    ensures Follows(s, u)
  {
    assert forall i | 0 <= i < |s.stdoutLog| :: s.stdoutLog[i] == t.stdoutLog[i] == u.stdoutLog[i];
    assert forall i | 0 <= i < |s.stderrLog| :: s.stderrLog[i] == t.stderrLog[i] == u.stderrLog[i];
  }

  /** The process inside its sandbox. `lifetime` bounds how often anything still happens to it, so
      a process writes and ends in finite time, but nothing says when. When it is `clean`, nothing
      is written any more once its end has been recorded. */
  class Guest {
    var stdoutLog: Bytes
    var stderrLog: Bytes
    var terminal: bool
    var lifetime: nat
    const clean: bool

    ghost function S(): Moment
      reads this
    {
      Moment(stdoutLog, stderrLog, terminal, lifetime)
    }

    ghost predicate Valid()
      reads this
    {
      clean && terminal ==> lifetime == 0
    }

    constructor (clean: bool, lifetime: nat)
      ensures Valid() && S() == Moment([], [], false, lifetime) && this.clean == clean
    {
      stdoutLog, stderrLog, terminal, this.clean, this.lifetime := [], [], false, clean, lifetime;
    }

    /** Some time goes by; while one sleeps, something happens if anything still can. */
    method Pass(asleep: bool)
      requires Valid()
      modifies this`stdoutLog, this`stderrLog, this`lifetime
      ensures Valid() && Follows(old(S()), S()) && terminal == old(terminal)
      ensures asleep && old(lifetime) > 0 ==> lifetime < old(lifetime)
    {
      var happens := *;
      if lifetime > 0 && (asleep || happens) {
        var out: Bytes, err: Bytes := *, *;
        stdoutLog, stderrLog, lifetime := stdoutLog + out, stderrLog + err, lifetime - 1;
      }
    }

    /** `refresh_process`: once nothing can happen any more, the probe reports the end. */
    method Refresh() returns (r: Result<bool>)
      requires Valid()
      modifies this
      ensures Valid() && Follows(old(S()), S())
      ensures r.Ok? ==> r.value == terminal && (!terminal ==> lifetime > 0)
    {
      Pass(false);
      var fails, ended := *, *;
      if fails { return Err(Fault); }
      if !terminal && (ended || lifetime == 0) {
        terminal := true;
        if clean { lifetime := 0; }
      }
      r := Ok(terminal);
    }

    /** `read_log_size` */
    method ReadLogSize(stream: Stream) returns (r: Result<nat>)
      requires Valid()
      modifies this`stdoutLog, this`stderrLog, this`lifetime
      ensures Valid() && Follows(old(S()), S()) && terminal == old(terminal)
      ensures r.Ok? ==> r.value == |S().Log(stream)|
    {
      Pass(false);
      var fails := *;
      r := if fails then Err(Fault) else Ok(|if stream.Stdout? then stdoutLog else stderrLog|);
    }

    /** `tail -c +{offset + 1} | head -c {limit}`; the output reaches the server as text. */
    method ReadLogBytes(stream: Stream, offset: nat, limit: nat) returns (r: Result<Bytes>, ghost slice: Bytes)
      requires Valid()
      modifies this`stdoutLog, this`stderrLog, this`lifetime
      ensures Valid() && Follows(old(S()), S()) && terminal == old(terminal)
      ensures slice == Slice(S().Log(stream), offset, limit)
      ensures r.Ok? ==> r.value == Lossy(slice)
    {
      Pass(false);
      var fails := *;
      var log := if stream.Stdout? then stdoutLog else stderrLog;
      slice := Slice(log, offset, limit);
      r := if fails then Err(Fault) else Ok(Lossy(Slice(log, offset, limit)));
    }
  }

  function Slice(log: Bytes, offset: nat, limit: nat): Bytes {
    if offset >= |log| then []
    else log[offset..if offset + limit <= |log| then offset + limit else |log|]
  }

  // ---- One read ----

  datatype LogRead = LogRead(offset: nat, nextOffset: nat, eof: bool, contents: Bytes)

  /** `slice` is what the read took from the log. */
  ghost predicate ReadsSlice(r: LogRead, offset: nat, limit: nat, slice: Bytes, log: Bytes) {
    && r.offset == offset && r.contents == Lossy(slice) && r.nextOffset == offset + |r.contents|
    && |slice| <= (if limit > 1 then limit else 1)
    && (slice != [] ==> slice == Slice(log, offset, if limit > 1 then limit else 1))
  }

  lemma SliceIs(log: Bytes, offset: nat, limit: nat)
    ensures var slice := Slice(log, offset, limit);
            slice != [] ==> offset + |slice| <= |log| && slice == log[offset..offset + |slice|]
    ensures offset < |log| && limit > 0 ==> Slice(log, offset, limit) != []
  {
  }

  /** The end of a read: take a chunk from a log that held `total` bytes when last measured. */
  method ReadChunk(guest: Guest, stream: Stream, offset: nat, limit: nat, total: nat)
    returns (r: Result<LogRead>, ghost slice: Bytes)
    requires guest.Valid() && offset < total <= |guest.S().Log(stream)|
    modifies guest`stdoutLog, guest`stderrLog, guest`lifetime
    ensures guest.Valid() && Follows(old(guest.S()), guest.S())
    ensures r.Ok? ==> ReadsSlice(r.value, offset, limit, slice, guest.S().Log(stream))
    ensures r.Ok? ==> r.value.contents != [] && (r.value.eof ==> r.value.nextOffset >= total)
  {
    hide Lossy;
    var chunkLimit := if limit > 1 then limit else 1;
    var contents;
    contents, slice := guest.ReadLogBytes(stream, offset, chunkLimit);
    LogGrows(old(guest.S()), guest.S(), stream);
    LossyLength(slice);
    if contents.Err? { return Err(contents.error), slice; }
    var next := offset + |contents.value|;
    r := Ok(LogRead(offset, next, next >= total, contents.value));
  }

  /** Whatever happens between its steps, a read returns a slice of the log starting at `offset`.
      At the end of the file it passes everything that was there before the call; when it comes
      back empty-handed without the end, it has waited. */
  method ReadProcessLog(guest: Guest, stream: Stream, offset: nat, limit: nat)
    returns (r: Result<LogRead>, ghost slice: Bytes)
    requires guest.Valid()
    modifies guest
    ensures guest.Valid() && Follows(old(guest.S()), guest.S())
    ensures r.Ok? ==> ReadsSlice(r.value, offset, limit, slice, guest.S().Log(stream))
    ensures r.Ok? && (r.value.eof || r.value.contents == []) ==> r.value.nextOffset >= |old(guest.S()).Log(stream)|
    ensures r.Ok? && r.value.contents == [] && r.value.eof ==> guest.terminal
    ensures r.Ok? && r.value.contents == [] && !r.value.eof ==>
              !old(guest.terminal) && guest.lifetime < old(guest.lifetime)
  {
    hide Follows, Lossy, Slice;
    slice := [];
    ghost var s0 := guest.S();
    var total := guest.ReadLogSize(stream);
    LogGrows(s0, guest.S(), stream);
    ghost var s1 := guest.S();
    if total.Err? { return Err(total.error), slice; }
    if offset < total.value {
      r, slice := ReadChunk(guest, stream, offset, limit, total.value);
      FollowsTransitive(s0, s1, guest.S());
      return;
    }
    var refreshed := guest.Refresh();
    FollowsTransitive(s0, s1, guest.S());
    ghost var s2 := guest.S();
    if refreshed.Err? { return Err(refreshed.error), slice; }
    NothingRead(offset, limit, guest.S().Log(stream), refreshed.value);
    if !refreshed.value {
      var retried;
      retried := Retry(guest, stream);
      FollowsTransitive(s0, s2, guest.S());
      LogGrows(s0, guest.S(), stream);
      LifetimeShrinks(s0, s2);
      ghost var s3 := guest.S();
      if retried.Err? { return Err(retried.error), slice; }
      NothingRead(offset, limit, guest.S().Log(stream), refreshed.value);
      if retried.value > offset {
        r, slice := ReadChunk(guest, stream, offset, limit, retried.value);
        FollowsTransitive(s0, s3, guest.S());
        return;
      }
    }
    r := Ok(LogRead(offset, offset, refreshed.value, []));
  }

  /** Wait a little and measure the log again. */
  method Retry(guest: Guest, stream: Stream) returns (r: Result<nat>)
    requires guest.Valid()
    modifies guest`stdoutLog, guest`stderrLog, guest`lifetime
    ensures guest.Valid() && Follows(old(guest.S()), guest.S()) && guest.terminal == old(guest.terminal)
    ensures r.Ok? ==> r.value == |guest.S().Log(stream)|
    ensures old(guest.lifetime) > 0 ==> guest.lifetime < old(guest.lifetime)
  {
    guest.Pass(true);
    ghost var slept := guest.S();
    r := guest.ReadLogSize(stream);
    FollowsTransitive(old(guest.S()), slept, guest.S());
  }

  lemma NothingRead(offset: nat, limit: nat, log: Bytes, eof: bool)
    ensures ReadsSlice(LogRead(offset, offset, eof, []), offset, limit, [], log)
  {
  }

  lemma LogGrows(s: Moment, t: Moment, stream: Stream)
    requires Follows(s, t)
    ensures s.Log(stream) <= t.Log(stream)
  {
  }

  lemma LifetimeShrinks(s: Moment, t: Moment)
    requires Follows(s, t)
    ensures t.lifetime <= s.lifetime
  {
  }

  /** The bytes stand in the log at the offset. */
  predicate Begins(bytes: Bytes, log: Bytes, offset: nat) { offset <= |log| && bytes <= log[offset..] }

  /** A chunk is the slice of the log it was read from exactly if the slice is valid UTF-8, and then
      `next_offset` is the end of the slice. It is the part of the log from `offset` up to `next_offset`
      exactly if the slice is valid or cut inside a U+FFFD of the log; and `next_offset` is the end of
      the slice exactly if the damage fits. */
  lemma ChunkExactly(r: LogRead, offset: nat, limit: nat, slice: Bytes, log: Bytes)
    requires ReadsSlice(r, offset, limit, slice, log) && offset <= |log|
    ensures offset + |slice| <= |log|
    ensures ValidUtf8(slice) <==> r.contents == log[offset..offset + |slice|]
    ensures ValidUtf8(slice) || CutMark(slice, log[offset + |slice|..]) <==>
            r.nextOffset <= |log| && r.contents == log[offset..r.nextOffset]
    ensures DamageFits(slice) <==> r.nextOffset == offset + |slice|
  {
    hide ValidUtf8, CutMark, Lossy, DamageFits;
    SliceIs(log, offset, if limit > 1 then limit else 1);
    LossyExact(slice);
    LossyLength(slice);
    SlicePrefix(log, offset, slice);
    PrefixOfRest(r.contents, log, offset);
  }

  lemma SlicePrefix(log: Bytes, offset: nat, slice: Bytes)
    requires offset + |slice| <= |log| && slice == log[offset..offset + |slice|]
    ensures Begins(Lossy(slice), log, offset) <==> ValidUtf8(slice) || CutMark(slice, log[offset + |slice|..])
  {
    hide ValidUtf8, CutMark, Lossy;
    assert slice + log[offset + |slice|..] == log[offset..];
    LossyPrefix(slice, log[offset + |slice|..]);
  }

  lemma PrefixOfRest(contents: Bytes, log: Bytes, offset: nat)
    requires offset <= |log|
    ensures Begins(contents, log, offset) <==>
            offset + |contents| <= |log| && contents == log[offset..offset + |contents|]
  {
  }

  lemma JoinedIs(a: Bytes, b: Bytes, log: Bytes, offset: nat)
    requires offset <= |log|
    ensures a + b == log[offset..] <==>
            Begins(a, log, offset) && offset + |a| <= |log| && b == log[offset + |a|..]
    ensures Begins(a, log, offset) ==> offset + |a| <= |log|
  {
    if a + b == log[offset..] {
      assert a == (a + b)[..|a|] && b == (a + b)[|a|..];
    }
  }

  /** So a read that ends inside a character goes wrong: for a log of valid UTF-8 the chunk differs
      from the log, and the next offset lies beyond the end. */
  lemma SplitCharacterSkipped(text: Bytes)
    requires Ascii(text)
    ensures var log := text + [0xC3, 0xA9];
            var slice := Slice(log, 0, |text| + 1);
            ValidUtf8(log) && Lossy(slice) == text + REPLACEMENT && |Lossy(slice)| > |log|
  {
    AsciiThen(text, [0xC3, 0xA9]);
    AsciiThen(text, [0xC3]);
    assert Slice(text + [0xC3, 0xA9], 0, |text| + 1) == text + [0xC3];
    assert [0xC3 as Byte][1..] == [] && [0xC3 as Byte, 0xA9][2..] == [];
    assert Lossy([0xC3]) == REPLACEMENT + [];
  }

  lemma {:induction false} AsciiThen(text: Bytes, rest: Bytes)
    requires Ascii(text)
    ensures Lossy(text + rest) == text + Lossy(rest)
    ensures ValidUtf8(text + rest) <==> ValidUtf8(rest)
  {
    if text == [] {
      assert text + rest == rest;
    } else {
      var s := text + rest;
      assert s[0] == text[0] && s[1..] == text[1..] + rest;
      assert HeadOf(s) == Head(1, true);
      assert s[..1] == [text[0]];
      hide HeadOf;
      assert Lossy(s) == [text[0]] + Lossy(text[1..] + rest);
      hide Lossy, ValidUtf8;
      AsciiThen(text[1..], rest);
      assert text + Lossy(rest) == [text[0]] + (text[1..] + Lossy(rest));
    }
  }

  // ---- The client's loops ----

  const CHUNK: nat := 8192

  /** What reading a log that no longer changes gives from `offset` on, chunk by chunk. */
  function ReadFrom(log: Bytes, offset: nat): Bytes
    decreases if offset < |log| then |log| - offset else 0
  {
    if offset >= |log| then []
    else
      var chunk := Lossy(Slice(log, offset, CHUNK));
      LossyLength(Slice(log, offset, CHUNK));
      chunk + ReadFrom(log, offset + |chunk|)
  }

  /** Every chunk of the log is valid UTF-8, or cut inside a U+FFFD. */
  predicate Readable(log: Bytes, offset: nat)
    decreases if offset < |log| then |log| - offset else 0
  {
    offset >= |log| ||
    var slice := Slice(log, offset, CHUNK);
    LossyLength(slice);
    && (ValidUtf8(slice) || CutMark(slice, log[offset + |slice|..]))
    && Readable(log, offset + |Lossy(slice)|)
  }

  /** What one chunk contributes. */
  lemma ReadStep(log: Bytes, offset: nat)
    requires offset < |log|
    ensures var slice := Slice(log, offset, CHUNK);
            var next := offset + |Lossy(slice)|;
            && next > offset && ReadFrom(log, offset) == Lossy(slice) + ReadFrom(log, next)
            && (Readable(log, offset) <==> Begins(Lossy(slice), log, offset) && Readable(log, next))
  {
    hide Readable, ReadFrom, Lossy, ValidUtf8, CutMark, DamageFits, Slice, Begins;
    SliceIs(log, offset, CHUNK);
    LossyLength(Slice(log, offset, CHUNK));
    ReadFromStep(log, offset);
    ReadableStep(log, offset);
    SlicePrefix(log, offset, Slice(log, offset, CHUNK));
  }

  lemma ReadFromStep(log: Bytes, offset: nat)
    requires offset < |log|
    ensures var chunk := Lossy(Slice(log, offset, CHUNK));
            ReadFrom(log, offset) == chunk + ReadFrom(log, offset + |chunk|)
  {
    hide Readable, Lossy, ValidUtf8, CutMark, DamageFits, Slice;
  }

  lemma ReadableStep(log: Bytes, offset: nat)
    requires offset < |log| && offset + |Slice(log, offset, CHUNK)| <= |log|
    ensures var slice := Slice(log, offset, CHUNK);
            Readable(log, offset) <==>
            (ValidUtf8(slice) || CutMark(slice, log[offset + |slice|..])) && Readable(log, offset + |Lossy(slice)|)
  {
    hide ReadFrom, Lossy, ValidUtf8, CutMark, DamageFits, Slice;
  }

  lemma ReadEnd(log: Bytes, offset: nat)
    ensures offset >= |log| ==> ReadFrom(log, offset) == [] && Readable(log, offset)
  {
  }

  /** Reading gives the log exactly if it is readable. */
  lemma {:induction false} ReadFromExact(log: Bytes, offset: nat)
    requires offset <= |log|
    ensures ReadFrom(log, offset) == log[offset..] <==> Readable(log, offset)
    decreases |log| - offset
  {
    ReadEnd(log, offset);
    hide Lossy, Slice, ReadFrom, Readable, Begins;
    if offset < |log| {
      ReadStep(log, offset);
      var chunk := Lossy(Slice(log, offset, CHUNK));
      var next := offset + |chunk|;
      JoinedIs(chunk, ReadFrom(log, next), log, offset);
      if next <= |log| { ReadFromExact(log, next); }
    }
  }

  /** A log whose pieces of 8192 bytes are all valid UTF-8 is readable. */
  lemma {:induction false} PiecesReadable(log: Bytes, k: nat)
    requires forall j: nat :: ValidUtf8(Slice(log, j * CHUNK, CHUNK))
    ensures Readable(log, k * CHUNK)
    decreases if k * CHUNK < |log| then |log| - k * CHUNK else 0
  {
    if k * CHUNK < |log| {
      var slice := Slice(log, k * CHUNK, CHUNK);
      LossyExact(slice);
      PiecesReadable(log, k + 1);
      if |slice| < CHUNK { assert k * CHUNK + |slice| == |log|; }
    }
  }

  /** `contents` is what a client has after reading up to `offset`; `intact` says that it never
      received a chunk that was cut inside a character or not UTF-8 at all, and `quiet` that the log
      did not change meanwhile. */
  ghost predicate Received(contents: Bytes, offset: nat, log: Bytes, intact: bool, quiet: bool) {
    && (intact ==> offset <= |log| && contents == log[..offset])
    && (!intact ==> !Ascii(log))
    && (quiet ==> contents + ReadFrom(log, offset) == ReadFrom(log, 0))
  }

  lemma ReceivedGrows(contents: Bytes, offset: nat, log: Bytes, later: Bytes, intact: bool, quiet: bool)
    requires Received(contents, offset, log, intact, quiet) && log <= later && (quiet ==> later == log)
    ensures Received(contents, offset, later, intact, quiet)
  {
    assert forall i | 0 <= i < |log| :: log[i] == later[i];
  }

  lemma ReceivedNext(contents: Bytes, offset: nat, log: Bytes, intact: bool, quiet: bool,
                     r: LogRead, slice: Bytes)
    requires Received(contents, offset, log, intact, quiet) && ReadsSlice(r, offset, CHUNK, slice, log)
    ensures Received(contents + r.contents, r.nextOffset, log, intact && ValidUtf8(slice), quiet)
    ensures r.contents != [] ==> offset < |log|
  {
    hide ValidUtf8, Lossy, ReadFrom, Slice;
    LossyLength(slice);
    LossyEmpty();
    if slice == [] {
      assert contents + r.contents == contents;
    } else {
      SliceStarts(log, offset);
      SliceIs(log, offset, CHUNK);
      ReadStep(log, offset);
      var rest := ReadFrom(log, r.nextOffset);
      assert contents + r.contents + rest == contents + (r.contents + rest);
      IntactNext(contents, offset, log, slice, intact);
    }
  }

  lemma SliceStarts(log: Bytes, offset: nat)
    ensures Slice(log, offset, CHUNK) != [] ==> offset < |log|
  {
  }

  lemma IntactNext(contents: Bytes, offset: nat, log: Bytes, slice: Bytes, intact: bool)
    requires intact ==> offset <= |log| && contents == log[..offset]
    requires !intact ==> !Ascii(log)
    requires offset + |slice| <= |log| && slice == log[offset..offset + |slice|]
    ensures intact && ValidUtf8(slice) ==> Lossy(slice) == slice && contents + slice == log[..offset + |slice|]
    ensures !(intact && ValidUtf8(slice)) ==> !Ascii(log)
  {
    hide ValidUtf8, Lossy;
    LossyExact(slice);
    assert Ascii(log) ==> Ascii(slice);
    if Ascii(slice) { AsciiValid(slice); }
    assert log[..offset] + slice == log[..offset + |slice|];
  }

  lemma LossyEmpty()
    ensures Lossy([]) == [] && ValidUtf8([])
  {
  }

  function Remaining(log: Bytes, offset: nat): nat {
    if offset < |log| then |log| - offset else 0
  }

  /** `read_process_log_all`: however the log grows meanwhile, the result is a beginning of the log
      that holds at least what was there before the call. After a clean end it is the whole log exactly
      if the log is readable. It terminates by lifetime, then by size minus offset. */
  method ReadProcessLogAll(guest: Guest, stream: Stream) returns (r: Result<Bytes>, ghost intact: bool)
    requires guest.Valid()
    modifies guest
    ensures guest.Valid() && Follows(old(guest.S()), guest.S())
    ensures r.Ok? && intact ==> old(guest.S()).Log(stream) <= r.value <= guest.S().Log(stream)
    ensures r.Ok? && guest.clean && old(guest.terminal) ==>
              var log := old(guest.S()).Log(stream);
              guest.S().Log(stream) == log && r.value == ReadFrom(log, 0) && (r.value == log <==> Readable(log, 0))
    ensures r.Ok? && Ascii(guest.S().Log(stream)) ==> intact
  {
    hide Follows, ReadsSlice, Received;
    ghost var start := guest.S();
    ghost var quiet := guest.lifetime == 0;
    var offset, contents: Bytes := 0, [];
    intact := true;
    NothingReceived(start, stream, quiet);
    while true
      invariant guest.Valid() && Follows(start, guest.S())
      invariant Received(contents, offset, guest.S().Log(stream), intact, quiet)
      invariant quiet ==> guest.S().Log(stream) == start.Log(stream)
      decreases guest.lifetime, Remaining(guest.S().Log(stream), offset)
    {
      ghost var before := guest.S();
      var chunk;
      ghost var slice;
      chunk, slice := ReadProcessLog(guest, stream, offset, CHUNK);
      FollowsTransitive(start, before, guest.S());
      LogGrows(before, guest.S(), stream);
      LogGrows(start, before, stream);
      LifetimeShrinks(start, before);
      QuietKeepsLogs(before, guest.S());
      ReceivedGrows(contents, offset, before.Log(stream), guest.S().Log(stream), intact, quiet);
      if chunk.Err? { return Err(chunk.error), intact; }
      ReceivedNext(contents, offset, guest.S().Log(stream), intact, quiet, chunk.value, slice);
      ChunkAdvances(before, guest.S(), stream, chunk.value, offset, slice);
      intact := intact && ValidUtf8(slice);
      if chunk.value.contents != [] {
        offset := chunk.value.nextOffset;
        contents := contents + chunk.value.contents;
      } else {
        assert contents + chunk.value.contents == contents;
      }
      if chunk.value.eof {
        ReceivedMeans(contents, offset, guest.S().Log(stream), intact, quiet);
        ReceivedAll(contents, offset, start.Log(stream), guest.S().Log(stream), intact, quiet);
        return Ok(contents), intact;
      }
    }
  }

  lemma NothingReceived(s: Moment, stream: Stream, quiet: bool)
    ensures Received([], 0, s.Log(stream), true, quiet) && Follows(s, s)
  {
    assert [] + ReadFrom(s.Log(stream), 0) == ReadFrom(s.Log(stream), 0);
  }

  lemma ReceivedMeans(contents: Bytes, offset: nat, log: Bytes, intact: bool, quiet: bool)
    requires Received(contents, offset, log, intact, quiet)
    ensures Ascii(log) ==> intact
    ensures intact ==> contents <= log && |contents| == offset
  {
  }

  lemma ReceivedAll(contents: Bytes, offset: nat, before: Bytes, log: Bytes, intact: bool, quiet: bool)
    requires Received(contents, offset, log, intact, quiet) && before <= log && offset >= |before|
    ensures intact ==> before <= contents
    ensures quiet && log == before ==> contents == ReadFrom(log, 0) && (contents == log <==> Readable(log, 0))
  {
    if quiet && log == before {
      assert contents + [] == contents && log[0..] == log;
      ReadFromExact(log, 0);
    }
  }

  lemma ChunkAdvances(s: Moment, t: Moment, stream: Stream, r: LogRead, offset: nat, slice: Bytes)
    requires Follows(s, t) && ReadsSlice(r, offset, CHUNK, slice, t.Log(stream))
    ensures r.nextOffset == offset + |r.contents|
    ensures t.lifetime < s.lifetime || (t.lifetime == s.lifetime && t.Log(stream) == s.Log(stream))
    ensures r.contents != [] ==> Remaining(t.Log(stream), r.nextOffset) < Remaining(t.Log(stream), offset)
  {
    LossyLength(slice);
    if slice == [] { LossyEmpty(); }
  }

  /** What follows once the process has ended and its log is to be read to the end. */
  method DrainLog(guest: Guest, stream: Stream, from: nat, got: Bytes, ghost whole: bool,
                  ghost quiet: bool)
    returns (r: Result<Bytes>, ghost intact: bool, ghost offset: nat)
    requires guest.Valid() && guest.terminal
    requires Received(got, from, guest.S().Log(stream), whole, quiet) && (quiet ==> guest.lifetime == 0)
    modifies guest
    ensures guest.Valid() && guest.terminal && Follows(old(guest.S()), guest.S())
    ensures r.Ok? ==> Received(r.value, offset, guest.S().Log(stream), intact, quiet)
    ensures r.Ok? ==> offset >= |old(guest.S()).Log(stream)|
  {
    hide Follows, ReadsSlice, Received;
    ghost var start := guest.S();
    var at, contents := from, got;
    intact := whole;
    NothingReceived(start, stream, quiet);
    while true
      invariant guest.Valid() && guest.terminal && Follows(start, guest.S())
      invariant Received(contents, at, guest.S().Log(stream), intact, quiet) && (quiet ==> guest.lifetime == 0)
      decreases guest.lifetime, Remaining(guest.S().Log(stream), at)
    {
      ghost var before := guest.S();
      var chunk;
      ghost var slice;
      chunk, slice := ReadProcessLog(guest, stream, at, CHUNK);
      StaysTerminal(before, guest.S());
      FollowsTransitive(start, before, guest.S());
      LogGrows(before, guest.S(), stream);
      LogGrows(start, before, stream);
      QuietKeepsLogs(before, guest.S());
      ReceivedGrows(contents, at, before.Log(stream), guest.S().Log(stream), intact, quiet);
      if chunk.Err? { return Err(chunk.error), intact, at; }
      ReceivedNext(contents, at, guest.S().Log(stream), intact, quiet, chunk.value, slice);
      ChunkAdvances(before, guest.S(), stream, chunk.value, at, slice);
      intact := intact && ValidUtf8(slice);
      if chunk.value.contents == [] {
        assert contents + chunk.value.contents == contents;
        return Ok(contents), intact, at;
      }
      at := chunk.value.nextOffset;
      contents := contents + chunk.value.contents;
      if chunk.value.eof { return Ok(contents), intact, at; }
    }
  }

  lemma StaysTerminal(s: Moment, t: Moment)
    requires Follows(s, t)
    ensures s.terminal ==> t.terminal
  {
  }

  lemma QuietKeepsLogs(s: Moment, t: Moment)
    requires Follows(s, t)
    ensures s.lifetime == 0 ==> t.lifetime == 0 && t.stdoutLog == s.stdoutLog && t.stderrLog == s.stderrLog
  {
  }

  datatype ProcessLogs = ProcessLogs(stdout: Bytes, stderr: Bytes)

  /** `stream_process_logs`: both results are beginnings of their logs. With `stopOnExit` each holds
      at least what was there before the call, and is the whole log if nothing is written after
      the end; if it had ended before the call, exactly if the log is readable. */
  method StreamProcessLogs(guest: Guest, stopOnExit: bool) returns (r: Result<ProcessLogs>, ghost intact: bool)
    requires guest.Valid()
    modifies guest
    ensures guest.Valid() && Follows(old(guest.S()), guest.S())
    ensures r.Ok? ==> guest.terminal
    ensures r.Ok? && intact ==> r.value.stdout <= guest.stdoutLog && r.value.stderr <= guest.stderrLog
    ensures r.Ok? && intact && stopOnExit ==>
              old(guest.stdoutLog) <= r.value.stdout && old(guest.stderrLog) <= r.value.stderr
    ensures r.Ok? && intact && stopOnExit && guest.clean ==>
              r.value.stdout == guest.stdoutLog && r.value.stderr == guest.stderrLog
    ensures r.Ok? && stopOnExit && guest.clean && old(guest.terminal) ==>
              && guest.stdoutLog == old(guest.stdoutLog) && guest.stderrLog == old(guest.stderrLog)
              && (r.value.stdout == guest.stdoutLog <==> Readable(guest.stdoutLog, 0))
              && (r.value.stderr == guest.stderrLog <==> Readable(guest.stderrLog, 0))
    ensures r.Ok? && Ascii(guest.stdoutLog) && Ascii(guest.stderrLog) ==> intact
  {
    hide Follows, ReadsSlice, Received;
    ghost var start := guest.S();
    ghost var quiet := guest.lifetime == 0;
    var outAt, errAt, out: Bytes, err: Bytes := 0, 0, [], [];
    ghost var outWhole, errWhole := true, true;
    intact := true;
    NothingReceived(start, Stdout, quiet);
    NothingReceived(start, Stderr, quiet);
    while true
      invariant guest.Valid() && Follows(start, guest.S())
      invariant Received(out, outAt, guest.stdoutLog, outWhole, quiet)
      invariant Received(err, errAt, guest.stderrLog, errWhole, quiet)
      invariant quiet ==> guest.lifetime == 0
      decreases guest.lifetime
    {
      ghost var before := guest.S();
      var got;
      got, outAt, outWhole := FollowLog(guest, Stdout, outAt, out, outWhole, quiet);
      ReceivedLater(err, errAt, before, guest.S(), Stderr, errWhole, quiet);
      FollowsTransitive(start, before, guest.S());
      if got.Err? { return Err(got.error), intact; }
      out := got.value;
      ghost var between := guest.S();
      got, errAt, errWhole := FollowLog(guest, Stderr, errAt, err, errWhole, quiet);
      ReceivedLater(out, outAt, between, guest.S(), Stdout, outWhole, quiet);
      FollowsTransitive(start, between, guest.S());
      if got.Err? { return Err(got.error), intact; }
      err := got.value;
      ghost var asked := guest.S();
      LifetimeShrinks(before, between);
      LifetimeShrinks(between, asked);
      var ended := guest.Refresh();
      ReceivedLater(out, outAt, asked, guest.S(), Stdout, outWhole, quiet);
      ReceivedLater(err, errAt, asked, guest.S(), Stderr, errWhole, quiet);
      FollowsTransitive(start, asked, guest.S());
      LifetimeShrinks(asked, guest.S());
      if ended.Err? { return Err(ended.error), intact; }
      if ended.value {
        if stopOnExit {
          r, intact := DrainBoth(guest, outAt, out, outWhole, errAt, err, errWhole, quiet, start);
          QuietKeepsLogs(start, guest.S());
          return;
        }
        ReceivedMeans(out, outAt, guest.stdoutLog, outWhole, quiet);
        ReceivedMeans(err, errAt, guest.stderrLog, errWhole, quiet);
        return Ok(ProcessLogs(out, err)), outWhole && errWhole;
      }
      ghost var seen := guest.S();
      guest.Pass(true);
      ReceivedLater(out, outAt, seen, guest.S(), Stdout, outWhole, quiet);
      ReceivedLater(err, errAt, seen, guest.S(), Stderr, errWhole, quiet);
      FollowsTransitive(start, seen, guest.S());
    }
  }

  lemma ReceivedLater(contents: Bytes, offset: nat, s: Moment, t: Moment, stream: Stream, intact: bool,
                      quiet: bool)
    requires Follows(s, t) && Received(contents, offset, s.Log(stream), intact, quiet) && (quiet ==> s.lifetime == 0)
    ensures Received(contents, offset, t.Log(stream), intact, quiet) && (quiet ==> t.lifetime == 0)
  {
    hide Received;
    ReceivedGrows(contents, offset, s.Log(stream), t.Log(stream), intact, quiet);
  }

  /** One step of following a log that may still grow. */
  method FollowLog(guest: Guest, stream: Stream, at: nat, contents: Bytes, ghost whole: bool,
                   ghost quiet: bool)
    returns (r: Result<Bytes>, next: nat, ghost intact: bool)
    requires guest.Valid() && (quiet ==> guest.lifetime == 0)
    requires Received(contents, at, guest.S().Log(stream), whole, quiet)
    modifies guest
    ensures guest.Valid() && Follows(old(guest.S()), guest.S())
    ensures r.Ok? ==> Received(r.value, next, guest.S().Log(stream), intact, quiet)
  {
    hide Follows, ReadsSlice, Received;
    ghost var before := guest.S();
    var chunk;
    ghost var slice;
    chunk, slice := ReadProcessLog(guest, stream, at, CHUNK);
    if chunk.Err? { return Err(chunk.error), at, whole; }
    ReceivedLater(contents, at, before, guest.S(), stream, whole, quiet);
    ReceivedNext(contents, at, guest.S().Log(stream), whole, quiet, chunk.value, slice);
    ChunkAdvances(before, guest.S(), stream, chunk.value, at, slice);
    intact := whole && ValidUtf8(slice);
    if chunk.value.contents != [] {
      return Ok(contents + chunk.value.contents), chunk.value.nextOffset, intact;
    }
    assert contents + chunk.value.contents == contents;
    r, next := Ok(contents), at;
  }

  method DrainBoth(guest: Guest, outAt: nat, out: Bytes, ghost outWhole: bool,
                   errAt: nat, err: Bytes, ghost errWhole: bool, ghost quiet: bool, ghost start: Moment)
    returns (r: Result<ProcessLogs>, ghost intact: bool)
    requires guest.Valid() && guest.terminal && Follows(start, guest.S())
    requires quiet ==> start.lifetime == 0
    requires Received(out, outAt, guest.stdoutLog, outWhole, quiet)
    requires Received(err, errAt, guest.stderrLog, errWhole, quiet)
    modifies guest
    ensures guest.Valid() && guest.terminal && Follows(start, guest.S())
    ensures r.Ok? && intact ==>
              && start.stdoutLog <= r.value.stdout <= guest.stdoutLog
              && start.stderrLog <= r.value.stderr <= guest.stderrLog
    ensures r.Ok? && intact && guest.clean ==>
              r.value.stdout == guest.stdoutLog && r.value.stderr == guest.stderrLog
    ensures r.Ok? && quiet ==>
              && (r.value.stdout == guest.stdoutLog <==> Readable(guest.stdoutLog, 0))
              && (r.value.stderr == guest.stderrLog <==> Readable(guest.stderrLog, 0))
    ensures r.Ok? && Ascii(guest.stdoutLog) && Ascii(guest.stderrLog) ==> intact
  {
    hide Follows, ReadsSlice, Received, Readable, ReadFrom;
    intact := true;
    ghost var s0 := guest.S();
    LifetimeShrinks(start, s0);
    LogGrows(start, s0, Stdout);
    LogGrows(start, s0, Stderr);
    var stdout;
    ghost var outAll, outEnd;
    stdout, outAll, outEnd := DrainLog(guest, Stdout, outAt, out, outWhole, quiet);
    ghost var s1 := guest.S();
    FollowsTransitive(start, s0, s1);
    ReceivedLater(err, errAt, s0, s1, Stderr, errWhole, quiet);
    LogGrows(s0, s1, Stderr);
    if stdout.Err? { return Err(stdout.error), intact; }
    var stderr;
    ghost var errAll, errEnd;
    stderr, errAll, errEnd := DrainLog(guest, Stderr, errAt, err, errWhole, quiet);
    ghost var s2 := guest.S();
    FollowsTransitive(start, s1, s2);
    if stderr.Err? { return Err(stderr.error), intact; }
    ReceivedLater(stdout.value, outEnd, s1, s2, Stdout, outAll, quiet);
    ReceivedMeans(stdout.value, outEnd, s2.stdoutLog, outAll, quiet);
    ReceivedMeans(stderr.value, errEnd, s2.stderrLog, errAll, quiet);
    LogGrows(s0, s1, Stdout);
    LogGrows(s1, s2, Stdout);
    LogGrows(s1, s2, Stderr);
    QuietKeepsLogs(s0, s1);
    QuietKeepsLogs(s1, s2);
    ReceivedAll(stdout.value, outEnd, s0.stdoutLog, s2.stdoutLog, outAll, quiet);
    ReceivedAll(stderr.value, errEnd, s1.stderrLog, s2.stderrLog, errAll, quiet);
    intact := outAll && errAll;
    r := Ok(ProcessLogs(stdout.value, stderr.value));
    PrefixThrough(start.stdoutLog, s0.stdoutLog, stdout.value);
    PrefixThrough(start.stderrLog, s0.stderrLog, s1.stderrLog);
    PrefixThrough(start.stderrLog, s1.stderrLog, stderr.value);
  }

  lemma PrefixThrough(a: Bytes, b: Bytes, c: Bytes)
    ensures a <= b <= c ==> a <= c
  {
    assert a <= b <= c ==> forall i | 0 <= i < |a| :: a[i] == b[i] == c[i];
  }
}
