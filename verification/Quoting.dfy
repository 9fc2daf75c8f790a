/** How a managed command reaches the shell: `shell_escape`, `shell_join` and the launch script,
    against the quoting and token rules of POSIX.1-2017, XCU sections 2.2, 2.3 and 2.6.7. */
module Quoting {
  import opened Strings

  // ---- The printers ----

  /** `value.replace('\'', "'\"'\"'")` */
  function Replaced(value: string): string {
    if value == "" then ""
    else (if value[0] == '\'' then "'\"'\"'" else [value[0]]) + Replaced(value[1..])
  }

  function ShellEscape(value: string): string { "'" + Replaced(value) + "'" }

  function ShellJoin(command: seq<string>): string {
    Join(seq(|command|, i requires 0 <= i < |command| => ShellEscape(command[i])), " ")
  }

  // ---- The reader ----

  datatype Mode = Bare | Single | Double

  /** Characters that end a word when they are not quoted: blanks and the operators. */
  predicate EndsWord(c: char) {
    c == ' ' || c == '\t' || c == '\n' || c == ';' || c == '&' || c == '|' || c == '<' || c == '>'
    || c == '(' || c == ')'
  }

  /** Characters that start an expansion or a pattern when they are not quoted. */
  predicate Expands(c: char) {
    c == '$' || c == '`' || c == '*' || c == '?' || c == '[' || c == '~' || c == '#'
  }

  /** A word and what follows it, or the reason why there is no literal word. */
  datatype Scan = Word(text: string, rest: string) | Unfinished | Expansion

  /** Read one word after quote removal. Only words that need no expansion are read. */
  function ScanWord(s: string, mode: Mode, text: string): Scan
    decreases |s|
  {
    if s == "" then (if mode.Bare? then Word(text, "") else Unfinished)
    else
      var c, tail := s[0], s[1..];
      match mode
      case Single =>
        if c == '\'' then ScanWord(tail, Bare, text) else ScanWord(tail, Single, text + [c])
      case Double =>
        if c == '"' then ScanWord(tail, Bare, text)
        else if c == '$' || c == '`' then Expansion
        else if c == '\\' && tail != "" && (tail[0] == '$' || tail[0] == '`' || tail[0] == '"' || tail[0] == '\\') then
          ScanWord(tail[1..], Double, text + [tail[0]])
        else if c == '\\' && tail != "" && tail[0] == '\n' then ScanWord(tail[1..], Double, text)
        else ScanWord(tail, Double, text + [c])
      case Bare =>
        if EndsWord(c) then Word(text, s)
        else if c == '\'' then ScanWord(tail, Single, text)
        else if c == '"' then ScanWord(tail, Double, text)
        else if c == '\\' then
          if tail == "" then Unfinished
          else if tail[0] == '\n' then ScanWord(tail[1..], Bare, text)
          else ScanWord(tail[1..], Bare, text + [tail[0]])
        else if Expands(c) then Expansion
        else ScanWord(tail, Bare, text + [c])
  }

  predicate Blank(c: char) { c == ' ' || c == '\t' }

  function SkipBlanks(s: string): (r: string)
    ensures |r| <= |s|
  {
    if s != "" && Blank(s[0]) then SkipBlanks(s[1..]) else s
  }

  lemma {:induction false} ScanConsumes(s: string, mode: Mode, text: string)
    ensures ScanWord(s, mode, text).Word? ==> |ScanWord(s, mode, text).rest| <= |s|
    ensures ScanWord(s, mode, text).Word? && mode.Bare? && s != "" && !EndsWord(s[0]) ==>
              |ScanWord(s, mode, text).rest| < |s|
    decreases |s|
  {
    if s != "" {
      var tail := s[1..];
      forall m: Mode, t: string ensures ScanWord(tail, m, t).Word? ==> |ScanWord(tail, m, t).rest| <= |tail| {
        ScanConsumes(tail, m, t);
      }
      if tail != "" {
        var more := tail[1..];
        forall m: Mode, t: string ensures ScanWord(more, m, t).Word? ==> |ScanWord(more, m, t).rest| <= |more| {
          ScanConsumes(more, m, t);
        }
      }
    }
  }

  /** The words of a simple command, up to the first operator, newline or end of input. */
  datatype Command = Words(words: seq<string>, rest: string) | NotLiteral

  function ScanCommand(s: string): Command
    decreases |s|
  {
    var s' := SkipBlanks(s);
    if s' == "" || EndsWord(s'[0]) then Words([], s')
    else
      ScanConsumes(s', Bare, "");
      match ScanWord(s', Bare, "")
      case Word(text, rest) => Prepend(text, ScanCommand(rest))
      case _ => NotLiteral
  }

  function Prepend(word: string, c: Command): Command {
    match c
    case Words(words, rest) => Words([word] + words, rest)
    case NotLiteral => NotLiteral
  }

  lemma FirstWord(s: string, word: string, rest: string)
    requires s != "" && !EndsWord(s[0]) && ScanWord(s, Bare, "") == Word(word, rest)
    ensures ScanCommand(s) == Prepend(word, ScanCommand(rest))
  {
    assert SkipBlanks(s) == s;
  }

  lemma SkipBlank(s: string)
    ensures ScanCommand(" " + s) == ScanCommand(s)
  {
    assert (" " + s)[1..] == s && SkipBlanks(" " + s) == SkipBlanks(s);
  }

  // ---- Reading back what was printed ----

  /** The five characters that stand for a quote. */
  const QUOTE: string := "'\"'\"'"

  lemma QuoteCut(rest: string)
    ensures QUOTE + rest == "'" + ("\"" + ("'" + ("\"" + ("'" + rest))))
  {
  }

  lemma CutFirst(c: char, rest: string)
    ensures ([c] + rest)[0] == c && ([c] + rest)[1..] == rest
  {
  }

  lemma ScanQuote(rest: string, text: string)
    ensures ScanWord(QUOTE + rest, Single, text) == ScanWord(rest, Single, text + ['\''])
  {
    QuoteCut(rest);
    var s4 := "'" + rest;
    var s3 := "\"" + s4;
    var s2 := "'" + s3;
    var s1 := "\"" + s2;
    CutFirst('\'', s1);
    CutFirst('"', s2);
    CutFirst('\'', s3);
    CutFirst('"', s4);
    CutFirst('\'', rest);
    assert ScanWord("'" + s1, Single, text) == ScanWord(s1, Bare, text);
    assert ScanWord(s1, Bare, text) == ScanWord(s2, Double, text);
    assert ScanWord(s2, Double, text) == ScanWord(s3, Double, text + ['\'']);
    assert ScanWord(s3, Double, text + ['\'']) == ScanWord(s4, Bare, text + ['\'']);
    assert ScanWord(s4, Bare, text + ['\'']) == ScanWord(rest, Single, text + ['\'']);
  }

  lemma ReplacedNext(value: string, after: string)
    requires value != ""
    ensures Replaced(value) + "'" + after ==
            (if value[0] == '\'' then QUOTE else [value[0]]) + (Replaced(value[1..]) + "'" + after)
  {
  }

  lemma {:induction false} ScanReplaced(value: string, after: string, text: string)
    ensures ScanWord(Replaced(value) + "'" + after, Single, text) == ScanWord(after, Bare, text + value)
  {
    if value == "" {
      CutFirst('\'', after);
      assert "" + "'" + after == "'" + after && text + value == text;
    } else {
      var rest := Replaced(value[1..]) + "'" + after;
      assert text + value == text + [value[0]] + value[1..];
      ReplacedNext(value, after);
      if value[0] == '\'' {
        ScanQuote(rest, text);
      } else {
        CutFirst(value[0], rest);
      }
      ScanReplaced(value[1..], after, text + [value[0]]);
    }
  }

  /** An escaped value reads as itself, with nothing added, lost or expanded. */
  lemma ScanEscaped(value: string, after: string, text: string)
    ensures ScanWord(ShellEscape(value) + after, Bare, text) == ScanWord(after, Bare, text + value)
  {
    var s := ShellEscape(value) + after;
    assert s[1..] == Replaced(value) + "'" + after;
    ScanReplaced(value, after, text);
  }

  /** What may follow the words of a command without joining the last of them. */
  predicate EndsCommand(s: string) { s == "" || (EndsWord(s[0]) && !Blank(s[0])) }

  function Escapes(command: seq<string>): seq<string> {
    seq(|command|, i requires 0 <= i < |command| => ShellEscape(command[i]))
  }

  lemma JoinedNext(command: seq<string>)
    requires |command| > 1
    ensures ShellJoin(command) == ShellEscape(command[0]) + " " + ShellJoin(command[1..])
  {
    assert Escapes(command)[1..] == Escapes(command[1..]);
  }

  lemma EscapedFirst(value: string, after: string)
    requires after == "" || EndsWord(after[0])
    ensures ScanCommand(ShellEscape(value) + after) == Prepend(value, ScanCommand(after))
  {
    var s := ShellEscape(value) + after;
    assert s[0] == '\'';
    ScanEscaped(value, after, "");
    assert "" + value == value && ScanWord(after, Bare, value) == Word(value, after);
    FirstWord(s, value, after);
  }

  /** Scanning a joined command gives exactly its arguments, whatever they contain. */
  lemma {:induction false} ScanJoined(command: seq<string>, after: string)
    requires EndsCommand(after)
    ensures ScanCommand(ShellJoin(command) + after) == Words(command, after)
    decreases |command|
  {
    assert ScanCommand(after) == Words([], after);
    hide ScanCommand, ShellEscape;
    if command == [] {
      assert ShellJoin(command) + after == after;
    } else if |command| == 1 {
      assert Escapes(command) == [ShellEscape(command[0])];
      assert ShellJoin(command) == ShellEscape(command[0]) && command == [command[0]] + [];
      EscapedFirst(command[0], after);
    } else {
      var rest := ShellJoin(command[1..]) + after;
      JoinedNext(command);
      assert ShellJoin(command) + after == ShellEscape(command[0]) + (" " + rest);
      EscapedFirst(command[0], " " + rest);
      SkipBlank(rest);
      ScanJoined(command[1..], after);
      assert command == [command[0]] + command[1..];
    }
  }

  // ---- The launch script ----

  /** The text of a script in the pieces it is formatted from: text without quotes, text between
      double quotes, and escaped values. */
  datatype Piece = Plain(text: string) | Quoted(text: string) | Escaped(value: string)

  predicate NoQuotes(s: string) {
    '\'' !in s && '"' !in s && '\\' !in s
  }

  predicate WellQuoted(pieces: seq<Piece>) {
    forall i | 0 <= i < |pieces| :: pieces[i].Escaped? || NoQuotes(pieces[i].text)
  }

  function RenderPiece(piece: Piece): string {
    match piece
    case Plain(s) => s
    case Quoted(s) => "\"" + s + "\""
    case Escaped(v) => ShellEscape(v)
  }

  function Render(pieces: seq<Piece>): string {
    if pieces == [] then "" else RenderPiece(pieces[0]) + Render(pieces[1..])
  }

  /** The quoting in force after a text (XCU section 2.2); expansions do not matter for it. */
  function ModeAfter(s: string, mode: Mode): Mode
    decreases |s|
  {
    if s == "" then mode
    else
      var c, tail := s[0], s[1..];
      match mode
      case Single => ModeAfter(tail, if c == '\'' then Bare else Single)
      case _ =>
        if c == '\\' then (if tail == "" then mode else ModeAfter(tail[1..], mode))
        else if c == '"' then ModeAfter(tail, if mode.Bare? then Double else Bare)
        else ModeAfter(tail, if c == '\'' && mode.Bare? then Single else mode)
  }

  lemma {:induction false} ModeAfterPlain(s: string, after: string, mode: Mode)
    requires NoQuotes(s)
    ensures ModeAfter(s + after, mode) == ModeAfter(after, mode)
  {
    if s == "" {
      assert s + after == after;
    } else {
      assert (s + after)[1..] == s[1..] + after;
      ModeAfterPlain(s[1..], after, mode);
    }
  }

  lemma ModeAfterQuote(rest: string)
    ensures ModeAfter(QUOTE + rest, Single) == ModeAfter(rest, Single)
  {
    QuoteCut(rest);
    var s4 := "'" + rest;
    var s3 := "\"" + s4;
    var s2 := "'" + s3;
    var s1 := "\"" + s2;
    CutFirst('\'', s1);
    CutFirst('"', s2);
    CutFirst('\'', s3);
    CutFirst('"', s4);
    CutFirst('\'', rest);
    assert ModeAfter("'" + s1, Single) == ModeAfter(s1, Bare) == ModeAfter(s2, Double);
    assert ModeAfter(s2, Double) == ModeAfter(s3, Double) == ModeAfter(s4, Bare) == ModeAfter(rest, Single);
  }

  lemma {:induction false} ModeAfterReplaced(value: string, after: string)
    ensures ModeAfter(Replaced(value) + "'" + after, Single) == ModeAfter(after, Bare)
  {
    if value == "" {
      CutFirst('\'', after);
      assert "" + "'" + after == "'" + after;
    } else {
      var rest := Replaced(value[1..]) + "'" + after;
      ReplacedNext(value, after);
      if value[0] == '\'' {
        ModeAfterQuote(rest);
      } else {
        CutFirst(value[0], rest);
      }
      ModeAfterReplaced(value[1..], after);
    }
  }

  lemma QuotedKeepsMode(text: string, after: string)
    requires NoQuotes(text)
    ensures ModeAfter("\"" + text + "\"" + after, Bare) == ModeAfter(after, Bare)
  {
    var s, rest := "\"" + text + "\"" + after, "\"" + after;
    assert s[0] == '"' && s[1..] == text + rest && rest[1..] == after;
    hide NoQuotes;
    ModeAfterPlain(text, rest, Double);
  }

  lemma PieceKeepsMode(piece: Piece, after: string)
    requires piece.Escaped? || NoQuotes(piece.text)
    ensures ModeAfter(RenderPiece(piece) + after, Bare) == ModeAfter(after, Bare)
  {
    match piece {
      case Plain(text) => ModeAfterPlain(text, after, Bare);
      case Quoted(text) => QuotedKeepsMode(text, after);
      case Escaped(value) =>
        var s := RenderPiece(piece) + after;
        assert s[0] == '\'' && s[1..] == Replaced(value) + "'" + after;
        ModeAfterReplaced(value, after);
    }
  }

  /** No piece leaves a quote open. */
  lemma {:induction false} RenderKeepsMode(pieces: seq<Piece>, after: string)
    requires WellQuoted(pieces)
    ensures ModeAfter(Render(pieces) + after, Bare) == ModeAfter(after, Bare)
  {
    if pieces == [] {
      assert Render(pieces) + after == after;
    } else {
      var rest := Render(pieces[1..]) + after;
      PieceKeepsMode(pieces[0], rest);
      hide ModeAfter;
      assert Render(pieces) + after == RenderPiece(pieces[0]) + rest;
      RenderKeepsMode(pieces[1..], after);
    }
  }

  /** `process_launch_command`, up to the command that starts the process. */
  function LaunchPrefix(base: string): seq<Piece> {
    [Plain("set -eu; base="), Escaped(base), Plain("; mkdir -p "), Quoted("$base"),
     Plain("; : > "), Quoted("$base/stdout.log"), Plain("; : > "), Quoted("$base/stderr.log"),
     Plain("; rm -f "), Quoted("$base/exit_code"), Plain(" "), Quoted("$base/pid"), Plain(" "),
     Quoted("$base/cancelled"), Plain("; ")]
  }

  const LAUNCH_SUFFIX: seq<Piece> :=
    [Plain(" >> "), Quoted("$base/stdout.log"), Plain(" 2>> "), Quoted("$base/stderr.log"),
     Plain(" </dev/null & pid=$!; printf "), Quoted("%s"), Plain(" "), Quoted("$pid"), Plain(" > "),
     Quoted("$base/pid")]

  /** The script that the inner shell runs, before and after the command itself. */
  const WRAPPED_PREFIX: seq<Piece> := [Plain("export PYTHONUNBUFFERED=1; ")]

  function WrappedSuffix(exitPath: string): seq<Piece> {
    [Plain("; code=$?; printf "), Escaped("%s"), Plain(" "), Quoted("$code"), Plain(" > "), Escaped(exitPath),
     Plain("; exit "), Quoted("$code")]
  }

  function Wrapped(command: seq<string>, exitPath: string): string {
    Render(WRAPPED_PREFIX) + ShellJoin(command) + Render(WrappedSuffix(exitPath))
  }

  function LaunchCommand(base: string, command: seq<string>, exitPath: string): string {
    Render(LaunchPrefix(base)) + "nohup /bin/sh -lc " + ShellEscape(Wrapped(command, exitPath)) + Render(LAUNCH_SUFFIX)
  }

  predicate PlainWord(word: string) {
    word != "" && NoQuotes(word) && forall i | 0 <= i < |word| :: !EndsWord(word[i]) && !Expands(word[i])
  }

  lemma {:induction false} ScanPlain(word: string, after: string, text: string)
    requires word == "" || PlainWord(word)
    ensures ScanWord(word + after, Bare, text) == ScanWord(after, Bare, text + word)
  {
    if word == "" {
      assert word + after == after && text + word == text;
    } else {
      assert (word + after)[1..] == word[1..] + after;
      assert text + word == text + [word[0]] + word[1..];
      ScanPlain(word[1..], after, text + [word[0]]);
    }
  }

  /** A plain word followed by a blank is the first word of the command. */
  lemma PlainFirst(word: string, after: string)
    requires PlainWord(word)
    ensures ScanCommand(word + (" " + after)) == Prepend(word, ScanCommand(after))
  {
    var s := word + (" " + after);
    assert s[0] == word[0];
    ScanPlain(word, " " + after, "");
    assert "" + word == word && ScanWord(" " + after, Bare, word) == Word(word, " " + after);
    FirstWord(s, word, " " + after);
    SkipBlank(after);
  }

  /** Delivery of the command line, at both levels: the outer shell reaches the start command with
      no quote open and runs `nohup /bin/sh -lc` with one further argument, the wrapped script; the
      inner shell reaches the command with no quote open and reads exactly the original arguments. */
  lemma LaunchDeliversCommand(base: string, command: seq<string>, exitPath: string)
    ensures var before := Render(LaunchPrefix(base));
            && ModeAfter(before, Bare) == Bare
            && LaunchCommand(base, command, exitPath)[..|before|] == before
            && ScanCommand(LaunchCommand(base, command, exitPath)[|before|..]) ==
                 Words(["nohup", "/bin/sh", "-lc", Wrapped(command, exitPath)], Render(LAUNCH_SUFFIX)[1..])
    ensures var before := Render(WRAPPED_PREFIX);
            && ModeAfter(before, Bare) == Bare
            && Wrapped(command, exitPath)[..|before|] == before
            && ScanCommand(Wrapped(command, exitPath)[|before|..]) == Words(command, Render(WrappedSuffix(exitPath)))
  {
    hide ScanCommand, ModeAfter, ShellJoin, ShellEscape, Wrapped, Render, WellQuoted, LaunchPrefix;
    PrefixesWellQuoted(base);
    RenderKeepsMode(LaunchPrefix(base), "");
    RenderKeepsMode(WRAPPED_PREFIX, "");
    assert ModeAfter("", Bare) == Bare by { NothingOpen(); }
    assert Render(LaunchPrefix(base)) + "" == Render(LaunchPrefix(base));
    assert Render(WRAPPED_PREFIX) + "" == Render(WRAPPED_PREFIX);
    InnerCommand(command, exitPath);
    OuterCommand(Wrapped(command, exitPath));
    var before := Render(LaunchPrefix(base));
    var w := ShellEscape(Wrapped(command, exitPath));
    StartFollows(before, "nohup /bin/sh -lc ", w, Render(LAUNCH_SUFFIX));
  }

  lemma StartFollows(before: string, start: string, w: string, after: string)
    ensures var s := before + start + w + after;
            s[..|before|] == before && s[|before|..] == start + w + after
  {
    assert before + start + w + after == before + (start + w + after);
  }

  lemma PrefixesWellQuoted(base: string)
    ensures WellQuoted(LaunchPrefix(base)) && WellQuoted(WRAPPED_PREFIX)
  {
    hide NoQuotes;
    SetUpTexts();
    LogTexts();
    StateTexts();
    ExportText();
  }

  lemma SuffixesWellQuoted(exitPath: string)
    ensures WellQuoted(LAUNCH_SUFFIX) && WellQuoted(WrappedSuffix(exitPath))
  {
    hide NoQuotes;
    LogTexts();
    StateTexts();
    LaunchTexts();
    ExitTexts();
  }

  lemma NothingOpen()
    ensures ModeAfter("", Bare) == Bare
  {
  }

  lemma {:induction false} JoinKeepsMode(command: seq<string>, after: string)
    ensures ModeAfter(ShellJoin(command) + after, Bare) == ModeAfter(after, Bare)
    decreases |command|
  {
    hide ModeAfter, ShellEscape;
    if command == [] {
      assert ShellJoin(command) + after == after;
    } else if |command| == 1 {
      assert Escapes(command) == [ShellEscape(command[0])];
      assert ShellJoin(command) == ShellEscape(command[0]);
      PieceKeepsMode(Escaped(command[0]), after);
    } else {
      var rest := ShellJoin(command[1..]) + after;
      JoinedNext(command);
      assert ShellJoin(command) + after == ShellEscape(command[0]) + (" " + rest);
      PieceKeepsMode(Escaped(command[0]), " " + rest);
      StateTexts();
      PieceKeepsMode(Plain(" "), rest);
      JoinKeepsMode(command[1..], after);
    }
  }

  /** Neither script leaves a quote open anywhere. */
  lemma ScriptsCloseQuotes(base: string, command: seq<string>, exitPath: string)
    ensures ModeAfter(LaunchCommand(base, command, exitPath), Bare) == Bare
    ensures ModeAfter(Wrapped(command, exitPath), Bare) == Bare
  {
    hide ModeAfter, ShellJoin, ShellEscape, Render, WellQuoted, NoQuotes, LaunchPrefix, WrappedSuffix;
    NothingOpen();
    PrefixesWellQuoted(base);
    SuffixesWellQuoted(exitPath);
    StartTexts();
    var w := Wrapped(command, exitPath);
    var end, exit := Render(LAUNCH_SUFFIX), Render(WrappedSuffix(exitPath));
    assert end + "" == end && exit + "" == exit;
    RenderKeepsMode(WrappedSuffix(exitPath), "");
    JoinKeepsMode(command, exit);
    RenderKeepsMode(WRAPPED_PREFIX, ShellJoin(command) + exit);
    assert w == Render(WRAPPED_PREFIX) + (ShellJoin(command) + exit);
    RenderKeepsMode(LAUNCH_SUFFIX, "");
    PieceKeepsMode(Escaped(w), end);
    PieceKeepsMode(Plain("nohup /bin/sh -lc "), ShellEscape(w) + end);
    RenderKeepsMode(LaunchPrefix(base), "nohup /bin/sh -lc " + (ShellEscape(w) + end));
    hide Wrapped;
    assert LaunchCommand(base, command, exitPath) ==
           Render(LaunchPrefix(base)) + ("nohup /bin/sh -lc " + (ShellEscape(w) + end));
  }

  lemma StartTexts()
    ensures NoQuotes("nohup /bin/sh -lc ")
  {
  }

  lemma LaunchTexts()
    ensures NoQuotes(" >> ") && NoQuotes(" 2>> ") && NoQuotes(" > ") && NoQuotes("%s") && NoQuotes("$pid")
    ensures NoQuotes(" </dev/null & pid=$!; printf ")
  {
    DevNullText();
  }

  lemma DevNullText()
    ensures NoQuotes(" </dev/null & pid=$!; printf ")
  {
    DevNullHalves();
    hide NoQuotes;
    NoQuotesJoined(" </dev/null & ", "pid=$!; printf ");
    assert " </dev/null & " + "pid=$!; printf " == " </dev/null & pid=$!; printf ";
  }

  lemma DevNullHalves()
    ensures NoQuotes(" </dev/null & ") && NoQuotes("pid=$!; printf ")
  {
  }

  lemma NoQuotesJoined(s: string, t: string)
    requires NoQuotes(s) && NoQuotes(t)
    ensures NoQuotes(s + t)
  {
  }

  lemma ExitTexts()
    ensures NoQuotes("; code=$?; printf ") && NoQuotes("$code") && NoQuotes("; exit ")
  {
  }

  lemma SetUpTexts()
    ensures NoQuotes("set -eu; base=") && NoQuotes("; mkdir -p ") && NoQuotes("$base") && NoQuotes("; : > ")
  {
  }

  lemma LogTexts()
    ensures NoQuotes("$base/stdout.log") && NoQuotes("$base/stderr.log") && NoQuotes("; rm -f ")
  {
  }

  lemma StateTexts()
    ensures NoQuotes("$base/exit_code") && NoQuotes(" ") && NoQuotes("$base/pid")
    ensures NoQuotes("$base/cancelled") && NoQuotes("; ")
  {
  }

  lemma ExportText()
    ensures NoQuotes("export PYTHONUNBUFFERED=1; ")
  {
  }

  lemma InnerCommand(command: seq<string>, exitPath: string)
    ensures var inner := Wrapped(command, exitPath)[|Render(WRAPPED_PREFIX)|..];
            ScanCommand(inner) == Words(command, Render(WrappedSuffix(exitPath)))
    ensures Wrapped(command, exitPath)[..|Render(WRAPPED_PREFIX)|] == Render(WRAPPED_PREFIX)
  {
    hide ScanCommand, ShellJoin, ShellEscape;
    var after := Render(WrappedSuffix(exitPath));
    assert after[0] == ';';
    ScanJoined(command, after);
    hide Render;
    assert Wrapped(command, exitPath)[|Render(WRAPPED_PREFIX)|..] == ShellJoin(command) + after;
  }

  lemma SuffixStarts()
    ensures var after := Render(LAUNCH_SUFFIX);
            |after| > 1 && after[0] == ' ' && EndsWord(after[1]) && !Blank(after[1])
  {
    var rest := Render(LAUNCH_SUFFIX[1..]);
    assert RenderPiece(LAUNCH_SUFFIX[0]) == " >> ";
    hide Render;
    assert (" >> " + rest)[0] == ' ' && (" >> " + rest)[1] == '>';
  }

  /** Three plain words before the rest of a command. */
  lemma PlainThree(a: string, b: string, c: string, after: string)
    requires PlainWord(a) && PlainWord(b) && PlainWord(c)
    ensures ScanCommand(a + (" " + (b + (" " + (c + (" " + after)))))) ==
            Prepend(a, Prepend(b, Prepend(c, ScanCommand(after))))
  {
    hide ScanCommand, PlainWord;
    PlainFirst(c, after);
    PlainFirst(b, c + (" " + after));
    PlainFirst(a, b + (" " + (c + (" " + after))));
  }

  lemma StartSpelled(after: string)
    ensures "nohup /bin/sh -lc " + after == "nohup" + (" " + ("/bin/sh" + (" " + ("-lc" + (" " + after)))))
  {
    assert "nohup /bin/sh -lc " == "nohup" + " " + "/bin/sh" + " " + "-lc" + " ";
    Associates("nohup", " ", "/bin/sh", " ", "-lc", " ", after);
  }

  lemma Associates(a: string, b: string, c: string, d: string, e: string, f: string, g: string)
    ensures a + b + c + d + e + f + g == a + (b + (c + (d + (e + (f + g)))))
  {
  }

  lemma StartWordsPlain()
    ensures PlainWord("nohup") && PlainWord("/bin/sh") && PlainWord("-lc")
  {
  }

  lemma OuterCommand(w: string)
    ensures ScanCommand("nohup /bin/sh -lc " + ShellEscape(w) + Render(LAUNCH_SUFFIX)) ==
            Words(["nohup", "/bin/sh", "-lc", w], Render(LAUNCH_SUFFIX)[1..])
  {
    hide ScanCommand, ShellEscape, Render, PlainWord;
    var after := Render(LAUNCH_SUFFIX);
    var esc := ShellEscape(w) + after;
    SuffixStarts();
    RedirectionEnds(after);
    EscapedFirst(w, after);
    StartWordsPlain();
    PlainThree("nohup", "/bin/sh", "-lc", esc);
    StartSpelled(esc);
    assert "nohup /bin/sh -lc " + ShellEscape(w) + after == "nohup /bin/sh -lc " + esc;
    assert ScanCommand("nohup /bin/sh -lc " + esc) ==
      Prepend("nohup", Prepend("/bin/sh", Prepend("-lc", Words([w], after[1..]))));
  }

  lemma RedirectionEnds(after: string)
    requires |after| > 1 && after[0] == ' ' && EndsWord(after[1]) && !Blank(after[1])
    ensures ScanCommand(after) == Words([], after[1..])
  {
    assert SkipBlanks(after) == SkipBlanks(after[1..]) == after[1..];
  }
}
