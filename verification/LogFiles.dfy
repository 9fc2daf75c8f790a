/** Where the output of a managed process goes: the files that the launch script opens for it are the
    ones its record names, and no two processes share one. */
module LogFiles {
  import opened Types
  import opened Strings
  import opened Processes
  import opened Quoting

  // ---- Reading redirections (POSIX.1-2017, XCU section 2.7) ----

  /** A character that continues the name of a parameter. */
  predicate NameChar(c: char) {
    'a' <= c <= 'z' || 'A' <= c <= 'Z' || '0' <= c <= '9' || c == '_'
  }

  /** The rest of a word between double quotes, in which `$base` stands for `base`. */
  function DoubleText(s: string, base: string, text: string): Scan
    decreases |s|
  {
    if s == "" then Unfinished
    else if s[0] == '"' then Word(text, s[1..])
    else if s[0] == '$' then
      if "base" <= s[1..] && (|s| == 5 || !NameChar(s[5])) then DoubleText(s[5..], base, text + base) else Expansion
    else if s[0] == '`' || s[0] == '\\' then Expansion
    else DoubleText(s[1..], base, text + [s[0]])
  }

  /** A file opened for appending, and what follows. */
  datatype Redirect = Redirect(descriptor: nat, file: string, rest: string) | NoRedirect

  /** The redirection of the output, or of the descriptor that is written before it. */
  function ReadRedirect(s: string, base: string): (r: Redirect)
  {
    var s := SkipBlanks(s);
    var numbered := s != "" && '0' <= s[0] <= '9';
    var descriptor := if numbered then s[0] as int - '0' as int else 1;
    var operator := if numbered then s[1..] else s;
    if |operator| < 2 || operator[..2] != ">>" then NoRedirect
    else
      var file := SkipBlanks(operator[2..]);
      if file == "" || file[0] != '"' then NoRedirect
      else
        match DoubleText(file[1..], base, "")
        case Word(name, rest) => Redirect(descriptor, name, rest)
        case _ => NoRedirect
  }

  lemma {:induction false} DoubleConsumes(s: string, base: string, text: string)
    ensures DoubleText(s, base, text).Word? ==> |DoubleText(s, base, text).rest| < |s|
    decreases |s|
  {
    if s != "" && s[0] != '"' {
      if s[0] == '$' {
        if |s| >= 5 { DoubleConsumes(s[5..], base, text + base); }
      } else {
        DoubleConsumes(s[1..], base, text + [s[0]]);
      }
    }
  }

  lemma RedirectConsumes(s: string, base: string)
    ensures ReadRedirect(s, base).Redirect? ==> |ReadRedirect(s, base).rest| < |s|
  {
    forall file: string ensures DoubleText(file, base, "").Word? ==> |DoubleText(file, base, "").rest| < |file| {
      DoubleConsumes(file, base, "");
    }
    hide DoubleText;
  }

  /** The files opened for appending at the front of the text, in order. */
  function Redirects(s: string, base: string): seq<(nat, string)>
    decreases |s|
  {
    RedirectConsumes(s, base);
    match ReadRedirect(s, base)
    case Redirect(descriptor, file, rest) => [(descriptor, file)] + Redirects(rest, base)
    case NoRedirect => []
  }

  // ---- The launch script ----

  predicate PathText(s: string) {
    forall i | 0 <= i < |s| :: s[i] != '"' && s[i] != '$' && s[i] != '`' && s[i] != '\\'
  }

  lemma {:induction false} PathRead(path: string, after: string, base: string, text: string)
    requires PathText(path)
    ensures DoubleText(path + ("\"" + after), base, text) == Word(text + path, after)
  {
    var s := path + ("\"" + after);
    if path == "" {
      assert s == "\"" + after && s[1..] == after && text + path == text;
    } else {
      assert s[1..] == path[1..] + ("\"" + after);
      assert text + path == text + [path[0]] + path[1..];
      PathRead(path[1..], after, base, text + [path[0]]);
    }
  }

  lemma BaseRead(path: string, after: string, base: string)
    requires PathText(path) && path != "" && path[0] == '/'
    ensures DoubleText("$base" + path + ("\"" + after), base, "") == Word(base + path, after)
  {
    var s := "$base" + path + ("\"" + after);
    assert s[1..5] == "base" && s[5..] == path + ("\"" + after) && s[5] == '/';
    assert s[1..][..4] == "base";
    assert "" + base == base;
    PathRead(path, after, base, base);
  }

  lemma OneBlank(s: string)
    requires s != "" && !Blank(s[0])
    ensures SkipBlanks(" " + s) == s
  {
    assert (" " + s)[1..] == s;
  }

  /** An appending operator and a quoted word. */
  lemma FileRead(name: string, word: string, after: string, base: string)
    requires DoubleText(word, base, "") == Word(name, after)
    ensures ReadRedirect(" " + (">> " + ("\"" + word)), base) == Redirect(1, name, after)
    ensures ReadRedirect(" " + ("2" + (">> " + ("\"" + word))), base) == Redirect(2, name, after)
  {
    hide DoubleText, SkipBlanks;
    var file := "\"" + word;
    var operator := ">> " + file;
    assert file[0] == '"' && file[1..] == word;
    assert operator[0] == '>' && operator[..2] == ">>" && operator[2..] == " " + file;
    OneBlank(file);
    OneBlank(operator);
    OneBlank("2" + operator);
    assert ("2" + operator)[0] == '2' && ("2" + operator)[1..] == operator;
  }

  /** ` >> "$base/..."`, with a descriptor or without. */
  lemma AppendRead(path: string, after: string, base: string)
    requires PathText(path) && path != "" && path[0] == '/'
    ensures var word := "\"" + ("$base" + path + ("\"" + after));
            && ReadRedirect(" " + (">> " + word), base) == Redirect(1, base + path, after)
            && ReadRedirect(" " + ("2" + (">> " + word)), base) == Redirect(2, base + path, after)
  {
    hide ReadRedirect, DoubleText;
    BaseRead(path, after, base);
    FileRead(base + path, "$base" + path + ("\"" + after), after, base);
  }

  const STDOUT_FILE: string := "/stdout.log"
  const STDERR_FILE: string := "/stderr.log"

  lemma RenderNext(piece: Piece, pieces: seq<Piece>)
    ensures Render([piece] + pieces) == RenderPiece(piece) + Render(pieces)
  {
    assert ([piece] + pieces)[1..] == pieces;
  }

  lemma FirstPieces()
    ensures LAUNCH_SUFFIX ==
            [Plain(" >> ")] + ([Quoted("$base/stdout.log")] +
            ([Plain(" 2>> ")] + ([Quoted("$base/stderr.log")] + LAUNCH_SUFFIX[4..])))
    ensures |LAUNCH_SUFFIX| == 10 && LAUNCH_SUFFIX[4..][0] == Plain(" </dev/null & pid=$!; printf ")
  {
  }

  /** ` >> "$base/stdout.log" 2>> "$base/stderr.log"` */
  function Spelled(rest: string): string {
    " " + (">> " + ("\"" + ("$base" + STDOUT_FILE + ("\"" + SpelledSecond(rest)))))
  }

  function SpelledSecond(rest: string): string {
    " " + ("2" + (">> " + ("\"" + ("$base" + STDERR_FILE + ("\"" + rest)))))
  }

  lemma TextsSpelled()
    ensures " >> " == " " + ("" + ">> ") && " 2>> " == " " + ("2" + ">> ")
    ensures "\"$base/stdout.log\"" == "\"" + ("$base" + STDOUT_FILE + "\"")
    ensures "\"$base/stderr.log\"" == "\"" + ("$base" + STDERR_FILE + "\"")
  {
  }

  lemma Regrouped(blank: string, number: string, operator: string, quote: string, word: string, rest: string)
    ensures blank + (number + operator) + (quote + (word + quote) + rest) ==
            blank + (number + (operator + (quote + (word + (quote + rest)))))
  {
    assert quote + (word + quote) + rest == quote + (word + (quote + rest));
  }

  lemma SpelledOut(rest: string)
    ensures " >> " + ("\"$base/stdout.log\"" + (" 2>> " + ("\"$base/stderr.log\"" + rest))) == Spelled(rest)
  {
    TextsSpelled();
    Regrouped(" ", "2", ">> ", "\"", "$base" + STDERR_FILE, rest);
    Regrouped(" ", "", ">> ", "\"", "$base" + STDOUT_FILE, SpelledSecond(rest));
    NothingBefore(">> " + ("\"" + ("$base" + STDOUT_FILE + ("\"" + SpelledSecond(rest)))));
  }

  lemma NothingBefore(s: string)
    ensures "" + s == s
  {
  }

  lemma PiecesSpelled(pieces: seq<Piece>)
    ensures var quoted := [Quoted("$base/stderr.log")] + pieces;
            Render([Plain(" >> ")] + ([Quoted("$base/stdout.log")] + ([Plain(" 2>> ")] + quoted))) ==
            " >> " + ("\"$base/stdout.log\"" + (" 2>> " + ("\"$base/stderr.log\"" + Render(pieces))))
  {
    hide Render;
    var quoted := [Quoted("$base/stderr.log")] + pieces;
    RenderNext(Quoted("$base/stderr.log"), pieces);
    RenderNext(Plain(" 2>> "), quoted);
    RenderNext(Quoted("$base/stdout.log"), [Plain(" 2>> ")] + quoted);
    RenderNext(Plain(" >> "), [Quoted("$base/stdout.log")] + ([Plain(" 2>> ")] + quoted));
    assert RenderPiece(Quoted("$base/stdout.log")) == "\"$base/stdout.log\"";
    assert RenderPiece(Quoted("$base/stderr.log")) == "\"$base/stderr.log\"";
  }

  lemma InputStarts(pieces: seq<Piece>)
    requires pieces != [] && pieces[0] == Plain(" </dev/null & pid=$!; printf ")
    ensures var rest := Render(pieces); |rest| > 1 && rest[0] == ' ' && rest[1] == '<'
  {
    var text := RenderPiece(pieces[0]);
    assert text[0] == ' ' && text[1] == '<';
  }

  lemma SuffixSpelled() returns (rest: string)
    ensures Render(LAUNCH_SUFFIX) == Spelled(rest)
    ensures |rest| > 1 && rest[0] == ' ' && rest[1] == '<'
  {
    hide Render, Spelled;
    FirstPieces();
    rest := Render(LAUNCH_SUFFIX[4..]);
    InputStarts(LAUNCH_SUFFIX[4..]);
    PiecesSpelled(LAUNCH_SUFFIX[4..]);
    SpelledOut(rest);
  }

  lemma InputFollows(rest: string, base: string)
    requires |rest| > 1 && rest[0] == ' ' && rest[1] == '<'
    ensures Redirects(rest, base) == []
  {
    assert SkipBlanks(rest) == SkipBlanks(rest[1..]) == rest[1..];
    assert ReadRedirect(rest, base) == NoRedirect;
  }

  /** The launch script opens two files for the process, and its record names them: the first takes
      its output and the second its errors. */
  lemma LaunchOpensRecordedFiles(id: ProcessId)
    ensures Redirects(Render(LAUNCH_SUFFIX), ProcessDir(id)) == [(1, StdoutPath(id)), (2, StderrPath(id))]
  {
    hide Render, ReadRedirect, ProcessDir;
    var base := ProcessDir(id);
    var rest := SuffixSpelled();
    AppendRead(STDOUT_FILE, SpelledSecond(rest), base);
    AppendRead(STDERR_FILE, rest, base);
    InputFollows(rest, base);
  }

  lemma PrefixStarts(base: string)
    ensures |LaunchPrefix(base)| >= 3
    ensures LaunchPrefix(base)[0] == Plain("set -eu; base=") && LaunchPrefix(base)[1] == Escaped(base)
    ensures LaunchPrefix(base)[2] == Plain("; mkdir -p ")
  {
  }

  lemma RenderFirst(pieces: seq<Piece>)
    requires pieces != []
    ensures Render(pieces) == RenderPiece(pieces[0]) + Render(pieces[1..])
  {
  }

  lemma RenderThree(pieces: seq<Piece>)
    requires |pieces| >= 3
    ensures Render(pieces) == RenderPiece(pieces[0]) + (RenderPiece(pieces[1]) + Render(pieces[2..]))
    ensures Render(pieces[2..]) == RenderPiece(pieces[2]) + Render(pieces[3..])
  {
    hide Render, RenderPiece;
    RenderFirst(pieces);
    RenderFirst(pieces[1..]);
    RenderFirst(pieces[2..]);
    assert pieces[1..][1..] == pieces[2..] && pieces[2..][1..] == pieces[3..];
  }

  lemma PrefixSpelled(base: string)
    ensures var after := Render(LaunchPrefix(base)[2..]);
            && Render(LaunchPrefix(base)) == "set -eu; " + ("base=" + (ShellEscape(base) + after))
            && after != "" && after[0] == ';'
  {
    hide Render, ShellEscape, LaunchPrefix;
    PrefixStarts(base);
    RenderThree(LaunchPrefix(base));
    var after := Render(LaunchPrefix(base)[2..]);
    Assigned(ShellEscape(base) + after);
  }

  lemma Assigned(s: string)
    ensures "set -eu; base=" + s == "set -eu; " + ("base=" + s)
  {
    assert "set -eu; base=" == "set -eu; " + "base=";
  }

  /** An assignment of an escaped value is one word, which gives the parameter that value. */
  lemma AssignmentRead(value: string, after: string)
    requires after != "" && after[0] == ';'
    ensures ScanWord("base=" + (ShellEscape(value) + after), Bare, "") == Word("base=" + value, after)
  {
    hide ShellEscape, ScanWord;
    ScanPlain("base=", ShellEscape(value) + after, "");
    assert "" + "base=" == "base=";
    ScanEscaped(value, after, "base=");
    WordEnds(after, "base=" + value);
  }

  lemma WordEnds(after: string, text: string)
    requires after != "" && after[0] == ';'
    ensures ScanWord(after, Bare, text) == Word(text, after)
  {
  }

  /** And the directory in these names is what the script assigns to `base`. */
  lemma LaunchAssignsBase(base: string)
    ensures var script := Render(LaunchPrefix(base));
            && "set -eu; " <= script
            && ScanWord(script[|"set -eu; "|..], Bare, "") == Word("base=" + base, Render(LaunchPrefix(base)[2..]))
  {
    hide Render, ShellEscape, ScanWord, LaunchPrefix;
    PrefixStarts(base);
    PrefixSpelled(base);
    var after := Render(LaunchPrefix(base)[2..]);
    AssignmentRead(base, after);
    var s := "base=" + (ShellEscape(base) + after);
    assert ("set -eu; " + s)[|"set -eu; "|..] == s;
  }

  /** `process_launch_command` */
  function LaunchText(id: ProcessId, command: seq<string>): string {
    LaunchCommand(ProcessDir(id), command, ExitCodePath(id))
  }

  /** What follows the words with which the launch script starts the process opens exactly the two files
      that the record names. */
  predicate LogsAsRecorded(p: ProcessInfo) {
    var script, before := LaunchText(p.id, p.command), Render(LaunchPrefix(ProcessDir(p.id)));
    && before <= script
    && var start := ScanCommand(script[|before|..]);
       && start.Words? && Redirects(start.rest, ProcessDir(p.id)) == [(1, p.stdoutPath), (2, p.stderrPath)]
  }

  lemma SkipsBlank(s: string, base: string)
    requires s != "" && s[0] == ' '
    ensures Redirects(s[1..], base) == Redirects(s, base)
  {
    assert ReadRedirect(s[1..], base) == ReadRedirect(s, base) by {
      assert SkipBlanks(s) == SkipBlanks(s[1..]);
    }
  }

  lemma ShapedLogs(p: ProcessInfo)
    requires Shaped(p)
    ensures LogsAsRecorded(p)
  {
    hide Redirects, Render, ProcessDir, ExitCodePath, StdoutPath, StderrPath, ScanCommand, ModeAfter, LaunchPrefix;
    hide LaunchCommand, Wrapped;
    LaunchOpensRecordedFiles(p.id);
    LaunchDeliversCommand(ProcessDir(p.id), p.command, ExitCodePath(p.id));
    SuffixStarts();
    SkipsBlank(Render(LAUNCH_SUFFIX), ProcessDir(p.id));
    LaunchStarts(ProcessDir(p.id), p.command, ExitCodePath(p.id));
  }

  lemma LaunchStarts(base: string, command: seq<string>, exitPath: string)
    ensures Render(LaunchPrefix(base)) <= LaunchCommand(base, command, exitPath)
  {
    hide Render, LaunchPrefix, ShellEscape, Wrapped;
  }

  // ---- No two processes share a file ----

  lemma {:induction false} IdTextInjective(m: nat, n: nat)
    requires IdText(m) == IdText(n)
    ensures m == n
  {
    IdTextLast(m);
    IdTextLast(n);
    if m >= 10 && n >= 10 {
      assert IdText(m / 10) == IdText(m)[..|IdText(m)| - 1] && IdText(n / 10) == IdText(n)[..|IdText(n)| - 1];
      IdTextInjective(m / 10, n / 10);
    }
  }

  lemma {:induction false} IdTextLast(n: nat)
    ensures |IdText(n)| >= 1 && IdText(n)[|IdText(n)| - 1] as int == '0' as int + n % 10
    ensures |IdText(n)| == 1 <==> n < 10
  {
    if n >= 10 { IdTextLast(n / 10); }
  }

  lemma PathsDiffer(j: ProcessId, k: ProcessId)
    ensures StdoutPath(j) == StdoutPath(k) || StderrPath(j) == StderrPath(k) ==> j == k
    ensures StdoutPath(j) != StderrPath(k)
  {
    hide IdText;
    var dir := ".hyperbox/processes/";
    var x, y := IdText(j), IdText(k);
    assert forall file: string, z: string :: (dir + z + file)[|dir|..|dir| + |z|] == z;
    if StdoutPath(j) == StdoutPath(k) || StderrPath(j) == StderrPath(k) {
      assert |x| == |y|;
      assert x == StdoutPath(j)[|dir|..|dir| + |x|] == StderrPath(j)[|dir|..|dir| + |x|];
      assert y == StdoutPath(k)[|dir|..|dir| + |y|] == StderrPath(k)[|dir|..|dir| + |y|];
      IdTextInjective(j, k);
    }
    var p, q := StdoutPath(j), StderrPath(k);
    assert p[|p| - 8] == 'd' && q[|q| - 8] == 'd';
    assert p[|p| - 5] == 't' && q[|q| - 5] == 'r';
  }
}
