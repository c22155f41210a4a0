/** Quoting an argument list for a remote command line, and the splitting it must survive. */
module Quoting {
  import opened Options

  datatype RemoteShell = Posix | PowerShell | Cmd

  // What the three quoters produce.

  function PosixBody(arg: string): string {
    if |arg| == 0 then "" else PosixBody(arg[..|arg| - 1]) + PosixPiece(arg[|arg| - 1])
  }

  function PosixPiece(c: char): string {
    if c == '\'' then "'\\''" else [c]
  }

  function PowerShellBody(arg: string): string {
    if |arg| == 0 then "" else PowerShellBody(arg[..|arg| - 1]) + PowerShellPiece(arg[|arg| - 1])
  }

  function PowerShellPiece(c: char): string {
    if c == '\'' then "''" else [c]
  }

  function Slashes(n: nat): (s: string)
    ensures |s| == n
  {
    seq(n, _ => '\\')
  }

  function Leading(arg: string): (n: nat)
    ensures n <= |arg| && arg[..n] == Slashes(n) && (n < |arg| ==> arg[n] != '\\')
  {
    if |arg| == 0 || arg[0] != '\\' then 0
    else
      var n := Leading(arg[1..]);
      assert arg[..n + 1] == [arg[0]] + arg[1..][..n];
      n + 1
  }

  /** The inside of a double-quoted Windows argument: backslashes double only before a quote or the end. */
  function CmdBody(arg: string): string
    decreases |arg|, 1
  {
    if |arg| == 0 then "" else CmdFrom(arg, Leading(arg))
  }

  function CmdFrom(arg: string, n: nat): string
    requires n <= |arg|
    decreases |arg|, 0
  {
    if n == |arg| then Slashes(2 * n)
    else if arg[n] == '"' then Slashes(2 * n + 1) + "\"" + CmdBody(arg[n + 1..])
    else Slashes(n) + [arg[n]] + CmdBody(arg[n + 1..])
  }

  predicate Special(c: char) {
    c == ' ' || c == '\t' || c == '\n' || c == '\U{0B}' || c == '"'
  }

  predicate NeedsQuotes(arg: string) {
    arg == "" || exists i :: 0 <= i < |arg| && Special(arg[i])
  }

  function Quoted(shell: RemoteShell, arg: string): string {
    match shell
    case Posix => "'" + PosixBody(arg) + "'"
    case PowerShell => "'" + PowerShellBody(arg) + "'"
    case Cmd => if NeedsQuotes(arg) then "\"" + CmdBody(arg) + "\"" else arg
  }

  function Line(shell: RemoteShell, argv: seq<string>): string {
    if |argv| == 0 then ""
    else if |argv| == 1 then Quoted(shell, argv[0])
    else Line(shell, argv[..|argv| - 1]) + " " + Quoted(shell, argv[|argv| - 1])
  }

  lemma {:induction false} CmdBodyGrows(arg: string)
    ensures |CmdBody(arg)| >= |arg|
    decreases |arg|
  {
    if |arg| > 0 {
      var n := Leading(arg);
      if n < |arg| { CmdBodyGrows(arg[n + 1..]); }
    }
  }

  /** For Windows a simple token is left bare, and nothing else is. */
  lemma BareIffSimple(arg: string)
    ensures Quoted(Cmd, arg) == arg <==>
            arg != "" && forall i :: 0 <= i < |arg| ==> arg[i] !in [' ', '\t', '\n', '\U{0B}', '"']
    ensures Quoted(Cmd, arg) != arg ==> Quoted(Cmd, arg) == "\"" + CmdBody(arg) + "\""
  {
    CmdBodyGrows(arg);
    hide CmdBody;
    assert forall c :: c in [' ', '\t', '\n', '\U{0B}', '"'] <==> Special(c);
  }

  // The quoters as written.

  method QuotePosixArg(arg: string) returns (out: string)
    ensures out == Quoted(Posix, arg)
  {
    out := "'";
    for i := 0 to |arg|
      invariant out == "'" + PosixBody(arg[..i])
    {
      assert arg[..i + 1][..i] == arg[..i];
      if arg[i] == '\'' {
        out := out + "'\\''";
      } else {
        out := out + [arg[i]];
      }
    }
    assert arg[..|arg|] == arg;
    out := out + "'";
  }

  method QuotePowerShellArg(arg: string) returns (out: string)
    ensures out == Quoted(PowerShell, arg)
  {
    out := "'";
    for i := 0 to |arg|
      invariant out == "'" + PowerShellBody(arg[..i])
    {
      assert arg[..i + 1][..i] == arg[..i];
      if arg[i] == '\'' {
        out := out + "''";
      } else {
        out := out + [arg[i]];
      }
    }
    assert arg[..|arg|] == arg;
    out := out + "'";
  }

  method QuoteCmdArg(arg: string) returns (out: string)
    ensures out == Quoted(Cmd, arg)
  {
    if !NeedsQuotes(arg) {
      return arg;
    }
    var body := EscapeInside(arg);
    out := "\"" + body + "\"";
  }

  method EscapeInside(arg: string) returns (out: string)
    ensures out == CmdBody(arg)
  {
    hide CmdBody, Leading, Slashes;
    out := "";
    var i := 0;
    assert arg[0..] == arg;
    NothingBefore(CmdBody(arg));
    while i < |arg|
      invariant 0 <= i <= |arg| && out + CmdBody(arg[i..]) == CmdBody(arg)
      decreases |arg| - i
    {
      hide CmdBody, Leading, Slashes;
      var backslashes := CountBackslashes(arg, i);
      CmdStep(arg, i, out, backslashes);
      i := i + backslashes;
      if i == |arg| {
        out := out + Slashes(backslashes * 2);
        assert arg[i..] == arg[|arg|..];
        break;
      }
      if arg[i] == '"' {
        out := out + Slashes(backslashes * 2 + 1) + "\"";
      } else {
        out := out + Slashes(backslashes) + [arg[i]];
      }
      i := i + 1;
    }
    CmdOfNothing(arg[i..]);
    NothingMore(out, CmdBody(arg[i..]));
  }

  lemma NothingBefore(s: string)
    ensures "" + s == s
  {
  }

  lemma NothingMore(a: string, b: string)
    requires |b| == 0
    ensures a + b == a
  {
  }

  method CountBackslashes(arg: string, start: nat) returns (n: nat)
    requires start < |arg|
    ensures n == Leading(arg[start..])
  {
    n := 0;
    while start + n < |arg| && arg[start + n] == '\\'
      invariant start + n <= |arg| && Leading(arg[start..]) == n + Leading(arg[start + n..])
    {
      assert arg[start + n..][1..] == arg[start + n + 1..];
      n := n + 1;
    }
  }

  lemma Assoc(a: string, b: string, c: string, d: string)
    ensures a + (b + c + d) == a + b + c + d
  {
  }

  lemma Open(a: string, b: string, c: string)
    ensures a + b + c == a + (b + c)
  {
  }

  lemma CmdStep(arg: string, i: nat, out: string, n: nat)
    requires i < |arg| && n == Leading(arg[i..])
    ensures i + n <= |arg|
    ensures i + n == |arg| ==> out + Slashes(n * 2) + CmdBody(arg[|arg|..]) == out + CmdBody(arg[i..])
    ensures i + n < |arg| && arg[i + n] == '"' ==>
              out + Slashes(n * 2 + 1) + "\"" + CmdBody(arg[i + n + 1..]) == out + CmdBody(arg[i..])
    ensures i + n < |arg| && arg[i + n] != '"' ==>
              out + Slashes(n) + [arg[i + n]] + CmdBody(arg[i + n + 1..]) == out + CmdBody(arg[i..])
  {
    hide CmdBody, Slashes;
    var rest := arg[i..];
    CmdUnfold(rest);
    if i + n == |arg| {
      CmdOfNothing(arg[|arg|..]);
    } else {
      assert rest[n + 1..] == arg[i + n + 1..] && rest[n] == arg[i + n];
      Assoc(out, Slashes(2 * n + 1), "\"", CmdBody(rest[n + 1..]));
      Assoc(out, Slashes(n), [arg[i + n]], CmdBody(rest[n + 1..]));
    }
  }

  lemma CmdOfNothing(s: string)
    requires |s| == 0
    ensures CmdBody(s) == ""
  {
  }

  lemma CmdUnfold(rest: string)
    requires |rest| > 0
    ensures CmdBody(rest) == CmdFrom(rest, Leading(rest))
  {
    hide Slashes, Leading;
  }

  method QuoteRemoteCommand(argv: seq<string>, shell: RemoteShell) returns (out: string)
    ensures out == Line(shell, argv)
  {
    out := "";
    for i := 0 to |argv|
      invariant out == Line(shell, argv[..i])
    {
      assert argv[..i + 1][..i] == argv[..i];
      if i != 0 {
        out := out + " ";
      }
      var part: string;
      match shell {
        case Cmd => part := QuoteCmdArg(argv[i]);
        case PowerShell => part := QuotePowerShellArg(argv[i]);
        case Posix => part := QuotePosixArg(argv[i]);
      }
      out := out + part;
    }
    assert argv[..|argv|] == argv;
  }

  // Splitting by the rules of the POSIX shell (sections 2.2.1, 2.2.2 and 2.3 of the POSIX Shell Command Language).

  datatype Mode = Plain | Escaped | Single

  /** Words read so far, the one being read, and how the next character is taken. */
  datatype Reader = Reader(words: seq<string>, word: Option<string>, mode: Mode)

  function Text(word: Option<string>): string {
    if word.Some? then word.value else ""
  }

  function Ended(words: seq<string>, word: Option<string>): seq<string> {
    if word.Some? then words + [word.value] else words
  }

  /** Characters that mean more than themselves to an unquoted shell word. */
  predicate Meta(c: char) {
    c in "|&;<>()$`\"\n*?[]#~=%!{}^"
  }

  /** One character; nothing if the shell would do more than split words. */
  function PosixStep(r: Reader, c: char): Option<Reader> {
    match r.mode
    case Single => Some(if c == '\'' then r.(mode := Plain) else r.(word := Some(Text(r.word) + [c])))
    case Escaped => Some(if c == '\n' then r.(mode := Plain) else Reader(r.words, Some(Text(r.word) + [c]), Plain))
    case Plain =>
      if c == '\'' then Some(Reader(r.words, Some(Text(r.word)), Single))
      else if c == '\\' then Some(r.(mode := Escaped))
      else if c == ' ' || c == '\t' then Some(Reader(Ended(r.words, r.word), None, Plain))
      else if Meta(c) then None
      else Some(Reader(r.words, Some(Text(r.word) + [c]), Plain))
  }

  function PosixRun(r: Reader, s: string): Option<Reader> {
    if |s| == 0 then Some(r)
    else match PosixRun(r, s[..|s| - 1]) case None => None case Some(r') => PosixStep(r', s[|s| - 1])
  }

  /** The words of a command line, if it is made of quoted and plain text alone. */
  function PosixSplit(s: string): Option<seq<string>> {
    match PosixRun(Reader([], None, Plain), s)
    case None => None
    case Some(r) => if r.mode.Plain? then Some(Ended(r.words, r.word)) else None
  }

  lemma {:induction false} PosixRunAppend(r: Reader, a: string, b: string)
    ensures PosixRun(r, a + b) ==
            match PosixRun(r, a) case None => None case Some(r') => PosixRun(r', b)
    decreases |b|
  {
    if |b| == 0 {
      assert a + b == a;
    } else {
      assert (a + b)[..|a + b| - 1] == a + b[..|b| - 1];
      PosixRunAppend(r, a, b[..|b| - 1]);
    }
  }

  lemma PosixOfNothing(r: Reader, s: string)
    requires |s| == 0
    ensures PosixRun(r, s) == Some(r)
  {
  }

  lemma PosixRunOne(r: Reader, c: char)
    ensures PosixRun(r, [c]) == PosixStep(r, c)
  {
    PosixOfNothing(r, [c][..0]);
  }

  /** Inside single quotes a character, or its escaped form, adds itself. */
  lemma PosixPieceRuns(words: seq<string>, w: string, c: char)
    ensures PosixRun(Reader(words, Some(w), Single), PosixPiece(c)) == Some(Reader(words, Some(w + [c]), Single))
  {
    var r := Reader(words, Some(w), Single);
    if c == '\'' {
      assert "'\\''" == ['\''] + (['\\'] + (['\''] + ['\'']));
      PosixRunAppend(r, ['\''], ['\\'] + (['\''] + ['\'']));
      PosixRunOne(r, '\'');
      var r1 := Reader(words, Some(w), Plain);
      PosixRunAppend(r1, ['\\'], ['\''] + ['\'']);
      PosixRunOne(r1, '\\');
      var r2 := Reader(words, Some(w), Escaped);
      PosixRunAppend(r2, ['\''], ['\'']);
      PosixRunOne(r2, '\'');
      PosixRunOne(Reader(words, Some(w + ['\'']), Plain), '\'');
    } else {
      PosixRunOne(r, c);
    }
  }

  lemma {:induction false} PosixBodyRuns(words: seq<string>, w: string, arg: string)
    ensures PosixRun(Reader(words, Some(w), Single), PosixBody(arg)) == Some(Reader(words, Some(w + arg), Single))
    decreases |arg|
  {
    hide PosixRun;
    if |arg| == 0 {
      PosixOfNothing(Reader(words, Some(w), Single), PosixBody(arg));
      assert w + arg == w;
    } else {
      var init, c := arg[..|arg| - 1], arg[|arg| - 1];
      PosixBodyRuns(words, w, init);
      PosixRunAppend(Reader(words, Some(w), Single), PosixBody(init), PosixPiece(c));
      PosixPieceRuns(words, w + init, c);
      assert (w + init) + [c] == w + arg;
    }
  }

  lemma PosixArgRuns(words: seq<string>, arg: string)
    ensures PosixRun(Reader(words, None, Plain), Quoted(Posix, arg)) == Some(Reader(words, Some(arg), Plain))
  {
    var r := Reader(words, None, Plain);
    PosixRunAppend(r, "'" + PosixBody(arg), "'");
    PosixRunAppend(r, "'", PosixBody(arg));
    PosixRunOne(r, '\'');
    PosixBodyRuns(words, "", arg);
    assert "" + arg == arg;
    PosixRunOne(Reader(words, Some(arg), Single), '\'');
  }

  lemma {:induction false} PosixLineRuns(argv: seq<string>)
    requires |argv| > 0
    ensures PosixRun(Reader([], None, Plain), Line(Posix, argv)) ==
            Some(Reader(argv[..|argv| - 1], Some(argv[|argv| - 1]), Plain))
    decreases |argv|
  {
    hide PosixRun, Quoted;
    var r := Reader([], None, Plain);
    var init, last := argv[..|argv| - 1], argv[|argv| - 1];
    if |argv| == 1 {
      PosixArgRuns([], last);
      assert init == [];
    } else {
      PosixLineRuns(init);
      var before := Line(Posix, init);
      PosixRunAppend(r, before + " ", Quoted(Posix, last));
      PosixRunAppend(r, before, " ");
      var r1 := Reader(init[..|init| - 1], Some(init[|init| - 1]), Plain);
      PosixRunOne(r1, ' ');
      assert init[..|init| - 1] + [init[|init| - 1]] == init;
      PosixArgRuns(init, last);
    }
  }

  lemma EmptyLine(shell: RemoteShell, argv: seq<string>)
    requires |argv| == 0
    ensures |Line(shell, argv)| == 0
  {
  }

  /** A POSIX shell recovers exactly the argument list, and meets nothing else to interpret. */
  lemma PosixRoundTrip(argv: seq<string>)
    ensures PosixSplit(Line(Posix, argv)) == Some(argv)
  {
    hide PosixRun, Line;
    if |argv| > 0 {
      PosixLineRuns(argv);
      assert argv[..|argv| - 1] + [argv[|argv| - 1]] == argv;
    } else {
      EmptyLine(Posix, argv);
      PosixOfNothing(Reader([], None, Plain), Line(Posix, argv));
      assert argv == [];
    }
  }

  // Splitting by PowerShell's rule for single-quoted text: of two quotes in a row the second is literal. PowerShell takes
  // the typographic single quotes for quotes too.

  predicate Curly(c: char) {
    '\U{2018}' <= c <= '\U{201B}'
  }

  predicate PsQuote(c: char) {
    c == '\'' || Curly(c)
  }

  /** No character that PowerShell takes for a quote and the quoter leaves alone. */
  predicate Straight(arg: string) {
    forall i :: 0 <= i < |arg| ==> !Curly(arg[i])
  }

  datatype PsMode = PsPlain | PsQuoted | PsAfterQuote

  /** `PsAfterQuote`: a quote inside quoted text, which ends it unless another quote follows. */
  datatype PsReader = PsReader(words: seq<string>, word: Option<string>, mode: PsMode)

  /** Text outside quotes is left to the shell: only separators are split here. */
  function PsStep(r: PsReader, c: char): Option<PsReader> {
    match r.mode
    case PsQuoted => Some(if PsQuote(c) then r.(mode := PsAfterQuote) else r.(word := Some(Text(r.word) + [c])))
    case PsAfterQuote =>
      if PsQuote(c) then Some(PsReader(r.words, Some(Text(r.word) + [c]), PsQuoted))
      else if c == ' ' then Some(PsReader(Ended(r.words, r.word), None, PsPlain))
      else None
    case PsPlain =>
      if PsQuote(c) then Some(PsReader(r.words, Some(Text(r.word)), PsQuoted))
      else if c == ' ' then Some(r)
      else None
  }

  function PsRun(r: PsReader, s: string): Option<PsReader> {
    if |s| == 0 then Some(r)
    else match PsRun(r, s[..|s| - 1]) case None => None case Some(r') => PsStep(r', s[|s| - 1])
  }

  function PsSplit(s: string): Option<seq<string>> {
    match PsRun(PsReader([], None, PsPlain), s)
    case None => None
    case Some(r) => if r.mode.PsQuoted? then None else Some(Ended(r.words, r.word))
  }

  lemma {:induction false} PsRunAppend(r: PsReader, a: string, b: string)
    ensures PsRun(r, a + b) == match PsRun(r, a) case None => None case Some(r') => PsRun(r', b)
    decreases |b|
  {
    if |b| == 0 {
      assert a + b == a;
    } else {
      assert (a + b)[..|a + b| - 1] == a + b[..|b| - 1];
      PsRunAppend(r, a, b[..|b| - 1]);
    }
  }

  lemma PsOfNothing(r: PsReader, s: string)
    requires |s| == 0
    ensures PsRun(r, s) == Some(r)
  {
  }

  lemma PsRunOne(r: PsReader, c: char)
    ensures PsRun(r, [c]) == PsStep(r, c)
  {
    PsOfNothing(r, [c][..0]);
  }

  lemma PsPieceRuns(words: seq<string>, w: string, c: char)
    requires !Curly(c)
    ensures PsRun(PsReader(words, Some(w), PsQuoted), PowerShellPiece(c)) == Some(PsReader(words, Some(w + [c]), PsQuoted))
  {
    var r := PsReader(words, Some(w), PsQuoted);
    PsRunOne(r, c);
    if c == '\'' {
      assert "''" == ['\''] + ['\''];
      PsRunAppend(r, ['\''], ['\'']);
      PsRunOne(PsReader(words, Some(w), PsAfterQuote), '\'');
    }
  }

  lemma {:induction false} PsBodyRuns(words: seq<string>, w: string, arg: string)
    requires Straight(arg)
    ensures PsRun(PsReader(words, Some(w), PsQuoted), PowerShellBody(arg)) == Some(PsReader(words, Some(w + arg), PsQuoted))
    decreases |arg|
  {
    hide PsRun;
    if |arg| == 0 {
      PsOfNothing(PsReader(words, Some(w), PsQuoted), PowerShellBody(arg));
      assert w + arg == w;
    } else {
      var init, c := arg[..|arg| - 1], arg[|arg| - 1];
      PsBodyRuns(words, w, init);
      PsRunAppend(PsReader(words, Some(w), PsQuoted), PowerShellBody(init), PowerShellPiece(c));
      PsPieceRuns(words, w + init, c);
      assert (w + init) + [c] == w + arg;
    }
  }

  lemma PsArgRuns(words: seq<string>, arg: string)
    requires Straight(arg)
    ensures PsRun(PsReader(words, None, PsPlain), Quoted(PowerShell, arg)) == Some(PsReader(words, Some(arg), PsAfterQuote))
  {
    var r := PsReader(words, None, PsPlain);
    PsRunAppend(r, "'" + PowerShellBody(arg), "'");
    PsRunAppend(r, "'", PowerShellBody(arg));
    PsRunOne(r, '\'');
    PsBodyRuns(words, "", arg);
    assert "" + arg == arg;
    PsRunOne(PsReader(words, Some(arg), PsQuoted), '\'');
  }

  predicate AllStraight(argv: seq<string>) {
    forall i :: 0 <= i < |argv| ==> Straight(argv[i])
  }

  lemma {:induction false} PsLineRuns(argv: seq<string>)
    requires |argv| > 0 && AllStraight(argv)
    ensures PsRun(PsReader([], None, PsPlain), Line(PowerShell, argv)) ==
            Some(PsReader(argv[..|argv| - 1], Some(argv[|argv| - 1]), PsAfterQuote))
    decreases |argv|
  {
    hide PsRun, Quoted;
    var r := PsReader([], None, PsPlain);
    var init, last := argv[..|argv| - 1], argv[|argv| - 1];
    if |argv| == 1 {
      PsArgRuns([], last);
      assert init == [];
    } else {
      PsLineRuns(init);
      var before := Line(PowerShell, init);
      PsRunAppend(r, before + " ", Quoted(PowerShell, last));
      PsRunAppend(r, before, " ");
      PsRunOne(PsReader(init[..|init| - 1], Some(init[|init| - 1]), PsAfterQuote), ' ');
      assert init[..|init| - 1] + [init[|init| - 1]] == init;
      PsArgRuns(init, last);
    }
  }

  lemma StraightSurvives(argv: seq<string>)
    requires AllStraight(argv)
    ensures PsSplit(Line(PowerShell, argv)) == Some(argv)
  {
    hide PsRun, Line, AllStraight;
    if |argv| > 0 {
      PsLineRuns(argv);
      assert argv[..|argv| - 1] + [argv[|argv| - 1]] == argv;
    } else {
      EmptyLine(PowerShell, argv);
      PsOfNothing(PsReader([], None, PsPlain), Line(PowerShell, argv));
      assert argv == [];
    }
  }

  /** Word `k` can no longer become `a`. */
  predicate Lost(r: PsReader, k: nat, a: string) {
    (|r.words| > k && r.words[k] != a) || (|r.words| == k && r.word.Some? && !(r.word.value <= a))
  }

  lemma LostStep(r: PsReader, k: nat, a: string, c: char)
    requires Lost(r, k, a)
    ensures PsStep(r, c).Some? ==> Lost(PsStep(r, c).value, k, a)
  {
  }

  lemma {:induction false} LostStays(r: PsReader, k: nat, a: string, s: string)
    requires Lost(r, k, a)
    ensures PsRun(r, s).Some? ==> Lost(PsRun(r, s).value, k, a)
    decreases |s|
  {
    if |s| > 0 {
      LostStays(r, k, a, s[..|s| - 1]);
      var o := PsRun(r, s[..|s| - 1]);
      if o.Some? { LostStep(o.value, k, a, s[|s| - 1]); }
    }
  }

  /** Reading `a[..i]` has taken one curly quote for a quote and is behind, in a stretch of nothing but curly quotes. */
  predicate Lagging(r: PsReader, words: seq<string>, a: string, p: nat, i: nat) {
    && i <= |a| && r.words == words && r.word.Some? && p <= |r.word.value| < i && r.word.value == a[..|r.word.value|]
    && (forall j :: p <= j < i ==> Curly(a[j])) && !r.mode.PsPlain?
  }

  predicate Strays(o: Option<PsReader>, words: seq<string>, a: string, p: nat, i: nat) {
    o.Some? ==> Lost(o.value, |words|, a) || Lagging(o.value, words, a, p, i)
  }

  lemma WrongNext(a: string, m: nat, c: char)
    requires m < |a| && c != a[m]
    ensures !(a[..m] + [c] <= a)
  {
    assert (a[..m] + [c])[m] == c;
  }

  /** A character that is no curly quote: a literal apostrophe or itself. */
  lemma LagEnds(r: PsReader, words: seq<string>, a: string, p: nat, i: nat, c: char)
    requires Lagging(r, words, a, p, i) && !Curly(c) && (r.mode.PsQuoted? ==> c != '\'')
    ensures PsStep(r, c).Some? ==> Lost(PsStep(r, c).value, |words|, a)
  {
    var m := |r.word.value|;
    WrongNext(a, m, c);
  }

  lemma LagGoesOn(r: PsReader, words: seq<string>, a: string, p: nat, i: nat)
    requires Lagging(r, words, a, p, i) && i < |a| && Curly(a[i])
    ensures Strays(PsStep(r, a[i]), words, a, p, i + 1)
  {
    var m := |r.word.value|;
    if a[i] == a[m] {
      assert a[..m] + [a[m]] == a[..m + 1];
    } else {
      WrongNext(a, m, a[i]);
    }
  }

  lemma LagPiece(r: PsReader, words: seq<string>, a: string, p: nat, i: nat)
    requires Lagging(r, words, a, p, i) && i < |a|
    ensures Strays(PsRun(r, PowerShellPiece(a[i])), words, a, p, i + 1)
  {
    hide PsRun, Lagging, Lost, PsStep;
    var c := a[i];
    PsRunOne(r, c);
    if Curly(c) {
      LagGoesOn(r, words, a, p, i);
    } else if c != '\'' {
      LagEnds(r, words, a, p, i, c);
    } else {
      assert "''" == ['\''] + ['\''];
      PsRunAppend(r, ['\''], ['\'']);
      LagTwice(r, words, a, p, i);
    }
  }

  lemma LagTwice(r: PsReader, words: seq<string>, a: string, p: nat, i: nat)
    requires Lagging(r, words, a, p, i)
    ensures var o := PsStep(r, '\'');
            o.Some? && (PsRun(o.value, ['\'']).Some? ==> Lost(PsRun(o.value, ['\'']).value, |words|, a))
  {
    hide PsRun, Lost;
    var o := PsStep(r, '\'');
    PsRunOne(o.value, '\'');
    if r.mode.PsQuoted? {
      LagEnds(o.value, words, a, p, i, '\'');
    } else {
      LagEnds(r, words, a, p, i, '\'');
      LostStays(o.value, |words|, a, ['\'']);
    }
  }

  /** From the first curly quote on, the body of the argument leads astray. */
  lemma {:induction false} BodyStrays(words: seq<string>, a: string, p: nat, i: nat)
    requires p < i <= |a| && Straight(a[..p]) && Curly(a[p])
    ensures Strays(PsRun(PsReader(words, Some(""), PsQuoted), PowerShellBody(a[..i])), words, a, p, i)
    decreases i
  {
    hide PsRun, Strays, PsStep, Straight, PowerShellBody;
    var r := PsReader(words, Some(""), PsQuoted);
    var before, c := a[..i - 1], a[i - 1];
    BodyUnfold(a, i);
    PsRunAppend(r, PowerShellBody(before), PowerShellPiece(c));
    if i == p + 1 {
      PsBodyRuns(words, "", before);
      assert "" + before == before;
      PsRunOne(PsReader(words, Some(before), PsQuoted), c);
      FirstLag(words, a, p);
    } else {
      BodyStrays(words, a, p, i - 1);
      var o := PsRun(r, PowerShellBody(before));
      StrayPiece(o, words, a, p, i - 1);
    }
  }

  lemma BodyUnfold(a: string, i: nat)
    requires 0 < i <= |a|
    ensures PowerShellBody(a[..i]) == PowerShellBody(a[..i - 1]) + PowerShellPiece(a[i - 1])
  {
    assert a[..i][..i - 1] == a[..i - 1];
  }

  lemma FirstLag(words: seq<string>, a: string, p: nat)
    requires p < |a| && Curly(a[p])
    ensures Strays(PsStep(PsReader(words, Some(a[..p]), PsQuoted), a[p]), words, a, p, p + 1)
  {
  }

  lemma StrayPiece(o: Option<PsReader>, words: seq<string>, a: string, p: nat, i: nat)
    requires Strays(o, words, a, p, i) && i < |a|
    ensures Strays(if o.None? then None else PsRun(o.value, PowerShellPiece(a[i])), words, a, p, i + 1)
  {
    hide PsRun, Lost, Lagging;
    if o.Some? {
      if Lagging(o.value, words, a, p, i) {
        LagPiece(o.value, words, a, p, i);
      } else {
        LostStays(o.value, |words|, a, PowerShellPiece(a[i]));
      }
    }
  }

  /** After its closing quote word `k` is beyond repair, or ended too short. */
  predicate Wrong(o: Option<PsReader>, k: nat, a: string) {
    o.Some? ==>
      || Lost(o.value, k, a)
      || (|o.value.words| == k && o.value.mode.PsAfterQuote? && o.value.word.Some? && o.value.word.value != a)
  }

  lemma StrayCloses(o: Option<PsReader>, words: seq<string>, a: string, p: nat)
    requires Strays(o, words, a, p, |a|)
    ensures Wrong(if o.None? then None else PsStep(o.value, '\''), |words|, a)
  {
    if o.Some? {
      if Lagging(o.value, words, a, p, |a|) {
        if !o.value.mode.PsQuoted? { LagEnds(o.value, words, a, p, |a|, '\''); }
      } else {
        LostStep(o.value, |words|, a, '\'');
      }
    }
  }

  lemma {:induction false} FirstCurly(a: string) returns (p: nat)
    requires !Straight(a)
    ensures p < |a| && Straight(a[..p]) && Curly(a[p])
    decreases |a|
  {
    var n := |a| - 1;
    if Straight(a[..n]) {
      p := n;
    } else {
      p := FirstCurly(a[..n]);
      assert a[..n][..p] == a[..p];
    }
  }

  lemma ArgStrays(words: seq<string>, a: string)
    requires !Straight(a)
    ensures Wrong(PsRun(PsReader(words, None, PsPlain), Quoted(PowerShell, a)), |words|, a)
  {
    hide PsRun, Straight, Wrong, Strays;
    var p := FirstCurly(a);
    var r := PsReader(words, None, PsPlain);
    PsRunAppend(r, "'" + PowerShellBody(a), "'");
    PsRunAppend(r, "'", PowerShellBody(a));
    PsRunOne(r, '\'');
    BodyStrays(words, a, p, |a|);
    assert a[..|a|] == a;
    var o := PsRun(PsReader(words, Some(""), PsQuoted), PowerShellBody(a));
    if o.Some? { PsRunOne(o.value, '\''); }
    StrayCloses(o, words, a, p);
  }

  /** What follows the next separator does not mend it. */
  lemma WrongStays(r: PsReader, k: nat, a: string, s: string)
    requires Wrong(Some(r), k, a)
    ensures Wrong(PsRun(r, " " + s), k, a)
  {
    PsRunAppend(r, " ", s);
    PsRunOne(r, ' ');
    hide PsRun;
    var o := PsStep(r, ' ');
    if o.Some? {
      assert Lost(o.value, k, a) by {
        if Lost(r, k, a) { LostStep(r, k, a, ' '); }
      }
      LostStays(o.value, k, a, s);
    }
  }

  lemma {:induction false} LineStrays(argv: seq<string>) returns (k: nat)
    requires !AllStraight(argv)
    ensures k < |argv| && Wrong(PsRun(PsReader([], None, PsPlain), Line(PowerShell, argv)), k, argv[k])
    decreases |argv|
  {
    hide PsRun, Quoted, Wrong, Straight;
    var r := PsReader([], None, PsPlain);
    var init, last := argv[..|argv| - 1], argv[|argv| - 1];
    if |argv| == 1 {
      k := 0;
      ArgStrays([], last);
    } else {
      var before := Line(PowerShell, init);
      assert Line(PowerShell, argv) == before + (" " + Quoted(PowerShell, last));
      PsRunAppend(r, before, " " + Quoted(PowerShell, last));
      if AllStraight(init) {
        k := |init|;
        PsLineRuns(init);
        var r' := PsReader(init[..|init| - 1], Some(init[|init| - 1]), PsAfterQuote);
        PsRunAppend(r', " ", Quoted(PowerShell, last));
        PsRunOne(r', ' ');
        assert init[..|init| - 1] + [init[|init| - 1]] == init;
        ArgStrays(init, last);
      } else {
        k := LineStrays(init);
        var o := PsRun(r, before);
        if o.Some? { WrongStays(o.value, k, argv[k], Quoted(PowerShell, last)); } else { NoneIsWrong(k, argv[k]); }
      }
    }
  }

  lemma NoneIsWrong(k: nat, a: string)
    ensures Wrong(None, k, a)
  {
  }

  lemma WrongShows(o: Option<PsReader>, argv: seq<string>, k: nat)
    requires k < |argv| && Wrong(o, k, argv[k])
    ensures o.Some? ==> Ended(o.value.words, o.value.word) != argv
  {
  }

  /** PowerShell gives back the argument list exactly when no argument holds a typographic single quote. */
  lemma PowerShellRoundTrip(argv: seq<string>)
    ensures PsSplit(Line(PowerShell, argv)) == Some(argv) <==> AllStraight(argv)
  {
    hide PsRun, Line, Straight;
    if AllStraight(argv) {
      StraightSurvives(argv);
    } else {
      var k := LineStrays(argv);
      WrongShows(PsRun(PsReader([], None, PsPlain), Line(PowerShell, argv)), argv, k);
    }
  }

  /** One such quote leaves the text unterminated. */
  lemma OneCurlyQuote()
    ensures PsSplit(Line(PowerShell, ["\U{2018}"])) == None
  {
    PsThree(PsReader([], None, PsPlain), '\'', '\U{2018}', '\'');
    hide PsRun;
    assert Line(PowerShell, ["\U{2018}"]) == ['\'', '\U{2018}', '\''] by { BodyOfOne('\U{2018}'); }
  }

  /** Of two in a row one is lost. */
  lemma TwoCurlyQuotes()
    ensures PsSplit(Line(PowerShell, ["\U{2018}\U{2019}"])) == Some(["\U{2019}"])
  {
    hide PsRun;
    var r, a := PsReader([], None, PsPlain), "\U{2018}\U{2019}";
    assert Line(PowerShell, [a]) == ['\''] + ['\U{2018}', '\U{2019}', '\''] by {
      BodyOfOne('\U{2018}');
      assert a[..1] == "\U{2018}";
    }
    PsRunAppend(r, ['\''], ['\U{2018}', '\U{2019}', '\'']);
    PsRunOne(r, '\'');
    PsThree(PsReader([], Some(""), PsQuoted), '\U{2018}', '\U{2019}', '\'');
    assert "" + ['\U{2019}'] == "\U{2019}" && [] + ["\U{2019}"] == ["\U{2019}"];
  }

  lemma BodyOfOne(c: char)
    ensures PowerShellBody([c]) == PowerShellPiece(c)
  {
    assert [c][..0] == "";
  }

  lemma PsThree(r: PsReader, a: char, b: char, c: char)
    requires PsStep(r, a).Some? && PsStep(PsStep(r, a).value, b).Some?
    ensures PsRun(r, [a, b, c]) == PsStep(PsStep(PsStep(r, a).value, b).value, c)
  {
    hide PsStep;
    PsRunAppend(r, [a], [b]);
    PsRunAppend(r, [a, b], [c]);
    assert [a, b] == [a] + [b] && [a, b, c] == [a, b] + [c];
    PsRunOne(r, a);
    PsRunOne(PsStep(r, a).value, b);
    PsRunOne(PsStep(PsStep(r, a).value, b).value, c);
  }

  // Splitting by the general-argument rule of CommandLineToArgvW.

  /** `slashes` counts backslashes whose meaning depends on what follows. */
  datatype WinReader = WinReader(words: seq<string>, word: Option<string>, quoted: bool, slashes: nat)

  /** The word so far if no quote follows: its pending backslashes stand for themselves. */
  function Literal(r: WinReader): Option<string> {
    if r.word.None? then None else Some(r.word.value + Slashes(r.slashes))
  }

  /** 2n backslashes and a quote: n backslashes, and the quote opens or closes. 2n+1: n backslashes and a literal quote.
      Backslashes before anything else are themselves. Unquoted spaces and tabs end a word. */
  function WinStep(r: WinReader, c: char): WinReader {
    if c == '\\' then r.(word := Some(Text(r.word)), slashes := r.slashes + 1)
    else if c == '"' then
      var word := Text(r.word) + Slashes(r.slashes / 2);
      if r.slashes % 2 == 1 then WinReader(r.words, Some(word + "\""), r.quoted, 0)
      else WinReader(r.words, Some(word), !r.quoted, 0)
    else if (c == ' ' || c == '\t') && !r.quoted then WinReader(Ended(r.words, Literal(r)), None, false, 0)
    else WinReader(r.words, Some(Text(Literal(r)) + [c]), r.quoted, 0)
  }

  function WinRun(r: WinReader, s: string): WinReader {
    if |s| == 0 then r else WinStep(WinRun(r, s[..|s| - 1]), s[|s| - 1])
  }

  function WinSplit(s: string): seq<string> {
    var r := WinRun(WinReader([], None, false, 0), s);
    Ended(r.words, Literal(r))
  }

  lemma {:induction false} WinRunAppend(r: WinReader, a: string, b: string)
    ensures WinRun(r, a + b) == WinRun(WinRun(r, a), b)
    decreases |b|
  {
    if |b| == 0 {
      assert a + b == a;
    } else {
      assert (a + b)[..|a + b| - 1] == a + b[..|b| - 1];
      WinRunAppend(r, a, b[..|b| - 1]);
    }
  }

  lemma WinOfNothing(r: WinReader, s: string)
    requires |s| == 0
    ensures WinRun(r, s) == r
  {
  }

  lemma WinRunOne(r: WinReader, c: char)
    ensures WinRun(r, [c]) == WinStep(r, c)
  {
    WinOfNothing(r, [c][..0]);
  }

  lemma {:induction false} WinSlashes(r: WinReader, n: nat)
    requires r.word.Some?
    ensures WinRun(r, Slashes(n)) == r.(slashes := r.slashes + n)
  {
    if n > 0 {
      assert Slashes(n)[..n - 1] == Slashes(n - 1);
      WinSlashes(r, n - 1);
    }
  }

  /** A run of doubled backslashes and an escaped quote adds the plain ones and the quote. */
  lemma WinQuotePiece(words: seq<string>, w: string, n: nat)
    ensures WinRun(WinReader(words, Some(w), true, 0), Slashes(2 * n + 1) + "\"") ==
            WinReader(words, Some(w + Slashes(n) + "\""), true, 0)
  {
    var r := WinReader(words, Some(w), true, 0);
    WinRunAppend(r, Slashes(2 * n + 1), "\"");
    WinSlashes(r, 2 * n + 1);
    WinRunOne(r.(slashes := 2 * n + 1), '"');
  }

  lemma WinPlainPiece(words: seq<string>, w: string, n: nat, c: char)
    requires c != '\\' && c != '"'
    ensures WinRun(WinReader(words, Some(w), true, 0), Slashes(n) + [c]) == WinReader(words, Some(w + Slashes(n) + [c]), true, 0)
  {
    var r := WinReader(words, Some(w), true, 0);
    WinRunAppend(r, Slashes(n), [c]);
    WinSlashes(r, n);
    WinRunOne(r.(slashes := n), c);
  }

  lemma WinClose(words: seq<string>, w: string, n: nat)
    ensures WinRun(WinReader(words, Some(w), true, 0), Slashes(2 * n) + "\"") == WinReader(words, Some(w + Slashes(n)), false, 0)
  {
    var r := WinReader(words, Some(w), true, 0);
    WinRunAppend(r, Slashes(2 * n), "\"");
    WinSlashes(r, 2 * n);
    WinRunOne(r.(slashes := 2 * n), '"');
  }

  lemma SplitLeading(arg: string, n: nat)
    requires n < |arg| && arg[..n] == Slashes(n)
    ensures Slashes(n) + [arg[n]] + arg[n + 1..] == arg
  {
    assert arg == arg[..n] + [arg[n]] + arg[n + 1..];
  }

  lemma {:induction false} WinBodyRuns(words: seq<string>, w: string, arg: string)
    ensures WinRun(WinReader(words, Some(w), true, 0), CmdBody(arg) + "\"") == WinReader(words, Some(w + arg), false, 0)
    decreases |arg|
  {
    hide WinRun, CmdBody, Slashes, Leading;
    var r := WinReader(words, Some(w), true, 0);
    if |arg| == 0 {
      WinClose(words, w, 0);
      CmdOfNothing(arg);
      assert |Slashes(0)| == 0;
      assert Slashes(2 * 0) == "" && w + Slashes(0) == w + arg;
    } else {
      var n := Leading(arg);
      CmdUnfold(arg);
      if n == |arg| {
        WinClose(words, w, n);
        assert arg == arg[..n];
      } else {
        WinBodyStep(words, w, arg, n);
        SplitLeading(arg, n);
        WinBodyRuns(words, w + Slashes(n) + [arg[n]], arg[n + 1..]);
        assert w + (Slashes(n) + [arg[n]] + arg[n + 1..]) == (w + Slashes(n) + [arg[n]]) + arg[n + 1..];
      }
    }
  }

  lemma WinBodyStep(words: seq<string>, w: string, arg: string, n: nat)
    requires arg != "" && n == Leading(arg) && n < |arg|
    ensures WinRun(WinReader(words, Some(w), true, 0), CmdBody(arg) + "\"") ==
            WinRun(WinReader(words, Some(w + Slashes(n) + [arg[n]]), true, 0), CmdBody(arg[n + 1..]) + "\"")
  {
    hide CmdBody, WinRun, Slashes, Leading, CmdFrom;
    var piece := FirstPiece(words, w, arg, n);
    WinPieceThen(WinReader(words, Some(w), true, 0), CmdBody(arg), piece, CmdBody(arg[n + 1..]));
  }

  /** The escaped form of the argument's first character that is no backslash, with the backslashes before it. */
  lemma FirstPiece(words: seq<string>, w: string, arg: string, n: nat) returns (piece: string)
    requires arg != "" && n == Leading(arg) && n < |arg|
    ensures CmdBody(arg) == piece + CmdBody(arg[n + 1..])
    ensures WinRun(WinReader(words, Some(w), true, 0), piece) == WinReader(words, Some(w + Slashes(n) + [arg[n]]), true, 0)
  {
    hide CmdBody, WinRun, Slashes, Leading;
    CmdUnfold(arg);
    if arg[n] == '"' {
      piece := Slashes(2 * n + 1) + "\"";
      WinQuotePiece(words, w, n);
      assert [arg[n]] == "\"";
    } else {
      piece := Slashes(n) + [arg[n]];
      WinPlainPiece(words, w, n, arg[n]);
    }
  }

  lemma WinPieceThen(r: WinReader, body: string, piece: string, tail: string)
    requires body == piece + tail
    ensures WinRun(r, body + "\"") == WinRun(WinRun(r, piece), tail + "\"")
  {
    hide WinRun;
    assert body + "\"" == piece + (tail + "\"");
    WinRunAppend(r, piece, tail + "\"");
  }

  /** The reader has read `arg` bare; its last backslashes may still be pending. */
  predicate ReadBare(r: WinReader, words: seq<string>, arg: string) {
    r.words == words && !r.quoted && (if arg == "" then r.word.None? && r.slashes == 0 else Literal(r) == Some(arg))
  }

  lemma WinBareStep(r: WinReader, words: seq<string>, arg: string, c: char)
    requires ReadBare(r, words, arg) && !Special(c)
    ensures ReadBare(WinStep(r, c), words, arg + [c])
  {
    assert Text(Literal(r)) == arg;
    if c == '\\' {
      assert Slashes(r.slashes + 1) == Slashes(r.slashes) + [c];
      assert Text(r.word) + (Slashes(r.slashes) + [c]) == (Text(r.word) + Slashes(r.slashes)) + [c];
    } else {
      EmptyWord(arg + [c]);
    }
  }

  /** A bare argument reads as itself. */
  lemma {:induction false} WinBareRuns(words: seq<string>, arg: string)
    requires forall i :: 0 <= i < |arg| ==> !Special(arg[i])
    ensures ReadBare(WinRun(WinReader(words, None, false, 0), arg), words, arg)
    decreases |arg|
  {
    if |arg| > 0 {
      hide ReadBare, WinStep, Special;
      var init, c := arg[..|arg| - 1], arg[|arg| - 1];
      WinBareRuns(words, init);
      WinBareStep(WinRun(WinReader(words, None, false, 0), init), words, init, c);
      assert arg == init + [c];
    }
  }

  lemma WinQuotedRuns(words: seq<string>, arg: string)
    ensures var r := WinRun(WinReader(words, None, false, 0), "\"" + CmdBody(arg) + "\"");
            r.words == words && !r.quoted && Literal(r) == Some(arg)
  {
    hide WinRun, CmdBody;
    var r := WinReader(words, None, false, 0);
    Open("\"", CmdBody(arg), "\"");
    WinRunAppend(r, "\"", CmdBody(arg) + "\"");
    WinRunOne(r, '"');
    EmptyWord("");
    WinBodyRuns(words, "", arg);
    EmptyWord(arg);
  }

  lemma EmptyWord(w: string)
    ensures w + Slashes(0) == w && "" + w == w
  {
  }

  lemma WinArgRuns(words: seq<string>, arg: string)
    ensures var r := WinRun(WinReader(words, None, false, 0), Quoted(Cmd, arg));
            r.words == words && !r.quoted && Literal(r) == Some(arg)
  {
    if NeedsQuotes(arg) {
      WinQuotedRuns(words, arg);
    } else {
      WinBareRuns(words, arg);
    }
  }

  lemma {:induction false} WinLineRuns(argv: seq<string>)
    requires |argv| > 0
    ensures var r := WinRun(WinReader([], None, false, 0), Line(Cmd, argv));
            r.words == argv[..|argv| - 1] && !r.quoted && Literal(r) == Some(argv[|argv| - 1])
    decreases |argv|
  {
    hide WinRun, Quoted;
    var r := WinReader([], None, false, 0);
    var init, last := argv[..|argv| - 1], argv[|argv| - 1];
    if |argv| == 1 {
      WinArgRuns([], last);
      assert init == [];
    } else {
      WinLineRuns(init);
      var before := Line(Cmd, init);
      WinRunAppend(r, before + " ", Quoted(Cmd, last));
      WinRunAppend(r, before, " ");
      WinRunOne(WinRun(r, before), ' ');
      assert init[..|init| - 1] + [init[|init| - 1]] == init;
      WinArgRuns(init, last);
    }
  }

  /** A Windows program splitting its command line recovers exactly the argument list. */
  lemma CmdRoundTrip(argv: seq<string>)
    ensures WinSplit(Line(Cmd, argv)) == argv
  {
    hide WinRun;
    if |argv| > 0 {
      WinLineRuns(argv);
      assert argv[..|argv| - 1] + [argv[|argv| - 1]] == argv;
    } else {
      WinOfNothing(WinReader([], None, false, 0), Line(Cmd, argv));
      assert argv == [];
    }
  }
}
