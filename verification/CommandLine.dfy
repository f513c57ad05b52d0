/**
 Command lines on Windows (daemon/win/win_subprocess.h): joining a program name
 and a list of arguments into one string, and the rules of Microsoft's "Parsing C
 command-line arguments" by which the started program takes the string apart.
 */
module CommandLine {

  // ---------- Joining ----------

  predicate Special(c: char) {
    c == ' ' || c == '\t' || c == '\n' || c == '\U{B}' || c == '"'
  }

  predicate Plain(arg: string) {
    arg != "" && forall i :: 0 <= i < |arg| ==> !Special(arg[i])
  }

  function Backslashes(n: nat): (s: string)
    ensures |s| == n
  {
    seq(n, _ => '\\')
  }

  /** The number of backslashes that a string starts with. */
  function Leading(s: string): (n: nat)
    ensures n <= |s| && s[..n] == Backslashes(n) && (n < |s| ==> s[n] != '\\')
  {
    if s == "" || s[0] != '\\' then 0 else 1 + Leading(s[1..])
  }

  /** The inside of a quoted argument, with its closing quote. */
  function QuotedBody(arg: string): string
    decreases |arg|
  {
    var n := Leading(arg);
    if n == |arg| then Backslashes(2 * n) + "\""
    else if arg[n] == '"' then Backslashes(2 * n + 1) + "\"" + QuotedBody(arg[n + 1..])
    else Backslashes(n) + [arg[n]] + QuotedBody(arg[n + 1..])
  }

  function Quote(arg: string): string {
    if Plain(arg) then arg else "\"" + QuotedBody(arg)
  }

  function Join(line: string, args: seq<string>): string
    decreases |args|
  {
    if args == [] then line
    else Join((if line == "" then "" else line + " ") + Quote(args[0]), args[1..])
  }

  lemma {:induction false} LeadingUnique(s: string, n: nat)
    requires n <= |s| && (forall i :: 0 <= i < n ==> s[i] == '\\') && (n < |s| ==> s[n] != '\\')
    ensures Leading(s) == n
  {
    if n > 0 {
      LeadingUnique(s[1..], n - 1);
    }
  }

  lemma LeadingOf(n: nat, t: string)
    requires t == "" || t[0] != '\\'
    ensures Leading(Backslashes(n) + t) == n
  {
    LeadingUnique(Backslashes(n) + t, n);
  }

  /** One round of the loop below, and of the recursion of QuotedBody. */
  lemma BodyStep(n: nat, t: string)
    requires t == "" || t[0] != '\\'
    ensures QuotedBody(Backslashes(n) + t) ==
            if t == "" then Backslashes(2 * n) + "\""
            else Backslashes(if t[0] == '"' then 2 * n + 1 else n) + [t[0]] + QuotedBody(t[1..])
  {
    hide Leading, Backslashes;
    var s := Backslashes(n) + t;
    LeadingOf(n, t);
    if t != "" {
      assert s[n] == t[0] && s[n + 1..] == t[1..];
    }
  }

  lemma AfterStep(done: string, n: nat, t: string)
    requires t == "" || t[0] != '\\'
    ensures done + QuotedBody(Backslashes(n) + t) ==
            if t == "" then done + Backslashes(n * 2) + "\""
            else done + Backslashes(if t[0] == '"' then n * 2 + 1 else n) + [t[0]] + QuotedBody(t[1..])
  {
    hide QuotedBody, Backslashes;
    BodyStep(n, t);
  }

  lemma OneMore(n: nat, arg: string, at: nat)
    requires at < |arg| && arg[at] == '\\'
    ensures Backslashes(n) + arg[at..] == Backslashes(n + 1) + arg[at + 1..]
  {
  }

  /** AppendQuotedCommandLineArgument with its third argument left out, as its one caller does. */
  method AppendQuoted(line: string, arg: string) returns (result: string)
    ensures result == line + Quote(arg)
  {
    hide QuotedBody, Leading;
    if Plain(arg) {
      result := line + arg;
      return;
    }
    ghost var target := line + Quote(arg);
    assert target == line + "\"" + QuotedBody(arg);
    hide Quote, Plain;
    result := line + "\"";
    var at := 0;
    assert arg[at..] == arg;
    while true
      invariant at <= |arg|
      invariant result + QuotedBody(arg[at..]) == target
      decreases |arg| - at
    {
      ghost var todo := arg[at..];
      var backslashes := 0;
      while at < |arg| && arg[at] == '\\'
        invariant at <= |arg| && todo == Backslashes(backslashes) + arg[at..]
      {
        OneMore(backslashes, arg, at);
        at := at + 1;
        backslashes := backslashes + 1;
      }
      ghost var t := arg[at..];
      hide Backslashes;
      AfterStep(result, backslashes, t);
      if at == |arg| {
        result := result + Backslashes(backslashes * 2);
        break;
      } else if arg[at] == '"' {
        result := result + Backslashes(backslashes * 2 + 1) + [arg[at]];
      } else {
        result := result + Backslashes(backslashes) + [arg[at]];
      }
      assert t[1..] == arg[at + 1..];
      at := at + 1;
    }
    result := result + "\"";
  }

  predicate Slash(c: char) { c == '\\' || c == '/' }

  /** Where the last component of a path starts. */
  function FileStart(path: string): (k: nat)
    ensures k <= |path| && (k > 0 ==> Slash(path[k - 1]))
    ensures forall i :: k <= i < |path| ==> !Slash(path[i])
  {
    if path == "" then 0
    else if Slash(path[|path| - 1]) then |path|
    else FileStart(path[..|path| - 1])
  }

  function Program(path: string): string {
    path[FileStart(path)..]
  }

  /** The part of DoRun that builds the command line. */
  method BuildCommandLine(executable: string, args: seq<string>) returns (cmdline: string)
    ensures cmdline == Join(Program(executable), args)
  {
    cmdline := Program(executable);
    for i := 0 to |args|
      invariant Join(cmdline, args[i..]) == Join(Program(executable), args)
    {
      if cmdline != "" {
        cmdline := cmdline + " ";
      }
      assert args[i..][1..] == args[i + 1..];
      cmdline := AppendQuoted(cmdline, args[i]);
    }
  }

  // ---------- Parsing ----------

  predicate Blank(c: char) { c == ' ' || c == '\t' }

  datatype Parsed = Parsed(value: string, rest: string)

  function Prepend(s: string, p: Parsed): Parsed { Parsed(s + p.value, p.rest) }

  /** The program name: quotes only switch blanks between ending it and belonging to it. */
  function ParseProgram(s: string, quoted: bool): (p: Parsed)
    ensures forall i :: 0 <= i < |p.value| ==> p.value[i] != '"'
    ensures p.rest == "" || Blank(p.rest[0])
  {
    if s == "" then Parsed("", "")
    else if s[0] == '"' then ParseProgram(s[1..], !quoted)
    else if !quoted && Blank(s[0]) then Parsed("", s)
    else Prepend([s[0]], ParseProgram(s[1..], quoted))
  }

  /**
   One argument. Backslashes are literal unless a quote follows them; then each pair
   stands for one, an odd one out makes the quote literal, and otherwise the quote
   starts or ends a quoted part, except that two quotes in a quoted part are one.
   */
  function ParseArgument(s: string, quoted: bool): (p: Parsed)
    ensures |p.rest| <= |s| && (p.rest == "" || Blank(p.rest[0]))
    ensures s != "" && !Blank(s[0]) ==> |p.rest| < |s|
    decreases |s|
  {
    var n := Leading(s);
    if n == |s| then Parsed(Backslashes(n), "")
    else if s[n] == '"' then
      if n % 2 == 1 then Prepend(Backslashes(n / 2) + "\"", ParseArgument(s[n + 1..], quoted))
      else if quoted && n + 1 < |s| && s[n + 1] == '"' then
        Prepend(Backslashes(n / 2) + "\"", ParseArgument(s[n + 2..], quoted))
      else Prepend(Backslashes(n / 2), ParseArgument(s[n + 1..], !quoted))
    else if !quoted && Blank(s[n]) then Parsed(Backslashes(n), s[n..])
    else Prepend(Backslashes(n) + [s[n]], ParseArgument(s[n + 1..], quoted))
  }

  function ParseArguments(s: string): seq<string>
    decreases |s|
  {
    if s == "" then []
    else if Blank(s[0]) then ParseArguments(s[1..])
    else
      var p := ParseArgument(s, false);
      [p.value] + ParseArguments(p.rest)
  }

  function Parse(s: string): seq<string> {
    var p := ParseProgram(s, false);
    [p.value] + ParseArguments(p.rest)
  }

  // ---------- How the command line looks ----------

  lemma {:induction false} BodyIsLonger(arg: string)
    ensures |QuotedBody(arg)| > |arg|
    decreases |arg|
  {
    var n := Leading(arg);
    if n < |arg| { BodyIsLonger(arg[n + 1..]); }
  }

  /** Exactly the arguments without blanks, line ends and quotes are left as they are. */
  lemma LeftAloneExactly(arg: string)
    ensures Quote(arg) == arg <==>
            arg != "" && forall c :: c in arg ==> c != ' ' && c != '\t' && c != '\n' && c != '\U{B}' && c != '"'
  {
    BodyIsLonger(arg);
    hide QuotedBody;
    if Plain(arg) {
      forall c | c in arg ensures !Special(c) {
        var i :| 0 <= i < |arg| && arg[i] == c;
      }
    } else if arg != "" {
      var i :| 0 <= i < |arg| && Special(arg[i]);
      assert arg[i] in arg;
    }
  }

  /** The program is named by the last component of its path, whichever slashes the path has. */
  lemma ProgramIsFileName(path: string)
    ensures var name := Program(path);
            && '\\' !in name && '/' !in name && |name| <= |path|
            && (var dir := path[..|path| - |name|];
                path == dir + name && (dir != "" ==> dir[|dir| - 1] == '\\' || dir[|dir| - 1] == '/'))
  {
    var k := FileStart(path);
    assert forall i :: k <= i < |path| ==> !Slash(path[i]);
    assert path == path[..k] + path[k..];
  }

  /** One blank goes before each argument. */
  lemma SeparatedByBlank(name: string, args: seq<string>, arg: string)
    requires name != ""
    ensures Join(name, args + [arg]) == Join(name, args) + " " + Quote(arg)
    decreases |args|
  {
    hide Quote;
    if args == [] {
      assert [] + [arg] == [arg];
      assert Join(name, [arg]) == Join(name + " " + Quote(arg), []);
    } else {
      assert (args + [arg])[1..] == args[1..] + [arg];
      SeparatedByBlank(name + " " + Quote(args[0]), args[1..], arg);
    }
  }

  // ---------- The round trip ----------

  predicate AtEnd(rest: string) { rest == "" || rest[0] == ' ' }

  lemma ParseEscapedQuote(n: nat, t: string, quoted: bool)
    ensures ParseArgument(Backslashes(2 * n + 1) + "\"" + t, quoted)
         == Prepend(Backslashes(n) + "\"", ParseArgument(t, quoted))
  {
    hide Leading, Backslashes, Prepend;
    var m := 2 * n + 1;
    var s := Backslashes(m) + "\"" + t;
    LeadingOf(m, "\"" + t);
    assert s == Backslashes(m) + ("\"" + t);
    assert s[m] == '"' && s[m + 1..] == t;
    assert m / 2 == n;
  }

  lemma ParseClosingQuote(n: nat, t: string)
    requires t == "" || t[0] != '"'
    ensures ParseArgument(Backslashes(2 * n) + "\"" + t, true)
         == Prepend(Backslashes(n), ParseArgument(t, false))
  {
    hide Leading, Backslashes, Prepend;
    var m := 2 * n;
    var s := Backslashes(m) + "\"" + t;
    LeadingOf(m, "\"" + t);
    assert s == Backslashes(m) + ("\"" + t);
    assert s[m] == '"' && s[m + 1..] == t;
    assert t != "" ==> s[m + 1] == t[0];
  }

  lemma ParseText(n: nat, c: char, t: string, quoted: bool)
    requires c != '\\' && c != '"' && (quoted || !Blank(c))
    ensures ParseArgument(Backslashes(n) + [c] + t, quoted)
         == Prepend(Backslashes(n) + [c], ParseArgument(t, quoted))
  {
    hide Leading, Backslashes, Prepend;
    var s := Backslashes(n) + [c] + t;
    LeadingOf(n, [c] + t);
    assert s == Backslashes(n) + ([c] + t);
    assert s[n] == c && s[n + 1..] == t;
  }

  lemma ParseEnd(n: nat, rest: string)
    requires AtEnd(rest)
    ensures ParseArgument(Backslashes(n) + rest, false) == Parsed(Backslashes(n), rest)
  {
    hide Leading, Backslashes, Prepend;
    LeadingOf(n, rest);
    assert (Backslashes(n) + rest)[n..] == rest;
  }

  /** A quoted argument is read back, whatever it contains. */
  lemma {:induction false} QuotedReadBack(arg: string, rest: string)
    requires AtEnd(rest)
    ensures ParseArgument(QuotedBody(arg) + rest, true) == Parsed(arg, rest)
    decreases |arg|
  {
    hide ParseArgument, Leading, Backslashes, QuotedBody;
    var n := Leading(arg);
    var t := arg[n..];
    assert arg == Backslashes(n) + t;
    if n == |arg| {
      BodyStep(n, t);
      ParseClosingQuote(n, rest);
      ParseNothing(rest);
    } else {
      QuotedReadBack(t[1..], rest);
      QuotedStep(n, t, rest);
      assert arg == Backslashes(n) + [t[0]] + t[1..];
    }
  }

  lemma ParseNothing(rest: string)
    requires AtEnd(rest)
    ensures ParseArgument(rest, false) == Parsed("", rest)
  {
    hide ParseArgument;
    ParseEnd(0, rest);
    assert Backslashes(0) == "" && Backslashes(0) + rest == rest;
  }

  /** What was quoted last is parsed first. */
  lemma QuotedStep(n: nat, t: string, rest: string)
    requires t != "" && t[0] != '\\'
    ensures ParseArgument(QuotedBody(Backslashes(n) + t) + rest, true)
         == Prepend(Backslashes(n) + [t[0]], ParseArgument(QuotedBody(t[1..]) + rest, true))
  {
    hide ParseArgument, Leading, Backslashes, QuotedBody, Prepend;
    BodyStep(n, t);
    var body := QuotedBody(t[1..]);
    if t[0] == '"' {
      ParseEscapedQuote(n, body + rest, true);
      assert Backslashes(2 * n + 1) + [t[0]] + body + rest == Backslashes(2 * n + 1) + "\"" + (body + rest);
    } else {
      ParseText(n, t[0], body + rest, true);
      assert Backslashes(n) + [t[0]] + body + rest == Backslashes(n) + [t[0]] + (body + rest);
    }
  }

  /** Text without blanks and quotes is read back as it is. */
  lemma {:induction false} PlainReadBack(arg: string, rest: string)
    requires AtEnd(rest) && forall i :: 0 <= i < |arg| ==> !Special(arg[i])
    ensures ParseArgument(arg + rest, false) == Parsed(arg, rest)
    decreases |arg|
  {
    hide ParseArgument, Leading, Backslashes;
    var n := Leading(arg);
    var t := arg[n..];
    assert arg == Backslashes(n) + t;
    if n == |arg| {
      ParseEnd(n, rest);
      assert arg == Backslashes(n);
    } else {
      assert !Special(arg[n]);
      PlainReadBack(t[1..], rest);
      ParseText(n, t[0], t[1..] + rest, false);
      assert arg + rest == Backslashes(n) + [t[0]] + (t[1..] + rest);
      assert arg == Backslashes(n) + [t[0]] + t[1..];
    }
  }

  lemma ParseOpeningQuote(t: string)
    ensures ParseArgument("\"" + t, false) == ParseArgument(t, true)
  {
    hide Leading;
    LeadingUnique("\"" + t, 0);
    assert ("\"" + t)[1..] == t;
    assert Backslashes(0) + ParseArgument(t, true).value == ParseArgument(t, true).value;
  }

  lemma ReadBack(arg: string, rest: string)
    requires AtEnd(rest)
    ensures Quote(arg) != "" && !Blank(Quote(arg)[0])
    ensures ParseArgument(Quote(arg) + rest, false) == Parsed(arg, rest)
  {
    hide ParseArgument, QuotedBody;
    if Plain(arg) {
      PlainReadBack(arg, rest);
      assert !Special(arg[0]);
    } else {
      ParseOpeningQuote(QuotedBody(arg) + rest);
      QuotedReadBack(arg, rest);
      assert Quote(arg) + rest == "\"" + (QuotedBody(arg) + rest);
    }
  }

  /** What Join adds to a line that is not empty. */
  function Tail(args: seq<string>): (s: string)
    ensures AtEnd(s)
  {
    if args == [] then "" else " " + Quote(args[0]) + Tail(args[1..])
  }

  lemma {:induction false} JoinIsTail(line: string, args: seq<string>)
    requires line != ""
    ensures Join(line, args) == line + Tail(args)
    decreases |args|
  {
    hide Quote;
    if args != [] {
      JoinIsTail(line + " " + Quote(args[0]), args[1..]);
    }
  }

  lemma ParseOne(first: string, rest: string)
    requires AtEnd(rest)
    ensures ParseArguments(" " + Quote(first) + rest) == [first] + ParseArguments(rest)
  {
    hide Quote, ParseArgument;
    ReadBack(first, rest);
    var line := Quote(first) + rest;
    assert line[0] == Quote(first)[0];
    assert ParseArguments(line) == [first] + ParseArguments(rest);
    assert (" " + Quote(first) + rest)[1..] == line;
  }

  lemma {:induction false} TailReadBack(args: seq<string>)
    ensures ParseArguments(Tail(args)) == args
  {
    if args != [] {
      hide Quote, ParseArguments;
      ParseOne(args[0], Tail(args[1..]));
      TailReadBack(args[1..]);
    }
  }

  /** Names a started program would get back: nothing in them ends or quotes the program name. */
  predicate SafeName(name: string) {
    forall i :: 0 <= i < |name| ==> !Blank(name[i]) && name[i] != '"'
  }

  lemma {:induction false} SafeNameReadBack(name: string, rest: string)
    requires SafeName(name) && AtEnd(rest)
    ensures ParseProgram(name + rest, false) == Parsed(name, rest)
  {
    if name == "" {
      assert name + rest == rest;
    } else {
      assert (name + rest)[1..] == name[1..] + rest;
      SafeNameReadBack(name[1..], rest);
    }
  }

  lemma {:induction false} UnsafeNameLost(name: string, rest: string)
    requires !SafeName(name)
    ensures ParseProgram(name + rest, false).value != name
  {
    var value := ParseProgram(name + rest, false).value;
    if value == name {
      var i :| 0 <= i < |name| && (Blank(name[i]) || name[i] == '"');
      assert value[i] != '"';
      UnquotedStops(name, rest, i);
    }
  }

  /** Without quotes the program name stops at or before its first blank. */
  lemma {:induction false} UnquotedStops(name: string, rest: string, i: nat)
    requires i < |name| && Blank(name[i])
    requires forall k :: 0 <= k < |name| ==> name[k] != '"'
    ensures |ParseProgram(name + rest, false).value| <= i
  {
    if !Blank(name[0]) {
      assert (name + rest)[1..] == name[1..] + rest;
      UnquotedStops(name[1..], rest, i - 1);
    }
  }

  lemma QuotedNameReadBack(c: char, t: string)
    ensures c != '"' ==> ParseProgram("\"" + [c] + t, false).value != ""
    ensures c == '"' && AtEnd(t) ==> ParseProgram("\"" + [c] + t, false) == Parsed("", t)
  {
    var s := "\"" + [c] + t;
    assert s[1..] == [c] + t;
    assert ([c] + t)[0] == c && ([c] + t)[1..] == t;
    assert ParseProgram(s, false) == ParseProgram([c] + t, true);
    if c == '"' && AtEnd(t) {
      assert ParseProgram(t, false) == Parsed("", t);
    }
  }

  lemma BodyStart(arg: string)
    ensures QuotedBody(arg) != ""
    ensures if arg == "" then QuotedBody(arg) == "\"" else QuotedBody(arg)[0] != '"'
  {
  }

  /** What a quoted argument becomes when it is taken for the program name. */
  lemma TakenForProgram(arg: string, rest: string)
    requires AtEnd(rest)
    ensures arg == "" ==> ParseProgram(Quote(arg) + rest, false) == Parsed("", rest)
    ensures arg != "" ==> ParseProgram(Quote(arg) + rest, false).value != ""
  {
    hide QuotedBody, Leading;
    var line := Quote(arg) + rest;
    if Plain(arg) {
      assert !Special(arg[0]) && line[0] == arg[0];
    } else {
      var body := QuotedBody(arg);
      BodyStart(arg);
      assert line == "\"" + [body[0]] + (body[1..] + rest);
      QuotedNameReadBack(body[0], body[1..] + rest);
      assert arg == "" ==> body[1..] + rest == rest;
    }
  }

  /** With an empty program name the first argument is taken for the program. */
  lemma EmptyNameLost(args: seq<string>)
    requires args != []
    ensures Parse(Join("", args)) != [""] + args
  {
    hide ParseProgram, ParseArguments, Tail, Quote;
    var rest := Tail(args[1..]);
    BodyStart(args[0]);
    JoinIsTail(Quote(args[0]), args[1..]) by { hide QuotedBody; ReadBack(args[0], ""); }
    TakenForProgram(args[0], rest);
    TailReadBack(args[1..]);
    assert "" + Quote(args[0]) == Quote(args[0]);
    var words := Parse(Join("", args));
    assert words[0] != "" || |words| == |args|;
    assert ([""] + args)[0] == "";
  }

  /**
   The started program sees its name and exactly the given arguments, if and only
   if its name has no blank and no quote, and is not empty when arguments follow.
   */
  lemma RoundTrip(name: string, args: seq<string>)
    ensures Parse(Join(name, args)) == [name] + args <==> SafeName(name) && (name != "" || args == [])
  {
    if name == "" {
      if args != [] { EmptyNameLost(args); }
    } else {
      JoinIsTail(name, args);
      if SafeName(name) {
        SafeNameReadBack(name, Tail(args));
        TailReadBack(args);
      } else {
        UnsafeNameLost(name, Tail(args));
        assert Parse(Join(name, args))[0] != name;
      }
    }
  }
}
