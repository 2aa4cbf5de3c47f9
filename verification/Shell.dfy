/** Quoting for the shell, and the shell's own rules for reading a word back:
    sections 2.2.1 (backslash), 2.2.2 (single quotes), 2.3 (words end at an
    unquoted blank or newline) and 2.6.7 (quote removal) of the Shell Command
    Language, IEEE Std 1003.1, XCU chapter 2. Unquoted characters with any other
    meaning are not read at all. */
module Shell {
  import opened MailFiles
  import opened Text

  // ---- The program's side ----

  predicate IsPlain(c: char) {
    || 'A' <= c <= 'Z'
    || 'a' <= c <= 'z'
    || '0' <= c <= '9'
    || c == '.' || c == '_' || c == '-' || c == '/' || c == ':'
  }

  /** Every single quote becomes: quote, backslash, quote, quote. */
  function Escaped(s: string): string {
    if s == "" then ""
    else (if s[0] == '\'' then ['\'', '\\', '\'', '\''] else [s[0]]) + Escaped(s[1..])
  }

  function Quote(s: string): string {
    ['\''] + Escaped(s) + ['\'']
  }

  predicate AllPlain(s: string) {
    forall i | 0 <= i < |s| :: IsPlain(s[i])
  }

  /** Letters, digits, dots, underscores, dashes, slashes and colons only. */
  predicate NeedsNoQuotes(s: string) {
    forall i | 0 <= i < |s| ::
      || 'A' <= s[i] <= 'Z' || 'a' <= s[i] <= 'z' || '0' <= s[i] <= '9'
      || s[i] in {'.', '_', '-', '/', ':'}
  }

  /** Escaping replaces each single quote, from the left, and nothing else. */
  lemma {:induction false} EscapedReplaces(a: string, b: string)
    requires Lacks('\'', a)
    ensures Escaped(a) == a
    ensures Escaped(a + "'" + b) == a + "'\\''" + Escaped(b)
  {
    var s := a + "'" + b;
    if a == "" {
      assert s[0] == '\'' && s[1..] == b;
    } else {
      assert a[0] != '\'';
      EscapedReplaces(a[1..], b);
      assert s[0] == a[0] && s[1..] == a[1..] + "'" + b;
      assert a == [a[0]] + a[1..];
      assert a + "'\\''" + Escaped(b) == [a[0]] + (a[1..] + "'\\''" + Escaped(b));
    }
  }

  function ShellQuoted(s: string): string {
    if s != "" && AllPlain(s) then s else Quote(s)
  }

  /** Quotes a command only when it has a character that needs it. */
  method ShellQuote(value: string) returns (word: string)
    ensures word == ShellQuoted(value)
    ensures ReadWord(word) == Some((value, "")) <==> NulFree(value)
    ensures word == if value != "" && NeedsNoQuotes(value) then value else "'" + Escaped(value) + "'"
  {
    var safe := value != "";
    for i := 0 to |value|
      invariant safe <==> value != "" && AllPlain(value[..i])
    {
      assert value[..i + 1] == value[..i] + [value[i]];
      if !IsPlain(value[i]) {
        assert value[..i + 1][i] == value[i];
        safe := false;
      }
    }
    assert value[..|value|] == value;
    ShellQuoteRoundTrip(value);
    if safe { return value; }
    return Quote(value);
  }

  // ---- The shell's side ----

  const NUL := 0 as char

  predicate NulFree(s: string) {
    forall i | 0 <= i < |s| :: s[i] != NUL
  }

  predicate EndsWord(c: char) {
    c == ' ' || c == '\t' || c == '\n'
  }

  /** Characters that stand for themselves outside quotes. */
  predicate Literal(c: char) {
    IsPlain(c) || c == '=' || c == ',' || c == '+' || c == '@'
  }

  /** A word and what follows it. */
  type Word = (string, string)

  function Prepend(s: string, w: Option<Word>): Option<Word> {
    match w
    case None => None
    case Some((text, rest)) => Some((s + text, rest))
  }

  /** The rest of a word with its quotes removed, inside or outside quotes. */
  function Scan(input: string, quoted: bool): Option<Word> {
    if quoted then
      if input == "" || input[0] == NUL then None
      else if input[0] == '\'' then Scan(input[1..], false)
      else Prepend([input[0]], Scan(input[1..], true))
    else
      if input == "" || EndsWord(input[0]) then Some(("", input))
      else if input[0] == '\'' then Scan(input[1..], true)
      else if input[0] == '\\' then
        if |input| < 2 || input[1] == NUL then None
        else if input[1] == '\n' then Scan(input[2..], false)
        else Prepend([input[1]], Scan(input[2..], false))
      else if Literal(input[0]) then Prepend([input[0]], Scan(input[1..], false))
      else None
  }

  /** The word an input starts with, if it starts with one. */
  function ReadWord(input: string): Option<Word> {
    if input == "" || EndsWord(input[0]) then None else Scan(input, false)
  }

  // ---- Round trips ----

  lemma PrependTwice(a: string, b: string, w: Option<Word>)
    ensures Prepend(a, Prepend(b, w)) == Prepend(a + b, w)
  {
    if w.Some? { assert a + (b + w.value.0) == (a + b) + w.value.0; }
  }

  lemma ScanEscapedQuote(later: string)
    ensures Scan(['\'', '\\', '\'', '\''] + later, true) == Prepend(['\''], Scan(later, true))
  {
    var input := ['\'', '\\', '\'', '\''] + later;
    assert input[1..] == ['\\', '\'', '\''] + later;
    assert input[1..][2..] == ['\''] + later;
    assert input[1..][2..][1..] == later;
    assert Scan(input, true) == Scan(input[1..], false);
    assert Scan(input[1..], false) == Prepend(['\''], Scan(input[1..][2..], false));
  }

  lemma ScanQuotedChar(c: char, later: string)
    requires c != '\''
    ensures Scan([c] + later, true) == if c == NUL then None else Prepend([c], Scan(later, true))
  {
    assert ([c] + later)[1..] == later;
  }

  lemma EscapedFirst(s: string, rest: string)
    requires s != ""
    ensures Escaped(s) + ['\''] + rest
            == (if s[0] == '\'' then ['\'', '\\', '\'', '\''] else [s[0]]) + (Escaped(s[1..]) + ['\''] + rest)
  {
  }

  /** Inside quotes the escaped text reads as itself, up to its closing quote,
      and not at all if it has a NUL. */
  lemma {:induction false} ScanEscaped(s: string, rest: string)
    ensures Scan(Escaped(s) + ['\''] + rest, true) == if NulFree(s) then Prepend(s, Scan(rest, false)) else None
  {
    if s == "" {
      assert Escaped(s) + ['\''] + rest == ['\''] + rest;
      assert (['\''] + rest)[1..] == rest;
      assert Scan(rest, false).Some? ==> "" + Scan(rest, false).value.0 == Scan(rest, false).value.0;
    } else {
      var later := Escaped(s[1..]) + ['\''] + rest;
      ScanEscaped(s[1..], rest);
      PrependTwice([s[0]], s[1..], Scan(rest, false));
      assert s == [s[0]] + s[1..];
      NulFreeRest(s);
      EscapedFirst(s, rest);
      if s[0] == '\'' { ScanEscapedQuote(later); } else { ScanQuotedChar(s[0], later); }
    }
  }

  lemma NulFreeRest(s: string)
    requires s != ""
    ensures NulFree(s) <==> s[0] != NUL && NulFree(s[1..])
  {
    assert s == [s[0]] + s[1..];
    if s[0] != NUL && NulFree(s[1..]) {
      forall i | 0 <= i < |s|
        ensures s[i] != NUL
      {
        if i > 0 { assert s[i] == s[1..][i - 1]; }
      }
    }
  }

  /** A quoted string followed by anything reads as the string, glued to
      whatever the word goes on with. */
  lemma ScanQuoted(s: string, rest: string)
    ensures Scan(Quote(s) + rest, false) == if NulFree(s) then Prepend(s, Scan(rest, false)) else None
  {
    ScanEscaped(s, rest);
    assert (Quote(s) + rest)[1..] == Escaped(s) + ['\''] + rest;
  }

  lemma {:induction false} ScanPlain(s: string, rest: string)
    requires AllPlain(s)
    ensures Scan(s + rest, false) == Prepend(s, Scan(rest, false))
  {
    if s == "" {
      assert s + rest == rest;
      assert Scan(rest, false).Some? ==> "" + Scan(rest, false).value.0 == Scan(rest, false).value.0;
    } else {
      assert AllPlain(s[1..]) by {
        forall i | 0 <= i < |s| - 1
          ensures IsPlain(s[1..][i])
        {
          assert IsPlain(s[i + 1]);
        }
      }
      ScanPlain(s[1..], rest);
      assert IsPlain(s[0]);
      assert (s + rest)[1..] == s[1..] + rest;
      PrependTwice([s[0]], s[1..], Scan(rest, false));
      assert s == [s[0]] + s[1..];
    }
  }

  /** The end of the input, or of the word. */
  predicate Stops(rest: string) {
    rest == "" || EndsWord(rest[0])
  }

  /** A quoted string is one word, equal to the string, exactly when the string
      has no NUL. */
  lemma QuoteRoundTrip(s: string, rest: string)
    requires Stops(rest)
    ensures ReadWord(Quote(s) + rest) == if NulFree(s) then Some((s, rest)) else None
  {
    ScanQuoted(s, rest);
    assert s + "" == s;
  }

  lemma ShellQuoteRoundTrip(s: string)
    ensures ReadWord(ShellQuoted(s)) == Some((s, "")) <==> NulFree(s)
  {
    if s != "" && AllPlain(s) {
      ScanPlain(s, "");
      assert s + "" == s && IsPlain(s[0]);
      forall i | 0 <= i < |s|
        ensures s[i] != NUL
      {
        assert IsPlain(s[i]);
      }
    } else {
      QuoteRoundTrip(s, "");
      assert Quote(s) + "" == Quote(s);
    }
  }

  /** Two commands that quote the same are the same. */
  lemma ShellQuoteIsInjective(s: string, t: string)
    requires NulFree(s) && ShellQuoted(s) == ShellQuoted(t)
    ensures s == t
  {
    ShellQuoteRoundTrip(s);
    ShellQuoteRoundTrip(t);
    if !(t != "" && AllPlain(t)) {
      QuoteRoundTrip(t, "");
      assert Quote(t) + "" == Quote(t);
    }
  }

  // ---- The exported lines ----

  const AGENT_VAR := "CROSSAGENT_AGENT"
  const SESSION_VAR := "CROSSAGENT_SESSION_ID"
  const ROOT_VAR := "AGENTQUEUE_ROOT"
  const EXPORT := "export"

  function ExportLine(variable: string, value: string): string {
    EXPORT + " " + variable + "=" + Quote(value) + "\n"
  }

  /** What is appended to the session's environment file. */
  function ExportText(agent: string, session: string, root: string): string {
    "\n" + ExportLine(AGENT_VAR, agent) + ExportLine(SESSION_VAR, session) + ExportLine(ROOT_VAR, root)
  }

  /** The appended text, spelled out. */
  lemma ExportTextIs(agent: string, session: string, root: string)
    ensures ExportText(agent, session, root) ==
            "\n"
            + ("export CROSSAGENT_AGENT='" + Escaped(agent) + "'\n")
            + ("export CROSSAGENT_SESSION_ID='" + Escaped(session) + "'\n")
            + ("export AGENTQUEUE_ROOT='" + Escaped(root) + "'\n")
  {
    LinesStart();
    LineIs(AGENT_VAR, "export CROSSAGENT_AGENT='", agent);
    LineIs(SESSION_VAR, "export CROSSAGENT_SESSION_ID='", session);
    LineIs(ROOT_VAR, "export AGENTQUEUE_ROOT='", root);
  }

  lemma LinesStart()
    ensures "export " + AGENT_VAR + "='" == "export CROSSAGENT_AGENT='"
    ensures "export " + SESSION_VAR + "='" == "export CROSSAGENT_SESSION_ID='"
    ensures "export " + ROOT_VAR + "='" == "export AGENTQUEUE_ROOT='"
  {
  }

  lemma LineIs(variable: string, start: string, value: string)
    requires "export " + variable + "='" == start
    ensures ExportLine(variable, value) == start + Escaped(value) + "'\n"
  {
    assert start == EXPORT + " " + variable + "=" + ['\''];
  }

  type Env = map<string, string>

  /** An `export NAME=value` command at the start of the input, and what follows
      its line. */
  function ReadExport(input: string): Option<(string, string, string)> {
    match ReadWord(input)
    case None => None
    case Some((command, more)) =>
      if command != EXPORT || more == "" || more[0] != ' ' then None
      else match ReadWord(more[1..])
        case None => None
        case Some((word, rest)) =>
          var eq := IndexOf(word, '=');
          if eq == |word| || (rest != "" && rest[0] != '\n') then None
          else Some((word[..eq], word[eq + 1..], if rest == "" then "" else rest[1..]))
  }

  /** What any other command at the start of the input does, and what follows
      it, if it is complete. */
  type Commands = (string, Env) -> Option<(Env, string)>

  function NoOthers(input: string, env: Env): Option<(Env, string)> { None }

  /** Sourcing a file of exports, empty lines and other commands. */
  function Source(others: Commands, input: string, env: Env): Option<Env>
    decreases |input|
  {
    if input == "" then Some(env)
    else if input[0] == '\n' then Source(others, input[1..], env)
    else match ReadExport(input)
      case Some((variable, value, rest)) =>
        if |rest| < |input| then Source(others, rest, env[variable := value]) else None
      case None =>
        match others(input, env)
        case None => None
        case Some((after, rest)) => if |rest| < |input| then Source(others, rest, after) else None
  }

  /** Other commands are not exports of this form, and a complete one means the
      same when lines are added after it. */
  ghost predicate Complete(others: Commands) {
    forall a: string, env: Env | others(a, env).Some? ::
      ReadExport(a) == None &&
      forall b: string | b != "" && b[0] == '\n' :: Unchanged(others, a, b, env)
  }

  predicate Unchanged(others: Commands, a: string, b: string, env: Env)
    requires others(a, env).Some? && b != ""
  {
    var (after, rest) := others(a, env).value;
    || others(a + b, env) == Some((after, rest + b))
    || (rest == "" && others(a + b, env) == Some((after, b[1..])))
  }

  predicate IsName(s: string) {
    s != "" && forall i | 0 <= i < |s| :: 'A' <= s[i] <= 'Z' || s[i] == '_'
  }

  lemma AssignmentReads(variable: string, value: string, rest: string)
    requires IsName(variable) && Stops(rest)
    ensures ReadWord(variable + ("=" + (Quote(value) + rest)))
            == if NulFree(value) then Some((variable + ("=" + value), rest)) else None
  {
    var valued := "=" + (Quote(value) + rest);
    ScanPlain(variable, valued);
    assert valued[1..] == Quote(value) + rest;
    ScanQuoted(value, rest);
    assert value + "" == value;
    assert (variable + valued)[0] == variable[0];
  }

  /** One exported line reads back as its variable and its value. */
  lemma ExportLineReads(variable: string, value: string, rest: string)
    requires IsName(variable)
    ensures ReadExport(ExportLine(variable, value) + rest)
            == if NulFree(value) then Some((variable, value, rest)) else None
  {
    var tail := "\n" + rest;
    var assign := variable + ("=" + (Quote(value) + tail));
    LineSplits(variable, value, rest);
    CommandReads(assign);
    AssignmentReads(variable, value, tail);
    if NulFree(value) {
      var word := variable + ("=" + value);
      IndexOfPrefix(variable, '=', value);
      assert variable + ['='] + value == word;
      assert word[..|variable|] == variable && word[|variable| + 1..] == value;
      assert tail[1..] == rest;
    }
  }

  lemma LineSplits(variable: string, value: string, rest: string)
    ensures ExportLine(variable, value) + rest
            == EXPORT + (" " + (variable + ("=" + (Quote(value) + ("\n" + rest)))))
  {
    var q := Quote(value);
    assert EXPORT + " " + variable + "=" + q + "\n" + rest == EXPORT + (" " + (variable + ("=" + (q + ("\n" + rest)))));
  }

  lemma CommandReads(assign: string)
    ensures ReadWord(EXPORT + (" " + assign)) == Some((EXPORT, " " + assign))
    ensures (" " + assign)[0] == ' ' && (" " + assign)[1..] == assign
  {
    ScanPlain(EXPORT, " " + assign);
    assert EXPORT + "" == EXPORT;
  }

  lemma SourceLine(others: Commands, variable: string, value: string, rest: string, env: Env)
    requires IsName(variable)
    ensures NulFree(value) ==>
              Source(others, ExportLine(variable, value) + rest, env) == Source(others, rest, env[variable := value])
    ensures !NulFree(value) && others == NoOthers ==> Source(others, ExportLine(variable, value) + rest, env) == None
  {
    ExportLineReads(variable, value, rest);
    assert (ExportLine(variable, value) + rest)[0] == 'e';
  }

  lemma VariablesAreNames()
    ensures IsName(AGENT_VAR) && IsName(SESSION_VAR) && IsName(ROOT_VAR)
  {
  }

  lemma AfterNewline(a: string, b: string, c: string)
    ensures ("\n" + a + b + c)[0] == '\n' && ("\n" + a + b + c)[1..] == a + (b + c)
  {
  }

  /** Sourcing the exported lines sets the three variables to the three values,
      whatever quotes, newlines or equals signs are in them. With a NUL in one of
      them the lines are not exports. */
  lemma SourcedValuesAreRestored(others: Commands, agent: string, session: string, root: string, env: Env)
    ensures NulFree(agent) && NulFree(session) && NulFree(root) ==>
              Source(others, ExportText(agent, session, root), env)
              == Some(env["CROSSAGENT_AGENT" := agent]["CROSSAGENT_SESSION_ID" := session]["AGENTQUEUE_ROOT" := root])
    ensures others == NoOthers && !(NulFree(agent) && NulFree(session) && NulFree(root)) ==>
              Source(others, ExportText(agent, session, root), env) == None
  {
    var l1, l2, l3 := ExportLine(AGENT_VAR, agent), ExportLine(SESSION_VAR, session), ExportLine(ROOT_VAR, root);
    VariablesAreNames();
    SourceLine(others, AGENT_VAR, agent, l2 + l3, env);
    SourceLine(others, SESSION_VAR, session, l3, env[AGENT_VAR := agent]);
    SourceLine(others, ROOT_VAR, root, "", env[AGENT_VAR := agent][SESSION_VAR := session]);
    assert l3 + "" == l3;
    AfterNewline(l1, l2, l3);
  }

  /** Reading a word is not changed by lines that are added later. */
  lemma {:induction false} ScanExtends(a: string, b: string, quoted: bool)
    requires b != "" && b[0] == '\n' && Scan(a, quoted).Some?
    ensures Scan(a + b, quoted) == Some((Scan(a, quoted).value.0, Scan(a, quoted).value.1 + b))
    ensures |Scan(a, quoted).value.1| <= |a|
    decreases |a|
  {
    if a == "" {
      assert a + b == b;
    } else {
      var c := a[0];
      assert (a + b)[0] == c && (a + b)[1..] == a[1..] + b;
      if quoted {
        ScanExtends(a[1..], b, c != '\'');
      } else if EndsWord(c) {
      } else if c == '\'' {
        ScanExtends(a[1..], b, true);
      } else if c == '\\' {
        assert (a + b)[1] == a[1] && (a + b)[2..] == a[2..] + b;
        ScanExtends(a[2..], b, false);
      } else {
        ScanExtends(a[1..], b, false);
      }
    }
  }

  lemma ReadWordExtends(a: string, b: string)
    requires b != "" && b[0] == '\n' && ReadWord(a).Some?
    ensures ReadWord(a + b) == Some((ReadWord(a).value.0, ReadWord(a).value.1 + b))
    ensures |ReadWord(a).value.1| <= |a|
  {
    ScanExtends(a, b, false);
    assert (a + b)[0] == a[0];
  }

  lemma ReadExportExtends(a: string, b: string)
    requires b != "" && b[0] == '\n' && ReadExport(a).Some?
    ensures var (variable, value, rest) := ReadExport(a).value;
            && |rest| < |a|
            && (ReadExport(a + b) == Some((variable, value, rest + b))
                || (rest == "" && ReadExport(a + b) == Some((variable, value, b[1..]))))
  {
    ReadWordExtends(a, b);
    var more := ReadWord(a).value.1;
    assert (more + b)[0] == more[0] && (more + b)[1..] == more[1..] + b;
    ReadWordExtends(more[1..], b);
    var rest := ReadWord(more[1..]).value.1;
    if rest == "" {
      assert rest + b == b;
    } else {
      assert (rest + b)[0] == rest[0] && (rest + b)[1..] == rest[1..] + b;
    }
  }

  /** The leading newline makes the lines safe to append: whatever the file did
      before, complete last line or not, it still does. */
  lemma {:induction false} SourceAppends(others: Commands, file: string, lines: string, env: Env)
    requires Complete(others) && lines != "" && lines[0] == '\n' && Source(others, file, env).Some?
    ensures Source(others, file + lines, env) == Source(others, lines, Source(others, file, env).value)
    decreases |file|
  {
    if file == "" {
      assert file + lines == lines;
    } else if file[0] == '\n' {
      assert (file + lines)[1..] == file[1..] + lines;
      SourceAppends(others, file[1..], lines, env);
    } else {
      if ReadExport(file).Some? {
        var (variable, value, rest) := ReadExport(file).value;
        ExportThenLines(others, file, lines, env);
        SourceAppends(others, rest, lines, env[variable := value]);
      } else {
        var (after, rest) := others(file, env).value;
        OtherThenLines(others, file, lines, env);
        SourceAppends(others, rest, lines, after);
      }
    }
  }

  lemma ExportThenLines(others: Commands, file: string, lines: string, env: Env)
    requires lines != "" && lines[0] == '\n' && file != "" && file[0] != '\n' && ReadExport(file).Some?
    ensures var (variable, value, rest) := ReadExport(file).value;
            && |rest| < |file|
            && Source(others, file + lines, env) == Source(others, rest + lines, env[variable := value])
  {
    assert (file + lines)[0] == file[0];
    ReadExportExtends(file, lines);
    var (variable, value, rest) := ReadExport(file).value;
    if rest == "" { assert rest + lines == lines; }
  }

  lemma OtherThenLines(others: Commands, file: string, lines: string, env: Env)
    requires Complete(others) && lines != "" && lines[0] == '\n' && file != "" && file[0] != '\n'
    requires ReadExport(file) == None && others(file, env).Some? && |others(file, env).value.1| < |file|
    ensures var (after, rest) := others(file, env).value;
            Source(others, file + lines, env) == Source(others, rest + lines, after)
  {
    assert (file + lines)[0] == file[0];
    OtherAppends(others, file, lines, env);
    var (after, rest) := others(file, env).value;
    if rest == "" { assert rest + lines == lines; }
  }

  lemma OtherAppends(others: Commands, file: string, lines: string, env: Env)
    requires Complete(others) && others(file, env).Some? && lines != "" && lines[0] == '\n'
    ensures ReadExport(file + lines) == None && others(file + lines, env).Some? && Unchanged(others, file, lines, env)
  {
    assert Unchanged(others, file, lines, env);
  }

  /** The file after the caller's identity was appended to it: it does what it
      did before, and then sets the three variables. */
  lemma ExportedCallerIsRestored(
    others: Commands, file: string, agent: string, session: string, root: string, env: Env)
    requires Complete(others) && Source(others, file, env).Some?
    requires NulFree(agent) && NulFree(session) && NulFree(root)
    ensures Source(others, file + ExportText(agent, session, root), env)
            == Some(Source(others, file, env).value
                      ["CROSSAGENT_AGENT" := agent]["CROSSAGENT_SESSION_ID" := session]["AGENTQUEUE_ROOT" := root])
  {
    var l1, l2, l3 := ExportLine(AGENT_VAR, agent), ExportLine(SESSION_VAR, session), ExportLine(ROOT_VAR, root);
    AfterNewline(l1, l2, l3);
    SourceAppends(others, file, ExportText(agent, session, root), env);
    SourcedValuesAreRestored(others, agent, session, root, Source(others, file, env).value);
  }

  /** For a file of exports only, and values that may have a NUL. */
  lemma ExportedCallerExactly(file: string, agent: string, session: string, root: string, env: Env)
    requires Source(NoOthers, file, env).Some?
    ensures Source(NoOthers, file + ExportText(agent, session, root), env)
            == if NulFree(agent) && NulFree(session) && NulFree(root)
               then Some(
                 Source(NoOthers, file, env).value
                   ["CROSSAGENT_AGENT" := agent]["CROSSAGENT_SESSION_ID" := session]["AGENTQUEUE_ROOT" := root])
               else None
  {
    var l1, l2, l3 := ExportLine(AGENT_VAR, agent), ExportLine(SESSION_VAR, session), ExportLine(ROOT_VAR, root);
    AfterNewline(l1, l2, l3);
    SourceAppends(NoOthers, file, ExportText(agent, session, root), env);
    SourcedValuesAreRestored(NoOthers, agent, session, root, Source(NoOthers, file, env).value);
  }
}
