// privilege.rs: the two quoting layers around the one privileged command, and the readers they are
// meant for: AppleScript's string literal, and a /bin/sh line inside it.

module Quoting {
  import opened Shared

  const NUL: char := '\0'

  const SUDO := "/usr/bin/sudo"
  const MKDIR := "/bin/mkdir"
  const INSTALL := "/usr/bin/install"
  const OSASCRIPT := "/usr/bin/osascript"

  // ---------------------------------------------------------------- the printers

  function EscapeChar(c: char): string {
    match c
    case '\\' => "\\\\"
    case '"' => "\\\""
    case '\n' => "\\n"
    case '\r' => "\\r"
    case '\t' => "\\t"
    case _ => [c]
  }

  function Escaped(s: string): string {
    if s == "" then "" else EscapeChar(s[0]) + Escaped(s[1..])
  }

  /** A single quote closes the quotes, is written behind a backslash, and opens them again. */
  function QuoteChar(c: char): string {
    if c == '\'' then "'\\''" else [c]
  }

  function QuotedBody(s: string): string {
    if s == "" then "" else QuoteChar(s[0]) + QuotedBody(s[1..])
  }

  function Quoted(s: string): string {
    "'" + QuotedBody(s) + "'"
  }

  lemma {:induction false} EscapedConcat(a: string, b: string)
    ensures Escaped(a + b) == Escaped(a) + Escaped(b)
  {
    if a == "" {
      assert a + b == b;
    } else {
      assert (a + b)[1..] == a[1..] + b;
      EscapedConcat(a[1..], b);
    }
  }

  lemma {:induction false} QuotedConcat(a: string, b: string)
    ensures QuotedBody(a + b) == QuotedBody(a) + QuotedBody(b)
  {
    if a == "" {
      assert a + b == b;
    } else {
      assert (a + b)[1..] == a[1..] + b;
      QuotedConcat(a[1..], b);
    }
  }

  /** applescript_escape. */
  method ApplescriptEscape(s: string) returns (out: string)
    ensures out == Escaped(s)
  {
    out := "";
    for i := 0 to |s|
      invariant out == Escaped(s[..i])
    {
      assert s[..i + 1] == s[..i] + [s[i]];
      EscapedConcat(s[..i], [s[i]]);
      match s[i] {
        case '\\' => out := out + "\\\\";
        case '"' => out := out + "\\\"";
        case '\n' => out := out + "\\n";
        case '\r' => out := out + "\\r";
        case '\t' => out := out + "\\t";
        case _ => out := out + [s[i]];
      }
    }
    assert s[..|s|] == s;
  }

  /** shell_quote. */
  method ShellQuote(s: string) returns (out: string)
    ensures out == Quoted(s)
  {
    out := "'";
    for i := 0 to |s|
      invariant out == "'" + QuotedBody(s[..i])
    {
      assert s[..i + 1] == s[..i] + [s[i]];
      QuotedConcat(s[..i], [s[i]]);
      if s[i] == '\'' {
        out := out + "'\\''";
      } else {
        out := out + [s[i]];
      }
    }
    assert s[..|s|] == s;
    out := out + "'";
  }

  /** privileged_install_command; `dir` is the destination's parent, or "/" when it has none. */
  function InstallCommand(dir: string, tmp: string, dest: string): string {
    MKDIR + " -p " + Quoted(dir) + " && " + INSTALL + " -m 0644 -o root -g wheel " + Quoted(tmp) + " " + Quoted(dest)
  }

  const SCRIPT_HEAD := "do shell script \""
  const SCRIPT_TAIL := "\" with administrator privileges"

  /** do_shell_script. */
  function DoShellScript(command: string): string {
    SCRIPT_HEAD + Escaped(command) + SCRIPT_TAIL
  }

  datatype AdminMethod = Osascript | Sudo

  /** elevation_argv. */
  function ElevationArgv(how: AdminMethod, dir: string, tmp: string, dest: string): seq<seq<string>> {
    match how
    case Osascript => [[OSASCRIPT, "-e", DoShellScript(InstallCommand(dir, tmp, dest))]]
    case Sudo => [
      [SUDO, MKDIR, "-p", dir],
      [SUDO, INSTALL, "-m", "0644", "-o", "root", "-g", "wheel", tmp, dest]]
  }

  // ---------------------------------------------------------------- reading an AppleScript literal

  /** The value of a string literal, given the text behind its opening quote, and what follows the
      closing one. A raw line break, an unknown escape or a missing quote is a syntax error. */
  function ReadLiteral(text: string): Option<(string, string)>
    decreases |text|
  {
    if text == "" || text[0] == '\n' || text[0] == '\r' then None
    else if text[0] == '"' then Some(("", text[1..]))
    else if text[0] != '\\' then Prepend(text[0], ReadLiteral(text[1..]))
    else if |text| < 2 then None
    else
      match text[1]
      case '\\' => Prepend('\\', ReadLiteral(text[2..]))
      case '"' => Prepend('"', ReadLiteral(text[2..]))
      case 'n' => Prepend('\n', ReadLiteral(text[2..]))
      case 'r' => Prepend('\r', ReadLiteral(text[2..]))
      case 't' => Prepend('\t', ReadLiteral(text[2..]))
      case _ => None
  }

  function Prepend(c: char, r: Option<(string, string)>): Option<(string, string)> {
    match r
    case None => None
    case Some((value, rest)) => Some(([c] + value, rest))
  }

  /** The command a `do shell script` statement hands to /bin/sh, if that is all the script does. */
  function ShellCommandOf(script: string): Option<string> {
    if !(SCRIPT_HEAD <= script) then None
    else
      var r := ReadLiteral(script[|SCRIPT_HEAD|..]);
      if r.Some? && r.value.1 == " with administrator privileges" then Some(r.value.0) else None
  }

  lemma EscapeIsRead(c: char, tail: string)
    ensures ReadLiteral(EscapeChar(c) + tail) == Prepend(c, ReadLiteral(tail))
  {
    var e := EscapeChar(c);
    assert (e + tail)[|e|..] == tail && (e + tail)[0] == e[0];
    if |e| == 2 {
      assert (e + tail)[1] == e[1];
    }
  }

  /** The literal ends at the intended quote and its value is the original string. */
  lemma {:induction false} LiteralRoundTrip(s: string, rest: string)
    ensures ReadLiteral(Escaped(s) + "\"" + rest) == Some((s, rest))
  {
    hide EscapeChar;
    if s == "" {
      assert Escaped(s) + "\"" + rest == "\"" + rest;
      assert ("\"" + rest)[1..] == rest;
    } else {
      LiteralRoundTrip(s[1..], rest);
      var tail := Escaped(s[1..]) + "\"" + rest;
      EscapeIsRead(s[0], tail);
      assert Escaped(s) + "\"" + rest == EscapeChar(s[0]) + tail;
      assert s == [s[0]] + s[1..];
    }
  }

  /** The literal stays on one line and holds no tab, whatever the string holds. */
  lemma {:induction false} EscapedIsOneLine(s: string)
    ensures '\n' !in Escaped(s) && '\r' !in Escaped(s) && '\t' !in Escaped(s)
  {
    if s != "" {
      EscapedIsOneLine(s[1..]);
    }
  }

  lemma ScriptRoundTrip(command: string)
    ensures ShellCommandOf(DoShellScript(command)) == Some(command)
  {
    hide Escaped, ReadLiteral;
    var script := DoShellScript(command);
    var tail := " with administrator privileges";
    assert script == SCRIPT_HEAD + (Escaped(command) + "\"" + tail);
    assert script[|SCRIPT_HEAD|..] == Escaped(command) + "\"" + tail;
    LiteralRoundTrip(command, tail);
  }

  // ---------------------------------------------------------------- reading a /bin/sh line

  datatype Token = Word(text: string) | AndIf

  datatype Mode = Bare | InSingle

  /** Characters that mean nothing to the shell outside quotes, wherever they stand. */
  predicate IsPlain(c: char) {
    || 'a' <= c <= 'z' || 'A' <= c <= 'Z' || '0' <= c <= '9'
    || c == '_' || c == '-' || c == '.' || c == '/' || c == ',' || c == ':' || c == '+' || c == '@' || c == '%'
  }

  function Begun(word: Option<string>): string {
    if word.Some? then word.value else ""
  }

  function Flushed(word: Option<string>): seq<Token> {
    if word.Some? then [Word(word.value)] else []
  }

  function After(tokens: seq<Token>, r: Option<seq<Token>>): Option<seq<Token>> {
    if r.Some? then Some(tokens + r.value) else None
  }

  /** Token recognition (POSIX.1-2017, Shell Command Language, sections 2.2.1, 2.2.2 and 2.3) for lines
      of words, quotes and `&&`. A line that would need any expansion or any other operator, or that
      holds a NUL, is refused. `word` is the word being read; an empty quoted string begins one. */
  function Tokens(line: string, mode: Mode, word: Option<string>): Option<seq<Token>>
    decreases |line|
  {
    if line == "" then if mode == Bare then Some(Flushed(word)) else None
    else if line[0] == NUL then None
    else if mode == InSingle then
      if line[0] == '\'' then Tokens(line[1..], Bare, Some(Begun(word)))
      else Tokens(line[1..], InSingle, Some(Begun(word) + [line[0]]))
    else
      match line[0]
      case '\'' => Tokens(line[1..], InSingle, Some(Begun(word)))
      case '\\' =>
        if |line| < 2 || line[1] == NUL then None
        else if line[1] == '\n' then Tokens(line[2..], Bare, word)
        else Tokens(line[2..], Bare, Some(Begun(word) + [line[1]]))
      case ' ' => After(Flushed(word), Tokens(line[1..], Bare, None))
      case '\t' => After(Flushed(word), Tokens(line[1..], Bare, None))
      case '&' =>
        if |line| >= 2 && line[1] == '&' then After(Flushed(word) + [AndIf], Tokens(line[2..], Bare, None)) else None
      case c => if IsPlain(c) then Tokens(line[1..], Bare, Some(Begun(word) + [c])) else None
  }

  predicate NulFree(s: string) {
    NUL !in s
  }

  lemma HeadTail(c: char, rest: string)
    ensures ([c] + rest)[0] == c && ([c] + rest)[1..] == rest
  {
  }

  /** Close, an escaped quote, open again: one quote character. */
  lemma EmbeddedQuoteIsRead(tail: string, word: string)
    ensures Tokens("'\\''" + tail, InSingle, Some(word)) == Tokens(tail, InSingle, Some(word + "'"))
  {
    var line := "'\\''" + tail;
    var escaped := "\\''" + tail;
    assert line[0] == '\'' && line[1..] == escaped;
    assert Tokens(line, InSingle, Some(word)) == Tokens(escaped, Bare, Some(word));
    var open := "'" + tail;
    assert escaped[0] == '\\' && escaped[1] == '\'' && escaped[2..] == open;
    assert Tokens(escaped, Bare, Some(word)) == Tokens(open, Bare, Some(word + "'"));
    assert open[0] == '\'' && open[1..] == tail;
  }

  /** Inside single quotes the body of a quoted string is read as the string itself. */
  lemma {:induction false} QuotedBodyIsRead(s: string, rest: string, word: string)
    requires NulFree(s)
    ensures Tokens(QuotedBody(s) + rest, InSingle, Some(word)) == Tokens(rest, InSingle, Some(word + s))
    decreases |s|
  {
    if s == "" {
      assert QuotedBody(s) + rest == rest && word + s == word;
    } else {
      var c, tail := s[0], QuotedBody(s[1..]) + rest;
      assert QuotedBody(s) + rest == QuoteChar(c) + tail;
      assert word + s == word + [c] + s[1..];
      if c == '\'' {
        EmbeddedQuoteIsRead(tail, word);
      } else {
        HeadTail(c, tail);
      }
      QuotedBodyIsRead(s[1..], rest, word + [c]);
    }
  }

  /** A quoted string is read as one (part of a) word: itself. */
  lemma QuotedIsRead(s: string, rest: string)
    requires NulFree(s)
    ensures Tokens(Quoted(s) + rest, Bare, None) == Tokens(rest, Bare, Some(s))
  {
    var tail := QuotedBody(s) + ("'" + rest);
    assert Quoted(s) + rest == ['\''] + tail;
    HeadTail('\'', tail);
    QuotedBodyIsRead(s, "'" + rest, "");
    HeadTail('\'', rest);
    assert "" + s == s;
  }

  /** A string without a quote is written between quotes as it stands. */
  lemma {:induction false} QuotedAsItStands(s: string)
    requires '\'' !in s
    ensures QuotedBody(s) == s && Quoted(s) == "'" + s + "'"
  {
    if s != "" {
      QuotedAsItStands(s[1..]);
      assert s == [s[0]] + s[1..];
    }
  }

  lemma BegunIsValue(word: string)
    ensures Begun(Some(word)) == word
  {
  }

  /** Plain characters are read as they stand. */
  lemma {:induction false} PlainIsRead(s: string, rest: string, word: Option<string>)
    requires forall i :: 0 <= i < |s| ==> IsPlain(s[i])
    ensures Tokens(s + rest, Bare, word) == Tokens(rest, Bare, if s == "" then word else Some(Begun(word) + s))
    decreases |s|
  {
    hide Flushed, After, Begun;
    if s == "" {
      assert s + rest == rest;
    } else {
      var c := s[0];
      assert s + rest == [c] + (s[1..] + rest);
      HeadTail(c, s[1..] + rest);
      PlainIsRead(s[1..], rest, Some(Begun(word) + [c]));
      BegunIsValue(Begun(word) + [c]);
      assert Begun(word) + s == Begun(word) + [c] + s[1..];
    }
  }

  /** A plain word and the blank behind it. */
  lemma WordIsRead(s: string, rest: string)
    requires s != "" && forall i :: 0 <= i < |s| ==> IsPlain(s[i])
    ensures Tokens(s + " " + rest, Bare, None) == After([Word(s)], Tokens(rest, Bare, None))
  {
    assert s + " " + rest == s + (" " + rest);
    PlainIsRead(s, " " + rest, None);
    HeadTail(' ', rest);
    assert "" + s == s;
  }

  /** A quoted word and the blank behind it. */
  lemma QuotedWordIsRead(s: string, rest: string)
    requires NulFree(s)
    ensures Tokens(Quoted(s) + " " + rest, Bare, None) == After([Word(s)], Tokens(rest, Bare, None))
  {
    assert Quoted(s) + " " + rest == Quoted(s) + (" " + rest);
    QuotedIsRead(s, " " + rest);
    HeadTail(' ', rest);
  }

  lemma AndIfIsRead(rest: string)
    ensures Tokens("&& " + rest, Bare, None) == After([AndIf], Tokens(rest, Bare, None))
  {
    var line := "&& " + rest;
    assert line[2..] == " " + rest;
    HeadTail(' ', rest);
    assert Flushed(None) + [AndIf] == [AndIf];
    var r := Tokens(rest, Bare, None);
    assert r.Some? ==> [AndIf] + ([] + r.value) == [AndIf] + r.value;
  }

  // ---------------------------------------------------------------- the install command is read back

  /** The `install` half, from its first argument on. */
  function InstallTokens(tmp: string, dest: string): seq<Token> {
    [Word(INSTALL), Word("-m"), Word("0644"), Word("-o"), Word("root"), Word("-g"), Word("wheel"), Word(tmp),
     Word(dest)]
  }

  /** The owner, the group and the two paths. */
  lemma InstallTailIsRead(tmp: string, dest: string)
    requires NulFree(tmp) && NulFree(dest)
    ensures Tokens("root" + " " + ("-g" + " " + ("wheel" + " " + (Quoted(tmp) + " " + Quoted(dest)))), Bare, None)
            == Some([Word("root"), Word("-g"), Word("wheel"), Word(tmp), Word(dest)])
  {
    hide Tokens, Quoted;
    var l3 := Quoted(tmp) + " " + Quoted(dest);
    var l2 := "wheel" + " " + l3;
    var l1 := "-g" + " " + l2;
    LastWordIsRead(dest);
    QuotedWordIsRead(tmp, Quoted(dest));
    WordIsRead("wheel", l3);
    WordIsRead("-g", l2);
    WordIsRead("root", l1);
    assert [Word("root")] + ([Word("-g")] + ([Word("wheel")] + ([Word(tmp)] + [Word(dest)])))
           == [Word("root"), Word("-g"), Word("wheel"), Word(tmp), Word(dest)];
  }

  lemma ModeText(rest: string)
    ensures " -m 0644 -o " + rest == " " + ("-m" + " " + ("0644" + " " + ("-o" + " " + rest)))
  {
    assert " -m 0644 -o " == " " + "-m" + " " + "0644" + " " + "-o" + " ";
  }

  lemma OwnerText(rest: string)
    ensures "root -g wheel " + rest == "root" + " " + ("-g" + " " + ("wheel" + " " + rest))
  {
    assert "root -g wheel " == "root" + " " + "-g" + " " + "wheel" + " ";
  }

  /** The options, word by word. */
  lemma InstallText(paths: string)
    ensures INSTALL + (" -m 0644 -o root -g wheel " + paths)
            == INSTALL + " " + ("-m" + " " + ("0644" + " " + ("-o" + " " + ("root" + " " + ("-g" + " "
               + ("wheel" + " " + paths))))))
  {
    OwnerText(paths);
    ModeText("root -g wheel " + paths);
    assert " -m 0644 -o root -g wheel " == " -m 0644 -o " + "root -g wheel ";
    Associative(" -m 0644 -o ", "root -g wheel ", paths);
    Associative(INSTALL, " ", "-m" + " " + ("0644" + " " + ("-o" + " " + ("root -g wheel " + paths))));
  }

  lemma InstallIsRead(tmp: string, dest: string)
    requires NulFree(tmp) && NulFree(dest)
    ensures Tokens(INSTALL + " -m 0644 -o root -g wheel " + Quoted(tmp) + " " + Quoted(dest), Bare, None)
            == Some(InstallTokens(tmp, dest))
  {
    hide Tokens, Quoted;
    var l4 := "root" + " " + ("-g" + " " + ("wheel" + " " + (Quoted(tmp) + " " + Quoted(dest))));
    var l3 := "-o" + " " + l4;
    var l2 := "0644" + " " + l3;
    var l1 := "-m" + " " + l2;
    InstallText(Quoted(tmp) + " " + Quoted(dest));
    assert INSTALL + " -m 0644 -o root -g wheel " + Quoted(tmp) + " " + Quoted(dest)
           == INSTALL + (" -m 0644 -o root -g wheel " + (Quoted(tmp) + " " + Quoted(dest)));
    InstallTailIsRead(tmp, dest);
    WordIsRead("-o", l4);
    WordIsRead("0644", l3);
    WordIsRead("-m", l2);
    WordIsRead(INSTALL, l1);
    var rest := [Word("root"), Word("-g"), Word("wheel"), Word(tmp), Word(dest)];
    assert [Word(INSTALL)] + ([Word("-m")] + ([Word("0644")] + ([Word("-o")] + rest))) == InstallTokens(tmp, dest);
  }

  lemma LastWordIsRead(s: string)
    requires NulFree(s)
    ensures Tokens(Quoted(s), Bare, None) == Some([Word(s)])
  {
    QuotedIsRead(s, "");
    assert Quoted(s) + "" == Quoted(s);
  }

  /** What follows the directory. */
  function AndInstall(tmp: string, dest: string): string {
    "&& " + (INSTALL + " -m 0644 -o root -g wheel " + Quoted(tmp) + " " + Quoted(dest))
  }

  lemma CommandText(dir: string, tmp: string, dest: string)
    ensures InstallCommand(dir, tmp, dest) == MKDIR + " " + ("-p" + " " + (Quoted(dir) + " " + AndInstall(tmp, dest)))
  {
    hide Quoted;
    assert " -p " == " " + "-p" + " ";
    assert " && " == " " + "&& ";
  }

  lemma CommandIsRead(dir: string, tmp: string, dest: string)
    requires NulFree(dir) && NulFree(tmp) && NulFree(dest)
    ensures Tokens(InstallCommand(dir, tmp, dest), Bare, None)
            == Some([Word(MKDIR), Word("-p"), Word(dir), AndIf] + InstallTokens(tmp, dest))
  {
    hide Tokens, Quoted, InstallTokens, InstallCommand;
    CommandText(dir, tmp, dest);
    InstallIsRead(tmp, dest);
    AndIfIsRead(INSTALL + " -m 0644 -o root -g wheel " + Quoted(tmp) + " " + Quoted(dest));
    hide AndInstall;
    QuotedWordIsRead(dir, AndInstall(tmp, dest));
    WordIsRead("-p", Quoted(dir) + " " + AndInstall(tmp, dest));
    WordIsRead(MKDIR, "-p" + " " + (Quoted(dir) + " " + AndInstall(tmp, dest)));
    var install := InstallTokens(tmp, dest);
    assert [Word(MKDIR)] + ([Word("-p")] + ([Word(dir)] + ([AndIf] + install)))
           == [Word(MKDIR), Word("-p"), Word(dir), AndIf] + install;
  }

  /** The argument vectors of an and-list. */
  function Commands(tokens: seq<Token>): seq<seq<string>> {
    if tokens == [] then [[]]
    else
      var rest := Commands(tokens[1..]);
      if tokens[0].AndIf? then [[]] + rest
      else if rest == [] then [[tokens[0].text]]
      else [[tokens[0].text] + rest[0]] + rest[1..]
  }

  /** A word goes in front of the first command. */
  lemma WordInFront(w: string, tokens: seq<Token>)
    requires Commands(tokens) != []
    ensures Commands([Word(w)] + tokens) == [[w] + Commands(tokens)[0]] + Commands(tokens)[1..]
  {
    assert ([Word(w)] + tokens)[1..] == tokens;
  }

  lemma {:induction false} CommandsOfWords(words: seq<string>, tail: seq<Token>)
    ensures Commands(AsTokens(words) + [AndIf] + tail) == [words] + Commands(tail)
  {
    if words == [] {
      assert AsTokens(words) + [AndIf] + tail == [AndIf] + tail;
      assert ([AndIf] + tail)[1..] == tail;
    } else {
      CommandsOfWords(words[1..], tail);
      var rest := AsTokens(words[1..]) + [AndIf] + tail;
      assert AsTokens(words) + [AndIf] + tail == [Word(words[0])] + rest;
      WordInFront(words[0], rest);
      assert [words[0]] + words[1..] == words;
      assert ([words[1..]] + Commands(tail))[1..] == Commands(tail);
    }
  }

  lemma {:induction false} CommandOfWords(words: seq<string>)
    ensures Commands(AsTokens(words)) == [words]
  {
    if words != [] {
      CommandOfWords(words[1..]);
      WordInFront(words[0], AsTokens(words[1..]));
      assert [words[0]] + words[1..] == words;
    }
  }

  function AsTokens(words: seq<string>): seq<Token> {
    if words == [] then [] else [Word(words[0])] + AsTokens(words[1..])
  }

  /** Both layers together: osascript gets one argument behind `-e`, which is one `do shell script` of one
      command line, and the shell reads that line as exactly the two argument vectors that the sudo method
      runs behind `sudo`. */
  lemma TwoLayersRoundTrip(dir: string, tmp: string, dest: string)
    requires NulFree(dir) && NulFree(tmp) && NulFree(dest)
    ensures var mkdir := ["/bin/mkdir", "-p", dir];
            var install := ["/usr/bin/install", "-m", "0644", "-o", "root", "-g", "wheel", tmp, dest];
            var osascript := ElevationArgv(Osascript, dir, tmp, dest);
            && ElevationArgv(Sudo, dir, tmp, dest) == [["/usr/bin/sudo"] + mkdir, ["/usr/bin/sudo"] + install]
            && |osascript| == 1 && |osascript[0]| == 3 && osascript[0][..2] == ["/usr/bin/osascript", "-e"]
            && var command := ShellCommandOf(osascript[0][2]);
               && command.Some?
               && var tokens := Tokens(command.value, Bare, None);
                  tokens.Some? && Commands(tokens.value) == [mkdir, install]
  {
    hide Tokens, Quoted, InstallCommand, Commands;
    ScriptRoundTrip(InstallCommand(dir, tmp, dest));
    CommandIsRead(dir, tmp, dest);
    var mkdir := [MKDIR, "-p", dir];
    var install := [INSTALL, "-m", "0644", "-o", "root", "-g", "wheel", tmp, dest];
    AsThree(MKDIR, "-p", dir);
    AsNine(INSTALL, "-m", "0644", "-o", "root", "-g", "wheel", tmp, dest);
    CommandsOfWords(mkdir, InstallTokens(tmp, dest));
    CommandOfWords(install);
    assert [Word(MKDIR), Word("-p"), Word(dir), AndIf] + InstallTokens(tmp, dest)
           == AsTokens(mkdir) + [AndIf] + InstallTokens(tmp, dest);
    assert [SUDO] + mkdir == [SUDO, MKDIR, "-p", dir];
    assert [SUDO] + install == [SUDO, INSTALL, "-m", "0644", "-o", "root", "-g", "wheel", tmp, dest];
    var script := DoShellScript(InstallCommand(dir, tmp, dest));
    assert [OSASCRIPT, "-e", script][..2] == [OSASCRIPT, "-e"];
  }

  lemma AsThree(a: string, b: string, c: string)
    ensures AsTokens([a, b, c]) == [Word(a), Word(b), Word(c)]
  {
    assert [a, b, c][1..] == [b, c] && [b, c][1..] == [c] && [c][1..] == [];
    assert AsTokens([c]) == [Word(c)];
    assert AsTokens([b, c]) == [Word(b), Word(c)];
  }

  lemma AsNine(a: string, b: string, c: string, d: string, e: string, f: string, g: string, h: string, i: string)
    ensures AsTokens([a, b, c, d, e, f, g, h, i])
            == [Word(a), Word(b), Word(c), Word(d), Word(e), Word(f), Word(g), Word(h), Word(i)]
  {
    AsThree(a, b, c);
    AsThree(d, e, f);
    AsThree(g, h, i);
    AsTokensConcat([a, b, c], [d, e, f]);
    AsTokensConcat([a, b, c] + [d, e, f], [g, h, i]);
    assert [a, b, c, d, e, f, g, h, i] == [a, b, c] + [d, e, f] + [g, h, i];
    assert [Word(a), Word(b), Word(c), Word(d), Word(e), Word(f), Word(g), Word(h), Word(i)]
           == [Word(a), Word(b), Word(c)] + [Word(d), Word(e), Word(f)] + [Word(g), Word(h), Word(i)];
  }

  lemma {:induction false} AsTokensConcat(x: seq<string>, y: seq<string>)
    ensures AsTokens(x + y) == AsTokens(x) + AsTokens(y)
  {
    if x == [] {
      assert x + y == y;
    } else {
      assert (x + y)[1..] == x[1..] + y;
      AsTokensConcat(x[1..], y);
    }
  }
}
