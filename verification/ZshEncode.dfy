// sabrage-contract-gen: contract values written as zsh literals, and what zsh reads back when it
// sources the generated file with its default non-interactive options.

module ZshEncode {
  import opened Shared
  import opened Quoting

  // ---------------------------------------------------------------- the encoders

  /** char::is_control: the Unicode control characters. */
  predicate IsControl(c: char) {
    c as int < 0x20 || 0x7f <= c as int < 0xa0
  }

  /** Literal inside double quotes. */
  predicate LiteralInDouble(c: char) {
    c != '"' && c != '\\' && c != '$' && c != '`' && !IsControl(c)
  }

  predicate IsAlphanumeric(c: char) {
    'a' <= c <= 'z' || 'A' <= c <= 'Z' || '0' <= c <= '9'
  }

  predicate BareBody(c: char) {
    IsAlphanumeric(c) || c in "._-/:+@%,"
  }

  predicate BareHead(c: char) {
    IsAlphanumeric(c) || c in "._/"
  }

  predicate All(s: string, p: char -> bool) {
    forall i :: 0 <= i < |s| ==> p(s[i])
  }

  /** zsh_single_quote. */
  function ZshSingleQuote(s: string): string {
    Quoted(s)
  }

  /** zsh_scalar. */
  function ZshScalar(s: string): string {
    if All(s, LiteralInDouble) then "\"" + s + "\"" else ZshSingleQuote(s)
  }

  /** zsh_word. */
  function ZshWord(s: string): string {
    if All(s, BareBody) && s != "" && BareHead(s[0]) then s else ZshSingleQuote(s)
  }

  function JoinWords(words: seq<string>): string {
    if words == [] then ""
    else if |words| == 1 then words[0]
    else words[0] + " " + JoinWords(words[1..])
  }

  function ZshWords(words: seq<string>): seq<string> {
    if words == [] then [] else [ZshWord(words[0])] + ZshWords(words[1..])
  }

  function Decimals(ns: seq<nat>): seq<string> {
    if ns == [] then [] else [Decimal(ns[0])] + Decimals(ns[1..])
  }

  // ---------------------------------------------------------------- the reader

  datatype Quote = Unquoted | Single | Double

  predicate IsBlank(c: char) {
    c == ' ' || c == '\t' || c == '\n'
  }

  function Word1(word: Option<string>): seq<string> {
    if word.Some? then [word.value] else []
  }

  function Push(words: seq<string>, r: Option<(seq<string>, string)>): Option<(seq<string>, string)> {
    if r.Some? then Some((words + r.value.0, r.value.1)) else None
  }

  /** The words up to the unquoted character `stop`, and what follows it. Characters that would start
      an expansion, a glob, a comment or an operator outside quotes are refused, and so are the four
      that are not literal inside double quotes. */
  function ReadWords(text: string, quote: Quote, word: Option<string>, stop: char): Option<(seq<string>, string)>
    decreases |text|
  {
    if text == "" then None
    else
      var c, rest := text[0], text[1..];
      match quote
      case Single =>
        if c == '\'' then ReadWords(rest, Unquoted, Some(Begun(word)), stop)
        else ReadWords(rest, Single, Some(Begun(word) + [c]), stop)
      case Double =>
        if c == '"' then ReadWords(rest, Unquoted, Some(Begun(word)), stop)
        else if c == '\\' || c == '$' || c == '`' then None
        else ReadWords(rest, Double, Some(Begun(word) + [c]), stop)
      case Unquoted =>
        if c == stop then Some((Word1(word), rest))
        else if IsBlank(c) then Push(Word1(word), ReadWords(rest, Unquoted, None, stop))
        else if c == '\'' then ReadWords(rest, Single, Some(Begun(word)), stop)
        else if c == '"' then ReadWords(rest, Double, Some(Begun(word)), stop)
        else if c == '\\' then
          if rest == "" then None
          else if rest[0] == '\n' then ReadWords(rest[1..], Unquoted, word, stop)
          else ReadWords(rest[1..], Unquoted, Some(Begun(word) + [rest[0]]), stop)
        else if BareBody(c) then ReadWords(rest, Unquoted, Some(Begun(word) + [c]), stop)
        else None
  }

  // ---------------------------------------------------------------- one encoded value is one word

  /** The two places a value can stand in: an assignment, which ends at the line's end, and an array. */
  predicate IsStop(c: char) {
    c == '\n' || c == ')'
  }

  lemma {:induction false} SingleBodyReadBack(s: string, rest: string, word: string, stop: char)
    requires IsStop(stop)
    ensures ReadWords(QuotedBody(s) + rest, Single, Some(word), stop) == ReadWords(rest, Single, Some(word + s), stop)
    decreases |s|
  {
    if s == "" {
      assert QuotedBody(s) + rest == rest && word + s == word;
    } else {
      var c, tail := s[0], QuotedBody(s[1..]) + rest;
      assert QuotedBody(s) + rest == QuoteChar(c) + tail;
      assert word + s == word + [c] + s[1..];
      if c == '\'' {
        EmbeddedQuoteReadBack(tail, word, stop);
      } else {
        HeadTail(c, tail);
        BegunIsValue(word);
      }
      SingleBodyReadBack(s[1..], rest, word + [c], stop);
    }
  }

  lemma EmbeddedQuoteReadBack(tail: string, word: string, stop: char)
    requires IsStop(stop)
    ensures ReadWords("'\\''" + tail, Single, Some(word), stop) == ReadWords(tail, Single, Some(word + "'"), stop)
  {
    var line, escaped, open := "'\\''" + tail, "\\''" + tail, "'" + tail;
    assert line[0] == '\'' && line[1..] == escaped;
    assert ReadWords(line, Single, Some(word), stop) == ReadWords(escaped, Unquoted, Some(word), stop);
    assert escaped[0] == '\\' && escaped[1..][0] == '\'' && escaped[1..][1..] == open;
    assert ReadWords(escaped, Unquoted, Some(word), stop) == ReadWords(open, Unquoted, Some(word + "'"), stop);
    assert open[0] == '\'' && open[1..] == tail;
  }

  lemma {:induction false} DoubleBodyReadBack(s: string, rest: string, word: string, stop: char)
    requires IsStop(stop) && All(s, LiteralInDouble)
    ensures ReadWords(s + rest, Double, Some(word), stop) == ReadWords(rest, Double, Some(word + s), stop)
    decreases |s|
  {
    if s == "" {
      assert s + rest == rest && word + s == word;
    } else {
      var c := s[0];
      assert s + rest == [c] + (s[1..] + rest) && word + s == word + [c] + s[1..];
      HeadTail(c, s[1..] + rest);
      DoubleBodyReadBack(s[1..], rest, word + [c], stop);
    }
  }

  lemma {:induction false} BareReadBack(s: string, rest: string, word: Option<string>, stop: char)
    requires IsStop(stop) && All(s, BareBody) && s != ""
    ensures ReadWords(s + rest, Unquoted, word, stop) == ReadWords(rest, Unquoted, Some(Begun(word) + s), stop)
    decreases |s|
  {
    var c := s[0];
    assert s + rest == [c] + (s[1..] + rest) && Begun(word) + s == Begun(word) + [c] + s[1..];
    HeadTail(c, s[1..] + rest);
    BegunIsValue(Begun(word) + [c]);
    if |s| == 1 {
      assert s[1..] + rest == rest && Begun(word) + [c] == Begun(word) + s;
    } else {
      BareReadBack(s[1..], rest, Some(Begun(word) + [c]), stop);
    }
  }

  lemma SingleReadBack(s: string, rest: string, stop: char)
    requires IsStop(stop)
    ensures ReadWords(Quoted(s) + rest, Unquoted, None, stop) == ReadWords(rest, Unquoted, Some(s), stop)
  {
    var tail := QuotedBody(s) + ("'" + rest);
    assert Quoted(s) + rest == ['\''] + tail;
    HeadTail('\'', tail);
    SingleBodyReadBack(s, "'" + rest, "", stop);
    HeadTail('\'', rest);
    assert "" + s == s;
  }

  /** zsh_scalar: for every string, one word, which is the string, with no expansion. */
  lemma ScalarReadBack(s: string, rest: string, stop: char)
    requires IsStop(stop)
    ensures ReadWords(ZshScalar(s) + rest, Unquoted, None, stop) == ReadWords(rest, Unquoted, Some(s), stop)
  {
    if All(s, LiteralInDouble) {
      var tail := s + ("\"" + rest);
      assert ZshScalar(s) + rest == ['"'] + tail;
      HeadTail('"', tail);
      DoubleBodyReadBack(s, "\"" + rest, "", stop);
      HeadTail('"', rest);
      assert "" + s == s;
    } else {
      SingleReadBack(s, rest, stop);
    }
  }

  /** zsh_word: likewise, bare or single-quoted. */
  lemma WordReadBack(s: string, rest: string, stop: char)
    requires IsStop(stop)
    ensures ReadWords(ZshWord(s) + rest, Unquoted, None, stop) == ReadWords(rest, Unquoted, Some(s), stop)
  {
    if All(s, BareBody) && s != "" && BareHead(s[0]) {
      BareReadBack(s, rest, None, stop);
      assert "" + s == s;
    } else {
      SingleReadBack(s, rest, stop);
    }
  }

  /** A word never starts with one of the characters zsh expands at the head of a word. */
  lemma HeadIsSafe(s: string)
    ensures ZshWord(s) != "" && ZshWord(s)[0] !in "=~%-"
  {
  }

  lemma {:induction false} QuotedIsLonger(s: string)
    ensures |QuotedBody(s)| >= |s| && |Quoted(s)| >= |s| + 2
  {
    if s != "" {
      QuotedIsLonger(s[1..]);
    }
  }

  /** A value that double quotes leave alone: no quote, backslash, dollar, backtick or control character. */
  predicate Ordinary(s: string) {
    forall c :: c in s ==> c !in "\"\\$`" && (' ' <= c <= '~' || c as int >= 0xa0)
  }

  lemma OrdinaryIsLiteral(s: string)
    ensures All(s, LiteralInDouble) <==> Ordinary(s)
  {
    if All(s, LiteralInDouble) {
      forall c | c in s ensures c !in "\"\\$`" && (' ' <= c <= '~' || c as int >= 0xa0) {
        var i :| 0 <= i < |s| && s[i] == c;
        assert LiteralInDouble(s[i]);
      }
    }
    if Ordinary(s) {
      forall i | 0 <= i < |s| ensures LiteralInDouble(s[i]) {
        assert s[i] in s;
        assert '"' in "\"\\$`" && '\\' in "\"\\$`" && '$' in "\"\\$`" && '`' in "\"\\$`";
      }
    }
  }

  /** Encoding stays minimal: a scalar keeps its double quotes, and a word its bare form, exactly when the
      shell reads them literally; everything else is single-quoted, as it stands if it has no quote in it. */
  lemma EncodingIsMinimal(s: string)
    ensures ZshScalar(s) == "\"" + s + "\"" <==> Ordinary(s)
    ensures ZshWord(s) == s
            <==> s != "" && s[0] !in "-:+@%," && forall c :: c in s ==> IsAlphanumeric(c) || c in "._-/:+@%,"
    ensures !Ordinary(s) && '\'' !in s ==> ZshScalar(s) == "'" + s + "'"
    ensures ZshWord(s) != s && '\'' !in s ==> ZshWord(s) == "'" + s + "'"
  {
    hide QuotedBody;
    QuotedIsLonger(s);
    if '\'' !in s {
      QuotedAsItStands(s);
    }
    OrdinaryIsLiteral(s);
    assert ZshSingleQuote(s)[0] == '\'' && ("\"" + s + "\"")[0] == '"';
    if s != "" {
      assert BareBody(s[0]) ==> (BareHead(s[0]) <==> s[0] !in "-:+@%,");
    }
  }

  // ---------------------------------------------------------------- arrays

  /** The text between the parentheses reads back as the list: same count, same elements. */
  lemma {:induction false} ArrayReadBack(words: seq<string>, rest: string)
    ensures ReadWords(JoinWords(ZshWords(words)) + ")" + rest, Unquoted, None, ')') == Some((words, rest))
    decreases |words|
  {
    hide ZshWord;
    if words == [] {
      assert JoinWords(ZshWords(words)) + ")" + rest == ")" + rest;
      HeadTail(')', rest);
    } else {
      var w, more := words[0], words[1..];
      var tail := JoinWords(ZshWords(more)) + ")" + rest;
      assert ZshWords(words)[1..] == ZshWords(more);
      assert words == [w] + more;
      if more == [] {
        assert JoinWords(ZshWords(words)) + ")" + rest == ZshWord(w) + (")" + rest);
        WordReadBack(w, ")" + rest, ')');
        assert words == [w];
        HeadTail(')', rest);
      } else {
        assert JoinWords(ZshWords(words)) + ")" + rest == ZshWord(w) + (" " + tail);
        WordReadBack(w, " " + tail, ')');
        HeadTail(' ', tail);
        ArrayReadBack(more, rest);
        assert ReadWords(" " + tail, Unquoted, Some(w), ')') == Push([w], ReadWords(tail, Unquoted, None, ')'));
      }
    }
  }

  /** Numbers are bare words already. */
  lemma {:induction false} DecimalIsBare(n: nat)
    ensures All(Decimal(n), BareBody) && Decimal(n) != "" && ZshWord(Decimal(n)) == Decimal(n)
    ensures IsAlphanumeric(Decimal(n)[0])
  {
    if n >= 10 {
      DecimalIsBare(n / 10);
    }
  }

  lemma {:induction false} DecimalsAreWords(ns: seq<nat>)
    ensures ZshWords(Decimals(ns)) == Decimals(ns)
  {
    hide ZshWord, Decimal;
    if ns != [] {
      DecimalIsBare(ns[0]);
      DecimalsAreWords(ns[1..]);
      assert Decimals(ns)[1..] == Decimals(ns[1..]);
    }
  }

  // ---------------------------------------------------------------- the generated file

  datatype Value = Scalar(text: string) | List(items: seq<string>)

  datatype Binding = Binding(name: string, value: Value)

  predicate IsNameChar(c: char) {
    IsAlphanumeric(c) || c == '_'
  }

  predicate IsName(name: string) {
    name != "" && All(name, IsNameChar)
  }

  /** The file from its next line on, without the line at hand. */
  function AfterLine(text: string): string
    decreases |text|
  {
    if text == "" then "" else if text[0] == '\n' then text[1..] else AfterLine(text[1..])
  }

  lemma {:induction false} AfterLineIsShorter(text: string)
    ensures |AfterLine(text)| <= |text| && (text != "" ==> |AfterLine(text)| < |text|)
  {
    if text != "" && text[0] != '\n' {
      AfterLineIsShorter(text[1..]);
    }
  }

  /** The name at the head of an assignment, and what follows its `=`. */
  function ReadName(text: string): Option<(string, string)>
    decreases |text|
  {
    if text == "" then None
    else if text[0] == '=' then Some(("", text[1..]))
    else if !IsNameChar(text[0]) then None
    else
      match ReadName(text[1..])
      case None => None
      case Some((name, rest)) => Some(([text[0]] + name, rest))
  }

  /** What may follow an array on its line: blanks and a comment. */
  predicate TrailerOk(text: string)
    decreases |text|
  {
    text == "" || text[0] == '\n' || text[0] == '#' || (text[0] == ' ' && TrailerOk(text[1..]))
  }

  /** What sourcing the text binds, in order; None if it would do anything but assign literals. A line
      is blank, a comment, or one assignment. `fuel` bounds the number of lines. */
  function Source(text: string, fuel: nat): Option<seq<Binding>>
    decreases fuel
  {
    if text == "" then Some([])
    else if fuel == 0 then None
    else if text[0] == '\n' || text[0] == '#' then Source(AfterLine(text), fuel - 1)
    else
      match ReadName(text)
      case None => None
      case Some((name, rest)) =>
        if name == "" then None
        else if rest != "" && rest[0] == '(' then
          match ReadWords(rest[1..], Unquoted, None, ')')
          case None => None
          case Some((words, tail)) =>
            if TrailerOk(tail) then Bind(Binding(name, List(words)), Source(AfterLine(tail), fuel - 1)) else None
        else
          match ReadWords(rest, Unquoted, None, '\n')
          case None => None
          case Some((words, tail)) =>
            if |words| > 1 then None
            else Bind(Binding(name, Scalar(if words == [] then "" else words[0])), Source(tail, fuel - 1))
  }

  function Bind(b: Binding, r: Option<seq<Binding>>): Option<seq<Binding>> {
    if r.Some? then Some([b] + r.value) else None
  }

  /** The lines generate_from is made of. */
  datatype Line =
    | Comment(text: string)
    | Blank
    | ScalarLine(name: string, value: string)      // NAME= and zsh_scalar
    | WordLine(name: string, value: string)        // NAME= and zsh_word
    | NumberLine(name: string, number: nat)
    | WordsLine(name: string, items: seq<string>)
    | NumbersLine(name: string, numbers: seq<nat>, remark: string)

  function Rendered(l: Line): string {
    match l
    case Comment(text) => "#" + text + "\n"
    case Blank => "\n"
    case ScalarLine(name, value) => name + "=" + ZshScalar(value) + "\n"
    case WordLine(name, value) => name + "=" + ZshWord(value) + "\n"
    case NumberLine(name, number) => name + "=" + Decimal(number) + "\n"
    case WordsLine(name, items) => name + "=(" + JoinWords(ZshWords(items)) + ")\n"
    case NumbersLine(name, numbers, remark) =>
      name + "=(" + JoinWords(Decimals(numbers)) + ")" + (if remark == "" then "" else "   #" + remark) + "\n"
  }

  function RenderedAll(lines: seq<Line>): string {
    if lines == [] then "" else Rendered(lines[0]) + RenderedAll(lines[1..])
  }

  /** What a line is meant to bind. */
  function Meaning(l: Line): seq<Binding> {
    match l
    case Comment(_) => []
    case Blank => []
    case ScalarLine(name, value) => [Binding(name, Scalar(value))]
    case WordLine(name, value) => [Binding(name, Scalar(value))]
    case NumberLine(name, number) => [Binding(name, Scalar(Decimal(number)))]
    case WordsLine(name, items) => [Binding(name, List(items))]
    case NumbersLine(name, numbers, _) => [Binding(name, List(Decimals(numbers)))]
  }

  function Meanings(lines: seq<Line>): seq<Binding> {
    if lines == [] then [] else Meaning(lines[0]) + Meanings(lines[1..])
  }

  predicate LineOk(l: Line) {
    match l
    case Comment(text) => '\n' !in text
    case Blank => true
    case ScalarLine(name, _) => IsName(name)
    case WordLine(name, _) => IsName(name)
    case NumberLine(name, _) => IsName(name)
    case WordsLine(name, _) => IsName(name)
    case NumbersLine(name, _, remark) => IsName(name) && '\n' !in remark
  }

  lemma {:induction false} NameReadBack(name: string, rest: string)
    requires All(name, IsNameChar)
    ensures ReadName(name + "=" + rest) == Some((name, rest))
  {
    if name == "" {
      assert name + "=" + rest == "=" + rest;
      HeadTail('=', rest);
    } else {
      var tail := name[1..] + "=" + rest;
      assert name + "=" + rest == [name[0]] + tail;
      HeadTail(name[0], tail);
      NameReadBack(name[1..], rest);
      assert name == [name[0]] + name[1..];
    }
  }

  lemma {:induction false} CommentIsSkipped(text: string, rest: string)
    requires '\n' !in text
    ensures AfterLine(text + "\n" + rest) == rest
  {
    if text == "" {
      assert text + "\n" + rest == "\n" + rest;
      HeadTail('\n', rest);
    } else {
      var tail := text[1..] + "\n" + rest;
      assert text + "\n" + rest == [text[0]] + tail;
      HeadTail(text[0], tail);
      CommentIsSkipped(text[1..], rest);
    }
  }

  /** NAME=value, where the value reads back as one word. */
  lemma ScalarLineIsSourced(name: string, value: string, encoded: string, rest: string, fuel: nat)
    requires IsName(name) && fuel > 0 && encoded != "" && encoded[0] != '('
    requires ReadWords(encoded + "\n" + rest, Unquoted, None, '\n') == Some(([value], rest))
    ensures Source(name + "=" + encoded + "\n" + rest, fuel)
            == Bind(Binding(name, Scalar(value)), Source(rest, fuel - 1))
  {
    hide ReadWords;
    var tail := encoded + "\n" + rest;
    var text := name + "=" + tail;
    assert name + "=" + encoded + "\n" + rest == text;
    NameReadBack(name, tail);
    assert text[0] == name[0] && tail[0] == encoded[0];
  }

  /** NAME=(words), and a trailer. */
  lemma ListLineIsSourced(name: string, items: seq<string>, trailer: string, rest: string, fuel: nat)
    requires IsName(name) && fuel > 0 && '\n' !in trailer && TrailerOk(trailer + "\n" + rest)
    ensures Source(name + "=(" + JoinWords(ZshWords(items)) + ")" + trailer + "\n" + rest, fuel)
            == Bind(Binding(name, List(items)), Source(rest, fuel - 1))
  {
    hide ReadWords, TrailerOk, JoinWords, ZshWords;
    var tail := trailer + "\n" + rest;
    var inside := JoinWords(ZshWords(items)) + ")" + tail;
    var text := name + "=" + ("(" + inside);
    assert name + "=(" + JoinWords(ZshWords(items)) + ")" + trailer + "\n" + rest == text;
    NameReadBack(name, "(" + inside);
    HeadTail('(', inside);
    ArrayReadBack(items, tail);
    CommentIsSkipped(trailer, rest);
    assert text[0] == name[0];
  }

  lemma EncodedReadBack(value: string, rest: string)
    ensures ReadWords(ZshScalar(value) + "\n" + rest, Unquoted, None, '\n') == Some(([value], rest))
    ensures ReadWords(ZshWord(value) + "\n" + rest, Unquoted, None, '\n') == Some(([value], rest))
    ensures ZshScalar(value) != "" && ZshScalar(value)[0] != '(' && ZshWord(value) != "" && ZshWord(value)[0] != '('
  {
    hide ZshScalar, ZshWord;
    assert ZshScalar(value) + "\n" + rest == ZshScalar(value) + ("\n" + rest);
    assert ZshWord(value) + "\n" + rest == ZshWord(value) + ("\n" + rest);
    ScalarReadBack(value, "\n" + rest, '\n');
    WordReadBack(value, "\n" + rest, '\n');
    EndOfLine(value, rest);
    EncodedHead(value);
  }

  lemma EndOfLine(value: string, rest: string)
    ensures ReadWords("\n" + rest, Unquoted, Some(value), '\n') == Some(([value], rest))
  {
    HeadTail('\n', rest);
  }

  lemma EncodedHead(value: string)
    ensures ZshScalar(value) != "" && ZshScalar(value)[0] != '(' && ZshWord(value) != "" && ZshWord(value)[0] != '('
  {
  }

  lemma LineIsSourced(l: Line, rest: string, fuel: nat)
    requires LineOk(l) && fuel > 0
    ensures var r := Source(rest, fuel - 1);
            Source(Rendered(l) + rest, fuel) == if r.Some? then Some(Meaning(l) + r.value) else None
  {
    hide ReadWords, ZshWord, ZshScalar, JoinWords, ZshWords, Decimal, Decimals;
    var r := Source(rest, fuel - 1);
    assert r.Some? ==> [] + r.value == r.value;
    match l
    case Comment(text) =>
      var line := "#" + text + "\n" + rest;
      assert Rendered(l) + rest == line && line[0] == '#';
      assert line == ("#" + text) + "\n" + rest;
      CommentIsSkipped("#" + text, rest);
    case Blank =>
      HeadTail('\n', rest);
      assert AfterLine("\n" + rest) == rest;
    case ScalarLine(name, value) =>
      EncodedReadBack(value, rest);
      ScalarLineIsSourced(name, value, ZshScalar(value), rest, fuel);
    case WordLine(name, value) =>
      EncodedReadBack(value, rest);
      ScalarLineIsSourced(name, value, ZshWord(value), rest, fuel);
    case NumberLine(name, number) =>
      EncodedReadBack(Decimal(number), rest);
      DecimalIsBare(number);
      ScalarLineIsSourced(name, Decimal(number), Decimal(number), rest, fuel);
    case WordsLine(name, items) =>
      assert Rendered(l) + rest == name + "=(" + JoinWords(ZshWords(items)) + ")" + "" + "\n" + rest;
      assert "" + "\n" + rest == "\n" + rest;
      ListLineIsSourced(name, items, "", rest, fuel);
    case NumbersLine(name, numbers, remark) =>
      DecimalsAreWords(numbers);
      RemarkIsTrailer(remark, rest);
      var trailer := if remark == "" then "" else "   #" + remark;
      ListLineIsSourced(name, Decimals(numbers), trailer, rest, fuel);
      assert Rendered(l) + rest == name + "=(" + JoinWords(Decimals(numbers)) + ")" + trailer + "\n" + rest;
  }

  lemma RemarkIsTrailer(remark: string, rest: string)
    requires '\n' !in remark
    ensures var trailer := if remark == "" then "" else "   #" + remark;
            '\n' !in trailer && TrailerOk(trailer + "\n" + rest)
  {
    var trailer := if remark == "" then "" else "   #" + remark;
    var line := trailer + "\n" + rest;
    if remark == "" {
      assert line[0] == '\n';
    } else {
      assert line[0] == ' ' && line[1..][0] == ' ' && line[1..][1..][0] == ' ' && line[1..][1..][1..][0] == '#';
      assert TrailerOk(line[1..][1..][1..]);
      assert TrailerOk(line[1..][1..]);
    }
  }

  /** Sourcing what the generator printed binds exactly the contract's names to the contract's values,
      in order, whatever the values contain. */
  lemma {:induction false} GeneratedFileReadsBack(lines: seq<Line>)
    requires AllOk(lines)
    ensures Source(RenderedAll(lines), |lines|) == Some(Meanings(lines))
  {
    hide LineOk, Rendered, Meaning;
    if lines != [] {
      GeneratedFileReadsBack(lines[1..]);
      LineIsSourced(lines[0], RenderedAll(lines[1..]), |lines|);
    }
  }

  // ---------------------------------------------------------------- the contract itself

  datatype Contract = Contract(
    depsUrl: string, dxmtAsset: string, dxmtSha: string, gbeAsset: string, gbeSha: string,
    appid: nat, depot: nat, manifest: string, bsDirLeaf: string, hostXrJson: string,
    dxmtFiles: seq<string>, streamPorts: seq<nat>, legacyPorts: seq<nat>)

  function Dependencies(c: Contract): seq<Line> {
    [ ScalarLine("DEPS_URL", c.depsUrl),
      ScalarLine("DXMT_TGZ_ASSET", c.dxmtAsset),
      ScalarLine("DXMT_TGZ_SHA256", c.dxmtSha),
      ScalarLine("GBE_DLL_ASSET", c.gbeAsset),
      ScalarLine("GBE_DLL_SHA256", c.gbeSha)]
  }

  function Depot(c: Contract): seq<Line> {
    [ NumberLine("BS_APPID", c.appid),
      NumberLine("BS_DEPOT", c.depot),
      WordLine("BS_MANIFEST", c.manifest),
      ScalarLine("BS_DIR_LEAF", c.bsDirLeaf)]
  }

  function Ports(c: Contract): seq<Line> {
    [ NumbersLine("WIRED_PORTS", c.streamPorts, ""),
      NumbersLine("LEGACY_REVERSE_PORTS", c.legacyPorts, " 9947 deliberately absent")]
  }

  /** generate_from, with the comment and blank lines before each group given by `prose`. */
  function Generated(c: Contract, prose: seq<seq<Line>>): seq<Line>
    requires |prose| == 5
  {
    (prose[0] + Dependencies(c)) + (prose[1] + Depot(c)) + (prose[2] + [ScalarLine("HOST_XR_JSON", c.hostXrJson)])
    + (prose[3] + [WordsLine("DXMT_FILES", c.dxmtFiles)]) + (prose[4] + Ports(c))
  }

  predicate ProseOnly(lines: seq<Line>) {
    forall i :: 0 <= i < |lines| ==> lines[i].Blank? || (lines[i].Comment? && '\n' !in lines[i].text)
  }

  function Bindings(c: Contract): seq<Binding> {
    [ Binding("DEPS_URL", Scalar(c.depsUrl)),
      Binding("DXMT_TGZ_ASSET", Scalar(c.dxmtAsset)),
      Binding("DXMT_TGZ_SHA256", Scalar(c.dxmtSha)),
      Binding("GBE_DLL_ASSET", Scalar(c.gbeAsset)),
      Binding("GBE_DLL_SHA256", Scalar(c.gbeSha)),
      Binding("BS_APPID", Scalar(Decimal(c.appid))),
      Binding("BS_DEPOT", Scalar(Decimal(c.depot))),
      Binding("BS_MANIFEST", Scalar(c.manifest)),
      Binding("BS_DIR_LEAF", Scalar(c.bsDirLeaf)),
      Binding("HOST_XR_JSON", Scalar(c.hostXrJson)),
      Binding("DXMT_FILES", List(c.dxmtFiles)),
      Binding("WIRED_PORTS", List(Decimals(c.streamPorts))),
      Binding("LEGACY_REVERSE_PORTS", List(Decimals(c.legacyPorts)))]
  }

  lemma {:induction false} MeaningsConcat(x: seq<Line>, y: seq<Line>)
    ensures Meanings(x + y) == Meanings(x) + Meanings(y)
  {
    hide Meaning;
    if x == [] {
      assert x + y == y;
    } else {
      assert (x + y)[1..] == x[1..] + y;
      MeaningsConcat(x[1..], y);
    }
  }

  lemma {:induction false} ProseMeansNothing(lines: seq<Line>)
    requires ProseOnly(lines)
    ensures Meanings(lines) == []
  {
    if lines != [] {
      ProseMeansNothing(lines[1..]);
    }
  }

  lemma MeaningsOne(l: Line)
    ensures Meanings([l]) == Meaning(l)
  {
    assert [l][1..] == [];
  }

  lemma MeaningsTwo(a: Line, b: Line)
    ensures Meanings([a, b]) == Meaning(a) + Meaning(b)
  {
    hide Meaning;
    assert [a, b] == [a] + [b];
    MeaningsConcat([a], [b]);
    MeaningsOne(a);
    MeaningsOne(b);
  }

  lemma MeaningsOfDependencies(c: Contract)
    ensures Meanings(Dependencies(c)) == Bindings(c)[..5]
  {
    var d := Dependencies(c);
    assert d == [d[0], d[1]] + [d[2], d[3]] + [d[4]];
    MeaningsTwo(d[0], d[1]);
    MeaningsTwo(d[2], d[3]);
    MeaningsOne(d[4]);
    MeaningsConcat([d[0], d[1]], [d[2], d[3]]);
    MeaningsConcat([d[0], d[1]] + [d[2], d[3]], [d[4]]);
  }

  lemma MeaningsOfGroups(c: Contract)
    ensures Meanings(Dependencies(c)) == Bindings(c)[..5]
    ensures Meanings(Depot(c)) == Bindings(c)[5..9]
    ensures Meanings(Ports(c)) == Bindings(c)[11..]
  {
    MeaningsOfDependencies(c);
    var p := Depot(c);
    assert p == [p[0], p[1]] + [p[2], p[3]];
    MeaningsTwo(p[0], p[1]);
    MeaningsTwo(p[2], p[3]);
    MeaningsConcat([p[0], p[1]], [p[2], p[3]]);
    MeaningsTwo(Ports(c)[0], Ports(c)[1]);
  }

  /** A group of lines behind its prose. */
  lemma SectionMeans(prose: seq<Line>, lines: seq<Line>)
    requires ProseOnly(prose) && AllOk(lines)
    ensures Meanings(prose + lines) == Meanings(lines) && AllOk(prose + lines)
  {
    MeaningsConcat(prose, lines);
    ProseMeansNothing(prose);
  }

  predicate AllOk(lines: seq<Line>) {
    forall i :: 0 <= i < |lines| ==> LineOk(lines[i])
  }

  lemma DependenciesAreOk(c: Contract)
    ensures AllOk(Dependencies(c))
  {
    hide IsName;
    DependencyNames();
  }

  lemma DepotIsOk(c: Contract)
    ensures AllOk(Depot(c))
    ensures AllOk([ScalarLine("HOST_XR_JSON", c.hostXrJson)]) && AllOk([WordsLine("DXMT_FILES", c.dxmtFiles)])
  {
    hide IsName;
    OtherNames();
  }

  lemma PortsAreOk(c: Contract)
    ensures AllOk(Ports(c))
  {
    hide IsName;
    PortNames();
  }

  /** Sourcing the generated contract.gen.sh binds the contract's names to exactly the contract's
      values and does nothing else, for every contract. */
  lemma ContractReadsBack(c: Contract, prose: seq<seq<Line>>)
    requires |prose| == 5 && forall k :: 0 <= k < 5 ==> ProseOnly(prose[k])
    ensures var lines := Generated(c, prose);
            Source(RenderedAll(lines), |lines|) == Some(Bindings(c))
  {
    hide Source, Rendered, RenderedAll, Meanings, ProseOnly, LineOk, Dependencies, Depot, Ports, Bindings;
    var xr, files := [ScalarLine("HOST_XR_JSON", c.hostXrJson)], [WordsLine("DXMT_FILES", c.dxmtFiles)];
    DependenciesAreOk(c);
    DepotIsOk(c);
    PortsAreOk(c);
    SectionMeans(prose[0], Dependencies(c));
    SectionMeans(prose[1], Depot(c));
    SectionMeans(prose[2], xr);
    SectionMeans(prose[3], files);
    SectionMeans(prose[4], Ports(c));
    JoinSections(prose[0] + Dependencies(c), prose[1] + Depot(c), prose[2] + xr, prose[3] + files, prose[4] + Ports(c));
    GeneratedFileReadsBack(Generated(c, prose));
    BindingsByGroup(c);
  }

  lemma JoinSections(a: seq<Line>, b: seq<Line>, c: seq<Line>, d: seq<Line>, e: seq<Line>)
    ensures Meanings(a + b + c + d + e) == Meanings(a) + Meanings(b) + Meanings(c) + Meanings(d) + Meanings(e)
    ensures AllOk(a) && AllOk(b) && AllOk(c) && AllOk(d) && AllOk(e) ==> AllOk(a + b + c + d + e)
  {
    hide Meanings, LineOk;
    MeaningsConcat(a, b);
    MeaningsConcat(a + b, c);
    MeaningsConcat(a + b + c, d);
    MeaningsConcat(a + b + c + d, e);
  }

  lemma BindingsByGroup(c: Contract)
    ensures Meanings(Dependencies(c)) + Meanings(Depot(c)) + Meanings([ScalarLine("HOST_XR_JSON", c.hostXrJson)])
            + Meanings([WordsLine("DXMT_FILES", c.dxmtFiles)]) + Meanings(Ports(c)) == Bindings(c)
  {
    hide Meanings;
    MeaningsOfGroups(c);
    MeaningsOne(ScalarLine("HOST_XR_JSON", c.hostXrJson));
    MeaningsOne(WordsLine("DXMT_FILES", c.dxmtFiles));
    var b := Bindings(c);
    assert b[..5] + b[5..9] + [b[9]] + [b[10]] + b[11..] == b;
  }

  lemma DependencyNames()
    ensures IsName("DEPS_URL") && IsName("DXMT_TGZ_ASSET") && IsName("DXMT_TGZ_SHA256")
    ensures IsName("GBE_DLL_ASSET") && IsName("GBE_DLL_SHA256")
  {
  }

  lemma OtherNames()
    ensures IsName("BS_APPID") && IsName("BS_DEPOT") && IsName("BS_MANIFEST") && IsName("BS_DIR_LEAF")
    ensures IsName("HOST_XR_JSON") && IsName("DXMT_FILES")
  {
  }

  lemma PortNames()
    ensures IsName("WIRED_PORTS") && IsName("LEGACY_REVERSE_PORTS")
    ensures '\n' !in " 9947 deliberately absent" && '\n' !in ""
  {
  }
}
