/** Shell literals, and the shell that reads them. */
module ShellQuote {
  import opened Common

  // ---- Writing ----

  /** The value with every single quote closed, escaped and reopened. */
  function Escaped(value: string): string
  {
    if value == [] then []
    else (if value[0] == '\'' then "'\\''" else [value[0]]) + Escaped(value[1..])
  }

  function ShellLiteral(value: string): (r: Option<string>)
    ensures r.None? <==> value == [] || '\0' in value
  {
    if value == [] || '\0' in value then None else Some("'" + Escaped(value) + "'")
  }

  // ---- Reading, by sections 2.2.1, 2.2.2 and 2.3 of the POSIX Shell Command Language ----

  /** Blanks, newline and operator characters end an unquoted word. */
  predicate IsDelimiter(c: char)
  {
    c == ' ' || c == '\t' || c == '\n' || c == ';' || c == '&' || c == '|' || c == '<' || c == '>' || c == '('
      || c == ')'
  }

  /** Characters whose unquoted meaning is an expansion or another kind of quoting. */
  predicate IsExpanding(c: char)
  {
    c == '$' || c == '`' || c == '"' || c == '*' || c == '?' || c == '[' || c == '~' || c == '#'
  }

  /** The literal word at the front of the input and what follows it; none if it is not a literal. */
  function Word(input: string, quoted: bool, word: string): Option<(string, string)>
    decreases |input|
  {
    if quoted then
      if input == [] then None
      else if input[0] == '\'' then Word(input[1..], false, word)
      else Word(input[1..], true, word + [input[0]])
    else if input == [] || IsDelimiter(input[0]) then Some((word, input))
    else if input[0] == '\'' then Word(input[1..], true, word)
    else if input[0] == '\\' then
      if |input| < 2 then None
      else if input[1] == '\n' then Word(input[2..], false, word)
      else Word(input[2..], false, word + [input[1]])
    else if IsExpanding(input[0]) then None
    else Word(input[1..], false, word + [input[0]])
  }

  /** Inside the quotes, the escaped value is read back character by character. */
  lemma {:induction false} QuotedBody(value: string, tail: string, word: string)
    ensures Word(Escaped(value) + "'" + tail, true, word) == Word(tail, false, word + value)
    decreases |value|
  {
    var input := Escaped(value) + "'" + tail;
    if value == [] {
      assert input[1..] == tail && word + value == word;
    } else {
      var rest := Escaped(value[1..]) + "'" + tail;
      assert word + [value[0]] + value[1..] == word + value;
      QuotedBody(value[1..], tail, word + [value[0]]);
      if value[0] == '\'' {
        assert input == "'\\''" + rest;
        var escape, reopen := "\\''" + rest, "'" + rest;
        assert input[1..] == escape && escape[2..] == reopen && reopen[1..] == rest;
        assert Word(input, true, word) == Word(escape, false, word);
        assert escape[0] == '\\' && escape[1] == '\'';
        assert Word(escape, false, word) == Word(reopen, false, word + ['\'']);
        assert Word(reopen, false, word + ['\'']) == Word(rest, true, word + ['\'']);
      } else {
        assert input == [value[0]] + rest;
        assert input[1..] == rest;
      }
    }
  }

  /** A literal is read as one word, the original, whatever delimiter and text follow. */
  lemma LiteralIsOneWord(value: string, tail: string)
    requires ShellLiteral(value).Some? && (tail == [] || IsDelimiter(tail[0]))
    ensures Word(ShellLiteral(value).value + tail, false, []) == Some((value, tail))
  {
    var body := Escaped(value) + "'" + tail;
    assert ShellLiteral(value).value + tail == "'" + body;
    QuotedBody(value, tail, []);
    WordOpens(body);
    WordEnds(tail, value);
    hide Word, Escaped;
    assert [] + value == value;
  }

  lemma WordOpens(body: string)
    ensures Word("'" + body, false, []) == Word(body, true, [])
  {
    assert ("'" + body)[1..] == body;
  }

  lemma WordEnds(tail: string, word: string)
    requires tail == [] || IsDelimiter(tail[0])
    ensures Word(tail, false, word) == Some((word, tail))
  {
  }

  // ---- Command lines ----

  function CommandLine(args: seq<string>): Option<string>
  {
    if args == [] then Some([])
    else
      var first, rest := ShellLiteral(args[0]), CommandLine(args[1..]);
      if first.None? || rest.None? then None
      else Some(first.value + if |args| == 1 then [] else " " + rest.value)
  }

  /** Every word of a line of literals separated by single spaces. */
  function Words(line: string): Option<seq<string>>
    decreases |line|
  {
    if line == [] then Some([])
    else
      var first := Word(line, false, []);
      if first.None? || |first.value.1| >= |line| then None
      else if first.value.1 == [] then Some([first.value.0])
      else if first.value.1[0] != ' ' then None
      else
        var rest := Words(first.value.1[1..]);
        if rest.None? then None else Some([first.value.0] + rest.value)
  }

  /** The shell reads back exactly the arguments a command line was built from. */
  lemma {:induction false} CommandLineRoundTrips(args: seq<string>)
    requires CommandLine(args).Some?
    ensures Words(CommandLine(args).value) == Some(args)
  {
    if args != [] {
      var line, first := CommandLine(args).value, ShellLiteral(args[0]).value;
      CommandLineRoundTrips(args[1..]);
      var tail := if |args| == 1 then [] else " " + CommandLine(args[1..]).value;
      LiteralIsOneWord(args[0], tail);
      assert line == first + tail;
      assert |first| >= 2;
      if |args| == 1 {
        assert args == [args[0]];
      } else {
        assert tail[1..] == CommandLine(args[1..]).value;
        assert [args[0]] + args[1..] == args;
      }
    }
  }
}
