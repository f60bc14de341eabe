/** Building a shell command line from arbitrary words, and reading it back as a POSIX shell does. */
module ShellQuoting {
  import opened Wrappers

  /** Every single quote becomes `'\''`. */
  function Escape(value: string): string {
    if value == "" then ""
    else (if value[0] == '\'' then "'\\''" else [value[0]]) + Escape(value[1..])
  }

  function PosixSingleQuote(value: string): string {
    "'" + Escape(value) + "'"
  }

  function PosixCommandArray(parts: seq<string>): string {
    if parts == [] then ""
    else if |parts| == 1 then PosixSingleQuote(parts[0])
    else PosixSingleQuote(parts[0]) + " " + PosixCommandArray(parts[1..])
  }

  // ---------------------------------------------------------------- the shell's side

  /** Characters that mean something to the shell when they are not quoted (section 2.2 of the
      POSIX.1-2017 Shell Command Language). */
  predicate Special(c: char) {
    c in "|&;<>()$`\"\t\n*?[#~=%"
  }

  /** Reads words outside quotes: sections 2.2.1 (backslash) and 2.2.2 (single quotes), with blanks
      between words. `word` is the word begun so far. An unquoted special character or an open
      quote at the end is no plain list of words. */
  function Lex(s: string, word: Option<string>): Option<seq<string>>
    decreases |s|, 1
  {
    if s == "" then Some(if word.Some? then [word.value] else [])
    else if s[0] == ' ' then
      var rest := Lex(s[1..], None);
      if rest.Some? && word.Some? then Some([word.value] + rest.value) else rest
    else
      var begun := if word.Some? then word.value else "";
      if s[0] == '\'' then LexQuoted(s[1..], begun)
      else if s[0] == '\\' then
        if |s| == 1 then Some([begun + "\\"])
        else if s[1] == '\n' then Lex(s[2..], word)
        else Lex(s[2..], Some(begun + [s[1]]))
      else if Special(s[0]) then None
      else Lex(s[1..], Some(begun + [s[0]]))
  }

  /** Reads inside single quotes: everything is literal up to the next quote. */
  function LexQuoted(s: string, word: string): Option<seq<string>>
    decreases |s|, 0
  {
    if s == "" then None
    else if s[0] == '\'' then Lex(s[1..], Some(word))
    else LexQuoted(s[1..], word + [s[0]])
  }

  // ---------------------------------------------------------------- round trip

  lemma {:induction false} EscapedBodyIsLiteral(value: string, word: string, rest: string)
    ensures LexQuoted(Escape(value) + "'" + rest, word) == Lex(rest, Some(word + value))
  {
    if value == "" {
      assert Escape(value) + "'" + rest == "'" + rest;
      assert word + value == word;
    } else {
      var tail := Escape(value[1..]) + "'" + rest;
      EscapedBodyIsLiteral(value[1..], word + [value[0]], rest);
      assert word + [value[0]] + value[1..] == word + value;
      if value[0] == '\'' {
        assert Escape(value) + "'" + rest == "'\\''" + tail;
        ReopenedQuote(tail, word);
      } else {
        assert Escape(value) + "'" + rest == [value[0]] + tail;
      }
    }
  }

  /** Inside quotes, `'\''` closes, adds one literal quote and opens again. */
  lemma ReopenedQuote(tail: string, word: string)
    ensures LexQuoted("'\\''" + tail, word) == LexQuoted(tail, word + "'")
  {
    var escape, reopened := "\\''" + tail, "'" + tail;
    assert ("'\\''" + tail)[1..] == escape;
    assert escape[2..] == reopened && reopened[1..] == tail;
    assert Lex(escape, Some(word)) == Lex(reopened, Some(word + ['\'']));
    assert Lex(reopened, Some(word + ['\''])) == LexQuoted(tail, word + "'");
  }

  lemma QuotedWordIsOneWord(value: string, rest: string)
    ensures Lex(PosixSingleQuote(value) + rest, None) == Lex(rest, Some(value))
  {
    var s := PosixSingleQuote(value) + rest;
    assert s[1..] == Escape(value) + "'" + rest;
    EscapedBodyIsLiteral(value, "", rest);
    assert "" + value == value;
  }

  /** Round trip: a shell reads back exactly the words, for all words, and no character of them is
      ever exposed to it unquoted. */
  lemma {:induction false} CommandArrayRoundTrip(parts: seq<string>)
    ensures Lex(PosixCommandArray(parts), None) == Some(parts)
  {
    if |parts| == 1 {
      QuotedWordIsOneWord(parts[0], "");
      assert PosixSingleQuote(parts[0]) + "" == PosixSingleQuote(parts[0]);
      assert parts == [parts[0]];
    } else if |parts| > 1 {
      var rest := PosixCommandArray(parts[1..]);
      QuotedWordIsOneWord(parts[0], " " + rest);
      assert PosixSingleQuote(parts[0]) + (" " + rest) == PosixCommandArray(parts);
      assert (" " + rest)[1..] == rest;
      CommandArrayRoundTrip(parts[1..]);
      assert [parts[0]] + parts[1..] == parts;
    }
  }
}
