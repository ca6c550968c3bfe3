/** ShellQuote against a reader that follows the quoting rules of section 2.2 of POSIX.1-2017
    Shell Command Language. */
module ShellQuoting {
  import opened RunTypes

  function EscapedOne(c: char): string {
    if c == '\'' then "'\"'\"'" else [c]
  }

  function Escaped(s: string): string {
    if s == "" then "" else EscapedOne(s[0]) + Escaped(s[1..])
  }

  function ShellQuote(s: string): string {
    "'" + Escaped(s) + "'"
  }

  datatype Mode = Plain | Single | Double

  /** Characters that end a word or mean something to the shell unless quoted. */
  const SPECIAL: string := "|&;<>()$`\\\"' \t\n*?[#~=%"

  /** The characters that a backslash escapes within double quotes. */
  const ESCAPED_IN_DOUBLE: string := "$`\"\\\n"

  /** The literal word that the input denotes; none if it is not exactly one word, leaves a quote
      open, or has anything in it to expand. */
  function Read(mode: Mode, input: string): Option<string>
    decreases |input|
  {
    if input == "" then (if mode == Plain then Some("") else None)
    else
      var c, rest := input[0], input[1..];
      match mode
      case Single => if c == '\'' then Read(Plain, rest) else Prepend(c, Read(Single, rest))
      case Double =>
        if c == '"' then Read(Plain, rest)
        else if c == '\\' && rest != "" && rest[0] in ESCAPED_IN_DOUBLE then
          (if rest[0] == '\n' then Read(Double, rest[1..]) else Prepend(rest[0], Read(Double, rest[1..])))
        else if c == '$' || c == '`' then None
        else Prepend(c, Read(Double, rest))
      case Plain =>
        if c == '\'' then Read(Single, rest)
        else if c == '"' then Read(Double, rest)
        else if c == '\\' then
          (if rest == "" then None
           else if rest[0] == '\n' then Read(Plain, rest[1..])
           else Prepend(rest[0], Read(Plain, rest[1..])))
        else if c in SPECIAL then None
        else Prepend(c, Read(Plain, rest))
  }

  function Prepend(c: char, word: Option<string>): Option<string> {
    if word.Some? then Some([c] + word.value) else None
  }

  function Prefixed(s: string, word: Option<string>): Option<string> {
    if word.Some? then Some(s + word.value) else None
  }

  lemma {:induction false} QuoteReadsAsItself(rest: string)
    ensures Read(Single, "'\"'\"'" + rest) == Prepend('\'', Read(Single, rest))
  {
    var q := "'\"'\"'" + rest;
    assert q[1..] == "\"'\"'" + rest;
    assert q[1..][1..] == "'\"'" + rest;
    assert q[1..][1..][1..] == "\"'" + rest;
    assert q[1..][1..][1..][1..] == "'" + rest;
    assert q[1..][1..][1..][1..][1..] == rest;
    assert Read(Single, q) == Read(Plain, q[1..]);
    assert Read(Plain, q[1..]) == Read(Double, q[1..][1..]);
    assert Read(Double, q[1..][1..]) == Prepend('\'', Read(Double, q[1..][1..][1..]));
    assert Read(Double, q[1..][1..][1..]) == Read(Plain, "'" + rest);
  }

  lemma {:induction false} EscapedReadsAsItself(s: string, rest: string)
    ensures Read(Single, Escaped(s) + "'" + rest) == Prefixed(s, Read(Plain, rest))
  {
    if s == "" {
      QuoteEnds(rest);
      PrefixedGrows("", "", Read(Plain, rest));
      assert Escaped(s) + "'" + rest == "'" + rest;
    } else {
      var first, others := s[0], s[1..];
      EscapedReadsAsItself(others, rest);
      var tail := Escaped(others) + "'" + rest;
      CharacterReadsAsItself(first, tail);
      PrefixedGrows([first], others, Read(Plain, rest));
      assert [first] + others == s;
      assert Escaped(s) + "'" + rest == EscapedOne(first) + tail;
    }
  }

  lemma QuoteEnds(rest: string)
    ensures Read(Single, "'" + rest) == Read(Plain, rest)
  {
    assert ("'" + rest)[1..] == rest;
  }

  lemma PrefixedGrows(s: string, t: string, word: Option<string>)
    ensures Prefixed(s, Prefixed(t, word)) == Prefixed(s + t, word) && Prefixed("", word) == word
    ensures |s| == 1 ==> Prefixed(s, Prefixed(t, word)) == Prepend(s[0], Prefixed(t, word))
  {
    if word.Some? {
      assert s + (t + word.value) == (s + t) + word.value && "" + word.value == word.value;
      assert |s| == 1 ==> s == [s[0]];
    }
  }

  lemma CharacterReadsAsItself(c: char, tail: string)
    ensures Read(Single, EscapedOne(c) + tail) == Prepend(c, Read(Single, tail))
  {
    if c == '\'' {
      QuoteReadsAsItself(tail);
    } else {
      assert ([c] + tail)[1..] == tail;
    }
  }

  /** In any position of a word, the quoted text stands for exactly the text. */
  lemma QuotedTextStandsForItself(s: string, rest: string)
    ensures Read(Plain, ShellQuote(s) + rest) == Prefixed(s, Read(Plain, rest))
  {
    var input := ShellQuote(s) + rest;
    assert input == "'" + (Escaped(s) + "'" + rest);
    assert input[1..] == Escaped(s) + "'" + rest;
    EscapedReadsAsItself(s, rest);
  }

  /** ShellQuote(s) is one word, and the word is s: nothing in it is split or expanded. */
  lemma ShellQuoteRoundTrip(s: string)
    ensures Read(Plain, ShellQuote(s)) == Some(s)
  {
    QuotedTextStandsForItself(s, "");
    assert ShellQuote(s) + "" == ShellQuote(s) && s + "" == s;
  }

  /** So different texts are quoted differently. */
  lemma ShellQuoteIsInjective(s: string, t: string)
    requires ShellQuote(s) == ShellQuote(t)
    ensures s == t
  {
    ShellQuoteRoundTrip(s);
    ShellQuoteRoundTrip(t);
  }
}
