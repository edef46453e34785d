/** Single-quoting a value for the shell, and how the shell reads it back. */
module ShellQuote {
  import opened Wrappers

  // ----- the printer -----

  /** `value.replace("'", "'\\''")`: close the quotes, an escaped quote, open them again. */
  function Escaped(value: string): string {
    if value == "" then ""
    else (if value[0] == '\'' then "'\\''" else [value[0]]) + Escaped(value[1..])
  }

  function Quote(value: string): string { "'" + Escaped(value) + "'" }

  // ----- the shell's reading, sections 2.2.1, 2.2.2 and 2.3 of the POSIX Shell Command Language -----

  datatype Mode = Unquoted | InQuotes | AfterBackslash

  predicate IsDelimiter(ch: char) { ch == ' ' || ch == '\t' || ch == '\n' }

  /** Characters that mean something else outside quotes: operators, expansions, patterns, comments. */
  predicate IsSpecial(ch: char) {
    ch in {'|', '&', ';', '<', '>', '(', ')', '$', '`', '"', '*', '?', '[', ']', '#', '~', '=', '%', '!', '{', '}'}
  }

  function Ended(word: Option<string>): seq<string> { if word.Some? then [word.value] else [] }

  function Grown(word: Option<string>, text: string): Option<string> {
    Some(if word.Some? then word.value + text else text)
  }

  /** The words of a text, or none where a quote stays open, a character outside quotes is special,
      or the text has a NUL, which no shell word can hold. */
  function Words(text: string, mode: Mode, word: Option<string>): Option<seq<string>> {
    if text == "" then if mode == Unquoted then Some(Ended(word)) else None
    else
      var ch, rest := text[0], text[1..];
      if ch == '\0' then None
      else
        match mode
        case InQuotes => if ch == '\'' then Words(rest, Unquoted, word) else Words(rest, InQuotes, Grown(word, [ch]))
        case AfterBackslash => Words(rest, Unquoted, if ch == '\n' then word else Grown(word, [ch]))
        case Unquoted =>
          if ch == '\'' then Words(rest, InQuotes, Grown(word, ""))
          else if ch == '\\' then Words(rest, AfterBackslash, word)
          else if IsDelimiter(ch) then
            var later := Words(rest, Unquoted, None);
            if later.Some? then Some(Ended(word) + later.value) else None
          else if IsSpecial(ch) then None
          else Words(rest, Unquoted, Grown(word, [ch]))
  }

  function WordsOf(text: string): Option<seq<string>> { Words(text, Unquoted, None) }

  // ----- reading back what was printed -----

  /** The escape of one quote, read inside quotes, is one quote. */
  lemma EscapedQuoteReads(rest: string, word: string)
    ensures Words("'\\''" + rest, InQuotes, Some(word)) == Words(rest, InQuotes, Some(word + "'"))
  {
    var text := "'\\''" + rest;
    assert text[1..] == "\\''" + rest && ("\\''" + rest)[1..] == "''" + rest;
    assert ("''" + rest)[1..] == "'" + rest && ("'" + rest)[1..] == rest;
    assert Words("''" + rest, AfterBackslash, Some(word)) == Words("'" + rest, Unquoted, Some(word + "'"));
    assert Words("'" + rest, Unquoted, Some(word + "'")) == Words(rest, InQuotes, Some(word + "'" + ""));
    assert word + "'" + "" == word + "'";
  }

  lemma PlainReads(ch: char, rest: string, word: string)
    requires ch != '\''
    ensures Words([ch] + rest, InQuotes, Some(word)) == if ch == '\0' then None
            else Words(rest, InQuotes, Some(word + [ch]))
  {
    assert ([ch] + rest)[1..] == rest;
  }

  /** The escape of one character, read inside quotes, is that character. */
  lemma OneEscapedReads(value: string, rest: string, word: string)
    requires value != ""
    ensures Words(Escaped(value) + rest, InQuotes, Some(word)) ==
            if value[0] == '\0' then None else Words(Escaped(value[1..]) + rest, InQuotes, Some(word + [value[0]]))
  {
    hide Words;
    var after := Escaped(value[1..]) + rest;
    if value[0] == '\'' {
      assert Escaped(value) + rest == "'\\''" + after;
      EscapedQuoteReads(after, word);
      assert word + "'" == word + [value[0]];
    } else {
      assert Escaped(value) + rest == [value[0]] + after;
      PlainReads(value[0], after, word);
    }
  }

  lemma {:induction false} EscapedReads(value: string, rest: string, word: string)
    ensures Words(Escaped(value) + rest, InQuotes, Some(word)) ==
            if '\0' in value then None else Words(rest, InQuotes, Some(word + value))
  {
    if value == "" {
      assert Escaped(value) + rest == rest && word + value == word;
    } else {
      OneEscapedReads(value, rest, word);
      EscapedReads(value[1..], rest, word + [value[0]]);
      assert value == [value[0]] + value[1..];
      hide Words, Escaped;
      assert word + [value[0]] + value[1..] == word + value;
    }
  }

  lemma QuoteReads(value: string, rest: string)
    ensures Words(Quote(value) + rest, Unquoted, None) == if '\0' in value then None
            else Words(rest, Unquoted, Some(value))
  {
    var inner := Escaped(value) + ("'" + rest);
    assert Quote(value) + rest == "'" + inner && ("'" + inner)[1..] == inner;
    assert Words("'" + inner, Unquoted, None)
           == Words(inner, InQuotes, Some("")) by { assert Grown(None, "") == Some(""); }
    EscapedReads(value, "'" + rest, "");
    assert "" + value == value;
    assert Words("'" + rest, InQuotes, Some(value))
           == Words(rest, Unquoted, Some(value)) by { assert ("'" + rest)[1..] == rest; }
  }

  /** Quoting is exact: the shell reads a quoted value as the one word it came from, exactly when
      the value has no NUL. */
  lemma QuoteRoundTrip(value: string)
    ensures WordsOf(Quote(value)) == Some([value]) <==> '\0' !in value
  {
    QuoteReads(value, "");
    assert Quote(value) + "" == Quote(value);
  }

  lemma DelimiterEnds(word: string, rest: string)
    ensures Words(" " + rest, Unquoted, Some(word)) == if WordsOf(rest).Some? then Some([word] + WordsOf(rest).value)
            else None
  {
    assert (" " + rest)[1..] == rest;
  }

  function Joined(values: seq<string>): string {
    if values == [] then "" else Quote(values[0]) + " " + Joined(values[1..])
  }

  lemma QuotedThenMore(value: string, rest: string)
    requires '\0' !in value && WordsOf(rest).Some?
    ensures WordsOf(Quote(value) + " " + rest) == Some([value] + WordsOf(rest).value)
  {
    hide Words, Quote;
    QuoteReads(value, " " + rest);
    DelimiterEnds(value, rest);
    assert Quote(value) + " " + rest == Quote(value) + (" " + rest);
  }

  /** A command line of quoted values is read as exactly those values, in order. */
  lemma {:induction false} CommandRoundTrip(values: seq<string>)
    requires forall i :: 0 <= i < |values| ==> '\0' !in values[i]
    ensures WordsOf(Joined(values)) == Some(values)
  {
    if values != [] {
      hide Words, Quote;
      CommandRoundTrip(values[1..]);
      QuotedThenMore(values[0], Joined(values[1..]));
      assert values == [values[0]] + values[1..];
    }
  }
}
