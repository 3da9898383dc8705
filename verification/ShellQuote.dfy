/**
 * The one quoting rule for the command lines written into agent configurations
 * (src/setup/shell-quote.ts), read back by the quoting rules of the POSIX shell: sections 2.2.1
 * (escape character) and 2.2.2 (single-quotes) of the Shell Command Language, POSIX.1-2017.
 */
module ShellQuote {
  import opened Options

  const QUOTE: char := '\''
  const ESCAPED_QUOTE: string := "'\\''"

  function ReplaceQuotes(value: string): string {
    if value == "" then ""
    else (if value[0] == QUOTE then ESCAPED_QUOTE else [value[0]]) + ReplaceQuotes(value[1..])
  }

  function ShellQuote(value: string): string {
    [QUOTE] + ReplaceQuotes(value) + [QUOTE]
  }

  // ---------------------------------------------------------------- the shell's side

  /** Between words, inside an unquoted part of one, or inside single quotes. */
  datatype Place = Between | Word(text: string) | Quoted(text: string)

  /** Unquoted, these expand, redirect, end the command or open another kind of quoting: not one word's text. */
  predicate Special(c: char) {
    c in "|&;<>()$`\"*?[]#~=%!{}\n"
  }

  function TextOf(place: Place): string {
    if place.Between? then "" else place.text
  }

  /** The words of a command line made of literal text and quoting; None when it is not such a line. */
  function Lex(s: string, place: Place): Option<seq<string>>
    decreases |s|
  {
    if s == "" then
      match place
      case Between => Some([])
      case Word(text) => Some([text])
      case Quoted(_) => None
    else if s[0] == '\0' then None
    else if place.Quoted? then
      Lex(s[1..], if s[0] == QUOTE then Word(place.text) else Quoted(place.text + [s[0]]))
    else if s[0] == QUOTE then Lex(s[1..], Quoted(TextOf(place)))
    else if s[0] == '\\' then
      if |s| == 1 || s[1] == '\0' then None
      else if s[1] == '\n' then Lex(s[2..], place)
      else Lex(s[2..], Word(TextOf(place) + [s[1]]))
    else if s[0] == ' ' || s[0] == '\t' then
      var rest := Lex(s[1..], Between);
      if place.Word? && rest.Some? then Some([place.text] + rest.value) else rest
    else if Special(s[0]) then None
    else Lex(s[1..], Word(TextOf(place) + [s[0]]))
  }

  // ---------------------------------------------------------------- quoting is undone

  lemma {:induction false} EscapedQuoteCloses(rest: string, text: string)
    ensures Lex(ESCAPED_QUOTE + rest, Quoted(text)) == Lex(rest, Quoted(text + [QUOTE]))
  {
    var open := [QUOTE] + rest;
    var escaped := "\\'" + open;
    assert ESCAPED_QUOTE + rest == [QUOTE] + escaped;
    assert Lex(open, Word(text + [QUOTE])) == Lex(rest, Quoted(text + [QUOTE])) by { assert open[1..] == rest; }
    assert Lex(escaped, Word(text)) == Lex(open, Word(text + [QUOTE])) by { assert escaped[2..] == open; }
    assert ([QUOTE] + escaped)[1..] == escaped;
  }

  lemma {:induction false} QuotedTextReads(value: string, rest: string, text: string)
    requires '\0' !in value
    ensures Lex(ReplaceQuotes(value) + [QUOTE] + rest, Quoted(text)) == Lex(rest, Word(text + value))
  {
    if value == "" {
      assert ReplaceQuotes(value) + [QUOTE] + rest == [QUOTE] + rest;
      assert ([QUOTE] + rest)[1..] == rest;
      assert text + value == text;
    } else {
      var tail := ReplaceQuotes(value[1..]) + [QUOTE] + rest;
      var first := if value[0] == QUOTE then ESCAPED_QUOTE else [value[0]];
      assert ReplaceQuotes(value) + [QUOTE] + rest == first + tail;
      QuotedTextReads(value[1..], rest, text + [value[0]]);
      assert text + [value[0]] + value[1..] == text + value;
      if value[0] == QUOTE {
        EscapedQuoteCloses(tail, text);
      } else {
        assert (first + tail)[1..] == tail;
      }
    }
  }

  /** Wherever it stands, the quoted text adds exactly the value to the word being read. */
  lemma {:induction false} QuoteReads(value: string, rest: string, place: Place)
    requires '\0' !in value && !place.Quoted?
    ensures Lex(ShellQuote(value) + rest, place) == Lex(rest, Word(TextOf(place) + value))
  {
    var s := ShellQuote(value) + rest;
    assert s[1..] == ReplaceQuotes(value) + [QUOTE] + rest;
    QuotedTextReads(value, rest, TextOf(place));
  }

  /** One word, equal to the value. */
  lemma QuoteIsOneWord(value: string)
    requires '\0' !in value
    ensures Lex(ShellQuote(value), Between) == Some([value])
  {
    QuoteReads(value, "", Between);
    assert ShellQuote(value) + "" == ShellQuote(value);
    assert "" + value == value;
  }

  function CommandLine(words: seq<string>): string {
    if words == [] then ""
    else if |words| == 1 then ShellQuote(words[0])
    else ShellQuote(words[0]) + " " + CommandLine(words[1..])
  }

  /** A command line of quoted words is read as exactly those words. */
  lemma {:induction false} CommandLineReads(words: seq<string>)
    requires forall i :: 0 <= i < |words| ==> '\0' !in words[i]
    ensures Lex(CommandLine(words), Between) == Some(words)
  {
    if |words| == 1 {
      QuoteIsOneWord(words[0]);
      assert words == [words[0]];
    } else if words != [] {
      var rest := " " + CommandLine(words[1..]);
      CommandLineReads(words[1..]);
      QuoteReads(words[0], rest, Between);
      assert CommandLine(words) == ShellQuote(words[0]) + rest;
      assert rest[1..] == CommandLine(words[1..]);
      assert "" + words[0] == words[0];
      assert words == [words[0]] + words[1..];
      hide ShellQuote;
    }
  }
}
