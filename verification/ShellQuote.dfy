/**
 Remote commands: ssh joins its arguments with spaces and the worker's shell splits
 the result again. Words are quoted so that the shell gets back exactly the words.
 */
module ShellQuote {
  import opened Common

  /** The characters a word may hold without quotes. */
  predicate Safe(c: char) {
    'a' <= c <= 'z' || 'A' <= c <= 'Z' || '0' <= c <= '9' || c in "_@%+=:,./^-"
  }

  // ---------------------------------------------------------------- what is sent

  predicate AllSafe(word: string) { forall i :: 0 <= i < |word| ==> Safe(word[i]) }

  /** strings.ReplaceAll(value, "'", "'\"'\"'") */
  function Escaped(word: string): string {
    if word == "" then ""
    else (if word[0] == '\'' then "'\"'\"'" else [word[0]]) + Escaped(word[1..])
  }

  function QuoteShellWord(word: string): string {
    if word != "" && AllSafe(word) then word else "'" + Escaped(word) + "'"
  }

  /** The remote part of the ssh arguments, as ssh joins it. */
  function RemoteCommand(words: seq<string>): string {
    if words == [] then ""
    else if |words| == 1 then QuoteShellWord(words[0])
    else QuoteShellWord(words[0]) + " " + RemoteCommand(words[1..])
  }

  // ---------------------------------------------------------------- what the shell does

  /** Characters with a meaning of their own outside quotes (section 2.2 of the
      POSIX.1-2017 Shell Command Language), and NUL. */
  predicate Special(c: char) {
    || c in "|&;<>()$`\\" || c == '"' || c == '\'' || c == ' ' || c == '\t' || c == '\n'
    || c in "*?[#~!{}" || c == '\0'
  }

  predicate Blank(c: char) { c == ' ' || c == '\t' }

  /** The place of the first `c` in `s`, or its end. */
  function IndexOf(s: string, c: char): (n: nat)
    ensures n <= |s| && (n < |s| ==> s[n] == c) && forall i :: 0 <= i < n ==> s[i] != c
  {
    if s == "" || s[0] == c then 0 else 1 + IndexOf(s[1..], c)
  }

  /** Inside double quotes these keep a special meaning (section 2.2.3). */
  predicate Expands(piece: string) { '$' in piece || '`' in piece || '\\' in piece }

  /** Splits a command into words by the rules for unquoted characters, single quotes
      and double quotes (sections 2.2.2, 2.2.3 and 2.3): quotes are removed
      (section 2.6.7), a quoted part belongs to the word around it, and blanks end a
      word. None if the text needs any other rule. */
  function Split(s: string, word: Option<string>): Option<seq<string>>
    decreases |s|
  {
    if s == "" then Some(Ended(word, []))
    else if Blank(s[0]) then
      var rest := Split(s[1..], None);
      if rest.Some? then Some(Ended(word, rest.value)) else None
    else if s[0] == '\'' then
      var n := IndexOf(s[1..], '\'');
      if n == |s[1..]| then None else Split(s[n + 2..], Some(Text(word) + s[1..n + 1]))
    else if s[0] == '"' then
      var n := IndexOf(s[1..], '"');
      if n == |s[1..]| || Expands(s[1..n + 1]) then None
      else Split(s[n + 2..], Some(Text(word) + s[1..n + 1]))
    else if Special(s[0]) then None
    else Split(s[1..], Some(Text(word) + [s[0]]))
  }

  function Text(word: Option<string>): string { if word.Some? then word.value else "" }

  function Ended(word: Option<string>, rest: seq<string>): seq<string> {
    if word.Some? then [word.value] + rest else rest
  }

  // ---------------------------------------------------------------- proofs

  /** No safe character is special to the shell. */
  lemma SafeIsPlain(c: char)
    requires Safe(c)
    ensures !Special(c)
  { }

  lemma {:induction false} SplitSafe(word: string, before: string, rest: string)
    requires AllSafe(word)
    ensures Split(word + rest, Some(before)) == Split(rest, Some(before + word))
    decreases |word|
  {
    if word == "" {
      assert word + rest == rest && before + word == before;
    } else {
      SafeIsPlain(word[0]);
      assert (word + rest)[1..] == word[1..] + rest;
      assert before + word == (before + [word[0]]) + word[1..];
      SplitSafe(word[1..], before + [word[0]], rest);
    }
  }

  /** A single-quoted piece is taken literally. */
  lemma SplitSingle(piece: string, word: Option<string>, rest: string)
    requires '\'' !in piece
    ensures Split("'" + piece + "'" + rest, word) == Split(rest, Some(Text(word) + piece))
  {
    var s := "'" + piece + "'" + rest;
    assert s[1..] == piece + "'" + rest;
    IndexIs(s[1..], '\'', |piece|);
    assert s[1..|piece| + 1] == piece && s[|piece| + 2..] == rest;
  }

  /** "'" between double quotes is one single quote. */
  lemma SplitQuotedQuote(word: Option<string>, rest: string)
    ensures Split("\"'\"" + rest, word) == Split(rest, Some(Text(word) + "'"))
  {
    var s := "\"'\"" + rest;
    assert s[1..] == "'\"" + rest;
    IndexIs(s[1..], '"', 1);
    assert s[1..2] == "'" && s[3..] == rest;
  }

  lemma {:induction false} IndexIs(s: string, c: char, n: nat)
    requires n < |s| && s[n] == c && forall i :: 0 <= i < n ==> s[i] != c
    ensures IndexOf(s, c) == n
  { }

  lemma EscapedFree(word: string)
    requires '\'' !in word
    ensures Escaped(word) == word
  {
    if word != "" { assert word == [word[0]] + word[1..]; }
  }

  /** A quoted word, read from inside its first single quote. */
  lemma {:induction false} SplitEscaped(word: string, before: Option<string>, rest: string)
    ensures Split("'" + Escaped(word) + "'" + rest, before) == Split(rest, Some(Text(before) + word))
    decreases |word|
  {
    hide Split, Escaped;
    var n := IndexOf(word, '\'');
    if n == |word| {
      EscapedFree(word);
      SplitSingle(word, before, rest);
    } else {
      var head, tail := word[..n], word[n + 1..];
      EscapedSplits(word, n);
      var later := "'" + Escaped(tail) + "'" + rest;
      Regroup(head, Escaped(tail), rest);
      SplitHead(head, before, later);
      SplitEscaped(tail, Some(Text(before) + head + "'"), rest);
      assert Text(before) + head + "'" + tail == Text(before) + word;
    }
  }

  /** A quoted piece and the quoted quote after it. */
  lemma SplitHead(head: string, before: Option<string>, later: string)
    requires '\'' !in head
    ensures Split("'" + head + "'" + ("\"'\"" + later), before) == Split(later, Some(Text(before) + head + "'"))
  {
    hide Split;
    SplitSingle(head, before, "\"'\"" + later);
    SplitQuotedQuote(Some(Text(before) + head), later);
  }

  lemma Regroup(head: string, tail: string, rest: string)
    ensures "'" + (head + "'\"'\"'" + tail) + "'" + rest == "'" + head + "'" + ("\"'\"" + ("'" + tail + "'" + rest))
  { }

  lemma {:induction false} EscapedSplits(word: string, n: nat)
    requires n < |word| && word[n] == '\'' && forall i :: 0 <= i < n ==> word[i] != '\''
    ensures Escaped(word) == word[..n] + "'\"'\"'" + Escaped(word[n + 1..])
  {
    if n > 0 {
      EscapedSplits(word[1..], n - 1);
      assert word[1..][..n - 1] == word[1..n] && word[1..][n..] == word[n + 1..];
      assert word[..n] == [word[0]] + word[1..n];
    }
  }

  /** Exactly the words that need no quotes are sent as they are. */
  lemma QuotedOnlyIfNeeded(word: string)
    ensures QuoteShellWord(word) == word <==> word != "" && AllSafe(word)
  {
    EscapedIsNoShorter(word);
  }

  lemma {:induction false} EscapedIsNoShorter(word: string)
    ensures |word| <= |Escaped(word)|
  {
    if word != "" { EscapedIsNoShorter(word[1..]); }
  }

  lemma SplitQuoted(word: string, rest: string)
    ensures Split(QuoteShellWord(word) + rest, None) == Split(rest, Some(word))
  {
    if word != "" && AllSafe(word) {
      SafeIsPlain(word[0]);
      assert (word + rest)[1..] == word[1..] + rest;
      SplitSafe(word[1..], [word[0]], rest);
      assert [word[0]] + word[1..] == word && Text(None) + [word[0]] == [word[0]];
    } else {
      SplitEscaped(word, None, rest);
      assert Text(None) + word == word;
      assert QuoteShellWord(word) + rest == "'" + Escaped(word) + "'" + rest;
    }
  }

  /** The worker's shell splits the command into exactly the words that were given,
      empty ones and ones full of quotes included. */
  lemma {:induction false} RemoteRoundTrip(words: seq<string>)
    ensures Split(RemoteCommand(words), None) == Some(words)
    decreases |words|
  {
    hide QuoteShellWord;
    if |words| == 0 {
    } else if |words| == 1 {
      SplitQuoted(words[0], "");
      assert QuoteShellWord(words[0]) + "" == QuoteShellWord(words[0]);
      assert Ended(Some(words[0]), []) == words;
    } else {
      var rest := " " + RemoteCommand(words[1..]);
      assert RemoteCommand(words) == QuoteShellWord(words[0]) + rest;
      SplitQuoted(words[0], rest);
      assert rest[1..] == RemoteCommand(words[1..]);
      RemoteRoundTrip(words[1..]);
      assert Ended(Some(words[0]), words[1..]) == words;
    }
  }

  /** So no two lists of words are ever sent as the same command. */
  lemma RemoteIsInjective(a: seq<string>, b: seq<string>)
    requires RemoteCommand(a) == RemoteCommand(b)
    ensures a == b
  {
    RemoteRoundTrip(a);
    RemoteRoundTrip(b);
  }
}
