/** The printed worker start-up command (useWorkerStartupTool.ts) and the reading a POSIX shell
    gives it: IEEE Std 1003.1, Shell Command Language, sections 2.2.1, 2.2.2, 2.2.3 and 2.3. */
module ShellCommand {
  import opened Prelude

  // ---------- The printer ----------

  /** Every single quote becomes: close, escaped quote, reopen. */
  function EscapeQuotes(value: string): string {
    if value == "" then ""
    else (if value[0] == '\'' then "'\\''" else [value[0]]) + EscapeQuotes(value[1..])
  }

  function ShellQuote(value: string): string {
    "'" + EscapeQuotes(value) + "'"
  }

  datatype EnvEntry = EnvEntry(key: string, value: string)

  function EnvLine(entry: EnvEntry): string {
    entry.key + "=" + ShellQuote(entry.value) + " \\"
  }

  function JoinLines(lines: seq<string>): string {
    if lines == [] then ""
    else if |lines| == 1 then lines[0]
    else lines[0] + "\n" + JoinLines(lines[1..])
  }

  function FormatMultilineCommand(entries: seq<EnvEntry>, binaryPath: string): string {
    JoinLines(seq(|entries|, i requires 0 <= i < |entries| => EnvLine(entries[i])) + [ShellQuote(binaryPath)])
  }

  // ---------- The shell ----------

  predicate IsNameChar(c: char) {
    'A' <= c <= 'Z' || 'a' <= c <= 'z' || '0' <= c <= '9' || c == '_'
  }

  /** A POSIX name: what may stand before the `=` of an assignment word. */
  predicate IsName(key: string) {
    key != "" && !('0' <= key[0] <= '9') && forall i :: 0 <= i < |key| ==> IsNameChar(key[i])
  }

  /** Characters that, unquoted, start an expansion, a comment, double quoting or an operator.
      A newline ends the command. Meeting one makes the text more than a list of literal words. */
  predicate IsActive(c: char) {
    c in "\n\"$`|&;<>()#*?[]~{}!"
  }

  /** The words of a command: `current` is the word being read, if one has begun.
      None stands for any text that is not a single command of literal words. */
  function Unquoted(text: string, current: Option<string>, words: seq<string>): Option<seq<string>>
    decreases |text|
  {
    if text == "" then Some(Delimit(current, words))
    else if text[0] == '\\' then
      if |text| == 1 then None
      else if text[1] == '\n' then Unquoted(text[2..], current, words)
      else Unquoted(text[2..], Some(Begun(current) + [text[1]]), words)
    else if text[0] == '\'' then InQuotes(text[1..], Begun(current), words)
    else if text[0] == ' ' || text[0] == '\t' then Unquoted(text[1..], None, Delimit(current, words))
    else if IsActive(text[0]) then None
    else Unquoted(text[1..], Some(Begun(current) + [text[0]]), words)
  }

  /** Inside single quotes every character is literal up to the closing quote. */
  function InQuotes(text: string, current: string, words: seq<string>): Option<seq<string>>
    decreases |text|
  {
    if text == "" then None
    else if text[0] == '\'' then Unquoted(text[1..], Some(current), words)
    else InQuotes(text[1..], current + [text[0]], words)
  }

  function Begun(current: Option<string>): string {
    if current.Some? then current.value else ""
  }

  function Delimit(current: Option<string>, words: seq<string>): seq<string> {
    if current.Some? then words + [current.value] else words
  }

  function ShellWords(text: string): Option<seq<string>> {
    Unquoted(text, None, [])
  }

  /** The words a start-up command is meant to denote. */
  function IntendedWords(entries: seq<EnvEntry>, binaryPath: string): seq<string> {
    seq(|entries|, i requires 0 <= i < |entries| => entries[i].key + "=" + entries[i].value) + [binaryPath]
  }

  // ---------- Reading back ----------

  /** Close, escaped quote, reopen: one literal quote. */
  lemma ReadEscapedQuote(tail: string, current: string, words: seq<string>)
    ensures InQuotes("'\\''" + tail, current, words) == InQuotes(tail, current + "'", words)
  {
    var text := "'\\''" + tail;
    assert text[1..] == "\\''" + tail;
    assert text[1..][2..] == "'" + tail;
    assert ("'" + tail)[1..] == tail;
    calc {
      InQuotes(text, current, words);
      Unquoted("\\''" + tail, Some(current), words);
      Unquoted("'" + tail, Some(current + "'"), words);
      InQuotes(tail, current + "'", words);
    }
  }

  lemma {:induction false} ReadEscaped(value: string, rest: string, current: string, words: seq<string>)
    ensures InQuotes(EscapeQuotes(value) + ("'" + rest), current, words)
         == Unquoted(rest, Some(current + value), words)
    decreases |value|
  {
    var text := EscapeQuotes(value) + ("'" + rest);
    if value == "" {
      assert text == "'" + rest && text[1..] == rest;
      assert current + value == current;
    } else {
      var tail := EscapeQuotes(value[1..]) + ("'" + rest);
      ReadEscaped(value[1..], rest, current + [value[0]], words);
      assert current + [value[0]] + value[1..] == current + value;
      if value[0] == '\'' {
        assert text == "'\\''" + tail;
        ReadEscapedQuote(tail, current, words);
      } else {
        assert text == [value[0]] + tail && text[1..] == tail;
      }
    }
  }

  /** A quoted value extends the current word by exactly that value. */
  lemma ReadQuoted(value: string, rest: string, current: Option<string>, words: seq<string>)
    ensures Unquoted(ShellQuote(value) + rest, current, words)
         == Unquoted(rest, Some(Begun(current) + value), words)
  {
    var text := ShellQuote(value) + rest;
    assert text[1..] == EscapeQuotes(value) + ("'" + rest);
    ReadEscaped(value, rest, Begun(current), words);
  }

  lemma {:induction false} ReadPlain(plain: string, rest: string, current: Option<string>, words: seq<string>)
    requires forall i :: 0 <= i < |plain| ==> IsNameChar(plain[i]) || plain[i] == '='
    requires plain != ""
    ensures Unquoted(plain + rest, current, words) == Unquoted(rest, Some(Begun(current) + plain), words)
    decreases |plain|
  {
    var text := plain + rest;
    assert !IsActive(text[0]);
    assert text[1..] == plain[1..] + rest;
    if |plain| == 1 {
      assert text[1..] == rest && [plain[0]] == plain;
    } else {
      ReadPlain(plain[1..], rest, Some(Begun(current) + [plain[0]]), words);
      assert Begun(current) + [plain[0]] + plain[1..] == Begun(current) + plain;
    }
  }

  /** One printed line, with the newline that follows it, reads as one assignment word. */
  lemma ReadEnvLine(entry: EnvEntry, rest: string, words: seq<string>)
    requires IsName(entry.key)
    ensures Unquoted(EnvLine(entry) + "\n" + rest, None, words)
         == Unquoted(rest, None, words + [entry.key + "=" + entry.value])
  {
    var name := entry.key + "=";
    var continued := " \\\n" + rest;
    assert EnvLine(entry) + "\n" + rest == name + (ShellQuote(entry.value) + continued);
    ReadPlain(name, ShellQuote(entry.value) + continued, None, words);
    assert Begun(None) + name == name;
    ReadQuoted(entry.value, continued, Some(name), words);
    assert continued[1..] == "\\\n" + rest;
    assert continued[1..][2..] == rest;
  }

  lemma {:induction false} ReadLines(entries: seq<EnvEntry>, binaryPath: string, words: seq<string>)
    requires forall i :: 0 <= i < |entries| ==> IsName(entries[i].key)
    ensures Unquoted(FormatMultilineCommand(entries, binaryPath), None, words)
         == Some(words + IntendedWords(entries, binaryPath))
    decreases |entries|
  {
    var lines := seq(|entries|, i requires 0 <= i < |entries| => EnvLine(entries[i])) + [ShellQuote(binaryPath)];
    if entries == [] {
      assert lines == [ShellQuote(binaryPath)];
      assert FormatMultilineCommand(entries, binaryPath) == ShellQuote(binaryPath) + "";
      ReadQuoted(binaryPath, "", None, words);
      assert "" + binaryPath == binaryPath;
      assert IntendedWords(entries, binaryPath) == [binaryPath];
    } else {
      var rest := FormatMultilineCommand(entries[1..], binaryPath);
      assert lines[1..] == seq(|entries[1..]|, i requires 0 <= i < |entries[1..]| => EnvLine(entries[1..][i]))
                           + [ShellQuote(binaryPath)];
      assert FormatMultilineCommand(entries, binaryPath) == EnvLine(entries[0]) + "\n" + rest;
      var word := entries[0].key + "=" + entries[0].value;
      ReadEnvLine(entries[0], rest, words);
      ReadLines(entries[1..], binaryPath, words + [word]);
      assert words + [word] + IntendedWords(entries[1..], binaryPath)
          == words + IntendedWords(entries, binaryPath);
    }
  }

  /** A shell reads the printed command as exactly KEY=value for each entry, in order, then the
      binary path, whatever the values contain. */
  lemma ShellReadsCommandBack(entries: seq<EnvEntry>, binaryPath: string)
    requires forall i :: 0 <= i < |entries| ==> IsName(entries[i].key)
    ensures ShellWords(FormatMultilineCommand(entries, binaryPath)) == Some(IntendedWords(entries, binaryPath))
  {
    ReadLines(entries, binaryPath, []);
    assert [] + IntendedWords(entries, binaryPath) == IntendedWords(entries, binaryPath);
  }

  /** An assignment word splits at its first `=` in one way only. */
  lemma AssignmentSplits(a: EnvEntry, b: EnvEntry)
    requires IsName(a.key) && IsName(b.key)
    requires a.key + "=" + a.value == b.key + "=" + b.value
    ensures a == b
  {
    var word := a.key + "=" + a.value;
    assert word[|a.key|] == '=' && word[|b.key|] == '=';
    assert word[..|a.key|] == a.key && word[..|b.key|] == b.key;
    assert word[|a.key| + 1..] == a.value && word[|b.key| + 1..] == b.value;
  }

  /** So the printed text determines the configuration: no two configurations print alike. */
  lemma CommandDeterminesConfiguration(e1: seq<EnvEntry>, b1: string, e2: seq<EnvEntry>, b2: string)
    requires forall i :: 0 <= i < |e1| ==> IsName(e1[i].key)
    requires forall i :: 0 <= i < |e2| ==> IsName(e2[i].key)
    requires FormatMultilineCommand(e1, b1) == FormatMultilineCommand(e2, b2)
    ensures e1 == e2 && b1 == b2
  {
    ShellReadsCommandBack(e1, b1);
    ShellReadsCommandBack(e2, b2);
    var w1, w2 := IntendedWords(e1, b1), IntendedWords(e2, b2);
    assert w1 == w2 && |e1| == |e2|;
    assert w1[|e1|] == b1 && w2[|e2|] == b2;
    forall i | 0 <= i < |e1|
      ensures e1[i] == e2[i]
    {
      assert w1[i] == w2[i];
      AssignmentSplits(e1[i], e2[i]);
    }
  }
}
