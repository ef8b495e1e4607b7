/** The line-oriented command interpreter of the SDL game: a script file
    is read `fgets` chunk by chunk into a 256-byte buffer; blank lines and
    `#` comments are skipped, `PRINT message` prints its message, and any
    other line is reported as an unknown command. Console output is
    recorded as a sequence of outputs. */
module Script {
  import opened CString

  /** `char line[256]`. */
  const LINE_SIZE := 256

  /** `ltrim`: the suffix that starts at the first non-white-space character. */
  function LTrim(s: string): (r: string)
    ensures |r| <= |s| && r == s[|s| - |r|..]
    ensures r != [] ==> !IsSpace(r[0])
  {
    s[SkipSpace(s, 0)..]
  }

  /** Everything `ltrim` drops is white space. */
  lemma LTrimDropsSpace(s: string)
    ensures forall k :: 0 <= k < |s| - |LTrim(s)| ==> IsSpace(s[k])
  {
    SkipSpaceSkips(s, 0);
  }

  /** These properties pin `LTrim` down: white space followed by
      a string that does not start with white space trims to that string. */
  lemma LTrimUnique(space: string, rest: string)
    requires forall k :: 0 <= k < |space| ==> IsSpace(space[k])
    requires rest != [] ==> !IsSpace(rest[0])
    ensures LTrim(space + rest) == rest
  {
    var s := space + rest;
    SkipSpaceAt(s, 0, |space|);
    assert s[|space|..] == rest;
  }

  /** `grab_first_word`: the line from its first non-white-space character
      on, or `None` (NULL) for a blank line or a `#` comment. */
  function FirstWord(line: string): (r: Option<string>)
    ensures r.None? <==> LTrim(line) == [] || LTrim(line)[0] == '#'
    ensures r.Some? ==> r.value == LTrim(line) && !IsSpace(r.value[0]) && r.value[0] != '#'
  {
    var start := LTrim(line);
    if start == [] || start[0] == '#' then None else Some(start)
  }

  /** The newline removal of `read_script`: one trailing '\n' is dropped. */
  function StripNewline(chunk: string): (r: string)
    ensures chunk == r || chunk == r + "\n"
    ensures chunk == r + "\n" <==> chunk != [] && chunk[|chunk| - 1] == '\n'
  {
    if chunk != [] && chunk[|chunk| - 1] == '\n' then chunk[..|chunk| - 1] else chunk
  }

  predicate IsBlank(c: char) {
    c == ' ' || c == '\t'
  }

  /** `i + strcspn(s + i, " \t")`: the first index from `i` on holding a
      space or a tab, or the end of `s`. */
  function FindBlank(s: string, i: nat): (n: nat)
    requires i <= |s|
    ensures i <= n <= |s|
    ensures n < |s| ==> IsBlank(s[n])
    decreases |s| - i
  {
    if i == |s| || IsBlank(s[i]) then i else FindBlank(s, i + 1)
  }

  /** No space or tab comes before the index `FindBlank` returns. */
  lemma {:induction false} FindBlankSkips(s: string, i: nat)
    requires i <= |s|
    ensures forall k :: i <= k < FindBlank(s, i) ==> !IsBlank(s[k])
    decreases |s| - i
  {
    if i < |s| && !IsBlank(s[i]) {
      FindBlankSkips(s, i + 1);
    }
  }

  lemma {:induction false} FindBlankAt(s: string, i: nat, n: nat)
    requires i <= n < |s| && IsBlank(s[n])
    requires forall k :: i <= k < n ==> !IsBlank(s[k])
    ensures FindBlank(s, i) == n
    decreases n - i
  {
    if i < n {
      FindBlankAt(s, i + 1, n);
    }
  }

  /** What a line (its newline already dropped) asks for. */
  datatype Command = Skip | Print(message: string) | Unknown(token: string)

  /** The classification of `read_script`. */
  function Classify(line: string): (c: Command)
    ensures c.Skip? <==> FirstWord(line).None?
  {
    match FirstWord(line)
    case None => Skip
    case Some(first) =>
      if HasPrefix(first, "PRINT") && (|first| == 5 || first[5] == ' ') then
        Print(LTrim(first[5..]))
      else
        Unknown(first[..FindBlank(first, 0)])
  }

  /** `PRINT` counts only when a space or the end of the line follows it,
      and its message is the rest with leading white space trimmed; any
      other word is reported by its first token, which is not empty and
      ends at the first space or tab. */
  lemma ClassifyCases(line: string)
    ensures Classify(line).Print? <==>
      (FirstWord(line).Some? && HasPrefix(LTrim(line), "PRINT") && (|LTrim(line)| == 5 || LTrim(line)[5] == ' '))
    ensures Classify(line).Print? ==> Classify(line).message == LTrim(LTrim(line)[5..])
    ensures Classify(line).Unknown? ==>
      var t, w := Classify(line).token, LTrim(line);
      && t != [] && HasPrefix(w, t)
      && (forall k :: 0 <= k < |t| ==> !IsBlank(t[k]))
      && (|t| < |w| ==> IsBlank(w[|t|]))
  {
    var w := LTrim(line);
    if FirstWord(line).Some? {
      var n := FindBlank(w, 0);
      FindBlankSkips(w, 0);
      assert w[..n][..n] == w[..n];
      assert forall k :: 0 <= k < n ==> w[..n][k] == w[k];
    }
  }

  /** What `read_script` writes: a printed message, or the unknown-command
      diagnostic naming a token. */
  datatype Output = Printed(text: string) | UnknownCommand(token: string)

  /** The output of one chunk: a `PRINT` with an empty message prints nothing. */
  function Emitted(chunk: string): (out: seq<Output>)
    ensures |out| <= 1
  {
    match Classify(StripNewline(chunk))
    case Skip => []
    case Print(m) => if m == [] then [] else [Printed(m)]
    case Unknown(t) => [UnknownCommand(t)]
  }

  /** What the read loop writes once the text left in the file is `text`
      and `out` has been written so far: `fgets` takes the next chunk, its
      output is written, and the loop goes on with the rest. */
  function Interpreted(text: string, out: seq<Output>): (r: seq<Output>)
    ensures |out| <= |r| && r[..|out|] == out
    decreases |text|
  {
    if text == [] then out else
      var chunk := Fgets(text, LINE_SIZE);
      var r := Interpreted(text[|chunk|..], out + Emitted(chunk));
      assert r[..|out|] == (out + Emitted(chunk))[..|out|];
      r
  }

  /** `read_script` on a file whose text is `file` (`None` when it cannot
      be opened): whether it returns true, and what it writes. */
  function Run(file: Option<string>): (r: (bool, seq<Output>))
    ensures r.0 <==> file.Some?
    ensures file.None? ==> r.1 == []
  {
    match file
    case None => (false, [])
    case Some(text) =>
      (true, Interpreted(text, []))
  }

  /** The body of the read loop for one chunk: drop the newline, skip blank
      lines and comments, print a `PRINT` message, report anything else. */
  method Interpret(chunk: string) returns (out: seq<Output>)
    ensures out == Emitted(chunk)
  {
    var line := chunk;
    var len := |line|;
    if len > 0 && line[len - 1] == '\n' {
      line := line[..len - 1];
    }
    assert line == StripNewline(chunk);
    var first := FirstWord(line);
    if first.None? {
      return [];
    }
    var word := first.value;
    if HasPrefix(word, "PRINT") && (|word| == 5 || word[5] == ' ') {
      var msg := LTrim(word[5..]);
      assert Classify(line) == Print(msg);
      if msg != [] {
        return [Printed(msg)];
      }
      return [];
    }
    var token := word[..FindBlank(word, 0)];
    assert Classify(line) == Unknown(token);
    return [UnknownCommand(token)];
  }

  /** `read_script`: false if the file cannot be opened; otherwise every
      chunk is interpreted in turn and the result is true. */
  method ReadScript(file: Option<string>) returns (ok: bool, out: seq<Output>)
    ensures (ok, out) == Run(file)
  {
    if file.None? {
      return false, [];
    }
    out := ReadText(file.value);
    ok := true;
  }

  /** The read loop of `read_script` over the text of an opened file:
      `rest` is what the file still holds, and each `fgets` consumes the
      chunk it returns. */
  method ReadText(text: string) returns (out: seq<Output>)
    ensures out == Interpreted(text, [])
  {
    var rest := text;
    out := [];
    while rest != []
      invariant Interpreted(rest, out) == Interpreted(text, [])
      decreases |rest|
    {
      var chunk := Fgets(rest, LINE_SIZE);
      var emitted := Interpret(chunk);
      rest, out := rest[|chunk|..], out + emitted;
    }
  }

  // ------------------------------------------------- PRINT lines

  /** A space before a string trims away like any other white space. */
  lemma LTrimSpace(s: string)
    ensures LTrim(" " + s) == LTrim(s)
  {
    var r := LTrim(s);
    LTrimDropsSpace(s);
    var space := s[..|s| - |r|];
    assert s == space + r;
    assert " " + s == (" " + space) + r;
    LTrimUnique(" " + space, r);
  }

  /** A line whose first word is `word`, after any indentation, is
      classified by that word alone. */
  lemma ClassifyWord(indent: string, word: string)
    requires forall k :: 0 <= k < |indent| ==> IsSpace(indent[k])
    requires word != [] && !IsSpace(word[0]) && word[0] != '#'
    ensures Classify(indent + word) ==
      if HasPrefix(word, "PRINT") && (|word| == 5 || word[5] == ' ') then Print(LTrim(word[5..]))
      else Unknown(word[..FindBlank(word, 0)])
  {
    LTrimUnique(indent, word);
    assert FirstWord(indent + word) == Some(word);
  }

  /** Indented or not, `PRINT`, a space and a message prints the message
      with its leading white space trimmed. */
  lemma PrintCommand(indent: string, message: string)
    requires forall k :: 0 <= k < |indent| ==> IsSpace(indent[k])
    ensures Classify(indent + ("PRINT " + message)) == Print(LTrim(message))
  {
    var word := "PRINT " + message;
    PrintWord(message);
    ClassifyWord(indent, word);
    LTrimSpace(message);
  }

  /** The characters of `PRINT ` followed by a message. */
  lemma PrintWord(message: string)
    ensures var word := "PRINT " + message;
      word[..5] == "PRINT" && word[5] == ' ' && word[0] == 'P' && word[5..] == " " + message
  {
  }

  /** A bare `PRINT` is the print command with nothing to print. */
  lemma BarePrint(indent: string)
    requires forall k :: 0 <= k < |indent| ==> IsSpace(indent[k])
    ensures Classify(indent + "PRINT") == Print([])
  {
    var word := "PRINT";
    assert word[..5] == word && word[5..] == [] && word[0] == 'P';
    ClassifyWord(indent, word);
  }

  /** `PRINT` glued to anything but a space is not the print command: the
      line is reported as unknown. */
  lemma PrintNeedsSpace(c: char, rest: string)
    requires c != ' '
    ensures Classify("PRINT" + [c] + rest).Unknown?
  {
    var word := "PRINT" + [c] + rest;
    assert word[0] == 'P' && word[5] == c && |word| > 5;
    var none: string := [];
    assert none + word == word;
    ClassifyWord(none, word);
  }

  /** In particular a tab after `PRINT` does not separate the message:
      the diagnostic names `PRINT` as the unknown command. */
  lemma PrintThenTab(rest: string)
    ensures Classify("PRINT\t" + rest) == Unknown("PRINT")
  {
    var word := "PRINT\t" + rest;
    assert word[0] == 'P' && word[5] == '\t' && |word| > 5;
    assert word[..5] == "PRINT";
    FindBlankAt(word, 0, 5);
    var none: string := [];
    assert none + word == word;
    ClassifyWord(none, word);
  }

  /** A message a `PRINT` line can carry unchanged through `fgets`, the
      newline removal and `ltrim`. */
  predicate Printable(m: string) {
    m != [] && !IsSpace(m[0]) && |m| <= LINE_SIZE - 8 &&
    forall k :: 0 <= k < |m| ==> m[k] != '\n'
  }

  function PrintLine(m: string): string {
    "PRINT " + m + "\n"
  }

  /** The script that prints `messages`, one `PRINT` line each. */
  function ScriptOf(messages: seq<string>): string
    decreases |messages|
  {
    if messages == [] then [] else PrintLine(messages[0]) + ScriptOf(messages[1..])
  }

  /** `fgets` stops right after the newline of a line that fits the buffer. */
  lemma {:induction false} ChunkLengthOfLine(line: string, rest: string, room: nat)
    requires 0 < |line| <= room && line[|line| - 1] == '\n'
    requires forall k :: 0 <= k < |line| - 1 ==> line[k] != '\n'
    ensures ChunkLength(line + rest, room) == |line|
    decreases |line|
  {
    if |line| > 1 {
      assert (line + rest)[1..] == line[1..] + rest;
      ChunkLengthOfLine(line[1..], rest, room - 1);
    }
  }

  lemma PrintLineChunk(m: string, rest: string)
    requires Printable(m)
    ensures Fgets(PrintLine(m) + rest, LINE_SIZE) == PrintLine(m)
  {
    var line := PrintLine(m);
    assert forall k :: 0 <= k < |line| - 1 ==> line[k] != '\n' by {
      assert forall k :: 6 <= k < |line| - 1 ==> line[k] == m[k - 6];
    }
    ChunkLengthOfLine(line, rest, LINE_SIZE - 1);
    assert (line + rest)[..|line|] == line;
  }

  lemma PrintLineOutput(m: string)
    requires Printable(m)
    ensures Emitted(PrintLine(m)) == [Printed(m)]
  {
    var line := StripNewline(PrintLine(m));
    assert line == "PRINT " + m;
    var none: string := [];
    assert none + line == line;
    assert none + m == m;
    PrintCommand(none, m);
    assert Classify(line) == Print(LTrim(m));
    LTrimUnique(none, m);
  }

  /** A `PRINT` line of a printable message is read as one chunk, which
      prints the message. */
  lemma PrintLineThen(m: string, rest: string, out: seq<Output>)
    requires Printable(m)
    ensures Interpreted(PrintLine(m) + rest, out) == Interpreted(rest, out + [Printed(m)])
  {
    var line := PrintLine(m);
    PrintLineChunk(m, rest);
    PrintLineOutput(m);
    DropPrefix(line, rest);
  }

  lemma DropPrefix(line: string, rest: string)
    ensures (line + rest)[|line|..] == rest
  {
  }

  /** `Printed` of each message, in order. */
  function PrintedAll(messages: seq<string>): (out: seq<Output>)
    ensures |out| == |messages|
    ensures forall i :: 0 <= i < |messages| ==> out[i] == Printed(messages[i])
    decreases |messages|
  {
    if messages == [] then [] else [Printed(messages[0])] + PrintedAll(messages[1..])
  }

  lemma {:induction false} ScriptOutputs(messages: seq<string>, out: seq<Output>)
    requires forall i :: 0 <= i < |messages| ==> Printable(messages[i])
    ensures Interpreted(ScriptOf(messages), out) == out + PrintedAll(messages)
    decreases |messages|
  {
    if messages == [] {
      assert out + [] == out;
    } else {
      var m, rest := messages[0], ScriptOf(messages[1..]);
      PrintLineThen(m, rest, out);
      ScriptOutputs(messages[1..], out + [Printed(m)]);
      AppendFirst(out, Printed(m), PrintedAll(messages[1..]));
    }
  }

  lemma AppendFirst(out: seq<Output>, o: Output, more: seq<Output>)
    ensures out + [o] + more == out + ([o] + more)
  {
  }

  /** A script written as `PRINT` lines of printable messages prints
      exactly those messages, in order. */
  lemma ScriptRoundTrip(messages: seq<string>)
    requires forall i :: 0 <= i < |messages| ==> Printable(messages[i])
    ensures var r := Run(Some(ScriptOf(messages)));
      r.0 && |r.1| == |messages| && forall i :: 0 <= i < |messages| ==> r.1[i] == Printed(messages[i])
  {
    var none: seq<Output> := [];
    ScriptOutputs(messages, none);
    assert none + PrintedAll(messages) == PrintedAll(messages);
  }
}
