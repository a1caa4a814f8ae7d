/** Writing a string as one word of a POSIX shell (cmd/guardana-gateway/dev.go), and
    the shell's own reading of it back. */
module ShellWords {
  import opened Options

  predicate Safe(c: char) {
    || 'a' <= c <= 'z' || 'A' <= c <= 'Z' || '0' <= c <= '9'
    || c in {'-', '_', '.', '/', ':', '=', '+', '@', '%', ','}
  }

  function TrimLeft(s: string): string {
    if s != "" && Safe(s[0]) then TrimLeft(s[1..]) else s
  }

  function TrimRight(s: string): string {
    if s != "" && Safe(s[|s| - 1]) then TrimRight(s[..|s| - 1]) else s
  }

  function Trim(s: string): string {
    TrimRight(TrimLeft(s))
  }

  function ReplaceQuotes(s: string): string {
    if s == "" then "" else (if s[0] == '\'' then "'\\''" else [s[0]]) + ReplaceQuotes(s[1..])
  }

  function ShellWord(s: string): string {
    if s != "" && Trim(s) == "" then s else "'" + ReplaceQuotes(s) + "'"
  }

  /** One argument of a command line: a flag, a value, or a flag joined to its value. */
  datatype Argument = Flag(flag: string) | Value(value: string) | FlagValue(flag: string, value: string)

  /** A flag is written as it is, so it is made of safe characters only. */
  predicate Writable(a: Argument) {
    !a.Value? ==> a.flag != "" && forall i :: 0 <= i < |a.flag| ==> Safe(a.flag[i])
  }

  function Written(a: Argument): string {
    match a
    case Flag(flag) => flag
    case Value(value) => ShellWord(value)
    case FlagValue(flag, value) => flag + ShellWord(value)
  }

  function Meant(a: Argument): string {
    match a
    case Flag(flag) => flag
    case Value(value) => value
    case FlagValue(flag, value) => flag + value
  }

  function MeantAll(line: seq<Argument>): seq<string> {
    if line == [] then [] else [Meant(line[0])] + MeantAll(line[1..])
  }

  /** Each argument after a blank. */
  function Joined(line: seq<Argument>): string {
    if line == [] then "" else " " + (Written(line[0]) + Joined(line[1..]))
  }

  /** What follows the gateway's name in the command that runs a scenario on a plane made as
      this one was, up to the scenario's own flag. */
  function ScenarioLine(config: string, policy: string, decisionPoint: string): seq<Argument> {
    [Flag("dev"), Flag("--config"), Value(config), Flag("--policy"), Value(policy)]
    + if decisionPoint != "" then [FlagValue("--decision-point=", decisionPoint)] else []
  }

  function ScenarioCommand(gateway: string, config: string, policy: string, decisionPoint: string): string {
    gateway + Joined(ScenarioLine(config, policy, decisionPoint))
  }

  // ---------------------------------------------------------------- the shell

  /** Between two words, in one outside quotes, or inside its single quotes. */
  datatype At = Between | Bare(word: string) | Quoted(word: string)

  /** What a shell may read as more than itself outside quotes (section 2.2 of the POSIX Shell
      Command Language), but for the blanks, the single quote and the backslash. */
  predicate Special(c: char) {
    c in {'|', '&', ';', '<', '>', '(', ')', '$', '`', '\"', '\n', '*', '?', '[', ']', '{', '}', '#', '~', '!'}
  }

  function WordSoFar(at: At): string {
    if at == Between then "" else at.word
  }

  /** The words a line breaks into by blanks, backslashes (section 2.2.1) and single quotes
      (section 2.2.2); none when a quote stays open or anything special stands bare. */
  function Read(s: string, at: At, done: seq<string>): Option<seq<string>>
    decreases |s|
  {
    if s == "" then
      if at == Between then Some(done) else if at.Bare? then Some(done + [at.word]) else None
    else if at.Quoted? then
      Read(s[1..], if s[0] == '\'' then Bare(at.word) else Quoted(at.word + [s[0]]), done)
    else if s[0] == ' ' || s[0] == '\t' then
      Read(s[1..], Between, if at == Between then done else done + [at.word])
    else if s[0] == '\'' then
      Read(s[1..], Quoted(WordSoFar(at)), done)
    else if s[0] == '\\' then
      if |s| == 1 then None
      else if s[1] == '\n' then Read(s[2..], at, done)
      else Read(s[2..], Bare(WordSoFar(at) + [s[1]]), done)
    else if Special(s[0]) then None
    else Read(s[1..], Bare(WordSoFar(at) + [s[0]]), done)
  }

  // ---------------------------------------------------------------- the results

  /** Trimming from both ends leaves nothing exactly when every character is safe. */
  lemma {:induction false} TrimEmpty(s: string)
    ensures Trim(s) == "" <==> forall i :: 0 <= i < |s| ==> Safe(s[i])
  {
    if s != "" && Safe(s[0]) {
      TrimEmpty(s[1..]);
      assert forall i :: 0 <= i < |s| - 1 ==> s[1..][i] == s[i + 1];
      if forall i :: 0 <= i < |s| - 1 ==> Safe(s[1..][i]) {
        assert forall i :: 0 < i < |s| ==> s[i] == s[1..][i - 1];
      }
    } else if s != "" {
      KeepsFirst(s);
    }
  }

  lemma {:induction false} KeepsFirst(s: string)
    requires s != "" && !Safe(s[0])
    ensures TrimRight(s) != ""
  {
    if Safe(s[|s| - 1]) {
      KeepsFirst(s[..|s| - 1]);
    }
  }

  lemma SafeIsPlain(c: char)
    requires Safe(c)
    ensures c != ' ' && c != '\t' && c != '\'' && c != '\\' && !Special(c)
  {
  }

  lemma {:induction false} ReadSafe(s: string, rest: string, at: At, done: seq<string>)
    requires s != "" && !at.Quoted? && forall i :: 0 <= i < |s| ==> Safe(s[i])
    ensures Read(s + rest, at, done) == Read(rest, Bare(WordSoFar(at) + s), done)
  {
    SafeIsPlain(s[0]);
    assert (s + rest)[1..] == s[1..] + rest;
    var word := WordSoFar(at) + [s[0]];
    if |s| > 1 {
      ReadSafe(s[1..], rest, Bare(word), done);
      assert word + s[1..] == WordSoFar(at) + s;
    } else {
      assert s[1..] + rest == rest;
      assert word == WordSoFar(at) + s;
    }
  }

  /** Each quote closes the quotes, stands behind a backslash and opens them again. */
  lemma {:induction false} ReadQuoted(s: string, rest: string, word: string, done: seq<string>)
    ensures Read(ReplaceQuotes(s) + rest, Quoted(word), done) == Read(rest, Quoted(word + s), done)
  {
    if s == "" {
      assert ReplaceQuotes(s) + rest == rest;
      assert word + s == word;
    } else {
      var tail := ReplaceQuotes(s[1..]) + rest;
      ReadQuoted(s[1..], rest, word + [s[0]], done);
      assert word + [s[0]] + s[1..] == word + s;
      if s[0] == '\'' {
        ReadEscape(tail, word, done);
        assert ReplaceQuotes(s) + rest == "'\\''" + tail;
      } else {
        assert ReplaceQuotes(s) + rest == [s[0]] + tail;
        assert ([s[0]] + tail)[1..] == tail;
      }
    }
  }

  lemma ReadEscape(tail: string, word: string, done: seq<string>)
    ensures Read("'\\''" + tail, Quoted(word), done) == Read(tail, Quoted(word + "'"), done)
  {
    assert ("'\\''" + tail)[1..] == "\\''" + tail;
    assert ("\\''" + tail)[2..] == "'" + tail;
    assert ("'" + tail)[1..] == tail;
    assert Read("\\''" + tail, Bare(word), done) == Read("'" + tail, Bare(word + "'"), done);
  }

  /** Where no quote is open, the shell reads exactly s onto the word it is in, whatever
      comes after. */
  lemma WordReads(s: string, rest: string, at: At, done: seq<string>)
    requires !at.Quoted?
    ensures Read(ShellWord(s) + rest, at, done) == Read(rest, Bare(WordSoFar(at) + s), done)
  {
    if s != "" && Trim(s) == "" {
      TrimEmpty(s);
      ReadSafe(s, rest, at, done);
    } else {
      var quoted := ReplaceQuotes(s) + ("'" + rest);
      assert ShellWord(s) + rest == "'" + quoted;
      assert ("'" + quoted)[1..] == quoted;
      ReadQuoted(s, "'" + rest, WordSoFar(at), done);
      assert ("'" + rest)[1..] == rest;
    }
  }

  /** One string, one word. */
  lemma OneWord(s: string)
    ensures Read(ShellWord(s), Between, []) == Some([s])
  {
    WordReads(s, "", Between, []);
    assert ShellWord(s) + "" == ShellWord(s);
    assert "" + s == s && [] + [s] == [s];
  }

  lemma ArgumentReads(a: Argument, rest: string, done: seq<string>)
    requires Writable(a)
    ensures Read(Written(a) + rest, Between, done) == Read(rest, Bare(Meant(a)), done)
  {
    if a.Value? {
      WordReads(a.value, rest, Between, done);
      assert "" + a.value == a.value;
    } else {
      assert "" + a.flag == a.flag;
      if a.Flag? {
        ReadSafe(a.flag, rest, Between, done);
      } else {
        assert Written(a) + rest == a.flag + (ShellWord(a.value) + rest);
        ReadSafe(a.flag, ShellWord(a.value) + rest, Between, done);
        WordReads(a.value, rest, Bare(a.flag), done);
      }
    }
  }

  /** The round trip: a shell reads a line of written arguments as what they mean, each one
      word, in order and no other, whatever characters the values hold. */
  lemma {:induction false} LineReads(line: seq<Argument>, at: At, done: seq<string>)
    requires !at.Quoted? && forall i :: 0 <= i < |line| ==> Writable(line[i])
    ensures Read(Joined(line), at, done) == Some((if at == Between then done else done + [at.word]) + MeantAll(line))
  {
    var sofar := if at == Between then done else done + [at.word];
    if line == [] {
      assert sofar + MeantAll(line) == sofar;
    } else {
      var rest := Joined(line[1..]);
      assert (" " + (Written(line[0]) + rest))[1..] == Written(line[0]) + rest;
      ArgumentReads(line[0], rest, sofar);
      LineReads(line[1..], Bare(Meant(line[0])), sofar);
      assert sofar + [Meant(line[0])] + MeantAll(line[1..]) == sofar + MeantAll(line);
    }
  }

  lemma {:induction false} MeantAt(line: seq<Argument>)
    ensures |MeantAll(line)| == |line| && forall i :: 0 <= i < |line| ==> MeantAll(line)[i] == Meant(line[i])
  {
    if line != [] {
      MeantAt(line[1..]);
      assert forall i :: 1 <= i < |line| ==> line[i] == line[1..][i - 1];
    }
  }

  // ---------------------------------------------------------------- which words stay bare

  lemma Upper(c: char)
    ensures c in "ABCDEFGHIJKLMNOPQRSTUVWXYZ" <==> 'A' <= c <= 'Z'
  {
    var letters := "ABCDEFGHIJKLMNOPQRSTUVWXYZ";
    if 'A' <= c <= 'Z' {
      assert letters[c as int - 'A' as int] == c;
    }
  }

  lemma Lower(c: char)
    ensures c in "abcdefghijklmnopqrstuvwxyz" <==> 'a' <= c <= 'z'
  {
    var letters := "abcdefghijklmnopqrstuvwxyz";
    if 'a' <= c <= 'z' {
      assert letters[c as int - 'a' as int] == c;
    }
  }

  lemma Digits(c: char)
    ensures c in "0123456789" <==> '0' <= c <= '9'
  {
    var digits := "0123456789";
    if '0' <= c <= '9' {
      assert digits[c as int - '0' as int] == c;
    }
  }

  /** A character of the set the code lists. */
  predicate Listed(c: char) {
    || c in "abcdefghijklmnopqrstuvwxyz" || c in "ABCDEFGHIJKLMNOPQRSTUVWXYZ"
    || c in "0123456789" || c in "-_./:=+@%,"
  }

  lemma SafeIsListed(c: char)
    ensures Safe(c) <==> Listed(c)
  {
    Upper(c);
    Lower(c);
    Digits(c);
  }

  lemma {:induction false} QuotedIsLonger(s: string)
    ensures |ReplaceQuotes(s)| >= |s|
  {
    if s != "" {
      QuotedIsLonger(s[1..]);
    }
  }

  /** A string is written as it is if and only if it is not empty and every character is of the set;
      any other is written between quotes. */
  lemma BareExactly(s: string)
    ensures ShellWord(s) == s <==> s != "" && forall i :: 0 <= i < |s| ==> Listed(s[i])
    ensures ShellWord(s) != s ==> |ShellWord(s)| >= |s| + 2 && ShellWord(s)[0] == '\''
  {
    TrimEmpty(s);
    QuotedIsLonger(s);
    forall i | 0 <= i < |s|
      ensures Safe(s[i]) <==> Listed(s[i])
    {
      SafeIsListed(s[i]);
    }
  }

  lemma ScenarioWritable(config: string, policy: string, decisionPoint: string)
    ensures var line := ScenarioLine(config, policy, decisionPoint); forall i :: 0 <= i < |line| ==> Writable(line[i])
  {
    assert Writable(Flag("dev"));
    assert Writable(Flag("--config"));
    assert Writable(Flag("--policy"));
    assert Writable(FlagValue("--decision-point=", decisionPoint));
  }

  /** Pasted into a shell, the command is read as the gateway's name, its flags and the very
      values it was made from. */
  lemma ScenarioReads(gateway: string, config: string, policy: string, decisionPoint: string)
    requires Writable(Flag(gateway))
    ensures Read(ScenarioCommand(gateway, config, policy, decisionPoint), Between, [])
            == Some([gateway] + MeantAll(ScenarioLine(config, policy, decisionPoint)))
    ensures MeantAll(ScenarioLine(config, policy, decisionPoint))
            == ["dev", "--config", config, "--policy", policy]
               + if decisionPoint != "" then ["--decision-point=" + decisionPoint] else []
  {
    var line := ScenarioLine(config, policy, decisionPoint);
    ScenarioWritable(config, policy, decisionPoint);
    ArgumentReads(Flag(gateway), Joined(line), []);
    LineReads(line, Bare(gateway), []);
    assert [] + [gateway] == [gateway];
    MeantAt(line);
  }
}
