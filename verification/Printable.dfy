/** The lines a program prints (internal/keytext/keytext.go): key text is withheld, and a
    line a terminal would obey is quoted. A command printed so that it can be pasted
    into a shell reads back as it was meant exactly when neither happens. */
module Printing {
  import opened Options
  import opened ShellWords

  const pemBegin := "-----BEGIN"
  const pemEnd := "-----END"
  const pemClose := "-----"

  /** How the body line of every key file begins. */
  const bodyStart := "MC4CAQAwBQYDK2VwBCIEI"

  const withheld := "[key text withheld]"

  predicate StandsAt(s: string, i: nat, sub: string) {
    i + |sub| <= |s| && s[i..i + |sub|] == sub
  }

  predicate Contains(s: string, sub: string) {
    exists i :: 0 <= i <= |s| && StandsAt(s, i, sub)
  }

  predicate Holds(s: string) {
    Contains(s, pemBegin) || Contains(s, pemEnd) || Contains(s, bodyStart)
  }

  /** Where sub first stands in s from i on. */
  function Index(s: string, sub: string, i: nat): (r: Option<nat>)
    requires i <= |s|
    ensures r.Some? ==> i <= r.value <= |s| && StandsAt(s, r.value, sub)
    decreases |s| - i
  {
    if StandsAt(s, i, sub) then Some(i) else if i == |s| then None else Index(s, sub, i + 1)
  }

  lemma {:induction false} IndexFinds(s: string, sub: string, i: nat)
    requires i <= |s|
    ensures Index(s, sub, i).Some? <==> exists k :: i <= k <= |s| && StandsAt(s, k, sub)
    decreases |s| - i
  {
    if !StandsAt(s, i, sub) && i < |s| {
      IndexFinds(s, sub, i + 1);
    }
  }

  predicate IsBase64(c: char) {
    'A' <= c <= 'Z' || 'a' <= c <= 'z' || '0' <= c <= '9' || c in {'+', '/', '-', '_', '='}
  }

  function Back(s: string, i: nat): (r: nat)
    requires i <= |s|
    ensures r <= i
  {
    if i > 0 && IsBase64(s[i - 1]) then Back(s, i - 1) else i
  }

  function Ahead(s: string, i: nat): (r: nat)
    requires i <= |s|
    ensures i <= r <= |s|
    decreases |s| - i
  {
    if i < |s| && IsBase64(s[i]) then Ahead(s, i + 1) else i
  }

  /** Where the closing marker at i ends. */
  function CloseOf(s: string, i: nat): (r: nat)
    requires StandsAt(s, i, pemEnd)
    ensures i < r <= |s|
  {
    var after := i + |pemEnd|;
    var j := Index(s, pemClose, after);
    if j.Some? then j.value + |pemClose| else |s|
  }

  datatype Span = Span(start: nat, end: nat)

  /** The PEM block that opens first, if any. */
  function Block(s: string): Option<Span> {
    var i := Index(s, pemBegin, 0);
    if i.None? then None
    else
      var j := Index(s, pemEnd, i.value);
      Some(Span(i.value, if j.Some? then CloseOf(s, j.value) else |s|))
  }

  /** The first span of key text. */
  function Next(s: string): Option<Span> {
    var block, close, body := Block(s), Index(s, pemEnd, 0), Index(s, bodyStart, 0);
    var pem := if close.Some? && (block.None? || close.value < block.value.start)
               then Some(Span(close.value, CloseOf(s, close.value))) else block;
    if body.Some? && (pem.None? || body.value < pem.value.start)
    then Some(Span(Back(s, body.value), Ahead(s, body.value + |bodyStart|)))
    else pem
  }

  /** How many of s are a dash or an M, of which every span of key text has one and what is
      put in its place has none. */
  function Weight(s: string): nat {
    if s == "" then 0 else Weight(s[..|s| - 1]) + if s[|s| - 1] == '-' || s[|s| - 1] == 'M' then 1 else 0
  }

  lemma {:induction false} WeightJoined(a: string, b: string)
    ensures Weight(a + b) == Weight(a) + Weight(b)
  {
    if b == "" {
      assert a + b == a;
    } else {
      assert (a + b)[..|a + b| - 1] == a + b[..|b| - 1];
      WeightJoined(a, b[..|b| - 1]);
    }
  }

  lemma WeightAt(s: string, start: nat, i: nat, end: nat)
    requires start <= i < end <= |s| && (s[i] == '-' || s[i] == 'M')
    ensures Weight(s[start..end]) >= 1
  {
    assert s[start..end] == s[start..i + 1] + s[i + 1..end];
    WeightJoined(s[start..i + 1], s[i + 1..end]);
    assert s[start..i + 1][|s[start..i + 1]| - 1] == s[i];
  }

  lemma AtFirst(s: string, i: nat, sub: string)
    requires StandsAt(s, i, sub) && sub != ""
    ensures i < |s| && s[i] == sub[0]
  {
    assert s[i..i + |sub|][0] == s[i];
  }

  /** A span of key text is found exactly when there is key text, and it weighs. */
  lemma NextFinds(s: string)
    ensures Next(s).Some? <==> Holds(s)
    ensures Next(s).Some? ==>
              Next(s).value.start < Next(s).value.end <= |s| && Weight(s[Next(s).value.start..Next(s).value.end]) >= 1
  {
    var begin, close, body := Index(s, pemBegin, 0), Index(s, pemEnd, 0), Index(s, bodyStart, 0);
    IndexFinds(s, pemBegin, 0);
    IndexFinds(s, pemEnd, 0);
    IndexFinds(s, bodyStart, 0);
    if Next(s).Some? {
      var x := Next(s).value;
      if body.Some? && x == Span(Back(s, body.value), Ahead(s, body.value + |bodyStart|)) {
        AtFirst(s, body.value, bodyStart);
        WeightAt(s, x.start, body.value, x.end);
      } else {
        AtFirst(s, x.start, if begin.Some? && x.start == begin.value then pemBegin else pemEnd);
        WeightAt(s, x.start, x.start, x.end);
      }
    }
  }

  function Withhold(s: string): string
    decreases |s|
  {
    NextFinds(s);
    var x := Next(s);
    if x.None? then s else s[..x.value.start] + withheld + Withhold(s[x.value.end..])
  }

  lemma WithheldWeighsNothing()
    ensures Weight(withheld) == 0
  {
    assert forall i :: 0 <= i < |withheld| ==> withheld[i] != '-' && withheld[i] != 'M';
    WeightNone(withheld);
  }

  lemma {:induction false} WeightNone(s: string)
    requires forall i :: 0 <= i < |s| ==> s[i] != '-' && s[i] != 'M'
    ensures Weight(s) == 0
  {
    if s != "" {
      WeightNone(s[..|s| - 1]);
    }
  }

  lemma {:induction false} SpansWeigh(s: string)
    ensures Weight(Withhold(s)) <= Weight(s)
    ensures Next(s).Some? ==> Weight(Withhold(s)) < Weight(s)
    decreases |s|
  {
    NextFinds(s);
    if Next(s).Some? {
      var x := Next(s).value;
      SpansWeigh(s[x.end..]);
      WithheldWeighsNothing();
      SpanWeighs(s, x.start, x.end, withheld, Withhold(s[x.end..]));
    }
  }

  /** Withholding leaves a line without key text as it is, and makes any other lighter. */
  lemma WithholdWeighs(s: string)
    ensures !Holds(s) ==> Withhold(s) == s
    ensures Holds(s) ==> Weight(Withhold(s)) < Weight(s)
  {
    NextFinds(s);
    SpansWeigh(s);
  }

  lemma SpanWeighs(s: string, start: nat, end: nat, instead: string, rest: string)
    requires start <= end <= |s| && Weight(s[start..end]) > Weight(instead) && Weight(s[end..]) >= Weight(rest)
    ensures Weight(s[..start] + instead + rest) < Weight(s)
  {
    assert s == s[..start] + s[start..end] + s[end..];
    Lighter(s[..start], s[start..end], s[end..], instead, rest);
  }

  lemma Lighter(before: string, span: string, after: string, instead: string, rest: string)
    requires Weight(span) > Weight(instead) && Weight(after) >= Weight(rest)
    ensures Weight(before + instead + rest) < Weight(before + span + after)
  {
    WeightJoined(before + span, after);
    WeightJoined(before, span);
    WeightJoined(before + instead, rest);
    WeightJoined(before, instead);
  }

  /** plain: the character is neither a control or format character nor a line or paragraph
      separator, nor stands for bytes that are no character. escape: the text between the
      quotes of a quoted string. */
  function Printable(plain: char -> bool, escape: string -> string, s: string): string {
    var w := Withhold(s);
    if forall i :: 0 <= i < |w| ==> plain(w[i]) then w else "\"" + escape(w) + "\""
  }

  // ---------------------------------------------------------------- reading it back

  function WeightAll(words: seq<string>): nat {
    if words == [] then 0 else WeightAll(words[..|words| - 1]) + Weight(words[|words| - 1])
  }

  lemma WeightOne(s: string)
    requires s != ""
    ensures Weight(s) == Weight([s[0]]) + Weight(s[1..])
  {
    assert s == [s[0]] + s[1..];
    WeightJoined([s[0]], s[1..]);
  }

  /** A shell's words weigh what their text did: quotes, backslashes and blanks weigh nothing. */
  lemma {:induction false} ReadKeepsWeight(s: string, at: At, done: seq<string>)
    requires Read(s, at, done).Some?
    ensures WeightAll(Read(s, at, done).value) == WeightAll(done) + Weight(WordSoFar(at)) + Weight(s)
    decreases |s|
  {
    if s == "" {
      if at.Bare? {
        assert (done + [at.word])[..|done|] == done;
      }
    } else {
      WeightOne(s);
      var word := WordSoFar(at);
      WeightJoined(word, [s[0]]);
      if at.Quoted? {
        ReadKeepsWeight(s[1..], if s[0] == '\'' then Bare(word) else Quoted(word + [s[0]]), done);
      } else if s[0] == ' ' || s[0] == '\t' {
        if at.Bare? {
          assert (done + [word])[..|done|] == done;
        }
        ReadKeepsWeight(s[1..], Between, if at == Between then done else done + [word]);
      } else if s[0] == '\'' {
        ReadKeepsWeight(s[1..], Quoted(word), done);
      } else if s[0] == '\\' {
        EscapeKeepsWeight(s, at, done);
      } else {
        ReadKeepsWeight(s[1..], Bare(word + [s[0]]), done);
      }
    }
  }

  lemma {:induction false} EscapeKeepsWeight(s: string, at: At, done: seq<string>)
    requires Read(s, at, done).Some? && s != "" && s[0] == '\\' && !at.Quoted?
    ensures WeightAll(Read(s, at, done).value) == WeightAll(done) + Weight(WordSoFar(at)) + Weight(s)
    decreases |s|, 0
  {
    WeightOne(s);
    WeightOne(s[1..]);
    assert s[1..][1..] == s[2..] && s[1..][0] == s[1];
    WeightJoined(WordSoFar(at), [s[1]]);
    ReadKeepsWeight(s[2..], if s[1] == '\n' then at else Bare(WordSoFar(at) + [s[1]]), done);
  }

  predicate AllPlain(plain: char -> bool, s: string) {
    forall i :: 0 <= i < |s| ==> plain(s[i])
  }

  function CommandLine(name: string, line: seq<Argument>): string {
    name + Joined(line)
  }

  lemma CommandReads(name: string, line: seq<Argument>)
    requires Writable(Flag(name)) && forall i :: 0 <= i < |line| ==> Writable(line[i])
    ensures Read(CommandLine(name, line), Between, []) == Some([name] + MeantAll(line))
  {
    ArgumentReads(Flag(name), Joined(line), []);
    LineReads(line, Bare(name), []);
    assert [] + [name] == [name];
  }

  /** A printed command pasted into a shell is read as its program, its flags and the values it
      was made from if and only if it holds no key text and no character that breaks a
      line. */
  lemma PrintedReads(plain: char -> bool, escape: string -> string, name: string, line: seq<Argument>)
    requires Writable(Flag(name)) && forall i :: 0 <= i < |line| ==> Writable(line[i])
    ensures var cmd := CommandLine(name, line);
            Read(Printable(plain, escape, cmd), Between, []) == Some([name] + MeantAll(line)) <==>
            !Holds(cmd) && AllPlain(plain, cmd)
  {
    CommandReads(name, line);
    TextReads(plain, escape, CommandLine(name, line), [name] + MeantAll(line));
  }

  lemma TextReads(plain: char -> bool, escape: string -> string, s: string, words: seq<string>)
    requires Read(s, Between, []) == Some(words)
    ensures Read(Printable(plain, escape, s), Between, []) == Some(words) <==> !Holds(s) && AllPlain(plain, s)
  {
    WithholdWeighs(s);
    PrintedEither(plain, escape, s, Withhold(s), words);
  }

  lemma PrintedEither(plain: char -> bool, escape: string -> string, s: string, w: string, words: seq<string>)
    requires Read(s, Between, []) == Some(words) && (w == s || Weight(w) < Weight(s))
    ensures var printed := if AllPlain(plain, w) then w else "\"" + escape(w) + "\"";
            Read(printed, Between, []) == Some(words) <==> w == s && AllPlain(plain, w)
  {
    if AllPlain(plain, w) {
      LighterReadsOtherwise(s, w, words);
    } else {
      QuotedReadsNothing(escape(w) + "\"");
      assert "\"" + escape(w) + "\"" == "\"" + (escape(w) + "\"");
    }
  }

  lemma LighterReadsOtherwise(s: string, w: string, words: seq<string>)
    requires Read(s, Between, []) == Some(words)
    ensures Weight(w) < Weight(s) ==> Read(w, Between, []) != Some(words)
  {
    ReadKeepsWeight(s, Between, []);
    if Read(w, Between, []).Some? {
      ReadKeepsWeight(w, Between, []);
    }
  }

  /** A bare double quote begins what this reading of a shell leaves out; a shell would make one
      word of all of it. */
  lemma QuotedReadsNothing(rest: string)
    ensures Read("\"" + rest, Between, []) == None
  {
  }
}
