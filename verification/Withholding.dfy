/** What withholding takes out of a line and what it leaves (internal/keytext/keytext.go), said of
    the markers alone: no key text is left, and each span taken out is the block, the
    marker or the run of base64 that begins first. */
module Withholding {
  import opened Options
  import opened Printing
  import opened ShellWords

  // ---------------------------------------------------------------- nothing is left

  /** A marker begins with no character of the stand-in, and holds no bracket. */
  predicate Foreign(sub: string) {
    sub != "" && sub[0] !in withheld && forall i :: 0 <= i < |sub| ==> sub[i] != '['
  }

  lemma MarkersForeign()
    ensures Foreign(pemBegin) && Foreign(pemEnd) && Foreign(bodyStart)
  {
    assert forall i :: 0 <= i < |withheld| ==> withheld[i] != '-' && withheld[i] != 'M';
  }

  lemma NotAcross(a: string, b: string, sub: string, k: nat)
    requires Foreign(sub) && k < |a| < k + |sub|
    ensures !StandsAt(a + withheld + b, k, sub)
  {
    var s := a + withheld + b;
    if k + |sub| <= |s| {
      assert s[k..k + |sub|][|a| - k] == s[|a|] == '[';
    }
  }

  lemma NotInside(a: string, b: string, sub: string, k: nat)
    requires Foreign(sub) && |a| <= k < |a + withheld|
    ensures !StandsAt(a + withheld + b, k, sub)
  {
    var s := a + withheld + b;
    if k + |sub| <= |s| {
      assert s[k..k + |sub|][0] == s[k] == withheld[k - |a|];
    }
  }

  /** A marker that stands in a joined text stands in one of its ends. */
  lemma StandsApart(a: string, b: string, sub: string, k: nat)
    requires Foreign(sub) && StandsAt(a + withheld + b, k, sub)
    ensures StandsAt(a, k, sub) || (k >= |a + withheld| && StandsAt(b, k - |a + withheld|, sub))
  {
    var s, n := a + withheld + b, |a + withheld|;
    if k + |sub| <= |a| {
      assert a[k..k + |sub|] == s[k..k + |sub|];
    } else if k >= n {
      assert b[k - n..k - n + |sub|] == s[k..k + |sub|];
    } else if k < |a| {
      NotAcross(a, b, sub, k);
    } else {
      NotInside(a, b, sub, k);
    }
  }

  lemma ContainsApart(a: string, b: string, sub: string)
    requires Foreign(sub) && !Contains(a, sub) && !Contains(b, sub)
    ensures !Contains(a + withheld + b, sub)
  {
    if Contains(a + withheld + b, sub) {
      var k :| 0 <= k <= |a + withheld + b| && StandsAt(a + withheld + b, k, sub);
      StandsApart(a, b, sub, k);
    }
  }

  lemma {:induction false} IndexIsFirst(s: string, sub: string, i: nat, k: nat)
    requires i <= k <= |s| && StandsAt(s, k, sub)
    ensures Index(s, sub, i).Some? && Index(s, sub, i).value <= k
    decreases |s| - i
  {
    if !StandsAt(s, i, sub) {
      IndexIsFirst(s, sub, i + 1, k);
    }
  }

  /** Before the first span there is no key text. */
  lemma NoneBefore(s: string, sub: string, start: nat)
    requires start <= |s| && sub != ""
    requires Index(s, sub, 0).Some? ==> start <= Index(s, sub, 0).value
    ensures !Contains(s[..start], sub)
  {
    if Contains(s[..start], sub) {
      var k :| 0 <= k <= start && StandsAt(s[..start], k, sub);
      assert s[..start][k..k + |sub|] == s[k..k + |sub|];
      IndexIsFirst(s, sub, 0, k);
    }
  }

  /** Whatever the line, no PEM marker and no start of a key file's body is left in it, not even one
      made by what is taken out. */
  lemma {:induction false} NothingLeft(s: string)
    ensures !Holds(Withhold(s))
    decreases |s|
  {
    NextFinds(s);
    if Next(s).Some? {
      var x := Next(s).value;
      var a, b := s[..x.start], Withhold(s[x.end..]);
      NothingLeft(s[x.end..]);
      NoneBefore(s, pemBegin, x.start);
      NoneBefore(s, pemEnd, x.start);
      NoneBefore(s, bodyStart, x.start);
      MarkersForeign();
      ContainsApart(a, b, pemBegin);
      ContainsApart(a, b, pemEnd);
      ContainsApart(a, b, bodyStart);
    }
  }

  // ---------------------------------------------------------------- what is taken out

  /** sub stands at i, and nowhere from `from` to there. */
  predicate FirstAt(s: string, sub: string, from: nat, i: nat) {
    from <= i <= |s| && StandsAt(s, i, sub) && forall k :: from <= k < i ==> !StandsAt(s, k, sub)
  }

  predicate NoneFrom(s: string, sub: string, from: nat) {
    forall k :: from <= k <= |s| ==> !StandsAt(s, k, sub)
  }

  /** A closing marker at i reaches past the next five dashes, or to the end. */
  ghost predicate Closes(s: string, i: nat, end: nat) {
    || (end >= |pemClose| && FirstAt(s, pemClose, i + |pemEnd|, end - |pemClose|))
    || (NoneFrom(s, pemClose, i + |pemEnd|) && end == |s|)
  }

  /** A block opened at i reaches past the first closing marker from there, or to the end. */
  ghost predicate Opens(s: string, i: nat, end: nat) {
    || (exists j: nat :: FirstAt(s, pemEnd, i, j) && Closes(s, j, end))
    || (NoneFrom(s, pemEnd, i) && end == |s|)
  }

  /** A character of either base64 alphabet (sections 4 and 5 of RFC 4648), or the padding. */
  predicate InAlphabet(c: char) {
    || c in "ABCDEFGHIJKLMNOPQRSTUVWXYZ" || c in "abcdefghijklmnopqrstuvwxyz"
    || c in "0123456789" || c in "+/-_="
  }

  /** The longest run of base64 characters around i. */
  predicate RunAround(s: string, i: nat, start: nat, end: nat) {
    && start <= i < end <= |s|
    && (forall k :: start <= k < end ==> InAlphabet(s[k]))
    && (start > 0 ==> !InAlphabet(s[start - 1]))
    && (end < |s| ==> !InAlphabet(s[end]))
  }

  /** The marker that stands first is at i, and the span is what it begins. */
  ghost predicate TakesOut(s: string, i: nat, x: Span) {
    && NoMarkerBefore(s, i)
    && (|| (StandsAt(s, i, pemBegin) && x.start == i && Opens(s, i, x.end))
        || (StandsAt(s, i, pemEnd) && x.start == i && Closes(s, i, x.end))
        || (StandsAt(s, i, bodyStart) && RunAround(s, i, x.start, x.end)))
  }

  lemma IndexExactly(s: string, sub: string, from: nat)
    requires from <= |s|
    ensures var r := Index(s, sub, from);
            if r.Some? then FirstAt(s, sub, from, r.value) else NoneFrom(s, sub, from)
  {
    IndexFinds(s, sub, from);
    var r := Index(s, sub, from);
    if r.Some? {
      forall k | from <= k < r.value
        ensures !StandsAt(s, k, sub)
      {
        if StandsAt(s, k, sub) {
          IndexIsFirst(s, sub, from, k);
        }
      }
    }
  }

  lemma CloseOfIs(s: string, i: nat)
    requires StandsAt(s, i, pemEnd)
    ensures Closes(s, i, CloseOf(s, i))
  {
    IndexExactly(s, pemClose, i + |pemEnd|);
    var j := Index(s, pemClose, i + |pemEnd|);
    if j.Some? {
      assert FirstAt(s, pemClose, i + |pemEnd|, j.value);
    }
  }

  lemma BlockIs(s: string)
    requires Block(s).Some?
    ensures var x := Block(s).value; FirstAt(s, pemBegin, 0, x.start) && Opens(s, x.start, x.end)
  {
    IndexExactly(s, pemBegin, 0);
    var i := Index(s, pemBegin, 0).value;
    IndexExactly(s, pemEnd, i);
    var j := Index(s, pemEnd, i);
    if j.Some? {
      CloseOfIs(s, j.value);
      assert FirstAt(s, pemEnd, i, j.value);
    }
  }

  lemma AlphabetIs(c: char)
    ensures IsBase64(c) <==> InAlphabet(c)
  {
    Upper(c);
    Lower(c);
    Digits(c);
  }

  lemma {:induction false} BackIs(s: string, i: nat)
    requires i <= |s|
    ensures var r := Back(s, i);
            (forall k :: r <= k < i ==> IsBase64(s[k])) && (r > 0 ==> !IsBase64(s[r - 1]))
  {
    if i > 0 && IsBase64(s[i - 1]) {
      BackIs(s, i - 1);
    }
  }

  lemma {:induction false} AheadIs(s: string, i: nat)
    requires i <= |s|
    ensures var r := Ahead(s, i);
            (forall k :: i <= k < r ==> IsBase64(s[k])) && (r < |s| ==> !IsBase64(s[r]))
    decreases |s| - i
  {
    if i < |s| && IsBase64(s[i]) {
      AheadIs(s, i + 1);
    }
  }

  lemma BodyIsBase64(s: string, i: nat)
    requires StandsAt(s, i, bodyStart)
    ensures forall k :: i <= k < i + |bodyStart| ==> IsBase64(s[k])
  {
    forall k | i <= k < i + |bodyStart|
      ensures IsBase64(s[k])
    {
      assert s[k] == s[i..i + |bodyStart|][k - i] == bodyStart[k - i];
      BodyLetters(k - i);
    }
  }

  lemma BodyLetters(i: nat)
    requires i < |bodyStart|
    ensures IsBase64(bodyStart[i])
  {
  }

  lemma RunIs(s: string, i: nat)
    requires StandsAt(s, i, bodyStart)
    ensures RunAround(s, i, Back(s, i), Ahead(s, i + |bodyStart|))
  {
    BackIs(s, i);
    AheadIs(s, i + |bodyStart|);
    BodyIsBase64(s, i);
    forall k | 0 <= k < |s|
      ensures IsBase64(s[k]) <==> InAlphabet(s[k])
    {
      AlphabetIs(s[k]);
    }
  }

  predicate NoMarkerBefore(s: string, i: nat) {
    forall k :: 0 <= k < i ==> !StandsAt(s, k, pemBegin) && !StandsAt(s, k, pemEnd) && !StandsAt(s, k, bodyStart)
  }

  /** Where sub first stands, if anywhere, is not before i. */
  predicate FirstNotBefore(s: string, sub: string, i: nat) {
    Index(s, sub, 0).Some? ==> i <= Index(s, sub, 0).value
  }

  lemma NotBefore(s: string, i: nat)
    requires i <= |s|
    requires FirstNotBefore(s, pemBegin, i) && FirstNotBefore(s, pemEnd, i) && FirstNotBefore(s, bodyStart, i)
    ensures NoMarkerBefore(s, i)
  {
    forall k | 0 <= k < i
      ensures !StandsAt(s, k, pemBegin) && !StandsAt(s, k, pemEnd) && !StandsAt(s, k, bodyStart)
    {
      NotAt(s, pemBegin, i, k);
      NotAt(s, pemEnd, i, k);
      NotAt(s, bodyStart, i, k);
    }
  }

  lemma NotAt(s: string, sub: string, i: nat, k: nat)
    requires k < i <= |s| && FirstNotBefore(s, sub, i)
    ensures !StandsAt(s, k, sub)
  {
    if StandsAt(s, k, sub) {
      IndexIsFirst(s, sub, 0, k);
    }
  }

  /** A span is taken out of every line some marker stands in, and it is what the first one begins. */
  lemma NextIs(s: string)
    ensures Next(s).None? <==> NoneFrom(s, pemBegin, 0) && NoneFrom(s, pemEnd, 0) && NoneFrom(s, bodyStart, 0)
    ensures Next(s).Some? ==> Due(s, Next(s).value)
  {
    IndexExactly(s, pemBegin, 0);
    IndexExactly(s, pemEnd, 0);
    IndexExactly(s, bodyStart, 0);
    if Next(s).Some? {
      NextTakesOut(s);
    }
  }

  /** The span is what the first marker begins. */
  ghost predicate Due(s: string, x: Span) {
    exists i: nat :: TakesOut(s, i, x)
  }

  lemma BodyFirst(s: string, i: nat)
    requires Index(s, bodyStart, 0) == Some(i) && FirstNotBefore(s, pemBegin, i) && FirstNotBefore(s, pemEnd, i)
    ensures Due(s, Span(Back(s, i), Ahead(s, i + |bodyStart|)))
  {
    NotBefore(s, i);
    RunIs(s, i);
    assert TakesOut(s, i, Span(Back(s, i), Ahead(s, i + |bodyStart|)));
  }

  lemma CloseFirst(s: string, i: nat)
    requires Index(s, pemEnd, 0) == Some(i) && FirstNotBefore(s, pemBegin, i) && FirstNotBefore(s, bodyStart, i)
    ensures Due(s, Span(i, CloseOf(s, i)))
  {
    NotBefore(s, i);
    CloseOfIs(s, i);
    assert TakesOut(s, i, Span(i, CloseOf(s, i)));
  }

  lemma BlockFirst(s: string)
    requires Block(s).Some?
    requires FirstNotBefore(s, pemEnd, Block(s).value.start) && FirstNotBefore(s, bodyStart, Block(s).value.start)
    ensures Due(s, Block(s).value)
  {
    BlockIs(s);
    NotBefore(s, Block(s).value.start);
    assert TakesOut(s, Block(s).value.start, Block(s).value);
  }

  lemma NextTakesOut(s: string)
    requires Next(s).Some?
    ensures Due(s, Next(s).value)
  {
    var block, close, body := Block(s), Index(s, pemEnd, 0), Index(s, bodyStart, 0);
    var closes := close.Some? && (block.None? || close.value < block.value.start);
    var pem := if closes then Some(Span(close.value, CloseOf(s, close.value))) else block;
    if body.Some? && (pem.None? || body.value < pem.value.start) {
      BodyFirst(s, body.value);
    } else if closes {
      CloseFirst(s, close.value);
    } else {
      BlockFirst(s);
    }
  }

  // ---------------------------------------------------------------- the loops

  /** Finds the first span: the markers one after the other, and around a body the two loops that
      widen it over its run of base64. */
  method FirstSpan(s: string) returns (r: Option<Span>)
    ensures r == Next(s)
  {
    var start, end := |s|, 0;
    var block, close, body := Block(s), Index(s, pemEnd, 0), Index(s, bodyStart, 0);
    IndexBelow(s, pemBegin);
    IndexBelow(s, pemEnd);
    IndexBelow(s, bodyStart);
    if block.Some? {
      start, end := block.value.start, block.value.end;
    }
    if close.Some? && close.value < start {
      start, end := close.value, CloseOf(s, close.value);
    }
    if body.Some? && body.value < start {
      start, end := Widened(s, body.value);
    }
    return if start < |s| then Some(Span(start, end)) else None;
  }

  lemma IndexBelow(s: string, sub: string)
    requires sub != ""
    ensures Index(s, sub, 0).Some? ==> Index(s, sub, 0).value < |s|
  {
  }

  method Widened(s: string, i: nat) returns (start: nat, end: nat)
    requires StandsAt(s, i, bodyStart)
    ensures start == Back(s, i) && end == Ahead(s, i + |bodyStart|) && start < |s|
  {
    start, end := i, i + |bodyStart|;
    while start > 0 && IsBase64(s[start - 1])
      invariant start <= i && Back(s, start) == Back(s, i)
    {
      start := start - 1;
    }
    while end < |s| && IsBase64(s[end])
      invariant i + |bodyStart| <= end <= |s| && Ahead(s, end) == Ahead(s, i + |bodyStart|)
    {
      end := end + 1;
    }
  }

  /** s with each span of key text, from the first on, replaced and all else kept. */
  ghost predicate Redacted(s: string, out: string)
    decreases |s|
  {
    || (out == s && NoneFrom(s, pemBegin, 0) && NoneFrom(s, pemEnd, 0) && NoneFrom(s, bodyStart, 0))
    || exists x: Span, rest: string ::
         && Due(s, x) && x.start < x.end <= |s|
         && out == s[..x.start] + "[key text withheld]" + rest && Redacted(s[x.end..], rest)
  }

  lemma {:induction false} WithholdRedacts(s: string)
    ensures Redacted(s, Withhold(s))
    decreases |s|
  {
    NextIs(s);
    NextFinds(s);
    if Next(s).Some? {
      var x := Next(s).value;
      WithholdRedacts(s[x.end..]);
      assert Due(s, x) && Redacted(s[x.end..], Withhold(s[x.end..]));
    }
  }

  lemma OneMore(out: string, s: string)
    requires Next(s).Some? && Next(s).value.start < Next(s).value.end <= |s|
    ensures var x := Next(s).value; out + Withhold(s) == out + s[..x.start] + withheld + Withhold(s[x.end..])
  {
    var x := Next(s).value;
    Regrouped(out, s[..x.start], withheld, Withhold(s[x.end..]));
  }

  lemma Regrouped(a: string, b: string, c: string, d: string)
    ensures a + (b + c + d) == a + b + c + d
  {
  }

  /** The loop over a line: it keeps what stands before each span, puts the stand-in for the span and
      goes on after it. */
  method WithholdText(line: string) returns (out: string)
    ensures out == Withhold(line)
  {
    var s := line;
    out := "";
    var x := FirstSpan(s);
    while x.Some?
      invariant x == Next(s) && out + Withhold(s) == Withhold(line)
      decreases |s|
    {
      NextFinds(s);
      OneMore(out, s);
      out := out + s[..x.value.start] + withheld;
      s := s[x.value.end..];
      x := FirstSpan(s);
    }
    out := out + s;
  }
}
