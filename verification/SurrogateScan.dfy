/** The receiver's scan for halves of surrogate pairs
    (adapters/otel/receive_json.go), against the grammar of a JSON string in
    section 7 of RFC 8259. */
module SurrogateScan {
  import opened Options

  type Byte = x: int | 0 <= x < 256

  const Backslash: Byte := 0x5c
  const LetterU: Byte := 0x75

  function Digit(b: Byte): int {
    if 0x30 <= b <= 0x39 then b - 0x30
    else if 0x41 <= b <= 0x46 then b - 0x41 + 10
    else if 0x61 <= b <= 0x66 then b - 0x61 + 10
    else -1
  }

  /** Four hexadecimal digits at raw[at..], or -1. */
  function Hex4(raw: seq<Byte>, at: nat): int {
    if at + 4 > |raw| then -1
    else
      var a, b, c, d := Digit(raw[at]), Digit(raw[at + 1]), Digit(raw[at + 2]), Digit(raw[at + 3]);
      if a < 0 || b < 0 || c < 0 || d < 0 then -1 else ((a * 16 + b) * 16 + c) * 16 + d
  }

  /** The escape whose u is at raw[at], or -1. */
  function Escaped(raw: seq<Byte>, at: nat): int {
    if at >= |raw| || raw[at] != LetterU then -1 else Hex4(raw, at + 1)
  }

  predicate IsLow(v: int) {
    0xdc00 <= v <= 0xdfff
  }

  predicate IsHigh(v: int) {
    0xd800 <= v <= 0xdbff
  }

  // ---------------------------------------------------------------- the grammar
  // It is written in characters and shares nothing with the scan.

  datatype Token = Plain(b: Byte) | Short(b: Byte) | Unicode(v: int)

  /** Where b stands in digits, or |digits|. */
  function Place(digits: string, b: Byte): (i: nat)
    ensures i <= |digits|
    ensures i < |digits| ==> digits[i] as int == b
    ensures i == |digits| ==> forall k :: 0 <= k < |digits| ==> digits[k] as int != b
  {
    if digits == "" then 0 else if digits[0] as int == b then 0 else 1 + Place(digits[1..], b)
  }

  /** The value of a HEXDIG: its place among the sixteen digits, in either case. */
  function HexDigit(b: Byte): Option<nat> {
    var upper, lower := Place("0123456789ABCDEF", b), Place("0123456789abcdef", b);
    if upper < 16 then Some(upper) else if lower < 16 then Some(lower) else None
  }

  /** Digits read in base sixteen, the last one the least. */
  function Base16(bs: seq<Byte>): Option<nat> {
    if bs == [] then Some(0)
    else
      var init, last := Base16(bs[..|bs| - 1]), HexDigit(bs[|bs| - 1]);
      if init.Some? && last.Some? then Some(16 * init.value + last.value) else None
  }

  /** The value of the escape whose backslash is at raw[i]: a u and four HEXDIG. */
  function EscapeAt(raw: seq<Byte>, i: nat): Option<nat> {
    if i + 6 <= |raw| && raw[i] == '\\' as int && raw[i + 1] == 'u' as int then Base16(raw[i + 2..i + 6]) else None
  }

  /** The characters that may follow a backslash, the u of a unicode escape apart. */
  predicate IsShort(b: Byte) {
    Place("\"\\/bfnrt", b) < 8
  }

  function More(t: Token, rest: Option<seq<Token>>): Option<seq<Token>> {
    if rest.Some? then Some([t] + rest.value) else None
  }

  /** The characters from raw[i..] up to the quote that ends raw. */
  function Body(raw: seq<Byte>, i: nat): Option<seq<Token>>
    decreases |raw| - i
  {
    if i >= |raw| then None
    else if raw[i] == '\"' as int then (if i == |raw| - 1 then Some([]) else None)
    else if raw[i] < 0x20 then None
    else if raw[i] != '\\' as int then More(Plain(raw[i]), Body(raw, i + 1))
    else if i + 1 >= |raw| then None
    else if IsShort(raw[i + 1]) then More(Short(raw[i + 1]), Body(raw, i + 2))
    else if EscapeAt(raw, i).Some? then More(Unicode(EscapeAt(raw, i).value), Body(raw, i + 6))
    else None
  }

  /** raw as a JSON string: its tokens, or None when it is not one. */
  function Parse(raw: seq<Byte>): Option<seq<Token>> {
    if raw == [] || raw[0] != '\"' as int then None else Body(raw, 1)
  }

  /** A code unit is a surrogate when its upper six bits are 110111, the low ones, or 110110,
      the high ones. */
  predicate LowAt(ts: seq<Token>, i: int)
    requires 0 <= i < |ts|
  {
    ts[i].Unicode? && ts[i].v / 0x400 == 0x37
  }

  predicate HighAt(ts: seq<Token>, i: int)
    requires 0 <= i < |ts|
  {
    ts[i].Unicode? && ts[i].v / 0x400 == 0x36
  }

  /** Every escaped high surrogate is followed at once by an escaped low one, and
      no escaped low one stands alone. */
  ghost predicate WellPaired(ts: seq<Token>) {
    && (forall i :: 0 <= i < |ts| && HighAt(ts, i) ==> i + 1 < |ts| && LowAt(ts, i + 1))
    && (forall i :: 0 <= i < |ts| && LowAt(ts, i) ==> i > 0 && HighAt(ts, i - 1))
  }

  /** The same, read from the left. */
  predicate Paired(ts: seq<Token>) {
    if ts == [] then true
    else if LowAt(ts, 0) then false
    else if HighAt(ts, 0) then |ts| > 1 && LowAt(ts, 1) && Paired(ts[2..])
    else Paired(ts[1..])
  }

  lemma {:induction false} PairedIsWellPaired(ts: seq<Token>)
    ensures Paired(ts) <==> WellPaired(ts)
  {
    if ts == [] {
    } else if LowAt(ts, 0) {
      assert !WellPaired(ts);
    } else if HighAt(ts, 0) {
      if |ts| > 1 && LowAt(ts, 1) {
        PairedIsWellPaired(ts[2..]);
        DropPaired(ts, 2);
      }
    } else {
      PairedIsWellPaired(ts[1..]);
      DropPaired(ts, 1);
    }
  }

  /** Taking away a whole pair, or a token that is no surrogate, changes nothing. */
  lemma DropPaired(ts: seq<Token>, n: nat)
    requires n <= |ts|
    requires (n == 1 && !LowAt(ts, 0) && !HighAt(ts, 0)) || (n == 2 && HighAt(ts, 0) && LowAt(ts, 1))
    ensures WellPaired(ts) <==> WellPaired(ts[n..])
  {
    var rest := ts[n..];
    assert forall i :: 0 <= i < |rest| ==> (HighAt(rest, i) <==> HighAt(ts, i + n)) && (LowAt(rest, i) <==>
        LowAt(ts, i + n));
    if WellPaired(rest) {
      forall i | 0 <= i < |ts| && HighAt(ts, i)
        ensures i + 1 < |ts| && LowAt(ts, i + 1)
      {
        if i >= n {
          assert HighAt(rest, i - n);
        }
      }
      forall i | 0 <= i < |ts| && LowAt(ts, i)
        ensures i > 0 && HighAt(ts, i - 1)
      {
        if i >= n {
          assert LowAt(rest, i - n);
        }
      }
    }
    if WellPaired(ts) {
      forall i | 0 <= i < |rest| && HighAt(rest, i)
        ensures i + 1 < |rest| && LowAt(rest, i + 1)
      {
        assert HighAt(ts, i + n);
      }
      forall i | 0 <= i < |rest| && LowAt(rest, i)
        ensures i > 0 && HighAt(rest, i - 1)
      {
        assert LowAt(ts, i + n);
      }
    }
  }

  // ---------------------------------------------------------------- the scan reads the grammar's escapes

  lemma DigitIsHexDigit(b: Byte)
    ensures Digit(b) == if HexDigit(b).Some? then HexDigit(b).value else -1
    ensures HexDigit(b).Some? ==> HexDigit(b).value < 16
  {
    var upper, lower := "0123456789ABCDEF", "0123456789abcdef";
    assert forall k :: 0 <= k < 10 ==> upper[k] as int == 0x30 + k && lower[k] as int == 0x30 + k;
    assert forall k :: 10 <= k < 16 ==> upper[k] as int == 0x37 + k && lower[k] as int == 0x57 + k;
    if 0x30 <= b <= 0x39 {
      assert upper[b - 0x30] as int == b;
    } else if 0x41 <= b <= 0x46 {
      assert upper[b - 0x37] as int == b;
    } else if 0x61 <= b <= 0x66 {
      assert lower[b - 0x57] as int == b;
    }
  }

  /** The four digits the scan reads are the number they write, and it reads none exactly
      where four HEXDIG are not there. */
  lemma HexIsBase16(raw: seq<Byte>, at: nat)
    ensures at + 4 > |raw| ==> Hex4(raw, at) == -1
    ensures at + 4 <= |raw| ==>
              var n := Base16(raw[at..at + 4]);
              Hex4(raw, at) == (if n.Some? then n.value else -1) && (n.Some? ==> n.value < 0x10000)
  {
    if at + 4 <= |raw| {
      var bs := raw[at..at + 4];
      DigitIsHexDigit(bs[0]);
      DigitIsHexDigit(bs[1]);
      DigitIsHexDigit(bs[2]);
      DigitIsHexDigit(bs[3]);
      assert bs[..3][..2] == bs[..2] && bs[..2][..1] == bs[..1] && bs[..1][..0] == [];
      BaseStep(bs[..1]);
      BaseStep(bs[..2]);
      BaseStep(bs[..3]);
      BaseStep(bs);
    }
  }

  lemma {:induction false} BaseStep(bs: seq<Byte>)
    requires bs != []
    ensures var init, last := Base16(bs[..|bs| - 1]), HexDigit(bs[|bs| - 1]);
            Base16(bs) == if init.Some? && last.Some? then Some(16 * init.value + last.value) else None
  {
  }

  /** Wherever the grammar reads an escape the scan reads its value, and none elsewhere. */
  lemma EscapedIsEscape(raw: seq<Byte>, i: nat)
    requires i < |raw| && raw[i] == Backslash
    ensures Escaped(raw, i + 1) == if EscapeAt(raw, i).Some? then EscapeAt(raw, i).value else -1
    ensures EscapeAt(raw, i).Some? ==> EscapeAt(raw, i).value < 0x10000
  {
    HexIsBase16(raw, i + 2);
  }

  // ---------------------------------------------------------------- the scan

  /** The loop from raw[i..] on, as a function. */
  predicate ScanFrom(raw: seq<Byte>, i: nat)
    decreases |raw| - i
  {
    if i >= |raw| then true
    else if raw[i] != Backslash then ScanFrom(raw, i + 1)
    else
      var r := Escaped(raw, i + 1);
      if r < 0 then ScanFrom(raw, i + 2)
      else if IsLow(r) then false
      else if IsHigh(r) then i + 6 < |raw| && raw[i + 6] == Backslash && IsLow(Escaped(raw, i + 7))
          && ScanFrom(raw, i + 12)
      else ScanFrom(raw, i + 6)
  }

  /** The scan as the code runs it, moving its index by hand. On every JSON string
      it answers whether the escaped surrogates come in pairs. */
  method PairedSurrogates(raw: seq<Byte>) returns (ok: bool)
    ensures ok == ScanFrom(raw, 0)
    ensures Parse(raw).Some? ==> (ok <==> WellPaired(Parse(raw).value))
  {
    if Parse(raw).Some? {
      ScanReadsTokens(raw, 1);
      PairedIsWellPaired(Parse(raw).value);
    }
    var i := 0;
    while i < |raw|
      invariant 0 <= i
      invariant ScanFrom(raw, i) == ScanFrom(raw, 0)
      decreases |raw| - i
    {
      if raw[i] != Backslash {
        i := i + 1;
        continue;
      }
      i := i + 1;
      var r := Escaped(raw, i);
      if r < 0 {
      } else if IsLow(r) {
        return false;
      } else if 0xd800 <= r <= 0xdbff {
        if i + 5 >= |raw| || raw[i + 5] != Backslash || !IsLow(Escaped(raw, i + 6)) {
          return false;
        }
        i := i + 10;
      } else {
        i := i + 4;
      }
      i := i + 1;
    }
    ok := true;
  }

  /** Where the grammar reads a token the scan stands, so it judges the tokens. */
  lemma {:induction false} ScanReadsTokens(raw: seq<Byte>, i: nat)
    requires Body(raw, i).Some?
    ensures ScanFrom(raw, i) == Paired(Body(raw, i).value)
    decreases |raw| - i
  {
    var ts := Body(raw, i).value;
    if raw[i] == '\"' as int {
      assert ScanFrom(raw, i + 1);
    } else if raw[i] != Backslash {
      ScanReadsTokens(raw, i + 1);
      assert ts[1..] == Body(raw, i + 1).value;
    } else if IsShort(raw[i + 1]) {
      assert raw[i + 1] != LetterU;
      ScanReadsTokens(raw, i + 2);
      assert ts[1..] == Body(raw, i + 2).value;
    } else {
      var rest := Body(raw, i + 6).value;
      EscapedIsEscape(raw, i);
      ScanReadsTokens(raw, i + 6);
      assert ts[1..] == rest;
      if HighAt(ts, 0) {
        if Body(raw, i + 12).Some? {
          ScanReadsTokens(raw, i + 12);
        }
        ScanReadsPair(raw, i, ts, rest);
      }
    }
  }

  /** After a high surrogate the scan asks what the grammar reads next. */
  lemma ScanReadsPair(raw: seq<Byte>, i: nat, ts: seq<Token>, rest: seq<Token>)
    requires Body(raw, i + 6) == Some(rest) && ts == [Unicode(Escaped(raw, i + 1))] + rest
    requires i < |raw| && raw[i] == Backslash && IsHigh(Escaped(raw, i + 1))
    requires Body(raw, i + 12).Some? ==> ScanFrom(raw, i + 12) == Paired(Body(raw, i + 12).value)
    ensures ScanFrom(raw, i) == Paired(ts)
  {
    if i + 6 < |raw| && raw[i + 6] == Backslash {
      EscapedIsEscape(raw, i + 6);
    }
    if rest != [] && LowAt(rest, 0) {
      assert raw[i + 6] == Backslash;
      assert ts[2..] == rest[1..] == Body(raw, i + 12).value;
    }
  }
}
