/** Surrogate escapes in JSON strings: section 7 of RFC 8259. */
module StringEscapes {

  type Byte = b: int | 0 <= b < 256

  const QUOTE: Byte := 0x22
  const BACKSLASH: Byte := 0x5c
  const LOWER_U: Byte := 0x75

  predicate IsHex(b: Byte) {
    0x30 <= b <= 0x39 || 0x41 <= b <= 0x46 || 0x61 <= b <= 0x66
  }

  function HexValue(b: Byte): (v: nat)
    requires IsHex(b)
    ensures v < 16
  {
    if b <= 0x39 then b - 0x30 else if b <= 0x46 then b - 0x41 + 10 else b - 0x61 + 10
  }

  // What a well-formed JSON text consists of, as far as strings matter.
  datatype Lexeme =
    | Outside(byte: Byte)
    | Quote
    | Plain(byte: Byte)
    | Escape(byte: Byte)
    | Unicode(a: Byte, b: Byte, c: Byte, d: Byte)

  predicate LexemeOk(x: Lexeme) {
    match x
    case Outside(b) => b != QUOTE
    case Quote => true
    case Plain(b) => b != QUOTE && b != BACKSLASH
    case Escape(b) => b != LOWER_U
    case Unicode(a, b, c, d) => IsHex(a) && IsHex(b) && IsHex(c) && IsHex(d)
  }

  function Bytes(x: Lexeme): seq<Byte> {
    match x
    case Outside(b) => [b]
    case Quote => [QUOTE]
    case Plain(b) => [b]
    case Escape(b) => [BACKSLASH, b]
    case Unicode(a, b, c, d) => [BACKSLASH, LOWER_U, a, b, c, d]
  }

  function Encode(xs: seq<Lexeme>): seq<Byte> {
    if xs == [] then [] else Bytes(xs[0]) + Encode(xs[1..])
  }

  /** Strings open and close, escapes and characters are inside them, everything else outside. */
  predicate WellFormed(xs: seq<Lexeme>, quoted: bool) {
    if xs == [] then !quoted
    else
      && LexemeOk(xs[0])
      && (xs[0].Outside? ==> !quoted) && (xs[0].Plain? || xs[0].Escape? || xs[0].Unicode? ==> quoted)
      && WellFormed(xs[1..], if xs[0].Quote? then !quoted else quoted)
  }

  function Code(x: Lexeme): nat
    requires x.Unicode? && LexemeOk(x)
  {
    ((HexValue(x.a) * 16 + HexValue(x.b)) * 16 + HexValue(x.c)) * 16 + HexValue(x.d)
  }

  predicate High(x: Lexeme) {
    x.Unicode? && LexemeOk(x) && 0xd800 <= Code(x) <= 0xdbff
  }

  predicate Low(x: Lexeme) {
    x.Unicode? && LexemeOk(x) && 0xdc00 <= Code(x) <= 0xdfff
  }

  /** Every high surrogate is followed by a low one, and every low one follows a high one. */
  predicate Paired(xs: seq<Lexeme>) {
    && (forall i :: 0 <= i < |xs| && High(xs[i]) ==> i + 1 < |xs| && Low(xs[i + 1]))
    && (forall i :: 0 <= i < |xs| && Low(xs[i]) ==> i > 0 && High(xs[i - 1]))
  }

  /** The scanner's reading: pairs are taken whole. */
  predicate PairedFrom(xs: seq<Lexeme>) {
    if xs == [] then true
    else if Low(xs[0]) then false
    else if High(xs[0]) then |xs| >= 2 && Low(xs[1]) && PairedFrom(xs[2..])
    else PairedFrom(xs[1..])
  }

  lemma {:induction false} PairedMeansPaired(xs: seq<Lexeme>)
    ensures PairedFrom(xs) <==> Paired(xs)
  {
    hide Code;
    if xs != [] && !Low(xs[0]) {
      if High(xs[0]) {
        if |xs| >= 2 && Low(xs[1]) {
          PairedMeansPaired(xs[2..]);
          forall i | 2 <= i < |xs| ensures xs[i] == xs[2..][i - 2] {}
          if Paired(xs[2..]) {
            assert forall i :: 2 <= i < |xs| && High(xs[i]) ==> i + 1 < |xs| && Low(xs[i + 1]) by {
              forall i | 2 <= i < |xs| && High(xs[i]) ensures i + 1 < |xs| && Low(xs[i + 1]) {
                assert High(xs[2..][i - 2]);
              }
            }
            assert forall i :: 2 <= i < |xs| && Low(xs[i]) ==> High(xs[i - 1]) by {
              forall i | 2 <= i < |xs| && Low(xs[i]) ensures High(xs[i - 1]) {
                assert Low(xs[2..][i - 2]);
              }
            }
          }
          if Paired(xs) {
            forall i | 0 <= i < |xs[2..]| && Low(xs[2..][i]) ensures i > 0 && High(xs[2..][i - 1]) {
              assert Low(xs[i + 2]) && High(xs[i + 1]) && !High(xs[1]);
            }
            forall i | 0 <= i < |xs[2..]| && High(xs[2..][i]) ensures i + 1 < |xs[2..]| && Low(xs[2..][i + 1]) {
              assert High(xs[i + 2]);
            }
          }
        }
      } else {
        PairedMeansPaired(xs[1..]);
        if Paired(xs[1..]) {
          forall i | 0 <= i < |xs| && High(xs[i]) ensures i + 1 < |xs| && Low(xs[i + 1]) {
            assert High(xs[1..][i - 1]);
          }
          forall i | 0 <= i < |xs| && Low(xs[i]) ensures i > 0 && High(xs[i - 1]) {
            assert Low(xs[1..][i - 1]);
          }
        }
        if Paired(xs) {
          forall i | 0 <= i < |xs[1..]| && Low(xs[1..][i]) ensures i > 0 && High(xs[1..][i - 1]) {
            assert Low(xs[i + 1]) && High(xs[i]);
          }
          forall i | 0 <= i < |xs[1..]| && High(xs[1..][i]) ensures i + 1 < |xs[1..]| && Low(xs[1..][i + 1]) {
            assert High(xs[i + 1]);
          }
        }
      }
    }
  }

  method ParseHex(digits: seq<Byte>) returns (value: nat)
    requires |digits| == 4 && forall i :: 0 <= i < 4 ==> IsHex(digits[i])
    ensures value == Code(Unicode(digits[0], digits[1], digits[2], digits[3])) < 0x10000
  {
    value := 0;
    value := value * 16 + HexValue(digits[0]);
    value := value * 16 + HexValue(digits[1]);
    value := value * 16 + HexValue(digits[2]);
    value := value * 16 + HexValue(digits[3]);
  }

  /** The rest of the text, after one lexeme. */
  lemma EncodeStep(xs: seq<Lexeme>)
    requires xs != []
    ensures Encode(xs) == Bytes(xs[0]) + Encode(xs[1..]) && |Bytes(xs[0])| > 0
  {
  }

  lemma Dropped(data: seq<Byte>, i: nat, head: seq<Byte>, tail: seq<Byte>)
    requires i <= |data| && data[i..] == head + tail
    ensures i + |head| <= |data| && data[i + |head|..] == tail && data[i..i + |head|] == head
    ensures forall j :: 0 <= j < |head| ==> data[i + j] == head[j]
  {
    assert forall j :: 0 <= j < |data[i..]| ==> data[i + j] == data[i..][j];
  }

  /** What the bytes at the scanner's place say about the next lexeme. */
  lemma Next(data: seq<Byte>, i: nat, rest: seq<Lexeme>, quoted: bool)
    requires i < |data| && data[i..] == Encode(rest) && WellFormed(rest, quoted)
    ensures rest != [] && LexemeOk(rest[0]) && i + |Bytes(rest[0])| <= |data|
    ensures data[i + |Bytes(rest[0])|..] == Encode(rest[1..])
    ensures WellFormed(rest[1..], if rest[0].Quote? then !quoted else quoted)
    ensures data[i] == QUOTE <==> rest[0].Quote?
    ensures quoted && data[i] == BACKSLASH <==> rest[0].Escape? || rest[0].Unicode?
    ensures rest[0].Escape? || rest[0].Unicode? ==> i + 1 < |data| && (data[i + 1] == LOWER_U <==> rest[0].Unicode?)
    ensures rest[0].Unicode? ==> i + 6 <= |data| && data[i + 2..i + 6] == [rest[0].a, rest[0].b, rest[0].c, rest[0].d]
    ensures |Bytes(rest[0])| == match rest[0] case Escape(_) => 2 case Unicode(_, _, _, _) => 6 case _ => 1
  {
    EncodeStep(rest);
    Dropped(data, i, Bytes(rest[0]), Encode(rest[1..]));
    if rest[0].Unicode? {
      assert data[i + 2..i + 6] == data[i..i + 6][2..6];
    }
  }

  lemma PairedStep(rest: seq<Lexeme>)
    requires rest != [] && LexemeOk(rest[0])
    ensures !High(rest[0]) && !Low(rest[0]) ==> PairedFrom(rest) == PairedFrom(rest[1..])
    ensures Low(rest[0]) ==> !PairedFrom(rest)
    ensures High(rest[0]) ==> PairedFrom(rest) == (|rest| >= 2 && Low(rest[1]) && PairedFrom(rest[2..]))
  {
  }

  /** Inside a string there is always another lexeme. */
  lemma StillOpen(data: seq<Byte>, i: nat, rest: seq<Lexeme>)
    requires i <= |data| && data[i..] == Encode(rest) && WellFormed(rest, true)
    ensures i < |data|
  {
    EncodeStep(rest);
    assert |data[i..]| == |data| - i;
  }

  /** After a high surrogate the only byte sequence that goes on is an escaped low one. */
  method TakeLow(data: seq<Byte>, i: nat, ghost rest: seq<Lexeme>) returns (ok: bool)
    requires i <= |data| && data[i..] == Encode(rest) && WellFormed(rest, true)
    ensures ok <==> rest != [] && Low(rest[0])
    ensures ok ==> i + 6 <= |data| && data[i + 6..] == Encode(rest[1..]) && WellFormed(rest[1..], true)
  {
    StillOpen(data, i, rest);
    Next(data, i, rest, true);
    if i + 5 >= |data| || data[i] != BACKSLASH || data[i + 1] != LOWER_U {
      return false;
    }
    var low := ParseHex(data[i + 2..i + 6]);
    return 0xdc00 <= low <= 0xdfff;
  }

  /**
   The byte scanner. On every well-formed text it stays inside the text, and accepts exactly
   when all surrogate escapes are properly paired.
   */
  method ValidStringEscapes(data: seq<Byte>, ghost text: seq<Lexeme>) returns (ok: bool)
    requires data == Encode(text) && WellFormed(text, false)
    ensures ok <==> Paired(text)
  {
    hide Encode, WellFormed, PairedFrom, Paired;
    PairedMeansPaired(text);
    assert data[0..] == data;
    var quoted := false;
    var i := 0;
    ghost var rest := text;
    while i < |data|
      invariant i <= |data| && data[i..] == Encode(rest) && WellFormed(rest, quoted)
      invariant PairedFrom(text) <==> PairedFrom(rest)
      decreases |data| - i
    {
      Next(data, i, rest, quoted);
      PairedStep(rest);
      ghost var tail := rest[1..];
      if data[i] == QUOTE {
        quoted := !quoted;
        i, rest := i + 1, tail;
        continue;
      }
      if !quoted || data[i] != BACKSLASH {
        i, rest := i + 1, tail;
        continue;
      }
      if data[i + 1] != LOWER_U {
        i, rest := i + 2, tail;
        continue;
      }
      var value := ParseHex(data[i + 2..i + 6]);
      if 0xdc00 <= value <= 0xdfff {
        return false;
      }
      if value < 0xd800 || value > 0xdbff {
        i, rest := i + 6, tail;
        continue;
      }
      ok := TakeLow(data, i + 6, tail);
      if !ok {
        return false;
      }
      assert tail[1..] == rest[2..];
      i, rest := i + 12, tail[1..];
    }
    NothingLeft(data, i, rest, quoted);
    return true;
  }

  lemma NothingLeft(data: seq<Byte>, i: nat, rest: seq<Lexeme>, quoted: bool)
    requires i == |data| && data[i..] == Encode(rest) && WellFormed(rest, quoted)
    ensures PairedFrom(rest)
  {
    if rest != [] { EncodeStep(rest); }
  }
}
