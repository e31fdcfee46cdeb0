/** Long text in pieces that are valid UTF-8 themselves: section 3 of RFC 3629. */
module OutputChunks {

  type Byte = b: int | 0 <= b < 256

  const CHUNK_BYTES: nat := 32768

  predicate Continues(b: Byte) {
    0x80 <= b <= 0xbf
  }

  /** Could a character start with this byte? */
  predicate RuneStart(b: Byte) {
    !Continues(b)
  }

  /** One character in UTF-8, in its only form. */
  predicate Rune(r: seq<Byte>) {
    || (|r| == 1 && r[0] <= 0x7f)
    || (|r| == 2 && 0xc2 <= r[0] <= 0xdf && Continues(r[1]))
    || (|r| == 3 && Continues(r[2])
        && (|| (r[0] == 0xe0 && 0xa0 <= r[1] <= 0xbf)
            || (0xe1 <= r[0] <= 0xec && Continues(r[1]))
            || (r[0] == 0xed && 0x80 <= r[1] <= 0x9f)
            || (0xee <= r[0] <= 0xef && Continues(r[1]))))
    || (|r| == 4 && Continues(r[2]) && Continues(r[3])
        && (|| (r[0] == 0xf0 && 0x90 <= r[1] <= 0xbf)
            || (0xf1 <= r[0] <= 0xf3 && Continues(r[1]))
            || (r[0] == 0xf4 && 0x80 <= r[1] <= 0x8f)))
  }

  predicate Runes(rs: seq<seq<Byte>>) {
    forall i :: 0 <= i < |rs| ==> Rune(rs[i])
  }

  function Flatten<T>(parts: seq<seq<T>>): seq<T> {
    if parts == [] then [] else parts[0] + Flatten(parts[1..])
  }

  ghost predicate ValidUtf8(text: seq<Byte>) {
    exists rs: seq<seq<Byte>> :: Runes(rs) && Flatten(rs) == text
  }

  lemma {:induction false} FlattenMore<T>(parts: seq<seq<T>>, part: seq<T>)
    ensures Flatten(parts + [part]) == Flatten(parts) + part
  {
    if parts != [] {
      assert (parts + [part])[1..] == parts[1..] + [part];
      FlattenMore(parts[1..], part);
    }
  }

  lemma NothingFlat()
    ensures Flatten<Byte>([]) == []
  {
  }

  /** After its first byte a character has continuation bytes only. */
  lemma InsideRune(rs: seq<seq<Byte>>, n: nat)
    requires Runes(rs) && rs != [] && 0 < n < |Flatten(rs)|
    ensures n < |rs[0]| ==> Continues(Flatten(rs)[n])
  {
    if n < |rs[0]| {
      assert Flatten(rs)[n] == rs[0][n];
      assert Rune(rs[0]);
    }
  }

  lemma CutFirst(rs: seq<seq<Byte>>, n: nat, j: nat)
    requires rs != [] && j < |rs| && |rs[0]| <= n <= |Flatten(rs)|
    requires n - |rs[0]| <= |Flatten(rs[1..])|
    requires Flatten(rs[1..][..j]) == Flatten(rs[1..])[..n - |rs[0]|] && Flatten(rs[1..][j..]) == Flatten(rs[1..])[n - |rs[0]|..]
    ensures Flatten(rs[..j + 1]) == Flatten(rs)[..n] && Flatten(rs[j + 1..]) == Flatten(rs)[n..]
  {
    assert rs[..j + 1][1..] == rs[1..][..j] && rs[j + 1..] == rs[1..][j..];
    assert Flatten(rs) == rs[0] + Flatten(rs[1..]);
  }

  /** A cut before a byte that can start a character falls between two characters. */
  lemma {:induction false} CutBetween(rs: seq<seq<Byte>>, n: nat) returns (k: nat)
    requires Runes(rs) && n <= |Flatten(rs)|
    requires n < |Flatten(rs)| ==> RuneStart(Flatten(rs)[n])
    ensures k <= |rs| && Flatten(rs[..k]) == Flatten(rs)[..n] && Flatten(rs[k..]) == Flatten(rs)[n..]
  {
    hide Rune;
    if n == 0 || rs == [] {
      k := 0;
      assert rs[..0] == [] && rs[0..] == rs;
    } else {
      assert Flatten(rs) == rs[0] + Flatten(rs[1..]);
      if n < |Flatten(rs)| { InsideRune(rs, n); }
      assert n < |Flatten(rs)| ==> Flatten(rs)[n] == Flatten(rs[1..])[n - |rs[0]|];
      var j := CutBetween(rs[1..], n - |rs[0]|);
      k := j + 1;
      CutFirst(rs, n, j);
    }
  }

  /** Among any four bytes in a row of a valid text one can start a character, unless the text ends there. */
  lemma {:induction false} StartNearby(rs: seq<seq<Byte>>, n: nat) returns (back: nat)
    requires Runes(rs) && n < |Flatten(rs)|
    ensures back <= 3 && back <= n && RuneStart(Flatten(rs)[n - back])
  {
    var size := |rs[0]|;
    assert Flatten(rs) == rs[0] + Flatten(rs[1..]);
    if n < size {
      back := n;
      assert Flatten(rs)[0] == rs[0][0];
    } else {
      back := StartNearby(rs[1..], n - size);
      assert Flatten(rs)[n - back] == Flatten(rs[1..])[n - size - back];
    }
  }

  /** The length of the next piece: cut where a character starts, at most three bytes below the limit, or all that is left. */
  method NextCut(text: seq<Byte>, ghost rs: seq<seq<Byte>>) returns (n: nat, ghost k: nat)
    requires text == Flatten(rs) && Runes(rs) && text != []
    ensures 0 < n <= |text| && n <= CHUNK_BYTES && (n == |text| || n + 3 >= CHUNK_BYTES)
    ensures k <= |rs| && Runes(rs[k..]) && Flatten(rs[k..]) == text[n..] && ValidUtf8(text[..n])
  {
    n := if |text| < CHUNK_BYTES then |text| else CHUNK_BYTES;
    if n < |text| {
      ghost var limit := n;
      ghost var back := StartNearby(rs, n);
      while n < |text| && !RuneStart(text[n])
        invariant limit - back <= n <= limit
        decreases n
      {
        n := n - 1;
      }
    }
    k := CutBetween(rs, n);
    assert Runes(rs[..k]) && Flatten(rs[..k]) == text[..n];
  }

  /**
   Send a text in pieces, until it is sent, or a write fails, or the request is cancelled. `writes`
   is how many writes succeed. What was sent is a beginning of the text, and all of it at the end.
   */
  method OutputText(text: seq<Byte>, writes: nat, ghost rs: seq<seq<Byte>>) returns (chunks: seq<seq<Byte>>, done: bool)
    requires text == Flatten(rs) && Runes(rs)
    ensures Flatten(chunks) <= text && (done ==> Flatten(chunks) == text) && (!done ==> |chunks| == writes)
    ensures forall i :: 0 <= i < |chunks| ==> 0 < |chunks[i]| <= CHUNK_BYTES && ValidUtf8(chunks[i])
    ensures forall i :: 0 <= i < |chunks| - 1 ==> |chunks[i]| + 3 >= CHUNK_BYTES
  {
    hide Flatten, Runes, ValidUtf8;
    chunks := [];
    NothingFlat();
    var rest := text;
    ghost var left := rs;
    while rest != []
      invariant Flatten(chunks) + rest == text && rest == Flatten(left) && Runes(left)
      invariant forall i :: 0 <= i < |chunks| ==> 0 < |chunks[i]| <= CHUNK_BYTES && ValidUtf8(chunks[i])
      invariant forall i :: 0 <= i < |chunks| ==> |chunks[i]| + 3 >= CHUNK_BYTES || (i == |chunks| - 1 && rest == [])
      decreases |rest|
    {
      if |chunks| == writes {
        return chunks, false;
      }
      var n: nat;
      ghost var k: nat;
      n, k := NextCut(rest, left);
      FlattenMore(chunks, rest[..n]);
      chunks := chunks + [rest[..n]];
      rest, left := rest[n..], left[k..];
    }
    return chunks, true;
  }
}
