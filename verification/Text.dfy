/** Character classes and length limits the ownership records are checked against. */
module Text {

  const MAX_IDENTIFIER_BYTES: nat := 4096
  const MAX_FIELD_BYTES: nat := 512

  /** Bytes one Unicode scalar value takes in UTF-8. */
  function CharBytes(c: char): nat {
    if c as int < 0x80 then 1
    else if c as int < 0x800 then 2
    else if c as int < 0x10000 then 3
    else 4
  }

  function ByteLength(s: string): nat {
    if s == [] then 0 else CharBytes(s[0]) + ByteLength(s[1..])
  }

  /** Unicode category Cc. */
  predicate IsControl(c: char) {
    var n := c as int;
    n < 0x20 || 0x7f <= n <= 0x9f
  }

  /** Unicode property White_Space. */
  predicate IsSpace(c: char) {
    var n := c as int;
    || 0x09 <= n <= 0x0d
    || n in {0x20, 0x85, 0xa0, 0x1680, 0x2028, 0x2029, 0x202f, 0x205f, 0x3000}
    || 0x2000 <= n <= 0x200a
  }

  predicate SafeString(s: string, limit: nat) {
    && s != ""
    && ByteLength(s) <= limit
    && forall i :: 0 <= i < |s| ==> !IsControl(s[i])
  }

  /** Accepts the empty string; callers that need a value test for it separately. */
  predicate IdentifierValid(s: string) {
    s != "" ==>
      && ByteLength(s) <= MAX_IDENTIFIER_BYTES
      && forall i :: 0 <= i < |s| ==> !IsSpace(s[i]) && !IsControl(s[i])
  }

  predicate HasSpace(s: string) {
    exists i :: 0 <= i < |s| && IsSpace(s[i])
  }

  predicate DigestValid(s: string) {
    && |s| == 71
    && s[..7] == "sha256:"
    && forall i :: 7 <= i < 71 ==> '0' <= s[i] <= '9' || 'a' <= s[i] <= 'f'
  }

  /** The canonical text of a UUID. */
  predicate UuidValid(s: string) {
    && |s| == 36
    && forall i :: 0 <= i < 36 ==>
                     if i in {8, 13, 18, 23} then s[i] == '-' else '0' <= s[i] <= '9' || 'a' <= s[i] <= 'f'
  }

  /** The two admission checks differ on white space and on nothing else. */
  lemma SafeStringIsIdentifierUnlessSpace(s: string)
    requires SafeString(s, MAX_IDENTIFIER_BYTES)
    ensures IdentifierValid(s) <==> !HasSpace(s)
  {
  }
}
