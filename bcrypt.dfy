/** Password hashing with bcrypt, left uninterpreted: a hash records the cost factor, the
    salt and the password it was computed from, and `Compare` is what `bcrypt.compare`
    decides for it. bcrypt keys its cipher with the password's UTF-8 bytes and uses at
    most the first 72 of them, so two passwords that agree on those bytes match the same
    hash. Collisions of the hash itself are not modelled. */
module Bcrypt {

  /** The cost factor passed to `bcrypt.hash(password, 10)`. */
  const SaltRounds: nat := 10

  /** The number of password bytes bcrypt uses. */
  const MaxKeyBytes: nat := 72

  datatype Hash = Hash(cost: nat, salt: string, preimage: string)

  /** `bcrypt.hash(plain, 10)` with the random salt given as a parameter. */
  function HashPassword(plain: string, salt: string): (h: Hash)
    ensures h.cost == SaltRounds && h.salt == salt
  {
    Hash(SaltRounds, salt, plain)
  }

  /** The UTF-8 encoding of one character (section 3 of RFC 3629). */
  function Utf8Char(c: char): (b: seq<nat>)
    ensures 1 <= |b| <= 4
    ensures c as int < 0x80 ==> b == [c as int]
  {
    var n := c as int;
    if n < 0x80 then [n]
    else if n < 0x800 then [0xC0 + n / 0x40, 0x80 + n % 0x40]
    else if n < 0x10000 then [0xE0 + n / 0x1000, 0x80 + (n / 0x40) % 0x40, 0x80 + n % 0x40]
    else [0xF0 + n / 0x40000, 0x80 + (n / 0x1000) % 0x40, 0x80 + (n / 0x40) % 0x40, 0x80 + n % 0x40]
  }

  /** The UTF-8 encoding of a string. */
  function Utf8(s: string): (b: seq<nat>)
    ensures |s| <= |b| <= 4 * |s|
  {
    if |s| == 0 then [] else Utf8(s[..|s| - 1]) + Utf8Char(s[|s| - 1])
  }

  /** The bytes of a password that reach the cipher. */
  function KeyBytes(plain: string): (k: seq<nat>)
    ensures |k| <= MaxKeyBytes
    ensures |Utf8(plain)| <= MaxKeyBytes ==> k == Utf8(plain)
    ensures |Utf8(plain)| > MaxKeyBytes ==> k == Utf8(plain)[..MaxKeyBytes]
  {
    var b := Utf8(plain);
    if |b| <= MaxKeyBytes then b else b[..MaxKeyBytes]
  }

  /** `bcrypt.compare(plain, stored)`: the candidate matches when its key bytes are those
      of the password the hash was made from. */
  function Compare(plain: string, stored: Hash): (ok: bool)
    ensures stored.preimage == plain ==> ok
  {
    KeyBytes(plain) == KeyBytes(stored.preimage)
  }

  /** Encoding distributes over concatenation. */
  lemma {:induction false} Utf8Append(a: string, b: string)
    ensures Utf8(a + b) == Utf8(a) + Utf8(b)
  {
    if |b| > 0 {
      assert (a + b)[..|a + b| - 1] == a + b[..|b| - 1];
      assert (a + b)[|a + b| - 1] == b[|b| - 1];
      Utf8Append(a, b[..|b| - 1]);
    } else {
      assert a + b == a;
    }
  }

  /** An ASCII string is encoded as its character codes, one byte each. */
  lemma {:induction false} Utf8Ascii(s: string)
    requires forall k | 0 <= k < |s| :: s[k] as int < 0x80
    ensures |Utf8(s)| == |s|
    ensures forall k | 0 <= k < |s| :: Utf8(s)[k] == s[k] as int
  {
    if |s| > 0 {
      Utf8Ascii(s[..|s| - 1]);
    }
  }

  /** A hash matches the password it was made from, whatever the salt; among ASCII
      passwords of at most 72 characters it matches no other. */
  lemma CompareHashed(plain: string, other: string, salt: string)
    ensures Compare(plain, HashPassword(plain, salt))
    ensures (forall k | 0 <= k < |plain| :: plain[k] as int < 0x80) && |plain| <= MaxKeyBytes
      && (forall k | 0 <= k < |other| :: other[k] as int < 0x80) && |other| <= MaxKeyBytes
      && other != plain
      ==> !Compare(other, HashPassword(plain, salt))
  {
    if (forall k | 0 <= k < |plain| :: plain[k] as int < 0x80) && |plain| <= MaxKeyBytes
      && (forall k | 0 <= k < |other| :: other[k] as int < 0x80) && |other| <= MaxKeyBytes
      && other != plain
    {
      Utf8Ascii(plain);
      Utf8Ascii(other);
      if |other| == |plain| {
        var k :| 0 <= k < |plain| && other[k] != plain[k];
        assert Utf8(other)[k] != Utf8(plain)[k];
      } else {
        assert |Utf8(other)| != |Utf8(plain)|;
      }
    }
  }

  /** bcrypt does not see a password beyond its first 72 bytes: whatever follows them,
      the candidate matches the hash. */
  lemma TailBeyondKeyIgnored(plain: string, tail: string, salt: string)
    requires |Utf8(plain)| >= MaxKeyBytes
    ensures Compare(plain + tail, HashPassword(plain, salt))
  {
    Utf8Append(plain, tail);
    assert (Utf8(plain) + Utf8(tail))[..MaxKeyBytes] == Utf8(plain)[..MaxKeyBytes];
  }
}
