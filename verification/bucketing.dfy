/** Experiment bucketing (`get_ab_test_group` in tools.py): a user is assigned to group 0
    or 1 by the parity of the first eight hex digits of the SHA-256 digest of the UTF-8
    encoding of the user id. SHA-256 itself is a parameter of type `Hasher`. */
module Bucketing {
  import opened Hex
  import opened Utf8

  /** A `hexdigest()` of SHA-256: 64 lower-case hex digits. */
  predicate IsDigest(s: string)
  {
    |s| == 64 && IsLowerHex(s)
  }

  type Digest = s: string | IsDigest(s)
    witness ToHex(0, 64)

  /** `hashlib.sha256(bytes).hexdigest()`; its internals are not modelled. */
  type Hasher = seq<byte> -> Digest

  const PrefixDigits: nat := 8

  /** `int(hashed_id[:8], 16)`: the first eight digits read as an unsigned 32-bit number. */
  function PrefixValue(d: Digest): (n: nat)
    ensures n < 0x1_0000_0000
    ensures n == Value(d[..PrefixDigits])
  {
    assert Pow16(PrefixDigits) == 0x1_0000_0000;
    Value(d[..PrefixDigits])
  }

  /** The group a digest lands in: the parity of its prefix value, which is the parity of
      the eighth hex digit. */
  function GroupOfDigest(d: Digest): (g: nat)
    ensures g == 0 || g == 1
    ensures g == DigitValue(d[PrefixDigits - 1]) % 2
  {
    ValueParity(d[..PrefixDigits]);
    PrefixValue(d) % 2
  }

  /** `get_ab_test_group(user_id)`. */
  function AbGroup(sha256: Hasher, userId: string): (g: nat)
    ensures g == 0 || g == 1
    ensures g == DigitValue(sha256(Encode(userId))[7]) % 2
  {
    GroupOfDigest(sha256(Encode(userId)))
  }

  /** `get_ab_test_group` step by step: hash the UTF-8 bytes, parse the first eight hex
      digits with `int(..., 16)`, take the remainder modulo 2. */
  method GetAbTestGroup(sha256: Hasher, userId: string) returns (group: nat)
    ensures group == 0 || group == 1
    ensures group == AbGroup(sha256, userId)
    ensures group == 0 <==> sha256(Encode(userId))[7] in "02468ace"
  {
    var hashedId := sha256(Encode(userId));
    var hashAsInt := Parse(hashedId[..PrefixDigits]);
    group := hashAsInt % 2;
    GroupZeroIffEvenDigit(hashedId);
  }

  /** Only the first eight digits matter: digests that share them share the group. */
  lemma SamePrefixSameGroup(d1: Digest, d2: Digest)
    requires d1[..PrefixDigits] == d2[..PrefixDigits]
    ensures GroupOfDigest(d1) == GroupOfDigest(d2)
  {
    assert d1[PrefixDigits - 1] == d1[..PrefixDigits][PrefixDigits - 1];
    assert d2[PrefixDigits - 1] == d2[..PrefixDigits][PrefixDigits - 1];
  }

  /** Group 0 is exactly the digests whose eighth digit is even. */
  lemma GroupZeroIffEvenDigit(d: Digest)
    ensures GroupOfDigest(d) == 0 <==> d[7] in "02468ace"
  {
    var c := d[7];
    assert IsDigit(c);
  }

  /** Equal user ids always land in the same group, and the group depends on the id only
      through its UTF-8 bytes, which determine the id. */
  lemma SameUserSameGroup(sha256: Hasher, u1: string, u2: string)
    requires Encode(u1) == Encode(u2)
    ensures u1 == u2
    ensures AbGroup(sha256, u1) == AbGroup(sha256, u2)
  {
    EncodeInjective(u1, u2);
  }

  /** Every 32-bit number is the prefix value of some digest: the bound is tight. */
  lemma EveryPrefixValueOccurs(n: nat)
    requires n < 0x1_0000_0000
    ensures exists d: Digest :: PrefixValue(d) == n
  {
    assert Pow16(PrefixDigits) == 0x1_0000_0000;
    var hi := ToHex(n, PrefixDigits);
    var lo := ToHex(0, 64 - PrefixDigits);
    var s := hi + lo;
    assert forall i :: 0 <= i < |s| ==> IsDigit(s[i]) by {
      forall i | 0 <= i < |s|
        ensures IsDigit(s[i])
      {
        if i < |hi| { assert s[i] == hi[i]; } else { assert s[i] == lo[i - |hi|]; }
      }
    }
    var d: Digest := s;
    assert d[..PrefixDigits] == ToHex(n, PrefixDigits);
    ValueOfToHex(n, PrefixDigits);
    assert PrefixValue(d) == n;
  }
}
