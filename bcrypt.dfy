/** The password hasher (bcrypt) as the auth service uses it: `hashSync(p, 10)`
    and `compare(p, h)`. A bcrypt hash is the text "$2b$", a two-digit cost,
    "$", a 22-character salt and the digest of the password's key under that
    cost and salt. The key is the password cut to its first 72 characters:
    bcrypt reads no further. The digest itself, the expensive part, is a
    function supplied from outside; the random salt is handed in by the
    caller. */
module Bcrypt {

  /** The cost factor the auth service passes to `hashSync`. */
  const Rounds: string := "10"

  const Scheme: string := "$2b$"
  /** The older scheme tag, which `compare` accepts as well. */
  const LegacyScheme: string := "$2a$"
  const SaltLength: nat := 22
  /** Offset of the salt in a hash: scheme, two cost digits and "$". */
  const SaltStart: nat := 7
  const DigestStart: nat := SaltStart + SaltLength
  /** How much of a password bcrypt reads. */
  const MaxKeyLength: nat := 72

  type Salt = s: string | |s| == SaltLength witness "......................"

  /** The one-way core: digest(cost, salt, key). */
  datatype Hasher = Hasher(digest: (string, string, string) -> string)

  /** The part of a password that bcrypt digests. */
  function Key(p: string): (k: string)
    ensures |k| <= MaxKeyLength && k <= p
    ensures |k| == if |p| <= MaxKeyLength then |p| else MaxKeyLength
    ensures |p| <= MaxKeyLength ==> k == p
  {
    if |p| <= MaxKeyLength then p else p[..MaxKeyLength]
  }

  /** The largest cost bcrypt accepts. */
  const MaxCost: nat := 31

  predicate IsDigit(c: char)
  {
    '0' <= c <= '9'
  }

  /** A two-character cost field: two decimal digits naming at most 31. */
  predicate ValidCost(c0: char, c1: char)
  {
    IsDigit(c0) && IsDigit(c1) && (c0 as int - '0' as int) * 10 + (c1 as int - '0' as int) <= MaxCost
  }

  /** A hash laid out as scheme ("$2b$" or "$2a$"), a valid two-digit cost,
      "$", salt and digest. */
  predicate WellFormed(h: string)
  {
    |h| >= DigestStart && (h[..4] == Scheme || h[..4] == LegacyScheme) &&
    ValidCost(h[4], h[5]) && h[6] == '$'
  }

  /** `bcrypt.compare(p, h)`: read cost and salt out of `h`, recompute the
      digest of the key of `p` and compare. A malformed hash compares false
      rather than throwing. */
  function Compare(hs: Hasher, p: string, h: string): (accepted: bool)
    ensures !WellFormed(h) ==> !accepted
    ensures accepted ==> h[..4] == Scheme || h[..4] == LegacyScheme
    ensures accepted ==> ValidCost(h[4], h[5])
  {
    WellFormed(h) && h[DigestStart..] == hs.digest(h[4..6], h[SaltStart..DigestStart], Key(p))
  }

  /** `bcrypt.hashSync(p, 10)` with the salt it would draw. */
  function HashSync(hs: Hasher, p: string, salt: Salt): (h: string)
    ensures Compare(hs, p, h)
    ensures h[..SaltStart] == Scheme + Rounds + "$"
    ensures h[SaltStart..DigestStart] == salt
  {
    var h := Scheme + Rounds + "$" + salt + hs.digest(Rounds, salt, Key(p));
    assert h[..4] == Scheme && h[4..6] == Rounds && h[6] == '$';
    assert WellFormed(h);
    assert h[SaltStart..DigestStart] == salt;
    assert h[DigestStart..] == hs.digest(Rounds, salt, Key(p));
    h
  }

  /** The digest does not collide for two keys (of at most 72 characters)
      under one cost and salt. */
  ghost predicate CollisionFree(hs: Hasher)
  {
    forall c, s, p, q ::
      |p| <= MaxKeyLength && |q| <= MaxKeyLength && hs.digest(c, s, p) == hs.digest(c, s, q) ==> p == q
  }

  /** With a collision-free digest, a stored hash accepts exactly the
      passwords whose key is the key of the password it was made from. */
  lemma {:induction false} CompareOnlyOriginal(hs: Hasher, p: string, q: string, salt: Salt)
    requires CollisionFree(hs)
    ensures Compare(hs, q, HashSync(hs, p, salt)) <==> Key(q) == Key(p)
  {
    var h := HashSync(hs, p, salt);
    assert h[4..6] == Rounds by {
      assert h == Scheme + Rounds + "$" + salt + hs.digest(Rounds, salt, Key(p));
    }
    assert h[DigestStart..] == hs.digest(Rounds, salt, Key(p)) by {
      assert h == Scheme + Rounds + "$" + salt + hs.digest(Rounds, salt, Key(p));
    }
  }

  /** A hash under the older "$2a$" tag compares like its "$2b$" twin. */
  lemma {:induction false} LegacySchemeCompares(hs: Hasher, p: string, salt: Salt)
    ensures Compare(hs, p, LegacyScheme + Rounds + "$" + salt + hs.digest(Rounds, salt, Key(p)))
  {
    var h := LegacyScheme + Rounds + "$" + salt + hs.digest(Rounds, salt, Key(p));
    assert h[..4] == LegacyScheme && h[4..6] == Rounds && h[6] == '$';
    assert h[SaltStart..DigestStart] == salt;
    assert h[DigestStart..] == hs.digest(Rounds, salt, Key(p));
  }

  /** Whatever the digest, a hash made from a password of 72 or more
      characters also accepts that password with anything appended. */
  lemma {:induction false} CompareIgnoresTail(hs: Hasher, p: string, tail: string, salt: Salt)
    requires |p| >= MaxKeyLength
    ensures Compare(hs, p + tail, HashSync(hs, p, salt))
  {
    assert (p + tail)[..MaxKeyLength] == p[..MaxKeyLength];
    assert Key(p + tail) == Key(p);
  }

  /** A hash whose cost field is not a number, or is a number above 31,
      compares false whatever its digest. */
  lemma {:induction false} BadCostRejected(hs: Hasher, p: string, salt: Salt, d: string)
    ensures !Compare(hs, p, Scheme + "xx$" + salt + d)
    ensures !Compare(hs, p, Scheme + "32$" + salt + d)
  {
    var h1, h2 := Scheme + "xx$" + salt + d, Scheme + "32$" + salt + d;
    assert h1[4] == 'x';
    assert h2[4] == '3' && h2[5] == '2';
  }

  /** Hashing is salted: one password hashed under two different salts
      gives two different hashes. */
  lemma {:induction false} SaltedHashesDiffer(hs: Hasher, p: string, s1: Salt, s2: Salt)
    requires s1 != s2
    ensures HashSync(hs, p, s1) != HashSync(hs, p, s2)
  {
    var h1, h2 := HashSync(hs, p, s1), HashSync(hs, p, s2);
    assert h1[SaltStart..DigestStart] == s1;
    assert h2[SaltStart..DigestStart] == s2;
  }
}
