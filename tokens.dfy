/** The token service (a JWT signer/verifier) as the auth service sees it:
    claim sets are records of named JSON values, signing and verification are
    functions supplied from outside, and the one thing assumed of them is
    that verifying a signed claim set gives those claims back plus the
    timing fields the signer adds. */
module Tokens {
  import opened Wrappers

  /** A JSON scalar as it appears in a claim set. */
  datatype Value = Str(s: string) | Num(n: int)

  /** A claim set: the fields of a JSON object. */
  type Claims = map<string, Value>

  /** Timing claims the signer adds to every payload it signs. */
  const IssuedAt := "iat"
  const Expiry := "exp"
  const Timing: set<string> := {IssuedAt, Expiry}

  /** Registered claims the orchestrator strips before re-signing. */
  const Subject := "sub"
  const Registered: set<string> := {Subject, IssuedAt, Expiry}

  /** Object-rest destructuring: `const { k1, ..., kn, ...rest } = c`
      binds `rest` to `c` without the fields `k1 .. kn`. */
  function Omit(c: Claims, keys: set<string>): (rest: Claims)
    ensures rest.Keys == c.Keys - keys
    ensures forall k :: k in rest ==> rest[k] == c[k]
  {
    c - keys
  }

  /** The signer and verifier; `verify` answers None for a bad signature,
      a malformed token or an expired one alike. */
  datatype TokenService = TokenService(sign: Claims -> string, verify: string -> Option<Claims>)

  /** Verifying what was signed gives back the signed claims plus the two
      timing fields, for every claim set that does not itself carry a
      registered claim. */
  ghost predicate RoundTrip(ts: TokenService)
  {
    forall c: Claims :: Registered !! c.Keys ==>
      var v := ts.verify(ts.sign(c));
      v.Some? && v.value.Keys == c.Keys + Timing && Omit(v.value, Timing) == c
  }

  /** Under RoundTrip, verification of a signed claim set succeeds and the
      fields that remain once every registered claim is omitted are exactly
      the signed ones. */
  lemma {:induction false} VerifySigned(ts: TokenService, c: Claims)
    requires RoundTrip(ts)
    requires Registered !! c.Keys
    ensures ts.verify(ts.sign(c)).Some?
    ensures Omit(ts.verify(ts.sign(c)).value, Registered) == c
  {
    var v := ts.verify(ts.sign(c));
    assert v.Some? && v.value.Keys == c.Keys + Timing && Omit(v.value, Timing) == c;
    var rest := Omit(v.value, Registered);
    assert rest.Keys == c.Keys;
    forall k | k in rest ensures rest[k] == c[k] {
      assert k in Omit(v.value, Timing);
    }
  }
}
