/** The BLS signature of knowledge with a chosen base point. */
module BlsSok {
  import opened PrimeField
  import opened MultipairingEquations

  /** The messages that are signed. */
  datatype Preimage =
    | EmptyString
    | TauPreimage(previousTauG2: nat, tauG2: nat)
    | AlphaPreimage(previousAlphaG2: nat, alphaG2: nat, index: nat)
    | XiPreimage(previousXiG1: nat, previousXiG2: nat, newXiG2: nat)

  /** Hash-to-curve: any function of the message. */
  type Hasher = Preimage -> nat

  function Sign(p: Order, hash: Hasher, secret: nat, msg: Preimage): (sig: nat)
    ensures sig < p
  {
    Times(p, hash(msg), secret)
  }

  function Verify(p: Order, hash: Hasher, sig: nat, basePoint: nat, verificationKey: nat, msg: Preimage): (eq: Equation)
    ensures Balanced(eq)
  {
    Simple([hash(msg), sig], [verificationKey, Negate(p, basePoint)])
  }

  /** The two-term equations of the verifier compare two products. */
  lemma TwoTerms(p: Order, u: nat, v: nat, b: nat, a: nat)
    ensures IsZero(p, Dot([u, v], [b, Negate(p, a)])) <==> IsZero(p, u * b - v * a)
  {
    hide IsZero;
    var n := Negate(p, a);
    DotStep([u, v], [b, n]);
    DotStep([v], [n]);
    assert Dot([], []) == 0;
    assert [u, v][1..] == [v] && [b, n][1..] == [n];
    ZeroMul(p, n + a, v);
    assert (n + a) * v == v * n + v * a;
    assert Dot([u, v], [b, n]) - (u * b - v * a) == v * n + v * a;
    ZeroTransfer(p, Dot([u, v], [b, n]), u * b - v * a);
  }

  /** Some secret relates the two points and made the signature. */
  ghost predicate Known(p: Order, hash: Hasher, sig: nat, basePoint: nat, verificationKey: nat, msg: Preimage, secret: nat) {
    secret < p && verificationKey == Times(p, basePoint, secret) && sig == Sign(p, hash, secret, msg)
  }

  /** The equation holds exactly when the signature was made with the discrete logarithm of
      the key to the base point. */
  lemma VerifyIffKnown(p: Order, hash: Hasher, sig: nat, basePoint: nat, verificationKey: nat, msg: Preimage)
    requires sig < p && verificationKey < p && !IsZero(p, basePoint)
    ensures EqualsZero(p, Verify(p, hash, sig, basePoint, verificationKey, msg))
       <==> exists secret: nat :: Known(p, hash, sig, basePoint, verificationKey, msg, secret)
  {
    hide IsZero;
    TwoTerms(p, hash(msg), sig, verificationKey, basePoint);
    if EqualsZero(p, Verify(p, hash, sig, basePoint, verificationKey, msg)) {
      SecretOfEquation(p, hash(msg), sig, basePoint, verificationKey);
      var secret := Reduce(p, verificationKey * Inverse(p, basePoint));
      assert Known(p, hash, sig, basePoint, verificationKey, msg, secret);
    }
    if secret: nat :| Known(p, hash, sig, basePoint, verificationKey, msg, secret) {
      SignedEquation(p, hash(msg), secret, basePoint);
    }
  }

  lemma SecretOfEquation(p: Order, h: nat, sig: nat, base: nat, key: nat)
    requires sig < p && key < p && !IsZero(p, base)
    requires IsZero(p, h * key - sig * base)
    ensures var s := Reduce(p, key * Inverse(p, base));
      key == Times(p, base, s) && sig == Times(p, h, s)
  {
    hide IsZero, Reduce, Inverse, Times;
    var s := Reduce(p, key * Inverse(p, base));
    KeyOfSecret(p, base, key, Inverse(p, base), s);
    SignatureOfKey(p, h, sig, base, key, s);
  }

  lemma KeyOfSecret(p: Order, base: nat, key: nat, inv: nat, s: nat)
    requires key < p && IsZero(p, base * inv - 1) && IsZero(p, s - key * inv)
    ensures IsZero(p, base * s - key) && key == Times(p, base, s)
  {
    hide IsZero, Reduce;
    ZeroMul(p, s - key * inv, base);
    ZeroMul(p, base * inv - 1, key);
    RegroupSecret(base, s, key, inv);
    ZeroChain(p, base * s, base * (key * inv), key);
    ZeroChain(p, Times(p, base, s), base * s, key);
    CanonicalUnique(p, Times(p, base, s), key);
  }

  lemma RegroupSecret(base: int, s: int, key: int, inv: int)
    ensures base * (s - key * inv) == base * s - base * (key * inv)
    ensures (base * inv - 1) * key == base * (key * inv) - key
  {
    assert base * (key * inv) == (base * inv) * key;
  }

  lemma SignatureOfKey(p: Order, h: nat, sig: nat, base: nat, key: nat, s: nat)
    requires sig < p && !IsZero(p, base)
    requires IsZero(p, h * key - sig * base) && IsZero(p, base * s - key)
    ensures sig == Times(p, h, s)
  {
    hide IsZero, Reduce;
    ZeroMul(p, base * s - key, h);
    RegroupSignature(base, s, key, h, sig);
    ZeroChain(p, base * (h * s), h * key, base * sig);
    Cancel(p, base, h * s, sig);
    ZeroChain(p, Times(p, h, s), h * s, sig);
    CanonicalUnique(p, Times(p, h, s), sig);
  }

  lemma RegroupSignature(base: int, s: int, key: int, h: int, sig: int)
    ensures h * (base * s - key) == base * (h * s) - h * key
    ensures sig * base == base * sig
  {
    assert h * (base * s) == base * (h * s);
  }

  /** Signing with the factor between base and key satisfies the equation. */
  lemma SignedEquation(p: Order, h: nat, s: nat, base: nat)
    ensures IsZero(p, h * Times(p, base, s) - Times(p, h, s) * base)
  {
    hide IsZero;
    ZeroIsZero(p);
    ZeroProduct(p, h, h, Times(p, base, s), base * s);
    ZeroProduct(p, Times(p, h, s), h * s, base, base);
    assert h * (base * s) == (h * s) * base;
    ZeroAdd(p, h * Times(p, base, s) - h * (base * s), Times(p, h, s) * base - (h * s) * base);
  }

  /** An honest signature satisfies the equation. */
  lemma HonestSignature(p: Order, hash: Hasher, secret: nat, basePoint: nat, msg: Preimage)
    ensures EqualsZero(p, Verify(p, hash, Sign(p, hash, secret, msg), basePoint, Times(p, basePoint, secret), msg))
  {
    hide IsZero;
    TwoTerms(p, hash(msg), Sign(p, hash, secret, msg), Times(p, basePoint, secret), basePoint);
    SignedEquation(p, hash(msg), secret, basePoint);
  }
}
