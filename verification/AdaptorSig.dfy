/**
 * Ed25519 adaptor signatures (enclave/src/adaptor_sig.rs) over any abelian group whose base point has the
 * order of Ed25519's. Hashing and point compression are parameters; scalar multiplication is repeated addition.
 */
module AdaptorSig {
  import opened Prelude
  import opened ScalarBytes

  datatype Point = Point(tag: int)

  datatype Curve = Curve(
    zero: Point,
    base: Point,
    add: (Point, Point) -> Point,
    neg: Point -> Point,
    compress: Point -> Bytes,
    decompress: Bytes -> Option<Point>,
    challenge: (Bytes, Bytes, Bytes) -> nat)

  function Mul(g: Curve, k: nat, p: Point): Point
  {
    if k == 0 then g.zero else g.add(p, Mul(g, k - 1, p))
  }

  /** Marks the points at which a law is used, so that the solver applies laws only where a proof names them. */
  ghost predicate At(a: Point) { true }

  ghost predicate AbelianGroup(g: Curve)
  {
    && (forall a, b {:trigger At(a), At(b)} :: g.add(a, b) == g.add(b, a))
    && (forall a, b, c {:trigger At(a), At(b), At(c)} :: g.add(g.add(a, b), c) == g.add(a, g.add(b, c)))
    && (forall a {:trigger At(a)} :: g.add(a, g.zero) == a)
    && (forall a {:trigger At(a)} :: g.add(a, g.neg(a)) == g.zero)
  }

  /** The group laws, the order of the base point, and `decompress` inverting `compress`. */
  ghost predicate Lawful(g: Curve)
  {
    && AbelianGroup(g)
    && Mul(g, ORDER, g.base) == g.zero
    && (forall k: nat :: 0 < k < ORDER ==> Mul(g, k, g.base) != g.zero)
    && (forall p :: g.decompress(g.compress(p)) == Some(p))
  }

  datatype PreSignature = PreSignature(rPrime: Bytes, sPrime: Bytes)
  datatype Signature = Signature(r: Bytes, s: Bytes)

  function ChallengeHash(g: Curve, r: Bytes, key: Bytes, message: Bytes): nat
  {
    g.challenge(r, key, message) % ORDER
  }

  /** enclave/src/adaptor_sig.rs `pre_sign` for an expanded secret key `a` and derived nonce `r`. */
  function PreSign(g: Curve, a: nat, r: nat, message: Bytes, adaptor: Point): PreSignature
  {
    var key := g.compress(Mul(g, a, g.base));
    var rPoint := Mul(g, r, g.base);
    var c := ChallengeHash(g, g.compress(g.add(rPoint, adaptor)), key, message);
    PreSignature(g.compress(rPoint), ScalarToBytes((r + c * a) % ORDER))
  }

  predicate PreVerify(g: Curve, key: Bytes, message: Bytes, adaptor: Point, pre: PreSignature)
  {
    var rPrime := g.decompress(pre.rPrime);
    var keyPoint := g.decompress(key);
    var sPrime := FromCanonical(pre.sPrime);
    && rPrime.Some? && keyPoint.Some? && sPrime.Some?
    && var c := ChallengeHash(g, g.compress(g.add(rPrime.value, adaptor)), key, message);
    Mul(g, sPrime.value, g.base) == g.add(rPrime.value, Mul(g, c, keyPoint.value))
  }

  function Adapt(g: Curve, pre: PreSignature, secret: nat, adaptor: Point): Option<Signature>
  {
    var rPrime := g.decompress(pre.rPrime);
    var sPrime := FromCanonical(pre.sPrime);
    if rPrime.None? || sPrime.None? then None else
      Some(Signature(g.compress(g.add(rPrime.value, adaptor)), ScalarToBytes((sPrime.value + secret) % ORDER)))
  }

  function Extract(full: Signature, pre: PreSignature): Option<nat>
  {
    var s := FromCanonical(full.s);
    var sPrime := FromCanonical(pre.sPrime);
    if s.None? || sPrime.None? then None else Some((s.value - sPrime.value) % ORDER)
  }

  /** Verification as in section 5.1.7 of RFC 8032, without the cofactor. */
  predicate VerifyAdapted(g: Curve, key: Bytes, message: Bytes, sig: Signature)
  {
    var r := g.decompress(sig.r);
    var keyPoint := g.decompress(key);
    var s := FromCanonical(sig.s);
    && r.Some? && keyPoint.Some? && s.Some?
    && var c := ChallengeHash(g, sig.r, key, message);
    Mul(g, s.value, g.base) == g.add(r.value, Mul(g, c, keyPoint.value))
  }

  // ---- Group facts ----

  lemma Comm(g: Curve, a: Point, b: Point)
    requires AbelianGroup(g)
    ensures g.add(a, b) == g.add(b, a)
  {
    assert At(a) && At(b);
  }

  lemma Assoc(g: Curve, a: Point, b: Point, c: Point)
    requires AbelianGroup(g)
    ensures g.add(g.add(a, b), c) == g.add(a, g.add(b, c))
  {
    assert At(a) && At(b) && At(c);
  }

  lemma Units(g: Curve, a: Point)
    requires AbelianGroup(g)
    ensures g.add(a, g.zero) == a == g.add(g.zero, a)
    ensures g.add(a, g.neg(a)) == g.zero
  {
    assert At(a) && At(g.zero);
  }

  lemma Cancel(g: Curve, a: Point, b: Point, c: Point)
    requires AbelianGroup(g)
    requires g.add(a, c) == g.add(b, c)
    ensures a == b
  {
    Assoc(g, a, c, g.neg(c));
    Assoc(g, b, c, g.neg(c));
    Units(g, a);
    Units(g, b);
    Units(g, c);
  }

  lemma {:induction false} MulAdd(g: Curve, j: nat, k: nat, p: Point)
    requires AbelianGroup(g)
    ensures Mul(g, j + k, p) == g.add(Mul(g, j, p), Mul(g, k, p))
  {
    if j == 0 {
      Units(g, Mul(g, k, p));
    } else {
      MulAdd(g, j - 1, k, p);
      Assoc(g, p, Mul(g, j - 1, p), Mul(g, k, p));
    }
  }

  lemma {:induction false} MulMul(g: Curve, j: nat, k: nat, p: Point)
    requires AbelianGroup(g)
    ensures Mul(g, j * k, p) == Mul(g, j, Mul(g, k, p))
  {
    if j != 0 {
      var less := (j - 1) * k;
      assert j * k == k + less;
      MulMul(g, j - 1, k, p);
      MulAdd(g, k, less, p);
    }
  }

  lemma {:induction false} MulZero(g: Curve, k: nat)
    requires AbelianGroup(g)
    ensures Mul(g, k, g.zero) == g.zero
  {
    if k != 0 {
      MulZero(g, k - 1);
      Units(g, g.zero);
    }
  }

  /** Adding whole turns of an element of order `l` changes nothing. */
  lemma MulTurns(g: Curve, q: nat, l: nat, k: nat, p: Point)
    requires AbelianGroup(g) && Mul(g, l, p) == g.zero
    ensures Mul(g, q * l + k, p) == Mul(g, k, p)
  {
    MulAdd(g, q * l, k, p);
    MulMul(g, q, l, p);
    MulZero(g, q);
    Units(g, Mul(g, k, p));
  }

  /** Scalars act on the base point modulo its order. */
  lemma MulReduce(g: Curve, k: nat)
    requires Lawful(g)
    ensures Mul(g, k % ORDER, g.base) == Mul(g, k, g.base)
  {
    MulTurns(g, k / ORDER, ORDER, k % ORDER, g.base);
  }

  /** Two reduced scalars with the same multiple of the base point are equal. */
  lemma BaseInjective(g: Curve, j: nat, k: nat)
    requires Lawful(g) && k <= j < ORDER
    requires Mul(g, j, g.base) == Mul(g, k, g.base)
    ensures j == k
  {
    MulAdd(g, j - k, k, g.base);
    Units(g, Mul(g, k, g.base));
    Cancel(g, Mul(g, j - k, g.base), g.zero, Mul(g, k, g.base));
  }

  lemma SecretUnique(g: Curve, j: nat, k: nat)
    requires Lawful(g) && j < ORDER && k < ORDER
    requires Mul(g, j, g.base) == Mul(g, k, g.base)
    ensures j == k
  {
    if k <= j { BaseInjective(g, j, k); } else { BaseInjective(g, k, j); }
  }

  // ---- The exchange ----

  lemma EncodedScalar(x: int)
    ensures FromCanonical(ScalarToBytes(x % ORDER)) == Some(x % ORDER)
  {
    CanonicalRoundTrip(x % ORDER, []);
  }

  /** s·G for s = r + c·a, however s is reduced. */
  lemma ResponseEquation(g: Curve, r: nat, c: nat, a: nat)
    requires Lawful(g)
    ensures Mul(g, (r + c * a) % ORDER, g.base) == g.add(Mul(g, r, g.base), Mul(g, c, Mul(g, a, g.base)))
  {
    var ca := c * a;
    MulReduce(g, r + ca);
    MulAdd(g, r, ca, g.base);
    MulMul(g, c, a, g.base);
  }

  lemma Decompressed(g: Curve, p: Point)
    requires Lawful(g)
    ensures g.decompress(g.compress(p)) == Some(p)
  {
  }

  /** An honestly made pre-signature passes `PreVerify`, whatever the adaptor point. */
  lemma PreSignVerifies(g: Curve, a: nat, r: nat, message: Bytes, adaptor: Point)
    requires Lawful(g)
    ensures PreVerify(g, g.compress(Mul(g, a, g.base)), message, adaptor, PreSign(g, a, r, message, adaptor))
  {
    hide FromCanonical, ScalarToBytes, Mul;
    var keyPoint := Mul(g, a, g.base);
    var rPoint := Mul(g, r, g.base);
    Decompressed(g, keyPoint);
    Decompressed(g, rPoint);
    var c := ChallengeHash(g, g.compress(g.add(rPoint, adaptor)), g.compress(keyPoint), message);
    EncodedScalar(r + c * a);
    ResponseEquation(g, r, c, a);
  }

  /** (x + y) + z == (x + z) + y, the rearrangement both directions rest on. */
  lemma Swap(g: Curve, x: Point, y: Point, z: Point)
    requires AbelianGroup(g)
    ensures g.add(g.add(x, y), z) == g.add(g.add(x, z), y)
  {
    Assoc(g, x, y, z);
    Comm(g, y, z);
    Assoc(g, x, z, y);
  }

  /** The secret behind the adaptor point turns a verified pre-signature into a valid signature. */
  lemma AdaptVerifies(g: Curve, key: Bytes, message: Bytes, adaptor: Point, pre: PreSignature, t: nat)
    requires Lawful(g)
    requires PreVerify(g, key, message, adaptor, pre)
    requires Mul(g, t, g.base) == adaptor
    ensures Adapt(g, pre, t, adaptor).Some?
    ensures VerifyAdapted(g, key, message, Adapt(g, pre, t, adaptor).value)
  {
    hide FromCanonical, ScalarToBytes, Mul;
    var rPrime, keyPoint := g.decompress(pre.rPrime).value, g.decompress(key).value;
    var sPrime := FromCanonical(pre.sPrime).value;
    Decompressed(g, g.add(rPrime, adaptor));
    EncodedScalar(sPrime + t);
    ShiftedResponse(g, sPrime, t);
    var c := ChallengeHash(g, g.compress(g.add(rPrime, adaptor)), key, message);
    Swap(g, rPrime, Mul(g, c, keyPoint), adaptor);
  }

  lemma ShiftedResponse(g: Curve, sPrime: nat, t: nat)
    requires Lawful(g)
    ensures Mul(g, (sPrime + t) % ORDER, g.base) == g.add(Mul(g, sPrime, g.base), Mul(g, t, g.base))
  {
    MulReduce(g, sPrime + t);
    MulAdd(g, sPrime, t, g.base);
  }

  /** A valid signature on nonce R' + T reveals the secret behind T, reduced and unique. */
  lemma ExtractRecovers(g: Curve, key: Bytes, message: Bytes, adaptor: Point, pre: PreSignature, full: Signature)
    requires Lawful(g)
    requires PreVerify(g, key, message, adaptor, pre)
    requires full.r == g.compress(g.add(g.decompress(pre.rPrime).value, adaptor))
    requires VerifyAdapted(g, key, message, full)
    ensures Extract(full, pre).Some? && Extract(full, pre).value < ORDER
    ensures Mul(g, Extract(full, pre).value, g.base) == adaptor
  {
    var rPrime, keyPoint := g.decompress(pre.rPrime).value, g.decompress(key).value;
    var s, sPrime := FromCanonical(full.s).value, FromCanonical(pre.sPrime).value;
    var c := ChallengeHash(g, full.r, key, message);
    assert g.decompress(full.r) == Some(g.add(rPrime, adaptor));
    Swap(g, rPrime, adaptor, Mul(g, c, keyPoint));
    // s·G == s'·G + T, and s'·G + t·G == s·G, so t·G == T.
    var t := Extract(full, pre).value;
    assert Mul(g, s, g.base) == g.add(Mul(g, sPrime, g.base), adaptor);
    ExtractShift(s, sPrime);
    MulReduce(g, sPrime + t);
    MulAdd(g, sPrime, t, g.base);
    Comm(g, Mul(g, sPrime, g.base), adaptor);
    Comm(g, Mul(g, sPrime, g.base), Mul(g, t, g.base));
    Cancel(g, Mul(g, t, g.base), adaptor, Mul(g, sPrime, g.base));
  }

  lemma ExtractShift(s: nat, sPrime: nat)
    requires s < ORDER && sPrime < ORDER
    ensures (sPrime + (s - sPrime) % ORDER) % ORDER == s
  {
    if s < sPrime { assert (s - sPrime) % ORDER == s - sPrime + ORDER; }
  }

  lemma AdaptShift(sPrime: nat, t: nat)
    requires sPrime < ORDER && t < ORDER
    ensures ((sPrime + t) % ORDER - sPrime) % ORDER == t
  {
    if sPrime + t < ORDER {
      assert (sPrime + t) % ORDER == sPrime + t;
    } else {
      assert (sPrime + t) % ORDER == sPrime + t - ORDER;
      assert (t - ORDER) % ORDER == t;
    }
  }

  /** Extracting from an adapted signature gives back exactly the secret used to adapt. */
  lemma ExtractAdapt(g: Curve, pre: PreSignature, adaptor: Point, t: nat)
    requires t < ORDER
    requires Adapt(g, pre, t, adaptor).Some?
    ensures Extract(Adapt(g, pre, t, adaptor).value, pre) == Some(t)
  {
    hide FromCanonical, ScalarToBytes, Adapt, Extract;
    AdaptShape(g, pre, t, adaptor);
    var sPrime := FromCanonical(pre.sPrime).value;
    assert sPrime < ORDER by { CanonicalRoundTrip(0, pre.sPrime); }
    EncodedScalar(sPrime + t);
    ExtractShape(Adapt(g, pre, t, adaptor).value, pre, (sPrime + t) % ORDER, sPrime);
    AdaptShift(sPrime, t);
  }

  lemma AdaptShape(g: Curve, pre: PreSignature, t: nat, adaptor: Point)
    requires Adapt(g, pre, t, adaptor).Some?
    ensures FromCanonical(pre.sPrime).Some?
    ensures Adapt(g, pre, t, adaptor).value.s == ScalarToBytes((FromCanonical(pre.sPrime).value + t) % ORDER)
  {
    hide FromCanonical, ScalarToBytes;
  }

  lemma ExtractShape(full: Signature, pre: PreSignature, s: nat, sPrime: nat)
    requires FromCanonical(full.s) == Some(s) && FromCanonical(pre.sPrime) == Some(sPrime)
    ensures Extract(full, pre) == Some((s - sPrime) % ORDER)
  {
    hide FromCanonical;
  }
}
