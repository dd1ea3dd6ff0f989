/** The provider's side of a channel request (middleware/src/asc.ts) against the enclave's. */
module ProviderTwin {
  import opened Prelude
  import opened ScalarBytes
  import opened AdaptorSig
  import opened Keystream
  import opened VaultTypes
  import opened Channels
  import opened Invariant
  import opened FinalizeRoutes

  /** `canonicalScalarBytes`: reduced, and never zero. */
  function CanonicalSecret(raw: Bytes): (t: nat)
    ensures 0 < t < ORDER
  {
    var t := FromLE(raw) % ORDER;
    if t == 0 then 1 else t
  }

  /** What `generateAscDeliveryArtifact` builds from an expanded key `a`, a derived nonce and a raw secret. */
  ghost function Artifact(k: Crypto, id: Id, rid: Id, amount: nat, hash: Bytes, a: nat, nonce: nat, raw: Bytes, result: Bytes): Delivery
  {
    var t := CanonicalSecret(raw);
    var point := Mul(k.curve, t, k.curve.base);
    Delivery(k.curve.compress(point), PreSign(k.curve, a, nonce, k.message(id, rid, amount, hash), point),
             Xored(k.stream, ScalarToBytes(t), result), k.hash(result), k.curve.compress(Mul(k.curve, a, k.curve.base)))
  }

  /** The scalar 0 is refused by the curve library's multiplication. */
  method GenerateDelivery(k: Crypto, id: Id, rid: Id, amount: nat, hash: Bytes, a: nat, nonce: nat, raw: array<bv8>, result: array<bv8>)
    returns (done: Option<(Delivery, Bytes)>)
    ensures done.None? <==> nonce == 0
    ensures done.Some? ==> done.value == (Artifact(k, id, rid, amount, hash, a, nonce, raw[..], result[..]), ScalarToBytes(CanonicalSecret(raw[..])))
  {
    hide Mul, ToLE, FromLE, Xored;
    var number := BytesToBigIntLE(raw);
    var t := number % ORDER;
    if t == 0 { t := 1; }
    var secret := BigIntToBytesLE(t, 32);
    var point := Mul(k.curve, t, k.curve.base);
    if nonce == 0 { return None; }
    var message := k.message(id, rid, amount, hash);
    var rPrime := Mul(k.curve, nonce, k.curve.base);
    var key := k.curve.compress(Mul(k.curve, a, k.curve.base));
    var challenge := ChallengeHash(k.curve, k.curve.compress(k.curve.add(rPrime, point)), key, message);
    var sPrime := BigIntToBytesLE(nonce + challenge * a, 32);
    var encrypted := KeystreamXor(k.stream, result, secret[..]);
    var pre := PreSignature(k.curve.compress(rPrime), sPrime[..]);
    return Some((Delivery(k.curve.compress(point), pre, encrypted[..], k.hash(result[..]), key), secret[..]));
  }

  /** An honest delivery for the active request passes the enclave's checks, so only a late one is refused. */
  lemma DeliveryAccepted(k: Crypto, v: Vault, id: Id, a: nat, nonce: nat, raw: Bytes, result: Bytes, now: Time)
    requires Lawful(k.curve)
    requires id in v.channels && v.channels[id].channelId == id && v.channels[id].status == Locked && v.channels[id].request.Some?
    ensures var req := v.channels[id].request.value;
      var d := Artifact(k, id, req.requestId, req.amount, req.requestHash, a, nonce, raw, result);
      var done := DeliverAdaptor(k, v, id, d, now);
      && DeliveryVerifies(k, id, req, d)
      && (done.err == None <==> now <= req.expiresAt)
  {
    hide Lawful, Mul, PreSign, PreVerify, Xored, CanonicalSecret, ScalarToBytes;
    var req := v.channels[id].request.value;
    var point := Mul(k.curve, CanonicalSecret(raw), k.curve.base);
    Decompressed(k.curve, point);
    PreSignVerifies(k.curve, a, nonce, k.message(id, req.requestId, req.amount, req.requestHash), point);
  }

  /**
   * From submitted request to paid provider: the delivery is accepted, and the secret it comes with finalizes the
   * request, hands the client exactly the provider's result and moves exactly the request's amount to the provider.
   */
  lemma DeliveryIsPaid(k: Crypto, v: Vault, id: Id, a: nat, nonce: nat, raw: Bytes, result: Bytes, now: Time, later: Time)
    requires Lawful(k.curve) && ChannelsOk(k, v.channels)
    requires id in v.channels && v.channels[id].status == Locked && now <= v.channels[id].request.value.expiresAt
    ensures var req := v.channels[id].request.value;
      var d := Artifact(k, id, req.requestId, req.amount, req.requestHash, a, nonce, raw, result);
      var delivered := DeliverAdaptor(k, v, id, d, now);
      && delivered.err == None
      && var paid := FinalizeOffchain(k, delivered.v, id, ScalarToBytes(CanonicalSecret(raw)), later);
      && paid.Finalized? && paid.plaintext == result && id in paid.v.channels
      && paid.v.channels[id].earned == v.channels[id].earned + req.amount && paid.v.channels[id].free == v.channels[id].free
  {
    hide Lawful, Mul, PreVerify, PreSign, Xored, CanonicalSecret, ScalarToBytes, FromCanonical, SecretOpens;
    assert ChannelOk(k, id, v.channels[id]);
    var req := v.channels[id].request.value;
    var t := CanonicalSecret(raw);
    var d := Artifact(k, id, req.requestId, req.amount, req.requestHash, a, nonce, raw, result);
    DeliveryAccepted(k, v, id, a, nonce, raw, result, now);
    CanonicalRoundTrip(t, []);
    Decompressed(k.curve, Mul(k.curve, t, k.curve.base));
    SecretAccepted(k, id, Delivered(req, d), t);
    XorInvolution(k.stream, ScalarToBytes(t), result);
  }

  /** `adaptAscSignature`: adds the secret without checking that s' is canonical. */
  function AdaptAscSignature(g: Curve, adaptorPoint: Bytes, pre: PreSignature, raw: Bytes): Option<Signature>
  {
    var point := g.decompress(adaptorPoint);
    var rPrime := g.decompress(pre.rPrime);
    if point.None? || rPrime.None? then None
    else Some(Signature(g.compress(g.add(rPrime.value, point.value)), ToLE((FromLE(pre.sPrime) + CanonicalSecret(raw)) % ORDER, 32)))
  }

  /** On deliveries the enclave accepts, the provider computes the signature the enclave would. */
  lemma TwinsAdaptAlike(g: Curve, key: Bytes, message: Bytes, adaptorPoint: Bytes, pre: PreSignature, raw: Bytes)
    requires g.decompress(adaptorPoint).Some? && PreVerify(g, key, message, g.decompress(adaptorPoint).value, pre)
    ensures AdaptAscSignature(g, adaptorPoint, pre, raw) == Adapt(g, pre, CanonicalSecret(raw), g.decompress(adaptorPoint).value)
  {
    hide Mul, ToLE, FromLE, CanonicalSecret;
  }
}
