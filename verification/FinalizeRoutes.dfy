/** The two ways to finalize a pending request, by revealing the secret or by publishing the signature, are one. */
module FinalizeRoutes {
  import opened Prelude
  import opened ScalarBytes
  import opened AdaptorSig
  import opened Keystream
  import opened VaultTypes
  import opened Channels
  import opened Invariant

  /** The signature that a revealed secret turns the pre-signature into. */
  function Published(k: Crypto, req: Request, t: nat): Option<Signature>
  {
    if req.preSig.None? || req.adaptorPoint.None? then None else
      var point := k.curve.decompress(req.adaptorPoint.value);
      if point.None? then None else Adapt(k.curve, req.preSig.value, t, point.value)
  }

  /** Whoever can finalize off-chain with a secret can publish a signature that finalizes on-chain to the same end. */
  lemma OffchainThenOnchain(k: Crypto, v: Vault, id: Id, secret: Bytes, now: Time)
    requires ChannelsOk(k, v.channels)
    requires FinalizeOffchain(k, v, id, secret, now).Finalized?
    ensures var req := v.channels[id].request.value;
      var full := Published(k, req, FromCanonical(secret).value);
      && full.Some?
      && FinalizeOnchain(k, v, id, full.value, now) == FinalizeOffchain(k, v, id, secret, now)
  {
    hide FromCanonical, ScalarToBytes, Mul, VerifyAdapted, Extract, DeliveredOk, FinalizeWithSecret;
    var t := FromCanonical(secret).value;
    CanonicalRoundTrip(t, secret);
    OpenedBy(k, v, id, t, secret, now);
    var req := v.channels[id].request.value;
    assert ChannelOk(k, id, v.channels[id]);
    var point := k.curve.decompress(req.adaptorPoint.value).value;
    ExtractAdapt(k.curve, req.preSig.value, point, t);
    Nonce(k.curve, req.preSig.value, t, point);
  }

  /** A finalized request passed the checks on the secret. */
  lemma OpenedBy(k: Crypto, v: Vault, id: Id, t: nat, secret: Bytes, now: Time)
    requires FinalizeWithSecret(k, v, id, t, secret, now).Finalized?
    ensures id in v.channels && v.channels[id].status == Pending && v.channels[id].request.Some?
    ensures SecretOpens(k, v.channels[id].channelId, v.channels[id].request.value, t)
  {
    hide SecretOpens;
  }

  lemma Nonce(g: Curve, pre: PreSignature, t: nat, point: Point)
    requires Adapt(g, pre, t, point).Some?
    ensures g.decompress(pre.rPrime).Some? && Adapt(g, pre, t, point).value.r == g.compress(g.add(g.decompress(pre.rPrime).value, point))
  {
    hide FromCanonical, ScalarToBytes;
  }

  /** A signature that finalizes on-chain reveals the secret, and that secret finalizes off-chain to the same end. */
  lemma OnchainThenOffchain(k: Crypto, v: Vault, id: Id, full: Signature, now: Time)
    requires FinalizeOnchain(k, v, id, full, now).Finalized?
    ensures var req := v.channels[id].request.value;
      && req.preSig.Some? && Extract(full, req.preSig.value).Some?
      && FinalizeOffchain(k, v, id, ScalarToBytes(Extract(full, req.preSig.value).value), now) == FinalizeOnchain(k, v, id, full, now)
  {
    hide FromCanonical, ScalarToBytes, VerifyAdapted, FinalizeWithSecret;
    var t := Extract(full, v.channels[id].request.value.preSig.value).value;
    CanonicalRoundTrip(t, []);
  }

  // ---- Exactly what each route accepts ----

  ghost predicate ResultMatches(k: Crypto, req: Request, secret: Bytes)
  {
    req.ciphertext.Some? && req.resultHash == Some(k.hash(Xored(k.stream, secret, req.ciphertext.value)))
  }

  /** Every scalar behind the adaptor point opens a pending request. */
  lemma SecretAccepted(k: Crypto, id: Id, req: Request, t: nat)
    requires Lawful(k.curve) && DeliveredOk(k, id, req)
    ensures SecretOpens(k, id, req, t) <==> k.curve.decompress(req.adaptorPoint.value) == Some(Mul(k.curve, t, k.curve.base))
  {
    hide Lawful, PreVerify, VerifyAdapted, Adapt, Mul;
    var point := k.curve.decompress(req.adaptorPoint.value).value;
    if point == Mul(k.curve, t, k.curve.base) {
      AdaptVerifies(k.curve, req.providerKey.value, k.message(id, req.requestId, req.amount, req.requestHash), point, req.preSig.value, t);
    }
  }

  /**
   * In a reachable state a revealed secret finalizes a pending request exactly when it is the discrete logarithm of
   * the adaptor point and decrypts the delivered ciphertext to the committed result.
   */
  lemma OffchainAccepts(k: Crypto, v: Vault, id: Id, secret: Bytes, now: Time)
    requires Lawful(k.curve) && ChannelsOk(k, v.channels)
    requires id in v.channels && v.channels[id].status == Pending
    ensures var req := v.channels[id].request.value;
      var t := FromCanonical(secret);
      FinalizeOffchain(k, v, id, secret, now).Finalized? <==>
        t.Some? && k.curve.decompress(req.adaptorPoint.value) == Some(Mul(k.curve, t.value, k.curve.base)) && ResultMatches(k, req, secret)
  {
    hide Lawful, FromCanonical, Mul, SecretOpens, DeliveryVerifies, Xored;
    assert ChannelOk(k, id, v.channels[id]);
    var req := v.channels[id].request.value;
    var t := FromCanonical(secret);
    if t.Some? { SecretAccepted(k, id, req, t.value); }
  }

  /** Any valid signature on the nonce R' + T is accepted, and what it reveals is the secret behind T. */
  lemma ClaimAccepted(k: Crypto, id: Id, req: Request, full: Signature)
    requires Lawful(k.curve) && DeliveredOk(k, id, req)
    ensures var point := k.curve.decompress(req.adaptorPoint.value).value;
      var rPrime := k.curve.decompress(req.preSig.value.rPrime);
      && rPrime.Some? && k.curve.decompress(req.adaptorPoint.value).Some?
      && (ClaimVerifies(k, id, req, full) <==>
            full.r == k.curve.compress(k.curve.add(rPrime.value, point))
            && VerifyAdapted(k.curve, req.providerKey.value, k.message(id, req.requestId, req.amount, req.requestHash), full))
      && (ClaimVerifies(k, id, req, full) ==>
            Extract(full, req.preSig.value).Some? && Mul(k.curve, Extract(full, req.preSig.value).value, k.curve.base) == point)
  {
    hide Lawful, VerifyAdapted, Mul, Extract, FromCanonical;
    var point := k.curve.decompress(req.adaptorPoint.value).value;
    var message := k.message(id, req.requestId, req.amount, req.requestHash);
    var rPrime := k.curve.decompress(req.preSig.value.rPrime).value;
    if full.r == k.curve.compress(k.curve.add(rPrime, point)) && VerifyAdapted(k.curve, req.providerKey.value, message, full) {
      ExtractRecovers(k.curve, req.providerKey.value, message, point, req.preSig.value, full);
    }
  }

  lemma OnchainAccepts(k: Crypto, v: Vault, id: Id, full: Signature, now: Time)
    requires Lawful(k.curve) && ChannelsOk(k, v.channels)
    requires id in v.channels && v.channels[id].status == Pending
    ensures var req := v.channels[id].request.value;
      FinalizeOnchain(k, v, id, full, now).Finalized? <==>
        ClaimVerifies(k, id, req, full) && ResultMatches(k, req, ScalarToBytes(Extract(full, req.preSig.value).value))
  {
    hide Lawful, Mul, SecretOpens, ClaimVerifies, DeliveryVerifies, Xored, Extract, ScalarToBytes;
    assert ChannelOk(k, id, v.channels[id]);
    var req := v.channels[id].request.value;
    ClaimAccepted(k, id, req, full);
    if ClaimVerifies(k, id, req, full) { SecretAccepted(k, id, req, Extract(full, req.preSig.value).value); }
  }

  /** Only one secret can finalize a pending request, so every successful finalize reveals the same result. */
  lemma OneResult(k: Crypto, v: Vault, id: Id, a: Bytes, b: Bytes, now: Time, later: Time)
    requires Lawful(k.curve)
    requires FinalizeOffchain(k, v, id, a, now).Finalized? && FinalizeOffchain(k, v, id, b, later).Finalized?
    ensures a == b && FinalizeOffchain(k, v, id, a, now).plaintext == FinalizeOffchain(k, v, id, b, later).plaintext
  {
    hide Lawful, FromCanonical, ScalarToBytes, Mul, VerifyAdapted, Xored;
    var s, t := FromCanonical(a).value, FromCanonical(b).value;
    CanonicalRoundTrip(s, a);
    CanonicalRoundTrip(t, b);
    OpenedBy(k, v, id, s, a, now);
    OpenedBy(k, v, id, t, b, later);
    SecretUnique(k.curve, s, t);
  }
}
