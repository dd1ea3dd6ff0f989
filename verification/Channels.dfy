/** The Atomic Service Channel lifecycle (enclave/src/asc_manager.rs) as functions on the vault's value. */
module Channels {
  import opened Prelude
  import opened ScalarBytes
  import opened AdaptorSig
  import opened Keystream
  import opened VaultTypes
  import opened Ledger

  const REQUEST_EXPIRY_SEC: nat := 120

  function WithChannel(v: Vault, id: Id, ch: Channel): Vault { v.(channels := v.channels[id := ch]) }

  function NewChannel(id: Id, c: Pubkey, provider: Id, deposit: nat, now: Time): Channel
  {
    Channel(id, c, provider, deposit, 0, 0, Open, 0, now, now, {}, None)
  }

  function OpenChannel(v: Vault, id: Id, c: Pubkey, provider: Id, deposit: nat, now: Time): Effect
  {
    if provider !in v.providers then Fail(v, ProviderNotFound)
    else if c !in v.clients || v.clients[c].free < deposit then Fail(v, InsufficientBalance)
    else Ok(WithChannel(ReserveBalance(v, c, deposit).v, id, NewChannel(id, c, provider, deposit, now)))
  }

  function RollbackOpenChannel(v: Vault, id: Id): Effect
  {
    if id !in v.channels then Fail(v, ChannelNotFound) else
      var ch := v.channels[id];
      var v1 := v.(channels := v.channels - {id});
      if ChannelTotal(ch) > 0 then ReleaseBalance(v1, ch.client, ChannelTotal(ch)) else Ok(v1)
  }

  function NewRequest(id: Id, amount: nat, hash: Bytes, now: Time): Request
  {
    Request(id, amount, hash, None, None, None, None, None, now, now + REQUEST_EXPIRY_SEC)
  }

  function Submitted(ch: Channel, rid: Id, amount: nat, hash: Bytes, now: Time): Channel
    requires amount <= ch.free
  {
    ch.(free := ch.free - amount, locked := ch.locked + amount, status := Locked, nonce := ch.nonce + 1,
        updatedAt := now, usedIds := ch.usedIds + {rid}, request := Some(NewRequest(rid, amount, hash, now)))
  }

  function SubmitRequest(v: Vault, id: Id, rid: Id, amount: nat, hash: Bytes, now: Time): Effect
  {
    if id !in v.channels then Fail(v, ChannelNotFound) else
      var ch := v.channels[id];
      if ch.status != Open then Fail(v, InvalidChannelStatus)
      else if rid in ch.usedIds then Fail(v, ChannelRequestIdReused)
      else if ch.free < amount then Fail(v, InsufficientBalance)
      else Ok(WithChannel(v, id, Submitted(ch, rid, amount, hash, now)))
  }

  function RollbackSubmitRequest(v: Vault, id: Id, rid: Id, now: Time): Effect
  {
    if id !in v.channels || v.channels[id].request.None? || v.channels[id].request.value.requestId != rid
    then Fail(v, ChannelNotFound) else
      var ch := v.channels[id];
      var amount := ch.request.value.amount;
      Ok(WithChannel(v, id,
        ch.(locked := SatSub(ch.locked, amount), free := ch.free + amount, status := Open, request := None,
            nonce := SatSub(ch.nonce, 1), updatedAt := now, usedIds := ch.usedIds - {rid})))
  }

  /** The delivered pre-signature decompresses and verifies for this channel's request. */
  predicate DeliveryVerifies(k: Crypto, id: Id, req: Request, d: Delivery)
  {
    var point := k.curve.decompress(d.adaptorPoint);
    && point.Some?
    && PreVerify(k.curve, d.providerKey, k.message(id, req.requestId, req.amount, req.requestHash), point.value, d.preSig)
  }

  function Delivered(req: Request, d: Delivery): Request
  {
    req.(providerKey := Some(d.providerKey), adaptorPoint := Some(d.adaptorPoint), preSig := Some(d.preSig),
         ciphertext := Some(d.ciphertext), resultHash := Some(d.resultHash))
  }

  function DeliverAdaptor(k: Crypto, v: Vault, id: Id, d: Delivery, now: Time): Effect
  {
    if id !in v.channels then Fail(v, ChannelNotFound) else
      var ch := v.channels[id];
      if ch.status != Locked then Fail(v, InvalidChannelStatus)
      else if ch.request.None? then Fail(v, ChannelNotFound)
      else if now > ch.request.value.expiresAt then Fail(v, ChannelRequestExpired)
      else if !DeliveryVerifies(k, ch.channelId, ch.request.value, d) then Fail(v, InvalidAdaptorSignature)
      else Ok(WithChannel(v, id,
        ch.(request := Some(Delivered(ch.request.value, d)), status := Pending, nonce := ch.nonce + 1, updatedAt := now)))
  }

  function Undelivered(req: Request): Request
  {
    req.(providerKey := None, adaptorPoint := None, preSig := None, ciphertext := None, resultHash := None)
  }

  function RollbackDeliverAdaptor(v: Vault, id: Id, rid: Id, now: Time): Effect
  {
    if id !in v.channels then Fail(v, ChannelNotFound) else
      var ch := v.channels[id];
      if ch.status != Pending then Fail(v, InvalidChannelStatus)
      else if ch.request.None? || ch.request.value.requestId != rid then Fail(v, ChannelNotFound)
      else Ok(WithChannel(v, id,
        ch.(request := Some(Undelivered(ch.request.value)), status := Locked, nonce := SatSub(ch.nonce, 1), updatedAt := now)))
  }

  // ---- Finalizing ----

  /** What a finalize step produces: the new state, the decrypted result and the request it settled. */
  datatype Finalized = Finalized(v: Vault, plaintext: Bytes, request: Request) | Refused(err: Error)

  function Paid(ch: Channel, amount: nat, now: Time): Channel
    requires amount <= ch.locked
  {
    ch.(locked := ch.locked - amount, earned := ch.earned + amount, status := Open, request := None,
        nonce := ch.nonce + 1, updatedAt := now)
  }

  /** The checks of `finalize_with_secret` that do not involve the result. */
  predicate SecretOpens(k: Crypto, id: Id, req: Request, t: nat)
  {
    && req.preSig.Some? && req.adaptorPoint.Some? && req.providerKey.Some?
    && var point := k.curve.decompress(req.adaptorPoint.value);
    && point.Some?
    && point.value == Mul(k.curve, t, k.curve.base)
    && var full := Adapt(k.curve, req.preSig.value, t, point.value);
    && full.Some?
    && VerifyAdapted(k.curve, req.providerKey.value, k.message(id, req.requestId, req.amount, req.requestHash), full.value)
  }

  ghost function FinalizeWithSecret(k: Crypto, v: Vault, id: Id, t: nat, secret: Bytes, now: Time): Finalized
  {
    if id !in v.channels then Refused(ChannelNotFound) else
      var ch := v.channels[id];
      if ch.status != Pending then Refused(InvalidChannelStatus)
      else if ch.request.None? then Refused(ChannelNotFound)
      else
        var req := ch.request.value;
        if !SecretOpens(k, ch.channelId, req, t) then Refused(InvalidAdaptorSignature)
        else if req.ciphertext.None? then Refused(ChannelNotFound)
        else
          var plaintext := Xored(k.stream, secret, req.ciphertext.value);
          if req.resultHash.Some? && k.hash(plaintext) != req.resultHash.value then Refused(ResultHashMismatch)
          else if ch.locked < req.amount then Refused(InsufficientBalance) // the source would panic on underflow
          else Finalized(WithChannel(v, id, Paid(ch, req.amount, now)), plaintext, req)
  }

  ghost function FinalizeOffchain(k: Crypto, v: Vault, id: Id, secret: Bytes, now: Time): Finalized
  {
    var t := FromCanonical(secret);
    if t.None? then Refused(InvalidAdaptorSignature) else FinalizeWithSecret(k, v, id, t.value, secret, now)
  }

  /** A published signature for a pending request: the right nonce, and valid. */
  predicate ClaimVerifies(k: Crypto, id: Id, req: Request, full: Signature)
  {
    && req.preSig.Some? && req.adaptorPoint.Some? && req.providerKey.Some?
    && var point := k.curve.decompress(req.adaptorPoint.value);
    var rPrime := k.curve.decompress(req.preSig.value.rPrime);
    && point.Some? && rPrime.Some?
    && Extract(full, req.preSig.value).Some?
    && full.r == k.curve.compress(k.curve.add(rPrime.value, point.value))
    && VerifyAdapted(k.curve, req.providerKey.value, k.message(id, req.requestId, req.amount, req.requestHash), full)
  }

  ghost function FinalizeOnchain(k: Crypto, v: Vault, id: Id, full: Signature, now: Time): Finalized
  {
    if id !in v.channels then Refused(ChannelNotFound) else
      var ch := v.channels[id];
      if ch.status != Pending then Refused(InvalidChannelStatus)
      else if ch.request.None? then Refused(ChannelNotFound)
      else if !ClaimVerifies(k, id, ch.request.value, full) then Refused(InvalidAdaptorSignature)
      else
        var t := Extract(full, ch.request.value.preSig.value).value;
        FinalizeWithSecret(k, v, id, t, ScalarToBytes(t), now)
  }

  function RollbackFinalize(v: Vault, id: Id, req: Request, now: Time): Effect
  {
    if id !in v.channels then Fail(v, ChannelNotFound) else
      var ch := v.channels[id];
      if ch.status != Open || ch.request.Some? then Fail(v, InvalidChannelStatus)
      else Ok(WithChannel(v, id,
        ch.(locked := ch.locked + req.amount, earned := SatSub(ch.earned, req.amount), status := Pending,
            request := Some(req), nonce := SatSub(ch.nonce, 1), updatedAt := now)))
  }

  function FinalizeReplayed(v: Vault, id: Id, rid: Id, amount: nat, now: Time): Effect
  {
    if id !in v.channels then Fail(v, ChannelNotFound) else
      var ch := v.channels[id];
      if ch.status != Pending then Fail(v, InvalidChannelStatus)
      else if ch.request.None? || ch.request.value.requestId != rid then Fail(v, ChannelNotFound)
      else if ch.request.value.amount != amount then Fail(v, ReplayMismatch)
      else Ok(WithChannel(v, id,
        ch.(locked := SatSub(ch.locked, amount), earned := ch.earned + amount, status := Open, request := None,
            nonce := ch.nonce + 1, updatedAt := now)))
  }

  // ---- Expiry ----

  function Released(ch: Channel, amount: nat, now: Time): Channel
  {
    ch.(locked := SatSub(ch.locked, amount), free := ch.free + amount, status := Open, request := None,
        nonce := ch.nonce + 1, updatedAt := now)
  }

  predicate Stale(ch: Channel, now: Time)
  {
    ch.status != Open && ch.request.Some? && now > ch.request.value.expiresAt
  }

  /** `None` of the source's result when nothing has expired: the state is unchanged. */
  function ExpireRequest(v: Vault, id: Id, now: Time): Effect
  {
    if id !in v.channels then Fail(v, ChannelNotFound)
    else if !Stale(v.channels[id], now) then Ok(v)
    else Ok(WithChannel(v, id, Released(v.channels[id], v.channels[id].request.value.amount, now)))
  }

  function RollbackExpireRequest(v: Vault, id: Id, status: ChannelStatus, req: Request, now: Time): Effect
  {
    if id !in v.channels then Fail(v, ChannelNotFound) else
      var ch := v.channels[id];
      if ch.status != Open || ch.request.Some? then Fail(v, InvalidChannelStatus)
      else Ok(WithChannel(v, id,
        ch.(free := SatSub(ch.free, req.amount), locked := ch.locked + req.amount, status := status,
            request := Some(req), nonce := SatSub(ch.nonce, 1), updatedAt := now)))
  }

  function ExpireReplayed(v: Vault, id: Id, rid: Id, amount: nat, now: Time): Effect
  {
    if id !in v.channels then Fail(v, ChannelNotFound) else
      var ch := v.channels[id];
      if ch.status == Open then Fail(v, InvalidChannelStatus)
      else if ch.request.None? || ch.request.value.requestId != rid then Fail(v, ChannelNotFound)
      else if ch.request.value.amount != amount then Fail(v, ReplayMismatch)
      else Ok(WithChannel(v, id, Released(ch, amount, now)))
  }

  // ---- Closing ----

  /** Adds a closed channel's earnings to the provider's credit. */
  function CreditEarnings(v: Vault, provider: Id, earned: nat, sid: Id, now: Time): Effect
  {
    if provider !in v.providers then Fail(v, ProviderNotFound)
    else Ok(v.(credits := v.credits[provider := CreditedWith(v, provider, earned, sid, now)]))
  }

  /** Closing pays the client first and credits the provider last; each lookup can fail with the earlier part done. */
  function CloseChannel(v: Vault, id: Id, sid: Id, now: Time): Effect
  {
    if id !in v.channels then Fail(v, ChannelNotFound) else
      var ch := v.channels[id];
      if ch.status != Open then Fail(v, InvalidChannelStatus) else
        var v1 := v.(channels := v.channels - {id});
        var total := ch.free + ch.earned;
        if total > 0 && ch.client !in v.clients then Fail(v1, ClientNotFound) else
          var v2 := if total > 0
                    then var b := v.clients[ch.client];
                         WithBalance(v1, ch.client, b.(locked := SatSub(b.locked, total), free := b.free + ch.free))
                    else v1;
          if ch.earned > 0 then CreditEarnings(v2, ch.provider, ch.earned, sid, now) else Ok(v2)
  }

  function RollbackCloseChannel(v: Vault, ch: Channel, previous: Option<Credit>): Effect
  {
    var total := ch.free + ch.earned;
    if total > 0 && ch.client !in v.clients then Fail(v, ClientNotFound) else
      var v1 := if total > 0
                then var b := v.clients[ch.client];
                     WithBalance(v, ch.client, b.(locked := b.locked + total, free := SatSub(b.free, ch.free)))
                else v;
      var v2 := if ch.earned == 0 then v1
                else if previous.Some? then v1.(credits := v1.credits[ch.provider := previous.value])
                else v1.(credits := v1.credits - {ch.provider});
      Ok(WithChannel(v2, ch.channelId, ch))
  }
}
