/** The channel operations on the mutable vault (enclave/src/asc_manager.rs), each proved against Channels.dfy. */
module ChannelObject {
  import opened Prelude
  import opened ScalarBytes
  import opened AdaptorSig
  import opened Keystream
  import opened VaultTypes
  import opened VaultObject
  import C = Channels
  import Rollbacks

  method OpenChannel(v: VaultState, id: Id, c: Pubkey, provider: Id, deposit: nat, now: Time) returns (err: Option<Error>)
    modifies v`clients, v`channels
    ensures Effect(v.Value(), err) == C.OpenChannel(old(v.Value()), id, c, provider, deposit, now)
  {
    hide L.ReserveBalance;
    if provider !in v.providers { return Some(ProviderNotFound); }
    if c !in v.clients { return Some(InsufficientBalance); }
    if v.clients[c].free < deposit { return Some(InsufficientBalance); }
    var ch := C.NewChannel(id, c, provider, deposit, now);
    Reserves(v.Value(), c, deposit);
    err := v.ReserveBalance(c, deposit);
    v.channels := v.channels[id := ch];
  }

  lemma Reserves(v: Vault, c: Pubkey, amount: nat)
    requires c in v.clients && amount <= v.clients[c].free
    ensures L.ReserveBalance(v, c, amount).err.None?
  {
  }

  method RollbackOpenChannel(v: VaultState, id: Id) returns (err: Option<Error>)
    modifies v`clients, v`channels
    ensures Effect(v.Value(), err) == C.RollbackOpenChannel(old(v.Value()), id)
  {
    hide L.ReleaseBalance;
    if id !in v.channels { return Some(ChannelNotFound); }
    var ch := v.channels[id];
    v.channels := v.channels - {id};
    var total := ch.free + ch.locked + ch.earned;
    if total > 0 { err := v.ReleaseBalance(ch.client, total); } else { err := None; }
  }

  /** Open to Locked: the request's amount is set aside inside the channel. */
  method SubmitRequest(v: VaultState, id: Id, rid: Id, amount: nat, hash: Bytes, now: Time) returns (err: Option<Error>)
    modifies v`channels
    ensures Effect(v.Value(), err) == C.SubmitRequest(old(v.Value()), id, rid, amount, hash, now)
  {
    if id !in v.channels { return Some(ChannelNotFound); }
    var ch := v.channels[id];
    if ch.status != Open { return Some(InvalidChannelStatus); }
    if rid in ch.usedIds { return Some(ChannelRequestIdReused); }
    if ch.free < amount { return Some(InsufficientBalance); }
    ch := ch.(free := ch.free - amount, locked := ch.locked + amount);
    ch := ch.(status := Locked, nonce := ch.nonce + 1, updatedAt := now, usedIds := ch.usedIds + {rid});
    ch := ch.(request := Some(Request(rid, amount, hash, None, None, None, None, None, now, now + C.REQUEST_EXPIRY_SEC)));
    v.channels := v.channels[id := ch];
    return None;
  }

  method RollbackSubmitRequest(v: VaultState, id: Id, rid: Id, now: Time) returns (err: Option<Error>)
    modifies v`channels
    ensures Effect(v.Value(), err) == C.RollbackSubmitRequest(old(v.Value()), id, rid, now)
  {
    if id !in v.channels { return Some(ChannelNotFound); }
    var ch := v.channels[id];
    if ch.request.None? { return Some(ChannelNotFound); }
    if ch.request.value.requestId != rid { return Some(ChannelNotFound); }
    var amount := ch.request.value.amount;
    ch := ch.(locked := SatSub(ch.locked, amount), free := ch.free + amount, status := Open, request := None);
    ch := ch.(nonce := SatSub(ch.nonce, 1), updatedAt := now, usedIds := ch.usedIds - {rid});
    v.channels := v.channels[id := ch];
    return None;
  }

  /** Locked to Pending: the delivered pre-signature must verify. */
  method DeliverAdaptor(k: Crypto, v: VaultState, id: Id, d: Delivery, now: Time) returns (err: Option<Error>)
    modifies v`channels
    ensures Effect(v.Value(), err) == C.DeliverAdaptor(k, old(v.Value()), id, d, now)
  {
    hide PreVerify;
    if id !in v.channels { return Some(ChannelNotFound); }
    var ch := v.channels[id];
    if ch.status != Locked { return Some(InvalidChannelStatus); }
    if ch.request.None? { return Some(ChannelNotFound); }
    var req := ch.request.value;
    if now > req.expiresAt { return Some(ChannelRequestExpired); }
    var point := k.curve.decompress(d.adaptorPoint);
    if point.None? { return Some(InvalidAdaptorSignature); }
    var message := k.message(ch.channelId, req.requestId, req.amount, req.requestHash);
    if !PreVerify(k.curve, d.providerKey, message, point.value, d.preSig) { return Some(InvalidAdaptorSignature); }
    req := req.(providerKey := Some(d.providerKey), adaptorPoint := Some(d.adaptorPoint), preSig := Some(d.preSig));
    req := req.(ciphertext := Some(d.ciphertext), resultHash := Some(d.resultHash));
    ch := ch.(request := Some(req), status := Pending, nonce := ch.nonce + 1, updatedAt := now);
    v.channels := v.channels[id := ch];
    return None;
  }

  method RollbackDeliverAdaptor(v: VaultState, id: Id, rid: Id, now: Time) returns (err: Option<Error>)
    modifies v`channels
    ensures Effect(v.Value(), err) == C.RollbackDeliverAdaptor(old(v.Value()), id, rid, now)
  {
    if id !in v.channels { return Some(ChannelNotFound); }
    var ch := v.channels[id];
    if ch.status != Pending { return Some(InvalidChannelStatus); }
    if ch.request.None? { return Some(ChannelNotFound); }
    var req := ch.request.value;
    if req.requestId != rid { return Some(ChannelNotFound); }
    req := req.(providerKey := None, adaptorPoint := None, preSig := None, ciphertext := None, resultHash := None);
    ch := ch.(request := Some(req), status := Locked, nonce := SatSub(ch.nonce, 1), updatedAt := now);
    v.channels := v.channels[id := ch];
    return None;
  }

  /** Pending to Open: the secret opens the pre-signature and decrypts the result, and the amount is earned. */
  method FinalizeWithSecret(k: Crypto, v: VaultState, id: Id, t: nat, secret: Bytes, now: Time) returns (done: Result)
    modifies v`channels
    ensures Matches(done, v.Value(), C.FinalizeWithSecret(k, old(v.Value()), id, t, secret, now), old(v.Value()))
  {
    hide Mul, Adapt, VerifyAdapted, Xored;
    if id !in v.channels { return Err(ChannelNotFound); }
    var ch := v.channels[id];
    if ch.status != Pending { return Err(InvalidChannelStatus); }
    if ch.request.None? { return Err(ChannelNotFound); }
    var req := ch.request.value;
    if !C.SecretOpens(k, ch.channelId, req, t) { return Err(InvalidAdaptorSignature); }
    if req.ciphertext.None? { return Err(ChannelNotFound); }
    var plaintext := DecryptWithScalar(k.stream, req.ciphertext.value, secret);
    if req.resultHash.Some? && k.hash(plaintext) != req.resultHash.value { return Err(ResultHashMismatch); }
    if ch.locked < req.amount { return Err(InsufficientBalance); }
    ch := ch.(locked := ch.locked - req.amount, earned := ch.earned + req.amount, status := Open, request := None);
    ch := ch.(nonce := ch.nonce + 1, updatedAt := now);
    v.channels := v.channels[id := ch];
    return Done(plaintext, req);
  }

  datatype Result = Done(plaintext: Bytes, request: Request) | Err(error: Error)

  ghost predicate Matches(r: Result, v: Vault, done: C.Finalized, before: Vault)
  {
    match done
    case Finalized(v', plaintext, request) => r == Done(plaintext, request) && v == v'
    case Refused(e) => r == Err(e) && v == before
  }

  method FinalizeOffchain(k: Crypto, v: VaultState, id: Id, secret: Bytes, now: Time) returns (done: Result)
    modifies v`channels
    ensures Matches(done, v.Value(), C.FinalizeOffchain(k, old(v.Value()), id, secret, now), old(v.Value()))
  {
    hide C.FinalizeWithSecret;
    var t := FromCanonical(secret);
    if t.None? { return Err(InvalidAdaptorSignature); }
    done := FinalizeWithSecret(k, v, id, t.value, secret, now);
  }

  method FinalizeOnchain(k: Crypto, v: VaultState, id: Id, full: Signature, now: Time) returns (done: Result)
    modifies v`channels
    ensures Matches(done, v.Value(), C.FinalizeOnchain(k, old(v.Value()), id, full, now), old(v.Value()))
  {
    hide C.FinalizeWithSecret, Extract, VerifyAdapted, ScalarToBytes;
    if id !in v.channels { return Err(ChannelNotFound); }
    var ch := v.channels[id];
    if ch.status != Pending { return Err(InvalidChannelStatus); }
    if ch.request.None? { return Err(ChannelNotFound); }
    if !C.ClaimVerifies(k, id, ch.request.value, full) { return Err(InvalidAdaptorSignature); }
    var t := Extract(full, ch.request.value.preSig.value).value;
    done := FinalizeWithSecret(k, v, id, t, ScalarToBytes(t), now);
  }

  method RollbackFinalize(v: VaultState, id: Id, req: Request, now: Time) returns (err: Option<Error>)
    modifies v`channels
    ensures Effect(v.Value(), err) == C.RollbackFinalize(old(v.Value()), id, req, now)
  {
    if id !in v.channels { return Some(ChannelNotFound); }
    var ch := v.channels[id];
    if ch.status != Open || ch.request.Some? { return Some(InvalidChannelStatus); }
    ch := ch.(locked := ch.locked + req.amount, earned := SatSub(ch.earned, req.amount), status := Pending);
    ch := ch.(request := Some(req), nonce := SatSub(ch.nonce, 1), updatedAt := now);
    v.channels := v.channels[id := ch];
    return None;
  }

  method FinalizeReplayed(v: VaultState, id: Id, rid: Id, amount: nat, now: Time) returns (err: Option<Error>)
    modifies v`channels
    ensures Effect(v.Value(), err) == C.FinalizeReplayed(old(v.Value()), id, rid, amount, now)
  {
    if id !in v.channels { return Some(ChannelNotFound); }
    var ch := v.channels[id];
    if ch.status != Pending { return Some(InvalidChannelStatus); }
    if ch.request.None? { return Some(ChannelNotFound); }
    if ch.request.value.requestId != rid { return Some(ChannelNotFound); }
    if ch.request.value.amount != amount { return Some(ReplayMismatch); }
    ch := ch.(locked := SatSub(ch.locked, amount), earned := ch.earned + amount, status := Open, request := None);
    ch := ch.(nonce := ch.nonce + 1, updatedAt := now);
    v.channels := v.channels[id := ch];
    return None;
  }

  method ExpireRequest(v: VaultState, id: Id, now: Time) returns (err: Option<Error>)
    modifies v`channels
    ensures Effect(v.Value(), err) == C.ExpireRequest(old(v.Value()), id, now)
  {
    if id !in v.channels { return Some(ChannelNotFound); }
    var ch := v.channels[id];
    if ch.status != Locked && ch.status != Pending { return None; }
    if ch.request.None? { return None; }
    var req := ch.request.value;
    if now <= req.expiresAt { return None; }
    ch := ch.(locked := SatSub(ch.locked, req.amount), free := ch.free + req.amount, status := Open, request := None);
    ch := ch.(nonce := ch.nonce + 1, updatedAt := now);
    v.channels := v.channels[id := ch];
    return None;
  }

  method RollbackExpireRequest(v: VaultState, id: Id, status: ChannelStatus, req: Request, now: Time) returns (err: Option<Error>)
    modifies v`channels
    ensures Effect(v.Value(), err) == C.RollbackExpireRequest(old(v.Value()), id, status, req, now)
  {
    if id !in v.channels { return Some(ChannelNotFound); }
    var ch := v.channels[id];
    if ch.status != Open || ch.request.Some? { return Some(InvalidChannelStatus); }
    ch := ch.(free := SatSub(ch.free, req.amount), locked := ch.locked + req.amount, status := status);
    ch := ch.(request := Some(req), nonce := SatSub(ch.nonce, 1), updatedAt := now);
    v.channels := v.channels[id := ch];
    return None;
  }

  method ExpireReplayed(v: VaultState, id: Id, rid: Id, amount: nat, now: Time) returns (err: Option<Error>)
    modifies v`channels
    ensures Effect(v.Value(), err) == C.ExpireReplayed(old(v.Value()), id, rid, amount, now)
  {
    if id !in v.channels { return Some(ChannelNotFound); }
    var ch := v.channels[id];
    if ch.status != Locked && ch.status != Pending { return Some(InvalidChannelStatus); }
    if ch.request.None? { return Some(ChannelNotFound); }
    if ch.request.value.requestId != rid { return Some(ChannelNotFound); }
    if ch.request.value.amount != amount { return Some(ReplayMismatch); }
    ch := ch.(locked := SatSub(ch.locked, amount), free := ch.free + amount, status := Open, request := None);
    ch := ch.(nonce := ch.nonce + 1, updatedAt := now);
    v.channels := v.channels[id := ch];
    return None;
  }

  /** Unspent funds go back to the client, earnings to the provider's credit. */
  method CloseChannel(v: VaultState, id: Id, sid: Id, now: Time) returns (err: Option<Error>)
    modifies v`channels, v`clients, v`credits
    ensures Effect(v.Value(), err) == C.CloseChannel(old(v.Value()), id, sid, now)
  {
    hide C.CreditEarnings;
    if id !in v.channels { return Some(ChannelNotFound); }
    var ch := v.channels[id];
    if ch.status != Open { return Some(InvalidChannelStatus); }
    v.channels := v.channels - {id};
    var total := ch.free + ch.earned;
    if total > 0 {
      if ch.client !in v.clients { return Some(ClientNotFound); }
      var b := v.clients[ch.client];
      v.clients := v.clients[ch.client := b.(locked := SatSub(b.locked, total), free := b.free + ch.free)];
    }
    if ch.earned > 0 { err := CreditEarnings(v, ch.provider, ch.earned, sid, now); } else { err := None; }
  }

  method CreditEarnings(v: VaultState, provider: Id, earned: nat, sid: Id, now: Time) returns (err: Option<Error>)
    modifies v`credits
    ensures Effect(v.Value(), err) == C.CreditEarnings(old(v.Value()), provider, earned, sid, now)
  {
    if provider !in v.providers { return Some(ProviderNotFound); }
    if provider in v.credits {
      var credit := v.credits[provider];
      v.credits := v.credits[provider := credit.(amount := credit.amount + earned, ids := credit.ids + [sid])];
    } else {
      assert [sid] == [] + [sid];
      v.credits := v.credits[provider := Credit(provider, v.providers[provider].account, earned, now, [sid])];
    }
    return None;
  }

  method RollbackCloseChannel(v: VaultState, ch: Channel, previous: Option<Credit>) returns (err: Option<Error>)
    modifies v`channels, v`clients, v`credits
    ensures Effect(v.Value(), err) == C.RollbackCloseChannel(old(v.Value()), ch, previous)
  {
    var total := ch.free + ch.earned;
    if total > 0 {
      if ch.client !in v.clients { return Some(ClientNotFound); }
      Rollbacks.ReopenHolding(v.Value(), ch, previous);
      var b := v.clients[ch.client];
      v.clients := v.clients[ch.client := b.(locked := b.locked + total, free := SatSub(b.free, ch.free))];
    }
    if ch.earned > 0 {
      match previous
      case Some(credit) => v.credits := v.credits[ch.provider := credit];
      case None => v.credits := v.credits - {ch.provider};
    }
    v.channels := v.channels[ch.channelId := ch];
    return None;
  }
}
