/** Log replay (enclave/src/wal.rs) and when a recovered vault stands for a live one. */
module Replay {
  import opened Prelude
  import opened Sums
  import opened VaultTypes
  import opened Ledger
  import opened Channels
  import opened Steps

  /** What replay reads from its surroundings for one entry: the clock, and a UUID for an old close entry. */
  datatype Env = Env(now: Time, uuid: Id)

  function ReplayProcessed(v: Vault, signature: Id, slot: nat): Vault
  {
    v.(processed := v.processed + {signature}, lastSignature := Some(signature), lastSlot := Max(v.lastSlot, slot))
  }

  function RaiseWithdrawNonce(v: Vault, n: nat): Vault { v.(withdrawNonce := Max(v.withdrawNonce, n + 1)) }

  ghost function ReplayWithdrawApplied(v: Vault, c: Pubkey, recipient: Pubkey, amount: nat, nonce: nat, expiresAt: Time,
                                       slot: nat, signature: Id): Effect
  {
    var done := ApplyWithdrawal(v, nonce);
    if done.err.Some? then done
    else if !Matches(v.withdrawals[nonce], c, recipient, amount, expiresAt) then Fail(done.v, ReplayMismatch)
    else Refresh(RaiseWithdrawNonce(ReplayProcessed(done.v, signature, slot), nonce), c)
  }

  /** Ends a reservation; only one that is still reserved gives its funds back. */
  function ReplayEnd(v: Vault, vid: Id, status: ReservationStatus): Effect
  {
    if vid !in v.reservations then Fail(v, ReservationNotFound) else
      var r := v.reservations[vid];
      var v1 := WithStatus(v, vid, r.(status := status));
      if r.status == Reserved then ReleaseBalance(v1, r.client, r.amount) else Ok(v1)
  }

  function ReplaySettlement(v: Vault, sid: Id, vid: Id, provider: Id, amount: nat, settledAt: Option<Time>): Effect
  {
    if vid !in v.reservations then Fail(v, ReservationNotFound) else
      var r := v.reservations[vid];
      if r.provider != provider || r.amount != amount then Fail(v, ReplayMismatch) else
        var at := if settledAt.Some? then settledAt.value else r.createdAt;
        var v1 := if r.status == Reserved then WithStatus(v, vid, AsSettled(r, sid, at)) else v;
        var done := SettlePayment(v1, r.client, r.amount, provider, sid, at);
        if done.err.Some? then done else Ok(Record(done.v, sid, r.client, provider, amount, at))
  }

  function ReplayDeposit(v: Vault, c: Pubkey, amount: nat, slot: nat, signature: Id): Effect
  {
    Ok(ReplayProcessed(ApplyDeposit(v, c, amount), signature, slot))
  }

  ghost function ReplayAuthorized(v: Vault, w: Withdrawal): Effect
  {
    var done := AuthorizeWithdrawal(v, w);
    if done.err.Some? then done else Refresh(RaiseWithdrawNonce(done.v, w.nonce), w.client)
  }

  ghost function ReplayWithdrawExpired(v: Vault, c: Pubkey, nonce: nat): Effect
  {
    var done := ExpireWithdrawal(v, nonce);
    if done.err.Some? then done
    else if v.withdrawals[nonce].client != c then Fail(done.v, ReplayMismatch)
    else Refresh(done.v, c)
  }

  function ReplayReservation(v: Vault, vid: Id, payment: Id, c: Pubkey, provider: Id, amount: nat,
                             detail: Option<ReservationDetail>): Effect
  {
    if detail.None? then Fail(v, LegacyEntry) else
      var done := ReserveBalance(v, c, amount);
      if done.err.Some? then done
      else Ok(WithReservation(done.v, NewReservation(vid, payment, c, provider, amount, detail.value)))
  }

  ghost function ReplayEntry(k: Crypto, v: Vault, e: Entry, env: Env): Effect
  {
    match e
    case DepositApplied(c, amount, slot, signature) => ReplayDeposit(v, c, amount, slot, signature)
    case WithdrawAuthorized(w) => ReplayAuthorized(v, w)
    case WithdrawApplied(c, recipient, amount, nonce, expiresAt, slot, signature) =>
      ReplayWithdrawApplied(v, c, recipient, amount, nonce, expiresAt, slot, signature)
    case WithdrawExpired(c, nonce) => ReplayWithdrawExpired(v, c, nonce)
    case ReservationCreated(vid, payment, c, provider, amount, detail) =>
      ReplayReservation(v, vid, payment, c, provider, amount, detail)
    case ReservationCancelled(vid) => ReplayEnd(v, vid, Cancelled)
    case ReservationExpiredEntry(vid) => ReplayEnd(v, vid, Expired)
    case SettlementCommitted(sid, vid, provider, amount, settledAt) => ReplaySettlement(v, sid, vid, provider, amount, settledAt)
    case ReceiptIssued(n) => Ok(v.(receiptNonce := Max(v.receiptNonce, n + 1)))
    case ReceiptMirrored(n) => Ok(v.(receiptNonce := Max(v.receiptNonce, n + 1)))
    case ProviderRegistered(p) => Ok(v.(providers := v.providers[p.providerId := p]))
    case BatchSubmitted(_) => Ok(v)
    case BatchConfirmed(batchId, signature, sids) => Ok(ApplyBatchConfirmation(v, sids, batchId, signature))
    case ChannelOpened(id, c, provider, deposit) => OpenChannel(v, id, c, provider, deposit, env.now)
    case RequestSubmitted(id, rid, amount, hash) =>
      if hash.None? then Fail(v, LegacyEntry) else SubmitRequest(v, id, rid, amount, hash.value, env.now)
    case RequestExpired(id, rid, amount) => ExpireReplayed(v, id, rid, amount, env.now)
    case AdaptorDelivered(id, _, delivery) =>
      if delivery.None? then Fail(v, LegacyEntry) else DeliverAdaptor(k, v, id, delivery.value, env.now)
    case ChannelFinalized(id, rid, amount) => FinalizeReplayed(v, id, rid, amount, env.now)
    case ChannelClosed(id, _, _, closeId) =>
      CloseChannel(v, id, if closeId.Some? then closeId.value else env.uuid, env.now)
  }

  predicate ChannelEntry(e: Entry)
  {
    e.ChannelOpened? || e.RequestSubmitted? || e.RequestExpired? || e.AdaptorDelivered? || e.ChannelFinalized? || e.ChannelClosed?
  }

  /** Entries in order; the first error stops the replay. */
  ghost function ReplayAll(k: Crypto, v: Vault, log: seq<Entry>, envs: seq<Env>): Effect
    requires |envs| == |log|
    decreases |log|
  {
    if log == [] then Ok(v) else
      var n := |log| - 1;
      var before := ReplayAll(k, v, log[..n], envs[..n]);
      if before.err.Some? then before else ReplayEntry(k, before.v, log[n], envs[n])
  }

  /** The loop at the end of `replay_app_state_from`. */
  ghost function RefreshAll(v: Vault): Vault
  {
    v.(clients := map c | c in v.clients ::
         v.clients[c].(maxLock := LockedUntil(c, v.reservations, v.withdrawals, v.channels)))
  }

  // ---- When a replayed vault stands for a live one ----

  function Money(b: Balance): Balance { b.(maxLock := 0) }

  /** Same balances; a client only the live vault knows has never held anything. */
  ghost predicate ClientsRel(live: map<Pubkey, Balance>, rec: map<Pubkey, Balance>)
  {
    && (forall c :: c in rec ==> c in live && Money(live[c]) == Money(rec[c]))
    && (forall c :: c in live && c !in rec ==> Money(live[c]) == EmptyBalance)
  }

  /** Same credits; the time of one that lists a channel closing was stamped by the replay. */
  ghost predicate CreditsRel(live: map<Id, Credit>, rec: map<Id, Credit>, h: map<Id, Settlement>)
  {
    && live.Keys == rec.Keys
    && (forall p :: p in rec ==> p in live && live[p].(oldestAt := 0) == rec[p].(oldestAt := 0))
    && (forall p :: p in rec && (forall id :: id in rec[p].ids ==> id in h) ==> p in live && live[p] == rec[p])
  }

  function UntimedRequest(req: Option<Request>): Option<Request>
  {
    match req case None => None case Some(r) => Some(r.(createdAt := 0, expiresAt := 0))
  }

  function Untimed(ch: Channel): Channel
  {
    ch.(createdAt := 0, updatedAt := 0, request := UntimedRequest(ch.request))
  }

  ghost predicate ChannelsRel(live: map<Id, Channel>, rec: map<Id, Channel>)
  {
    && live.Keys == rec.Keys
    && (forall id :: id in rec ==> id in live && Untimed(live[id]) == Untimed(rec[id]))
  }

  /** The recovered counters may fall behind over nonces that were never logged, but not behind a pending withdrawal. */
  ghost predicate CountersRel(live: Vault, rec: Vault)
  {
    && rec.receiptNonce <= live.receiptNonce && rec.withdrawNonce <= live.withdrawNonce && live.lastSlot <= rec.lastSlot
    && (forall n :: n in rec.withdrawals ==> n < rec.withdrawNonce)
  }

  ghost predicate SameMaps(live: Vault, rec: Vault)
  {
    && live.reservations == rec.reservations && live.payments == rec.payments && live.providers == rec.providers
    && live.history == rec.history && live.batches == rec.batches && live.withdrawals == rec.withdrawals
    && live.processed == rec.processed && live.lastSignature == rec.lastSignature
  }

  /** Whoever has a reservation, a withdrawal or a channel is known to the recovered vault. */
  ghost predicate HoldersKnown(rec: Vault)
  {
    && (forall vid :: vid in rec.reservations ==> rec.reservations[vid].client in rec.clients)
    && (forall n :: n in rec.withdrawals ==> rec.withdrawals[n].client in rec.clients)
    && (forall id :: id in rec.channels ==> rec.channels[id].client in rec.clients)
  }

  ghost predicate Related(live: Vault, rec: Vault)
  {
    && SameMaps(live, rec)
    && HoldersKnown(rec)
    && ClientsRel(live.clients, rec.clients)
    && CreditsRel(live.credits, rec.credits, rec.history)
    && ChannelsRel(live.channels, rec.channels)
    && CountersRel(live, rec)
  }

  lemma RelatedToItself(v: Vault)
    requires HoldersKnown(v) && forall n :: n in v.withdrawals ==> n < v.withdrawNonce
    ensures Related(v, v)
  {
  }
}
