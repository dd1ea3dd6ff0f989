/**
 * The enclave's live steps. Each handler body that runs under the persistence lock is one step; `ok` is the
 * outcome of its log append. A step yields the new vault and the entries it appended. The class in
 * VaultObject.dfy carries out the same steps by mutating maps and undoing them when the append fails.
 */
module Steps {
  import opened Prelude
  import opened VaultTypes
  import opened Ledger
  import opened Channels
  import opened AdaptorSig
  import opened BatchSelect
  import opened CursorPass

  datatype Step =
    | Deposit(signature: Id, client: Pubkey, amount: nat, slot: nat, ok: bool)
    | AuthorizeWithdraw(client: Pubkey, recipient: Pubkey, amount: nat, now: Time, ok: bool)
    | ObserveWithdraw(signature: Id, client: Pubkey, recipient: Pubkey, amount: nat, nonce: nat, expiresAt: Time,
                      slot: nat, ok: bool)
    | ExpireWithdraw(nonce: nat, now: Time, ok: bool)
    | Verify(verificationId: Id, paymentId: Id, client: Pubkey, provider: Id, amount: nat, detail: ReservationDetail, ok: bool)
    | Settle(verificationId: Id, settlementId: Id, now: Time, ok: bool)
    | Cancel(verificationId: Id, ok: bool)
    | ExpireReservation(verificationId: Id, now: Time, ok: bool)
    | Register(registration: Provider, ok: bool)
    | IssueReceipt(issued: bool, mirrored: bool)
    | ConfirmBatch(settlementIds: seq<Id>, batchId: nat, signature: Id, ok: bool)
    | NoteBatch(batchId: nat, ok: bool)
    | PlanBatch(order: seq<Id>, now: Time, mode: Mode, config: Config)
    | OpenCh(channelId: Id, client: Pubkey, provider: Id, amount: nat, now: Time, ok: bool)
    | Submit(channelId: Id, requestId: Id, amount: nat, requestHash: Bytes, now: Time, undoneAt: Time, ok: bool)
    | Deliver(channelId: Id, delivery: Delivery, now: Time, undoneAt: Time, ok: bool)
    | Finalize(channelId: Id, secret: Bytes, now: Time, undoneAt: Time, ok: bool)
    | Claim(channelId: Id, full: Signature, now: Time, undoneAt: Time, ok: bool)
    | Close(channelId: Id, settlementId: Id, now: Time, ok: bool)
    | ExpireReq(channelId: Id, now: Time, undoneAt: Time, ok: bool)

  predicate OnChannel(s: Step)
  {
    s.OpenCh? || s.Submit? || s.Deliver? || s.Finalize? || s.Claim? || s.Close? || s.ExpireReq?
  }

  /** The vault after a step and what the step appended to the log. */
  datatype Outcome = Outcome(v: Vault, entries: seq<Entry>)

  function Idle(v: Vault): Outcome { Outcome(v, []) }

  function Existing(v: Vault, c: Pubkey): Balance { if c in v.clients then v.clients[c] else EmptyBalance }

  function Processed(v: Vault, signature: Id, slot: nat): Vault
  {
    v.(processed := v.processed + {signature}, lastSignature := Some(signature), lastSlot := slot)
  }

  /** enclave/src/deposit_detector.rs `apply_deposit`. A failed append leaves an empty balance for a new client. */
  function DepositStep(v: Vault, signature: Id, c: Pubkey, amount: nat, slot: nat, ok: bool): Outcome
  {
    if signature in v.processed then Idle(v)
    else if !ok then Idle(WithBalance(v, c, Existing(v, c)))
    else Outcome(Processed(ApplyDeposit(v, c, amount), signature, slot), [DepositApplied(c, amount, slot, signature)])
  }

  const WITHDRAW_EXPIRY_SEC: nat := 300

  /** enclave/src/handlers.rs `post_withdraw_auth`. The nonce is consumed whatever happens next. */
  ghost function AuthorizeWithdrawStep(v: Vault, c: Pubkey, recipient: Pubkey, amount: nat, now: Time, ok: bool): Outcome
  {
    var w := Withdrawal(c, recipient, amount, v.withdrawNonce, now, now + WITHDRAW_EXPIRY_SEC);
    var burned := v.(withdrawNonce := v.withdrawNonce + 1);
    var done := AuthorizeWithdrawal(burned, w);
    if done.err.Some? || !ok then Idle(burned)
    else Outcome(Refresh(done.v, c).v, [WithdrawAuthorized(w)])
  }

  predicate Matches(w: Withdrawal, c: Pubkey, recipient: Pubkey, amount: nat, expiresAt: Time)
  {
    w.client == c && w.recipient == recipient && w.amount == amount && w.expiresAt == expiresAt
  }

  /** enclave/src/deposit_detector.rs `apply_withdrawal`. A mismatching event returns with the withdrawal applied. */
  ghost function ObserveWithdrawStep(v: Vault, signature: Id, c: Pubkey, recipient: Pubkey, amount: nat, nonce: nat,
                                     expiresAt: Time, slot: nat, ok: bool): Outcome
  {
    if signature in v.processed then Idle(v) else
      var done := ApplyWithdrawal(v, nonce);
      if done.err.Some? then Idle(done.v)
      else if !Matches(v.withdrawals[nonce], c, recipient, amount, expiresAt) then Idle(done.v)
      else if !ok then Idle(v)
      else Outcome(Refresh(Processed(done.v, signature, slot), c).v,
                   [WithdrawApplied(c, recipient, amount, nonce, expiresAt, slot, signature)])
  }

  ghost function ExpireWithdrawStep(v: Vault, nonce: nat, now: Time, ok: bool): Outcome
  {
    if nonce !in v.withdrawals || now <= v.withdrawals[nonce].expiresAt || !ok then Idle(v) else
      var c := v.withdrawals[nonce].client;
      Outcome(Refresh(ExpireWithdrawal(v, nonce).v, c).v, [WithdrawExpired(c, nonce)])
  }

  function NewReservation(vid: Id, payment: Id, c: Pubkey, provider: Id, amount: nat, d: ReservationDetail): Reservation
  {
    Reservation(vid, d.reservationId, payment, c, provider, amount, d.requestHash, d.detailsHash, Reserved,
                d.createdAt, d.expiresAt, None, None)
  }

  function WithReservation(v: Vault, r: Reservation): Vault
  {
    v.(reservations := v.reservations[r.verificationId := r], payments := v.payments[r.paymentId := r.verificationId])
  }

  /** enclave/src/handlers.rs `post_verify` from the payment-id check on: a known payment id reserves nothing again. */
  ghost function VerifyStep(v: Vault, vid: Id, payment: Id, c: Pubkey, provider: Id, amount: nat, d: ReservationDetail, ok: bool): Outcome
  {
    if provider !in v.providers then Idle(v)
    else if payment in v.payments && v.payments[payment] in v.reservations then Idle(v)
    else
      var done := ReserveBalance(v, c, amount);
      if done.err.Some? || !ok then Idle(v) else
        var r := NewReservation(vid, payment, c, provider, amount, d);
        Outcome(Refresh(WithReservation(done.v, r), c).v, [ReservationCreated(vid, payment, c, provider, amount, Some(d))])
  }

  function WithStatus(v: Vault, vid: Id, r: Reservation): Vault { v.(reservations := v.reservations[vid := r]) }

  function Record(v: Vault, sid: Id, c: Pubkey, provider: Id, amount: nat, now: Time): Vault
  {
    var account := if provider in v.providers then v.providers[provider].account else Pubkey([]);
    v.(history := v.history[sid := Settlement(sid, c, account, amount, now)])
  }

  function AsSettled(r: Reservation, sid: Id, now: Time): Reservation
  {
    r.(status := SettledOffchain, settlementId := Some(sid), settledAt := Some(now))
  }

  /**
   * enclave/src/handlers.rs `post_settle` under the lock, for a reservation that has not expired. When the append
   * fails the rollback also drops a credit that owed nothing before.
   */
  ghost function SettleStep(v: Vault, vid: Id, sid: Id, now: Time, ok: bool): Outcome
  {
    if vid !in v.reservations || v.reservations[vid].status != Reserved || now > v.reservations[vid].expiresAt then Idle(v) else
      var r := v.reservations[vid];
      var done := SettlePayment(v, r.client, r.amount, r.provider, sid, now);
      if done.err.Some? then Idle(done.v)
      else if !ok then Idle(RollbackSettlePayment(done.v.(history := v.history - {sid}), r.client, r.amount, r.provider, sid).v)
      else
        var v1 := WithStatus(Record(done.v, sid, r.client, r.provider, r.amount, now), vid, AsSettled(r, sid, now));
        Outcome(Refresh(v1, r.client).v, [SettlementCommitted(sid, vid, r.provider, r.amount, Some(now))])
  }

  /** Releases a reservation's funds and records why (`post_cancel`, `expire_reserved_reservation_with_lock`). */
  ghost function EndReservation(v: Vault, vid: Id, status: ReservationStatus): Vault
    requires vid in v.reservations
  {
    var r := v.reservations[vid];
    Refresh(WithStatus(ReleaseBalance(v, r.client, r.amount).v, vid, r.(status := status)), r.client).v
  }

  ghost function CancelStep(v: Vault, vid: Id, ok: bool): Outcome
  {
    if vid !in v.reservations || v.reservations[vid].status != Reserved || !ok then Idle(v)
    else Outcome(EndReservation(v, vid, Cancelled), [ReservationCancelled(vid)])
  }

  ghost function ExpireReservationStep(v: Vault, vid: Id, now: Time, ok: bool): Outcome
  {
    if vid !in v.reservations || v.reservations[vid].status != Reserved || now <= v.reservations[vid].expiresAt || !ok
    then Idle(v)
    else Outcome(EndReservation(v, vid, Expired), [ReservationExpiredEntry(vid)])
  }

  function RegisterStep(v: Vault, p: Provider, ok: bool): Outcome
  {
    if p.providerId in v.providers || !ok then Idle(v)
    else Outcome(v.(providers := v.providers[p.providerId := p]), [ProviderRegistered(p)])
  }

  /** `issue_participant_receipt_locked`: the nonce is consumed, then logged as issued and as mirrored. */
  function IssueReceiptStep(v: Vault, issued: bool, mirrored: bool): Outcome
  {
    var n := v.receiptNonce;
    Outcome(v.(receiptNonce := n + 1),
            if !issued then [] else if !mirrored then [ReceiptIssued(n)] else [ReceiptIssued(n), ReceiptMirrored(n)])
  }

  /** enclave/src/batch.rs `fire_batch_at` for one chunk: the log comes first, then the vault. */
  ghost function ConfirmBatchStep(v: Vault, sids: seq<Id>, batchId: nat, signature: Id, ok: bool): Outcome
  {
    if !ok then Idle(v)
    else Outcome(ApplyBatchConfirmation(v, sids, batchId, signature), [BatchConfirmed(batchId, signature, sids)])
  }

  function OpenStep(v: Vault, id: Id, c: Pubkey, provider: Id, deposit: nat, now: Time, ok: bool): Outcome
  {
    if provider !in v.providers || v.providers[provider].participant.None? then Idle(v) else
      var done := OpenChannel(v, id, c, provider, deposit, now);
      if done.err.Some? || !ok then Idle(v)
      else Outcome(done.v, [ChannelOpened(id, c, provider, deposit)])
  }

  function Touch(v: Vault, id: Id, now: Time): Vault
    requires id in v.channels
  {
    WithChannel(v, id, v.channels[id].(updatedAt := now))
  }

  ghost function SubmitStep(v: Vault, id: Id, rid: Id, amount: nat, hash: Bytes, now: Time, undoneAt: Time, ok: bool): Outcome
  {
    var done := SubmitRequest(v, id, rid, amount, hash, now);
    if done.err.Some? then Idle(v)
    else if !ok then Idle(Touch(v, id, undoneAt))
    else Outcome(Refresh(done.v, v.channels[id].client).v, [RequestSubmitted(id, rid, amount, Some(hash))])
  }

  /** `post_channel_deliver`: the delivering key must be the provider's registered participant key. */
  function DeliverStep(k: Crypto, v: Vault, id: Id, d: Delivery, now: Time, undoneAt: Time, ok: bool): Outcome
  {
    if id !in v.channels || v.channels[id].provider !in v.providers
       || v.providers[v.channels[id].provider].participant != Some(d.providerKey) then Idle(v) else
      var done := DeliverAdaptor(k, v, id, d, now);
      if done.err.Some? then Idle(v)
      else if !ok then Idle(Touch(v, id, undoneAt))
      else Outcome(done.v, [AdaptorDelivered(id, v.channels[id].request.value.requestId, Some(d))])
  }

  ghost function FinalizeStep(v: Vault, id: Id, done: Finalized, undoneAt: Time, ok: bool): Outcome
    requires done.Finalized? ==> id in v.channels
  {
    if done.Refused? then Idle(v)
    else if !ok then Idle(Touch(v, id, undoneAt))
    else Outcome(Refresh(done.v, v.channels[id].client).v, [ChannelFinalized(id, done.request.requestId, done.request.amount)])
  }

  ghost function CloseStep(v: Vault, id: Id, sid: Id, now: Time, ok: bool): Outcome
  {
    var done := CloseChannel(v, id, sid, now);
    if done.err.Some? then Idle(done.v)
    else if !ok then Idle(v)
    else
      var ch := v.channels[id];
      Outcome(Refresh(done.v, ch.client).v,
              [ChannelClosed(id, ch.free, ch.earned, if ch.earned > 0 then Some(sid) else None)])
  }

  ghost function ExpireReqStep(v: Vault, id: Id, now: Time, undoneAt: Time, ok: bool): Outcome
  {
    if id !in v.channels || !Stale(v.channels[id], now) then Idle(v)
    else if !ok then Idle(Touch(v, id, undoneAt))
    else
      var ch := v.channels[id];
      Outcome(Refresh(ExpireRequest(v, id, now).v, ch.client).v,
              [RequestExpired(id, ch.request.value.requestId, ch.request.value.amount)])
  }

  ghost function Live(k: Crypto, v: Vault, s: Step): Outcome
  {
    match s
    case Deposit(signature, c, amount, slot, ok) => DepositStep(v, signature, c, amount, slot, ok)
    case AuthorizeWithdraw(c, recipient, amount, now, ok) => AuthorizeWithdrawStep(v, c, recipient, amount, now, ok)
    case ObserveWithdraw(signature, c, recipient, amount, nonce, expiresAt, slot, ok) =>
      ObserveWithdrawStep(v, signature, c, recipient, amount, nonce, expiresAt, slot, ok)
    case ExpireWithdraw(nonce, now, ok) => ExpireWithdrawStep(v, nonce, now, ok)
    case Verify(vid, payment, c, provider, amount, d, ok) => VerifyStep(v, vid, payment, c, provider, amount, d, ok)
    case Settle(vid, sid, now, ok) => SettleStep(v, vid, sid, now, ok)
    case Cancel(vid, ok) => CancelStep(v, vid, ok)
    case ExpireReservation(vid, now, ok) => ExpireReservationStep(v, vid, now, ok)
    case Register(p, ok) => RegisterStep(v, p, ok)
    case IssueReceipt(issued, mirrored) => IssueReceiptStep(v, issued, mirrored)
    case ConfirmBatch(sids, batchId, signature, ok) => ConfirmBatchStep(v, sids, batchId, signature, ok)
    case NoteBatch(batchId, ok) => Outcome(v, if ok then [BatchSubmitted(batchId)] else [])
    case PlanBatch(order, now, mode, config) => Idle(Planned(v, order, now, mode, config))
    case OpenCh(id, c, provider, amount, now, ok) => OpenStep(v, id, c, provider, amount, now, ok)
    case Submit(id, rid, amount, hash, now, undoneAt, ok) => SubmitStep(v, id, rid, amount, hash, now, undoneAt, ok)
    case Deliver(id, d, now, undoneAt, ok) => DeliverStep(k, v, id, d, now, undoneAt, ok)
    case Finalize(id, secret, now, undoneAt, ok) => FinalizeStep(v, id, FinalizeOffchain(k, v, id, secret, now), undoneAt, ok)
    case Claim(id, full, now, undoneAt, ok) => FinalizeStep(v, id, FinalizeOnchain(k, v, id, full, now), undoneAt, ok)
    case Close(id, sid, now, ok) => CloseStep(v, id, sid, now, ok)
    case ExpireReq(id, now, undoneAt, ok) => ExpireReqStep(v, id, now, undoneAt, ok)
  }
}
