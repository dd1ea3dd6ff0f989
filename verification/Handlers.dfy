/**
 * The handlers' locked sections (enclave/src/handlers.rs, deposit_detector.rs, batch.rs): mutate the maps, append to
 * the log, undo the mutation when the append fails. Each is proved to be one atomic step: state and log move
 * together or, up to the exceptions the steps spell out, not at all. `ok` is the outcome of the append.
 */
module Handlers {
  import opened Prelude
  import opened AdaptorSig
  import opened VaultTypes
  import opened Steps
  import opened Invariant
  import opened BatchLemmas
  import opened Preservation
  import opened Rollbacks
  import opened VaultObject
  import C = Channels
  import M = ChannelObject

  method ApplyDeposit(v: VaultState, signature: Id, c: Pubkey, amount: nat, slot: nat, ok: bool)
    modifies v
    ensures var step := DepositStep(old(v.Value()), signature, c, amount, slot, ok);
      v.Value() == step.v && v.log == old(v.log) + step.entries
  {
    hide L.ApplyDeposit, L.RollbackDeposit, Processed, L.WithBalance;
    if signature in v.processed { return; }
    DepositUndone(v.Value(), c, amount);
    v.ApplyDeposit(c, amount);
    var failed := v.Append(DepositApplied(c, amount, slot, signature), ok);
    if failed.Some? {
      var _ := v.RollbackDeposit(c, amount);
      return;
    }
    v.MarkProcessed(signature, slot);
  }

  method AuthorizeWithdraw(k: Crypto, v: VaultState, c: Pubkey, recipient: Pubkey, amount: nat, now: Time, ok: bool)
    requires Inv(k, v.Value())
    modifies v
    ensures var step := AuthorizeWithdrawStep(old(v.Value()), c, recipient, amount, now, ok);
      v.Value() == step.v && v.log == old(v.log) + step.entries
  {
    hide L.AuthorizeWithdrawal, L.ExpireWithdrawal, L.Refresh, MoneyOk, SettledOk, ChannelsOk, OwnersOk, PaymentsOk;
    var nonce := v.withdrawNonce;
    v.withdrawNonce := nonce + 1;
    var w := Withdrawal(c, recipient, amount, nonce, now, now + WITHDRAW_EXPIRY_SEC);
    ghost var burned := v.Value();
    AuthorizeFails(burned, w);
    var err := v.AuthorizeWithdrawal(w);
    if err.Some? { return; }
    AuthorizeUndone(burned, w);
    var failed := v.Append(WithdrawAuthorized(w), ok);
    if failed.Some? {
      var _ := v.ExpireWithdrawal(nonce);
      return;
    }
    var _ := v.Refresh(c);
  }

  lemma AuthorizeFails(v: Vault, w: Withdrawal)
    ensures L.AuthorizeWithdrawal(v, w).err.Some? ==> L.AuthorizeWithdrawal(v, w).v == v
  {
  }

  /** A mismatching event leaves the withdrawal applied and unlogged, as the step says. */
  method ApplyWithdrawal(k: Crypto, v: VaultState, signature: Id, c: Pubkey, recipient: Pubkey, amount: nat, nonce: nat,
                         expiresAt: Time, slot: nat, ok: bool)
    requires Inv(k, v.Value())
    modifies v
    ensures var step := ObserveWithdrawStep(old(v.Value()), signature, c, recipient, amount, nonce, expiresAt, slot, ok);
      v.Value() == step.v && v.log == old(v.log) + step.entries
  {
    hide L.ApplyWithdrawal, L.RollbackAppliedWithdrawal, L.Refresh, Processed, MoneyOk, SettledOk, ChannelsOk, PaymentsOk, Matches;
    if signature in v.processed { return; }
    ghost var before := v.Value();
    var pending := nonce in v.withdrawals;
    var w := if pending then v.withdrawals[nonce] else Withdrawal(c, c, 0, 0, 0, 0);
    L.AppliedPending(before, nonce);
    var err := v.ApplyWithdrawal(nonce);
    if err.Some? { return; }
    if !Matches(w, c, recipient, amount, expiresAt) { return; }
    WithdrawUndone(before, nonce);
    WithdrawalLocked(before, nonce);
    var failed := v.Append(WithdrawApplied(c, recipient, amount, nonce, expiresAt, slot, signature), ok);
    if failed.Some? {
      var _ := v.RollbackAppliedWithdrawal(w);
      return;
    }
    v.MarkProcessed(signature, slot);
    var _ := v.Refresh(c);
  }

  method ExpireWithdraw(v: VaultState, nonce: nat, now: Time, ok: bool)
    modifies v
    ensures var step := ExpireWithdrawStep(old(v.Value()), nonce, now, ok);
      v.Value() == step.v && v.log == old(v.log) + step.entries
  {
    hide L.ExpireWithdrawal, L.Refresh;
    if nonce !in v.withdrawals { return; }
    var w := v.withdrawals[nonce];
    if now <= w.expiresAt { return; }
    var failed := v.Append(WithdrawExpired(w.client, nonce), ok);
    if failed.Some? { return; }
    var _ := v.ExpireWithdrawal(nonce);
    var _ := v.Refresh(w.client);
  }

  method Verify(v: VaultState, vid: Id, payment: Id, c: Pubkey, provider: Id, amount: nat, d: ReservationDetail, ok: bool)
    modifies v
    ensures var step := VerifyStep(old(v.Value()), vid, payment, c, provider, amount, d, ok);
      v.Value() == step.v && v.log == old(v.log) + step.entries
  {
    hide L.ReserveBalance, L.ReleaseBalance, L.Refresh, WithReservation;
    if provider !in v.providers { return; }
    if payment in v.payments && v.payments[payment] in v.reservations { return; }
    ghost var before := v.Value();
    ReserveFails(before, c, amount);
    var err := v.ReserveBalance(c, amount);
    if err.Some? { return; }
    ReserveUndone(before, c, amount);
    var failed := v.Append(ReservationCreated(vid, payment, c, provider, amount, Some(d)), ok);
    if failed.Some? {
      var _ := v.ReleaseBalance(c, amount);
      return;
    }
    v.AddReservation(NewReservation(vid, payment, c, provider, amount, d));
    var _ := v.Refresh(c);
  }

  lemma ReserveFails(v: Vault, c: Pubkey, amount: nat)
    ensures L.ReserveBalance(v, c, amount).err.Some? ==> L.ReserveBalance(v, c, amount).v == v
  {
  }

  /** Settles a reservation that has not expired. */
  method Settle(v: VaultState, vid: Id, sid: Id, now: Time, ok: bool)
    modifies v
    ensures var step := SettleStep(old(v.Value()), vid, sid, now, ok);
      v.Value() == step.v && v.log == old(v.log) + step.entries
  {
    hide L.SettlePayment, L.RollbackSettlePayment, L.Refresh, Record, WithStatus;
    if vid !in v.reservations { return; }
    var r := v.reservations[vid];
    if r.status != Reserved || now > r.expiresAt { return; }
    ghost var before := v.Value();
    var err := v.SettlePayment(r.client, r.amount, r.provider, sid, now);
    if err.Some? { return; }
    SettledKeepsRest(before, r.client, r.amount, r.provider, sid, now);
    ghost var paid := v.Value();
    v.RecordSettlement(sid, r.client, r.provider, r.amount, now);
    var failed := v.Append(SettlementCommitted(sid, vid, r.provider, r.amount, Some(now)), ok);
    if failed.Some? {
      Unrecorded(paid, sid, r.client, r.provider, r.amount, now);
      v.history := v.history - {sid};
      assert v.Value() == paid.(history := before.history - {sid});
      var _ := v.RollbackSettlePayment(r.client, r.amount, r.provider, sid);
      return;
    }
    v.SetReservation(vid, AsSettled(r, sid, now));
    var _ := v.Refresh(r.client);
  }

  lemma Unrecorded(v: Vault, sid: Id, c: Pubkey, provider: Id, amount: nat, now: Time)
    ensures Record(v, sid, c, provider, amount, now) == v.(history := Record(v, sid, c, provider, amount, now).history)
    ensures Record(v, sid, c, provider, amount, now).history - {sid} == v.history - {sid}
  {
  }

  lemma SettledKeepsRest(v: Vault, c: Pubkey, amount: nat, provider: Id, sid: Id, now: Time)
    requires L.SettlePayment(v, c, amount, provider, sid, now).err.None?
    ensures L.SettlePayment(v, c, amount, provider, sid, now).v.history == v.history
  {
    hide L.SettlePayment;
    SettledShape(v, c, amount, provider, sid, now);
  }

  method Cancel(k: Crypto, v: VaultState, vid: Id, ok: bool)
    requires Inv(k, v.Value())
    modifies v
    ensures var step := CancelStep(old(v.Value()), vid, ok);
      v.Value() == step.v && v.log == old(v.log) + step.entries
  {
    hide L.ReserveBalance, L.ReleaseBalance, L.Refresh, MoneyOk, SettledOk, ChannelsOk, PaymentsOk, WithStatus;
    if vid !in v.reservations { return; }
    var r := v.reservations[vid];
    if r.status != Reserved { return; }
    ghost var before := v.Value();
    ReservationLocked(before, vid);
    ReleaseUndone(before, r.client, r.amount);
    ReleaseShape(before, r.client, r.amount);
    var err := v.ReleaseBalance(r.client, r.amount);
    if err.Some? { return; }
    var failed := v.Append(ReservationCancelled(vid), ok);
    if failed.Some? {
      var _ := v.ReserveBalance(r.client, r.amount);
      return;
    }
    v.SetReservation(vid, r.(status := Cancelled));
    var _ := v.Refresh(r.client);
  }

  /** The log comes first here, so there is nothing to undo. */
  method ExpireReservation(k: Crypto, v: VaultState, vid: Id, now: Time, ok: bool)
    requires Inv(k, v.Value())
    modifies v
    ensures var step := ExpireReservationStep(old(v.Value()), vid, now, ok);
      v.Value() == step.v && v.log == old(v.log) + step.entries
  {
    hide L.ReleaseBalance, L.Refresh, MoneyOk, SettledOk, ChannelsOk, PaymentsOk;
    if vid !in v.reservations { return; }
    var r := v.reservations[vid];
    if r.status != Reserved || now <= r.expiresAt { return; }
    var failed := v.Append(ReservationExpiredEntry(vid), ok);
    if failed.Some? { return; }
    ghost var before := v.Value();
    ReleaseShape(before, r.client, r.amount);
    v.reservations := v.reservations[vid := r.(status := Expired)];
    ReleaseShape(v.Value(), r.client, r.amount);
    var err := v.ReleaseBalance(r.client, r.amount);
    if err.Some? { return; }
    var _ := v.Refresh(r.client);
  }

  method Register(v: VaultState, p: Provider, ok: bool)
    modifies v
    ensures var step := RegisterStep(old(v.Value()), p, ok);
      v.Value() == step.v && v.log == old(v.log) + step.entries
  {
    if p.providerId in v.providers { return; }
    var failed := v.Append(ProviderRegistered(p), ok);
    if failed.Some? { return; }
    v.providers := v.providers[p.providerId := p];
  }

  method IssueReceipt(v: VaultState, issued: bool, mirrored: bool) returns (nonce: nat)
    modifies v
    ensures var step := IssueReceiptStep(old(v.Value()), issued, mirrored);
      v.Value() == step.v && v.log == old(v.log) + step.entries && nonce == old(v.receiptNonce)
  {
    nonce := v.receiptNonce;
    v.receiptNonce := nonce + 1;
    var failed := v.Append(ReceiptIssued(nonce), issued);
    if failed.Some? { return; }
    failed := v.Append(ReceiptMirrored(nonce), mirrored);
  }

  /** A confirmed chunk is logged before it is applied. */
  method ConfirmBatch(v: VaultState, sids: seq<Id>, batchId: nat, signature: Id, ok: bool)
    requires forall sid :: sid in sids ==> Unambiguous(v.Value(), sid)
    modifies v
    ensures var step := ConfirmBatchStep(old(v.Value()), sids, batchId, signature, ok);
      v.Value() == step.v && v.log == old(v.log) + step.entries
  {
    hide Unambiguous, L.ApplyBatchConfirmation;
    var failed := v.Append(BatchConfirmed(batchId, signature, sids), ok);
    if failed.Some? { return; }
    v.ApplyBatchConfirmation(sids, batchId, signature);
  }

  /** What a planned chunk lists can be confirmed whatever order the maps are scanned in. */
  lemma PayableUnambiguous(k: Crypto, v: Vault, sids: seq<Id>)
    requires Inv(k, v) && Payable(v, sids)
    ensures forall sid :: sid in sids ==> Unambiguous(v, sid)
  {
    hide MoneyOk, IndexOk, CreditsOk, ListedOk, ChannelsOk, L.Owner;
  }

  // ---- Channels ----

  method OpenCh(v: VaultState, id: Id, c: Pubkey, provider: Id, deposit: nat, now: Time, ok: bool)
    requires id !in v.channels
    modifies v
    ensures var step := OpenStep(old(v.Value()), id, c, provider, deposit, now, ok);
      v.Value() == step.v && v.log == old(v.log) + step.entries
  {
    hide C.OpenChannel, C.RollbackOpenChannel;
    if provider !in v.providers { return; }
    if v.providers[provider].participant.None? { return; }
    ghost var before := v.Value();
    OpenFails(before, id, c, provider, deposit, now);
    var err := M.OpenChannel(v, id, c, provider, deposit, now);
    if err.Some? { return; }
    OpenUndone(before, id, c, provider, deposit, now);
    var failed := v.Append(ChannelOpened(id, c, provider, deposit), ok);
    if failed.Some? {
      var _ := M.RollbackOpenChannel(v, id);
      return;
    }
  }

  lemma OpenFails(v: Vault, id: Id, c: Pubkey, provider: Id, deposit: nat, now: Time)
    ensures C.OpenChannel(v, id, c, provider, deposit, now).err.Some? ==> C.OpenChannel(v, id, c, provider, deposit, now).v == v
  {
  }

  method Submit(k: Crypto, v: VaultState, id: Id, rid: Id, amount: nat, hash: Bytes, now: Time, undoneAt: Time, ok: bool)
    requires Inv(k, v.Value())
    modifies v
    ensures var step := SubmitStep(old(v.Value()), id, rid, amount, hash, now, undoneAt, ok);
      v.Value() == step.v && v.log == old(v.log) + step.entries
  {
    hide Inv, C.SubmitRequest, C.RollbackSubmitRequest, L.Refresh, Touch;
    ghost var before := v.Value();
    SubmitFacts(k, before, id, rid, amount, hash, now);
    var err := M.SubmitRequest(v, id, rid, amount, hash, now);
    if err.Some? { return; }
    SubmitUndone(before, id, rid, amount, hash, now, undoneAt);
    var failed := v.Append(RequestSubmitted(id, rid, amount, Some(hash)), ok);
    if failed.Some? {
      var _ := M.RollbackSubmitRequest(v, id, rid, undoneAt);
      return;
    }
    var _ := v.Refresh(v.channels[id].client);
  }

  lemma SubmitFacts(k: Crypto, v: Vault, id: Id, rid: Id, amount: nat, hash: Bytes, now: Time)
    requires Inv(k, v)
    ensures var done := C.SubmitRequest(v, id, rid, amount, hash, now);
      if done.err.Some? then done.v == v
      else id in v.channels && v.channels[id].request.None? && id in done.v.channels && done.v.channels[id].client == v.channels[id].client
  {
    hide MoneyOk, IndexOk, SettledOk;
  }

  method Deliver(k: Crypto, v: VaultState, id: Id, d: Delivery, now: Time, undoneAt: Time, ok: bool)
    requires Inv(k, v.Value())
    modifies v
    ensures var step := DeliverStep(k, old(v.Value()), id, d, now, undoneAt, ok);
      v.Value() == step.v && v.log == old(v.log) + step.entries
  {
    hide Inv, C.DeliverAdaptor, C.RollbackDeliverAdaptor, Touch;
    if id !in v.channels { return; }
    if v.channels[id].provider !in v.providers { return; }
    if v.providers[v.channels[id].provider].participant != Some(d.providerKey) { return; }
    ghost var before := v.Value();
    DeliverFacts(k, before, id, d, now);
    if v.channels[id].request.None? { return; }
    var rid := v.channels[id].request.value.requestId;
    var err := M.DeliverAdaptor(k, v, id, d, now);
    if err.Some? { return; }
    DeliverUndone(k, before, id, d, now, undoneAt);
    var failed := v.Append(AdaptorDelivered(id, rid, Some(d)), ok);
    if failed.Some? {
      var _ := M.RollbackDeliverAdaptor(v, id, rid, undoneAt);
      return;
    }
  }

  lemma DeliverFacts(k: Crypto, v: Vault, id: Id, d: Delivery, now: Time)
    requires Inv(k, v) && id in v.channels
    ensures var done := C.DeliverAdaptor(k, v, id, d, now);
      && (done.err.Some? ==> done.v == v) && (v.channels[id].request.None? ==> done.err.Some?)
      && (done.err.None? ==> C.Undelivered(v.channels[id].request.value) == v.channels[id].request.value)
  {
    hide MoneyOk, IndexOk, SettledOk, PreVerify, C.DeliveryVerifies, DeliveredOk;
  }

  /** What both finalize routes do once the amount has moved: log it, or put the request back. */
  method LogFinalized(v: VaultState, id: Id, req: Request, undoneAt: Time, ok: bool)
    requires id in v.channels
    modifies v
    ensures ok ==> v.Value() == L.Refresh(old(v.Value()), old(v.channels[id].client)).v
    ensures !ok ==> v.Value() == C.RollbackFinalize(old(v.Value()), id, req, undoneAt).v
    ensures v.log == old(v.log) + if ok then [ChannelFinalized(id, req.requestId, req.amount)] else []
  {
    hide C.RollbackFinalize, L.Refresh;
    var failed := v.Append(ChannelFinalized(id, req.requestId, req.amount), ok);
    if failed.Some? {
      var _ := M.RollbackFinalize(v, id, req, undoneAt);
      return;
    }
    var _ := v.Refresh(v.channels[id].client);
  }

  lemma FinalizeCases(v: Vault, id: Id, done: C.Finalized, now: Time, undoneAt: Time)
    requires PaidShape(v, id, done, now)
    ensures done.Refused? ==> forall ok :: FinalizeStep(v, id, done, undoneAt, ok) == Idle(v)
    ensures done.Finalized? ==>
      && id in done.v.channels
      && FinalizeStep(v, id, done, undoneAt, true) == Outcome(L.Refresh(done.v, done.v.channels[id].client).v,
           [ChannelFinalized(id, done.request.requestId, done.request.amount)])
      && FinalizeStep(v, id, done, undoneAt, false) == Idle(C.RollbackFinalize(done.v, id, done.request, undoneAt).v)
  {
    hide L.Refresh, C.RollbackFinalize, Touch;
    if done.Finalized? { FinalizeUndone(v, id, now, undoneAt); }
  }

  method Finalize(k: Crypto, v: VaultState, id: Id, secret: Bytes, now: Time, undoneAt: Time, ok: bool) returns (plaintext: Option<Bytes>)
    modifies v
    ensures var done := C.FinalizeOffchain(k, old(v.Value()), id, secret, now);
      && (done.Finalized? ==> id in old(v.Value()).channels)
      && var step := FinalizeStep(old(v.Value()), id, done, undoneAt, ok);
      && v.Value() == step.v && v.log == old(v.log) + step.entries
      && plaintext == if done.Finalized? && ok then Some(done.plaintext) else None
  {
    hide C.FinalizeOffchain, FinalizeStep, L.Refresh, C.RollbackFinalize, C.WithChannel, C.Paid;
    ghost var before := v.Value();
    OffchainShape(k, before, id, secret, now);
    var done := M.FinalizeOffchain(k, v, id, secret, now);
    FinalizeCases(before, id, C.FinalizeOffchain(k, before, id, secret, now), now, undoneAt);
    if done.Err? { return None; }
    LogFinalized(v, id, done.request, undoneAt, ok);
    plaintext := if ok then Some(done.plaintext) else None;
  }

  method Claim(k: Crypto, v: VaultState, id: Id, full: Signature, now: Time, undoneAt: Time, ok: bool) returns (plaintext: Option<Bytes>)
    modifies v
    ensures var done := C.FinalizeOnchain(k, old(v.Value()), id, full, now);
      && (done.Finalized? ==> id in old(v.Value()).channels)
      && var step := FinalizeStep(old(v.Value()), id, done, undoneAt, ok);
      && v.Value() == step.v && v.log == old(v.log) + step.entries
      && plaintext == if done.Finalized? && ok then Some(done.plaintext) else None
  {
    hide C.FinalizeOnchain, FinalizeStep, L.Refresh, C.RollbackFinalize, C.WithChannel, C.Paid;
    ghost var before := v.Value();
    OnchainShape(k, before, id, full, now);
    var done := M.FinalizeOnchain(k, v, id, full, now);
    FinalizeCases(before, id, C.FinalizeOnchain(k, before, id, full, now), now, undoneAt);
    if done.Err? { return None; }
    LogFinalized(v, id, done.request, undoneAt, ok);
    plaintext := if ok then Some(done.plaintext) else None;
  }

  ghost predicate PaidShape(v: Vault, id: Id, done: C.Finalized, now: Time)
  {
    done.Finalized? ==>
      && id in v.channels && v.channels[id].request == Some(done.request) && v.channels[id].status == Pending
      && done.request.amount <= v.channels[id].locked
      && done.v == C.WithChannel(v, id, C.Paid(v.channels[id], done.request.amount, now))
  }

  lemma OffchainShape(k: Crypto, v: Vault, id: Id, secret: Bytes, now: Time)
    ensures PaidShape(v, id, C.FinalizeOffchain(k, v, id, secret, now), now)
  {
    hide C.FinalizeWithSecret;
    if C.FinalizeOffchain(k, v, id, secret, now).Finalized? {
      FinalizedShape(k, v, id, ScalarBytes.FromCanonical(secret).value, secret, now);
    }
  }

  lemma OnchainShape(k: Crypto, v: Vault, id: Id, full: Signature, now: Time)
    ensures PaidShape(v, id, C.FinalizeOnchain(k, v, id, full, now), now)
  {
    hide C.FinalizeWithSecret, Extract, VerifyAdapted;
    if C.FinalizeOnchain(k, v, id, full, now).Finalized? {
      var t := Extract(full, v.channels[id].request.value.preSig.value).value;
      FinalizedShape(k, v, id, t, ScalarBytes.ScalarToBytes(t), now);
    }
  }

  method ExpireReq(k: Crypto, v: VaultState, id: Id, now: Time, undoneAt: Time, ok: bool)
    requires Inv(k, v.Value())
    modifies v
    ensures var step := ExpireReqStep(old(v.Value()), id, now, undoneAt, ok);
      v.Value() == step.v && v.log == old(v.log) + step.entries
  {
    hide Inv, C.ExpireRequest, C.RollbackExpireRequest, L.Refresh, Touch;
    if id !in v.channels { return; }
    var ch := v.channels[id];
    if ch.status == Open || ch.request.None? || now <= ch.request.value.expiresAt { return; }
    ghost var before := v.Value();
    ExpireFacts(k, before, id, now);
    ExpiryUndone(before, id, now, undoneAt);
    var _ := M.ExpireRequest(v, id, now);
    var failed := v.Append(RequestExpired(id, ch.request.value.requestId, ch.request.value.amount), ok);
    if failed.Some? {
      var _ := M.RollbackExpireRequest(v, id, ch.status, ch.request.value, undoneAt);
      return;
    }
    var _ := v.Refresh(ch.client);
  }

  lemma ExpireFacts(k: Crypto, v: Vault, id: Id, now: Time)
    requires Inv(k, v) && id in v.channels && C.Stale(v.channels[id], now)
    ensures v.channels[id].request.value.amount <= v.channels[id].locked
  {
    hide MoneyOk, IndexOk, SettledOk;
  }

  method Close(k: Crypto, v: VaultState, id: Id, sid: Id, now: Time, ok: bool)
    requires Inv(k, v.Value())
    modifies v
    ensures var step := CloseStep(old(v.Value()), id, sid, now, ok);
      v.Value() == step.v && v.log == old(v.log) + step.entries
  {
    hide Inv, C.CloseChannel, C.RollbackCloseChannel, L.Refresh;
    ghost var before := v.Value();
    CloseFacts(k, before, id, sid, now);
    if id !in v.channels { return; }
    var ch := v.channels[id];
    if ch.status != Open { return; }
    var saved := if ch.earned > 0 && ch.provider in v.credits then Some(v.credits[ch.provider]) else None;
    var err := M.CloseChannel(v, id, sid, now);
    if err.Some? { return; }
    CloseUndone(before, id, sid, now);
    var failed := v.Append(ChannelClosed(id, ch.free, ch.earned, if ch.earned > 0 then Some(sid) else None), ok);
    if failed.Some? {
      var _ := M.RollbackCloseChannel(v, ch, saved);
      return;
    }
    var _ := v.Refresh(ch.client);
  }

  lemma CloseFacts(k: Crypto, v: Vault, id: Id, sid: Id, now: Time)
    requires Inv(k, v)
    ensures id !in v.channels || v.channels[id].status != Open ==>
      C.CloseChannel(v, id, sid, now).err.Some? && C.CloseChannel(v, id, sid, now).v == v
    ensures id in v.channels ==> v.channels[id].channelId == id && v.channels[id].client in v.clients
    ensures id in v.channels ==> v.channels[id].free + v.channels[id].earned <= v.clients[v.channels[id].client].locked
  {
    hide MoneyOk, IndexOk, SettledOk;
    if id in v.channels { ChannelLocked(k, v, id); }
  }
}
