/** Which parts of the vault each step may write. */
module StepFrames {
  import opened Prelude
  import opened VaultTypes
  import opened Ledger
  import opened Channels
  import opened Steps
  import opened Invariant
  import opened SettlementLemmas
  import opened BatchLemmas
  import opened Preservation
  import opened Rollbacks
  import opened Runs
  import Recovery
  import opened CursorPass
  import Handlers

  predicate Writes(v: Vault, v': Vault, s: Step)
  {
    match s
    case Deposit(_, _, _, _, _) =>
      v' == v.(clients := v'.clients, processed := v'.processed, lastSignature := v'.lastSignature, lastSlot := v'.lastSlot)
    case AuthorizeWithdraw(_, _, _, _, _) =>
      v' == v.(clients := v'.clients, withdrawals := v'.withdrawals, withdrawNonce := v'.withdrawNonce)
    case ObserveWithdraw(_, _, _, _, _, _, _, _) =>
      v' == v.(clients := v'.clients, withdrawals := v'.withdrawals, processed := v'.processed,
               lastSignature := v'.lastSignature, lastSlot := v'.lastSlot)
    case ExpireWithdraw(_, _, _) => v' == v.(clients := v'.clients, withdrawals := v'.withdrawals)
    case Verify(_, _, _, _, _, _, _) =>
      v' == v.(clients := v'.clients, reservations := v'.reservations, payments := v'.payments)
    case Settle(_, _, _, _) =>
      v' == v.(clients := v'.clients, reservations := v'.reservations, credits := v'.credits, history := v'.history)
    case Cancel(_, _) => v' == v.(clients := v'.clients, reservations := v'.reservations)
    case ExpireReservation(_, _, _) => v' == v.(clients := v'.clients, reservations := v'.reservations)
    case Register(_, _) => v' == v.(providers := v'.providers)
    case IssueReceipt(_, _) => v' == v.(receiptNonce := v'.receiptNonce)
    case ConfirmBatch(_, _, _, _) => SameElsewhere(v, v')
    case NoteBatch(_, _) => v' == v
    case PlanBatch(_, _, _, _) => v' == v.(credits := v'.credits)
    case Close(_, _, _, _) => v' == v.(clients := v'.clients, channels := v'.channels, credits := v'.credits)
    case _ => v' == v.(clients := v'.clients, channels := v'.channels)
  }

  /** Which steps leave a part of the vault alone. */
  lemma WritesSpare(v: Vault, v': Vault, s: Step)
    requires Writes(v, v', s)
    ensures !s.Deposit? && !s.ObserveWithdraw? ==> v'.processed == v.processed
    ensures !OnReservation(s) ==> v'.reservations == v.reservations
    ensures !s.Settle? && !s.ConfirmBatch? ==> v'.history == v.history
    ensures !s.Settle? && !s.Close? && !s.ConfirmBatch? && !s.PlanBatch? ==> v'.credits == v.credits
    ensures !OnChannel(s) ==> v'.channels == v.channels
  {
    if OnChannel(s) {
      ChannelSpares(v, v', s);
    } else if OnReservation(s) {
      ReservationSpares(v, v', s);
    } else {
      FundsSpare(v, v', s);
    }
  }

  lemma ChannelSpares(v: Vault, v': Vault, s: Step)
    requires Writes(v, v', s) && OnChannel(s)
    ensures v' == v.(clients := v'.clients, channels := v'.channels, credits := v'.credits) && (!s.Close? ==> v'.credits == v.credits)
  {
  }

  predicate OnReservation(s: Step) { s.Verify? || s.Settle? || s.Cancel? || s.ExpireReservation? || s.ConfirmBatch? }

  lemma ReservationSpares(v: Vault, v': Vault, s: Step)
    requires Writes(v, v', s) && OnReservation(s)
    ensures v'.channels == v.channels && v'.processed == v.processed
    ensures !s.Settle? && !s.ConfirmBatch? ==> v'.history == v.history && v'.credits == v.credits
  {
  }

  lemma FundsSpare(v: Vault, v': Vault, s: Step)
    requires Writes(v, v', s) && !OnChannel(s) && !OnReservation(s)
    ensures v'.channels == v.channels && v'.reservations == v.reservations && v'.history == v.history
    ensures (!s.PlanBatch? ==> v'.credits == v.credits) && (!s.Deposit? && !s.ObserveWithdraw? ==> v'.processed == v.processed)
  {
  }

  lemma RefreshWrites(v: Vault, c: Pubkey)
    ensures Refresh(v, c).v == v.(clients := Refresh(v, c).v.clients)
  {
    hide LockedUntil;
    if c in v.clients {}
  }

  lemma DepositWrites(v: Vault, signature: Id, c: Pubkey, amount: nat, slot: nat, ok: bool)
    ensures Writes(v, DepositStep(v, signature, c, amount, slot, ok).v, Deposit(signature, c, amount, slot, ok))
  {
    hide Existing, Processed, ApplyDeposit;
    if signature !in v.processed && ok {
      DepositedWrites(v, c, amount);
      ProcessedWrites(ApplyDeposit(v, c, amount), signature, slot);
    }
  }

  lemma DepositedWrites(v: Vault, c: Pubkey, amount: nat)
    ensures var v' := ApplyDeposit(v, c, amount); v' == v.(clients := v'.clients)
  {
  }

  lemma ProcessedWrites(v: Vault, signature: Id, slot: nat)
    ensures var v' := Processed(v, signature, slot);
      v' == v.(processed := v'.processed, lastSignature := v'.lastSignature, lastSlot := v'.lastSlot)
  {
  }

  lemma AuthorizeWrites(v: Vault, c: Pubkey, recipient: Pubkey, amount: nat, now: Time, ok: bool)
    ensures Writes(v, AuthorizeWithdrawStep(v, c, recipient, amount, now, ok).v, AuthorizeWithdraw(c, recipient, amount, now, ok))
  {
    hide Refresh, AuthorizeWithdrawal;
    var w := Withdrawal(c, recipient, amount, v.withdrawNonce, now, now + WITHDRAW_EXPIRY_SEC);
    var burned := v.(withdrawNonce := v.withdrawNonce + 1);
    AuthorizedWrites(burned, w);
    RefreshWrites(AuthorizeWithdrawal(burned, w).v, c);
  }

  lemma AuthorizedWrites(v: Vault, w: Withdrawal)
    ensures var v' := AuthorizeWithdrawal(v, w).v; v' == v.(clients := v'.clients, withdrawals := v'.withdrawals)
  {
    if w.client in v.clients { if w.amount <= v.clients[w.client].free {} }
  }

  lemma WithdrawalWrites(v: Vault, nonce: nat)
    ensures var v' := ApplyWithdrawal(v, nonce).v; v' == v.(clients := v'.clients, withdrawals := v'.withdrawals)
    ensures var v' := ExpireWithdrawal(v, nonce).v; v' == v.(clients := v'.clients, withdrawals := v'.withdrawals)
  {
    if nonce in v.withdrawals {
      var w, v1 := v.withdrawals[nonce], v.(withdrawals := v.withdrawals - {nonce});
      if w.client in v.clients {
        var b := v.clients[w.client];
        assert ApplyWithdrawal(v, nonce).v
          == v1.(clients := v.clients[w.client := b.(locked := SatSub(b.locked, w.amount), withdrawn := b.withdrawn + w.amount)]);
        assert ExpireWithdrawal(v, nonce).v
          == v1.(clients := v.clients[w.client := b.(locked := SatSub(b.locked, w.amount), free := b.free + w.amount)]);
      } else {
        assert ApplyWithdrawal(v, nonce).v == v1 && ExpireWithdrawal(v, nonce).v == v1;
      }
    }
  }

  lemma ObserveWrites(v: Vault, signature: Id, c: Pubkey, recipient: Pubkey, amount: nat, nonce: nat, expiresAt: Time, slot: nat, ok: bool)
    ensures Writes(v, ObserveWithdrawStep(v, signature, c, recipient, amount, nonce, expiresAt, slot, ok).v,
                   ObserveWithdraw(signature, c, recipient, amount, nonce, expiresAt, slot, ok))
  {
    hide Refresh, ApplyWithdrawal, Matches;
    WithdrawalWrites(v, nonce);
    var v1 := Processed(ApplyWithdrawal(v, nonce).v, signature, slot);
    RefreshWrites(v1, c);
    AppliedPending(v, nonce);
    if signature in v.processed {} else if ApplyWithdrawal(v, nonce).err.Some? {} else {
      if !Matches(v.withdrawals[nonce], c, recipient, amount, expiresAt) {} else if !ok {} else {}
    }
  }

  lemma ExpireWithdrawWrites(v: Vault, nonce: nat, now: Time, ok: bool)
    ensures Writes(v, ExpireWithdrawStep(v, nonce, now, ok).v, ExpireWithdraw(nonce, now, ok))
  {
    hide Refresh, ExpireWithdrawal;
    WithdrawalWrites(v, nonce);
    if nonce in v.withdrawals { RefreshWrites(ExpireWithdrawal(v, nonce).v, v.withdrawals[nonce].client); }
  }

  lemma BalanceWrites(v: Vault, c: Pubkey, amount: nat)
    ensures ReserveBalance(v, c, amount).v == v.(clients := ReserveBalance(v, c, amount).v.clients)
    ensures ReleaseBalance(v, c, amount).v == v.(clients := ReleaseBalance(v, c, amount).v.clients)
  {
    hide ReserveBalance, ReleaseBalance;
    if c in v.clients {
      ReleaseShape(v, c, amount);
      if amount <= v.clients[c].free { ReserveShape(v, c, amount); } else { Handlers.ReserveFails(v, c, amount); ReserveShort(v, c, amount); }
    } else {
      ReserveShort(v, c, amount);
      ReleaseMissing(v, c, amount);
    }
  }

  lemma ReserveShort(v: Vault, c: Pubkey, amount: nat)
    requires c !in v.clients || v.clients[c].free < amount
    ensures ReserveBalance(v, c, amount).v == v
  {
  }

  lemma VerifyWrites(v: Vault, vid: Id, payment: Id, c: Pubkey, provider: Id, amount: nat, d: ReservationDetail, ok: bool)
    ensures Writes(v, VerifyStep(v, vid, payment, c, provider, amount, d, ok).v, Verify(vid, payment, c, provider, amount, d, ok))
  {
    hide Refresh, ReserveBalance;
    BalanceWrites(v, c, amount);
    RefreshWrites(WithReservation(ReserveBalance(v, c, amount).v, NewReservation(vid, payment, c, provider, amount, d)), c);
  }

  lemma EndWrites(v: Vault, vid: Id, status: ReservationStatus)
    requires vid in v.reservations
    ensures var v' := EndReservation(v, vid, status);
      v' == v.(clients := v'.clients, reservations := v.reservations[vid := v.reservations[vid].(status := status)])
  {
    hide Refresh, ReleaseBalance;
    var r := v.reservations[vid];
    BalanceWrites(v, r.client, r.amount);
    RefreshWrites(WithStatus(ReleaseBalance(v, r.client, r.amount).v, vid, r.(status := status)), r.client);
  }

  lemma SettleWrites(k: Crypto, v: Vault, vid: Id, sid: Id, now: Time, ok: bool)
    requires Inv(k, v) && FreshSid(v, sid)
    ensures Writes(v, SettleStep(v, vid, sid, now, ok).v, Settle(vid, sid, now, ok))
  {
    hide SettleStep, Inv, FreshSid;
    if vid in v.reservations && v.reservations[vid].status == Reserved && now <= v.reservations[vid].expiresAt {
      if ok {
        SettleLogs(k, v, vid, sid, now);
        Recovery.SettleShape(v, vid, sid, now);
      } else {
        SettleFailed(k, v, vid, sid, now);
      }
    } else {
      SettleIdle(v, vid, sid, now, ok);
    }
  }

  lemma OpenWrites(v: Vault, id: Id, c: Pubkey, provider: Id, deposit: nat, now: Time, ok: bool)
    ensures Writes(v, OpenStep(v, id, c, provider, deposit, now, ok).v, OpenCh(id, c, provider, deposit, now, ok))
  {
    hide ReserveBalance;
    BalanceWrites(v, c, deposit);
    if provider in v.providers { if OpenChannel(v, id, c, provider, deposit, now).err.None? {} else {} }
  }

  lemma SubmitWrites(v: Vault, id: Id, rid: Id, amount: nat, hash: Bytes, now: Time, undoneAt: Time, ok: bool)
    ensures Writes(v, SubmitStep(v, id, rid, amount, hash, now, undoneAt, ok).v, Submit(id, rid, amount, hash, now, undoneAt, ok))
  {
    hide Refresh;
    var done := SubmitRequest(v, id, rid, amount, hash, now);
    if done.err.None? {
      assert done.v == WithChannel(v, id, done.v.channels[id]);
      RefreshWrites(done.v, v.channels[id].client);
    }
  }

  lemma DeliverWrites(k: Crypto, v: Vault, id: Id, d: Delivery, now: Time, undoneAt: Time, ok: bool)
    ensures Writes(v, DeliverStep(k, v, id, d, now, undoneAt, ok).v, Deliver(id, d, now, undoneAt, ok))
  {
    hide DeliveryVerifies;
    var done := DeliverAdaptor(k, v, id, d, now);
    if done.err.None? { assert done.v == WithChannel(v, id, done.v.channels[id]); }
  }

  lemma FinalizeWrites(v: Vault, id: Id, done: Finalized, now: Time, undoneAt: Time, ok: bool)
    requires Handlers.PaidShape(v, id, done, now)
    ensures var v' := FinalizeStep(v, id, done, undoneAt, ok).v; v' == v.(clients := v'.clients, channels := v'.channels)
  {
    hide Refresh;
    if done.Finalized? { RefreshWrites(done.v, v.channels[id].client); }
  }

  lemma ExpireReqWrites(v: Vault, id: Id, now: Time, undoneAt: Time, ok: bool)
    ensures Writes(v, ExpireReqStep(v, id, now, undoneAt, ok).v, ExpireReq(id, now, undoneAt, ok))
  {
    hide Refresh;
    if id in v.channels && Stale(v.channels[id], now) { RefreshWrites(ExpireRequest(v, id, now).v, v.channels[id].client); }
  }

  lemma CloseWrites(k: Crypto, v: Vault, id: Id, sid: Id, now: Time, ok: bool)
    requires Inv(k, v)
    ensures Writes(v, CloseStep(v, id, sid, now, ok).v, Close(id, sid, now, ok))
  {
    hide CloseChannel, Inv, LockedUntil, Refresh;
    CloseNeverStuck(k, v, id, sid, now);
    if id in v.channels && v.channels[id].status == Open { ClosedShape(v, id, sid, now); }
  }

  lemma ConfirmWrites(v: Vault, sids: seq<Id>, batchId: nat, signature: Id, ok: bool)
    ensures Writes(v, ConfirmBatchStep(v, sids, batchId, signature, ok).v, ConfirmBatch(sids, batchId, signature, ok))
  {
    hide ConfirmEach, TouchedEach;
    ConfirmEachFrame(v, sids, BatchInfo(batchId, signature));
  }

  lemma ChannelWrites(k: Crypto, v: Vault, s: Step)
    requires Inv(k, v) && Admissible(v, s) && OnChannel(s)
    ensures Writes(v, Live(k, v, s).v, s)
  {
    hide Inv, FreshSid, OpenStep, SubmitStep, DeliverStep, FinalizeStep, FinalizeOffchain, FinalizeOnchain, CloseStep, ExpireReqStep;
    match s
    case OpenCh(id, c, provider, amount, now, ok) => OpenWrites(v, id, c, provider, amount, now, ok);
    case Submit(id, rid, amount, hash, now, undoneAt, ok) => SubmitWrites(v, id, rid, amount, hash, now, undoneAt, ok);
    case Deliver(id, d, now, undoneAt, ok) => DeliverWrites(k, v, id, d, now, undoneAt, ok);
    case Finalize(id, secret, now, undoneAt, ok) =>
      Handlers.OffchainShape(k, v, id, secret, now);
      FinalizeWrites(v, id, FinalizeOffchain(k, v, id, secret, now), now, undoneAt, ok);
    case Claim(id, full, now, undoneAt, ok) =>
      Handlers.OnchainShape(k, v, id, full, now);
      FinalizeWrites(v, id, FinalizeOnchain(k, v, id, full, now), now, undoneAt, ok);
    case Close(id, sid, now, ok) => CloseWrites(k, v, id, sid, now, ok);
    case ExpireReq(id, now, undoneAt, ok) => ExpireReqWrites(v, id, now, undoneAt, ok);
  }

  lemma FundsWrites(k: Crypto, v: Vault, s: Step)
    requires Inv(k, v) && Admissible(v, s)
    requires s.Deposit? || s.AuthorizeWithdraw? || s.ObserveWithdraw? || s.ExpireWithdraw? || s.Verify? || s.Settle? || s.Cancel? || s.ExpireReservation?
    ensures Writes(v, Live(k, v, s).v, s)
  {
    hide Inv, FreshSid, EventMatches, DepositStep, AuthorizeWithdrawStep, ObserveWithdrawStep, ExpireWithdrawStep, VerifyStep, SettleStep,
      EndReservation;
    match s
    case Deposit(signature, c, amount, slot, ok) => DepositWrites(v, signature, c, amount, slot, ok);
    case AuthorizeWithdraw(c, recipient, amount, now, ok) => AuthorizeWrites(v, c, recipient, amount, now, ok);
    case ObserveWithdraw(signature, c, recipient, amount, nonce, expiresAt, slot, ok) =>
      ObserveWrites(v, signature, c, recipient, amount, nonce, expiresAt, slot, ok);
    case ExpireWithdraw(nonce, now, ok) => ExpireWithdrawWrites(v, nonce, now, ok);
    case Verify(vid, payment, c, provider, amount, d, ok) => VerifyWrites(v, vid, payment, c, provider, amount, d, ok);
    case Settle(vid, sid, now, ok) => SettleWrites(k, v, vid, sid, now, ok);
    case Cancel(vid, ok) => if vid in v.reservations { EndWrites(v, vid, Cancelled); }
    case ExpireReservation(vid, now, ok) => if vid in v.reservations { EndWrites(v, vid, Expired); }
  }

  lemma OtherWrites(k: Crypto, v: Vault, s: Step)
    requires Inv(k, v) && Admissible(v, s) && (s.Register? || s.IssueReceipt? || s.ConfirmBatch? || s.NoteBatch? || s.PlanBatch?)
    ensures Writes(v, Live(k, v, s).v, s)
  {
    hide Inv, Payable, ConfirmBatchStep, Planned, Listing;
    match s
    case Register(p, ok) =>
    case IssueReceipt(issued, mirrored) =>
    case ConfirmBatch(sids, batchId, signature, ok) => ConfirmWrites(v, sids, batchId, signature, ok);
    case NoteBatch(batchId, ok) =>
    case PlanBatch(order, now, mode, config) =>
      BatchCursors.PlannableNow(k, v);
      BatchCursors.PassCleans(v, order, now, mode, config);
  }

  /** Each step writes its own part of the vault and nothing else. */
  lemma StepWrites(k: Crypto, v: Vault, s: Step)
    requires Inv(k, v) && Admissible(v, s)
    ensures Writes(v, Live(k, v, s).v, s)
  {
    hide Inv, Admissible, Live, Writes;
    if OnChannel(s) {
      ChannelWrites(k, v, s);
    } else if s.Register? || s.IssueReceipt? || s.ConfirmBatch? || s.NoteBatch? || s.PlanBatch? {
      OtherWrites(k, v, s);
    } else {
      FundsWrites(k, v, s);
    }
  }
}
