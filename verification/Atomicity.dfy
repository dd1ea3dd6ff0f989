/** A step changes the vault and the log together, or neither. */
module Atomicity {
  import opened Prelude
  import opened VaultTypes
  import opened Ledger
  import opened Channels
  import opened Steps
  import opened Invariant
  import opened SettlementLemmas
  import opened Preservation
  import opened Runs
  import opened CursorPass

  predicate InChannel(s: Step) { s.Submit? || s.Deliver? || s.Finalize? || s.Claim? || s.ExpireReq? }

  /** A settlement of this reservation would have been for a provider whose credit owes nothing. */
  predicate DropsEmptyCredit(v: Vault, vid: Id, v': Vault)
  {
    && vid in v.reservations && v.reservations[vid].provider in v.credits
    && v.credits[v.reservations[vid].provider].amount == 0
    && v' == v.(credits := v.credits - {v.reservations[vid].provider})
  }

  /** All that a step without a log entry can leave behind. */
  ghost predicate LeftAsIs(v: Vault, s: Step, v': Vault)
  {
    || v' == v
    || (s.Deposit? && v' == WithBalance(v, s.client, Existing(v, s.client)))
    || (s.AuthorizeWithdraw? && v' == v.(withdrawNonce := v.withdrawNonce + 1))
    || (s.IssueReceipt? && v' == v.(receiptNonce := v.receiptNonce + 1))
    || (InChannel(s) && s.channelId in v.channels && v' == Touch(v, s.channelId, s.undoneAt))
    || (s.Settle? && DropsEmptyCredit(v, s.verificationId, v'))
    || (s.PlanBatch? && !AllBacked(v) && v' == v.(credits := v'.credits))
  }

  lemma OffchainHasChannel(k: Crypto, v: Vault, id: Id, secret: Bytes, now: Time)
    ensures FinalizeOffchain(k, v, id, secret, now).Finalized? ==> id in v.channels
  {
  }

  lemma UnloggedInChannel(k: Crypto, v: Vault, s: Step)
    requires InChannel(s) && Live(k, v, s).entries == []
    ensures Live(k, v, s).v == v || (s.channelId in v.channels && Live(k, v, s).v == Touch(v, s.channelId, s.undoneAt))
  {
    hide Refresh, FinalizeWithSecret, ClaimVerifies, DeliveryVerifies, Touch;
    match s
    case Finalize(id, secret, now, undoneAt, ok) => OffchainHasChannel(k, v, id, secret, now);
    case Claim(id, full, now, undoneAt, ok) =>
    case Submit(id, _, _, _, _, undoneAt, _) =>
    case Deliver(id, _, _, undoneAt, _) =>
    case ExpireReq(id, _, undoneAt, _) =>
  }

  lemma UnloggedSettle(k: Crypto, v: Vault, vid: Id, sid: Id, now: Time, ok: bool)
    requires Inv(k, v) && FreshSid(v, sid) && SettleStep(v, vid, sid, now, ok).entries == []
    ensures SettleStep(v, vid, sid, now, ok).v == v || DropsEmptyCredit(v, vid, SettleStep(v, vid, sid, now, ok).v)
  {
    hide SettleStep, FreshSid, Inv;
    if vid in v.reservations && v.reservations[vid].status == Reserved && now <= v.reservations[vid].expiresAt {
      if ok { SettleLogs(k, v, vid, sid, now); } else { SettleFailed(k, v, vid, sid, now); }
    } else {
      SettleIdle(v, vid, sid, now, ok);
    }
  }

  /** Steps that log first, or undo everything, or change nothing when refused. */
  predicate Plain(s: Step)
  {
    s.ExpireWithdraw? || s.Verify? || s.Cancel? || s.ExpireReservation? || s.Register? || s.ConfirmBatch? || s.NoteBatch? || s.OpenCh?
  }

  lemma UnloggedPlain(k: Crypto, v: Vault, s: Step)
    requires Plain(s) && Live(k, v, s).entries == []
    ensures Live(k, v, s).v == v
  {
    hide Refresh, EndReservation, ApplyBatchConfirmation, ReserveBalance, OpenChannel, ExpireWithdrawal;
    match s
    case ExpireWithdraw(nonce, now, ok) =>
    case Verify(vid, payment, c, provider, amount, d, ok) =>
    case Cancel(vid, ok) =>
    case ExpireReservation(vid, now, ok) =>
    case Register(p, ok) =>
    case ConfirmBatch(sids, batchId, signature, ok) =>
    case NoteBatch(batchId, ok) =>
    case OpenCh(id, c, provider, amount, now, ok) =>
  }

  lemma UnloggedObserve(k: Crypto, v: Vault, s: Step)
    requires Inv(k, v) && s.ObserveWithdraw? && Admissible(v, s) && Live(k, v, s).entries == []
    ensures Live(k, v, s).v == v
  {
    hide MoneyOk, SettledOk, ChannelsOk, PaymentsOk, Refresh;
    if s.nonce in v.withdrawals { WithdrawalLocked(v, s.nonce); }
  }

  lemma UnloggedClose(k: Crypto, v: Vault, s: Step)
    requires Inv(k, v) && s.Close? && Live(k, v, s).entries == []
    ensures Live(k, v, s).v == v
  {
    hide Inv, CloseChannel, Refresh;
    CloseNeverStuck(k, v, s.channelId, s.settlementId, s.now);
  }

  lemma UnloggedOwn(k: Crypto, v: Vault, s: Step)
    requires (s.Deposit? || s.AuthorizeWithdraw? || s.IssueReceipt?) && Live(k, v, s).entries == []
    ensures LeftAsIs(v, s, Live(k, v, s).v)
  {
    hide ApplyDeposit, AuthorizeWithdrawal, Refresh, Processed, WithBalance, Existing;
  }

  lemma UnloggedPlan(k: Crypto, v: Vault, s: Step)
    requires Inv(k, v) && s.PlanBatch? && Admissible(v, s)
    ensures LeftAsIs(v, s, Live(k, v, s).v)
  {
    hide Inv, Planned, Listing, AllBacked;
    BatchCursors.PlannableNow(k, v);
    BatchCursors.UntouchedIffBacked(v, s.order, s.now, s.mode, s.config);
    BatchCursors.PassCleans(v, s.order, s.now, s.mode, s.config);
  }

  lemma UnloggedSettlement(k: Crypto, v: Vault, s: Step)
    requires Inv(k, v) && s.Settle? && Admissible(v, s) && Live(k, v, s).entries == []
    ensures LeftAsIs(v, s, Live(k, v, s).v)
  {
    hide Inv, SettleStep, FreshSid, DropsEmptyCredit;
    UnloggedSettle(k, v, s.verificationId, s.settlementId, s.now, s.ok);
  }

  /**
   * Whatever a handler did before its append failed is undone. What may stay is an empty balance for a client that
   * was not known, a used-up nonce, the time a channel was last touched, or the loss of a credit that owed nothing.
   * Planning a batch logs nothing and writes only credits, and those only when one is not backed.
   */
  lemma UnloggedLeaves(k: Crypto, v: Vault, s: Step)
    requires Inv(k, v) && Admissible(v, s) && Live(k, v, s).entries == []
    ensures LeftAsIs(v, s, Live(k, v, s).v)
  {
    hide Inv, Admissible, Live, Touch, WithBalance, Existing, DropsEmptyCredit, AllBacked;
    if Plain(s) {
      UnloggedPlain(k, v, s);
    } else if InChannel(s) {
      UnloggedInChannel(k, v, s);
    } else if s.Settle? {
      UnloggedSettlement(k, v, s);
    } else if s.ObserveWithdraw? {
      UnloggedObserve(k, v, s);
    } else if s.Close? {
      UnloggedClose(k, v, s);
    } else if s.PlanBatch? {
      UnloggedPlan(k, v, s);
    } else {
      UnloggedOwn(k, v, s);
    }
  }
}
