/** What the log says was deposited and withdrawn, and that the balances agree with it in every run. */
module LogTotals {
  import opened CursorPass
  import opened Prelude
  import opened Sums
  import opened VaultTypes
  import opened Ledger
  import opened Channels
  import opened Steps
  import opened Invariant
  import opened SettlementLemmas
  import opened BatchLemmas
  import opened Preservation
  import opened Rollbacks
  import opened Runs
  import Recovery
  import Handlers

  // ---- One client's totals ----

  function DepositedBy(cl: map<Pubkey, Balance>, c: Pubkey): nat { if c in cl then cl[c].deposited else 0 }
  function WithdrawnBy(cl: map<Pubkey, Balance>, c: Pubkey): nat { if c in cl then cl[c].withdrawn else 0 }

  /** At most client `c`'s balance is written, with so much more deposited and withdrawn. */
  ghost predicate Books(cl: map<Pubkey, Balance>, cl': map<Pubkey, Balance>, c: Pubkey, deposit: nat, withdrawal: nat)
  {
    || (cl' == cl && deposit == 0 && withdrawal == 0)
    || (c in cl' && cl' == cl[c := cl'[c]]
        && cl'[c].deposited == DepositedBy(cl, c) + deposit && cl'[c].withdrawn == WithdrawnBy(cl, c) + withdrawal)
  }

  lemma BooksThen(a: map<Pubkey, Balance>, b: map<Pubkey, Balance>, e: map<Pubkey, Balance>, c: Pubkey, deposit: nat, withdrawal: nat)
    requires Books(a, b, c, deposit, withdrawal) && Books(b, e, c, 0, 0)
    ensures Books(a, e, c, deposit, withdrawal)
  {
    if b != a && e != b { assert e == a[c := e[c]]; }
  }

  lemma Written(cl: map<Pubkey, Balance>, c: Pubkey, b: Balance, deposit: nat, withdrawal: nat)
    requires b.deposited == DepositedBy(cl, c) + deposit && b.withdrawn == WithdrawnBy(cl, c) + withdrawal
    ensures Books(cl, cl[c := b], c, deposit, withdrawal)
  {
  }

  lemma RefreshBooks(v: Vault, c: Pubkey)
    ensures Books(v.clients, Refresh(v, c).v.clients, c, 0, 0)
  {
    hide LockedUntil;
    if c in v.clients {
      Written(v.clients, c, v.clients[c].(maxLock := LockedUntil(c, v.reservations, v.withdrawals, v.channels)), 0, 0);
    }
  }

  lemma ReserveBooks(v: Vault, c: Pubkey, amount: nat)
    ensures Books(v.clients, ReserveBalance(v, c, amount).v.clients, c, 0, 0)
  {
    if c in v.clients && amount <= v.clients[c].free {
      ReserveShape(v, c, amount);
      Written(v.clients, c, v.clients[c].(free := v.clients[c].free - amount, locked := v.clients[c].locked + amount), 0, 0);
    }
  }

  lemma ReleaseBooks(v: Vault, c: Pubkey, amount: nat)
    ensures Books(v.clients, ReleaseBalance(v, c, amount).v.clients, c, 0, 0)
  {
    hide ReleaseBalance;
    if c in v.clients {
      ReleaseShape(v, c, amount);
      Written(v.clients, c, v.clients[c].(free := v.clients[c].free + amount, locked := SatSub(v.clients[c].locked, amount)), 0, 0);
    } else {
      ReleaseMissing(v, c, amount);
    }
  }

  // ---- What one step logs and does ----

  function DepositIn(log: seq<Entry>): nat
  {
    if log == [] then 0 else
      var e := log[|log| - 1];
      DepositIn(log[..|log| - 1]) + if e.DepositApplied? then e.amount else 0
  }

  function WithdrawnIn(log: seq<Entry>): nat
  {
    if log == [] then 0 else
      var e := log[|log| - 1];
      WithdrawnIn(log[..|log| - 1]) + if e.WithdrawApplied? then e.amount else 0
  }

  predicate Pays(e: Entry) { e.DepositApplied? || e.WithdrawApplied? }

  lemma NoTotals(log: seq<Entry>)
    requires forall i :: 0 <= i < |log| ==> !Pays(log[i])
    ensures DepositIn(log) == 0 && WithdrawnIn(log) == 0
    decreases |log|
  {
    if log != [] { NoTotals(log[..|log| - 1]); }
  }

  lemma OneTotal(e: Entry)
    ensures DepositIn([e]) == if e.DepositApplied? then e.amount else 0
    ensures WithdrawnIn([e]) == if e.WithdrawApplied? then e.amount else 0
  {
    assert [e][..0] == [];
  }

  lemma DepositShape(v: Vault, signature: Id, c: Pubkey, amount: nat, slot: nat)
    ensures var b := Existing(v, c);
      Processed(ApplyDeposit(v, c, amount), signature, slot).clients
        == v.clients[c := b.(free := b.free + amount, deposited := b.deposited + amount)]
  {
  }

  lemma DepositBooks(v: Vault, signature: Id, c: Pubkey, amount: nat, slot: nat, ok: bool)
    ensures var step := DepositStep(v, signature, c, amount, slot, ok);
      Books(v.clients, step.v.clients, c, DepositIn(step.entries), WithdrawnIn(step.entries))
  {
    hide DepositIn, WithdrawnIn, Books, ApplyDeposit, Processed;
    var b := Existing(v, c);
    if signature in v.processed {
      NoTotals([]);
      Unwritten(v.clients, c);
    } else if !ok {
      NoTotals([]);
      Written(v.clients, c, b, 0, 0);
    } else {
      OneTotal(DepositApplied(c, amount, slot, signature));
      DepositShape(v, signature, c, amount, slot);
      Written(v.clients, c, b.(free := b.free + amount, deposited := b.deposited + amount), amount, 0);
    }
  }

  lemma Unwritten(cl: map<Pubkey, Balance>, c: Pubkey)
    ensures Books(cl, cl, c, 0, 0)
  {
  }

  lemma AuthorizeBooks(v: Vault, c: Pubkey, recipient: Pubkey, amount: nat, now: Time, ok: bool)
    ensures var step := AuthorizeWithdrawStep(v, c, recipient, amount, now, ok);
      Books(v.clients, step.v.clients, c, DepositIn(step.entries), WithdrawnIn(step.entries))
  {
    hide DepositIn, WithdrawnIn, Books, Refresh;
    var w := Withdrawal(c, recipient, amount, v.withdrawNonce, now, now + WITHDRAW_EXPIRY_SEC);
    var burned := v.(withdrawNonce := v.withdrawNonce + 1);
    var done := AuthorizeWithdrawal(burned, w);
    NoTotals([]);
    Unwritten(v.clients, c);
    if done.err.None? && ok {
      OneTotal(WithdrawAuthorized(w));
      var b := v.clients[c];
      var b' := b.(free := b.free - amount, locked := b.locked + amount);
      Written(v.clients, c, b', 0, 0);
      assert done.v.clients == v.clients[c := b'];
      RefreshBooks(done.v, c);
      BooksThen(v.clients, done.v.clients, Refresh(done.v, c).v.clients, c, 0, 0);
    }
  }

  lemma ObserveBooks(v: Vault, signature: Id, c: Pubkey, recipient: Pubkey, amount: nat, nonce: nat, expiresAt: Time, slot: nat, ok: bool)
    requires MoneyOk(v) && IndexOk(v) && EventMatches(v, c, recipient, amount, nonce, expiresAt)
    ensures var step := ObserveWithdrawStep(v, signature, c, recipient, amount, nonce, expiresAt, slot, ok);
      Books(v.clients, step.v.clients, c, DepositIn(step.entries), WithdrawnIn(step.entries))
  {
    hide DepositIn, WithdrawnIn, Books, Refresh, MoneyOk, IndexOk;
    NoTotals([]);
    Unwritten(v.clients, c);
    if signature !in v.processed && nonce in v.withdrawals {
      WithdrawalLocked(v, nonce);
      if ok {
        OneTotal(WithdrawApplied(c, recipient, amount, nonce, expiresAt, slot, signature));
        var b := v.clients[c];
        var b' := b.(locked := SatSub(b.locked, amount), withdrawn := b.withdrawn + amount);
        Written(v.clients, c, b', 0, amount);
        var v1 := Processed(ApplyWithdrawal(v, nonce).v, signature, slot);
        assert v1.clients == v.clients[c := b'];
        RefreshBooks(v1, c);
        BooksThen(v.clients, v1.clients, Refresh(v1, c).v.clients, c, 0, amount);
      }
    }
  }

  lemma ExpireWithdrawBooks(v: Vault, nonce: nat, now: Time, ok: bool, c: Pubkey)
    requires nonce in v.withdrawals ==> v.withdrawals[nonce].client == c
    ensures var step := ExpireWithdrawStep(v, nonce, now, ok);
      Books(v.clients, step.v.clients, c, DepositIn(step.entries), WithdrawnIn(step.entries))
  {
    hide DepositIn, WithdrawnIn, Books, Refresh;
    NoTotals([]);
    Unwritten(v.clients, c);
    if nonce in v.withdrawals && now > v.withdrawals[nonce].expiresAt && ok {
      OneTotal(WithdrawExpired(c, nonce));
      var v1 := ExpireWithdrawal(v, nonce).v;
      if c in v.clients {
        var w, b := v.withdrawals[nonce], v.clients[c];
        var b' := b.(locked := SatSub(b.locked, w.amount), free := b.free + w.amount);
        Written(v.clients, c, b', 0, 0);
        assert v1.clients == v.clients[c := b'];
      } else {
        assert v1.clients == v.clients;
      }
      RefreshBooks(v1, c);
      BooksThen(v.clients, v1.clients, Refresh(v1, c).v.clients, c, 0, 0);
    }
  }

  lemma VerifyBooks(v: Vault, vid: Id, payment: Id, c: Pubkey, provider: Id, amount: nat, d: ReservationDetail, ok: bool)
    ensures var step := VerifyStep(v, vid, payment, c, provider, amount, d, ok);
      Books(v.clients, step.v.clients, c, DepositIn(step.entries), WithdrawnIn(step.entries))
  {
    hide DepositIn, WithdrawnIn, Books, Refresh, ReserveBalance;
    NoTotals([]);
    Unwritten(v.clients, c);
    var done := ReserveBalance(v, c, amount);
    if VerifyStep(v, vid, payment, c, provider, amount, d, ok).entries != [] {
      OneTotal(ReservationCreated(vid, payment, c, provider, amount, Some(d)));
      var v1 := WithReservation(done.v, NewReservation(vid, payment, c, provider, amount, d));
      ReserveBooks(v, c, amount);
      RefreshBooks(v1, c);
      BooksThen(v.clients, done.v.clients, Refresh(v1, c).v.clients, c, 0, 0);
    }
  }

  lemma SettleBooks(k: Crypto, v: Vault, vid: Id, sid: Id, now: Time, ok: bool, c: Pubkey)
    requires Inv(k, v) && FreshSid(v, sid) && (vid in v.reservations ==> v.reservations[vid].client == c)
    ensures var step := SettleStep(v, vid, sid, now, ok);
      Books(v.clients, step.v.clients, c, DepositIn(step.entries), WithdrawnIn(step.entries))
  {
    hide DepositIn, WithdrawnIn, Books, SettleStep, Inv, FreshSid;
    NoTotals([]);
    Unwritten(v.clients, c);
    if vid in v.reservations && v.reservations[vid].status == Reserved && now <= v.reservations[vid].expiresAt {
      if ok {
        SettleLogs(k, v, vid, sid, now);
        Recovery.SettleShape(v, vid, sid, now);
        var r := v.reservations[vid];
        OneTotal(SettlementCommitted(sid, vid, r.provider, r.amount, Some(now)));
        var b := SettleStep(v, vid, sid, now, true).v.clients[c];
        assert SettleStep(v, vid, sid, now, true).v.clients == v.clients[c := b];
        Written(v.clients, c, b, 0, 0);
      } else {
        SettleFailed(k, v, vid, sid, now);
        UndoneLogsNothing(v, vid, sid, now);
      }
    } else {
      SettleIdle(v, vid, sid, now, ok);
    }
  }

  lemma EndBooks(v: Vault, vid: Id, status: ReservationStatus)
    requires vid in v.reservations
    ensures Books(v.clients, EndReservation(v, vid, status).clients, v.reservations[vid].client, 0, 0)
  {
    hide Books, Refresh, ReleaseBalance;
    var r := v.reservations[vid];
    var v1 := ReleaseBalance(v, r.client, r.amount).v;
    var v2 := WithStatus(v1, vid, r.(status := status));
    ReleaseBooks(v, r.client, r.amount);
    RefreshBooks(v2, r.client);
    BooksThen(v.clients, v1.clients, Refresh(v2, r.client).v.clients, r.client, 0, 0);
  }

  lemma OpenBooks(v: Vault, id: Id, c: Pubkey, provider: Id, deposit: nat, now: Time, ok: bool)
    ensures var step := OpenStep(v, id, c, provider, deposit, now, ok);
      Books(v.clients, step.v.clients, c, DepositIn(step.entries), WithdrawnIn(step.entries))
  {
    hide DepositIn, WithdrawnIn, Books, ReserveBalance;
    NoTotals([]);
    Unwritten(v.clients, c);
    OneTotal(ChannelOpened(id, c, provider, deposit));
    ReserveBooks(v, c, deposit);
  }

  lemma SubmitBooks(v: Vault, id: Id, rid: Id, amount: nat, hash: Bytes, now: Time, undoneAt: Time, ok: bool, c: Pubkey)
    requires id in v.channels ==> c == v.channels[id].client
    ensures var step := SubmitStep(v, id, rid, amount, hash, now, undoneAt, ok);
      Books(v.clients, step.v.clients, c, DepositIn(step.entries), WithdrawnIn(step.entries))
  {
    hide DepositIn, WithdrawnIn, Books, Refresh;
    NoTotals([]);
    Unwritten(v.clients, c);
    OneTotal(RequestSubmitted(id, rid, amount, Some(hash)));
    if SubmitRequest(v, id, rid, amount, hash, now).err.None? {
      assert SubmitRequest(v, id, rid, amount, hash, now).v.clients == v.clients;
      RefreshBooks(SubmitRequest(v, id, rid, amount, hash, now).v, c);
    }
  }

  lemma DeliverBooks(k: Crypto, v: Vault, id: Id, d: Delivery, now: Time, undoneAt: Time, ok: bool, c: Pubkey)
    ensures var step := DeliverStep(k, v, id, d, now, undoneAt, ok);
      Books(v.clients, step.v.clients, c, DepositIn(step.entries), WithdrawnIn(step.entries))
  {
    hide DepositIn, WithdrawnIn, Books, DeliveryVerifies;
    NoTotals([]);
    Unwritten(v.clients, c);
    if id in v.channels && DeliverAdaptor(k, v, id, d, now).err.None? {
      OneTotal(AdaptorDelivered(id, v.channels[id].request.value.requestId, Some(d)));
      assert DeliverAdaptor(k, v, id, d, now).v.clients == v.clients && Touch(v, id, undoneAt).clients == v.clients;
    }
  }

  lemma FinalizeBooks(v: Vault, id: Id, done: Finalized, now: Time, undoneAt: Time, ok: bool, c: Pubkey)
    requires Handlers.PaidShape(v, id, done, now) && (id in v.channels ==> c == v.channels[id].client)
    ensures var step := FinalizeStep(v, id, done, undoneAt, ok);
      Books(v.clients, step.v.clients, c, DepositIn(step.entries), WithdrawnIn(step.entries))
  {
    hide DepositIn, WithdrawnIn, Books, Refresh;
    NoTotals([]);
    Unwritten(v.clients, c);
    if done.Finalized? {
      OneTotal(ChannelFinalized(id, done.request.requestId, done.request.amount));
      RefreshBooks(done.v, c);
    }
  }

  lemma ExpireReqBooks(v: Vault, id: Id, now: Time, undoneAt: Time, ok: bool, c: Pubkey)
    requires id in v.channels ==> c == v.channels[id].client
    ensures var step := ExpireReqStep(v, id, now, undoneAt, ok);
      Books(v.clients, step.v.clients, c, DepositIn(step.entries), WithdrawnIn(step.entries))
  {
    hide DepositIn, WithdrawnIn, Books, Refresh;
    NoTotals([]);
    Unwritten(v.clients, c);
    if id in v.channels && Stale(v.channels[id], now) {
      var req := v.channels[id].request.value;
      OneTotal(RequestExpired(id, req.requestId, req.amount));
      RefreshBooks(ExpireRequest(v, id, now).v, c);
    }
  }

  lemma CloseBooks(k: Crypto, v: Vault, id: Id, sid: Id, now: Time, ok: bool, c: Pubkey)
    requires Inv(k, v) && (id in v.channels ==> c == v.channels[id].client)
    ensures var step := CloseStep(v, id, sid, now, ok);
      Books(v.clients, step.v.clients, c, DepositIn(step.entries), WithdrawnIn(step.entries))
  {
    hide DepositIn, WithdrawnIn, Books, CloseStep, Inv, LockedUntil;
    CloseOutcome(k, v, id, sid, now, ok);
    if ok && id in v.channels && v.channels[id].status == Open {
      var ch := v.channels[id];
      OneTotal(ChannelClosed(id, ch.free, ch.earned, if ch.earned > 0 then Some(sid) else None));
      Written(v.clients, c, ClosedBalance(v, id), 0, 0);
    } else {
      NoTotals([]);
      Unwritten(v.clients, c);
    }
  }

  lemma OtherBooks(k: Crypto, v: Vault, s: Step, c: Pubkey)
    requires (s.Register? || s.IssueReceipt? || s.ConfirmBatch? || s.NoteBatch?)
    ensures var step := Live(k, v, s); Books(v.clients, step.v.clients, c, DepositIn(step.entries), WithdrawnIn(step.entries))
  {
    hide DepositIn, WithdrawnIn, Books, ApplyBatchConfirmation;
    Unwritten(v.clients, c);
    NoTotals(Live(k, v, s).entries);
    if s.ConfirmBatch? { ConfirmedClients(v, s.settlementIds, s.batchId, s.signature); }
  }

  lemma ConfirmedClients(v: Vault, sids: seq<Id>, batchId: nat, signature: Id)
    ensures ApplyBatchConfirmation(v, sids, batchId, signature).clients == v.clients
  {
    hide ConfirmEach, TouchedEach;
    ConfirmEachFrame(v, sids, BatchInfo(batchId, signature));
  }

  // ---- Whole runs ----

  predicate MovesFunds(s: Step)
  {
    s.Deposit? || s.AuthorizeWithdraw? || s.ObserveWithdraw? || s.ExpireWithdraw? || s.Verify? || s.Settle? || s.Cancel? || s.ExpireReservation?
  }

  lemma FundsBooks(k: Crypto, v: Vault, s: Step) returns (c: Pubkey)
    requires Inv(k, v) && Admissible(v, s) && MovesFunds(s)
    ensures var step := Live(k, v, s); Books(v.clients, step.v.clients, c, DepositIn(step.entries), WithdrawnIn(step.entries))
  {
    hide DepositIn, WithdrawnIn, Books, DepositStep, AuthorizeWithdrawStep, ObserveWithdrawStep, ExpireWithdrawStep, VerifyStep,
      SettleStep, EndReservation, MoneyOk, IndexOk, SettledOk, ChannelsOk, FreshSid;
    c := Pubkey([]);
    match s
    case Deposit(signature, d, amount, slot, ok) => c := d; DepositBooks(v, signature, c, amount, slot, ok);
    case AuthorizeWithdraw(d, recipient, amount, now, ok) => c := d; AuthorizeBooks(v, c, recipient, amount, now, ok);
    case ObserveWithdraw(signature, d, recipient, amount, nonce, expiresAt, slot, ok) =>
      c := d;
      ObserveBooks(v, signature, c, recipient, amount, nonce, expiresAt, slot, ok);
    case ExpireWithdraw(nonce, now, ok) =>
      if nonce in v.withdrawals { c := v.withdrawals[nonce].client; }
      ExpireWithdrawBooks(v, nonce, now, ok, c);
    case Verify(vid, payment, d, provider, amount, detail, ok) => c := d; VerifyBooks(v, vid, payment, c, provider, amount, detail, ok);
    case Settle(vid, sid, now, ok) =>
      if vid in v.reservations { c := v.reservations[vid].client; }
      SettleBooks(k, v, vid, sid, now, ok, c);
    case Cancel(vid, ok) => c := CancelBooks(v, vid, Cancelled, Live(k, v, s));
    case ExpireReservation(vid, now, ok) => c := CancelBooks(v, vid, Expired, Live(k, v, s));
  }

  /** The client of the channel a step is about. */
  function PartyOf(v: Vault, id: Id): Pubkey { if id in v.channels then v.channels[id].client else Pubkey([]) }

  lemma PaymentBooks(k: Crypto, v: Vault, s: Step) returns (c: Pubkey)
    requires s.Finalize? || s.Claim?
    ensures var step := Live(k, v, s); Books(v.clients, step.v.clients, c, DepositIn(step.entries), WithdrawnIn(step.entries))
  {
    hide DepositIn, WithdrawnIn, Books, FinalizeStep, FinalizeOffchain, FinalizeOnchain;
    c := PartyOf(v, s.channelId);
    if s.Finalize? {
      Handlers.OffchainShape(k, v, s.channelId, s.secret, s.now);
      FinalizeBooks(v, s.channelId, FinalizeOffchain(k, v, s.channelId, s.secret, s.now), s.now, s.undoneAt, s.ok, c);
    } else {
      Handlers.OnchainShape(k, v, s.channelId, s.full, s.now);
      FinalizeBooks(v, s.channelId, FinalizeOnchain(k, v, s.channelId, s.full, s.now), s.now, s.undoneAt, s.ok, c);
    }
  }

  lemma RequestBooks(k: Crypto, v: Vault, s: Step) returns (c: Pubkey)
    requires s.Submit? || s.Deliver? || s.ExpireReq?
    ensures var step := Live(k, v, s); Books(v.clients, step.v.clients, c, DepositIn(step.entries), WithdrawnIn(step.entries))
  {
    hide DepositIn, WithdrawnIn, Books, SubmitStep, DeliverStep, ExpireReqStep;
    c := PartyOf(v, s.channelId);
    if s.Submit? {
      SubmitBooks(v, s.channelId, s.requestId, s.amount, s.requestHash, s.now, s.undoneAt, s.ok, c);
    } else if s.Deliver? {
      DeliverBooks(k, v, s.channelId, s.delivery, s.now, s.undoneAt, s.ok, c);
    } else {
      ExpireReqBooks(v, s.channelId, s.now, s.undoneAt, s.ok, c);
    }
  }

  lemma ChannelBooks(k: Crypto, v: Vault, s: Step) returns (c: Pubkey)
    requires Inv(k, v) && (s.OpenCh? || s.Close?)
    ensures var step := Live(k, v, s); Books(v.clients, step.v.clients, c, DepositIn(step.entries), WithdrawnIn(step.entries))
  {
    hide DepositIn, WithdrawnIn, Books, OpenStep, CloseStep, Inv;
    if s.OpenCh? {
      c := s.client;
      OpenBooks(v, s.channelId, c, s.provider, s.amount, s.now, s.ok);
    } else {
      c := PartyOf(v, s.channelId);
      CloseBooks(k, v, s.channelId, s.settlementId, s.now, s.ok, c);
    }
  }

  lemma PlanBooks(k: Crypto, v: Vault, s: Step, c: Pubkey)
    requires Inv(k, v) && Admissible(v, s) && s.PlanBatch?
    ensures var step := Live(k, v, s); Books(v.clients, step.v.clients, c, DepositIn(step.entries), WithdrawnIn(step.entries))
  {
    hide DepositIn, WithdrawnIn, Books, Inv, Planned, Listing;
    BatchCursors.PlannableNow(k, v);
    BatchCursors.PassCleans(v, s.order, s.now, s.mode, s.config);
    Unwritten(v.clients, c);
    NoTotals([]);
  }

  /** Every step writes at most one balance, and what it deposits and withdraws is what it logs. */
  lemma StepBooks(k: Crypto, v: Vault, s: Step) returns (c: Pubkey)
    requires Inv(k, v) && Admissible(v, s)
    ensures var step := Live(k, v, s); Books(v.clients, step.v.clients, c, DepositIn(step.entries), WithdrawnIn(step.entries))
  {
    hide DepositIn, WithdrawnIn, Books, Inv, Admissible, Live;
    c := Pubkey([]);
    if MovesFunds(s) {
      c := FundsBooks(k, v, s);
    } else if s.Finalize? || s.Claim? {
      c := PaymentBooks(k, v, s);
    } else if s.Submit? || s.Deliver? || s.ExpireReq? {
      c := RequestBooks(k, v, s);
    } else if s.OpenCh? || s.Close? {
      c := ChannelBooks(k, v, s);
    } else if s.PlanBatch? {
      PlanBooks(k, v, s, c);
    } else {
      OtherBooks(k, v, s, c);
    }
  }

  lemma CancelBooks(v: Vault, vid: Id, status: ReservationStatus, step: Outcome) returns (c: Pubkey)
    requires step == Idle(v) || (vid in v.reservations && step.v == EndReservation(v, vid, status)
      && |step.entries| == 1 && !Pays(step.entries[0]))
    ensures Books(v.clients, step.v.clients, c, DepositIn(step.entries), WithdrawnIn(step.entries))
  {
    hide Books, EndReservation;
    c := if vid in v.reservations then v.reservations[vid].client else Pubkey([]);
    NoTotals(step.entries);
    if step == Idle(v) { Unwritten(v.clients, c); } else { EndBooks(v, vid, status); }
  }

  function WithdrawnOf(): Balance -> nat { (b: Balance) => b.withdrawn }
  function KeptOf(): Balance -> nat { (b: Balance) => b.free + b.locked }

  lemma BooksTotal(cl: map<Pubkey, Balance>, cl': map<Pubkey, Balance>, c: Pubkey, deposit: nat, withdrawal: nat)
    requires Books(cl, cl', c, deposit, withdrawal)
    ensures Sum(cl', DepositedOf()) == Sum(cl, DepositedOf()) + deposit
    ensures Sum(cl', WithdrawnOf()) == Sum(cl, WithdrawnOf()) + withdrawal
  {
    if c in cl' {
      SumUpdate(cl, DepositedOf(), c, cl'[c]);
      SumUpdate(cl, WithdrawnOf(), c, cl'[c]);
    }
  }

  lemma {:induction false} TotalsAppend(a: seq<Entry>, b: seq<Entry>)
    ensures DepositIn(a + b) == DepositIn(a) + DepositIn(b)
    ensures WithdrawnIn(a + b) == WithdrawnIn(a) + WithdrawnIn(b)
    decreases |b|
  {
    if b == [] {
      assert a + b == a;
    } else {
      var n := |b| - 1;
      assert (a + b)[..|a + b| - 1] == a + b[..n];
      TotalsAppend(a, b[..n]);
    }
  }

  lemma {:induction false} RunBooks(k: Crypto, v: Vault, steps: seq<Step>)
    requires Inv(k, v) && AdmissibleRun(k, v, steps)
    ensures var done := Run(k, v, steps);
      && Sum(done.v.clients, DepositedOf()) == Sum(v.clients, DepositedOf()) + DepositIn(done.entries)
      && Sum(done.v.clients, WithdrawnOf()) == Sum(v.clients, WithdrawnOf()) + WithdrawnIn(done.entries)
    decreases |steps|
  {
    hide Inv, Live, Books, Admissible, DepositIn, WithdrawnIn;
    if steps == [] {
      NoTotals([]);
    } else {
      var n := |steps| - 1;
      var before := Run(k, v, steps[..n]);
      RunBooks(k, v, steps[..n]);
      RunKeeps(k, v, steps[..n]);
      var last := Live(k, before.v, steps[n]);
      var c := StepBooks(k, before.v, steps[n]);
      BooksTotal(before.v.clients, last.v.clients, c, DepositIn(last.entries), WithdrawnIn(last.entries));
      TotalsAppend(before.entries, last.entries);
    }
  }

  /**
   * Conservation over any run: what the log says came in is in clients' free and locked balances, went out by a
   * logged withdrawal, is owed to providers, was paid out on-chain, or was lost when a batch was planned.
   */
  lemma Conservation(k: Crypto, steps: seq<Step>)
    requires AdmissibleRun(k, EmptyVault, steps)
    ensures var done := Run(k, EmptyVault, steps);
      DepositIn(done.entries) == Sum(done.v.clients, KeptOf()) + WithdrawnIn(done.entries)
                                 + Sum(done.v.credits, OwedOf()) + Sum(done.v.reservations, PaidOutOf())
                                 + LossIn(k, EmptyVault, steps)
  {
    hide IndexOk, SettledOk, ChannelsOk, LockedOk, CacheOk, Run, AdmissibleRun, DepositIn, WithdrawnIn, LossIn;
    var done := Run(k, EmptyVault, steps);
    EmptyKeeps(k);
    RunBooks(k, EmptyVault, steps);
    RunKeeps(k, EmptyVault, steps);
    SumAdd(done.v.clients, KeptOf(), WithdrawnOf(), HeldOf());
    assert Sum(EmptyVault.clients, DepositedOf()) == 0 && Sum(EmptyVault.clients, WithdrawnOf()) == 0;
  }
}
