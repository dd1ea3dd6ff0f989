/** Every live step keeps the invariant. */
module Preservation {
  import opened Prelude
  import opened Sums
  import opened VaultTypes
  import opened Ledger
  import opened Channels
  import opened AdaptorSig
  import opened CreditIndex
  import opened Steps
  import opened Invariant
  import opened MoneyLemmas
  import opened SettlementLemmas
  import opened Rollbacks

  lemma DepositKeeps(k: Crypto, v: Vault, signature: Id, c: Pubkey, amount: nat, slot: nat, ok: bool)
    requires Inv(k, v)
    ensures Inv(k, DepositStep(v, signature, c, amount, slot, ok).v) && Lost(DepositStep(v, signature, c, amount, slot, ok).v) == Lost(v)
  {
    hide HistoryOk, CreditsOk, ListedOk, ChannelsOk, PaymentsOk, LockedOk, OwnersOk, MovesOnly, LockedUntil, Locks, Shortfall;
    var v' := DepositStep(v, signature, c, amount, slot, ok).v;
    var b := Existing(v, c);
    var b' := if ok then b.(free := b.free + amount, deposited := b.deposited + amount) else b;
    if signature !in v.processed {
      assert v'.clients == v.clients[c := b'];
      assert CachedUntil(v.clients, c) == LockedUntil(c, v.reservations, v.withdrawals, v.channels);
      NothingMoves(c, v.reservations, v.withdrawals, v.channels);
      LocksFollow(v.clients, c, b', 0, v.reservations, v.withdrawals, v.channels, v.reservations, v.withdrawals, v.channels);
      ShortfallFor(v.clients, v.credits, v.reservations, c, b');
      OwnersKept(v, c, b');
    }
  }

  /** Client `c` gets balance `b`; other clients keep theirs. */
  lemma OwnersKept(v: Vault, c: Pubkey, b: Balance)
    requires IndexOk(v)
    ensures OwnersOk(v.clients[c := b], v.reservations, v.withdrawals, v.channels, v.providers)
  {
  }

  lemma IndexWithWithdrawal(v: Vault, w: Withdrawal, b: Balance)
    requires IndexOk(v) && w.nonce == v.withdrawNonce && w.client in v.clients
    ensures IndexOk(v.(clients := v.clients[w.client := b], withdrawals := v.withdrawals[w.nonce := w], withdrawNonce := w.nonce + 1))
  {
    hide PaymentsOk;
  }

  lemma AuthorizeWithdrawKeeps(k: Crypto, v: Vault, c: Pubkey, recipient: Pubkey, amount: nat, now: Time, ok: bool)
    requires Inv(k, v)
    ensures Inv(k, AuthorizeWithdrawStep(v, c, recipient, amount, now, ok).v) && Lost(AuthorizeWithdrawStep(v, c, recipient, amount, now, ok).v) == Lost(v)
  {
    hide HistoryOk, CreditsOk, ListedOk, ChannelsOk, PaymentsOk, LockedOk, CacheOk, MovesOnly, LockedUntil, Locks, Shortfall,
      OwnersOk, NoneSpent;
    var v' := AuthorizeWithdrawStep(v, c, recipient, amount, now, ok).v;
    if ok && c in v.clients && amount <= v.clients[c].free {
      var w := Withdrawal(c, recipient, amount, v.withdrawNonce, now, now + WITHDRAW_EXPIRY_SEC);
      assert v'.withdrawals == v.withdrawals[w.nonce := w];
      var b := v.clients[c];
      var b' := b.(free := b.free - amount, locked := b.locked + amount,
                   maxLock := LockedUntil(c, v.reservations, v'.withdrawals, v.channels));
      assert v'.clients == v.clients[c := b'];
      IndexWithWithdrawal(v, w, b');
      WithdrawalAdded(c, v.reservations, v.withdrawals, v.channels, w);
      LocksFollow(v.clients, c, b', amount, v.reservations, v.withdrawals, v.channels, v.reservations, v'.withdrawals, v.channels);
      ShortfallFor(v.clients, v.credits, v.reservations, c, b');
    }
  }

  /** A withdrawal leaves the pending set: to the client's free balance or out of the vault. */
  lemma WithdrawalEnds(v: Vault, n: nat, b': Balance)
    requires MoneyOk(v) && IndexOk(v) && n in v.withdrawals
    requires var b := v.clients[v.withdrawals[n].client];
      && v.withdrawals[n].amount <= b.locked
      && b'.locked == b.locked - v.withdrawals[n].amount && b'.deposited == b.deposited
      && b'.free + b'.withdrawn == b.free + b.withdrawn + v.withdrawals[n].amount
    requires b'.maxLock == LockedUntil(v.withdrawals[n].client, v.reservations, v.withdrawals - {n}, v.channels)
    ensures var v' := WithBalance(v, v.withdrawals[n].client, b').(withdrawals := v.withdrawals - {n}); MoneyOk(v') && IndexOk(v') && Lost(v') == Lost(v)
  {
    hide PaymentsOk, LockedOk, CacheOk, MovesOnly, LockedUntil, Locks, Shortfall;
    var c, ws' := v.withdrawals[n].client, v.withdrawals - {n};
    WithdrawalRemoved(c, v.reservations, v.withdrawals, v.channels, n);
    LocksFollow(v.clients, c, b', 0 - v.withdrawals[n].amount, v.reservations, v.withdrawals, v.channels, v.reservations, ws', v.channels);
    ShortfallFor(v.clients, v.credits, v.reservations, c, b');
  }

  lemma WithdrawalLocked(v: Vault, n: nat)
    requires MoneyOk(v) && IndexOk(v) && n in v.withdrawals
    ensures v.withdrawals[n].client in v.clients && v.withdrawals[n].amount <= v.clients[v.withdrawals[n].client].locked
  {
    LockCovers(v.clients, v.reservations, v.withdrawals, v.channels, v.withdrawals[n].client);
  }

  /** The on-chain program only lets through the withdrawal that was signed, so a pending one is matched. */
  ghost predicate EventMatches(v: Vault, c: Pubkey, recipient: Pubkey, amount: nat, nonce: nat, expiresAt: Time)
  {
    nonce in v.withdrawals ==> Matches(v.withdrawals[nonce], c, recipient, amount, expiresAt)
  }

  lemma ObserveWithdrawKeeps(k: Crypto, v: Vault, signature: Id, c: Pubkey, recipient: Pubkey, amount: nat, nonce: nat,
                             expiresAt: Time, slot: nat, ok: bool)
    requires Inv(k, v) && EventMatches(v, c, recipient, amount, nonce, expiresAt)
    ensures Inv(k, ObserveWithdrawStep(v, signature, c, recipient, amount, nonce, expiresAt, slot, ok).v)
    ensures Lost(ObserveWithdrawStep(v, signature, c, recipient, amount, nonce, expiresAt, slot, ok).v) == Lost(v)
  {
    hide HistoryOk, CreditsOk, ListedOk, NoneSpent, ChannelsOk, PaymentsOk, LockedOk, CacheOk, Shortfall, OwnersOk, NoncesOk, LockedUntil;
    var v' := ObserveWithdrawStep(v, signature, c, recipient, amount, nonce, expiresAt, slot, ok).v;
    if signature !in v.processed && nonce in v.withdrawals && ok {
      WithdrawalLocked(v, nonce);
      var b := v.clients[c];
      var b' := b.(locked := b.locked - amount, withdrawn := b.withdrawn + amount,
                   maxLock := LockedUntil(c, v.reservations, v.withdrawals - {nonce}, v.channels));
      WithdrawalEnds(v, nonce, b');
      assert v'.clients == v.clients[c := b'];
    } else if nonce in v.withdrawals {
      WithdrawalLocked(v, nonce);
    }
  }

  lemma ExpireWithdrawKeeps(k: Crypto, v: Vault, nonce: nat, now: Time, ok: bool)
    requires Inv(k, v)
    ensures Inv(k, ExpireWithdrawStep(v, nonce, now, ok).v) && Lost(ExpireWithdrawStep(v, nonce, now, ok).v) == Lost(v)
  {
    hide HistoryOk, CreditsOk, ListedOk, NoneSpent, ChannelsOk, PaymentsOk, LockedOk, CacheOk, Shortfall, OwnersOk, NoncesOk, LockedUntil;
    var v' := ExpireWithdrawStep(v, nonce, now, ok).v;
    if nonce in v.withdrawals && now > v.withdrawals[nonce].expiresAt && ok {
      WithdrawalLocked(v, nonce);
      var w := v.withdrawals[nonce];
      var b := v.clients[w.client];
      var b' := b.(locked := b.locked - w.amount, free := b.free + w.amount,
                   maxLock := LockedUntil(w.client, v.reservations, v.withdrawals - {nonce}, v.channels));
      WithdrawalEnds(v, nonce, b');
      assert v'.clients == v.clients[w.client := b'];
    }
  }

  // ---- Reservations ----

  lemma IndexWithReservation(v: Vault, r: Reservation, b: Balance)
    requires IndexOk(v) && r.client in v.clients && r.provider in v.providers
    requires r.verificationId !in v.reservations && r.paymentId !in v.payments
    ensures IndexOk(WithReservation(v, r).(clients := v.clients[r.client := b]))
  {
    hide OwnersOk, PaymentsOk;
    ReservationOwners(v, r, b);
    ReservationPayments(v, r);
  }

  lemma ReservationOwners(v: Vault, r: Reservation, b: Balance)
    requires IndexOk(v) && r.client in v.clients && r.provider in v.providers
    ensures OwnersOk(v.clients[r.client := b], v.reservations[r.verificationId := r], v.withdrawals, v.channels, v.providers)
  {
    hide PaymentsOk, NoncesOk;
  }

  lemma ReservationPayments(v: Vault, r: Reservation)
    requires IndexOk(v) && r.verificationId !in v.reservations && r.paymentId !in v.payments
    ensures PaymentsOk(v.payments[r.paymentId := r.verificationId], v.reservations[r.verificationId := r])
  {
    hide OwnersOk, NoncesOk;
  }

  lemma VerifyKeeps(k: Crypto, v: Vault, vid: Id, payment: Id, c: Pubkey, provider: Id, amount: nat, d: ReservationDetail, ok: bool)
    requires Inv(k, v) && vid !in v.reservations
    ensures Inv(k, VerifyStep(v, vid, payment, c, provider, amount, d, ok).v) && Lost(VerifyStep(v, vid, payment, c, provider, amount, d, ok).v) == Lost(v)
  {
    hide HistoryOk, CreditsOk, ListedOk, NoneSpent, ChannelsOk, LockedOk, CacheOk, Shortfall, OwnersOk, NoncesOk, LockedUntil,
      MovesOnly;
    var done := VerifyStep(v, vid, payment, c, provider, amount, d, ok);
    if done.entries != [] {
      var r := NewReservation(vid, payment, c, provider, amount, d);
      var rs' := v.reservations[vid := r];
      var b := v.clients[c];
      var b' := b.(free := b.free - amount, locked := b.locked + amount,
                   maxLock := LockedUntil(c, rs', v.withdrawals, v.channels));
      assert done.v == WithReservation(v, r).(clients := v.clients[c := b']);
      ReservationWritten(c, v.reservations, v.withdrawals, v.channels, vid, r);
      LocksFollow(v.clients, c, b', amount, v.reservations, v.withdrawals, v.channels, rs', v.withdrawals, v.channels);
      ShortfallFor(v.clients, v.credits, v.reservations, c, b');
      ShortfallReservation(v.clients[c := b'], v.credits, v.reservations, vid, r);
      IndexWithReservation(v, r, b');
      UnsettledWritten(v, vid, r);
    }
  }

  lemma ReservationLocked(v: Vault, vid: Id)
    requires MoneyOk(v) && IndexOk(v) && vid in v.reservations && v.reservations[vid].status == Reserved
    ensures v.reservations[vid].client in v.clients
    ensures v.reservations[vid].amount <= v.clients[v.reservations[vid].client].locked
  {
    LockCovers(v.clients, v.reservations, v.withdrawals, v.channels, v.reservations[vid].client);
  }

  lemma IndexWithStatus(v: Vault, vid: Id, r: Reservation, c: Pubkey, b: Balance)
    requires IndexOk(v) && vid in v.reservations
    requires r.client == v.reservations[vid].client && r.provider == v.reservations[vid].provider
    requires r.paymentId == v.reservations[vid].paymentId && r.verificationId == v.reservations[vid].verificationId
    ensures IndexOk(v.(reservations := v.reservations[vid := r], clients := v.clients[c := b]))
  {
  }

  /** Cancelling and expiring return the reserved amount to the client. */
  lemma EndKeeps(k: Crypto, v: Vault, vid: Id, status: ReservationStatus)
    requires Inv(k, v) && vid in v.reservations && v.reservations[vid].status == Reserved
    requires status == Cancelled || status == Expired
    ensures Inv(k, EndReservation(v, vid, status)) && Lost(EndReservation(v, vid, status)) == Lost(v)
  {
    hide CreditsOk, ListedOk, NoneSpent, ChannelsOk, LockedOk, CacheOk, Shortfall, OwnersOk, NoncesOk, LockedUntil,
      MovesOnly, PaymentsOk, SidsUnique, Owner, RecordOf;
    ReservationLocked(v, vid);
    var r := v.reservations[vid];
    var c, r' := r.client, r.(status := status);
    var rs' := v.reservations[vid := r'];
    var b := v.clients[c];
    var b' := b.(free := b.free + r.amount, locked := b.locked - r.amount,
                 maxLock := LockedUntil(c, rs', v.withdrawals, v.channels));
    assert EndReservation(v, vid, status) == v.(reservations := rs', clients := v.clients[c := b']);
    ReservationWritten(c, v.reservations, v.withdrawals, v.channels, vid, r');
    LocksFollow(v.clients, c, b', 0 - r.amount, v.reservations, v.withdrawals, v.channels, rs', v.withdrawals, v.channels);
    ShortfallFor(v.clients, v.credits, v.reservations, c, b');
    ShortfallReservation(v.clients[c := b'], v.credits, v.reservations, vid, r');
    IndexWithStatus(v, vid, r', c, b');
    assert StatusOk(r) && r.provider in v.providers;
    UnsettledWritten(v, vid, r');
  }

  /** Dropping a credit that owes nothing loses nothing. */
  lemma DropKeeps(k: Crypto, v: Vault, p: Id)
    requires Inv(k, v) && p in v.credits && v.credits[p].amount == 0
    ensures Inv(k, v.(credits := v.credits - {p})) && Lost(v.(credits := v.credits - {p})) == Lost(v)
  {
    hide LockedOk, CacheOk, OwnersOk, PaymentsOk, NoncesOk, ChannelsOk, HistoryOk, CreditsOk, ListedOk, NoneSpent;
    assert Shortfall(v.clients, v.credits - {p}, v.reservations) == Lost(v) by { SumRemove(v.credits, OwedOf(), p); }
    DropListed(v, p);
    DropCredits(v, p);
  }

  lemma DropCredits(v: Vault, p: Id)
    requires SettledOk(v)
    ensures CreditsOk(v.credits - {p}, v.reservations, v.history, v.providers) && NoneSpent(v.credits - {p})
  {
    hide HistoryOk, CreditOk, ListedOk;
    assert forall q :: q in v.credits - {p} ==> q in v.credits && (v.credits - {p})[q] == v.credits[q];
  }

  lemma DropListed(v: Vault, p: Id)
    requires SettledOk(v) && p in v.credits && v.credits[p].amount == 0
    ensures ListedOk(v.credits - {p}, v.reservations)
  {
    hide HistoryOk, CreditsOk, NoneSpent;
    var credits', rs := v.credits - {p}, v.reservations;
    forall vid | vid in rs && rs[vid].status == SettledOffchain && rs[vid].amount > 0 && rs[vid].settlementId.Some?
      ensures rs[vid].provider in credits' && rs[vid].settlementId.value in credits'[rs[vid].provider].ids
    {
      OwesSettled(v, vid);
    }
  }

  /** A credit owes at least each settlement it lists. */
  lemma OwesSettled(v: Vault, vid: Id)
    requires SettledOk(v) && vid in v.reservations && v.reservations[vid].status == SettledOffchain
    requires v.reservations[vid].amount > 0 && v.reservations[vid].settlementId.Some?
    ensures v.reservations[vid].provider in v.credits
    ensures v.reservations[vid].amount <= v.credits[v.reservations[vid].provider].amount
  {
    hide Owner, SidsUnique, HistSum;
    var p, sid := v.reservations[vid].provider, v.reservations[vid].settlementId.value;
    assert CreditOk(p, v.credits[p], v.reservations, v.history, v.providers);
    assert v.history[sid] == RecordOf(v.reservations[vid], v.providers);
    HistSumCovers(v.credits[p].ids, v.history, sid);
  }

  /** A settlement whose append failed leaves the vault as it was, but for a credit that owed nothing. */
  lemma SettleFailed(k: Crypto, v: Vault, vid: Id, sid: Id, now: Time)
    requires Inv(k, v) && FreshSid(v, sid)
    requires vid in v.reservations && v.reservations[vid].status == Reserved && now <= v.reservations[vid].expiresAt
    ensures var p := v.reservations[vid].provider;
      var v' := SettleStep(v, vid, sid, now, false).v;
      if p in v.credits && v.credits[p].amount == 0 then v' == v.(credits := v.credits - {p}) else v' == v
  {
    hide MoneyOk, ChannelsOk, HistoryOk, CreditsOk, ListedOk, PaymentsOk, SettlePayment, RollbackSettlePayment, LockedUntil;
    ReservationLocked(v, vid);
    var r := v.reservations[vid];
    SettleSucceeds(v, r.client, r.amount, r.provider, sid, now);
    SettledShape(v, r.client, r.amount, r.provider, sid, now);
    assert v.history - {sid} == v.history;
    SettleUndone(v, r.client, r.amount, r.provider, sid, now);
  }

  lemma SettleSucceeds(v: Vault, c: Pubkey, amount: nat, provider: Id, sid: Id, now: Time)
    requires c in v.clients && provider in v.providers
    ensures SettlePayment(v, c, amount, provider, sid, now).err.None?
  {
  }

  lemma SettleKeeps(k: Crypto, v: Vault, vid: Id, sid: Id, now: Time, ok: bool)
    requires Inv(k, v) && FreshSid(v, sid)
    ensures Inv(k, SettleStep(v, vid, sid, now, ok).v) && Lost(SettleStep(v, vid, sid, now, ok).v) == Lost(v)
  {
    hide Inv, FreshSid, SettleStep;
    if vid in v.reservations && v.reservations[vid].status == Reserved && now <= v.reservations[vid].expiresAt {
      if ok {
        SettleCommits(k, v, vid, sid, now);
      } else {
        SettleFailed(k, v, vid, sid, now);
        var p := v.reservations[vid].provider;
        if p in v.credits && v.credits[p].amount == 0 { DropKeeps(k, v, p); }
      }
    } else {
      SettleIdle(v, vid, sid, now, ok);
    }
  }

  lemma SettleIdle(v: Vault, vid: Id, sid: Id, now: Time, ok: bool)
    requires !(vid in v.reservations && v.reservations[vid].status == Reserved && now <= v.reservations[vid].expiresAt)
    ensures SettleStep(v, vid, sid, now, ok) == Idle(v)
  {
  }

  lemma SettleCommits(k: Crypto, v: Vault, vid: Id, sid: Id, now: Time)
    requires Inv(k, v) && FreshSid(v, sid)
    requires vid in v.reservations && v.reservations[vid].status == Reserved && now <= v.reservations[vid].expiresAt
    ensures Inv(k, SettleStep(v, vid, sid, now, true).v) && Lost(SettleStep(v, vid, sid, now, true).v) == Lost(v)
  {
    hide CreditsOk, ListedOk, NoneSpent, ChannelsOk, LockedOk, CacheOk, Shortfall, OwnersOk, NoncesOk, LockedUntil,
      MovesOnly, PaymentsOk, SidsUnique, Owner, RecordOf, FreshSid, SettleStep, SettlingCredit;
    ReservationLocked(v, vid);
    var r := v.reservations[vid];
    assert StatusOk(r) && r.provider in v.providers;
    SettlingAmount(v, vid, sid, now);
    var c, p := r.client, r.provider;
    var rs' := Settling(v, vid, sid, now);
    var b := v.clients[c];
    var b' := b.(locked := b.locked - r.amount, maxLock := LockedUntil(c, rs', v.withdrawals, v.channels));
    var credit := SettlingCredit(v, vid, sid, now);
    SettleCommitShape(v, vid, sid, now);
    ReservationWritten(c, v.reservations, v.withdrawals, v.channels, vid, rs'[vid]);
    LocksFollow(v.clients, c, b', 0 - r.amount, v.reservations, v.withdrawals, v.channels, rs', v.withdrawals, v.channels);
    ShortfallCredit(v.clients, v.credits, v.reservations, c, b', p, credit);
    ShortfallReservation(v.clients[c := b'], v.credits[p := credit], v.reservations, vid, rs'[vid]);
    IndexWithStatus(v, vid, rs'[vid], c, b');
    SettlingKeeps(v, vid, sid, now);
  }

  lemma SettlingAmount(v: Vault, vid: Id, sid: Id, now: Time)
    requires vid in v.reservations && v.reservations[vid].provider in v.providers
    ensures SettlingCredit(v, vid, sid, now).amount == OwedTo(v, v.reservations[vid].provider) + v.reservations[vid].amount
  {
  }

  lemma SettleCommitShape(v: Vault, vid: Id, sid: Id, now: Time)
    requires vid in v.reservations && v.reservations[vid].status == Reserved && now <= v.reservations[vid].expiresAt
    requires v.reservations[vid].client in v.clients && v.reservations[vid].provider in v.providers
    requires v.reservations[vid].amount <= v.clients[v.reservations[vid].client].locked
    ensures var r := v.reservations[vid];
      var rs' := Settling(v, vid, sid, now);
      var b := v.clients[r.client];
      SettleStep(v, vid, sid, now, true).v ==
        v.(reservations := rs', clients := v.clients[r.client := b.(locked := b.locked - r.amount,
             maxLock := LockedUntil(r.client, rs', v.withdrawals, v.channels))],
           credits := v.credits[r.provider := SettlingCredit(v, vid, sid, now)], history := SettlingRecord(v, vid, sid, now))
  {
    hide LockedUntil, SettlePayment;
    var r := v.reservations[vid];
    SettleSucceeds(v, r.client, r.amount, r.provider, sid, now);
    SettledShape(v, r.client, r.amount, r.provider, sid, now);
    var b := v.clients[r.client];
    var v1 := v.(reservations := Settling(v, vid, sid, now), clients := v.clients[r.client := b.(locked := b.locked - r.amount)],
                 credits := v.credits[r.provider := SettlingCredit(v, vid, sid, now)], history := SettlingRecord(v, vid, sid, now));
    assert SettleStep(v, vid, sid, now, true).v == Refresh(v1, r.client).v;
    assert v1.clients[r.client := v1.clients[r.client].(maxLock := LockedUntil(r.client, v1.reservations, v.withdrawals, v.channels))]
      == v.clients[r.client := b.(locked := b.locked - r.amount, maxLock := LockedUntil(r.client, v1.reservations, v.withdrawals, v.channels))];
  }

  // ---- Providers and receipts ----

  lemma RegisterKeeps(k: Crypto, v: Vault, p: Provider, ok: bool)
    requires Inv(k, v)
    ensures Inv(k, RegisterStep(v, p, ok).v) && Lost(RegisterStep(v, p, ok).v) == Lost(v)
  {
    hide MoneyOk, PaymentsOk, ChannelsOk, HistoryOk, CreditsOk, ListedOk, NoneSpent, OwnersOk, NoncesOk;
    if p.providerId !in v.providers && ok {
      var v' := v.(providers := v.providers[p.providerId := p]);
      assert MoneyOk(v') by { MoneyIgnoresProviders(v, v'.providers); }
      RegisterOwners(v, p);
      RegisterHistory(v, p);
      RegisterCredits(v, p);
    }
  }

  lemma MoneyIgnoresProviders(v: Vault, ps: map<Id, Provider>)
    requires MoneyOk(v)
    ensures MoneyOk(v.(providers := ps)) && Lost(v.(providers := ps)) == Lost(v)
  {
    hide LockedOk, CacheOk, Shortfall;
  }

  lemma RegisterOwners(v: Vault, p: Provider)
    requires IndexOk(v) && p.providerId !in v.providers
    ensures OwnersOk(v.clients, v.reservations, v.withdrawals, v.channels, v.providers[p.providerId := p])
  {
    hide PaymentsOk, NoncesOk;
  }

  lemma RegisterHistory(v: Vault, p: Provider)
    requires SettledOk(v) && p.providerId !in v.providers
    ensures HistoryOk(v.reservations, v.history, v.providers[p.providerId := p])
  {
    hide CreditsOk, ListedOk, NoneSpent, Owner, SidsUnique;
  }

  lemma RegisterCredits(v: Vault, p: Provider)
    requires SettledOk(v) && p.providerId !in v.providers
    ensures CreditsOk(v.credits, v.reservations, v.history, v.providers[p.providerId := p])
  {
    hide HistoryOk, ListedOk, NoneSpent, Owner, HistSum;
    forall q | q in v.credits ensures CreditOk(q, v.credits[q], v.reservations, v.history, v.providers[p.providerId := p]) {
      assert CreditOk(q, v.credits[q], v.reservations, v.history, v.providers);
    }
  }

  // ---- Channels ----

  predicate SameParty(ch: Channel, ch': Channel)
  {
    ch'.client == ch.client && ch'.provider == ch.provider && ChannelTotal(ch') == ChannelTotal(ch)
  }

  lemma IndexWithChannel(v: Vault, id: Id, ch: Channel, b: Balance)
    requires IndexOk(v) && ch.client in v.clients && ch.provider in v.providers
    ensures IndexOk(WithChannel(v, id, ch).(clients := v.clients[ch.client := b]))
  {
    hide PaymentsOk;
  }

  /** A step inside one channel that moves its parts around, followed by the refresh of its client. */
  lemma ChannelStepKeeps(k: Crypto, v: Vault, id: Id, ch': Channel)
    requires Inv(k, v) && id in v.channels && SameParty(v.channels[id], ch') && ChannelOk(k, id, ch')
    ensures Inv(k, Refresh(WithChannel(v, id, ch'), ch'.client).v) && Lost(Refresh(WithChannel(v, id, ch'), ch'.client).v) == Lost(v)
  {
    hide HistoryOk, CreditsOk, ListedOk, NoneSpent, LockedOk, CacheOk, Shortfall, NoncesOk, LockedUntil, MovesOnly,
      PaymentsOk, ChannelOk;
    var c, chs' := ch'.client, v.channels[id := ch'];
    assert c in v.clients;
    var b := v.clients[c];
    var b' := b.(maxLock := LockedUntil(c, v.reservations, v.withdrawals, chs'));
    ChannelWritten(c, v.reservations, v.withdrawals, v.channels, id, ch');
    assert LockedOf(v.clients, c) == b.locked;
    LocksFollow(v.clients, c, b', 0, v.reservations, v.withdrawals, v.channels, v.reservations, v.withdrawals, chs');
    ShortfallFor(v.clients, v.credits, v.reservations, c, b');
    IndexWithChannel(v, id, ch', b');
  }

  /** A step inside one channel that leaves its request's expiry alone needs no refresh. */
  lemma ChannelQuietKeeps(k: Crypto, v: Vault, id: Id, ch': Channel)
    requires Inv(k, v) && id in v.channels && SameParty(v.channels[id], ch') && ChannelOk(k, id, ch')
    requires ch'.request.Some? <==> v.channels[id].request.Some?
    requires ch'.request.Some? ==> ch'.request.value.expiresAt == v.channels[id].request.value.expiresAt
    ensures Inv(k, WithChannel(v, id, ch')) && Lost(WithChannel(v, id, ch')) == Lost(v)
  {
    hide HistoryOk, CreditsOk, ListedOk, NoneSpent, LockedOk, Shortfall, NoncesOk, LockedUntil, MovesOnly, PaymentsOk, ChannelOk;
    var c := ch'.client;
    var b := v.clients[c];
    ChannelUntilKept(c, v.reservations, v.withdrawals, v.channels, id, ch');
    assert CachedUntil(v.clients, c) == LockedUntil(c, v.reservations, v.withdrawals, v.channels);
    ChannelStepKeeps(k, v, id, ch');
    assert Refresh(WithChannel(v, id, ch'), c).v == WithChannel(v, id, ch').(clients := v.clients[c := b]);
    assert v.clients[c := b] == v.clients;
  }

  lemma OpenKeeps(k: Crypto, v: Vault, id: Id, c: Pubkey, provider: Id, deposit: nat, now: Time, ok: bool)
    requires Inv(k, v) && id !in v.channels
    ensures Inv(k, OpenStep(v, id, c, provider, deposit, now, ok).v) && Lost(OpenStep(v, id, c, provider, deposit, now, ok).v) == Lost(v)
  {
    hide MoneyOk, IndexOk, SettledOk, Lost, DeliveredOk;
    var done := OpenStep(v, id, c, provider, deposit, now, ok);
    if done.entries != [] {
      var ch := NewChannel(id, c, provider, deposit, now);
      var b := v.clients[c];
      var b' := b.(free := b.free - deposit, locked := b.locked + deposit);
      assert done.v == WithChannel(v, id, ch).(clients := v.clients[c := b']);
      OpenMoney(v, id, ch, b');
      IndexWithChannel(v, id, ch, b');
      SettledIgnoresChannels(v, done.v.channels, done.v.clients);
    }
  }

  lemma OpenMoney(v: Vault, id: Id, ch: Channel, b': Balance)
    requires MoneyOk(v) && id !in v.channels && ch.client in v.clients && ch.request.None? && ChannelTotal(ch) <= v.clients[ch.client].free
    requires var b := v.clients[ch.client]; b' == b.(free := b.free - ChannelTotal(ch), locked := b.locked + ChannelTotal(ch))
    ensures var v' := WithChannel(v, id, ch).(clients := v.clients[ch.client := b']); MoneyOk(v') && Lost(v') == Lost(v)
  {
    hide LockedOk, Shortfall, LockedUntil, MovesOnly;
    var c := ch.client;
    ChannelWritten(c, v.reservations, v.withdrawals, v.channels, id, ch);
    ChannelUntilKept(c, v.reservations, v.withdrawals, v.channels, id, ch);
    assert CachedUntil(v.clients, c) == LockedUntil(c, v.reservations, v.withdrawals, v.channels);
    hide CacheOk;
    LocksFollow(v.clients, c, b', ChannelTotal(ch), v.reservations, v.withdrawals, v.channels,
                v.reservations, v.withdrawals, v.channels[id := ch]);
    ShortfallFor(v.clients, v.credits, v.reservations, c, b');
  }

  lemma SettledIgnoresChannels(v: Vault, chs: map<Id, Channel>, cl: map<Pubkey, Balance>)
    requires SettledOk(v)
    ensures SettledOk(v.(channels := chs, clients := cl))
  {
    hide HistoryOk, CreditsOk, ListedOk, NoneSpent;
  }

  lemma TouchKeeps(k: Crypto, v: Vault, id: Id, now: Time)
    requires Inv(k, v) && id in v.channels
    ensures Inv(k, Touch(v, id, now)) && Lost(Touch(v, id, now)) == Lost(v)
  {
    hide MoneyOk, IndexOk, SettledOk;
    ChannelQuietKeeps(k, v, id, v.channels[id].(updatedAt := now));
  }

  lemma SubmitKeeps(k: Crypto, v: Vault, id: Id, rid: Id, amount: nat, hash: Bytes, now: Time, undoneAt: Time, ok: bool)
    requires Inv(k, v)
    ensures Inv(k, SubmitStep(v, id, rid, amount, hash, now, undoneAt, ok).v) && Lost(SubmitStep(v, id, rid, amount, hash, now, undoneAt, ok).v) == Lost(v)
  {
    hide MoneyOk, IndexOk, SettledOk;
    if SubmitRequest(v, id, rid, amount, hash, now).err.None? {
      TouchKeeps(k, v, id, undoneAt);
      ChannelStepKeeps(k, v, id, Submitted(v.channels[id], rid, amount, hash, now));
    }
  }

  lemma DeliverKeeps(k: Crypto, v: Vault, id: Id, d: Delivery, now: Time, undoneAt: Time, ok: bool)
    requires Inv(k, v)
    ensures Inv(k, DeliverStep(k, v, id, d, now, undoneAt, ok).v) && Lost(DeliverStep(k, v, id, d, now, undoneAt, ok).v) == Lost(v)
  {
    hide MoneyOk, IndexOk, SettledOk, PreVerify, Lost;
    if DeliverAdaptor(k, v, id, d, now).err.None? {
      var ch := v.channels[id];
      TouchKeeps(k, v, id, undoneAt);
      ChannelQuietKeeps(k, v, id,
        ch.(request := Some(Delivered(ch.request.value, d)), status := Pending, nonce := ch.nonce + 1, updatedAt := now));
    }
  }

  /** Both finalize routes end in the same channel: the request's amount moves from locked to earned. */
  lemma FinalizedShape(k: Crypto, v: Vault, id: Id, t: nat, secret: Bytes, now: Time)
    requires FinalizeWithSecret(k, v, id, t, secret, now).Finalized?
    ensures id in v.channels && v.channels[id].request.Some? && v.channels[id].request.value.amount <= v.channels[id].locked
    ensures var done := FinalizeWithSecret(k, v, id, t, secret, now);
      && done.request == v.channels[id].request.value && v.channels[id].status == Pending
      && done.v == WithChannel(v, id, Paid(v.channels[id], done.request.amount, now))
  {
  }

  lemma FinalizeKeeps(k: Crypto, v: Vault, id: Id, done: Finalized, now: Time, undoneAt: Time, ok: bool)
    requires Inv(k, v)
    requires done.Finalized? ==>
      && id in v.channels && v.channels[id].request == Some(done.request) && done.request.amount <= v.channels[id].locked
      && done.v == WithChannel(v, id, Paid(v.channels[id], done.request.amount, now))
    ensures Inv(k, FinalizeStep(v, id, done, undoneAt, ok).v) && Lost(FinalizeStep(v, id, done, undoneAt, ok).v) == Lost(v)
  {
    hide MoneyOk, IndexOk, SettledOk;
    if done.Finalized? {
      TouchKeeps(k, v, id, undoneAt);
      ChannelStepKeeps(k, v, id, Paid(v.channels[id], done.request.amount, now));
    }
  }

  lemma ExpireReqKeeps(k: Crypto, v: Vault, id: Id, now: Time, undoneAt: Time, ok: bool)
    requires Inv(k, v)
    ensures Inv(k, ExpireReqStep(v, id, now, undoneAt, ok).v) && Lost(ExpireReqStep(v, id, now, undoneAt, ok).v) == Lost(v)
  {
    hide MoneyOk, IndexOk, SettledOk;
    if id in v.channels && Stale(v.channels[id], now) {
      TouchKeeps(k, v, id, undoneAt);
      ChannelStepKeeps(k, v, id, Released(v.channels[id], v.channels[id].request.value.amount, now));
    }
  }

  lemma IndexWithoutChannel(v: Vault, id: Id, c: Pubkey, b: Balance)
    requires IndexOk(v)
    ensures IndexOk(v.(channels := v.channels - {id}, clients := v.clients[c := b]))
  {
    hide PaymentsOk;
  }

  /** The client's balance after its channel closes: unspent funds return, earnings leave. */
  ghost function ClosedBalance(v: Vault, id: Id): Balance
    requires id in v.channels && v.channels[id].client in v.clients
    requires ChannelTotal(v.channels[id]) <= v.clients[v.channels[id].client].locked
  {
    var ch := v.channels[id];
    var b := v.clients[ch.client];
    b.(locked := b.locked - ChannelTotal(ch), free := b.free + ch.free,
       maxLock := LockedUntil(ch.client, v.reservations, v.withdrawals, v.channels - {id}))
  }

  function OwedTo(v: Vault, p: Id): nat { if p in v.credits then v.credits[p].amount else 0 }

  lemma CloseMoney(v: Vault, id: Id, credit: Credit)
    requires MoneyOk(v) && id in v.channels && v.channels[id].locked == 0 && v.channels[id].client in v.clients
    requires ChannelTotal(v.channels[id]) <= v.clients[v.channels[id].client].locked
    requires v.channels[id].earned > 0 ==>
      credit.amount == v.channels[id].earned + OwedTo(v, v.channels[id].provider)
    ensures var ch := v.channels[id];
      var v' := v.(channels := v.channels - {id}, clients := v.clients[ch.client := ClosedBalance(v, id)],
                   credits := if ch.earned > 0 then v.credits[ch.provider := credit] else v.credits);
      MoneyOk(v') && Lost(v') == Lost(v)
  {
    hide LockedOk, CacheOk, Shortfall, LockedUntil, MovesOnly;
    var ch := v.channels[id];
    var c, b' := ch.client, ClosedBalance(v, id);
    ChannelRemoved(c, v.reservations, v.withdrawals, v.channels, id);
    LocksFollow(v.clients, c, b', 0 - ChannelTotal(ch), v.reservations, v.withdrawals, v.channels,
                v.reservations, v.withdrawals, v.channels - {id});
    if ch.earned > 0 {
      ShortfallCredit(v.clients, v.credits, v.reservations, c, b', ch.provider, credit);
    } else {
      ShortfallFor(v.clients, v.credits, v.reservations, c, b');
    }
  }

  lemma ChannelLocked(k: Crypto, v: Vault, id: Id)
    requires Inv(k, v) && id in v.channels
    ensures v.channels[id].client in v.clients && v.channels[id].provider in v.providers
    ensures ChannelTotal(v.channels[id]) <= v.clients[v.channels[id].client].locked
  {
    hide SettledOk, ChannelsOk, CacheOk, Shortfall, PaymentsOk;
    LockCovers(v.clients, v.reservations, v.withdrawals, v.channels, v.channels[id].client);
  }

  /** The vault a committed close leaves behind. */
  ghost function Closed(v: Vault, id: Id, sid: Id, now: Time): Vault
    requires id in v.channels && v.channels[id].client in v.clients && v.channels[id].provider in v.providers
    requires ChannelTotal(v.channels[id]) <= v.clients[v.channels[id].client].locked
  {
    var ch := v.channels[id];
    v.(channels := v.channels - {id}, clients := v.clients[ch.client := ClosedBalance(v, id)],
       credits := if ch.earned > 0 then v.credits[ch.provider := CreditedWith(v, ch.provider, ch.earned, sid, now)] else v.credits)
  }

  ghost predicate Closable(v: Vault, id: Id)
  {
    && id in v.channels && v.channels[id].client in v.clients && v.channels[id].provider in v.providers
    && ChannelTotal(v.channels[id]) <= v.clients[v.channels[id].client].locked
    && v.channels[id].status == Open && v.channels[id].locked == 0
  }

  lemma CloseChannelShape(v: Vault, id: Id, sid: Id, now: Time)
    requires Closable(v, id)
    ensures var ch := v.channels[id];
      var b := v.clients[ch.client];
      CloseChannel(v, id, sid, now) == Ok(v.(channels := v.channels - {id},
        clients := v.clients[ch.client := b.(locked := b.locked - ChannelTotal(ch), free := b.free + ch.free)],
        credits := if ch.earned > 0 then v.credits[ch.provider := CreditedWith(v, ch.provider, ch.earned, sid, now)] else v.credits))
  {
    var ch := v.channels[id];
    var b := v.clients[ch.client];
    if ChannelTotal(ch) == 0 {
      assert v.clients[ch.client := b.(locked := b.locked - ChannelTotal(ch), free := b.free + ch.free)] == v.clients;
    }
  }

  lemma ClosedShape(v: Vault, id: Id, sid: Id, now: Time)
    requires Closable(v, id)
    ensures CloseChannel(v, id, sid, now).err.None?
    ensures CloseStep(v, id, sid, now, true).v == Closed(v, id, sid, now)
  {
    hide LockedUntil, CloseChannel, CreditedWith;
    CloseChannelShape(v, id, sid, now);
  }

  lemma CloseKeeps(k: Crypto, v: Vault, id: Id, sid: Id, now: Time, ok: bool)
    requires Inv(k, v) && FreshSid(v, sid)
    ensures Inv(k, CloseStep(v, id, sid, now, ok).v) && Lost(CloseStep(v, id, sid, now, ok).v) == Lost(v)
  {
    hide MoneyOk, IndexOk, SettledOk, LockedUntil, FreshSid;
    if id in v.channels && v.channels[id].status == Open {
      ChannelLocked(k, v, id);
      ClosedShape(v, id, sid, now);
      var ch := v.channels[id];
      var v' := Closed(v, id, sid, now);
      CloseMoney(v, id, CreditedWith(v, ch.provider, ch.earned, sid, now));
      IndexWithoutChannel(v, id, ch.client, v'.clients[ch.client]);
      CloseSettled(v, id, sid, now);
      assert MoneyOk(v') && IndexOk(v') && SettledOk(v') by { IndexFrame(v, v'.channels, v'.clients, v'.credits); }
    }
  }

  lemma CloseSettled(v: Vault, id: Id, sid: Id, now: Time)
    requires SettledOk(v) && FreshSid(v, sid)
    requires id in v.channels && v.channels[id].client in v.clients && v.channels[id].provider in v.providers
    requires ChannelTotal(v.channels[id]) <= v.clients[v.channels[id].client].locked
    ensures SettledOk(Closed(v, id, sid, now))
  {
    hide HistoryOk, CreditsOk, ListedOk, NoneSpent, FreshSid, LockedUntil;
    if v.channels[id].earned > 0 { ClosingKeeps(v, v.channels[id].provider, v.channels[id].earned, sid, now); }
  }

  lemma IndexFrame(v: Vault, chs: map<Id, Channel>, cl: map<Pubkey, Balance>, credits: map<Id, Credit>)
    requires IndexOk(v.(channels := chs, clients := cl))
    ensures IndexOk(v.(channels := chs, clients := cl, credits := credits))
  {
    hide OwnersOk, PaymentsOk, NoncesOk;
  }

  /** In reachable states settling never fails half way, so an append that succeeds is made. */
  lemma SettleLogs(k: Crypto, v: Vault, vid: Id, sid: Id, now: Time)
    requires Inv(k, v)
    requires vid in v.reservations && v.reservations[vid].status == Reserved && now <= v.reservations[vid].expiresAt
    ensures SettleStep(v, vid, sid, now, true).entries != []
  {
    hide MoneyOk, SettledOk, ChannelsOk, PaymentsOk, SettlePayment, Refresh;
    SettleSucceeds(v, v.reservations[vid].client, v.reservations[vid].amount, v.reservations[vid].provider, sid, now);
  }

  lemma UndoneLogsNothing(v: Vault, vid: Id, sid: Id, now: Time)
    ensures SettleStep(v, vid, sid, now, false).entries == []
  {
  }

  lemma CloseNeverStuck(k: Crypto, v: Vault, id: Id, sid: Id, now: Time)
    requires Inv(k, v)
    ensures CloseChannel(v, id, sid, now).err.Some? ==> CloseChannel(v, id, sid, now).v == v
    ensures CloseChannel(v, id, sid, now).err.None? ==> id in v.channels && v.channels[id].status == Open
    ensures id in v.channels && v.channels[id].status == Open ==> Closable(v, id) && CloseChannel(v, id, sid, now).err.None?
  {
    hide MoneyOk, IndexOk, SettledOk, CreditedWith;
    if id in v.channels && v.channels[id].status == Open {
      ChannelLocked(k, v, id);
      CloseChannelShape(v, id, sid, now);
    }
  }

  /** What closing a channel comes to in a reachable state. */
  lemma CloseOutcome(k: Crypto, v: Vault, id: Id, sid: Id, now: Time, ok: bool)
    requires Inv(k, v)
    ensures ok && id in v.channels && v.channels[id].status == Open ==>
      && Closable(v, id) && CloseStep(v, id, sid, now, ok).v == Closed(v, id, sid, now)
      && CloseStep(v, id, sid, now, ok).entries ==
           [ChannelClosed(id, v.channels[id].free, v.channels[id].earned, if v.channels[id].earned > 0 then Some(sid) else None)]
    ensures !(ok && id in v.channels && v.channels[id].status == Open) ==> CloseStep(v, id, sid, now, ok) == Idle(v)
  {
    hide Inv, CloseChannel, Closed, Refresh;
    CloseNeverStuck(k, v, id, sid, now);
    if id in v.channels && v.channels[id].status == Open { ClosedShape(v, id, sid, now); }
  }
}
