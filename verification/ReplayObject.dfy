/** Replaying the log onto the mutable vault (enclave/src/wal.rs), proved against Replay.dfy. */
module ReplayObject {
  import opened Prelude
  import opened VaultTypes
  import opened Steps
  import opened VaultObject
  import C = Channels
  import M = ChannelObject
  import R = Replay

  /** `mark_processed` and `fetch_max` on the slot. */
  method MarkReplayed(v: VaultState, signature: Id, slot: nat)
    modifies v`processed, v`lastSignature, v`lastSlot
    ensures v.Value() == R.ReplayProcessed(old(v.Value()), signature, slot)
  {
    v.processed := v.processed + {signature};
    v.lastSignature := Some(signature);
    if v.lastSlot < slot { v.lastSlot := slot; }
  }

  method RaiseWithdrawNonce(v: VaultState, n: nat)
    modifies v`withdrawNonce
    ensures v.Value() == R.RaiseWithdrawNonce(old(v.Value()), n)
  {
    if v.withdrawNonce < n + 1 { v.withdrawNonce := n + 1; }
  }

  method ReplayDeposit(v: VaultState, c: Pubkey, amount: nat, slot: nat, signature: Id) returns (err: Option<Error>)
    modifies v
    ensures Effect(v.Value(), err) == R.ReplayDeposit(old(v.Value()), c, amount, slot, signature)
  {
    hide L.ApplyDeposit, R.ReplayProcessed;
    v.ApplyDeposit(c, amount);
    MarkReplayed(v, signature, slot);
    return None;
  }

  method ReplayAuthorized(v: VaultState, w: Withdrawal) returns (err: Option<Error>)
    modifies v
    ensures Effect(v.Value(), err) == R.ReplayAuthorized(old(v.Value()), w)
  {
    hide L.AuthorizeWithdrawal, L.Refresh, R.RaiseWithdrawNonce;
    err := v.AuthorizeWithdrawal(w);
    if err.Some? { return; }
    RaiseWithdrawNonce(v, w.nonce);
    err := v.Refresh(w.client);
  }

  method ReplayWithdrawApplied(v: VaultState, c: Pubkey, recipient: Pubkey, amount: nat, nonce: nat, expiresAt: Time,
                               slot: nat, signature: Id) returns (err: Option<Error>)
    modifies v
    ensures Effect(v.Value(), err)
      == R.ReplayWithdrawApplied(old(v.Value()), c, recipient, amount, nonce, expiresAt, slot, signature)
  {
    hide L.ApplyWithdrawal, L.Refresh, R.RaiseWithdrawNonce, R.ReplayProcessed, Matches;
    ghost var before := v.Value();
    L.AppliedPending(before, nonce);
    var w := if nonce in v.withdrawals then v.withdrawals[nonce] else Withdrawal(c, c, 0, 0, 0, 0);
    err := v.ApplyWithdrawal(nonce);
    if err.Some? { return; }
    if !Matches(w, c, recipient, amount, expiresAt) { return Some(ReplayMismatch); }
    MarkReplayed(v, signature, slot);
    RaiseWithdrawNonce(v, nonce);
    err := v.Refresh(c);
  }

  method ReplayWithdrawExpired(v: VaultState, c: Pubkey, nonce: nat) returns (err: Option<Error>)
    modifies v
    ensures Effect(v.Value(), err) == R.ReplayWithdrawExpired(old(v.Value()), c, nonce)
  {
    hide L.ExpireWithdrawal, L.Refresh;
    L.AppliedPending(v.Value(), nonce);
    var owner := if nonce in v.withdrawals then v.withdrawals[nonce].client else c;
    err := v.ExpireWithdrawal(nonce);
    if err.Some? { return; }
    if owner != c { return Some(ReplayMismatch); }
    err := v.Refresh(c);
  }

  method ReplayReservation(v: VaultState, vid: Id, payment: Id, c: Pubkey, provider: Id, amount: nat,
                           detail: Option<ReservationDetail>) returns (err: Option<Error>)
    modifies v
    ensures Effect(v.Value(), err) == R.ReplayReservation(old(v.Value()), vid, payment, c, provider, amount, detail)
  {
    hide L.ReserveBalance, WithReservation;
    if detail.None? { return Some(LegacyEntry); }
    err := v.ReserveBalance(c, amount);
    if err.Some? { return; }
    v.AddReservation(NewReservation(vid, payment, c, provider, amount, detail.value));
  }

  method ReplayEnd(v: VaultState, vid: Id, status: ReservationStatus) returns (err: Option<Error>)
    modifies v
    ensures Effect(v.Value(), err) == R.ReplayEnd(old(v.Value()), vid, status)
  {
    hide L.ReleaseBalance, WithStatus;
    if vid !in v.reservations { return Some(ReservationNotFound); }
    var r := v.reservations[vid];
    v.SetReservation(vid, r.(status := status));
    if r.status == Reserved { err := v.ReleaseBalance(r.client, r.amount); } else { err := None; }
  }

  method ReplaySettlement(v: VaultState, sid: Id, vid: Id, provider: Id, amount: nat, settledAt: Option<Time>)
    returns (err: Option<Error>)
    modifies v
    ensures Effect(v.Value(), err) == R.ReplaySettlement(old(v.Value()), sid, vid, provider, amount, settledAt)
  {
    hide L.SettlePayment, WithStatus, Record;
    if vid !in v.reservations { return Some(ReservationNotFound); }
    var r := v.reservations[vid];
    if r.provider != provider || r.amount != amount { return Some(ReplayMismatch); }
    var at := if settledAt.Some? then settledAt.value else r.createdAt;
    if r.status == Reserved { v.SetReservation(vid, AsSettled(r, sid, at)); }
    err := v.SettlePayment(r.client, r.amount, provider, sid, at);
    if err.Some? { return; }
    v.RecordSettlement(sid, r.client, provider, amount, at);
  }

  /** The ids of a replayed confirmation can be looked up without regard to the order of the maps. */
  ghost predicate Determined(v: Vault, e: Entry)
  {
    e.BatchConfirmed? ==> forall sid :: sid in e.settlementIds ==> Unambiguous(v, sid)
  }

  method ReplayFunds(k: Crypto, v: VaultState, e: Entry, env: R.Env) returns (err: Option<Error>)
    requires !R.ChannelEntry(e) && Determined(v.Value(), e)
    modifies v
    ensures Effect(v.Value(), err) == R.ReplayEntry(k, old(v.Value()), e, env)
  {
    hide R.ReplayDeposit, R.ReplayAuthorized, R.ReplayWithdrawApplied, R.ReplayWithdrawExpired, R.ReplayReservation,
      R.ReplayEnd, R.ReplaySettlement, L.ApplyBatchConfirmation, Unambiguous;
    err := None;
    match e
    case DepositApplied(c, amount, slot, signature) => err := ReplayDeposit(v, c, amount, slot, signature);
    case WithdrawAuthorized(w) => err := ReplayAuthorized(v, w);
    case WithdrawApplied(c, recipient, amount, nonce, expiresAt, slot, signature) =>
      err := ReplayWithdrawApplied(v, c, recipient, amount, nonce, expiresAt, slot, signature);
    case WithdrawExpired(c, nonce) => err := ReplayWithdrawExpired(v, c, nonce);
    case ReservationCreated(vid, payment, c, provider, amount, detail) =>
      err := ReplayReservation(v, vid, payment, c, provider, amount, detail);
    case ReservationCancelled(vid) => err := ReplayEnd(v, vid, Cancelled);
    case ReservationExpiredEntry(vid) => err := ReplayEnd(v, vid, Expired);
    case SettlementCommitted(sid, vid, provider, amount, settledAt) =>
      err := ReplaySettlement(v, sid, vid, provider, amount, settledAt);
    case ReceiptIssued(n) => if v.receiptNonce < n + 1 { v.receiptNonce := n + 1; }
    case ReceiptMirrored(n) => if v.receiptNonce < n + 1 { v.receiptNonce := n + 1; }
    case ProviderRegistered(p) => v.providers := v.providers[p.providerId := p];
    case BatchSubmitted(_) =>
    case BatchConfirmed(batchId, signature, sids) => v.ApplyBatchConfirmation(sids, batchId, signature);
  }

  method ReplayChannel(k: Crypto, v: VaultState, e: Entry, env: R.Env) returns (err: Option<Error>)
    requires R.ChannelEntry(e)
    modifies v
    ensures Effect(v.Value(), err) == R.ReplayEntry(k, old(v.Value()), e, env)
  {
    hide C.OpenChannel, C.CloseChannel, C.SubmitRequest, C.ExpireReplayed, C.DeliverAdaptor, C.FinalizeReplayed;
    match e
    case ChannelOpened(id, c, provider, deposit) => err := M.OpenChannel(v, id, c, provider, deposit, env.now);
    case ChannelClosed(id, _, _, closeId) =>
      err := M.CloseChannel(v, id, if closeId.Some? then closeId.value else env.uuid, env.now);
    case RequestSubmitted(_, _, _, _) => err := ReplayRequest(k, v, e, env);
    case RequestExpired(_, _, _) => err := ReplayRequest(k, v, e, env);
    case AdaptorDelivered(_, _, _) => err := ReplayRequest(k, v, e, env);
    case ChannelFinalized(_, _, _) => err := ReplayRequest(k, v, e, env);
  }

  method ReplayRequest(k: Crypto, v: VaultState, e: Entry, env: R.Env) returns (err: Option<Error>)
    requires e.RequestSubmitted? || e.RequestExpired? || e.AdaptorDelivered? || e.ChannelFinalized?
    modifies v
    ensures Effect(v.Value(), err) == R.ReplayEntry(k, old(v.Value()), e, env)
  {
    hide C.SubmitRequest, C.ExpireReplayed, C.DeliverAdaptor, C.FinalizeReplayed;
    match e
    case RequestSubmitted(id, rid, amount, hash) =>
      if hash.None? { err := Some(LegacyEntry); } else { err := M.SubmitRequest(v, id, rid, amount, hash.value, env.now); }
    case RequestExpired(id, rid, amount) => err := M.ExpireReplayed(v, id, rid, amount, env.now);
    case AdaptorDelivered(id, _, delivery) =>
      if delivery.None? { err := Some(LegacyEntry); } else { err := M.DeliverAdaptor(k, v, id, delivery.value, env.now); }
    case ChannelFinalized(id, rid, amount) => err := M.FinalizeReplayed(v, id, rid, amount, env.now);
  }

  method ReplayEntry(k: Crypto, v: VaultState, e: Entry, env: R.Env) returns (err: Option<Error>)
    requires Determined(v.Value(), e)
    modifies v
    ensures Effect(v.Value(), err) == R.ReplayEntry(k, old(v.Value()), e, env)
  {
    hide R.ReplayEntry, Determined;
    if R.ChannelEntry(e) { err := ReplayChannel(k, v, e, env); } else { err := ReplayFunds(k, v, e, env); }
  }

  /** Recomputes every client's cached expiry. */
  method RefreshAll(v: VaultState)
    modifies v`clients
    ensures v.Value() == R.RefreshAll(old(v.Value()))
  {
    hide L.LockedUntil;
    var todo := v.clients.Keys;
    ghost var before := v.Value();
    while todo != {}
      invariant todo <= before.clients.Keys && v.clients.Keys == before.clients.Keys
      invariant v.Value() == before.(clients := v.clients)
      invariant forall c :: c in v.clients && c in todo ==> v.clients[c] == before.clients[c]
      invariant forall c :: c in v.clients && c !in todo ==> v.clients[c] == R.RefreshAll(before).clients[c]
      decreases |todo|
    {
      var c :| c in todo;
      todo := todo - {c};
      var _ := v.Refresh(c);
    }
  }

  ghost predicate DeterminedLog(k: Crypto, v: Vault, log: seq<Entry>, envs: seq<R.Env>)
    requires |log| == |envs|
  {
    forall i :: 0 <= i < |log| ==> Determined(R.ReplayAll(k, v, log[..i], envs[..i]).v, log[i])
  }

  /** `replay_app_state_from`: the entries in order, stopping at the first error, then every cached expiry. */
  method ReplayAll(k: Crypto, v: VaultState, log: seq<Entry>, envs: seq<R.Env>) returns (err: Option<Error>)
    requires |log| == |envs| && DeterminedLog(k, v.Value(), log, envs)
    modifies v
    ensures var done := R.ReplayAll(k, old(v.Value()), log, envs);
      && err == done.err
      && v.Value() == if err.Some? then done.v else R.RefreshAll(done.v)
  {
    hide R.ReplayEntry, R.RefreshAll, Determined;
    ghost var before := v.Value();
    for i := 0 to |log|
      invariant R.ReplayAll(k, before, log[..i], envs[..i]) == Effect(v.Value(), None)
    {
      assert log[..i + 1][..i] == log[..i] && envs[..i + 1][..i] == envs[..i];
      err := ReplayEntry(k, v, log[i], envs[i]);
      if err.Some? {
        Stuck(k, before, log, envs, i + 1);
        return;
      }
    }
    assert log[..|log|] == log && envs[..|log|] == envs;
    RefreshAll(v);
    err := None;
  }

  /** A replay that has failed stays where it is. */
  lemma {:induction false} Stuck(k: Crypto, v: Vault, log: seq<Entry>, envs: seq<R.Env>, i: nat)
    requires |log| == |envs| && i <= |log| && R.ReplayAll(k, v, log[..i], envs[..i]).err.Some?
    ensures R.ReplayAll(k, v, log, envs) == R.ReplayAll(k, v, log[..i], envs[..i])
    decreases |log|
  {
    hide R.ReplayEntry;
    if i == |log| {
      assert log[..i] == log && envs[..i] == envs;
    } else {
      var n := |log| - 1;
      assert log[..n][..i] == log[..i] && envs[..n][..i] == envs[..i];
      Stuck(k, v, log[..n], envs[..n], i);
    }
  }
}
