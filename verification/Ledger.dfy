/** The ledger operations of `VaultState` (enclave/src/state.rs), as functions on the vault's value. */
module Ledger {
  import opened Prelude
  import opened Sums
  import opened VaultTypes

  function Ok(v: Vault): Effect { Effect(v, None) }
  function Fail(v: Vault, e: Error): Effect { Effect(v, Some(e)) }

  function WithBalance(v: Vault, c: Pubkey, b: Balance): Vault { v.(clients := v.clients[c := b]) }

  function ApplyDeposit(v: Vault, c: Pubkey, amount: nat): Vault
  {
    var b := if c in v.clients then v.clients[c] else EmptyBalance;
    WithBalance(v, c, b.(free := b.free + amount, deposited := b.deposited + amount))
  }

  function RollbackDeposit(v: Vault, c: Pubkey, amount: nat): Effect
  {
    if c !in v.clients then Fail(v, ClientNotFound) else
      var b := v.clients[c];
      Ok(WithBalance(v, c, b.(free := SatSub(b.free, amount), deposited := SatSub(b.deposited, amount))))
  }

  function ReserveBalance(v: Vault, c: Pubkey, amount: nat): Effect
  {
    if c !in v.clients || v.clients[c].free < amount then Fail(v, InsufficientBalance) else
      var b := v.clients[c];
      Ok(WithBalance(v, c, b.(free := b.free - amount, locked := b.locked + amount)))
  }

  function ReleaseBalance(v: Vault, c: Pubkey, amount: nat): Effect
  {
    if c !in v.clients then Fail(v, ClientNotFound) else
      var b := v.clients[c];
      Ok(WithBalance(v, c, b.(locked := SatSub(b.locked, amount), free := b.free + amount)))
  }

  // ---- What locks a client's funds, and until when ----

  function ReservationLock(c: Pubkey): Reservation -> nat
  {
    (r: Reservation) => if r.client == c && r.status == Reserved then r.amount else 0
  }

  function WithdrawalLock(c: Pubkey): Withdrawal -> nat
  {
    (w: Withdrawal) => if w.client == c then w.amount else 0
  }

  function ChannelTotal(ch: Channel): nat { ch.free + ch.locked + ch.earned }

  function ChannelLock(c: Pubkey): Channel -> nat
  {
    (ch: Channel) => if ch.client == c then ChannelTotal(ch) else 0
  }

  function ReservationUntil(c: Pubkey): Reservation -> nat
  {
    (r: Reservation) => if r.client == c && r.status == Reserved then r.expiresAt else 0
  }

  function WithdrawalUntil(c: Pubkey): Withdrawal -> nat
  {
    (w: Withdrawal) => if w.client == c then w.expiresAt else 0
  }

  function ChannelUntil(c: Pubkey): Channel -> nat
  {
    (ch: Channel) => if ch.client == c && ch.request.Some? then ch.request.value.expiresAt else 0
  }

  /** The latest expiry among a client's open reservations, pending withdrawals and active channel requests. */
  ghost function LockedUntil(c: Pubkey, rs: map<Id, Reservation>, ws: map<nat, Withdrawal>, chs: map<Id, Channel>): Time
  {
    Max(Max(Latest(rs, ReservationUntil(c)), Latest(ws, WithdrawalUntil(c))), Latest(chs, ChannelUntil(c)))
  }

  ghost function Refresh(v: Vault, c: Pubkey): Effect
  {
    if c !in v.clients then Fail(v, ClientNotFound) else
      Ok(WithBalance(v, c, v.clients[c].(maxLock := LockedUntil(c, v.reservations, v.withdrawals, v.channels))))
  }

  // ---- Withdrawals ----

  function AuthorizeWithdrawal(v: Vault, w: Withdrawal): Effect
  {
    if w.client !in v.clients then Fail(v, ClientNotFound)
    else if v.clients[w.client].free < w.amount then Fail(v, InsufficientBalance)
    else
      var b := v.clients[w.client];
      var v1 := WithBalance(v, w.client, b.(free := b.free - w.amount, locked := b.locked + w.amount));
      Ok(v1.(withdrawals := v1.withdrawals[w.nonce := w]))
  }

  /** Also `rollback_authorized_withdrawal`. The pending entry is gone even when the client is missing. */
  function ExpireWithdrawal(v: Vault, nonce: nat): Effect
  {
    if nonce !in v.withdrawals then Fail(v, ReservationNotFound) else
      var w := v.withdrawals[nonce];
      var v1 := v.(withdrawals := v.withdrawals - {nonce});
      if w.client !in v.clients then Fail(v1, ClientNotFound) else
        var b := v.clients[w.client];
        Ok(WithBalance(v1, w.client, b.(locked := SatSub(b.locked, w.amount), free := b.free + w.amount)))
  }

  function ApplyWithdrawal(v: Vault, nonce: nat): Effect
  {
    if nonce !in v.withdrawals then Fail(v, ReservationNotFound) else
      var w := v.withdrawals[nonce];
      var v1 := v.(withdrawals := v.withdrawals - {nonce});
      if w.client !in v.clients then Fail(v1, ClientNotFound) else
        var b := v.clients[w.client];
        Ok(WithBalance(v1, w.client, b.(locked := SatSub(b.locked, w.amount), withdrawn := b.withdrawn + w.amount)))
  }

  function RollbackAppliedWithdrawal(v: Vault, w: Withdrawal): Effect
  {
    if w.client !in v.clients then Fail(v, ClientNotFound) else
      var b := v.clients[w.client];
      var v1 := WithBalance(v, w.client, b.(locked := b.locked + w.amount, withdrawn := SatSub(b.withdrawn, w.amount)));
      Ok(v1.(withdrawals := v1.withdrawals[w.nonce := w]))
  }

  // ---- Settlement ----

  /** A provider's credit, or the one a first settlement starts. */
  function StartedCredit(v: Vault, provider: Id, now: Time): Credit
    requires provider in v.providers
  {
    if provider in v.credits then v.credits[provider] else Credit(provider, v.providers[provider].account, 0, now, [])
  }

  function RaisedCredit(credit: Credit, amount: nat, sid: Id): Credit
  {
    credit.(amount := credit.amount + amount, ids := credit.ids + [sid])
  }

  /** The provider's credit with one more amount under one more id. */
  function CreditedWith(v: Vault, provider: Id, amount: nat, sid: Id, now: Time): Credit
    requires provider in v.providers
  {
    RaisedCredit(StartedCredit(v, provider, now), amount, sid)
  }

  /** The client is debited before the provider is looked up, as in the source. */
  function SettlePayment(v: Vault, c: Pubkey, amount: nat, provider: Id, sid: Id, now: Time): Effect
  {
    if c !in v.clients then Fail(v, ClientNotFound) else
      var b := v.clients[c];
      var v1 := WithBalance(v, c, b.(locked := SatSub(b.locked, amount)));
      if provider !in v.providers then Fail(v1, ProviderNotFound) else
        Ok(v1.(credits := v1.credits[provider := CreditedWith(v1, provider, amount, sid, now)]))
  }

  /** The identifiers other than `sid`, in order (`Vec::retain`). */
  function Without(ids: seq<Id>, sid: Id): seq<Id>
  {
    if ids == [] then [] else (if ids[0] == sid then [] else [ids[0]]) + Without(ids[1..], sid)
  }

  predicate Spent(credit: Credit) { credit.amount == 0 || credit.ids == [] }

  function Deduct(credit: Credit, amount: nat, sid: Id): Credit
  {
    credit.(amount := SatSub(credit.amount, amount), ids := Without(credit.ids, sid))
  }

  function RollbackSettlePayment(v: Vault, c: Pubkey, amount: nat, provider: Id, sid: Id): Effect
  {
    if c !in v.clients then Fail(v, ClientNotFound) else
      var b := v.clients[c];
      var v1 := WithBalance(v, c, b.(locked := b.locked + amount));
      if provider !in v.credits then Fail(v1, ProviderNotFound) else
        var credit := Deduct(v.credits[provider], amount, sid);
        Ok(v1.(credits := if Spent(credit) then v1.credits - {provider} else v1.credits[provider := credit]))
  }

  // ---- Batch confirmation ----

  predicate SettledAs(r: Reservation, sid: Id) { r.settlementId == Some(sid) }

  /** The reservation carrying a settlement id, if any (`iter_mut().find`). */
  ghost function Owner(rs: map<Id, Reservation>, sid: Id): (o: Option<Id>)
    ensures o.Some? ==> o.value in rs && SettledAs(rs[o.value], sid)
    ensures o.None? ==> forall vid :: vid in rs ==> !SettledAs(rs[vid], sid)
  {
    if exists vid :: vid in rs && SettledAs(rs[vid], sid) then
      var vid :| vid in rs && SettledAs(rs[vid], sid); Some(vid)
    else None
  }

  /** The provider whose credit lists a settlement id, if any. */
  ghost function Holder(credits: map<Id, Credit>, sid: Id): (o: Option<Id>)
    ensures o.Some? ==> o.value in credits && sid in credits[o.value].ids
    ensures o.None? ==> forall p :: p in credits ==> sid !in credits[p].ids
  {
    if exists p :: p in credits && sid in credits[p].ids then
      var p :| p in credits && sid in credits[p].ids; Some(p)
    else None
  }

  /** One identifier of a confirmed chunk; the provider it touched is added to `affected`. */
  ghost function ConfirmOne(v: Vault, sid: Id, info: BatchInfo): Vault
  {
    var v1 := v.(history := v.history - {sid}, batches := v.batches[sid := info]);
    match Owner(v.reservations, sid)
    case Some(vid) =>
      var r := v.reservations[vid];
      var v2 := v1.(reservations := v1.reservations[vid := r.(status := BatchedOnchain)]);
      if r.provider in v.credits
      then v2.(credits := v2.credits[r.provider := Deduct(v.credits[r.provider], r.amount, sid)])
      else v2
    case None =>
      match Holder(v.credits, sid)
      case Some(p) => v1.(credits := v1.credits[p := v.credits[p].(ids := Without(v.credits[p].ids, sid))])
      case None => v1
  }

  ghost function Touched(v: Vault, sid: Id): set<Id>
  {
    match Owner(v.reservations, sid)
    case Some(vid) => {v.reservations[vid].provider}
    case None => match Holder(v.credits, sid) case Some(p) => {p} case None => {}
  }

  ghost function ConfirmEach(v: Vault, sids: seq<Id>, info: BatchInfo): Vault
    decreases |sids|
  {
    if sids == [] then v else
      var n := |sids| - 1;
      ConfirmOne(ConfirmEach(v, sids[..n], info), sids[n], info)
  }

  ghost function TouchedEach(v: Vault, sids: seq<Id>, info: BatchInfo): set<Id>
    decreases |sids|
  {
    if sids == [] then {} else
      var n := |sids| - 1;
      TouchedEach(v, sids[..n], info) + Touched(ConfirmEach(v, sids[..n], info), sids[n])
  }

  /** The earliest timestamp the history records for a list of settlements. */
  function Earliest(ids: seq<Id>, history: map<Id, Settlement>): Option<Time>
  {
    if ids == [] then None else
      var rest := Earliest(ids[1..], history);
      if ids[0] !in history then rest
      else if rest.None? || history[ids[0]].timestamp <= rest.value then Some(history[ids[0]].timestamp)
      else rest
  }

  function Restamped(credit: Credit, history: map<Id, Settlement>): Credit
  {
    var earliest := Earliest(credit.ids, history);
    if earliest.Some? then credit.(oldestAt := earliest.value) else credit
  }

  function DropSpent(credits: map<Id, Credit>, affected: set<Id>): map<Id, Credit>
  {
    map p | p in credits && !(p in affected && Spent(credits[p])) :: credits[p]
  }

  function RestampEach(credits: map<Id, Credit>, affected: set<Id>, history: map<Id, Settlement>): map<Id, Credit>
  {
    map p | p in credits :: if p in affected then Restamped(credits[p], history) else credits[p]
  }

  ghost function ApplyBatchConfirmation(v: Vault, sids: seq<Id>, batchId: nat, signature: Id): Vault
  {
    var info := BatchInfo(batchId, signature);
    var v1 := ConfirmEach(v, sids, info);
    var affected := TouchedEach(v, sids, info);
    v1.(credits := RestampEach(DropSpent(v1.credits, affected), affected, v1.history))
  }

  lemma AppliedTakes(v: Vault, nonce: nat)
    requires nonce in v.withdrawals
    ensures ApplyWithdrawal(v, nonce).v.withdrawals == v.withdrawals - {nonce}
  {
    var v1 := v.(withdrawals := v.withdrawals - {nonce});
    if v.withdrawals[nonce].client in v.clients {
      assert ApplyWithdrawal(v, nonce).v == v1.(clients := ApplyWithdrawal(v, nonce).v.clients);
    } else {
      assert ApplyWithdrawal(v, nonce).v == v1;
    }
  }

  lemma AppliedPending(v: Vault, nonce: nat)
    ensures ApplyWithdrawal(v, nonce).err.None? ==> nonce in v.withdrawals
    ensures ExpireWithdrawal(v, nonce).err.None? ==> nonce in v.withdrawals
  {
  }
}
