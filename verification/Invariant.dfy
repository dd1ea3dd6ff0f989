/**
 * What every live step keeps. Each part names only the maps it speaks about, so a step that leaves those
 * maps alone keeps that part for free.
 */
module Invariant {
  import opened Prelude
  import opened Sums
  import opened VaultTypes
  import opened Ledger
  import opened Channels
  import opened CreditIndex

  // ---- Locked funds ----

  function LockedOf(cl: map<Pubkey, Balance>, c: Pubkey): nat { if c in cl then cl[c].locked else 0 }

  /** A client's open reservations, pending withdrawals and channels (all three balance parts). */
  ghost function Locks(c: Pubkey, rs: map<Id, Reservation>, ws: map<nat, Withdrawal>, chs: map<Id, Channel>): nat
  {
    Sum(rs, ReservationLock(c)) + Sum(ws, WithdrawalLock(c)) + Sum(chs, ChannelLock(c))
  }

  ghost predicate LockedOk(cl: map<Pubkey, Balance>, rs: map<Id, Reservation>, ws: map<nat, Withdrawal>, chs: map<Id, Channel>)
  {
    forall c :: LockedOf(cl, c) == Locks(c, rs, ws, chs)
  }

  // ---- Cached expiry ----

  function CachedUntil(cl: map<Pubkey, Balance>, c: Pubkey): Time { if c in cl then cl[c].maxLock else 0 }

  ghost predicate CacheOk(cl: map<Pubkey, Balance>, rs: map<Id, Reservation>, ws: map<nat, Withdrawal>, chs: map<Id, Channel>)
  {
    forall c :: CachedUntil(cl, c) == LockedUntil(c, rs, ws, chs)
  }

  // ---- Conservation ----

  function DepositedOf(): Balance -> nat { (b: Balance) => b.deposited }
  function HeldOf(): Balance -> nat { (b: Balance) => b.free + b.locked + b.withdrawn }
  function OwedOf(): Credit -> nat { (credit: Credit) => credit.amount }
  function PaidOutOf(): Reservation -> nat { (r: Reservation) => if r.status == BatchedOnchain then r.amount else 0 }

  /** What was deposited and is neither free, locked, withdrawn, owed to providers, nor paid out on-chain. */
  ghost function Shortfall(cl: map<Pubkey, Balance>, credits: map<Id, Credit>, rs: map<Id, Reservation>): int
  {
    Sum(cl, DepositedOf()) - Sum(cl, HeldOf()) - Sum(credits, OwedOf()) - Sum(rs, PaidOutOf())
  }

  ghost function Lost(v: Vault): int { Shortfall(v.clients, v.credits, v.reservations) }

  // ---- Ownership ----

  ghost predicate OwnersOk(cl: map<Pubkey, Balance>, rs: map<Id, Reservation>, ws: map<nat, Withdrawal>,
                           chs: map<Id, Channel>, ps: map<Id, Provider>)
  {
    && (forall vid :: vid in rs ==> rs[vid].client in cl && rs[vid].provider in ps && rs[vid].verificationId == vid)
    && (forall n :: n in ws ==> ws[n].client in cl && ws[n].nonce == n)
    && (forall id :: id in chs ==> chs[id].client in cl && chs[id].provider in ps)
    && (forall p :: p in ps ==> ps[p].providerId == p)
  }

  ghost predicate PaymentsOk(payments: map<Id, Id>, rs: map<Id, Reservation>)
  {
    && (forall vid :: vid in rs ==> rs[vid].paymentId in payments && payments[rs[vid].paymentId] == vid)
    && (forall p :: p in payments ==> payments[p] in rs && rs[payments[p]].paymentId == p)
  }

  ghost predicate NoncesOk(ws: map<nat, Withdrawal>, next: nat) { forall n :: n in ws ==> n < next }

  // ---- Settlements and credits ----

  predicate StatusOk(r: Reservation)
  {
    && (r.settlementId.Some? <==> r.status == SettledOffchain || r.status == BatchedOnchain)
    && (r.settlementId.Some? <==> r.settledAt.Some?)
  }

  ghost predicate SidsUnique(rs: map<Id, Reservation>)
  {
    forall a, b :: a in rs && b in rs && rs[a].settlementId.Some? && rs[a].settlementId == rs[b].settlementId ==> a == b
  }

  /** The history record of a settled reservation. */
  function RecordOf(r: Reservation, ps: map<Id, Provider>): Settlement
    requires r.settlementId.Some? && r.settledAt.Some? && r.provider in ps
  {
    Settlement(r.settlementId.value, r.client, ps[r.provider].account, r.amount, r.settledAt.value)
  }

  ghost predicate HistoryOk(rs: map<Id, Reservation>, h: map<Id, Settlement>, ps: map<Id, Provider>)
  {
    && SidsUnique(rs)
    && (forall vid :: vid in rs ==> StatusOk(rs[vid]) && rs[vid].provider in ps)
    && (forall vid :: vid in rs && rs[vid].status == SettledOffchain ==>
          rs[vid].settlementId.value in h && h[rs[vid].settlementId.value] == RecordOf(rs[vid], ps))
    && (forall sid :: sid in h ==> Owner(rs, sid).Some? && rs[Owner(rs, sid).value].status == SettledOffchain)
  }

  /**
   * A credit holds distinct ids. Recorded ones belong to reservations of this provider; the others are channel
   * closings, and the credit exceeds its recorded sum exactly when it lists one.
   */
  ghost predicate CreditOk(p: Id, credit: Credit, rs: map<Id, Reservation>, h: map<Id, Settlement>, ps: map<Id, Provider>)
  {
    && p in ps && credit.provider == p && credit.account == ps[p].account
    && Distinct(credit.ids)
    && (forall id :: id in credit.ids ==>
          if id in h then Owner(rs, id).Some? && rs[Owner(rs, id).value].provider == p else Owner(rs, id).None?)
    && HistSum(credit.ids, h) <= credit.amount
    && (credit.amount == HistSum(credit.ids, h) <==> AllRecorded(credit.ids, h))
  }

  ghost predicate CreditsOk(credits: map<Id, Credit>, rs: map<Id, Reservation>, h: map<Id, Settlement>, ps: map<Id, Provider>)
  {
    forall p :: p in credits ==> CreditOk(p, credits[p], rs, h, ps)
  }

  /** A reservation with money in it that is settled and not yet paid out is listed by its provider's credit. */
  ghost predicate ListedOk(credits: map<Id, Credit>, rs: map<Id, Reservation>)
  {
    forall vid :: vid in rs && rs[vid].status == SettledOffchain && rs[vid].amount > 0 && rs[vid].settlementId.Some? ==>
      rs[vid].provider in credits && rs[vid].settlementId.value in credits[rs[vid].provider].ids
  }

  ghost predicate NoneSpent(credits: map<Id, Credit>) { forall p :: p in credits ==> credits[p].ids != [] }

  // ---- Channels ----

  predicate NoDelivery(req: Request)
  {
    req.providerKey.None? && req.adaptorPoint.None? && req.preSig.None? && req.ciphertext.None? && req.resultHash.None?
  }

  /** A pending request holds a complete delivery whose pre-signature verifies. */
  predicate DeliveredOk(k: Crypto, id: Id, req: Request)
  {
    && req.providerKey.Some? && req.adaptorPoint.Some? && req.preSig.Some? && req.ciphertext.Some? && req.resultHash.Some?
    && DeliveryVerifies(k, id, req, Delivery(req.adaptorPoint.value, req.preSig.value, req.ciphertext.value,
                                             req.resultHash.value, req.providerKey.value))
  }

  predicate ChannelOk(k: Crypto, id: Id, ch: Channel)
  {
    && ch.channelId == id
    && (ch.status == Open <==> ch.request.None?)
    && ch.locked == (if ch.request.Some? then ch.request.value.amount else 0)
    && (ch.request.Some? ==> ch.request.value.requestId in ch.usedIds)
    && (ch.status == Locked ==> NoDelivery(ch.request.value))
    && (ch.status == Pending ==> DeliveredOk(k, id, ch.request.value))
  }

  predicate ChannelsOk(k: Crypto, chs: map<Id, Channel>) { forall id :: id in chs ==> ChannelOk(k, id, chs[id]) }

  // ---- All together ----

  ghost predicate MoneyOk(v: Vault)
  {
    && LockedOk(v.clients, v.reservations, v.withdrawals, v.channels)
    && CacheOk(v.clients, v.reservations, v.withdrawals, v.channels)
    && Lost(v) >= 0
  }

  ghost predicate IndexOk(v: Vault)
  {
    && OwnersOk(v.clients, v.reservations, v.withdrawals, v.channels, v.providers)
    && PaymentsOk(v.payments, v.reservations)
    && NoncesOk(v.withdrawals, v.withdrawNonce)
  }

  ghost predicate SettledOk(v: Vault)
  {
    && HistoryOk(v.reservations, v.history, v.providers)
    && CreditsOk(v.credits, v.reservations, v.history, v.providers)
    && ListedOk(v.credits, v.reservations)
    && NoneSpent(v.credits)
  }

  ghost predicate Inv(k: Crypto, v: Vault)
  {
    MoneyOk(v) && IndexOk(v) && SettledOk(v) && ChannelsOk(k, v.channels)
  }

  // ---- Who carries a settlement id ----

  /** Settlement ids are unique, so whoever carries one is its owner. */
  lemma OwnerIs(rs: map<Id, Reservation>, vid: Id, sid: Id)
    requires SidsUnique(rs) && vid in rs && SettledAs(rs[vid], sid)
    ensures Owner(rs, sid) == Some(vid)
  {
  }

  lemma OwnerNone(rs: map<Id, Reservation>, sid: Id)
    requires forall vid :: vid in rs ==> !SettledAs(rs[vid], sid)
    ensures Owner(rs, sid) == None
  {
  }
}
