/** What the invariant means for the source's machine arithmetic: nothing saturates and nothing overflows. */
module Consequences {
  import opened Prelude
  import opened Sums
  import opened VaultTypes
  import opened Ledger
  import opened Invariant
  import opened Preservation

  /**
   * No `saturating_sub` of a live ledger or channel step clips: each amount it takes away is covered by what it is
   * taken from.
   */
  lemma NothingClips(k: Crypto, v: Vault)
    requires Inv(k, v)
    ensures forall vid :: vid in v.reservations && v.reservations[vid].status == Reserved ==>
      v.reservations[vid].client in v.clients && v.reservations[vid].amount <= v.clients[v.reservations[vid].client].locked
    ensures forall n :: n in v.withdrawals ==>
      v.withdrawals[n].client in v.clients && v.withdrawals[n].amount <= v.clients[v.withdrawals[n].client].locked
    ensures forall id :: id in v.channels ==>
      v.channels[id].client in v.clients && ChannelTotal(v.channels[id]) <= v.clients[v.channels[id].client].locked
    ensures forall id :: id in v.channels && v.channels[id].request.Some? ==>
      v.channels[id].request.value.amount <= v.channels[id].locked
    ensures forall sid :: sid in v.history && v.history[sid].amount > 0 ==>
      exists p :: p in v.credits && sid in v.credits[p].ids && v.history[sid].amount <= v.credits[p].amount
  {
    hide MoneyOk, IndexOk, SettledOk, ChannelsOk;
    forall vid | vid in v.reservations && v.reservations[vid].status == Reserved
      ensures v.reservations[vid].client in v.clients && v.reservations[vid].amount <= v.clients[v.reservations[vid].client].locked
    {
      ReservationLocked(v, vid);
    }
    forall n | n in v.withdrawals
      ensures v.withdrawals[n].client in v.clients && v.withdrawals[n].amount <= v.clients[v.withdrawals[n].client].locked
    {
      WithdrawalLocked(v, n);
    }
    forall id | id in v.channels
      ensures v.channels[id].client in v.clients && ChannelTotal(v.channels[id]) <= v.clients[v.channels[id].client].locked
    {
      ChannelLocked(k, v, id);
    }
    ChannelCovers(k, v);
    forall sid | sid in v.history && v.history[sid].amount > 0
      ensures exists p :: p in v.credits && sid in v.credits[p].ids && v.history[sid].amount <= v.credits[p].amount
    {
      CreditCovers(v, sid);
    }
  }

  lemma ChannelCovers(k: Crypto, v: Vault)
    requires Inv(k, v)
    ensures forall id :: id in v.channels && v.channels[id].request.Some? ==>
      v.channels[id].request.value.amount <= v.channels[id].locked
  {
    hide MoneyOk, IndexOk, SettledOk, DeliveredOk;
  }

  lemma CreditCovers(v: Vault, sid: Id)
    requires SettledOk(v) && sid in v.history && v.history[sid].amount > 0
    ensures exists p :: p in v.credits && sid in v.credits[p].ids && v.history[sid].amount <= v.credits[p].amount
  {
    hide CreditsOk, ListedOk, NoneSpent;
    var vid := Owner(v.reservations, sid).value;
    assert v.history[sid] == RecordOf(v.reservations[vid], v.providers);
    ListedFor(v, vid);
    OwesSettled(v, vid);
  }

  lemma ListedFor(v: Vault, vid: Id)
    requires SettledOk(v) && vid in v.reservations && v.reservations[vid].status == SettledOffchain
    requires v.reservations[vid].amount > 0 && v.reservations[vid].settlementId.Some?
    ensures v.reservations[vid].provider in v.credits
    ensures v.reservations[vid].settlementId.value in v.credits[v.reservations[vid].provider].ids
  {
    hide HistoryOk, CreditsOk, NoneSpent;
  }

  predicate BalanceFits(b: Balance)
  {
    b.free < U64_LIMIT && b.locked < U64_LIMIT && b.deposited < U64_LIMIT && b.withdrawn < U64_LIMIT
    && b.free + b.locked + b.withdrawn < U64_LIMIT
  }

  /** If all deposits together fit in 64 bits, so does every balance, credit and channel part, and every sum of them. */
  lemma NothingOverflows(k: Crypto, v: Vault)
    requires Inv(k, v) && Sum(v.clients, DepositedOf()) < U64_LIMIT
    ensures Sum(v.clients, HeldOf()) + Sum(v.credits, OwedOf()) + Sum(v.reservations, PaidOutOf()) < U64_LIMIT
    ensures forall c :: c in v.clients ==> BalanceFits(v.clients[c])
    ensures forall p :: p in v.credits ==> v.credits[p].amount < U64_LIMIT
    ensures forall id :: id in v.channels ==> ChannelTotal(v.channels[id]) < U64_LIMIT
  {
    hide LockedOk, CacheOk, IndexOk, SettledOk, ChannelsOk;
    forall c | c in v.clients ensures BalanceFits(v.clients[c]) {
      SumBounds(v.clients, DepositedOf(), c);
      SumBounds(v.clients, HeldOf(), c);
    }
    forall p | p in v.credits ensures v.credits[p].amount < U64_LIMIT { SumBounds(v.credits, OwedOf(), p); }
    forall id | id in v.channels ensures ChannelTotal(v.channels[id]) < U64_LIMIT { ChannelLocked(k, v, id); }
  }
}
