/** What a batch confirmation does to the books, one settlement id at a time. */
module BatchLemmas {
  import opened Prelude
  import opened Sums
  import opened VaultTypes
  import opened Ledger
  import opened CreditIndex
  import opened Invariant
  import opened MoneyLemmas
  import opened SettlementLemmas

  /** The invariant while a confirmation is under way: emptied credits are still in the map. */
  ghost predicate Confirming(v: Vault)
  {
    && MoneyOk(v) && IndexOk(v)
    && HistoryOk(v.reservations, v.history, v.providers)
    && CreditsOk(v.credits, v.reservations, v.history, v.providers)
    && ListedOk(v.credits, v.reservations)
  }

  /** The chunk lists distinct settlements that await payout. */
  ghost predicate Payable(v: Vault, sids: seq<Id>)
  {
    Distinct(sids) && AllRecorded(sids, v.history)
  }

  /** The pieces of one confirmation step, given the reservation that carries the id. */
  ghost function PaidRs(v: Vault, vid: Id): map<Id, Reservation>
    requires vid in v.reservations
  {
    v.reservations[vid := v.reservations[vid].(status := BatchedOnchain)]
  }

  ghost function PaidCredits(v: Vault, vid: Id, sid: Id): map<Id, Credit>
    requires vid in v.reservations
  {
    var r := v.reservations[vid];
    if r.provider in v.credits then v.credits[r.provider := Deduct(v.credits[r.provider], r.amount, sid)] else v.credits
  }

  lemma PaidOwners(v: Vault, vid: Id)
    requires HistoryOk(v.reservations, v.history, v.providers) && vid in v.reservations
    requires v.reservations[vid].status == SettledOffchain
    ensures SidsUnique(PaidRs(v, vid))
    ensures forall s :: Owner(PaidRs(v, vid), s) == Owner(v.reservations, s)
  {
    hide RecordOf;
    var rs, rs' := v.reservations, PaidRs(v, vid);
    assert SidsUnique(rs');
    assert SameCarriers(rs, rs');
    OwnersSame(rs, rs');
  }

  /** `vid` is settled under `sid`, which awaits payout. */
  ghost predicate Paying(v: Vault, vid: Id, sid: Id)
  {
    && vid in v.reservations && SettledAs(v.reservations[vid], sid) && v.reservations[vid].status == SettledOffchain
    && sid in v.history
  }

  lemma PayingOwner(v: Vault, sid: Id)
    requires HistoryOk(v.reservations, v.history, v.providers) && sid in v.history
    ensures Owner(v.reservations, sid).Some? && Paying(v, Owner(v.reservations, sid).value, sid)
  {
  }

  lemma PaidHistory(v: Vault, vid: Id, sid: Id)
    requires HistoryOk(v.reservations, v.history, v.providers) && Paying(v, vid, sid)
    ensures HistoryOk(PaidRs(v, vid), v.history - {sid}, v.providers)
  {
    hide RecordOf, Owner;
    PaidOwners(v, vid);
    OwnerIs(v.reservations, vid, sid);
    var rs, rs' := v.reservations, PaidRs(v, vid);
    forall s | s in v.history - {sid} ensures rs'[Owner(rs', s).value].status == SettledOffchain {
      assert SettledAs(rs[Owner(rs, s).value], s);
    }
  }

  /** The recorded amount of a settlement is the reservation's. */
  lemma RecordedAmount(v: Vault, vid: Id, sid: Id)
    requires HistoryOk(v.reservations, v.history, v.providers) && Paying(v, vid, sid)
    ensures v.history[sid].amount == v.reservations[vid].amount
  {
    hide Owner, SidsUnique;
    assert v.history[sid] == RecordOf(v.reservations[vid], v.providers);
  }

  /** The paying provider's credit loses exactly this settlement, and cannot be overdrawn by it. */
  lemma DeductedOk(v: Vault, vid: Id, sid: Id)
    requires Confirming(v) && Paying(v, vid, sid) && v.reservations[vid].provider in v.credits
    ensures var r := v.reservations[vid];
      && r.amount <= v.credits[r.provider].amount
      && CreditOk(r.provider, Deduct(v.credits[r.provider], r.amount, sid), PaidRs(v, vid), v.history - {sid}, v.providers)
  {
    hide RecordOf, Owner, MoneyOk, IndexOk, HistSum, SidsUnique;
    var r := v.reservations[vid];
    var p, credit, h' := r.provider, v.credits[r.provider], v.history - {sid};
    var less := Without(credit.ids, sid);
    assert CreditOk(p, credit, v.reservations, v.history, v.providers);
    PaidOwners(v, vid);
    RecordedAmount(v, vid, sid);
    WithoutMembers(credit.ids, sid);
    WithoutDistinct(credit.ids, sid);
    HistSumFrame(less, v.history, h');
    if sid in credit.ids { HistSumWithout(credit.ids, v.history, sid); } else { WithoutAbsent(credit.ids, sid); }
    DeductedOwners(v, vid, sid);
    assert AllRecorded(less, h') <==> AllRecorded(credit.ids, v.history);
  }

  lemma DeductedOwners(v: Vault, vid: Id, sid: Id)
    requires Confirming(v) && Paying(v, vid, sid) && v.reservations[vid].provider in v.credits
    ensures var p := v.reservations[vid].provider;
      forall id :: id in Without(v.credits[p].ids, sid) ==>
        if id in v.history - {sid}
        then Owner(PaidRs(v, vid), id).Some? && PaidRs(v, vid)[Owner(PaidRs(v, vid), id).value].provider == p
        else Owner(PaidRs(v, vid), id).None?
  {
    hide RecordOf, Owner, MoneyOk, IndexOk, HistSum, SidsUnique;
    var p := v.reservations[vid].provider;
    assert CreditOk(p, v.credits[p], v.reservations, v.history, v.providers);
    PaidOwners(v, vid);
    WithoutMembers(v.credits[p].ids, sid);
  }

  /** Other credits never listed this settlement. */
  lemma UntouchedOk(v: Vault, vid: Id, sid: Id, q: Id)
    requires Confirming(v) && Paying(v, vid, sid) && q in v.credits && q != v.reservations[vid].provider
    ensures CreditOk(q, v.credits[q], PaidRs(v, vid), v.history - {sid}, v.providers)
  {
    hide RecordOf, Owner, MoneyOk, IndexOk, HistSum, SidsUnique;
    assert CreditOk(q, v.credits[q], v.reservations, v.history, v.providers);
    PaidOwners(v, vid);
    OwnerIs(v.reservations, vid, sid);
    HistSumFrame(v.credits[q].ids, v.history, v.history - {sid});
  }

  lemma PaidCreditsOk(v: Vault, vid: Id, sid: Id)
    requires Confirming(v) && Paying(v, vid, sid)
    ensures CreditsOk(PaidCredits(v, vid, sid), PaidRs(v, vid), v.history - {sid}, v.providers)
  {
    hide Confirming, CreditOk;
    var p, credits' := v.reservations[vid].provider, PaidCredits(v, vid, sid);
    forall q | q in credits' ensures CreditOk(q, credits'[q], PaidRs(v, vid), v.history - {sid}, v.providers) {
      if q == p { DeductedOk(v, vid, sid); } else { UntouchedOk(v, vid, sid, q); }
    }
  }

  lemma PaidListed(v: Vault, vid: Id, sid: Id)
    requires Confirming(v) && Paying(v, vid, sid)
    ensures ListedOk(PaidCredits(v, vid, sid), PaidRs(v, vid))
  {
    hide RecordOf, Owner, MoneyOk, IndexOk, CreditsOk;
    var p := v.reservations[vid].provider;
    if p in v.credits { WithoutMembers(v.credits[p].ids, sid); }
  }

  /** What leaves the credit is what the reservation now counts as paid out. */
  lemma PaidShortfall(v: Vault, vid: Id, sid: Id)
    requires Confirming(v) && Paying(v, vid, sid)
    ensures Shortfall(v.clients, PaidCredits(v, vid, sid), PaidRs(v, vid)) == Lost(v)
  {
    hide RecordOf, Owner, CreditsOk, HistoryOk, IndexOk, LockedOk, CacheOk;
    var r := v.reservations[vid];
    PaidOutWritten(v.reservations, vid, r.(status := BatchedOnchain));
    if r.provider in v.credits {
      DeductedOk(v, vid, sid);
      CreditWritten(v.credits, r.provider, Deduct(v.credits[r.provider], r.amount, sid));
    }
  }

  /** A settled reservation locks nothing, before or after payout. */
  lemma PaidLocks(v: Vault, vid: Id)
    requires MoneyOk(v) && vid in v.reservations && v.reservations[vid].status == SettledOffchain
    ensures LockedOk(v.clients, PaidRs(v, vid), v.withdrawals, v.channels)
    ensures CacheOk(v.clients, PaidRs(v, vid), v.withdrawals, v.channels)
  {
    hide Shortfall;
    var r' := v.reservations[vid].(status := BatchedOnchain);
    forall d ensures LockedOf(v.clients, d) == Locks(d, PaidRs(v, vid), v.withdrawals, v.channels) {
      assert LockedOf(v.clients, d) == Locks(d, v.reservations, v.withdrawals, v.channels);
      SumUpdate(v.reservations, ReservationLock(d), vid, r');
    }
    forall d ensures CachedUntil(v.clients, d) == LockedUntil(d, PaidRs(v, vid), v.withdrawals, v.channels) {
      assert CachedUntil(v.clients, d) == LockedUntil(d, v.reservations, v.withdrawals, v.channels);
      LatestUpdate(v.reservations, ReservationUntil(d), vid, r');
    }
  }

  lemma ConfirmOneShape(v: Vault, sid: Id, info: BatchInfo)
    requires Owner(v.reservations, sid).Some?
    ensures var vid := Owner(v.reservations, sid).value;
      ConfirmOne(v, sid, info) == v.(reservations := PaidRs(v, vid), credits := PaidCredits(v, vid, sid),
                                     history := v.history - {sid}, batches := v.batches[sid := info])
  {
    hide Owner, Holder, Deduct;
  }

  lemma OwnedWhenRecorded(v: Vault, sid: Id)
    requires Confirming(v) && sid in v.history
    ensures Owner(v.reservations, sid).Some?
  {
    hide Owner, MoneyOk, IndexOk, CreditsOk, ListedOk;
  }

  lemma ConfirmOneKeeps(v: Vault, sid: Id, info: BatchInfo)
    requires Confirming(v) && sid in v.history
    ensures Confirming(ConfirmOne(v, sid, info)) && Lost(ConfirmOne(v, sid, info)) == Lost(v)
  {
    hide LockedOk, CacheOk, Shortfall, HistoryOk, CreditsOk, ListedOk, Owner, PaymentsOk, OwnersOk, NoncesOk, ConfirmOne;
    PayingOwner(v, sid);
    var vid := Owner(v.reservations, sid).value;
    ConfirmOneShape(v, sid, info);
    PaidHistory(v, vid, sid);
    PaidCreditsOk(v, vid, sid);
    PaidListed(v, vid, sid);
    PaidShortfall(v, vid, sid);
    PaidLocks(v, vid);
    PaidIndex(v, vid);
  }

  lemma PaidIndex(v: Vault, vid: Id)
    requires IndexOk(v) && vid in v.reservations
    ensures OwnersOk(v.clients, PaidRs(v, vid), v.withdrawals, v.channels, v.providers)
    ensures PaymentsOk(v.payments, PaidRs(v, vid))
  {
  }

  // ---- The whole chunk ----

  /** A confirmation leaves the credit of every provider it does not touch. */
  lemma ConfirmOneAside(v: Vault, sid: Id, info: BatchInfo)
    requires Owner(v.reservations, sid).Some?
    ensures ConfirmOne(v, sid, info).history == v.history - {sid}
    ensures forall p :: p !in Touched(v, sid) ==>
      (p in ConfirmOne(v, sid, info).credits <==> p in v.credits)
      && (p in v.credits ==> ConfirmOne(v, sid, info).credits[p] == v.credits[p])
  {
    hide Owner, Holder, Deduct, ConfirmOne;
    ConfirmOneShape(v, sid, info);
  }

  lemma {:induction false} ConfirmEachKeeps(v: Vault, sids: seq<Id>, info: BatchInfo)
    requires Confirming(v) && Payable(v, sids)
    ensures Confirming(ConfirmEach(v, sids, info)) && Lost(ConfirmEach(v, sids, info)) == Lost(v)
    ensures forall id :: id in ConfirmEach(v, sids, info).history <==> id in v.history && id !in sids
    ensures forall p :: p !in TouchedEach(v, sids, info) ==>
      (p in ConfirmEach(v, sids, info).credits <==> p in v.credits)
      && (p in v.credits ==> ConfirmEach(v, sids, info).credits[p] == v.credits[p])
    decreases |sids|
  {
    hide Confirming, ConfirmOne, Touched;
    if sids != [] {
      var n := |sids| - 1;
      var less, last := sids[..n], sids[n];
      var v1 := ConfirmEach(v, less, info);
      assert forall id :: id in sids <==> id in less || id == last by { assert sids == less + [last]; }
      ConfirmEachKeeps(v, less, info);
      ConfirmOneKeeps(v1, last, info);
      assert Owner(v1.reservations, last).Some? by { OwnedWhenRecorded(v1, last); }
      ConfirmOneAside(v1, last, info);
      assert ConfirmEach(v, sids, info) == ConfirmOne(v1, last, info);
      assert TouchedEach(v, sids, info) == TouchedEach(v, less, info) + Touched(v1, last);
    }
  }

  /** A spent credit owes nothing. */
  lemma SpentOwesNothing(p: Id, credit: Credit, rs: map<Id, Reservation>, h: map<Id, Settlement>, ps: map<Id, Provider>)
    requires CreditOk(p, credit, rs, h, ps) && Spent(credit)
    ensures credit.amount == 0
    ensures forall sid :: sid in credit.ids && sid in h ==> h[sid].amount == 0
  {
    if credit.ids == [] { EmptySum(h); }
    forall sid | sid in credit.ids && sid in h ensures h[sid].amount == 0 { HistSumCovers(credit.ids, h, sid); }
  }

  /** The clean-up at the end of a confirmation. */
  ghost function Tidied(v: Vault, affected: set<Id>): map<Id, Credit>
  {
    RestampEach(DropSpent(v.credits, affected), affected, v.history)
  }

  lemma TidyOwed(v: Vault, affected: set<Id>)
    requires CreditsOk(v.credits, v.reservations, v.history, v.providers)
    ensures Sum(Tidied(v, affected), OwedOf()) == Sum(v.credits, OwedOf())
  {
    hide CreditOk, Restamped;
    var credits' := Tidied(v, affected);
    forall p | p in v.credits ensures OwedOf()(v.credits[p]) == if p in credits' then OwedOf()(credits'[p]) else 0 {
      if p in credits' {
        RestampedOnlyTime(v.credits[p], v.history);
      } else {
        SpentOwesNothing(p, v.credits[p], v.reservations, v.history, v.providers);
      }
    }
    SumPruned(v.credits, credits', OwedOf());
  }

  lemma RestampedOnlyTime(credit: Credit, h: map<Id, Settlement>)
    ensures Restamped(credit, h).(oldestAt := 0) == credit.(oldestAt := 0)
  {
  }

  lemma TidyCredits(v: Vault, affected: set<Id>)
    requires CreditsOk(v.credits, v.reservations, v.history, v.providers)
    ensures CreditsOk(Tidied(v, affected), v.reservations, v.history, v.providers)
  {
    hide Restamped, Owner, HistSum;
    var credits' := Tidied(v, affected);
    forall p | p in credits' ensures CreditOk(p, credits'[p], v.reservations, v.history, v.providers) {
      RestampedOnlyTime(v.credits[p], v.history);
      assert CreditOk(p, v.credits[p], v.reservations, v.history, v.providers);
    }
  }

  lemma TidyListed(v: Vault, affected: set<Id>)
    requires Confirming(v)
    ensures ListedOk(Tidied(v, affected), v.reservations)
  {
    hide Restamped, Owner, MoneyOk, IndexOk, CreditOk, SidsUnique;
    var credits', rs := Tidied(v, affected), v.reservations;
    forall vid | vid in rs && rs[vid].status == SettledOffchain && rs[vid].amount > 0 && rs[vid].settlementId.Some?
      ensures rs[vid].provider in credits' && rs[vid].settlementId.value in credits'[rs[vid].provider].ids
    {
      var p := rs[vid].provider;
      RestampedOnlyTime(v.credits[p], v.history);
      assert v.history[rs[vid].settlementId.value] == RecordOf(rs[vid], v.providers);
      if Spent(v.credits[p]) { SpentOwesNothing(p, v.credits[p], rs, v.history, v.providers); }
    }
  }

  lemma TidyNoneSpent(v: Vault, v1: Vault, affected: set<Id>)
    requires NoneSpent(v.credits)
    requires forall p :: p !in affected ==>
      (p in v1.credits <==> p in v.credits) && (p in v.credits ==> v1.credits[p] == v.credits[p])
    ensures NoneSpent(Tidied(v1, affected))
  {
    hide Restamped;
    var credits' := Tidied(v1, affected);
    forall p | p in credits' ensures credits'[p].ids != [] { RestampedOnlyTime(v1.credits[p], v1.history); }
  }

  lemma ApplyBatchKeeps(v: Vault, sids: seq<Id>, batchId: nat, signature: Id)
    requires MoneyOk(v) && IndexOk(v) && SettledOk(v) && Payable(v, sids)
    ensures var v' := ApplyBatchConfirmation(v, sids, batchId, signature); MoneyOk(v') && IndexOk(v') && SettledOk(v') && Lost(v') == Lost(v)
  {
    hide LockedOk, CacheOk, HistoryOk, CreditsOk, ListedOk, NoneSpent, IndexOk, ConfirmEach, TouchedEach;
    var info := BatchInfo(batchId, signature);
    var v1, affected := ConfirmEach(v, sids, info), TouchedEach(v, sids, info);
    ConfirmEachKeeps(v, sids, info);
    TidyOwed(v1, affected);
    TidyCredits(v1, affected);
    TidyListed(v1, affected);
    TidyNoneSpent(v, v1, affected);
    assert ApplyBatchConfirmation(v, sids, batchId, signature) == v1.(credits := Tidied(v1, affected));
    IndexIgnoresCredits(v1, Tidied(v1, affected));
  }

  lemma IndexIgnoresCredits(v: Vault, credits: map<Id, Credit>)
    requires IndexOk(v)
    ensures IndexOk(v.(credits := credits))
  {
  }

  /** The parts of the vault a confirmation never writes. */
  predicate SameElsewhere(v: Vault, v': Vault)
  {
    v' == v.(reservations := v'.reservations, credits := v'.credits, history := v'.history, batches := v'.batches)
  }

  lemma ConfirmOneFrame(v: Vault, sid: Id, info: BatchInfo)
    ensures SameElsewhere(v, ConfirmOne(v, sid, info))
  {
    hide Owner, Holder, Deduct, Without;
    var v1 := v.(history := v.history - {sid}, batches := v.batches[sid := info]);
    match Owner(v.reservations, sid)
    case Some(vid) => ConfirmOneShape(v, sid, info);
    case None =>
      match Holder(v.credits, sid)
      case None =>
      case Some(p) =>
        assert ConfirmOne(v, sid, info) == v1.(credits := ConfirmOne(v, sid, info).credits);
  }

  lemma {:induction false} ConfirmEachFrame(v: Vault, sids: seq<Id>, info: BatchInfo)
    ensures SameElsewhere(v, ConfirmEach(v, sids, info))
    decreases |sids|
  {
    hide ConfirmOne;
    if sids != [] {
      var n := |sids| - 1;
      ConfirmEachFrame(v, sids[..n], info);
      ConfirmOneFrame(ConfirmEach(v, sids[..n], info), sids[n], info);
    }
  }
}
