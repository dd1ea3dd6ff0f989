/** How reservations, history and credits move together. */
module SettlementLemmas {
  import opened Prelude
  import opened VaultTypes
  import opened Ledger
  import opened CreditIndex
  import opened Steps
  import opened Invariant

  /** A settlement id nobody has used: the source draws a fresh UUID. */
  ghost predicate FreshSid(v: Vault, sid: Id)
  {
    && sid !in v.history
    && (forall vid :: vid in v.reservations ==> !SettledAs(v.reservations[vid], sid))
    && (forall p :: p in v.credits ==> sid !in v.credits[p].ids)
  }

  /** The same reservations carry the same settlement ids. */
  ghost predicate SameCarriers(rs: map<Id, Reservation>, rs': map<Id, Reservation>)
  {
    forall vid, sid :: (vid in rs && SettledAs(rs[vid], sid)) <==> (vid in rs' && SettledAs(rs'[vid], sid))
  }

  lemma OwnersSame(rs: map<Id, Reservation>, rs': map<Id, Reservation>)
    requires SidsUnique(rs) && SidsUnique(rs') && SameCarriers(rs, rs')
    ensures forall sid :: Owner(rs', sid) == Owner(rs, sid)
  {
    forall sid ensures Owner(rs', sid) == Owner(rs, sid) {
      assert forall vid :: vid in rs' && SettledAs(rs'[vid], sid) ==> vid in rs && SettledAs(rs[vid], sid);
      if Owner(rs, sid).Some? {
        OwnerIs(rs', Owner(rs, sid).value, sid);
      } else {
        OwnerNone(rs', sid);
      }
    }
  }

  /** Creating, cancelling or expiring a reservation touches no settlement. */
  lemma UnsettledWritten(v: Vault, vid: Id, r: Reservation)
    requires SettledOk(v)
    requires r.settlementId.None? && r.settledAt.None? && r.status != SettledOffchain && r.status != BatchedOnchain
    requires r.provider in v.providers
    requires vid in v.reservations ==> v.reservations[vid].settlementId.None?
    ensures SettledOk(v.(reservations := v.reservations[vid := r]))
  {
    var rs, rs' := v.reservations, v.reservations[vid := r];
    assert SidsUnique(rs');
    assert SameCarriers(rs, rs');
    OwnersSame(rs, rs');
    HistoryWithout(v, vid, r);
    CreditsWithout(v, vid, r);
  }

  lemma HistoryWithout(v: Vault, vid: Id, r: Reservation)
    requires HistoryOk(v.reservations, v.history, v.providers)
    requires StatusOk(r) && r.settlementId.None? && r.provider in v.providers
    requires vid in v.reservations ==> v.reservations[vid].settlementId.None?
    requires SidsUnique(v.reservations[vid := r])
    requires forall sid :: Owner(v.reservations[vid := r], sid) == Owner(v.reservations, sid)
    ensures HistoryOk(v.reservations[vid := r], v.history, v.providers)
  {
    hide Owner, SidsUnique;
    var rs, rs', h := v.reservations, v.reservations[vid := r], v.history;
    forall sid | sid in h ensures Owner(rs', sid).Some? && rs'[Owner(rs', sid).value].status == SettledOffchain {
      assert rs[Owner(rs, sid).value].status == SettledOffchain;
    }
  }

  lemma CreditsWithout(v: Vault, vid: Id, r: Reservation)
    requires HistoryOk(v.reservations, v.history, v.providers)
    requires CreditsOk(v.credits, v.reservations, v.history, v.providers)
    requires r.settlementId.None? && (vid in v.reservations ==> v.reservations[vid].settlementId.None?)
    requires forall sid :: Owner(v.reservations[vid := r], sid) == Owner(v.reservations, sid)
    ensures CreditsOk(v.credits, v.reservations[vid := r], v.history, v.providers)
  {
    hide Owner, SidsUnique, HistSum;
    var rs, rs', h := v.reservations, v.reservations[vid := r], v.history;
    forall p | p in v.credits ensures CreditOk(p, v.credits[p], rs', h, v.providers) {
      assert CreditOk(p, v.credits[p], rs, h, v.providers);
      forall id | id in v.credits[p].ids && id in h ensures rs'[Owner(rs', id).value].provider == p {
        assert rs[Owner(rs, id).value].status == SettledOffchain;
      }
    }
  }

  // ---- Settling a reservation ----

  function Settling(v: Vault, vid: Id, sid: Id, now: Time): map<Id, Reservation>
    requires vid in v.reservations
  {
    v.reservations[vid := AsSettled(v.reservations[vid], sid, now)]
  }

  function SettlingRecord(v: Vault, vid: Id, sid: Id, now: Time): map<Id, Settlement>
    requires vid in v.reservations && v.reservations[vid].provider in v.providers
  {
    var r := v.reservations[vid];
    v.history[sid := Settlement(sid, r.client, v.providers[r.provider].account, r.amount, now)]
  }

  function SettlingCredit(v: Vault, vid: Id, sid: Id, now: Time): Credit
    requires vid in v.reservations && v.reservations[vid].provider in v.providers
  {
    var r := v.reservations[vid];
    CreditedWith(v, r.provider, r.amount, sid, now)
  }

  ghost predicate Settleable(v: Vault, vid: Id, sid: Id)
  {
    && vid in v.reservations && v.reservations[vid].status == Reserved && v.reservations[vid].provider in v.providers
    && FreshSid(v, sid)
  }

  lemma SettlingOwners(v: Vault, vid: Id, sid: Id, now: Time)
    requires HistoryOk(v.reservations, v.history, v.providers) && Settleable(v, vid, sid)
    ensures SidsUnique(Settling(v, vid, sid, now))
    ensures Owner(Settling(v, vid, sid, now), sid) == Some(vid)
    ensures forall s :: s != sid ==> Owner(Settling(v, vid, sid, now), s) == Owner(v.reservations, s)
  {
    var rs, rs' := v.reservations, Settling(v, vid, sid, now);
    assert StatusOk(rs[vid]);
    assert SidsUnique(rs');
    OwnerIs(rs', vid, sid);
    forall s | s != sid ensures Owner(rs', s) == Owner(rs, s) {
      if Owner(rs, s).Some? {
        OwnerIs(rs', Owner(rs, s).value, s);
      } else {
        forall u | u in rs' ensures !SettledAs(rs'[u], s) { if u != vid { assert u in rs; } }
      }
    }
  }

  lemma SettlingHistory(v: Vault, vid: Id, sid: Id, now: Time)
    requires HistoryOk(v.reservations, v.history, v.providers) && Settleable(v, vid, sid)
    ensures HistoryOk(Settling(v, vid, sid, now), SettlingRecord(v, vid, sid, now), v.providers)
  {
    hide Owner, SidsUnique;
    SettlingOwners(v, vid, sid, now);
    var rs, rs' := v.reservations, Settling(v, vid, sid, now);
    forall u | u in rs' && rs'[u].status == SettledOffchain
      ensures rs'[u].settlementId.value in SettlingRecord(v, vid, sid, now)
      ensures SettlingRecord(v, vid, sid, now)[rs'[u].settlementId.value] == RecordOf(rs'[u], v.providers)
    {
      if u != vid { assert u in rs && !SettledAs(rs[u], sid); }
    }
  }

  lemma SettlingCredits(v: Vault, vid: Id, sid: Id, now: Time)
    requires SettledOk(v) && Settleable(v, vid, sid)
    ensures var credits' := v.credits[v.reservations[vid].provider := SettlingCredit(v, vid, sid, now)];
      CreditsOk(credits', Settling(v, vid, sid, now), SettlingRecord(v, vid, sid, now), v.providers)
  {
    hide Owner, SidsUnique, HistSum, RecordOf;
    SettlingOwners(v, vid, sid, now);
    var p := v.reservations[vid].provider;
    var credits' := v.credits[p := SettlingCredit(v, vid, sid, now)];
    forall q | q in credits'
      ensures CreditOk(q, credits'[q], Settling(v, vid, sid, now), SettlingRecord(v, vid, sid, now), v.providers)
    {
      if q == p { CreditedOnce(v, vid, sid, now); } else { CreditAside(v, vid, sid, now, q); }
    }
  }

  /** Another provider's credit does not notice a settlement. */
  lemma CreditAside(v: Vault, vid: Id, sid: Id, now: Time, q: Id)
    requires SettledOk(v) && Settleable(v, vid, sid) && q in v.credits
    requires forall s :: s != sid ==> Owner(Settling(v, vid, sid, now), s) == Owner(v.reservations, s)
    ensures CreditOk(q, v.credits[q], Settling(v, vid, sid, now), SettlingRecord(v, vid, sid, now), v.providers)
  {
    hide Owner, SidsUnique, HistSum, RecordOf;
    assert CreditOk(q, v.credits[q], v.reservations, v.history, v.providers);
    HistSumFrame(v.credits[q].ids, v.history, SettlingRecord(v, vid, sid, now));
  }

  /** The provider's own credit grows by the reservation's amount and its new id. */
  lemma CreditedOnce(v: Vault, vid: Id, sid: Id, now: Time)
    requires SettledOk(v) && Settleable(v, vid, sid)
    requires forall s :: s != sid ==> Owner(Settling(v, vid, sid, now), s) == Owner(v.reservations, s)
    requires Owner(Settling(v, vid, sid, now), sid) == Some(vid)
    ensures CreditOk(v.reservations[vid].provider, SettlingCredit(v, vid, sid, now),
                     Settling(v, vid, sid, now), SettlingRecord(v, vid, sid, now), v.providers)
  {
    hide Owner, SidsUnique, HistSum, RecordOf;
    var p := v.reservations[vid].provider;
    var h' := SettlingRecord(v, vid, sid, now);
    var before := if p in v.credits then v.credits[p].ids else [];
    HistSumAppend(before, h', sid);
    HistSumFrame(before, v.history, h');
    var ids' := SettlingCredit(v, vid, sid, now).ids;
    assert ids' == before + [sid];
    assert HistSum([], v.history) == 0 by { EmptySum(v.history); }
    assert AllRecorded(ids', h') <==> AllRecorded(before, v.history) by {
      assert forall id :: id in ids' <==> id in before || id == sid;
    }
  }

  lemma EmptySum(h: map<Id, Settlement>)
    ensures HistSum([], h) == 0
  {
  }

  lemma SettlingKeeps(v: Vault, vid: Id, sid: Id, now: Time)
    requires SettledOk(v) && Settleable(v, vid, sid)
    ensures SettledOk(v.(reservations := Settling(v, vid, sid, now), history := SettlingRecord(v, vid, sid, now),
                         credits := v.credits[v.reservations[vid].provider := SettlingCredit(v, vid, sid, now)]))
  {
    hide Owner, SidsUnique, HistSum, RecordOf, HistoryOk, CreditsOk;
    SettlingHistory(v, vid, sid, now);
    SettlingCredits(v, vid, sid, now);
  }

  // ---- Closing a channel with earnings ----

  /** Earnings enter the credit under an id the history does not know. */
  lemma ClosingKeeps(v: Vault, p: Id, earned: nat, sid: Id, now: Time)
    requires SettledOk(v) && FreshSid(v, sid) && p in v.providers && earned > 0
    ensures SettledOk(v.(credits := v.credits[p := CreditedWith(v, p, earned, sid, now)]))
  {
    hide HistoryOk, CreditOk;
    ClosingCreditOk(v, p, earned, sid, now);
  }

  lemma ClosingCreditOk(v: Vault, p: Id, earned: nat, sid: Id, now: Time)
    requires CreditsOk(v.credits, v.reservations, v.history, v.providers) && FreshSid(v, sid) && p in v.providers && earned > 0
    ensures CreditOk(p, CreditedWith(v, p, earned, sid, now), v.reservations, v.history, v.providers)
  {
    hide HistSum, Owner;
    var credit := CreditedWith(v, p, earned, sid, now);
    var before := if p in v.credits then v.credits[p].ids else [];
    HistSumAppend(before, v.history, sid);
    EmptySum(v.history);
    assert credit.ids == before + [sid];
    assert !AllRecorded(credit.ids, v.history) by { assert sid in credit.ids; }
    assert p in v.credits ==> CreditOk(p, v.credits[p], v.reservations, v.history, v.providers);
  }
}
