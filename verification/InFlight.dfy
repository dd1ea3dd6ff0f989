/**
 * Planning takes no lock (enclave/src/batch.rs, `build_provider_batch_cursors`), so it can run while a settlement or a
 * closing is under way. A settlement shows it two moments (enclave/src/handlers.rs, `post_settle`): the provider is
 * credited and nothing is recorded yet, and then the record is there and the append not done. If the append fails there is a
 * third: the record is gone and the credit not yet undone. A closing shows it one: the provider is credited and the append
 * not done. Any number of passes may fall into each.
 */
module InFlight {
  import opened Prelude
  import opened Sums
  import opened VaultTypes
  import opened Ledger
  import opened CreditIndex
  import opened BatchSelect
  import opened CursorPass
  import opened Invariant
  import opened SettlementLemmas
  import opened Steps
  import opened Preservation
  import opened BatchCursors

  datatype Plan = Plan(order: seq<Id>, now: Time, mode: Mode, config: Config)

  /** The vault once passes have run over it, one after the other. */
  ghost function Plans(v: Vault, plans: seq<Plan>): Vault
    decreases |plans|
  {
    if plans == [] then v else
      var n := |plans| - 1;
      Planned(Plans(v, plans[..n]), plans[n].order, plans[n].now, plans[n].mode, plans[n].config)
  }

  /** Each pass visits every credit it finds. */
  ghost predicate Fit(v: Vault, plans: seq<Plan>)
    decreases |plans|
  {
    plans == [] ||
    var n := |plans| - 1;
    Fit(v, plans[..n]) && Listing(Plans(v, plans[..n]), plans[n].order)
  }

  // ---- Many passes at one moment clean like one ----

  lemma CleanedIsBacked(credit: Credit, h: map<Id, Settlement>)
    requires Cleaned(credit, h).Some?
    ensures AllRecorded(Cleaned(credit, h).value.ids, h)
    ensures forall id :: id in Cleaned(credit, h).value.ids ==> id in credit.ids
  {
    hide HistSum, Backed;
    if !AllRecorded(credit.ids, h) {
      BatchLemmas.RestampedOnlyTime(credit.(ids := Backed(credit.ids, h), amount := HistSum(credit.ids, h)), h);
      forall id ensures id in Backed(credit.ids, h) <==> id in credit.ids && id in h { BackedAre(credit.ids, h, id); }
    }
  }

  lemma CleanedPlannable(v: Vault, credit: Credit)
    requires CreditPlannable(v, credit) && Cleaned(credit, v.history).Some?
    ensures CreditPlannable(v, Cleaned(credit, v.history).value)
  {
    hide HistSum, Backed, Owner;
    CleanedIsBacked(credit, v.history);
    if !AllRecorded(credit.ids, v.history) {
      BatchLemmas.RestampedOnlyTime(credit.(ids := Backed(credit.ids, v.history), amount := HistSum(credit.ids, v.history)), v.history);
      BackedWeighs(credit.ids, v.history);
      BackedDistinct(credit.ids, v.history);
    }
  }

  lemma CleanedToPlannable(v: Vault, credits': map<Id, Credit>)
    requires Plannable(v) && CleanedTo(v.credits, credits', v.history)
    ensures Plannable(v.(credits := credits')) && AllBacked(v.(credits := credits'))
  {
    hide CreditPlannable, Cleaned;
    var v' := v.(credits := credits');
    forall p | p in credits'
      ensures p in v.credits && CreditPlannable(v', credits'[p]) && AllRecorded(credits'[p].ids, v.history)
      ensures forall id :: id in credits'[p].ids ==> id in v.credits[p].ids
    {
      assert Find(credits', p) == Some(credits'[p]);
      CleanedPlannable(v, v.credits[p]);
      CleanedIsBacked(v.credits[p], v.history);
      PlannableSame(v, v', credits'[p]);
    }
  }

  lemma PlannableSame(v: Vault, v': Vault, credit: Credit)
    requires CreditPlannable(v, credit) && v'.history == v.history && v'.reservations == v.reservations
    ensures CreditPlannable(v', credit)
  {
  }

  lemma CleanedAgain(v: Vault, first: map<Id, Credit>, second: map<Id, Credit>)
    requires CleanedTo(v.credits, first, v.history) && CleanedTo(first, second, v.history)
    ensures CleanedTo(v.credits, second, v.history)
  {
    hide Cleaned;
    forall p ensures Find(second, p) == if p in v.credits then Cleaned(v.credits[p], v.history) else None {
      assert Find(first, p) == if p in v.credits then Cleaned(v.credits[p], v.history) else None;
      assert Find(second, p) == if p in first then Cleaned(first[p], v.history) else None;
      if p in first {
        CleanedIsBacked(v.credits[p], v.history);
        BackedUnchanged(first[p], v.history);
      }
    }
  }

  lemma BackedUnchanged(credit: Credit, h: map<Id, Settlement>)
    requires AllRecorded(credit.ids, h)
    ensures Cleaned(credit, h) == Some(credit)
  {
  }

  /** Passes at one moment change nothing but the credits, and all but the first find nothing to prune. */
  lemma {:induction false} PlansClean(v: Vault, plans: seq<Plan>)
    requires Plannable(v) && Fit(v, plans)
    ensures Plannable(Plans(v, plans)) && Plans(v, plans) == v.(credits := Plans(v, plans).credits)
    ensures if plans == [] then Plans(v, plans) == v else CleanedTo(v.credits, Plans(v, plans).credits, v.history)
    decreases |plans|
  {
    hide Plannable, Planned, Listing, CleanedTo;
    if plans != [] {
      var n := |plans| - 1;
      PlansClean(v, plans[..n]);
      var before := Plans(v, plans[..n]);
      PassCleans(before, plans[n].order, plans[n].now, plans[n].mode, plans[n].config);
      CleanedToPlannable(before, Plans(v, plans).credits);
      if n > 0 { CleanedAgain(v, before.credits, Plans(v, plans).credits); }
    }
  }

  // ---- A settlement under way ----

  predicate Settles(v: Vault, vid: Id, now: Time)
  {
    vid in v.reservations && v.reservations[vid].status == Reserved && now <= v.reservations[vid].expiresAt
  }

  /** The provider is credited; the settlement is not recorded. */
  function CreditedAt(v: Vault, vid: Id, sid: Id, now: Time): Vault
    requires vid in v.reservations
  {
    var r := v.reservations[vid];
    SettlePayment(v, r.client, r.amount, r.provider, sid, now).v
  }

  /** The record is there; the append is not done. */
  ghost function RecordedAt(v: Vault, vid: Id, sid: Id, now: Time, credited: seq<Plan>): Vault
    requires vid in v.reservations
  {
    var r := v.reservations[vid];
    Record(Plans(CreditedAt(v, vid, sid, now), credited), sid, r.client, r.provider, r.amount, now)
  }

  /** The append has failed; the record is gone, the credit still stands. */
  ghost function UndoingAt(v: Vault, vid: Id, sid: Id, now: Time, credited: seq<Plan>, recorded: seq<Plan>): Vault
    requires vid in v.reservations
  {
    var v2 := Plans(RecordedAt(v, vid, sid, now, credited), recorded);
    v2.(history := v2.history - {sid})
  }

  /** `post_settle` under the lock with passes at its moments. */
  ghost function SettleAmid(v: Vault, vid: Id, sid: Id, now: Time, ok: bool, credited: seq<Plan>, recorded: seq<Plan>, undoing: seq<Plan>): Outcome
  {
    if !Settles(v, vid, now) then Idle(v) else
      var r := v.reservations[vid];
      if SettlePayment(v, r.client, r.amount, r.provider, sid, now).err.Some? then Idle(CreditedAt(v, vid, sid, now)) else
        if ok then
          var v2 := Plans(RecordedAt(v, vid, sid, now, credited), recorded);
          Outcome(Refresh(WithStatus(v2, vid, AsSettled(r, sid, now)), r.client).v,
                  [SettlementCommitted(sid, vid, r.provider, r.amount, Some(now))])
        else
          var v3 := Plans(UndoingAt(v, vid, sid, now, credited, recorded), undoing);
          Idle(RollbackSettlePayment(v3, r.client, r.amount, r.provider, sid).v)
  }

  /** Without a pass it is the settlement step. */
  lemma AloneIsStep(v: Vault, vid: Id, sid: Id, now: Time, ok: bool)
    ensures SettleAmid(v, vid, sid, now, ok, [], [], []) == SettleStep(v, vid, sid, now, ok)
  {
    hide SettlePayment, RollbackSettlePayment, Refresh;
    if Settles(v, vid, now) {
      var r := v.reservations[vid];
      var done := SettlePayment(v, r.client, r.amount, r.provider, sid, now).v;
      if SettlePayment(v, r.client, r.amount, r.provider, sid, now).err.None? {
        Rollbacks.SettledShape(v, r.client, r.amount, r.provider, sid, now);
        assert Plans(done, []) == done;
        var y := Record(done, sid, r.client, r.provider, r.amount, now);
        assert Plans(y, []) == y && y.history - {sid} == v.history - {sid};
        assert Plans(y.(history := y.history - {sid}), []) == y.(history := y.history - {sid});
      }
    }
  }

  /** The facts both moments start from. */
  ghost predicate Underway(k: Crypto, v: Vault, vid: Id, sid: Id, now: Time)
  {
    Inv(k, v) && FreshSid(v, sid) && Settles(v, vid, now)
  }

  lemma UnderwayFacts(k: Crypto, v: Vault, vid: Id, sid: Id, now: Time)
    requires Underway(k, v, vid, sid, now)
    ensures var r := v.reservations[vid];
      && r.client in v.clients && r.provider in v.providers && r.amount <= v.clients[r.client].locked && r.settlementId.None?
      && Settleable(v, vid, sid)
      && SettlePayment(v, r.client, r.amount, r.provider, sid, now).err.None?
      && CreditedAt(v, vid, sid, now) ==
           v.(clients := v.clients[r.client := v.clients[r.client].(locked := v.clients[r.client].locked - r.amount)],
              credits := v.credits[r.provider := SettlingCredit(v, vid, sid, now)])
  {
    hide CreditsOk, ListedOk, NoneSpent, ChannelsOk, LockedOk, CacheOk, Shortfall, NoncesOk, PaymentsOk, SidsUnique, Owner,
      RecordOf, FreshSid, SettlePayment;
    ReservationLocked(v, vid);
    var r := v.reservations[vid];
    assert StatusOk(r) && r.provider in v.providers;
    SettleSucceeds(v, r.client, r.amount, r.provider, sid, now);
    Rollbacks.SettledShape(v, r.client, r.amount, r.provider, sid, now);
  }

  // ---- Both moments can be planned in ----

  /** A credit that lists a new id, which nothing else knows. */
  lemma NewIdPlannable(k: Crypto, v: Vault, p: Id, amount: nat, sid: Id, now: Time)
    requires Inv(k, v) && FreshSid(v, sid) && p in v.providers
    ensures var base, raised := StartedCredit(v, p, now), CreditedWith(v, p, amount, sid, now);
      && CreditPlannable(v, raised) && raised.ids == base.ids + [sid] && raised.amount == base.amount + amount
      && !AllRecorded(raised.ids, v.history) && HistSum(raised.ids, v.history) == HistSum(base.ids, v.history)
      && HistSum(base.ids, v.history) <= base.amount
  {
    hide Inv, HistSum, Owner;
    PlannableNow(k, v);
    var base := StartedCredit(v, p, now);
    HistSumAppend(base.ids, v.history, sid);
    EmptySum(v.history);
    assert p in v.credits ==> CreditPlannable(v, v.credits[p]);
    OwnerNone(v.reservations, sid);
    assert sid in base.ids + [sid];
  }

  /** Crediting a provider leaves a vault that can be planned in. */
  lemma NewCreditPlannable(k: Crypto, v: Vault, x: Vault, p: Id, amount: nat, sid: Id, now: Time)
    requires Inv(k, v) && FreshSid(v, sid) && p in v.providers
    requires x.credits == v.credits[p := CreditedWith(v, p, amount, sid, now)] && x.history == v.history && x.reservations == v.reservations
    ensures Plannable(x)
  {
    hide Inv, CreditPlannable, CreditedWith;
    PlannableNow(k, v);
    NewIdPlannable(k, v, p, amount, sid, now);
    forall q | q in x.credits ensures CreditPlannable(x, x.credits[q]) {
      assert q != p ==> q in v.credits && x.credits[q] == v.credits[q];
      PlannableSame(v, x, x.credits[q]);
    }
    RaisedLister(v, p, CreditedWith(v, p, amount, sid, now), sid);
  }

  lemma CreditedPlannable(k: Crypto, v: Vault, vid: Id, sid: Id, now: Time)
    requires Underway(k, v, vid, sid, now)
    ensures Plannable(CreditedAt(v, vid, sid, now))
  {
    hide Inv, Plannable, SettlePayment, CreditedWith, FreshSid;
    UnderwayFacts(k, v, vid, sid, now);
    var r := v.reservations[vid];
    NewCreditPlannable(k, v, CreditedAt(v, vid, sid, now), r.provider, r.amount, sid, now);
  }

  /** The settling provider's credit at the first moment. */
  lemma RaisedPlannable(k: Crypto, v: Vault, vid: Id, sid: Id, now: Time)
    requires Underway(k, v, vid, sid, now)
    ensures vid in v.reservations && v.reservations[vid].provider in v.providers
    ensures var raised := SettlingCredit(v, vid, sid, now);
      var base := StartedCredit(v, v.reservations[vid].provider, now);
      && CreditPlannable(v, raised) && raised.ids == base.ids + [sid] && raised.amount == base.amount + v.reservations[vid].amount
      && !AllRecorded(raised.ids, v.history) && HistSum(raised.ids, v.history) == HistSum(base.ids, v.history)
  {
    hide Inv, SettlePayment, HistSum, FreshSid, CreditPlannable, CreditedAt;
    UnderwayFacts(k, v, vid, sid, now);
    NewIdPlannable(k, v, v.reservations[vid].provider, v.reservations[vid].amount, sid, now);
  }

  lemma RaisedLister(v: Vault, p: Id, raised: Credit, sid: Id)
    requires OneLister(v.credits, v.history) && sid !in v.history
    requires forall id :: id in raised.ids ==> id == sid || (p in v.credits && id in v.credits[p].ids)
    ensures OneLister(v.credits[p := raised], v.history)
  {
  }

  /** A credit that does not list the settlement does not notice its record. */
  lemma RecordAside(v: Vault, v': Vault, credit: Credit, sid: Id)
    requires CreditPlannable(v, credit) && sid !in credit.ids && v'.reservations == v.reservations
    requires forall id :: id != sid ==> (id in v'.history <==> id in v.history) && (id in v.history ==> v'.history[id] == v.history[id])
    ensures CreditPlannable(v', credit)
  {
    hide HistSum, Owner;
    HistSumFrame(credit.ids, v.history, v'.history);
  }

  /** The credit that lists it is backed again by as much as it was raised. */
  lemma RaisedRecorded(k: Crypto, v: Vault, vid: Id, sid: Id, now: Time)
    requires Underway(k, v, vid, sid, now)
    ensures vid in v.reservations && v.reservations[vid].provider in v.providers
    ensures var raised := SettlingCredit(v, vid, sid, now);
      var base := StartedCredit(v, v.reservations[vid].provider, now);
      var h' := SettlingRecord(v, vid, sid, now);
      && CreditPlannable(v.(history := h'), raised)
      && HistSum(raised.ids, h') == HistSum(base.ids, v.history) + v.reservations[vid].amount
      && (AllRecorded(raised.ids, h') <==> AllRecorded(base.ids, v.history))
  {
    hide Inv, SettlePayment, HistSum, Owner;
    UnderwayFacts(k, v, vid, sid, now);
    RaisedPlannable(k, v, vid, sid, now);
    PlannableNow(k, v);
    var p := v.reservations[vid].provider;
    var base, h' := StartedCredit(v, p, now), SettlingRecord(v, vid, sid, now);
    assert p in v.credits ==> CreditPlannable(v, v.credits[p]);
    EmptySum(v.history);
    HistSumAppend(base.ids, h', sid);
    HistSumFrame(base.ids, v.history, h');
    assert forall id :: id in base.ids + [sid] <==> id in base.ids || id == sid;
  }

  /** The second moment in full. */
  lemma RecordedShape(k: Crypto, v: Vault, vid: Id, sid: Id, now: Time, credited: seq<Plan>)
    requires Underway(k, v, vid, sid, now) && Fit(CreditedAt(v, vid, sid, now), credited)
    ensures vid in v.reservations && v.reservations[vid].provider in v.providers
    ensures var x := CreditedAt(v, vid, sid, now);
      RecordedAt(v, vid, sid, now, credited) == x.(credits := Plans(x, credited).credits, history := SettlingRecord(v, vid, sid, now))
  {
    hide Inv, SettlePayment, Plans, Fit, Plannable, CleanedTo, SettlingCredit;
    UnderwayFacts(k, v, vid, sid, now);
    CreditedPlannable(k, v, vid, sid, now);
    PlansClean(CreditedAt(v, vid, sid, now), credited);
  }

  /** After a pass at the first moment no credit lists the settlement. */
  lemma PrunedAtFirst(k: Crypto, v: Vault, vid: Id, sid: Id, now: Time, credited: seq<Plan>)
    requires Underway(k, v, vid, sid, now) && Fit(CreditedAt(v, vid, sid, now), credited) && credited != []
    ensures var x := CreditedAt(v, vid, sid, now);
      var x1 := Plans(x, credited);
      && CleanedTo(x.credits, x1.credits, v.history) && Plannable(x.(credits := x1.credits))
      && (forall q :: q in x1.credits ==> AllRecorded(x1.credits[q].ids, v.history) && sid !in x1.credits[q].ids)
  {
    hide Inv, SettlePayment, Plans, Fit, Plannable, CleanedTo, SettlingCredit;
    UnderwayFacts(k, v, vid, sid, now);
    CreditedPlannable(k, v, vid, sid, now);
    var x := CreditedAt(v, vid, sid, now);
    PlansClean(x, credited);
    CleanedToPlannable(x, Plans(x, credited).credits);
    assert x.history == v.history;
  }

  lemma RecordedUnpruned(k: Crypto, v: Vault, vid: Id, sid: Id, now: Time)
    requires Underway(k, v, vid, sid, now)
    ensures vid in v.reservations && v.reservations[vid].provider in v.providers
    ensures Plannable(CreditedAt(v, vid, sid, now).(history := SettlingRecord(v, vid, sid, now)))
  {
    hide Inv, SettlePayment, CreditPlannable, SettlingCredit;
    UnderwayFacts(k, v, vid, sid, now);
    CreditedPlannable(k, v, vid, sid, now);
    RaisedRecorded(k, v, vid, sid, now);
    var x := CreditedAt(v, vid, sid, now);
    var y := x.(history := SettlingRecord(v, vid, sid, now));
    var p := v.reservations[vid].provider;
    SidOnce(v, p, x.credits, sid);
    forall q | q in y.credits ensures CreditPlannable(y, y.credits[q]) {
      if q == p { PlannableSame(v.(history := y.history), y, y.credits[q]); } else { RecordAside(x, y, y.credits[q], sid); }
    }
  }

  lemma RecordedPruned(x: Vault, h': map<Id, Settlement>, sid: Id)
    requires Plannable(x) && forall q :: q in x.credits ==> sid !in x.credits[q].ids
    requires forall id :: id != sid ==> (id in h' <==> id in x.history) && (id in x.history ==> h'[id] == x.history[id])
    ensures Plannable(x.(history := h'))
  {
    hide CreditPlannable;
    forall q | q in x.credits ensures CreditPlannable(x.(history := h'), x.credits[q]) {
      RecordAside(x, x.(history := h'), x.credits[q], sid);
    }
  }

  lemma RecordedPlannable(k: Crypto, v: Vault, vid: Id, sid: Id, now: Time, credited: seq<Plan>)
    requires Underway(k, v, vid, sid, now) && Fit(CreditedAt(v, vid, sid, now), credited)
    ensures Plannable(RecordedAt(v, vid, sid, now, credited))
  {
    hide Inv, SettlePayment, Plans, Fit, Plannable, CleanedTo, SettlingCredit, RecordedAt;
    UnderwayFacts(k, v, vid, sid, now);
    RecordedShape(k, v, vid, sid, now, credited);
    var x := CreditedAt(v, vid, sid, now);
    if credited == [] {
      CreditedPlannable(k, v, vid, sid, now);
      PlansClean(x, credited);
      RecordedUnpruned(k, v, vid, sid, now);
    } else {
      PrunedAtFirst(k, v, vid, sid, now, credited);
      RecordedPruned(x.(credits := Plans(x, credited).credits), SettlingRecord(v, vid, sid, now), sid);
    }
  }

  lemma SidOnce(v: Vault, p: Id, credits: map<Id, Credit>, sid: Id)
    requires FreshSid(v, sid) && credits.Keys == v.credits.Keys + {p} && forall q :: q in v.credits && q != p ==> credits[q] == v.credits[q]
    ensures forall q :: q in credits && sid in credits[q].ids ==> q == p
  {
  }

  // ---- How a settlement with passes ends ----

  /** What undoing does to the credits as it finds them. */
  function Rolled(credits: map<Id, Credit>, p: Id, amount: nat, sid: Id): map<Id, Credit>
  {
    if p !in credits then credits else
      var less := Deduct(credits[p], amount, sid);
      if Spent(less) then credits - {p} else credits[p := less]
  }

  /** The credits the append's outcome finds. */
  ghost function CreditsAmid(v: Vault, vid: Id, sid: Id, now: Time, credited: seq<Plan>, recorded: seq<Plan>): map<Id, Credit>
    requires vid in v.reservations
  {
    Plans(RecordedAt(v, vid, sid, now, credited), recorded).credits
  }

  /** The credits that undoing finds. */
  ghost function CreditsUndoing(v: Vault, vid: Id, sid: Id, now: Time, credited: seq<Plan>, recorded: seq<Plan>, undoing: seq<Plan>): map<Id, Credit>
    requires vid in v.reservations
  {
    Plans(UndoingAt(v, vid, sid, now, credited, recorded), undoing).credits
  }

  ghost predicate FitAmid(v: Vault, vid: Id, sid: Id, now: Time, ok: bool, credited: seq<Plan>, recorded: seq<Plan>, undoing: seq<Plan>)
  {
    Settles(v, vid, now) ==>
      && Fit(CreditedAt(v, vid, sid, now), credited) && Fit(RecordedAt(v, vid, sid, now, credited), recorded)
      && (!ok ==> Fit(UndoingAt(v, vid, sid, now, credited, recorded), undoing))
  }

  lemma CommittedShape(k: Crypto, v: Vault, vid: Id, sid: Id, now: Time, credits': map<Id, Credit>)
    requires Underway(k, v, vid, sid, now)
    ensures vid in v.reservations && v.reservations[vid].provider in v.providers
    ensures var r := v.reservations[vid];
      var y := CreditedAt(v, vid, sid, now).(credits := credits', history := SettlingRecord(v, vid, sid, now));
      Refresh(WithStatus(y, vid, AsSettled(r, sid, now)), r.client).v == SettleStep(v, vid, sid, now, true).v.(credits := credits')
  {
    hide Inv, SettlePayment, SettlingCredit, LockedUntil, CreditedAt, SettleStep;
    UnderwayFacts(k, v, vid, sid, now);
    SettleCommitShape(v, vid, sid, now);
  }

  lemma RolledShape(v: Vault, c: Pubkey, amount: nat, p: Id, sid: Id)
    requires c in v.clients
    ensures RollbackSettlePayment(v, c, amount, p, sid).v ==
      v.(clients := v.clients[c := v.clients[c].(locked := v.clients[c].locked + amount)], credits := Rolled(v.credits, p, amount, sid))
  {
    hide Deduct, Spent;
  }

  lemma UndoneShape(k: Crypto, v: Vault, vid: Id, sid: Id, now: Time, credits': map<Id, Credit>)
    requires Underway(k, v, vid, sid, now)
    ensures vid in v.reservations
    ensures var r := v.reservations[vid];
      var x := CreditedAt(v, vid, sid, now).(credits := credits');
      RollbackSettlePayment(x, r.client, r.amount, r.provider, sid).v == v.(credits := Rolled(credits', r.provider, r.amount, sid))
  {
    hide Inv, SettlePayment, RollbackSettlePayment, SettlingCredit, CreditedAt, Rolled;
    UnderwayFacts(k, v, vid, sid, now);
    var r := v.reservations[vid];
    RolledShape(CreditedAt(v, vid, sid, now).(credits := credits'), r.client, r.amount, r.provider, sid);
    assert v.clients[r.client := v.clients[r.client]] == v.clients;
  }

  /** The third moment in full. */
  lemma UndoingShape(k: Crypto, v: Vault, vid: Id, sid: Id, now: Time, credited: seq<Plan>, recorded: seq<Plan>)
    requires Underway(k, v, vid, sid, now)
    requires Fit(CreditedAt(v, vid, sid, now), credited) && Fit(RecordedAt(v, vid, sid, now, credited), recorded)
    ensures vid in v.reservations
    ensures UndoingAt(v, vid, sid, now, credited, recorded) ==
      CreditedAt(v, vid, sid, now).(credits := CreditsAmid(v, vid, sid, now, credited, recorded))
  {
    hide Inv, SettlePayment, Plans, Fit, Plannable, CleanedTo, SettlingCredit, CreditedAt, RecordedAt;
    UnderwayFacts(k, v, vid, sid, now);
    RecordedShape(k, v, vid, sid, now, credited);
    RecordedPlannable(k, v, vid, sid, now, credited);
    PlansClean(RecordedAt(v, vid, sid, now, credited), recorded);
    assert SettlingRecord(v, vid, sid, now) - {sid} == v.history;
  }

  /** A credit that could be planned with the record there can be planned without it. */
  lemma UnrecordedPlannable(v: Vault, y: Vault, x: Vault, credit: Credit, sid: Id)
    requires CreditPlannable(y, credit) && FreshSid(v, sid) && sid in y.history
    requires y.reservations == x.reservations == v.reservations && x.history == v.history
    requires forall id :: id != sid ==> (id in y.history <==> id in v.history) && (id in v.history ==> y.history[id] == v.history[id])
    ensures CreditPlannable(x, credit)
  {
    hide HistSum, Owner;
    OwnerNone(v.reservations, sid);
    if sid in credit.ids {
      HistSumWithout(credit.ids, y.history, sid);
      WithoutMembers(credit.ids, sid);
      HistSumFrame(Without(credit.ids, sid), y.history, v.history);
      WithoutUnrecorded(credit.ids, v.history, sid);
    } else {
      HistSumFrame(credit.ids, y.history, v.history);
    }
  }

  lemma UndoingPlannable(k: Crypto, v: Vault, vid: Id, sid: Id, now: Time, credited: seq<Plan>, recorded: seq<Plan>)
    requires Underway(k, v, vid, sid, now)
    requires Fit(CreditedAt(v, vid, sid, now), credited) && Fit(RecordedAt(v, vid, sid, now, credited), recorded)
    ensures Plannable(UndoingAt(v, vid, sid, now, credited, recorded))
  {
    hide Inv, SettlePayment, Plans, Fit, CreditPlannable, CleanedTo, SettlingCredit, CreditedAt, RecordedAt, UndoingAt, FreshSid;
    UnderwayFacts(k, v, vid, sid, now);
    UndoingShape(k, v, vid, sid, now, credited, recorded);
    RecordedShape(k, v, vid, sid, now, credited);
    RecordedPlannable(k, v, vid, sid, now, credited);
    PlansClean(RecordedAt(v, vid, sid, now, credited), recorded);
    var y, x := Plans(RecordedAt(v, vid, sid, now, credited), recorded), UndoingAt(v, vid, sid, now, credited, recorded);
    forall q | q in x.credits ensures CreditPlannable(x, x.credits[q]) { UnrecordedPlannable(v, y, x, x.credits[q], sid); }
    assert OneLister(x.credits, x.history) by { assert forall id :: id in x.history ==> id in y.history; }
  }

  /** Passes touch the credits only: the rest is as the settlement step leaves it. */
  lemma AmidShape(k: Crypto, v: Vault, vid: Id, sid: Id, now: Time, ok: bool, credited: seq<Plan>, recorded: seq<Plan>, undoing: seq<Plan>)
    requires Underway(k, v, vid, sid, now) && FitAmid(v, vid, sid, now, ok, credited, recorded, undoing)
    ensures vid in v.reservations
    ensures var step := SettleStep(v, vid, sid, now, ok);
      var r := v.reservations[vid];
      && SettleAmid(v, vid, sid, now, ok, credited, recorded, undoing).entries == step.entries
      && SettleAmid(v, vid, sid, now, ok, credited, recorded, undoing).v ==
           if ok then step.v.(credits := CreditsAmid(v, vid, sid, now, credited, recorded))
           else v.(credits := Rolled(CreditsUndoing(v, vid, sid, now, credited, recorded, undoing), r.provider, r.amount, sid))
  {
    hide Inv, SettlePayment, RollbackSettlePayment, Plans, Fit, Plannable, CleanedTo, SettlingCredit, CreditedAt, RecordedAt,
      UndoingAt, Rolled, Refresh;
    UnderwayFacts(k, v, vid, sid, now);
    RecordedShape(k, v, vid, sid, now, credited);
    RecordedPlannable(k, v, vid, sid, now, credited);
    PlansClean(RecordedAt(v, vid, sid, now, credited), recorded);
    if ok {
      CommittedShape(k, v, vid, sid, now, CreditsAmid(v, vid, sid, now, credited, recorded));
    } else {
      UndoingShape(k, v, vid, sid, now, credited, recorded);
      UndoingPlannable(k, v, vid, sid, now, credited, recorded);
      PlansClean(UndoingAt(v, vid, sid, now, credited, recorded), undoing);
      UndoneShape(k, v, vid, sid, now, CreditsUndoing(v, vid, sid, now, credited, recorded, undoing));
    }
  }

  // ---- A confirmation under way ----

  /**
   * A confirmation takes a settlement's record out before it marks the reservation as paid out (enclave/src/state.rs,
   * `apply_batch_confirmation`). A pass that looks the settlement up in between rebuilds the record from the reservation,
   * and it stays behind when the confirmation is done.
   */
  lemma RebuiltDuringConfirmation(k: Crypto, v: Vault, sid: Id, info: BatchInfo)
    requires Inv(k, v) && sid in v.history
    ensures Owner(v.reservations, sid).Some?
    ensures var p := v.reservations[Owner(v.reservations, sid).value].provider;
      Looked(v.(history := v.history - {sid}), p, sid) == (v, Some(v.history[sid]))
    ensures var done := ConfirmOne(v, sid, info);
      !HistoryOk(done.reservations, done.history[sid := v.history[sid]], done.providers)
  {
    hide MoneyOk, IndexOk, CreditsOk, ListedOk, NoneSpent, ChannelsOk, ConfirmOne, Owner, SidsUnique;
    var vid := Owner(v.reservations, sid).value;
    assert v.history[sid] == RecordOf(v.reservations[vid], v.providers);
    assert (v.history - {sid})[sid := v.history[sid]] == v.history;
    BatchLemmas.ConfirmOneShape(v, sid, info);
    BatchLemmas.PaidOwners(v, vid);
  }
}
