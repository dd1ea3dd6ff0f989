/** What planning during a settlement costs, and exactly when the vault's invariant survives it. */
module InFlightLosses {
  import opened Prelude
  import opened Sums
  import opened VaultTypes
  import opened Ledger
  import opened CreditIndex
  import opened CursorPass
  import opened Invariant
  import opened SettlementLemmas
  import opened Steps
  import opened Preservation
  import opened BatchCursors
  import opened InFlight

  // ---- The vault a pass between two steps would leave ----

  /** All credits cleaned. */
  function CleanAll(credits: map<Id, Credit>, h: map<Id, Settlement>): map<Id, Credit>
  {
    map p | p in credits && Cleaned(credits[p], h).Some? :: Cleaned(credits[p], h).value
  }

  lemma CleanAllCleans(credits: map<Id, Credit>, h: map<Id, Settlement>)
    ensures CleanedTo(credits, CleanAll(credits, h), h)
  {
    hide Cleaned;
  }

  /** The same credit up to its age, or one that owed nothing and is gone. */
  predicate Near(a: Option<Credit>, b: Option<Credit>)
  {
    || a == b
    || (a.None? && b.Some? && b.value.amount == 0)
    || (a.Some? && b.Some? && a.value == b.value.(oldestAt := a.value.oldestAt))
  }

  lemma StampSettled(v: Vault, p: Id, t: Time)
    requires SettledOk(v) && p in v.credits
    ensures SettledOk(v.(credits := v.credits[p := v.credits[p].(oldestAt := t)]))
  {
    hide HistoryOk, CreditsOk, ListedOk;
    StampCredits(v, p, t);
    StampListed(v.credits, v.reservations, p, t);
  }

  lemma StampListed(credits: map<Id, Credit>, rs: map<Id, Reservation>, p: Id, t: Time)
    requires ListedOk(credits, rs) && p in credits
    ensures ListedOk(credits[p := credits[p].(oldestAt := t)], rs)
  {
  }

  lemma StampCredits(v: Vault, p: Id, t: Time)
    requires CreditsOk(v.credits, v.reservations, v.history, v.providers) && p in v.credits
    ensures CreditsOk(v.credits[p := v.credits[p].(oldestAt := t)], v.reservations, v.history, v.providers)
  {
    hide CreditOk;
    StampOk(p, v.credits[p], t, v.reservations, v.history, v.providers);
  }

  lemma StampOk(p: Id, credit: Credit, t: Time, rs: map<Id, Reservation>, h: map<Id, Settlement>, ps: map<Id, Provider>)
    requires CreditOk(p, credit, rs, h, ps)
    ensures CreditOk(p, credit.(oldestAt := t), rs, h, ps)
  {
    hide HistSum, Owner;
  }

  lemma StampKeeps(k: Crypto, v: Vault, p: Id, t: Time)
    requires Inv(k, v) && p in v.credits
    ensures var v' := v.(credits := v.credits[p := v.credits[p].(oldestAt := t)]); Inv(k, v') && Lost(v') == Lost(v)
  {
    hide LockedOk, CacheOk, OwnersOk, PaymentsOk, NoncesOk, ChannelsOk, HistoryOk, CreditsOk, ListedOk, NoneSpent;
    SumUpdate(v.credits, OwedOf(), p, v.credits[p].(oldestAt := t));
    StampSettled(v, p, t);
  }

  lemma NearKeeps(k: Crypto, v: Vault, credits': map<Id, Credit>, p: Id)
    requires Inv(k, v) && Near(Find(credits', p), Find(v.credits, p))
    requires forall q :: q != p ==> Find(credits', q) == Find(v.credits, q)
    ensures Inv(k, v.(credits := credits')) && Lost(v.(credits := credits')) == Lost(v)
  {
    hide Inv, Lost;
    if Find(credits', p) == Find(v.credits, p) {
      SameCredits(credits', v.credits);
    } else if Find(credits', p).None? {
      forall q ensures Find(credits', q) == Find(v.credits - {p}, q) { if q != p { assert Find(credits', q) == Find(v.credits, q); } }
      SameCredits(credits', v.credits - {p});
      DropKeeps(k, v, p);
    } else {
      var stamped := v.credits[p := credits'[p]];
      forall q ensures Find(credits', q) == Find(stamped, q) { if q != p { assert Find(credits', q) == Find(v.credits, q); } }
      SameCredits(credits', stamped);
      StampKeeps(k, v, p, credits'[p].oldestAt);
    }
  }

  // ---- The credits after a pass at the first moment ----

  lemma {:induction false} BackedAppend(ids: seq<Id>, h: map<Id, Settlement>, x: Id)
    ensures Backed(ids + [x], h) == Backed(ids, h) + if x in h then [x] else []
  {
    if ids == [] {
      assert ids + [x] == [x] && [x][1..] == [];
    } else {
      assert (ids + [x])[1..] == ids[1..] + [x] && (ids + [x])[0] == ids[0];
      BackedAppend(ids[1..], h, x);
      var head := if ids[0] in h then [ids[0]] else [];
      assert Backed(ids + [x], h) == head + Backed(ids[1..] + [x], h);
    }
  }

  lemma BackedStay(credits: map<Id, Credit>, credits': map<Id, Credit>, h: map<Id, Settlement>)
    requires CleanedTo(credits, credits', h) && forall q :: q in credits ==> AllRecorded(credits[q].ids, h)
    ensures credits' == credits
  {
    forall q ensures Find(credits', q) == Find(credits, q) {}
    SameCredits(credits', credits);
  }

  /** Passes at the second moment then find nothing to prune. */
  lemma FirstDecides(k: Crypto, v: Vault, vid: Id, sid: Id, now: Time, credited: seq<Plan>, recorded: seq<Plan>)
    requires Underway(k, v, vid, sid, now) && credited != []
    requires Fit(CreditedAt(v, vid, sid, now), credited) && Fit(RecordedAt(v, vid, sid, now, credited), recorded)
    ensures vid in v.reservations
    ensures var x, credits' := CreditedAt(v, vid, sid, now), CreditsAmid(v, vid, sid, now, credited, recorded);
      && CleanedTo(x.credits, credits', v.history)
      && (forall q :: q in credits' ==> AllRecorded(credits'[q].ids, v.history) && sid !in credits'[q].ids)
  {
    hide Inv, Plans, Fit, Plannable, CleanedTo, CreditedAt, RecordedAt, FreshSid, SettlingRecord;
    UnderwayFacts(k, v, vid, sid, now);
    RecordedShape(k, v, vid, sid, now, credited);
    RecordedPlannable(k, v, vid, sid, now, credited);
    PrunedAtFirst(k, v, vid, sid, now, credited);
    var y := RecordedAt(v, vid, sid, now, credited);
    PlansClean(y, recorded);
    if recorded != [] {
      Longer(v, vid, sid, now);
      BackedStay(y.credits, Plans(y, recorded).credits, y.history);
    }
  }

  lemma Longer(v: Vault, vid: Id, sid: Id, now: Time)
    requires vid in v.reservations && v.reservations[vid].provider in v.providers
    ensures forall id :: id in v.history ==> id in SettlingRecord(v, vid, sid, now)
  {
  }

  /** What the history backs of a provider's credit. */
  function RecordedOwed(v: Vault, p: Id): nat { if p in v.credits then HistSum(v.credits[p].ids, v.history) else 0 }

  /** The settling provider's credit is cut down to its records, the new settlement not among them. */
  lemma CutDown(k: Crypto, v: Vault, vid: Id, sid: Id, now: Time)
    requires Underway(k, v, vid, sid, now)
    ensures vid in v.reservations && v.reservations[vid].provider in v.providers
    ensures var p := v.reservations[vid].provider;
      var cut := Cleaned(SettlingCredit(v, vid, sid, now), v.history);
      && Near(cut, if p in v.credits then Cleaned(v.credits[p], v.history) else None)
      && (cut.None? <==> RecordedOwed(v, p) == 0)
      && (cut.Some? ==> cut.value.amount == RecordedOwed(v, p) && cut.value.ids != []
                        && HistSum(cut.value.ids, v.history) == RecordedOwed(v, p))
  {
    hide Inv, HistSum, Backed, Plannable, SettlePayment;
    UnderwayFacts(k, v, vid, sid, now);
    RaisedPlannable(k, v, vid, sid, now);
    var p := v.reservations[vid].provider;
    var base, raised := StartedCredit(v, p, now), SettlingCredit(v, vid, sid, now);
    EmptySum(v.history);
    BackedAppend(base.ids, v.history, sid);
    var cut := raised.(ids := Backed(raised.ids, v.history), amount := HistSum(raised.ids, v.history));
    BatchLemmas.RestampedOnlyTime(cut, v.history);
    BackedWeighs(raised.ids, v.history);
    if p in v.credits {
      CoveredNow(k, v, p);
      BatchLemmas.RestampedOnlyTime(base.(ids := Backed(base.ids, v.history), amount := HistSum(base.ids, v.history)), v.history);
      if AllRecorded(base.ids, v.history) { BackedAll(base.ids, v.history); }
    }
    if RecordedOwed(v, p) > 0 { WeighsMeansRecorded(cut.ids, v.history); }
  }

  /** What a pass between two steps takes off the books. */
  ghost function Unbacked(v: Vault): nat { Sum(v.credits, UnbackedOf(v.history)) }

  /** Seen against the vault before the settlement, such a pass cleaned the credits and no more. */
  lemma FirstCleans(k: Crypto, v: Vault, vid: Id, sid: Id, now: Time, credits': map<Id, Credit>)
    requires Underway(k, v, vid, sid, now) && CleanedTo(CreditedAt(v, vid, sid, now).credits, credits', v.history)
    ensures vid in v.reservations && v.reservations[vid].provider in v.providers
    ensures Inv(k, v.(credits := credits')) && Lost(v.(credits := credits')) == Lost(v) + Unbacked(v)
    ensures Find(credits', v.reservations[vid].provider) == Cleaned(SettlingCredit(v, vid, sid, now), v.history)
  {
    hide Inv, Lost, Near, Cleaned, Unbacked, CreditedAt, FreshSid, CleanAll;
    UnderwayFacts(k, v, vid, sid, now);
    CutDown(k, v, vid, sid, now);
    var x := CreditedAt(v, vid, sid, now);
    var p, all := v.reservations[vid].provider, CleanAll(v.credits, v.history);
    CleanAllCleans(v.credits, v.history);
    CleanedKeeps(k, v, all);
    assert Unbacked(v) == Sum(v.credits, UnbackedOf(v.history)) by { UnbackedIs(v); }
    forall q ensures q != p ==> Find(credits', q) == Find(all, q) {
      assert Find(credits', q) == if q in x.credits then Cleaned(x.credits[q], v.history) else None;
    }
    NearKeeps(k, v.(credits := all), credits', p);
  }

  lemma UnbackedIs(v: Vault)
    ensures Unbacked(v) == Sum(v.credits, UnbackedOf(v.history))
  {
  }

  // ---- Committed after a pass at the first moment ----

  lemma CommitCredits(k: Crypto, v: Vault, vid: Id, sid: Id, now: Time)
    requires Underway(k, v, vid, sid, now)
    ensures vid in v.reservations && v.reservations[vid].provider in v.providers
    ensures var step := SettleStep(v, vid, sid, now, true).v;
      && step.credits == v.credits[v.reservations[vid].provider := SettlingCredit(v, vid, sid, now)]
      && step.history == SettlingRecord(v, vid, sid, now) && step.reservations == Settling(v, vid, sid, now)
      && step == v.(clients := step.clients, reservations := step.reservations, credits := step.credits, history := step.history)
      && Sum(step.credits, OwedOf()) == Sum(v.credits, OwedOf()) + v.reservations[vid].amount
  {
    hide Inv, SettleStep, SettlePayment, LockedUntil, FreshSid;
    UnderwayFacts(k, v, vid, sid, now);
    SettleCommitShape(v, vid, sid, now);
    SumUpdate(v.credits, OwedOf(), v.reservations[vid].provider, SettlingCredit(v, vid, sid, now));
  }

  /** Only the sum of the credits tells two vaults' losses apart that agree on the rest. */
  lemma LostByCredits(v: Vault, credits': map<Id, Credit>)
    ensures Lost(v.(credits := credits')) == Lost(v) + Sum(v.credits, OwedOf()) - Sum(credits', OwedOf())
  {
  }

  lemma FirstCommitted(k: Crypto, v: Vault, vid: Id, sid: Id, now: Time, credited: seq<Plan>, recorded: seq<Plan>, undoing: seq<Plan>)
    requires Underway(k, v, vid, sid, now) && FitAmid(v, vid, sid, now, true, credited, recorded, undoing) && credited != []
    ensures vid in v.reservations
    ensures var v' := SettleAmid(v, vid, sid, now, true, credited, recorded, undoing).v;
      && Lost(v') == Lost(v) + Unbacked(v) + v.reservations[vid].amount
      && (Inv(k, v') <==> v.reservations[vid].amount == 0)
  {
    hide Inv, Lost, SettleAmid, SettleStep, CreditsAmid, Fit, CreditedAt, RecordedAt, Unbacked, FreshSid, Cleaned, CleanedTo;
    UnderwayFacts(k, v, vid, sid, now);
    AmidShape(k, v, vid, sid, now, true, credited, recorded, undoing);
    FirstDecides(k, v, vid, sid, now, credited, recorded);
    var credits', step := CreditsAmid(v, vid, sid, now, credited, recorded), SettleStep(v, vid, sid, now, true).v;
    FirstCleans(k, v, vid, sid, now, credits');
    CommitCredits(k, v, vid, sid, now);
    SettleKeeps(k, v, vid, sid, now, true);
    LostByCredits(v, credits');
    LostByCredits(step, credits');
    if v.reservations[vid].amount == 0 {
      ZeroSettled(k, v, vid, sid, now, credits');
    } else {
      assert !ListedOk(credits', step.reservations) by { Unlisted(v, vid, sid, now, credits'); }
      NotListed(k, step.(credits := credits'));
    }
  }

  lemma NotListed(k: Crypto, v: Vault)
    requires !ListedOk(v.credits, v.reservations)
    ensures !Inv(k, v)
  {
    hide MoneyOk, IndexOk, ChannelsOk, HistoryOk, CreditsOk, ListedOk, NoneSpent;
  }

  /** Money settled under an id that no credit lists. */
  lemma Unlisted(v: Vault, vid: Id, sid: Id, now: Time, credits': map<Id, Credit>)
    requires vid in v.reservations && v.reservations[vid].amount > 0 && forall q :: q in credits' ==> sid !in credits'[q].ids
    ensures !ListedOk(credits', Settling(v, vid, sid, now))
  {
    var r := Settling(v, vid, sid, now)[vid];
    assert r.status == SettledOffchain && r.settlementId == Some(sid);
  }

  /** A settlement of nothing may go unlisted. */
  lemma ZeroSettled(k: Crypto, v: Vault, vid: Id, sid: Id, now: Time, credits': map<Id, Credit>)
    requires Underway(k, v, vid, sid, now) && v.reservations[vid].amount == 0
    requires Inv(k, v.(credits := credits')) && forall q :: q in credits' ==> sid !in credits'[q].ids
    ensures Inv(k, SettleStep(v, vid, sid, now, true).v.(credits := credits'))
  {
    hide LockedOk, CacheOk, OwnersOk, PaymentsOk, NoncesOk, ChannelsOk, HistoryOk, CreditsOk, ListedOk, NoneSpent, SettleStep, FreshSid, Lost;
    var step, w := SettleStep(v, vid, sid, now, true).v, v.(credits := credits');
    UnderwayFacts(k, v, vid, sid, now);
    CommitCredits(k, v, vid, sid, now);
    SettleKeeps(k, v, vid, sid, now, true);
    assert Lost(step.(credits := credits')) == Lost(w) by { LostByCredits(step, credits'); LostByCredits(v, credits'); }
    FreshStill(v, credits', sid);
    ZeroCredits(w, vid, sid, now);
    ZeroListed(w, vid, sid, now);
  }

  lemma FreshStill(v: Vault, credits': map<Id, Credit>, sid: Id)
    requires FreshSid(v, sid) && forall q :: q in credits' ==> sid !in credits'[q].ids
    ensures FreshSid(v.(credits := credits'), sid)
  {
  }

  lemma ZeroCredits(w: Vault, vid: Id, sid: Id, now: Time)
    requires SettledOk(w) && vid in w.reservations && w.reservations[vid].status == Reserved && w.reservations[vid].provider in w.providers
    requires FreshSid(w, sid)
    ensures CreditsOk(w.credits, Settling(w, vid, sid, now), SettlingRecord(w, vid, sid, now), w.providers)
  {
    hide HistoryOk, CreditOk, ListedOk, FreshSid;
    SettlingOwners(w, vid, sid, now);
    forall q | q in w.credits ensures CreditOk(q, w.credits[q], Settling(w, vid, sid, now), SettlingRecord(w, vid, sid, now), w.providers) {
      CreditAside(w, vid, sid, now, q);
    }
  }

  lemma ZeroListed(w: Vault, vid: Id, sid: Id, now: Time)
    requires ListedOk(w.credits, w.reservations) && vid in w.reservations && w.reservations[vid].amount == 0
    ensures ListedOk(w.credits, Settling(w, vid, sid, now))
  {
  }

  // ---- Undone after a pass at the first or the last moment ----

  function Least(a: nat, b: nat): nat { if a <= b then a else b }

  lemma RolledSum(credits: map<Id, Credit>, p: Id, amount: nat, sid: Id)
    requires p in credits ==> sid !in credits[p].ids && credits[p].ids != []
    ensures Sum(credits, OwedOf()) ==
      Sum(Rolled(credits, p, amount, sid), OwedOf()) + if p in credits then Least(amount, credits[p].amount) else 0
  {
    if p in credits {
      WithoutAbsent(credits[p].ids, sid);
      var less := Deduct(credits[p], amount, sid);
      SumRemove(credits, OwedOf(), p);
      SumUpdate(credits, OwedOf(), p, less);
    }
  }

  lemma DeductedTwice(k: Crypto, v: Vault, p: Id, amount: nat, sid: Id)
    requires Inv(k, v)
    requires p in v.credits ==> sid !in v.credits[p].ids && v.credits[p].amount > 0 && AllRecorded(v.credits[p].ids, v.history)
    ensures Inv(k, v.(credits := Rolled(v.credits, p, amount, sid))) <==> amount == 0 || p !in v.credits
  {
    hide Inv, HistSum, AllRecorded;
    if p in v.credits {
      WithoutAbsent(v.credits[p].ids, sid);
      HasIds(k, v, p);
      if amount == 0 {
        assert v.credits[p := v.credits[p]] == v.credits;
      } else {
        CoveredNow(k, v, p);
        var less := Deduct(v.credits[p], amount, sid);
        if Spent(less) {
          var vid := OwedReservation(k, v, p);
          assert !ListedOk(v.credits - {p}, v.reservations);
          NotListed(k, v.(credits := v.credits - {p}));
        } else {
          Undercovered(k, v.(credits := v.credits[p := less]), p);
        }
      }
    }
  }

  lemma HasIds(k: Crypto, v: Vault, p: Id)
    requires Inv(k, v) && p in v.credits
    ensures v.credits[p].ids != []
  {
    hide MoneyOk, IndexOk, ChannelsOk, HistoryOk, CreditsOk, ListedOk;
  }

  lemma Undercovered(k: Crypto, v: Vault, p: Id)
    requires p in v.credits && v.credits[p].amount < HistSum(v.credits[p].ids, v.history)
    ensures !Inv(k, v)
  {
    hide MoneyOk, IndexOk, ChannelsOk, HistoryOk, ListedOk, NoneSpent, HistSum;
    assert !CreditOk(p, v.credits[p], v.reservations, v.history, v.providers);
  }

  lemma {:induction false} SomeWeighs(ids: seq<Id>, h: map<Id, Settlement>) returns (id: Id)
    requires HistSum(ids, h) > 0
    ensures id in ids && id in h && h[id].amount > 0
  {
    if ids[0] in h && h[ids[0]].amount > 0 { id := ids[0]; } else { id := SomeWeighs(ids[1..], h); }
  }

  /** Behind a backed credit that owes something is a settled reservation of that provider. */
  lemma OwedReservation(k: Crypto, v: Vault, p: Id) returns (vid: Id)
    requires Inv(k, v) && p in v.credits && HistSum(v.credits[p].ids, v.history) > 0
    ensures vid in v.reservations && v.reservations[vid].provider == p && v.reservations[vid].status == SettledOffchain
    ensures v.reservations[vid].amount > 0 && v.reservations[vid].settlementId.Some?
  {
    hide MoneyOk, IndexOk, ChannelsOk, ListedOk, NoneSpent, HistSum, Owner, SidsUnique;
    var id := SomeWeighs(v.credits[p].ids, v.history);
    assert CreditOk(p, v.credits[p], v.reservations, v.history, v.providers);
    vid := Owner(v.reservations, id).value;
    assert SettledAs(v.reservations[vid], id);
    assert v.history[id] == RecordOf(v.reservations[vid], v.providers);
  }

  // ---- Passes at the second moment only ----

  lemma {:induction false} BackedFrame(ids: seq<Id>, h: map<Id, Settlement>, h': map<Id, Settlement>)
    requires forall id :: id in ids ==> (id in h <==> id in h')
    ensures Backed(ids, h) == Backed(ids, h')
  {
    if ids != [] {
      assert forall id :: id in ids[1..] ==> id in ids;
      BackedFrame(ids[1..], h, h');
    }
  }

  /** Records of settlements that a credit does not list do not matter to it. */
  lemma CleanedFrame(credit: Credit, h: map<Id, Settlement>, h': map<Id, Settlement>)
    requires forall id :: id in credit.ids ==> (id in h <==> id in h') && (id in h ==> h[id] == h'[id])
    ensures Cleaned(credit, h) == Cleaned(credit, h')
  {
    hide HistSum, Backed, Earliest;
    HistSumFrame(credit.ids, h, h');
    BackedFrame(credit.ids, h, h');
    forall id ensures id in Backed(credit.ids, h) ==> id in credit.ids { BackedAre(credit.ids, h, id); }
    EarliestFrame(Backed(credit.ids, h), h, h');
  }

  lemma SecondDecides(k: Crypto, v: Vault, vid: Id, sid: Id, now: Time, recorded: seq<Plan>)
    requires Underway(k, v, vid, sid, now) && recorded != []
    requires Fit(CreditedAt(v, vid, sid, now), []) && Fit(RecordedAt(v, vid, sid, now, []), recorded)
    ensures vid in v.reservations && v.reservations[vid].provider in v.providers
    ensures var x := v.credits[v.reservations[vid].provider := SettlingCredit(v, vid, sid, now)];
      CleanedTo(x, CreditsAmid(v, vid, sid, now, [], recorded), SettlingRecord(v, vid, sid, now))
  {
    hide Inv, Plans, Fit, Plannable, CleanedTo, CreditedAt, RecordedAt, FreshSid, SettlingRecord, SettlingCredit;
    UnderwayFacts(k, v, vid, sid, now);
    RecordedShape(k, v, vid, sid, now, []);
    RecordedPlannable(k, v, vid, sid, now, []);
    CreditedPlannable(k, v, vid, sid, now);
    PlansClean(CreditedAt(v, vid, sid, now), []);
    PlansClean(RecordedAt(v, vid, sid, now, []), recorded);
  }

  lemma SecondUnbacked(k: Crypto, v: Vault, vid: Id, sid: Id, now: Time)
    requires Underway(k, v, vid, sid, now)
    ensures vid in v.reservations && v.reservations[vid].provider in v.providers
    ensures var p := v.reservations[vid].provider;
      Sum(v.credits[p := SettlingCredit(v, vid, sid, now)], UnbackedOf(SettlingRecord(v, vid, sid, now))) == Unbacked(v)
  {
    hide Inv, HistSum, SettlingCredit, SettlePayment;
    UnderwayFacts(k, v, vid, sid, now);
    RaisedPlannable(k, v, vid, sid, now);
    RaisedRecorded(k, v, vid, sid, now);
    var p, h' := v.reservations[vid].provider, SettlingRecord(v, vid, sid, now);
    forall q | q in v.credits ensures UnbackedOf(h')(v.credits[q]) == UnbackedOf(v.history)(v.credits[q]) {
      HistSumFrame(v.credits[q].ids, v.history, h');
    }
    SumAlike(v.credits, UnbackedOf(v.history), UnbackedOf(h'));
    SumUpdate(v.credits, UnbackedOf(h'), p, SettlingCredit(v, vid, sid, now));
    if p in v.credits { CoveredNow(k, v, p); } else { EmptySum(v.history); }
  }

  lemma {:induction false} SumAlike(m: map<Id, Credit>, f: Credit -> nat, g: Credit -> nat)
    requires forall p :: p in m ==> f(m[p]) == g(m[p])
    ensures Sum(m, f) == Sum(m, g)
    decreases |m|
  {
    if m != map[] {
      var p :| p in m;
      assert |m - {p}| < |m| by { assert m.Keys == (m - {p}).Keys + {p}; }
      SumRemove(m, f, p);
      SumRemove(m, g, p);
      SumAlike(m - {p}, f, g);
    }
  }

  lemma SecondCommitted(k: Crypto, v: Vault, vid: Id, sid: Id, now: Time, recorded: seq<Plan>, undoing: seq<Plan>)
    requires Underway(k, v, vid, sid, now) && FitAmid(v, vid, sid, now, true, [], recorded, undoing) && recorded != []
    ensures var v' := SettleAmid(v, vid, sid, now, true, [], recorded, undoing).v; Inv(k, v') && Lost(v') == Lost(v) + Unbacked(v)
  {
    hide Inv, Lost, SettleAmid, SettleStep, CreditsAmid, Fit, CreditedAt, RecordedAt, Unbacked, FreshSid, CleanedTo, SettlingCredit, SettlingRecord;
    UnderwayFacts(k, v, vid, sid, now);
    AmidShape(k, v, vid, sid, now, true, [], recorded, undoing);
    SecondDecides(k, v, vid, sid, now, recorded);
    CommitCredits(k, v, vid, sid, now);
    SettleKeeps(k, v, vid, sid, now, true);
    SecondUnbacked(k, v, vid, sid, now);
    CleanedKeeps(k, SettleStep(v, vid, sid, now, true).v, CreditsAmid(v, vid, sid, now, [], recorded));
  }

  /** The settling provider's credit once the settlement is undone again. */
  lemma UndoneNear(k: Crypto, v: Vault, vid: Id, sid: Id, now: Time)
    requires Underway(k, v, vid, sid, now)
    ensures vid in v.reservations && v.reservations[vid].provider in v.providers
    ensures var p, amount := v.reservations[vid].provider, v.reservations[vid].amount;
      var cut := Cleaned(SettlingCredit(v, vid, sid, now), SettlingRecord(v, vid, sid, now));
      var less := if cut.None? || Spent(Deduct(cut.value, amount, sid)) then None else Some(Deduct(cut.value, amount, sid));
      Near(less, if p in v.credits then Cleaned(v.credits[p], v.history) else None)
  {
    hide Inv, HistSum, Backed, Earliest, Plannable, SettlePayment, Without;
    UnderwayFacts(k, v, vid, sid, now);
    RaisedPlannable(k, v, vid, sid, now);
    RaisedRecorded(k, v, vid, sid, now);
    var p, h' := v.reservations[vid].provider, SettlingRecord(v, vid, sid, now);
    var base, raised := StartedCredit(v, p, now), SettlingCredit(v, vid, sid, now);
    EmptySum(v.history);
    WithoutAppend(base.ids, sid, sid);
    WithoutAbsent(base.ids, sid);
    BackedAppend(base.ids, h', sid);
    BackedFrame(base.ids, v.history, h');
    if AllRecorded(base.ids, v.history) {
      if p in v.credits { HasIds(k, v, p); }
    } else {
      var kept := Backed(base.ids, v.history);
      forall id ensures id in kept ==> id in base.ids { BackedAre(base.ids, v.history, id); }
      WithoutAppend(kept, sid, sid);
      WithoutAbsent(kept, sid);
      BackedWeighs(base.ids, v.history);
      if kept == [] { assert HistSum(kept, v.history) == 0; }
      BatchLemmas.RestampedOnlyTime(raised.(ids := Backed(raised.ids, h'), amount := HistSum(raised.ids, h')), h');
      BatchLemmas.RestampedOnlyTime(base.(ids := kept, amount := HistSum(base.ids, v.history)), v.history);
    }
  }

  lemma RolledAt(credits: map<Id, Credit>, p: Id, amount: nat, sid: Id)
    ensures Find(Rolled(credits, p, amount, sid), p) ==
      if p !in credits || Spent(Deduct(credits[p], amount, sid)) then None else Some(Deduct(credits[p], amount, sid))
    ensures forall q :: q != p ==> Find(Rolled(credits, p, amount, sid), q) == Find(credits, q)
  {
    hide Deduct, Spent;
  }

  lemma SecondUndone(k: Crypto, v: Vault, vid: Id, sid: Id, now: Time, recorded: seq<Plan>)
    requires Underway(k, v, vid, sid, now) && FitAmid(v, vid, sid, now, false, [], recorded, []) && recorded != []
    ensures var v' := SettleAmid(v, vid, sid, now, false, [], recorded, []).v; Inv(k, v') && Lost(v') == Lost(v) + Unbacked(v)
  {
    hide Inv, Lost, SettleAmid, SettleStep, CreditsAmid, CreditsUndoing, Fit, CreditedAt, RecordedAt, UndoingAt, Near, Cleaned, Unbacked, CleanAll,
      SettlingCredit, Rolled, Deduct, Spent;
    UnderwayFacts(k, v, vid, sid, now);
    AmidShape(k, v, vid, sid, now, false, [], recorded, []);
    NoneUndoing(k, v, vid, sid, now, [], recorded);
    SecondDecides(k, v, vid, sid, now, recorded);
    UndoneNear(k, v, vid, sid, now);
    var r, credits' := v.reservations[vid], CreditsAmid(v, vid, sid, now, [], recorded);
    var p, all, h' := r.provider, CleanAll(v.credits, v.history), SettlingRecord(v, vid, sid, now);
    CleanAllCleans(v.credits, v.history);
    CleanedKeeps(k, v, all);
    UnbackedIs(v);
    RolledAt(credits', p, r.amount, sid);
    assert Find(credits', p) == Cleaned(SettlingCredit(v, vid, sid, now), h');
    forall q ensures q != p ==> Find(credits', q) == Find(all, q) {
      if q in v.credits { CleanedFrame(v.credits[q], v.history, h'); }
    }
    NearKeeps(k, v.(credits := all), Rolled(credits', p, r.amount, sid), p);
  }

  // ---- A pass at the last moment ----

  lemma NoneUndoing(k: Crypto, v: Vault, vid: Id, sid: Id, now: Time, credited: seq<Plan>, recorded: seq<Plan>)
    requires Underway(k, v, vid, sid, now)
    requires Fit(CreditedAt(v, vid, sid, now), credited) && Fit(RecordedAt(v, vid, sid, now, credited), recorded)
    ensures vid in v.reservations
    ensures CreditsUndoing(v, vid, sid, now, credited, recorded, []) == CreditsAmid(v, vid, sid, now, credited, recorded)
  {
    hide Inv, Fit, CreditedAt, RecordedAt, CreditsAmid, UndoingAt, FreshSid;
    UndoingShape(k, v, vid, sid, now, credited, recorded);
    var z := UndoingAt(v, vid, sid, now, credited, recorded);
    assert Plans(z, []) == z;
  }

  /** Cleaning with the record there and then without it is cleaning without it. */
  lemma CleanedTwice(credit: Credit, h: map<Id, Settlement>, h': map<Id, Settlement>, sid: Id)
    requires sid !in h && sid in h' && sid in credit.ids
    requires forall id :: id != sid ==> (id in h <==> id in h') && (id in h ==> h[id] == h'[id])
    ensures (if Cleaned(credit, h').None? then None else Cleaned(Cleaned(credit, h').value, h)) == Cleaned(credit, h)
  {
    hide Earliest;
    BackedWeighs(credit.ids, h');
    BackedNested(credit.ids, h, h');
    LessWeighs(credit.ids, h, h');
    LessWeighs(Backed(credit.ids, h'), h, h');
    BackedSum(credit.ids, h, h');
    if !AllRecorded(credit.ids, h') && HistSum(credit.ids, h') > 0 {
      var cut := credit.(ids := Backed(credit.ids, h'), amount := HistSum(credit.ids, h'));
      BatchLemmas.RestampedOnlyTime(cut, h');
      forall id ensures id in cut.ids <==> id in credit.ids && id in h' { BackedAre(credit.ids, h', id); }
      assert sid in cut.ids;
      if HistSum(credit.ids, h) > 0 {
        BackedWeighs(credit.ids, h);
        WeighsMeansRecorded(Backed(credit.ids, h), h);
      }
    }
  }

  lemma {:induction false} BackedNested(ids: seq<Id>, h: map<Id, Settlement>, h': map<Id, Settlement>)
    requires forall id :: id in h ==> id in h'
    ensures Backed(Backed(ids, h'), h) == Backed(ids, h)
  {
    if ids != [] {
      var rest := Backed(ids[1..], h');
      BackedNested(ids[1..], h, h');
      if ids[0] in h' { assert ([ids[0]] + rest)[1..] == rest; } else { assert [] + rest == rest; }
    }
  }

  lemma BackedSum(ids: seq<Id>, h: map<Id, Settlement>, h': map<Id, Settlement>)
    requires forall id :: id in h ==> id in h'
    ensures HistSum(Backed(ids, h'), h) == HistSum(ids, h)
  {
    hide HistSum, Backed;
    BackedNested(ids, h, h');
    BackedWeighs(ids, h);
    BackedWeighs(Backed(ids, h'), h);
  }

  lemma {:induction false} LessWeighs(ids: seq<Id>, h: map<Id, Settlement>, h': map<Id, Settlement>)
    requires forall id :: id in h ==> id in h' && h'[id] == h[id]
    ensures HistSum(ids, h) <= HistSum(ids, h')
  {
    if ids != [] { LessWeighs(ids[1..], h, h'); }
  }

  lemma CleanedOnce(x: map<Id, Credit>, y: map<Id, Credit>, z: map<Id, Credit>, h: map<Id, Settlement>, h': map<Id, Settlement>, sid: Id)
    requires CleanedTo(x, y, h') && CleanedTo(y, z, h) && sid !in h && sid in h'
    requires forall id :: id != sid ==> (id in h <==> id in h') && (id in h ==> h[id] == h'[id])
    ensures CleanedTo(x, z, h)
  {
    hide Cleaned;
    forall p ensures Find(z, p) == if p in x then Cleaned(x[p], h) else None {
      assert Find(y, p) == if p in x then Cleaned(x[p], h') else None;
      assert Find(z, p) == if p in y then Cleaned(y[p], h) else None;
      if p in x {
        if sid in x[p].ids {
          CleanedTwice(x[p], h, h', sid);
        } else {
          CleanedFrame(x[p], h, h');
          if p in y {
            CleanedIsBacked(x[p], h);
            BackedUnchanged(y[p], h);
          }
        }
      }
    }
  }

  /** However the record's coming and going was seen, such passes leave the credits cut down to the records before. */
  lemma LastDecides(k: Crypto, v: Vault, vid: Id, sid: Id, now: Time, credited: seq<Plan>, recorded: seq<Plan>, undoing: seq<Plan>)
    requires Underway(k, v, vid, sid, now) && FitAmid(v, vid, sid, now, false, credited, recorded, undoing)
    requires credited != [] || undoing != []
    ensures vid in v.reservations
    ensures var x, credits' := CreditedAt(v, vid, sid, now), CreditsUndoing(v, vid, sid, now, credited, recorded, undoing);
      && CleanedTo(x.credits, credits', v.history)
      && (forall q :: q in credits' ==> AllRecorded(credits'[q].ids, v.history) && sid !in credits'[q].ids)
  {
    hide Inv, Plans, Fit, Plannable, CleanedTo, CreditedAt, RecordedAt, UndoingAt, FreshSid, CreditsAmid, SettlingRecord, SettlingCredit;
    UnderwayFacts(k, v, vid, sid, now);
    UndoingShape(k, v, vid, sid, now, credited, recorded);
    UndoingPlannable(k, v, vid, sid, now, credited, recorded);
    var x, z := CreditedAt(v, vid, sid, now), UndoingAt(v, vid, sid, now, credited, recorded);
    var credits' := CreditsUndoing(v, vid, sid, now, credited, recorded, undoing);
    PlansClean(z, undoing);
    if credited != [] {
      FirstDecides(k, v, vid, sid, now, credited, recorded);
      if undoing != [] { BackedStay(z.credits, credits', v.history); }
    } else {
      CleanedToPlannable(z, credits');
      FreshNow(v, sid);
      if recorded != [] {
        SecondDecides(k, v, vid, sid, now, recorded);
        OneRecordMore(v, vid, sid, now);
        CleanedOnce(x.credits, z.credits, credits', v.history, SettlingRecord(v, vid, sid, now), sid);
      } else {
        UnprunedAmid(k, v, vid, sid, now);
      }
    }
  }

  lemma FreshNow(v: Vault, sid: Id)
    requires FreshSid(v, sid)
    ensures sid !in v.history
  {
  }

  lemma OneRecordMore(v: Vault, vid: Id, sid: Id, now: Time)
    requires vid in v.reservations && v.reservations[vid].provider in v.providers
    ensures var h' := SettlingRecord(v, vid, sid, now);
      sid in h' && forall id :: id != sid ==> (id in v.history <==> id in h') && (id in v.history ==> v.history[id] == h'[id])
  {
  }

  /** Without passes the credits are as the settlement raised them. */
  lemma UnprunedAmid(k: Crypto, v: Vault, vid: Id, sid: Id, now: Time)
    requires Underway(k, v, vid, sid, now)
    ensures vid in v.reservations && CreditsAmid(v, vid, sid, now, [], []) == CreditedAt(v, vid, sid, now).credits
  {
    hide Inv, SettlePayment, FreshSid, CreditedWith;
    UnderwayFacts(k, v, vid, sid, now);
    var x := CreditedAt(v, vid, sid, now);
    assert Plans(x, []) == x;
    var y := RecordedAt(v, vid, sid, now, []);
    assert Plans(y, []) == y;
  }

  /** Undoing deducts a second time what the pass has already pruned. */
  lemma PrunedUndone(k: Crypto, v: Vault, vid: Id, sid: Id, now: Time, credited: seq<Plan>, recorded: seq<Plan>, undoing: seq<Plan>)
    requires Underway(k, v, vid, sid, now) && FitAmid(v, vid, sid, now, false, credited, recorded, undoing)
    requires credited != [] || undoing != []
    ensures vid in v.reservations
    ensures var v' := SettleAmid(v, vid, sid, now, false, credited, recorded, undoing).v;
      var r := v.reservations[vid];
      && Lost(v') == Lost(v) + Unbacked(v) + Least(r.amount, RecordedOwed(v, r.provider))
      && (Inv(k, v') <==> r.amount == 0 || RecordedOwed(v, r.provider) == 0)
  {
    hide Inv, Lost, SettleAmid, SettleStep, CreditsUndoing, FitAmid, Unbacked, FreshSid, Cleaned, Rolled, CleanedTo, RecordedOwed, CreditedAt;
    UnderwayFacts(k, v, vid, sid, now);
    AmidShape(k, v, vid, sid, now, false, credited, recorded, undoing);
    LastDecides(k, v, vid, sid, now, credited, recorded, undoing);
    var r, credits' := v.reservations[vid], CreditsUndoing(v, vid, sid, now, credited, recorded, undoing);
    FirstCleans(k, v, vid, sid, now, credits');
    CutDown(k, v, vid, sid, now);
    var w := v.(credits := credits');
    RolledSum(credits', r.provider, r.amount, sid);
    LostByCredits(w, Rolled(credits', r.provider, r.amount, sid));
    DeductedTwice(k, w, r.provider, r.amount, sid);
  }

  // ---- All together ----

  /** A pass sees the credit without its record. */
  predicate Exposed(ok: bool, credited: seq<Plan>, undoing: seq<Plan>) { credited != [] || (!ok && undoing != []) }

  /** What a settlement with passes takes off the books. */
  ghost function AmidLoss(v: Vault, vid: Id, now: Time, ok: bool, credited: seq<Plan>, recorded: seq<Plan>, undoing: seq<Plan>): nat
  {
    if !Settles(v, vid, now) then 0
    else if Exposed(ok, credited, undoing) then
      Unbacked(v) + if ok then v.reservations[vid].amount else Least(v.reservations[vid].amount, RecordedOwed(v, v.reservations[vid].provider))
    else if recorded != [] then Unbacked(v)
    else 0
  }

  /** No pass sees the credit without its record, or one does and there is nothing to lose. */
  predicate Harmless(v: Vault, vid: Id, now: Time, ok: bool, credited: seq<Plan>, undoing: seq<Plan>)
  {
    Settles(v, vid, now) && Exposed(ok, credited, undoing) && v.reservations[vid].amount > 0 ==>
      !ok && RecordedOwed(v, v.reservations[vid].provider) == 0
  }

  /**
   * A settlement during which batches are planned loses exactly what a pass between two steps would, and more exactly when
   * a pass sees the credit without its record: the amount if it commits, what undoing deducts again if it does not. The
   * invariant survives exactly the harmless ones; a pass while only the append is outstanding is always harmless.
   */
  lemma SettleAmidExact(k: Crypto, v: Vault, vid: Id, sid: Id, now: Time, ok: bool, credited: seq<Plan>, recorded: seq<Plan>, undoing: seq<Plan>)
    requires Inv(k, v) && FreshSid(v, sid) && FitAmid(v, vid, sid, now, ok, credited, recorded, undoing)
    ensures var v' := SettleAmid(v, vid, sid, now, ok, credited, recorded, undoing).v;
      && Lost(v') == Lost(v) + AmidLoss(v, vid, now, ok, credited, recorded, undoing)
      && (Inv(k, v') <==> Harmless(v, vid, now, ok, credited, undoing))
  {
    hide Inv, Lost, FreshSid, FitAmid, SettleStep, Unbacked, RecordedOwed, SettleAmid;
    if !Settles(v, vid, now) {
      NoSettlement(v, vid, sid, now, ok, credited, recorded, undoing);
    } else if ok {
      if credited != [] {
        FirstCommitted(k, v, vid, sid, now, credited, recorded, undoing);
      } else if recorded != [] {
        SecondCommitted(k, v, vid, sid, now, recorded, undoing);
      } else {
        UndoingUnseen(v, vid, sid, now, undoing);
        AloneIsStep(v, vid, sid, now, ok);
        SettleKeeps(k, v, vid, sid, now, ok);
      }
    } else if credited != [] || undoing != [] {
      PrunedUndone(k, v, vid, sid, now, credited, recorded, undoing);
    } else if recorded != [] {
      SecondUndone(k, v, vid, sid, now, recorded);
    } else {
      AloneIsStep(v, vid, sid, now, ok);
      SettleKeeps(k, v, vid, sid, now, ok);
    }
  }

  /** A settlement that commits has no last moment. */
  lemma UndoingUnseen(v: Vault, vid: Id, sid: Id, now: Time, undoing: seq<Plan>)
    ensures SettleAmid(v, vid, sid, now, true, [], [], undoing) == SettleAmid(v, vid, sid, now, true, [], [], [])
  {
    hide SettlePayment, Refresh, Plans;
  }

  lemma NoSettlement(v: Vault, vid: Id, sid: Id, now: Time, ok: bool, credited: seq<Plan>, recorded: seq<Plan>, undoing: seq<Plan>)
    requires !Settles(v, vid, now)
    ensures SettleAmid(v, vid, sid, now, ok, credited, recorded, undoing) == Idle(v)
  {
  }
}
