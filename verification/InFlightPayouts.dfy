/** Paying out a batch that was planned while a settlement's append was outstanding. */
module InFlightPayouts {
  import opened Prelude
  import opened Sums
  import opened VaultTypes
  import opened Ledger
  import opened Channels
  import opened CreditIndex
  import opened CursorPass
  import opened Invariant
  import opened SettlementLemmas
  import opened Steps
  import opened Preservation
  import opened BatchLemmas
  import opened Runs
  import opened StepFrames
  import opened BatchChunks
  import opened BatchCursors
  import opened BatchPipeline
  import opened InFlight
  import opened InFlightLosses
  import opened InFlightClosing
  import opened BusyRuns
  import opened Rollbacks

  // ---- A settlement id comes from the step that draws it and from nowhere else ----

  /** Nobody lists more ids than before, apart from one. */
  ghost predicate ListsNoMore(credits: map<Id, Credit>, credits': map<Id, Credit>, own: Option<Id>)
  {
    forall p, id :: p in credits' && id in credits'[p].ids ==> own == Some(id) || (p in credits && id in credits[p].ids)
  }

  lemma FreshAfter(v: Vault, v': Vault, sid: Id, own: Option<Id>)
    requires FreshSid(v, sid) && own != Some(sid) && ListsNoMore(v.credits, v'.credits, own)
    requires forall id :: id in v'.history ==> id in v.history || own == Some(id)
    requires forall vid :: vid in v'.reservations && SettledAs(v'.reservations[vid], sid) ==>
      vid in v.reservations && SettledAs(v.reservations[vid], sid)
    ensures FreshSid(v', sid)
  {
  }

  lemma SameLists(credits: map<Id, Credit>, own: Option<Id>)
    ensures ListsNoMore(credits, credits, own)
  {
  }

  lemma OneMore(credits: map<Id, Credit>, p: Id, credit: Credit, sid: Id)
    requires forall id :: id in credit.ids ==> id == sid || (p in credits && id in credits[p].ids)
    ensures ListsNoMore(credits, credits[p := credit], Some(sid))
  {
  }

  lemma CreditedLists(v: Vault, p: Id, amount: nat, sid: Id, now: Time)
    requires p in v.providers
    ensures ListsNoMore(v.credits, v.credits[p := CreditedWith(v, p, amount, sid, now)], Some(sid))
  {
    OneMore(v.credits, p, CreditedWith(v, p, amount, sid, now), sid);
  }

  lemma CleanedLists(credits: map<Id, Credit>, credits': map<Id, Credit>, h: map<Id, Settlement>)
    requires CleanedTo(credits, credits', h)
    ensures ListsNoMore(credits, credits', None)
  {
    hide Cleaned;
    forall p, id | p in credits' && id in credits'[p].ids ensures p in credits && id in credits[p].ids {
      assert Find(credits', p) == Some(credits'[p]);
      CleanedIsBacked(credits[p], h);
    }
  }

  lemma FewerLists(credits: map<Id, Credit>, p: Id, credit: Credit, x: Id)
    requires p in credits && credit.ids == Without(credits[p].ids, x)
    ensures ListsNoMore(credits, credits[p := credit], None)
  {
    WithoutMembers(credits[p].ids, x);
  }

  lemma ConfirmOneLists(v: Vault, x: Id, info: BatchInfo)
    ensures ListsNoMore(v.credits, ConfirmOne(v, x, info).credits, None)
  {
    hide Owner, Holder, Without, ListsNoMore;
    SameLists(v.credits, None);
    if Owner(v.reservations, x).Some? {
      var r := v.reservations[Owner(v.reservations, x).value];
      if r.provider in v.credits { FewerLists(v.credits, r.provider, Deduct(v.credits[r.provider], r.amount, x), x); }
    } else if Holder(v.credits, x).Some? {
      var p := Holder(v.credits, x).value;
      FewerLists(v.credits, p, v.credits[p].(ids := Without(v.credits[p].ids, x)), x);
    }
  }

  lemma ConfirmOneCarriers(v: Vault, x: Id, info: BatchInfo)
    ensures var v' := ConfirmOne(v, x, info);
      && v'.history == v.history - {x} && v'.reservations.Keys == v.reservations.Keys
      && (forall vid :: vid in v.reservations ==> v'.reservations[vid].settlementId == v.reservations[vid].settlementId)
  {
    hide Owner, ConfirmOne, PaidCredits;
    if Owner(v.reservations, x).Some? { ConfirmOneShape(v, x, info); } else { ConfirmOneUnowned(v, x, info); }
  }

  lemma ConfirmOneUnowned(v: Vault, x: Id, info: BatchInfo)
    requires Owner(v.reservations, x).None?
    ensures var v' := ConfirmOne(v, x, info);
      v' == v.(history := v.history - {x}, batches := v.batches[x := info], credits := v'.credits)
    ensures Holder(v.credits, x).None? ==> ConfirmOne(v, x, info).credits == v.credits
  {
    hide Owner, Holder, Without;
    var v1 := v.(history := v.history - {x}, batches := v.batches[x := info]);
    if Holder(v.credits, x).None? {
      assert ConfirmOne(v, x, info) == v1;
    } else {
      var p := Holder(v.credits, x).value;
      assert ConfirmOne(v, x, info) == v1.(credits := v1.credits[p := v.credits[p].(ids := Without(v.credits[p].ids, x))]);
    }
  }

  lemma FreshThroughOne(v: Vault, x: Id, info: BatchInfo, sid: Id)
    requires FreshSid(v, sid)
    ensures FreshSid(ConfirmOne(v, x, info), sid)
  {
    hide ConfirmOne, FreshSid, ListsNoMore;
    ConfirmOneLists(v, x, info);
    ConfirmOneCarriers(v, x, info);
    FreshAfter(v, ConfirmOne(v, x, info), sid, None);
  }

  lemma {:induction false} FreshThroughEach(v: Vault, sids: seq<Id>, info: BatchInfo, sid: Id)
    requires FreshSid(v, sid)
    ensures FreshSid(ConfirmEach(v, sids, info), sid)
    decreases |sids|
  {
    hide FreshSid, ConfirmOne;
    if sids != [] {
      var n := |sids| - 1;
      FreshThroughEach(v, sids[..n], info, sid);
      FreshThroughOne(ConfirmEach(v, sids[..n], info), sids[n], info, sid);
    }
  }

  lemma FreshThroughConfirm(v: Vault, sids: seq<Id>, batchId: nat, signature: Id, sid: Id)
    requires FreshSid(v, sid)
    ensures FreshSid(ApplyBatchConfirmation(v, sids, batchId, signature), sid)
  {
    hide ConfirmEach, TouchedEach, Spent;
    var v1 := ConfirmEach(v, sids, BatchInfo(batchId, signature));
    FreshThroughEach(v, sids, BatchInfo(batchId, signature), sid);
    var v' := ApplyBatchConfirmation(v, sids, batchId, signature);
    forall p | p in v'.credits ensures sid !in v'.credits[p].ids { RestampedOnlyTime(v1.credits[p], v1.history); }
  }

  lemma FreshThroughSettle(k: Crypto, v: Vault, s: Step, sid: Id)
    requires Inv(k, v) && s.Settle? && Admissible(v, s) && FreshSid(v, sid) && s.settlementId != sid
    ensures FreshSid(Live(k, v, s).v, sid)
  {
    hide Inv, SettleStep, CreditedWith;
    var vid, own := s.verificationId, s.settlementId;
    if Settles(v, vid, s.now) {
      if s.ok {
        UnderwayFacts(k, v, vid, own, s.now);
        CommitCredits(k, v, vid, own, s.now);
        CreditedLists(v, v.reservations[vid].provider, v.reservations[vid].amount, own, s.now);
        FreshAfter(v, Live(k, v, s).v, sid, Some(own));
      } else {
        SettleFailed(k, v, vid, own, s.now);
      }
    } else {
      SettleIdle(v, vid, own, s.now, s.ok);
    }
  }

  lemma FreshThroughClose(k: Crypto, v: Vault, s: Step, sid: Id)
    requires Inv(k, v) && s.Close? && Admissible(v, s) && FreshSid(v, sid) && s.settlementId != sid
    ensures FreshSid(Live(k, v, s).v, sid)
  {
    hide Inv, CloseStep, CloseChannel, CreditedWith, LockedUntil;
    var id, own := s.channelId, s.settlementId;
    if Closes(v, id) {
      if s.ok {
        CloseNeverStuck(k, v, id, own, s.now);
        ClosedShape(v, id, own, s.now);
        var ch := v.channels[id];
        if ch.earned > 0 { CreditedLists(v, ch.provider, ch.earned, own, s.now); } else { SameLists(v.credits, Some(own)); }
        FreshAfter(v, Live(k, v, s).v, sid, Some(own));
      } else {
        UndoneCloseIdles(k, v, id, own, s.now);
      }
    } else {
      IdleClosing(k, v, id, own, s.now, s.ok);
    }
  }

  /** No reservation of the second map carries an id that none of the first does. */
  ghost predicate NoNewCarrier(rs: map<Id, Reservation>, rs': map<Id, Reservation>)
  {
    forall vid :: vid in rs' && rs'[vid].settlementId.Some? ==> vid in rs && rs[vid].settlementId == rs'[vid].settlementId
  }

  lemma FreshThroughVerify(v: Vault, vid: Id, payment: Id, c: Pubkey, provider: Id, amount: nat, d: ReservationDetail, ok: bool)
    ensures NoNewCarrier(v.reservations, VerifyStep(v, vid, payment, c, provider, amount, d, ok).v.reservations)
  {
    hide Refresh, ReserveBalance;
    var r := NewReservation(vid, payment, c, provider, amount, d);
    var v1 := ReserveBalance(v, c, amount).v;
    BalanceWrites(v, c, amount);
    RefreshWrites(WithReservation(v1, r), c);
    assert NoNewCarrier(v.reservations, v.reservations) && NoNewCarrier(v.reservations, v.reservations[vid := r]);
  }

  lemma FreshThroughEnd(v: Vault, vid: Id, status: ReservationStatus)
    requires vid in v.reservations
    ensures NoNewCarrier(v.reservations, EndReservation(v, vid, status).reservations)
  {
    hide EndReservation;
    EndWrites(v, vid, status);
  }

  lemma ReservationsFresh(k: Crypto, v: Vault, s: Step)
    requires s.Verify? || s.Cancel? || s.ExpireReservation?
    ensures NoNewCarrier(v.reservations, Live(k, v, s).v.reservations)
  {
    hide EndReservation, VerifyStep, NoNewCarrier;
    SameCarried(v.reservations);
    if s.Verify? {
      FreshThroughVerify(v, s.verificationId, s.paymentId, s.client, s.provider, s.amount, s.detail, s.ok);
    } else if s.verificationId in v.reservations {
      FreshThroughEnd(v, s.verificationId, Cancelled);
      FreshThroughEnd(v, s.verificationId, Expired);
    }
  }

  lemma SameCarried(rs: map<Id, Reservation>)
    ensures NoNewCarrier(rs, rs)
  {
  }

  lemma FreshThroughReservation(k: Crypto, v: Vault, s: Step, sid: Id)
    requires Inv(k, v) && Admissible(v, s) && (s.Verify? || s.Cancel? || s.ExpireReservation?) && FreshSid(v, sid)
    ensures FreshSid(Live(k, v, s).v, sid)
  {
    hide Inv, Live, FreshSid, Admissible, ListsNoMore;
    StepWrites(k, v, s);
    WritesSpare(v, Live(k, v, s).v, s);
    ReservationsFresh(k, v, s);
    SameLists(v.credits, None);
    FreshAfter(v, Live(k, v, s).v, sid, None);
  }

  /** The id a step draws, if any. */
  function Drawn(s: Step): Option<Id> { if s.Settle? || s.Close? then Some(s.settlementId) else None }

  lemma StepFresh(k: Crypto, v: Vault, s: Step, sid: Id)
    requires Inv(k, v) && Admissible(v, s) && FreshSid(v, sid) && Drawn(s) != Some(sid)
    ensures FreshSid(Live(k, v, s).v, sid)
  {
    hide Inv, Live, Admissible;
    if s.Settle? {
      FreshThroughSettle(k, v, s, sid);
    } else if s.Close? {
      FreshThroughClose(k, v, s, sid);
    } else if s.Verify? || s.Cancel? || s.ExpireReservation? {
      FreshThroughReservation(k, v, s, sid);
    } else if s.ConfirmBatch? {
      ConfirmedFresh(k, v, s, sid);
    } else if s.PlanBatch? {
      PlannedFresh(k, v, s, sid);
    } else {
      StepWrites(k, v, s);
      WritesSpare(v, Live(k, v, s).v, s);
    }
  }

  lemma ConfirmedFresh(k: Crypto, v: Vault, s: Step, sid: Id)
    requires s.ConfirmBatch? && FreshSid(v, sid)
    ensures FreshSid(Live(k, v, s).v, sid)
  {
    hide FreshSid, ApplyBatchConfirmation;
    FreshThroughConfirm(v, s.settlementIds, s.batchId, s.signature, sid);
  }

  lemma PlannedFresh(k: Crypto, v: Vault, s: Step, sid: Id)
    requires Inv(k, v) && s.PlanBatch? && Admissible(v, s) && FreshSid(v, sid)
    ensures FreshSid(Live(k, v, s).v, sid)
  {
    hide Inv, Plannable, Planned, Listing, CleanedTo;
    PlannableNow(k, v);
    PassCleans(v, s.order, s.now, s.mode, s.config);
    CleanedLists(v.credits, Live(k, v, s).v.credits, v.history);
    FreshAfter(v, Live(k, v, s).v, sid, None);
  }

  // ---- The same through moves with passes inside ----

  lemma ListsChain(a: map<Id, Credit>, b: map<Id, Credit>, c: map<Id, Credit>, own: Option<Id>)
    requires ListsNoMore(a, b, own) && ListsNoMore(b, c, None)
    ensures ListsNoMore(a, c, own)
  {
  }

  lemma RolledLists(credits: map<Id, Credit>, p: Id, amount: nat, sid: Id)
    ensures ListsNoMore(credits, Rolled(credits, p, amount, sid), None)
  {
    if p in credits { WithoutMembers(credits[p].ids, sid); }
  }

  lemma CleanedKeys(credits: map<Id, Credit>, credits': map<Id, Credit>, h: map<Id, Settlement>)
    requires CleanedTo(credits, credits', h)
    ensures credits'.Keys <= credits.Keys
  {
    forall p | p in credits' ensures p in credits { assert Find(credits', p).Some?; }
  }

  /** No more than the settlement's own id is listed when its append is answered. */
  lemma AmidFound(k: Crypto, v: Vault, vid: Id, sid: Id, now: Time, credited: seq<Plan>, recorded: seq<Plan>)
    requires Underway(k, v, vid, sid, now)
    requires Fit(CreditedAt(v, vid, sid, now), credited) && Fit(RecordedAt(v, vid, sid, now, credited), recorded)
    ensures vid in v.reservations && v.reservations[vid].provider in v.providers
    ensures var x, credits' := CreditedAt(v, vid, sid, now).credits, CreditsAmid(v, vid, sid, now, credited, recorded);
      ListsNoMore(x, credits', None) && credits'.Keys <= x.Keys
  {
    hide Inv, CreditsAmid, Fit, FreshSid, CleanedTo, ListsNoMore, CreditedAt, RecordedAt;
    UnderwayFacts(k, v, vid, sid, now);
    var x, credits' := CreditedAt(v, vid, sid, now).credits, CreditsAmid(v, vid, sid, now, credited, recorded);
    if credited != [] {
      FirstDecides(k, v, vid, sid, now, credited, recorded);
      CleanedLists(x, credits', v.history);
      CleanedKeys(x, credits', v.history);
    } else if recorded != [] {
      SecondDecides(k, v, vid, sid, now, recorded);
      CleanedLists(x, credits', SettlingRecord(v, vid, sid, now));
      CleanedKeys(x, credits', SettlingRecord(v, vid, sid, now));
    } else {
      UnprunedAmid(k, v, vid, sid, now);
      SameLists(x, None);
    }
  }

  lemma UndoingFound(k: Crypto, v: Vault, vid: Id, sid: Id, now: Time, credited: seq<Plan>, recorded: seq<Plan>, undoing: seq<Plan>)
    requires Underway(k, v, vid, sid, now) && FitAmid(v, vid, sid, now, false, credited, recorded, undoing)
    ensures vid in v.reservations && v.reservations[vid].provider in v.providers
    ensures var x, credits' := CreditedAt(v, vid, sid, now).credits, CreditsUndoing(v, vid, sid, now, credited, recorded, undoing);
      ListsNoMore(x, credits', None) && credits'.Keys <= x.Keys
  {
    hide Inv, CreditsAmid, Fit, FreshSid, CleanedTo, ListsNoMore, CreditedAt, RecordedAt, UndoingAt, Plans, Plannable;
    AmidFound(k, v, vid, sid, now, credited, recorded);
    UndoingShape(k, v, vid, sid, now, credited, recorded);
    UndoingPlannable(k, v, vid, sid, now, credited, recorded);
    var z := UndoingAt(v, vid, sid, now, credited, recorded);
    var credits' := CreditsUndoing(v, vid, sid, now, credited, recorded, undoing);
    PlansClean(z, undoing);
    if undoing != [] {
      CleanedLists(z.credits, credits', z.history);
      CleanedKeys(z.credits, credits', z.history);
      ListsChain(CreditedAt(v, vid, sid, now).credits, z.credits, credits', None);
    }
  }

  lemma AmidLists(k: Crypto, v: Vault, vid: Id, sid: Id, now: Time, ok: bool, credited: seq<Plan>, recorded: seq<Plan>, undoing: seq<Plan>)
    requires Underway(k, v, vid, sid, now) && FitAmid(v, vid, sid, now, ok, credited, recorded, undoing)
    ensures ListsNoMore(v.credits, SettleAmid(v, vid, sid, now, ok, credited, recorded, undoing).v.credits, Some(sid))
  {
    hide Inv, SettleAmid, SettleStep, CreditsAmid, CreditsUndoing, Fit, FreshSid, ListsNoMore, Rolled, CreditedWith, CreditedAt, RecordedAt, UndoingAt;
    UnderwayFacts(k, v, vid, sid, now);
    var r := v.reservations[vid];
    var x := CreditedAt(v, vid, sid, now).credits;
    CreditedLists(v, r.provider, r.amount, sid, now);
    AmidShape(k, v, vid, sid, now, ok, credited, recorded, undoing);
    if ok {
      AmidFound(k, v, vid, sid, now, credited, recorded);
      ListsChain(v.credits, x, CreditsAmid(v, vid, sid, now, credited, recorded), Some(sid));
    } else {
      var credits' := CreditsUndoing(v, vid, sid, now, credited, recorded, undoing);
      UndoingFound(k, v, vid, sid, now, credited, recorded, undoing);
      ListsChain(v.credits, x, credits', Some(sid));
      RolledLists(credits', r.provider, r.amount, sid);
      ListsChain(v.credits, credits', Rolled(credits', r.provider, r.amount, sid), Some(sid));
    }
  }

  lemma ClosingLists(k: Crypto, v: Vault, id: Id, sid: Id, now: Time, ok: bool, plans: seq<Plan>)
    requires Inv(k, v) && FreshSid(v, sid) && Closes(v, id) && FitClosing(v, id, sid, now, plans)
    ensures ListsNoMore(v.credits, CloseAmid(v, id, sid, now, ok, plans).v.credits, Some(sid))
  {
    hide Inv, CloseAmid, CloseStep, CloseChannel, FreshSid, CleanedTo, ListsNoMore, PutBack, Plans, Fit, Plannable, CreditedWith, SavedCredit;
    ClosingPlannable(k, v, id, sid, now);
    CloseChannelShape(v, id, sid, now);
    ClosingShape(k, v, id, sid, now, ok, plans);
    var x, ch := CloseChannel(v, id, sid, now).v, v.channels[id];
    if ch.earned > 0 { CreditedLists(v, ch.provider, ch.earned, sid, now); } else { SameLists(v.credits, Some(sid)); }
    var credits' := Plans(x, plans).credits;
    PlansClean(x, plans);
    if plans == [] { SameLists(x.credits, None); } else { CleanedLists(x.credits, credits', x.history); }
    ListsChain(v.credits, x.credits, credits', Some(sid));
    PutBackLists(v, credits', ch, sid);
  }

  lemma PutBackLists(v: Vault, credits': map<Id, Credit>, ch: Channel, sid: Id)
    requires ListsNoMore(v.credits, credits', Some(sid))
    ensures ListsNoMore(v.credits, PutBack(credits', ch, SavedCredit(v, ch)), Some(sid))
  {
  }

  lemma MoveLists(k: Crypto, v: Vault, m: Move)
    requires Inv(k, v) && Allowed(v, m) && !m.Alone?
    ensures ListsNoMore(v.credits, Made(k, v, m).v.credits, Drawn(Plain(m)))
  {
    hide Inv, SettleAmid, CloseAmid, FreshSid, FitAmid, FitClosing, ListsNoMore;
    SameLists(v.credits, Drawn(Plain(m)));
    match m
    case WhileSettling(vid, own, now, ok, credited, recorded, undoing) =>
      if Settles(v, vid, now) {
        AmidLists(k, v, vid, own, now, ok, credited, recorded, undoing);
      } else {
        NoSettlement(v, vid, own, now, ok, credited, recorded, undoing);
      }
    case WhileClosing(id, own, now, ok, plans) =>
      if Closes(v, id) { ClosingLists(k, v, id, own, now, ok, plans); } else { NoClosing(k, v, id, own, now, ok, plans); }
  }

  lemma MoveFresh(k: Crypto, v: Vault, m: Move, sid: Id)
    requires Inv(k, v) && Allowed(v, m) && FreshSid(v, sid) && Drawn(Plain(m)) != Some(sid)
    ensures FreshSid(Made(k, v, m).v, sid)
  {
    hide Inv, Live, Admissible, FreshSid, FitAmid, FitClosing, ListsNoMore;
    if m.Alone? {
      StepFresh(k, v, m.step, sid);
    } else {
      hide Made;
      StepFresh(k, v, Plain(m), sid);
      MovesLikeStep(k, v, m);
      MoveLists(k, v, m);
      FreshByCredits(v, Live(k, v, Plain(m)).v, Made(k, v, m).v.credits, sid, Drawn(Plain(m)));
    }
  }

  lemma FreshByCredits(v: Vault, v': Vault, credits': map<Id, Credit>, sid: Id, own: Option<Id>)
    requires FreshSid(v, sid) && FreshSid(v', sid) && own != Some(sid) && ListsNoMore(v.credits, credits', own)
    ensures FreshSid(v'.(credits := credits'), sid)
  {
  }

  lemma {:induction false} RanFresh(k: Crypto, v: Vault, moves: seq<Move>, sid: Id)
    requires Inv(k, v) && AllowedRun(k, v, moves) && UnharmedRun(k, v, moves) && FreshSid(v, sid)
    requires forall m :: m in moves ==> Drawn(Plain(m)) != Some(sid)
    ensures FreshSid(Ran(k, v, moves).v, sid)
    decreases |moves|
  {
    hide Inv, Made, Allowed, Unharmed, FreshSid, Drawn;
    if moves != [] {
      var n := |moves| - 1;
      assert forall m :: m in moves[..n] ==> m in moves;
      RanFresh(k, v, moves[..n], sid);
      BusyExact(k, v, moves[..n]);
      ThroughoutEnds(k, v, moves[..n]);
      MoveFresh(k, Ran(k, v, moves[..n]).v, moves[n], sid);
    }
  }

  /** Records stay as they are until confirmed, passes or not. */
  lemma {:induction false} RanKeepsRecords(k: Crypto, v: Vault, moves: seq<Move>, sids: seq<Id>)
    requires Inv(k, v) && AllowedRun(k, v, moves) && UnharmedRun(k, v, moves) && forall m :: m in moves ==> Spares(Plain(m), sids)
    ensures SameRecords(v, Ran(k, v, moves).v, sids)
    decreases |moves|
  {
    hide Inv, Made, Live, Admissible, Unharmed, Spares, FitAmid, FitClosing;
    if moves != [] {
      var n := |moves| - 1;
      assert forall m :: m in moves[..n] ==> m in moves;
      RanKeepsRecords(k, v, moves[..n], sids);
      BusyExact(k, v, moves[..n]);
      ThroughoutEnds(k, v, moves[..n]);
      var before := Ran(k, v, moves[..n]).v;
      MovesLikeStep(k, before, moves[n]);
      StepKeepsRecords(k, before, Plain(moves[n]), sids);
    }
  }

  // ---- Confirming an id that nobody knows ----

  predicate SameButBatches(a: Vault, b: Vault) { a == b.(batches := a.batches) }

  lemma ConfirmUnknown(v: Vault, sid: Id, info: BatchInfo)
    requires FreshSid(v, sid)
    ensures SameButBatches(ConfirmOne(v, sid, info), v) && Touched(v, sid) == {}
  {
    hide Owner, Holder, ConfirmOne;
    assert v.history - {sid} == v.history;
    OwnerNone(v.reservations, sid);
    ConfirmOneUnowned(v, sid, info);
  }

  lemma ConfirmAlike(a: Vault, b: Vault, x: Id, info: BatchInfo)
    requires SameButBatches(a, b)
    ensures SameButBatches(ConfirmOne(a, x, info), ConfirmOne(b, x, info)) && Touched(a, x) == Touched(b, x)
  {
    hide Owner, Holder, ConfirmOne;
    assert a.reservations == b.reservations && a.credits == b.credits && a.history == b.history;
    if Owner(a.reservations, x).Some? {
      ConfirmOneShape(a, x, info);
      ConfirmOneShape(b, x, info);
    } else {
      ConfirmOneUnowned(a, x, info);
      ConfirmOneUnowned(b, x, info);
      HeldAlike(a, b, x, info);
    }
  }

  lemma HeldAlike(a: Vault, b: Vault, x: Id, info: BatchInfo)
    requires a.reservations == b.reservations && a.credits == b.credits && Owner(a.reservations, x).None?
    ensures ConfirmOne(a, x, info).credits == ConfirmOne(b, x, info).credits
  {
    hide Owner, Holder;
    if Holder(a.credits, x).None? {
      ConfirmOneUnowned(a, x, info);
      ConfirmOneUnowned(b, x, info);
    } else {
      assert Holder(a.credits, x) == Holder(b.credits, x);
    }
  }

  lemma ConfirmSnoc(v: Vault, sids: seq<Id>, x: Id, info: BatchInfo)
    ensures ConfirmEach(v, sids + [x], info) == ConfirmOne(ConfirmEach(v, sids, info), x, info)
    ensures TouchedEach(v, sids + [x], info) == TouchedEach(v, sids, info) + Touched(ConfirmEach(v, sids, info), x)
  {
    hide ConfirmOne, Touched;
    assert (sids + [x])[..|sids|] == sids;
  }

  lemma NoneConfirmed(v: Vault, sid: Id, info: BatchInfo)
    ensures Without([], sid) == [] && ConfirmEach(v, [], info) == v && TouchedEach(v, [], info) == {}
  {
  }

  lemma {:induction false} UnknownSkipped(v: Vault, sids: seq<Id>, info: BatchInfo, sid: Id)
    requires FreshSid(v, sid)
    ensures SameButBatches(ConfirmEach(v, sids, info), ConfirmEach(v, Without(sids, sid), info))
    ensures TouchedEach(v, sids, info) == TouchedEach(v, Without(sids, sid), info)
    decreases |sids|
  {
    hide FreshSid, ConfirmOne, Touched, ConfirmEach, TouchedEach, Without;
    if sids == [] {
      NoneConfirmed(v, sid, info);
    } else {
      var n := |sids| - 1;
      var less, x := sids[..n], sids[n];
      assert sids == less + [x];
      UnknownSkipped(v, less, info, sid);
      WithoutAppend(less, x, sid);
      ConfirmSnoc(v, less, x, info);
      if x == sid {
        FreshThroughEach(v, less, info, sid);
        ConfirmUnknown(ConfirmEach(v, less, info), sid, info);
        assert Without(less, sid) + [] == Without(less, sid);
      } else {
        ConfirmSnoc(v, Without(less, sid), x, info);
        ConfirmAlike(ConfirmEach(v, less, info), ConfirmEach(v, Without(less, sid), info), x, info);
      }
    }
  }

  /** An unknown id in a confirmed chunk changes no credit. */
  lemma UnknownUnpaid(v: Vault, sids: seq<Id>, batchId: nat, signature: Id, sid: Id)
    requires FreshSid(v, sid)
    ensures SameButBatches(ApplyBatchConfirmation(v, sids, batchId, signature),
                           ApplyBatchConfirmation(v, Without(sids, sid), batchId, signature))
  {
    hide FreshSid, ConfirmEach, TouchedEach;
    UnknownSkipped(v, sids, BatchInfo(batchId, signature), sid);
  }

  // ---- What is paid for a batch planned during a settlement ----

  /** What a confirmation finds recorded of a chunk, and what it does not. */
  lemma {:induction false} RecordedSplit(sids: seq<Id>, h: map<Id, Settlement>, h': map<Id, Settlement>, sid: Id, account: Pubkey)
    requires Distinct(sids) && sid !in h'
    requires forall id :: id in sids && id != sid ==> id in h && id in h' && h'[id] == h[id]
    ensures RecordedFor(sids, h, account) == RecordedFor(Without(sids, sid), h', account)
      + if sid in sids && sid in h && h[sid].account == account then h[sid].amount else 0
    decreases |sids|
  {
    hide Without, RecordedFor;
    if sids == [] {
      NothingRecorded(h, h', sid, account);
    } else {
      var n := |sids| - 1;
      var less, x := sids[..n], sids[n];
      assert sids == less + [x] && x !in less;
      RecordedSplit(less, h, h', sid, account);
      WithoutAppend(less, x, sid);
      RecordedNext(less, x, h, account);
      if x == sid {
        assert Without(less, sid) + [] == Without(less, sid);
      } else {
        assert x in sids && (sid in sids <==> sid in less);
        RecordedNext(Without(less, sid), x, h', account);
      }
    }
  }

  lemma NothingRecorded(h: map<Id, Settlement>, h': map<Id, Settlement>, sid: Id, account: Pubkey)
    ensures Without([], sid) == [] && RecordedFor([], h, account) == 0 && RecordedFor([], h', account) == 0
  {
  }

  lemma RecordedNext(sids: seq<Id>, x: Id, h: map<Id, Settlement>, account: Pubkey)
    ensures RecordedFor(sids + [x], h, account) == RecordedFor(sids, h, account) + if x in h && h[x].account == account then h[x].amount else 0
  {
    assert (sids + [x])[..|sids|] == sids;
  }

  /** What the vault pays for a settlement that was undone after its record was planned. */
  function Unmatched(v: Vault, vid: Id, sid: Id, ok: bool, sids: seq<Id>, account: Pubkey): nat
    requires vid in v.reservations && v.reservations[vid].provider in v.providers
  {
    if !ok && sid in sids && v.providers[v.reservations[vid].provider].account == account then v.reservations[vid].amount else 0
  }

  lemma UnmatchedPayout(k: Crypto, v: Vault, chunk: Chunk, h: map<Id, Settlement>, now: Time, batchId: nat, signature: Id,
                        account: Pubkey, sid: Id)
    requires Inv(k, v) && FreshSid(v, sid) && Distinct(SidsOf(chunk.entries))
    requires forall e :: e in chunk.entries ==> Faithful(e, h, now)
    requires forall id :: id in SidsOf(chunk.entries) && id != sid ==> id in h && id in v.history && v.history[id] == h[id]
    ensures var paid := ApplyBatchConfirmation(v, SidsOf(chunk.entries), batchId, signature);
      PaidTo(chunk.entries, account) == Sum(v.credits, OwedOn(account)) - Sum(paid.credits, OwedOn(account))
        + if sid in SidsOf(chunk.entries) && sid in h && h[sid].account == account then h[sid].amount else 0
  {
    hide Inv, ApplyBatchConfirmation, SidsOf, PaidTo, RecordedFor;
    var sids := SidsOf(chunk.entries);
    WithoutMembers(sids, sid);
    WithoutDistinct(sids, sid);
    UnknownUnpaid(v, sids, batchId, signature, sid);
    PayoutIsExact(k, v, Without(sids, sid), batchId, signature, account);
    TransfersRecorded(chunk.entries, h, now, account);
    RecordedSplit(sids, h, v.history, sid, account);
  }

  /** What becomes of the records a chunk was planned from. */
  lemma RecordsAfter(k: Crypto, v: Vault, vid: Id, sid: Id, now: Time, ok: bool, credited: seq<Plan>, recorded: seq<Plan>, undoing: seq<Plan>)
    requires Underway(k, v, vid, sid, now) && FitAmid(v, vid, sid, now, ok, credited, recorded, undoing)
    ensures vid in v.reservations && v.reservations[vid].provider in v.providers
    ensures var v' := SettleAmid(v, vid, sid, now, ok, credited, recorded, undoing).v;
      v'.history == (if ok then SettlingRecord(v, vid, sid, now) else v.history) && (!ok ==> FreshSid(v', sid))
  {
    hide Inv, SettleAmid, SettleStep, CreditsAmid, CreditsUndoing, FitAmid, CreditedWith, CreditedAt, Rolled, FreshSid;
    UnderwayFacts(k, v, vid, sid, now);
    AmidShape(k, v, vid, sid, now, ok, credited, recorded, undoing);
    if ok { CommitCredits(k, v, vid, sid, now); } else { UndoneFresh(k, v, vid, sid, now, credited, recorded, undoing); }
  }

  /** Undoing takes the id out of the provider's credit, where a pass has not. */
  lemma UndoneFresh(k: Crypto, v: Vault, vid: Id, sid: Id, now: Time, credited: seq<Plan>, recorded: seq<Plan>, undoing: seq<Plan>)
    requires Underway(k, v, vid, sid, now) && FitAmid(v, vid, sid, now, false, credited, recorded, undoing)
    ensures vid in v.reservations
    ensures var r := v.reservations[vid];
      FreshSid(v.(credits := Rolled(CreditsUndoing(v, vid, sid, now, credited, recorded, undoing), r.provider, r.amount, sid)), sid)
  {
    hide Inv, CreditsUndoing, FitAmid, CreditedWith, CreditedAt;
    UnderwayFacts(k, v, vid, sid, now);
    UndoingFound(k, v, vid, sid, now, credited, recorded, undoing);
    var r, credits' := v.reservations[vid], CreditsUndoing(v, vid, sid, now, credited, recorded, undoing);
    forall q | q in credits' && q != r.provider ensures sid !in credits'[q].ids { assert q in v.credits; }
    if r.provider in credits' { WithoutMembers(credits'[r.provider].ids, sid); }
  }

  /**
   * Payout conservation for a batch planned while a settlement is under way, at any of its moments. Let the settlement
   * end, let anything happen that confirms none of the chunk, then confirm it. The transfer to each token account is the
   * drop in what the vault owes on it, and more only if the settlement was undone and the chunk pays it: then it
   * is more by exactly that settlement, which no credit accounts for.
   */
  lemma AmidIsPaid(k: Crypto, v: Vault, vid: Id, sid: Id, now: Time, ok: bool, credited: seq<Plan>, recorded: seq<Plan>, undoing: seq<Plan>,
                   chunk: Chunk, plannedAt: Time, moves: seq<Move>, batchId: nat, signature: Id, account: Pubkey)
    requires Underway(k, v, vid, sid, now) && FitAmid(v, vid, sid, now, ok, credited, recorded, undoing) && Harmless(v, vid, now, ok, credited, undoing)
    requires vid in v.reservations && v.reservations[vid].provider in v.providers
    requires var h := SettlingRecord(v, vid, sid, now);
      Distinct(SidsOf(chunk.entries)) && forall e :: e in chunk.entries ==> Faithful(e, h, plannedAt)
    requires var v1 := SettleAmid(v, vid, sid, now, ok, credited, recorded, undoing).v; AllowedRun(k, v1, moves) && UnharmedRun(k, v1, moves)
    requires forall m :: m in moves ==> Spares(Plain(m), SidsOf(chunk.entries))
    requires !ok ==> forall m :: m in moves ==> Drawn(Plain(m)) != Some(sid)
    ensures var later := Ran(k, SettleAmid(v, vid, sid, now, ok, credited, recorded, undoing).v, moves).v;
      var paid := ApplyBatchConfirmation(later, SidsOf(chunk.entries), batchId, signature);
      PaidTo(chunk.entries, account) == Sum(later.credits, OwedOn(account)) - Sum(paid.credits, OwedOn(account))
        + Unmatched(v, vid, sid, ok, SidsOf(chunk.entries), account)
  {
    hide Inv, Underway, SettleAmid, FitAmid, Harmless, Ran, AllowedRun, UnharmedRun, Throughout, Spares, ApplyBatchConfirmation, SidsOf, PaidTo, FreshSid;
    var v1, h, sids := SettleAmid(v, vid, sid, now, ok, credited, recorded, undoing).v, SettlingRecord(v, vid, sid, now), SidsOf(chunk.entries);
    UnderwayParts(k, v, vid, sid, now);
    SettleAmidExact(k, v, vid, sid, now, ok, credited, recorded, undoing);
    RecordsAfter(k, v, vid, sid, now, ok, credited, recorded, undoing);
    BusyExact(k, v1, moves);
    ThroughoutEnds(k, v1, moves);
    RanKeepsRecords(k, v1, moves, sids);
    var later := Ran(k, v1, moves).v;
    ChunkRecorded(chunk.entries, h, plannedAt);
    if ok {
      forall e | e in chunk.entries ensures Faithful(e, later.history, plannedAt) { InSids(chunk.entries, e); }
      TransfersMatchCredits(k, later, chunk, plannedAt, batchId, signature, account);
    } else {
      RanFresh(k, v1, moves, sid);
      UnmatchedPayout(k, later, chunk, h, plannedAt, batchId, signature, account, sid);
    }
  }

  /**
   * The same for a batch planned between two steps or during a closing, with passes inside other steps until it is
   * confirmed: planning adds no record, so the chunk is made of records the vault already had.
   */
  lemma BusyIsPaid(k: Crypto, v: Vault, chunk: Chunk, plannedAt: Time, moves: seq<Move>, batchId: nat, signature: Id, account: Pubkey)
    requires Inv(k, v) && Payable(v, SidsOf(chunk.entries)) && forall e :: e in chunk.entries ==> Faithful(e, v.history, plannedAt)
    requires AllowedRun(k, v, moves) && UnharmedRun(k, v, moves) && forall m :: m in moves ==> Spares(Plain(m), SidsOf(chunk.entries))
    ensures var later := Ran(k, v, moves).v;
      var paid := ApplyBatchConfirmation(later, SidsOf(chunk.entries), batchId, signature);
      PaidTo(chunk.entries, account) == Sum(later.credits, OwedOn(account)) - Sum(paid.credits, OwedOn(account))
  {
    hide Inv, Ran, AllowedRun, UnharmedRun, Throughout, Spares, ApplyBatchConfirmation, SidsOf, PaidTo;
    BusyExact(k, v, moves);
    ThroughoutEnds(k, v, moves);
    RanKeepsRecords(k, v, moves, SidsOf(chunk.entries));
    var later := Ran(k, v, moves).v;
    forall e | e in chunk.entries ensures Faithful(e, later.history, plannedAt) { InSids(chunk.entries, e); }
    TransfersMatchCredits(k, later, chunk, plannedAt, batchId, signature, account);
  }

  lemma UnderwayParts(k: Crypto, v: Vault, vid: Id, sid: Id, now: Time)
    requires Underway(k, v, vid, sid, now)
    ensures Inv(k, v) && FreshSid(v, sid)
  {
  }

  lemma ChunkRecorded(entries: seq<Prepared>, h: map<Id, Settlement>, now: Time)
    requires forall e :: e in entries ==> Faithful(e, h, now)
    ensures AllRecorded(SidsOf(entries), h)
  {
    forall id | id in SidsOf(entries) ensures id in h {
      var i :| 0 <= i < |SidsOf(entries)| && SidsOf(entries)[i] == id;
      assert entries[i] in entries;
    }
  }
}
