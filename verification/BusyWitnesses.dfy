/** Runs from the empty vault in which a batch is planned during a settlement, or settlements come out of time order. */
module BusyWitnesses {
  import opened Prelude
  import opened Sums
  import opened VaultTypes
  import opened Ledger
  import opened CreditIndex
  import opened Steps
  import opened BatchSelect
  import opened RoundRobin
  import opened BatchChunks
  import opened CursorPass
  import opened Invariant
  import opened SettlementLemmas
  import opened Runs
  import opened BatchCursors
  import opened BatchPipeline
  import opened CreditStamps
  import opened InFlight
  import opened InFlightLosses
  import opened BusyRuns
  import opened InFlightPayouts
  import opened Witnesses

  // ---- One unit reserved ----

  function Reserving(p: Provider, c: Pubkey, signature: Id, a: Id, d: ReservationDetail): seq<Step>
  {
    Opening(p, c, 1, signature) + [Verify(a, a, c, p.providerId, 1, d, true)]
  }

  /** One open reservation, and no settlement yet. */
  ghost predicate OneReserved(v: Vault, p: Provider, c: Pubkey, a: Id, d: ReservationDetail)
  {
    && v.providers == map[p.providerId := p] && v.credits == map[] && v.history == map[]
    && v.reservations == map[a := NewReservation(a, a, c, p.providerId, 1, d)]
  }

  lemma ReservingRun(k: Crypto, p: Provider, c: Pubkey, signature: Id, a: Id, d: ReservationDetail)
    ensures var moves := Alones(Reserving(p, c, signature, a, d));
      && AllowedRun(k, EmptyVault, moves) && UnharmedRun(k, EmptyVault, moves)
      && Inv(k, Ran(k, EmptyVault, moves).v) && OneReserved(Ran(k, EmptyVault, moves).v, p, c, a, d)
  {
    hide Run, AdmissibleRun, Live, VerifyStep, Inv, Ran, AllowedRun, UnharmedRun;
    OpeningRun(k, p, c, 1, signature);
    VerifyFacts(Opened(p, c, 1, signature), a, c, p.providerId, 1, d);
    VerifyLive(k, Opened(p, c, 1, signature), a, c, p.providerId, 1, d);
    RunSnoc(k, EmptyVault, Opening(p, c, 1, signature), Verify(a, a, c, p.providerId, 1, d, true));
    AloneRuns(k, EmptyVault, Reserving(p, c, signature, a, d));
    EmptyKeeps(k);
    RunKeeps(k, EmptyVault, Reserving(p, c, signature, a, d));
  }

  lemma SettlingFacts(k: Crypto, v: Vault, p: Provider, c: Pubkey, a: Id, sid: Id, d: ReservationDetail, now: Time)
    requires Inv(k, v) && OneReserved(v, p, c, a, d) && now <= d.expiresAt
    ensures Underway(k, v, a, sid, now)
    ensures CreditedAt(v, a, sid, now) == v.(clients := CreditedAt(v, a, sid, now).clients,
                                             credits := map[p.providerId := Credit(p.providerId, p.account, 1, now, [sid])])
  {
    hide Inv, SettlePayment;
    UnderwayFacts(k, v, a, sid, now);
    assert [] + [sid] == [sid];
  }

  // ---- A pass between a settlement's credit and its record ----

  lemma OnePassFits(v: Vault, p: Id, plan: Plan)
    requires v.credits.Keys == {p} && v.credits[p].amount == 1 && plan.order == [p]
    ensures Fit(v, [plan])
  {
    assert Plans(v, []) == v && Fit(v, []) && [plan][..0] == [];
  }

  /**
   * Every credit is backed, and still the settlement that is committed leaves nothing owed to its provider: its unit is
   * neither held, owed nor paid out, and the invariant is lost.
   */
  lemma AmidPruneReached(k: Crypto, p: Provider, c: Pubkey, signature: Id, a: Id, sid: Id, d: ReservationDetail, now: Time, plan: Plan)
    requires now <= d.expiresAt && plan.order == [p.providerId]
    ensures var before := Alones(Reserving(p, c, signature, a, d));
      var moves := before + [WhileSettling(a, sid, now, true, [plan], [], [])];
      var v, v' := Ran(k, EmptyVault, before).v, Ran(k, EmptyVault, moves).v;
      && AllowedRun(k, EmptyVault, moves) && AllBacked(v)
      && v'.credits == map[] && Lost(v') == Lost(v) + 1 && !Inv(k, v')
  {
    hide Ran, AllowedRun, UnharmedRun, Inv, Lost, Fit, Plans, Made, SettleStep, FitAmid, CreditsAmid, CreditedAt, RecordedAt, Reserving;
    var before := Alones(Reserving(p, c, signature, a, d));
    var v, m := Ran(k, EmptyVault, before).v, WhileSettling(a, sid, now, true, [plan], [], []);
    ReservingRun(k, p, c, signature, a, d);
    SettlingFacts(k, v, p, c, a, sid, d, now);
    FirstFits(k, v, p, c, a, sid, d, now, plan);
    MoveExact(k, v, m);
    RanSnoc(k, EmptyVault, before, m);
    SettledAmid(k, v, p, c, a, sid, d, now, plan);
  }

  lemma FirstFits(k: Crypto, v: Vault, p: Provider, c: Pubkey, a: Id, sid: Id, d: ReservationDetail, now: Time, plan: Plan)
    requires Inv(k, v) && OneReserved(v, p, c, a, d) && now <= d.expiresAt && plan.order == [p.providerId]
    ensures FitAmid(v, a, sid, now, true, [plan], [], [])
  {
    hide Inv, CreditedAt, RecordedAt;
    SettlingFacts(k, v, p, c, a, sid, d, now);
    OnePassFits(CreditedAt(v, a, sid, now), p.providerId, plan);
  }

  lemma SettledAmid(k: Crypto, v: Vault, p: Provider, c: Pubkey, a: Id, sid: Id, d: ReservationDetail, now: Time, plan: Plan)
    requires Inv(k, v) && OneReserved(v, p, c, a, d) && now <= d.expiresAt && FitAmid(v, a, sid, now, true, [plan], [], [])
    ensures Made(k, v, WhileSettling(a, sid, now, true, [plan], [], [])).v.credits == map[]
    ensures AmidLoss(v, a, now, true, [plan], [], []) == 1
  {
    hide Inv, SettleAmid, SettleStep, Fit, CreditsAmid, CreditedAt, RecordedAt;
    SettlingFacts(k, v, p, c, a, sid, d, now);
    AmidShape(k, v, a, sid, now, true, [plan], [], []);
    FirstDecides(k, v, a, sid, now, [plan], []);
    var credits' := CreditsAmid(v, a, sid, now, [plan], []);
    assert HistSum([sid], v.history) == HistSum([], v.history);
    var x := CreditedAt(v, a, sid, now).credits;
    forall q ensures Find(credits', q) == None {
      assert q in x ==> q == p.providerId && sid in x[q].ids;
    }
    NoneLeft(credits');
  }

  lemma NoneLeft(credits: map<Id, Credit>)
    requires forall q :: Find(credits, q) == None
    ensures credits == map[]
  {
    SameCredits(credits, map[]);
  }

  // ---- A batch planned while the append is outstanding ----

  lemma OneChosen(candidate: Candidate, at: Time, config: Config)
    ensures Chosen([candidate], at, Flush, config) == Some(Selection([candidate.id], OldestOf([candidate])))
  {
    var one := [candidate];
    assert one[..|one| - 1] == [] && Kept([], at, Flush, config) == [] && Ids([]) == [];
    assert Kept(one, at, Flush, config) == one;
    assert Ids(one) == [candidate.id];
  }

  lemma OneCursor(v: Vault, p: Id, sid: Id, at: Time, config: Config) returns (cursor: Cursor)
    requires Plannable(v) && p in v.credits && v.credits[p].ids == [sid] && sid in v.history
    ensures PassOver(v, [p], at, Flush, config).cursors == [cursor] && cursor.provider == p && cursor.ids == [sid]
  {
    hide Owner, Chosen, Scanned;
    assert CreditPlannable(v, v.credits[p]);
    ScanLeaves(v, p, [sid]);
    var candidate := CandidateOf(sid, v.history[sid]);
    var one := [sid];
    assert one[..|one| - 1] == [] && Candidates([], v.history) == [];
    assert Candidates(one, v.history) == [candidate];
    OneChosen(candidate, at, config);
    cursor := Cursor(p, OldestOf([candidate]), [sid]);
    var order := [p];
    assert order[..|order| - 1] == [] && PassOver(v, [], at, Flush, config) == Pass(v, [], []);
    assert PassOver(v, order, at, Flush, config).cursors == [] + [cursor];
  }

  lemma OneServed(cursor: Cursor, sid: Id)
    requires cursor.ids == [sid]
    ensures InTurns(Served([cursor]), [Pick(cursor.provider, sid)])
  {
    var one := [cursor];
    assert one[..|one| - 1] == [] && NonEmpty([]) == [] && NonEmpty(one) == [cursor];
    assert Sorting.Sorted([], Earlier) == [] && Sorting.Sorted(one, Earlier) == [cursor];
    assert PickedAt(one, 0, 0) == [] && PickedAt(one, 0, 1) == [Pick(cursor.provider, sid)];
    assert TurnsAt(Served(one), 0, 1, [Pick(cursor.provider, sid)]);
  }

  /** The pass of a flush finds the settlement's record, and the batch is that one settlement. */
  lemma FlushPicks(v: Vault, p: Id, sid: Id, at: Time, config: Config)
    requires Plannable(v) && p in v.credits && v.credits[p].ids == [sid] && sid in v.history
    ensures Selected(v, [p], at, Flush, config, [Pick(p, sid)])
    ensures Prepare([Pick(p, sid)], v.history, at) == [EntryFor(Pick(p, sid), v.history, at)]
  {
    hide Plannable, PassOver, Served, InTurns;
    var cursor := OneCursor(v, p, sid, at, config);
    OneServed(cursor, sid);
    var picks := [Pick(p, sid)];
    assert picks[..|picks| - 1] == [] && Prepare([], v.history, at) == [];
  }

  lemma SecondFacts(k: Crypto, v: Vault, p: Provider, c: Pubkey, a: Id, sid: Id, d: ReservationDetail, now: Time, plan: Plan)
    requires Inv(k, v) && OneReserved(v, p, c, a, d) && now <= d.expiresAt && plan.order == [p.providerId]
    ensures Underway(k, v, a, sid, now) && FitAmid(v, a, sid, now, false, [], [plan], [])
    ensures var y := RecordedAt(v, a, sid, now, []);
      && Plannable(y) && y.credits == map[p.providerId := Credit(p.providerId, p.account, 1, now, [sid])]
      && y.history == SettlingRecord(v, a, sid, now)
  {
    hide Inv, Plannable, CreditedAt, RecordedAt;
    SettlingFacts(k, v, p, c, a, sid, d, now);
    var x := CreditedAt(v, a, sid, now);
    assert Plans(x, []) == x && Fit(x, []);
    RecordedShape(k, v, a, sid, now, []);
    RecordedPlannable(k, v, a, sid, now, []);
    OnePassFits(RecordedAt(v, a, sid, now, []), p.providerId, plan);
  }

  /**
   * A flush planned while a settlement waits for its append pays the settlement out. The append fails, the settlement is
   * undone, and confirming the batch finds nothing to deduct the transfer from.
   */
  lemma UnmatchedReached(k: Crypto, p: Provider, c: Pubkey, signature: Id, a: Id, sid: Id, d: ReservationDetail, now: Time, at: Time,
                         config: Config, batchId: nat, transaction: Id)
    requires now <= d.expiresAt
    ensures var before := Alones(Reserving(p, c, signature, a, d));
      var plan := Plan([p.providerId], at, Flush, config);
      var moves := before + [WhileSettling(a, sid, now, false, [], [plan], [])];
      var v, v' := Ran(k, EmptyVault, before).v, Ran(k, EmptyVault, moves).v;
      var entry := Prepared(sid, p.providerId, p.account, 1, at);
      && AllowedRun(k, EmptyVault, moves) && a in v.reservations
      && var y := RecordedAt(v, a, sid, now, []);
      && Selected(y, plan.order, at, Flush, config, [Pick(p.providerId, sid)])
      && Prepare([Pick(p.providerId, sid)], y.history, at) == [entry]
      && PaidTo([entry], p.account) == 1
      && var paid := ApplyBatchConfirmation(v', SidsOf([entry]), batchId, transaction);
      && Sum(paid.credits, OwedOn(p.account)) == Sum(v'.credits, OwedOn(p.account))
  {
    hide Ran, AllowedRun, UnharmedRun, Inv, Made, SettleAmid, FitAmid, RecordedAt, Reserving, Selected, ApplyBatchConfirmation, Fit, Plans, Plannable;
    var before := Alones(Reserving(p, c, signature, a, d));
    var plan := Plan([p.providerId], at, Flush, config);
    var v, m := Ran(k, EmptyVault, before).v, WhileSettling(a, sid, now, false, [], [plan], []);
    ReservingRun(k, p, c, signature, a, d);
    SecondFacts(k, v, p, c, a, sid, d, now, plan);
    RanSnoc(k, EmptyVault, before, m);
    FlushPicks(RecordedAt(v, a, sid, now, []), p.providerId, sid, at, config);
    UnmatchedUnit(k, v, p, c, a, sid, d, now, at, plan, batchId, transaction);
  }

  lemma UnmatchedUnit(k: Crypto, v: Vault, p: Provider, c: Pubkey, a: Id, sid: Id, d: ReservationDetail, now: Time, at: Time, plan: Plan,
                      batchId: nat, transaction: Id)
    requires Inv(k, v) && OneReserved(v, p, c, a, d) && now <= d.expiresAt && plan.order == [p.providerId]
    ensures var entry := Prepared(sid, p.providerId, p.account, 1, at);
      var v' := Made(k, v, WhileSettling(a, sid, now, false, [], [plan], [])).v;
      var paid := ApplyBatchConfirmation(v', SidsOf([entry]), batchId, transaction);
      PaidTo([entry], p.account) == 1 && Sum(paid.credits, OwedOn(p.account)) == Sum(v'.credits, OwedOn(p.account))
  {
    hide Inv, SettleAmid, FitAmid, RecordedAt, ApplyBatchConfirmation, Plannable, Fit;
    var entries := [Prepared(sid, p.providerId, p.account, 1, at)];
    SecondFacts(k, v, p, c, a, sid, d, now, plan);
    var v' := SettleAmid(v, a, sid, now, false, [], [plan], []).v;
    assert Ran(k, v', []) == Idle(v') && AllowedRun(k, v', []) && UnharmedRun(k, v', []);
    assert SidsOf(entries) == [sid];
    AmidIsPaid(k, v, a, sid, now, false, [], [plan], [], Chunk(0, entries), at, [], batchId, transaction, p.account);
    assert entries[..|entries| - 1] == [] && PaidTo([], p.account) == 0;
    assert PaidTo(entries, p.account) == 1;
  }

  // ---- Settlements out of time order ----

  function ReservingTwo(p: Provider, c: Pubkey, signature: Id, a: Id, b: Id, d: ReservationDetail): seq<Step>
  {
    Opening(p, c, 2, signature) + [Verify(a, a, c, p.providerId, 1, d, true)] + [Verify(b, b, c, p.providerId, 1, d, true)]
  }

  ghost predicate TwoReserved(v: Vault, p: Provider, c: Pubkey, a: Id, b: Id, d: ReservationDetail)
  {
    && v.providers == map[p.providerId := p] && v.credits == map[] && v.history == map[]
    && v.reservations == map[a := NewReservation(a, a, c, p.providerId, 1, d), b := NewReservation(b, b, c, p.providerId, 1, d)]
  }

  lemma ReservingTwoRun(k: Crypto, p: Provider, c: Pubkey, signature: Id, a: Id, b: Id, d: ReservationDetail)
    requires a != b
    ensures var steps := ReservingTwo(p, c, signature, a, b, d);
      AdmissibleRun(k, EmptyVault, steps) && TwoReserved(Run(k, EmptyVault, steps).v, p, c, a, b, d)
  {
    hide Run, AdmissibleRun, Live, VerifyStep;
    var first := Opening(p, c, 2, signature);
    var second := first + [Verify(a, a, c, p.providerId, 1, d, true)];
    OpeningRun(k, p, c, 2, signature);
    VerifyFacts(Opened(p, c, 2, signature), a, c, p.providerId, 1, d);
    VerifyLive(k, Opened(p, c, 2, signature), a, c, p.providerId, 1, d);
    RunSnoc(k, EmptyVault, first, Verify(a, a, c, p.providerId, 1, d, true));
    var v := Run(k, EmptyVault, second).v;
    VerifyFacts(v, b, c, p.providerId, 1, d);
    VerifyLive(k, v, b, c, p.providerId, 1, d);
    RunSnoc(k, EmptyVault, second, Verify(b, b, c, p.providerId, 1, d, true));
  }

  /** What one more settlement of a single unit writes. */
  lemma SettleUnit(k: Crypto, v: Vault, vid: Id, sid: Id, now: Time)
    requires Inv(k, v) && FreshSid(v, sid) && Settles(v, vid, now)
    ensures v.reservations[vid].provider in v.providers && Live(k, v, Settle(vid, sid, now, true)).v.providers == v.providers
    ensures var v' := Live(k, v, Settle(vid, sid, now, true)).v;
      && v'.credits == v.credits[v.reservations[vid].provider := SettlingCredit(v, vid, sid, now)]
      && v'.history == SettlingRecord(v, vid, sid, now) && v'.reservations == Settling(v, vid, sid, now)
  {
    hide Inv, SettleStep, FreshSid, CreditedWith;
    SettleLive(k, v, vid, sid, now, true);
    CommitCredits(k, v, vid, sid, now);
  }

  /** The first of the two is settled. */
  ghost predicate OneSettled(v: Vault, p: Provider, c: Pubkey, a: Id, b: Id, sid: Id, d: ReservationDetail, now: Time)
  {
    && v.providers == map[p.providerId := p] && v.credits == map[p.providerId := Credit(p.providerId, p.account, 1, now, [sid])]
    && v.history.Keys == {sid} && b in v.reservations && v.reservations[b] == NewReservation(b, b, c, p.providerId, 1, d)
    && v.reservations.Keys == {a, b} && v.reservations[a].settlementId == Some(sid)
  }

  lemma FirstSettled(k: Crypto, p: Provider, c: Pubkey, signature: Id, a: Id, b: Id, sid: Id, d: ReservationDetail, now: Time)
    requires a != b && now <= d.expiresAt
    ensures var steps := ReservingTwo(p, c, signature, a, b, d) + [Settle(a, sid, now, true)];
      AdmissibleRun(k, EmptyVault, steps) && OneSettled(Run(k, EmptyVault, steps).v, p, c, a, b, sid, d, now)
  {
    hide Run, AdmissibleRun, Live, Inv, ReservingTwo;
    var first := ReservingTwo(p, c, signature, a, b, d);
    ReservingTwoRun(k, p, c, signature, a, b, d);
    EmptyKeeps(k);
    RunKeeps(k, EmptyVault, first);
    SettleUnit(k, Run(k, EmptyVault, first).v, a, sid, now);
    RunSnoc(k, EmptyVault, first, Settle(a, sid, now, true));
    assert [] + [sid] == [sid];
  }

  /** The later time is taken before the lock and committed first, so the credit is stamped younger than what it owes. */
  lemma LateStampReached(k: Crypto, p: Provider, c: Pubkey, signature: Id, a: Id, b: Id, sid: Id, sid': Id, d: ReservationDetail,
                         early: Time, late: Time)
    requires a != b && sid != sid' && early < late <= d.expiresAt
    ensures var steps := ReservingTwo(p, c, signature, a, b, d) + [Settle(a, sid, late, true)] + [Settle(b, sid', early, true)];
      var v := Run(k, EmptyVault, steps).v;
      && AdmissibleRun(k, EmptyVault, steps)
      && p.providerId in v.credits && v.credits[p.providerId].oldestAt == late && v.credits[p.providerId].ids == [sid, sid']
      && sid' in v.history && v.history[sid'].timestamp == early
      && !StampsOk(v.credits, v.history)
  {
    hide Run, AdmissibleRun, Live, Inv, ReservingTwo, Stamped;
    var steps := ReservingTwo(p, c, signature, a, b, d) + [Settle(a, sid, late, true)];
    FirstSettled(k, p, c, signature, a, b, sid, d, late);
    EmptyKeeps(k);
    RunKeeps(k, EmptyVault, steps);
    SettleUnit(k, Run(k, EmptyVault, steps).v, b, sid', early);
    RunSnoc(k, EmptyVault, steps, Settle(b, sid', early, true));
    var v := Run(k, EmptyVault, steps + [Settle(b, sid', early, true)]).v;
    assert v.credits[p.providerId].ids == [sid] + [sid'];
    TooYoung(v.credits[p.providerId], v.history, sid');
  }

  lemma TooYoung(credit: Credit, h: map<Id, Settlement>, id: Id)
    requires id in credit.ids && id in h && h[id].timestamp < credit.oldestAt && AllRecorded(credit.ids, h)
    ensures !Stamped(credit, h)
  {
    EarliestIsMin(credit.ids, h);
  }
}
