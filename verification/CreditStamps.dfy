/** A credit's age: with settlements in time order, `oldest_credit_at` is the earliest time its settlements record. */
module CreditStamps {
  import opened Prelude
  import opened VaultTypes
  import opened Ledger
  import opened Channels
  import opened CreditIndex
  import opened Steps
  import opened Invariant
  import opened SettlementLemmas
  import opened BatchLemmas
  import opened Preservation
  import opened RecoveryRuns
  import opened Runs
  import opened StepFrames
  import opened BatchSelect
  import opened CursorPass
  import opened BatchCursors

  /** Backed by reservations only: every id has a history record. */
  ghost predicate Stamped(credit: Credit, h: map<Id, Settlement>)
  {
    AllRecorded(credit.ids, h) ==> Earliest(credit.ids, h) == Some(credit.oldestAt)
  }

  ghost predicate StampsOk(credits: map<Id, Credit>, h: map<Id, Settlement>)
  {
    forall p :: p in credits ==> Stamped(credits[p], h)
  }

  lemma EarliestIs(ids: seq<Id>, h: map<Id, Settlement>, t: Time)
    requires forall id :: id in ids && id in h ==> t <= h[id].timestamp
    requires exists id :: id in ids && id in h && h[id].timestamp == t
    ensures Earliest(ids, h) == Some(t)
  {
    EarliestIsMin(ids, h);
  }

  /** Records of ids that are not listed do not matter. */
  lemma StampedFrame(credit: Credit, h: map<Id, Settlement>, h': map<Id, Settlement>)
    requires forall id :: id in credit.ids ==> (id in h <==> id in h') && (id in h ==> h[id] == h'[id])
    ensures Stamped(credit, h) <==> Stamped(credit, h')
  {
    EarliestFrame(credit.ids, h, h');
  }

  /** Adding a settlement to a credit keeps its stamp exactly when the new one is not older. */
  lemma StampExtended(credit: Credit, h: map<Id, Settlement>, record: Settlement, more: nat)
    requires Stamped(credit, h) && AllRecorded(credit.ids, h) && credit.ids != []
    requires record.settlementId !in h && record.settlementId !in credit.ids
    ensures Stamped(credit.(amount := more, ids := credit.ids + [record.settlementId]), h[record.settlementId := record])
      <==> credit.oldestAt <= record.timestamp
  {
    var sid := record.settlementId;
    var ids', h' := credit.ids + [sid], h[sid := record];
    assert forall id :: id in ids' <==> id in credit.ids || id == sid;
    EarliestIsMin(credit.ids, h);
    EarliestIsMin(ids', h');
    if credit.oldestAt <= record.timestamp {
      var id :| id in credit.ids && id in h && h[id].timestamp == credit.oldestAt;
      assert id in ids' && h'[id].timestamp == credit.oldestAt;
      EarliestIs(ids', h', credit.oldestAt);
    } else {
      assert sid in ids' && sid in h';
    }
  }

  /** A credit that already lists a channel closing has no stamp to keep. */
  lemma UnrecordedStays(credit: Credit, h: map<Id, Settlement>, sid: Id, record: Settlement, more: nat)
    requires !AllRecorded(credit.ids, h) && sid !in credit.ids
    ensures Stamped(credit.(amount := more, ids := credit.ids + [sid]), h[sid := record])
  {
    var id :| id in credit.ids && id !in h;
    assert id in credit.ids + [sid] && id !in h[sid := record];
  }

  lemma FirstStamp(p: Id, account: Pubkey, amount: nat, h: map<Id, Settlement>, record: Settlement)
    ensures Stamped(Credit(p, account, amount, record.timestamp, [record.settlementId]), h[record.settlementId := record])
  {
    var sid := record.settlementId;
    assert sid in [sid];
    EarliestIs([sid], h[sid := record], record.timestamp);
  }

  /** Nothing is settled before something already settled. */
  ghost predicate InTime(v: Vault, s: Step)
  {
    s.Settle? ==> forall sid :: sid in v.history ==> v.history[sid].timestamp <= s.now
  }

  lemma StampBounded(credit: Credit, h: map<Id, Settlement>, now: Time)
    requires Stamped(credit, h) && AllRecorded(credit.ids, h) && credit.ids != []
    requires forall sid :: sid in h ==> h[sid].timestamp <= now
    ensures credit.oldestAt <= now
  {
    EarliestIsMin(credit.ids, h);
  }

  lemma SettleStamps(k: Crypto, v: Vault, vid: Id, sid: Id, now: Time)
    requires Inv(k, v) && FreshSid(v, sid) && StampsOk(v.credits, v.history)
    requires forall x :: x in v.history ==> v.history[x].timestamp <= now
    requires SettleStep(v, vid, sid, now, true).entries != []
    ensures var v' := SettleStep(v, vid, sid, now, true).v; StampsOk(v'.credits, v'.history)
  {
    hide SettleStep, MoneyOk, IndexOk, HistoryOk, CreditsOk, ListedOk, ChannelsOk, Stamped;
    Recovery.SettleShape(v, vid, sid, now);
    var r, v' := v.reservations[vid], SettleStep(v, vid, sid, now, true).v;
    var p, record := r.provider, Settlement(sid, r.client, v.providers[r.provider].account, r.amount, now);
    forall q | q in v'.credits ensures Stamped(v'.credits[q], v'.history) {
      if q != p {
        StampedFrame(v.credits[q], v.history, v'.history);
      } else if p !in v.credits {
        assert v'.credits[p] == Credit(p, v.providers[p].account, r.amount, now, [sid]) by { assert [] + [sid] == [sid]; }
        FirstStamp(p, v.providers[p].account, r.amount, v.history, record);
      } else {
        var credit := v.credits[p];
        if AllRecorded(credit.ids, v.history) {
          StampBounded(credit, v.history, now);
          StampExtended(credit, v.history, record, credit.amount + r.amount);
        } else {
          UnrecordedStays(credit, v.history, sid, record, credit.amount + r.amount);
        }
      }
    }
  }

  lemma CloseStamps(k: Crypto, v: Vault, id: Id, sid: Id, now: Time)
    requires Inv(k, v) && FreshSid(v, sid) && StampsOk(v.credits, v.history) && Closable(v, id)
    ensures StampsOk(Closed(v, id, sid, now).credits, v.history)
  {
    hide MoneyOk, IndexOk, HistoryOk, CreditsOk, ListedOk, ChannelsOk, LockedUntil;
    var p, v' := v.channels[id].provider, Closed(v, id, sid, now);
    if v.channels[id].earned > 0 {
      assert sid in v'.credits[p].ids && sid !in v.history;
    }
  }

  lemma ConfirmStamps(k: Crypto, v: Vault, sids: seq<Id>, batchId: nat, signature: Id)
    requires Inv(k, v) && Payable(v, sids) && StampsOk(v.credits, v.history)
    ensures var v' := ApplyBatchConfirmation(v, sids, batchId, signature); StampsOk(v'.credits, v'.history)
  {
    hide MoneyOk, IndexOk, HistoryOk, ListedOk, ChannelsOk, ConfirmEach, TouchedEach, Stamped, Confirming, CreditsOk;
    var info := BatchInfo(batchId, signature);
    var v1, affected := ConfirmEach(v, sids, info), TouchedEach(v, sids, info);
    ConfirmingNow(k, v);
    ConfirmEachKeeps(v, sids, info);
    HistoryShrinks(v, sids, info);
    var credits' := Tidied(v1, affected);
    forall p | p in credits' ensures Stamped(credits'[p], v1.history) {
      if p in affected {
        RestampedStamp(v1.credits[p], v1.history);
      } else {
        UntouchedIds(v, sids, info, p);
        StampedFrame(v.credits[p], v.history, v1.history);
      }
    }
  }

  lemma RestampedStamp(credit: Credit, h: map<Id, Settlement>)
    requires !Spent(credit)
    ensures Stamped(Restamped(credit, h), h)
  {
    RestampedOnlyTime(credit, h);
    EarliestIsMin(credit.ids, h);
    if AllRecorded(credit.ids, h) { assert credit.ids[0] in credit.ids; }
  }

  lemma {:induction false} HistoryShrinks(v: Vault, sids: seq<Id>, info: BatchInfo)
    requires Confirming(v) && Payable(v, sids)
    ensures forall id :: id in ConfirmEach(v, sids, info).history ==> id in v.history && ConfirmEach(v, sids, info).history[id] == v.history[id]
    decreases |sids|
  {
    hide Confirming, ConfirmOne;
    if sids != [] {
      var n := |sids| - 1;
      assert forall id :: id in sids <==> id in sids[..n] || id == sids[n] by { assert sids == sids[..n] + [sids[n]]; }
      HistoryShrinks(v, sids[..n], info);
      ConfirmEachKeeps(v, sids[..n], info);
      OwnedWhenRecorded(ConfirmEach(v, sids[..n], info), sids[n]);
      ConfirmOneAside(ConfirmEach(v, sids[..n], info), sids[n], info);
    }
  }

  /** A credit the confirmation does not touch lists none of its ids. */
  lemma UntouchedIds(v: Vault, sids: seq<Id>, info: BatchInfo, p: Id)
    requires Confirming(v) && Payable(v, sids) && p in v.credits && p !in TouchedEach(v, sids, info)
    ensures forall id :: id in v.credits[p].ids ==> id !in sids
  {
    hide MoneyOk, IndexOk, ListedOk, HistSum, SidsUnique, RecordOf, TouchedEach, Owner;
    assert CreditOk(p, v.credits[p], v.reservations, v.history, v.providers);
    forall id | id in v.credits[p].ids && id in sids ensures false {
      TouchesOwner(v, sids, info, id);
    }
  }

  lemma {:induction false} TouchesOwner(v: Vault, sids: seq<Id>, info: BatchInfo, sid: Id)
    requires Confirming(v) && Payable(v, sids) && sid in sids
    ensures Owner(v.reservations, sid).Some?
    ensures v.reservations[Owner(v.reservations, sid).value].provider in TouchedEach(v, sids, info)
    decreases |sids|
  {
    hide Confirming, ConfirmOne, Owner;
    OwnedWhenRecorded(v, sid);
    var n := |sids| - 1;
    var less := sids[..n];
    assert forall id :: id in sids <==> id in less || id == sids[n] by { assert sids == less + [sids[n]]; }
    if sid in less {
      TouchesOwner(v, less, info, sid);
    } else {
      ConfirmEachKeeps(v, less, info);
      OwnedWhenRecorded(ConfirmEach(v, less, info), sid);
      SameOwner(v, less, info, sid);
    }
  }

  /** Confirming other ids changes neither who owns this one nor its provider. */
  lemma {:induction false} SameOwner(v: Vault, sids: seq<Id>, info: BatchInfo, sid: Id)
    requires Confirming(v) && Payable(v, sids) && Owner(v.reservations, sid).Some?
    ensures var rs' := ConfirmEach(v, sids, info).reservations;
      && Owner(rs', sid) == Owner(v.reservations, sid)
      && rs'[Owner(rs', sid).value].provider == v.reservations[Owner(v.reservations, sid).value].provider
    decreases |sids|
  {
    hide Confirming, ConfirmOne, Owner;
    if sids != [] {
      var n := |sids| - 1;
      assert forall id :: id in sids <==> id in sids[..n] || id == sids[n] by { assert sids == sids[..n] + [sids[n]]; }
      SameOwner(v, sids[..n], info, sid);
      ConfirmEachKeeps(v, sids[..n], info);
      OneSameOwner(ConfirmEach(v, sids[..n], info), sids[n], info, sid);
    }
  }

  lemma OneSameOwner(v: Vault, x: Id, info: BatchInfo, sid: Id)
    requires Confirming(v) && x in v.history && Owner(v.reservations, sid).Some?
    ensures var rs' := ConfirmOne(v, x, info).reservations;
      && Owner(rs', sid) == Owner(v.reservations, sid)
      && rs'[Owner(rs', sid).value].provider == v.reservations[Owner(v.reservations, sid).value].provider
  {
    hide MoneyOk, IndexOk, CreditsOk, ListedOk, Owner, ConfirmOne;
    PayingOwner(v, x);
    ConfirmOneShape(v, x, info);
    PaidOwners(v, Owner(v.reservations, x).value);
  }

  lemma PlanStamps(k: Crypto, v: Vault, order: seq<Id>, now: Time, mode: Mode, config: Config)
    requires Inv(k, v) && Listing(v, order) && StampsOk(v.credits, v.history)
    ensures var v' := Planned(v, order, now, mode, config); StampsOk(v'.credits, v'.history)
  {
    hide Inv, Planned, Listing, Stamped, HistSum, Earliest, Restamped, Backed;
    var v' := Planned(v, order, now, mode, config);
    PlannableNow(k, v);
    PassCleans(v, order, now, mode, config);
    forall p | p in v'.credits ensures Stamped(v'.credits[p], v'.history) {
      assert Find(v'.credits, p) == Some(v'.credits[p]);
      var credit := v.credits[p];
      if !AllRecorded(credit.ids, v.history) {
        BackedWeighs(credit.ids, v.history);
        WeighsMeansRecorded(Backed(credit.ids, v.history), v.history);
        RestampedStamp(credit.(ids := Backed(credit.ids, v.history), amount := HistSum(credit.ids, v.history)), v.history);
      }
    }
  }

  // ---- Whole runs ----

  lemma SettleStepStamps(k: Crypto, v: Vault, s: Step)
    requires Inv(k, v) && Admissible(v, s) && s.Settle? && InTime(v, s) && StampsOk(v.credits, v.history)
    ensures var v' := Live(k, v, s).v; StampsOk(v'.credits, v'.history)
  {
    hide SettleStep, Inv, FreshSid;
    var vid, sid := s.verificationId, s.settlementId;
    if vid in v.reservations && v.reservations[vid].status == Reserved && s.now <= v.reservations[vid].expiresAt {
      if s.ok {
        SettleLogs(k, v, vid, sid, s.now);
        SettleStamps(k, v, vid, sid, s.now);
      } else {
        SettleFailed(k, v, vid, sid, s.now);
        assert forall q :: q in v.credits - {v.reservations[vid].provider} ==> q in v.credits;
      }
    } else {
      SettleIdle(v, vid, sid, s.now, s.ok);
    }
  }

  lemma CloseStepStamps(k: Crypto, v: Vault, s: Step)
    requires Inv(k, v) && Admissible(v, s) && s.Close? && StampsOk(v.credits, v.history)
    ensures var v' := Live(k, v, s).v; StampsOk(v'.credits, v'.history)
  {
    hide CloseChannel, Inv, FreshSid, LockedUntil, Refresh, Stamped;
    var id, sid := s.channelId, s.settlementId;
    CloseNeverStuck(k, v, id, sid, s.now);
    if id in v.channels && v.channels[id].status == Open {
      ClosedShape(v, id, sid, s.now);
      CloseStamps(k, v, id, sid, s.now);
    }
  }

  lemma StepStamps(k: Crypto, v: Vault, s: Step)
    requires Inv(k, v) && Admissible(v, s) && InTime(v, s) && StampsOk(v.credits, v.history)
    ensures var v' := Live(k, v, s).v; StampsOk(v'.credits, v'.history)
  {
    hide Inv, StampsOk;
    if s.Settle? {
      SettleStepStamps(k, v, s);
    } else if s.Close? {
      CloseStepStamps(k, v, s);
    } else if s.ConfirmBatch? {
      ConfirmStamps(k, v, s.settlementIds, s.batchId, s.signature);
    } else if s.PlanBatch? {
      PlanStamps(k, v, s.order, s.now, s.mode, s.config);
    } else {
      StepWrites(k, v, s);
      WritesSpare(v, Live(k, v, s).v, s);
    }
  }

  ghost predicate InTimeRun(k: Crypto, steps: seq<Step>)
  {
    forall i :: 0 <= i < |steps| ==> InTime(Run(k, EmptyVault, steps[..i]).v, steps[i])
  }

  lemma {:induction false} RunStamps(k: Crypto, steps: seq<Step>)
    requires AdmissibleRun(k, EmptyVault, steps) && InTimeRun(k, steps)
    ensures var v := Run(k, EmptyVault, steps).v; StampsOk(v.credits, v.history)
    decreases |steps|
  {
    hide Inv, Live, Admissible, InTime, Stamped;
    if steps != [] {
      var n := |steps| - 1;
      assert forall i :: 0 <= i < n ==> steps[..n][..i] == steps[..i];
      RunStamps(k, steps[..n]);
      EmptyKeeps(k);
      RunKeeps(k, EmptyVault, steps[..n]);
      StepStamps(k, Run(k, EmptyVault, steps[..n]).v, steps[n]);
    }
  }

  /**
   * In every run whose settlements come in time order, a credit lists no id twice, each recorded one belongs to a settled
   * reservation of its provider, and the others to no reservation. It owes at least what the history records, and
   * exactly that if and only if every id is recorded; it is then as old as its oldest settlement.
   */
  lemma CreditsMatchHistory(k: Crypto, steps: seq<Step>, p: Id)
    requires AdmissibleRun(k, EmptyVault, steps) && InTimeRun(k, steps)
    requires p in Run(k, EmptyVault, steps).v.credits
    ensures var v := Run(k, EmptyVault, steps).v;
      var credit := v.credits[p];
      && Distinct(credit.ids) && credit.ids != [] && HistSum(credit.ids, v.history) <= credit.amount
      && (credit.amount == HistSum(credit.ids, v.history) <==> AllRecorded(credit.ids, v.history))
      && (AllRecorded(credit.ids, v.history) ==> Earliest(credit.ids, v.history) == Some(credit.oldestAt))
      && (forall id :: id in credit.ids ==> if id in v.history then SettledFor(v, id, p) else Owner(v.reservations, id).None?)
  {
    hide Run, AdmissibleRun, InTimeRun, MoneyOk, IndexOk, ChannelsOk, ListedOk, HistSum, Owner, SidsUnique, RecordOf;
    EmptyKeeps(k);
    RunKeeps(k, EmptyVault, steps);
    RunStamps(k, steps);
    var v := Run(k, EmptyVault, steps).v;
    assert CreditOk(p, v.credits[p], v.reservations, v.history, v.providers);
  }

  ghost predicate SettledFor(v: Vault, sid: Id, p: Id)
  {
    exists vid :: vid in v.reservations && SettledAs(v.reservations[vid], sid) && v.reservations[vid].provider == p
      && v.reservations[vid].status == SettledOffchain
  }
}
