/** What a whole run's log never repeats: chain events are counted once and settlements are paid out once. */
module Payouts {
  import opened Prelude
  import opened VaultTypes
  import opened Ledger
  import opened CreditIndex
  import opened Steps
  import opened Invariant
  import opened SettlementLemmas
  import opened BatchLemmas
  import opened Preservation
  import opened RecoveryRuns
  import opened Runs
  import opened StepFrames
  import opened LogTotals
  import RecoverObject

  // ---- Chain events ----

  lemma OnlyEventsPay(k: Crypto, v: Vault, s: Step)
    requires !s.Deposit? && !s.ObserveWithdraw?
    ensures forall i :: 0 <= i < |Live(k, v, s).entries| ==> !Pays(Live(k, v, s).entries[i])
  {
    hide Refresh, ApplyBatchConfirmation;
  }

  /** A deposit or withdrawal is logged only for a signature not seen before, which is then marked as seen. */
  lemma EventSeenOnce(k: Crypto, v: Vault, s: Step)
    requires Inv(k, v) && Admissible(v, s)
    ensures var step := Live(k, v, s);
      && v.processed <= step.v.processed
      && forall i :: 0 <= i < |step.entries| && Pays(step.entries[i]) ==>
           i == 0 && step.entries[i].signature !in v.processed && step.entries[i].signature in step.v.processed
  {
    hide Inv, Admissible, Live;
    StepWrites(k, v, s);
    if s.Deposit? {
      DepositSeen(k, v, s);
    } else if s.ObserveWithdraw? {
      WithdrawSeen(k, v, s);
    } else {
      OnlyEventsPay(k, v, s);
      WritesSpare(v, Live(k, v, s).v, s);
    }
  }

  lemma DepositSeen(k: Crypto, v: Vault, s: Step)
    requires s.Deposit?
    ensures var step := Live(k, v, s);
      && v.processed <= step.v.processed && |step.entries| <= 1
      && (step.entries != [] ==>
            step.entries[0].DepositApplied? && step.entries[0].signature !in v.processed && step.entries[0].signature in step.v.processed)
  {
    hide ApplyDeposit;
    ProcessedOnly(v, s.client, s.amount);
    if s.signature in v.processed {} else if !s.ok {} else {}
  }

  lemma ProcessedOnly(v: Vault, c: Pubkey, amount: nat)
    ensures ApplyDeposit(v, c, amount).processed == v.processed
  {
  }

  lemma WithdrawSeen(k: Crypto, v: Vault, s: Step)
    requires s.ObserveWithdraw?
    ensures var step := Live(k, v, s);
      && v.processed <= step.v.processed && |step.entries| <= 1
      && (step.entries != [] ==>
            step.entries[0].WithdrawApplied? && step.entries[0].signature !in v.processed && step.entries[0].signature in step.v.processed)
  {
    hide ApplyWithdrawal, Refresh, Matches;
    WithdrawalWrites(v, s.nonce);
    RefreshWrites(Processed(ApplyWithdrawal(v, s.nonce).v, s.signature, s.slot), s.client);
    if s.signature in v.processed {} else if ApplyWithdrawal(v, s.nonce).err.Some? {} else {}
  }

  ghost predicate EventsDistinct(log: seq<Entry>)
  {
    forall i, j :: 0 <= i < j < |log| && Pays(log[i]) && Pays(log[j]) ==> log[i].signature != log[j].signature
  }

  ghost predicate EventsSeen(log: seq<Entry>, v: Vault)
  {
    forall i :: 0 <= i < |log| && Pays(log[i]) ==> log[i].signature in v.processed
  }

  /** Over a whole run no chain event is logged twice: deposits are counted by distinct processed signatures. */
  lemma {:induction false} EventsCountedOnce(k: Crypto, steps: seq<Step>)
    requires AdmissibleRun(k, EmptyVault, steps)
    ensures var done := Run(k, EmptyVault, steps); EventsDistinct(done.entries) && EventsSeen(done.entries, done.v)
    decreases |steps|
  {
    hide Inv, Live, Admissible;
    if steps != [] {
      var n := |steps| - 1;
      var before := Run(k, EmptyVault, steps[..n]);
      EventsCountedOnce(k, steps[..n]);
      EmptyKeeps(k);
      RunKeeps(k, EmptyVault, steps[..n]);
      EventSeenOnce(k, before.v, steps[n]);
      var last := Live(k, before.v, steps[n]);
      var log := before.entries + last.entries;
      assert forall i :: |before.entries| <= i < |log| ==> log[i] == last.entries[i - |before.entries|];
    }
  }

  // ---- Payouts ----

  ghost predicate PaidKept(rs: map<Id, Reservation>, rs': map<Id, Reservation>)
  {
    forall vid :: vid in rs && rs[vid].status == BatchedOnchain ==> vid in rs' && rs'[vid] == rs[vid]
  }

  lemma PaidKeptOnce(rs: map<Id, Reservation>, vid: Id, r: Reservation)
    requires vid in rs ==> rs[vid].status != BatchedOnchain
    ensures PaidKept(rs, rs[vid := r])
  {
  }

  lemma VerifyKeepsPaid(k: Crypto, v: Vault, s: Step)
    requires s.Verify? && s.verificationId !in v.reservations
    ensures PaidKept(v.reservations, Live(k, v, s).v.reservations)
  {
    hide Refresh, ReserveBalance, PaidKept;
    var r := NewReservation(s.verificationId, s.paymentId, s.client, s.provider, s.amount, s.detail);
    PaidKeptOnce(v.reservations, s.verificationId, r);
    PaidKeptSame(v.reservations);
    BalanceWrites(v, s.client, s.amount);
    RefreshWrites(WithReservation(ReserveBalance(v, s.client, s.amount).v, r), s.client);
  }

  lemma PaidKeptSame(rs: map<Id, Reservation>)
    ensures PaidKept(rs, rs)
  {
  }

  lemma SettleKeepsPaid(k: Crypto, v: Vault, s: Step)
    requires Inv(k, v) && s.Settle? && FreshSid(v, s.settlementId)
    ensures PaidKept(v.reservations, Live(k, v, s).v.reservations)
  {
    hide SettleStep, Inv, FreshSid, PaidKept;
    var vid := s.verificationId;
    PaidKeptSame(v.reservations);
    if vid in v.reservations && v.reservations[vid].status == Reserved && s.now <= v.reservations[vid].expiresAt {
      if s.ok {
        SettleLogs(k, v, vid, s.settlementId, s.now);
        Recovery.SettleShape(v, vid, s.settlementId, s.now);
        PaidKeptOnce(v.reservations, vid, AsSettled(v.reservations[vid], s.settlementId, s.now));
      } else {
        SettleFailed(k, v, vid, s.settlementId, s.now);
      }
    } else {
      SettleIdle(v, vid, s.settlementId, s.now, s.ok);
    }
  }

  lemma EndKeepsPaid(k: Crypto, v: Vault, s: Step)
    requires (s.Cancel? || s.ExpireReservation?)
    ensures PaidKept(v.reservations, Live(k, v, s).v.reservations)
  {
    hide EndReservation, PaidKept;
    var vid := s.verificationId;
    PaidKeptSame(v.reservations);
    if vid in v.reservations && v.reservations[vid].status == Reserved {
      EndWrites(v, vid, Cancelled);
      EndWrites(v, vid, Expired);
      PaidKeptOnce(v.reservations, vid, v.reservations[vid].(status := Cancelled));
      PaidKeptOnce(v.reservations, vid, v.reservations[vid].(status := Expired));
    }
  }

  /** Confirming a chunk marks its reservations as paid out and touches no other. */
  lemma {:induction false} ConfirmEachPays(v: Vault, sids: seq<Id>, info: BatchInfo)
    requires Confirming(v) && Payable(v, sids)
    ensures var v' := ConfirmEach(v, sids, info);
      && PaidKept(v.reservations, v'.reservations)
      && (forall sid :: sid in sids ==> Paid(v'.reservations, sid))
    decreases |sids|
  {
    hide Confirming, ConfirmOne, Paid;
    if sids != [] {
      var n := |sids| - 1;
      var less, last := sids[..n], sids[n];
      assert forall id :: id in sids <==> id in less || id == last by { assert sids == less + [last]; }
      ConfirmEachPays(v, less, info);
      ConfirmEachKeeps(v, less, info);
      ConfirmOnePays(ConfirmEach(v, less, info), last, info, less);
    }
  }

  /** Some reservation carries the settlement and is paid out. */
  ghost predicate Paid(rs: map<Id, Reservation>, sid: Id)
  {
    exists vid :: vid in rs && SettledAs(rs[vid], sid) && rs[vid].status == BatchedOnchain
  }

  lemma ConfirmOnePays(v: Vault, sid: Id, info: BatchInfo, others: seq<Id>)
    requires Confirming(v) && sid in v.history && (forall x :: x in others ==> Paid(v.reservations, x))
    ensures var rs' := ConfirmOne(v, sid, info).reservations;
      PaidKept(v.reservations, rs') && Paid(rs', sid) && (forall x :: x in others ==> Paid(rs', x))
  {
    hide MoneyOk, IndexOk, CreditsOk, ListedOk, ConfirmOne, Owner;
    PayingOwner(v, sid);
    ConfirmOneShape(v, sid, info);
    var vid := Owner(v.reservations, sid).value;
    var rs' := ConfirmOne(v, sid, info).reservations;
    PaidKeptOnce(v.reservations, vid, rs'[vid]);
    assert SettledAs(rs'[vid], sid);
    forall x | x in others ensures Paid(rs', x) {
      var u :| u in v.reservations && SettledAs(v.reservations[u], x) && v.reservations[u].status == BatchedOnchain;
      assert rs'[u] == v.reservations[u];
    }
  }

  lemma ConfirmPays(k: Crypto, v: Vault, s: Step)
    requires Inv(k, v) && s.ConfirmBatch? && Payable(v, s.settlementIds)
    ensures PaidKept(v.reservations, Live(k, v, s).v.reservations)
    ensures s.ok ==> forall sid :: sid in s.settlementIds ==> Paid(Live(k, v, s).v.reservations, sid)
  {
    hide Inv, Payable, ConfirmEach, TouchedEach, PaidKept, Paid;
    PaidKeptSame(v.reservations);
    ConfirmingNow(k, v);
    ConfirmEachPays(v, s.settlementIds, BatchInfo(s.batchId, s.signature));
  }

  /** Once paid out, a reservation never changes again. */
  lemma PaidForever(k: Crypto, v: Vault, s: Step)
    requires Inv(k, v) && Admissible(v, s)
    ensures PaidKept(v.reservations, Live(k, v, s).v.reservations)
  {
    hide Inv, Live, PaidKept, FreshSid, Payable, EventMatches;
    if s.Verify? {
      VerifyKeepsPaid(k, v, s);
    } else if s.Settle? {
      SettleKeepsPaid(k, v, s);
    } else if s.Cancel? || s.ExpireReservation? {
      EndKeepsPaid(k, v, s);
    } else if s.ConfirmBatch? {
      ConfirmPays(k, v, s);
    } else {
      StepWrites(k, v, s);
      WritesSpare(v, Live(k, v, s).v, s);
      PaidKeptSame(v.reservations);
    }
  }

  /** The settlements that the log says were paid out. */
  function PaidOutBy(log: seq<Entry>): seq<Id>
  {
    if log == [] then [] else
      var e := log[|log| - 1];
      PaidOutBy(log[..|log| - 1]) + if e.BatchConfirmed? then e.settlementIds else []
  }

  lemma {:induction false} PaidOutAppend(a: seq<Entry>, b: seq<Entry>)
    ensures PaidOutBy(a + b) == PaidOutBy(a) + PaidOutBy(b)
    decreases |b|
  {
    if b == [] {
      assert a + b == a;
    } else {
      assert (a + b)[..|a + b| - 1] == a + b[..|b| - 1];
      PaidOutAppend(a, b[..|b| - 1]);
    }
  }

  /** A settlement that is paid out is neither in the history nor in any credit, so it cannot be selected. */
  lemma PaidUnselectable(k: Crypto, v: Vault, sid: Id)
    requires Inv(k, v) && Paid(v.reservations, sid)
    ensures sid !in v.history && forall p :: p in v.credits ==> sid !in v.credits[p].ids
  {
    hide MoneyOk, IndexOk, ChannelsOk, ListedOk, NoneSpent, HistSum, RecordOf, Owner;
    var vid :| vid in v.reservations && SettledAs(v.reservations[vid], sid) && v.reservations[vid].status == BatchedOnchain;
    OwnerIs(v.reservations, vid, sid);
    forall p | p in v.credits ensures sid !in v.credits[p].ids {
      assert CreditOk(p, v.credits[p], v.reservations, v.history, v.providers);
    }
  }

  lemma StepPaysOut(k: Crypto, v: Vault, s: Step)
    requires Inv(k, v) && Admissible(v, s)
    ensures var step := Live(k, v, s);
      var paid := PaidOutBy(step.entries);
      && Distinct(paid) && AllRecorded(paid, v.history)
      && (forall sid :: sid in paid ==> Paid(step.v.reservations, sid))
  {
    hide Inv, Live, Paid, FreshSid, EventMatches;
    if s.ConfirmBatch? {
      ConfirmPays(k, v, s);
      ConfirmLogs(k, v, s);
    } else {
      OthersPayNobody(k, v, s);
    }
  }

  lemma ConfirmLogs(k: Crypto, v: Vault, s: Step)
    requires s.ConfirmBatch?
    ensures PaidOutBy(Live(k, v, s).entries) == if s.ok then s.settlementIds else []
  {
    hide ApplyBatchConfirmation;
    var e := BatchConfirmed(s.batchId, s.signature, s.settlementIds);
    assert [e][..0] == [];
    assert PaidOutBy([e]) == PaidOutBy([]) + s.settlementIds;
  }

  lemma {:induction false} NothingPaid(log: seq<Entry>)
    requires forall i :: 0 <= i < |log| ==> !log[i].BatchConfirmed?
    ensures PaidOutBy(log) == []
    decreases |log|
  {
    if log != [] { NothingPaid(log[..|log| - 1]); }
  }

  lemma OthersPayNobody(k: Crypto, v: Vault, s: Step)
    requires !s.ConfirmBatch?
    ensures PaidOutBy(Live(k, v, s).entries) == []
  {
    hide Live, PaidOutBy;
    var log := Live(k, v, s).entries;
    forall i | 0 <= i < |log| ensures !log[i].BatchConfirmed? {
      if log[i].BatchConfirmed? { RecoverObject.OnlyConfirms(k, v, s, log[i]); }
    }
    NothingPaid(log);
  }

  /**
   * Over a whole run every settlement is paid out at most once, each one confirmed by the log is marked as paid out,
   * and none of them can be selected again.
   */
  lemma {:induction false} PaidOnce(k: Crypto, steps: seq<Step>)
    requires AdmissibleRun(k, EmptyVault, steps)
    ensures var done := Run(k, EmptyVault, steps);
      && Distinct(PaidOutBy(done.entries))
      && forall sid :: sid in PaidOutBy(done.entries) ==>
           Paid(done.v.reservations, sid) && sid !in done.v.history && forall p :: p in done.v.credits ==> sid !in done.v.credits[p].ids
    decreases |steps|
  {
    hide Inv, Live, Paid, PaidKept, Admissible, PaidOutBy;
    EmptyKeeps(k);
    if steps == [] {
      NothingPaid([]);
    } else {
      var n := |steps| - 1;
      var before := Run(k, EmptyVault, steps[..n]);
      PaidOnce(k, steps[..n]);
      RunKeeps(k, EmptyVault, steps[..n]);
      RunKeeps(k, EmptyVault, steps);
      var last := Live(k, before.v, steps[n]);
      PaidForever(k, before.v, steps[n]);
      StepPaysOut(k, before.v, steps[n]);
      PaidOutAppend(before.entries, last.entries);
      DistinctAppend(PaidOutBy(before.entries), PaidOutBy(last.entries));
      forall sid | sid in PaidOutBy(before.entries) ensures Paid(last.v.reservations, sid) {
        StillPaid(before.v.reservations, last.v.reservations, sid);
      }
      forall sid | sid in PaidOutBy(before.entries + last.entries)
        ensures sid !in last.v.history && forall p :: p in last.v.credits ==> sid !in last.v.credits[p].ids
      {
        PaidUnselectable(k, last.v, sid);
      }
    }
  }

  lemma DistinctAppend(a: seq<Id>, b: seq<Id>)
    requires Distinct(a) && Distinct(b) && forall x :: x in a ==> x !in b
    ensures Distinct(a + b)
  {
    var c := a + b;
    assert forall i :: 0 <= i < |c| ==> if i < |a| then c[i] in a else c[i] in b;
  }

  lemma StillPaid(rs: map<Id, Reservation>, rs': map<Id, Reservation>, sid: Id)
    requires PaidKept(rs, rs') && Paid(rs, sid)
    ensures Paid(rs', sid)
  {
    var vid :| vid in rs && SettledAs(rs[vid], sid) && rs[vid].status == BatchedOnchain;
    assert rs'[vid] == rs[vid];
  }
}
