/** Whole runs of the enclave: every reachable state satisfies the invariant, and what follows from that. */
module Runs {
  import opened Prelude
  import opened Sums
  import opened VaultTypes
  import opened Ledger
  import opened Channels
  import opened AdaptorSig
  import opened Steps
  import opened Invariant
  import opened SettlementLemmas
  import opened BatchLemmas
  import opened Preservation
  import opened CursorPass
  import BatchCursors

  /**
   * What the environment guarantees: generated ids are fresh, a confirmed chunk lists distinct settlements
   * awaiting payout, an observed withdrawal is one the enclave signed, and planning a batch visits every credit.
   */
  ghost predicate Admissible(v: Vault, s: Step)
  {
    match s
    case Verify(vid, _, _, _, _, _, _) => vid !in v.reservations
    case Settle(_, sid, _, _) => FreshSid(v, sid)
    case Close(_, sid, _, _) => FreshSid(v, sid)
    case OpenCh(id, _, _, _, _, _) => id !in v.channels
    case ConfirmBatch(sids, _, _, _) => Payable(v, sids)
    case ObserveWithdraw(_, c, recipient, amount, nonce, expiresAt, _, _) =>
      EventMatches(v, c, recipient, amount, nonce, expiresAt)
    case PlanBatch(order, _, _, _) => Listing(v, order)
    case _ => true
  }

  /** The vault and the log after a sequence of steps. */
  ghost function Run(k: Crypto, v: Vault, steps: seq<Step>): Outcome
    decreases |steps|
  {
    if steps == [] then Idle(v) else
      var n := |steps| - 1;
      var before := Run(k, v, steps[..n]);
      var last := Live(k, before.v, steps[n]);
      Outcome(last.v, before.entries + last.entries)
  }

  ghost predicate AdmissibleRun(k: Crypto, v: Vault, steps: seq<Step>)
    decreases |steps|
  {
    steps == [] ||
    var n := |steps| - 1;
    AdmissibleRun(k, v, steps[..n]) && Admissible(Run(k, v, steps[..n]).v, steps[n])
  }

  /** One more step at the end of a run. */
  lemma RunSnoc(k: Crypto, v: Vault, steps: seq<Step>, s: Step)
    ensures var before := Run(k, v, steps);
      var last := Live(k, before.v, s);
      && Run(k, v, steps + [s]) == Outcome(last.v, before.entries + last.entries)
      && (AdmissibleRun(k, v, steps + [s]) <==> AdmissibleRun(k, v, steps) && Admissible(before.v, s))
  {
    hide Live, Admissible;
    assert (steps + [s])[..|steps|] == steps;
  }

  lemma RunNone(k: Crypto, v: Vault)
    ensures Run(k, v, []) == Idle(v) && AdmissibleRun(k, v, [])
  {
  }

  /** A run in two parts. */
  lemma {:induction false} RunAppend(k: Crypto, v: Vault, a: seq<Step>, b: seq<Step>)
    ensures var first := Run(k, v, a);
      var second := Run(k, first.v, b);
      && Run(k, v, a + b) == Outcome(second.v, first.entries + second.entries)
      && (AdmissibleRun(k, v, a + b) <==> AdmissibleRun(k, v, a) && AdmissibleRun(k, first.v, b))
    decreases |b|
  {
    hide Live, Admissible, Run, AdmissibleRun;
    if b == [] {
      assert a + b == a;
      RunNone(k, Run(k, v, a).v);
    } else {
      var n := |b| - 1;
      RunAppend(k, v, a, b[..n]);
      assert a + b == (a + b[..n]) + [b[n]] && b == b[..n] + [b[n]];
      RunSnoc(k, v, a + b[..n], b[n]);
      RunSnoc(k, Run(k, v, a).v, b[..n], b[n]);
    }
  }

  lemma EmptyKeeps(k: Crypto)
    ensures Inv(k, EmptyVault)
  {
    var v := EmptyVault;
    assert forall c :: LockedOf(v.clients, c) == Locks(c, v.reservations, v.withdrawals, v.channels);
    assert forall c :: CachedUntil(v.clients, c) == LockedUntil(c, v.reservations, v.withdrawals, v.channels);
  }

  lemma ConfirmKeeps(k: Crypto, v: Vault, sids: seq<Id>, batchId: nat, signature: Id, ok: bool)
    requires Inv(k, v) && Payable(v, sids)
    ensures Inv(k, ConfirmBatchStep(v, sids, batchId, signature, ok).v) && Lost(ConfirmBatchStep(v, sids, batchId, signature, ok).v) == Lost(v)
  {
    hide MoneyOk, IndexOk, SettledOk, ChannelsOk, ConfirmEach, TouchedEach;
    if ok {
      ApplyBatchKeeps(v, sids, batchId, signature);
      ConfirmEachFrame(v, sids, BatchInfo(batchId, signature));
    }
  }

  lemma ReceiptKeeps(k: Crypto, v: Vault, issued: bool, mirrored: bool)
    requires Inv(k, v)
    ensures Inv(k, IssueReceiptStep(v, issued, mirrored).v) && Lost(IssueReceiptStep(v, issued, mirrored).v) == Lost(v)
  {
    hide LockedOk, CacheOk, Shortfall, OwnersOk, PaymentsOk, NoncesOk, HistoryOk, CreditsOk, ListedOk, NoneSpent, ChannelsOk;
  }

  lemma OffchainKeeps(k: Crypto, v: Vault, id: Id, secret: Bytes, now: Time, undoneAt: Time, ok: bool)
    requires Inv(k, v)
    ensures Inv(k, FinalizeStep(v, id, FinalizeOffchain(k, v, id, secret, now), undoneAt, ok).v)
    ensures Lost(FinalizeStep(v, id, FinalizeOffchain(k, v, id, secret, now), undoneAt, ok).v) == Lost(v)
  {
    hide Inv, FinalizeWithSecret, FinalizeStep;
    var t := ScalarBytes.FromCanonical(secret);
    if FinalizeOffchain(k, v, id, secret, now).Finalized? { FinalizedShape(k, v, id, t.value, secret, now); }
    FinalizeKeeps(k, v, id, FinalizeOffchain(k, v, id, secret, now), now, undoneAt, ok);
  }

  lemma OnchainKeeps(k: Crypto, v: Vault, id: Id, full: Signature, now: Time, undoneAt: Time, ok: bool)
    requires Inv(k, v)
    ensures Inv(k, FinalizeStep(v, id, FinalizeOnchain(k, v, id, full, now), undoneAt, ok).v)
    ensures Lost(FinalizeStep(v, id, FinalizeOnchain(k, v, id, full, now), undoneAt, ok).v) == Lost(v)
  {
    hide Inv, FinalizeWithSecret, FinalizeStep, Extract, VerifyAdapted;
    if FinalizeOnchain(k, v, id, full, now).Finalized? {
      var t := Extract(full, v.channels[id].request.value.preSig.value).value;
      FinalizedShape(k, v, id, t, ScalarBytes.ScalarToBytes(t), now);
    }
    FinalizeKeeps(k, v, id, FinalizeOnchain(k, v, id, full, now), now, undoneAt, ok);
  }

  /** What a step takes off the books: planning a batch drops what closed channels had credited. */
  ghost function LossOf(v: Vault, s: Step): nat { if s.PlanBatch? then Sum(v.credits, UnbackedOf(v.history)) else 0 }

  /** Every step, committed or undone, keeps the invariant, and only planning a batch loses money. */
  lemma StepKeeps(k: Crypto, v: Vault, s: Step)
    requires Inv(k, v) && Admissible(v, s)
    ensures Inv(k, Live(k, v, s).v) && Lost(Live(k, v, s).v) == Lost(v) + LossOf(v, s)
  {
    hide Inv, FreshSid, Payable, EventMatches, DepositStep, AuthorizeWithdrawStep, ObserveWithdrawStep, ExpireWithdrawStep,
      VerifyStep, SettleStep, EndReservation, RegisterStep, IssueReceiptStep, ConfirmBatchStep, OpenStep, SubmitStep,
      DeliverStep, FinalizeStep, FinalizeOffchain, FinalizeOnchain, CloseStep, ExpireReqStep, Planned, Listing, Lost;
    match s
    case Deposit(signature, c, amount, slot, ok) => DepositKeeps(k, v, signature, c, amount, slot, ok);
    case AuthorizeWithdraw(c, recipient, amount, now, ok) => AuthorizeWithdrawKeeps(k, v, c, recipient, amount, now, ok);
    case ObserveWithdraw(signature, c, recipient, amount, nonce, expiresAt, slot, ok) =>
      ObserveWithdrawKeeps(k, v, signature, c, recipient, amount, nonce, expiresAt, slot, ok);
    case ExpireWithdraw(nonce, now, ok) => ExpireWithdrawKeeps(k, v, nonce, now, ok);
    case Verify(vid, payment, c, provider, amount, d, ok) => VerifyKeeps(k, v, vid, payment, c, provider, amount, d, ok);
    case Settle(vid, sid, now, ok) => SettleKeeps(k, v, vid, sid, now, ok);
    case Cancel(vid, ok) =>
      if vid in v.reservations && v.reservations[vid].status == Reserved { EndKeeps(k, v, vid, Cancelled); }
    case ExpireReservation(vid, now, ok) =>
      if vid in v.reservations && v.reservations[vid].status == Reserved { EndKeeps(k, v, vid, Expired); }
    case Register(p, ok) => RegisterKeeps(k, v, p, ok);
    case IssueReceipt(issued, mirrored) => ReceiptKeeps(k, v, issued, mirrored);
    case ConfirmBatch(sids, batchId, signature, ok) => ConfirmKeeps(k, v, sids, batchId, signature, ok);
    case NoteBatch(batchId, ok) =>
    case PlanBatch(order, now, mode, config) => BatchCursors.PlanKeeps(k, v, order, now, mode, config);
    case OpenCh(id, c, provider, amount, now, ok) => OpenKeeps(k, v, id, c, provider, amount, now, ok);
    case Submit(id, rid, amount, hash, now, undoneAt, ok) => SubmitKeeps(k, v, id, rid, amount, hash, now, undoneAt, ok);
    case Deliver(id, d, now, undoneAt, ok) => DeliverKeeps(k, v, id, d, now, undoneAt, ok);
    case Finalize(id, secret, now, undoneAt, ok) => OffchainKeeps(k, v, id, secret, now, undoneAt, ok);
    case Claim(id, full, now, undoneAt, ok) => OnchainKeeps(k, v, id, full, now, undoneAt, ok);
    case Close(id, sid, now, ok) => CloseKeeps(k, v, id, sid, now, ok);
    case ExpireReq(id, now, undoneAt, ok) => ExpireReqKeeps(k, v, id, now, undoneAt, ok);
  }

  /** What all the planning in a run takes off the books. */
  ghost function LossIn(k: Crypto, v: Vault, steps: seq<Step>): nat
    decreases |steps|
  {
    if steps == [] then 0 else
      var n := |steps| - 1;
      LossIn(k, v, steps[..n]) + LossOf(Run(k, v, steps[..n]).v, steps[n])
  }

  /** Every reachable state satisfies the invariant, and deposits exceed what they are accounted for by exactly the losses. */
  lemma {:induction false} RunKeeps(k: Crypto, v: Vault, steps: seq<Step>)
    requires Inv(k, v) && AdmissibleRun(k, v, steps)
    ensures Inv(k, Run(k, v, steps).v) && Lost(Run(k, v, steps).v) == Lost(v) + LossIn(k, v, steps)
    decreases |steps|
  {
    hide Inv, Live, Lost, LossOf;
    if steps != [] {
      var n := |steps| - 1;
      RunKeeps(k, v, steps[..n]);
      StepKeeps(k, Run(k, v, steps[..n]).v, steps[n]);
    }
  }
}
