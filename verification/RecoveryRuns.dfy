/** Recovery over whole runs: replaying the log of any run, in full or after a snapshot, stands for the live vault. */
module RecoveryRuns {
  import opened Prelude
  import opened Sums
  import opened VaultTypes
  import opened Ledger
  import opened Channels
  import opened AdaptorSig
  import opened Steps
  import opened Invariant
  import opened SettlementLemmas
  import opened BatchLemmas
  import opened Preservation
  import opened Replay
  import opened Recovery
  import opened Runs
  import opened Atomicity
  import opened CursorPass

  /**
   * What one step needs so that its entry, if it logged one, can be replayed onto `rec`: whoever locks nothing at
   * all must have a logged deposit, and a delivery must be replayed before the replayed request expires.
   */
  ghost predicate Ready(rec: Vault, s: Step, envs: seq<Env>)
  {
    envs == [] ||
    match s
    case AuthorizeWithdraw(c, _, amount, _, _) => Known(rec, c, amount)
    case Verify(_, _, c, _, amount, _, _) => Known(rec, c, amount)
    case OpenCh(_, c, _, amount, _, _) => Known(rec, c, amount)
    case Deliver(id, _, _, _, _) =>
      id in rec.channels && rec.channels[id].request.Some? ==> envs[0].now <= rec.channels[id].request.value.expiresAt
    case _ => true
  }

  /**
   * A step that logs nothing leaves nothing behind that replay would have to know: a settlement whose append fails is
   * undone in full, which takes a credit that owes something, and planning a batch finds every credit backed.
   */
  ghost predicate Undoable(v: Vault, s: Step)
  {
    match s
    case Settle(vid, _, now, ok) =>
      var undone := !ok && vid in v.reservations && v.reservations[vid].status == Reserved && now <= v.reservations[vid].expiresAt;
      undone && v.reservations[vid].provider in v.credits ==> v.credits[v.reservations[vid].provider].amount > 0
    case PlanBatch(_, _, _, _) => AllBacked(v)
    case _ => true
  }

  lemma ReplayNone(k: Crypto, rec: Vault)
    ensures ReplayAll(k, rec, [], []) == Ok(rec)
  {
  }

  lemma ReplayOne(k: Crypto, rec: Vault, log: seq<Entry>, envs: seq<Env>)
    requires |log| == |envs| == 1
    ensures ReplayAll(k, rec, log, envs) == ReplayEntry(k, rec, log[0], envs[0])
  {
    hide ReplayEntry;
    assert log[..0] == [] && envs[..0] == [];
    ReplayNone(k, rec);
  }

  /** Replaying a log in two parts. */
  lemma {:induction false} ReplayAppend(k: Crypto, rec: Vault, a: seq<Entry>, b: seq<Entry>, ea: seq<Env>, eb: seq<Env>)
    requires |a| == |ea| && |b| == |eb|
    ensures ReplayAll(k, rec, a + b, ea + eb) ==
      if ReplayAll(k, rec, a, ea).err.Some? then ReplayAll(k, rec, a, ea) else ReplayAll(k, ReplayAll(k, rec, a, ea).v, b, eb)
    decreases |b|
  {
    hide ReplayEntry;
    if b == [] {
      assert a + b == a && ea + eb == ea;
    } else {
      var n := |b| - 1;
      ReplayAppend(k, rec, a, b[..n], ea, eb[..n]);
      assert (a + b)[..|a + b| - 1] == a + b[..n];
      assert (ea + eb)[..|a + b| - 1] == ea + eb[..n];
      var start := ReplayAll(k, rec, a, ea);
      if start.err.None? {
        assert ReplayAll(k, start.v, b, eb) ==
          (var before := ReplayAll(k, start.v, b[..n], eb[..n]);
           if before.err.Some? then before else ReplayEntry(k, before.v, b[n], eb[n]));
      }
    }
  }

  lemma ReceiptEntry(k: Crypto, v: Vault, n: nat, env: Env)
    ensures var raised := Ok(v.(receiptNonce := Max(v.receiptNonce, n + 1)));
      ReplayEntry(k, v, ReceiptIssued(n), env) == raised && ReplayEntry(k, v, ReceiptMirrored(n), env) == raised
  {
  }

  lemma ReceiptSim(k: Crypto, live: Vault, rec: Vault, issued: bool, mirrored: bool, envs: seq<Env>)
    requires Related(live, rec) && |envs| == |IssueReceiptStep(live, issued, mirrored).entries|
    ensures var step := IssueReceiptStep(live, issued, mirrored);
      var done := ReplayAll(k, rec, step.entries, envs);
      done.err.None? && Related(step.v, done.v)
  {
    hide CreditsRel, ChannelsRel, ClientsRel, ReplayEntry;
    var log := IssueReceiptStep(live, issued, mirrored).entries;
    if issued {
      ReceiptEntry(k, rec, live.receiptNonce, envs[0]);
      assert log[..1] == [log[0]] && envs[..1] == [envs[0]];
      ReplayOne(k, rec, log[..1], envs[..1]);
      if mirrored { ReceiptEntry(k, ReplayAll(k, rec, log[..1], envs[..1]).v, live.receiptNonce, envs[1]); }
    }
  }

  /** Steps that log nothing change nothing the relation sees. */
  lemma SilentSim(k: Crypto, live: Vault, rec: Vault, s: Step)
    requires Related(live, rec) && Inv(k, live) && Admissible(live, s) && Undoable(live, s)
    requires !s.IssueReceipt? && Live(k, live, s).entries == []
    ensures Related(Live(k, live, s).v, rec)
  {
    hide Related, Inv, Admissible, Live, Undoable, Touch, WithBalance, Existing;
    if s.Settle? {
      SilentSettle(k, live, s);
    } else if s.PlanBatch? {
      SilentPlan(k, live, s);
    } else {
      UnloggedLeaves(k, live, s);
      if s.Deposit? { PhantomSim(live, rec, s.client); }
      if s.AuthorizeWithdraw? { BurnSim(live, rec); }
      if InChannel(s) && s.channelId in live.channels { TouchSim(live, rec, s.channelId, s.undoneAt); }
    }
  }

  lemma SilentPlan(k: Crypto, v: Vault, s: Step)
    requires Inv(k, v) && s.PlanBatch? && Admissible(v, s) && Undoable(v, s)
    ensures Live(k, v, s).v == v
  {
    hide Inv, Planned, Listing, AllBacked;
    BatchCursors.PlannableNow(k, v);
    BatchCursors.UntouchedIffBacked(v, s.order, s.now, s.mode, s.config);
  }

  lemma PhantomSim(live: Vault, rec: Vault, c: Pubkey)
    requires Related(live, rec)
    ensures Related(WithBalance(live, c, Existing(live, c)), rec)
  {
    hide CreditsRel, ChannelsRel, ClientsRel, HoldersKnown;
    ClientsPhantom(live.clients, rec.clients, c);
  }

  lemma BurnSim(live: Vault, rec: Vault)
    requires Related(live, rec)
    ensures Related(live.(withdrawNonce := live.withdrawNonce + 1), rec)
  {
    hide CreditsRel, ChannelsRel, ClientsRel, HoldersKnown;
  }

  lemma SilentSettle(k: Crypto, v: Vault, s: Step)
    requires Inv(k, v) && s.Settle? && Admissible(v, s) && Undoable(v, s) && Live(k, v, s).entries == []
    ensures Live(k, v, s).v == v
  {
    hide SettleStep, FreshSid, Inv;
    var vid, sid, now := s.verificationId, s.settlementId, s.now;
    if vid in v.reservations && v.reservations[vid].status == Reserved && now <= v.reservations[vid].expiresAt {
      if s.ok { SettleLogs(k, v, vid, sid, now); } else { SettleFailed(k, v, vid, sid, now); }
    } else {
      SettleIdle(v, vid, sid, now, s.ok);
    }
  }

  /** When a failed settlement drops a credit, no replay of the log can reach the live vault. */
  lemma DroppedCreditDiverges(k: Crypto, live: Vault, rec: Vault, s: Step)
    requires Inv(k, live) && Related(live, rec) && Admissible(live, s) && s.Settle? && !Undoable(live, s)
    ensures Live(k, live, s).entries == [] && !Related(Live(k, live, s).v, rec)
  {
    hide Inv, FreshSid, ClientsRel, ChannelsRel, HoldersKnown, SettleStep;
    SettleFailed(k, live, s.verificationId, s.settlementId, s.now);
    UndoneLogsNothing(live, s.verificationId, s.settlementId, s.now);
    var p := live.reservations[s.verificationId].provider;
    assert p in rec.credits && p !in Live(k, live, s).v.credits;
  }

  /** The premise is exact: a step that logs nothing keeps the vaults related if and only if it is undoable. */
  lemma UndoableIsExact(k: Crypto, live: Vault, rec: Vault, s: Step)
    requires Inv(k, live) && Related(live, rec) && Admissible(live, s)
    requires !s.IssueReceipt? && Live(k, live, s).entries == []
    ensures Related(Live(k, live, s).v, rec) <==> Undoable(live, s)
  {
    hide Related, Inv, FreshSid, Payable, EventMatches, Planned, Listing, AllBacked;
    if Undoable(live, s) {
      SilentSim(k, live, rec, s);
    } else if s.PlanBatch? {
      BatchCursors.PruneDiverges(k, live, rec, s.order, s.now, s.mode, s.config);
    } else {
      DroppedCreditDiverges(k, live, rec, s);
    }
  }

  /**
   * So is the premise that an observed withdrawal is the one that was signed: a mismatching event takes the pending
   * withdrawal away without logging it.
   */
  lemma MismatchDiverges(k: Crypto, live: Vault, rec: Vault, s: Step)
    requires Related(live, rec) && s.ObserveWithdraw? && s.signature !in live.processed
    requires !EventMatches(live, s.client, s.recipient, s.amount, s.nonce, s.expiresAt)
    ensures Live(k, live, s).entries == [] && !Related(Live(k, live, s).v, rec)
  {
    hide ClientsRel, ChannelsRel, CreditsRel, HoldersKnown, CountersRel, ObserveWithdrawStep;
    MismatchTakes(live, s.signature, s.client, s.recipient, s.amount, s.nonce, s.expiresAt, s.slot, s.ok);
    assert s.nonce in rec.withdrawals && s.nonce !in Live(k, live, s).v.withdrawals;
  }

  lemma MismatchTakes(v: Vault, signature: Id, c: Pubkey, recipient: Pubkey, amount: nat, nonce: nat, expiresAt: Time, slot: nat, ok: bool)
    requires signature !in v.processed && !EventMatches(v, c, recipient, amount, nonce, expiresAt)
    ensures var step := ObserveWithdrawStep(v, signature, c, recipient, amount, nonce, expiresAt, slot, ok);
      step.entries == [] && nonce in v.withdrawals && step.v.withdrawals == v.withdrawals - {nonce}
  {
    hide Refresh, ApplyWithdrawal;
    AppliedTakes(v, nonce);
  }

  // ---- Steps that log an entry ----

  lemma LoggedFunds(k: Crypto, live: Vault, rec: Vault, s: Step, env: Env)
    requires Related(live, rec) && Inv(k, live) && Ready(rec, s, [env])
    requires s.Deposit? || s.AuthorizeWithdraw? || s.ObserveWithdraw? || s.ExpireWithdraw? || s.Verify?
    requires Live(k, live, s).entries != []
    ensures |Live(k, live, s).entries| == 1
    ensures var done := ReplayEntry(k, rec, Live(k, live, s).entries[0], env);
      done.err.None? && Related(Live(k, live, s).v, done.v)
  {
    hide Related, MoneyOk, SettledOk, ChannelsOk, Refresh, OwnersOk, PaymentsOk, ReplayDeposit, ReplayAuthorized,
      ReplayWithdrawApplied, ReplayWithdrawExpired, ReplayReservation;
    match s
    case Deposit(signature, c, amount, slot, ok) => DepositSim(live, rec, signature, c, amount, slot);
    case AuthorizeWithdraw(c, recipient, amount, now, ok) => AuthorizeSim(live, rec, c, recipient, amount, now);
    case ObserveWithdraw(signature, c, recipient, amount, nonce, expiresAt, slot, ok) =>
      ObserveSim(live, rec, signature, c, recipient, amount, nonce, expiresAt, slot);
    case ExpireWithdraw(nonce, now, ok) => ExpireWithdrawSim(live, rec, nonce, now);
    case Verify(vid, payment, c, provider, amount, d, ok) => VerifySim(live, rec, vid, payment, c, provider, amount, d);
  }

  lemma RegisterSim(live: Vault, rec: Vault, p: Provider)
    requires Related(live, rec)
    ensures Related(live.(providers := live.providers[p.providerId := p]), rec.(providers := rec.providers[p.providerId := p]))
  {
    hide CreditsRel, ChannelsRel, ClientsRel;
  }

  lemma LoggedSettlements(k: Crypto, live: Vault, rec: Vault, s: Step, env: Env)
    requires Related(live, rec) && Inv(k, live) && Admissible(live, s)
    requires s.Settle? || s.Cancel? || s.ExpireReservation? || s.Register? || s.ConfirmBatch? || s.NoteBatch?
    requires Live(k, live, s).entries != []
    ensures |Live(k, live, s).entries| == 1
    ensures var done := ReplayEntry(k, rec, Live(k, live, s).entries[0], env);
      done.err.None? && Related(Live(k, live, s).v, done.v)
  {
    hide Related, MoneyOk, SettledOk, ChannelsOk, FreshSid, Refresh, OwnersOk, PaymentsOk, ReplayEnd, ReplaySettlement,
      ApplyBatchConfirmation, EndReservation, Payable, Confirming, SettleStep, CreditedWith, RecordOf;
    match s
    case Settle(vid, sid, now, ok) =>
      SettleOk(live, vid, sid, now, ok);
      SettleShape(live, vid, sid, now);
      SettleSim(live, rec, vid, sid, now);
    case Cancel(vid, ok) => EndSim(live, rec, vid, Cancelled);
    case ExpireReservation(vid, now, ok) => EndSim(live, rec, vid, Expired);
    case Register(p, ok) => RegisterSim(live, rec, p);
    case ConfirmBatch(sids, batchId, signature, ok) =>
      ConfirmingNow(k, live);
      ConfirmSim(live, rec, sids, batchId, signature);
    case NoteBatch(batchId, ok) =>
  }

  lemma SettleOk(v: Vault, vid: Id, sid: Id, now: Time, ok: bool)
    requires SettleStep(v, vid, sid, now, ok).entries != []
    ensures ok
  {
  }

  lemma ConfirmingNow(k: Crypto, v: Vault)
    requires Inv(k, v)
    ensures Confirming(v)
  {
    hide LockedOk, CacheOk, OwnersOk, PaymentsOk, HistoryOk, CreditsOk, ListedOk;
  }

  lemma LoggedFinalize(k: Crypto, live: Vault, rec: Vault, s: Step, env: Env)
    requires Related(live, rec) && Inv(k, live) && (s.Finalize? || s.Claim?)
    requires Live(k, live, s).entries != []
    ensures |Live(k, live, s).entries| == 1
    ensures var done := ReplayEntry(k, rec, Live(k, live, s).entries[0], env);
      done.err.None? && Related(Live(k, live, s).v, done.v)
  {
    hide Related, Inv, Refresh, FinalizeWithSecret, FinalizeReplayed, Extract, VerifyAdapted;
    match s
    case Finalize(id, secret, now, undoneAt, ok) =>
      var done := FinalizeOffchain(k, live, id, secret, now);
      FinalizedShape(k, live, id, ScalarBytes.FromCanonical(secret).value, secret, now);
      FinalizeSim(k, live, rec, id, done, now, undoneAt, env);
    case Claim(id, full, now, undoneAt, ok) =>
      var done := FinalizeOnchain(k, live, id, full, now);
      var t := Extract(full, live.channels[id].request.value.preSig.value).value;
      FinalizedShape(k, live, id, t, ScalarBytes.ScalarToBytes(t), now);
      FinalizeSim(k, live, rec, id, done, now, undoneAt, env);
  }

  lemma LoggedRequests(k: Crypto, live: Vault, rec: Vault, s: Step, env: Env)
    requires Related(live, rec) && Ready(rec, s, [env]) && (s.OpenCh? || s.Submit? || s.Deliver?)
    requires Live(k, live, s).entries != []
    ensures |Live(k, live, s).entries| == 1
    ensures var done := ReplayEntry(k, rec, Live(k, live, s).entries[0], env);
      done.err.None? && Related(Live(k, live, s).v, done.v)
  {
    hide Related, Refresh, OpenChannel, SubmitRequest, DeliverAdaptor;
    match s
    case OpenCh(id, c, provider, amount, now, ok) => OpenSim(live, rec, id, c, provider, amount, now, env);
    case Submit(id, rid, amount, hash, now, undoneAt, ok) => SubmitSim(live, rec, id, rid, amount, hash, now, undoneAt, env);
    case Deliver(id, d, now, undoneAt, ok) => DeliverSim(k, live, rec, id, d, now, undoneAt, env);
  }

  lemma LoggedEndings(k: Crypto, live: Vault, rec: Vault, s: Step, env: Env)
    requires Related(live, rec) && Inv(k, live) && Admissible(live, s) && (s.Close? || s.ExpireReq?)
    requires Live(k, live, s).entries != []
    ensures |Live(k, live, s).entries| == 1
    ensures var done := ReplayEntry(k, rec, Live(k, live, s).entries[0], env);
      done.err.None? && Related(Live(k, live, s).v, done.v)
  {
    hide Related, Inv, FreshSid, Refresh, CloseChannel, ExpireReplayed, ExpireRequest;
    match s
    case Close(id, sid, now, ok) =>
      CloseOk(live, id, sid, now);
      CloseNeverStuck(k, live, id, sid, now);
      CloseSim(live, rec, id, sid, now, env);
    case ExpireReq(id, now, undoneAt, ok) => ExpireReqSim(live, rec, id, now, undoneAt, env);
  }

  lemma CloseOk(v: Vault, id: Id, sid: Id, now: Time)
    requires CloseChannel(v, id, sid, now).err.None?
    ensures id in v.channels && v.channels[id].status == Open
  {
  }

  /** A step that is not ready logs an entry that replay refuses. */
  predicate MayFail(s: Step) { s.AuthorizeWithdraw? || s.Verify? || s.OpenCh? || s.Deliver? }

  /** The entry of a step whose replay may fail. */
  function EntryOf(v: Vault, s: Step): Entry
    requires MayFail(s) && (s.Deliver? ==> s.channelId in v.channels && v.channels[s.channelId].request.Some?)
  {
    match s
    case AuthorizeWithdraw(c, recipient, amount, now, _) =>
      WithdrawAuthorized(Withdrawal(c, recipient, amount, v.withdrawNonce, now, now + WITHDRAW_EXPIRY_SEC))
    case Verify(vid, payment, c, provider, amount, d, _) => ReservationCreated(vid, payment, c, provider, amount, Some(d))
    case OpenCh(id, c, provider, amount, _, _) => ChannelOpened(id, c, provider, amount)
    case Deliver(id, d, _, _, _) => AdaptorDelivered(id, v.channels[id].request.value.requestId, Some(d))
  }

  lemma EntryLogged(k: Crypto, v: Vault, s: Step)
    requires MayFail(s) && Live(k, v, s).entries != []
    ensures s.Deliver? ==> s.channelId in v.channels && v.channels[s.channelId].request.Some?
    ensures Live(k, v, s).entries == [EntryOf(v, s)]
  {
    hide Refresh, AuthorizeWithdrawal, ReserveBalance, OpenChannel, DeliveryVerifies;
  }

  lemma EntryRefused(k: Crypto, live: Vault, rec: Vault, s: Step, env: Env)
    requires Related(live, rec) && MayFail(s) && (s.Deliver? ==> s.channelId in live.channels && live.channels[s.channelId].request.Some?)
    requires !Ready(rec, s, [env])
    ensures ReplayEntry(k, rec, EntryOf(live, s), env).err.Some?
  {
    hide CreditsRel, ChannelsRel, HoldersKnown, Refresh, DeliveryVerifies;
  }

  lemma NotReady(k: Crypto, live: Vault, rec: Vault, s: Step, env: Env)
    requires Related(live, rec) && MayFail(s)
    requires Live(k, live, s).entries != [] && !Ready(rec, s, [env])
    ensures |Live(k, live, s).entries| == 1 && ReplayEntry(k, rec, Live(k, live, s).entries[0], env).err.Some?
  {
    hide Related, Ready, Live, ReplayEntry;
    EntryLogged(k, live, s);
    EntryRefused(k, live, rec, s, env);
  }

  /**
   * One step: replaying what it logged succeeds exactly when the step is ready, and then keeps the two vaults
   * related.
   */
  lemma StepSim(k: Crypto, live: Vault, rec: Vault, s: Step, envs: seq<Env>)
    requires Related(live, rec) && Inv(k, live) && Admissible(live, s) && Undoable(live, s)
    requires |envs| == |Live(k, live, s).entries|
    ensures var step := Live(k, live, s);
      var done := ReplayAll(k, rec, step.entries, envs);
      && (done.err.None? <==> Ready(rec, s, envs))
      && (Ready(rec, s, envs) ==> Related(step.v, done.v))
  {
    hide Related, Inv, Admissible, Undoable, ReplayEntry, Known;
    var log := Live(k, live, s).entries;
    if s.IssueReceipt? {
      ReceiptSim(k, live, rec, s.issued, s.mirrored, envs);
    } else if log == [] {
      SilentSim(k, live, rec, s);
      ReplayNone(k, rec);
    } else {
      if Ready(rec, s, [envs[0]]) { OneEntry(k, live, rec, s, envs[0]); } else { NotReady(k, live, rec, s, envs[0]); }
      ReplayOne(k, rec, log, envs);
    }
  }

  lemma PlanLogsNothing(k: Crypto, v: Vault, s: Step)
    ensures s.PlanBatch? ==> Live(k, v, s).entries == []
  {
    hide Planned;
  }

  lemma OneEntry(k: Crypto, live: Vault, rec: Vault, s: Step, env: Env)
    requires Related(live, rec) && Inv(k, live) && Admissible(live, s) && !s.IssueReceipt?
    requires Live(k, live, s).entries != [] && Ready(rec, s, [env])
    ensures |Live(k, live, s).entries| == 1
    ensures var done := ReplayEntry(k, rec, Live(k, live, s).entries[0], env);
      done.err.None? && Related(Live(k, live, s).v, done.v)
  {
    hide Related, Inv, Admissible, ReplayEntry, Known, Ready, Live;
    PlanLogsNothing(k, live, s);
    if s.Deposit? || s.AuthorizeWithdraw? || s.ObserveWithdraw? || s.ExpireWithdraw? || s.Verify? {
      LoggedFunds(k, live, rec, s, env);
    } else if s.Settle? || s.Cancel? || s.ExpireReservation? || s.Register? || s.ConfirmBatch? || s.NoteBatch? {
      LoggedSettlements(k, live, rec, s, env);
    } else if s.Finalize? || s.Claim? {
      LoggedFinalize(k, live, rec, s, env);
    } else if s.Close? || s.ExpireReq? {
      LoggedEndings(k, live, rec, s, env);
    } else {
      LoggedRequests(k, live, rec, s, env);
    }
  }

  // ---- Whole runs ----

  ghost predicate UndoableRun(k: Crypto, v: Vault, steps: seq<Step>)
  {
    forall i :: 0 <= i < |steps| ==> Undoable(Run(k, v, steps[..i]).v, steps[i])
  }

  /** Every step of a run is ready when its turn comes in the replay. */
  ghost predicate ReadyRun(k: Crypto, live: Vault, rec: Vault, steps: seq<Step>, envs: seq<Env>)
    requires |envs| == |Run(k, live, steps).entries|
    decreases |steps|
  {
    steps == [] ||
    var n := |steps| - 1;
    var before := Run(k, live, steps[..n]);
    var m := |before.entries|;
    && ReadyRun(k, live, rec, steps[..n], envs[..m])
    && Ready(ReplayAll(k, rec, before.entries, envs[..m]).v, steps[n], envs[m..])
  }

  /**
   * Recovery refines the live run. From any related pair (an empty vault and itself, or a snapshot and the vault
   * it was taken from) the log of a run replays without error exactly when every step is ready in its turn, and
   * then ends in a related pair.
   */
  lemma {:induction false} RecoveryRefines(k: Crypto, live: Vault, rec: Vault, steps: seq<Step>, envs: seq<Env>)
    requires Inv(k, live) && Related(live, rec)
    requires AdmissibleRun(k, live, steps) && UndoableRun(k, live, steps)
    requires |envs| == |Run(k, live, steps).entries|
    ensures var done := ReplayAll(k, rec, Run(k, live, steps).entries, envs);
      && (done.err.None? <==> ReadyRun(k, live, rec, steps, envs))
      && (done.err.None? ==> Related(Run(k, live, steps).v, done.v))
    decreases |steps|
  {
    hide Inv, Related, Live, ReplayEntry, Ready, Undoable, Admissible, ReplayAll;
    if steps == [] {
      ReplayNone(k, rec);
      assert envs == [];
    } else {
      var n := |steps| - 1;
      var before := Run(k, live, steps[..n]);
      var m := |before.entries|;
      assert forall i :: 0 <= i < n ==> steps[..n][..i] == steps[..i];
      RecoveryRefines(k, live, rec, steps[..n], envs[..m]);
      ReplayAppend(k, rec, before.entries, Live(k, before.v, steps[n]).entries, envs[..m], envs[m..]);
      assert envs[..m] + envs[m..] == envs;
      if ReplayAll(k, rec, before.entries, envs[..m]).err.None? {
        RunKeeps(k, live, steps[..n]);
        StepSim(k, before.v, ReplayAll(k, rec, before.entries, envs[..m]).v, steps[n], envs[m..]);
      }
    }
  }
}
