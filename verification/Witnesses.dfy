/** Runs from the empty vault that reach the cases in which the vault and its log, or its books, come apart. */
module Witnesses {
  import opened Prelude
  import opened VaultTypes
  import opened Ledger
  import opened Channels
  import opened AdaptorSig
  import opened ScalarBytes
  import opened Keystream
  import opened CreditIndex
  import opened Steps
  import opened BatchSelect
  import opened CursorPass
  import opened Invariant
  import opened Preservation
  import opened Replay
  import opened Runs
  import opened RecoveryRuns
  import opened FullReplay
  import opened ProviderTwin
  import Handlers
  import StepFrames

  /** A provider is registered and a client deposits. */
  function Opening(p: Provider, c: Pubkey, amount: nat, signature: Id): seq<Step>
  {
    [Register(p, true)] + [Deposit(signature, c, amount, 1, true)]
  }

  function Opened(p: Provider, c: Pubkey, amount: nat, signature: Id): Vault
  {
    EmptyVault.(providers := map[p.providerId := p], clients := map[c := Balance(amount, 0, 0, amount, 0)],
                processed := {signature}, lastSignature := Some(signature), lastSlot := 1)
  }

  lemma OpeningRun(k: Crypto, p: Provider, c: Pubkey, amount: nat, signature: Id)
    ensures AdmissibleRun(k, EmptyVault, Opening(p, c, amount, signature))
    ensures Run(k, EmptyVault, Opening(p, c, amount, signature)) ==
      Outcome(Opened(p, c, amount, signature), [ProviderRegistered(p)] + [DepositApplied(c, amount, 1, signature)])
  {
    hide Run, AdmissibleRun;
    RunNone(k, EmptyVault);
    RunSnoc(k, EmptyVault, [], Register(p, true));
    assert [] + [Register(p, true)] == [Register(p, true)];
    RunSnoc(k, EmptyVault, [Register(p, true)], Deposit(signature, c, amount, 1, true));
  }

  /** Whatever else a run does, its unlogged steps leave no trace if it neither plans a batch nor fails to settle. */
  lemma PlainlyUndoable(k: Crypto, v: Vault, steps: seq<Step>)
    requires forall s :: s in steps ==> !s.PlanBatch? && (s.Settle? ==> s.ok)
    ensures UndoableRun(k, v, steps)
  {
    hide Run;
    forall i | 0 <= i < |steps| ensures Undoable(Run(k, v, steps[..i]).v, steps[i]) { assert steps[i] in steps; }
  }

  // ---- A credit dropped by a failed settlement ----

  lemma VerifyFacts(v: Vault, vid: Id, c: Pubkey, provider: Id, amount: nat, d: ReservationDetail)
    requires provider in v.providers && vid !in v.payments && c in v.clients && amount <= v.clients[c].free
    ensures var step := VerifyStep(v, vid, vid, c, provider, amount, d, true);
      && step.entries == [ReservationCreated(vid, vid, c, provider, amount, Some(d))]
      && step.v == v.(reservations := v.reservations[vid := NewReservation(vid, vid, c, provider, amount, d)],
                      payments := v.payments[vid := vid], clients := step.v.clients)
      && c in step.v.clients && step.v.clients[c].free == v.clients[c].free - amount
  {
    hide LockedUntil;
  }

  lemma SettleFacts(k: Crypto, v: Vault, vid: Id, sid: Id, now: Time)
    requires Inv(k, v) && vid in v.reservations && v.reservations[vid].status == Reserved && now <= v.reservations[vid].expiresAt
    requires v.reservations[vid].provider !in v.credits
    ensures var r, v' := v.reservations[vid], SettleStep(v, vid, sid, now, true).v;
      && v' == v.(reservations := v.reservations[vid := AsSettled(r, sid, now)], credits := v'.credits, clients := v'.clients, history := v'.history)
      && r.provider in v'.credits && v'.credits[r.provider].amount == r.amount && v'.credits[r.provider].ids == [sid]
      && v'.credits.Keys == v.credits.Keys + {r.provider} && v'.history.Keys == v.history.Keys + {sid}
      && r.client in v.clients && r.client in v'.clients && v'.clients[r.client].free == v.clients[r.client].free
  {
    hide MoneyOk, SettledOk, ChannelsOk, PaymentsOk, LockedUntil, SettleStep;
    ReservationLocked(v, vid);
    SettleCommitShape(v, vid, sid, now);
    assert [] + [sid] == [sid];
  }

  /** Five deposited; nothing reserved and settled, so that the provider's credit owes nothing; then five reserved. */
  function BeforeDrop(p: Provider, c: Pubkey, signature: Id, a: Id, b: Id, sid: Id, d: ReservationDetail, now: Time): seq<Step>
  {
    Opening(p, c, 5, signature) + [Verify(a, a, c, p.providerId, 0, d, true)] + [Settle(a, sid, now, true)]
      + [Verify(b, b, c, p.providerId, 5, d, true)]
  }

  lemma VerifyLive(k: Crypto, v: Vault, vid: Id, c: Pubkey, provider: Id, amount: nat, d: ReservationDetail)
    ensures Live(k, v, Verify(vid, vid, c, provider, amount, d, true)) == VerifyStep(v, vid, vid, c, provider, amount, d, true)
  {
    hide VerifyStep;
  }

  lemma SettleLive(k: Crypto, v: Vault, vid: Id, sid: Id, now: Time, ok: bool)
    ensures Live(k, v, Settle(vid, sid, now, ok)) == SettleStep(v, vid, sid, now, ok)
  {
    hide SettleStep;
  }

  /** Nothing reserved. */
  ghost predicate Emptily(v: Vault, p: Provider, c: Pubkey, a: Id, d: ReservationDetail)
  {
    && v.providers == map[p.providerId := p] && v.payments == map[a := a] && v.credits == map[] && v.history == map[]
    && v.reservations == map[a := NewReservation(a, a, c, p.providerId, 0, d)] && c in v.clients && v.clients[c].free == 5
  }

  /** Nothing owed. */
  ghost predicate OwingNothing(v: Vault, p: Provider, c: Pubkey, a: Id, sid: Id, d: ReservationDetail, now: Time)
  {
    && v.providers == map[p.providerId := p] && v.payments == map[a := a] && v.credits.Keys == {p.providerId}
    && v.credits[p.providerId].amount == 0 && v.credits[p.providerId].ids == [sid] && v.history.Keys == {sid}
    && v.reservations == map[a := AsSettled(NewReservation(a, a, c, p.providerId, 0, d), sid, now)]
    && c in v.clients && v.clients[c].free == 5
  }

  lemma DropStart(k: Crypto, p: Provider, c: Pubkey, signature: Id, a: Id, d: ReservationDetail)
    ensures var steps := Opening(p, c, 5, signature) + [Verify(a, a, c, p.providerId, 0, d, true)];
      AdmissibleRun(k, EmptyVault, steps) && Emptily(Run(k, EmptyVault, steps).v, p, c, a, d)
  {
    hide Run, AdmissibleRun, Live, VerifyStep;
    OpeningRun(k, p, c, 5, signature);
    VerifyFacts(Opened(p, c, 5, signature), a, c, p.providerId, 0, d);
    VerifyLive(k, Opened(p, c, 5, signature), a, c, p.providerId, 0, d);
    RunSnoc(k, EmptyVault, Opening(p, c, 5, signature), Verify(a, a, c, p.providerId, 0, d, true));
  }

  lemma DropSettled(k: Crypto, p: Provider, c: Pubkey, signature: Id, a: Id, sid: Id, d: ReservationDetail, now: Time)
    requires now <= d.expiresAt
    ensures var steps := Opening(p, c, 5, signature) + [Verify(a, a, c, p.providerId, 0, d, true)] + [Settle(a, sid, now, true)];
      AdmissibleRun(k, EmptyVault, steps) && OwingNothing(Run(k, EmptyVault, steps).v, p, c, a, sid, d, now)
  {
    hide Run, AdmissibleRun, Live, SettleStep, Inv, Opening;
    var steps := Opening(p, c, 5, signature) + [Verify(a, a, c, p.providerId, 0, d, true)];
    DropStart(k, p, c, signature, a, d);
    EmptyKeeps(k);
    RunKeeps(k, EmptyVault, steps);
    SettleFacts(k, Run(k, EmptyVault, steps).v, a, sid, now);
    SettleLive(k, Run(k, EmptyVault, steps).v, a, sid, now, true);
    RunSnoc(k, EmptyVault, steps, Settle(a, sid, now, true));
  }

  lemma DropSetUp(k: Crypto, p: Provider, c: Pubkey, signature: Id, a: Id, b: Id, sid: Id, sid': Id, d: ReservationDetail, now: Time)
    requires a != b && sid != sid' && now <= d.expiresAt
    ensures var steps := BeforeDrop(p, c, signature, a, b, sid, d, now);
      && AdmissibleRun(k, EmptyVault, steps)
      && var v := Run(k, EmptyVault, steps).v;
      && Admissible(v, Settle(b, sid', now, false)) && !Undoable(v, Settle(b, sid', now, false))
  {
    hide Run, AdmissibleRun, Live, VerifyStep, Opening;
    var steps := Opening(p, c, 5, signature) + [Verify(a, a, c, p.providerId, 0, d, true)] + [Settle(a, sid, now, true)];
    DropSettled(k, p, c, signature, a, sid, d, now);
    var v := Run(k, EmptyVault, steps).v;
    VerifyFacts(v, b, c, p.providerId, 5, d);
    VerifyLive(k, v, b, c, p.providerId, 5, d);
    RunSnoc(k, EmptyVault, steps, Verify(b, b, c, p.providerId, 5, d, true));
  }

  lemma DropLockers(k: Crypto, p: Provider, c: Pubkey, signature: Id, a: Id, b: Id, sid: Id, d: ReservationDetail, now: Time)
    ensures var steps := BeforeDrop(p, c, signature, a, b, sid, d, now); LockersDeposited(k, steps) && UndoableRun(k, EmptyVault, steps)
  {
    hide Run, AdmissibleRun;
    var steps := BeforeDrop(p, c, signature, a, b, sid, d, now);
    PlainlyUndoable(k, EmptyVault, steps);
    OpeningRun(k, p, c, 5, signature);
    var log := Run(k, EmptyVault, Opening(p, c, 5, signature)).entries;
    assert log[1] == DepositApplied(c, 5, 1, signature);
    assert steps[..2] == Opening(p, c, 5, signature);
    forall i | 0 <= i < |steps| && Locking(steps[i]).Some? && Locking(steps[i]).value.1 == 0
      ensures DepositLogged(Run(k, EmptyVault, steps[..i]).entries, Locking(steps[i]).value.0)
    {
      assert i == 2;
    }
  }

  /** A run whose last step fails to log a settlement and so drops a credit that the log still brings back. */
  lemma DroppedCreditReached(k: Crypto, p: Provider, c: Pubkey, signature: Id, a: Id, b: Id, sid: Id, sid': Id,
                             d: ReservationDetail, now: Time, envs: seq<Env>, t: Time)
    requires a != b && sid != sid' && now <= d.expiresAt
    requires |envs| == |Run(k, EmptyVault, BeforeDrop(p, c, signature, a, b, sid, d, now)).entries| && Prompt(envs, t)
    ensures var steps := BeforeDrop(p, c, signature, a, b, sid, d, now) + [Settle(b, sid', now, false)];
      var live := Run(k, EmptyVault, steps);
      && AdmissibleRun(k, EmptyVault, steps) && |live.entries| == |envs|
      && var done := ReplayAll(k, EmptyVault, live.entries, envs);
      && done.err.None? && !Related(live.v, RefreshAll(done.v))
  {
    hide Run, AdmissibleRun, UndoableRun, Undoable, LockersDeposited, Inv, Related, RefreshAll, ReplayAll, Live, Admissible, BeforeDrop;
    var steps := BeforeDrop(p, c, signature, a, b, sid, d, now);
    var last := Settle(b, sid', now, false);
    DropSetUp(k, p, c, signature, a, b, sid, sid', d, now);
    DropLockers(k, p, c, signature, a, b, sid, d, now);
    RunSnoc(k, EmptyVault, steps, last);
    FullRecovery(k, steps, envs, t);
    EmptyKeeps(k);
    RunKeeps(k, EmptyVault, steps);
    var live := Run(k, EmptyVault, steps);
    DroppedCreditDiverges(k, live.v, RefreshAll(ReplayAll(k, EmptyVault, live.entries, envs).v), last);
    assert live.entries + [] == live.entries;
  }

  // ---- A withdrawal event that does not match ----

  function BeforeMismatch(c: Pubkey, recipient: Pubkey, signature: Id, now: Time): seq<Step>
  {
    [Deposit(signature, c, 5, 1, true)] + [AuthorizeWithdraw(c, recipient, 5, now, true)]
  }

  lemma DepositFirst(k: Crypto, c: Pubkey, signature: Id)
    ensures var steps := [Deposit(signature, c, 5, 1, true)];
      && AdmissibleRun(k, EmptyVault, steps)
      && Run(k, EmptyVault, steps).v == EmptyVault.(clients := map[c := Balance(5, 0, 0, 5, 0)], processed := {signature},
                                                    lastSignature := Some(signature), lastSlot := 1)
  {
    hide Run, AdmissibleRun;
    RunNone(k, EmptyVault);
    RunSnoc(k, EmptyVault, [], Deposit(signature, c, 5, 1, true));
    assert [] + [Deposit(signature, c, 5, 1, true)] == [Deposit(signature, c, 5, 1, true)];
  }

  lemma MismatchSetUp(k: Crypto, c: Pubkey, recipient: Pubkey, signature: Id, now: Time)
    ensures var steps := BeforeMismatch(c, recipient, signature, now);
      && AdmissibleRun(k, EmptyVault, steps) && UndoableRun(k, EmptyVault, steps) && LockersDeposited(k, steps)
      && var v := Run(k, EmptyVault, steps).v;
      && v.processed == {signature} && v.withdrawals == map[1 := Withdrawal(c, recipient, 5, 1, now, now + WITHDRAW_EXPIRY_SEC)]
  {
    hide Run, AdmissibleRun, UndoableRun, LockedUntil, DepositLogged;
    DepositFirst(k, c, signature);
    RunSnoc(k, EmptyVault, [Deposit(signature, c, 5, 1, true)], AuthorizeWithdraw(c, recipient, 5, now, true));
    PlainlyUndoable(k, EmptyVault, BeforeMismatch(c, recipient, signature, now));
  }

  /** A signed withdrawal, then an event with another recipient: the withdrawal is gone from the vault but not from the log. */
  lemma MismatchReached(k: Crypto, c: Pubkey, recipient: Pubkey, other: Pubkey, signature: Id, event: Id, now: Time,
                        envs: seq<Env>, t: Time)
    requires recipient != other && signature != event
    requires |envs| == |Run(k, EmptyVault, BeforeMismatch(c, recipient, signature, now)).entries| && Prompt(envs, t)
    ensures var steps := BeforeMismatch(c, recipient, signature, now)
        + [ObserveWithdraw(event, c, other, 5, 1, now + WITHDRAW_EXPIRY_SEC, 2, true)];
      var live := Run(k, EmptyVault, steps);
      && |live.entries| == |envs|
      && var done := ReplayAll(k, EmptyVault, live.entries, envs);
      && done.err.None? && !Related(live.v, RefreshAll(done.v))
  {
    hide Run, AdmissibleRun, UndoableRun, LockersDeposited, Related, RefreshAll, ReplayAll, Live, BeforeMismatch;
    var steps := BeforeMismatch(c, recipient, signature, now);
    var last := ObserveWithdraw(event, c, other, 5, 1, now + WITHDRAW_EXPIRY_SEC, 2, true);
    MismatchSetUp(k, c, recipient, signature, now);
    RunSnoc(k, EmptyVault, steps, last);
    FullRecovery(k, steps, envs, t);
    var live := Run(k, EmptyVault, steps);
    MismatchDiverges(k, live.v, RefreshAll(ReplayAll(k, EmptyVault, live.entries, envs).v), last);
    assert live.entries + [] == live.entries;
  }

  // ---- A channel that is opened, used once and closed ----

  /** What a channel run is about: its ids, the provider's key and nonce, the secret, the result and the time. */
  datatype Deal = Deal(id: Id, rid: Id, hash: Bytes, key: nat, nonce: nat, raw: Bytes, result: Bytes, sid: Id, now: Time)

  /** The provider registered with the key it signs deliveries with. */
  ghost predicate SignsAs(k: Crypto, p: Provider, deal: Deal)
  {
    p.participant == Some(k.curve.compress(Mul(k.curve, deal.key, k.curve.base)))
  }

  ghost function DeliveryFor(k: Crypto, deal: Deal): Delivery
  {
    Artifact(k, deal.id, deal.rid, 1, deal.hash, deal.key, deal.nonce, deal.raw, deal.result)
  }

  function Submitting(p: Provider, c: Pubkey, signature: Id, deal: Deal): seq<Step>
  {
    Opening(p, c, 1, signature) + [OpenCh(deal.id, c, p.providerId, 1, deal.now, true)]
      + [Submit(deal.id, deal.rid, 1, deal.hash, deal.now, deal.now, true)]
  }

  ghost function Delivering(k: Crypto, p: Provider, c: Pubkey, signature: Id, deal: Deal): seq<Step>
  {
    Submitting(p, c, signature, deal) + [Deliver(deal.id, DeliveryFor(k, deal), deal.now, deal.now, true)]
  }

  ghost function Closing(k: Crypto, p: Provider, c: Pubkey, signature: Id, deal: Deal): seq<Step>
  {
    Delivering(k, p, c, signature, deal)
      + [Finalize(deal.id, ScalarToBytes(CanonicalSecret(deal.raw)), deal.now, deal.now, true)] + [Close(deal.id, deal.sid, deal.now, true)]
  }

  /** The vault holds the one channel and no settlements. */
  ghost predicate Holding(v: Vault, p: Provider, c: Pubkey, id: Id, ch: Channel)
  {
    && v.providers == map[p.providerId := p] && v.channels == map[id := ch] && v.credits == map[] && v.history == map[]
    && v.reservations == map[]
  }

  lemma OpenFacts(k: Crypto, p: Provider, c: Pubkey, signature: Id, deal: Deal)
    requires p.participant.Some?
    ensures var step := Live(k, Opened(p, c, 1, signature), OpenCh(deal.id, c, p.providerId, 1, deal.now, true));
      Holding(step.v, p, c, deal.id, NewChannel(deal.id, c, p.providerId, 1, deal.now)) && c in step.v.clients
      && step.entries == [ChannelOpened(deal.id, c, p.providerId, 1)]
  {
  }

  lemma SubmitStepFacts(k: Crypto, v: Vault, p: Provider, c: Pubkey, deal: Deal)
    requires Holding(v, p, c, deal.id, NewChannel(deal.id, c, p.providerId, 1, deal.now))
    ensures var step := Live(k, v, Submit(deal.id, deal.rid, 1, deal.hash, deal.now, deal.now, true));
      Holding(step.v, p, c, deal.id, Submitted(NewChannel(deal.id, c, p.providerId, 1, deal.now), deal.rid, 1, deal.hash, deal.now))
      && step.entries == [RequestSubmitted(deal.id, deal.rid, 1, Some(deal.hash))]
  {
    hide LockedUntil;
  }

  lemma SubmittingRun(k: Crypto, p: Provider, c: Pubkey, signature: Id, deal: Deal)
    requires p.participant.Some?
    ensures var steps := Submitting(p, c, signature, deal);
      var live := Run(k, EmptyVault, steps);
      && AdmissibleRun(k, EmptyVault, steps)
      && Holding(live.v, p, c, deal.id, Submitted(NewChannel(deal.id, c, p.providerId, 1, deal.now), deal.rid, 1, deal.hash, deal.now))
      && |live.entries| == 4 && live.entries[3] == RequestSubmitted(deal.id, deal.rid, 1, Some(deal.hash))
  {
    hide Run, AdmissibleRun, Live;
    var first := Opening(p, c, 1, signature);
    var second := first + [OpenCh(deal.id, c, p.providerId, 1, deal.now, true)];
    OpeningRun(k, p, c, 1, signature);
    OpenFacts(k, p, c, signature, deal);
    RunSnoc(k, EmptyVault, first, OpenCh(deal.id, c, p.providerId, 1, deal.now, true));
    SubmitStepFacts(k, Run(k, EmptyVault, second).v, p, c, deal);
    RunSnoc(k, EmptyVault, second, Submit(deal.id, deal.rid, 1, deal.hash, deal.now, deal.now, true));
  }

  /** The delivery is accepted, and its secret then finalizes the request. */
  lemma DeliverFacts(k: Crypto, v: Vault, p: Provider, c: Pubkey, deal: Deal)
    requires Lawful(k.curve) && Inv(k, v) && SignsAs(k, p, deal)
    requires Holding(v, p, c, deal.id, Submitted(NewChannel(deal.id, c, p.providerId, 1, deal.now), deal.rid, 1, deal.hash, deal.now))
    ensures var step := Live(k, v, Deliver(deal.id, DeliveryFor(k, deal), deal.now, deal.now, true));
      && deal.id in step.v.channels && Holding(step.v, p, c, deal.id, step.v.channels[deal.id])
      && step.entries == [AdaptorDelivered(deal.id, deal.rid, Some(DeliveryFor(k, deal)))]
      && var paid := FinalizeOffchain(k, step.v, deal.id, ScalarToBytes(CanonicalSecret(deal.raw)), deal.now);
      && paid.Finalized? && deal.id in paid.v.channels && paid.v.channels[deal.id].earned == 1
  {
    hide MoneyOk, IndexOk, SettledOk, Lawful, DeliveryVerifies, FinalizeOffchain, ScalarToBytes, CanonicalSecret, PreSign, Xored, Mul;
    DeliveryIsPaid(k, v, deal.id, deal.key, deal.nonce, deal.raw, deal.result, deal.now, deal.now);
  }

  lemma DeliveringRun(k: Crypto, p: Provider, c: Pubkey, signature: Id, deal: Deal)
    requires Lawful(k.curve) && SignsAs(k, p, deal)
    ensures var steps := Delivering(k, p, c, signature, deal);
      var live := Run(k, EmptyVault, steps);
      && AdmissibleRun(k, EmptyVault, steps)
      && deal.id in live.v.channels && Holding(live.v, p, c, deal.id, live.v.channels[deal.id])
      && live.entries == Run(k, EmptyVault, Submitting(p, c, signature, deal)).entries + [AdaptorDelivered(deal.id, deal.rid, Some(DeliveryFor(k, deal)))]
      && var paid := FinalizeOffchain(k, live.v, deal.id, ScalarToBytes(CanonicalSecret(deal.raw)), deal.now);
      && paid.Finalized? && deal.id in paid.v.channels && paid.v.channels[deal.id].earned == 1
  {
    hide Run, AdmissibleRun, Live, Inv, Submitting, Holding, FinalizeOffchain, Lawful, DeliveryFor;
    var steps := Submitting(p, c, signature, deal);
    SubmittingRun(k, p, c, signature, deal);
    EmptyKeeps(k);
    RunKeeps(k, EmptyVault, steps);
    DeliverFacts(k, Run(k, EmptyVault, steps).v, p, c, deal);
    RunSnoc(k, EmptyVault, steps, Deliver(deal.id, DeliveryFor(k, deal), deal.now, deal.now, true));
  }

  lemma FinalizeFacts(k: Crypto, v: Vault, p: Provider, c: Pubkey, deal: Deal)
    requires Inv(k, v) && deal.id in v.channels && Holding(v, p, c, deal.id, v.channels[deal.id])
    requires var paid := FinalizeOffchain(k, v, deal.id, ScalarToBytes(CanonicalSecret(deal.raw)), deal.now);
      paid.Finalized? && deal.id in paid.v.channels && paid.v.channels[deal.id].earned == 1
    ensures var v' := Live(k, v, Finalize(deal.id, ScalarToBytes(CanonicalSecret(deal.raw)), deal.now, deal.now, true)).v;
      && deal.id in v'.channels && Holding(v', p, c, deal.id, v'.channels[deal.id])
      && v'.channels[deal.id].earned == 1 && v'.channels[deal.id].status == Open && v'.channels[deal.id].provider == v.channels[deal.id].provider
  {
    hide Inv, FinalizeOffchain, Refresh, ScalarToBytes, CanonicalSecret;
    var secret := ScalarToBytes(CanonicalSecret(deal.raw));
    var paid := FinalizeOffchain(k, v, deal.id, secret, deal.now);
    Handlers.OffchainShape(k, v, deal.id, secret, deal.now);
    StepFrames.RefreshWrites(paid.v, v.channels[deal.id].client);
  }

  lemma CloseStepFacts(k: Crypto, v: Vault, p: Provider, c: Pubkey, deal: Deal)
    requires Inv(k, v) && deal.id in v.channels && Holding(v, p, c, deal.id, v.channels[deal.id])
    requires v.channels[deal.id].earned == 1 && v.channels[deal.id].status == Open
    ensures Admissible(v, Close(deal.id, deal.sid, deal.now, true))
    ensures var v' := Live(k, v, Close(deal.id, deal.sid, deal.now, true)).v;
      && v'.history == map[] && v'.credits.Keys == {p.providerId}
      && v'.credits[p.providerId].amount == 1 && v'.credits[p.providerId].ids == [deal.sid]
  {
    hide Inv, LockedUntil, CloseStep;
    CloseOutcome(k, v, deal.id, deal.sid, deal.now, true);
  }

  /** The run leaves the provider a credit that no settlement record backs. */
  lemma ClosingRun(k: Crypto, p: Provider, c: Pubkey, signature: Id, deal: Deal)
    requires Lawful(k.curve) && SignsAs(k, p, deal)
    ensures var steps := Closing(k, p, c, signature, deal);
      var v := Run(k, EmptyVault, steps).v;
      && AdmissibleRun(k, EmptyVault, steps)
      && v.history == map[] && v.credits.Keys == {p.providerId}
      && v.credits[p.providerId].amount == 1 && v.credits[p.providerId].ids == [deal.sid]
  {
    hide Run, AdmissibleRun, Live, Inv, Holding, FinalizeOffchain, Delivering, Lawful, ScalarToBytes, CanonicalSecret;
    var first := Delivering(k, p, c, signature, deal);
    var pay := Finalize(deal.id, ScalarToBytes(CanonicalSecret(deal.raw)), deal.now, deal.now, true);
    EmptyKeeps(k);
    DeliveringRun(k, p, c, signature, deal);
    RunKeeps(k, EmptyVault, first);
    FinalizeFacts(k, Run(k, EmptyVault, first).v, p, c, deal);
    RunSnoc(k, EmptyVault, first, pay);
    RunKeeps(k, EmptyVault, first + [pay]);
    CloseStepFacts(k, Run(k, EmptyVault, first + [pay]).v, p, c, deal);
    RunSnoc(k, EmptyVault, first + [pay], Close(deal.id, deal.sid, deal.now, true));
  }

  ghost predicate NoneLocksNothing(steps: seq<Step>) { forall s :: s in steps && Locking(s).Some? ==> Locking(s).value.1 > 0 }

  lemma NoneLocksNothingDeposits(k: Crypto, steps: seq<Step>)
    requires NoneLocksNothing(steps)
    ensures LockersDeposited(k, steps)
  {
    hide Run, DepositLogged;
    forall i | 0 <= i < |steps| && Locking(steps[i]).Some? ensures Locking(steps[i]).value.1 > 0 { assert steps[i] in steps; }
  }

  /** Planning a batch then loses the provider's money, and the vault is no longer the one its log recovers. */
  lemma PruneReached(k: Crypto, p: Provider, c: Pubkey, signature: Id, deal: Deal, now: Time, mode: Mode, config: Config,
                     envs: seq<Env>, t: Time)
    requires Lawful(k.curve) && SignsAs(k, p, deal)
    requires |envs| == |Run(k, EmptyVault, Closing(k, p, c, signature, deal)).entries| && Prompt(envs, t)
    ensures var before := Closing(k, p, c, signature, deal);
      var steps := before + [PlanBatch([p.providerId], now, mode, config)];
      var live := Run(k, EmptyVault, steps);
      && AdmissibleRun(k, EmptyVault, steps) && |live.entries| == |envs|
      && Lost(live.v) == Lost(Run(k, EmptyVault, before).v) + 1
      && var done := ReplayAll(k, EmptyVault, live.entries, envs);
      && done.err.None? && !Related(live.v, RefreshAll(done.v))
  {
    hide Run, AdmissibleRun, UndoableRun, LockersDeposited, Related, RefreshAll, ReplayAll, Live, Inv, Lost, Planned, Lawful;
    var steps := Closing(k, p, c, signature, deal);
    var last := PlanBatch([p.providerId], now, mode, config);
    ClosingRun(k, p, c, signature, deal);
    PlainlyUndoable(k, EmptyVault, steps);
    NoneLocksNothingDeposits(k, steps);
    FullRecovery(k, steps, envs, t);
    EmptyKeeps(k);
    RunKeeps(k, EmptyVault, steps);
    RunSnoc(k, EmptyVault, steps, last);
    var live := Run(k, EmptyVault, steps);
    PlanLive(k, live.v, [p.providerId], now, mode, config);
    assert deal.sid in live.v.credits[p.providerId].ids;
    BatchCursors.PruneDiverges(k, live.v, RefreshAll(ReplayAll(k, EmptyVault, live.entries, envs).v), [p.providerId], now, mode, config);
    StepKeeps(k, live.v, last);
    LossIsOne(live.v, p.providerId, deal.sid);
    assert live.entries + [] == live.entries;
  }

  lemma PlanLive(k: Crypto, v: Vault, order: seq<Id>, now: Time, mode: Mode, config: Config)
    ensures Live(k, v, PlanBatch(order, now, mode, config)) == Idle(Planned(v, order, now, mode, config))
  {
    hide Planned;
  }

  lemma LossIsOne(v: Vault, p: Id, sid: Id)
    requires v.credits.Keys == {p} && v.credits[p].amount == 1 && v.credits[p].ids == [sid] && sid !in v.history
    ensures Sums.Sum(v.credits, UnbackedOf(v.history)) == 1
  {
    assert HistSum([sid], v.history) == HistSum([], v.history);
    Sums.SumSplit(v.credits, UnbackedOf(v.history), p);
    assert v.credits - {p} == map[];
  }

  // ---- A delivery replayed too late ----

  /** A request that is replayed is stamped with the clock of the replay. */
  lemma LateDelivery(k: Crypto, v: Vault, deal: Deal, d: Delivery, submitted: Env, delivered: Env)
    requires delivered.now > submitted.now + REQUEST_EXPIRY_SEC
    requires ReplayEntry(k, v, RequestSubmitted(deal.id, deal.rid, 1, Some(deal.hash)), submitted).err.None?
    ensures var v' := ReplayEntry(k, v, RequestSubmitted(deal.id, deal.rid, 1, Some(deal.hash)), submitted).v;
      ReplayEntry(k, v', AdaptorDelivered(deal.id, deal.rid, Some(d)), delivered).err == Some(ChannelRequestExpired)
  {
    hide DeliveryVerifies;
  }

  /** The log of an accepted delivery is refused when replay takes longer than a request lives to get from one entry to the next. */
  lemma {:induction false} LateDeliveryReached(k: Crypto, p: Provider, c: Pubkey, signature: Id, deal: Deal, envs: seq<Env>)
    requires Lawful(k.curve) && SignsAs(k, p, deal)
    requires |envs| == 5 && envs[4].now > envs[3].now + REQUEST_EXPIRY_SEC
    ensures var steps := Delivering(k, p, c, signature, deal);
      var live := Run(k, EmptyVault, steps);
      && AdmissibleRun(k, EmptyVault, steps) && |live.entries| == 5
      && ReplayAll(k, EmptyVault, live.entries, envs).err.Some?
  {
    hide Run, AdmissibleRun, ReplayEntry, Submitting, Delivering, DeliveryFor, Lawful, Holding, FinalizeOffchain;
    var steps := Delivering(k, p, c, signature, deal);
    SubmittingRun(k, p, c, signature, deal);
    DeliveringRun(k, p, c, signature, deal);
    var log := Run(k, EmptyVault, steps).entries;
    var d := DeliveryFor(k, deal);
    assert log[4] == AdaptorDelivered(deal.id, deal.rid, Some(d)) && log[3] == RequestSubmitted(deal.id, deal.rid, 1, Some(deal.hash));
    assert log[..4][..3] == log[..3] && envs[..4][..3] == envs[..3];
    var before := ReplayAll(k, EmptyVault, log[..3], envs[..3]);
    if before.err.None? && ReplayEntry(k, before.v, log[3], envs[3]).err.None? {
      LateDelivery(k, before.v, deal, d, envs[3], envs[4]);
    }
  }
}
