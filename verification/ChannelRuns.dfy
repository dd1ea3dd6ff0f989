/** A channel over a whole run: the log alone says what it holds, and each payment bought the committed result. */
module ChannelRuns {
  import opened Prelude
  import opened Keystream
  import opened VaultTypes
  import opened Ledger
  import opened Channels
  import opened CreditIndex
  import opened Steps
  import opened Invariant
  import opened Preservation
  import opened Runs
  import opened StepFrames

  /** What the log says about an open channel: its deposit, and the requests paid since it was opened. */
  datatype Tally = Tally(deposit: nat, paid: seq<Id>, total: nat)

  function Tallied(t: Option<Tally>, e: Entry, id: Id): Option<Tally>
  {
    match e
    case ChannelOpened(x, _, _, deposit) => if x == id then Some(Tally(deposit, [], 0)) else t
    case ChannelFinalized(x, rid, amount) =>
      if x == id && t.Some? then Some(t.value.(paid := t.value.paid + [rid], total := t.value.total + amount)) else t
    case ChannelClosed(x, _, _, _) => if x == id then None else t
    case _ => t
  }

  function TallyOf(log: seq<Entry>, id: Id): Option<Tally>
  {
    if log == [] then None else Tallied(TallyOf(log[..|log| - 1], id), log[|log| - 1], id)
  }

  /** The channel and its tally agree. */
  ghost predicate Agrees(ch: Channel, t: Tally)
  {
    && ChannelTotal(ch) == t.deposit && ch.earned == t.total
    && Distinct(t.paid) && (forall rid :: rid in t.paid ==> rid in ch.usedIds)
    && (ch.request.Some? ==> ch.request.value.requestId !in t.paid)
  }

  ghost predicate TallyOk(chs: map<Id, Channel>, t: Option<Tally>, id: Id)
  {
    (id in chs <==> t.Some?) && (id in chs ==> Agrees(chs[id], t.value))
  }

  lemma SubmittedAgrees(ch: Channel, t: Tally, rid: Id, amount: nat, hash: Bytes, now: Time)
    requires Agrees(ch, t) && amount <= ch.free && rid !in ch.usedIds
    ensures Agrees(Submitted(ch, rid, amount, hash, now), t)
  {
  }

  lemma PaidAgrees(ch: Channel, t: Tally, now: Time)
    requires Agrees(ch, t) && ch.request.Some? && ch.request.value.amount <= ch.locked && ch.request.value.requestId in ch.usedIds
    ensures var req := ch.request.value;
      Agrees(Paid(ch, req.amount, now), t.(paid := t.paid + [req.requestId], total := t.total + req.amount))
  {
  }

  // ---- What each step does to one channel ----

  /** A step's effect on channel `id` and its tally. */
  ghost predicate Follows(chs: map<Id, Channel>, step: Outcome, id: Id)
  {
    forall t :: TallyOk(chs, t, id) ==> TallyOk(step.v.channels, if step.entries == [] then t else Tallied(t, step.entries[0], id), id)
  }

  lemma FollowsSame(chs: map<Id, Channel>, step: Outcome, id: Id)
    requires step.v.channels == chs && (step.entries != [] ==> forall t :: Tallied(t, step.entries[0], id) == t)
    ensures Follows(chs, step, id)
  {
  }

  /** Another channel is not touched. */
  lemma FollowsAside(chs: map<Id, Channel>, x: Id, ch: Channel, step: Outcome, id: Id)
    requires step.v.channels == chs[x := ch] && x != id && (step.entries != [] ==> forall t :: Tallied(t, step.entries[0], id) == t)
    ensures Follows(chs, step, id)
  {
  }

  lemma OpenFollows(v: Vault, x: Id, c: Pubkey, provider: Id, deposit: nat, now: Time, ok: bool, id: Id)
    requires x !in v.channels
    ensures Follows(v.channels, OpenStep(v, x, c, provider, deposit, now, ok), id)
  {
    hide ReserveBalance;
    var step := OpenStep(v, x, c, provider, deposit, now, ok);
    if step.entries == [] {
      FollowsSame(v.channels, step, id);
    } else {
      BalanceWrites(v, c, deposit);
      assert step.v.channels == v.channels[x := NewChannel(x, c, provider, deposit, now)];
      if x != id { FollowsAside(v.channels, x, NewChannel(x, c, provider, deposit, now), step, id); }
    }
  }

  lemma SubmitFollows(v: Vault, x: Id, rid: Id, amount: nat, hash: Bytes, now: Time, undoneAt: Time, ok: bool, id: Id)
    ensures Follows(v.channels, SubmitStep(v, x, rid, amount, hash, now, undoneAt, ok), id)
  {
    hide Refresh, Agrees, Follows;
    var step := SubmitStep(v, x, rid, amount, hash, now, undoneAt, ok);
    var done := SubmitRequest(v, x, rid, amount, hash, now);
    if done.err.Some? {
      FollowsSame(v.channels, step, id);
    } else if !ok {
      TouchFollows(v, x, undoneAt, id);
    } else {
      RefreshWrites(done.v, v.channels[x].client);
      var ch := Submitted(v.channels[x], rid, amount, hash, now);
      assert step.v.channels == v.channels[x := ch];
      if x != id {
        FollowsAside(v.channels, x, ch, step, id);
      } else {
        SubmittedFollows(v.channels, x, rid, amount, hash, now, step);
      }
    }
  }

  lemma SubmittedFollows(chs: map<Id, Channel>, id: Id, rid: Id, amount: nat, hash: Bytes, now: Time, step: Outcome)
    requires id in chs && amount <= chs[id].free && rid !in chs[id].usedIds
    requires step.v.channels == chs[id := Submitted(chs[id], rid, amount, hash, now)]
    requires step.entries == [RequestSubmitted(id, rid, amount, Some(hash))]
    ensures Follows(chs, step, id)
  {
    hide Agrees;
    forall t | TallyOk(chs, t, id) ensures TallyOk(step.v.channels, Tallied(t, step.entries[0], id), id) {
      SubmittedAgrees(chs[id], t.value, rid, amount, hash, now);
    }
  }

  lemma TouchFollows(v: Vault, x: Id, now: Time, id: Id)
    requires x in v.channels
    ensures Follows(v.channels, Idle(Touch(v, x, now)), id)
  {
  }

  lemma DeliverFollows(k: Crypto, v: Vault, x: Id, d: Delivery, now: Time, undoneAt: Time, ok: bool, id: Id)
    ensures Follows(v.channels, DeliverStep(k, v, x, d, now, undoneAt, ok), id)
  {
    hide DeliveryVerifies, Follows;
    var step := DeliverStep(k, v, x, d, now, undoneAt, ok);
    if step.v == v {
      FollowsSame(v.channels, step, id);
    } else if !ok {
      TouchFollows(v, x, undoneAt, id);
    } else {
      var ch := v.channels[x];
      var ch' := ch.(request := Some(Delivered(ch.request.value, d)), status := Pending, nonce := ch.nonce + 1, updatedAt := now);
      assert step.v.channels == v.channels[x := ch'];
      SameFollows(v.channels, x, ch', step, id);
    }
  }

  /** Rewriting a channel without touching what the tally speaks about. */
  lemma SameFollows(chs: map<Id, Channel>, x: Id, ch': Channel, step: Outcome, id: Id)
    requires x in chs && step.v.channels == chs[x := ch'] && (step.entries != [] ==> forall t :: Tallied(t, step.entries[0], id) == t)
    requires ChannelTotal(ch') == ChannelTotal(chs[x]) && ch'.earned == chs[x].earned && ch'.usedIds == chs[x].usedIds
    requires ch'.request.Some? ==> chs[x].request.Some? && ch'.request.value.requestId == chs[x].request.value.requestId
    ensures Follows(chs, step, id)
  {
  }

  lemma FinalizeFollows(k: Crypto, v: Vault, x: Id, done: Finalized, now: Time, undoneAt: Time, ok: bool, id: Id)
    requires ChannelsOk(k, v.channels) && Handlers.PaidShape(v, x, done, now)
    ensures Follows(v.channels, FinalizeStep(v, x, done, undoneAt, ok), id)
  {
    hide Refresh, Agrees, Follows, DeliveredOk;
    var step := FinalizeStep(v, x, done, undoneAt, ok);
    if done.Refused? {
      FollowsSame(v.channels, step, id);
    } else if !ok {
      TouchFollows(v, x, undoneAt, id);
    } else {
      RefreshWrites(done.v, v.channels[x].client);
      var ch := Paid(v.channels[x], done.request.amount, now);
      assert step.v.channels == v.channels[x := ch];
      if x != id {
        FollowsAside(v.channels, x, ch, step, id);
      } else {
        assert ChannelOk(k, x, v.channels[x]);
        PaidFollows(v.channels, x, now, step);
      }
    }
  }

  lemma PaidFollows(chs: map<Id, Channel>, id: Id, now: Time, step: Outcome)
    requires id in chs && chs[id].request.Some? && chs[id].request.value.amount <= chs[id].locked
    requires chs[id].request.value.requestId in chs[id].usedIds
    requires step.v.channels == chs[id := Paid(chs[id], chs[id].request.value.amount, now)]
    requires step.entries == [ChannelFinalized(id, chs[id].request.value.requestId, chs[id].request.value.amount)]
    ensures Follows(chs, step, id)
  {
    hide Agrees;
    forall t | TallyOk(chs, t, id) ensures TallyOk(step.v.channels, Tallied(t, step.entries[0], id), id) {
      PaidAgrees(chs[id], t.value, now);
    }
  }

  lemma ExpireFollows(k: Crypto, v: Vault, x: Id, now: Time, undoneAt: Time, ok: bool, id: Id)
    requires ChannelsOk(k, v.channels)
    ensures Follows(v.channels, ExpireReqStep(v, x, now, undoneAt, ok), id)
  {
    hide Refresh, Agrees, Follows, DeliveredOk;
    var step := ExpireReqStep(v, x, now, undoneAt, ok);
    if x !in v.channels || !Stale(v.channels[x], now) {
      FollowsSame(v.channels, step, id);
    } else if !ok {
      TouchFollows(v, x, undoneAt, id);
    } else {
      RefreshWrites(ExpireRequest(v, x, now).v, v.channels[x].client);
      assert ChannelOk(k, x, v.channels[x]);
      var ch := Released(v.channels[x], v.channels[x].request.value.amount, now);
      assert step.v.channels == v.channels[x := ch];
      SameFollows(v.channels, x, ch, step, id);
    }
  }

  lemma CloseFollows(k: Crypto, v: Vault, x: Id, sid: Id, now: Time, ok: bool, id: Id)
    requires Inv(k, v)
    ensures Follows(v.channels, CloseStep(v, x, sid, now, ok), id)
  {
    hide Inv, CloseChannel, Refresh, LockedUntil, Agrees;
    CloseNeverStuck(k, v, x, sid, now);
    if x in v.channels && v.channels[x].status == Open { ClosedShape(v, x, sid, now); }
  }

  // ---- Whole runs ----

  predicate Quiet(e: Entry) { !e.ChannelOpened? && !e.ChannelFinalized? && !e.ChannelClosed? }

  lemma {:induction false} QuietLog(log: seq<Entry>, more: seq<Entry>, id: Id)
    requires forall i :: 0 <= i < |more| ==> Quiet(more[i])
    ensures TallyOf(log + more, id) == TallyOf(log, id)
    decreases |more|
  {
    if more == [] {
      assert log + more == log;
    } else {
      var n := |more| - 1;
      assert (log + more)[..|log + more| - 1] == log + more[..n];
      QuietLog(log, more[..n], id);
    }
  }

  lemma OneMore(log: seq<Entry>, e: Entry, id: Id)
    ensures TallyOf(log + [e], id) == Tallied(TallyOf(log, id), e, id)
  {
    assert (log + [e])[..|log|] == log;
  }

  lemma OthersQuiet(k: Crypto, v: Vault, s: Step)
    requires !OnChannel(s)
    ensures forall i :: 0 <= i < |Live(k, v, s).entries| ==> Quiet(Live(k, v, s).entries[i])
  {
    hide Refresh, ApplyBatchConfirmation;
  }

  lemma ChannelStepFollows(k: Crypto, v: Vault, s: Step, id: Id)
    requires Inv(k, v) && Admissible(v, s) && OnChannel(s)
    ensures Follows(v.channels, Live(k, v, s), id) && |Live(k, v, s).entries| <= 1
  {
    hide Follows, MoneyOk, IndexOk, SettledOk, ChannelsOk, OpenStep, SubmitStep, DeliverStep, FinalizeStep, FinalizeOffchain,
      FinalizeOnchain, CloseStep, ExpireReqStep;
    AtMostOne(k, v, s);
    match s
    case OpenCh(x, c, provider, amount, now, ok) => OpenFollows(v, x, c, provider, amount, now, ok, id);
    case Submit(x, rid, amount, hash, now, undoneAt, ok) => SubmitFollows(v, x, rid, amount, hash, now, undoneAt, ok, id);
    case Deliver(x, d, now, undoneAt, ok) => DeliverFollows(k, v, x, d, now, undoneAt, ok, id);
    case Finalize(x, secret, now, undoneAt, ok) =>
      Handlers.OffchainShape(k, v, x, secret, now);
      FinalizeFollows(k, v, x, FinalizeOffchain(k, v, x, secret, now), now, undoneAt, ok, id);
    case Claim(x, full, now, undoneAt, ok) =>
      Handlers.OnchainShape(k, v, x, full, now);
      FinalizeFollows(k, v, x, FinalizeOnchain(k, v, x, full, now), now, undoneAt, ok, id);
    case Close(x, sid, now, ok) => CloseFollows(k, v, x, sid, now, ok, id);
    case ExpireReq(x, now, undoneAt, ok) => ExpireFollows(k, v, x, now, undoneAt, ok, id);
  }

  lemma AtMostOne(k: Crypto, v: Vault, s: Step)
    requires OnChannel(s)
    ensures |Live(k, v, s).entries| <= 1
  {
    hide Refresh, FinalizeOffchain, FinalizeOnchain, CloseChannel, DeliverAdaptor, OpenChannel, SubmitRequest;
  }

  lemma StepTallies(k: Crypto, v: Vault, s: Step, log: seq<Entry>, id: Id)
    requires Inv(k, v) && Admissible(v, s) && TallyOk(v.channels, TallyOf(log, id), id)
    ensures TallyOk(Live(k, v, s).v.channels, TallyOf(log + Live(k, v, s).entries, id), id)
  {
    hide Inv, Admissible, Live, Agrees;
    var step := Live(k, v, s);
    if OnChannel(s) {
      ChannelStepFollows(k, v, s, id);
      if step.entries == [] {
        assert log + step.entries == log;
      } else {
        assert step.entries == [step.entries[0]];
        OneMore(log, step.entries[0], id);
      }
    } else {
      StepWrites(k, v, s);
      WritesSpare(v, step.v, s);
      OthersQuiet(k, v, s);
      QuietLog(log, step.entries, id);
    }
  }

  lemma {:induction false} RunTallies(k: Crypto, steps: seq<Step>, id: Id)
    requires AdmissibleRun(k, EmptyVault, steps)
    ensures TallyOk(Run(k, EmptyVault, steps).v.channels, TallyOf(Run(k, EmptyVault, steps).entries, id), id)
    decreases |steps|
  {
    hide Inv, Live, Admissible, Agrees;
    if steps != [] {
      var n := |steps| - 1;
      RunTallies(k, steps[..n], id);
      EmptyKeeps(k);
      RunKeeps(k, EmptyVault, steps[..n]);
      var before := Run(k, EmptyVault, steps[..n]);
      StepTallies(k, before.v, steps[n], before.entries, id);
    }
  }

  /**
   * In every run an open channel's three balances add up to its deposit, what the provider earned is the sum over
   * distinct finalized requests, the locked part is exactly the active request, and a pending request holds a
   * verified pre-signature.
   */
  lemma ChannelRun(k: Crypto, steps: seq<Step>, id: Id)
    requires AdmissibleRun(k, EmptyVault, steps)
    ensures var done := Run(k, EmptyVault, steps);
      var tally := TallyOf(done.entries, id);
      && (id in done.v.channels <==> tally.Some?)
      && (id in done.v.channels ==>
            var ch := done.v.channels[id];
            && ch.free + ch.locked + ch.earned == tally.value.deposit
            && ch.earned == tally.value.total && Distinct(tally.value.paid)
            && (ch.status == Open <==> ch.request.None?)
            && ch.locked == (if ch.request.Some? then ch.request.value.amount else 0)
            && (ch.request.Some? ==> ch.request.value.requestId !in tally.value.paid)
            && (ch.status == Pending ==> DeliveredOk(k, id, ch.request.value)))
  {
    hide DeliveredOk, MoneyOk, IndexOk, SettledOk, Run, AdmissibleRun, TallyOf;
    RunTallies(k, steps, id);
    EmptyKeeps(k);
    RunKeeps(k, EmptyVault, steps);
    var done := Run(k, EmptyVault, steps);
    if id in done.v.channels { assert ChannelOk(k, id, done.v.channels[id]); }
  }

  /** A provider is paid only against a plaintext whose hash is the one it committed to when delivering. */
  lemma PaidForResult(k: Crypto, v: Vault, id: Id, t: nat, secret: Bytes, now: Time)
    requires ChannelsOk(k, v.channels)
    requires FinalizeWithSecret(k, v, id, t, secret, now).Finalized?
    ensures var done := FinalizeWithSecret(k, v, id, t, secret, now);
      && done.request.resultHash == Some(k.hash(done.plaintext))
      && done.request.ciphertext.Some? && done.plaintext == Xored(k.stream, secret, done.request.ciphertext.value)
      && Xored(k.stream, secret, done.plaintext) == done.request.ciphertext.value
  {
    hide SecretOpens, DeliveryVerifies, Xored;
    assert ChannelOk(k, id, v.channels[id]);
    XorInvolution(k.stream, secret, v.channels[id].request.value.ciphertext.value);
  }
}
