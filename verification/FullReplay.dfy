/** Replay from an empty vault: what the log alone says about clients, counters and request times. */
module FullReplay {
  import opened Prelude
  import opened Sums
  import opened VaultTypes
  import opened Ledger
  import opened Channels
  import opened Steps
  import opened Invariant
  import opened BatchLemmas
  import opened Replay
  import opened Runs
  import opened RecoveryRuns

  predicate DepositLogged(log: seq<Entry>, c: Pubkey)
  {
    exists i :: 0 <= i < |log| && log[i].DepositApplied? && log[i].client == c
  }

  datatype Counters = Counters(receipt: nat, withdraw: nat, slot: nat)

  function CountersOf(v: Vault): Counters { Counters(v.receiptNonce, v.withdrawNonce, v.lastSlot) }

  /** What an entry raises the counters to. */
  function Raised(c: Counters, e: Entry): Counters
  {
    match e
    case DepositApplied(_, _, slot, _) => c.(slot := Max(c.slot, slot))
    case WithdrawAuthorized(w) => c.(withdraw := Max(c.withdraw, w.nonce + 1))
    case WithdrawApplied(_, _, _, n, _, slot, _) => c.(withdraw := Max(c.withdraw, n + 1), slot := Max(c.slot, slot))
    case ReceiptIssued(n) => c.(receipt := Max(c.receipt, n + 1))
    case ReceiptMirrored(n) => c.(receipt := Max(c.receipt, n + 1))
    case _ => c
  }

  function RaisedBy(c: Counters, log: seq<Entry>): Counters
  {
    if log == [] then c else Raised(RaisedBy(c, log[..|log| - 1]), log[|log| - 1])
  }

  /** A step that leaves the set of clients and the counters alone. */
  ghost predicate Frame(v: Vault, v': Vault, c: Pubkey)
  {
    (c in v'.clients <==> c in v.clients) && CountersOf(v') == CountersOf(v)
  }

  /** One that leaves the channels alone too. */
  ghost predicate Aside(v: Vault, v': Vault, c: Pubkey) { Frame(v, v', c) && v'.channels == v.channels }

  lemma BalanceAside(v: Vault, d: Pubkey, b: Balance, c: Pubkey)
    requires d in v.clients
    ensures Aside(v, WithBalance(v, d, b), c)
  {
  }

  lemma RefreshAside(v: Vault, d: Pubkey, c: Pubkey)
    ensures Aside(v, Refresh(v, d).v, c)
  {
    hide LockedUntil, WithBalance;
    if d in v.clients { BalanceAside(v, d, v.clients[d].(maxLock := LockedUntil(d, v.reservations, v.withdrawals, v.channels)), c); }
  }

  lemma ReserveAside(v: Vault, d: Pubkey, amount: nat, c: Pubkey)
    ensures Aside(v, ReserveBalance(v, d, amount).v, c)
  {
    hide WithBalance;
    if d in v.clients && amount <= v.clients[d].free {
      var b := v.clients[d];
      BalanceAside(v, d, b.(free := b.free - amount, locked := b.locked + amount), c);
    }
  }

  lemma ReleaseAside(v: Vault, d: Pubkey, amount: nat, c: Pubkey)
    ensures Aside(v, ReleaseBalance(v, d, amount).v, c)
  {
    hide WithBalance;
    if d in v.clients {
      var b := v.clients[d];
      BalanceAside(v, d, b.(locked := SatSub(b.locked, amount), free := b.free + amount), c);
    }
  }

  lemma AuthorizeAside(v: Vault, w: Withdrawal, c: Pubkey)
    ensures Aside(v, AuthorizeWithdrawal(v, w).v, c)
  {
    if w.client in v.clients && w.amount <= v.clients[w.client].free {
      var b := v.clients[w.client];
      BalanceAside(v, w.client, b.(free := b.free - w.amount, locked := b.locked + w.amount), c);
    }
  }

  lemma ApplyAside(v: Vault, nonce: nat, c: Pubkey)
    ensures Aside(v, ApplyWithdrawal(v, nonce).v, c)
  {
    hide WithBalance;
    if nonce in v.withdrawals {
      var w, v1 := v.withdrawals[nonce], v.(withdrawals := v.withdrawals - {nonce});
      if w.client in v.clients {
        var b := v.clients[w.client];
        var b' := b.(locked := SatSub(b.locked, w.amount), withdrawn := b.withdrawn + w.amount);
        assert ApplyWithdrawal(v, nonce).v == WithBalance(v1, w.client, b');
        BalanceAside(v1, w.client, b', c);
      } else {
        assert ApplyWithdrawal(v, nonce).v == v1;
      }
    }
  }

  lemma ExpireAside(v: Vault, nonce: nat, c: Pubkey)
    ensures Aside(v, ExpireWithdrawal(v, nonce).v, c)
  {
    hide WithBalance;
    if nonce in v.withdrawals {
      var w, v1 := v.withdrawals[nonce], v.(withdrawals := v.withdrawals - {nonce});
      if w.client in v.clients {
        var b := v.clients[w.client];
        var b' := b.(locked := SatSub(b.locked, w.amount), free := b.free + w.amount);
        assert ExpireWithdrawal(v, nonce).v == WithBalance(v1, w.client, b');
        BalanceAside(v1, w.client, b', c);
      } else {
        assert ExpireWithdrawal(v, nonce).v == v1;
      }
    }
  }

  lemma SettleAside(v: Vault, d: Pubkey, amount: nat, provider: Id, sid: Id, now: Time, c: Pubkey)
    ensures Aside(v, SettlePayment(v, d, amount, provider, sid, now).v, c)
  {
    if d in v.clients {
      var b := v.clients[d];
      BalanceAside(v, d, b.(locked := SatSub(b.locked, amount)), c);
      if provider in v.providers { if provider in v.credits {} else {} } else {}
    }
  }

  // ---- One entry ----

  /** A step that keeps the set of clients and logs a withdrawal nonce. */
  ghost predicate RaisesTo(v: Vault, done: Effect, nonce: nat, slot: nat, c: Pubkey)
  {
    && (c in done.v.clients <==> c in v.clients) && done.v.channels == v.channels
    && (done.err.None? ==> CountersOf(done.v) == CountersOf(v).(withdraw := Max(v.withdrawNonce, nonce + 1), slot := Max(v.lastSlot, slot)))
  }

  lemma DepositFrame(v: Vault, d: Pubkey, amount: nat, slot: nat, signature: Id, c: Pubkey)
    ensures var v' := ReplayDeposit(v, d, amount, slot, signature).v;
      && (c in v'.clients <==> c in v.clients || c == d) && v'.channels == v.channels
      && CountersOf(v') == CountersOf(v).(slot := Max(v.lastSlot, slot))
  {
    if d in v.clients {} else {}
  }

  lemma AuthorizedFrame(v: Vault, w: Withdrawal, c: Pubkey)
    ensures RaisesTo(v, ReplayAuthorized(v, w), w.nonce, 0, c)
  {
    hide AuthorizeWithdrawal, Refresh;
    var done := AuthorizeWithdrawal(v, w);
    AuthorizeAside(v, w, c);
    if done.err.None? { RefreshAside(RaiseWithdrawNonce(done.v, w.nonce), w.client, c); }
  }

  lemma AppliedFrame(v: Vault, d: Pubkey, recipient: Pubkey, amount: nat, nonce: nat, expiresAt: Time, slot: nat,
                     signature: Id, c: Pubkey)
    ensures RaisesTo(v, ReplayWithdrawApplied(v, d, recipient, amount, nonce, expiresAt, slot, signature), nonce, slot, c)
  {
    hide ApplyWithdrawal, Refresh;
    var done := ApplyWithdrawal(v, nonce);
    ApplyAside(v, nonce, c);
    if done.err.None? {
      AppliedPending(v, nonce);
      if Matches(v.withdrawals[nonce], d, recipient, amount, expiresAt) {
        RefreshAside(RaiseWithdrawNonce(ReplayProcessed(done.v, signature, slot), nonce), d, c);
      }
    }
  }

  lemma ExpiredFrame(v: Vault, d: Pubkey, nonce: nat, c: Pubkey)
    ensures Aside(v, ReplayWithdrawExpired(v, d, nonce).v, c)
  {
    hide ExpireWithdrawal, Refresh;
    var done := ExpireWithdrawal(v, nonce);
    ExpireAside(v, nonce, c);
    if done.err.None? {
      AppliedPending(v, nonce);
      if v.withdrawals[nonce].client == d { RefreshAside(done.v, d, c); }
    }
  }

  lemma ReservationFrame(v: Vault, vid: Id, payment: Id, d: Pubkey, provider: Id, amount: nat,
                         detail: Option<ReservationDetail>, c: Pubkey)
    ensures Aside(v, ReplayReservation(v, vid, payment, d, provider, amount, detail).v, c)
  {
    hide ReserveBalance;
    ReserveAside(v, d, amount, c);
    if detail.None? {} else if ReserveBalance(v, d, amount).err.Some? {} else {}
  }

  lemma StatusAside(v: Vault, vid: Id, r: Reservation, c: Pubkey)
    ensures Aside(v, WithStatus(v, vid, r), c)
  {
  }

  lemma EndFrame(v: Vault, vid: Id, status: ReservationStatus, c: Pubkey)
    ensures Aside(v, ReplayEnd(v, vid, status).v, c)
  {
    hide ReleaseBalance, WithStatus;
    if vid in v.reservations {
      var r := v.reservations[vid];
      StatusAside(v, vid, r.(status := status), c);
      ReleaseAside(WithStatus(v, vid, r.(status := status)), r.client, r.amount, c);
    }
  }

  lemma SettlementFrame(v: Vault, sid: Id, vid: Id, provider: Id, amount: nat, settledAt: Option<Time>, c: Pubkey)
    ensures Aside(v, ReplaySettlement(v, sid, vid, provider, amount, settledAt).v, c)
  {
    hide SettlePayment;
    if vid in v.reservations {
      var r := v.reservations[vid];
      if r.provider == provider && r.amount == amount {
        var at := if settledAt.Some? then settledAt.value else r.createdAt;
        var v1 := if r.status == Reserved then WithStatus(v, vid, AsSettled(r, sid, at)) else v;
        SettleAside(v1, r.client, r.amount, provider, sid, at, c);
        if SettlePayment(v1, r.client, r.amount, provider, sid, at).err.None? {}
      }
    }
  }

  ghost predicate RequestFrom(v: Vault, id: Id, t: Time)
  {
    id in v.channels && v.channels[id].request.Some? ==> t + REQUEST_EXPIRY_SEC <= v.channels[id].request.value.expiresAt
  }

  ghost predicate KeepsFrom(v: Vault, v': Vault, id: Id, t: Time, now: Time)
  {
    t <= now && RequestFrom(v, id, t) ==> RequestFrom(v', id, t)
  }

  lemma OpenFrame(v: Vault, id: Id, d: Pubkey, provider: Id, amount: nat, now: Time, c: Pubkey, x: Id, t: Time)
    ensures var v' := OpenChannel(v, id, d, provider, amount, now).v; Frame(v, v', c) && KeepsFrom(v, v', x, t, now)
  {
    hide ReserveBalance;
    ReserveAside(v, d, amount, c);
    if OpenChannel(v, id, d, provider, amount, now).err.Some? {} else if id == x {} else {}
  }

  lemma CloseFrame(v: Vault, id: Id, sid: Id, now: Time, c: Pubkey, x: Id, t: Time)
    ensures var v' := CloseChannel(v, id, sid, now).v; Frame(v, v', c) && KeepsFrom(v, v', x, t, now)
  {
    hide WithBalance, CreditEarnings;
    if id in v.channels && v.channels[id].status == Open {
      var ch := v.channels[id];
      var v1 := v.(channels := v.channels - {id});
      if ch.free + ch.earned > 0 && ch.client in v.clients {
        var b := v.clients[ch.client];
        var b' := b.(locked := SatSub(b.locked, ch.free + ch.earned), free := b.free + ch.free);
        BalanceAside(v1, ch.client, b', c);
        EarningsAside(WithBalance(v1, ch.client, b'), ch.provider, ch.earned, sid, now, c);
      }
    }
  }

  lemma EarningsAside(v: Vault, provider: Id, earned: nat, sid: Id, now: Time, c: Pubkey)
    ensures Aside(v, CreditEarnings(v, provider, earned, sid, now).v, c)
  {
    if provider in v.providers {} else {}
  }

  lemma SubmitFrame(v: Vault, id: Id, rid: Id, amount: nat, hash: Bytes, now: Time, c: Pubkey, x: Id, t: Time)
    ensures var v' := SubmitRequest(v, id, rid, amount, hash, now).v; Frame(v, v', c) && KeepsFrom(v, v', x, t, now)
  {
    if SubmitRequest(v, id, rid, amount, hash, now).err.Some? {} else if id == x {} else {}
  }

  lemma DeliverFrame(k: Crypto, v: Vault, id: Id, d: Delivery, now: Time, c: Pubkey, x: Id, t: Time)
    ensures var v' := DeliverAdaptor(k, v, id, d, now).v; Frame(v, v', c) && KeepsFrom(v, v', x, t, now)
  {
    hide DeliveryVerifies;
    if DeliverAdaptor(k, v, id, d, now).err.Some? {} else if id == x {} else {}
  }

  lemma ChannelFrame(v: Vault, id: Id, ch: Channel, c: Pubkey)
    ensures Frame(v, v.(channels := v.channels[id := ch]), c)
  {
  }

  lemma ReleaseFrame(v: Vault, id: Id, rid: Id, amount: nat, now: Time, c: Pubkey, x: Id, t: Time)
    ensures var v' := ExpireReplayed(v, id, rid, amount, now).v; Frame(v, v', c) && KeepsFrom(v, v', x, t, now)
  {
    hide CountersOf;
    var v' := ExpireReplayed(v, id, rid, amount, now).v;
    if ExpireReplayed(v, id, rid, amount, now).err.None? {
      assert v' == v.(channels := v.channels[id := v'.channels[id]]) && v'.channels[id].request.None?;
      ChannelFrame(v, id, v'.channels[id], c);
    }
  }

  lemma PayFrame(v: Vault, id: Id, rid: Id, amount: nat, now: Time, c: Pubkey, x: Id, t: Time)
    ensures var v' := FinalizeReplayed(v, id, rid, amount, now).v; Frame(v, v', c) && KeepsFrom(v, v', x, t, now)
  {
    hide CountersOf;
    var v' := FinalizeReplayed(v, id, rid, amount, now).v;
    if FinalizeReplayed(v, id, rid, amount, now).err.None? {
      assert v' == v.(channels := v.channels[id := v'.channels[id]]) && v'.channels[id].request.None?;
      ChannelFrame(v, id, v'.channels[id], c);
    }
  }

  lemma ConfirmedFrame(v: Vault, sids: seq<Id>, batchId: nat, signature: Id, c: Pubkey)
    ensures var v' := ApplyBatchConfirmation(v, sids, batchId, signature); Aside(v, v', c)
  {
    hide ConfirmEach, TouchedEach;
    ConfirmEachFrame(v, sids, BatchInfo(batchId, signature));
  }

  predicate Above(v: Vault, e: Entry)
  {
    match e
    case ReceiptIssued(n) => n < v.receiptNonce
    case ReceiptMirrored(n) => n < v.receiptNonce
    case WithdrawAuthorized(w) => w.nonce < v.withdrawNonce
    case WithdrawApplied(_, _, _, n, _, _, _) => n < v.withdrawNonce
    case _ => true
  }

  /** What one entry does to a client's presence, to the counters and to a request's expiry. */
  ghost predicate Framed(k: Crypto, v: Vault, e: Entry, env: Env, c: Pubkey, x: Id, t: Time)
  {
    var done := ReplayEntry(k, v, e, env);
    && (c in done.v.clients <==> c in v.clients || (e.DepositApplied? && e.client == c))
    && (done.err.None? ==> CountersOf(done.v) == Raised(CountersOf(v), e))
    && KeepsFrom(v, done.v, x, t, env.now)
  }

  lemma FundsFramed(k: Crypto, v: Vault, e: Entry, env: Env, c: Pubkey, x: Id, t: Time)
    requires !ChannelEntry(e)
    ensures Framed(k, v, e, env, c, x, t)
  {
    hide ReplayDeposit, ReplayAuthorized, ReplayWithdrawApplied, ReplayWithdrawExpired, ReplayReservation, ReplayEnd,
      ReplaySettlement, ApplyBatchConfirmation;
    match e
    case DepositApplied(d, amount, slot, signature) => DepositFrame(v, d, amount, slot, signature, c);
    case WithdrawAuthorized(w) => AuthorizedFrame(v, w, c);
    case WithdrawApplied(d, recipient, amount, nonce, expiresAt, slot, signature) =>
      AppliedFrame(v, d, recipient, amount, nonce, expiresAt, slot, signature, c);
    case WithdrawExpired(d, nonce) => ExpiredFrame(v, d, nonce, c);
    case ReservationCreated(vid, payment, d, provider, amount, detail) =>
      ReservationFrame(v, vid, payment, d, provider, amount, detail, c);
    case ReservationCancelled(vid) => EndFrame(v, vid, Cancelled, c);
    case ReservationExpiredEntry(vid) => EndFrame(v, vid, Expired, c);
    case SettlementCommitted(sid, vid, provider, amount, settledAt) => SettlementFrame(v, sid, vid, provider, amount, settledAt, c);
    case BatchConfirmed(batchId, signature, sids) => ConfirmedFrame(v, sids, batchId, signature, c);
    case ReceiptIssued(n) =>
    case ReceiptMirrored(n) =>
    case ProviderRegistered(p) =>
    case BatchSubmitted(batchId) =>
  }

  lemma ChannelFramed(k: Crypto, v: Vault, e: Entry, env: Env, c: Pubkey, x: Id, t: Time)
    requires ChannelEntry(e)
    ensures Framed(k, v, e, env, c, x, t)
  {
    hide OpenChannel, SubmitRequest, ExpireReplayed, DeliverAdaptor, FinalizeReplayed, CloseChannel, RequestFrom, CountersOf;
    match e
    case ChannelOpened(id, d, provider, deposit) => OpenFrame(v, id, d, provider, deposit, env.now, c, x, t);
    case ChannelClosed(id, _, _, closeId) =>
      CloseFrame(v, id, if closeId.Some? then closeId.value else env.uuid, env.now, c, x, t);
    case RequestSubmitted(id, rid, amount, hash) =>
      if hash.Some? { SubmitFrame(v, id, rid, amount, hash.value, env.now, c, x, t); }
    case RequestExpired(id, rid, amount) => ReleaseFrame(v, id, rid, amount, env.now, c, x, t);
    case ChannelFinalized(id, rid, amount) => PayFrame(v, id, rid, amount, env.now, c, x, t);
    case AdaptorDelivered(id, rid, delivery) =>
      if delivery.Some? { DeliverFrame(k, v, id, delivery.value, env.now, c, x, t); }
  }

  lemma EntryFrame(k: Crypto, v: Vault, e: Entry, env: Env, c: Pubkey, x: Id, t: Time)
    ensures Framed(k, v, e, env, c, x, t)
  {
    hide Framed;
    if ChannelEntry(e) { ChannelFramed(k, v, e, env, c, x, t); } else { FundsFramed(k, v, e, env, c, x, t); }
  }

  /** Only deposits create clients, so a recovered vault knows exactly the clients with a logged deposit. */
  lemma {:induction false} KnownClients(k: Crypto, v: Vault, log: seq<Entry>, envs: seq<Env>, c: Pubkey)
    requires |log| == |envs| && ReplayAll(k, v, log, envs).err.None?
    ensures c in ReplayAll(k, v, log, envs).v.clients <==> c in v.clients || DepositLogged(log, c)
    decreases |log|
  {
    hide ReplayEntry;
    if log != [] {
      var n := |log| - 1;
      KnownClients(k, v, log[..n], envs[..n], c);
      EntryFrame(k, ReplayAll(k, v, log[..n], envs[..n]).v, log[n], envs[n], c, Id(""), 0);
      assert log == log[..n] + [log[n]];
    }
  }

  /** After replay the nonce counters are above every nonce in the log. */
  lemma {:induction false} CountersAbove(k: Crypto, v: Vault, log: seq<Entry>, envs: seq<Env>)
    requires |log| == |envs| && ReplayAll(k, v, log, envs).err.None?
    ensures forall i :: 0 <= i < |log| ==> Above(ReplayAll(k, v, log, envs).v, log[i])
    decreases |log|
  {
    hide ReplayEntry;
    if log != [] {
      var n := |log| - 1;
      CountersAbove(k, v, log[..n], envs[..n]);
      EntryFrame(k, ReplayAll(k, v, log[..n], envs[..n]).v, log[n], envs[n], Pubkey([]), Id(""), 0);
      assert forall i :: 0 <= i < n ==> log[..n][i] == log[i];
    }
  }

  /** A replay that starts at `t` stamps every request with an expiry a full lifetime later. */
  lemma {:induction false} RequestsOutlast(k: Crypto, log: seq<Entry>, envs: seq<Env>, x: Id, t: Time)
    requires |log| == |envs| && forall i :: 0 <= i < |envs| ==> t <= envs[i].now
    ensures RequestFrom(ReplayAll(k, EmptyVault, log, envs).v, x, t)
    decreases |log|
  {
    hide ReplayEntry;
    if log != [] {
      var n := |log| - 1;
      RequestsOutlast(k, log[..n], envs[..n], x, t);
      EntryFrame(k, ReplayAll(k, EmptyVault, log[..n], envs[..n]).v, log[n], envs[n], Pubkey([]), x, t);
    }
  }

  // ---- Recovery from an empty vault ----

  /** The client and amount that a step newly locks. */
  function Locking(s: Step): Option<(Pubkey, nat)>
  {
    match s
    case AuthorizeWithdraw(c, _, amount, _, _) => Some((c, amount))
    case Verify(_, _, c, _, amount, _, _) => Some((c, amount))
    case OpenCh(_, c, _, amount, _, _) => Some((c, amount))
    case _ => None
  }

  /** Whoever locks an amount of zero has a deposit in the log by then. */
  ghost predicate LockersDeposited(k: Crypto, steps: seq<Step>)
  {
    forall i :: 0 <= i < |steps| && Locking(steps[i]).Some? && Locking(steps[i]).value.1 == 0 ==>
      DepositLogged(Run(k, EmptyVault, steps[..i]).entries, Locking(steps[i]).value.0)
  }

  /** The whole replay takes no longer than a request lives. */
  predicate Prompt(envs: seq<Env>, t: Time)
  {
    forall i :: 0 <= i < |envs| ==> t <= envs[i].now <= t + REQUEST_EXPIRY_SEC
  }

  lemma ReadyNow(k: Crypto, log: seq<Entry>, envs: seq<Env>, s: Step, later: seq<Env>, t: Time)
    requires |log| == |envs| && ReplayAll(k, EmptyVault, log, envs).err.None?
    requires Prompt(envs, t) && Prompt(later, t)
    requires Locking(s).Some? && Locking(s).value.1 == 0 ==> DepositLogged(log, Locking(s).value.0)
    ensures Ready(ReplayAll(k, EmptyVault, log, envs).v, s, later)
  {
    hide ReplayAll, DepositLogged;
    if Locking(s).Some? {
      KnownClients(k, EmptyVault, log, envs, Locking(s).value.0);
    } else if s.Deliver? {
      RequestsOutlast(k, log, envs, s.channelId, t);
    }
  }

  lemma {:induction false} PromptReady(k: Crypto, steps: seq<Step>, envs: seq<Env>, t: Time)
    requires AdmissibleRun(k, EmptyVault, steps) && UndoableRun(k, EmptyVault, steps)
    requires LockersDeposited(k, steps)
    requires |envs| == |Run(k, EmptyVault, steps).entries| && Prompt(envs, t)
    ensures ReadyRun(k, EmptyVault, EmptyVault, steps, envs)
    decreases |steps|
  {
    hide Live, ReplayAll, Ready, Undoable, Admissible, DepositLogged, Inv, Related;
    if steps != [] {
      var n := |steps| - 1;
      var before := Run(k, EmptyVault, steps[..n]);
      var m := |before.entries|;
      assert forall i :: 0 <= i < n ==> steps[..n][..i] == steps[..i];
      PromptReady(k, steps[..n], envs[..m], t);
      EmptyKeeps(k);
      RelatedToItself(EmptyVault);
      RecoveryRefines(k, EmptyVault, EmptyVault, steps[..n], envs[..m]);
      ReadyNow(k, before.entries, envs[..m], steps[n], envs[m..], t);
    }
  }

  ghost predicate Idling(chs: map<Id, Channel>, c: Pubkey)
  {
    forall id :: id in chs && chs[id].client == c ==> chs[id].request.None?
  }

  lemma IdleUntil(chs: map<Id, Channel>, c: Pubkey)
    requires Idling(chs, c)
    ensures Latest(chs, ChannelUntil(c)) == 0
  {
    if Latest(chs, ChannelUntil(c)) != 0 { var id := LatestReached(chs, ChannelUntil(c)); }
  }

  /** The refreshed balance is the live one, cached expiry included, unless a channel request is active. */
  ghost predicate BalanceRecovered(live: Vault, rec: Vault, c: Pubkey)
  {
    c in rec.clients && Idling(live.channels, c) ==> c in live.clients && RefreshAll(rec).clients[c] == live.clients[c]
  }

  /** Once refreshed, the recovered cache agrees with the live one for clients without an active channel request. */
  lemma CacheRecovered(k: Crypto, live: Vault, rec: Vault, c: Pubkey)
    requires Inv(k, live) && Related(live, rec) && c in rec.clients && Idling(live.channels, c)
    ensures BalanceRecovered(live, rec, c)
  {
    hide LockedOk, Shortfall, IndexOk, SettledOk, ChannelsOk, CreditsRel;
    assert Idling(rec.channels, c) by {
      forall id | id in rec.channels && rec.channels[id].client == c ensures rec.channels[id].request.None? {
        assert Untimed(live.channels[id]) == Untimed(rec.channels[id]);
      }
    }
    IdleUntil(live.channels, c);
    IdleUntil(rec.channels, c);
    assert CachedUntil(live.clients, c) == LockedUntil(c, live.reservations, live.withdrawals, live.channels);
    assert Money(live.clients[c]) == Money(rec.clients[c]);
  }

  /**
   * Crash recovery: the log of any run replays from an empty vault without error, ends in a vault that stands for
   * the live one, and leaves both nonce counters above every logged nonce.
   */
  lemma FullRecovery(k: Crypto, steps: seq<Step>, envs: seq<Env>, t: Time)
    requires AdmissibleRun(k, EmptyVault, steps) && UndoableRun(k, EmptyVault, steps)
    requires LockersDeposited(k, steps)
    requires |envs| == |Run(k, EmptyVault, steps).entries| && Prompt(envs, t)
    ensures var live := Run(k, EmptyVault, steps);
      var done := ReplayAll(k, EmptyVault, live.entries, envs);
      && done.err.None? && Related(live.v, RefreshAll(done.v))
      && (forall i :: 0 <= i < |live.entries| ==> Above(done.v, live.entries[i]))
      && (forall c :: c in done.v.clients <==> DepositLogged(live.entries, c))
      && (forall c :: BalanceRecovered(live.v, done.v, c))
  {
    hide Live, ReplayAll, Ready, Undoable, Admissible, DepositLogged, Inv, Related, RefreshAll, Above;
    var live := Run(k, EmptyVault, steps);
    PromptReady(k, steps, envs, t);
    EmptyKeeps(k);
    RelatedToItself(EmptyVault);
    RecoveryRefines(k, EmptyVault, EmptyVault, steps, envs);
    RunKeeps(k, EmptyVault, steps);
    var rec := ReplayAll(k, EmptyVault, live.entries, envs).v;
    CountersAbove(k, EmptyVault, live.entries, envs);
    RefreshedRelated(live.v, rec);
    forall c ensures c in rec.clients <==> DepositLogged(live.entries, c) { KnownClients(k, EmptyVault, live.entries, envs, c); }
    forall c ensures BalanceRecovered(live.v, rec, c) {
      if c in rec.clients && Idling(live.v.channels, c) { CacheRecovered(k, live.v, rec, c); }
    }
  }

  lemma RefreshedRelated(live: Vault, rec: Vault)
    requires Related(live, rec)
    ensures Related(live, RefreshAll(rec))
  {
    hide CreditsRel, ChannelsRel, LockedUntil;
    var clients := RefreshAll(rec).clients;
    assert forall c :: c in clients <==> c in rec.clients;
  }

  // ---- Why the premises are there ----

  function PhantomRun(p: Provider, c: Pubkey, vid: Id, d: ReservationDetail): seq<Step>
  {
    [Register(p, true)] + [Deposit(vid, c, 5, 1, false)] + [Verify(vid, vid, c, p.providerId, 0, d, true)]
  }

  /**
   * A deposit whose append failed leaves an empty balance behind. A reservation of nothing against it succeeds and
   * is logged, but replay does not know the client and refuses the log.
   */
  lemma PhantomLockFails(k: Crypto, p: Provider, c: Pubkey, vid: Id, d: ReservationDetail, envs: seq<Env>)
    requires |envs| == 2
    ensures var live := Run(k, EmptyVault, PhantomRun(p, c, vid, d));
      && AdmissibleRun(k, EmptyVault, PhantomRun(p, c, vid, d))
      && |live.entries| == 2 && ReplayAll(k, EmptyVault, live.entries, envs).err == Some(InsufficientBalance)
  {
    hide LockedUntil, ReplayAll, Run, AdmissibleRun;
    var v1 := EmptyVault.(providers := map[p.providerId := p]);
    PhantomStart(k, p, c, vid);
    RunSnoc(k, EmptyVault, [Register(p, true)] + [Deposit(vid, c, 5, 1, false)], Verify(vid, vid, c, p.providerId, 0, d, true));
    var log := [ProviderRegistered(p)] + [ReservationCreated(vid, vid, c, p.providerId, 0, Some(d))];
    assert Run(k, EmptyVault, PhantomRun(p, c, vid, d)).entries == log;
    ReplayAppend(k, EmptyVault, log[..1], log[1..], envs[..1], envs[1..]);
    assert log[..1] + log[1..] == log && envs[..1] + envs[1..] == envs;
    ReplayOne(k, EmptyVault, log[..1], envs[..1]);
    ReplayOne(k, v1, log[1..], envs[1..]);
  }

  lemma PhantomStart(k: Crypto, p: Provider, c: Pubkey, vid: Id)
    ensures var steps := [Register(p, true)] + [Deposit(vid, c, 5, 1, false)];
      && AdmissibleRun(k, EmptyVault, steps)
      && Run(k, EmptyVault, steps) == Outcome(EmptyVault.(providers := map[p.providerId := p], clients := map[c := EmptyBalance]),
                                              [ProviderRegistered(p)])
  {
    hide LockedUntil;
    RunSnoc(k, EmptyVault, [], Register(p, true));
    assert [] + [Register(p, true)] == [Register(p, true)];
    RunSnoc(k, EmptyVault, [Register(p, true)], Deposit(vid, c, 5, 1, false));
  }
}
