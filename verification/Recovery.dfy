/** Crash recovery refines the live run: each step's entries, replayed, reach a vault that stands for the live one. */
module Recovery {
  import opened Prelude
  import opened VaultTypes
  import opened Ledger
  import opened Channels
  import opened AdaptorSig
  import opened CreditIndex
  import opened Steps
  import opened Invariant
  import opened SettlementLemmas
  import opened BatchLemmas
  import opened Preservation
  import opened Replay

  /** Writing balances that agree on money keeps the balances related. */
  lemma ClientsWrite(live: map<Pubkey, Balance>, rec: map<Pubkey, Balance>, c: Pubkey, b: Balance, b': Balance)
    requires ClientsRel(live, rec) && Money(b) == Money(b')
    ensures ClientsRel(live[c := b], rec[c := b'])
  {
  }

  /** A failed deposit leaves an empty balance behind; replay never hears of it. */
  lemma ClientsPhantom(live: map<Pubkey, Balance>, rec: map<Pubkey, Balance>, c: Pubkey)
    requires ClientsRel(live, rec)
    ensures ClientsRel(live[c := if c in live then live[c] else EmptyBalance], rec)
  {
  }

  /** A client that holds funds, or for whom a deposit was logged, is known to the recovered vault. */
  ghost predicate Known(rec: Vault, c: Pubkey, amount: nat) { amount > 0 || c in rec.clients }

  lemma KnownClient(live: Vault, rec: Vault, c: Pubkey, amount: nat)
    requires ClientsRel(live.clients, rec.clients) && c in live.clients && amount <= live.clients[c].free && Known(rec, c, amount)
    ensures c in rec.clients && rec.clients[c].free == live.clients[c].free && Money(rec.clients[c]) == Money(live.clients[c])
  {
  }

  /** The balance found for a client, related or not. */
  lemma FoundBalance(live: Vault, rec: Vault, c: Pubkey)
    requires ClientsRel(live.clients, rec.clients)
    ensures Money(Existing(live, c)) == Money(Existing(rec, c))
    ensures c in rec.clients ==> c in live.clients
  {
  }

  lemma HoldersGrow(rec: Vault, c: Pubkey, b: Balance)
    requires HoldersKnown(rec)
    ensures HoldersKnown(rec.(clients := rec.clients[c := b]))
  {
  }

  lemma DepositSim(live: Vault, rec: Vault, signature: Id, c: Pubkey, amount: nat, slot: nat)
    requires Related(live, rec) && signature !in live.processed
    ensures var done := ReplayDeposit(rec, c, amount, slot, signature);
      done.err.None? && Related(DepositStep(live, signature, c, amount, slot, true).v, done.v)
  {
    hide CreditsRel, ChannelsRel, ClientsRel, HoldersKnown;
    FoundBalance(live, rec, c);
    var b, a := Existing(live, c), Existing(rec, c);
    var b', a' := b.(free := b.free + amount, deposited := b.deposited + amount), a.(free := a.free + amount, deposited := a.deposited + amount);
    ClientsWrite(live.clients, rec.clients, c, b', a');
    HoldersGrow(rec, c, a');
    HoldersOf(rec.(clients := rec.clients[c := a']), ReplayDeposit(rec, c, amount, slot, signature).v);
  }

  /** Only the four maps matter to `HoldersKnown`. */
  lemma HoldersOf(rec: Vault, rec': Vault)
    requires HoldersKnown(rec)
    requires rec'.clients == rec.clients && rec'.reservations == rec.reservations
      && rec'.withdrawals == rec.withdrawals && rec'.channels == rec.channels
    ensures HoldersKnown(rec')
  {
  }

  lemma AuthorizeSim(live: Vault, rec: Vault, c: Pubkey, recipient: Pubkey, amount: nat, now: Time)
    requires Related(live, rec) && Known(rec, c, amount)
    requires AuthorizeWithdrawStep(live, c, recipient, amount, now, true).entries != []
    ensures var step := AuthorizeWithdrawStep(live, c, recipient, amount, now, true);
      var done := ReplayAuthorized(rec, step.entries[0].withdrawal);
      done.err.None? && Related(step.v, done.v)
  {
    hide CreditsRel, ChannelsRel, ClientsRel, LockedUntil;
    KnownClient(live, rec, c, amount);
    var step := AuthorizeWithdrawStep(live, c, recipient, amount, now, true);
    var done := ReplayAuthorized(rec, step.entries[0].withdrawal);
    ClientsWrite(live.clients, rec.clients, c, step.v.clients[c], done.v.clients[c]);
    assert step.v.clients == live.clients[c := step.v.clients[c]];
    assert done.v.clients == rec.clients[c := done.v.clients[c]];
  }

  lemma ObserveSim(live: Vault, rec: Vault, signature: Id, c: Pubkey, recipient: Pubkey, amount: nat, nonce: nat,
                   expiresAt: Time, slot: nat)
    requires Related(live, rec) && NoncesOk(live.withdrawals, live.withdrawNonce)
    requires ObserveWithdrawStep(live, signature, c, recipient, amount, nonce, expiresAt, slot, true).entries != []
    ensures var step := ObserveWithdrawStep(live, signature, c, recipient, amount, nonce, expiresAt, slot, true);
      var done := ReplayWithdrawApplied(rec, c, recipient, amount, nonce, expiresAt, slot, signature);
      done.err.None? && Related(step.v, done.v)
  {
    hide CreditsRel, ChannelsRel, ClientsRel, LockedUntil;
    FoundBalance(live, rec, c);
    assert c in rec.clients;
    var step := ObserveWithdrawStep(live, signature, c, recipient, amount, nonce, expiresAt, slot, true);
    var done := ReplayWithdrawApplied(rec, c, recipient, amount, nonce, expiresAt, slot, signature);
    ClientsWrite(live.clients, rec.clients, c, step.v.clients[c], done.v.clients[c]);
    assert step.v.clients == live.clients[c := step.v.clients[c]];
    assert done.v.clients == rec.clients[c := done.v.clients[c]];
  }

  lemma ExpireWithdrawSim(live: Vault, rec: Vault, nonce: nat, now: Time)
    requires Related(live, rec)
    requires ExpireWithdrawStep(live, nonce, now, true).entries != []
    ensures var step := ExpireWithdrawStep(live, nonce, now, true);
      var done := ReplayWithdrawExpired(rec, live.withdrawals[nonce].client, nonce);
      done.err.None? && Related(step.v, done.v)
  {
    hide CreditsRel, ChannelsRel, ClientsRel, LockedUntil;
    var c := live.withdrawals[nonce].client;
    FoundBalance(live, rec, c);
    assert c in rec.clients;
    var step := ExpireWithdrawStep(live, nonce, now, true);
    var done := ReplayWithdrawExpired(rec, c, nonce);
    ClientsWrite(live.clients, rec.clients, c, step.v.clients[c], done.v.clients[c]);
    assert step.v.clients == live.clients[c := step.v.clients[c]];
    assert done.v.clients == rec.clients[c := done.v.clients[c]];
  }

  lemma HoldersReservation(rec: Vault, r: Reservation, b: Balance)
    requires HoldersKnown(rec) && r.client in rec.clients
    ensures HoldersKnown(WithReservation(rec, r).(clients := rec.clients[r.client := b]))
  {
  }

  lemma VerifySim(live: Vault, rec: Vault, vid: Id, payment: Id, c: Pubkey, provider: Id, amount: nat, d: ReservationDetail)
    requires Related(live, rec) && Known(rec, c, amount)
    requires VerifyStep(live, vid, payment, c, provider, amount, d, true).entries != []
    ensures var done := ReplayReservation(rec, vid, payment, c, provider, amount, Some(d));
      done.err.None? && Related(VerifyStep(live, vid, payment, c, provider, amount, d, true).v, done.v)
  {
    hide CreditsRel, ChannelsRel, ClientsRel, LockedUntil, HoldersKnown;
    KnownClient(live, rec, c, amount);
    var v' := VerifyStep(live, vid, payment, c, provider, amount, d, true).v;
    var rec' := ReplayReservation(rec, vid, payment, c, provider, amount, Some(d)).v;
    var r := NewReservation(vid, payment, c, provider, amount, d);
    var b, a := v'.clients[c], rec'.clients[c];
    assert v' == WithReservation(live, r).(clients := live.clients[c := b]);
    assert rec' == WithReservation(rec, r).(clients := rec.clients[c := a]);
    ClientsWrite(live.clients, rec.clients, c, b, a);
    HoldersReservation(rec, r, a);
  }

  lemma EndSim(live: Vault, rec: Vault, vid: Id, status: ReservationStatus)
    requires Related(live, rec) && vid in live.reservations && live.reservations[vid].status == Reserved
    ensures var done := ReplayEnd(rec, vid, status);
      done.err.None? && Related(EndReservation(live, vid, status), done.v)
  {
    hide CreditsRel, ChannelsRel, ClientsRel, LockedUntil;
    var c := live.reservations[vid].client;
    FoundBalance(live, rec, c);
    assert c in rec.clients;
    var v', done := EndReservation(live, vid, status), ReplayEnd(rec, vid, status);
    ClientsWrite(live.clients, rec.clients, c, v'.clients[c], done.v.clients[c]);
    assert v'.clients == live.clients[c := v'.clients[c]];
    assert done.v.clients == rec.clients[c := done.v.clients[c]];
  }

  lemma CreditsWrite(live: map<Id, Credit>, rec: map<Id, Credit>, h: map<Id, Settlement>, h': map<Id, Settlement>,
                     p: Id, a: Credit, b: Credit)
    requires CreditsRel(live, rec, h) && a.(oldestAt := 0) == b.(oldestAt := 0)
    requires (forall id :: id in b.ids ==> id in h') ==> a == b
    requires forall q, id :: q in rec && id in rec[q].ids && id in h' ==> id in h
    ensures CreditsRel(live[p := a], rec[p := b], h')
  {
  }

  /** The credit found for a provider, or the new one a step would start. */
  lemma FoundCredit(live: map<Id, Credit>, rec: map<Id, Credit>, h: map<Id, Settlement>, p: Id, start: Credit)
    requires CreditsRel(live, rec, h)
    ensures var a, b := if p in live then live[p] else start, if p in rec then rec[p] else start;
      && a.(oldestAt := 0) == b.(oldestAt := 0)
      && ((forall id :: id in b.ids ==> id in h) ==> a == b)
    ensures p in live <==> p in rec
  {
  }

  /** The vault after a settlement, for whichever balance the client ends up with. */
  function SettledVault(v: Vault, vid: Id, sid: Id, now: Time, b: Balance): Vault
    requires vid in v.reservations && v.reservations[vid].provider in v.providers
  {
    var r := v.reservations[vid];
    v.(clients := v.clients[r.client := b], reservations := v.reservations[vid := AsSettled(r, sid, now)],
       credits := v.credits[r.provider := CreditedWith(v, r.provider, r.amount, sid, now)],
       history := v.history[sid := Settlement(sid, r.client, v.providers[r.provider].account, r.amount, now)])
  }

  lemma SettleShape(v: Vault, vid: Id, sid: Id, now: Time)
    requires SettleStep(v, vid, sid, now, true).entries != []
    ensures vid in v.reservations && v.reservations[vid].provider in v.providers
    ensures var r := v.reservations[vid];
      && r.status == Reserved && r.client in v.clients
      && SettleStep(v, vid, sid, now, true).entries == [SettlementCommitted(sid, vid, r.provider, r.amount, Some(now))]
      && exists b :: SettleStep(v, vid, sid, now, true).v == SettledVault(v, vid, sid, now, b)
           && Money(b) == Money(v.clients[r.client]).(locked := SatSub(v.clients[r.client].locked, r.amount))
  {
    hide LockedUntil, SettlePayment, CreditedWith;
    var r := v.reservations[vid];
    Rollbacks.SettledShape(v, r.client, r.amount, r.provider, sid, now);
    var step := SettleStep(v, vid, sid, now, true);
    var b := step.v.clients[r.client];
    assert step.v.clients == v.clients[r.client := b];
    assert step.v == SettledVault(v, vid, sid, now, b);
  }

  lemma ReplaySettleShape(v: Vault, vid: Id, sid: Id, now: Time)
    requires vid in v.reservations && v.reservations[vid].status == Reserved
    requires v.reservations[vid].provider in v.providers && v.reservations[vid].client in v.clients
    ensures var r := v.reservations[vid];
      ReplaySettlement(v, sid, vid, r.provider, r.amount, Some(now))
        == Ok(SettledVault(v, vid, sid, now, v.clients[r.client].(locked := SatSub(v.clients[r.client].locked, r.amount))))
  {
  }

  lemma SettleSim(live: Vault, rec: Vault, vid: Id, sid: Id, now: Time)
    requires Related(live, rec) && FreshSid(live, sid)
    requires SettleStep(live, vid, sid, now, true).entries != []
    ensures vid in live.reservations
    ensures var r := live.reservations[vid];
      var done := ReplaySettlement(rec, sid, vid, r.provider, r.amount, Some(now));
      done.err.None? && Related(SettleStep(live, vid, sid, now, true).v, done.v)
  {
    hide CreditsRel, ChannelsRel, ClientsRel, FreshSid, SettleStep, ReplaySettlement, CreditedWith;
    SettleShape(live, vid, sid, now);
    var r := live.reservations[vid];
    var c := r.client;
    FoundBalance(live, rec, c);
    assert c in rec.clients;
    ReplaySettleShape(rec, vid, sid, now);
    var b :| SettleStep(live, vid, sid, now, true).v == SettledVault(live, vid, sid, now, b)
           && Money(b) == Money(live.clients[c]).(locked := SatSub(live.clients[c].locked, r.amount));
    var a := rec.clients[c].(locked := SatSub(rec.clients[c].locked, r.amount));
    ClientsWrite(live.clients, rec.clients, c, b, a);
    SettleCreditsSim(live, rec, r.provider, r.amount, sid, now, SettledVault(live, vid, sid, now, b).history);
  }

  lemma SettleCreditsSim(live: Vault, rec: Vault, p: Id, amount: nat, sid: Id, now: Time, h': map<Id, Settlement>)
    requires Related(live, rec) && FreshSid(live, sid) && p in live.providers
    requires h'.Keys == live.history.Keys + {sid}
    ensures CreditsRel(
      live.credits[p := CreditedWith(live, p, amount, sid, now)],
      rec.credits[p := CreditedWith(rec, p, amount, sid, now)], h')
  {
    hide ChannelsRel, ClientsRel, HoldersKnown;
    var start := Credit(p, live.providers[p].account, 0, now, []);
    FoundCredit(live.credits, rec.credits, rec.history, p, start);
    var a, b := CreditedWith(live, p, amount, sid, now), CreditedWith(rec, p, amount, sid, now);
    var before := if p in rec.credits then rec.credits[p].ids else [];
    assert b.ids == before + [sid];
    assert forall q, id :: q in rec.credits && id in rec.credits[q].ids ==> q in live.credits && id in live.credits[q].ids by {
      assert forall q :: q in rec.credits ==> rec.credits[q].ids == live.credits[q].ids;
    }
    if forall id :: id in b.ids ==> id in h' {
      assert forall id :: id in before ==> id in b.ids && id != sid;
    }
    CreditsWrite(live.credits, rec.credits, rec.history, h', p, a, b);
  }

  // ---- Channels ----

  lemma ChannelsWrite(live: map<Id, Channel>, rec: map<Id, Channel>, id: Id, a: Channel, b: Channel)
    requires ChannelsRel(live, rec) && Untimed(a) == Untimed(b)
    ensures ChannelsRel(live[id := a], rec[id := b])
  {
    hide Untimed;
  }

  lemma ChannelsDrop(live: map<Id, Channel>, rec: map<Id, Channel>, id: Id)
    requires ChannelsRel(live, rec)
    ensures ChannelsRel(live - {id}, rec - {id})
  {
    hide Untimed;
    var l, r := live - {id}, rec - {id};
    assert forall x :: x in r ==> x in rec && x in live && r[x] == rec[x] && l[x] == live[x];
  }

  /** A refresh is invisible to the relation. */
  lemma RefreshSim(live: Vault, rec: Vault, c: Pubkey)
    requires Related(live, rec)
    ensures Related(Refresh(live, c).v, rec)
  {
    hide CreditsRel, ChannelsRel, HoldersKnown, LockedUntil;
  }

  lemma HoldersChannel(rec: Vault, id: Id, ch: Channel)
    requires HoldersKnown(rec) && ch.client in rec.clients
    ensures HoldersKnown(WithChannel(rec, id, ch))
  {
  }

  /** Replacing a channel on both sides by ones that agree up to times. */
  lemma ChannelSim(live: Vault, rec: Vault, id: Id, a: Channel, b: Channel)
    requires Related(live, rec) && id in rec.channels && Untimed(a) == Untimed(b) && b.client == rec.channels[id].client
    ensures Related(WithChannel(live, id, a), WithChannel(rec, id, b))
  {
    hide CreditsRel, ChannelsRel, Untimed, ClientsRel;
    ChannelsWrite(live.channels, rec.channels, id, a, b);
    HoldersChannel(rec, id, b);
  }

  lemma FoundChannel(live: Vault, rec: Vault, id: Id)
    requires ChannelsRel(live.channels, rec.channels)
    ensures id in live.channels <==> id in rec.channels
    ensures id in rec.channels ==> Untimed(live.channels[id]) == Untimed(rec.channels[id])
  {
    hide Untimed;
  }

  lemma TouchSim(live: Vault, rec: Vault, id: Id, now: Time)
    requires Related(live, rec) && id in live.channels
    ensures Related(Touch(live, id, now), rec)
  {
    hide CreditsRel, ChannelsRel, ClientsRel;
    FoundChannel(live, rec, id);
    ChannelSim(live, rec, id, live.channels[id].(updatedAt := now), rec.channels[id]);
    assert WithChannel(rec, id, rec.channels[id]) == rec by { assert rec.channels[id := rec.channels[id]] == rec.channels; }
  }

  lemma OpenSim(live: Vault, rec: Vault, id: Id, c: Pubkey, provider: Id, deposit: nat, now: Time, env: Env)
    requires Related(live, rec) && Known(rec, c, deposit)
    requires OpenStep(live, id, c, provider, deposit, now, true).entries != []
    ensures var done := OpenChannel(rec, id, c, provider, deposit, env.now);
      done.err.None? && Related(OpenStep(live, id, c, provider, deposit, now, true).v, done.v)
  {
    hide CreditsRel, ChannelsRel, ClientsRel, HoldersKnown;
    KnownClient(live, rec, c, deposit);
    var v' := OpenStep(live, id, c, provider, deposit, now, true).v;
    var rec' := OpenChannel(rec, id, c, provider, deposit, env.now).v;
    ClientsWrite(live.clients, rec.clients, c, v'.clients[c], rec'.clients[c]);
    ChannelsWrite(live.channels, rec.channels, id, v'.channels[id], rec'.channels[id]);
    HoldersGrow(rec, c, rec'.clients[c]);
    HoldersChannel(rec.(clients := rec.clients[c := rec'.clients[c]]), id, rec'.channels[id]);
    assert rec' == WithChannel(rec.(clients := rec.clients[c := rec'.clients[c]]), id, rec'.channels[id]);
  }

  lemma SubmitSim(live: Vault, rec: Vault, id: Id, rid: Id, amount: nat, hash: Bytes, now: Time, undoneAt: Time, env: Env)
    requires Related(live, rec)
    requires SubmitStep(live, id, rid, amount, hash, now, undoneAt, true).entries != []
    ensures var done := SubmitRequest(rec, id, rid, amount, hash, env.now);
      done.err.None? && Related(SubmitStep(live, id, rid, amount, hash, now, undoneAt, true).v, done.v)
  {
    hide CreditsRel, ChannelsRel, ClientsRel, HoldersKnown, LockedUntil, Refresh;
    FoundChannel(live, rec, id);
    var a, b := Submitted(live.channels[id], rid, amount, hash, now), Submitted(rec.channels[id], rid, amount, hash, env.now);
    ChannelSim(live, rec, id, a, b);
    RefreshSim(WithChannel(live, id, a), WithChannel(rec, id, b), live.channels[id].client);
  }

  lemma DeliverSim(k: Crypto, live: Vault, rec: Vault, id: Id, d: Delivery, now: Time, undoneAt: Time, env: Env)
    requires Related(live, rec)
    requires DeliverStep(k, live, id, d, now, undoneAt, true).entries != []
    requires id in rec.channels && rec.channels[id].request.Some? ==> env.now <= rec.channels[id].request.value.expiresAt
    ensures var done := DeliverAdaptor(k, rec, id, d, env.now);
      done.err.None? && Related(DeliverStep(k, live, id, d, now, undoneAt, true).v, done.v)
  {
    hide CreditsRel, ChannelsRel, ClientsRel, HoldersKnown, PreVerify;
    FoundChannel(live, rec, id);
    var v', rec' := DeliverStep(k, live, id, d, now, undoneAt, true).v, DeliverAdaptor(k, rec, id, d, env.now).v;
    ChannelSim(live, rec, id, v'.channels[id], rec'.channels[id]);
  }

  lemma FinalizeSim(k: Crypto, live: Vault, rec: Vault, id: Id, done: Finalized, now: Time, undoneAt: Time, env: Env)
    requires Related(live, rec) && done.Finalized?
    requires id in live.channels && live.channels[id].request == Some(done.request) && live.channels[id].status == Pending
    requires done.request.amount <= live.channels[id].locked
    requires done.v == WithChannel(live, id, Paid(live.channels[id], done.request.amount, now))
    ensures var replayed := FinalizeReplayed(rec, id, done.request.requestId, done.request.amount, env.now);
      replayed.err.None? && Related(FinalizeStep(live, id, done, undoneAt, true).v, replayed.v)
  {
    hide CreditsRel, ChannelsRel, ClientsRel, HoldersKnown, LockedUntil, Refresh;
    FoundChannel(live, rec, id);
    var a := Paid(live.channels[id], done.request.amount, now);
    var b := FinalizeReplayed(rec, id, done.request.requestId, done.request.amount, env.now).v.channels[id];
    ChannelSim(live, rec, id, a, b);
    RefreshSim(WithChannel(live, id, a), WithChannel(rec, id, b), live.channels[id].client);
  }

  lemma ExpireReqSim(live: Vault, rec: Vault, id: Id, now: Time, undoneAt: Time, env: Env)
    requires Related(live, rec) && id in live.channels && Stale(live.channels[id], now)
    ensures var req := live.channels[id].request.value;
      var done := ExpireReplayed(rec, id, req.requestId, req.amount, env.now);
      done.err.None? && Related(ExpireReqStep(live, id, now, undoneAt, true).v, done.v)
  {
    hide CreditsRel, ChannelsRel, ClientsRel, HoldersKnown, LockedUntil, Refresh;
    FoundChannel(live, rec, id);
    var req := live.channels[id].request.value;
    var a, b := Released(live.channels[id], req.amount, now), Released(rec.channels[id], req.amount, env.now);
    ChannelSim(live, rec, id, a, b);
    RefreshSim(WithChannel(live, id, a), WithChannel(rec, id, b), live.channels[id].client);
  }

  // ---- Closing ----

  lemma HoldersClose(rec: Vault, id: Id, c: Pubkey, b: Balance, credits: map<Id, Credit>)
    requires HoldersKnown(rec)
    ensures HoldersKnown(rec.(channels := rec.channels - {id}, clients := rec.clients[c := b], credits := credits))
  {
  }

  lemma ClosableSim(live: Vault, rec: Vault, id: Id)
    requires Related(live, rec) && Closable(live, id)
    ensures Closable(rec, id)
    ensures var ch, ch' := live.channels[id], rec.channels[id];
      ch.client == ch'.client && ch.provider == ch'.provider && ch.free == ch'.free && ch.earned == ch'.earned && ch'.locked == 0
  {
    hide CreditsRel, ChannelsRel, ClientsRel;
    FoundChannel(live, rec, id);
    FoundBalance(live, rec, live.channels[id].client);
    assert rec.channels[id].client in rec.clients;
  }

  /** A closing's credit is listed under an id the history does not know, so its time may differ. */
  lemma CloseCreditsSim(live: Vault, rec: Vault, p: Id, earned: nat, sid: Id, now: Time, replayedAt: Time)
    requires Related(live, rec) && FreshSid(live, sid) && p in live.providers
    ensures CreditsRel(live.credits[p := CreditedWith(live, p, earned, sid, now)],
                       rec.credits[p := CreditedWith(rec, p, earned, sid, replayedAt)], rec.history)
  {
    hide ChannelsRel, ClientsRel, HoldersKnown;
    var a, b := CreditedWith(live, p, earned, sid, now), CreditedWith(rec, p, earned, sid, replayedAt);
    FoundCredit(live.credits, rec.credits, rec.history, p, a);
    assert sid in b.ids && sid !in rec.history;
    CreditsWrite(live.credits, rec.credits, rec.history, rec.history, p, a, b);
  }

  lemma CloseSim(live: Vault, rec: Vault, id: Id, sid: Id, now: Time, env: Env)
    requires Related(live, rec) && FreshSid(live, sid) && Closable(live, id)
    ensures var closeId := if live.channels[id].earned > 0 then sid else env.uuid;
      var done := CloseChannel(rec, id, closeId, env.now);
      done.err.None? && Related(CloseStep(live, id, sid, now, true).v, done.v)
  {
    hide CreditsRel, ChannelsRel, ClientsRel, HoldersKnown, LockedUntil, CloseChannel, CloseStep, CreditedWith, FreshSid;
    var ch := live.channels[id];
    var c, p := ch.client, ch.provider;
    var closeId := if ch.earned > 0 then sid else env.uuid;
    ClosableSim(live, rec, id);
    ClosedShape(live, id, sid, now);
    CloseChannelShape(rec, id, closeId, env.now);
    var rec' := CloseChannel(rec, id, closeId, env.now).v;
    FoundBalance(live, rec, c);
    ClientsWrite(live.clients, rec.clients, c, ClosedBalance(live, id), rec'.clients[c]);
    ChannelsDrop(live.channels, rec.channels, id);
    if ch.earned > 0 { CloseCreditsSim(live, rec, p, ch.earned, sid, now, env.now); }
    HoldersClose(rec, id, c, rec'.clients[c], rec'.credits);
  }

  // ---- Batch confirmation ----

  lemma DeductSim(live: map<Id, Credit>, rec: map<Id, Credit>, h: map<Id, Settlement>, p: Id, amount: nat, sid: Id)
    requires CreditsRel(live, rec, h) && p in rec && sid in h
    ensures p in live
    ensures CreditsRel(live[p := Deduct(live[p], amount, sid)], rec[p := Deduct(rec[p], amount, sid)], h - {sid})
  {
    hide Without;
    WithoutMembers(rec[p].ids, sid);
    CreditsWrite(live, rec, h, h - {sid}, p, Deduct(live[p], amount, sid), Deduct(rec[p], amount, sid));
  }

  lemma CreditsShrink(live: map<Id, Credit>, rec: map<Id, Credit>, h: map<Id, Settlement>, sid: Id)
    requires CreditsRel(live, rec, h)
    ensures CreditsRel(live, rec, h - {sid})
  {
  }

  /** Two vaults in the middle of the same confirmation. */
  ghost predicate ConfirmRel(live: Vault, rec: Vault)
  {
    && live.reservations == rec.reservations && live.history == rec.history && live.batches == rec.batches
    && CreditsRel(live.credits, rec.credits, rec.history)
  }

  lemma ConfirmOneSim(live: Vault, rec: Vault, sid: Id, info: BatchInfo)
    requires ConfirmRel(live, rec) && sid in live.history && Owner(live.reservations, sid).Some?
    ensures ConfirmRel(ConfirmOne(live, sid, info), ConfirmOne(rec, sid, info))
    ensures Touched(live, sid) == Touched(rec, sid)
  {
    hide CreditsRel, Owner, ConfirmOne, Deduct;
    ConfirmOneShape(live, sid, info);
    ConfirmOneShape(rec, sid, info);
    var r := live.reservations[Owner(live.reservations, sid).value];
    assert r.provider in live.credits <==> r.provider in rec.credits by {
      FoundCredit(live.credits, rec.credits, rec.history, r.provider, Credit(r.provider, r.client, 0, 0, []));
    }
    if r.provider in rec.credits {
      DeductSim(live.credits, rec.credits, rec.history, r.provider, r.amount, sid);
    } else {
      CreditsShrink(live.credits, rec.credits, rec.history, sid);
    }
  }

  lemma {:induction false} ConfirmEachSim(live: Vault, rec: Vault, sids: seq<Id>, info: BatchInfo)
    requires ConfirmRel(live, rec) && Confirming(live) && Payable(live, sids)
    ensures ConfirmRel(ConfirmEach(live, sids, info), ConfirmEach(rec, sids, info))
    ensures TouchedEach(live, sids, info) == TouchedEach(rec, sids, info)
    decreases |sids|
  {
    hide ConfirmRel, Confirming, ConfirmOne, Touched;
    if sids != [] {
      var n := |sids| - 1;
      var less, last := sids[..n], sids[n];
      assert forall id :: id in sids <==> id in less || id == last by { assert sids == less + [last]; }
      ConfirmEachSim(live, rec, less, info);
      ConfirmEachKeeps(live, less, info);
      var l := ConfirmEach(live, less, info);
      OwnedWhenRecorded(l, last);
      ConfirmOneSim(l, ConfirmEach(rec, less, info), last, info);
    }
  }

  /** Restamping makes equal what could still differ. */
  lemma RestampSim(a: Credit, b: Credit, h: map<Id, Settlement>)
    requires a.(oldestAt := 0) == b.(oldestAt := 0)
    requires b.ids != [] && forall id :: id in b.ids ==> id in h
    ensures Restamped(a, h) == Restamped(b, h)
  {
    EarliestIsMin(b.ids, h);
    assert b.ids[0] in b.ids;
  }

  lemma TidySim(live: Vault, rec: Vault, affected: set<Id>)
    requires ConfirmRel(live, rec)
    ensures CreditsRel(Tidied(live, affected), Tidied(rec, affected), rec.history)
  {
    hide Restamped;
    var l, r, h := Tidied(live, affected), Tidied(rec, affected), rec.history;
    assert forall p :: p in rec.credits ==> Spent(live.credits[p]) == Spent(rec.credits[p]);
    assert l.Keys == r.Keys;
    forall p | p in r ensures l[p].(oldestAt := 0) == r[p].(oldestAt := 0) {
      RestampedOnlyTime(live.credits[p], h);
      RestampedOnlyTime(rec.credits[p], h);
    }
    forall p | p in r && (forall id :: id in r[p].ids ==> id in h) ensures l[p] == r[p] {
      RestampedOnlyTime(rec.credits[p], h);
      if p in affected { RestampSim(live.credits[p], rec.credits[p], h); }
    }
  }

  lemma ConfirmSim(live: Vault, rec: Vault, sids: seq<Id>, batchId: nat, signature: Id)
    requires Related(live, rec) && Confirming(live) && Payable(live, sids)
    ensures Related(ApplyBatchConfirmation(live, sids, batchId, signature), ApplyBatchConfirmation(rec, sids, batchId, signature))
  {
    hide CreditsRel, ChannelsRel, ClientsRel, ConfirmEach, TouchedEach, Confirming, Payable;
    var info := BatchInfo(batchId, signature);
    ConfirmEachSim(live, rec, sids, info);
    var l, r := ConfirmEach(live, sids, info), ConfirmEach(rec, sids, info);
    TidySim(l, r, TouchedEach(live, sids, info));
    ConfirmEachFrame(live, sids, info);
    ConfirmEachFrame(rec, sids, info);
    ConfirmHolders(rec, sids, info);
  }

  /** Confirming changes statuses only, so the same clients hold the same reservations. */
  lemma {:induction false} ConfirmHolders(rec: Vault, sids: seq<Id>, info: BatchInfo)
    requires HoldersKnown(rec)
    ensures HoldersKnown(ConfirmEach(rec, sids, info))
    decreases |sids|
  {
    hide ConfirmOne;
    if sids != [] {
      var n := |sids| - 1;
      ConfirmHolders(rec, sids[..n], info);
      ConfirmOneHolders(ConfirmEach(rec, sids[..n], info), sids[n], info);
    }
  }

  lemma ConfirmOneHolders(rec: Vault, sid: Id, info: BatchInfo)
    requires HoldersKnown(rec)
    ensures HoldersKnown(ConfirmOne(rec, sid, info))
  {
    hide Owner, Holder, Deduct, Without, ConfirmOne;
    ConfirmOneFrame(rec, sid, info);
    if Owner(rec.reservations, sid).Some? {
      ConfirmOneShape(rec, sid, info);
    } else {
      ConfirmOneUnowned(rec, sid, info);
    }
  }

  lemma ConfirmOneUnowned(v: Vault, sid: Id, info: BatchInfo)
    requires Owner(v.reservations, sid).None?
    ensures ConfirmOne(v, sid, info).reservations == v.reservations
  {
    hide Owner, Holder, Without;
    match Holder(v.credits, sid) case None => case Some(_) =>
  }
}
