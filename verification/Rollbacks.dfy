/** Each hand-written rollback against the step it undoes, and exactly when it is an inverse. */
module Rollbacks {
  import opened Prelude
  import opened VaultTypes
  import opened Ledger
  import opened Channels
  import opened Steps
  import opened CreditIndex

  /** Undoing a deposit leaves an empty balance for a client that was not there before. */
  lemma DepositUndone(v: Vault, c: Pubkey, amount: nat)
    ensures RollbackDeposit(ApplyDeposit(v, c, amount), c, amount) == Ok(WithBalance(v, c, Existing(v, c)))
    ensures RollbackDeposit(ApplyDeposit(v, c, amount), c, amount) == Ok(v) <==> c in v.clients
  {
    var b := Existing(v, c);
    var v1 := ApplyDeposit(v, c, amount);
    assert v1.clients == v.clients[c := v1.clients[c]];
    assert v1.clients[c := b] == v.clients[c := b];
    if c in v.clients {
      assert v.clients[c := b] == v.clients;
    } else {
      assert c in v.clients[c := b];
    }
  }

  lemma ReserveUndone(v: Vault, c: Pubkey, amount: nat)
    requires ReserveBalance(v, c, amount).err.None?
    ensures ReleaseBalance(ReserveBalance(v, c, amount).v, c, amount) == Ok(v)
  {
    var b := v.clients[c];
    var v1 := ReserveBalance(v, c, amount).v;
    assert v1.clients == v.clients[c := v1.clients[c]];
    assert v1.clients[c := b] == v.clients;
  }

  /** A cancellation is undone by reserving again; the lock must have covered what was released. */
  lemma ReleaseUndone(v: Vault, c: Pubkey, amount: nat)
    requires c in v.clients
    ensures ReserveBalance(ReleaseBalance(v, c, amount).v, c, amount) == Ok(v) <==> amount <= v.clients[c].locked
  {
    hide ReserveBalance, ReleaseBalance;
    ReleaseShape(v, c, amount);
    var v1 := ReleaseBalance(v, c, amount).v;
    ReserveShape(v1, c, amount);
    var b' := v.clients[c].(locked := SatSub(v.clients[c].locked, amount) + amount);
    assert v1.clients[c := b'] == v.clients[c := b'];
    RestoredBalance(v.clients, c, amount);
  }

  /** The withdrawal's nonce must be unused. */
  lemma AuthorizeUndone(v: Vault, w: Withdrawal)
    requires AuthorizeWithdrawal(v, w).err.None?
    ensures ExpireWithdrawal(AuthorizeWithdrawal(v, w).v, w.nonce) == Ok(v) <==> w.nonce !in v.withdrawals
  {
    var b, v1 := v.clients[w.client], AuthorizeWithdrawal(v, w).v;
    var done := ExpireWithdrawal(v1, w.nonce);
    assert v1.withdrawals == v.withdrawals[w.nonce := w];
    assert v1.clients == v.clients[w.client := v1.clients[w.client]];
    assert v1.clients[w.client := b] == v.clients;
    assert done == Ok(v.(withdrawals := v1.withdrawals - {w.nonce}));
    if w.nonce !in v.withdrawals {
      assert v1.withdrawals - {w.nonce} == v.withdrawals;
    } else {
      assert w.nonce !in v1.withdrawals - {w.nonce};
    }
  }

  /** The client's locked funds must cover the withdrawal. */
  lemma WithdrawUndone(v: Vault, nonce: nat)
    requires ApplyWithdrawal(v, nonce).err.None?
    ensures var w := v.withdrawals[nonce];
      (RollbackAppliedWithdrawal(ApplyWithdrawal(v, nonce).v, w) == Ok(v)) <==>
      (w.nonce == nonce && w.amount <= v.clients[w.client].locked)
  {
    var w, v1 := v.withdrawals[nonce], ApplyWithdrawal(v, nonce).v;
    var b := v.clients[w.client];
    var b' := b.(locked := SatSub(b.locked, w.amount) + w.amount);
    assert v1.clients == v.clients[w.client := v1.clients[w.client]];
    assert v1.clients[w.client := b'] == v.clients[w.client := b'];
    var ws := (v.withdrawals - {nonce})[w.nonce := w];
    assert RollbackAppliedWithdrawal(v1, w) == Ok(v.(clients := v.clients[w.client := b'], withdrawals := ws));
    if w.nonce != nonce {
      assert nonce !in ws;
    } else {
      assert ws == v.withdrawals;
      if w.amount <= b.locked {
        assert v.clients[w.client := b'] == v.clients;
      } else {
        assert v.clients[w.client := b'][w.client] == b';
      }
    }
  }

  /** A credit that comes out of the rollback as it was: it owes something and did not already list the id. */
  predicate Restorable(v: Vault, provider: Id, sid: Id)
  {
    provider in v.credits ==>
      v.credits[provider].amount > 0 && v.credits[provider].ids != [] && sid !in v.credits[provider].ids
  }

  /** What undoing a settlement leaves of the provider's credit: one that owes nothing is dropped. */
  lemma CreditUndone(v: Vault, provider: Id, amount: nat, sid: Id, now: Time)
    requires provider in v.providers
    ensures var start := StartedCredit(v, provider, now);
      var less := Deduct(RaisedCredit(start, amount, sid), amount, sid);
      && (provider in v.credits ==> start == v.credits[provider])
      && (sid !in start.ids ==> less == start)
      && (Restorable(v, provider, sid) && provider in v.credits ==> less == start && !Spent(less))
      && (provider !in v.credits ==> Spent(less))
      && (!Restorable(v, provider, sid) && !Spent(less) ==> less != start)
  {
    var start := StartedCredit(v, provider, now);
    WithoutAppend(start.ids, sid, sid);
    if sid !in start.ids { WithoutAbsent(start.ids, sid); } else { WithoutMembers(start.ids, sid); }
  }

  lemma SettledShape(v: Vault, c: Pubkey, amount: nat, provider: Id, sid: Id, now: Time)
    requires SettlePayment(v, c, amount, provider, sid, now).err.None?
    ensures c in v.clients && provider in v.providers
    ensures SettlePayment(v, c, amount, provider, sid, now) ==
      Ok(v.(clients := v.clients[c := v.clients[c].(locked := SatSub(v.clients[c].locked, amount))],
            credits := v.credits[provider := CreditedWith(v, provider, amount, sid, now)]))
  {
    if c in v.clients { if provider in v.providers { if provider in v.credits {} } }
  }

  lemma UnsettledShape(v: Vault, c: Pubkey, amount: nat, provider: Id, sid: Id)
    requires c in v.clients && provider in v.credits
    ensures var less := Deduct(v.credits[provider], amount, sid);
      RollbackSettlePayment(v, c, amount, provider, sid) ==
      Ok(v.(clients := v.clients[c := v.clients[c].(locked := v.clients[c].locked + amount)],
            credits := if Spent(less) then v.credits - {provider} else v.credits[provider := less]))
  {
    hide Deduct, Spent;
  }

  /** The client's lock must cover the payment, and a credit already there must owe something. */
  lemma SettleUndone(v: Vault, c: Pubkey, amount: nat, provider: Id, sid: Id, now: Time)
    requires SettlePayment(v, c, amount, provider, sid, now).err.None?
    ensures var done := RollbackSettlePayment(SettlePayment(v, c, amount, provider, sid, now).v, c, amount, provider, sid);
      && (done == Ok(v) <==> amount <= v.clients[c].locked && Restorable(v, provider, sid))
      && (amount <= v.clients[c].locked && provider in v.credits && sid !in v.credits[provider].ids && v.credits[provider].amount == 0 ==>
            done == Ok(v.(credits := v.credits - {provider})))
  {
    hide Without, Spent, Deduct, SettlePayment, RollbackSettlePayment, Restorable, StartedCredit, RaisedCredit;
    SettledShape(v, c, amount, provider, sid, now);
    var v1 := SettlePayment(v, c, amount, provider, sid, now).v;
    UnsettledShape(v1, c, amount, provider, sid);
    var b' := v.clients[c].(locked := SatSub(v.clients[c].locked, amount) + amount);
    assert v1.clients[c := b'] == v.clients[c := b'];
    var more := CreditedWith(v, provider, amount, sid, now);
    var less := Deduct(more, amount, sid);
    var credits' := if Spent(less) then v1.credits - {provider} else v1.credits[provider := less];
    assert RollbackSettlePayment(v1, c, amount, provider, sid) == Ok(v.(clients := v.clients[c := b'], credits := credits'));
    RestoredBalance(v.clients, c, amount);
    CreditUndone(v, provider, amount, sid, now);
    CreditsRestored(v, provider, more, less, sid, credits');
  }

  lemma RestoredBalance(cl: map<Pubkey, Balance>, c: Pubkey, amount: nat)
    requires c in cl
    ensures cl[c := cl[c].(locked := SatSub(cl[c].locked, amount) + amount)] == cl <==> amount <= cl[c].locked
  {
    var b' := cl[c].(locked := SatSub(cl[c].locked, amount) + amount);
    if amount <= cl[c].locked { assert b' == cl[c]; } else { assert cl[c := b'][c] != cl[c]; }
  }

  lemma CreditsRestored(v: Vault, provider: Id, more: Credit, less: Credit, sid: Id, credits': map<Id, Credit>)
    requires credits' == if Spent(less) then v.credits[provider := more] - {provider} else v.credits[provider := more][provider := less]
    requires provider in v.credits && sid !in v.credits[provider].ids ==> less == v.credits[provider]
    requires provider in v.credits && Restorable(v, provider, sid) ==> less == v.credits[provider] && !Spent(less)
    requires provider in v.credits && !Restorable(v, provider, sid) && !Spent(less) ==> less != v.credits[provider]
    requires provider !in v.credits ==> Spent(less)
    ensures credits' == v.credits <==> Restorable(v, provider, sid)
    ensures provider in v.credits && sid !in v.credits[provider].ids && v.credits[provider].amount == 0 ==>
      credits' == v.credits - {provider}
  {
    if provider !in v.credits {
      assert credits' == v.credits;
    } else if Restorable(v, provider, sid) {
      assert credits' == v.credits;
    } else if Spent(less) {
      assert provider !in credits';
      assert credits' == v.credits - {provider};
    } else {
      assert credits'[provider] == less;
    }
  }

  // ---- Channels ----

  /** The channel id must be new. */
  lemma OpenUndone(v: Vault, id: Id, c: Pubkey, provider: Id, deposit: nat, now: Time)
    requires OpenChannel(v, id, c, provider, deposit, now).err.None?
    ensures RollbackOpenChannel(OpenChannel(v, id, c, provider, deposit, now).v, id) == Ok(v) <==> id !in v.channels
  {
    hide ReserveBalance, ReleaseBalance;
    var ch := NewChannel(id, c, provider, deposit, now);
    ReserveShape(v, c, deposit);
    var v1 := OpenChannel(v, id, c, provider, deposit, now).v;
    var v2 := v1.(channels := v1.channels - {id});
    var v3 := v.(channels := v.channels[id := ch] - {id});
    if deposit > 0 {
      ReleaseShape(v2, c, deposit);
      assert v2.clients[c := v.clients[c]] == v.clients;
      assert RollbackOpenChannel(v1, id) == Ok(v3);
    } else {
      assert v2.clients == v.clients;
      assert RollbackOpenChannel(v1, id) == Ok(v3);
    }
    if id !in v.channels { assert v.channels[id := ch] - {id} == v.channels; } else { assert id !in v.channels[id := ch] - {id}; }
  }

  lemma ReserveShape(v: Vault, c: Pubkey, amount: nat)
    requires c in v.clients && amount <= v.clients[c].free
    ensures ReserveBalance(v, c, amount) == Ok(v.(clients :=
      v.clients[c := v.clients[c].(free := v.clients[c].free - amount, locked := v.clients[c].locked + amount)]))
  {
  }

  lemma ReleaseShape(v: Vault, c: Pubkey, amount: nat)
    requires c in v.clients
    ensures ReleaseBalance(v, c, amount) == Ok(v.(clients :=
      v.clients[c := v.clients[c].(free := v.clients[c].free + amount, locked := SatSub(v.clients[c].locked, amount))]))
  {
  }

  lemma ReleaseMissing(v: Vault, c: Pubkey, amount: nat)
    requires c !in v.clients
    ensures ReleaseBalance(v, c, amount).v == v
  {
  }

  /** Replacing a channel and then restoring its parts, but for the time of its last change. */
  lemma Rewritten(v: Vault, id: Id, ch: Channel, ch': Channel, now: Time)
    requires id in v.channels
    ensures v.channels[id := ch][id := ch'] == v.channels[id := ch']
    ensures v.channels[id := ch'] == v.channels[id := v.channels[id].(updatedAt := now)] <==> ch' == v.channels[id].(updatedAt := now)
  {
    var m := v.channels[id := ch'];
    assert m[id] == ch';
  }

  /** The channel must have had no request left over. */
  lemma SubmitUndone(v: Vault, id: Id, rid: Id, amount: nat, hash: Bytes, now: Time, undoneAt: Time)
    requires SubmitRequest(v, id, rid, amount, hash, now).err.None?
    ensures RollbackSubmitRequest(SubmitRequest(v, id, rid, amount, hash, now).v, id, rid, undoneAt) == Ok(Touch(v, id, undoneAt))
      <==> v.channels[id].request.None?
  {
    var ch := v.channels[id];
    var ch1 := Submitted(ch, rid, amount, hash, now);
    var ch2 := ch.(request := None, updatedAt := undoneAt);
    assert ch1.usedIds - {rid} == ch.usedIds;
    Rewritten(v, id, ch1, ch2, undoneAt);
    assert RollbackSubmitRequest(WithChannel(v, id, ch1), id, rid, undoneAt) == Ok(v.(channels := v.channels[id := ch2]));
  }

  /** The request must not have carried a delivery already. */
  lemma DeliverUndone(k: Crypto, v: Vault, id: Id, d: Delivery, now: Time, undoneAt: Time)
    requires DeliverAdaptor(k, v, id, d, now).err.None?
    ensures var req := v.channels[id].request.value;
      (RollbackDeliverAdaptor(DeliverAdaptor(k, v, id, d, now).v, id, req.requestId, undoneAt) == Ok(Touch(v, id, undoneAt)))
      <==> Undelivered(req) == req
  {
    hide DeliveryVerifies;
    var ch := v.channels[id];
    var req := ch.request.value;
    var ch1 := ch.(request := Some(Delivered(req, d)), status := Pending, nonce := ch.nonce + 1, updatedAt := now);
    var ch2 := ch.(request := Some(Undelivered(req)), updatedAt := undoneAt);
    Rewritten(v, id, ch1, ch2, undoneAt);
    assert DeliverAdaptor(k, v, id, d, now).v == WithChannel(v, id, ch1);
    assert RollbackDeliverAdaptor(WithChannel(v, id, ch1), id, req.requestId, undoneAt) == Ok(v.(channels := v.channels[id := ch2]));
  }

  /** A paid request can always be put back. */
  lemma FinalizeUndone(v: Vault, id: Id, now: Time, undoneAt: Time)
    requires id in v.channels && v.channels[id].status == Pending && v.channels[id].request.Some?
    requires v.channels[id].request.value.amount <= v.channels[id].locked
    ensures var req := v.channels[id].request.value;
      RollbackFinalize(WithChannel(v, id, Paid(v.channels[id], req.amount, now)), id, req, undoneAt) == Ok(Touch(v, id, undoneAt))
  {
    var ch := v.channels[id];
    var req := ch.request.value;
    Rewritten(v, id, Paid(ch, req.amount, now), ch.(updatedAt := undoneAt), undoneAt);
  }

  /** The channel's lock must cover the expired request. */
  lemma ExpiryUndone(v: Vault, id: Id, now: Time, undoneAt: Time)
    requires id in v.channels && Stale(v.channels[id], now)
    ensures var ch := v.channels[id];
      (RollbackExpireRequest(ExpireRequest(v, id, now).v, id, ch.status, ch.request.value, undoneAt) == Ok(Touch(v, id, undoneAt)))
      <==> ch.request.value.amount <= ch.locked
  {
    var ch := v.channels[id];
    var req := ch.request.value;
    var ch2 := ch.(locked := SatSub(ch.locked, req.amount) + req.amount, updatedAt := undoneAt);
    Rewritten(v, id, Released(ch, req.amount, now), ch2, undoneAt);
    assert RollbackExpireRequest(WithChannel(v, id, Released(ch, req.amount, now)), id, ch.status, req, undoneAt)
      == Ok(v.(channels := v.channels[id := ch2]));
  }

  /** The provider's credit as it was saved when a channel with earnings was closed. */
  function SavedCredit(v: Vault, ch: Channel): Option<Credit>
  {
    if ch.earned > 0 && ch.provider in v.credits then Some(v.credits[ch.provider]) else None
  }

  lemma EarningsUndone(v: Vault, ch: Channel, sid: Id, now: Time)
    requires ch.provider in v.providers
    ensures var credits1 := CreditEarnings(v, ch.provider, ch.earned, sid, now).v.credits;
      var saved := if ch.provider in v.credits then Some(v.credits[ch.provider]) else None;
      (if saved.Some? then credits1[ch.provider := saved.value] else credits1 - {ch.provider}) == v.credits
  {
    var credits1 := CreditEarnings(v, ch.provider, ch.earned, sid, now).v.credits;
    assert credits1 == v.credits[ch.provider := credits1[ch.provider]];
    if ch.provider in v.credits {
      assert credits1[ch.provider := v.credits[ch.provider]] == v.credits;
    } else {
      assert credits1 - {ch.provider} == v.credits;
    }
  }

  /** The channel put back under its own id is the map before the close, if that was its key. */
  lemma Reinserted(chs: map<Id, Channel>, id: Id)
    requires id in chs
    ensures (chs - {id})[chs[id].channelId := chs[id]] == chs <==> chs[id].channelId == id
  {
    var m := (chs - {id})[chs[id].channelId := chs[id]];
    if chs[id].channelId == id { assert m == chs; } else { assert id !in m; }
  }

  function CloseBalance(b: Balance, ch: Channel): Balance
  {
    b.(locked := SatSub(b.locked, ch.free + ch.earned), free := b.free + ch.free)
  }

  /** A channel that holds nothing closes by leaving the map. */
  lemma CloseEmpty(v: Vault, id: Id, sid: Id, now: Time)
    requires id in v.channels && v.channels[id].status == Open && v.channels[id].free + v.channels[id].earned == 0
    ensures var ch := v.channels[id];
      && CloseChannel(v, id, sid, now) == Ok(v.(channels := v.channels - {id}))
      && RollbackCloseChannel(v.(channels := v.channels - {id}), ch, SavedCredit(v, ch))
           == Ok(v.(channels := (v.channels - {id})[ch.channelId := ch]))
  {
  }

  lemma CloseHolding(v: Vault, id: Id, sid: Id, now: Time)
    requires id in v.channels && v.channels[id].free + v.channels[id].earned > 0
    requires CloseChannel(v, id, sid, now).err.None?
    ensures var ch := v.channels[id];
      && ch.status == Open && ch.client in v.clients && (ch.earned > 0 ==> ch.provider in v.providers)
      && CloseChannel(v, id, sid, now).v == v.(channels := v.channels - {id},
           clients := v.clients[ch.client := CloseBalance(v.clients[ch.client], ch)],
           credits := if ch.earned > 0 then CreditEarnings(v, ch.provider, ch.earned, sid, now).v.credits else v.credits)
  {
    var ch := v.channels[id];
    if ch.earned > 0 && ch.provider in v.providers && ch.client in v.clients { if ch.provider in v.credits {} else {} }
  }

  lemma ReopenHolding(v: Vault, ch: Channel, saved: Option<Credit>)
    requires ch.free + ch.earned > 0 && ch.client in v.clients
    ensures var b := v.clients[ch.client];
      RollbackCloseChannel(v, ch, saved) == Ok(v.(channels := v.channels[ch.channelId := ch],
        clients := v.clients[ch.client := b.(locked := b.locked + (ch.free + ch.earned), free := SatSub(b.free, ch.free))],
        credits := if ch.earned == 0 then v.credits else if saved.Some? then v.credits[ch.provider := saved.value]
                   else v.credits - {ch.provider}))
  {
    if ch.earned == 0 {} else if saved.Some? {} else {}
  }

  /** The client's lock must cover what the channel held. */
  lemma CloseUndone(v: Vault, id: Id, sid: Id, now: Time)
    requires CloseChannel(v, id, sid, now).err.None?
    ensures id in v.channels
    ensures var ch := v.channels[id];
      var total := ch.free + ch.earned;
      (RollbackCloseChannel(CloseChannel(v, id, sid, now).v, ch, SavedCredit(v, ch)) == Ok(v)) <==>
      (ch.channelId == id && (total > 0 ==> total <= v.clients[ch.client].locked))
  {
    hide RollbackCloseChannel, CreditEarnings;
    var ch := v.channels[id];
    var total := ch.free + ch.earned;
    Reinserted(v.channels, id);
    if total == 0 {
      CloseEmpty(v, id, sid, now);
    } else {
      CloseHolding(v, id, sid, now);
      CloseRestored(v, id, sid, now);
    }
  }

  lemma CloseRestored(v: Vault, id: Id, sid: Id, now: Time)
    requires id in v.channels && v.channels[id].free + v.channels[id].earned > 0
    requires CloseChannel(v, id, sid, now).err.None?
    ensures var ch := v.channels[id];
      var total := ch.free + ch.earned;
      && ch.client in v.clients
      && RollbackCloseChannel(CloseChannel(v, id, sid, now).v, ch, SavedCredit(v, ch)) ==
           Ok(v.(channels := (v.channels - {id})[ch.channelId := ch],
                 clients := v.clients[ch.client := v.clients[ch.client].(locked := SatSub(v.clients[ch.client].locked, total) + total)]))
      && (v.clients[ch.client := v.clients[ch.client].(locked := SatSub(v.clients[ch.client].locked, total) + total)] == v.clients
          <==> total <= v.clients[ch.client].locked)
  {
    hide RollbackCloseChannel, CreditEarnings, CloseChannel;
    var ch := v.channels[id];
    var total := ch.free + ch.earned;
    CloseHolding(v, id, sid, now);
    var v1 := CloseChannel(v, id, sid, now).v;
    ReopenHolding(v1, ch, SavedCredit(v, ch));
    var b' := v.clients[ch.client].(locked := SatSub(v.clients[ch.client].locked, total) + total);
    assert v1.clients[ch.client := b'] == v.clients[ch.client := b'];
    RestoredBalance(v.clients, ch.client, total);
    if ch.earned > 0 { EarningsUndone(v, ch, sid, now); }
  }
}
