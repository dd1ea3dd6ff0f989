/**
 * The vault as the enclave holds it: maps and counters that each operation updates in place (enclave/src/state.rs),
 * with the deposit detector's progress and the log. Every method is proved against its function in Ledger.dfy.
 */
module VaultObject {
  import opened Prelude
  import opened Sums
  import opened VaultTypes
  import L = Ledger
  import S = Steps
  import opened CreditIndex
  import opened Invariant
  import BatchLemmas

  /** The largest weight in a map, 0 when it is empty (`iter().map(..).max().unwrap_or(0)`). */
  method LargestOf<K(==), V(==)>(m: map<K, V>, f: V -> nat) returns (most: nat)
    ensures most == Latest(m, f)
  {
    var rest := m;
    most := 0;
    while rest != map[]
      invariant Max(most, Latest(rest, f)) == Latest(m, f)
      decreases |rest|
    {
      var k :| k in rest.Keys;
      LatestSplit(rest, f, k);
      assert |rest - {k}| < |rest| by { assert rest.Keys == (rest - {k}).Keys + {k}; }
      if most < f(rest[k]) { most := f(rest[k]); }
      rest := rest - {k};
    }
  }

  class VaultState {
    var clients: map<Pubkey, Balance>
    var reservations: map<Id, Reservation>
    var payments: map<Id, Id>
    var credits: map<Id, Credit>
    var providers: map<Id, Provider>
    var history: map<Id, Settlement>
    var batches: map<Id, BatchInfo>
    var withdrawals: map<nat, Withdrawal>
    var channels: map<Id, Channel>
    var receiptNonce: nat
    var withdrawNonce: nat
    var processed: set<Id>
    var lastSignature: Option<Id>
    var lastSlot: nat
    var log: seq<Entry>

    ghost function Value(): Vault
      reads this
    {
      Vault(clients, reservations, payments, credits, providers, history, batches, withdrawals, channels,
            receiptNonce, withdrawNonce, processed, lastSignature, lastSlot)
    }

    constructor ()
      ensures Value() == EmptyVault && log == []
    {
      clients, reservations, payments, credits, providers := map[], map[], map[], map[], map[];
      history, batches, withdrawals, channels := map[], map[], map[], map[];
      receiptNonce, withdrawNonce, processed, lastSignature, lastSlot := 1, 1, {}, None, 0;
      log := [];
    }

    /** Durably appends an entry, or fails. */
    method Append(e: Entry, ok: bool) returns (err: Option<Error>)
      modifies this`log
      ensures err == if ok then None else Some(WalAppendFailed)
      ensures log == old(log) + if ok then [e] else []
    {
      if !ok { return Some(WalAppendFailed); }
      log := log + [e];
      return None;
    }

    /** Marks a chain event as seen and records how far the detector has read. */
    method MarkProcessed(signature: Id, slot: nat)
      modifies this`processed, this`lastSignature, this`lastSlot
      ensures Value() == S.Processed(old(Value()), signature, slot)
    {
      processed := processed + {signature};
      lastSignature := Some(signature);
      lastSlot := slot;
    }

    method AddReservation(r: Reservation)
      modifies this`reservations, this`payments
      ensures Value() == S.WithReservation(old(Value()), r)
    {
      reservations := reservations[r.verificationId := r];
      payments := payments[r.paymentId := r.verificationId];
    }

    method SetReservation(vid: Id, r: Reservation)
      modifies this`reservations
      ensures Value() == S.WithStatus(old(Value()), vid, r)
    {
      reservations := reservations[vid := r];
    }

    method RecordSettlement(sid: Id, c: Pubkey, provider: Id, amount: nat, now: Time)
      modifies this`history
      ensures Value() == S.Record(old(Value()), sid, c, provider, amount, now)
    {
      var account := if provider in providers then providers[provider].account else Pubkey([]);
      history := history[sid := Settlement(sid, c, account, amount, now)];
    }

    method ApplyDeposit(c: Pubkey, amount: nat)
      modifies this`clients
      ensures Value() == L.ApplyDeposit(old(Value()), c, amount)
    {
      if c !in clients { clients := clients[c := EmptyBalance]; }
      clients := clients[c := clients[c].(free := clients[c].free + amount)];
      clients := clients[c := clients[c].(deposited := clients[c].deposited + amount)];
    }

    method RollbackDeposit(c: Pubkey, amount: nat) returns (err: Option<Error>)
      modifies this`clients
      ensures Effect(Value(), err) == L.RollbackDeposit(old(Value()), c, amount)
    {
      if c !in clients { return Some(ClientNotFound); }
      clients := clients[c := clients[c].(free := SatSub(clients[c].free, amount))];
      clients := clients[c := clients[c].(deposited := SatSub(clients[c].deposited, amount))];
      return None;
    }

    method ReserveBalance(c: Pubkey, amount: nat) returns (err: Option<Error>)
      modifies this`clients
      ensures Effect(Value(), err) == L.ReserveBalance(old(Value()), c, amount)
    {
      if c !in clients { return Some(InsufficientBalance); }
      if clients[c].free < amount { return Some(InsufficientBalance); }
      clients := clients[c := clients[c].(free := clients[c].free - amount)];
      clients := clients[c := clients[c].(locked := clients[c].locked + amount)];
      return None;
    }

    method ReleaseBalance(c: Pubkey, amount: nat) returns (err: Option<Error>)
      modifies this`clients
      ensures Effect(Value(), err) == L.ReleaseBalance(old(Value()), c, amount)
    {
      if c !in clients { return Some(ClientNotFound); }
      clients := clients[c := clients[c].(locked := SatSub(clients[c].locked, amount))];
      clients := clients[c := clients[c].(free := clients[c].free + amount)];
      return None;
    }

    /** `refresh_client_max_lock_expires_at`: three scans, then the client's cached expiry. */
    method Refresh(c: Pubkey) returns (err: Option<Error>)
      modifies this`clients
      ensures Effect(Value(), err) == L.Refresh(old(Value()), c)
    {
      var until := LargestOf(reservations, L.ReservationUntil(c));
      var pending := LargestOf(withdrawals, L.WithdrawalUntil(c));
      var requests := LargestOf(channels, L.ChannelUntil(c));
      if until < pending { until := pending; }
      if until < requests { until := requests; }
      if c !in clients { return Some(ClientNotFound); }
      clients := clients[c := clients[c].(maxLock := until)];
      return None;
    }

    method AuthorizeWithdrawal(w: Withdrawal) returns (err: Option<Error>)
      modifies this`clients, this`withdrawals
      ensures Effect(Value(), err) == L.AuthorizeWithdrawal(old(Value()), w)
    {
      if w.client !in clients { return Some(ClientNotFound); }
      var b := clients[w.client];
      if b.free < w.amount { return Some(InsufficientBalance); }
      clients := clients[w.client := b.(free := b.free - w.amount, locked := b.locked + w.amount)];
      withdrawals := withdrawals[w.nonce := w];
      return None;
    }

    /** `expire_pending_withdrawal`, also used to roll an authorization back. */
    method ExpireWithdrawal(nonce: nat) returns (err: Option<Error>)
      modifies this`clients, this`withdrawals
      ensures Effect(Value(), err) == L.ExpireWithdrawal(old(Value()), nonce)
    {
      if nonce !in withdrawals { return Some(ReservationNotFound); }
      var w := withdrawals[nonce];
      withdrawals := withdrawals - {nonce};
      if w.client !in clients { return Some(ClientNotFound); }
      var b := clients[w.client];
      clients := clients[w.client := b.(locked := SatSub(b.locked, w.amount), free := b.free + w.amount)];
      return None;
    }

    method ApplyWithdrawal(nonce: nat) returns (err: Option<Error>)
      modifies this`clients, this`withdrawals
      ensures Effect(Value(), err) == L.ApplyWithdrawal(old(Value()), nonce)
    {
      if nonce !in withdrawals { return Some(ReservationNotFound); }
      var w := withdrawals[nonce];
      withdrawals := withdrawals - {nonce};
      if w.client !in clients { return Some(ClientNotFound); }
      var b := clients[w.client];
      clients := clients[w.client := b.(locked := SatSub(b.locked, w.amount), withdrawn := b.withdrawn + w.amount)];
      return None;
    }

    method RollbackAppliedWithdrawal(w: Withdrawal) returns (err: Option<Error>)
      modifies this`clients, this`withdrawals
      ensures Effect(Value(), err) == L.RollbackAppliedWithdrawal(old(Value()), w)
    {
      if w.client !in clients { return Some(ClientNotFound); }
      var b := clients[w.client];
      clients := clients[w.client := b.(locked := b.locked + w.amount, withdrawn := SatSub(b.withdrawn, w.amount))];
      withdrawals := withdrawals[w.nonce := w];
      return None;
    }

    method SettlePayment(c: Pubkey, amount: nat, provider: Id, sid: Id, now: Time) returns (err: Option<Error>)
      modifies this`clients, this`credits
      ensures Effect(Value(), err) == L.SettlePayment(old(Value()), c, amount, provider, sid, now)
    {
      if c !in clients { return Some(ClientNotFound); }
      clients := clients[c := clients[c].(locked := SatSub(clients[c].locked, amount))];
      if provider !in providers { return Some(ProviderNotFound); }
      if provider !in credits {
        credits := credits[provider := Credit(provider, providers[provider].account, 0, now, [])];
      }
      credits := credits[provider := credits[provider].(amount := credits[provider].amount + amount)];
      credits := credits[provider := credits[provider].(ids := credits[provider].ids + [sid])];
      return None;
    }

    method RollbackSettlePayment(c: Pubkey, amount: nat, provider: Id, sid: Id) returns (err: Option<Error>)
      modifies this`clients, this`credits
      ensures Effect(Value(), err) == L.RollbackSettlePayment(old(Value()), c, amount, provider, sid)
    {
      if c !in clients { return Some(ClientNotFound); }
      clients := clients[c := clients[c].(locked := clients[c].locked + amount)];
      if provider !in credits { return Some(ProviderNotFound); }
      var ids := Retained(credits[provider].ids, sid);
      credits := credits[provider := credits[provider].(amount := SatSub(credits[provider].amount, amount), ids := ids)];
      var spent := credits[provider].amount == 0 || credits[provider].ids == [];
      if spent { credits := credits - {provider}; }
      return None;
    }

    /** One id of a confirmed chunk (the body of the first loop of `apply_batch_confirmation`). */
    method ConfirmId(sid: Id, info: BatchInfo) returns (touched: set<Id>)
      requires Unambiguous(Value(), sid)
      modifies this`reservations, this`credits, this`history, this`batches
      ensures Value() == L.ConfirmOne(old(Value()), sid, info)
      ensures touched == L.Touched(old(Value()), sid)
    {
      hide L.Deduct, L.Without, L.Owner, L.Holder, SidsUnique, ListedOnce;
      history := history - {sid};
      batches := batches[sid := info];
      var owner := FindOwner(reservations, sid);
      if owner.Some? {
        var r := reservations[owner.value];
        touched := {r.provider};
        if r.provider in credits { 
          var less := Deducted(credits[r.provider], r.amount, sid);
          credits := credits[r.provider := less];
        }
        reservations := reservations[owner.value := r.(status := BatchedOnchain)];
      } else {
        var holder := FindHolder(credits, sid);
        touched := {};
        if holder.Some? {
          touched := {holder.value};
          var ids := Retained(credits[holder.value].ids, sid);
          credits := credits[holder.value := credits[holder.value].(ids := ids)];
        }
      }
    }

    /** The two clean-up loops of `apply_batch_confirmation`. */
    method DropSpentCredits(affected: set<Id>)
      modifies this`credits
      ensures credits == L.DropSpent(old(credits), affected)
    {
      ghost var before := credits;
      var todo := affected;
      assert credits == L.DropSpent(before, affected - todo);
      while todo != {}
        invariant todo <= affected && credits == L.DropSpent(before, affected - todo)
        decreases |todo|
      {
        var p :| p in todo;
        todo := todo - {p};
        if p in credits && L.Spent(credits[p]) { credits := credits - {p}; }
      }
      assert affected - todo == affected;
    }

    method RestampCredits(affected: set<Id>)
      modifies this`credits
      ensures credits == L.RestampEach(old(credits), affected, history)
    {
      ghost var before := credits;
      var todo := affected;
      assert credits == L.RestampEach(before, affected - todo, history);
      while todo != {}
        invariant todo <= affected && credits == L.RestampEach(before, affected - todo, history)
        decreases |todo|
      {
        var p :| p in todo;
        todo := todo - {p};
        if p in credits {
          var earliest := EarliestOf(credits[p].ids, history);
          if earliest.Some? { credits := credits[p := credits[p].(oldestAt := earliest.value)]; }
        }
      }
      assert affected - todo == affected;
    }

    /** Applies a confirmed chunk: each id in turn, then the credits of the providers it touched. */
    method ApplyBatchConfirmation(sids: seq<Id>, batchId: nat, signature: Id)
      requires forall sid :: sid in sids ==> Unambiguous(Value(), sid)
      modifies this`reservations, this`credits, this`history, this`batches
      ensures Value() == L.ApplyBatchConfirmation(old(Value()), sids, batchId, signature)
    {
      hide Unambiguous, L.ConfirmOne, L.Touched, L.DropSpent, L.RestampEach;
      var info := BatchInfo(batchId, signature);
      var affected := {};
      for i := 0 to |sids|
        invariant Value() == L.ConfirmEach(old(Value()), sids[..i], info)
        invariant affected == L.TouchedEach(old(Value()), sids[..i], info)
        invariant forall sid :: sid in sids ==> Unambiguous(Value(), sid)
      {
        assert sids[..i + 1][..i] == sids[..i];
        StillUnambiguous(Value(), sids, sids[i], info);
        var touched := ConfirmId(sids[i], info);
        affected := affected + touched;
      }
      assert sids[..|sids|] == sids;
      DropSpentCredits(affected);
      RestampCredits(affected);
    }
  }

  /** At most one reservation or credit can answer to the id, whatever order the maps are scanned in. */
  ghost predicate Unambiguous(v: Vault, sid: Id)
  {
    SidsUnique(v.reservations) && (L.Owner(v.reservations, sid).Some? || ListedOnce(v.credits, sid))
  }

  ghost predicate ListedOnce(credits: map<Id, Credit>, sid: Id)
  {
    forall p, q :: p in credits && q in credits && sid in credits[p].ids && sid in credits[q].ids ==> p == q
  }

  /** Confirming one id leaves the others as unambiguous as they were. */
  lemma StillUnambiguous(v: Vault, sids: seq<Id>, sid: Id, info: BatchInfo)
    requires forall x :: x in sids ==> Unambiguous(v, x)
    ensures forall x :: x in sids ==> Unambiguous(L.ConfirmOne(v, sid, info), x)
  {
    hide Unambiguous, L.ConfirmOne;
    forall x | x in sids ensures Unambiguous(L.ConfirmOne(v, sid, info), x) { UnambiguousKept(v, x, sid, info); }
  }

  lemma UnambiguousKept(v: Vault, x: Id, sid: Id, info: BatchInfo)
    requires Unambiguous(v, x)
    ensures Unambiguous(L.ConfirmOne(v, sid, info), x)
  {
    hide L.ConfirmOne, L.Owner, L.Holder;
    var v' := L.ConfirmOne(v, sid, info);
    ConfirmShapes(v, sid, info);
    assert SidsUnique(v'.reservations);
    if L.Owner(v.reservations, x).Some? {
      OwnerIs(v'.reservations, L.Owner(v.reservations, x).value, x);
    } else {
      assert ListedOnce(v'.credits, x);
    }
  }

  /** A confirmation changes no settlement id of a reservation and adds none to a credit. */
  ghost predicate Shrinks(v: Vault, v': Vault)
  {
    && v'.reservations.Keys == v.reservations.Keys && v'.credits.Keys == v.credits.Keys
    && (forall vid :: vid in v.reservations ==> v'.reservations[vid].settlementId == v.reservations[vid].settlementId)
    && (forall p, x :: p in v.credits && x in v'.credits[p].ids ==> x in v.credits[p].ids)
  }

  lemma ConfirmShapes(v: Vault, sid: Id, info: BatchInfo)
    ensures Shrinks(v, L.ConfirmOne(v, sid, info))
  {
    hide L.Owner, L.ConfirmOne, Shrinks;
    if L.Owner(v.reservations, sid).Some? { OwnedShrinks(v, sid, info); } else { UnownedShrinks(v, sid, info); }
  }

  lemma OwnedShrinks(v: Vault, sid: Id, info: BatchInfo)
    requires L.Owner(v.reservations, sid).Some?
    ensures Shrinks(v, L.ConfirmOne(v, sid, info))
  {
    hide L.Owner, L.ConfirmOne, L.Without;
    BatchLemmas.ConfirmOneShape(v, sid, info);
    var p := v.reservations[L.Owner(v.reservations, sid).value].provider;
    if p in v.credits { WithoutMembers(v.credits[p].ids, sid); }
  }

  lemma UnownedShrinks(v: Vault, sid: Id, info: BatchInfo)
    requires L.Owner(v.reservations, sid).None?
    ensures Shrinks(v, L.ConfirmOne(v, sid, info))
  {
    hide L.Owner, L.Holder, L.Without;
    var v1 := v.(history := v.history - {sid}, batches := v.batches[sid := info]);
    match L.Holder(v.credits, sid)
    case Some(p) =>
      WithoutMembers(v.credits[p].ids, sid);
      assert L.ConfirmOne(v, sid, info)
        == v1.(credits := v.credits[p := v.credits[p].(ids := L.Without(v.credits[p].ids, sid))]);
    case None =>
      assert L.ConfirmOne(v, sid, info) == v1;
  }

  /** `iter_mut().find(..)` over the reservations, in any order. */
  method FindOwner(rs: map<Id, Reservation>, sid: Id) returns (found: Option<Id>)
    ensures found.Some? ==> found.value in rs && L.SettledAs(rs[found.value], sid)
    ensures found.None? ==> forall vid :: vid in rs ==> !L.SettledAs(rs[vid], sid)
    ensures SidsUnique(rs) ==> found == L.Owner(rs, sid)
  {
    var rest := rs.Keys;
    found := None;
    while rest != {} && found.None?
      invariant rest <= rs.Keys
      invariant found.None? ==> forall vid :: vid in rs && vid !in rest ==> !L.SettledAs(rs[vid], sid)
      invariant found.Some? ==> found.value in rs && L.SettledAs(rs[found.value], sid)
      decreases |rest|
    {
      var vid :| vid in rest;
      rest := rest - {vid};
      if L.SettledAs(rs[vid], sid) { found := Some(vid); }
    }
    if found.Some? && SidsUnique(rs) { OwnerIs(rs, found.value, sid); }
  }

  method FindHolder(credits: map<Id, Credit>, sid: Id) returns (found: Option<Id>)
    ensures found.Some? ==> found.value in credits && sid in credits[found.value].ids
    ensures found.None? ==> forall p :: p in credits ==> sid !in credits[p].ids
    ensures ListedOnce(credits, sid) ==> found == L.Holder(credits, sid)
  {
    var rest := credits.Keys;
    found := None;
    while rest != {} && found.None?
      invariant rest <= credits.Keys
      invariant found.None? ==> forall p :: p in credits && p !in rest ==> sid !in credits[p].ids
      invariant found.Some? ==> found.value in credits && sid in credits[found.value].ids
      decreases |rest|
    {
      var p :| p in rest;
      rest := rest - {p};
      if sid in credits[p].ids { found := Some(p); }
    }
  }

  method Deducted(credit: Credit, amount: nat, sid: Id) returns (less: Credit)
    ensures less == L.Deduct(credit, amount, sid)
  {
    var ids := Retained(credit.ids, sid);
    less := credit.(amount := SatSub(credit.amount, amount), ids := ids);
  }

  /** The earliest recorded timestamp of a list (`filter_map(..).min()`). */
  method EarliestOf(ids: seq<Id>, history: map<Id, Settlement>) returns (least: Option<Time>)
    ensures least == L.Earliest(ids, history)
  {
    least := None;
    for i := |ids| downto 0
      invariant least == L.Earliest(ids[i..], history)
    {
      assert ids[i..][1..] == ids[i + 1..];
      if ids[i] in history && (least.None? || history[ids[i]].timestamp <= least.value) {
        least := Some(history[ids[i]].timestamp);
      }
    }
  }

  /** `Vec::retain`: drops every occurrence of one id, keeping the order. */
  method Retained(ids: seq<Id>, sid: Id) returns (kept: seq<Id>)
    ensures kept == L.Without(ids, sid)
  {
    kept := [];
    for i := 0 to |ids|
      invariant kept == L.Without(ids[..i], sid)
    {
      WithoutAppend(ids[..i], ids[i], sid);
      assert ids[..i + 1] == ids[..i] + [ids[i]];
      if ids[i] != sid { kept := kept + [ids[i]]; }
    }
    assert ids[..|ids|] == ids;
  }
}
