/** Planning during a closing: the provider is credited, and the append is not done (enclave/src/handlers.rs, `post_channel_close`). */
module InFlightClosing {
  import opened Prelude
  import opened Sums
  import opened VaultTypes
  import opened Ledger
  import opened Channels
  import opened CreditIndex
  import opened CursorPass
  import opened Invariant
  import opened SettlementLemmas
  import opened Steps
  import opened Preservation
  import opened BatchCursors
  import opened InFlight
  import opened InFlightLosses
  import opened Rollbacks
  import Handlers

  /** Closing under the lock with passes before its append is answered. */
  ghost function CloseAmid(v: Vault, id: Id, sid: Id, now: Time, ok: bool, plans: seq<Plan>): Outcome
  {
    var done := CloseChannel(v, id, sid, now);
    if done.err.Some? then Idle(done.v) else
      var ch := v.channels[id];
      var v1 := Plans(done.v, plans);
      if ok then Outcome(Refresh(v1, ch.client).v, [ChannelClosed(id, ch.free, ch.earned, if ch.earned > 0 then Some(sid) else None)])
      else Idle(RollbackCloseChannel(v1, ch, SavedCredit(v, ch)).v)
  }

  predicate Closes(v: Vault, id: Id) { id in v.channels && v.channels[id].status == Open }

  ghost predicate FitClosing(v: Vault, id: Id, sid: Id, now: Time, plans: seq<Plan>)
  {
    Closes(v, id) ==> Fit(CloseChannel(v, id, sid, now).v, plans)
  }

  /** What undoing does to the credits as it finds them: the saved one is put back, pruned or not. */
  function PutBack(credits: map<Id, Credit>, ch: Channel, saved: Option<Credit>): map<Id, Credit>
  {
    if ch.earned == 0 then credits
    else if saved.Some? then credits[ch.provider := saved.value] else credits - {ch.provider}
  }

  lemma ClosingPlannable(k: Crypto, v: Vault, id: Id, sid: Id, now: Time)
    requires Inv(k, v) && FreshSid(v, sid) && Closes(v, id)
    ensures Closable(v, id) && Plannable(CloseChannel(v, id, sid, now).v)
  {
    hide Inv, CloseChannel, CreditedWith, Plannable, FreshSid;
    CloseNeverStuck(k, v, id, sid, now);
    CloseChannelShape(v, id, sid, now);
    var ch, x := v.channels[id], CloseChannel(v, id, sid, now).v;
    if ch.earned > 0 {
      NewCreditPlannable(k, v, x, ch.provider, ch.earned, sid, now);
    } else {
      PlannableNow(k, v);
      SamePlannable(v, x);
    }
  }

  lemma SamePlannable(v: Vault, x: Vault)
    requires Plannable(v) && x.credits == v.credits && x.history == v.history && x.reservations == v.reservations
    ensures Plannable(x)
  {
    hide CreditPlannable;
    forall q | q in x.credits ensures CreditPlannable(x, x.credits[q]) { PlannableSame(v, x, x.credits[q]); }
  }

  lemma UndoCredits(x: Vault, credits': map<Id, Credit>, ch: Channel, saved: Option<Credit>)
    requires RollbackCloseChannel(x, ch, saved).err.None?
    ensures RollbackCloseChannel(x.(credits := credits'), ch, saved).v
      == RollbackCloseChannel(x, ch, saved).v.(credits := PutBack(credits', ch, saved))
  {
    if ch.free + ch.earned > 0 {
      Holds(x, ch, saved);
      hide RollbackCloseChannel;
      ReopenHolding(x, ch, saved);
      ReopenHolding(x.(credits := credits'), ch, saved);
    }
  }

  lemma Holds(x: Vault, ch: Channel, saved: Option<Credit>)
    requires RollbackCloseChannel(x, ch, saved).err.None? && ch.free + ch.earned > 0
    ensures ch.client in x.clients
  {
  }

  /** Passes touch the credits only: the rest is as the closing step leaves it. */
  lemma ClosingShape(k: Crypto, v: Vault, id: Id, sid: Id, now: Time, ok: bool, plans: seq<Plan>)
    requires Inv(k, v) && FreshSid(v, sid) && Closes(v, id) && FitClosing(v, id, sid, now, plans)
    ensures var credits' := Plans(CloseChannel(v, id, sid, now).v, plans).credits;
      var step := CloseStep(v, id, sid, now, ok);
      && CloseAmid(v, id, sid, now, ok, plans).entries == step.entries
      && CloseAmid(v, id, sid, now, ok, plans).v ==
           if ok then step.v.(credits := credits') else v.(credits := PutBack(credits', v.channels[id], SavedCredit(v, v.channels[id])))
  {
    hide Inv, CloseChannel, RollbackCloseChannel, Plans, Fit, Plannable, CleanedTo, FreshSid, PutBack, SavedCredit, LockedUntil;
    ClosingPlannable(k, v, id, sid, now);
    CloseNeverStuck(k, v, id, sid, now);
    var x := CloseChannel(v, id, sid, now).v;
    PlansClean(x, plans);
    if !ok {
      var ch := v.channels[id];
      Handlers.CloseFacts(k, v, id, sid, now);
      CloseUndone(v, id, sid, now);
      UndoCredits(x, Plans(x, plans).credits, ch, SavedCredit(v, ch));
    }
  }

  function UnbackedAt(v: Vault, p: Id): nat { if p in v.credits then UnbackedOf(v.history)(v.credits[p]) else 0 }

  /** What a closing with passes takes off the books. */
  ghost function ClosingLoss(v: Vault, id: Id, ok: bool, plans: seq<Plan>): int
  {
    if !Closes(v, id) || plans == [] then 0
    else if ok then Unbacked(v) + v.channels[id].earned
    else if v.channels[id].earned == 0 then Unbacked(v) else Unbacked(v) - UnbackedAt(v, v.channels[id].provider)
  }

  // ---- Committed ----

  lemma ClosingUnbacked(k: Crypto, v: Vault, p: Id, earned: nat, sid: Id, now: Time)
    requires Inv(k, v) && FreshSid(v, sid) && p in v.providers
    ensures Sum(v.credits[p := CreditedWith(v, p, earned, sid, now)], UnbackedOf(v.history)) == Unbacked(v) + earned
  {
    hide Inv, HistSum, CreditedWith, FreshSid, CreditPlannable;
    NewIdPlannable(k, v, p, earned, sid, now);
    SumUpdate(v.credits, UnbackedOf(v.history), p, CreditedWith(v, p, earned, sid, now));
    EmptySum(v.history);
  }

  lemma ClosedWithPasses(k: Crypto, v: Vault, id: Id, sid: Id, now: Time, plans: seq<Plan>)
    requires Inv(k, v) && FreshSid(v, sid) && Closes(v, id) && FitClosing(v, id, sid, now, plans) && plans != []
    ensures var v' := CloseAmid(v, id, sid, now, true, plans).v;
      Inv(k, v') && Lost(v') == Lost(v) + Unbacked(v) + v.channels[id].earned
  {
    hide Inv, Lost, CloseChannel, CloseAmid, Plans, Fit, Plannable, CleanedTo, FreshSid, CloseStep, LockedUntil, CreditedWith, Unbacked;
    ClosingPlannable(k, v, id, sid, now);
    ClosingShape(k, v, id, sid, now, true, plans);
    CloseChannelShape(v, id, sid, now);
    ClosedShape(v, id, sid, now);
    CloseKeeps(k, v, id, sid, now, true);
    var x, ch := CloseChannel(v, id, sid, now).v, v.channels[id];
    PlansClean(x, plans);
    CleanedKeeps(k, CloseStep(v, id, sid, now, true).v, Plans(x, plans).credits);
    if ch.earned > 0 { ClosingUnbacked(k, v, ch.provider, ch.earned, sid, now); } else { UnbackedIs(v); }
  }

  // ---- Undone ----

  lemma PutBackSettled(k: Crypto, v: Vault, credits': map<Id, Credit>, p: Id)
    requires Inv(k, v) && CleanedTo(v.credits, credits', v.history) && p in v.credits
    ensures SettledOk(v.(credits := credits'[p := v.credits[p]]))
  {
    hide MoneyOk, IndexOk, ChannelsOk, HistoryOk, CreditOk, CleanedTo;
    CleanedCredits(k, v, credits');
    CleanedListed(k, v, credits');
    assert CreditOk(p, v.credits[p], v.reservations, v.history, v.providers);
  }

  lemma PutBackKeeps(k: Crypto, v: Vault, credits': map<Id, Credit>, p: Id)
    requires Inv(k, v) && CleanedTo(v.credits, credits', v.history) && p in v.credits
    ensures var v' := v.(credits := credits'[p := v.credits[p]]); Inv(k, v') && Lost(v') == Lost(v) + Unbacked(v) - UnbackedAt(v, p)
  {
    hide LockedOk, CacheOk, OwnersOk, PaymentsOk, NoncesOk, ChannelsOk, SettledOk, CleanedTo, HistSum, Lost, Plannable;
    PlannableNow(k, v);
    CleanedLoses(v, credits');
    LostByCredits(v, credits'[p := v.credits[p]]);
    SumUpdate(credits', OwedOf(), p, v.credits[p]);
    SumBounds(v.credits, UnbackedOf(v.history), p);
    PutBackSettled(k, v, credits', p);
    assert CleanedTo(v.credits, credits', v.history);
    CleanedOwes(k, v, credits', p);
  }

  lemma CleanedOwes(k: Crypto, v: Vault, credits': map<Id, Credit>, p: Id)
    requires Inv(k, v) && CleanedTo(v.credits, credits', v.history) && p in v.credits
    ensures v.credits[p].amount == (if p in credits' then credits'[p].amount else 0) + UnbackedOf(v.history)(v.credits[p])
  {
    hide Inv, HistSum;
    CoveredNow(k, v, p);
    CleanedAmount(v.credits[p], v.history);
    assert Find(credits', p) == Cleaned(v.credits[p], v.history);
  }

  lemma UndoneWithPasses(k: Crypto, v: Vault, id: Id, sid: Id, now: Time, plans: seq<Plan>)
    requires Inv(k, v) && FreshSid(v, sid) && Closes(v, id) && FitClosing(v, id, sid, now, plans) && plans != []
    ensures var v' := CloseAmid(v, id, sid, now, false, plans).v;
      Inv(k, v') && Lost(v') == Lost(v) + ClosingLoss(v, id, false, plans)
  {
    hide Inv, Lost, CloseChannel, CloseAmid, Plans, Fit, Plannable, FreshSid, CloseStep, CreditedWith, Unbacked, CleanAll, Cleaned;
    ClosingPlannable(k, v, id, sid, now);
    ClosingShape(k, v, id, sid, now, false, plans);
    CloseChannelShape(v, id, sid, now);
    var x, ch := CloseChannel(v, id, sid, now).v, v.channels[id];
    var p := ch.provider;
    PlansClean(x, plans);
    UnbackedIs(v);
    var credits' := Plans(x, plans).credits;
    if ch.earned == 0 {
      CleanedKeeps(k, v, credits');
    } else {
      var all := CleanAll(v.credits, v.history);
      CleanAllCleans(v.credits, v.history);
      var back := PutBack(credits', ch, SavedCredit(v, ch));
      var same := if p in v.credits then all[p := v.credits[p]] else all;
      forall q ensures Find(back, q) == Find(same, q) {
        assert Find(credits', q) == if q in x.credits then Cleaned(x.credits[q], v.history) else None;
        assert Find(all, q) == if q in v.credits then Cleaned(v.credits[q], v.history) else None;
      }
      SameCredits(back, same);
      if p in v.credits { PutBackKeeps(k, v, all, p); } else { CleanedKeeps(k, v, all); }
    }
  }

  /**
   * A closing during which batches are planned keeps the invariant. Committed, it loses the channel's earnings as well as
   * what a pass between two steps would; undone, it loses no more than such a pass, and less by what the saved credit
   * had: undoing brings that back.
   */
  lemma CloseAmidExact(k: Crypto, v: Vault, id: Id, sid: Id, now: Time, ok: bool, plans: seq<Plan>)
    requires Inv(k, v) && FreshSid(v, sid) && FitClosing(v, id, sid, now, plans)
    ensures var v' := CloseAmid(v, id, sid, now, ok, plans).v;
      Inv(k, v') && Lost(v') == Lost(v) + ClosingLoss(v, id, ok, plans)
  {
    hide Inv, Lost, FreshSid, FitClosing, CloseStep, Unbacked, CloseAmid, CloseChannel, Plans;
    if !Closes(v, id) {
      NoClosing(k, v, id, sid, now, ok, plans);
    } else if plans == [] {
      CloseKeeps(k, v, id, sid, now, ok);
      PassFree(k, v, id, sid, now, ok);
    } else if ok {
      ClosedWithPasses(k, v, id, sid, now, plans);
    } else {
      UndoneWithPasses(k, v, id, sid, now, plans);
    }
  }

  lemma NoClosing(k: Crypto, v: Vault, id: Id, sid: Id, now: Time, ok: bool, plans: seq<Plan>)
    requires Inv(k, v) && !Closes(v, id)
    ensures CloseAmid(v, id, sid, now, ok, plans) == Idle(v)
  {
    hide Inv, CloseChannel;
    CloseNeverStuck(k, v, id, sid, now);
  }

  /** Without a pass it is the closing step. */
  lemma PassFree(k: Crypto, v: Vault, id: Id, sid: Id, now: Time, ok: bool)
    requires Inv(k, v) && Closes(v, id)
    ensures CloseAmid(v, id, sid, now, ok, []) == CloseStep(v, id, sid, now, ok)
  {
    hide Inv, CloseChannel, RollbackCloseChannel, Refresh;
    CloseNeverStuck(k, v, id, sid, now);
    var x := CloseChannel(v, id, sid, now).v;
    assert Plans(x, []) == x;
    Handlers.CloseFacts(k, v, id, sid, now);
    CloseUndone(v, id, sid, now);
  }
}
