/** How one write to a map changes what it locks, until when, and what it adds up to. */
module MoneyLemmas {
  import opened Prelude
  import opened Sums
  import opened VaultTypes
  import opened Ledger
  import opened Invariant

  /** One write moves only the locks of client `c`, by `delta`, and no other client's expiries. */
  ghost predicate MovesOnly(c: Pubkey, delta: int, rs: map<Id, Reservation>, ws: map<nat, Withdrawal>, chs: map<Id, Channel>,
                            rs': map<Id, Reservation>, ws': map<nat, Withdrawal>, chs': map<Id, Channel>)
  {
    && (forall d :: Locks(d, rs', ws', chs') == Locks(d, rs, ws, chs) + if d == c then delta else 0)
    && (forall d :: d != c ==> LockedUntil(d, rs', ws', chs') == LockedUntil(d, rs, ws, chs))
  }

  lemma NothingMoves(c: Pubkey, rs: map<Id, Reservation>, ws: map<nat, Withdrawal>, chs: map<Id, Channel>)
    ensures MovesOnly(c, 0, rs, ws, chs, rs, ws, chs)
  {
  }

  function Reserving(r: Reservation): nat { if r.status == Reserved then r.amount else 0 }

  lemma ReservationWritten(c: Pubkey, rs: map<Id, Reservation>, ws: map<nat, Withdrawal>, chs: map<Id, Channel>, vid: Id, r: Reservation)
    requires r.client == c && (vid in rs ==> rs[vid].client == c)
    ensures MovesOnly(c, Reserving(r) - (if vid in rs then Reserving(rs[vid]) else 0), rs, ws, chs, rs[vid := r], ws, chs)
  {
    hide Locks, LockedUntil, Reserving;
    forall d ensures Locks(d, rs[vid := r], ws, chs) == Locks(d, rs, ws, chs)
      + if d == c then Reserving(r) - (if vid in rs then Reserving(rs[vid]) else 0) else 0
    {
      ReservationWrittenFor(c, rs, ws, chs, vid, r, d);
    }
    forall d | d != c ensures LockedUntil(d, rs[vid := r], ws, chs) == LockedUntil(d, rs, ws, chs) {
      ReservationUntilKept(c, rs, ws, chs, vid, r, d);
    }
  }

  lemma ReservationWrittenFor(c: Pubkey, rs: map<Id, Reservation>, ws: map<nat, Withdrawal>, chs: map<Id, Channel>, vid: Id, r: Reservation, d: Pubkey)
    requires r.client == c && (vid in rs ==> rs[vid].client == c)
    ensures Locks(d, rs[vid := r], ws, chs) == Locks(d, rs, ws, chs)
      + if d == c then Reserving(r) - (if vid in rs then Reserving(rs[vid]) else 0) else 0
  {
    SumUpdate(rs, ReservationLock(d), vid, r);
  }

  lemma ReservationUntilKept(c: Pubkey, rs: map<Id, Reservation>, ws: map<nat, Withdrawal>, chs: map<Id, Channel>, vid: Id, r: Reservation, d: Pubkey)
    requires r.client == c && (vid in rs ==> rs[vid].client == c) && d != c
    ensures LockedUntil(d, rs[vid := r], ws, chs) == LockedUntil(d, rs, ws, chs)
  {
    LatestUpdate(rs, ReservationUntil(d), vid, r);
  }

  lemma WithdrawalAdded(c: Pubkey, rs: map<Id, Reservation>, ws: map<nat, Withdrawal>, chs: map<Id, Channel>, w: Withdrawal)
    requires w.client == c && w.nonce !in ws
    ensures MovesOnly(c, w.amount, rs, ws, chs, rs, ws[w.nonce := w], chs)
  {
    forall d ensures Locks(d, rs, ws[w.nonce := w], chs) == Locks(d, rs, ws, chs) + if d == c then w.amount else 0 {
      SumUpdate(ws, WithdrawalLock(d), w.nonce, w);
    }
    forall d | d != c ensures LockedUntil(d, rs, ws[w.nonce := w], chs) == LockedUntil(d, rs, ws, chs) {
      LatestUpdate(ws, WithdrawalUntil(d), w.nonce, w);
    }
  }

  lemma WithdrawalRemoved(c: Pubkey, rs: map<Id, Reservation>, ws: map<nat, Withdrawal>, chs: map<Id, Channel>, n: nat)
    requires n in ws && ws[n].client == c
    ensures MovesOnly(c, 0 - ws[n].amount, rs, ws, chs, rs, ws - {n}, chs)
  {
    forall d ensures Locks(d, rs, ws - {n}, chs) == Locks(d, rs, ws, chs) + if d == c then 0 - ws[n].amount else 0 {
      SumRemove(ws, WithdrawalLock(d), n);
    }
    forall d | d != c ensures LockedUntil(d, rs, ws - {n}, chs) == LockedUntil(d, rs, ws, chs) {
      LatestRemove(ws, WithdrawalUntil(d), n);
    }
  }

  lemma ChannelWritten(c: Pubkey, rs: map<Id, Reservation>, ws: map<nat, Withdrawal>, chs: map<Id, Channel>, id: Id, ch: Channel)
    requires ch.client == c && (id in chs ==> chs[id].client == c)
    ensures MovesOnly(c, ChannelTotal(ch) - (if id in chs then ChannelTotal(chs[id]) else 0), rs, ws, chs, rs, ws, chs[id := ch])
  {
    forall d ensures Locks(d, rs, ws, chs[id := ch]) == Locks(d, rs, ws, chs)
      + if d == c then ChannelTotal(ch) - (if id in chs then ChannelTotal(chs[id]) else 0) else 0
    {
      SumUpdate(chs, ChannelLock(d), id, ch);
    }
    forall d | d != c ensures LockedUntil(d, rs, ws, chs[id := ch]) == LockedUntil(d, rs, ws, chs) {
      LatestUpdate(chs, ChannelUntil(d), id, ch);
    }
  }

  lemma ChannelRemoved(c: Pubkey, rs: map<Id, Reservation>, ws: map<nat, Withdrawal>, chs: map<Id, Channel>, id: Id)
    requires id in chs && chs[id].client == c
    ensures MovesOnly(c, 0 - ChannelTotal(chs[id]), rs, ws, chs, rs, ws, chs - {id})
  {
    forall d ensures Locks(d, rs, ws, chs - {id}) == Locks(d, rs, ws, chs) + if d == c then 0 - ChannelTotal(chs[id]) else 0 {
      SumRemove(chs, ChannelLock(d), id);
    }
    forall d | d != c ensures LockedUntil(d, rs, ws, chs - {id}) == LockedUntil(d, rs, ws, chs) {
      LatestRemove(chs, ChannelUntil(d), id);
    }
  }

  /** A write that neither adds nor ends an expiry leaves every client's latest expiry alone. */
  lemma ChannelUntilKept(c: Pubkey, rs: map<Id, Reservation>, ws: map<nat, Withdrawal>, chs: map<Id, Channel>, id: Id, ch: Channel)
    requires ch.client == c && (id in chs ==> chs[id].client == c)
    requires ChannelUntil(c)(ch) == if id in chs then ChannelUntil(c)(chs[id]) else 0
    ensures forall d :: LockedUntil(d, rs, ws, chs[id := ch]) == LockedUntil(d, rs, ws, chs)
  {
    forall d ensures LockedUntil(d, rs, ws, chs[id := ch]) == LockedUntil(d, rs, ws, chs) {
      LatestUpdate(chs, ChannelUntil(d), id, ch);
    }
  }

  /**
   * The common shape of a committed step: client `c` gets balance `b`, its locks move by the same amount,
   * and `b` carries the refreshed expiry.
   */
  lemma LocksFollow(cl: map<Pubkey, Balance>, c: Pubkey, b: Balance, delta: int,
                    rs: map<Id, Reservation>, ws: map<nat, Withdrawal>, chs: map<Id, Channel>,
                    rs': map<Id, Reservation>, ws': map<nat, Withdrawal>, chs': map<Id, Channel>)
    requires LockedOk(cl, rs, ws, chs) && CacheOk(cl, rs, ws, chs)
    requires MovesOnly(c, delta, rs, ws, chs, rs', ws', chs')
    requires b.locked == LockedOf(cl, c) + delta
    requires b.maxLock == LockedUntil(c, rs', ws', chs')
    ensures LockedOk(cl[c := b], rs', ws', chs') && CacheOk(cl[c := b], rs', ws', chs')
  {
    hide Locks, LockedUntil;
    forall d ensures LockedOf(cl[c := b], d) == Locks(d, rs', ws', chs') {
      assert LockedOf(cl, d) == Locks(d, rs, ws, chs);
    }
    forall d ensures CachedUntil(cl[c := b], d) == LockedUntil(d, rs', ws', chs') {
      assert CachedUntil(cl, d) == LockedUntil(d, rs, ws, chs);
    }
  }

  /** The client side of conservation when one balance is replaced. */
  lemma BalanceWritten(cl: map<Pubkey, Balance>, c: Pubkey, b: Balance)
    ensures Sum(cl[c := b], DepositedOf()) == Sum(cl, DepositedOf()) + b.deposited - (if c in cl then cl[c].deposited else 0)
    ensures Sum(cl[c := b], HeldOf()) == Sum(cl, HeldOf()) + HeldOf()(b) - (if c in cl then HeldOf()(cl[c]) else 0)
  {
    SumUpdate(cl, DepositedOf(), c, b);
    SumUpdate(cl, HeldOf(), c, b);
  }

  /** A balance that gains as much as it is credited with deposits keeps the books in balance. */
  lemma ShortfallFor(cl: map<Pubkey, Balance>, credits: map<Id, Credit>, rs: map<Id, Reservation>, c: Pubkey, b: Balance)
    requires var a := if c in cl then cl[c] else EmptyBalance;
      b.free + b.locked + b.withdrawn - b.deposited == a.free + a.locked + a.withdrawn - a.deposited
    ensures Shortfall(cl[c := b], credits, rs) == Shortfall(cl, credits, rs)
  {
    BalanceWritten(cl, c, b);
  }

  /** A reservation write that does not change what has been paid out on-chain. */
  lemma ShortfallReservation(cl: map<Pubkey, Balance>, credits: map<Id, Credit>, rs: map<Id, Reservation>, vid: Id, r: Reservation)
    requires PaidOutOf()(r) == if vid in rs then PaidOutOf()(rs[vid]) else 0
    ensures Shortfall(cl, credits, rs[vid := r]) == Shortfall(cl, credits, rs)
  {
    PaidOutWritten(rs, vid, r);
  }

  /** What a balance gives up goes to a credit. */
  lemma ShortfallCredit(cl: map<Pubkey, Balance>, credits: map<Id, Credit>, rs: map<Id, Reservation>,
                        c: Pubkey, b: Balance, p: Id, credit: Credit)
    requires c in cl
    requires b.deposited == cl[c].deposited
    requires HeldOf()(cl[c]) - HeldOf()(b) == credit.amount - (if p in credits then credits[p].amount else 0)
    ensures Shortfall(cl[c := b], credits[p := credit], rs) == Shortfall(cl, credits, rs)
  {
    BalanceWritten(cl, c, b);
    CreditWritten(credits, p, credit);
  }

  lemma CreditWritten(credits: map<Id, Credit>, p: Id, credit: Credit)
    ensures Sum(credits[p := credit], OwedOf()) == Sum(credits, OwedOf()) + credit.amount - (if p in credits then credits[p].amount else 0)
  {
    SumUpdate(credits, OwedOf(), p, credit);
  }

  lemma PaidOutWritten(rs: map<Id, Reservation>, vid: Id, r: Reservation)
    ensures Sum(rs[vid := r], PaidOutOf()) == Sum(rs, PaidOutOf()) + PaidOutOf()(r) - (if vid in rs then PaidOutOf()(rs[vid]) else 0)
  {
    SumUpdate(rs, PaidOutOf(), vid, r);
  }

  /** A client's locked balance covers each of the things that lock it. */
  lemma LockCovers(cl: map<Pubkey, Balance>, rs: map<Id, Reservation>, ws: map<nat, Withdrawal>, chs: map<Id, Channel>, c: Pubkey)
    requires LockedOk(cl, rs, ws, chs)
    ensures forall vid :: vid in rs && rs[vid].client == c ==> Reserving(rs[vid]) <= LockedOf(cl, c)
    ensures forall n :: n in ws && ws[n].client == c ==> ws[n].amount <= LockedOf(cl, c)
    ensures forall id :: id in chs && chs[id].client == c ==> ChannelTotal(chs[id]) <= LockedOf(cl, c)
  {
    assert LockedOf(cl, c) == Locks(c, rs, ws, chs);
    forall vid | vid in rs && rs[vid].client == c ensures Reserving(rs[vid]) <= LockedOf(cl, c) {
      SumBounds(rs, ReservationLock(c), vid);
    }
    forall n | n in ws && ws[n].client == c ensures ws[n].amount <= LockedOf(cl, c) {
      SumBounds(ws, WithdrawalLock(c), n);
    }
    forall id | id in chs && chs[id].client == c ensures ChannelTotal(chs[id]) <= LockedOf(cl, c) {
      SumBounds(chs, ChannelLock(c), id);
    }
  }
}
