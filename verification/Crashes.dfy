/**
 * The enclave over any number of crashes. Each life starts from a replay of the log since the newest snapshot, or of the
 * whole log if there is none, with the clocks of that start-up, and adds to the log; the next start-up does it again.
 */
module Crashes {
  import opened Prelude
  import opened Sums
  import opened VaultTypes
  import opened Ledger
  import opened CreditIndex
  import opened Steps
  import opened CursorPass
  import opened Invariant
  import opened Replay
  import opened Runs
  import opened RecoveryRuns
  import opened FullReplay
  import opened LogTotals
  import opened Snapshots
  import opened WriteAheadLog
  import RecoverObject

  // ---- A recovered vault satisfies the invariant ----

  lemma ChannelLocksSame(live: map<Id, Channel>, rec: map<Id, Channel>, c: Pubkey)
    requires ChannelsRel(live, rec)
    ensures Sum(rec, ChannelLock(c)) == Sum(live, ChannelLock(c))
  {
    forall id | id in live ensures ChannelLock(c)(live[id]) == ChannelLock(c)(rec[id]) { assert Untimed(live[id]) == Untimed(rec[id]); }
    hide Untimed;
    SumPruned(live, rec, ChannelLock(c));
  }

  lemma RefreshedBalance(rec: Vault, c: Pubkey)
    ensures c in RefreshAll(rec).clients <==> c in rec.clients
    ensures c in rec.clients ==> Money(RefreshAll(rec).clients[c]) == Money(rec.clients[c])
  {
    hide LockedUntil;
  }

  lemma LockedSame(live: Vault, rec: Vault, c: Pubkey)
    requires ClientsRel(live.clients, rec.clients)
    ensures LockedOf(RefreshAll(rec).clients, c) == LockedOf(live.clients, c)
  {
    hide RefreshAll;
    RefreshedBalance(rec, c);
    if c in rec.clients {
      assert Money(live.clients[c]) == Money(RefreshAll(rec).clients[c]);
    } else if c in live.clients {
      assert Money(live.clients[c]) == EmptyBalance;
    }
  }

  lemma RecoveredLocks(live: Vault, rec: Vault, c: Pubkey)
    requires Related(live, rec) && LockedOk(live.clients, live.reservations, live.withdrawals, live.channels)
    ensures LockedOf(RefreshAll(rec).clients, c) == Locks(c, rec.reservations, rec.withdrawals, rec.channels)
  {
    hide CreditsRel, ClientsRel, ChannelsRel, HoldersKnown, CountersRel, RefreshAll, LockedOf;
    ChannelLocksSame(live.channels, rec.channels, c);
    LockedSame(live, rec, c);
    assert LockedOf(live.clients, c) == Locks(c, live.reservations, live.withdrawals, live.channels);
  }

  /** The latest of weights that are all zero. */
  lemma LatestOfNone<K, V>(m: map<K, V>, f: V -> nat)
    requires forall i :: i in m ==> f(m[i]) == 0
    ensures Latest(m, f) == 0
  {
    if Latest(m, f) != 0 { var i := LatestReached(m, f); }
  }

  lemma RecoveredCache(live: Vault, rec: Vault, c: Pubkey)
    requires Related(live, rec)
    ensures CachedUntil(RefreshAll(rec).clients, c) == LockedUntil(c, rec.reservations, rec.withdrawals, rec.channels)
  {
    hide CreditsRel, ChannelsRel, ClientsRel;
    if c !in rec.clients {
      LatestOfNone(rec.reservations, ReservationUntil(c));
      LatestOfNone(rec.withdrawals, WithdrawalUntil(c));
      LatestOfNone(rec.channels, ChannelUntil(c));
    }
  }

  lemma RecoveredSums(live: Vault, rec: Vault, f: Balance -> nat)
    requires Related(live, rec) && f(EmptyBalance) == 0 && (forall b: Balance :: f(b) == f(Money(b)))
    ensures Sum(RefreshAll(rec).clients, f) == Sum(live.clients, f)
  {
    hide CreditsRel, ChannelsRel, LockedUntil;
    var clients := RefreshAll(rec).clients;
    forall c | c in live.clients ensures f(live.clients[c]) == if c in clients then f(clients[c]) else 0 {
      assert f(live.clients[c]) == f(Money(live.clients[c]));
      if c in clients { assert f(clients[c]) == f(Money(clients[c])); }
    }
    SumPruned(live.clients, clients, f);
  }

  lemma RecoveredMoney(live: Vault, rec: Vault)
    requires MoneyOk(live) && Related(live, rec)
    ensures MoneyOk(RefreshAll(rec)) && Lost(RefreshAll(rec)) == Lost(live)
  {
    hide Related, RefreshAll, LockedUntil, Locks;
    var b := RefreshAll(rec);
    RefreshedFrame(rec);
    forall c ensures LockedOf(b.clients, c) == Locks(c, b.reservations, b.withdrawals, b.channels) { RecoveredLocks(live, rec, c); }
    forall c ensures CachedUntil(b.clients, c) == LockedUntil(c, b.reservations, b.withdrawals, b.channels) { RecoveredCache(live, rec, c); }
    RecoveredSums(live, rec, DepositedOf());
    RecoveredSums(live, rec, HeldOf());
    RecoveredOwed(live, rec);
  }

  lemma RefreshedFrame(rec: Vault)
    ensures RefreshAll(rec) == rec.(clients := RefreshAll(rec).clients) && RefreshAll(rec).clients.Keys == rec.clients.Keys
  {
    hide LockedUntil;
  }

  lemma RecoveredOwed(live: Vault, rec: Vault)
    requires Related(live, rec)
    ensures Sum(rec.credits, OwedOf()) == Sum(live.credits, OwedOf()) && rec.reservations == live.reservations
  {
    hide ChannelsRel, ClientsRel, HoldersKnown;
    forall p | p in live.credits ensures OwedOf()(live.credits[p]) == OwedOf()(rec.credits[p]) {
      assert live.credits[p].(oldestAt := 0) == rec.credits[p].(oldestAt := 0);
    }
    SumPruned(live.credits, rec.credits, OwedOf());
  }

  lemma RecoveredIndex(live: Vault, rec: Vault)
    requires IndexOk(live) && Related(live, rec)
    ensures IndexOk(RefreshAll(rec))
  {
    hide CreditsRel, ClientsRel, RefreshAll, PaymentsOk;
    RefreshedFrame(rec);
    forall id | id in rec.channels ensures rec.channels[id].provider in rec.providers {
      assert Untimed(live.channels[id]) == Untimed(rec.channels[id]);
    }
  }

  lemma RecoveredSettled(live: Vault, rec: Vault)
    requires SettledOk(live) && Related(live, rec)
    ensures SettledOk(RefreshAll(rec))
  {
    hide ChannelsRel, ClientsRel, HoldersKnown, CountersRel, RefreshAll, HistoryOk, HistSum, Owner;
    RefreshedFrame(rec);
    forall p | p in rec.credits
      ensures CreditOk(p, rec.credits[p], rec.reservations, rec.history, rec.providers)
      ensures rec.credits[p].ids == live.credits[p].ids
    {
      assert live.credits[p].(oldestAt := 0) == rec.credits[p].(oldestAt := 0);
      assert CreditOk(p, live.credits[p], live.reservations, live.history, live.providers);
    }
  }

  lemma RecoveredChannels(k: Crypto, live: Vault, rec: Vault)
    requires ChannelsOk(k, live.channels) && Related(live, rec)
    ensures ChannelsOk(k, rec.channels)
  {
    hide CreditsRel, ClientsRel, HoldersKnown, CountersRel, SameMaps;
    forall id | id in rec.channels ensures ChannelOk(k, id, rec.channels[id]) {
      assert Untimed(live.channels[id]) == Untimed(rec.channels[id]);
      assert ChannelOk(k, id, live.channels[id]);
    }
  }

  /** So everything proved about runs applies to the run after a recovery, and no money is lost or made by it. */
  lemma RecoveredKeeps(k: Crypto, live: Vault, rec: Vault)
    requires Inv(k, live) && Related(live, rec)
    ensures Inv(k, RefreshAll(rec)) && Lost(RefreshAll(rec)) == Lost(live)
  {
    hide MoneyOk, IndexOk, SettledOk, ChannelsOk, Related, RefreshAll, Lost;
    RecoveredMoney(live, rec);
    RecoveredIndex(live, rec);
    RecoveredSettled(live, rec);
    RecoveredChannels(k, live, rec);
    RefreshedFrame(rec);
  }

  // ---- Two replays of one log ----

  lemma {:induction false} ReplayCounters(k: Crypto, v: Vault, log: seq<Entry>, envs: seq<Env>)
    requires |log| == |envs| && ReplayAll(k, v, log, envs).err.None?
    ensures CountersOf(ReplayAll(k, v, log, envs).v) == RaisedBy(CountersOf(v), log)
    decreases |log|
  {
    hide ReplayEntry, Raised;
    if log != [] {
      var n := |log| - 1;
      ReplayCounters(k, v, log[..n], envs[..n]);
      EntryFrame(k, ReplayAll(k, v, log[..n], envs[..n]).v, log[n], envs[n], Pubkey([]), Id(""), 0);
    }
  }

  /** Recoveries of one vault stand for each other once they know the same clients and counters. */
  lemma RecoveriesRelated(live: Vault, a: Vault, b: Vault)
    requires Related(live, a) && Related(live, b) && a.clients.Keys == b.clients.Keys && CountersOf(a) == CountersOf(b)
    ensures Related(RefreshAll(a), b)
  {
    hide LockedUntil, RefreshAll, ClientsRel, ChannelsRel, HoldersKnown, CreditsRel;
    RefreshedFrame(a);
    RecoverObject.CreditsAgree(live, a, b);
    ClientsAgree(live, a, b);
    ChannelsAgree(live, a, b);
  }

  lemma ClientsAgree(live: Vault, a: Vault, b: Vault)
    requires ClientsRel(live.clients, a.clients) && ClientsRel(live.clients, b.clients) && a.clients.Keys == b.clients.Keys
    ensures ClientsRel(RefreshAll(a).clients, b.clients)
  {
    hide LockedUntil;
    var clients := RefreshAll(a).clients;
    forall c | c in b.clients ensures c in clients && Money(clients[c]) == Money(b.clients[c]) {
      assert Money(a.clients[c]) == Money(live.clients[c]);
    }
    assert forall c :: c in clients ==> c in b.clients;
  }

  lemma ChannelsAgree(live: Vault, a: Vault, b: Vault)
    requires ChannelsRel(live.channels, a.channels) && ChannelsRel(live.channels, b.channels)
    ensures ChannelsRel(a.channels, b.channels)
  {
    hide Untimed;
    assert forall id :: id in b.channels ==> id in live.channels && id in a.channels;
  }

  // ---- Lives ----

  /** One life of the enclave: the clocks of its start-up, and the steps until it crashes. */
  datatype Life = Life(boot: seq<Env>, steps: seq<Step>)

  /** Start-up from the log alone. */
  ghost function Booted(k: Crypto, base: Vault, log: seq<Entry>, boot: seq<Env>): Vault
  {
    if |boot| != |log| then base else RefreshAll(ReplayAll(k, base, log, boot).v)
  }

  /** The vault at the end of the last life, and the log of all of them. */
  ghost function Lived(k: Crypto, base: Vault, lives: seq<Life>): Outcome
    decreases |lives|
  {
    if lives == [] then Idle(base) else
      var n := |lives| - 1;
      var before := Lived(k, base, lives[..n]);
      var done := Run(k, Booted(k, base, before.entries, lives[n].boot), lives[n].steps);
      Outcome(done.v, before.entries + done.entries)
  }

  /** Every step of every life is ready when its turn comes in one more replay of the whole log. */
  ghost predicate ReadyLives(k: Crypto, base: Vault, lives: seq<Life>, envs: seq<Env>)
    requires |envs| == |Lived(k, base, lives).entries|
    decreases |lives|
  {
    lives == [] ||
    var n := |lives| - 1;
    var before := Lived(k, base, lives[..n]);
    var m := |before.entries|;
    && ReadyLives(k, base, lives[..n], envs[..m])
    && ReadyRun(k, Booted(k, base, before.entries, lives[n].boot), ReplayAll(k, base, before.entries, envs[..m]).v,
                lives[n].steps, envs[m..])
  }

  /** Each life starts with a replay that is ready, and is then an admissible run whose unlogged steps leave no trace. */
  ghost predicate Orderly(k: Crypto, base: Vault, lives: seq<Life>)
    decreases |lives|
  {
    lives == [] ||
    var n := |lives| - 1;
    var before := Lived(k, base, lives[..n]);
    var booted := Booted(k, base, before.entries, lives[n].boot);
    && Orderly(k, base, lives[..n]) && |lives[n].boot| == |before.entries| && ReadyLives(k, base, lives[..n], lives[n].boot)
    && AdmissibleRun(k, booted, lives[n].steps) && UndoableRun(k, booted, lives[n].steps)
  }

  /** Two replays of one log, with different clocks: the booted vault stands for the vault of the other replay. */
  lemma BootRelated(k: Crypto, base: Vault, live: Vault, log: seq<Entry>, boot: seq<Env>, envs: seq<Env>)
    requires |boot| == |log| == |envs|
    requires var a, b := ReplayAll(k, base, log, boot), ReplayAll(k, base, log, envs);
      a.err.None? && b.err.None? && Related(live, a.v) && Related(live, b.v)
    ensures Related(Booted(k, base, log, boot), ReplayAll(k, base, log, envs).v)
  {
    hide ReplayAll, Related, RefreshAll, DepositLogged, RaisedBy;
    var a, b := ReplayAll(k, base, log, boot).v, ReplayAll(k, base, log, envs).v;
    forall c ensures c in a.clients <==> c in b.clients {
      KnownClients(k, base, log, boot, c);
      KnownClients(k, base, log, envs, c);
    }
    ReplayCounters(k, base, log, boot);
    ReplayCounters(k, base, log, envs);
    RecoveriesRelated(live, a, b);
  }

  /** A run that plans batches only while every credit is backed loses nothing. */
  lemma {:induction false} UndoableLosesNothing(k: Crypto, v: Vault, steps: seq<Step>)
    requires Inv(k, v) && AdmissibleRun(k, v, steps) && UndoableRun(k, v, steps)
    ensures LossIn(k, v, steps) == 0
    decreases |steps|
  {
    hide Inv, Live, Admissible, Undoable;
    if steps != [] {
      var n := |steps| - 1;
      assert forall i :: 0 <= i < n ==> steps[..n][..i] == steps[..i];
      UndoableLosesNothing(k, v, steps[..n]);
      RunKeeps(k, v, steps[..n]);
      NoLoss(k, Run(k, v, steps[..n]).v, steps[n]);
    }
  }

  lemma NoLoss(k: Crypto, v: Vault, s: Step)
    requires Inv(k, v) && Undoable(v, s)
    ensures LossOf(v, s) == 0
  {
    hide Inv, HistSum;
    if s.PlanBatch? {
      forall p | p in v.credits ensures UnbackedOf(v.history)(v.credits[p]) == 0 { BatchCursors.CoveredNow(k, v, p); }
      SumPruned(v.credits, map[], UnbackedOf(v.history));
    }
  }

  /** One more life, started from a vault that stands for every successful replay of the log so far. */
  lemma LifeReplays(k: Crypto, base: Vault, booted: Vault, steps: seq<Step>, log: seq<Entry>, envs: seq<Env>)
    requires Inv(k, booted)
    requires AdmissibleRun(k, booted, steps) && UndoableRun(k, booted, steps)
    requires |envs| == |log| + |Run(k, booted, steps).entries|
    requires var first := ReplayAll(k, base, log, envs[..|log|]); first.err.None? ==> Related(booted, first.v)
    ensures var live := Run(k, booted, steps);
      var first := ReplayAll(k, base, log, envs[..|log|]);
      var done := ReplayAll(k, base, log + live.entries, envs);
      && Inv(k, live.v) && Lost(live.v) == Lost(booted)
      && (done.err.None? <==> first.err.None? && ReadyRun(k, booted, first.v, steps, envs[|log|..]))
      && (done.err.None? ==> Related(live.v, done.v) && Inv(k, RefreshAll(done.v)) && Lost(RefreshAll(done.v)) == Lost(booted))
  {
    hide Inv, Lost, Related, RefreshAll, ReplayAll, Run, ReadyRun, AdmissibleRun, UndoableRun;
    var live := Run(k, booted, steps);
    var first := ReplayAll(k, base, log, envs[..|log|]);
    RunKeeps(k, booted, steps);
    UndoableLosesNothing(k, booted, steps);
    assert envs == envs[..|log|] + envs[|log|..];
    ReplayAppend(k, base, log, live.entries, envs[..|log|], envs[|log|..]);
    if first.err.None? {
      RecoveryRefines(k, booted, first.v, steps, envs[|log|..]);
      var done := ReplayAll(k, first.v, live.entries, envs[|log|..]);
      if done.err.None? { RecoveredKeeps(k, live.v, done.v); }
    }
  }

  /**
   * Crash recovery, any number of times over, from any vault that satisfies the invariant: the empty one, or one a snapshot
   * brings back. However many lives the enclave has had since, its vault satisfies the invariant with nothing more lost;
   * one more replay of the whole log since succeeds exactly when every step of every life is ready in its turn; and it then
   * stands for the vault at the crash, again satisfies the invariant, and has lost nothing more.
   */
  lemma {:induction false} SurvivesCrashes(k: Crypto, base: Vault, lives: seq<Life>, envs: seq<Env>)
    requires Inv(k, base) && Orderly(k, base, lives) && |envs| == |Lived(k, base, lives).entries|
    ensures Inv(k, Lived(k, base, lives).v) && Lost(Lived(k, base, lives).v) == Lost(base)
    ensures var done := ReplayAll(k, base, Lived(k, base, lives).entries, envs);
      && (done.err.None? <==> ReadyLives(k, base, lives, envs))
      && (done.err.None? ==>
            && Related(Lived(k, base, lives).v, done.v)
            && Inv(k, RefreshAll(done.v)) && Lost(RefreshAll(done.v)) == Lost(base))
    decreases |lives|
  {
    hide Inv, Lost, Related, RefreshAll, ReplayAll, Run, ReadyRun, AdmissibleRun, UndoableRun;
    if lives == [] {
      RecoverObject.HoldersNow(k, base);
      RelatedToItself(base);
      ReplayNone(k, base);
      RecoveredKeeps(k, base, base);
    } else {
      var n := |lives| - 1;
      var before := Lived(k, base, lives[..n]);
      var m := |before.entries|;
      SurvivesCrashes(k, base, lives[..n], lives[n].boot);
      SurvivesCrashes(k, base, lives[..n], envs[..m]);
      if ReadyLives(k, base, lives[..n], envs[..m]) { BootRelated(k, base, before.v, before.entries, lives[n].boot, envs[..m]); }
      LifeReplays(k, base, Booted(k, base, before.entries, lives[n].boot), lives[n].steps, before.entries, envs);
    }
  }

  lemma NothingLostYet()
    ensures Lost(EmptyVault) == 0
  {
  }

  lemma BootKeepsTotals(k: Crypto, base: Vault, live: Vault, log: seq<Entry>, boot: seq<Env>)
    requires |boot| == |log| && Related(live, ReplayAll(k, base, log, boot).v)
    ensures var v := Booted(k, base, log, boot);
      && Sum(v.clients, DepositedOf()) == Sum(live.clients, DepositedOf())
      && Sum(v.clients, WithdrawnOf()) == Sum(live.clients, WithdrawnOf())
  {
    hide Related, RefreshAll, ReplayAll;
    RecoveredSums(live, ReplayAll(k, base, log, boot).v, DepositedOf());
    RecoveredSums(live, ReplayAll(k, base, log, boot).v, WithdrawnOf());
  }

  /** The balances move by what the whole log since says was deposited and withdrawn, whatever crashed in between. */
  lemma {:induction false} LivesBooks(k: Crypto, base: Vault, lives: seq<Life>)
    requires Inv(k, base) && Orderly(k, base, lives)
    ensures var done := Lived(k, base, lives);
      && Sum(done.v.clients, DepositedOf()) == Sum(base.clients, DepositedOf()) + DepositIn(done.entries)
      && Sum(done.v.clients, WithdrawnOf()) == Sum(base.clients, WithdrawnOf()) + WithdrawnIn(done.entries)
    decreases |lives|
  {
    hide Inv, Lost, Related, RefreshAll, ReplayAll, Run, ReadyRun, AdmissibleRun, UndoableRun, ReadyLives, DepositIn, WithdrawnIn, Booted;
    if lives == [] {
      NoTotals([]);
    } else {
      var n := |lives| - 1;
      var before := Lived(k, base, lives[..n]);
      var booted := Booted(k, base, before.entries, lives[n].boot);
      LivesBooks(k, base, lives[..n]);
      SurvivesCrashes(k, base, lives[..n], lives[n].boot);
      BootKeepsTotals(k, base, before.v, before.entries, lives[n].boot);
      BootKeeps(k, base, before.entries, lives[n].boot);
      RunBooks(k, booted, lives[n].steps);
      TotalsAppend(before.entries, Run(k, booted, lives[n].steps).entries);
    }
  }

  lemma BootKeeps(k: Crypto, base: Vault, log: seq<Entry>, boot: seq<Env>)
    requires |boot| == |log| && Inv(k, RefreshAll(ReplayAll(k, base, log, boot).v))
    ensures Inv(k, Booted(k, base, log, boot))
  {
    hide Inv, RefreshAll, ReplayAll;
  }

  // ---- Snapshots in between ----

  /**
   * A snapshot may be taken whenever the lock is free. From then on start-ups load it and replay the log since. An epoch is
   * what happens from one snapshot to the next: the rest of the life it was taken in, then further lives.
   */
  ghost function Through(k: Crypto, epochs: seq<seq<Life>>): Outcome
    decreases |epochs|
  {
    if epochs == [] then Idle(EmptyVault) else
      var n := |epochs| - 1;
      var before := Through(k, epochs[..n]);
      var done := Lived(k, before.v, epochs[n]);
      Outcome(done.v, before.entries + done.entries)
  }

  ghost predicate OrderlyEpochs(k: Crypto, epochs: seq<seq<Life>>)
    decreases |epochs|
  {
    epochs == [] ||
    var n := |epochs| - 1;
    OrderlyEpochs(k, epochs[..n]) && Orderly(k, Through(k, epochs[..n]).v, epochs[n])
  }

  lemma {:induction false} EpochsKeep(k: Crypto, epochs: seq<seq<Life>>)
    requires OrderlyEpochs(k, epochs)
    ensures Inv(k, Through(k, epochs).v) && Lost(Through(k, epochs).v) == 0
    ensures var done := Through(k, epochs);
      && Sum(done.v.clients, DepositedOf()) == DepositIn(done.entries)
      && Sum(done.v.clients, WithdrawnOf()) == WithdrawnIn(done.entries)
    decreases |epochs|
  {
    hide Inv, Lost, Lived, Orderly, DepositIn, WithdrawnIn;
    if epochs == [] {
      EmptyKeeps(k);
      NothingLostYet();
      NoTotals([]);
      assert Sum(EmptyVault.clients, DepositedOf()) == 0 && Sum(EmptyVault.clients, WithdrawnOf()) == 0;
    } else {
      var n := |epochs| - 1;
      EpochsKeep(k, epochs[..n]);
      var before := Through(k, epochs[..n]);
      var done := Lived(k, before.v, epochs[n]);
      SurvivesCrashes(k, before.v, epochs[n], seq(|done.entries|, i => Env(0, Id(""))));
      LivesBooks(k, before.v, epochs[n]);
      TotalsAppend(before.entries, done.entries);
    }
  }

  /**
   * Crash recovery with snapshots, any number of each. Load the newest snapshot and replay the log since: that succeeds
   * exactly when every step since is ready in its turn, and then stands for the vault at the crash and satisfies the
   * invariant with nothing lost. Start-ups in every life since may have been such recoveries themselves.
   */
  lemma SurvivesSnapshots(k: Crypto, epochs: seq<seq<Life>>, last: seq<Life>, s: Snapshot, envs: seq<Env>)
    requires OrderlyEpochs(k, epochs + [last]) && Captures(s, Through(k, epochs).v)
    requires |envs| == |Lived(k, Through(k, epochs).v, last).entries|
    ensures var cut := Through(k, epochs).v;
      var since := Lived(k, cut, last).entries;
      var live := Through(k, epochs + [last]);
      && RefreshAll(Loaded(s)) == cut && live.entries == Through(k, epochs).entries + since
      && var done := ReplayAll(k, RefreshAll(Loaded(s)), since, envs);
      && (done.err.None? <==> ReadyLives(k, cut, last, envs))
      && (done.err.None? ==> Related(live.v, done.v) && Inv(k, RefreshAll(done.v)) && Lost(RefreshAll(done.v)) == 0)
  {
    hide Inv, Lost, Related, RefreshAll, ReplayAll, Lived, Orderly, ReadyLives, Captures, Loaded;
    assert (epochs + [last])[..|epochs|] == epochs;
    EpochsKeep(k, epochs);
    RoundTrip(k, Through(k, epochs).v, s);
    SurvivesCrashes(k, Through(k, epochs).v, last, envs);
  }

  /**
   * Conservation across crashes and snapshots: what the log of all lives says came in is in clients' free and locked
   * balances, went out by a logged withdrawal, is owed to providers, or was paid out on-chain.
   */
  lemma CrashesConserve(k: Crypto, epochs: seq<seq<Life>>)
    requires OrderlyEpochs(k, epochs)
    ensures var done := Through(k, epochs);
      DepositIn(done.entries) == Sum(done.v.clients, KeptOf()) + WithdrawnIn(done.entries)
                                 + Sum(done.v.credits, OwedOf()) + Sum(done.v.reservations, PaidOutOf())
  {
    hide Inv, Through, OrderlyEpochs, DepositIn, WithdrawnIn;
    EpochsKeep(k, epochs);
    SumAdd(Through(k, epochs).v.clients, KeptOf(), WithdrawnOf(), HeldOf());
  }

  // ---- What those start-ups read ----

  /** What each life logged is what its session of the log acknowledged. */
  ghost predicate Logs(k: Crypto, base: Vault, lives: seq<Life>, sessions: seq<seq<Attempt>>)
    requires |lives| == |sessions|
    decreases |lives|
  {
    lives == [] ||
    var n := |lives| - 1;
    && Logs(k, base, lives[..n], sessions[..n]) && AllReported(sessions[n])
    && Acknowledged(sessions[n]) == Run(k, Booted(k, base, Lived(k, base, lives[..n]).entries, lives[n].boot), lives[n].steps).entries
  }

  /** Reading above the snapshot's number finds what all lives since have logged, restarts of the numbering and all. */
  lemma {:induction false} SnapshotReads(k: Crypto, base: Vault, lives: seq<Life>, before: seq<Attempt>, sessions: seq<seq<Attempt>>)
    requires |lives| == |sessions| && Logs(k, base, lives, sessions) && AllKept(before) && GaplessSessions(before, sessions)
    ensures var all := Numbered(before, sessions);
      InOrder(StoredBy(all), |before|, |all|) == Lived(k, base, lives).entries
    decreases |lives|
  {
    hide Run, Booted, GaplessSessions, Numbered, StoredBy, InOrder, AllKept;
    SessionsRead(before, sessions);
    LoggedInSessions(k, base, lives, sessions);
  }

  lemma {:induction false} LoggedInSessions(k: Crypto, base: Vault, lives: seq<Life>, sessions: seq<seq<Attempt>>)
    requires |lives| == |sessions| && Logs(k, base, lives, sessions)
    ensures RecordedIn(sessions) == Lived(k, base, lives).entries
    decreases |lives|
  {
    hide Run, Booted;
    if lives != [] {
      var n := |lives| - 1;
      LoggedInSessions(k, base, lives[..n], sessions[..n]);
      RecordedIffReported(sessions[n]);
    }
  }
}
