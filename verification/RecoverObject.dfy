/** Start-up recovery as the enclave runs it: from the log alone, or from the newest snapshot and the log after it. */
module RecoverObject {
  import opened Prelude
  import opened VaultTypes
  import opened Steps
  import opened Invariant
  import opened Recovery
  import opened Runs
  import opened RecoveryRuns
  import opened FullReplay
  import opened WriteAheadLog
  import opened VaultObject
  import opened Snapshots

  lemma HoldersNow(k: Crypto, v: Vault)
    requires Inv(k, v)
    ensures R.HoldersKnown(v) && forall n :: n in v.withdrawals ==> n < v.withdrawNonce
  {
    hide MoneyOk, SettledOk, ChannelsOk, PaymentsOk;
  }

  /**
   * Snapshot plus suffix. Take any run, cut it anywhere, capture the vault at the cut, and let appends fail before
   * and after. Applying the snapshot and replaying the records above the number it recorded succeeds exactly when
   * every later step is ready in its turn, and then stands for the live vault.
   */
  lemma SnapshotRecovers(k: Crypto, first: seq<Step>, second: seq<Step>, s: Snapshot, before: seq<Attempt>,
                         later: seq<Attempt>, envs: seq<R.Env>)
    requires AdmissibleRun(k, EmptyVault, first + second)
    requires UndoableRun(k, Run(k, EmptyVault, first).v, second) && Captures(s, Run(k, EmptyVault, first).v)
    requires Acknowledged(later) == Run(k, Run(k, EmptyVault, first).v, second).entries
    requires AllReported(later) && |envs| == |Acknowledged(later)|
    ensures var cut := Run(k, EmptyVault, first).v;
      var suffix := InOrder(StoredBy(before + later), |before|, |before + later|);
      && suffix == Acknowledged(later)
      && var done := R.ReplayAll(k, R.RefreshAll(Loaded(s)), suffix, envs);
      && (done.err.None? <==> ReadyRun(k, cut, cut, second, envs))
      && (done.err.None? ==> R.Related(Run(k, EmptyVault, first + second).v, done.v))
  {
    hide Inv, R.Related, R.RefreshAll, Loaded, Captures, R.ReplayAll, Run, AdmissibleRun, Acknowledged, InOrder, StoredBy,
      ReadyRun, UndoableRun;
    var cut := Run(k, EmptyVault, first).v;
    RunAppend(k, EmptyVault, first, second);
    EmptyKeeps(k);
    RunKeeps(k, EmptyVault, first);
    RoundTrip(k, cut, s);
    HoldersNow(k, cut);
    R.RelatedToItself(cut);
    SuffixIsExact(before, later);
    RecoveryRefines(k, cut, cut, second, envs);
  }

  /** Two recovered vaults that hold the same, up to times stamped during replay and clients that hold nothing. */
  ghost predicate Agree(a: Vault, b: Vault)
  {
    && R.SameMaps(a, b)
    && (forall c :: R.Money(Existing(a, c)) == R.Money(Existing(b, c)))
    && R.CreditsRel(a.credits, b.credits, b.history)
    && R.ChannelsRel(a.channels, b.channels)
  }

  /** However the live vault is recovered, the result is the same. */
  lemma RecoveriesAgree(live: Vault, a: Vault, b: Vault)
    requires R.Related(live, a) && R.Related(live, b)
    ensures Agree(a, b)
  {
    hide R.HoldersKnown, R.Untimed;
    forall c ensures R.Money(Existing(a, c)) == R.Money(Existing(b, c)) {
      FoundBalance(live, a, c);
      FoundBalance(live, b, c);
    }
    CreditsAgree(live, a, b);
    assert R.ChannelsRel(a.channels, b.channels) by {
      assert forall id :: id in b.channels ==> id in live.channels && id in a.channels;
    }
  }

  lemma CreditsAgree(live: Vault, a: Vault, b: Vault)
    requires R.SameMaps(live, a) && R.SameMaps(live, b)
    requires R.CreditsRel(live.credits, a.credits, a.history) && R.CreditsRel(live.credits, b.credits, b.history)
    ensures R.CreditsRel(a.credits, b.credits, b.history)
  {
    forall p | p in b.credits
      ensures p in a.credits && a.credits[p].(oldestAt := 0) == b.credits[p].(oldestAt := 0)
      ensures (forall id :: id in b.credits[p].ids ==> id in b.history) ==> a.credits[p] == b.credits[p]
    {
      assert a.credits[p].ids == live.credits[p].ids == b.credits[p].ids;
    }
  }

  lemma UndoableSuffix(k: Crypto, v: Vault, first: seq<Step>, second: seq<Step>)
    requires UndoableRun(k, v, first + second)
    ensures UndoableRun(k, Run(k, v, first).v, second)
  {
    hide Run, Undoable;
    forall i | 0 <= i < |second| ensures Undoable(Run(k, Run(k, v, first).v, second[..i]).v, second[i]) {
      var j := |first| + i;
      assert (first + second)[..j] == first + second[..i] && (first + second)[j] == second[i];
      RunAppend(k, v, first, second[..i]);
    }
  }

  lemma ReportedParts(before: seq<Attempt>, later: seq<Attempt>)
    requires AllReported(before + later)
    ensures AllReported(before) && AllReported(later)
  {
    var all := before + later;
    assert forall i :: 0 <= i < |before| ==> before[i] == all[i];
    assert forall i :: 0 <= i < |later| ==> later[i] == all[|before| + i];
  }

  /**
   * Snapshot plus suffix equals full replay. Both read what was acknowledged; whenever both start-ups succeed they end
   * in vaults that agree, and each succeeds exactly when the steps it replays are ready in their turn.
   */
  lemma SnapshotMatchesReplay(k: Crypto, first: seq<Step>, second: seq<Step>, s: Snapshot, before: seq<Attempt>,
                              later: seq<Attempt>, envs: seq<R.Env>, fullEnvs: seq<R.Env>)
    requires AdmissibleRun(k, EmptyVault, first + second) && UndoableRun(k, EmptyVault, first + second)
    requires Captures(s, Run(k, EmptyVault, first).v)
    requires Acknowledged(before) == Run(k, EmptyVault, first).entries
    requires Acknowledged(later) == Run(k, Run(k, EmptyVault, first).v, second).entries
    requires AllReported(before + later) && |envs| == |Acknowledged(later)| && |fullEnvs| == |Acknowledged(before + later)|
    ensures var cut := Run(k, EmptyVault, first).v;
      var stored, n := StoredBy(before + later), |before + later|;
      && |InOrder(stored, |before|, n)| == |envs| && |InOrder(stored, 0, n)| == |fullEnvs| == |Run(k, EmptyVault, first + second).entries|
      && var short := R.ReplayAll(k, R.RefreshAll(Loaded(s)), InOrder(stored, |before|, n), envs);
      && var full := R.ReplayAll(k, EmptyVault, InOrder(stored, 0, n), fullEnvs);
      && (short.err.None? <==> ReadyRun(k, cut, cut, second, envs))
      && (full.err.None? <==> ReadyRun(k, EmptyVault, EmptyVault, first + second, fullEnvs))
      && (short.err.None? && full.err.None? ==> Agree(R.RefreshAll(short.v), R.RefreshAll(full.v)))
  {
    hide Inv, R.Related, R.RefreshAll, Loaded, Captures, R.ReplayAll, Run, AdmissibleRun, Acknowledged, InOrder, StoredBy,
      ReadyRun, UndoableRun, Agree;
    UndoableSuffix(k, EmptyVault, first, second);
    ReportedParts(before, later);
    SnapshotRecovers(k, first, second, s, before, later, envs);
    RunAppend(k, EmptyVault, first, second);
    AcknowledgedAppend(before, later);
    SuffixIsExact([], before + later);
    assert [] + (before + later) == before + later;
    EmptyKeeps(k);
    R.RelatedToItself(EmptyVault);
    RecoveryRefines(k, EmptyVault, EmptyVault, first + second, fullEnvs);
    var live := Run(k, EmptyVault, first + second).v;
    var short := R.ReplayAll(k, R.RefreshAll(Loaded(s)), Acknowledged(later), envs);
    var full := R.ReplayAll(k, EmptyVault, Acknowledged(before + later), fullEnvs);
    if short.err.None? && full.err.None? {
      RefreshedRelated(live, short.v);
      RefreshedRelated(live, full.v);
      RecoveriesAgree(live, R.RefreshAll(short.v), R.RefreshAll(full.v));
    }
  }

  /** A deposit whose write is stored behind an error is undone by the enclave and made again by the next start-up. */
  lemma UnreportedDiverges(k: Crypto, c: Pubkey, amount: nat, slot: nat, signature: Id, env: R.Env)
    requires amount > 0
    ensures var live := Run(k, EmptyVault, [Deposit(signature, c, amount, slot, false)]);
      var attempts := [Attempt(DepositApplied(c, amount, slot, signature), Unreported)];
      && live.entries == Acknowledged(attempts)
      && |Recorded(attempts)| == 1
      && var done := R.ReplayAll(k, EmptyVault, Recorded(attempts), [env]);
      && done.err.None? && !R.Related(live.v, done.v)
  {
    hide R.HoldersKnown, R.CreditsRel, R.ChannelsRel, R.CountersRel, R.SameMaps, Run, Live, R.ReplayAll, R.ReplayEntry, Recorded, Acknowledged;
    var s := Deposit(signature, c, amount, slot, false);
    var entry := DepositApplied(c, amount, slot, signature);
    OneUnreported(entry);
    FailedDeposit(k, c, amount, slot, signature, env);
    RunNone(k, EmptyVault);
    RunSnoc(k, EmptyVault, [], s);
    assert [] + [s] == [s];
    ReplayOne(k, EmptyVault, [entry], [env]);
  }

  lemma OneUnreported(entry: Entry)
    ensures var attempts := [Attempt(entry, Unreported)]; Recorded(attempts) == [entry] && Acknowledged(attempts) == []
  {
    var attempts := [Attempt(entry, Unreported)];
    assert attempts[..0] == [] && Recorded([]) == [] && Acknowledged([]) == [];
    assert Recorded(attempts) == [] + [entry] && Acknowledged(attempts) == [] + [];
  }

  lemma FailedDeposit(k: Crypto, c: Pubkey, amount: nat, slot: nat, signature: Id, env: R.Env)
    ensures var live := Live(k, EmptyVault, Deposit(signature, c, amount, slot, false));
      var done := R.ReplayEntry(k, EmptyVault, DepositApplied(c, amount, slot, signature), env);
      && live == Idle(EmptyVault.(clients := map[c := EmptyBalance])) && done.err.None?
      && c in done.v.clients && done.v.clients[c].free == amount
  {
  }

  // ---- The replayed log is looked up unambiguously ----

  lemma ConfirmDetermined(k: Crypto, live: Vault, rec: Vault, s: Step, e: Entry)
    requires Inv(k, live) && R.Related(live, rec) && Admissible(live, s)
    requires e in Live(k, live, s).entries
    ensures O.Determined(rec, e)
  {
    hide R.ClientsRel, R.CreditsRel, R.ChannelsRel, R.HoldersKnown, MoneyOk, IndexOk, ChannelsOk, CreditsOk, ListedOk, L.Owner;
    if e.BatchConfirmed? {
      OnlyConfirms(k, live, s, e);
      forall sid | sid in e.settlementIds ensures Unambiguous(rec, sid) {
        assert L.Owner(live.reservations, sid).Some?;
      }
    }
  }

  lemma OnlyConfirms(k: Crypto, v: Vault, s: Step, e: Entry)
    requires e in Live(k, v, s).entries && e.BatchConfirmed?
    ensures s.ConfirmBatch? && e.settlementIds == s.settlementIds
  {
    hide L.Refresh, L.ApplyBatchConfirmation;
  }

  /** Every confirmation in the log of a run names settlements that the replay can find. */
  lemma {:induction false} RunDetermined(k: Crypto, live: Vault, rec: Vault, steps: seq<Step>, envs: seq<R.Env>)
    requires Inv(k, live) && R.Related(live, rec)
    requires AdmissibleRun(k, live, steps) && UndoableRun(k, live, steps)
    requires |envs| == |Run(k, live, steps).entries| && ReadyRun(k, live, rec, steps, envs)
    ensures O.DeterminedLog(k, rec, Run(k, live, steps).entries, envs)
    decreases |steps|
  {
    hide Inv, R.Related, Live, R.ReplayAll, Ready, Undoable, Admissible, O.Determined;
    if steps != [] {
      var n := |steps| - 1;
      var before := Run(k, live, steps[..n]);
      var m := |before.entries|;
      var log := Run(k, live, steps).entries;
      assert forall i :: 0 <= i < n ==> steps[..n][..i] == steps[..i];
      RunDetermined(k, live, rec, steps[..n], envs[..m]);
      RunKeeps(k, live, steps[..n]);
      RecoveryRefines(k, live, rec, steps[..n], envs[..m]);
      forall i | 0 <= i < |log| ensures O.Determined(R.ReplayAll(k, rec, log[..i], envs[..i]).v, log[i]) {
        if i < m {
          assert log[..i] == before.entries[..i] && envs[..i] == envs[..m][..i] && log[i] == before.entries[i];
        } else {
          LastDetermined(k, before.v, rec, steps[n], before.entries, envs, i - m);
          assert log[..i] == before.entries + Live(k, before.v, steps[n]).entries[..i - m];
        }
      }
    }
  }

  /** Only receipts log two entries, so a confirmation is the first entry of its step. */
  lemma LastDetermined(k: Crypto, live: Vault, rec: Vault, s: Step, log: seq<Entry>, envs: seq<R.Env>, j: nat)
    requires Inv(k, live) && Admissible(live, s)
    requires |envs| == |log| + |Live(k, live, s).entries| && j < |Live(k, live, s).entries|
    requires R.Related(live, R.ReplayAll(k, rec, log, envs[..|log|]).v)
    ensures O.Determined(R.ReplayAll(k, rec, log + Live(k, live, s).entries[..j], envs[..|log| + j]).v, Live(k, live, s).entries[j])
  {
    hide Inv, R.Related, R.ReplayAll, Admissible, Live;
    var e := Live(k, live, s).entries[j];
    if e.BatchConfirmed? {
      OnlyConfirms(k, live, s, e);
      OneConfirmed(k, live, s);
      assert log + Live(k, live, s).entries[..0] == log;
      ConfirmDetermined(k, live, R.ReplayAll(k, rec, log, envs[..|log|]).v, s, e);
    }
  }

  lemma OneConfirmed(k: Crypto, v: Vault, s: Step)
    requires s.ConfirmBatch?
    ensures |Live(k, v, s).entries| <= 1
  {
    hide L.ApplyBatchConfirmation;
  }

  // ---- The recovery that runs ----

  /** Start-up without a snapshot: a fresh vault, every record of the log, every cached expiry. */
  method RecoverFromLog(k: Crypto, wal: ObjectLog, envs: seq<R.Env>, ghost steps: seq<Step>, ghost t: Time)
    returns (v: VaultState, err: Option<Error>)
    requires AdmissibleRun(k, EmptyVault, steps) && UndoableRun(k, EmptyVault, steps)
    requires LockersDeposited(k, steps) && |envs| == |Run(k, EmptyVault, steps).entries| && Prompt(envs, t)
    requires wal.Valid() && AllReported(wal.attempts) && Acknowledged(wal.attempts) == Run(k, EmptyVault, steps).entries
    ensures fresh(v) && err.None? && R.Related(Run(k, EmptyVault, steps).v, v.Value())
  {
    hide Inv, R.Related, R.ReplayAll, Run, AdmissibleRun, UndoableRun, LockersDeposited, O.DeterminedLog, R.RefreshAll,
      Acknowledged, Recorded, ReadyRun;
    var log := wal.ReadAfter(None);
    assert wal.attempts[0..] == wal.attempts;
    RecordedIffReported(wal.attempts);
    v := new VaultState();
    EmptyKeeps(k);
    HoldersNow(k, EmptyVault);
    R.RelatedToItself(EmptyVault);
    PromptReady(k, steps, envs, t);
    RunDetermined(k, EmptyVault, EmptyVault, steps, envs);
    RecoveryRefines(k, EmptyVault, EmptyVault, steps, envs);
    err := O.ReplayAll(k, v, log, envs);
    RefreshedRelated(Run(k, EmptyVault, steps).v, R.ReplayAll(k, EmptyVault, log, envs).v);
  }

  /** Start-up with a snapshot: load it, then replay the records above the number it recorded. */
  method RecoverFromSnapshot(k: Crypto, s: Snapshot, wal: ObjectLog, envs: seq<R.Env>, ghost first: seq<Step>,
                             ghost second: seq<Step>, ghost before: seq<Attempt>, ghost later: seq<Attempt>)
    returns (v: VaultState, err: Option<Error>)
    requires AdmissibleRun(k, EmptyVault, first + second)
    requires UndoableRun(k, Run(k, EmptyVault, first).v, second) && Captures(s, Run(k, EmptyVault, first).v)
    requires Acknowledged(later) == Run(k, Run(k, EmptyVault, first).v, second).entries
    requires AllReported(later) && |envs| == |Acknowledged(later)|
    requires ReadyRun(k, Run(k, EmptyVault, first).v, Run(k, EmptyVault, first).v, second, envs)
    requires wal.Valid() && wal.attempts == before + later
    requires s.included == if before == [] then None else Some(|before| - 1)
    ensures fresh(v) && err.None? && R.Related(Run(k, EmptyVault, first + second).v, v.Value())
  {
    hide Inv, R.Related, R.ReplayAll, Run, AdmissibleRun, UndoableRun, O.DeterminedLog, R.RefreshAll, Acknowledged, Recorded,
      ReadyRun, Captures, Loaded, InOrder, StoredBy;
    ghost var cut := Run(k, EmptyVault, first).v;
    v := new VaultState();
    Apply(v, s);
    SnapshotRecovers(k, first, second, s, before, later, envs);
    CutFacts(k, first, second, s);
    RunDetermined(k, cut, cut, second, envs);
    var log := wal.ReadAfter(s.included);
    assert wal.attempts[|before|..] == later;
    RecordedIffReported(later);
    err := O.ReplayAll(k, v, log, envs);
    RefreshedRelated(Run(k, EmptyVault, first + second).v, R.ReplayAll(k, cut, log, envs).v);
  }

  lemma CutFacts(k: Crypto, first: seq<Step>, second: seq<Step>, s: Snapshot)
    requires AdmissibleRun(k, EmptyVault, first + second) && Captures(s, Run(k, EmptyVault, first).v)
    ensures var cut := Run(k, EmptyVault, first).v;
      Inv(k, cut) && R.Related(cut, cut) && AdmissibleRun(k, cut, second) && R.RefreshAll(Loaded(s)) == cut
  {
    hide Inv, R.Related, R.RefreshAll, Loaded, Captures, Run, AdmissibleRun;
    var cut := Run(k, EmptyVault, first).v;
    RunAppend(k, EmptyVault, first, second);
    EmptyKeeps(k);
    RunKeeps(k, EmptyVault, first);
    RoundTrip(k, cut, s);
    HoldersNow(k, cut);
    R.RelatedToItself(cut);
  }
}
