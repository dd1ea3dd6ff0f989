/** The cursor pass on the mutable vault (enclave/src/batch.rs), proved against BatchCursors.dfy. */
module BatchObject {
  import opened Prelude
  import opened VaultTypes
  import opened CreditIndex
  import opened Invariant
  import opened BatchSelect
  import opened RoundRobin
  import opened CursorPass
  import opened BatchCursors
  import opened VaultObject
  import opened BatchChunks
  import opened BatchPipeline
  import opened BatchLemmas

  method Reconstruct(v: VaultState, p: Id, sid: Id) returns (record: Option<Settlement>)
    requires SidsUnique(v.reservations)
    ensures record == Reconstructed(v.Value(), p, sid)
  {
    hide L.Owner;
    var owner := FindOwner(v.reservations, sid);
    if owner.None? { return None; }
    var r := v.reservations[owner.value];
    if r.provider != p || r.status != SettledOffchain { return None; }
    if p !in v.providers { return None; }
    return Some(Settlement(sid, r.client, v.providers[p].account, r.amount, if r.settledAt.Some? then r.settledAt.value else r.createdAt));
  }

  /** Looks up every listed id, rebuilding a missing record from its reservation where there is one. */
  method ScanIds(v: VaultState, p: Id, ids: seq<Id>) returns (found: seq<Candidate>, missing: seq<Id>)
    requires SidsUnique(v.reservations)
    modifies v`history
    ensures Scan(v.Value(), found, missing) == Scanned(old(v.Value()), p, ids)
  {
    hide Reconstructed;
    found, missing := [], [];
    for i := 0 to |ids|
      invariant Scan(v.Value(), found, missing) == Scanned(old(v.Value()), p, ids[..i])
    {
      assert ids[..i + 1][..i] == ids[..i];
      var sid := ids[i];
      var record: Option<Settlement>;
      if sid in v.history {
        record := Some(v.history[sid]);
      } else {
        record := Reconstruct(v, p, sid);
        if record.Some? { v.history := v.history[sid := record.value]; }
      }
      match record
      case Some(r) => found := found + [Candidate(sid, r.timestamp, r.amount)];
      case None => missing := missing + [sid];
    }
    assert ids[..|ids|] == ids;
  }

  /** Recomputes a credit without one id. */
  method PruneReference(v: VaultState, ref: Reference)
    modifies v`credits
    ensures v.Value() == PruneOne(old(v.Value()), ref)
  {
    hide HistSum, L.Without, L.Earliest;
    if ref.provider !in v.credits { return; }
    var credit := v.credits[ref.provider];
    var ids := Retained(credit.ids, ref.id);
    var amount := RecordedSum(ids, v.history);
    var oldest := EarliestOf(ids, v.history);
    credit := credit.(amount := amount, ids := ids);
    if oldest.Some? { credit := credit.(oldestAt := oldest.value); }
    assert credit == Pruned(v.credits[ref.provider], ref.id, v.history);
    v.credits := v.credits[ref.provider := credit];
    if credit.amount == 0 || credit.ids == [] { v.credits := v.credits - {ref.provider}; }
  }

  method RecordedSum(ids: seq<Id>, history: map<Id, Settlement>) returns (sum: nat)
    ensures sum == Capped(HistSum(ids, history))
  {
    sum := 0;
    for i := 0 to |ids|
      invariant sum == Capped(HistSum(ids[..i], history))
    {
      HistSumAppend(ids[..i], history, ids[i]);
      assert ids[..i + 1] == ids[..i] + [ids[i]];
      if ids[i] in history { sum := SatAdd(sum, history[ids[i]].amount); }
    }
    assert ids[..|ids|] == ids;
  }

  /** `build_provider_batch_cursors`: scan every credit, keep what is eligible, then prune what could not be found. */
  method BuildCursors(v: VaultState, order: seq<Id>, now: Time, mode: Mode, config: Config) returns (cursors: seq<Cursor>)
    requires SidsUnique(v.reservations) && forall p :: p in order ==> p in v.credits
    modifies v`history, v`credits
    ensures var pass := PassOver(old(v.Value()), order, now, mode, config);
      cursors == pass.cursors && v.Value() == PruneEach(pass.v, pass.missing)
  {
    hide Scanned, PruneOne, SidsUnique;
    cursors := [];
    var missing: seq<Reference> := [];
    ghost var before := v.Value();
    for i := 0 to |order|
      invariant v.reservations == before.reservations && v.credits == before.credits
      invariant Pass(v.Value(), cursors, missing) == PassOver(before, order[..i], now, mode, config)
    {
      assert order[..i + 1][..i] == order[..i];
      var p := order[i];
      var found, lost := ScanIds(v, p, v.credits[p].ids);
      var chosen := SelectProviderEntries(found, now, mode, config);
      if chosen.Some? { cursors := cursors + [Cursor(p, chosen.value.oldest, chosen.value.ids)]; }
      missing := missing + Tagged(p, lost);
    }
    assert order[..|order|] == order;
    ghost var scanned := v.Value();
    for i := 0 to |missing|
      invariant v.Value() == PruneEach(scanned, missing[..i])
    {
      assert missing[..i + 1][..i] == missing[..i];
      PruneReference(v, missing[i]);
    }
    assert missing[..|missing|] == missing;
  }

  /** `prepare_batch`: looks each pick up again and skips one whose record is gone. */
  method PrepareBatch(picks: seq<Pick>, history: map<Id, Settlement>, now: Time) returns (entries: seq<Prepared>)
    ensures entries == Prepare(picks, history, now)
  {
    entries := [];
    for i := 0 to |picks|
      invariant entries == Prepare(picks[..i], history, now)
    {
      assert picks[..i + 1][..i] == picks[..i];
      if picks[i].id in history {
        var record := history[picks[i].id];
        entries := entries + [Prepared(picks[i].id, picks[i].provider, record.account, record.amount, now)];
      }
    }
    assert picks[..|picks|] == picks;
  }

  /**
   * `fire_batch_at` up to submission: cursors, selection, preparation, chunks and filter. Every chunk that comes out
   * can be confirmed, and in automatic mode passes both privacy gates.
   */
  method PlanBatch(v: VaultState, order: seq<Id>, now: Time, mode: Mode, config: Config) returns (chunks: seq<Chunk>)
    requires Plannable(v.Value()) && SidsUnique(v.reservations) && Distinct(order) && forall p :: p in order ==> p in v.credits
    modifies v`history, v`credits
    ensures v.Value() == Planned(old(v.Value()), order, now, mode, config) && v.history == old(v.history)
    ensures forall c :: c in chunks ==> Payable(old(v.Value()), SidsOf(c.entries)) && 1 <= |c.entries| <= MAX_ATOMIC_SETTLEMENTS_WITH_AUDIT
    ensures forall c, e :: c in chunks && e in c.entries ==> Faithful(e, old(v.history), now)
    ensures mode == Auto ==> forall c :: c in chunks ==> |Accounts(c.entries)| >= config.minProviders
    ensures mode == Auto ==> forall c, e :: c in chunks && e in c.entries ==>
      e.settlementId in old(v.history) && now - old(v.history)[e.settlementId].timestamp >= WaitingTime(config)
  {
    hide Plannable, PassOver, PruneOne, Served, InTurns, Prepare, Balanced, PrivacyFilter, Payable;
    ghost var before := v.Value();
    PassLeaves(before, order, now, mode, config);
    var cursors := BuildCursors(v, order, now, mode, config);
    PruneKeepsHistory(before, PassOver(before, order, now, mode, config).missing);
    var picks := SelectBatchIds(cursors, MAX_SETTLEMENTS_PER_TX);
    var entries := PrepareBatch(picks, v.history, now);
    var all := BuildChunks(entries, MAX_ATOMIC_SETTLEMENTS_WITH_AUDIT);
    chunks := PrivacyFilter(all, now, mode, config);
    forall c | c in chunks
      ensures Payable(before, SidsOf(c.entries)) && 1 <= |c.entries| <= MAX_ATOMIC_SETTLEMENTS_WITH_AUDIT
      ensures forall e :: e in c.entries ==> Faithful(e, before.history, now)
    {
      AnyChunk(before, order, now, mode, config, picks, all, c);
    }
    if mode == Auto {
      forall c | c in chunks
        ensures |Accounts(c.entries)| >= config.minProviders
        ensures forall e :: e in c.entries ==> e.settlementId in before.history && now - before.history[e.settlementId].timestamp >= WaitingTime(config)
      {
        PrivacyGates(before, order, now, config, picks, MAX_ATOMIC_SETTLEMENTS_WITH_AUDIT, all, c);
      }
    }
  }

  lemma {:induction false} PruneKeepsHistory(v: Vault, refs: seq<Reference>)
    ensures PruneEach(v, refs).history == v.history
    decreases |refs|
  {
    if refs != [] { PruneKeepsHistory(v, refs[..|refs| - 1]); }
  }

  /** In either mode a submitted chunk is one of the balanced chunks and can be confirmed. */
  lemma AnyChunk(v: Vault, order: seq<Id>, now: Time, mode: Mode, config: Config, picks: seq<Pick>, all: seq<Chunk>, c: Chunk)
    requires Selected(v, order, now, mode, config, picks)
    requires Balanced(Prepare(picks, v.history, now), MAX_ATOMIC_SETTLEMENTS_WITH_AUDIT, all) && c in PrivacyFilter(all, now, mode, config)
    ensures Payable(v, SidsOf(c.entries)) && 1 <= |c.entries| <= MAX_ATOMIC_SETTLEMENTS_WITH_AUDIT
    ensures forall e :: e in c.entries ==> Faithful(e, v.history, now)
  {
    hide Selected, Prepare, PrivacyFilter, Flat, Faithful;
    var entries := Prepare(picks, v.history, now);
    PreparedFacts(v, order, now, mode, config, picks);
    var at := FilteredAreSome(all, now, mode, config);
    var kept := PrivacyFilter(all, now, mode, config);
    var i :| 0 <= i < |kept| && kept[i] == c;
    assert c == all[at[i]];
    ChunkPayable(v, all, at[i], entries);
    ChunkWithin(all, at[i]);
    forall e | e in c.entries ensures Faithful(e, v.history, now) {
      var a :| 0 <= a < |c.entries| && c.entries[a] == e;
      assert entries[|Flat(all[..at[i]])| + a] == e;
    }
  }
}
