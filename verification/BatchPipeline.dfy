/** A batch from credits to transfers (enclave/src/batch.rs, `prepare_batch` and `fire_batch_at`), end to end. */
module BatchPipeline {
  import opened Prelude
  import opened Sums
  import opened VaultTypes
  import opened Ledger
  import opened CreditIndex
  import opened Invariant
  import opened BatchLemmas
  import opened BatchSelect
  import opened RoundRobin
  import opened BatchChunks
  import opened CursorPass
  import opened BatchCursors
  import RecoveryRuns
  import CreditStamps
  import opened Steps
  import opened Preservation
  import opened Runs
  import opened StepFrames

  /** `prepare_batch`: each picked settlement with its record, audited at the batch's own time. */
  function Prepare(picks: seq<Pick>, h: map<Id, Settlement>, now: Time): seq<Prepared>
  {
    if picks == [] then [] else
      var last := picks[|picks| - 1];
      Prepare(picks[..|picks| - 1], h, now)
        + if last.id in h then [EntryFor(last, h, now)] else []
  }

  function EntryFor(pick: Pick, h: map<Id, Settlement>, now: Time): Prepared
    requires pick.id in h
  {
    Prepared(pick.id, pick.provider, h[pick.id].account, h[pick.id].amount, now)
  }

  function SidsOf(entries: seq<Prepared>): seq<Id> { seq(|entries|, i requires 0 <= i < |entries| => entries[i].settlementId) }

  // ---- Cursors list recorded settlements of their provider, once ----

  lemma {:induction false} CandidatesAre(ids: seq<Id>, h: map<Id, Settlement>, c: Candidate)
    ensures c in Candidates(ids, h) <==> c.id in ids && c.id in h && c == CandidateOf(c.id, h[c.id])
  {
    if ids != [] {
      assert ids == ids[..|ids| - 1] + [ids[|ids| - 1]];
      CandidatesAre(ids[..|ids| - 1], h, c);
    }
  }

  ghost predicate NoRepeat(cs: seq<Candidate>) { forall i, j :: 0 <= i < j < |cs| ==> cs[i].id != cs[j].id }

  lemma {:induction false} CandidatesOnce(ids: seq<Id>, h: map<Id, Settlement>)
    requires Distinct(ids)
    ensures NoRepeat(Candidates(ids, h))
  {
    if ids != [] {
      var n := |ids| - 1;
      CandidatesOnce(ids[..n], h);
      var rest := Candidates(ids[..n], h);
      forall i | 0 <= i < |rest| ensures rest[i].id != ids[n] {
        CandidatesAre(ids[..n], h, rest[i]);
        assert rest[i].id in ids[..n];
      }
    }
  }

  lemma {:induction false} KeptOnce(cs: seq<Candidate>, now: Time, mode: Mode, config: Config)
    requires NoRepeat(cs)
    ensures NoRepeat(Kept(cs, now, mode, config))
  {
    if cs != [] {
      var n := |cs| - 1;
      KeptOnce(cs[..n], now, mode, config);
      var rest := Kept(cs[..n], now, mode, config);
      forall i | 0 <= i < |rest| ensures rest[i].id != cs[n].id {
        KeptAre(cs[..n], now, mode, config, rest[i]);
        var j :| 0 <= j < n && cs[..n][j] == rest[i];
      }
    }
  }

  /** What a cursor lists: settlements of its provider that are recorded, each once, and old enough when automatic. */
  lemma CursorLists(v: Vault, order: seq<Id>, c: Cursor, now: Time, mode: Mode, config: Config)
    requires Plannable(v) && FromCredit(v, order, c, now, mode, config)
    ensures Distinct(c.ids) && forall id :: id in c.ids ==> id in v.credits[c.provider].ids && id in v.history
    ensures mode == Auto ==> forall id :: id in c.ids ==> id in v.history && now - v.history[id].timestamp >= WaitingTime(config)
  {
    hide OneLister, HistSum, Owner, Kept, Candidates, Ids;
    var ids := v.credits[c.provider].ids;
    assert CreditPlannable(v, v.credits[c.provider]);
    var cs := Candidates(ids, v.history);
    var kept := Kept(cs, now, mode, config);
    CandidatesOnce(ids, v.history);
    KeptOnce(cs, now, mode, config);
    IdsAt(kept);
    forall i | 0 <= i < |kept|
      ensures kept[i].id in ids && kept[i].id in v.history
      ensures mode == Auto ==> now - v.history[kept[i].id].timestamp >= WaitingTime(config)
    {
      KeptAre(cs, now, mode, config, kept[i]);
      CandidatesAre(ids, v.history, kept[i]);
    }
  }

  lemma {:induction false} PassOneEach(v: Vault, order: seq<Id>, now: Time, mode: Mode, config: Config)
    requires Plannable(v) && (forall p :: p in order ==> p in v.credits) && Distinct(order)
    ensures OneEach(PassOver(v, order, now, mode, config).cursors)
    decreases |order|
  {
    hide Plannable, Scanned, Chosen;
    if order != [] {
      var n := |order| - 1;
      assert order == order[..n] + [order[n]];
      PassOneEach(v, order[..n], now, mode, config);
      PassLeaves(v, order[..n], now, mode, config);
      var before := PassOver(v, order[..n], now, mode, config).cursors;
      forall i | 0 <= i < |before| ensures before[i].provider != order[n] { assert before[i] in before; }
    }
  }

  // ---- A selection that a batch could have made ----

  /** The picks come from the round-robin over the cursors of a vault that planning may see. */
  ghost predicate Selected(v: Vault, order: seq<Id>, now: Time, mode: Mode, config: Config, picks: seq<Pick>)
  {
    && Plannable(v) && (forall p :: p in order ==> p in v.credits) && Distinct(order)
    && InTurns(Served(PassOver(v, order, now, mode, config).cursors), picks)
  }

  lemma PickSource(v: Vault, order: seq<Id>, now: Time, mode: Mode, config: Config, picks: seq<Pick>, m: nat) returns (c: Cursor)
    requires Selected(v, order, now, mode, config, picks) && m < |picks|
    ensures c in Served(PassOver(v, order, now, mode, config).cursors) && c.provider == picks[m].provider && picks[m].id in c.ids
    ensures FromCredit(v, order, c, now, mode, config)
  {
    hide Plannable, PassOver, FromCredit, Served;
    var cursors := PassOver(v, order, now, mode, config).cursors;
    var cs := Served(cursors);
    var r, j :| 0 <= j <= |cs| && TurnsAt(cs, r, j, picks);
    PicksListed(cs, r, j, m);
    var i :| 0 <= i < |cs| && cs[i].provider == picks[m].provider && picks[m].id in cs[i].ids;
    c := cs[i];
    ServedAre(cursors);
    PassLeaves(v, order, now, mode, config);
  }

  /** Every pick is a recorded settlement in its provider's credit. */
  lemma PickRecorded(v: Vault, order: seq<Id>, now: Time, mode: Mode, config: Config, picks: seq<Pick>, m: nat)
    requires Selected(v, order, now, mode, config, picks) && m < |picks|
    ensures picks[m].provider in v.credits && picks[m].id in v.credits[picks[m].provider].ids && picks[m].id in v.history
    ensures mode == Auto ==> now - v.history[picks[m].id].timestamp >= WaitingTime(config)
  {
    hide Plannable, PassOver, Served;
    var c := PickSource(v, order, now, mode, config, picks, m);
    CursorLists(v, order, c, now, mode, config);
  }

  /** No settlement is picked twice, not even under two providers. */
  lemma PicksOnce(v: Vault, order: seq<Id>, now: Time, mode: Mode, config: Config, picks: seq<Pick>, m: nat, n: nat)
    requires Selected(v, order, now, mode, config, picks) && m < n < |picks|
    ensures picks[m].id != picks[n].id
  {
    hide CreditPlannable, PassOver, Served, FromCredit;
    PickRecorded(v, order, now, mode, config, picks, m);
    PickRecorded(v, order, now, mode, config, picks, n);
    if picks[m].provider == picks[n].provider {
      var cursors := PassOver(v, order, now, mode, config).cursors;
      var c := PickSource(v, order, now, mode, config, picks, m);
      CursorLists(v, order, c, now, mode, config);
      PassOneEach(v, order, now, mode, config);
      ServedOneEach(cursors);
      var i :| 0 <= i < |Served(cursors)| && Served(cursors)[i] == c;
      PicksDistinct(Served(cursors), picks, m, n);
    } else {
      assert OneLister(v.credits, v.history);
    }
  }

  // ---- Prepared entries ----

  lemma {:induction false} PreparedAt(picks: seq<Pick>, h: map<Id, Settlement>, now: Time)
    requires forall m :: 0 <= m < |picks| ==> picks[m].id in h
    ensures |Prepare(picks, h, now)| == |picks|
    ensures forall m :: 0 <= m < |picks| ==> Prepare(picks, h, now)[m] == EntryFor(picks[m], h, now)
  {
    if picks != [] { PreparedAt(picks[..|picks| - 1], h, now); }
  }

  /** The prepared entry matches the history and carries the batch's time. */
  ghost predicate Faithful(e: Prepared, h: map<Id, Settlement>, now: Time)
  {
    e.settlementId in h && e.account == h[e.settlementId].account && e.amount == h[e.settlementId].amount && e.auditedAt == now
  }

  /**
   * What a batch prepares: distinct recorded settlements with the accounts and amounts of their records. When
   * automatic, each has waited at least as long as the smaller of the two windows.
   */
  lemma PreparedFacts(v: Vault, order: seq<Id>, now: Time, mode: Mode, config: Config, picks: seq<Pick>)
    requires Selected(v, order, now, mode, config, picks)
    ensures var entries := Prepare(picks, v.history, now);
      && Distinct(SidsOf(entries)) && AllRecorded(SidsOf(entries), v.history)
      && (forall e :: e in entries ==> Faithful(e, v.history, now))
      && (mode == Auto ==> forall e :: e in entries ==> e.settlementId in v.history && now - v.history[e.settlementId].timestamp >= WaitingTime(config))
  {
    hide Selected, Prepare;
    var entries := Prepare(picks, v.history, now);
    forall m | 0 <= m < |picks|
      ensures picks[m].id in v.history
      ensures mode == Auto ==> now - v.history[picks[m].id].timestamp >= WaitingTime(config)
    {
      PickRecorded(v, order, now, mode, config, picks, m);
    }
    PreparedAt(picks, v.history, now);
    forall m, n | 0 <= m < n < |picks| ensures picks[m].id != picks[n].id { PicksOnce(v, order, now, mode, config, picks, m, n); }
  }

  // ---- Chunks ----

  lemma {:induction false} ChunkWithin(chunks: seq<Chunk>, i: nat)
    requires i < |chunks|
    ensures var off := |Flat(chunks[..i])|;
      off + |chunks[i].entries| <= |Flat(chunks)| && Flat(chunks)[off..off + |chunks[i].entries|] == chunks[i].entries
    decreases |chunks|
  {
    var n := |chunks| - 1;
    if i < n {
      assert chunks[..n][..i] == chunks[..i];
      ChunkWithin(chunks[..n], i);
    }
  }

  /** A chunk of a batch that repeats nothing repeats nothing, and shares nothing with another chunk. */
  lemma ChunksApart(chunks: seq<Chunk>, i: nat, j: nat, a: nat, b: nat)
    requires i < |chunks| && j < |chunks| && a < |chunks[i].entries| && b < |chunks[j].entries| && (i != j || a != b)
    requires Distinct(SidsOf(Flat(chunks)))
    ensures chunks[i].entries[a].settlementId != chunks[j].entries[b].settlementId
    ensures chunks[i].entries[a] in Flat(chunks)
  {
    hide Flat;
    ChunkWithin(chunks, i);
    ChunkWithin(chunks, j);
    var x, y := |Flat(chunks[..i])| + a, |Flat(chunks[..j])| + b;
    if i < j { FlatPrefix(chunks, i, j); }
    if j < i { FlatPrefix(chunks, j, i); }
    var all := Flat(chunks);
    assert all[x] == chunks[i].entries[a] && all[y] == chunks[j].entries[b];
    var sids := SidsOf(all);
    assert sids[x] == all[x].settlementId && sids[y] == all[y].settlementId;
  }

  /**
   * The privacy gates of an automatic batch, end to end. Every chunk that is submitted pays at least the required
   * number of token accounts, every settlement in it has waited out the smaller window, and its ids are distinct
   * and recorded, as a confirmation needs them to be.
   */
  lemma PrivacyGates(v: Vault, order: seq<Id>, now: Time, config: Config, picks: seq<Pick>, cap: nat,
                     chunks: seq<Chunk>, chunk: Chunk)
    requires Selected(v, order, now, Auto, config, picks)
    requires Balanced(Prepare(picks, v.history, now), cap, chunks) && chunk in PrivacyFilter(chunks, now, Auto, config)
    ensures |Accounts(chunk.entries)| >= config.minProviders
    ensures forall e :: e in chunk.entries ==>
      Faithful(e, v.history, now) && now - v.history[e.settlementId].timestamp >= WaitingTime(config)
    ensures Payable(v, SidsOf(chunk.entries))
  {
    hide Selected, Prepare, PrivacyFilter, Flat;
    PreparedFacts(v, order, now, Auto, config, picks);
    var entries := Prepare(picks, v.history, now);
    forall i, a | 0 <= i < |chunks| && 0 <= a < |chunks[i].entries| ensures chunks[i].entries[a] in entries {
      ChunkWithin(chunks, i);
      assert entries[|Flat(chunks[..i])| + a] == chunks[i].entries[a];
    }
    forall c | c in chunks ensures c.entries != [] && forall e :: e in c.entries ==> e.auditedAt == now {
      var i :| 0 <= i < |chunks| && chunks[i] == c;
      forall e | e in c.entries ensures e.auditedAt == now {
        var a :| 0 <= a < |c.entries| && c.entries[a] == e;
        assert chunks[i].entries[a] in entries;
      }
    }
    EnoughAccounts(chunks, now, config, chunk);
    var i :| 0 <= i < |chunks| && chunks[i] == chunk;
    ChunkPayable(v, chunks, i, entries);
  }

  lemma ChunkPayable(v: Vault, chunks: seq<Chunk>, i: nat, entries: seq<Prepared>)
    requires Flat(chunks) == entries && i < |chunks| && Distinct(SidsOf(entries)) && AllRecorded(SidsOf(entries), v.history)
    ensures Payable(v, SidsOf(chunks[i].entries))
  {
    hide Flat, SidsOf, Distinct, AllRecorded;
    ChunkWithin(chunks, i);
    var off := |Flat(chunks[..i])|;
    SidsSlice(entries, off, off + |chunks[i].entries|);
    SliceOk(SidsOf(entries), v.history, off, off + |chunks[i].entries|);
  }

  lemma SidsSlice(entries: seq<Prepared>, a: nat, b: nat)
    requires a <= b <= |entries|
    ensures |SidsOf(entries)| == |entries| && SidsOf(entries[a..b]) == SidsOf(entries)[a..b]
  {
  }

  lemma SliceOk(sids: seq<Id>, h: map<Id, Settlement>, a: nat, b: nat)
    requires a <= b <= |sids| && Distinct(sids) && AllRecorded(sids, h)
    ensures Distinct(sids[a..b]) && AllRecorded(sids[a..b], h)
  {
  }

  /** Two chunks of a batch share no settlement, so confirming one leaves the other payable. */
  lemma ChunksShareNothing(v: Vault, chunks: seq<Chunk>, i: nat, j: nat, id: Id)
    requires i < |chunks| && j < |chunks| && i != j && Distinct(SidsOf(Flat(chunks)))
    ensures !(id in SidsOf(chunks[i].entries) && id in SidsOf(chunks[j].entries))
  {
    hide Flat;
    if id in SidsOf(chunks[i].entries) && id in SidsOf(chunks[j].entries) {
      var a :| 0 <= a < |chunks[i].entries| && SidsOf(chunks[i].entries)[a] == id;
      var b :| 0 <= b < |chunks[j].entries| && SidsOf(chunks[j].entries)[b] == id;
      ChunksApart(chunks, i, j, a, b);
    }
  }

  // ---- What is paid is what was owed ----

  function OwedOn(account: Pubkey): Credit -> nat { (credit: Credit) => if credit.account == account then credit.amount else 0 }

  /** What the history says a list of settlements pays to one account. */
  function RecordedFor(sids: seq<Id>, h: map<Id, Settlement>, account: Pubkey): nat
  {
    if sids == [] then 0 else
      var last := sids[|sids| - 1];
      RecordedFor(sids[..|sids| - 1], h, account) + if last in h && h[last].account == account then h[last].amount else 0
  }

  lemma ConfirmOneDrop(v: Vault, sid: Id, info: BatchInfo, account: Pubkey)
    requires Confirming(v) && sid in v.history
    ensures Sum(v.credits, OwedOn(account)) == Sum(ConfirmOne(v, sid, info).credits, OwedOn(account))
      + if v.history[sid].account == account then v.history[sid].amount else 0
  {
    hide MoneyOk, IndexOk, ConfirmOne, Owner, SidsUnique, HistSum, Confirming;
    PayingFacts(v, sid);
    var vid := Owner(v.reservations, sid).value;
    ConfirmOneShape(v, sid, info);
    var r := v.reservations[vid];
    if r.provider in v.credits {
      DeductedOk(v, vid, sid);
      SumUpdate(v.credits, OwedOn(account), r.provider, Deduct(v.credits[r.provider], r.amount, sid));
    }
  }

  lemma PayingFacts(v: Vault, sid: Id)
    requires Confirming(v) && sid in v.history
    ensures Owner(v.reservations, sid).Some? && Paying(v, Owner(v.reservations, sid).value, sid)
    ensures var r := v.reservations[Owner(v.reservations, sid).value];
      && v.history[sid].amount == r.amount
      && (r.provider in v.credits ==> v.credits[r.provider].account == v.history[sid].account)
      && (r.provider !in v.credits ==> r.amount == 0)
  {
    hide MoneyOk, IndexOk, Owner, SidsUnique, HistSum;
    PayingOwner(v, sid);
    var vid := Owner(v.reservations, sid).value;
    assert v.history[sid] == RecordOf(v.reservations[vid], v.providers);
    var p := v.reservations[vid].provider;
    if p in v.credits { assert CreditOk(p, v.credits[p], v.reservations, v.history, v.providers); }
  }

  lemma {:induction false} ConfirmEachDrop(v: Vault, sids: seq<Id>, info: BatchInfo, account: Pubkey)
    requires Confirming(v) && Payable(v, sids)
    ensures Sum(v.credits, OwedOn(account)) == Sum(ConfirmEach(v, sids, info).credits, OwedOn(account)) + RecordedFor(sids, v.history, account)
    decreases |sids|
  {
    hide Confirming, ConfirmOne;
    if sids != [] {
      var n := |sids| - 1;
      var less, last := sids[..n], sids[n];
      assert forall id :: id in sids <==> id in less || id == last by { assert sids == less + [last]; }
      ConfirmEachDrop(v, less, info, account);
      ConfirmEachKeeps(v, less, info);
      CreditStamps.HistoryShrinks(v, less, info);
      ConfirmOneDrop(ConfirmEach(v, less, info), last, info, account);
    }
  }

  lemma TidyDrop(v: Vault, affected: set<Id>, account: Pubkey)
    requires CreditsOk(v.credits, v.reservations, v.history, v.providers)
    ensures Sum(Tidied(v, affected), OwedOn(account)) == Sum(v.credits, OwedOn(account))
  {
    hide CreditOk, Restamped;
    var credits' := Tidied(v, affected);
    forall p | p in v.credits
      ensures OwedOn(account)(v.credits[p]) == if p in credits' then OwedOn(account)(credits'[p]) else 0
    {
      if p in credits' {
        RestampedOnlyTime(v.credits[p], v.history);
      } else {
        SpentOwesNothing(p, v.credits[p], v.reservations, v.history, v.providers);
      }
    }
    SumPruned(v.credits, credits', OwedOn(account));
  }

  /** Confirming a chunk lowers what is owed on each token account by exactly what the history recorded for it. */
  lemma PayoutIsExact(k: Crypto, v: Vault, sids: seq<Id>, batchId: nat, signature: Id, account: Pubkey)
    requires Inv(k, v) && Payable(v, sids)
    ensures var v' := ApplyBatchConfirmation(v, sids, batchId, signature);
      Sum(v.credits, OwedOn(account)) == Sum(v'.credits, OwedOn(account)) + RecordedFor(sids, v.history, account)
  {
    hide Inv, ConfirmEach, TouchedEach, Confirming, Payable;
    var info := BatchInfo(batchId, signature);
    RecoveryRuns.ConfirmingNow(k, v);
    ConfirmEachDrop(v, sids, info, account);
    ConfirmEachKeeps(v, sids, info);
    ConfirmingCredits(ConfirmEach(v, sids, info));
    TidyDrop(ConfirmEach(v, sids, info), TouchedEach(v, sids, info), account);
  }

  lemma ConfirmingCredits(v: Vault)
    requires Confirming(v)
    ensures CreditsOk(v.credits, v.reservations, v.history, v.providers)
  {
    hide MoneyOk, IndexOk, HistoryOk, CreditsOk, ListedOk;
  }

  lemma {:induction false} TransfersRecorded(entries: seq<Prepared>, h: map<Id, Settlement>, now: Time, account: Pubkey)
    requires forall e :: e in entries ==> Faithful(e, h, now)
    ensures PaidTo(entries, account) == RecordedFor(SidsOf(entries), h, account)
    decreases |entries|
  {
    if entries != [] {
      var n := |entries| - 1;
      assert entries[..n] <= entries && entries[n] in entries;
      assert SidsOf(entries)[..n] == SidsOf(entries[..n]);
      TransfersRecorded(entries[..n], h, now, account);
    }
  }

  /**
   * Payout conservation. For every submitted chunk, the transfer to each token account is exactly the drop in what
   * the vault owes on that account once the chunk is confirmed.
   */
  lemma TransfersMatchCredits(k: Crypto, v: Vault, chunk: Chunk, now: Time, batchId: nat, signature: Id, account: Pubkey)
    requires Inv(k, v) && Payable(v, SidsOf(chunk.entries)) && forall e :: e in chunk.entries ==> Faithful(e, v.history, now)
    ensures var v' := ApplyBatchConfirmation(v, SidsOf(chunk.entries), batchId, signature);
      PaidTo(chunk.entries, account) == Sum(v.credits, OwedOn(account)) - Sum(v'.credits, OwedOn(account))
  {
    hide Inv, Payable, ApplyBatchConfirmation, SidsOf, PaidTo, RecordedFor;
    PayoutIsExact(k, v, SidsOf(chunk.entries), batchId, signature, account);
    TransfersRecorded(chunk.entries, v.history, now, account);
  }

  // ---- While a batch is in flight ----

  /** The step confirms none of the settlements. */
  ghost predicate Spares(s: Step, sids: seq<Id>) { s.ConfirmBatch? ==> forall sid :: sid in sids ==> sid !in s.settlementIds }

  /** The records of the settlements are the same in both vaults. */
  ghost predicate SameRecords(v: Vault, v': Vault, sids: seq<Id>)
  {
    forall sid :: sid in sids && sid in v.history ==> sid in v'.history && v'.history[sid] == v.history[sid]
  }

  lemma SettleAddsRecord(k: Crypto, v: Vault, s: Step, sids: seq<Id>)
    requires Inv(k, v) && Admissible(v, s) && s.Settle?
    ensures SameRecords(v, Live(k, v, s).v, sids)
  {
    hide SettleStep, Inv;
    var vid, sid := s.verificationId, s.settlementId;
    if vid in v.reservations && v.reservations[vid].status == Reserved && s.now <= v.reservations[vid].expiresAt {
      if s.ok {
        SettleLogs(k, v, vid, sid, s.now);
        Recovery.SettleShape(v, vid, sid, s.now);
      } else {
        SettleFailed(k, v, vid, sid, s.now);
      }
    } else {
      SettleIdle(v, vid, sid, s.now, s.ok);
    }
  }

  lemma ConfirmKeepsRecords(k: Crypto, v: Vault, s: Step, sids: seq<Id>)
    requires Inv(k, v) && Admissible(v, s) && s.ConfirmBatch? && Spares(s, sids)
    ensures SameRecords(v, Live(k, v, s).v, sids)
  {
    hide Inv, ConfirmEach, TouchedEach, Confirming;
    var info := BatchInfo(s.batchId, s.signature);
    RecoveryRuns.ConfirmingNow(k, v);
    ConfirmEachKeeps(v, s.settlementIds, info);
    CreditStamps.HistoryShrinks(v, s.settlementIds, info);
  }

  /** A record does not change until its settlement is confirmed. */
  lemma StepKeepsRecords(k: Crypto, v: Vault, s: Step, sids: seq<Id>)
    requires Inv(k, v) && Admissible(v, s) && Spares(s, sids)
    ensures SameRecords(v, Live(k, v, s).v, sids)
  {
    hide Inv, Live, Admissible, Spares;
    if s.Settle? {
      SettleAddsRecord(k, v, s, sids);
    } else if s.ConfirmBatch? {
      ConfirmKeepsRecords(k, v, s, sids);
    } else {
      StepWrites(k, v, s);
      WritesSpare(v, Live(k, v, s).v, s);
    }
  }

  lemma {:induction false} RunKeepsRecords(k: Crypto, v: Vault, steps: seq<Step>, sids: seq<Id>)
    requires Inv(k, v) && AdmissibleRun(k, v, steps) && forall s :: s in steps ==> Spares(s, sids)
    ensures SameRecords(v, Run(k, v, steps).v, sids)
    decreases |steps|
  {
    hide Inv, Live, Admissible, Spares;
    if steps != [] {
      var n := |steps| - 1;
      assert forall s :: s in steps[..n] ==> s in steps;
      RunKeepsRecords(k, v, steps[..n], sids);
      RunKeeps(k, v, steps[..n]);
      StepKeepsRecords(k, Run(k, v, steps[..n]).v, steps[n], sids);
    }
  }

  /** Whatever runs between planning and confirming, a chunk stays payable until one of its settlements is confirmed. */
  lemma StaysPayable(k: Crypto, v: Vault, steps: seq<Step>, sids: seq<Id>)
    requires Inv(k, v) && AdmissibleRun(k, v, steps) && Payable(v, sids)
    requires forall s :: s in steps ==> Spares(s, sids)
    ensures Payable(Run(k, v, steps).v, sids)
  {
    hide Inv, Run, AdmissibleRun, Spares;
    RunKeepsRecords(k, v, steps, sids);
  }

  lemma InSids(entries: seq<Prepared>, e: Prepared)
    requires e in entries
    ensures e.settlementId in SidsOf(entries)
  {
    var i :| 0 <= i < |entries| && entries[i] == e;
    assert SidsOf(entries)[i] == e.settlementId;
  }

  /**
   * Payout conservation, end to end. Plan a batch, let anything happen that confirms none of a chunk's settlements, then
   * confirm the chunk: the transfer to each token account is exactly the drop in what the vault owes on it, whether
   * or not planning lost the earnings of closed channels.
   */
  lemma PlannedIsPaid(k: Crypto, v: Vault, order: seq<Id>, now: Time, mode: Mode, config: Config, chunk: Chunk, steps: seq<Step>,
                      batchId: nat, signature: Id, account: Pubkey)
    requires Inv(k, v) && Listing(v, order)
    requires Payable(v, SidsOf(chunk.entries)) && forall e :: e in chunk.entries ==> Faithful(e, v.history, now)
    requires AdmissibleRun(k, Planned(v, order, now, mode, config), steps)
    requires forall s :: s in steps ==> Spares(s, SidsOf(chunk.entries))
    ensures var later := Run(k, Planned(v, order, now, mode, config), steps).v;
      var paid := ApplyBatchConfirmation(later, SidsOf(chunk.entries), batchId, signature);
      && Inv(k, later) && Payable(later, SidsOf(chunk.entries))
      && PaidTo(chunk.entries, account) == Sum(later.credits, OwedOn(account)) - Sum(paid.credits, OwedOn(account))
  {
    hide Inv, Run, AdmissibleRun, Spares, Planned, Listing, ApplyBatchConfirmation, SidsOf, PaidTo;
    var planned := Planned(v, order, now, mode, config);
    var later := Run(k, planned, steps).v;
    var sids := SidsOf(chunk.entries);
    PlanKeeps(k, v, order, now, mode, config);
    PlannableNow(k, v);
    PassCleans(v, order, now, mode, config);
    RunKeeps(k, planned, steps);
    RunKeepsRecords(k, planned, steps, sids);
    forall e | e in chunk.entries ensures Faithful(e, later.history, now) { InSids(chunk.entries, e); }
    TransfersMatchCredits(k, later, chunk, now, batchId, signature, account);
  }
}
