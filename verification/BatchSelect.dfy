/** Which settlements a batch takes (enclave/src/batch.rs): eligibility per provider, then round-robin across providers. */
module BatchSelect {
  import opened Prelude
  import opened Sorting
  import opened ObjectKeys

  const MAX_SETTLEMENT_DELAY_SEC: int := 900
  const MAX_SETTLEMENTS_PER_TX: nat := 20
  const U64_MAX: nat := U64_LIMIT - 1

  datatype Config = Config(batchWindow: int, minPayout: nat, anonymityWindow: int, minProviders: nat)

  datatype Mode = Auto | Flush

  /** A listed settlement with the time and amount its record gives. */
  datatype Candidate = Candidate(id: Id, timestamp: Time, amount: nat)

  datatype Selection = Selection(ids: seq<Id>, oldest: Time)

  function SatAdd(a: nat, b: nat): nat { if a + b < U64_MAX then a + b else U64_MAX }

  // ---- One provider ----

  /** `settlement_is_age_eligible` */
  predicate OldEnough(age: int, config: Config)
  {
    age >= MAX_SETTLEMENT_DELAY_SEC || age >= config.anonymityWindow
  }

  predicate Eligible(c: Candidate, now: Time, mode: Mode, config: Config)
  {
    mode == Flush || OldEnough(now - c.timestamp, config)
  }

  /** `provider_payout_floor_satisfied` */
  predicate WorthPaying(amount: nat, age: int, config: Config)
  {
    amount != 0 && (age >= MAX_SETTLEMENT_DELAY_SEC || config.minPayout == 0 || amount >= config.minPayout)
  }

  function Kept(cs: seq<Candidate>, now: Time, mode: Mode, config: Config): seq<Candidate>
  {
    if cs == [] then [] else
      var last := cs[|cs| - 1];
      Kept(cs[..|cs| - 1], now, mode, config) + if Eligible(last, now, mode, config) then [last] else []
  }

  function Ids(cs: seq<Candidate>): seq<Id> { if cs == [] then [] else Ids(cs[..|cs| - 1]) + [cs[|cs| - 1].id] }

  function Worth(cs: seq<Candidate>): nat { if cs == [] then 0 else Worth(cs[..|cs| - 1]) + cs[|cs| - 1].amount }

  function OldestOf(cs: seq<Candidate>): Time
    requires cs != []
  {
    var last := cs[|cs| - 1].timestamp;
    if |cs| == 1 then last else
      var rest := OldestOf(cs[..|cs| - 1]);
      if last < rest then last else rest
  }

  lemma {:induction false} OldestIsMin(cs: seq<Candidate>)
    requires cs != []
    ensures forall i :: 0 <= i < |cs| ==> OldestOf(cs) <= cs[i].timestamp
    ensures exists i :: 0 <= i < |cs| && cs[i].timestamp == OldestOf(cs)
  {
    var n := |cs| - 1;
    if n > 0 {
      OldestIsMin(cs[..n]);
      if cs[n].timestamp < OldestOf(cs[..n]) {
        assert cs[n].timestamp == OldestOf(cs);
      } else {
        var i :| 0 <= i < n && cs[..n][i].timestamp == OldestOf(cs[..n]);
        assert cs[i].timestamp == OldestOf(cs);
      }
    } else {
      assert cs[0].timestamp == OldestOf(cs);
    }
  }

  /** What a provider contributes, if anything: all its old-enough settlements, when together they are worth paying. */
  function Chosen(cs: seq<Candidate>, now: Time, mode: Mode, config: Config): Option<Selection>
  {
    var kept := Kept(cs, now, mode, config);
    if kept == [] then None
    else if mode == Auto && !WorthPaying(Capped(Worth(kept)), now - OldestOf(kept), config) then None
    else Some(Selection(Ids(kept), OldestOf(kept)))
  }

  lemma KeptOneMore(cs: seq<Candidate>, i: nat, now: Time, mode: Mode, config: Config)
    requires i < |cs|
    ensures Kept(cs[..i + 1], now, mode, config)
      == Kept(cs[..i], now, mode, config) + if Eligible(cs[i], now, mode, config) then [cs[i]] else []
  {
    assert cs[..i + 1][..i] == cs[..i];
  }

  lemma OneMore(kept: seq<Candidate>, c: Candidate)
    ensures Ids(kept + [c]) == Ids(kept) + [c.id] && Worth(kept + [c]) == Worth(kept) + c.amount
    ensures OldestOf(kept + [c]) == if kept != [] && OldestOf(kept) <= c.timestamp then OldestOf(kept) else c.timestamp
  {
    assert (kept + [c])[..|kept|] == kept;
  }

  function Capped(n: nat): nat { if n < U64_MAX then n else U64_MAX }

  /** `select_provider_batch_entries`: one pass with running totals. */
  method SelectProviderEntries(cs: seq<Candidate>, now: Time, mode: Mode, config: Config) returns (chosen: Option<Selection>)
    ensures chosen == Chosen(cs, now, mode, config)
  {
    hide Kept, Ids, Worth, OldestOf;
    var ids: seq<Id> := [];
    var amount: nat := 0;
    var oldest: Option<Time> := None;
    ghost var kept := [];
    NothingKept(cs, now, mode, config);
    for i := 0 to |cs|
      invariant kept == Kept(cs[..i], now, mode, config)
      invariant ids == Ids(kept) && |ids| == |kept| && amount == Capped(Worth(kept))
      invariant oldest == if kept == [] then None else Some(OldestOf(kept))
    {
      var c := cs[i];
      KeptOneMore(cs, i, now, mode, config);
      var eligible := mode == Flush || OldEnough(now - c.timestamp, config);
      if eligible {
        OneMore(kept, c);
        amount := SatAdd(amount, c.amount);
        oldest := Some(if oldest.Some? && oldest.value <= c.timestamp then oldest.value else c.timestamp);
        ids := ids + [c.id];
        kept := kept + [c];
      }
    }
    assert cs[..|cs|] == cs;
    if ids == [] { return None; }
    if mode == Auto && !WorthPaying(amount, now - oldest.value, config) { return None; }
    return Some(Selection(ids, oldest.value));
  }

  lemma NothingKept(cs: seq<Candidate>, now: Time, mode: Mode, config: Config)
    ensures Kept(cs[..0], now, mode, config) == [] && Ids([]) == [] && Worth([]) == 0
  {
  }

  lemma {:induction false} IdsAt(cs: seq<Candidate>)
    ensures |Ids(cs)| == |cs| && forall i :: 0 <= i < |cs| ==> Ids(cs)[i] == cs[i].id
  {
    if cs != [] { IdsAt(cs[..|cs| - 1]); }
  }

  lemma {:induction false} KeptAre(cs: seq<Candidate>, now: Time, mode: Mode, config: Config, c: Candidate)
    ensures c in Kept(cs, now, mode, config) <==> c in cs && Eligible(c, now, mode, config)
  {
    if cs != [] {
      var n := |cs| - 1;
      assert cs == cs[..n] + [cs[n]];
      KeptAre(cs[..n], now, mode, config, c);
    }
  }

  /** The smaller of the anonymity window and the longest allowed delay. */
  function WaitingTime(config: Config): int
  {
    if config.anonymityWindow < MAX_SETTLEMENT_DELAY_SEC then config.anonymityWindow else MAX_SETTLEMENT_DELAY_SEC
  }

  /** The running total saturates, which never changes the verdict: any floor fits in 64 bits. */
  lemma CapIsHarmless(amount: nat, age: int, config: Config)
    requires config.minPayout <= U64_MAX
    ensures WorthPaying(Capped(amount), age, config) <==> WorthPaying(amount, age, config)
  {
  }

  /** An automatic batch takes a settlement only once it is as old as the smaller of the two windows. */
  lemma ChosenAge(cs: seq<Candidate>, now: Time, config: Config, id: Id)
    requires Chosen(cs, now, Auto, config).Some? && id in Chosen(cs, now, Auto, config).value.ids
    ensures exists c :: c in cs && c.id == id && now - c.timestamp >= WaitingTime(config)
  {
    var kept := Kept(cs, now, Auto, config);
    IdsAt(kept);
    var i :| 0 <= i < |kept| && Ids(kept)[i] == id;
    KeptAre(cs, now, Auto, config, kept[i]);
    assert kept[i] in cs && kept[i].id == id;
  }

  // ---- Across providers ----

  datatype Cursor = Cursor(provider: Id, oldest: Time, ids: seq<Id>)

  /** Older credit first, then the smaller provider id. */
  predicate Earlier(a: Cursor, b: Cursor)
  {
    a.oldest < b.oldest || (a.oldest == b.oldest && NotAfter(a.provider.text, b.provider.text))
  }

  lemma EarlierIsOrdering()
    ensures Ordering(Earlier)
  {
    StringOrder();
    forall a: Cursor, b: Cursor ensures Earlier(a, b) || Earlier(b, a) { BeforeTotal(a.provider.text, b.provider.text); }
    forall a: Cursor, b: Cursor, c: Cursor | Earlier(a, b) && Earlier(b, c) ensures Earlier(a, c) {
      if a.oldest == b.oldest == c.oldest && Before(a.provider.text, b.provider.text) && Before(b.provider.text, c.provider.text) {
        BeforeTransitive(a.provider.text, b.provider.text, c.provider.text);
      }
    }
  }
}
