/** Splitting a batch into transactions, filtering them for privacy and adding up transfers (enclave/src/batch.rs). */
module BatchChunks {
  import opened Prelude
  import opened BatchSelect

  const MAX_ATOMIC_SETTLEMENTS_WITH_AUDIT: nat := 2

  datatype Prepared = Prepared(settlementId: Id, provider: Id, account: Pubkey, amount: nat, auditedAt: Time)

  /** `start_index` is a byte. */
  datatype Chunk = Chunk(start: nat, entries: seq<Prepared>)

  function Flat(chunks: seq<Chunk>): seq<Prepared>
  {
    if chunks == [] then [] else Flat(chunks[..|chunks| - 1]) + chunks[|chunks| - 1].entries
  }

  // ---- Balanced chunks ----

  /** Everything in order, no chunk empty or over the cap, sizes within one of each other, starts at their offsets. */
  ghost predicate Balanced(entries: seq<Prepared>, cap: nat, chunks: seq<Chunk>)
  {
    && Flat(chunks) == entries
    && (forall i :: 0 <= i < |chunks| ==> 1 <= |chunks[i].entries| <= cap)
    && (forall i, j :: 0 <= i < |chunks| && 0 <= j < |chunks| ==> |chunks[i].entries| <= |chunks[j].entries| + 1)
    && (forall i :: 0 <= i < |chunks| ==> chunks[i].start == Byte(|Flat(chunks[..i])|))
  }

  lemma MulMono(a: nat, b: nat, c: nat)
    requires a <= b
    ensures a * c <= b * c
  {
  }

  lemma MulLess(a: nat, b: nat, c: nat)
    requires a * c < b * c
    ensures a < b
  {
    if b <= a { MulMono(b, a, c); }
  }

  /** As few chunks as the cap allows: at least one, no more than there are entries. */
  lemma CountBounds(n: nat, cap: nat, count: nat, over: nat)
    requires n >= 1 && over < cap && n + cap - 1 == cap * count + over
    ensures 1 <= count <= n && n <= cap * count
  {
    MulMono(1, n, cap);
    MulMono(1, cap, n);
    assert cap * n == n * cap && (n + 1) * cap == n * cap + cap;
    assert count * cap < (n + 1) * cap;
    MulLess(count, n + 1, cap);
    assert 0 * cap < count * cap;
    MulLess(0, count, cap);
  }

  /** Spread evenly, chunks are not empty and stay under the cap. */
  lemma SizeBounds(n: nat, cap: nat, count: nat, base: nat, extra: nat)
    requires 1 <= count <= n <= cap * count && n == base * count + extra && extra < count
    ensures 1 <= base <= cap && (extra > 0 ==> base + 1 <= cap)
  {
    assert (base + 1) * count == base * count + count && (cap + 1) * count == cap * count + count;
    assert 0 * count == 0;
    SmallBase(n, count, base, extra);
    MulLess(0, base, count);
    MulLess(base, cap + 1, count);
    if extra > 0 { MulLess(base, cap, count); }
  }

  lemma SmallBase(n: nat, count: nat, base: nat, extra: nat)
    requires 1 <= count <= n && n == base * count + extra && extra < count
    ensures 0 < base * count
  {
  }

  function Size(base: nat, extra: nat, i: nat): nat { base + if i < extra then 1 else 0 }

  /** Where chunk `i` starts. */
  function StartOf(base: nat, extra: nat, i: nat): nat { if i == 0 then 0 else StartOf(base, extra, i - 1) + Size(base, extra, i - 1) }

  lemma {:induction false} StartIs(base: nat, extra: nat, i: nat)
    ensures StartOf(base, extra, i) == base * i + if i < extra then i else extra
  {
    if i > 0 {
      StartIs(base, extra, i - 1);
      assert base * i == base * (i - 1) + base;
    }
  }

  lemma {:induction false} StartGrows(base: nat, extra: nat, i: nat, j: nat)
    requires i <= j
    ensures StartOf(base, extra, i) <= StartOf(base, extra, j)
    decreases j
  {
    if i < j { StartGrows(base, extra, i, j - 1); }
  }

  function Byte(n: nat): nat { n % 256 }

  lemma FlatSnoc(chunks: seq<Chunk>, c: Chunk)
    ensures Flat(chunks + [c]) == Flat(chunks) + c.entries
  {
    assert (chunks + [c])[..|chunks|] == chunks;
  }

  /** `build_batch_chunks`, for any cap. */
  method BuildChunks(entries: seq<Prepared>, cap: nat) returns (chunks: seq<Chunk>)
    requires cap >= 1
    ensures Balanced(entries, cap, chunks)
    ensures entries != [] ==> |chunks| == (|entries| + cap - 1) / cap
  {
    hide Byte, Flat, StartOf, Cut, Balanced, Size;
    chunks := [];
    EmptyFlat();
    EmptyCut(cap);
    if entries == [] { return; }
    var n := |entries|;
    var count := (n + cap - 1) / cap;
    CountBounds(n, cap, count, (n + cap - 1) % cap);
    var base, extra := n / count, n % count;
    SizeBounds(n, cap, count, base, extra);
    StartIs(base, extra, count);
    StartIs(base, extra, 0);
    var start := 0;
    for i := 0 to count
      invariant |chunks| == i && start == StartOf(base, extra, i) <= n
      invariant Flat(chunks) == entries[..start]
      invariant Cut(chunks, base, extra)
    {
      var end := start + Size(base, extra, i);
      NextStart(base, extra, i);
      StartGrows(base, extra, i + 1, count);
      var chunk := Chunk(Byte(start), entries[start..end]);
      FlatSnoc(chunks, chunk);
      CutSnoc(chunks, base, extra, chunk);
      chunks := chunks + [chunk];
      assert entries[..start] + entries[start..end] == entries[..end];
      start := end;
    }
    assert entries[..n] == entries;
    CutBalanced(entries, cap, chunks, base, extra);
  }

  /** Chunks of the planned sizes, each at its offset. */
  ghost predicate Cut(chunks: seq<Chunk>, base: nat, extra: nat)
  {
    forall j :: 0 <= j < |chunks| ==> |chunks[j].entries| == Size(base, extra, j) && chunks[j].start == Byte(|Flat(chunks[..j])|)
  }

  lemma CutSnoc(chunks: seq<Chunk>, base: nat, extra: nat, chunk: Chunk)
    requires Cut(chunks, base, extra) && |chunk.entries| == Size(base, extra, |chunks|) && chunk.start == Byte(|Flat(chunks)|)
    ensures Cut(chunks + [chunk], base, extra)
  {
    hide Byte, Flat;
    var more := chunks + [chunk];
    assert forall j :: 0 <= j <= |chunks| ==> more[..j] == chunks[..j];
    assert chunks[..|chunks|] == chunks;
  }

  lemma CutBalanced(entries: seq<Prepared>, cap: nat, chunks: seq<Chunk>, base: nat, extra: nat)
    requires Cut(chunks, base, extra) && Flat(chunks) == entries && 1 <= base <= cap && (extra > 0 ==> base + 1 <= cap)
    ensures Balanced(entries, cap, chunks)
  {
    hide Byte, Flat;
  }

  lemma NextStart(base: nat, extra: nat, i: nat)
    ensures StartOf(base, extra, i + 1) == StartOf(base, extra, i) + Size(base, extra, i)
  {
  }

  lemma EmptyFlat()
    ensures Flat([]) == []
  {
  }

  lemma EmptyCut(cap: nat)
    ensures Balanced([], cap, []) && forall base, extra :: Cut([], base, extra)
  {
  }

  // ---- Audit indexes ----

  lemma {:induction false} FlatPrefix(chunks: seq<Chunk>, i: nat, j: nat)
    requires i < j <= |chunks|
    ensures |Flat(chunks[..i])| + |chunks[i].entries| <= |Flat(chunks[..j])|
    decreases j
  {
    assert chunks[..j][..j - 1] == chunks[..j - 1];
    if i < j - 1 { FlatPrefix(chunks, i, j - 1); }
  }

  /** Up to 256 entries, start plus offset is a different byte for every entry. */
  lemma IndexesUnique(entries: seq<Prepared>, cap: nat, chunks: seq<Chunk>, i: nat, a: nat, j: nat, b: nat)
    requires Balanced(entries, cap, chunks) && |entries| <= 256
    requires i < |chunks| && a < |chunks[i].entries| && j < |chunks| && b < |chunks[j].entries|
    ensures chunks[i].start + a == chunks[j].start + b ==> i == j && a == b
    ensures chunks[i].start + a < 256
  {
    hide Flat;
    FlatPrefix(chunks, i, |chunks|);
    FlatPrefix(chunks, j, |chunks|);
    assert chunks[..|chunks|] == chunks;
    assert chunks[i].start == |Flat(chunks[..i])| && chunks[j].start == |Flat(chunks[..j])|;
    if i < j { FlatPrefix(chunks, i, j); }
    if j < i { FlatPrefix(chunks, j, i); }
  }

  /** The byte that tells the entries of a batch apart: start plus offset, in 8 bits. */
  function IndexByte(chunk: Chunk, offset: nat): nat { Byte(chunk.start + offset) }

  predicate InChunk(chunks: seq<Chunk>, i: int, a: int) { 0 <= i < |chunks| && 0 <= a < |chunks[i].entries| }

  ghost predicate BytesDistinct(chunks: seq<Chunk>)
  {
    forall i, a, j, b ::
      InChunk(chunks, i, a) && InChunk(chunks, j, b) && IndexByte(chunks[i], a) == IndexByte(chunks[j], b) ==> i == j && a == b
  }

  /** Where an entry of the batch ended up. */
  lemma {:induction false} Located(chunks: seq<Chunk>, g: nat) returns (i: nat, a: nat)
    requires g < |Flat(chunks)|
    ensures i < |chunks| && a < |chunks[i].entries| && |Flat(chunks[..i])| + a == g
    decreases |chunks|
  {
    var n := |chunks| - 1;
    if g < |Flat(chunks[..n])| {
      i, a := Located(chunks[..n], g);
      assert chunks[..n][..i] == chunks[..i];
    } else {
      i, a := n, g - |Flat(chunks[..n])|;
    }
  }

  /** The byte is different for every entry if and only if there are at most 256 of them. */
  lemma BytesDistinctIff(entries: seq<Prepared>, cap: nat, chunks: seq<Chunk>)
    requires Balanced(entries, cap, chunks)
    ensures BytesDistinct(chunks) <==> |entries| <= 256
  {
    hide Flat;
    if |entries| <= 256 {
      forall i, a, j, b | InChunk(chunks, i, a) && InChunk(chunks, j, b) && IndexByte(chunks[i], a) == IndexByte(chunks[j], b)
        ensures i == j && a == b
      {
        IndexesUnique(entries, cap, chunks, i, a, j, b);
        IndexesUnique(entries, cap, chunks, j, b, i, a);
      }
    } else {
      var i, a := Located(chunks, 0);
      var j, b := Located(chunks, 256);
      assert IndexByte(chunks[i], a) == 0 == IndexByte(chunks[j], b);
      assert !(i == j && a == b);
    }
  }

  // ---- Privacy filter ----

  function Accounts(entries: seq<Prepared>): set<Pubkey> { set e | e in entries :: e.account }

  predicate Overdue(entries: seq<Prepared>, now: Time)
  {
    exists e :: e in entries && now - e.auditedAt >= MAX_SETTLEMENT_DELAY_SEC
  }

  predicate Mixed(chunk: Chunk, now: Time, config: Config)
  {
    |Accounts(chunk.entries)| >= config.minProviders || Overdue(chunk.entries, now)
  }

  function KeptChunks(chunks: seq<Chunk>, now: Time, config: Config): seq<Chunk>
  {
    if chunks == [] then [] else
      var last := chunks[|chunks| - 1];
      KeptChunks(chunks[..|chunks| - 1], now, config) + if Mixed(last, now, config) then [last] else []
  }

  /** `privacy_filter_batch_chunks` */
  function PrivacyFilter(chunks: seq<Chunk>, now: Time, mode: Mode, config: Config): seq<Chunk>
  {
    if mode == Flush || config.minProviders <= 1 then chunks else KeptChunks(chunks, now, config)
  }

  /** The kept chunks are some of the chunks, in order. */
  ghost predicate Sublist(kept: seq<Chunk>, chunks: seq<Chunk>, at: seq<nat>)
  {
    && |at| == |kept| && (forall i, j :: 0 <= i < j < |at| ==> at[i] < at[j])
    && (forall i :: 0 <= i < |at| ==> at[i] < |chunks| && kept[i] == chunks[at[i]])
  }

  lemma {:induction false} KeptAreSome(chunks: seq<Chunk>, now: Time, config: Config) returns (at: seq<nat>)
    ensures Sublist(KeptChunks(chunks, now, config), chunks, at)
    ensures forall j :: 0 <= j < |chunks| ==> (j in at <==> Mixed(chunks[j], now, config))
  {
    if chunks == [] {
      at := [];
    } else {
      var n := |chunks| - 1;
      at := KeptAreSome(chunks[..n], now, config);
      if Mixed(chunks[n], now, config) { at := at + [n]; }
    }
  }

  /** The filter keeps a chunk, in its place, exactly when it is mixed enough or no filtering is asked for. */
  lemma FilteredAreSome(chunks: seq<Chunk>, now: Time, mode: Mode, config: Config) returns (at: seq<nat>)
    ensures Sublist(PrivacyFilter(chunks, now, mode, config), chunks, at)
    ensures forall j :: 0 <= j < |chunks| ==> (j in at <==> mode == Flush || config.minProviders <= 1 || Mixed(chunks[j], now, config))
  {
    if mode == Flush || config.minProviders <= 1 {
      at := seq(|chunks|, i => i);
      forall j | 0 <= j < |chunks| ensures j in at { assert at[j] == j; }
    } else {
      at := KeptAreSome(chunks, now, config);
    }
  }

  /** Indexes stay unique when chunks are filtered out, since the kept ones keep their starts. */
  lemma FilteredIndexesUnique(entries: seq<Prepared>, cap: nat, chunks: seq<Chunk>, now: Time, mode: Mode, config: Config,
                              i: nat, a: nat, j: nat, b: nat)
    requires Balanced(entries, cap, chunks) && |entries| <= 256
    requires var kept := PrivacyFilter(chunks, now, mode, config);
      i < |kept| && j < |kept| && a < |kept[i].entries| && b < |kept[j].entries|
    ensures var kept := PrivacyFilter(chunks, now, mode, config);
      kept[i].start + a == kept[j].start + b ==> i == j && a == b
  {
    hide Balanced, PrivacyFilter;
    var at := FilteredAreSome(chunks, now, mode, config);
    IndexesUnique(entries, cap, chunks, at[i], a, at[j], b);
  }

  /**
   * The filter's liveness escape never opens: the audit time is the batch time, so nothing is overdue, and every
   * chunk of an automatic batch pays at least the required number of token accounts.
   */
  lemma EnoughAccounts(chunks: seq<Chunk>, now: Time, config: Config, chunk: Chunk)
    requires chunk in PrivacyFilter(chunks, now, Auto, config)
    requires forall c :: c in chunks ==> c.entries != [] && forall e :: e in c.entries ==> e.auditedAt == now
    ensures chunk in chunks && |Accounts(chunk.entries)| >= config.minProviders
  {
    var at := FilteredAreSome(chunks, now, Auto, config);
    var i :| 0 <= i < |PrivacyFilter(chunks, now, Auto, config)| && PrivacyFilter(chunks, now, Auto, config)[i] == chunk;
    assert chunk == chunks[at[i]];
    if config.minProviders <= 1 {
      assert chunk.entries[0].account in Accounts(chunk.entries);
      assert |Accounts(chunk.entries)| >= 1;
    }
  }

  // ---- Transfers ----

  /** What a list of settlements pays to one token account. */
  function PaidTo(entries: seq<Prepared>, account: Pubkey): nat
  {
    if entries == [] then 0 else
      var last := entries[|entries| - 1];
      PaidTo(entries[..|entries| - 1], account) + if last.account == account then last.amount else 0
  }

  lemma {:induction false} PaidToGrows(entries: seq<Prepared>, n: nat, account: Pubkey)
    requires n <= |entries|
    ensures PaidTo(entries[..n], account) <= PaidTo(entries, account)
    decreases |entries|
  {
    if n < |entries| {
      var m := |entries| - 1;
      assert entries[..m][..n] == entries[..n];
      PaidToGrows(entries[..m], n, account);
    } else {
      assert entries[..n] == entries;
    }
  }

  lemma {:induction false} UnpaidAccount(entries: seq<Prepared>, account: Pubkey)
    requires account !in Accounts(entries)
    ensures PaidTo(entries, account) == 0
  {
    if entries != [] {
      var n := |entries| - 1;
      assert entries == entries[..n] + [entries[n]];
      assert entries[n] in entries;
      UnpaidAccount(entries[..n], account);
    }
  }

  /** `aggregate_settlements`: one transfer per token account, refused if a total leaves 64 bits. */
  method Aggregate(entries: seq<Prepared>) returns (transfers: Option<map<Pubkey, nat>>)
    ensures transfers.None? <==> exists account :: PaidTo(entries, account) > U64_MAX
    ensures transfers.Some? ==> transfers.value.Keys == Accounts(entries)
    ensures transfers.Some? ==> forall account :: account in transfers.value ==> transfers.value[account] == PaidTo(entries, account)
  {
    var totals: map<Pubkey, nat> := map[];
    for i := 0 to |entries|
      invariant totals.Keys == Accounts(entries[..i])
      invariant forall account :: account in totals ==> totals[account] == PaidTo(entries[..i], account) && totals[account] <= U64_MAX
    {
      var e := entries[i];
      assert entries[..i + 1][..i] == entries[..i];
      assert entries[..i + 1] == entries[..i] + [e];
      if e.account !in totals {
        UnpaidAccount(entries[..i], e.account);
        totals := totals[e.account := 0];
      }
      var total := totals[e.account] + e.amount;
      if total > U64_MAX {
        assert PaidTo(entries[..i + 1], e.account) == total;
        PaidToGrows(entries, i + 1, e.account);
        return None;
      }
      totals := totals[e.account := total];
    }
    assert entries[..|entries|] == entries;
    forall account ensures PaidTo(entries, account) <= U64_MAX {
      if account !in totals { UnpaidAccount(entries, account); }
    }
    return Some(totals);
  }
}
