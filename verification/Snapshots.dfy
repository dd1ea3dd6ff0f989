/** Capturing the vault and loading it back (enclave/src/snapshot.rs), and snapshot plus log suffix as recovery. */
module Snapshots {
  import opened Prelude
  import opened VaultTypes
  import opened VaultObject
  import opened Invariant
  import opened CreditIndex
  import R = Replay
  import O = ReplayObject

  /** The captured lists. The source sorts each one; no statement here depends on their order. */
  datatype Snapshot = Snapshot(
    clients: seq<(Pubkey, Balance)>, reservations: seq<Reservation>, credits: seq<Credit>, providers: seq<Provider>,
    history: seq<Settlement>, batches: seq<(Id, BatchInfo)>, withdrawals: seq<Withdrawal>, channels: seq<Channel>,
    receiptNonce: nat, withdrawNonce: nat, processed: seq<Id>, lastSignature: Option<Id>, lastSlot: nat,
    included: Option<nat>)

  /** A list holds exactly the values of a map. */
  ghost predicate Lists<K, V>(m: map<K, V>, xs: seq<V>)
  {
    && (forall k :: k in m ==> m[k] in xs)
    && (forall x :: x in xs ==> exists k :: k in m && m[k] == x)
  }

  ghost predicate ListsPairs<K, V>(m: map<K, V>, xs: seq<(K, V)>)
  {
    && (forall k :: k in m ==> (k, m[k]) in xs)
    && (forall x :: x in xs ==> x.0 in m && m[x.0] == x.1)
  }

  ghost predicate Captures(s: Snapshot, v: Vault)
  {
    && ListsPairs(v.clients, s.clients) && Lists(v.reservations, s.reservations) && Lists(v.credits, s.credits)
    && Lists(v.providers, s.providers) && Lists(v.history, s.history) && ListsPairs(v.batches, s.batches)
    && Lists(v.withdrawals, s.withdrawals) && Lists(v.channels, s.channels)
    && s.receiptNonce == v.receiptNonce && s.withdrawNonce == v.withdrawNonce
    && (forall id :: id in s.processed <==> id in v.processed) && s.lastSignature == v.lastSignature && s.lastSlot == v.lastSlot
  }

  // ---- Capturing ----

  method ValuesOf<K(==), V(==)>(m: map<K, V>) returns (xs: seq<V>)
    ensures Lists(m, xs) && |xs| == |m|
  {
    var rest := m;
    xs := [];
    while rest != map[]
      invariant rest.Keys <= m.Keys && (forall k :: k in rest ==> rest[k] == m[k])
      invariant |xs| + |rest| == |m|
      invariant forall k :: k in m && k !in rest ==> m[k] in xs
      invariant forall x :: x in xs ==> exists k :: k in m && m[k] == x
      decreases |rest|
    {
      var k :| k in rest.Keys;
      xs := xs + [rest[k]];
      assert |rest - {k}| == |rest| - 1 by { assert rest.Keys == (rest - {k}).Keys + {k}; }
      rest := rest - {k};
    }
  }

  method PairsOf<K(==), V(==)>(m: map<K, V>) returns (xs: seq<(K, V)>)
    ensures ListsPairs(m, xs) && |xs| == |m|
  {
    var rest := m;
    xs := [];
    while rest != map[]
      invariant rest.Keys <= m.Keys && (forall k :: k in rest ==> rest[k] == m[k])
      invariant |xs| + |rest| == |m|
      invariant forall k :: k in m && k !in rest ==> (k, m[k]) in xs
      invariant forall x :: x in xs ==> x.0 in m && m[x.0] == x.1
      decreases |rest|
    {
      var k :| k in rest.Keys;
      xs := xs + [(k, rest[k])];
      assert |rest - {k}| == |rest| - 1 by { assert rest.Keys == (rest - {k}).Keys + {k}; }
      rest := rest - {k};
    }
  }

  method Members(s: set<Id>) returns (xs: seq<Id>)
    ensures (forall id :: id in xs <==> id in s) && |xs| == |s|
  {
    var rest := s;
    xs := [];
    while rest != {}
      invariant rest <= s && |xs| + |rest| == |s| && (forall id :: id in xs <==> id in s && id !in rest)
      decreases |rest|
    {
      var id :| id in rest;
      xs := xs + [id];
      rest := rest - {id};
    }
  }

  method Capture(v: VaultState, included: Option<nat>) returns (s: Snapshot)
    ensures Captures(s, v.Value()) && s.included == included
  {
    var clients := PairsOf(v.clients);
    var reservations := ValuesOf(v.reservations);
    var credits := ValuesOf(v.credits);
    var providers := ValuesOf(v.providers);
    var history := ValuesOf(v.history);
    var batches := PairsOf(v.batches);
    var withdrawals := ValuesOf(v.withdrawals);
    var channels := ValuesOf(v.channels);
    var processed := Members(v.processed);
    s := Snapshot(clients, reservations, credits, providers, history, batches, withdrawals, channels,
                  v.receiptNonce, v.withdrawNonce, processed, v.lastSignature, v.lastSlot, included);
  }

  // ---- Loading ----

  /** Inserting a list of values under their own keys, later ones winning. */
  ghost function Inserted<K, V>(xs: seq<V>, key: V -> K): map<K, V>
  {
    if xs == [] then map[] else Inserted(xs[..|xs| - 1], key)[key(xs[|xs| - 1]) := xs[|xs| - 1]]
  }

  ghost function InsertedPairs<K, V>(xs: seq<(K, V)>): map<K, V>
  {
    if xs == [] then map[] else InsertedPairs(xs[..|xs| - 1])[xs[|xs| - 1].0 := xs[|xs| - 1].1]
  }

  /** The payment index is rebuilt from the reservations. */
  ghost function Reindexed(xs: seq<Reservation>): map<Id, Id>
  {
    if xs == [] then map[] else Reindexed(xs[..|xs| - 1])[xs[|xs| - 1].paymentId := xs[|xs| - 1].verificationId]
  }

  function ByVerification(): Reservation -> Id { (r: Reservation) => r.verificationId }
  function ByCreditor(): Credit -> Id { (credit: Credit) => credit.provider }
  function ByProvider(): Provider -> Id { (p: Provider) => p.providerId }
  function BySettlement(): Settlement -> Id { (s: Settlement) => s.settlementId }
  function ByNonce(): Withdrawal -> nat { (w: Withdrawal) => w.nonce }
  function ByChannel(): Channel -> Id { (ch: Channel) => ch.channelId }

  function SetOf(xs: seq<Id>): set<Id> { set id | id in xs }

  ghost function Loaded(s: Snapshot): Vault
  {
    Vault(InsertedPairs(s.clients), Inserted(s.reservations, ByVerification()), Reindexed(s.reservations),
          Inserted(s.credits, ByCreditor()), Inserted(s.providers, ByProvider()), Inserted(s.history, BySettlement()),
          InsertedPairs(s.batches), Inserted(s.withdrawals, ByNonce()), Inserted(s.channels, ByChannel()),
          s.receiptNonce, s.withdrawNonce, SetOf(s.processed), s.lastSignature, s.lastSlot)
  }

  method Refill<K(==), V(==)>(xs: seq<V>, key: V -> K) returns (m: map<K, V>)
    ensures m == Inserted(xs, key)
  {
    m := map[];
    for i := 0 to |xs|
      invariant m == Inserted(xs[..i], key)
    {
      assert xs[..i + 1][..i] == xs[..i];
      m := m[key(xs[i]) := xs[i]];
    }
    assert xs[..|xs|] == xs;
  }

  method RefillPairs<K(==), V(==)>(xs: seq<(K, V)>) returns (m: map<K, V>)
    ensures m == InsertedPairs(xs)
  {
    m := map[];
    for i := 0 to |xs|
      invariant m == InsertedPairs(xs[..i])
    {
      assert xs[..i + 1][..i] == xs[..i];
      m := m[xs[i].0 := xs[i].1];
    }
    assert xs[..|xs|] == xs;
  }

  method RefillReservations(xs: seq<Reservation>) returns (reservations: map<Id, Reservation>, payments: map<Id, Id>)
    ensures reservations == Inserted(xs, ByVerification()) && payments == Reindexed(xs)
  {
    reservations, payments := map[], map[];
    for i := 0 to |xs|
      invariant reservations == Inserted(xs[..i], ByVerification()) && payments == Reindexed(xs[..i])
    {
      assert xs[..i + 1][..i] == xs[..i];
      payments := payments[xs[i].paymentId := xs[i].verificationId];
      reservations := reservations[xs[i].verificationId := xs[i]];
    }
    assert xs[..|xs|] == xs;
  }

  method LoadClients(v: VaultState, s: Snapshot)
    modifies v`clients, v`reservations, v`payments, v`withdrawals, v`channels
    ensures v.clients == InsertedPairs(s.clients) && v.reservations == Inserted(s.reservations, ByVerification())
    ensures v.payments == Reindexed(s.reservations)
    ensures v.withdrawals == Inserted(s.withdrawals, ByNonce()) && v.channels == Inserted(s.channels, ByChannel())
  {
    hide Inserted, InsertedPairs, Reindexed;
    v.clients := RefillPairs(s.clients);
    v.reservations, v.payments := RefillReservations(s.reservations);
    v.withdrawals := Refill(s.withdrawals, ByNonce());
    v.channels := Refill(s.channels, ByChannel());
  }

  method LoadProviders(v: VaultState, s: Snapshot)
    modifies v`credits, v`providers, v`history, v`batches
    ensures v.credits == Inserted(s.credits, ByCreditor()) && v.providers == Inserted(s.providers, ByProvider())
    ensures v.history == Inserted(s.history, BySettlement()) && v.batches == InsertedPairs(s.batches)
  {
    hide Inserted, InsertedPairs;
    v.credits := Refill(s.credits, ByCreditor());
    v.providers := Refill(s.providers, ByProvider());
    v.history := Refill(s.history, BySettlement());
    v.batches := RefillPairs(s.batches);
  }

  /** Clears and refills every map. */
  method Load(v: VaultState, s: Snapshot)
    modifies v
    ensures v.Value() == Loaded(s) && v.log == old(v.log)
  {
    hide Inserted, InsertedPairs, Reindexed, SetOf, ByVerification, ByCreditor, ByProvider, BySettlement, ByNonce, ByChannel;
    LoadClients(v, s);
    LoadProviders(v, s);
    v.processed, v.lastSignature := SetOf(s.processed), s.lastSignature;
    v.receiptNonce, v.withdrawNonce, v.lastSlot := s.receiptNonce, s.withdrawNonce, s.lastSlot;
  }

  /** `apply_snapshot`: load the lists, then recompute the cached expiries. */
  method Apply(v: VaultState, s: Snapshot)
    modifies v
    ensures v.Value() == R.RefreshAll(Loaded(s)) && v.log == old(v.log)
  {
    hide Loaded, R.RefreshAll;
    Load(v, s);
    O.RefreshAll(v);
  }

  // ---- Round trip ----

  lemma {:induction false} InsertedHas<K, V>(xs: seq<V>, key: V -> K, m: map<K, V>)
    requires forall x :: x in xs ==> key(x) in m && m[key(x)] == x
    ensures forall k :: k in Inserted(xs, key) <==> exists x :: x in xs && key(x) == k
    ensures forall k :: k in Inserted(xs, key) ==> k in m && Inserted(xs, key)[k] == m[k]
    decreases |xs|
  {
    if xs != [] {
      var n := |xs| - 1;
      assert xs == xs[..n] + [xs[n]];
      InsertedHas(xs[..n], key, m);
    }
  }

  /** Values that carry their own key come back as the map they were taken from. */
  lemma InsertedIsMap<K, V>(m: map<K, V>, xs: seq<V>, key: V -> K)
    requires Lists(m, xs) && forall k :: k in m ==> key(m[k]) == k
    ensures Inserted(xs, key) == m
  {
    assert forall x :: x in xs ==> key(x) in m && m[key(x)] == x;
    InsertedHas(xs, key, m);
    forall k | k in m ensures k in Inserted(xs, key) { assert m[k] in xs && key(m[k]) == k; }
  }

  lemma {:induction false} PairsHas<K, V>(xs: seq<(K, V)>, m: map<K, V>)
    requires forall x :: x in xs ==> x.0 in m && m[x.0] == x.1
    ensures forall k :: k in InsertedPairs(xs) <==> exists x :: x in xs && x.0 == k
    ensures forall k :: k in InsertedPairs(xs) ==> k in m && InsertedPairs(xs)[k] == m[k]
    decreases |xs|
  {
    if xs != [] {
      var n := |xs| - 1;
      assert xs == xs[..n] + [xs[n]];
      PairsHas(xs[..n], m);
    }
  }

  lemma PairsAreMap<K, V>(m: map<K, V>, xs: seq<(K, V)>)
    requires ListsPairs(m, xs)
    ensures InsertedPairs(xs) == m
  {
    PairsHas(xs, m);
    forall k | k in m ensures k in InsertedPairs(xs) { assert (k, m[k]) in xs && (k, m[k]).0 == k; }
  }

  lemma {:induction false} ReindexedHas(xs: seq<Reservation>, payments: map<Id, Id>)
    requires forall r :: r in xs ==> r.paymentId in payments && payments[r.paymentId] == r.verificationId
    ensures forall p :: p in Reindexed(xs) <==> exists r :: r in xs && r.paymentId == p
    ensures forall p :: p in Reindexed(xs) ==> p in payments && Reindexed(xs)[p] == payments[p]
    decreases |xs|
  {
    if xs != [] {
      var n := |xs| - 1;
      assert xs == xs[..n] + [xs[n]];
      ReindexedHas(xs[..n], payments);
    }
  }

  lemma ReindexedIsIndex(rs: map<Id, Reservation>, payments: map<Id, Id>, xs: seq<Reservation>)
    requires Lists(rs, xs) && PaymentsOk(payments, rs) && forall vid :: vid in rs ==> rs[vid].verificationId == vid
    ensures Reindexed(xs) == payments
  {
    ReindexedHas(xs, payments);
    forall p | p in payments ensures p in Reindexed(xs) { assert rs[payments[p]] in xs && rs[payments[p]].paymentId == p; }
  }

  /** The ids and numbers inside the stored values are the keys they are stored under. */
  lemma OwnKeys(k: Crypto, v: Vault)
    requires Inv(k, v)
    ensures forall vid :: vid in v.reservations ==> v.reservations[vid].verificationId == vid
    ensures forall p :: p in v.credits ==> v.credits[p].provider == p
    ensures forall p :: p in v.providers ==> v.providers[p].providerId == p
    ensures forall sid :: sid in v.history ==> v.history[sid].settlementId == sid
    ensures forall n :: n in v.withdrawals ==> v.withdrawals[n].nonce == n
    ensures forall id :: id in v.channels ==> v.channels[id].channelId == id
  {
    hide MoneyOk, PaymentsOk, DeliveredOk, ListedOk, NoneSpent, HistSum, SidsUnique;
    forall sid | sid in v.history ensures v.history[sid].settlementId == sid {
      var vid := L.Owner(v.reservations, sid).value;
      assert v.history[sid] == RecordOf(v.reservations[vid], v.providers);
    }
  }

  /** In reachable states every cached expiry is right already. */
  lemma CacheIsFresh(k: Crypto, v: Vault)
    requires Inv(k, v)
    ensures R.RefreshAll(v) == v
  {
    hide L.LockedUntil, LockedOk, Shortfall, IndexOk, SettledOk, ChannelsOk;
    forall c | c in v.clients ensures R.RefreshAll(v).clients[c] == v.clients[c] {
      assert CachedUntil(v.clients, c) == L.LockedUntil(c, v.reservations, v.withdrawals, v.channels);
    }
    assert R.RefreshAll(v).clients == v.clients;
  }

  /** Loading what was captured gives the vault back. */
  lemma LoadedIsCaptured(k: Crypto, v: Vault, s: Snapshot)
    requires Inv(k, v) && Captures(s, v)
    ensures Loaded(s) == v
  {
    hide Inserted, InsertedPairs, Reindexed, Lists, ListsPairs, MoneyOk, SettledOk, ChannelsOk, OwnersOk;
    OwnKeys(k, v);
    PairsAreMap(v.clients, s.clients);
    InsertedIsMap(v.reservations, s.reservations, ByVerification());
    ReindexedIsIndex(v.reservations, v.payments, s.reservations);
    InsertedIsMap(v.credits, s.credits, ByCreditor());
    InsertedIsMap(v.providers, s.providers, ByProvider());
    InsertedIsMap(v.history, s.history, BySettlement());
    PairsAreMap(v.batches, s.batches);
    InsertedIsMap(v.withdrawals, s.withdrawals, ByNonce());
    InsertedIsMap(v.channels, s.channels, ByChannel());
    assert SetOf(s.processed) == v.processed;
  }

  /** Capturing a reachable vault and applying the snapshot gives back that vault, cached expiries included. */
  lemma RoundTrip(k: Crypto, v: Vault, s: Snapshot)
    requires Inv(k, v) && Captures(s, v)
    ensures R.RefreshAll(Loaded(s)) == v
  {
    hide Inv, Captures, Loaded, R.RefreshAll;
    LoadedIsCaptured(k, v, s);
    CacheIsFresh(k, v);
  }
}
