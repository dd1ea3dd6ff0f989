/**
 * What building the providers' cursors does to the vault (enclave/src/batch.rs, `build_provider_batch_cursors`): records
 * are looked up or rebuilt, and references to settlements that cannot be found are pruned. The order in which the
 * credits are visited is a parameter.
 */
module CursorPass {
  import opened Prelude
  import opened VaultTypes
  import opened Ledger
  import opened CreditIndex
  import opened BatchSelect

  /** `reconstruct_settlement_record` */
  ghost function Reconstructed(v: Vault, p: Id, sid: Id): Option<Settlement>
  {
    match Owner(v.reservations, sid)
    case None => None
    case Some(vid) =>
      var r := v.reservations[vid];
      if r.provider != p || r.status != SettledOffchain || p !in v.providers then None
      else Some(Settlement(sid, r.client, v.providers[p].account, r.amount, if r.settledAt.Some? then r.settledAt.value else r.createdAt))
  }

  /** The record found or rebuilt for a listed id, and the history with it. */
  ghost function Looked(v: Vault, p: Id, sid: Id): (Vault, Option<Settlement>)
  {
    if sid in v.history then (v, Some(v.history[sid])) else
      var record := Reconstructed(v, p, sid);
      if record.Some? then (v.(history := v.history[sid := record.value]), record) else (v, None)
  }

  datatype Scan = Scan(v: Vault, found: seq<Candidate>, missing: seq<Id>)

  ghost function Scanned(v: Vault, p: Id, ids: seq<Id>): Scan
  {
    if ids == [] then Scan(v, [], []) else
      var sid := ids[|ids| - 1];
      var before := Scanned(v, p, ids[..|ids| - 1]);
      var looked := Looked(before.v, p, sid);
      if looked.1.Some? then Scan(looked.0, before.found + [Candidate(sid, looked.1.value.timestamp, looked.1.value.amount)], before.missing)
      else Scan(looked.0, before.found, before.missing + [sid])
  }

  datatype Reference = Reference(provider: Id, id: Id)

  datatype Pass = Pass(v: Vault, cursors: seq<Cursor>, missing: seq<Reference>)

  function Tagged(p: Id, ids: seq<Id>): seq<Reference> { seq(|ids|, i requires 0 <= i < |ids| => Reference(p, ids[i])) }

  ghost function PassOver(v: Vault, order: seq<Id>, now: Time, mode: Mode, config: Config): Pass
    requires forall p :: p in order ==> p in v.credits
  {
    if order == [] then Pass(v, [], []) else
      var n := |order| - 1;
      var p := order[n];
      assert order[..n] <= order;
      var before := PassOver(v, order[..n], now, mode, config);
      var scan := Scanned(before.v, p, v.credits[p].ids);
      var chosen := Chosen(scan.found, now, mode, config);
      Pass(scan.v, before.cursors + (if chosen.Some? then [Cursor(p, chosen.value.oldest, chosen.value.ids)] else []),
           before.missing + Tagged(p, scan.missing))
  }

  /** `prune_missing_settlement_reference`: the credit is recomputed from what the history still records. */
  function Pruned(credit: Credit, sid: Id, h: map<Id, Settlement>): Credit
  {
    var ids := Without(credit.ids, sid);
    Restamped(credit.(amount := Capped(HistSum(ids, h)), ids := ids), h)
  }

  function PrunedFrom(credits: map<Id, Credit>, ref: Reference, h: map<Id, Settlement>): map<Id, Credit>
    requires ref.provider in credits
  {
    var credit := Pruned(credits[ref.provider], ref.id, h);
    if Spent(credit) then credits - {ref.provider} else credits[ref.provider := credit]
  }

  function PruneOne(v: Vault, ref: Reference): Vault
  {
    if ref.provider !in v.credits then v else v.(credits := PrunedFrom(v.credits, ref, v.history))
  }

  function PruneEach(v: Vault, refs: seq<Reference>): Vault
  {
    if refs == [] then v else PruneOne(PruneEach(v, refs[..|refs| - 1]), refs[|refs| - 1])
  }

  /** The part of a credit that no recorded settlement accounts for. */
  function UnbackedOf(h: map<Id, Settlement>): Credit -> nat
  {
    (credit: Credit) => SatSub(credit.amount, HistSum(credit.ids, h))
  }

  /** The visiting order lists the credits, and their amounts are 64-bit numbers. */
  ghost predicate Listing(v: Vault, order: seq<Id>)
  {
    (forall p :: p in order <==> p in v.credits) && (forall p :: p in v.credits ==> v.credits[p].amount <= U64_MAX)
  }

  /** Every listed settlement is recorded. */
  ghost predicate AllBacked(v: Vault) { forall p :: p in v.credits ==> AllRecorded(v.credits[p].ids, v.history) }

  /** The vault once the cursors are built. */
  ghost function Planned(v: Vault, order: seq<Id>, now: Time, mode: Mode, config: Config): Vault
  {
    if forall p :: p in order ==> p in v.credits then
      var pass := PassOver(v, order, now, mode, config);
      PruneEach(pass.v, pass.missing)
    else v
  }
}
